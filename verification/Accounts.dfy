/**
 Accounts and the reports assigned to them: retirement, suspension and role changes, the first
 administrator, and assignment. The lifecycle guard makes each of these one step; everything else a
 report goes through is a step of that report.
 */
module Accounts {
  import opened Basics
  import R = Reports

  datatype Suspension = Suspension(actor: nat, reason: Option<string>)

  datatype Account = Account(
    name: string,
    email: Address,
    role: R.Role,
    active: bool,
    retired: bool,
    verified: bool,
    isLocal: bool,
    suspension: Option<Suspension>)

  datatype Changes = Changes(name: Option<string>, role: Option<R.Role>, active: Option<bool>)

  datatype Refusal =
    | NotFound | NotAdministrator | NotActive | IsRetired | OwnAccount | FinalAdministrator | NotVerified
    | HasOpenReports | AlreadySuspended | NotCitizen | HasAdministrator | NotAgency

  datatype State = State(accounts: seq<Account>, docs: seq<R.Doc>)

  datatype Action =
    | Join(name: string, email: Address, verified: bool, isLocal: bool)
    | Verify(account: nat)
    | SetEmail(account: nat, email: Address)
    | EditDetails(target: nat, actor: nat, own: bool, newName: Option<string>)
    | Mutate(target: nat, actor: nat, changes: Changes, reason: Option<string>)
    | Bootstrap(target: nat)
    | Retire(target: nat, actor: nat, now: nat, bumps: seq<nat>)
    | FileReport(reporter: nat, description: string, location: string, hint: Option<R.Category>,
                 fallback: R.Category, priority: R.Priority, now: nat)
    | OnReport(report: nat, deed: R.Action)

  const Start: State := State([], [])
  const RETIRED_NAME := "Retired account"

  // ----- reading the state -----

  predicate IsActiveAdmin(a: Account) {
    a.role.AdminRole? && a.active && !a.retired
  }

  predicate HasActiveAdmin(accounts: seq<Account>, u: nat) {
    u < |accounts| && IsActiveAdmin(accounts[u])
  }

  function ActiveAdmins(accounts: seq<Account>): set<nat> {
    set u | 0 <= u < |accounts| && IsActiveAdmin(accounts[u])
  }

  /** An account that may hold open reports. */
  predicate MayHold(accounts: seq<Account>, u: nat) {
    u < |accounts| && accounts[u].role.AgencyRole? && accounts[u].active && !accounts[u].retired
  }

  predicate HoldsOpen(r: R.Report, u: nat) {
    r.assignee == Some(u) && !R.Terminal(r.status)
  }

  function OpenReports(docs: seq<R.Doc>, u: nat): set<nat> {
    set d | 0 <= d < |docs| && HoldsOpen(docs[d].report, u)
  }

  // ----- the guarded transactions -----

  predicate RemovesAdministrator(a: Account, c: Changes) {
    a.role.AdminRole? && ((c.role.Some? && !c.role.value.AdminRole?) || c.active == Some(false))
  }

  predicate RemovesAgency(a: Account, c: Changes) {
    a.role.AgencyRole? && ((c.role.Some? && !c.role.value.AgencyRole?) || c.active == Some(false))
  }

  predicate BecomesStaff(a: Account, c: Changes) {
    c.role.Some? && (c.role.value.AdminRole? || c.role.value.AgencyRole?) && c.role.value != a.role
  }

  function Changed(a: Account, c: Changes, actor: nat, reason: Option<string>): Account {
    a.(name := c.name.GetOr(a.name),
       role := c.role.GetOr(a.role),
       active := c.active.GetOr(a.active),
       suspension := if c.active == Some(false) && a.active then Some(Suspension(actor, reason))
                     else if c.active == Some(true) then None
                     else a.suspension)
  }

  function CheckMutation(s: State, target: nat, actor: nat, c: Changes,
                         reason: Option<string>): Result<Account, Refusal> {
    if target >= |s.accounts| then Refused(NotFound)
    else if !HasActiveAdmin(s.accounts, actor) then Refused(NotAdministrator)
    else
      var a := s.accounts[target];
      if a.retired then Refused(IsRetired)
      else if BecomesStaff(a, c) && a.isLocal && !a.verified then Refused(NotVerified)
      else if RemovesAdministrator(a, c) && target == actor then Refused(OwnAccount)
      else if RemovesAdministrator(a, c) && |ActiveAdmins(s.accounts)| <= 1 then Refused(FinalAdministrator)
      else if RemovesAgency(a, c) && |OpenReports(s.docs, target)| > 0 then Refused(HasOpenReports)
      else if c.active == Some(false) && !a.active && reason.Some? then Refused(AlreadySuspended)
      else Ok(Changed(a, c, actor, reason))
  }

  function CheckDetails(s: State, target: nat, actor: nat, own: bool, name: Option<string>): Result<Account, Refusal> {
    if target >= |s.accounts| then Refused(NotFound)
    else if s.accounts[target].retired then Refused(IsRetired)
    else if own && (actor != target || !s.accounts[target].active) then Refused(NotActive)
    else if !own && !HasActiveAdmin(s.accounts, actor) then Refused(NotAdministrator)
    else Ok(s.accounts[target].(name := name.GetOr(s.accounts[target].name)))
  }

  function CheckBootstrap(s: State, target: nat): Result<Account, Refusal> {
    if target >= |s.accounts| then Refused(NotFound)
    else
      var a := s.accounts[target];
      if a.retired || !a.active then Refused(NotActive)
      else if !a.role.CitizenRole? then Refused(NotCitizen)
      else if |ActiveAdmins(s.accounts)| > 0 then Refused(HasAdministrator)
      else Ok(a.(role := R.AdminRole))
  }

  function RetiredAccount(a: Account, id: nat): Account {
    a.(name := RETIRED_NAME, email := RetiredAddress(id), active := false, retired := true, suspension := None)
  }

  function CheckRetirement(s: State, target: nat, actor: nat): Result<Account, Refusal> {
    if target >= |s.accounts| then Refused(NotFound)
    else if actor >= |s.accounts| then Refused(NotAdministrator)
    else
      var a := s.accounts[target];
      if a.retired then Refused(IsRetired)
      else if target == actor && a.role.AdminRole? then Refused(OwnAccount)
      else if target != actor && !HasActiveAdmin(s.accounts, actor) then Refused(NotAdministrator)
      else if a.role.AdminRole? && |ActiveAdmins(s.accounts)| <= 1 then Refused(FinalAdministrator)
      else Ok(RetiredAccount(a, target))
  }

  function BumpAt(bumps: seq<nat>, d: nat): nat {
    if d < |bumps| then bumps[d] else 0
  }

  /** What one report becomes when an account retires: an agency account leaves its open reports. */
  function ReleasedDoc(doc: R.Doc, target: nat, wasAgency: bool, actor: nat, now: nat, bump: nat): R.Doc {
    if wasAgency then R.Step(doc, R.Retire(target, actor, now, bump))
    else doc.(report := doc.report.(version := doc.report.version + bump))
  }

  function ReleasedDocs(docs: seq<R.Doc>, target: nat, wasAgency: bool, actor: nat, now: nat,
                        bumps: seq<nat>): seq<R.Doc> {
    seq(|docs|, d requires 0 <= d < |docs| => ReleasedDoc(docs[d], target, wasAgency, actor, now, BumpAt(bumps, d)))
  }

  /** Who may be given a report, and by whom, as the assignment transaction finds them. */
  function CheckAssignment(s: State, actor: nat, target: Option<nat>): Result<Option<nat>, Refusal> {
    if target.Some? && target.value >= |s.accounts| then Refused(NotFound)
    else if !HasActiveAdmin(s.accounts, actor) then Refused(NotAdministrator)
    else if target.Some? && !MayHold(s.accounts, target.value) then Refused(NotAgency)
    else Ok(target)
  }

  /** An assignment is also checked against the accounts; a retirement is not a step of one report. */
  predicate DeedAllowed(s: State, report: nat, deed: R.Action) {
    && report < |s.docs|
    && !deed.Retire?
    && (deed.Write? && deed.key in s.docs[report].pending && s.docs[report].pending[deed.key].change.Assign? ==>
          var q := s.docs[report].pending[deed.key];
          CheckAssignment(s, q.viewer.id, q.change.target).Ok?)
  }

  function SetAccount(s: State, u: nat, checked: Result<Account, Refusal>): State {
    if checked.Ok? && u < |s.accounts| then s.(accounts := s.accounts[u := checked.value]) else s
  }

  function Step(s: State, a: Action): State {
    match a
    case Join(name, email, verified, isLocal) =>
      s.(accounts := s.accounts + [Account(name, email, R.CitizenRole, true, false, verified, isLocal, None)])
    case Verify(u) => if u < |s.accounts| then s.(accounts := s.accounts[u := s.accounts[u].(verified := true)]) else s
    case SetEmail(u, email) =>
      if u < |s.accounts| && s.accounts[u].active && !s.accounts[u].retired
      then s.(accounts := s.accounts[u := s.accounts[u].(email := email, verified := true)]) else s
    case EditDetails(target, actor, own, name) => SetAccount(s, target, CheckDetails(s, target, actor, own, name))
    case Mutate(target, actor, c, reason) => SetAccount(s, target, CheckMutation(s, target, actor, c, reason))
    case Bootstrap(target) => SetAccount(s, target, CheckBootstrap(s, target))
    case Retire(target, actor, now, bumps) =>
      if CheckRetirement(s, target, actor).Ok? && target < |s.accounts| then
        SetAccount(s, target, CheckRetirement(s, target, actor)).(
          docs := ReleasedDocs(s.docs, target, s.accounts[target].role.AgencyRole?, actor, now, bumps))
      else s
    case FileReport(reporter, description, location, hint, fallback, priority, now) =>
      s.(docs := s.docs + [R.Filed(reporter, description, location, hint, fallback, priority, now)])
    case OnReport(report, deed) =>
      if DeedAllowed(s, report, deed) then s.(docs := s.docs[report := R.Step(s.docs[report], deed)]) else s
  }

  function Run(s: State, acts: seq<Action>): State
    decreases |acts|
  {
    if acts == [] then s else Run(Step(s, acts[0]), acts[1..])
  }
}
