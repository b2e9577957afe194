/**
 What the guarded account transactions do, told from the stored accounts and reports alone: why each is
 refused, and the accounts and reports it leaves.
 */
module AccountsEffects {
  import opened Basics
  import opened Accounts
  import AccountsSafety
  import R = Reports

  predicate IsAdministrator(accounts: seq<Account>, u: nat) {
    u < |accounts| && accounts[u].role.AdminRole? && accounts[u].active && !accounts[u].retired
  }

  /** Nobody else is an active administrator, or nobody is. */
  predicate AtMostOne(accounts: seq<Account>) {
    forall u, v :: 0 <= u < v < |accounts| ==> !(IsAdministrator(accounts, u) && IsAdministrator(accounts, v))
  }

  predicate IsAgency(accounts: seq<Account>, u: nat) {
    u < |accounts| && accounts[u].role.AgencyRole? && accounts[u].active && !accounts[u].retired
  }

  /** The account is assigned the report, and the report is not resolved, rejected or withdrawn. */
  predicate WorksOn(r: R.Report, u: nat) {
    r.assignee == Some(u) && (r.status.Pending? || r.status.InReview? || r.status.InProgress?)
  }

  // ----- why a transaction is refused -----

  function RetirementObjection(s: State, target: nat, actor: nat): Option<Refusal> {
    if target >= |s.accounts| then Some(NotFound)
    else if actor >= |s.accounts| then Some(NotAdministrator)
    else
      var a := s.accounts[target];
      if a.retired then Some(IsRetired)
      else if target == actor && a.role.AdminRole? then Some(OwnAccount)
      else if target != actor && !IsAdministrator(s.accounts, actor) then Some(NotAdministrator)
      else if a.role.AdminRole? && AtMostOne(s.accounts) then Some(FinalAdministrator)
      else None
  }

  /** The account would no longer be an active one of its role. */
  predicate Leaves(a: Account, c: Changes) {
    c.active == Some(false) || (c.role.Some? && c.role.value != a.role)
  }

  function MutationObjection(s: State, target: nat, actor: nat, c: Changes, reason: Option<string>): Option<Refusal> {
    if target >= |s.accounts| then Some(NotFound)
    else if !IsAdministrator(s.accounts, actor) then Some(NotAdministrator)
    else
      var a := s.accounts[target];
      if a.retired then Some(IsRetired)
      else if c.role.Some? && c.role.value != a.role && !c.role.value.CitizenRole? && a.isLocal && !a.verified
      then Some(NotVerified)
      else if a.role.AdminRole? && Leaves(a, c) && target == actor then Some(OwnAccount)
      else if a.role.AdminRole? && Leaves(a, c) && AtMostOne(s.accounts) then Some(FinalAdministrator)
      else if a.role.AgencyRole? && Leaves(a, c) && exists d :: 0 <= d < |s.docs| && WorksOn(s.docs[d].report, target)
      then Some(HasOpenReports)
      else if c.active == Some(false) && !a.active && reason.Some? then Some(AlreadySuspended)
      else None
  }

  function BootstrapObjection(s: State, target: nat): Option<Refusal> {
    if target >= |s.accounts| then Some(NotFound)
    else if s.accounts[target].retired || !s.accounts[target].active then Some(NotActive)
    else if !s.accounts[target].role.CitizenRole? then Some(NotCitizen)
    else if exists u :: 0 <= u < |s.accounts| && IsAdministrator(s.accounts, u) then Some(HasAdministrator)
    else None
  }

  // ----- what it leaves -----

  /** An agency account leaves its open reports, each with one event; a saved report may get a later version. */
  predicate ReleaseLeaves(r: R.Report, target: nat, wasAgency: bool, actor: nat, now: nat, bump: nat, after: R.Report) {
    if wasAgency && WorksOn(r, target) then
      after == r.(assignee := None, version := r.version + bump,
                  assignments := r.assignments
                    + [R.Assignment(R.RetirementUnassignment, Some(target), None, actor, now)])
    else after == r.(version := r.version + bump)
  }

  /** The retired account shows no name and no address and can do nothing; its role stays on record. */
  predicate RetirementLeaves(s: State, target: nat, actor: nat, now: nat, bumps: seq<nat>, t: State)
    requires target < |s.accounts|
  {
    var a := s.accounts[target];
    && t.accounts == s.accounts[target := Account("Retired account", RetiredAddress(target), a.role, false, true,
                                                  a.verified, a.isLocal, None)]
    && |t.docs| == |s.docs|
    && forall d :: 0 <= d < |s.docs| ==>
         && t.docs[d] == s.docs[d].(report := t.docs[d].report)
         && ReleaseLeaves(s.docs[d].report, target, a.role.AgencyRole?, actor, now, BumpAt(bumps, d), t.docs[d].report)
  }

  /** What was asked is changed and nothing else; a suspension is noted, and a reactivation clears the note. */
  predicate MutationLeaves(s: State, target: nat, actor: nat, c: Changes, reason: Option<string>, t: State)
    requires target < |s.accounts|
  {
    var a := s.accounts[target];
    t == s.(accounts := s.accounts[target := Account(
      if c.name.Some? then c.name.value else a.name, a.email, if c.role.Some? then c.role.value else a.role,
      if c.active.Some? then c.active.value else a.active, a.retired, a.verified, a.isLocal,
      if c.active == Some(true) then None
      else if c.active == Some(false) && a.active then Some(Suspension(actor, reason)) else a.suspension)])
  }

  // ----- the checks agree -----

  lemma CountIs(accounts: seq<Account>)
    ensures |ActiveAdmins(accounts)| <= 1 <==> AtMostOne(accounts)
    ensures |ActiveAdmins(accounts)| > 0 <==> exists u :: 0 <= u < |accounts| && IsAdministrator(accounts, u)
  {
    var admins := ActiveAdmins(accounts);
    assert forall u :: u in admins <==> IsAdministrator(accounts, u);
    if !AtMostOne(accounts) {
      var u, v :| 0 <= u < v < |accounts| && IsAdministrator(accounts, u) && IsAdministrator(accounts, v);
      AccountsSafety.TwoAdmins(accounts, u, v);
    } else if admins != {} {
      var u :| u in admins;
      assert admins == {u};
    }
  }

  lemma OpenIs(docs: seq<R.Doc>, u: nat)
    ensures |OpenReports(docs, u)| > 0 <==> exists d :: 0 <= d < |docs| && WorksOn(docs[d].report, u)
  {
    if d :| 0 <= d < |docs| && WorksOn(docs[d].report, u) {
      assert d in OpenReports(docs, u);
    } else {
      assert OpenReports(docs, u) == {};
    }
  }

  lemma RetirementIs(s: State, target: nat, actor: nat, now: nat, bumps: seq<nat>)
    ensures
      var checked := CheckRetirement(s, target, actor);
      && (if checked.Refused? then Some(checked.reason) else None) == RetirementObjection(s, target, actor)
      && (checked.Refused? ==> Step(s, Retire(target, actor, now, bumps)) == s)
      && (checked.Ok? ==>
            target < |s.accounts|
            && RetirementLeaves(s, target, actor, now, bumps, Step(s, Retire(target, actor, now, bumps))))
  {
    CountIs(s.accounts);
  }

  lemma MutationIs(s: State, target: nat, actor: nat, c: Changes, reason: Option<string>)
    ensures
      var checked := CheckMutation(s, target, actor, c, reason);
      && (if checked.Refused? then Some(checked.reason) else None) == MutationObjection(s, target, actor, c, reason)
      && (checked.Refused? ==> Step(s, Mutate(target, actor, c, reason)) == s)
      && (checked.Ok? ==>
            target < |s.accounts|
            && MutationLeaves(s, target, actor, c, reason, Step(s, Mutate(target, actor, c, reason))))
  {
    CountIs(s.accounts);
    OpenIs(s.docs, target);
  }

  lemma BootstrapIs(s: State, target: nat)
    ensures
      var checked := CheckBootstrap(s, target);
      && (if checked.Refused? then Some(checked.reason) else None) == BootstrapObjection(s, target)
      && Step(s, Bootstrap(target)) ==
           if checked.Refused? then s
           else s.(accounts := s.accounts[target := s.accounts[target].(role := R.AdminRole)])
  {
    CountIs(s.accounts);
  }
}
