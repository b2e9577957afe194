/** The guarded account transactions and assignment as they run, with their counts and their loop over reports. */
module AccountsService {
  import opened Basics
  import opened Accounts
  import R = Reports
  import opened AccountsEffects
  import AccountsSafety
  import ReportSafety
  import opened ReportEffects

  class Registry {
    var accounts: seq<Account>
    var docs: seq<R.Doc>

    function View(): State
      reads this
    {
      State(accounts, docs)
    }

    method CountActiveAdmins() returns (n: nat)
      ensures n == |set u | 0 <= u < |accounts| && IsAdministrator(accounts, u)|
      ensures n == |ActiveAdmins(accounts)|
    {
      n := 0;
      ghost var seen: set<nat> := {};
      for u := 0 to |accounts|
        invariant seen == (set v | 0 <= v < u && IsActiveAdmin(accounts[v])) && n == |seen|
      {
        if accounts[u].role.AdminRole? && accounts[u].active && !accounts[u].retired {
          n := n + 1;
          seen := seen + {u};
        }
      }
      assert seen == ActiveAdmins(accounts) == set u | 0 <= u < |accounts| && IsAdministrator(accounts, u);
    }

    method CountOpenReports(u: nat) returns (n: nat)
      ensures n == |set d | 0 <= d < |docs| && WorksOn(docs[d].report, u)|
      ensures n == |OpenReports(docs, u)|
    {
      n := 0;
      ghost var seen: set<nat> := {};
      for d := 0 to |docs|
        invariant seen == (set e | 0 <= e < d && HoldsOpen(docs[e].report, u)) && n == |seen|
      {
        if docs[d].report.assignee == Some(u) && !R.Terminal(docs[d].report.status) {
          n := n + 1;
          seen := seen + {d};
        }
      }
      assert seen == OpenReports(docs, u) == set d | 0 <= d < |docs| && WorksOn(docs[d].report, u);
    }

    /** Saving a report may raise its version or leave it. */
    method ReleaseReports(target: nat, wasAgency: bool, actor: nat, now: nat, bumps: seq<nat>)
      modifies this`docs
      ensures docs == ReleasedDocs(old(docs), target, wasAgency, actor, now, bumps)
      ensures |docs| == |old(docs)|
      ensures forall d :: 0 <= d < |docs| ==>
        && docs[d] == old(docs)[d].(report := docs[d].report)
        && ReleaseLeaves(old(docs)[d].report, target, wasAgency, actor, now, BumpAt(bumps, d), docs[d].report)
    {
      ghost var was := docs;
      for d := 0 to |docs|
        invariant |docs| == |was|
        invariant forall e :: 0 <= e < |was| ==>
          docs[e] == if e < d then ReleasedDoc(was[e], target, wasAgency, actor, now, BumpAt(bumps, e)) else was[e]
      {
        var report := docs[d].report;
        if wasAgency && report.assignee == Some(target) && !R.Terminal(report.status) {
          report := report.(
            assignee := None,
            assignments := report.assignments +
              [R.Assignment(R.RetirementUnassignment, Some(target), None, actor, now)]);
        }
        report := report.(version := report.version + BumpAt(bumps, d));
        docs := docs[d := docs[d].(report := report)];
      }
    }

    method RetireAccount(target: nat, actor: nat, now: nat, bumps: seq<nat>) returns (result: Result<Account, Refusal>)
      modifies this
      ensures result == CheckRetirement(old(View()), target, actor)
      ensures View() == Step(old(View()), Retire(target, actor, now, bumps))
      ensures (if result.Refused? then Some(result.reason) else None)
        == RetirementObjection(old(View()), target, actor)
      ensures result.Refused? ==> View() == old(View())
      ensures result.Ok? ==>
        target < |old(accounts)| && RetirementLeaves(old(View()), target, actor, now, bumps, View())
      ensures result.Ok? ==> result.value == accounts[target]
    {
      RetirementIs(View(), target, actor, now, bumps);
      if target >= |accounts| {
        return Refused(NotFound);
      }
      if actor >= |accounts| {
        return Refused(NotAdministrator);
      }
      var a := accounts[target];
      if a.retired {
        return Refused(IsRetired);
      }
      var own := target == actor;
      if own && a.role.AdminRole? {
        return Refused(OwnAccount);
      }
      if !own && !HasActiveAdmin(accounts, actor) {
        return Refused(NotAdministrator);
      }
      if a.role.AdminRole? {
        var activeAdmins := CountActiveAdmins();
        if activeAdmins <= 1 {
          return Refused(FinalAdministrator);
        }
      }
      ReleaseReports(target, a.role.AgencyRole?, actor, now, bumps);
      a := a.(name := RETIRED_NAME, email := RetiredAddress(target));
      a := a.(active := false, retired := true, suspension := None);
      accounts := accounts[target := a];
      return Ok(a);
    }

    method MutateAdministrator(target: nat, actor: nat, changes: Changes, reason: Option<string>)
      returns (result: Result<Account, Refusal>)
      modifies this`accounts
      ensures result == CheckMutation(old(View()), target, actor, changes, reason)
      ensures View() == Step(old(View()), Mutate(target, actor, changes, reason))
      ensures (if result.Refused? then Some(result.reason) else None)
        == MutationObjection(old(View()), target, actor, changes, reason)
      ensures result.Refused? ==> View() == old(View())
      ensures result.Ok? ==>
        target < |old(accounts)| && MutationLeaves(old(View()), target, actor, changes, reason, View())
        && result.value == accounts[target]
    {
      MutationIs(View(), target, actor, changes, reason);
      if target >= |accounts| {
        return Refused(NotFound);
      }
      if !HasActiveAdmin(accounts, actor) {
        return Refused(NotAdministrator);
      }
      var a := accounts[target];
      if a.retired {
        return Refused(IsRetired);
      }
      if BecomesStaff(a, changes) && a.isLocal && !a.verified {
        return Refused(NotVerified);
      }
      var removesAdministrator := RemovesAdministrator(a, changes);
      if removesAdministrator && target == actor {
        return Refused(OwnAccount);
      }
      if removesAdministrator {
        var activeAdmins := CountActiveAdmins();
        if activeAdmins <= 1 {
          return Refused(FinalAdministrator);
        }
      }
      if RemovesAgency(a, changes) {
        var open := CountOpenReports(target);
        if open > 0 {
          return Refused(HasOpenReports);
        }
      }
      if changes.active == Some(false) && !a.active && reason.Some? {
        return Refused(AlreadySuspended);
      }
      a := ApplyChanges(a, changes, actor, reason);
      accounts := accounts[target := a];
      return Ok(a);
    }

    method ApplyChanges(account: Account, changes: Changes, actor: nat, reason: Option<string>) returns (a: Account)
      ensures a == Changed(account, changes, actor, reason)
    {
      a := account;
      if changes.active == Some(false) && a.active {
        a := a.(suspension := Some(Suspension(actor, reason)));
      } else if changes.active == Some(true) {
        a := a.(suspension := None);
      }
      if changes.name.Some? {
        a := a.(name := changes.name.value);
      }
      if changes.role.Some? {
        a := a.(role := changes.role.value);
      }
      if changes.active.Some? {
        a := a.(active := changes.active.value);
      }
    }

    method BootstrapFirstAdministrator(target: nat) returns (result: Result<Account, Refusal>)
      modifies this`accounts
      ensures result == CheckBootstrap(old(View()), target)
      ensures View() == Step(old(View()), Bootstrap(target))
      ensures (if result.Refused? then Some(result.reason) else None) == BootstrapObjection(old(View()), target)
      ensures result.Refused? ==> View() == old(View())
      ensures result.Ok? ==>
        && (forall u :: 0 <= u < |old(accounts)| ==> !IsAdministrator(old(accounts), u))
        && target < |old(accounts)| && old(accounts)[target].role.CitizenRole?
        && old(accounts)[target].active && !old(accounts)[target].retired
        && accounts == old(accounts)[target := old(accounts)[target].(role := R.AdminRole)]
        && result.value == accounts[target]
    {
      BootstrapIs(View(), target);
      if target >= |accounts| {
        return Refused(NotFound);
      }
      var a := accounts[target];
      if a.retired || !a.active {
        return Refused(NotActive);
      }
      if !a.role.CitizenRole? {
        return Refused(NotCitizen);
      }
      var activeAdmins := CountActiveAdmins();
      if activeAdmins > 0 {
        return Refused(HasAdministrator);
      }
      a := a.(role := R.AdminRole);
      accounts := accounts[target := a];
      return Ok(a);
    }

    /** Anyone, for any number of steps. */
    method Others()
      requires AccountsSafety.Inv(View())
      modifies this
      ensures AccountsSafety.Inv(View()) && LaterReports(old(View()), View())
    {
      var acts: seq<Action> := *;
      var t := Run(View(), acts);
      RunIsLater(View(), acts);
      accounts, docs := t.accounts, t.docs;
    }

    /**
     Assignment: a first reading, then the guarded transaction, which compares it with the report and the
     accounts as they are by then. `at` is the state the transaction found.
     */
    method AssignComplaint(d: nat, actor: nat, target: Option<nat>, expected: Option<nat>, now: nat)
      returns (result: Result<R.Report, AssignRefusal>, ghost at: State)
      requires AccountsSafety.Inv(View()) && d < |docs|
      modifies this
      ensures LaterReports(old(View()), at)
      ensures (if result.Refused? then Some(result.reason) else None)
        == AssignmentObjection(old(docs)[d].report, at.docs[d].report, at.accounts, actor, target, expected)
      ensures result.Refused? ==> View() == at
      ensures result.Ok? ==>
        var there := at.docs[d].report;
        && R.Prepare(there, R.Viewer(actor, R.AdminRole), R.Assign(target), expected, now).Ok?
        && result.value ==
             R.Apply(R.Prepare(there, R.Viewer(actor, R.AdminRole), R.Assign(target), expected, now).value.patch, there)
        && AssignLeaves(there, R.Viewer(actor, R.AdminRole), R.Assign(target), now, result.value)
        && View() == at.(docs := at.docs[d := at.docs[d].(report := result.value)])
    {
      var seen := docs[d].report;
      at := View();
      RunIsLater(at, []);
      if seen.status.Withdrawn? {
        return Refused(ByReport(R.IsWithdrawn)), at;
      }
      if R.IsStale(seen, expected) {
        return Refused(ByReport(R.Stale)), at;
      }
      Others();
      at := View();
      var report := docs[d].report;
      if report.version != seen.version || report.assignee != seen.assignee {
        return Refused(ByReport(R.Stale)), at;
      }
      if target.Some? && target.value >= |accounts| {
        return Refused(ByAccount(NotFound)), at;
      }
      if target.None? && report.assignee.None? {
        return Refused(ByReport(R.AlreadyUnassigned)), at;
      }
      if !HasActiveAdmin(accounts, actor) {
        return Refused(ByAccount(NotAdministrator)), at;
      }
      if target.Some? && !MayHold(accounts, target.value) {
        return Refused(ByAccount(NotAgency)), at;
      }
      if target.Some? && target == report.assignee {
        return Refused(ByReport(R.AlreadyAssigned)), at;
      }
      report := WriteAssignment(d, actor, target, expected, now);
      return Ok(report), at;
    }

    /** The transaction's write: the assignee, the history event and the version, together. */
    method WriteAssignment(d: nat, actor: nat, target: Option<nat>, ghost expected: Option<nat>, now: nat)
      returns (report: R.Report)
      requires d < |docs| && !docs[d].report.status.Withdrawn? && !R.IsStale(docs[d].report, expected)
      requires target != docs[d].report.assignee
      modifies this`docs
      ensures
        var there := old(docs)[d].report;
        var plan := R.Prepare(there, R.Viewer(actor, R.AdminRole), R.Assign(target), expected, now);
        plan.Ok? && report == R.Apply(plan.value.patch, there)
        && AssignLeaves(there, R.Viewer(actor, R.AdminRole), R.Assign(target), now, report)
      ensures docs == old(docs)[d := old(docs)[d].(report := report)]
    {
      report := docs[d].report;
      var kind := if report.assignee.None? then R.Assigned else if target.None? then R.Unassigned else R.Reassigned;
      report := report.(
        assignee := target,
        assignments := report.assignments + [R.Assignment(kind, report.assignee, target, actor, now)],
        version := report.version + 1);
      docs := docs[d := docs[d].(report := report)];
    }
  }

  /** Why an assignment is refused, by the first reading, by what the transaction finds, or by the accounts. */
  function AssignmentObjection(seen: R.Report, there: R.Report, accounts: seq<Account>, actor: nat,
                               target: Option<nat>, expected: Option<nat>): Option<AssignRefusal> {
    if seen.status.Withdrawn? then Some(ByReport(R.IsWithdrawn))
    else if expected.Some? && expected.value != seen.version then Some(ByReport(R.Stale))
    else if there.version != seen.version || there.assignee != seen.assignee then Some(ByReport(R.Stale))
    else if target.Some? && target.value >= |accounts| then Some(ByAccount(NotFound))
    else if target.None? && there.assignee.None? then Some(ByReport(R.AlreadyUnassigned))
    else if !IsAdministrator(accounts, actor) then Some(ByAccount(NotAdministrator))
    else if target.Some? && !IsAgency(accounts, target.value) then Some(ByAccount(NotAgency))
    else if target == there.assignee then Some(ByReport(R.AlreadyAssigned))
    else None
  }

  datatype AssignRefusal = ByReport(refusal: R.Refusal) | ByAccount(reason: Refusal)

  /** Every report is still there, at the same or a later version. */
  ghost predicate LaterReports(s: State, t: State) {
    |s.docs| <= |t.docs| && forall d :: 0 <= d < |s.docs| ==> ReportSafety.Since(s.docs[d].report, t.docs[d].report)
  }

  lemma StepIsLater(s: State, a: Action)
    ensures LaterReports(s, Step(s, a))
  {
    var t := Step(s, a);
    forall d | 0 <= d < |s.docs| ensures d < |t.docs| && ReportSafety.Since(s.docs[d].report, t.docs[d].report) {
      if a.OnReport? && d == a.report { ReportSafety.StepIsLater(s.docs[d], a.deed); }
      else if a.Retire? { ReportSafety.StepIsLater(s.docs[d], R.Retire(a.target, a.actor, a.now, BumpAt(a.bumps, d))); }
    }
  }

  lemma {:induction false} RunIsLater(s: State, acts: seq<Action>)
    requires AccountsSafety.Inv(s)
    ensures AccountsSafety.Inv(Run(s, acts)) && LaterReports(s, Run(s, acts))
    decreases |acts|
  {
    if acts != [] {
      var next := Step(s, acts[0]);
      StepIsLater(s, acts[0]);
      AccountsSafety.StepKeepsReports(s, acts[0]);
      RunIsLater(next, acts[1..]);
      forall d | 0 <= d < |s.docs| ensures ReportSafety.Since(s.docs[d].report, Run(s, acts).docs[d].report) {
        ReportSafety.SinceTransitive(s.docs[d].report, next.docs[d].report, Run(s, acts).docs[d].report);
      }
    }
  }
}
