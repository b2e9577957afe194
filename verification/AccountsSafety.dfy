/** What accounts and assignments keep over every run. */
module AccountsSafety {
  import opened Basics
  import opened Accounts
  import R = Reports
  import ReportSafety

  // ----- there is always an administrator -----

  predicate SomeAdmin(s: State) {
    exists u :: 0 <= u < |s.accounts| &&
      var a := s.accounts[u]; a.role.AdminRole? && a.active && !a.retired
  }

  lemma AdminCounted(accounts: seq<Account>, u: nat)
    requires HasActiveAdmin(accounts, u)
    ensures u in ActiveAdmins(accounts) && |ActiveAdmins(accounts)| >= 1
  {
    assert |ActiveAdmins(accounts)| == |ActiveAdmins(accounts) - {u}| + 1;
  }

  lemma TwoAdmins(accounts: seq<Account>, u: nat, v: nat)
    requires HasActiveAdmin(accounts, u) && HasActiveAdmin(accounts, v) && u != v
    ensures |ActiveAdmins(accounts)| >= 2
  {
    var admins := ActiveAdmins(accounts);
    assert |admins| == |admins - {u}| + 1 && |admins - {u}| == |admins - {u} - {v}| + 1;
  }

  /**
   An active administrator can be removed only by another one, so the count of administrators never
   protects the last of them: it refuses exactly the changes of an administrator already suspended,
   made by the only active one.
   */
  lemma FinalAdministratorIff(s: State, target: nat, actor: nat, c: Changes, reason: Option<string>)
    ensures CheckMutation(s, target, actor, c, reason) == Refused(FinalAdministrator) <==>
      && target < |s.accounts| && HasActiveAdmin(s.accounts, actor) && ActiveAdmins(s.accounts) == {actor}
      && (var a := s.accounts[target];
          !a.active && !a.retired && RemovesAdministrator(a, c) && !(BecomesStaff(a, c) && a.isLocal && !a.verified))
    ensures CheckRetirement(s, target, actor) == Refused(FinalAdministrator) <==>
      && target < |s.accounts| && HasActiveAdmin(s.accounts, actor) && ActiveAdmins(s.accounts) == {actor}
      && s.accounts[target].role.AdminRole? && !s.accounts[target].active && !s.accounts[target].retired
  {
    assert |{actor}| == 1;
    if HasActiveAdmin(s.accounts, actor) {
      AdminCounted(s.accounts, actor);
      if HasActiveAdmin(s.accounts, target) && target != actor { TwoAdmins(s.accounts, target, actor); }
      if |ActiveAdmins(s.accounts)| <= 1 {
        forall u | u in ActiveAdmins(s.accounts) ensures u == actor {
          if u != actor { TwoAdmins(s.accounts, u, actor); }
        }
        assert ActiveAdmins(s.accounts) == {actor};
      }
    }
  }

  lemma StepKeepsAdmin(s: State, a: Action)
    requires SomeAdmin(s)
    ensures SomeAdmin(Step(s, a))
  {
    var t := Step(s, a);
    var u :| 0 <= u < |s.accounts| && IsActiveAdmin(s.accounts[u]);
    AdminCounted(s.accounts, u);
    if (a.Mutate? || a.Retire?) && HasActiveAdmin(s.accounts, a.actor) && a.actor != a.target {
      assert IsActiveAdmin(t.accounts[a.actor]);
    } else {
      assert IsActiveAdmin(t.accounts[u]);
    }
  }

  /** Once an administrator is active, one always is. */
  lemma {:induction false} AlwaysSomeAdmin(s: State, acts: seq<Action>)
    requires SomeAdmin(s)
    ensures SomeAdmin(Run(s, acts))
    decreases |acts|
  {
    if acts != [] {
      StepKeepsAdmin(s, acts[0]);
      AlwaysSomeAdmin(Step(s, acts[0]), acts[1..]);
    }
  }

  // ----- a retired account stays as retirement left it -----

  predicate SameFace(a: Account, b: Account) {
    b.name == a.name && b.email == a.email && b.role == a.role && b.active == a.active && b.retired == a.retired
  }

  lemma StepKeepsRetired(s: State, a: Action, u: nat)
    requires u < |s.accounts| && s.accounts[u].retired
    ensures u < |Step(s, a).accounts| && SameFace(s.accounts[u], Step(s, a).accounts[u])
  {
  }

  lemma {:induction false} RetiredStays(s: State, acts: seq<Action>, u: nat)
    requires u < |s.accounts| && s.accounts[u].retired
    ensures u < |Run(s, acts).accounts| && SameFace(s.accounts[u], Run(s, acts).accounts[u])
    decreases |acts|
  {
    if acts != [] {
      StepKeepsRetired(s, acts[0], u);
      RetiredStays(Step(s, acts[0]), acts[1..], u);
    }
  }

  /** From its retirement on, whatever is tried, an account shows the retired name and address and can do nothing. */
  lemma RetirementIsFinal(s: State, target: nat, actor: nat, now: nat, bumps: seq<nat>, acts: seq<Action>)
    requires CheckRetirement(s, target, actor).Ok?
    ensures
      var t := Run(Step(s, Retire(target, actor, now, bumps)), acts);
      && target < |t.accounts|
      && t.accounts[target].name == RETIRED_NAME && t.accounts[target].email == RetiredAddress(target)
      && t.accounts[target].role == s.accounts[target].role
      && !t.accounts[target].active && t.accounts[target].retired && !MayHold(t.accounts, target)
  {
    RetiredStays(Step(s, Retire(target, actor, now, bumps)), acts, target);
  }

  // ----- open reports are with accounts that can work on them -----

  predicate AssigneeFits(accounts: seq<Account>, r: R.Report) {
    r.assignee.Some? ==>
      && r.assignee.value < |accounts|
      && var a := accounts[r.assignee.value]; a.role.AgencyRole? && a.active && !a.retired
  }

  predicate OpenFits(s: State, d: nat)
    requires d < |s.docs|
  {
    !R.Terminal(s.docs[d].report.status) ==> AssigneeFits(s.accounts, s.docs[d].report)
  }

  predicate AllOpenFit(s: State) {
    forall d :: 0 <= d < |s.docs| ==> OpenFits(s, d)
  }

  ghost predicate Inv(s: State) {
    forall d :: 0 <= d < |s.docs| ==> ReportSafety.Inv(s.docs[d])
  }

  /** The step takes a closed report back to work. */
  predicate Reopens(s: State, a: Action) {
    && a.OnReport? && DeedAllowed(s, a.report, a.deed)
    && R.Terminal(s.docs[a.report].report.status)
    && !R.Terminal(R.Step(s.docs[a.report], a.deed).report.status)
  }

  /** A matching write keeps the assignee and moves as allowed, withdraws, or assigns what was asked. */
  lemma WriteMoves(q: R.Request, r: R.Report)
    requires R.PlanOf(q).Ok? && R.Matches(R.PlanOf(q).value.filter, r)
    ensures
      var after := R.Apply(R.PlanOf(q).value.patch, r);
      || (after.assignee == r.assignee && (after.status == r.status || R.Allowed(r.status, after.status)))
      || (r.status.Pending? && after.status.Withdrawn?)
      || (q.change.Assign? && after.assignee == q.change.target && after.status == r.status)
  {
  }

  /** What any step of one report does to its status and assignee. */
  lemma DeedMoves(doc: R.Doc, deed: R.Action)
    requires !deed.Retire?
    ensures
      var before, after := doc.report, R.Step(doc, deed).report;
      || (after.assignee == before.assignee &&
          (after.status == before.status || R.Allowed(before.status, after.status)))
      || (before.status.Pending? && after.status.Withdrawn?)
      || (deed.Write? && deed.key in doc.pending && doc.pending[deed.key].change.Assign?
          && after.assignee == doc.pending[deed.key].change.target && after.status == before.status)
  {
    if deed.Write? && R.Writes(doc, deed.key) { WriteMoves(doc.pending[deed.key], doc.report); }
  }

  /** Only two moves reopen a report, and they keep its assignee. */
  lemma ReopeningMoves(s: State, a: Action)
    requires Reopens(s, a)
    ensures
      var before, after := s.docs[a.report].report, R.Step(s.docs[a.report], a.deed).report;
      && ((before.status.Resolved? && after.status.InProgress?) || (before.status.Rejected? && after.status.Pending?))
      && after.assignee == before.assignee
  {
    DeedMoves(s.docs[a.report], a.deed);
  }

  lemma DeedFits(s: State, d: nat, deed: R.Action)
    requires d < |s.docs| && OpenFits(s, d) && DeedAllowed(s, d, deed)
    ensures
      var after := R.Step(s.docs[d], deed).report;
      !R.Terminal(after.status) && !Reopens(s, OnReport(d, deed)) ==> AssigneeFits(s.accounts, after)
  {
    DeedMoves(s.docs[d], deed);
  }

  /** A change of accounts keeps every open report with an account that may hold it. */
  lemma AccountStepFits(s: State, a: Action, d: nat)
    requires d < |s.docs| && AllOpenFit(s) && !a.OnReport? && !a.Retire?
    ensures OpenFits(Step(s, a), d)
  {
    var r := s.docs[d].report;
    assert OpenFits(s, d);
    if a.Mutate? && HoldsOpen(r, a.target) {
      assert d in OpenReports(s.docs, a.target);
      assert |OpenReports(s.docs, a.target)| == |OpenReports(s.docs, a.target) - {d}| + 1;
    }
  }

  lemma RetirementFits(s: State, a: Action, d: nat)
    requires d < |s.docs| && OpenFits(s, d) && a.Retire?
    ensures OpenFits(Step(s, a), d)
  {
  }

  /**
   Every step keeps open reports with active agency accounts, except a reopening of a report whose
   assignee no longer is one.
   */
  lemma OpenFitsIff(s: State, a: Action)
    requires AllOpenFit(s)
    ensures AllOpenFit(Step(s, a)) <==> (Reopens(s, a) ==> AssigneeFits(s.accounts, s.docs[a.report].report))
  {
    if Reopens(s, a) { ReopeningFitsIff(s, a); }
    else if a.OnReport? { DeedStepFits(s, a); }
    else { AccountsFit(s, a); }
  }

  lemma DeedStepIs(s: State, a: Action, doc: R.Doc)
    requires a.OnReport? && DeedAllowed(s, a.report, a.deed) && doc == R.Step(s.docs[a.report], a.deed)
    ensures Step(s, a) == s.(docs := s.docs[a.report := doc])
  {
  }

  lemma OpenDocFitsIff(s: State, d: nat, doc: R.Doc)
    requires d < |s.docs| && !R.Terminal(doc.report.status)
    ensures OpenFits(s.(docs := s.docs[d := doc]), d) <==> AssigneeFits(s.accounts, doc.report)
  {
  }

  lemma ReopenedFitsIff(s: State, a: Action)
    requires Reopens(s, a)
    ensures a.report < |Step(s, a).docs|
    ensures OpenFits(Step(s, a), a.report) <==> AssigneeFits(s.accounts, s.docs[a.report].report)
  {
    var doc := R.Step(s.docs[a.report], a.deed);
    ReopeningMoves(s, a);
    DeedStepIs(s, a, doc);
    OpenDocFitsIff(s, a.report, doc);
  }

  lemma OtherDocsStay(s: State, a: Action, d: nat)
    requires a.OnReport? && d != a.report && d < |s.docs|
    ensures d < |Step(s, a).docs| == |s.docs| && (OpenFits(s, d) ==> OpenFits(Step(s, a), d))
  {
  }

  lemma FitIfThisOneFits(t: State, d0: nat)
    requires d0 < |t.docs| && forall d :: 0 <= d < |t.docs| && d != d0 ==> OpenFits(t, d)
    ensures AllOpenFit(t) <==> OpenFits(t, d0)
  {
  }

  lemma ReopeningFitsIff(s: State, a: Action)
    requires AllOpenFit(s) && Reopens(s, a)
    ensures AllOpenFit(Step(s, a)) <==> AssigneeFits(s.accounts, s.docs[a.report].report)
  {
    ReopenedFitsIff(s, a);
    SameReports(s, a);
    OthersStillFit(s, a);
    FitIfThisOneFits(Step(s, a), a.report);
  }

  lemma OthersStillFit(s: State, a: Action)
    requires AllOpenFit(s) && a.OnReport? && |Step(s, a).docs| == |s.docs|
    ensures forall d :: 0 <= d < |s.docs| && d != a.report ==> OpenFits(Step(s, a), d)
  {
    forall d | 0 <= d < |s.docs| && d != a.report ensures OpenFits(Step(s, a), d) {
      assert OpenFits(s, d);
      OtherDocsStay(s, a, d);
    }
  }

  lemma SameReports(s: State, a: Action)
    requires a.OnReport?
    ensures |Step(s, a).docs| == |s.docs|
  {
  }

  lemma DeedStepFits(s: State, a: Action)
    requires AllOpenFit(s) && a.OnReport? && !Reopens(s, a)
    ensures AllOpenFit(Step(s, a))
  {
    var t := Step(s, a);
    forall d | 0 <= d < |t.docs| ensures OpenFits(t, d) {
      assert OpenFits(s, d);
      if DeedAllowed(s, a.report, a.deed) && d == a.report { DeedFits(s, d, a.deed); }
    }
  }

  lemma AccountsFit(s: State, a: Action)
    requires AllOpenFit(s) && !a.OnReport?
    ensures AllOpenFit(Step(s, a))
  {
    var t := Step(s, a);
    forall d | 0 <= d < |t.docs| ensures OpenFits(t, d) {
      if d < |s.docs| {
        if a.Retire? { RetirementFits(s, a, d); } else { AccountStepFits(s, a, d); }
      }
    }
  }

  /** Every reopening in the run finds the report unassigned or with an active agency account. */
  predicate ReopensWithCare(s: State, acts: seq<Action>)
    decreases |acts|
  {
    acts == [] ||
    (&& (Reopens(s, acts[0]) ==> AssigneeFits(s.accounts, s.docs[acts[0].report].report))
     && ReopensWithCare(Step(s, acts[0]), acts[1..]))
  }

  lemma {:induction false} OpenReportsFit(s: State, acts: seq<Action>)
    requires AllOpenFit(s) && ReopensWithCare(s, acts)
    ensures AllOpenFit(Run(s, acts))
    decreases |acts|
  {
    if acts != [] {
      OpenFitsIff(s, acts[0]);
      OpenReportsFit(Step(s, acts[0]), acts[1..]);
    }
  }

  /** Right after an agency account retires, no open report is with it. */
  lemma RetirementReleases(s: State, target: nat, actor: nat, now: nat, bumps: seq<nat>, d: nat)
    requires CheckRetirement(s, target, actor).Ok? && s.accounts[target].role.AgencyRole? && d < |s.docs|
    ensures
      var before, after := s.docs[d].report, Step(s, Retire(target, actor, now, bumps)).docs[d].report;
      && !HoldsOpen(after, target)
      && (HoldsOpen(before, target) ==>
            after.assignee == None && |after.assignments| == |before.assignments| + 1
            && after.assignments[|before.assignments|] ==
                 R.Assignment(R.RetirementUnassignment, Some(target), None, actor, now))
      && (!HoldsOpen(before, target) ==> after == before.(version := after.version))
  {
  }

  // ----- reports stay explained -----

  lemma BumpKeeps(doc: R.Doc, bump: nat)
    requires ReportSafety.Inv(doc)
    ensures ReportSafety.Inv(doc.(report := doc.report.(version := doc.report.version + bump)))
  {
    var e := doc.(report := doc.report.(version := doc.report.version + bump));
    forall k | k in e.pending ensures ReportSafety.RequestOk(e.pending[k], e.report) {
      assert ReportSafety.RequestOk(doc.pending[k], doc.report);
      ReportSafety.SinceTransitive(doc.pending[k].seen, doc.report, e.report);
    }
  }

  lemma StepKeepsReports(s: State, a: Action)
    requires Inv(s)
    ensures Inv(Step(s, a))
  {
    forall d | 0 <= d < |Step(s, a).docs| ensures ReportSafety.Inv(Step(s, a).docs[d]) {
      if d >= |s.docs| { ReportSafety.FiledInv(Step(s, a).docs[d]); }
      else { DocMoves(s, a, d); DocKeeps(s, a, d); }
    }
  }

  /** A report takes one step of its own, or its version is raised, or nothing happens to it. */
  lemma DocMoves(s: State, a: Action, d: nat)
    requires d < |s.docs|
    ensures d < |Step(s, a).docs|
    ensures
      var doc, after := s.docs[d], Step(s, a).docs[d];
      || after == doc
      || (a.OnReport? && after == R.Step(doc, a.deed))
      || (a.Retire? && after == R.Step(doc, R.Retire(a.target, a.actor, a.now, BumpAt(a.bumps, d))))
      || (a.Retire? && after == doc.(report := doc.report.(version := doc.report.version + BumpAt(a.bumps, d))))
  {
  }

  lemma DocKeeps(s: State, a: Action, d: nat)
    requires Inv(s) && d < |s.docs|
    ensures a.OnReport? ==> ReportSafety.Inv(R.Step(s.docs[d], a.deed))
    ensures a.Retire? ==>
      var doc, bump := s.docs[d], BumpAt(a.bumps, d);
      && ReportSafety.Inv(R.Step(doc, R.Retire(a.target, a.actor, a.now, bump)))
      && ReportSafety.Inv(doc.(report := doc.report.(version := doc.report.version + bump)))
    ensures ReportSafety.Inv(s.docs[d])
  {
    if a.OnReport? {
      ReportSafety.StepKeeps(s.docs[d], a.deed);
    } else if a.Retire? {
      var bump := BumpAt(a.bumps, d);
      BumpKeeps(s.docs[d], bump);
      ReportSafety.StepKeeps(s.docs[d], R.Retire(a.target, a.actor, a.now, bump));
    }
  }

  /**
   Across assignments, withdrawals and retirements in any order, a report's assignment history
   explains its assignee, its timeline explains its status, and no withdrawn report has an assignee.
   */
  lemma {:induction false} AssignmentsExplained(s: State, acts: seq<Action>, d: nat)
    requires Inv(s) && d < |Run(s, acts).docs|
    ensures
      var r := Run(s, acts).docs[d].report;
      && ReportSafety.AssignmentsOk(r.assignments, r.assignee)
      && ReportSafety.TimelineOk(r.timeline, r.status)
      && (r.status.Withdrawn? ==> r.assignee.None?)
    decreases |acts|
  {
    if acts == [] {
      assert ReportSafety.Inv(s.docs[d]);
    } else {
      StepKeepsReports(s, acts[0]);
      AssignmentsExplained(Step(s, acts[0]), acts[1..], d);
    }
  }
}
