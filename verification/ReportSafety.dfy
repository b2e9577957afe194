/**
 What holds of a report in every run: the timeline explains the status, the assignment history
 explains the assignee, staff choices stand, a matching write equals deciding on the stored report,
 and a withdrawn report is frozen.
 */
module ReportSafety {
  import opened Basics
  import opened Reports

  // ----- the timeline explains the status -----

  /** How far along the work a status is; a move to a smaller rank is a backward move. */
  function Rank(status: Status): nat {
    match status
    case Pending => 0
    case InReview => 1
    case InProgress => 2
    case Resolved => 3
    case Rejected => 4
    case Withdrawn => 5
  }

  /** A move that must tell the reporter why. */
  predicate OwesExplanation(from: Status, to: Status) {
    Rank(to) < Rank(from) || to.Rejected?
  }

  predicate HasPublicNote(e: Event) {
    e.publicNote.Some? && e.publicNote.value != ""
  }

  /** The later event follows from the earlier one. */
  predicate Follows(before: Event, e: Event) {
    match e.kind
    case Created => false
    case StatusChanged =>
      Allowed(before.status, e.status) && (OwesExplanation(before.status, e.status) ==> HasPublicNote(e))
    case WithdrawnByReporter => before.status.Pending? && e.status.Withdrawn? && HasPublicNote(e)
    case PriorityChanged => e.status == before.status && e.priorityChange.Some?
    case CategoryChanged => e.status == before.status && e.categoryChange.Some?
  }

  ghost predicate TimelineOk(t: seq<Event>, status: Status) {
    && t != []
    && t[0].kind.Created? && t[0].status.Pending?
    && (forall i :: 1 <= i < |t| ==> Follows(t[i - 1], t[i]))
    && t[|t| - 1].status == status
  }

  /** When the report last changed status, if it ever did. */
  function LastMove(t: seq<Event>): Option<nat> {
    if t == [] then None
    else if t[|t| - 1].kind.StatusChanged? then Some(t[|t| - 1].at)
    else LastMove(t[..|t| - 1])
  }

  /** The priority the timeline last recorded. */
  function LastPriority(t: seq<Event>): Option<Priority> {
    if t == [] then None
    else if t[|t| - 1].priorityChange.Some? then Some(t[|t| - 1].priorityChange.value.to)
    else LastPriority(t[..|t| - 1])
  }

  /** The category the timeline last recorded. */
  function LastCategory(t: seq<Event>): Option<Category> {
    if t == [] then None
    else if t[|t| - 1].categoryChange.Some? then Some(t[|t| - 1].categoryChange.value.to)
    else LastCategory(t[..|t| - 1])
  }

  // ----- the assignment history explains the assignee -----

  predicate KindFits(a: Assignment) {
    match a.kind
    case Assigned => a.previous.None? && a.next.Some?
    case Reassigned => a.previous.Some? && a.next.Some? && a.previous != a.next
    case _ => a.previous.Some? && a.next.None?
  }

  /** Whom the event before position i left the report with. */
  function PreviousOf(h: seq<Assignment>, i: nat): Option<nat>
    requires i <= |h|
  {
    if i == 0 then None else h[i - 1].next
  }

  ghost predicate AssignmentsOk(h: seq<Assignment>, assignee: Option<nat>) {
    && (forall i :: 0 <= i < |h| ==> KindFits(h[i]))
    && (forall i :: 0 <= i < |h| ==> h[i].previous == PreviousOf(h, i))
    && assignee == PreviousOf(h, |h|)
  }

  // ----- one report -----

  ghost predicate Good(r: Report) {
    && TimelineOk(r.timeline, r.status)
    && r.resolvedAt == (if r.status.Resolved? then LastMove(r.timeline) else None)
    && (r.status.Resolved? ==> r.resolvedAt.Some?)
    && AssignmentsOk(r.assignments, r.assignee)
    && (r.status.Withdrawn? ==> r.assignee.None?)
    && r.category == r.snapshot.id
    && (r.prioritySource.StaffPriority? ==> LastPriority(r.timeline) == Some(r.priority))
    && (r.categorySource.Staff? ==> LastCategory(r.timeline) == Some(r.snapshot))
    && |r.edits| <= MAX_EDITS && r.ai.analyses <= MAX_ANALYSES
  }

  /** The fields that never change without a new version. An assignee may only be cleared, by retirement. */
  predicate Steady(a: Report, b: Report) {
    && a.reporter == b.reporter && a.description == b.description && a.location == b.location
    && a.status == b.status && a.timeline == b.timeline && a.edits == b.edits && a.resolvedAt == b.resolvedAt
    && a.ai.analyses == b.ai.analyses
    && (b.assignee == a.assignee || b.assignee.None?)
  }

  /** `b` is the same report as `a` at the same or a later time. */
  predicate Since(a: Report, b: Report) {
    a.version < b.version || (a.version == b.version && Steady(a, b))
  }

  // ----- a matching write equals deciding on the stored report -----

  /** With nothing in between, the filter always matches. */
  lemma PreparedMatches(r: Report, v: Viewer, c: Change, expected: Option<nat>, now: nat)
    requires Prepare(r, v, c, expected, now).Ok?
    ensures Matches(Prepare(r, v, c, expected, now).value.filter, r)
  {
  }

  lemma WriteRefines(seen: Report, r: Report, v: Viewer, c: Change, expected: Option<nat>, now: nat)
    requires Since(seen, r) && !c.Recategorise?
    requires Prepare(seen, v, c, expected, now).Ok?
    requires Matches(Prepare(seen, v, c, expected, now).value.filter, r)
    ensures Prepare(r, v, c, expected, now).Ok?
    ensures Prepare(r, v, c, expected, now).value.patch == Prepare(seen, v, c, expected, now).value.patch
  {
  }

  lemma RecategoriseRefines(seen: Report, r: Report, v: Viewer, c: Change, expected: Option<nat>, now: nat)
    requires Since(seen, r) && seen.category == seen.snapshot.id && r.category == r.snapshot.id
    requires c.Recategorise?
    requires Prepare(seen, v, c, expected, now).Ok?
    requires Matches(Prepare(seen, v, c, expected, now).value.filter, r)
    ensures
      var e := Prepare(seen, v, c, expected, now).value.patch.event;
      e.Some? && e.value.status == r.status && e.value.categoryChange == Some(CategoryChange(r.snapshot, c.category))
    ensures
      (Prepare(r, v, c, expected, now).Ok?
       && Prepare(r, v, c, expected, now).value.patch == Prepare(seen, v, c, expected, now).value.patch)
      <==> c.category.id != r.category || r.ai.disagreement.Some?
  {
  }

  // ----- every write keeps a report good -----

  lemma TimelineGrows(t: seq<Event>, status: Status, e: Event)
    requires TimelineOk(t, status) && Follows(t[|t| - 1], e)
    ensures TimelineOk(t + [e], e.status)
    ensures LastMove(t + [e]) == if e.kind.StatusChanged? then Some(e.at) else LastMove(t)
    ensures LastPriority(t + [e]) == if e.priorityChange.Some? then Some(e.priorityChange.value.to) else LastPriority(t)
    ensures LastCategory(t + [e]) == if e.categoryChange.Some? then Some(e.categoryChange.value.to) else LastCategory(t)
  {
    assert (t + [e])[..|t|] == t;
    forall i | 1 <= i < |t + [e]| ensures Follows((t + [e])[i - 1], (t + [e])[i]) {
      if i < |t| { assert Follows(t[i - 1], t[i]); }
    }
  }

  lemma AssignmentsGrow(h: seq<Assignment>, assignee: Option<nat>, a: Assignment)
    requires AssignmentsOk(h, assignee) && a.previous == assignee && KindFits(a)
    ensures AssignmentsOk(h + [a], a.next)
  {
    var g := h + [a];
    forall i | 0 <= i < |g| ensures KindFits(g[i]) {
      if i < |h| { assert KindFits(h[i]); }
    }
    forall i | 0 <= i < |g| ensures g[i].previous == PreviousOf(g, i) {
      if i < |h| { assert h[i].previous == PreviousOf(h, i); }
    }
  }

  /** The report after a decided transition, field by field. */
  lemma TransitionEffect(r: Report, v: Viewer, c: Change, now: nat)
    requires c.Update? && c.status.Some? && DecideTransition(r, v, c, now).Ok?
    ensures
      var patch, after := DecideTransition(r, v, c, now).value, Apply(DecideTransition(r, v, c, now).value, r);
      && patch.event.Some?
      && (var e := patch.event.value;
          && e.kind.StatusChanged? && e.at == now && e.categoryChange.None? && Allowed(r.status, e.status)
          && (OwesExplanation(r.status, e.status) ==> HasPublicNote(e))
          && after.timeline == r.timeline + [e] && after.status == e.status
          && after.resolvedAt ==
               (if e.status.Resolved? then Some(now) else if r.status.Resolved? then None else r.resolvedAt)
          && after.priority == (if e.priorityChange.Some? then e.priorityChange.value.to else r.priority)
          && after.prioritySource == (if e.priorityChange.Some? then StaffPriority else r.prioritySource))
  {
  }

  lemma TransitionLeaves(r: Report, v: Viewer, c: Change, now: nat)
    requires c.Update? && c.status.Some? && DecideTransition(r, v, c, now).Ok?
    ensures
      var after := Apply(DecideTransition(r, v, c, now).value, r);
      && after.assignments == r.assignments && after.assignee == r.assignee
      && after.edits == r.edits && after.ai == r.ai
      && after.category == r.category && after.snapshot == r.snapshot && after.categorySource == r.categorySource
      && !after.status.Withdrawn?
  {
  }

  lemma TransitionKeepsGood(r: Report, v: Viewer, c: Change, now: nat)
    requires Good(r) && c.Update? && c.status.Some? && DecideTransition(r, v, c, now).Ok?
    ensures Good(Apply(DecideTransition(r, v, c, now).value, r))
  {
    TransitionEffect(r, v, c, now);
    TransitionLeaves(r, v, c, now);
    TimelineGrows(r.timeline, r.status, DecideTransition(r, v, c, now).value.event.value);
  }

  lemma PriorityKeepsGood(r: Report, v: Viewer, c: Change, now: nat)
    requires Good(r) && c.Update? && DecidePriorityChange(r, v, c, now).Ok?
    ensures Good(Apply(DecidePriorityChange(r, v, c, now).value, r))
  {
    TimelineGrows(r.timeline, r.status, DecidePriorityChange(r, v, c, now).value.event.value);
  }

  lemma UpdateDecides(r: Report, v: Viewer, c: Change, expected: Option<nat>, now: nat)
    requires c.Update? && Prepare(r, v, c, expected, now).Ok?
    ensures
      var decision := if c.status.Some? then DecideTransition(r, v, c, now) else DecidePriorityChange(r, v, c, now);
      decision.Ok? && Prepare(r, v, c, expected, now).value.patch == decision.value
  {
  }

  lemma UpdateKeepsGood(r: Report, v: Viewer, c: Change, expected: Option<nat>, now: nat)
    requires Good(r) && c.Update? && Prepare(r, v, c, expected, now).Ok?
    ensures Good(Apply(Prepare(r, v, c, expected, now).value.patch, r))
  {
    UpdateDecides(r, v, c, expected, now);
    if c.status.Some? { TransitionKeepsGood(r, v, c, now); } else { PriorityKeepsGood(r, v, c, now); }
  }

  lemma EditKeepsGood(r: Report, v: Viewer, c: Change, expected: Option<nat>, now: nat)
    requires Good(r) && c.Edit? && Prepare(r, v, c, expected, now).Ok?
    ensures Good(Apply(Prepare(r, v, c, expected, now).value.patch, r))
  {
  }

  lemma WithdrawKeepsGood(r: Report, v: Viewer, c: Change, expected: Option<nat>, now: nat)
    requires Good(r) && c.Withdraw? && Prepare(r, v, c, expected, now).Ok?
    ensures Good(Apply(Prepare(r, v, c, expected, now).value.patch, r))
  {
    var p := Prepare(r, v, c, expected, now).value.patch;
    TimelineGrows(r.timeline, r.status, p.event.value);
    if p.assignment.Some? {
      AssignmentsGrow(r.assignments, r.assignee, p.assignment.value);
    }
  }

  /** The category update keeps a report good even when the decision read an older disagreement. */
  lemma RecategoriseKeepsGood(seen: Report, r: Report, v: Viewer, c: Change, expected: Option<nat>, now: nat)
    requires Since(seen, r) && seen.category == seen.snapshot.id && Good(r)
    requires c.Recategorise? && Prepare(seen, v, c, expected, now).Ok?
    requires Matches(Prepare(seen, v, c, expected, now).value.filter, r)
    ensures Good(Apply(Prepare(seen, v, c, expected, now).value.patch, r))
  {
    RecategoriseRefines(seen, r, v, c, expected, now);
    TimelineGrows(r.timeline, r.status, Prepare(seen, v, c, expected, now).value.patch.event.value);
  }

  lemma AssignKeepsGood(r: Report, v: Viewer, c: Change, expected: Option<nat>, now: nat)
    requires Good(r) && c.Assign? && Prepare(r, v, c, expected, now).Ok?
    ensures Good(Apply(Prepare(r, v, c, expected, now).value.patch, r))
  {
    AssignmentsGrow(r.assignments, r.assignee, Prepare(r, v, c, expected, now).value.patch.assignment.value);
  }

  ghost predicate RequestOk(q: Request, r: Report) {
    PlanOf(q).Ok? && Since(q.seen, r) && q.seen.category == q.seen.snapshot.id
  }

  lemma WriteKeepsGood(q: Request, r: Report)
    requires Good(r) && RequestOk(q, r) && Matches(PlanOf(q).value.filter, r)
    ensures Good(Apply(PlanOf(q).value.patch, r))
  {
    if q.change.Recategorise? {
      RecategoriseKeepsGood(q.seen, r, q.viewer, q.change, q.expected, q.now);
    } else {
      WriteRefines(q.seen, r, q.viewer, q.change, q.expected, q.now);
      match q.change
      case Update(_, _, _, _) => UpdateKeepsGood(r, q.viewer, q.change, q.expected, q.now);
      case Edit(_, _) => EditKeepsGood(r, q.viewer, q.change, q.expected, q.now);
      case Withdraw(_) => WithdrawKeepsGood(r, q.viewer, q.change, q.expected, q.now);
      case Assign(_) => AssignKeepsGood(r, q.viewer, q.change, q.expected, q.now);
    }
  }

  lemma RetireKeepsGood(r: Report, user: nat, actor: nat, now: nat)
    requires Good(r)
    ensures Good(RetireFrom(r, user, actor, now))
  {
    if r.assignee == Some(user) && !Terminal(r.status) {
      AssignmentsGrow(r.assignments, r.assignee, Assignment(RetirementUnassignment, Some(user), None, actor, now));
    }
  }

  /** A verdict belongs to a request no longer waiting. */
  ghost predicate VerdictsOk(d: Doc) {
    forall n :: n in d.verdicts ==>
      n <= d.report.ai.request && (n == d.report.ai.request ==> !d.report.ai.status.AiPending?)
  }

  ghost predicate Inv(d: Doc) {
    && Good(d.report)
    && (forall k :: k in d.pending ==> RequestOk(d.pending[k], d.report))
    && VerdictsOk(d)
  }

  lemma StepKeepsGood(d: Doc, a: Action)
    requires Inv(d)
    ensures Good(Step(d, a).report)
  {
    match a
    case Write(key) => if Writes(d, key) { WriteKeepsGood(d.pending[key], d.report); }
    case Retire(user, actor, now, bump) => RetireKeepsGood(d.report, user, actor, now);
    case _ =>
  }

  /** Every step leaves the same version of the same report, or a later version. */
  lemma StepIsLater(d: Doc, a: Action)
    ensures Since(d.report, Step(d, a).report)
  {
  }

  lemma SinceTransitive(a: Report, b: Report, c: Report)
    requires Since(a, b) && Since(b, c)
    ensures Since(a, c)
  {
  }

  lemma StepKeeps(d: Doc, a: Action)
    requires Inv(d)
    ensures Inv(Step(d, a))
  {
    var e := Step(d, a);
    StepKeepsGood(d, a);
    StepIsLater(d, a);
    forall k | k in e.pending ensures RequestOk(e.pending[k], e.report) {
      if k in d.pending {
        assert RequestOk(d.pending[k], d.report);
        SinceTransitive(d.pending[k].seen, d.report, e.report);
      }
    }
    VerdictsKeep(d, a);
  }

  lemma VerdictsKeep(d: Doc, a: Action)
    requires VerdictsOk(d)
    ensures VerdictsOk(Step(d, a)) && VerdictsKept(d, Step(d, a))
  {
  }

  lemma FiledInv(d: Doc)
    requires IsFiled(d)
    ensures Inv(d)
  {
  }

  lemma {:induction false} RunKeeps(d: Doc, acts: seq<Action>)
    requires Inv(d)
    ensures Inv(Run(d, acts))
    decreases |acts|
  {
    if acts != [] {
      StepKeeps(d, acts[0]);
      RunKeeps(Step(d, acts[0]), acts[1..]);
    }
  }

  lemma {:induction false} RunComposes(d: Doc, first: seq<Action>, second: seq<Action>)
    ensures Run(d, first + second) == Run(Run(d, first), second)
    decreases |first|
  {
    if first == [] {
      assert first + second == second;
    } else {
      assert (first + second)[1..] == first[1..] + second;
      RunComposes(Step(d, first[0]), first[1..], second);
    }
  }

  // ----- promises over every run of a filed report -----

  /** Timeline, resolution time, assignment history and limits are right in every reachable state. */
  lemma ReportExplained(filed: Doc, acts: seq<Action>)
    requires IsFiled(filed)
    ensures Good(Run(filed, acts).report)
  {
    FiledInv(filed);
    RunKeeps(filed, acts);
  }

  /**
   A write that matches has the effect of deciding on the report as it stands at the write. For a
   category change the recorded `from` category and status are those of the stored report, and the
   whole decision is the same exactly when it would not be refused as an unchanged category now.
   */
  lemma WriteIsAtomicDecision(filed: Doc, acts: seq<Action>, key: nat)
    requires IsFiled(filed) && Writes(Run(filed, acts), key)
    ensures
      var d := Run(filed, acts);
      var q := d.pending[key];
      var now := Prepare(d.report, q.viewer, q.change, q.expected, q.now);
      var patch := PlanOf(q).value.patch;
      && Step(d, Write(key)).report == Apply(patch, d.report)
      && (!q.change.Recategorise? ==> now.Ok? && now.value.patch == patch)
      && (q.change.Recategorise? ==>
            && patch.event.Some? && patch.event.value.status == d.report.status
            && patch.event.value.categoryChange == Some(CategoryChange(d.report.snapshot, q.change.category))
            && ((now.Ok? && now.value.patch == patch)
                <==> q.change.category.id != d.report.category || d.report.ai.disagreement.Some?))
  {
    var d := Run(filed, acts);
    FiledInv(filed);
    RunKeeps(filed, acts);
    var q := d.pending[key];
    assert RequestOk(q, d.report);
    if q.change.Recategorise? {
      RecategoriseRefines(q.seen, d.report, q.viewer, q.change, q.expected, q.now);
    } else {
      WriteRefines(q.seen, d.report, q.viewer, q.change, q.expected, q.now);
    }
  }

  // ----- withdrawal is final -----

  /** Nothing but the version number may differ. */
  predicate SameContent(a: Report, b: Report) {
    b == a.(version := b.version)
  }

  lemma WithdrawnMatchesNothing(q: Request, r: Report)
    requires r.status.Withdrawn? && RequestOk(q, r)
    ensures !Matches(PlanOf(q).value.filter, r)
  {
  }

  lemma WithdrawnStepFrozen(d: Doc, a: Action)
    requires Inv(d) && d.report.status.Withdrawn?
    ensures SameContent(d.report, Step(d, a).report) && Step(d, a).verdicts == d.verdicts
  {
    if a.Write? && Writes(d, a.key) {
      WithdrawnMatchesNothing(d.pending[a.key], d.report);
    }
  }

  lemma {:induction false} WithdrawnRunFrozen(d: Doc, acts: seq<Action>)
    requires Inv(d) && d.report.status.Withdrawn?
    ensures SameContent(d.report, Run(d, acts).report)
    decreases |acts|
  {
    if acts != [] {
      WithdrawnStepFrozen(d, acts[0]);
      StepKeeps(d, acts[0]);
      WithdrawnRunFrozen(Step(d, acts[0]), acts[1..]);
    }
  }

  /** After a withdrawal nothing changes again, and withdrawing once more answers with the same report. */
  lemma WithdrawalIsFinal(filed: Doc, acts: seq<Action>, key: nat, more: seq<Action>)
    requires IsFiled(filed) && Writes(Run(filed, acts), key) && Run(filed, acts).pending[key].change.Withdraw?
    ensures
      var d, end := Run(filed, acts + [Write(key)]), Run(filed, acts + [Write(key)] + more);
      var v := Run(filed, acts).pending[key].viewer;
      && d.report.status.Withdrawn? && SameContent(d.report, end.report)
      && forall c: Change, expected, now | c.Withdraw? ::
           Prepare(end.report, v, c, expected, now) == Result.Refused(AlreadyWithdrawn)
  {
    var before := Run(filed, acts);
    FiledInv(filed);
    RunKeeps(filed, acts);
    RunComposes(filed, acts, [Write(key)]);
    RunComposes(filed, acts + [Write(key)], more);
    assert Run(before, [Write(key)]) == Step(before, Write(key));
    StepKeeps(before, Write(key));
    WithdrawnRunFrozen(Step(before, Write(key)), more);
  }

  // ----- human choices survive -----

  predicate Recategorises(d: Doc, a: Action) {
    a.Write? && Writes(d, a.key) && d.pending[a.key].change.Recategorise?
  }

  predicate Reprioritises(d: Doc, a: Action) {
    a.Write? && Writes(d, a.key) && d.pending[a.key].change.Update? && d.pending[a.key].change.priority.Some?
  }

  predicate SameCategory(a: Report, b: Report) {
    a.category == b.category && a.snapshot == b.snapshot && a.categorySource == b.categorySource
  }

  lemma CategoryStands(d: Doc, a: Action)
    requires d.report.categorySource.Staff? || d.report.categorySource.Citizen?
    requires !Recategorises(d, a)
    ensures SameCategory(d.report, Step(d, a).report)
  {
    if a.Write? && Writes(d, a.key) { WriteKeepsCategory(d.pending[a.key], d.report); }
  }

  lemma WriteKeepsCategory(q: Request, r: Report)
    requires PlanOf(q).Ok? && !q.change.Recategorise?
    ensures SameCategory(r, Apply(PlanOf(q).value.patch, r))
  {
  }

  lemma PriorityStands(d: Doc, a: Action)
    requires d.report.prioritySource.StaffPriority?
    requires !Reprioritises(d, a)
    ensures Step(d, a).report.priority == d.report.priority && Step(d, a).report.prioritySource.StaffPriority?
  {
    if a.Write? && Writes(d, a.key) { WriteKeepsPriority(d.pending[a.key], d.report); }
  }

  lemma WriteKeepsPriority(q: Request, r: Report)
    requires PlanOf(q).Ok? && !(q.change.Update? && q.change.priority.Some?)
    ensures
      var after := Apply(PlanOf(q).value.patch, r);
      after.priority == r.priority && after.prioritySource == r.prioritySource
  {
  }

  ghost predicate NeverRecategorised(d: Doc, acts: seq<Action>)
    decreases |acts|
  {
    acts != [] ==> !Recategorises(d, acts[0]) && NeverRecategorised(Step(d, acts[0]), acts[1..])
  }

  ghost predicate NeverReprioritised(d: Doc, acts: seq<Action>)
    decreases |acts|
  {
    acts != [] ==> !Reprioritises(d, acts[0]) && NeverReprioritised(Step(d, acts[0]), acts[1..])
  }

  /** A staff or citizen category stands until staff change it, whatever else runs. */
  lemma {:induction false} HumanCategorySurvives(d: Doc, acts: seq<Action>)
    requires d.report.categorySource.Staff? || d.report.categorySource.Citizen?
    requires NeverRecategorised(d, acts)
    ensures SameCategory(d.report, Run(d, acts).report)
    decreases |acts|
  {
    if acts != [] {
      CategoryStands(d, acts[0]);
      HumanCategorySurvives(Step(d, acts[0]), acts[1..]);
    }
  }

  /** A staff priority stands until staff change it. */
  lemma {:induction false} StaffPrioritySurvives(d: Doc, acts: seq<Action>)
    requires d.report.prioritySource.StaffPriority?
    requires NeverReprioritised(d, acts)
    ensures Run(d, acts).report.priority == d.report.priority
    decreases |acts|
  {
    if acts != [] {
      PriorityStands(d, acts[0]);
      StaffPrioritySurvives(Step(d, acts[0]), acts[1..]);
    }
  }

  // ----- one verdict for each request -----

  predicate GivesVerdict(d: Doc, a: Action) {
    || (a.Classify? && ClassificationMatches(a.seen, a.request, d.report))
    || (a.GiveUp? && GivesUp(d.report, a.request, a.held))
  }

  /** A result or failure that matches is the first final classification of its request. */
  lemma VerdictOnce(filed: Doc, acts: seq<Action>, a: Action)
    requires IsFiled(filed) && GivesVerdict(Run(filed, acts), a)
    ensures a.request !in Run(filed, acts).verdicts
    ensures a.request in Step(Run(filed, acts), a).verdicts
  {
    FiledInv(filed);
    RunKeeps(filed, acts);
    assert VerdictsOk(Run(filed, acts));
  }

  ghost predicate VerdictsKept(d: Doc, e: Doc) {
    forall n :: n in d.verdicts ==> n in e.verdicts && e.verdicts[n] == d.verdicts[n]
  }

  /** A verdict, once given, is never replaced. */
  lemma {:induction false} VerdictsNeverRewritten(d: Doc, acts: seq<Action>)
    requires Inv(d)
    ensures VerdictsKept(d, Run(d, acts))
    decreases |acts|
  {
    if acts != [] {
      StepKeeps(d, acts[0]);
      VerdictsKeep(d, acts[0]);
      VerdictsNeverRewritten(Step(d, acts[0]), acts[1..]);
    }
  }

  // ----- what a classification worker can rely on -----

  /** Each human-editable source is as it was, with the same category, or has become STAFF. */
  predicate Advances(a: Report, b: Report) {
    && (b.categorySource.Staff? || (b.categorySource == a.categorySource && b.category == a.category))
    && (b.prioritySource.StaffPriority? || b.prioritySource == a.prioritySource)
  }

  /** Request numbers only rise; while one stays current it was current before, and its sources only advance. */
  predicate AiSince(a: Report, b: Report) {
    && a.ai.request <= b.ai.request
    && (CurrentPending(b, b.ai.request) && b.ai.request == a.ai.request ==>
          CurrentPending(a, a.ai.request) && Advances(a, b))
  }

  lemma WriteAiSince(q: Request, r: Report)
    requires PlanOf(q).Ok? && Matches(PlanOf(q).value.filter, r)
    ensures AiSince(r, Apply(PlanOf(q).value.patch, r))
  {
    match q.change
    case Update(_, _, _, _) => UpdateAiSince(q, r);
    case Edit(_, _) => EditAiSince(q, r);
    case Withdraw(_) => WithdrawAiSince(q, r);
    case Recategorise(_, _) => RecategoriseAiSince(q, r);
    case Assign(_) => AssignAiSince(q, r);
  }

  lemma UpdateAiSince(q: Request, r: Report)
    requires q.change.Update? && PlanOf(q).Ok? && Matches(PlanOf(q).value.filter, r)
    ensures AiSince(r, Apply(PlanOf(q).value.patch, r))
  {
  }

  lemma EditAiSince(q: Request, r: Report)
    requires q.change.Edit? && PlanOf(q).Ok? && Matches(PlanOf(q).value.filter, r)
    ensures AiSince(r, Apply(PlanOf(q).value.patch, r))
  {
  }

  lemma WithdrawAiSince(q: Request, r: Report)
    requires q.change.Withdraw? && PlanOf(q).Ok? && Matches(PlanOf(q).value.filter, r)
    ensures AiSince(r, Apply(PlanOf(q).value.patch, r))
  {
  }

  lemma RecategoriseAiSince(q: Request, r: Report)
    requires q.change.Recategorise? && PlanOf(q).Ok? && Matches(PlanOf(q).value.filter, r)
    ensures AiSince(r, Apply(PlanOf(q).value.patch, r))
  {
  }

  lemma AssignAiSince(q: Request, r: Report)
    requires q.change.Assign? && PlanOf(q).Ok? && Matches(PlanOf(q).value.filter, r)
    ensures AiSince(r, Apply(PlanOf(q).value.patch, r))
  {
  }

  lemma StepAiSince(d: Doc, a: Action)
    ensures AiSince(d.report, Step(d, a).report)
  {
    if a.Write? && Writes(d, a.key) {
      WriteAiSince(d.pending[a.key], d.report);
    }
  }
}