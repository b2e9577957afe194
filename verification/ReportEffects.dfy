/**
 What a request does to a report, told from the request and the stored report alone: why it is refused,
 when something else came first, and the report it leaves. `Reports` computes the same by way of a filter
 and an update; here the two are shown to agree, for every request and every write of every run.
 */
module ReportEffects {
  import opened Basics
  import opened Text
  import opened Reports
  import opened ReportSafety

  // ----- the request and its notes -----

  /** Administrators manage every report, agency staff the ones assigned to them. */
  predicate Manages(v: Viewer, r: Report) {
    match v.role
    case AdminRole => true
    case AgencyRole => r.assignee == Some(v.id)
    case CitizenRole => false
  }

  /** One stage along the work, forward or back; a rejection of unfinished work; or its reopening. */
  predicate IsMove(from: Status, to: Status) {
    || (Rank(from) <= 3 && Rank(to) <= 3 && (Rank(to) == Rank(from) + 1 || Rank(from) == Rank(to) + 1))
    || (Rank(from) <= 2 && to.Rejected?)
    || (from.Rejected? && to.Pending?)
  }

  function NoteText(note: Option<string>): Option<string> {
    if note.None? || Trim(note.value) == "" then None else Some(Trim(note.value))
  }

  predicate TooLong(note: Option<string>, max: nat) {
    note.Some? && |Trim(note.value)| > max
  }

  /** The description gets other words. */
  predicate Rewords(r: Report, c: Change)
    requires c.Edit?
  {
    c.description.Some? && Words(c.description.value) != Words(r.description)
  }

  function NewPriority(r: Report, c: Change): Option<PriorityChange>
    requires c.Update?
  {
    if c.priority.None? || c.priority.value == r.priority then None
    else Some(PriorityChange(r.priority, c.priority.value))
  }

  /** The one entry that an update adds to the timeline. */
  function UpdateEvent(r: Report, v: Viewer, c: Change, now: nat): Event
    requires c.Update?
  {
    Event(if c.status.Some? then StatusChanged else PriorityChanged, c.status.GetOr(r.status), NewPriority(r, c), None,
          NoteText(c.publicNote), NoteText(c.internalNote), v.id, now)
  }

  // ----- why a request is refused -----

  function UpdateObjection(r: Report, v: Viewer, c: Change, expected: Option<nat>): Option<Refusal>
    requires c.Update?
  {
    if !Manages(v, r) then Some(NotAllowed)
    else if c.status.None? && r.status.Withdrawn? then Some(IsWithdrawn)
    else if expected.Some? && expected.value != r.version then Some(Stale)
    else if c.status.Some? && !IsMove(r.status, c.status.value) then Some(BadMove)
    else if c.status.None? && c.priority.None? then Some(BadRequest)
    else if c.status.None? && c.priority.value == r.priority then Some(NoChange)
    else if TooLong(c.publicNote, 500) || TooLong(c.internalNote, 1000) then Some(NoteTooLong)
    else if c.status.Some? && OwesExplanation(r.status, c.status.value) && NoteText(c.publicNote).None?
    then Some(NoteMissing)
    else None
  }

  /** The last thing that happened to the report is this person's withdrawal. */
  predicate WithdrawnBy(r: Report, id: nat) {
    && r.status.Withdrawn? && r.timeline != []
    && r.timeline[|r.timeline| - 1].kind.WithdrawnByReporter? && r.timeline[|r.timeline| - 1].actor == id
  }

  function ReporterObjection(r: Report, v: Viewer, c: Change, expected: Option<nat>): Option<Refusal>
    requires c.Edit? || c.Withdraw?
  {
    if v.id != r.reporter then Some(NotAllowed)
    else if c.Withdraw? && WithdrawnBy(r, v.id) then Some(AlreadyWithdrawn)
    else if !r.status.Pending? then Some(NotEditable)
    else if expected.Some? && expected.value != r.version then Some(Stale)
    else if c.Withdraw? then None
    else if |r.edits| >= 20 || (Rewords(r, c) && r.ai.analyses >= 6) then Some(EditLimit)
    else if c.location.None? && (c.description.None? || c.description.value == r.description) then Some(NothingToWrite)
    else None
  }

  function StaffObjection(r: Report, v: Viewer, c: Change, expected: Option<nat>): Option<Refusal>
    requires c.Recategorise? || c.Assign?
  {
    if (if c.Assign? then !v.role.AdminRole? else !Manages(v, r)) then Some(NotAllowed)
    else if r.status.Withdrawn? then Some(IsWithdrawn)
    else if expected.Some? && expected.value != r.version then Some(Stale)
    else if c.Recategorise? then
      if c.category.id == r.category && r.ai.disagreement.None? then Some(CategoryUnchanged) else None
    else if c.target.None? && r.assignee.None? then Some(AlreadyUnassigned)
    else if c.target == r.assignee then Some(AlreadyAssigned)
    else None
  }

  function Objection(r: Report, v: Viewer, c: Change, expected: Option<nat>): Option<Refusal> {
    match c
    case Update(_, _, _, _) => UpdateObjection(r, v, c, expected)
    case Edit(_, _) => ReporterObjection(r, v, c, expected)
    case Withdraw(_) => ReporterObjection(r, v, c, expected)
    case Recategorise(_, _) => StaffObjection(r, v, c, expected)
    case Assign(_) => StaffObjection(r, v, c, expected)
  }

  // ----- what must not have changed between the reading and the write -----

  predicate Undisturbed(seen: Report, at: Report, v: Viewer, c: Change) {
    && at.version == seen.version
    && match c
       case Update(_, priority, _, _) =>
         && at.status == seen.status
         && (v.role.AgencyRole? ==> at.assignee == seen.assignee)
         && (priority.Some? ==> at.priority == seen.priority && at.prioritySource == seen.prioritySource)
       case Edit(_, _) => at.status.Pending? && at.reporter == seen.reporter
       case Withdraw(_) => at.status.Pending? && at.reporter == seen.reporter && at.assignee == seen.assignee
       case Recategorise(_, _) =>
         && !at.status.Withdrawn? && at.category == seen.category && at.categorySource == seen.categorySource
         && at.snapshot.name == seen.snapshot.name && (v.role.AgencyRole? ==> at.assignee == Some(v.id))
       case Assign(_) => at.assignee == seen.assignee
  }

  // ----- the report a request leaves -----

  /** An update adds one entry; the status, the priority and the time of resolution follow it. */
  predicate UpdateLeaves(at: Report, v: Viewer, c: Change, now: nat, r: Report)
    requires c.Update?
  {
    r == at.(
      timeline := at.timeline + [UpdateEvent(at, v, c, now)],
      status := c.status.GetOr(at.status),
      priority := c.priority.GetOr(at.priority),
      prioritySource := if NewPriority(at, c).Some? then StaffPriority else at.prioritySource,
      resolvedAt := if c.status.None? then at.resolvedAt
                    else if c.status.value.Resolved? then Some(now)
                    else if at.status.Resolved? then None else at.resolvedAt,
      version := at.version + 1)
  }

  /** An edit is recorded, and other words ask for a new analysis under a new number. */
  predicate EditLeaves(at: Report, c: Change, now: nat, r: Report)
    requires c.Edit?
  {
    r == at.(
      description := c.description.GetOr(at.description),
      location := c.location.GetOr(at.location),
      edits := at.edits + [Edited(c.description.Some? && c.description.value != at.description, c.location.Some?,
                                  Rewords(at, c), now)],
      ai := if Rewords(at, c)
            then Ai(AiPending, at.ai.request + 1, None, at.ai.analyses + 1, None, None, None) else at.ai,
      version := at.version + 1)
  }

  /** A withdrawal tells why, and nobody is left assigned. */
  predicate WithdrawLeaves(at: Report, v: Viewer, c: Change, now: nat, r: Report)
    requires c.Withdraw?
  {
    var note := if c.reason.None? || c.reason.value == "" then "Withdrawn by reporter" else c.reason.value;
    r == at.(
      status := Withdrawn,
      timeline := at.timeline + [Event(WithdrawnByReporter, Withdrawn, None, None, Some(note), None, v.id, now)],
      assignee := None,
      assignments := at.assignments + if at.assignee.None? then []
                                      else [Assignment(WithdrawalUnassignment, at.assignee, None, v.id, now)],
      version := at.version + 1)
  }

  /** A staff category, with an entry from the category the report had, for staff's eyes. */
  predicate RecategoriseLeaves(at: Report, v: Viewer, c: Change, now: nat, r: Report)
    requires c.Recategorise?
  {
    r == at.(
      category := c.category.id, snapshot := c.category, categorySource := Staff,
      ai := at.ai.(disagreement := None),
      timeline := at.timeline + [Event(CategoryChanged, at.status, None, Some(CategoryChange(at.snapshot, c.category)),
                                       None, Some(c.remark), v.id, now)],
      version := at.version + 1)
  }

  predicate AssignLeaves(at: Report, v: Viewer, c: Change, now: nat, r: Report)
    requires c.Assign?
  {
    var kind := if at.assignee.None? then Assigned else if c.target.Some? then Reassigned else Unassigned;
    r == at.(assignee := c.target, assignments := at.assignments + [Assignment(kind, at.assignee, c.target, v.id, now)],
             version := at.version + 1)
  }

  predicate Leaves(at: Report, v: Viewer, c: Change, now: nat, r: Report) {
    match c
    case Update(_, _, _, _) => UpdateLeaves(at, v, c, now, r)
    case Edit(_, _) => EditLeaves(at, c, now, r)
    case Withdraw(_) => WithdrawLeaves(at, v, c, now, r)
    case Recategorise(_, _) => RecategoriseLeaves(at, v, c, now, r)
    case Assign(_) => AssignLeaves(at, v, c, now, r)
  }

  // ----- the decisions agree -----

  function RefusalOf(plan: Result<Plan, Refusal>): Option<Refusal> {
    if plan.Refused? then Some(plan.reason) else None
  }

  lemma MaterialIs(before: string, after: Option<string>)
    ensures IsMaterial(before, after) <==> after.Some? && Words(after.value) != Words(before)
  {
    if after.Some? { NormaliseIff(after.value, before); }
  }

  lemma UpdateRefusedFor(r: Report, v: Viewer, c: Change, expected: Option<nat>, now: nat)
    requires c.Update?
    ensures RefusalOf(Prepare(r, v, c, expected, now)) == UpdateObjection(r, v, c, expected)
  {
  }

  /** A request is refused exactly for its objection. */
  lemma RefusedFor(r: Report, v: Viewer, c: Change, expected: Option<nat>, now: nat)
    ensures RefusalOf(Prepare(r, v, c, expected, now)) == Objection(r, v, c, expected)
  {
    match c
    case Update(_, _, _, _) => UpdateRefusedFor(r, v, c, expected, now);
    case Edit(_, _) => MaterialIs(r.description, c.description);
    case _ =>
  }

  /** The write matches exactly a report that is undisturbed. */
  lemma MatchesUndisturbed(seen: Report, at: Report, v: Viewer, c: Change, expected: Option<nat>, now: nat)
    requires Prepare(seen, v, c, expected, now).Ok?
    ensures Matches(Prepare(seen, v, c, expected, now).value.filter, at) <==> Undisturbed(seen, at, v, c)
  {
  }

  lemma UpdateLeavesIt(at: Report, v: Viewer, c: Change, expected: Option<nat>, now: nat)
    requires c.Update? && Prepare(at, v, c, expected, now).Ok?
    ensures UpdateLeaves(at, v, c, now, Apply(Prepare(at, v, c, expected, now).value.patch, at))
  {
    UpdateDecides(at, v, c, expected, now);
  }

  lemma EditLeavesIt(at: Report, v: Viewer, c: Change, expected: Option<nat>, now: nat)
    requires c.Edit? && Prepare(at, v, c, expected, now).Ok?
    ensures EditLeaves(at, c, now, Apply(Prepare(at, v, c, expected, now).value.patch, at))
  {
    MaterialIs(at.description, c.description);
  }

  /** And then leaves the report it should, decided from the report as it is. */
  lemma AppliedLeaves(at: Report, v: Viewer, c: Change, expected: Option<nat>, now: nat)
    requires Prepare(at, v, c, expected, now).Ok?
    ensures Leaves(at, v, c, now, Apply(Prepare(at, v, c, expected, now).value.patch, at))
  {
    match c
    case Update(_, _, _, _) => UpdateLeavesIt(at, v, c, expected, now);
    case Edit(_, _) => EditLeavesIt(at, v, c, expected, now);
    case _ =>
  }

  /** Or decided from an earlier reading that still matches. */
  lemma WriteLeaves(q: Request, at: Report)
    requires RequestOk(q, at) && at.category == at.snapshot.id && Matches(PlanOf(q).value.filter, at)
    ensures Undisturbed(q.seen, at, q.viewer, q.change)
    ensures Leaves(at, q.viewer, q.change, q.now, Apply(PlanOf(q).value.patch, at))
  {
    MatchesUndisturbed(q.seen, at, q.viewer, q.change, q.expected, q.now);
    if q.change.Recategorise? {
      RecategoriseRefines(q.seen, at, q.viewer, q.change, q.expected, q.now);
    } else {
      WriteRefines(q.seen, at, q.viewer, q.change, q.expected, q.now);
      AppliedLeaves(at, q.viewer, q.change, q.expected, q.now);
    }
  }

  /**
   In every run of a filed report, a request waiting to be written had no objection when it was read; its
   write lands exactly if the report is undisturbed, and then leaves the report as asked.
   */
  lemma EveryWriteDoesAsAsked(filed: Doc, acts: seq<Action>, key: nat)
    requires IsFiled(filed) && key in Run(filed, acts).pending
    ensures
      var d := Run(filed, acts);
      var q, after := d.pending[key], Step(d, Write(key)).report;
      && Objection(q.seen, q.viewer, q.change, q.expected).None?
      && if Undisturbed(q.seen, d.report, q.viewer, q.change)
         then Leaves(d.report, q.viewer, q.change, q.now, after) else after == d.report
  {
    FiledInv(filed);
    RunKeeps(filed, acts);
    var d := Run(filed, acts);
    var q := d.pending[key];
    assert RequestOk(q, d.report);
    RefusedFor(q.seen, q.viewer, q.change, q.expected, q.now);
    MatchesUndisturbed(q.seen, d.report, q.viewer, q.change, q.expected, q.now);
    if Matches(PlanOf(q).value.filter, d.report) { WriteLeaves(q, d.report); }
  }
}
