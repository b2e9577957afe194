/**
 One report document and everything that writes it: staff and reporter requests (read, decide, then
 write with a filter), classification requests and results, and account retirement.
 */
module Reports {
  import opened Basics
  import opened Text

  datatype Status = Pending | InReview | InProgress | Resolved | Rejected | Withdrawn
  datatype Priority = Low | Medium | High | Critical
  datatype CategorySource = NoSource | Provisional | Citizen | ByAi | Fallback | Staff
  datatype PrioritySource = NoPrioritySource | CategoryDefault | AiPriority | StaffPriority
  datatype Category = Category(id: nat, name: string)
  datatype Role = CitizenRole | AdminRole | AgencyRole
  datatype Viewer = Viewer(id: nat, role: Role)

  datatype PriorityChange = PriorityChange(from: Priority, to: Priority)
  datatype CategoryChange = CategoryChange(from: Category, to: Category)
  datatype EventKind = Created | StatusChanged | PriorityChanged | CategoryChanged | WithdrawnByReporter

  datatype Event = Event(
    kind: EventKind,
    status: Status,
    priorityChange: Option<PriorityChange>,
    categoryChange: Option<CategoryChange>,
    publicNote: Option<string>,
    internalNote: Option<string>,
    actor: nat,
    at: nat)

  datatype AssignmentKind = Assigned | Reassigned | Unassigned | RetirementUnassignment | WithdrawalUnassignment
  datatype Assignment = Assignment(kind: AssignmentKind, previous: Option<nat>, next: Option<nat>, actor: nat, at: nat)
  datatype Edited = Edited(description: bool, location: bool, reanalysed: bool, at: nat)

  datatype AiStatus = AiPending | AiDone | AiFailed
  datatype Answer = Answer(category: string, priority: Priority, confidence: real, summary: string)
  datatype Disagreement = Disagreement(category: Category, confidence: real)
  datatype AiFailure = AiFailure(code: Code, at: nat)

  datatype Ai = Ai(
    status: AiStatus,
    request: nat,
    token: Option<nat>,
    analyses: nat,
    answer: Option<Answer>,
    disagreement: Option<Disagreement>,
    failure: Option<AiFailure>)

  datatype Report = Report(
    reporter: nat,
    description: string,
    location: string,
    category: nat,
    snapshot: Category,
    categorySource: CategorySource,
    priority: Priority,
    prioritySource: PrioritySource,
    status: Status,
    version: nat,
    assignee: Option<nat>,
    timeline: seq<Event>,
    assignments: seq<Assignment>,
    edits: seq<Edited>,
    resolvedAt: Option<nat>,
    ai: Ai)

  // ----- policies -----

  const MAX_ANALYSES := 6
  const MAX_EDITS := 20
  const FALLBACK_NAME := "Other"

  /** Moves staff may make; only the reporter's withdrawal enters WITHDRAWN and nothing leaves it. */
  predicate Allowed(from: Status, to: Status) {
    match from
    case Pending => to.InReview? || to.Rejected?
    case InReview => to.Pending? || to.InProgress? || to.Rejected?
    case InProgress => to.InReview? || to.Resolved? || to.Rejected?
    case Resolved => to.InProgress?
    case Rejected => to.Pending?
    case Withdrawn => false
  }

  predicate PublicNoteRequired(from: Status, to: Status) {
    || (from.InReview? && to.Pending?) || (from.InProgress? && to.InReview?)
    || (from.Resolved? && to.InProgress?) || (from.Rejected? && to.Pending?)
    || to.Rejected?
  }

  predicate Terminal(status: Status) {
    status.Resolved? || status.Rejected? || status.Withdrawn?
  }

  predicate IsReporter(v: Viewer, r: Report) {
    v.id == r.reporter
  }

  predicate CanManageStatus(v: Viewer, r: Report) {
    v.role.AdminRole? || (v.role.AgencyRole? && r.assignee == Some(v.id))
  }

  datatype Refusal =
    | NotAllowed | NotEditable | AlreadyWithdrawn | IsWithdrawn | Stale | BadMove | NoteMissing | NoteTooLong
    | NoChange | EditLimit | NothingToWrite | CategoryUnchanged | AlreadyUnassigned | AlreadyAssigned | BadRequest

  /** A note is trimmed; an empty one counts as none. */
  function NormaliseNote(note: Option<string>, max: nat): Result<Option<string>, Refusal> {
    if note.None? then Ok(None)
    else if |Trim(note.value)| > max then Result.Refused(NoteTooLong)
    else if Trim(note.value) == "" then Ok(None)
    else Ok(Some(Trim(note.value)))
  }

  predicate IsMaterial(before: string, after: Option<string>) {
    after.Some? && Normalise(after.value) != Normalise(before)
  }

  // ----- what a person asks for, and the filter and update it becomes -----

  datatype Change =
    | Update(status: Option<Status>, priority: Option<Priority>, publicNote: Option<string>,
             internalNote: Option<string>)
    | Edit(description: Option<string>, location: Option<string>)
    | Withdraw(reason: Option<string>)
    | Recategorise(category: Category, remark: string)
    | Assign(target: Option<nat>)

  /** Every present part must match the stored report. */
  datatype Filter = Filter(
    version: nat,
    status: Option<Status>,
    notWithdrawn: bool,
    reporter: Option<nat>,
    assignee: Option<Option<nat>>,
    priority: Option<(Priority, PrioritySource)>,
    category: Option<(nat, CategorySource, string)>)

  datatype ResolvedAction = Preserve | SetTo(at: nat) | Clear

  /** What a matching write does; every one adds one to the version. */
  datatype Patch = Patch(
    status: Option<Status>,
    resolved: ResolvedAction,
    event: Option<Event>,
    priority: Option<Priority>,
    category: Option<Category>,
    description: Option<string>,
    location: Option<string>,
    edited: Option<Edited>,
    assignment: Option<Assignment>)

  datatype Plan = Plan(filter: Filter, patch: Patch)

  const NoPatch: Patch := Patch(None, Preserve, None, None, None, None, None, None, None)

  predicate Matches(f: Filter, r: Report) {
    && r.version == f.version
    && (f.status.Some? ==> r.status == f.status.value)
    && (f.notWithdrawn ==> !r.status.Withdrawn?)
    && (f.reporter.Some? ==> r.reporter == f.reporter.value)
    && (f.assignee.Some? ==> r.assignee == f.assignee.value)
    && (f.priority.Some? ==> (r.priority, r.prioritySource) == f.priority.value)
    && (f.category.Some? ==> (r.category, r.categorySource, r.snapshot.name) == f.category.value)
  }

  /** A new classification request: the number rises and every older result goes. */
  function Requested(ai: Ai): Ai {
    ai.(status := AiPending, request := ai.request + 1, token := None, answer := None, disagreement := None,
        failure := None)
  }

  function ApplyCategory(category: Option<Category>, r: Report): Report {
    if category.None? then r
    else r.(category := category.value.id, snapshot := category.value, categorySource := Staff,
            ai := r.ai.(disagreement := None))
  }

  function ApplyPriority(priority: Option<Priority>, r: Report): Report {
    if priority.None? then r else r.(priority := priority.value, prioritySource := StaffPriority)
  }

  function ApplyEdit(p: Patch, r: Report): Report {
    if p.edited.None? then r
    else
      r.(description := p.description.GetOr(r.description),
         location := p.location.GetOr(r.location),
         edits := r.edits + [p.edited.value],
         ai := if p.edited.value.reanalysed then Requested(r.ai).(analyses := r.ai.analyses + 1) else r.ai)
  }

  function ApplyStatus(p: Patch, r: Report): Report {
    r.(status := p.status.GetOr(r.status),
       resolvedAt := match p.resolved { case Preserve => r.resolvedAt case SetTo(at) => Some(at) case Clear => None },
       timeline := if p.event.Some? then r.timeline + [p.event.value] else r.timeline)
  }

  function ApplyAssignment(assignment: Option<Assignment>, r: Report): Report {
    if assignment.None? then r
    else r.(assignee := assignment.value.next, assignments := r.assignments + [assignment.value])
  }

  function Apply(p: Patch, r: Report): Report {
    ApplyAssignment(p.assignment, ApplyEdit(p, ApplyPriority(p.priority, ApplyCategory(p.category, ApplyStatus(p, r)))))
      .(version := r.version + 1)
  }

  function OnlyIfAgency(v: Viewer, assignee: Option<nat>): Option<Option<nat>> {
    if v.role.AgencyRole? then Some(assignee) else None
  }

  function PriorityPin(priority: Option<Priority>, r: Report): Option<(Priority, PrioritySource)> {
    if priority.Some? then Some((r.priority, r.prioritySource)) else None
  }

  function ChangeOf(priority: Option<Priority>, r: Report): Option<PriorityChange> {
    if priority.Some? && priority.value != r.priority then Some(PriorityChange(r.priority, priority.value)) else None
  }

  function DecideTransition(r: Report, v: Viewer, c: Change, now: nat): Result<Patch, Refusal>
    requires c.Update? && c.status.Some?
  {
    var to := c.status.value;
    if !Allowed(r.status, to) then Result.Refused(BadMove)
    else
      var shown := NormaliseNote(c.publicNote, 500);
      var hidden := NormaliseNote(c.internalNote, 1000);
      if shown.Refused? || hidden.Refused? then Result.Refused(NoteTooLong)
      else if PublicNoteRequired(r.status, to) && shown.value.None? then Result.Refused(NoteMissing)
      else
        var change := ChangeOf(c.priority, r);
        Ok(NoPatch.(
          status := Some(to),
          resolved := if to.Resolved? then SetTo(now) else if r.status.Resolved? then Clear else Preserve,
          event := Some(Event(StatusChanged, to, change, None, shown.value, hidden.value, v.id, now)),
          priority := if change.Some? then Some(change.value.to) else None))
  }

  function DecidePriorityChange(r: Report, v: Viewer, c: Change, now: nat): Result<Patch, Refusal>
    requires c.Update?
  {
    if c.priority.None? then Result.Refused(BadRequest)
    else if c.priority.value == r.priority then Result.Refused(NoChange)
    else
      var shown := NormaliseNote(c.publicNote, 500);
      var hidden := NormaliseNote(c.internalNote, 1000);
      if shown.Refused? || hidden.Refused? then Result.Refused(NoteTooLong)
      else
        Ok(NoPatch.(
          event := Some(Event(PriorityChanged, r.status, ChangeOf(c.priority, r), None,
            shown.value, hidden.value, v.id, now)),
          priority := c.priority))
  }

  /** The client acted on another version than the one read. */
  predicate IsStale(r: Report, expected: Option<nat>) {
    expected.Some? && expected.value != r.version
  }

  function PrepareUpdate(r: Report, v: Viewer, c: Change, expected: Option<nat>, now: nat): Result<Plan, Refusal>
    requires c.Update?
  {
    if !CanManageStatus(v, r) then Result.Refused(NotAllowed)
    else if c.status.None? && r.status.Withdrawn? then Result.Refused(IsWithdrawn)
    else if IsStale(r, expected) then Result.Refused(Stale)
    else
      var decision := if c.status.Some? then DecideTransition(r, v, c, now) else DecidePriorityChange(r, v, c, now);
      if decision.Refused? then Result.Refused(decision.reason)
      else Ok(Plan(
        Filter(r.version, Some(r.status), false, None, OnlyIfAgency(v, r.assignee), PriorityPin(c.priority, r), None),
        decision.value))
  }

  function PrepareEdit(r: Report, v: Viewer, c: Change, expected: Option<nat>, now: nat): Result<Plan, Refusal>
    requires c.Edit?
  {
    var material := IsMaterial(r.description, c.description);
    var rewords := c.description.Some? && c.description.value != r.description;
    if !IsReporter(v, r) then Result.Refused(NotAllowed)
    else if !r.status.Pending? then Result.Refused(NotEditable)
    else if IsStale(r, expected) then Result.Refused(Stale)
    else if |r.edits| >= MAX_EDITS || (material && r.ai.analyses >= MAX_ANALYSES) then Result.Refused(EditLimit)
    else if !rewords && c.location.None? then Result.Refused(NothingToWrite)
    else Ok(Plan(
      Filter(r.version, Some(Pending), false, Some(r.reporter), None, None, None),
      NoPatch.(
        description := if rewords then c.description else None,
        location := c.location,
        edited := Some(Edited(rewords, c.location.Some?, material, now)))))
  }

  /** The latest entry is this person's own withdrawal. */
  predicate OwnWithdrawal(r: Report, v: Viewer) {
    && r.status.Withdrawn? && r.timeline != []
    && r.timeline[|r.timeline| - 1].kind.WithdrawnByReporter? && r.timeline[|r.timeline| - 1].actor == v.id
  }

  /** The API's schema keeps a reason at one character or more. */
  function WithdrawalNote(reason: Option<string>): string {
    if reason.Some? && reason.value != "" then reason.value else "Withdrawn by reporter"
  }

  function PrepareWithdraw(r: Report, v: Viewer, c: Change, expected: Option<nat>, now: nat): Result<Plan, Refusal>
    requires c.Withdraw?
  {
    if !IsReporter(v, r) then Result.Refused(NotAllowed)
    else if OwnWithdrawal(r, v) then Result.Refused(AlreadyWithdrawn)
    else if !r.status.Pending? then Result.Refused(NotEditable)
    else if IsStale(r, expected) then Result.Refused(Stale)
    else Ok(Plan(
      Filter(r.version, Some(Pending), false, Some(r.reporter), Some(r.assignee), None, None),
      NoPatch.(
        status := Some(Withdrawn),
        event := Some(Event(WithdrawnByReporter, Withdrawn, None, None,
          Some(WithdrawalNote(c.reason)), None, v.id, now)),
        assignment := if r.assignee.Some? then Some(Assignment(WithdrawalUnassignment, r.assignee, None, v.id, now))
          else None)))
  }

  function PrepareRecategorise(r: Report, v: Viewer, c: Change, expected: Option<nat>, now: nat): Result<Plan, Refusal>
    requires c.Recategorise?
  {
    if !CanManageStatus(v, r) then Result.Refused(NotAllowed)
    else if r.status.Withdrawn? then Result.Refused(IsWithdrawn)
    else if IsStale(r, expected) then Result.Refused(Stale)
    else if c.category.id == r.category && r.ai.disagreement.None? then Result.Refused(CategoryUnchanged)
    else Ok(Plan(
      Filter(r.version, None, true, None, OnlyIfAgency(v, Some(v.id)), None,
             Some((r.category, r.categorySource, r.snapshot.name))),
      NoPatch.(
        event := Some(Event(CategoryChanged, r.status, None, Some(CategoryChange(r.snapshot, c.category)),
          None, Some(c.remark), v.id, now)),
        category := Some(c.category))))
  }

  function AssignmentKindOf(previous: Option<nat>, next: Option<nat>): AssignmentKind {
    if previous.None? then Assigned else if next.None? then Unassigned else Reassigned
  }

  function PrepareAssign(r: Report, v: Viewer, c: Change, expected: Option<nat>, now: nat): Result<Plan, Refusal>
    requires c.Assign?
  {
    if !v.role.AdminRole? then Result.Refused(NotAllowed)
    else if r.status.Withdrawn? then Result.Refused(IsWithdrawn)
    else if IsStale(r, expected) then Result.Refused(Stale)
    else if c.target.None? && r.assignee.None? then Result.Refused(AlreadyUnassigned)
    else if c.target == r.assignee then Result.Refused(AlreadyAssigned)
    else Ok(Plan(
      Filter(r.version, None, false, None, Some(r.assignee), None, None),
      NoPatch.(assignment :=
        Some(Assignment(AssignmentKindOf(r.assignee, c.target), r.assignee, c.target, v.id, now)))))
  }

  /** Authority, policy and the resulting conditional write, all decided from one reading of the report. */
  function Prepare(r: Report, v: Viewer, c: Change, expected: Option<nat>, now: nat): Result<Plan, Refusal> {
    match c
    case Update(_, _, _, _) => PrepareUpdate(r, v, c, expected, now)
    case Edit(_, _) => PrepareEdit(r, v, c, expected, now)
    case Withdraw(_) => PrepareWithdraw(r, v, c, expected, now)
    case Recategorise(_, _) => PrepareRecategorise(r, v, c, expected, now)
    case Assign(_) => PrepareAssign(r, v, c, expected, now)
  }

  // ----- classification results -----

  predicate AiMaySet(source: CategorySource) {
    source.NoSource? || source.Provisional? || source.Fallback? || source.ByAi?
  }

  /** The active category of that name; a later one of the same name wins. */
  function FindCategory(categories: seq<Category>, name: string): Option<Category> {
    if categories == [] then None
    else if categories[|categories| - 1].name == name then Some(categories[|categories| - 1])
    else FindCategory(categories[..|categories| - 1], name)
  }

  /** The answer's category if it is active, else the active fallback, if there is one. */
  function ChosenCategory(categories: seq<Category>, answer: Answer): Option<Category> {
    var named := FindCategory(categories, answer.category);
    if named.Some? then named else FindCategory(categories, FALLBACK_NAME)
  }

  /** The report's fields a result may change, decided from the reading the worker made. */
  datatype Classification = Classification(
    answer: Answer,
    category: Option<Category>,
    disagreement: Option<Disagreement>,
    priority: Option<Priority>)

  function DecideClassification(seen: Report, answer: Answer, chosen: Category, threshold: real): Classification {
    Classification(
      answer,
      if AiMaySet(seen.categorySource) then Some(chosen) else None,
      if seen.categorySource.Citizen? && chosen.id != seen.category && answer.confidence >= threshold
      then Some(Disagreement(chosen, answer.confidence)) else None,
      if seen.prioritySource.StaffPriority? then None else Some(answer.priority))
  }

  predicate ClassificationMatches(seen: Report, request: nat, r: Report) {
    && !r.status.Withdrawn? && r.ai.status.AiPending? && r.ai.request == request
    && (seen.ai.token.Some? ==> r.ai.token == seen.ai.token)
    && r.categorySource == seen.categorySource && r.prioritySource == seen.prioritySource
  }

  function ApplyClassification(c: Classification, r: Report): Report {
    r.(category := if c.category.Some? then c.category.value.id else r.category,
       snapshot := c.category.GetOr(r.snapshot),
       categorySource := if c.category.Some? then ByAi else r.categorySource,
       priority := c.priority.GetOr(r.priority),
       prioritySource := if c.priority.Some? then AiPriority else r.prioritySource,
       ai := r.ai.(status := AiDone, answer := Some(c.answer), disagreement := c.disagreement,
         failure := None, token := None))
  }

  predicate CurrentPending(r: Report, request: nat) {
    !r.status.Withdrawn? && r.ai.status.AiPending? && r.ai.request == request
  }

  /** A final failure: the current request fails, and a provisional category becomes the fallback. */
  function GivenUp(r: Report, code: Code, now: nat): Report {
    r.(categorySource := if r.categorySource.Provisional? then Fallback else r.categorySource,
       ai := r.ai.(status := AiFailed, failure := Some(AiFailure(code, now)), token := None))
  }

  // ----- the document as a state machine -----

  /** A request between its read and its write. */
  datatype Request = Request(seen: Report, viewer: Viewer, change: Change, expected: Option<nat>, now: nat)

  /** `verdicts` is history: the requests that received a final classification, and which. */
  datatype Doc = Doc(report: Report, pending: map<nat, Request>, verdicts: map<nat, AiStatus>)

  datatype Action =
    | Read(key: nat, viewer: Viewer, change: Change, expected: Option<nat>, now: nat)
    | Write(key: nat)
    | Ask
    | TakeToken(request: nat, token: nat)
    | Classify(seen: Report, request: nat, answer: Answer, chosen: Category, threshold: real)
    | GiveUp(request: nat, held: Option<nat>, code: Code, now: nat)
    | Retire(user: nat, actor: nat, now: nat, bump: nat)

  function PlanOf(q: Request): Result<Plan, Refusal> {
    Prepare(q.seen, q.viewer, q.change, q.expected, q.now)
  }

  /** The pending write finds the report its filter asks for. */
  predicate Writes(d: Doc, key: nat) {
    key in d.pending && PlanOf(d.pending[key]).Ok? && Matches(PlanOf(d.pending[key]).value.filter, d.report)
  }

  function RetireFrom(r: Report, user: nat, actor: nat, now: nat): Report {
    if r.assignee == Some(user) && !Terminal(r.status) then
      r.(assignee := None,
         assignments := r.assignments + [Assignment(RetirementUnassignment, Some(user), None, actor, now)])
    else r
  }

  predicate GivesUp(r: Report, request: nat, token: Option<nat>) {
    CurrentPending(r, request) && (token.Some? ==> r.ai.token == token)
  }

  function Step(d: Doc, a: Action): Doc {
    match a
    case Read(key, viewer, change, expected, now) =>
      var q := Request(d.report, viewer, change, expected, now);
      if key !in d.pending && PlanOf(q).Ok? then d.(pending := d.pending[key := q]) else d
    case Write(key) =>
      var rest := d.(pending := d.pending - {key});
      if Writes(d, key) then rest.(report := Apply(PlanOf(d.pending[key]).value.patch, d.report)) else rest
    case Ask =>
      if d.report.status.Withdrawn? then d else d.(report := d.report.(ai := Requested(d.report.ai)))
    case TakeToken(request, token) =>
      if CurrentPending(d.report, request) then d.(report := d.report.(ai := d.report.ai.(token := Some(token)))) else d
    case Classify(seen, request, answer, chosen, threshold) =>
      if ClassificationMatches(seen, request, d.report) then
        d.(report := ApplyClassification(DecideClassification(seen, answer, chosen, threshold), d.report),
           verdicts := d.verdicts[request := AiDone])
      else d
    case GiveUp(request, held, code, now) =>
      if GivesUp(d.report, request, held) then
        d.(report := GivenUp(d.report, code, now), verdicts := d.verdicts[request := AiFailed])
      else d
    case Retire(user, actor, now, bump) =>
      d.(report := RetireFrom(d.report, user, actor, now).(version := d.report.version + bump))
  }

  function Run(d: Doc, acts: seq<Action>): Doc
    decreases |acts|
  {
    if acts == [] then d else Run(Step(d, acts[0]), acts[1..])
  }

  /** A report as filed: the citizen's category if given, else the fallback until the AI answers. */
  function Filed(reporter: nat, description: string, location: string, hint: Option<Category>, fallback: Category,
                 priority: Priority, now: nat): Doc {
    var category := hint.GetOr(fallback);
    Doc(Report(reporter, description, location, category.id, category, if hint.Some? then Citizen else Provisional,
               priority, CategoryDefault, Pending, 0, None,
               [Event(Created, Pending, None, None, Some("Report submitted"), None, reporter, now)],
               [], [], None, Ai(AiPending, 1, None, 1, None, None, None)),
        map[], map[])
  }

  predicate IsFiled(d: Doc) {
    && d.pending == map[] && d.verdicts == map[]
    && var r := d.report;
       && d == Filed(r.reporter, r.description, r.location,
            if r.categorySource.Citizen? then Some(r.snapshot) else None,
                     r.snapshot, r.priority, if r.timeline != [] then r.timeline[0].at else 0)
  }
}
