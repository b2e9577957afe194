/**
 Classification requests end to end: the job queue, the reports, and the `classify_report` handler
 between them. A transaction is one action; what it does to the queue, to a report and to the
 worker's place in the handler is given by `QueueActs`, `ReportAct` and `PhaseAfter`. So every run of
 this system is a run of the queue and of each report by construction.
 */
module Classification {
  import opened Basics
  import Q = JobQueue
  import R = Reports

  const WRITE_TRIES := 3

  /**
   Where a worker that holds an entry's claim stands in the handler. Of a throw, `claimed` is history:
   whether the worker had got past its claim of the report.
   */
  datatype Phase =
    | Started
    | ReportHeld
    | Current
    | Ready(seen: R.Report, categories: seq<R.Category>)
    | Answered(seen: R.Report, categories: seq<R.Category>, answer: R.Answer, tries: nat)
    | Missed(seen: R.Report, categories: seq<R.Category>, answer: R.Answer, tries: nat)
    | Returned
    | Threw(failure: Q.Failure, claimed: bool)

  datatype System = System(queue: Q.State, docs: seq<R.Doc>, phases: map<nat, Phase>)

  datatype Action =
    // the deployment
    | Queue(act: Q.Action)
    | ClaimEntry(worker: nat, takeOver: bool)
    | RefuseType(worker: nat)
    | Crash(worker: nat)
    // people and schedules
    | FileReport(reporter: nat, description: string, location: string, hint: Option<R.Category>, fallback: R.Category,
                 priority: R.Priority)
    | Person(report: nat, deed: R.Action)
    | Rerun(report: nat)
    | Sweep(report: nat, request: nat, before: nat)
    | RetryJob(entry: nat, request: nat)
    // the classify_report handler
    | ClaimReport(worker: nat)
    | ClaimThrows(worker: nat)
    | Load(worker: nat)
    | LoadAgain(worker: nat, categories: seq<R.Category>)
    | Reply(worker: nat, answer: R.Answer)
    | Throw(worker: nat, code: Code, retryAfter: Option<nat>)
    | Breaks(worker: nat)
    | WriteResult(worker: nat, threshold: real)
    | Reload(worker: nat)
    // any handler's end, recorded by the executor
    | MailEnds(worker: nat, failure: Option<Q.Failure>)
    | Finish(worker: nat)

  const Start: System := System(Q.Empty, [], map[])

  // ----- reading the state -----

  predicate Holds(s: System, w: nat) {
    Q.IsHolding(s.queue, w) && w in s.phases
  }

  function EntryHeld(s: System, w: nat): Q.Entry
    requires Holds(s, w)
  {
    s.queue.entries[s.queue.workers[w].job.entry]
  }

  predicate Owns(s: System, w: nat)
    requires Holds(s, w)
  {
    Q.HasLease(EntryHeld(s, w), s.queue.workers[w].job.runKey, s.queue.workers[w].token)
  }

  /** The worker runs a classification of a stored report. */
  predicate Classifies(s: System, w: nat) {
    && Holds(s, w)
    && s.queue.workers[w].payload.Classify?
    && s.queue.workers[w].payload.report < |s.docs|
  }

  function ReportOf(s: System, w: nat): R.Report
    requires Classifies(s, w)
  {
    s.docs[s.queue.workers[w].payload.report].report
  }

  function RequestOf(s: System, w: nat): nat
    requires Classifies(s, w)
  {
    s.queue.workers[w].payload.request
  }

  /** The report is still waiting for this request, under this worker's claim. */
  predicate IsCurrentPending(s: System, w: nat)
    requires Classifies(s, w)
  {
    R.CurrentPending(ReportOf(s, w), RequestOf(s, w)) && ReportOf(s, w).ai.token == Some(s.queue.workers[w].token)
  }

  predicate At(s: System, w: nat, p: Phase) {
    Classifies(s, w) && s.phases[w] == p
  }

  /** One more try after an invalid answer; otherwise the code decides. */
  predicate Retryable(code: Code, lastError: Option<Code>) {
    if code.InvalidOutput? then lastError != Some(InvalidOutput)
    else code.ProviderDown? || code.RateLimited? || code.Timeout? || code.Internal?
  }

  const INTERNAL: Q.Failure := Q.Failure(Internal, true, None)

  predicate AnswerWritable(s: System, w: nat) {
    && Classifies(s, w) && s.phases[w].Answered?
    && R.ChosenCategory(s.phases[w].categories, s.phases[w].answer).Some?
  }

  predicate ResultMatches(s: System, w: nat)
    requires AnswerWritable(s, w)
  {
    R.ClassificationMatches(s.phases[w].seen, RequestOf(s, w), ReportOf(s, w))
  }

  predicate MayRerun(s: System, r: nat) {
    r < |s.docs| && !s.docs[r].report.status.Withdrawn? && !s.docs[r].report.ai.status.AiPending?
  }

  predicate SweepRetries(code: Code) {
    code.Timeout? || code.RateLimited? || code.ProviderDown?
  }

  predicate MaySweep(s: System, r: nat, request: nat, before: nat) {
    && r < |s.docs|
    && var ai := s.docs[r].report.ai;
       && !s.docs[r].report.status.Withdrawn? && ai.status.AiFailed? && ai.request == request
       && ai.failure.Some? && SweepRetries(ai.failure.value.code) && ai.failure.value.at < before
  }

  predicate IsFailed(s: System, id: nat) {
    id < |s.queue.entries| && s.queue.entries[id].state.Failed?
  }

  /** A failed classification may be retried while its request is still the report's latest. */
  predicate MayRetry(s: System, id: nat, request: nat) {
    && IsFailed(s, id) && s.queue.entries[id].payload.Classify?
    && var r := s.queue.entries[id].payload.report;
       r < |s.docs| && !s.docs[r].report.status.Withdrawn? && s.docs[r].report.ai.request == request
  }

  predicate WritesTo(s: System, r: nat, a: R.Action) {
    r < |s.docs| && a.Write? && R.Writes(s.docs[r], a.key)
  }

  function PatchOf(s: System, r: nat, a: R.Action): R.Patch
    requires WritesTo(s, r, a)
  {
    R.PlanOf(s.docs[r].pending[a.key]).value.patch
  }

  predicate Reanalyses(s: System, r: nat, a: R.Action) {
    WritesTo(s, r, a) && PatchOf(s, r, a).edited.Some? && PatchOf(s, r, a).edited.value.reanalysed
  }

  /** The executor's own queue steps; the others belong to transactions below. */
  predicate Standalone(a: Q.Action) {
    a.Tick? || a.RelayRead? || a.ReofferRead? || a.AddJob? || a.MarkOffered?
    || a.StopOffer? || a.LoseJob? || a.Deliver? || a.Dismiss?
  }

  // ----- what an action does to the queue -----

  /** The job of the report's next request, replacing its failed jobs. */
  function NewRequest(s: System, r: nat): seq<Q.Action>
    requires r < |s.docs|
  {
    [Q.DismissReplaced(r, None), Q.Enqueue(Q.Ai, Q.Classify(r, s.docs[r].report.ai.request + 1))]
  }

  function QueueActs(s: System, a: Action): seq<Q.Action> {
    match a
    case Queue(act) => if Standalone(act) then [act] else []
    case ClaimEntry(w, takeOver) => if w in s.phases then [] else [Q.ClaimJob(w, takeOver)]
    case RefuseType(w) => [Q.RefuseType(w)]
    case Crash(w) => [Q.Crash(w)]
    case FileReport(_, _, _, _, _, _) => [Q.Enqueue(Q.Ai, Q.Classify(|s.docs|, 1)), Q.Enqueue(Q.Email, Q.Mail)]
    case Person(r, act) =>
      if Reanalyses(s, r, act) then NewRequest(s, r)
      else if WritesTo(s, r, act) && s.docs[r].pending[act.key].change.Update? && PatchOf(s, r, act).status.Some?
      then [Q.Enqueue(Q.Email, Q.Mail)]
      else []
    case Rerun(r) => if MayRerun(s, r) then NewRequest(s, r) else []
    case Sweep(r, request, before) => if MaySweep(s, r, request, before) then NewRequest(s, r) else []
    case RetryJob(id, request) =>
      if MayRetry(s, id, request) then
        var r := s.queue.entries[id].payload.report;
        [Q.DismissReplaced(r, Some(id)), Q.Retry(id, Q.Classify(r, request + 1))]
      else if IsFailed(s, id) && s.queue.entries[id].payload.Mail? then [Q.Retry(id, Q.Mail)]
      else []
    case ClaimReport(w) => if At(s, w, Started) then [Q.Renew(w)] else []
    case MailEnds(_, _) => []
    case Finish(w) =>
      if Holds(s, w) && s.phases[w].Returned? then [Q.RecordDone(w)]
      else if Holds(s, w) && s.phases[w].Threw? then [Q.RecordFailure(w, s.phases[w].failure)]
      else []
    case _ => []
  }

  // ----- what an action does to a report -----

  /** The executor records the worker's final failure, so the handler's clean-up runs with it. */
  predicate FinallyFails(s: System, w: nat) {
    && Classifies(s, w) && s.phases[w].Threw? && Q.Records(s.queue, w)
    && Q.IsFinal(EntryHeld(s, w), s.queue.workers[w].job, s.phases[w].failure)
  }

  function ReportAct(s: System, a: Action): Option<(nat, R.Action)> {
    match a
    case Person(r, act) =>
      if r < |s.docs| && (act.Read? || act.Write? || act.Retire?) then Some((r, act)) else None
    case Rerun(r) => if MayRerun(s, r) then Some((r, R.Ask)) else None
    case Sweep(r, request, before) => if MaySweep(s, r, request, before) then Some((r, R.Ask)) else None
    case RetryJob(id, request) =>
      if MayRetry(s, id, request) then Some((s.queue.entries[id].payload.report, R.Ask)) else None
    case ClaimReport(w) =>
      if At(s, w, Started) && Owns(s, w) then
        Some((s.queue.workers[w].payload.report, R.TakeToken(RequestOf(s, w), s.queue.workers[w].token)))
      else None
    case WriteResult(w, threshold) =>
      if AnswerWritable(s, w) then
        var p := s.phases[w];
        Some((s.queue.workers[w].payload.report,
              R.Classify(p.seen, RequestOf(s, w), p.answer, R.ChosenCategory(p.categories, p.answer).value, threshold)))
      else None
    case Finish(w) =>
      if FinallyFails(s, w) then
        Some((s.queue.workers[w].payload.report,
              R.GiveUp(RequestOf(s, w), Some(s.queue.workers[w].token), s.phases[w].failure.code, s.queue.now)))
      else None
    case _ => None
  }

  function DocsAfter(s: System, a: Action): seq<R.Doc> {
    if a.FileReport? then
      s.docs + [R.Filed(a.reporter, a.description, a.location, a.hint, a.fallback, a.priority, s.queue.now)]
    else
      var act := ReportAct(s, a);
      if act.Some? && act.value.0 < |s.docs| then s.docs[act.value.0 := R.Step(s.docs[act.value.0], act.value.1)]
      else s.docs
  }

  // ----- where the worker goes -----

  function AfterReload(s: System, w: nat): Phase
    requires Classifies(s, w) && s.phases[w].Missed?
  {
    var p := s.phases[w];
    if !IsCurrentPending(s, w) then Returned
    else if p.tries + 1 < WRITE_TRIES then Answered(ReportOf(s, w), p.categories, p.answer, p.tries + 1)
    else Threw(INTERNAL, true)
  }

  function PhaseAfter(s: System, w: nat, a: Action): Phase
    requires Holds(s, w)
  {
    var p := s.phases[w];
    match a
    case ClaimReport(_) =>
      if At(s, w, Started) then
        if Owns(s, w) && R.CurrentPending(ReportOf(s, w), RequestOf(s, w)) then ReportHeld else Returned
      else p
    case ClaimThrows(_) => if At(s, w, Started) then Threw(INTERNAL, false) else p
    case Breaks(_) => if Classifies(s, w) && !p.Started? && !p.Threw? then Threw(INTERNAL, true) else p
    case Load(_) => if At(s, w, ReportHeld) then (if IsCurrentPending(s, w) then Current else Returned) else p
    case LoadAgain(_, categories) =>
      if At(s, w, Current) then (if IsCurrentPending(s, w) then Ready(ReportOf(s, w), categories) else Returned) else p
    case Reply(_, answer) => if Classifies(s, w) && p.Ready? then Answered(p.seen, p.categories, answer, 0) else p
    case Throw(_, code, retryAfter) =>
      if Classifies(s, w) && (p.Current? || p.Ready?)
      then Threw(Q.Failure(code, Retryable(code, s.queue.workers[w].lastError), retryAfter), true)
      else p
    case WriteResult(_, _) =>
      if !Classifies(s, w) || !p.Answered? then p
      else if !AnswerWritable(s, w) then Threw(INTERNAL, true)
      else if ResultMatches(s, w) then Returned
      else Missed(p.seen, p.categories, p.answer, p.tries)
    case Reload(_) => if Classifies(s, w) && p.Missed? then AfterReload(s, w) else p
    case MailEnds(_, failure) =>
      if s.queue.workers[w].payload.Mail? && p.Started?
        then (if failure.Some? then Threw(failure.value, true) else Returned) else p
    case _ => p
  }

  /** The worker an action belongs to. */
  function Actor(a: Action): Option<nat> {
    match a
    case Queue(_) => None
    case FileReport(_, _, _, _, _, _) => None
    case Person(_, _) => None
    case Rerun(_) => None
    case Sweep(_, _, _) => None
    case RetryJob(_, _) => None
    case _ => Some(a.worker)
  }

  predicate Ends(s: System, a: Action) {
    a.Crash? || (a.Finish? && Holds(s, a.worker) && (s.phases[a.worker].Returned? || s.phases[a.worker].Threw?))
  }

  function PhasesAfter(s: System, a: Action): map<nat, Phase> {
    if Actor(a).None? then s.phases
    else if a.ClaimEntry? then
      if a.worker !in s.phases && Q.Claims(s.queue, a.worker, a.takeOver)
        then s.phases[a.worker := Started] else s.phases
    else if Ends(s, a) then s.phases - {a.worker}
    else if Holds(s, a.worker) then s.phases[a.worker := PhaseAfter(s, a.worker, a)]
    else s.phases
  }

  function QueueAfter(s: System, a: Action): Q.State {
    Q.Run(s.queue, QueueActs(s, a))
  }

  function Step(s: System, a: Action): System {
    System(QueueAfter(s, a), DocsAfter(s, a), PhasesAfter(s, a))
  }

  function Run(s: System, acts: seq<Action>): System
    decreases |acts|
  {
    if acts == [] then s else Run(Step(s, acts[0]), acts[1..])
  }
}
