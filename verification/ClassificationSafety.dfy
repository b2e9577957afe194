/**
 What every run of the classification system keeps: the queue's invariant and what a worker may rely on
 at each place in the handler; and, at every step that strands no report, the coupling between reports
 and their classification jobs.
 */
module ClassificationSafety {
  import opened Basics
  import Q = JobQueue
  import QS = JobQueueSafety
  import R = Reports
  import RS = ReportSafety
  import opened Classification

  // ----- the system is a queue run and a run of every report -----

  /** The queue steps of a run, in order. */
  function QueueTrace(s: System, acts: seq<Action>): seq<Q.Action>
    decreases |acts|
  {
    if acts == [] then [] else QueueActs(s, acts[0]) + QueueTrace(Step(s, acts[0]), acts[1..])
  }

  lemma {:induction false} RunIsQueueRun(s: System, acts: seq<Action>)
    ensures Run(s, acts).queue == Q.Run(s.queue, QueueTrace(s, acts))
    decreases |acts|
  {
    if acts != [] {
      RunIsQueueRun(Step(s, acts[0]), acts[1..]);
      QS.RunComposes(s.queue, QueueActs(s, acts[0]), QueueTrace(Step(s, acts[0]), acts[1..]));
    }
  }

  /** What one action does to report `r`, as a report run. */
  function DocActs(s: System, a: Action, r: nat): seq<R.Action> {
    var act := ReportAct(s, a);
    if !a.FileReport? && act.Some? && act.value.0 == r && r < |s.docs| then [act.value.1] else []
  }

  function DocTrace(s: System, acts: seq<Action>, r: nat): seq<R.Action>
    decreases |acts|
  {
    if acts == [] then [] else DocActs(s, acts[0], r) + DocTrace(Step(s, acts[0]), acts[1..], r)
  }

  lemma StepIsDocRun(s: System, a: Action, r: nat)
    requires r < |s.docs|
    ensures r < |Step(s, a).docs| && Step(s, a).docs[r] == R.Run(s.docs[r], DocActs(s, a, r))
  {
    if DocActs(s, a, r) != [] {
      assert R.Run(s.docs[r], DocActs(s, a, r)) == R.Run(R.Step(s.docs[r], ReportAct(s, a).value.1), []);
    }
  }

  lemma {:induction false} RunIsDocRun(s: System, acts: seq<Action>, r: nat)
    requires r < |s.docs|
    ensures r < |Run(s, acts).docs| && Run(s, acts).docs[r] == R.Run(s.docs[r], DocTrace(s, acts, r))
    decreases |acts|
  {
    if acts != [] {
      StepIsDocRun(s, acts[0], r);
      RunIsDocRun(Step(s, acts[0]), acts[1..], r);
      RS.RunComposes(s.docs[r], DocActs(s, acts[0], r), DocTrace(Step(s, acts[0]), acts[1..], r));
    }
  }

  // ----- what a worker may rely on, by phase -----

  /** How many of the two human-editable sources are not yet STAFF. */
  function Openness(r: R.Report): nat {
    (if r.categorySource.Staff? then 0 else 1) + (if r.prioritySource.StaffPriority? then 0 else 1)
  }

  predicate SameSources(a: R.Report, b: R.Report) {
    a.categorySource == b.categorySource && a.prioritySource == b.prioritySource
  }

  /** A worker's claim in the fields that matter: run key, token, and the request it works on. */
  datatype Hold = Hold(runKey: nat, token: nat, request: nat)

  predicate HoldsBoth(e: Q.Entry, rep: R.Report, h: Hold) {
    Q.HasLease(e, h.runKey, h.token) && R.CurrentPending(rep, h.request)
  }

  predicate Mine(rep: R.Report, h: Hold) {
    rep.ai.token == Some(h.token)
  }

  /** What the worker read is still true, except that a source may have become STAFF. */
  predicate SeenHolds(seen: R.Report, rep: R.Report, h: Hold) {
    && seen.ai.token == Some(h.token) && seen.ai.request == h.request
    && (R.CurrentPending(rep, h.request) && Mine(rep, h) ==> RS.Advances(seen, rep))
  }

  predicate PhaseFits(e: Q.Entry, rep: R.Report, h: Hold, p: Phase) {
    match p
    case Started => true
    case Returned => !HoldsBoth(e, rep, h)
    case ReportHeld => HoldsBoth(e, rep, h) ==> Mine(rep, h)
    case Current => HoldsBoth(e, rep, h) ==> Mine(rep, h)
    case Threw(_, claimed) => claimed && HoldsBoth(e, rep, h) ==> Mine(rep, h)
    case Ready(seen, _) => (HoldsBoth(e, rep, h) ==> Mine(rep, h)) && SeenHolds(seen, rep, h)
    case Answered(seen, _, _, tries) =>
      && (HoldsBoth(e, rep, h) ==> Mine(rep, h)) && SeenHolds(seen, rep, h)
      && tries + Openness(seen) < WRITE_TRIES
    case Missed(seen, _, _, tries) =>
      && (HoldsBoth(e, rep, h) ==> Mine(rep, h)) && SeenHolds(seen, rep, h)
      && tries + Openness(seen) < WRITE_TRIES
      && (R.CurrentPending(rep, h.request) && Mine(rep, h) ==> !SameSources(seen, rep))
  }

  /** Nobody gets this worker's lease back, and nobody else installs its token on the report. */
  predicate Undisturbed(e: Q.Entry, e': Q.Entry, rep: R.Report, rep': R.Report, h: Hold) {
    && h.request <= rep.ai.request && RS.AiSince(rep, rep')
    && (Q.HasLease(e', h.runKey, h.token) ==> Q.HasLease(e, h.runKey, h.token))
    && (R.CurrentPending(rep', h.request) && rep'.ai.token != rep.ai.token ==>
          !Mine(rep', h) && !Q.HasLease(e', h.runKey, h.token))
  }

  lemma PhaseFitsStays(e: Q.Entry, e': Q.Entry, rep: R.Report, rep': R.Report, h: Hold, p: Phase)
    requires PhaseFits(e, rep, h, p) && Undisturbed(e, e', rep, rep', h)
    ensures PhaseFits(e', rep', h, p)
  {
  }

  // ----- the invariant -----

  predicate PayloadOk(s: System, p: Q.Payload) {
    p.Classify? ==> p.report < |s.docs| && p.request <= s.docs[p.report].report.ai.request
  }

  ghost predicate PayloadsOk(s: System) {
    forall id :: 0 <= id < |s.queue.entries| ==> PayloadOk(s, s.queue.entries[id].payload)
  }

  /** No two jobs are for the same request. */
  ghost predicate RequestsDistinct(s: System) {
    forall i, j :: 0 <= i < |s.queue.entries| && 0 <= j < |s.queue.entries| && i != j ==>
      s.queue.entries[i].payload.Classify? ==>
      s.queue.entries[i].payload != s.queue.entries[j].payload
  }

  predicate Carries(s: System, id: nat, r: nat, request: nat) {
    id < |s.queue.entries| && s.queue.entries[id].payload == Q.Classify(r, request)
  }

  predicate Live(s: System, id: nat, r: nat, request: nat) {
    Carries(s, id, r, request) && !Q.Finished(s.queue.entries[id].state)
  }

  predicate Waits(s: System, r: nat) {
    r < |s.docs| && R.CurrentPending(s.docs[r].report, s.docs[r].report.ai.request)
  }

  /** A report waiting for its latest request has an unfinished job for it. */
  ghost predicate Coupled(s: System) {
    forall r: nat :: Waits(s, r) ==> exists id: nat :: Live(s, id, r, s.docs[r].report.ai.request)
  }

  function HoldOf(w: Q.Worker): Hold
    requires w.Holding? && w.payload.Classify?
  {
    Hold(w.job.runKey, w.token, w.payload.request)
  }

  predicate PhaseOk(s: System, w: nat) {
    && Holds(s, w)
    && PayloadOk(s, s.queue.workers[w].payload)
    && (if s.queue.workers[w].payload.Mail?
        then s.phases[w].Started? || s.phases[w].Returned? || s.phases[w].Threw?
        else PhaseFits(EntryHeld(s, w), ReportOf(s, w), HoldOf(s.queue.workers[w]), s.phases[w]))
  }

  ghost predicate PhasesOk(s: System) {
    forall w :: w in s.phases ==> PhaseOk(s, w)
  }

  ghost predicate HoldersHavePhases(s: System) {
    forall w :: w in s.queue.workers && s.queue.workers[w].Holding? ==> w in s.phases
  }

  ghost predicate Basis(s: System) {
    QS.Inv(s.queue) && PayloadsOk(s) && RequestsDistinct(s) && HoldersHavePhases(s)
  }

  /** What holds in every run, whatever fails. */
  ghost predicate Grounded(s: System) {
    Basis(s) && PhasesOk(s)
  }

  ghost predicate Inv(s: System) {
    Grounded(s) && Coupled(s)
  }

  /**
   The step fails the job of a report that goes on waiting for it: the worker does not know the type, or
   its last failure is recorded while the report does not carry its token.
   */
  predicate Strands(s: System, a: Action) {
    || (a.RefuseType? && Q.Refuses(s.queue, a.worker)
        && var p := s.queue.workers[a.worker].payload;
           p.Classify? && Waits(s, p.report) && s.docs[p.report].report.ai.request == p.request)
    || (a.Finish? && FinallyFails(s, a.worker)
        && R.CurrentPending(ReportOf(s, a.worker), RequestOf(s, a.worker)) && !IsCurrentPending(s, a.worker))
  }

  /** No step of the run strands a report. */
  predicate NeverStrands(s: System, acts: seq<Action>)
    decreases |acts|
  {
    acts == [] || (!Strands(s, acts[0]) && NeverStrands(Step(s, acts[0]), acts[1..]))
  }

  // ----- the job a step makes or relabels -----

  /** The job that carries a new request after the step. */
  function NewJob(s: System, a: Action): Option<(nat, Q.Payload)> {
    var end := |s.queue.entries|;
    match a
    case FileReport(_, _, _, _, _, _) => Some((end, Q.Classify(|s.docs|, 1)))
    case Person(r, act) =>
      if Reanalyses(s, r, act) then Some((end, Q.Classify(r, s.docs[r].report.ai.request + 1))) else None
    case Rerun(r) => if MayRerun(s, r) then Some((end, Q.Classify(r, s.docs[r].report.ai.request + 1))) else None
    case Sweep(r, request, before) =>
      if MaySweep(s, r, request, before) then Some((end, Q.Classify(r, s.docs[r].report.ai.request + 1))) else None
    case RetryJob(id, request) =>
      if MayRetry(s, id, request) then Some((id, Q.Classify(s.queue.entries[id].payload.report, request + 1))) else None
    case _ => None
  }

  lemma RunShort(q: Q.State, acts: seq<Q.Action>)
    requires |acts| <= 2
    ensures Q.Run(q, acts) ==
      if acts == [] then q else if |acts| == 1 then Q.Step(q, acts[0]) else Q.Step(Q.Step(q, acts[0]), acts[1])
  {
    if |acts| == 1 {
      RunLast(q, acts);
    } else if |acts| == 2 {
      assert Q.Run(q, acts) == Q.Run(Q.Step(q, acts[0]), acts[1..]);
      RunLast(Q.Step(q, acts[0]), acts[1..]);
    }
  }

  lemma RunLast(q: Q.State, acts: seq<Q.Action>)
    requires |acts| == 1
    ensures Q.Run(q, acts) == Q.Step(q, acts[0])
  {
    assert acts[1..] == [];
    assert Q.Run(Q.Step(q, acts[0]), []) == Q.Step(q, acts[0]);
  }

  /** The step records the end of an attempt of job `id`. */
  predicate EndsJob(s: System, a: Action, id: nat) {
    || (a.RefuseType? && Q.Refuses(s.queue, a.worker) && s.queue.workers[a.worker].job.entry == id)
    || (&& a.Finish? && Holds(s, a.worker) && Q.Records(s.queue, a.worker)
        && s.queue.workers[a.worker].job.entry == id
        && (s.phases[a.worker].Returned? || (s.phases[a.worker].Threw? && FailsForGood(s, a.worker))))
  }

  predicate FailsForGood(s: System, w: nat)
    requires Holds(s, w) && s.phases[w].Threw?
  {
    Q.IsFinal(EntryHeld(s, w), s.queue.workers[w].job, s.phases[w].failure)
  }

  predicate SizesAfter(s: System, a: Action, t: Q.State) {
    |s.queue.entries| <= |t.entries| && (NewJob(s, a).Some? ==> NewJob(s, a).value.0 < |t.entries|)
  }

  /**
   The queue after the step, job by job: every job keeps its request except the one `NewJob` names,
   which is unfinished; other new jobs are emails; a job finishes only when its record is made.
   */
  predicate JobAfter(s: System, a: Action, t: Q.State, id: nat) {
    && SizesAfter(s, a, t)
    && var made := NewJob(s, a);
       (id < |t.entries| ==>
             var e := t.entries[id];
             if made.Some? && made.value.0 == id then e.payload == made.value.1 && !Q.Finished(e.state)
             else if id >= |s.queue.entries| then e.payload == Q.Mail
             else
               && e.payload == s.queue.entries[id].payload
               && (Q.Finished(e.state) && !Q.Finished(s.queue.entries[id].state) ==> EndsJob(s, a, id)))
  }

  lemma PersonJobs(s: System, a: Action, id: nat)
    requires a.Person?
    ensures JobAfter(s, a, QueueAfter(s, a), id)
  {
    RunShort(s.queue, QueueActs(s, a));
  }

  lemma MakerJobs(s: System, a: Action, id: nat)
    requires a.FileReport? || a.Rerun? || a.Sweep?
    ensures JobAfter(s, a, QueueAfter(s, a), id)
  {
    RunShort(s.queue, QueueActs(s, a));
  }

  lemma RetryJobs(s: System, a: Action, id: nat)
    requires a.RetryJob?
    ensures JobAfter(s, a, QueueAfter(s, a), id)
  {
    RunShort(s.queue, QueueActs(s, a));
  }

  lemma QueueJobs(s: System, a: Action, id: nat)
    requires a.Queue?
    ensures JobAfter(s, a, QueueAfter(s, a), id)
  {
    RunShort(s.queue, QueueActs(s, a));
  }

  lemma EndingJobs(s: System, a: Action, id: nat)
    requires a.RefuseType? || a.Finish?
    ensures JobAfter(s, a, QueueAfter(s, a), id)
  {
    RunShort(s.queue, QueueActs(s, a));
  }

  lemma WorkerJobs(s: System, a: Action, id: nat)
    requires Actor(a).Some? && !a.RefuseType? && !a.Finish?
    ensures JobAfter(s, a, QueueAfter(s, a), id)
  {
    RunShort(s.queue, QueueActs(s, a));
  }

  lemma JobsAfter(s: System, a: Action, id: nat)
    ensures JobAfter(s, a, QueueAfter(s, a), id)
  {
    match a
    case Person(_, _) => PersonJobs(s, a, id);
    case FileReport(_, _, _, _, _, _) => MakerJobs(s, a, id);
    case Rerun(_) => MakerJobs(s, a, id);
    case Sweep(_, _, _) => MakerJobs(s, a, id);
    case RetryJob(_, _) => RetryJobs(s, a, id);
    case Queue(_) => QueueJobs(s, a, id);
    case RefuseType(_) => EndingJobs(s, a, id);
    case Finish(_) => EndingJobs(s, a, id);
    case _ => WorkerJobs(s, a, id);
  }

  // ----- the reports after a step -----

  /** The request number and the report-side token change only as the step's job and claim say. */
  predicate ReportAfter(s: System, a: Action, rep: R.Report, r: nat)
    requires r < |s.docs|
  {
    var prior := s.docs[r].report;
    && RS.AiSince(prior, rep)
    && (rep.ai.request != prior.ai.request ==>
          NewJob(s, a).Some? && NewJob(s, a).value.1 == Q.Classify(r, rep.ai.request)
          && rep.ai.request == prior.ai.request + 1
          && rep.ai.token.None?)
    && (rep.ai.token != prior.ai.token && rep.ai.request == prior.ai.request && rep.ai.status.AiPending? ==>
          a.ClaimReport? && At(s, a.worker, Started) && Owns(s, a.worker)
          && s.queue.workers[a.worker].payload == Q.Classify(r, rep.ai.request)
          && rep.ai.token == Some(s.queue.workers[a.worker].token))
  }

  lemma WriteTokens(q: R.Request, rep: R.Report)
    requires R.PlanOf(q).Ok?
    ensures
      var patch := R.PlanOf(q).value.patch;
      var after := R.Apply(patch, rep);
      if patch.edited.Some? && patch.edited.value.reanalysed
      then after.ai.request == rep.ai.request + 1 && after.ai.token.None?
      else after.ai.request == rep.ai.request && after.ai.token == rep.ai.token && after.ai.status == rep.ai.status
  {
  }

  lemma PersonReport(s: System, a: Action, r: nat)
    requires r < |s.docs| && a.Person?
    ensures r < |DocsAfter(s, a)| && ReportAfter(s, a, DocsAfter(s, a)[r].report, r)
  {
    var act := ReportAct(s, a);
    if act.Some? && act.value.0 == r {
      RS.StepAiSince(s.docs[r], act.value.1);
      if WritesTo(s, r, a.deed) {
        WriteTokens(s.docs[r].pending[a.deed.key], s.docs[r].report);
      }
    }
  }

  lemma OtherReport(s: System, a: Action, r: nat)
    requires r < |s.docs| && !a.Person?
    ensures r < |DocsAfter(s, a)| && ReportAfter(s, a, DocsAfter(s, a)[r].report, r)
  {
    var act := ReportAct(s, a);
    if a.FileReport? || act.None? || act.value.0 != r {
      ReportStays(s, a, r);
    } else {
      RS.StepAiSince(s.docs[r], act.value.1);
      if a.Rerun? || a.Sweep? || a.RetryJob? { AskedReport(s, a, r); } else { WorkedReport(s, a, r); }
    }
  }

  lemma ReportStays(s: System, a: Action, r: nat)
    requires r < |s.docs| && (a.FileReport? || ReportAct(s, a).None? || ReportAct(s, a).value.0 != r)
    ensures r < |DocsAfter(s, a)| && DocsAfter(s, a)[r] == s.docs[r]
    ensures ReportAfter(s, a, DocsAfter(s, a)[r].report, r)
  {
  }

  lemma AskedReport(s: System, a: Action, r: nat)
    requires r < |s.docs| && (a.Rerun? || a.Sweep? || a.RetryJob?)
    requires ReportAct(s, a).Some? && ReportAct(s, a).value.0 == r
    requires RS.AiSince(s.docs[r].report, R.Step(s.docs[r], ReportAct(s, a).value.1).report)
    ensures r < |DocsAfter(s, a)| && ReportAfter(s, a, DocsAfter(s, a)[r].report, r)
  {
  }

  lemma WorkedReport(s: System, a: Action, r: nat)
    requires r < |s.docs| && (a.ClaimReport? || a.WriteResult? || a.Finish?)
    requires ReportAct(s, a).Some? && ReportAct(s, a).value.0 == r
    requires RS.AiSince(s.docs[r].report, R.Step(s.docs[r], ReportAct(s, a).value.1).report)
    ensures r < |DocsAfter(s, a)| && ReportAfter(s, a, DocsAfter(s, a)[r].report, r)
  {
  }

  lemma ReportsAfter(s: System, a: Action, r: nat)
    requires r < |s.docs|
    ensures r < |DocsAfter(s, a)| && ReportAfter(s, a, DocsAfter(s, a)[r].report, r)
  {
    if a.Person? { PersonReport(s, a, r); } else { OtherReport(s, a, r); }
  }

  /** A report filed by the step is new, and its job carries its first request. */
  lemma FiledAfter(s: System, a: Action, r: nat)
    requires |s.docs| <= r < |DocsAfter(s, a)|
    ensures R.IsFiled(DocsAfter(s, a)[r])
    ensures DocsAfter(s, a)[r].report.ai == R.Ai(R.AiPending, 1, None, 1, None, None, None)
    ensures NewJob(s, a).Some? && NewJob(s, a).value.1 == Q.Classify(r, 1)
  {
  }

  // ----- requests stay distinct and known -----

  /** Both halves of a step, for any job and any report. */
  ghost predicate StepShape(s: System, a: Action, t: System) {
    && |s.docs| <= |t.docs| && SizesAfter(s, a, t.queue)
    && (forall id :: 0 <= id < |t.queue.entries| ==> JobAfter(s, a, t.queue, id))
    && (forall r :: 0 <= r < |s.docs| ==> ReportAfter(s, a, t.docs[r].report, r))
    && (forall r :: |s.docs| <= r < |t.docs| ==>
          t.docs[r].report.ai.request == 1 && NewJob(s, a).Some? && NewJob(s, a).value.1 == Q.Classify(r, 1))
  }

  lemma StepHasShape(s: System, a: Action)
    ensures StepShape(s, a, System(QueueAfter(s, a), DocsAfter(s, a), s.phases))
  {
    var q, docs := QueueAfter(s, a), DocsAfter(s, a);
    JobsAfter(s, a, 0);
    forall id | 0 <= id < |q.entries| ensures JobAfter(s, a, q, id) { JobsAfter(s, a, id); }
    forall r | 0 <= r < |s.docs| ensures ReportAfter(s, a, docs[r].report, r) { ReportsAfter(s, a, r); }
    forall r | |s.docs| <= r < |docs|
      ensures docs[r].report.ai.request == 1 && NewJob(s, a).Some? && NewJob(s, a).value.1 == Q.Classify(r, 1)
    {
      FiledAfter(s, a, r);
    }
  }

  /** The request a step makes is one beyond any the report had. */
  lemma NewJobIsNew(s: System, a: Action)
    requires NewJob(s, a).Some?
    ensures
      var p := NewJob(s, a).value.1;
      && p.Classify? && p.report < |DocsAfter(s, a)| && DocsAfter(s, a)[p.report].report.ai.request == p.request
      && (p.report < |s.docs| ==> p.request > s.docs[p.report].report.ai.request)
  {
    var p := NewJob(s, a).value.1;
    if a.Person? {
      WriteTokens(s.docs[p.report].pending[a.deed.key], s.docs[p.report].report);
    }
  }

  lemma PayloadKeeps(s: System, a: Action, t: System, id: nat)
    requires PayloadsOk(s) && StepShape(s, a, t) && t.docs == DocsAfter(s, a)
    requires id < |t.queue.entries|
    ensures PayloadOk(t, t.queue.entries[id].payload)
  {
    assert JobAfter(s, a, t.queue, id);
    if NewJob(s, a).Some? { NewJobIsNew(s, a); }
    if id < |s.queue.entries| && s.queue.entries[id].payload.Classify? {
      assert PayloadOk(s, s.queue.entries[id].payload);
      assert ReportAfter(s, a, t.docs[s.queue.entries[id].payload.report].report, s.queue.entries[id].payload.report);
    }
  }

  lemma DistinctKeeps(s: System, a: Action, t: System, i: nat, j: nat)
    requires PayloadsOk(s) && RequestsDistinct(s) && StepShape(s, a, t)
    requires i < |t.queue.entries| && j < |t.queue.entries| && i != j && t.queue.entries[i].payload.Classify?
    ensures t.queue.entries[i].payload != t.queue.entries[j].payload
  {
    assert JobAfter(s, a, t.queue, i) && JobAfter(s, a, t.queue, j);
    if NewJob(s, a).Some? { NewJobIsNew(s, a); }
    if i < |s.queue.entries| { assert PayloadOk(s, s.queue.entries[i].payload); }
    if j < |s.queue.entries| { assert PayloadOk(s, s.queue.entries[j].payload); }
  }

  // ----- a waiting report keeps its job -----

  /** While the job of a waiting report is being ended, the report stops waiting in the same step. */
  lemma EndingSettles(s: System, a: Action, id: nat, r: nat)
    requires QS.WorkersOk(s.queue) && PhasesOk(s)
    requires Waits(s, r) && Live(s, id, r, s.docs[r].report.ai.request) && EndsJob(s, a, id) && !Strands(s, a)
    ensures !R.CurrentPending(DocsAfter(s, a)[r].report, s.docs[r].report.ai.request)
  {
    assert QS.WorkerOk(s.queue, s.queue.workers[a.worker]);
    if a.Finish? {
      OnlyFailuresEndWaiting(s, a.worker, id, r);
      FailureSettles(s, a.worker);
    }
  }

  /** A handler that returned leaves nothing waiting; so the end of a waiting report's job is a final failure. */
  lemma OnlyFailuresEndWaiting(s: System, w: nat, id: nat, r: nat)
    requires PhasesOk(s) && Waits(s, r) && Live(s, id, r, s.docs[r].report.ai.request) && EndsJob(s, Finish(w), id)
    requires QS.WorkerOk(s.queue, s.queue.workers[w])
    ensures FinallyFails(s, w) && s.queue.workers[w].payload == Q.Classify(r, s.docs[r].report.ai.request)
  {
    assert PhaseOk(s, w);
    assert HoldsBoth(EntryHeld(s, w), ReportOf(s, w), HoldOf(s.queue.workers[w]));
  }

  lemma FailureSettles(s: System, w: nat)
    requires FinallyFails(s, w) && IsCurrentPending(s, w)
    ensures DocsAfter(s, Finish(w))[s.queue.workers[w].payload.report].report.ai.status.AiFailed?
  {
  }

  lemma WaitingStaysCoupled(s: System, a: Action, t: System, r: nat) returns (id: nat)
    requires Inv(s) && StepShape(s, a, t) && t.docs == DocsAfter(s, a) && Waits(t, r) && !Strands(s, a)
    ensures Live(t, id, r, t.docs[r].report.ai.request)
  {
    if r >= |s.docs| || t.docs[r].report.ai.request != s.docs[r].report.ai.request {
      if r < |s.docs| { assert ReportAfter(s, a, t.docs[r].report, r); }
      id := NewJob(s, a).value.0;
      NewJobExists(s, a, t);
    } else {
      assert ReportAfter(s, a, t.docs[r].report, r);
      assert Waits(s, r);
      id :| Live(s, id, r, s.docs[r].report.ai.request);
      assert JobAfter(s, a, t.queue, id);
      if EndsJob(s, a, id) {
        EndingSettles(s, a, id, r);
      }
      OnlyFailedRelabelled(s, a);
    }
  }

  lemma NewJobExists(s: System, a: Action, t: System)
    requires StepShape(s, a, t) && NewJob(s, a).Some?
    ensures
      var j := NewJob(s, a).value;
      j.0 < |t.queue.entries| && t.queue.entries[j.0].payload == j.1 && !Q.Finished(t.queue.entries[j.0].state)
  {
    assert JobAfter(s, a, t.queue, NewJob(s, a).value.0);
  }

  /** Only a failed job is given a new request. */
  lemma OnlyFailedRelabelled(s: System, a: Action)
    ensures NewJob(s, a).Some? && NewJob(s, a).value.0 < |s.queue.entries| ==>
      s.queue.entries[NewJob(s, a).value.0].state.Failed?
  {
  }

  // ----- a worker's phase survives everyone else -----

  lemma OthersDoNotTouch(s: System, a: Action, w: nat)
    requires Actor(a) != Some(w)
    ensures forall i :: 0 <= i < |QueueActs(s, a)| ==> !QS.Touches(QueueActs(s, a)[i], w)
  {
  }

  /** Another worker's report claim takes the lease away from this one, or is for another request. */
  lemma RivalClaim(s: System, a: Action, w: nat, e': Q.Entry, rep': R.Report)
    requires QS.WorkersOk(s.queue) && QS.TokensDistinct(s.queue) && RequestsDistinct(s)
    requires Classifies(s, w) && a.ClaimReport? && a.worker != w && At(s, a.worker, Started) && Owns(s, a.worker)
    requires s.queue.workers[a.worker].payload == s.queue.workers[w].payload
    requires rep'.ai.token == Some(s.queue.workers[a.worker].token)
    requires Q.HasLease(e', s.queue.workers[w].job.runKey, s.queue.workers[w].token) ==> Owns(s, w)
    ensures rep'.ai.token != Some(s.queue.workers[w].token)
    ensures !Q.HasLease(e', s.queue.workers[w].job.runKey, s.queue.workers[w].token)
  {
    assert QS.WorkerOk(s.queue, s.queue.workers[w]) && QS.WorkerOk(s.queue, s.queue.workers[a.worker]);
  }

  lemma BystanderUndisturbed(s: System, a: Action, w: nat, e': Q.Entry, rep': R.Report)
    requires QS.WorkersOk(s.queue) && QS.TokensDistinct(s.queue) && RequestsDistinct(s)
    requires Classifies(s, w) && Actor(a) != Some(w) && PayloadOk(s, s.queue.workers[w].payload)
    requires ReportAfter(s, a, rep', s.queue.workers[w].payload.report)
    requires Q.HasLease(e', s.queue.workers[w].job.runKey, s.queue.workers[w].token) ==> Owns(s, w)
    ensures Undisturbed(EntryHeld(s, w), e', ReportOf(s, w), rep', HoldOf(s.queue.workers[w]))
  {
    if R.CurrentPending(rep', RequestOf(s, w)) && rep'.ai.token != ReportOf(s, w).ai.token {
      RivalClaim(s, a, w, e', rep');
    }
  }

  lemma BystanderKeepsPhase(s: System, a: Action, t: System, w: nat)
    requires Basis(s) && PhaseOk(s, w) && Actor(a) != Some(w)
    requires t.queue == QueueAfter(s, a) && StepShape(s, a, t)
    requires w in t.phases && t.phases[w] == s.phases[w]
    ensures PhaseOk(t, w)
  {
    OthersDoNotTouch(s, a, w);
    QS.RunKeepsClaim(s.queue, QueueActs(s, a), w);
    if s.queue.workers[w].payload.Classify? {
      var r := s.queue.workers[w].payload.report;
      assert ReportAfter(s, a, t.docs[r].report, r);
      BystanderUndisturbed(s, a, w, EntryHeld(t, w), t.docs[r].report);
      PhaseFitsStays(EntryHeld(s, w), EntryHeld(t, w), ReportOf(s, w), t.docs[r].report, HoldOf(s.queue.workers[w]),
                     s.phases[w]);
    }
  }

  // ----- a worker's own steps -----

  /** The first step of the handler: the worker has just claimed the job. */
  lemma ClaimEntryIs(s: System, w: nat, takeOver: bool)
    requires w !in s.phases && Q.Claims(s.queue, w, takeOver)
    ensures Step(s, ClaimEntry(w, takeOver)) == System(Q.Claimed(s.queue, w, takeOver), s.docs, s.phases[w := Started])
  {
    RunShort(s.queue, QueueActs(s, ClaimEntry(w, takeOver)));
  }

  lemma ClaimStarts(s: System, w: nat, takeOver: bool)
    requires Basis(s) && w !in s.phases && Q.Claims(s.queue, w, takeOver)
    ensures PhaseOk(Step(s, ClaimEntry(w, takeOver)), w)
  {
    ClaimEntryIs(s, w, takeOver);
    assert QS.WorkerOk(s.queue, s.queue.workers[w]);
    assert PayloadOk(s, s.queue.entries[s.queue.workers[w].job.entry].payload);
  }

  lemma ReportClaimFits(s: System, w: nat)
    requires PhaseOk(s, w) && At(s, w, Started)
    ensures PhaseOk(Step(s, ClaimReport(w)), w)
  {
    RunShort(s.queue, QueueActs(s, ClaimReport(w)));
  }

  /** Steps that read, wait for the provider, or give up: the store does not change. */
  predicate OnlyThinks(a: Action) {
    a.Load? || a.LoadAgain? || a.Reply? || a.Throw? || a.ClaimThrows? || a.Breaks? || a.Reload? || a.MailEnds?
  }

  lemma ThinkingFits(s: System, a: Action)
    requires OnlyThinks(a) && PhaseOk(s, a.worker)
    ensures PhaseOk(s.(phases := s.phases[a.worker := PhaseAfter(s, a.worker, a)]), a.worker)
  {
  }

  lemma ThinkingIsLocal(s: System, a: Action)
    requires OnlyThinks(a) && Holds(s, a.worker)
    ensures Step(s, a) == s.(phases := s.phases[a.worker := PhaseAfter(s, a.worker, a)])
  {
  }

  lemma WriteFits(s: System, w: nat, threshold: real)
    requires PhaseOk(s, w)
    ensures w in Step(s, WriteResult(w, threshold)).phases
    ensures PhaseOk(Step(s, WriteResult(w, threshold)), w)
  {
  }

  lemma IdleStep(s: System, a: Action)
    requires QueueActs(s, a) == [] && ReportAct(s, a).None? && !a.FileReport?
    ensures Step(s, a).queue == s.queue && Step(s, a).docs == s.docs
  {
  }

  lemma OwnStepFits(s: System, a: Action, w: nat)
    requires Basis(s) && PhasesOk(s) && Actor(a) == Some(w) && w in Step(s, a).phases
    ensures PhaseOk(Step(s, a), w)
  {
    if a.ClaimEntry? || a.ClaimReport? { OwnClaimFits(s, a, w); } else { OwnWorkFits(s, a, w); }
  }

  lemma OwnClaimFits(s: System, a: Action, w: nat)
    requires Basis(s) && PhasesOk(s) && Actor(a) == Some(w) && w in Step(s, a).phases
    requires a.ClaimEntry? || a.ClaimReport?
    ensures PhaseOk(Step(s, a), w)
  {
    if w in s.phases { assert PhaseOk(s, w); }
    if a.ClaimEntry? {
      if w in s.phases { IdleStep(s, a); } else { ClaimStarts(s, w, a.takeOver); }
    } else {
      if At(s, w, Started) { ReportClaimFits(s, w); } else { IdleStep(s, a); }
    }
  }

  lemma OwnWorkFits(s: System, a: Action, w: nat)
    requires PhasesOk(s) && Actor(a) == Some(w) && w in Step(s, a).phases
    requires !a.ClaimEntry? && !a.ClaimReport?
    ensures PhaseOk(Step(s, a), w)
  {
    if w in s.phases { assert PhaseOk(s, w); }
    if a.WriteResult? {
      WriteFits(s, w, a.threshold);
    } else if OnlyThinks(a) {
      ThinkingIsLocal(s, a);
      ThinkingFits(s, a);
    } else if a.RefuseType? {
      RefusalIsForOthers(s, w);
    } else {
      EndingLeavesNoPhase(s, a);
    }
  }

  /** A worker inside the handler has long known its type. */
  lemma RefusalIsForOthers(s: System, w: nat)
    requires w in s.phases ==> Holds(s, w)
    ensures w in s.phases ==> Step(s, RefuseType(w)) == s
    ensures w !in s.phases ==> w !in Step(s, RefuseType(w)).phases
  {
    RunShort(s.queue, [Q.RefuseType(w)]);
    if w in s.phases { assert s.phases[w := s.phases[w]] == s.phases; }
  }

  /** A finish or crash either ends the delivery or does nothing. */
  lemma EndingLeavesNoPhase(s: System, a: Action)
    requires a.Finish? || a.Crash?
    requires a.worker in s.phases ==> PhaseOk(s, a.worker)
    ensures a.worker !in Step(s, a).phases || Step(s, a) == s
  {
  }

  lemma NoClaimInside(s: System, a: Action)
    requires !a.ClaimEntry?
    ensures forall i :: 0 <= i < |QueueActs(s, a)| ==> !QueueActs(s, a)[i].ClaimJob?
  {
  }

  /** Ending a delivery takes it out of the queue's workers as well. */
  lemma EndedIsGone(s: System, a: Action)
    requires Ends(s, a)
    ensures a.worker !in QueueAfter(s, a).workers
  {
    RunShort(s.queue, QueueActs(s, a));
  }

  lemma HolderHasPhase(s: System, a: Action, w: nat)
    requires HoldersHavePhases(s)
    requires w in QueueAfter(s, a).workers && QueueAfter(s, a).workers[w].Holding?
    ensures w in PhasesAfter(s, a)
  {
    if a.ClaimEntry? {
      RunShort(s.queue, QueueActs(s, a));
      if QueueActs(s, a) != [] { QS.HolderOrigin(s.queue, QueueActs(s, a)[0], w); }
    } else {
      NoClaimInside(s, a);
      QS.RunHolderOrigin(s.queue, QueueActs(s, a), w);
      if Ends(s, a) { EndedIsGone(s, a); }
    }
  }

  // ----- every step, every run -----

  lemma PhasesKeep(s: System, a: Action)
    requires Basis(s) && PhasesOk(s) && StepShape(s, a, Step(s, a))
    ensures PhasesOk(Step(s, a))
  {
    forall w | w in Step(s, a).phases ensures PhaseOk(Step(s, a), w) {
      if Actor(a) == Some(w) {
        OwnStepFits(s, a, w);
      } else {
        OtherPhasesStay(s, a, w);
        assert PhaseOk(s, w);
        BystanderKeepsPhase(s, a, Step(s, a), w);
      }
    }
  }

  lemma OtherPhasesStay(s: System, a: Action, w: nat)
    requires Actor(a) != Some(w) && w in PhasesAfter(s, a)
    ensures w in s.phases && PhasesAfter(s, a)[w] == s.phases[w]
  {
  }

  lemma BasisKeeps(s: System, a: Action, t: System)
    requires Basis(s) && StepShape(s, a, t) && t == Step(s, a)
    ensures Basis(t)
  {
    QS.RunKeeps(s.queue, QueueActs(s, a));
    forall id | 0 <= id < |t.queue.entries| ensures PayloadOk(t, t.queue.entries[id].payload) {
      PayloadKeeps(s, a, t, id);
    }
    forall i, j | 0 <= i < |t.queue.entries| && 0 <= j < |t.queue.entries| && i != j
      && t.queue.entries[i].payload.Classify?
      ensures t.queue.entries[i].payload != t.queue.entries[j].payload
    {
      DistinctKeeps(s, a, t, i, j);
    }
    forall w | w in t.queue.workers && t.queue.workers[w].Holding? ensures w in t.phases {
      HolderHasPhase(s, a, w);
    }
  }

  lemma CoupledKeeps(s: System, a: Action, t: System)
    requires Inv(s) && StepShape(s, a, t) && t.docs == DocsAfter(s, a) && !Strands(s, a)
    ensures Coupled(t)
  {
    forall r: nat | Waits(t, r) ensures exists id: nat :: Live(t, id, r, t.docs[r].report.ai.request) {
      var id := WaitingStaysCoupled(s, a, t, r);
    }
  }

  lemma ShapeOfStep(s: System, a: Action)
    ensures StepShape(s, a, Step(s, a))
  {
    StepHasShape(s, a);
    var u := System(QueueAfter(s, a), DocsAfter(s, a), s.phases);
    assert StepShape(s, a, u) && Step(s, a).queue == u.queue && Step(s, a).docs == u.docs;
  }

  /** Whatever a step does, workers stand where their claims allow. */
  lemma StepGrounds(s: System, a: Action)
    requires Grounded(s)
    ensures Grounded(Step(s, a))
  {
    ShapeOfStep(s, a);
    BasisKeeps(s, a, Step(s, a));
    PhasesKeep(s, a);
  }

  lemma StepKeeps(s: System, a: Action)
    requires Inv(s) && !Strands(s, a)
    ensures Inv(Step(s, a))
  {
    StepGrounds(s, a);
    ShapeOfStep(s, a);
    CoupledKeeps(s, a, Step(s, a));
  }

  lemma StartInv()
    ensures Inv(Start)
  {
    QS.InitInv();
  }

  lemma {:induction false} RunGrounds(s: System, acts: seq<Action>)
    requires Grounded(s)
    ensures Grounded(Run(s, acts))
    decreases |acts|
  {
    if acts != [] {
      StepGrounds(s, acts[0]);
      RunGrounds(Step(s, acts[0]), acts[1..]);
    }
  }

  lemma {:induction false} RunKeeps(s: System, acts: seq<Action>)
    requires Inv(s) && NeverStrands(s, acts)
    ensures Inv(Run(s, acts))
    decreases |acts|
  {
    if acts != [] {
      StepKeeps(s, acts[0]);
      RunKeeps(Step(s, acts[0]), acts[1..]);
    }
  }
}
