/**
 The `classify_report` handler and the request functions as they run: each update is one step of the
 system, and between a worker's own steps everyone else may take any number of theirs.
 */
module ClassificationService {
  import opened Basics
  import Q = JobQueue
  import QS = JobQueueSafety
  import R = Reports
  import SweepLease
  import opened Classification
  import opened ClassificationSafety
  import opened ClassificationPromises
  import E = ClassificationEffects
  import W = JobWorkers

  predicate NotBy(a: Action, w: nat) {
    Actor(a) != Some(w)
  }

  function NotOf(acts: seq<Action>, w: nat): (rest: seq<Action>)
    ensures forall i :: 0 <= i < |rest| ==> NotBy(rest[i], w)
  {
    if acts == [] then []
    else if NotBy(acts[0], w) then [acts[0]] + NotOf(acts[1..], w)
    else NotOf(acts[1..], w)
  }

  /** The worker still holds its claim and stands where it stood. */
  predicate Stands(s: System, t: System, w: nat) {
    && Holds(s, w) && Holds(t, w)
    && t.phases[w] == s.phases[w] && t.queue.workers[w] == s.queue.workers[w]
    && |s.docs| <= |t.docs|
  }

  lemma OtherStepStands(s: System, a: Action, w: nat)
    requires Grounded(s) && NotBy(a, w) && Holds(s, w)
    ensures Stands(s, Step(s, a), w)
  {
    OthersDoNotTouch(s, a, w);
    QS.RunKeepsClaim(s.queue, QueueActs(s, a), w);
    PlaceStands(s, a, w);
  }

  lemma PlaceStands(s: System, a: Action, w: nat)
    requires NotBy(a, w) && w in s.phases
    ensures w in PhasesAfter(s, a) && PhasesAfter(s, a)[w] == s.phases[w] && |s.docs| <= |DocsAfter(s, a)|
  {
  }

  lemma {:induction false} OthersStand(s: System, acts: seq<Action>, w: nat)
    requires Grounded(s) && Holds(s, w) && forall i :: 0 <= i < |acts| ==> NotBy(acts[i], w)
    ensures Grounded(Run(s, acts)) && Stands(s, Run(s, acts), w)
    decreases |acts|
  {
    if acts != [] {
      StepGrounds(s, acts[0]);
      OtherStepStands(s, acts[0], w);
      OthersStand(Step(s, acts[0]), acts[1..], w);
    }
  }

  // ----- what a worker's own steps come to -----

  /** The claim transaction: the lease is renewed, and the report takes the worker's token. */
  function ReportClaimed(s: System, w: nat): System
    requires Classifies(s, w)
  {
    var h := s.queue.workers[w];
    var r := h.payload.report;
    if !Owns(s, w) then s.(phases := s.phases[w := Returned])
    else
      var t := s.(queue := Q.Put(s.queue, h.job.entry, EntryHeld(s, w).(lease := Some(Q.Lease(h.token, s.queue.now)))));
      if R.CurrentPending(ReportOf(s, w), RequestOf(s, w)) then
        t.(docs := s.docs[r := s.docs[r].(report := ReportOf(s, w).(ai := ReportOf(s, w).ai.(token := Some(h.token))))],
           phases := s.phases[w := ReportHeld])
      else t.(phases := s.phases[w := Returned])
  }

  lemma ClaimReportIs(s: System, w: nat)
    requires At(s, w, Started)
    ensures Step(s, ClaimReport(w)) == ReportClaimed(s, w)
  {
    RunShort(s.queue, [Q.Renew(w)]);
  }

  lemma ThinkingIs(s: System, a: Action)
    requires OnlyThinks(a) && Holds(s, a.worker)
    ensures Step(s, a) == s.(phases := s.phases[a.worker := PhaseAfter(s, a.worker, a)])
  {
  }

  lemma WriteIs(s: System, w: nat, threshold: real)
    requires AnswerWritable(s, w)
    ensures
      var p, r := s.phases[w], s.queue.workers[w].payload.report;
      var c := R.DecideClassification(p.seen, p.answer, R.ChosenCategory(p.categories, p.answer).value, threshold);
      Step(s, WriteResult(w, threshold)) ==
        if ResultMatches(s, w) then
          s.(docs := s.docs[r := s.docs[r].(report := R.ApplyClassification(c, ReportOf(s, w)),
                                            verdicts := s.docs[r].verdicts[RequestOf(s, w) := R.AiDone])],
             phases := s.phases[w := Returned])
        else s.(phases := s.phases[w := Missed(p.seen, p.categories, p.answer, p.tries)])
  {
  }

  lemma ClaimKeeps(s: System, w: nat)
    requires Grounded(s) && At(s, w, Started)
    ensures Grounded(ReportClaimed(s, w))
  {
    ClaimReportIs(s, w);
    StepGrounds(s, ClaimReport(w));
  }

  function Moved(s: System, w: nat, p: Phase): System {
    s.(phases := s.phases[w := p])
  }

  /** A step that only reads, asks the provider or fails changes nothing but where the worker stands. */
  lemma ThinkingKeeps(s: System, a: Action)
    requires Grounded(s) && OnlyThinks(a) && Holds(s, a.worker)
    ensures Grounded(Moved(s, a.worker, PhaseAfter(s, a.worker, a)))
  {
    ThinkingIs(s, a);
    StepGrounds(s, a);
  }

  lemma LoadIs(s: System, w: nat, categories: seq<R.Category>)
    requires Classifies(s, w)
    ensures s.phases[w].ReportHeld? ==>
      PhaseAfter(s, w, Load(w)) == if IsCurrentPending(s, w) then Current else Returned
    ensures s.phases[w].Current? ==>
      PhaseAfter(s, w, LoadAgain(w, categories)) ==
        if IsCurrentPending(s, w) then Ready(ReportOf(s, w), categories) else Returned
  {
  }

  lemma AnswerIs(s: System, w: nat, answer: R.Answer)
    requires Classifies(s, w) && s.phases[w].Ready?
    ensures PhaseAfter(s, w, Reply(w, answer)) == Answered(s.phases[w].seen, s.phases[w].categories, answer, 0)
  {
  }

  lemma ReloadIs(s: System, w: nat)
    requires PhasesOk(s) && Classifies(s, w) && s.phases[w].Missed?
    ensures PhaseAfter(s, w, Reload(w)) == AfterReload(s, w)
    ensures
      var p := s.phases[w];
      AfterReload(s, w) ==
        if IsCurrentPending(s, w) then Answered(ReportOf(s, w), p.categories, p.answer, p.tries + 1) else Returned
    ensures IsCurrentPending(s, w) ==> s.phases[w].tries + 1 < WRITE_TRIES
  {
    assert PhaseOk(s, w);
  }

  lemma BreakIs(s: System, w: nat)
    requires Classifies(s, w) && !s.phases[w].Started? && !s.phases[w].Threw?
    ensures PhaseAfter(s, w, Breaks(w)) == Threw(INTERNAL, true)
  {
  }

  /** The conditional write of a result, decided from the reading the worker made. */
  function ResultWritten(s: System, w: nat, c: R.Classification): System
    requires AnswerWritable(s, w)
  {
    var p, r := s.phases[w], s.queue.workers[w].payload.report;
    if ResultMatches(s, w) then
      System(s.queue,
             s.docs[r := s.docs[r].(report := R.ApplyClassification(c, ReportOf(s, w)),
                                    verdicts := s.docs[r].verdicts[RequestOf(s, w) := R.AiDone])],
             s.phases[w := Returned])
    else Moved(s, w, Missed(p.seen, p.categories, p.answer, p.tries))
  }

  function Decided(s: System, w: nat, threshold: real): R.Classification
    requires AnswerWritable(s, w)
  {
    var p := s.phases[w];
    R.DecideClassification(p.seen, p.answer, R.ChosenCategory(p.categories, p.answer).value, threshold)
  }

  lemma WriteKeeps(s: System, w: nat, threshold: real)
    requires Grounded(s) && AnswerWritable(s, w)
    ensures Grounded(ResultWritten(s, w, Decided(s, w, threshold)))
  {
    WriteIs(s, w, threshold);
    StepGrounds(s, WriteResult(w, threshold));
  }

  lemma NoFallbackIs(s: System, w: nat, threshold: real)
    requires Classifies(s, w) && s.phases[w].Answered? && !AnswerWritable(s, w)
    ensures Step(s, WriteResult(w, threshold)) == Moved(s, w, Threw(INTERNAL, true))
  {
  }

  lemma NoFallbackKeeps(s: System, w: nat, threshold: real)
    requires Grounded(s) && Classifies(s, w) && s.phases[w].Answered? && !AnswerWritable(s, w)
    ensures Grounded(Moved(s, w, Threw(INTERNAL, true)))
  {
    NoFallbackIs(s, w, threshold);
    StepGrounds(s, WriteResult(w, threshold));
  }

  // ----- the executor's record of a run -----

  lemma FinishKeeps(s: System, w: nat)
    requires Grounded(s)
    ensures Grounded(Step(s, Finish(w)))
  {
    StepGrounds(s, Finish(w));
  }

  lemma ReturnedIs(s: System, w: nat)
    requires Holds(s, w) && s.phases[w].Returned?
    ensures Step(s, Finish(w)) == System(Q.RecordedDone(s.queue, w), s.docs, s.phases - {w})
  {
    RunShort(s.queue, [Q.RecordDone(w)]);
  }

  lemma ThrewIs(s: System, w: nat)
    requires Classifies(s, w) && s.phases[w].Threw?
    ensures
      var r, f := s.queue.workers[w].payload.report, s.phases[w].failure;
      Step(s, Finish(w)) == System(
        Q.RecordedFailure(s.queue, w, f),
        if FinallyFails(s, w) then
          s.docs[r := R.Step(s.docs[r], R.GiveUp(RequestOf(s, w), Some(s.queue.workers[w].token), f.code, s.queue.now))]
        else s.docs,
        s.phases - {w})
  {
    RunShort(s.queue, [Q.RecordFailure(w, s.phases[w].failure)]);
  }

  /** The entry after a failure of this attempt: for good, or until its wait is over. */
  function FailedLeaves(e: Q.Entry, number: nat, f: Q.Failure, now: nat): Q.Entry
    requires number >= 1
  {
    if !f.retryable || number >= W.LastAttempt(e.queue)
    then e.(state := Q.Failed, attempts := number, lastError := Some(f.code), lease := None)
    else e.(state := Q.Pending, attempts := number, lastError := Some(f.code), lease := None,
            notBefore := Some(now + W.RetryWait(e.queue, number, f)))
  }

  /** A last failure is written to a report that still waits under this worker's claim, and to no other. */
  predicate TellsReport(e: Q.Entry, h: Q.Worker, f: Q.Failure, report: R.Report)
    requires h.Holding? && h.payload.Classify?
  {
    && (!f.retryable || h.job.number >= W.LastAttempt(e.queue))
    && !report.status.Withdrawn? && report.ai.status.AiPending? && report.ai.request == h.payload.request
    && report.ai.token == Some(h.token)
  }

  /** What the executor's record does to the entry and the report, if the claim still stands. */
  ghost predicate FinishedAs(s: System, w: nat, recorded: bool, t: System)
    requires Classifies(s, w) && (s.phases[w].Returned? || s.phases[w].Threw?)
  {
    var h, p := s.queue.workers[w], s.phases[w];
    var e, doc := s.queue.entries[h.job.entry], s.docs[h.payload.report];
    && recorded == W.StillMine(e, h.job, h.token)
    && (!recorded || p.Returned? ==> t.docs == s.docs)
    && (if !recorded then t.queue.entries == s.queue.entries
        else if p.Returned? then
          t.queue.entries == s.queue.entries[h.job.entry :=
            e.(state := Q.Done, attempts := h.job.number, lease := None, notBefore := None)]
        else
          && t.queue.entries == s.queue.entries[h.job.entry := FailedLeaves(e, h.job.number, p.failure, s.queue.now)]
          && |t.docs| == |s.docs| && t.docs == s.docs[h.payload.report := t.docs[h.payload.report]]
          && if TellsReport(e, h, p.failure, doc.report)
             then E.FailureLeaves(doc.report, p.failure.code, s.queue.now, t.docs[h.payload.report].report)
             else t.docs == s.docs)
  }

  lemma ReturnFinishes(s: System, w: nat)
    requires Classifies(s, w) && s.phases[w].Returned?
    ensures FinishedAs(s, w, Q.Records(s.queue, w), Step(s, Finish(w)))
  {
    ReturnedIs(s, w);
  }

  lemma ThrowFinishes(s: System, w: nat)
    requires Classifies(s, w) && s.phases[w].Threw?
    ensures FinishedAs(s, w, Q.Records(s.queue, w), Step(s, Finish(w)))
  {
    ThrewIs(s, w);
  }

  // ----- asking for a classification -----

  /** The queue after a report's request has its job: older failed jobs are dismissed, the new one follows. */
  function WithRequest(q: Q.State, r: nat, request: nat): Q.State {
    q.(entries := Q.DismissedReplaced(q, r, None).entries + [Q.NewEntry(Q.Ai, Q.Classify(r, request))])
  }

  function Asked(s: System, r: nat): System
    requires r < |s.docs|
  {
    var doc := s.docs[r];
    System(WithRequest(s.queue, r, doc.report.ai.request + 1),
           s.docs[r := doc.(report := doc.report.(ai := R.Requested(doc.report.ai)))], s.phases)
  }

  lemma NewRequestIs(s: System, r: nat)
    requires r < |s.docs|
    ensures Q.Run(s.queue, NewRequest(s, r)) == WithRequest(s.queue, r, s.docs[r].report.ai.request + 1)
  {
    RunShort(s.queue, NewRequest(s, r));
  }

  lemma RerunIs(s: System, r: nat)
    requires MayRerun(s, r)
    ensures Step(s, Rerun(r)) == Asked(s, r)
  {
    NewRequestIs(s, r);
  }

  lemma RerunKeeps(s: System, r: nat)
    requires Grounded(s) && MayRerun(s, r)
    ensures Grounded(Asked(s, r))
  {
    RerunIs(s, r);
    StepGrounds(s, Rerun(r));
  }

  lemma SweepIs(s: System, r: nat, request: nat, before: nat)
    requires MaySweep(s, r, request, before)
    ensures Step(s, Sweep(r, request, before)) == Asked(s, r)
  {
    NewRequestIs(s, r);
  }

  lemma SweepKeeps(s: System, r: nat, request: nat, before: nat)
    requires Grounded(s) && MaySweep(s, r, request, before)
    ensures Grounded(Asked(s, r))
  {
    SweepIs(s, r, request, before);
    StepGrounds(s, Sweep(r, request, before));
  }

  /** The system after an administrator's retry of a classification: its own entry carries the new request. */
  function RetriedJob(s: System, id: nat, request: nat): System
    requires MayRetry(s, id, request)
  {
    var r := s.queue.entries[id].payload.report;
    var doc := s.docs[r];
    System(Q.Retried(Q.DismissedReplaced(s.queue, r, Some(id)), id, Q.Classify(r, request + 1)),
           s.docs[r := doc.(report := doc.report.(ai := R.Requested(doc.report.ai)))], s.phases)
  }

  lemma RetryIs(s: System, id: nat, request: nat)
    requires MayRetry(s, id, request)
    ensures Step(s, RetryJob(id, request)) == RetriedJob(s, id, request)
  {
    RunShort(s.queue, QueueActs(s, RetryJob(id, request)));
  }

  lemma RetryKeeps(s: System, id: nat, request: nat)
    requires Grounded(s) && MayRetry(s, id, request)
    ensures Grounded(RetriedJob(s, id, request))
  {
    RetryIs(s, id, request);
    StepGrounds(s, RetryJob(id, request));
  }

  // ----- the sweep -----

  /** A report as the sweep found it. */
  datatype Candidate = Candidate(report: nat, request: nat, failure: R.AiFailure)

  /** Its last request failed for a passing reason before that time. */
  predicate Qualifies(report: R.Report, before: nat) {
    && !report.status.Withdrawn? && report.ai.status.AiFailed? && report.ai.failure.Some?
    && E.Passes(report.ai.failure.value.code) && report.ai.failure.value.at < before
  }

  /** The candidates are qualifying reports, each once; and if there was room for more, all of the first `n`. */
  ghost predicate Chosen(docs: seq<R.Doc>, found: seq<Candidate>, limit: nat, before: nat, n: nat)
    requires n <= |docs|
  {
    && |found| <= limit
    && (forall j, k :: 0 <= j < k < |found| ==> found[j].report < found[k].report)
    && (forall k :: 0 <= k < |found| ==>
          && found[k].report < n && Qualifies(docs[found[k].report].report, before)
          && found[k] == CandidateOf(docs, found[k].report))
    && (|found| < limit ==>
          forall r :: 0 <= r < n && Qualifies(docs[r].report, before) ==> CandidateOf(docs, r) in found)
  }

  function CandidateOf(docs: seq<R.Doc>, r: nat): Candidate
    requires r < |docs| && docs[r].report.ai.failure.Some?
  {
    Candidate(r, docs[r].report.ai.request, docs[r].report.ai.failure.value)
  }

  /** The report has moved on from that request: a newer one exists, or it was withdrawn. */
  predicate PastRequest(report: R.Report, request: nat) {
    report.status.Withdrawn? || report.ai.request > request
  }

  predicate FailedOrPast(report: R.Report, c: Candidate) {
    || PastRequest(report, c.request)
    || (report.ai.request == c.request && report.ai.status.AiFailed? && report.ai.failure == Some(c.failure))
  }

  lemma StepFollows(d: R.Doc, a: R.Action, c: Candidate)
    ensures PastRequest(d.report, c.request) ==> PastRequest(R.Step(d, a).report, c.request)
    ensures FailedOrPast(d.report, c) ==> FailedOrPast(R.Step(d, a).report, c)
  {
    if a.Write? && R.Writes(d, a.key) { WriteFollows(d.pending[a.key], d.report, c); }
  }

  lemma WriteFollows(q: R.Request, r: R.Report, c: Candidate)
    requires R.PlanOf(q).Ok? && R.Matches(R.PlanOf(q).value.filter, r)
    ensures PastRequest(r, c.request) ==> PastRequest(R.Apply(R.PlanOf(q).value.patch, r), c.request)
    ensures FailedOrPast(r, c) ==> FailedOrPast(R.Apply(R.PlanOf(q).value.patch, r), c)
  {
    if q.change.Edit? { EditFollows(q, r, c); }
    else if q.change.Update? { UpdateFollows(q, r, c); }
    else { OtherWriteFollows(q, r, c); }
  }

  lemma EditFollows(q: R.Request, r: R.Report, c: Candidate)
    requires q.change.Edit? && R.PlanOf(q).Ok? && R.Matches(R.PlanOf(q).value.filter, r)
    ensures PastRequest(r, c.request) ==> PastRequest(R.Apply(R.PlanOf(q).value.patch, r), c.request)
    ensures FailedOrPast(r, c) ==> FailedOrPast(R.Apply(R.PlanOf(q).value.patch, r), c)
  {
  }

  lemma UpdateFollows(q: R.Request, r: R.Report, c: Candidate)
    requires q.change.Update? && R.PlanOf(q).Ok? && R.Matches(R.PlanOf(q).value.filter, r)
    ensures PastRequest(r, c.request) ==> PastRequest(R.Apply(R.PlanOf(q).value.patch, r), c.request)
    ensures FailedOrPast(r, c) ==> FailedOrPast(R.Apply(R.PlanOf(q).value.patch, r), c)
  {
  }

  lemma OtherWriteFollows(q: R.Request, r: R.Report, c: Candidate)
    requires !q.change.Edit? && !q.change.Update? && R.PlanOf(q).Ok? && R.Matches(R.PlanOf(q).value.filter, r)
    ensures PastRequest(r, c.request) ==> PastRequest(R.Apply(R.PlanOf(q).value.patch, r), c.request)
    ensures FailedOrPast(r, c) ==> FailedOrPast(R.Apply(R.PlanOf(q).value.patch, r), c)
  {
    if q.change.Recategorise? { RecategoriseFollows(q, r, c); } else { MoveFollows(q, r, c); }
  }

  lemma RecategoriseFollows(q: R.Request, r: R.Report, c: Candidate)
    requires q.change.Recategorise? && R.PlanOf(q).Ok? && R.Matches(R.PlanOf(q).value.filter, r)
    ensures PastRequest(r, c.request) ==> PastRequest(R.Apply(R.PlanOf(q).value.patch, r), c.request)
    ensures FailedOrPast(r, c) ==> FailedOrPast(R.Apply(R.PlanOf(q).value.patch, r), c)
  {
  }

  lemma MoveFollows(q: R.Request, r: R.Report, c: Candidate)
    requires (q.change.Withdraw? || q.change.Assign?) && R.PlanOf(q).Ok? && R.Matches(R.PlanOf(q).value.filter, r)
    ensures PastRequest(r, c.request) ==> PastRequest(R.Apply(R.PlanOf(q).value.patch, r), c.request)
    ensures FailedOrPast(r, c) ==> FailedOrPast(R.Apply(R.PlanOf(q).value.patch, r), c)
  {
  }

  lemma {:induction false} RunFollows(d: R.Doc, acts: seq<R.Action>, c: Candidate)
    ensures PastRequest(d.report, c.request) ==> PastRequest(R.Run(d, acts).report, c.request)
    ensures FailedOrPast(d.report, c) ==> FailedOrPast(R.Run(d, acts).report, c)
    decreases |acts|
  {
    if acts != [] {
      StepFollows(d, acts[0], c);
      RunFollows(R.Step(d, acts[0]), acts[1..], c);
    }
  }

  /** The first `n` candidates have moved on; the others are as found or have moved on too. */
  ghost predicate AllFollowed(docs: seq<R.Doc>, found: seq<Candidate>, n: nat) {
    forall k :: 0 <= k < |found| ==>
      && found[k].report < |docs| && FailedOrPast(docs[found[k].report].report, found[k])
      && (k < n ==> PastRequest(docs[found[k].report].report, found[k].request))
  }

  predicate AllRetryable(found: seq<Candidate>, before: nat) {
    forall k :: 0 <= k < |found| ==> SweepRetries(found[k].failure.code) && found[k].failure.at < before
  }

  lemma AllFound(docs: seq<R.Doc>, found: seq<Candidate>, limit: nat, before: nat)
    requires Chosen(docs, found, limit, before, |docs|)
    ensures AllFollowed(docs, found, 0) && AllRetryable(found, before)
  {
  }

  lemma FollowedLater(s: System, acts: seq<Action>, found: seq<Candidate>, n: nat)
    requires AllFollowed(s.docs, found, n)
    ensures AllFollowed(Run(s, acts).docs, found, n)
  {
    var t := Run(s, acts);
    forall k | 0 <= k < |found|
      ensures
        && found[k].report < |t.docs| && FailedOrPast(t.docs[found[k].report].report, found[k])
        && (k < n ==> PastRequest(t.docs[found[k].report].report, found[k].request))
    {
      var r := found[k].report;
      RunIsDocRun(s, acts, r);
      RunFollows(s.docs[r], DocTrace(s, acts, r), found[k]);
    }
  }

  lemma OneMoreFollowed(s: System, t: System, found: seq<Candidate>, n: nat)
    requires n < |found| && AllFollowed(s.docs, found, n)
    requires t == s || t == Asked(s, found[n].report)
    requires PastRequest(t.docs[found[n].report].report, found[n].request)
    ensures AllFollowed(t.docs, found, n + 1)
  {
  }

  /** Everything that asking for a classification of a report does, job by job. */
  ghost predicate AsksAgain(s: System, t: System, r: nat)
    requires r < |s.docs|
  {
    var n := |s.queue.entries|;
    && |t.docs| == |s.docs| && (forall i :: 0 <= i < |s.docs| && i != r ==> t.docs[i] == s.docs[i])
    && E.AskLeaves(s.docs[r].report, t.docs[r].report)
    && t.docs[r] == s.docs[r].(report := t.docs[r].report)
    && t == s.(docs := t.docs, queue := s.queue.(entries := t.queue.entries)) && |t.queue.entries| == n + 1
    && t.queue.entries[n] ==
         Q.Entry(Q.Ai, Q.Classify(r, s.docs[r].report.ai.request + 1), Q.Pending, 0, 0, None, None, None, None)
    && forall id :: 0 <= id < n ==>
         var e := s.queue.entries[id];
         t.queue.entries[id] ==
           if e.state.Failed? && e.payload.Classify? && e.payload.report == r then e.(state := Q.Dismissed) else e
  }

  /** The report stands as it failed, for that request, for a passing reason, before that time. */
  predicate StillFailed(report: R.Report, request: nat, before: nat) {
    && !report.status.Withdrawn? && report.ai.status.AiFailed? && report.ai.request == request
    && report.ai.failure.Some? && E.Passes(report.ai.failure.value.code) && report.ai.failure.value.at < before
  }

  /** The first sweeps of a run: before each, a leg of anyone's steps. */
  function SweepTrace(found: seq<Candidate>, legs: seq<seq<Action>>, before: nat): seq<Action>
    requires |legs| <= |found|
    decreases |legs|
  {
    if legs == [] then [] else
      var n := |legs| - 1;
      SweepTrace(found, legs[..n], before) + (legs[n] + [Sweep(found[n].report, found[n].request, before)])
  }

  /** How many of these sweeps found their report still failed and waiting for nothing. */
  function Requeued(s: System, found: seq<Candidate>, legs: seq<seq<Action>>, before: nat): (n: nat)
    requires |legs| <= |found|
    ensures n <= |legs|
    decreases |legs|
  {
    if legs == [] then 0 else
      var n := |legs| - 1;
      var c, t := found[n], Run(Run(s, SweepTrace(found, legs[..n], before)), legs[n]);
      Requeued(s, found, legs[..n], before)
      + if c.report < |t.docs| && StillFailed(t.docs[c.report].report, c.request, before) then 1 else 0
  }

  /** These sweeps lead from one state to the other, and so many of them asked again. */
  ghost predicate Swept(s: System, found: seq<Candidate>, legs: seq<seq<Action>>, before: nat, t: System, requeued: nat)
  {
    && |legs| <= |found|
    && t == Run(s, SweepTrace(found, legs, before)) && requeued == Requeued(s, found, legs, before)
  }

  /** One leg of anyone's steps, and then the sweep of that report. */
  ghost predicate SweptNext(t: System, leg: seq<Action>, c: Candidate, before: nat, u: System, asked: bool) {
    var there := Run(t, leg);
    && u == Step(there, Sweep(c.report, c.request, before)) && c.report < |there.docs|
    && asked == StillFailed(there.docs[c.report].report, c.request, before)
    && if asked then AsksAgain(there, u, c.report) else u == there
  }

  lemma OneMoreSweep(s: System, found: seq<Candidate>, legs: seq<seq<Action>>, before: nat, t: System, requeued: nat,
                     leg: seq<Action>, u: System, asked: bool)
    requires Swept(s, found, legs, before, t, requeued) && |legs| < |found|
    requires SweptNext(t, leg, found[|legs|], before, u, asked)
    ensures Swept(s, found, legs + [leg], before, u, requeued + if asked then 1 else 0)
  {
    assert (legs + [leg])[..|legs|] == legs;
    RunThenStep(s, SweepTrace(found, legs, before), leg, Sweep(found[|legs|].report, found[|legs|].request, before));
  }

  lemma RunThenStep(s: System, first: seq<Action>, leg: seq<Action>, a: Action)
    ensures Run(s, first + (leg + [a])) == Step(Run(Run(s, first), leg), a)
  {
    RunComposes(s, first, leg + [a]);
    RunComposes(Run(s, first), leg, [a]);
    assert [a][1..] == [];
  }

  lemma IdleSweep(s: System, r: nat, request: nat, before: nat)
    requires !MaySweep(s, r, request, before)
    ensures Step(s, Sweep(r, request, before)) == s
  {
  }

  /** Everything that retrying a failed classification does: its own entry starts again for the next request. */
  ghost predicate RetriesOn(s: System, t: System, id: nat)
    requires id < |s.queue.entries| && s.queue.entries[id].payload.Classify?
    requires s.queue.entries[id].payload.report < |s.docs|
  {
    var was := s.queue.entries[id];
    var r := was.payload.report;
    && |t.docs| == |s.docs| && (forall i :: 0 <= i < |s.docs| && i != r ==> t.docs[i] == s.docs[i])
    && E.AskLeaves(s.docs[r].report, t.docs[r].report)
    && t.docs[r] == s.docs[r].(report := t.docs[r].report)
    && t == s.(docs := t.docs, queue := s.queue.(entries := t.queue.entries))
    && |t.queue.entries| == |s.queue.entries|
    && t.queue.entries[id] == Q.Entry(was.queue, Q.Classify(r, s.docs[r].report.ai.request + 1), Q.Pending,
                                      was.runKey + 1, 0, was.lease, None, None, None)
    && forall j :: 0 <= j < |s.queue.entries| && j != id ==>
         var e := s.queue.entries[j];
         t.queue.entries[j] ==
           if e.state.Failed? && e.payload.Classify? && e.payload.report == r then e.(state := Q.Dismissed) else e
  }

  lemma ThrownIs(s: System, w: nat, trouble: Trouble)
    requires Classifies(s, w) && (s.phases[w].Current? || s.phases[w].Ready?)
    ensures PhaseAfter(s, w, Throw(w, trouble.code, trouble.retryAfter))
      == Threw(FailureOf(trouble, s.queue.workers[w].lastError), true)
  {
  }

  /** The failure carries the trouble's code and wait, and may be tried again as that code allows. */
  predicate FailsFor(failure: Q.Failure, trouble: Trouble, lastError: Option<Code>) {
    && failure.code == trouble.code && failure.retryAfter == trouble.retryAfter
    && (failure.retryable <==> E.MayTryAgain(trouble.code, lastError))
  }

  lemma FailureFits(trouble: Trouble, lastError: Option<Code>)
    ensures FailsFor(FailureOf(trouble, lastError), trouble, lastError)
  {
  }

  /** How a run of the handler ends. There is no way for it to give up because the report kept changing. */
  datatype Result = Written | Stale | ProviderFailed(failure: Q.Failure) | NoFallback | Broke

  /** What goes wrong while reading the photo or asking the provider. */
  datatype Trouble = Trouble(code: Code, retryAfter: Option<nat>)

  /** The provider's reply. */
  datatype Reply = Answers(answer: R.Answer) | Fails(trouble: Trouble)

  function FailureOf(trouble: Trouble, lastError: Option<Code>): Q.Failure {
    Q.Failure(trouble.code, Retryable(trouble.code, lastError), trouble.retryAfter)
  }

  /** The handler's database calls after its claim of the report; each try writes and may look again. */
  datatype Call = FirstReading | CategoryReading | SecondReading | Writing(tries: nat) | LookingAgain(tries: nat)

  /** Which of them fail. */
  type Outages = Call -> bool

  /** What a run of the handler is given: the photo store, the category list, the provider, failing calls. */
  datatype Given = Given(photo: Option<Trouble>, categories: seq<R.Category>, reply: Reply, fails: Outages,
                         threshold: real)

  // ----- the handler's program -----

  /** The handler's next step, by where it stands. */
  function NextStep(p: Phase, w: nat, g: Given): Option<Action> {
    match p
    case Started => Some(ClaimReport(w))
    case ReportHeld => Some(if g.fails(FirstReading) then Breaks(w) else Load(w))
    case Current => Some(
      if g.fails(CategoryReading) then Breaks(w)
      else if g.photo.Some? then Throw(w, g.photo.value.code, g.photo.value.retryAfter)
      else if g.fails(SecondReading) then Breaks(w)
      else LoadAgain(w, g.categories))
    case Ready(_, _) => Some(
      match g.reply
      case Answers(answer) => Action.Reply(w, answer)
      case Fails(trouble) => Throw(w, trouble.code, trouble.retryAfter))
    case Answered(_, categories, answer, tries) => Some(
      if R.ChosenCategory(categories, answer).Some? && g.fails(Writing(tries)) then Breaks(w)
      else WriteResult(w, g.threshold))
    case Missed(_, _, _, tries) => Some(if g.fails(LookingAgain(tries)) then Breaks(w) else Reload(w))
    case Returned => None
    case Threw(_, _) => None
  }

  /**
   The trace leads from `s` to `t`; each step of worker `w` in it is the one its program makes there, and
   others do anything in between.
   */
  ghost predicate Leads(s: System, trace: seq<Action>, t: System, w: nat, g: Given) {
    forall n {:trigger trace[..n]} :: 0 <= n <= |trace| ==>
      var u := Run(s, trace[..n]);
      if n == |trace| then u == t
      else NotBy(trace[n], w) || (w in u.phases && NextStep(u.phases[w], w, g) == Some(trace[n]))
  }

  lemma LeadsThere(s: System, trace: seq<Action>, t: System, w: nat, g: Given)
    requires Leads(s, trace, t, w, g)
    ensures Run(s, trace) == t
  {
    assert trace[..|trace|] == trace;
  }

  lemma LeadsOn(s: System, first: seq<Action>, t: System, rest: seq<Action>, u: System, w: nat, g: Given)
    requires Leads(s, first, t, w, g) && Leads(t, rest, u, w, g)
    ensures Leads(s, first + rest, u, w, g)
  {
    LeadsThere(s, first, t, w, g);
    var all := first + rest;
    forall n {:trigger all[..n]} | 0 <= n <= |all|
      ensures Run(s, all[..n]) == if n < |first| then Run(s, first[..n]) else Run(t, rest[..n - |first|])
    {
      if n < |first| {
        assert all[..n] == first[..n];
      } else {
        assert all[..n] == first + rest[..n - |first|];
        RunComposes(s, first, rest[..n - |first|]);
      }
    }
  }

  lemma OthersLead(s: System, acts: seq<Action>, w: nat, g: Given)
    requires forall i :: 0 <= i < |acts| ==> NotBy(acts[i], w)
    ensures Leads(s, acts, Run(s, acts), w, g)
  {
    assert acts[..|acts|] == acts;
  }

  lemma StepLeads(s: System, a: Action, w: nat, g: Given)
    requires w in s.phases && NextStep(s.phases[w], w, g) == Some(a)
    ensures Leads(s, [a], Step(s, a), w, g)
  {
    assert [a][1..] == [] && [a][..0] == [] && [a][..1] == [a];
  }

  /** A step that only reads, asks the provider or fails. */
  lemma ThinkingLeads(s: System, a: Action, p: Phase, w: nat, g: Given)
    requires OnlyThinks(a) && a.worker == w && Holds(s, w) && p == PhaseAfter(s, w, a)
    requires NextStep(s.phases[w], w, g) == Some(a)
    ensures Leads(s, [a], Moved(s, w, p), w, g)
  {
    ThinkingIs(s, a);
    StepLeads(s, a, w, g);
  }

  lemma ClaimLeads(s: System, w: nat, g: Given)
    requires At(s, w, Started)
    ensures Leads(s, [ClaimReport(w)], ReportClaimed(s, w), w, g)
  {
    ClaimReportIs(s, w);
    StepLeads(s, ClaimReport(w), w, g);
  }

  lemma WriteLeads(s: System, w: nat, g: Given)
    requires AnswerWritable(s, w) && !g.fails(Writing(s.phases[w].tries))
    ensures Leads(s, [WriteResult(w, g.threshold)], ResultWritten(s, w, Decided(s, w, g.threshold)), w, g)
  {
    WriteIs(s, w, g.threshold);
    StepLeads(s, WriteResult(w, g.threshold), w, g);
  }

  lemma NoFallbackLeads(s: System, w: nat, g: Given)
    requires Classifies(s, w) && s.phases[w].Answered? && !AnswerWritable(s, w)
    ensures Leads(s, [WriteResult(w, g.threshold)], Moved(s, w, Threw(INTERNAL, true)), w, g)
  {
    NoFallbackIs(s, w, g.threshold);
    StepLeads(s, WriteResult(w, g.threshold), w, g);
  }

  /** The worker's request has its verdict: the report is classified as this answer means. */
  ghost predicate IsVerdict(s: System, w: nat, categories: seq<R.Category>, answer: R.Answer, threshold: real) {
    && Classifies(s, w)
    && (var d := s.docs[s.queue.workers[w].payload.report];
        RequestOf(s, w) in d.verdicts && d.verdicts[RequestOf(s, w)].AiDone?
        && d.report.ai.request == RequestOf(s, w) && E.IsClassified(d.report, categories, answer, threshold))
  }

  /**
   What the end of a run means: a written result is the request's verdict, a stale end leaves nothing
   waiting under the worker's claim, and any other is a throw.
   */
  ghost predicate EndsSo(s: System, w: nat, result: Result, categories: seq<R.Category>, answer: R.Answer,
                         threshold: real) {
    && Classifies(s, w)
    && match result
       case Written => s.phases[w].Returned? && IsVerdict(s, w, categories, answer, threshold)
       case Stale => s.phases[w].Returned? && !(Owns(s, w) && R.CurrentPending(ReportOf(s, w), RequestOf(s, w)))
       case ProviderFailed(_) => false
       case NoFallback =>
         s.phases[w] == Threw(INTERNAL, true) && !E.Names(categories, answer.category) && !E.Names(categories, "Other")
       case Broke => s.phases[w] == Threw(INTERNAL, true)
  }

  /** After a miss: one more try with the same answer, and within the bound. */
  predicate Retries(s: System, w: nat, before: Phase)
    requires before.Answered? || before.Missed?
  {
    && w in s.phases && s.phases[w].Answered? && s.phases[w].tries == before.tries + 1 < WRITE_TRIES
    && s.phases[w].answer == before.answer && s.phases[w].categories == before.categories
  }

  /** A miss ends the run only when the report moved on or the database fails. */
  ghost predicate EndsMiss(s: System, w: nat, result: Result) {
    (result.Stale? || result.Broke?) && EndsSo(s, w, result, [], R.Answer("", R.Low, 0.0, ""), 0.0)
  }

  /** A database call of one of the tries there are fails. */
  predicate FailsAtTry(g: Given) {
    exists tries :: 0 <= tries < WRITE_TRIES && (g.fails(Writing(tries)) || g.fails(LookingAgain(tries)))
  }

  /** What a whole run's end means, given what it was given. */
  ghost predicate RanSo(s: System, w: nat, g: Given, result: Result) {
    && Classifies(s, w)
    && match result
       case Written =>
         g.photo.None? && g.reply.Answers? && EndsSo(s, w, result, g.categories, g.reply.answer, g.threshold)
       case NoFallback =>
         g.photo.None? && g.reply.Answers? && EndsSo(s, w, result, g.categories, g.reply.answer, g.threshold)
       case Stale => EndsSo(s, w, result, [], R.Answer("", R.Low, 0.0, ""), 0.0)
       case Broke =>
         EndsSo(s, w, result, [], R.Answer("", R.Low, 0.0, ""), 0.0)
         && (g.fails(FirstReading) || g.fails(CategoryReading) || g.fails(SecondReading) || FailsAtTry(g))
       case ProviderFailed(failure) =>
         && s.phases[w] == Threw(failure, true) && (g.photo.Some? || g.reply.Fails?)
         && FailsFor(failure, if g.photo.Some? then g.photo.value else g.reply.trouble, s.queue.workers[w].lastError)
  }

  lemma WrittenFiles(s: System, w: nat, threshold: real)
    requires PhasesOk(s) && AnswerWritable(s, w) && ResultMatches(s, w)
    ensures FiledAsMeant(s, ResultWritten(s, w, Decided(s, w, threshold)), w, threshold)
  {
    assert PhaseOk(s, w);
    WriteIs(s, w, threshold);
    ResultFiles(s, w, threshold);
  }

  lemma WrittenEnds(s: System, w: nat, threshold: real)
    requires PhasesOk(s) && AnswerWritable(s, w)
    ensures
      var t, p := ResultWritten(s, w, Decided(s, w, threshold)), s.phases[w];
      && Classifies(t, w)
      && if ResultMatches(s, w) then EndsSo(t, w, Written, p.categories, p.answer, threshold)
         else t.phases[w] == Missed(p.seen, p.categories, p.answer, p.tries)
  {
    if ResultMatches(s, w) {
      var t, p := ResultWritten(s, w, Decided(s, w, threshold)), s.phases[w];
      WrittenFiles(s, w, threshold);
      var c :|
        E.Means(p.categories, p.answer, c) && E.ResultLeaves(ReportOf(s, w), p.answer, c, threshold, ReportOf(t, w));
      E.ResultIsClassified(ReportOf(s, w), p.categories, p.answer, c, threshold, ReportOf(t, w));
    }
  }

  class Backend {
    var queue: Q.State
    var docs: seq<R.Doc>
    var phases: map<nat, Phase>

    function View(): System
      reads this
    {
      System(queue, docs, phases)
    }

    /** Any steps of anyone but worker `w`. */
    method Others(w: nat, ghost g: Given) returns (ghost trace: seq<Action>)
      requires Grounded(View()) && Holds(View(), w)
      modifies this
      ensures Grounded(View()) && Stands(old(View()), View(), w)
      ensures Leads(old(View()), trace, View(), w, g)
    {
      var acts: seq<Action> := *;
      trace := NotOf(acts, w);
      var t := Run(View(), NotOf(acts, w));
      OthersStand(View(), trace, w);
      OthersLead(View(), trace, w, g);
      queue, docs, phases := t.queue, t.docs, t.phases;
    }

    method ClaimTheReport(w: nat) returns (claimed: bool)
      requires Grounded(View()) && At(View(), w, Started)
      modifies this
      ensures View() == ReportClaimed(old(View()), w) && Grounded(View())
      ensures
        var h := old(queue).workers[w];
        var e, doc := old(queue).entries[h.job.entry], old(docs)[h.payload.report];
        var owns := e.runKey == h.job.runKey && e.lease.Some? && e.lease.value.token == h.token;
        && (claimed <==> owns && !doc.report.status.Withdrawn? && doc.report.ai.status.AiPending?
                         && doc.report.ai.request == h.payload.request)
        && queue.entries ==
             (if owns then old(queue).entries[h.job.entry := e.(lease := Some(Q.Lease(h.token, queue.now)))]
              else old(queue).entries)
        && docs == (if claimed then old(docs)[h.payload.report := doc.(report := doc.report.(
                                                ai := doc.report.ai.(token := Some(h.token))))]
                    else old(docs))
    {
      ClaimKeeps(View(), w);
      var h := queue.workers[w];
      var e := queue.entries[h.job.entry];
      var doc := docs[h.payload.report];
      claimed := false;
      if e.runKey == h.job.runKey && e.lease.Some? && e.lease.value.token == h.token {
        queue := queue.(entries := queue.entries[h.job.entry := e.(lease := Some(Q.Lease(h.token, queue.now)))]);
        if !doc.report.status.Withdrawn? && doc.report.ai.status.AiPending?
           && doc.report.ai.request == h.payload.request {
          docs := docs[h.payload.report := doc.(report := doc.report.(ai := doc.report.ai.(token := Some(h.token))))];
          claimed := true;
        }
      }
      phases := phases[w := if claimed then ReportHeld else Returned];
    }

    /** A step of the program that only moves the worker on. */
    method Stand(w: nat, p: Phase, ghost a: Action, ghost g: Given) returns (ghost trace: seq<Action>)
      requires Grounded(View()) && OnlyThinks(a) && a.worker == w && Holds(View(), w) && p == PhaseAfter(View(), w, a)
      requires NextStep(phases[w], w, g) == Some(a)
      modifies this`phases
      ensures View() == Moved(old(View()), w, p) && Grounded(View())
      ensures Leads(old(View()), trace, View(), w, g)
    {
      ThinkingKeeps(View(), a);
      ThinkingLeads(View(), a, p, w, g);
      trace := [a];
      phases := phases[w := p];
    }

    /** Reads the report again: is it still waiting for this request, under this worker's claim? */
    method Load(w: nat, g: Given) returns (current: bool, ghost trace: seq<Action>)
      requires Grounded(View()) && Classifies(View(), w)
      requires if phases[w].ReportHeld? then !g.fails(FirstReading)
        else phases[w].Current? && !g.fails(CategoryReading) && g.photo.None? && !g.fails(SecondReading)
      modifies this`phases
      ensures current <==> IsCurrentPending(old(View()), w)
      ensures View() == Moved(old(View()), w,
        if !current then Returned
        else if old(phases)[w].ReportHeld? then Current
        else Ready(ReportOf(old(View()), w), g.categories))
      ensures Grounded(View()) && Leads(old(View()), trace, View(), w, g)
    {
      LoadIs(View(), w, g.categories);
      var h := queue.workers[w];
      var report := docs[h.payload.report].report;
      current := !report.status.Withdrawn? && report.ai.status.AiPending? && report.ai.request == h.payload.request
                 && report.ai.token == Some(h.token);
      if phases[w].ReportHeld? {
        trace := Stand(w, if current then Current else Returned, Action.Load(w), g);
      } else {
        trace := Stand(w, if current then Ready(report, g.categories) else Returned, LoadAgain(w, g.categories), g);
      }
    }

    /** The update, assembled branch by branch from the reading the worker made. */
    method DecideClassification(seen: R.Report, answer: R.Answer, categories: seq<R.Category>, threshold: real)
      returns (decision: Option<R.Classification>)
      ensures decision.None? <==> !E.Names(categories, answer.category) && !E.Names(categories, "Other")
      ensures decision.Some? <==> R.ChosenCategory(categories, answer).Some?
      ensures decision.Some? ==>
        decision.value == R.DecideClassification(seen, answer, R.ChosenCategory(categories, answer).value, threshold)
      ensures decision.Some? ==> forall c :: E.Means(categories, answer, c) ==>
        decision.value == R.Classification(
          answer,
          if E.ByPerson(seen.categorySource) then None else Some(c),
          E.Objects(seen, answer, c, threshold),
          if seen.prioritySource.StaffPriority? then None else Some(answer.priority))
    {
      E.ChosenIsMeant(categories, answer);
      var aiCategory := R.FindCategory(categories, answer.category);
      if aiCategory.None? {
        aiCategory := R.FindCategory(categories, R.FALLBACK_NAME);
      }
      if aiCategory.None? {
        return None;
      }
      var c := R.Classification(answer, None, None, None);
      if R.AiMaySet(seen.categorySource) {
        c := c.(category := aiCategory);
      } else if seen.categorySource.Citizen? {
        if aiCategory.value.id != seen.category && answer.confidence >= threshold {
          c := c.(disagreement := Some(R.Disagreement(aiCategory.value, answer.confidence)));
        }
      }
      if !seen.prioritySource.StaffPriority? {
        c := c.(priority := Some(answer.priority));
      }
      return Some(c);
    }

    method WriteResult(w: nat, c: R.Classification, ghost threshold: real) returns (matched: bool)
      requires Grounded(View()) && AnswerWritable(View(), w) && c == Decided(View(), w, threshold)
      modifies this
      ensures View() == ResultWritten(old(View()), w, c) && Grounded(View())
      ensures matched <==> ResultMatches(old(View()), w)
      ensures matched ==> FiledAsMeant(old(View()), View(), w, threshold)
    {
      WriteKeeps(View(), w, threshold);
      if ResultMatches(View(), w) { WrittenFiles(View(), w, threshold); }
      var h := queue.workers[w];
      var p := phases[w];
      var doc := docs[h.payload.report];
      matched := R.ClassificationMatches(p.seen, h.payload.request, doc.report);
      if matched {
        docs := docs[h.payload.report := doc.(report := R.ApplyClassification(c, doc.report),
                                              verdicts := doc.verdicts[h.payload.request := R.AiDone])];
        phases := phases[w := Returned];
      } else {
        phases := phases[w := Missed(p.seen, p.categories, p.answer, p.tries)];
      }
    }

    /** Looks at the report after a miss: the handler returns, or has a try left. */
    method LookAgain(w: nat, ghost g: Given) returns (current: bool, ghost trace: seq<Action>)
      requires Grounded(View()) && Classifies(View(), w)
      requires phases[w].Missed? && NextStep(phases[w], w, g) == Some(Reload(w))
      modifies this`phases
      ensures Grounded(View()) && Classifies(View(), w)
      ensures Leads(old(View()), trace, View(), w, g)
      ensures if current then Retries(View(), w, old(phases)[w]) else phases[w].Returned?
    {
      ReloadIs(View(), w);
      var h := queue.workers[w];
      var report := docs[h.payload.report].report;
      current := !report.status.Withdrawn? && report.ai.status.AiPending? && report.ai.request == h.payload.request
                 && report.ai.token == Some(h.token);
      trace := Stand(w, AfterReload(View(), w), Reload(w), g);
    }

    /** A database call fails: whatever the handler was doing, it throws. */
    method Break(w: nat, ghost g: Given) returns (ghost trace: seq<Action>)
      requires Grounded(View()) && Classifies(View(), w) && NextStep(phases[w], w, g) == Some(Breaks(w))
      modifies this`phases
      ensures View() == Moved(old(View()), w, Threw(INTERNAL, true)) && Grounded(View())
      ensures Leads(old(View()), trace, View(), w, g)
    {
      BreakIs(View(), w);
      trace := Stand(w, Threw(INTERNAL, true), Breaks(w), g);
    }

    /** There is no fallback category, so nothing to write. */
    method Give(w: nat, ghost g: Given) returns (ghost trace: seq<Action>)
      requires Grounded(View()) && Classifies(View(), w) && phases[w].Answered? && !AnswerWritable(View(), w)
      modifies this`phases
      ensures View() == Moved(old(View()), w, Threw(INTERNAL, true)) && Grounded(View())
      ensures Leads(old(View()), trace, View(), w, g)
    {
      NoFallbackLeads(View(), w, g);
      NoFallbackKeeps(View(), w, g.threshold);
      trace := [Action.WriteResult(w, g.threshold)];
      phases := phases[w := Threw(INTERNAL, true)];
    }

    /** One try: decide from the last reading, write, and on a miss look again. `None` asks for another try. */
    method TryOnce(w: nat, g: Given, tries: nat) returns (result: Option<Result>, ghost trace: seq<Action>)
      requires Grounded(View()) && Classifies(View(), w) && phases[w].Answered? && phases[w].tries == tries
      modifies this
      ensures Grounded(View()) && Classifies(View(), w) && queue.workers[w] == old(queue).workers[w]
      ensures Leads(old(View()), trace, View(), w, g)
      ensures result.None? ==> Retries(View(), w, old(phases)[w])
      ensures result.Some? ==>
        EndsSo(View(), w, result.value, old(phases)[w].categories, old(phases)[w].answer, g.threshold)
      ensures result == Some(Broke) ==> g.fails(Writing(tries)) || g.fails(LookingAgain(tries))
    {
      var decision := Decide(w, g.threshold);
      if decision.None? {
        trace := Give(w, g);
        return Some(NoFallback), trace;
      }
      if g.fails(Writing(tries)) {
        trace := Break(w, g);
        return Some(Broke), trace;
      }
      result, trace := WriteDecision(w, g, decision.value);
    }

    method Decide(w: nat, threshold: real) returns (decision: Option<R.Classification>)
      requires Classifies(View(), w) && phases[w].Answered?
      ensures decision.Some? <==> AnswerWritable(View(), w)
      ensures decision.Some? ==> decision.value == Decided(View(), w, threshold)
      ensures decision.None? ==>
        !E.Names(phases[w].categories, phases[w].answer.category) && !E.Names(phases[w].categories, "Other")
    {
      decision := DecideClassification(phases[w].seen, phases[w].answer, phases[w].categories, threshold);
    }

    method WriteDecision(w: nat, g: Given, c: R.Classification)
      returns (result: Option<Result>, ghost trace: seq<Action>)
      requires Grounded(View()) && AnswerWritable(View(), w) && c == Decided(View(), w, g.threshold)
      requires !g.fails(Writing(phases[w].tries))
      modifies this
      ensures Grounded(View()) && Classifies(View(), w) && queue.workers[w] == old(queue).workers[w]
      ensures Leads(old(View()), trace, View(), w, g)
      ensures result.None? ==> Retries(View(), w, old(phases)[w])
      ensures result.Some? ==>
        EndsSo(View(), w, result.value, old(phases)[w].categories, old(phases)[w].answer, g.threshold)
      ensures result == Some(Broke) ==> g.fails(LookingAgain(old(phases)[w].tries))
    {
      ghost var s := View();
      var matched;
      matched, trace := WriteStep(w, g, c);
      if matched {
        return Some(Written), trace;
      }
      ghost var t := View();
      ghost var more;
      result, more := AfterMiss(w, g);
      LeadsOn(s, trace, t, more, View(), w, g);
      trace := trace + more;
    }

    method WriteStep(w: nat, g: Given, c: R.Classification) returns (matched: bool, ghost trace: seq<Action>)
      requires Grounded(View()) && AnswerWritable(View(), w) && c == Decided(View(), w, g.threshold)
      requires !g.fails(Writing(phases[w].tries))
      modifies this
      ensures Grounded(View()) && Classifies(View(), w) && queue == old(queue)
      ensures Leads(old(View()), trace, View(), w, g)
      ensures var p := old(phases)[w];
        if matched then EndsSo(View(), w, Written, p.categories, p.answer, g.threshold)
        else phases[w] == Missed(p.seen, p.categories, p.answer, p.tries)
    {
      WriteLeads(View(), w, g);
      trace := [Action.WriteResult(w, g.threshold)];
      WrittenEnds(View(), w, g.threshold);
      matched := WriteResult(w, c, g.threshold);
    }

    /** The second look after a miss; others act before it, and before the next try. */
    method AfterMiss(w: nat, g: Given) returns (result: Option<Result>, ghost trace: seq<Action>)
      requires Grounded(View()) && Classifies(View(), w) && phases[w].Missed?
      modifies this
      ensures Grounded(View()) && Classifies(View(), w) && queue.workers[w] == old(queue).workers[w]
      ensures Leads(old(View()), trace, View(), w, g)
      ensures result.Some? ==> EndsMiss(View(), w, result.value)
      ensures result == Some(Broke) ==> g.fails(LookingAgain(old(phases)[w].tries))
      ensures result.None? ==> Retries(View(), w, old(phases)[w])
    {
      ghost var s := View();
      result, trace := LookAfterMiss(w, g);
      if result.None? {
        ghost var t := View();
        ghost var more := Others(w, g);
        LeadsOn(s, trace, t, more, View(), w, g);
        trace := trace + more;
      }
    }

    method LookAfterMiss(w: nat, g: Given) returns (result: Option<Result>, ghost trace: seq<Action>)
      requires Grounded(View()) && Classifies(View(), w) && phases[w].Missed?
      modifies this
      ensures Grounded(View()) && Classifies(View(), w) && queue.workers[w] == old(queue).workers[w]
      ensures Leads(old(View()), trace, View(), w, g)
      ensures result.Some? ==> EndsMiss(View(), w, result.value)
      ensures result == Some(Broke) ==> g.fails(LookingAgain(old(phases)[w].tries))
      ensures result.None? ==> Retries(View(), w, old(phases)[w])
    {
      ghost var s := View();
      trace := Others(w, g);
      ghost var t := View();
      ghost var more;
      result, more := LookNow(w, g);
      LeadsOn(s, trace, t, more, View(), w, g);
      trace := trace + more;
    }

    method LookNow(w: nat, g: Given) returns (result: Option<Result>, ghost trace: seq<Action>)
      requires Grounded(View()) && Classifies(View(), w) && phases[w].Missed?
      modifies this`phases
      ensures Grounded(View()) && Classifies(View(), w)
      ensures Leads(old(View()), trace, View(), w, g)
      ensures result.Some? ==> EndsMiss(View(), w, result.value)
      ensures result == Some(Broke) ==> g.fails(LookingAgain(old(phases)[w].tries))
      ensures result.None? ==> Retries(View(), w, old(phases)[w])
    {
      if g.fails(LookingAgain(phases[w].tries)) {
        trace := Break(w, g);
        return Some(Broke), trace;
      }
      var current;
      current, trace := LookAgain(w, g);
      if current {
        return None, trace;
      }
      NothingLeft(View(), w);
      return Some(Stale), trace;
    }

    /**
     The write loop. A written result is the request's verdict; the loop's bound is never reached, so the
     handler never gives up because the report kept changing.
     */
    method WriteLoop(w: nat, g: Given) returns (result: Result, ghost trace: seq<Action>)
      requires Grounded(View()) && Classifies(View(), w) && phases[w].Answered? && phases[w].tries == 0
      modifies this
      ensures Grounded(View()) && Classifies(View(), w) && queue.workers[w] == old(queue).workers[w]
      ensures Leads(old(View()), trace, View(), w, g)
      ensures EndsSo(View(), w, result, old(phases)[w].categories, old(phases)[w].answer, g.threshold)
      ensures result.Broke? ==> FailsAtTry(g)
    {
      ghost var s := View();
      trace := [];
      var tries := 0;
      while tries < WRITE_TRIES
        invariant Grounded(View()) && Classifies(View(), w) && queue.workers[w] == old(queue).workers[w]
        invariant Leads(s, trace, View(), w, g)
        invariant tries < WRITE_TRIES && phases[w].Answered? && phases[w].tries == tries
        invariant phases[w].answer == old(phases)[w].answer && phases[w].categories == old(phases)[w].categories
      {
        ghost var t := View();
        var tried;
        ghost var more;
        tried, more := TryOnce(w, g, tries);
        LeadsOn(s, trace, t, more, View(), w, g);
        trace := trace + more;
        if tried.Some? {
          return tried.value, trace;
        }
        tries := tries + 1;
      }
      assert false;
    }

    /**
     One run of the handler, from the claim of the report to its return or throw, given what the photo
     store, the category list, the provider and the database answer. Its own steps in the trace are the
     ones its program makes where it stands.
     */
    method RunHandler(w: nat, g: Given) returns (result: Result, ghost trace: seq<Action>)
      requires Grounded(View()) && At(View(), w, Started)
      modifies this
      ensures Grounded(View()) && Classifies(View(), w) && queue.workers[w] == old(queue).workers[w]
      ensures View() == Run(old(View()), trace) && Leads(old(View()), trace, View(), w, g)
      ensures RanSo(View(), w, g, result)
    {
      ghost var s := View();
      ClaimLeads(s, w, g);
      trace := [ClaimReport(w)];
      var claimed := ClaimTheReport(w);
      if !claimed {
        NothingLeft(View(), w);
        LeadsThere(s, trace, View(), w, g);
        return Stale, trace;
      }
      ghost var t := View();
      ghost var more;
      result, more := AfterClaim(w, g);
      LeadsOn(s, trace, t, more, View(), w, g);
      trace := trace + more;
      LeadsThere(s, trace, View(), w, g);
    }

    /** The first reading, and what follows it. */
    method AfterClaim(w: nat, g: Given) returns (result: Result, ghost trace: seq<Action>)
      requires Grounded(View()) && Classifies(View(), w) && phases[w].ReportHeld?
      modifies this
      ensures Grounded(View()) && Classifies(View(), w) && queue.workers[w] == old(queue).workers[w]
      ensures Leads(old(View()), trace, View(), w, g) && RanSo(View(), w, g, result)
    {
      ghost var s := View();
      var ended;
      ended, trace := FirstLook(w, g);
      if ended.Some? {
        return ended.value, trace;
      }
      ghost var t := View();
      ghost var more;
      result, more := AfterFirstLook(w, g);
      LeadsOn(s, trace, t, more, View(), w, g);
      trace := trace + more;
    }

    method FirstLook(w: nat, g: Given) returns (ended: Option<Result>, ghost trace: seq<Action>)
      requires Grounded(View()) && Classifies(View(), w) && phases[w].ReportHeld?
      modifies this
      ensures Grounded(View()) && Classifies(View(), w) && queue.workers[w] == old(queue).workers[w]
      ensures Leads(old(View()), trace, View(), w, g)
      ensures if ended.None? then phases[w].Current? else RanSo(View(), w, g, ended.value)
    {
      ghost var s := View();
      trace := Others(w, g);
      ghost var t := View();
      ghost var more;
      ended, more := LoadOnce(w, g);
      LeadsOn(s, trace, t, more, View(), w, g);
      trace := trace + more;
    }

    method LoadOnce(w: nat, g: Given) returns (ended: Option<Result>, ghost trace: seq<Action>)
      requires Grounded(View()) && Classifies(View(), w) && phases[w].ReportHeld?
      modifies this`phases
      ensures Grounded(View()) && Classifies(View(), w)
      ensures Leads(old(View()), trace, View(), w, g)
      ensures if ended.None? then phases[w].Current? else RanSo(View(), w, g, ended.value)
    {
      if g.fails(FirstReading) {
        trace := Break(w, g);
        return Some(Broke), trace;
      }
      var current;
      current, trace := Load(w, g);
      if current {
        return None, trace;
      }
      NothingLeft(View(), w);
      return Some(Stale), trace;
    }

    /** The second reading, and what follows it. */
    method AfterFirstLook(w: nat, g: Given) returns (result: Result, ghost trace: seq<Action>)
      requires Grounded(View()) && Classifies(View(), w) && phases[w].Current?
      modifies this
      ensures Grounded(View()) && Classifies(View(), w) && queue.workers[w] == old(queue).workers[w]
      ensures Leads(old(View()), trace, View(), w, g) && RanSo(View(), w, g, result)
    {
      ghost var s := View();
      var ended;
      ended, trace := SecondLook(w, g);
      if ended.Some? {
        return ended.value, trace;
      }
      ghost var t := View();
      ghost var more;
      result, more := AfterSecondLook(w, g);
      LeadsOn(s, trace, t, more, View(), w, g);
      trace := trace + more;
    }

    method SecondLook(w: nat, g: Given) returns (ended: Option<Result>, ghost trace: seq<Action>)
      requires Grounded(View()) && Classifies(View(), w) && phases[w].Current?
      modifies this
      ensures Grounded(View()) && Classifies(View(), w) && queue.workers[w] == old(queue).workers[w]
      ensures Leads(old(View()), trace, View(), w, g)
      ensures if ended.None? then phases[w].Ready? && phases[w].categories == g.categories && g.photo.None?
        else RanSo(View(), w, g, ended.value)
    {
      ghost var s := View();
      trace := Others(w, g);
      ghost var t := View();
      ghost var more;
      ended, more := LoadTwice(w, g);
      LeadsOn(s, trace, t, more, View(), w, g);
      trace := trace + more;
    }

    /** The categories and the photo are read, and then the report once more. */
    method LoadTwice(w: nat, g: Given) returns (ended: Option<Result>, ghost trace: seq<Action>)
      requires Grounded(View()) && Classifies(View(), w) && phases[w].Current?
      modifies this`phases
      ensures Grounded(View()) && Classifies(View(), w)
      ensures Leads(old(View()), trace, View(), w, g)
      ensures if ended.None? then phases[w].Ready? && phases[w].categories == g.categories && g.photo.None?
        else RanSo(View(), w, g, ended.value)
    {
      if g.fails(CategoryReading) {
        trace := Break(w, g);
        return Some(Broke), trace;
      }
      if g.photo.Some? {
        var failed;
        failed, trace := FailAt(w, g.photo.value, g);
        return Some(failed), trace;
      }
      if g.fails(SecondReading) {
        trace := Break(w, g);
        return Some(Broke), trace;
      }
      var current;
      current, trace := Load(w, g);
      if current {
        return None, trace;
      }
      NothingLeft(View(), w);
      return Some(Stale), trace;
    }

    /** Others act while the provider thinks. */
    method AfterSecondLook(w: nat, g: Given) returns (result: Result, ghost trace: seq<Action>)
      requires Grounded(View()) && Classifies(View(), w) && g.photo.None?
      requires phases[w].Ready? && phases[w].categories == g.categories
      modifies this
      ensures Grounded(View()) && Classifies(View(), w) && queue.workers[w] == old(queue).workers[w]
      ensures Leads(old(View()), trace, View(), w, g) && RanSo(View(), w, g, result)
    {
      ghost var s := View();
      trace := Others(w, g);
      ghost var t := View();
      ghost var more;
      result, more := TakeReply(w, g);
      LeadsOn(s, trace, t, more, View(), w, g);
      trace := trace + more;
    }

    /** The provider's reply arrives; an answer is then written. */
    method TakeReply(w: nat, g: Given) returns (result: Result, ghost trace: seq<Action>)
      requires Grounded(View()) && Classifies(View(), w) && g.photo.None?
      requires phases[w].Ready? && phases[w].categories == g.categories
      modifies this
      ensures Grounded(View()) && Classifies(View(), w) && queue.workers[w] == old(queue).workers[w]
      ensures Leads(old(View()), trace, View(), w, g) && RanSo(View(), w, g, result)
    {
      if g.reply.Fails? {
        result, trace := FailAt(w, g.reply.trouble, g);
        return;
      }
      ghost var s := View();
      trace := TakeAnswer(w, g);
      ghost var t := View();
      ghost var more;
      result, more := WriteLoop(w, g);
      LeadsOn(s, trace, t, more, View(), w, g);
      trace := trace + more;
    }

    /** The answer is in; others act before it is written. */
    method TakeAnswer(w: nat, g: Given) returns (ghost trace: seq<Action>)
      requires Grounded(View()) && Classifies(View(), w) && phases[w].Ready? && g.reply.Answers?
      modifies this
      ensures Grounded(View()) && Classifies(View(), w) && queue.workers[w] == old(queue).workers[w]
      ensures phases[w] == Answered(old(phases)[w].seen, old(phases)[w].categories, g.reply.answer, 0)
      ensures Leads(old(View()), trace, View(), w, g)
    {
      ghost var s := View();
      var answered := Answered(phases[w].seen, phases[w].categories, g.reply.answer, 0);
      AnswerIs(s, w, g.reply.answer);
      trace := Stand(w, answered, Action.Reply(w, g.reply.answer), g);
      ghost var t := View();
      ghost var more := Others(w, g);
      LeadsOn(s, trace, t, more, View(), w, g);
      trace := trace + more;
    }

    method FailAt(w: nat, trouble: Trouble, ghost g: Given) returns (result: Result, ghost trace: seq<Action>)
      requires Grounded(View()) && Classifies(View(), w) && (phases[w].Current? || phases[w].Ready?)
      requires NextStep(phases[w], w, g) == Some(Throw(w, trouble.code, trouble.retryAfter))
      modifies this`phases
      ensures Grounded(View()) && Leads(old(View()), trace, View(), w, g)
      ensures result.ProviderFailed? && View() == Moved(old(View()), w, Threw(result.failure, true))
      ensures FailsFor(result.failure, trouble, old(queue).workers[w].lastError)
    {
      var failure := FailureOf(trouble, queue.workers[w].lastError);
      FailureFits(trouble, queue.workers[w].lastError);
      ThrownIs(View(), w, trouble);
      trace := Stand(w, Threw(failure, true), Throw(w, trouble.code, trouble.retryAfter), g);
      return ProviderFailed(failure), trace;
    }

    // ----- recording -----

    /** Two guarded updates: the first also turns a provisional category into the fallback. */
    method RecordClassificationFailure(r: nat, request: nat, held: Option<nat>, code: Code)
      requires r < |docs|
      modifies this`docs
      ensures docs == old(docs)[r := R.Step(old(docs)[r], R.GiveUp(request, held, code, queue.now))]
      ensures
        var was := old(docs)[r].report;
        if !was.status.Withdrawn? && was.ai.status.AiPending? && was.ai.request == request
           && (held.Some? ==> was.ai.token == held)
        then E.FailureLeaves(was, code, queue.now, docs[r].report) && docs[r].pending == old(docs)[r].pending
             && docs[r].verdicts == old(docs)[r].verdicts[request := R.AiFailed]
        else docs == old(docs)
    {
      var failed := R.AiFailure(code, queue.now);
      var d := docs[r];
      if R.GivesUp(d.report, request, held) && d.report.categorySource.Provisional? {
        docs := docs[r := R.Doc(
          d.report.(categorySource := R.Fallback,
                    ai := d.report.ai.(status := R.AiFailed, failure := Some(failed), token := None)),
          d.pending, d.verdicts[request := R.AiFailed])];
      }
      d := docs[r];
      if R.GivesUp(d.report, request, held) {
        docs := docs[r := R.Doc(
          d.report.(ai := d.report.ai.(status := R.AiFailed, failure := Some(failed), token := None)),
          d.pending, d.verdicts[request := R.AiFailed])];
      }
    }

    /** The executor's record; a final failure and the report's failure are one transaction. */
    method FinishRun(w: nat) returns (recorded: bool)
      requires Grounded(View()) && Classifies(View(), w) && (phases[w].Returned? || phases[w].Threw?)
      modifies this
      ensures View() == Step(old(View()), Finish(w)) && Grounded(View())
      ensures FinishedAs(old(View()), w, recorded, View())
    {
      FinishKeeps(View(), w);
      if phases[w].Returned? { ReturnFinishes(View(), w); } else { ThrowFinishes(View(), w); }
      var h := queue.workers[w];
      var e := queue.entries[h.job.entry];
      var phase := phases[w];
      recorded := e.runKey == h.job.runKey && e.attempts + 1 == h.job.number
        && e.lease.Some? && e.lease.value.token == h.token;
      if phase.Returned? {
        ReturnedIs(View(), w);
        queue := Q.RecordedDone(queue, w);
      } else {
        ThrewIs(View(), w);
        var final := !phase.failure.retryable || h.job.number >= Q.MaxAttempts(e.queue);
        queue := Q.RecordedFailure(queue, w, phase.failure);
        if recorded && final {
          RecordClassificationFailure(h.payload.report, h.payload.request, Some(h.token), phase.failure.code);
        }
      }
      phases := phases - {w};
    }

    // ----- requests -----

    /** Anyone, for any number of steps. */
    method Meanwhile() returns (ghost trace: seq<Action>)
      requires Grounded(View())
      modifies this
      ensures Grounded(View()) && View() == Run(old(View()), trace)
    {
      var acts: seq<Action> := *;
      trace := acts;
      var t := Run(View(), acts);
      RunGrounds(View(), acts);
      queue, docs, phases := t.queue, t.docs, t.phases;
    }

    /** Dismisses the report's failed jobs, one by one, all but the one kept. */
    method DismissReplaced(r: nat, keep: Option<nat>)
      modifies this`queue
      ensures queue == Q.DismissedReplaced(old(queue), r, keep)
      ensures queue == old(queue).(entries := queue.entries) && |queue.entries| == |old(queue).entries|
      ensures forall id :: 0 <= id < |queue.entries| ==>
        var was := old(queue).entries[id];
        queue.entries[id] ==
          if was.state.Failed? && was.payload.Classify? && was.payload.report == r && keep != Some(id)
          then was.(state := Q.Dismissed) else was
    {
      var entries := queue.entries;
      for id := 0 to |entries|
        invariant |entries| == |queue.entries|
        invariant forall j :: 0 <= j < |entries| ==>
          entries[j] ==
            if j < id && Q.Replaced(queue.entries[j], j, r, keep) then queue.entries[j].(state := Q.Dismissed)
            else queue.entries[j]
      {
        if entries[id].state.Failed? && entries[id].payload.Classify? && entries[id].payload.report == r
           && keep != Some(id) {
          entries := entries[id := entries[id].(state := Q.Dismissed)];
        }
      }
      assert entries == Q.DismissedReplaced(queue, r, keep).entries;
      queue := queue.(entries := entries);
    }

    /** The report's next request and its job, in the caller's transaction. */
    method AskAgain(r: nat)
      requires r < |docs|
      modifies this
      ensures View() == Asked(old(View()), r)
      ensures AsksAgain(old(View()), View(), r)
    {
      var doc := docs[r];
      docs := docs[r := doc.(report := doc.report.(ai := doc.report.ai.(
        status := R.AiPending, request := doc.report.ai.request + 1, token := None,
        answer := None, disagreement := None, failure := None)))];
      DismissReplaced(r, None);
      queue := queue.(entries := queue.entries + [Q.NewEntry(Q.Ai, Q.Classify(r, docs[r].report.ai.request))]);
    }

    /** An administrator asks for another classification. */
    method Reclassify(r: nat) returns (asked: bool)
      requires Grounded(View()) && r < |docs|
      modifies this
      ensures Grounded(View())
      ensures asked <==> !old(docs)[r].report.status.Withdrawn? && !old(docs)[r].report.ai.status.AiPending?
      ensures if asked then AsksAgain(old(View()), View(), r) else View() == old(View())
    {
      var report := docs[r].report;
      asked := !report.status.Withdrawn? && !report.ai.status.AiPending?;
      if asked {
        RerunKeeps(View(), r);
        AskAgain(r);
      }
    }

    /** An administrator retries a failed classification, if its request is still the report's latest. */
    method RetryClassification(id: nat, request: nat) returns (retried: bool)
      requires Grounded(View()) && id < |queue.entries| && queue.entries[id].payload.Classify?
      requires queue.entries[id].payload.report < |docs|
      modifies this
      ensures Grounded(View()) && retried == MayRetry(old(View()), id, request)
      ensures View() == if retried then RetriedJob(old(View()), id, request) else old(View())
      ensures
        var e := old(queue).entries[id];
        var report := old(docs)[e.payload.report].report;
        && (retried <==> e.state.Failed? && !report.status.Withdrawn? && report.ai.request == request)
        && (retried ==> RetriesOn(old(View()), View(), id))
    {
      var e := queue.entries[id];
      var r := e.payload.report;
      var doc := docs[r];
      retried := !doc.report.status.Withdrawn? && doc.report.ai.request == request && e.state.Failed?;
      if !retried {
        return;
      }
      RetryKeeps(View(), id, request);
      AskOnSameEntry(id, r, request);
    }

    method AskOnSameEntry(id: nat, r: nat, request: nat)
      requires id < |queue.entries| && queue.entries[id].state.Failed? && queue.entries[id].payload.Classify?
      requires queue.entries[id].payload.report == r < |docs| && docs[r].report.ai.request == request
      requires !docs[r].report.status.Withdrawn?
      modifies this
      ensures View() == RetriedJob(old(View()), id, request)
    {
      var doc := docs[r];
      docs := docs[r := doc.(report := doc.report.(ai := R.Requested(doc.report.ai)))];
      ReuseEntry(id, r, docs[r].report.ai.request);
    }

    /** The failed entry starts again under a new run key, for the new request; the report's other failed jobs go. */
    method ReuseEntry(id: nat, r: nat, request: nat)
      requires id < |queue.entries| && queue.entries[id].state.Failed?
      modifies this`queue
      ensures queue == Q.Retried(Q.DismissedReplaced(old(queue), r, Some(id)), id, Q.Classify(r, request))
    {
      DismissReplaced(r, Some(id));
      var e := queue.entries[id];
      queue := queue.(entries := queue.entries[id := e.(
        payload := Q.Classify(r, request), state := Q.Pending, attempts := 0, runKey := e.runKey + 1,
        lastError := None, queuedAt := None, notBefore := None)]);
    }

    /** The reports whose last request failed for a passing reason before that time, at most `limit` of them. */
    method FindCandidates(limit: nat, before: nat) returns (candidates: seq<Candidate>)
      ensures Chosen(docs, candidates, limit, before, |docs|)
    {
      candidates := [];
      for r := 0 to |docs|
        invariant Chosen(docs, candidates, limit, before, r)
      {
        var report := docs[r].report;
        if |candidates| < limit && !report.status.Withdrawn? && report.ai.status.AiFailed? && report.ai.failure.Some?
           && SweepRetries(report.ai.failure.value.code) && report.ai.failure.value.at < before {
          candidates := candidates + [Candidate(r, report.ai.request, report.ai.failure.value)];
        }
      }
    }

    /** One candidate, as its transaction finds it. */
    method SweepOne(c: Candidate, before: nat) returns (asked: bool)
      requires Grounded(View()) && c.report < |docs| && FailedOrPast(docs[c.report].report, c)
      requires SweepRetries(c.failure.code) && c.failure.at < before
      modifies this
      ensures Grounded(View()) && asked == StillFailed(old(docs)[c.report].report, c.request, before)
      ensures if asked then AsksAgain(old(View()), View(), c.report) else View() == old(View())
      ensures View() == Step(old(View()), Sweep(c.report, c.request, before))
      ensures PastRequest(docs[c.report].report, c.request)
    {
      var report := docs[c.report].report;
      asked := !report.status.Withdrawn? && report.ai.status.AiFailed? && report.ai.request == c.request
               && report.ai.failure.Some? && SweepRetries(report.ai.failure.value.code)
               && report.ai.failure.value.at < before;
      if asked {
        SweepIs(View(), c.report, c.request, before);
        SweepKeeps(View(), c.report, c.request, before);
        AskAgain(c.report);
      } else {
        IdleSweep(View(), c.report, c.request, before);
      }
    }

    /** Anyone's steps, and then the next candidate's transaction. */
    method SweepNext(found: seq<Candidate>, n: nat, before: nat) returns (asked: bool, ghost leg: seq<Action>)
      requires Grounded(View()) && n < |found| && AllFollowed(docs, found, n) && AllRetryable(found, before)
      modifies this
      ensures Grounded(View()) && AllFollowed(docs, found, n + 1)
      ensures SweptNext(old(View()), leg, found[n], before, View(), asked)
    {
      ghost var s := View();
      leg := Meanwhile();
      FollowedLater(s, leg, found, n);
      ghost var t := View();
      asked := SweepOne(found[n], before);
      OneMoreFollowed(t, View(), found, n);
    }

    /**
     The daily sweep. It finds the reports that qualify now, all of them if they are fewer than the limit, and
     then makes one sweep step for each, with anything before it. When it ends each has been withdrawn or has
     a newer request; it reports how many of the newer requests are its own.
     */
    method SweepFailed(limit: nat)
      returns (requeued: nat, ghost candidates: seq<Candidate>, ghost legs: seq<seq<Action>>)
      requires Grounded(View())
      modifies this
      ensures Grounded(View()) && requeued <= |legs| == |candidates|
      ensures Chosen(old(docs), candidates, limit, DayBefore(old(queue).now), |old(docs)|)
      ensures Swept(old(View()), candidates, legs, DayBefore(old(queue).now), View(), requeued)
      ensures forall c :: c in candidates ==> c.report < |docs| && PastRequest(docs[c.report].report, c.request)
    {
      ghost var s := View();
      var before := DayBefore(queue.now);
      var found := FindCandidates(limit, before);
      candidates, legs := found, [];
      AllFound(docs, found, limit, before);
      requeued := 0;
      for i := 0 to |found|
        invariant Grounded(View()) && |legs| == i
        invariant Swept(s, found, legs, before, View(), requeued)
        invariant AllFollowed(docs, found, i) && AllRetryable(found, before)
      {
        ghost var t := View();
        var asked;
        ghost var leg;
        asked, leg := SweepNext(found, i, before);
        OneMoreSweep(s, found, legs, before, t, requeued, leg, View(), asked);
        legs := legs + [leg];
        requeued := requeued + if asked then 1 else 0;
      }
    }
  }

  function DayBefore(now: nat): (t: nat)
    ensures t == Max(0, now - 86_400_000)
  {
    if now >= SweepLease.DAY_MS then now - SweepLease.DAY_MS else 0
  }

  /** A handler that returned leaves nothing waiting under its claim. */
  lemma NothingLeft(s: System, w: nat)
    requires PhasesOk(s) && Classifies(s, w) && s.phases[w].Returned?
    ensures !(Owns(s, w) && R.CurrentPending(ReportOf(s, w), RequestOf(s, w)))
  {
    assert PhaseOk(s, w);
  }
}
