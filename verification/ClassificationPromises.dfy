/**
 The promises of the classification protocol: a waiting report has exactly one unfinished job in every
 run whose workers know the job type and do not outlive a failed claim transaction; in every run at all,
 claims on a report only move forward and three write tries suffice; and what exactly those two faults
 do to the coupling of reports and jobs.
 */
module ClassificationPromises {
  import opened Basics
  import Q = JobQueue
  import QS = JobQueueSafety
  import R = Reports
  import RS = ReportSafety
  import opened Classification
  import opened ClassificationSafety
  import E = ClassificationEffects

  lemma Reached(acts: seq<Action>)
    ensures Grounded(Run(Start, acts))
    ensures NeverStrands(Start, acts) ==> Inv(Run(Start, acts))
  {
    StartInv();
    RunGrounds(Start, acts);
    if NeverStrands(Start, acts) { RunKeeps(Start, acts); }
  }

  lemma {:induction false} RunComposes(s: System, first: seq<Action>, second: seq<Action>)
    ensures Run(s, first + second) == Run(Run(s, first), second)
    decreases |first|
  {
    if first == [] {
      assert first + second == second;
    } else {
      assert (first + second)[1..] == first[1..] + second;
      RunComposes(Step(s, first[0]), first[1..], second);
    }
  }

  // ----- reports and jobs -----

  /** Neither a refusal of an unknown type nor a claim transaction that throws in a worker that lives on. */
  predicate Tidy(a: Action) {
    !a.RefuseType? && !a.ClaimThrows?
  }

  predicate AllTidy(acts: seq<Action>) {
    forall i :: 0 <= i < |acts| ==> Tidy(acts[i])
  }

  /** Every worker that threw had got past its claim of the report. */
  predicate ThrewClaimed(s: System) {
    forall w :: w in s.phases && s.phases[w].Threw? ==> s.phases[w].claimed
  }

  lemma StepKeepsThrewClaimed(s: System, a: Action)
    requires ThrewClaimed(s) && !a.ClaimThrows?
    ensures ThrewClaimed(Step(s, a))
  {
    forall w | w in PhasesAfter(s, a) && PhasesAfter(s, a)[w].Threw? ensures PhasesAfter(s, a)[w].claimed {
      if Actor(a) == Some(w) { OwnThrowIsClaimed(s, a, w); } else { OtherPhasesStay(s, a, w); }
    }
  }

  lemma OwnThrowIsClaimed(s: System, a: Action, w: nat)
    requires ThrewClaimed(s) && !a.ClaimThrows? && Actor(a) == Some(w)
    requires w in PhasesAfter(s, a) && PhasesAfter(s, a)[w].Threw?
    ensures PhasesAfter(s, a)[w].claimed
  {
  }

  /** A worker past its claim carries the report's token for as long as its record counts. */
  lemma StrandingFinishIsUnclaimed(s: System, w: nat)
    requires PhasesOk(s) && Strands(s, Finish(w))
    ensures w in s.phases && s.phases[w].Threw? && !s.phases[w].claimed
  {
    assert PhaseOk(s, w);
  }

  lemma {:induction false} TidyRunStrandsNothing(s: System, acts: seq<Action>)
    requires Grounded(s) && ThrewClaimed(s) && AllTidy(acts)
    ensures NeverStrands(s, acts)
    decreases |acts|
  {
    if acts != [] {
      var a := acts[0];
      if Strands(s, a) { StrandingFinishIsUnclaimed(s, a.worker); }
      StepKeepsThrewClaimed(s, a);
      StepGrounds(s, a);
      TidyRunStrandsNothing(Step(s, a), acts[1..]);
    }
  }

  /** A run strands a report only if a worker does not know a type or outlives its failed claim transaction. */
  lemma TidyNeverStrands(acts: seq<Action>)
    requires AllTidy(acts)
    ensures NeverStrands(Start, acts)
  {
    StartInv();
    TidyRunStrandsNothing(Start, acts);
  }

  /** Only a worker whose claim transaction threw can strand a report by the record of its last failure. */
  lemma OnlyUnclaimedThrowsStrand(acts: seq<Action>, w: nat)
    requires Strands(Run(Start, acts), Finish(w))
    ensures w in Run(Start, acts).phases
    ensures Run(Start, acts).phases[w].Threw? && !Run(Start, acts).phases[w].claimed
    ensures ClaimThrows(w) in acts
  {
    Reached(acts);
    StrandingFinishIsUnclaimed(Run(Start, acts), w);
    UnclaimedThrewAtItsClaim(Start, acts, w);
  }

  predicate UnclaimedAt(s: System, w: nat) {
    w in s.phases && s.phases[w].Threw? && !s.phases[w].claimed
  }

  lemma UnclaimedByClaimThrows(s: System, a: Action, w: nat)
    requires UnclaimedAt(Step(s, a), w)
    ensures UnclaimedAt(s, w) || a == ClaimThrows(w)
  {
    if Actor(a) != Some(w) { OtherPhasesStay(s, a, w); }
  }

  lemma {:induction false} UnclaimedThrewAtItsClaim(s: System, acts: seq<Action>, w: nat)
    requires UnclaimedAt(Run(s, acts), w)
    ensures UnclaimedAt(s, w) || ClaimThrows(w) in acts
    decreases |acts|
  {
    if acts != [] {
      UnclaimedThrewAtItsClaim(Step(s, acts[0]), acts[1..], w);
      if UnclaimedAt(Step(s, acts[0]), w) { UnclaimedByClaimThrows(s, acts[0], w); }
    }
  }

  /**
   While every worker knows the type, and a claim transaction commits or its worker dies: a report that is
   not withdrawn and waits for its latest request has exactly one job for that request, and the job is
   unfinished; so no finished job carries it.
   */
  lemma WaitingReportHasItsJob(acts: seq<Action>, r: nat) returns (id: nat)
    requires AllTidy(acts) && Waits(Run(Start, acts), r)
    ensures
      var s := Run(Start, acts);
      var request := s.docs[r].report.ai.request;
      Live(s, id, r, request) && forall j: nat :: Carries(s, j, r, request) ==> j == id
  {
    TidyNeverStrands(acts);
    id := UnstrandedReportHasItsJob(acts, r);
  }

  /** The same in every run that strands no report, whatever else its workers refuse or throw. */
  lemma UnstrandedReportHasItsJob(acts: seq<Action>, r: nat) returns (id: nat)
    requires NeverStrands(Start, acts) && Waits(Run(Start, acts), r)
    ensures
      var s := Run(Start, acts);
      var request := s.docs[r].report.ai.request;
      Live(s, id, r, request) && forall j: nat :: Carries(s, j, r, request) ==> j == id
  {
    Reached(acts);
    var s := Run(Start, acts);
    id :| Live(s, id, r, s.docs[r].report.ai.request);
  }

  /** Every report of a run is a report of its own, filed and then written by report steps alone. */
  lemma {:induction false} ReportHistory(s: System, acts: seq<Action>, r: nat)
    returns (filed: R.Doc, trace: seq<R.Action>)
    requires |s.docs| <= r < |Run(s, acts).docs|
    ensures R.IsFiled(filed) && Run(s, acts).docs[r] == R.Run(filed, trace)
    decreases |acts|
  {
    assert acts != [];
    var t := Step(s, acts[0]);
    if r < |t.docs| {
      FiledAfter(s, acts[0], r);
      filed := t.docs[r];
      trace := DocTrace(t, acts[1..], r);
      RunIsDocRun(t, acts[1..], r);
    } else {
      filed, trace := ReportHistory(t, acts[1..], r);
    }
  }

  /** So whatever the queue and the workers do, each report explains itself. */
  lemma EveryReportExplained(acts: seq<Action>, r: nat)
    requires r < |Run(Start, acts).docs|
    ensures RS.Inv(Run(Start, acts).docs[r])
  {
    var filed, trace := ReportHistory(Start, acts, r);
    RS.FiledInv(filed);
    RS.RunKeeps(filed, trace);
  }

  /** And the queue's own promises hold, whatever the handlers do. */
  lemma QueuePromisesHold(acts: seq<Action>)
    ensures Run(Start, acts).queue == Q.Run(Q.Empty, QueueTrace(Start, acts))
    ensures QS.Inv(Run(Start, acts).queue)
  {
    RunIsQueueRun(Start, acts);
    QS.InitInv();
    QS.RunKeeps(Q.Empty, QueueTrace(Start, acts));
  }

  /** A step that gives a report's request its final classification is the first to do so. */
  lemma OneVerdictPerRequest(acts: seq<Action>, a: Action, r: nat)
    requires r < |Run(Start, acts).docs| && DocActs(Run(Start, acts), a, r) != []
    requires RS.GivesVerdict(Run(Start, acts).docs[r], DocActs(Run(Start, acts), a, r)[0])
    ensures
      var d := Run(Start, acts).docs[r];
      var request := d.report.ai.request;
      request !in d.verdicts && request in Step(Run(Start, acts), a).docs[r].verdicts
  {
    var s := Run(Start, acts);
    EveryReportExplained(acts, r);
    StepIsDocRun(s, a, r);
    FirstVerdict(s.docs[r], DocActs(s, a, r));
  }

  lemma FirstVerdict(d: R.Doc, acts: seq<R.Action>)
    requires RS.VerdictsOk(d) && |acts| == 1 && RS.GivesVerdict(d, acts[0])
    ensures d.report.ai.request !in d.verdicts && d.report.ai.request in R.Run(d, acts).verdicts
  {
    assert R.Run(d, acts) == R.Step(d, acts[0]);
  }

  // ----- three tries suffice -----

  /** When a result misses, the reload either finds the request gone or has a try left. */
  lemma WriteLoopNeverGivesUp(acts: seq<Action>, w: nat)
    requires Classifies(Run(Start, acts), w) && Run(Start, acts).phases[w].Missed?
    ensures
      var s := Run(Start, acts);
      IsCurrentPending(s, w) ==>
        AfterReload(s, w).Answered? && Openness(ReportOf(s, w)) < Openness(s.phases[w].seen)
  {
    Reached(acts);
    assert PhaseOk(Run(Start, acts), w);
    TryIsLeft(Run(Start, acts), w);
  }

  lemma TryIsLeft(s: System, w: nat)
    requires PhaseOk(s, w) && Classifies(s, w) && s.phases[w].Missed?
    ensures IsCurrentPending(s, w) ==>
      AfterReload(s, w).Answered? && Openness(ReportOf(s, w)) < Openness(s.phases[w].seen)
  {
  }

  /** A result that matches is the decision made on the report as it stands at the write. */
  lemma ResultIsAtomicDecision(acts: seq<Action>, w: nat, threshold: real)
    requires AnswerWritable(Run(Start, acts), w) && ResultMatches(Run(Start, acts), w)
    ensures
      var s := Run(Start, acts);
      var p, rep := s.phases[w], ReportOf(s, w);
      var chosen := R.ChosenCategory(p.categories, p.answer).value;
      Step(s, WriteResult(w, threshold)).docs[s.queue.workers[w].payload.report].report
        == R.ApplyClassification(R.DecideClassification(rep, p.answer, chosen, threshold), rep)
  {
    Reached(acts);
    assert PhaseOk(Run(Start, acts), w);
    ResultDecides(Run(Start, acts), w, threshold);
  }

  /** A result that matches files the report as its answer means, and leaves alone what people chose. */
  ghost predicate FiledAsMeant(s: System, t: System, w: nat, threshold: real)
    requires AnswerWritable(s, w)
  {
    var p, r := s.phases[w], s.queue.workers[w].payload.report;
    && |t.docs| == |s.docs| && (forall i :: 0 <= i < |s.docs| && i != r ==> t.docs[i] == s.docs[i])
    && t.docs[r].verdicts == s.docs[r].verdicts[RequestOf(s, w) := R.AiDone]
    && exists c :: E.Means(p.categories, p.answer, c)
         && E.ResultLeaves(s.docs[r].report, p.answer, c, threshold, t.docs[r].report)
  }

  /** In every run, as long as the report was not overtaken since the worker read it. */
  lemma ResultFilesAsMeant(acts: seq<Action>, w: nat, threshold: real)
    requires AnswerWritable(Run(Start, acts), w) && ResultMatches(Run(Start, acts), w)
    ensures FiledAsMeant(Run(Start, acts), Step(Run(Start, acts), WriteResult(w, threshold)), w, threshold)
  {
    Reached(acts);
    assert PhaseOk(Run(Start, acts), w);
    ResultFiles(Run(Start, acts), w, threshold);
  }

  lemma ResultFiles(s: System, w: nat, threshold: real)
    requires PhaseOk(s, w) && AnswerWritable(s, w) && ResultMatches(s, w)
    ensures FiledAsMeant(s, Step(s, WriteResult(w, threshold)), w, threshold)
  {
    var p, rep := s.phases[w], ReportOf(s, w);
    var c := R.ChosenCategory(p.categories, p.answer).value;
    ResultDecides(s, w, threshold);
    E.ChosenIsMeant(p.categories, p.answer);
    E.DecisionLeaves(rep, p.answer, c, threshold);
    assert E.Means(p.categories, p.answer, c);
  }

  lemma ResultDecides(s: System, w: nat, threshold: real)
    requires PhaseOk(s, w) && AnswerWritable(s, w) && ResultMatches(s, w)
    ensures
      var p, rep := s.phases[w], ReportOf(s, w);
      var chosen := R.ChosenCategory(p.categories, p.answer).value;
      DocsAfter(s, WriteResult(w, threshold))[s.queue.workers[w].payload.report].report
        == R.ApplyClassification(R.DecideClassification(rep, p.answer, chosen, threshold), rep)
  {
    var p, rep := s.phases[w], ReportOf(s, w);
    assert SeenHolds(p.seen, rep, HoldOf(s.queue.workers[w]));
    DecisionUnchanged(p.seen, rep, p.answer, R.ChosenCategory(p.categories, p.answer).value, threshold);
  }

  /** The decision reads only the sources and, under a citizen's choice, the category. */
  lemma DecisionUnchanged(seen: R.Report, rep: R.Report, answer: R.Answer, chosen: R.Category, threshold: real)
    requires RS.Advances(seen, rep) && SameSources(seen, rep)
    ensures R.DecideClassification(seen, answer, chosen, threshold)
      == R.DecideClassification(rep, answer, chosen, threshold)
  {
  }

  // ----- the claim on a report never moves back -----

  /** A waiting report's token is not newer than the claim on its job. */
  predicate TokenFits(s: System, r: nat, id: nat) {
    Waits(s, r) && s.docs[r].report.ai.token.Some? && Carries(s, id, r, s.docs[r].report.ai.request) ==>
      && s.docs[r].report.ai.token.value < s.queue.tokens
      && (s.queue.entries[id].lease.Some? ==> s.docs[r].report.ai.token.value <= s.queue.entries[id].lease.value.token)
  }

  ghost predicate TokensOrdered(s: System) {
    forall r: nat, id: nat :: TokenFits(s, r, id)
  }

  /** A job's lease is kept, dropped, or replaced by one with a token never used before. */
  predicate LeaseAfter(s: System, t: Q.State, id: nat) {
    && s.queue.tokens <= t.tokens
    && (id < |s.queue.entries| && id < |t.entries| && t.entries[id].lease.Some? ==>
          t.entries[id].lease.value.token >= s.queue.tokens
          || (s.queue.entries[id].lease.Some?
              && s.queue.entries[id].lease.value.token == t.entries[id].lease.value.token))
    && (|s.queue.entries| <= id < |t.entries| ==> t.entries[id].lease.None?)
  }

  lemma LeaseStep(q: Q.State, a: Q.Action, id: nat)
    ensures LeaseAfter(System(q, [], map[]), Q.Step(q, a), id)
  {
    if QS.EditsEntries(a) { LeaseEdit(q, a, id); }
    else if QS.IsRecord(a) { LeaseRecord(q, a, id); }
    else { QS.EntriesStay(q, a); }
  }

  lemma LeaseEdit(q: Q.State, a: Q.Action, id: nat)
    requires QS.EditsEntries(a)
    ensures LeaseAfter(System(q, [], map[]), Q.Step(q, a), id)
  {
  }

  lemma LeaseRecord(q: Q.State, a: Q.Action, id: nat)
    requires QS.IsRecord(a)
    ensures LeaseAfter(System(q, [], map[]), Q.Step(q, a), id)
  {
  }

  lemma LeasesAfter(s: System, a: Action, id: nat)
    ensures LeaseAfter(s, QueueAfter(s, a), id)
  {
    var acts := QueueActs(s, a);
    RunShort(s.queue, acts);
    if acts != [] {
      LeaseStep(s.queue, acts[0], id);
      if |acts| == 2 { LeaseStep(Q.Step(s.queue, acts[0]), acts[1], id); }
    }
  }

  /** The job that carries an unchanged request carried it before the step. */
  lemma CarriedBefore(s: System, a: Action, t: System, r: nat, id: nat)
    requires PayloadsOk(s) && StepShape(s, a, t) && t.docs == DocsAfter(s, a)
    requires r < |s.docs| && Carries(t, id, r, s.docs[r].report.ai.request)
    ensures Carries(s, id, r, s.docs[r].report.ai.request)
  {
    assert JobAfter(s, a, t.queue, id);
    if NewJob(s, a).Some? { NewJobIsNew(s, a); }
  }

  /** A worker that installs its token on a report holds the lease of the report's job. */
  lemma InstalledTokenFits(s: System, a: Action, r: nat, id: nat)
    requires QS.WorkersOk(s.queue) && RequestsDistinct(s)
    requires a.ClaimReport? && At(s, a.worker, Started) && Owns(s, a.worker)
    requires r < |s.docs| && s.queue.workers[a.worker].payload == Q.Classify(r, s.docs[r].report.ai.request)
    requires Carries(s, id, r, s.docs[r].report.ai.request)
    ensures id < |QueueAfter(s, a).entries| && QueueAfter(s, a).entries[id].lease.Some?
    ensures QueueAfter(s, a).entries[id].lease.value.token == s.queue.workers[a.worker].token < QueueAfter(s, a).tokens
  {
    assert QS.WorkerOk(s.queue, s.queue.workers[a.worker]);
    RunShort(s.queue, QueueActs(s, a));
  }

  lemma TokenKeeps(s: System, a: Action, r: nat, id: nat)
    requires Grounded(s) && StepShape(s, a, Step(s, a)) && TokenFits(s, r, id)
    ensures TokenFits(Step(s, a), r, id)
  {
    var t := Step(s, a);
    if Waits(t, r) && t.docs[r].report.ai.token.Some? && Carries(t, id, r, t.docs[r].report.ai.request) {
      if r >= |s.docs| {
        FiledAfter(s, a, r);
      } else {
        assert ReportAfter(s, a, t.docs[r].report, r);
        CarriedBefore(s, a, t, r, id);
        LeasesAfter(s, a, id);
        if t.docs[r].report.ai.token != s.docs[r].report.ai.token {
          InstalledTokenFits(s, a, r, id);
        }
      }
    }
  }

  lemma StepKeepsTokens(s: System, a: Action)
    requires Grounded(s) && TokensOrdered(s)
    ensures TokensOrdered(Step(s, a))
  {
    ShapeOfStep(s, a);
    forall r: nat, id: nat ensures TokenFits(Step(s, a), r, id) {
      assert TokenFits(s, r, id);
      TokenKeeps(s, a, r, id);
    }
  }

  lemma {:induction false} TokensStayOrdered(s: System, acts: seq<Action>)
    requires Grounded(s) && TokensOrdered(s)
    ensures TokensOrdered(Run(s, acts))
    decreases |acts|
  {
    if acts != [] {
      StepKeepsTokens(s, acts[0]);
      StepGrounds(s, acts[0]);
      TokensStayOrdered(Step(s, acts[0]), acts[1..]);
    }
  }

  /** `t` still waits for the request `s` waits for, under the same claim or a later one. */
  predicate TokenLater(s: System, t: System, r: nat)
    requires r < |s.docs| && r < |t.docs|
  {
    var before, after := s.docs[r].report.ai.token, t.docs[r].report.ai.token;
    before.Some? ==> after.Some? && before.value <= after.value
  }

  lemma TokenStep(s: System, a: Action, r: nat)
    requires Grounded(s) && TokensOrdered(s) && StepShape(s, a, Step(s, a))
    requires r < |s.docs| && Waits(Step(s, a), r) && Step(s, a).docs[r].report.ai.request == s.docs[r].report.ai.request
    ensures Waits(s, r) && TokenLater(s, Step(s, a), r)
  {
    assert ReportAfter(s, a, Step(s, a).docs[r].report, r);
    if Step(s, a).docs[r].report.ai.token != s.docs[r].report.ai.token {
      var w := a.worker;
      assert QS.WorkerOk(s.queue, s.queue.workers[w]);
      assert TokenFits(s, r, s.queue.workers[w].job.entry);
    }
  }

  lemma StepRequests(s: System, a: Action, r: nat)
    requires r < |s.docs|
    ensures r < |Step(s, a).docs| && s.docs[r].report.ai.request <= Step(s, a).docs[r].report.ai.request
  {
    ShapeOfStep(s, a);
    assert ReportAfter(s, a, Step(s, a).docs[r].report, r);
  }

  lemma {:induction false} RunRequests(s: System, acts: seq<Action>, r: nat)
    requires r < |s.docs|
    ensures r < |Run(s, acts).docs| && s.docs[r].report.ai.request <= Run(s, acts).docs[r].report.ai.request
    decreases |acts|
  {
    if acts != [] {
      StepRequests(s, acts[0], r);
      RunRequests(Step(s, acts[0]), acts[1..], r);
    }
  }

  lemma {:induction false} TokenRun(s: System, acts: seq<Action>, r: nat)
    requires Grounded(s) && TokensOrdered(s) && r < |s.docs| && Waits(Run(s, acts), r)
    requires Run(s, acts).docs[r].report.ai.request == s.docs[r].report.ai.request
    ensures Waits(s, r) && TokenLater(s, Run(s, acts), r)
    decreases |acts|
  {
    if acts != [] {
      var t := Step(s, acts[0]);
      StepRequests(s, acts[0], r);
      RunRequests(t, acts[1..], r);
      StepKeepsTokens(s, acts[0]);
      StepGrounds(s, acts[0]);
      TokenRun(t, acts[1..], r);
      ShapeOfStep(s, acts[0]);
      TokenStep(s, acts[0], r);
    }
  }

  /**
   In every run, from the moment a report carries a worker's token and for as long as it waits for the
   same request, it carries that token or one of a later claim.
   */
  lemma ReportTokenNeverMovesBack(acts: seq<Action>, more: seq<Action>, r: nat)
    requires r < |Run(Start, acts).docs| && Waits(Run(Start, acts + more), r)
    requires Run(Start, acts + more).docs[r].report.ai.request == Run(Start, acts).docs[r].report.ai.request
    ensures TokenLater(Run(Start, acts), Run(Start, acts + more), r)
  {
    Reached(acts);
    StartInv();
    TokensStayOrdered(Start, acts);
    RunComposes(Start, acts, more);
    TokenRun(Run(Start, acts), more, r);
  }

  // ----- what lies outside the promise, exactly -----

  /** The step finishes job `id0` and changes no other job. */
  ghost predicate OnlyFinishes(s: System, t: System, id0: nat) {
    && |t.queue.entries| == |s.queue.entries| && id0 < |s.queue.entries|
    && Q.Finished(t.queue.entries[id0].state) && t.queue.entries[id0].payload == s.queue.entries[id0].payload
    && (forall id :: 0 <= id < |s.queue.entries| && id != id0 ==> t.queue.entries[id] == s.queue.entries[id])
  }

  /** If a report waits for the job that just finished, no job is left for it. */
  lemma FinishedJobUncouples(s: System, t: System, id0: nat, r: nat)
    requires RequestsDistinct(s) && OnlyFinishes(s, t, id0)
    requires Waits(t, r) && Carries(s, id0, r, t.docs[r].report.ai.request)
    ensures !Coupled(t)
  {
    forall id: nat ensures !Live(t, id, r, t.docs[r].report.ai.request) {
      if id < |s.queue.entries| && id != id0 {
        assert t.queue.entries[id] == s.queue.entries[id];
      }
    }
  }

  /** Otherwise every waiting report keeps its job. */
  lemma OthersStayCoupled(s: System, t: System, id0: nat)
    requires Coupled(s) && OnlyFinishes(s, t, id0)
    requires forall r: nat :: Waits(t, r) ==>
      Waits(s, r) && t.docs[r].report.ai.request == s.docs[r].report.ai.request
      && !Carries(s, id0, r, t.docs[r].report.ai.request)
    ensures Coupled(t)
  {
    forall r: nat | Waits(t, r) ensures exists id: nat :: Live(t, id, r, t.docs[r].report.ai.request) {
      var id: nat :| Live(s, id, r, s.docs[r].report.ai.request);
      assert Live(t, id, r, t.docs[r].report.ai.request);
    }
  }

  /** The worker's payload is still its job's. */
  lemma PayloadOfJob(s: System, w: nat)
    requires QS.WorkersOk(s.queue) && w in s.queue.workers && s.queue.workers[w].job.entry < |s.queue.entries|
    requires Q.IsNext(s.queue.entries[s.queue.workers[w].job.entry], s.queue.workers[w].job)
    ensures s.queue.entries[s.queue.workers[w].job.entry].payload == s.queue.workers[w].payload
  {
    assert QS.WorkerOk(s.queue, s.queue.workers[w]);
  }

  lemma RefusalFinishes(s: System, w: nat)
    requires Q.Refuses(s.queue, w)
    ensures OnlyFinishes(s, Step(s, RefuseType(w)), s.queue.workers[w].job.entry)
    ensures Step(s, RefuseType(w)).docs == s.docs
  {
    RunShort(s.queue, [Q.RefuseType(w)]);
  }

  /**
   A worker that does not know the type fails the job without touching the report. The coupling
   survives exactly when the report was not waiting for that job.
   */
  lemma UnknownTypeKeepsCouplingIff(s: System, w: nat)
    requires Inv(s) && Q.Refuses(s.queue, w)
    ensures
      var p := s.queue.workers[w].payload;
      Coupled(Step(s, RefuseType(w))) <==>
        !(p.Classify? && Waits(s, p.report) && s.docs[p.report].report.ai.request == p.request)
  {
    var p, t := s.queue.workers[w].payload, Step(s, RefuseType(w));
    PayloadOfJob(s, w);
    RefusalFinishes(s, w);
    if p.Classify? && Waits(s, p.report) && s.docs[p.report].report.ai.request == p.request {
      FinishedJobUncouples(s, t, s.queue.workers[w].job.entry, p.report);
    } else {
      OthersStayCoupled(s, t, s.queue.workers[w].job.entry);
    }
  }

  lemma FinalFailureFinishes(s: System, w: nat)
    requires FinallyFails(s, w)
    ensures OnlyFinishes(s, Step(s, Finish(w)), s.queue.workers[w].job.entry)
    ensures
      var r, docs := s.queue.workers[w].payload.report, Step(s, Finish(w)).docs;
      && |docs| == |s.docs| && (forall i :: 0 <= i < |docs| && i != r ==> docs[i] == s.docs[i])
      && (if IsCurrentPending(s, w) then docs[r].report.ai.status.AiFailed? else docs[r] == s.docs[r])
  {
    RunShort(s.queue, [Q.RecordFailure(w, s.phases[w].failure)]);
  }

  /**
   A final failure, whether or not its worker ever claimed the report. The coupling survives exactly
   when the report was not waiting for this request, or carries this worker's token.
   */
  lemma FinalFailureKeepsCouplingIff(s: System, w: nat)
    requires Basis(s) && Coupled(s) && FinallyFails(s, w)
    ensures Coupled(Step(s, Finish(w))) <==>
      (R.CurrentPending(ReportOf(s, w), RequestOf(s, w)) ==> IsCurrentPending(s, w))
  {
    var t := Step(s, Finish(w));
    PayloadOfJob(s, w);
    FinalFailureFinishes(s, w);
    if R.CurrentPending(ReportOf(s, w), RequestOf(s, w)) && !IsCurrentPending(s, w) {
      FinishedJobUncouples(s, t, s.queue.workers[w].job.entry, s.queue.workers[w].payload.report);
    } else {
      OthersStayCoupled(s, t, s.queue.workers[w].job.entry);
    }
  }

  /** One step breaks the coupling exactly when it strands a report. */
  lemma StepKeepsCouplingIff(s: System, a: Action)
    requires Inv(s)
    ensures Coupled(Step(s, a)) <==> !Strands(s, a)
  {
    if !Strands(s, a) { StepKeeps(s, a); }
    else if a.RefuseType? { UnknownTypeKeepsCouplingIff(s, a.worker); }
    else { FinalFailureKeepsCouplingIff(s, a.worker); }
  }

  lemma PrefixRuns(s: System, acts: seq<Action>, n: nat)
    requires n < |acts|
    ensures Run(s, acts[..n + 1]) == Run(Step(s, acts[0]), acts[1..][..n])
  {
    assert acts[..n + 1][1..] == acts[1..][..n];
  }

  lemma {:induction false} CoupledAt(s: System, acts: seq<Action>, n: nat)
    requires Inv(s) && NeverStrands(s, acts) && n <= |acts|
    ensures Coupled(Run(s, acts[..n]))
    decreases n
  {
    if n > 0 {
      StepKeeps(s, acts[0]);
      CoupledAt(Step(s, acts[0]), acts[1..], n - 1);
      PrefixRuns(s, acts, n - 1);
    }
  }

  lemma {:induction false} UncoupledAt(s: System, acts: seq<Action>) returns (n: nat)
    requires Inv(s) && !NeverStrands(s, acts)
    ensures n <= |acts| && !Coupled(Run(s, acts[..n]))
    decreases |acts|
  {
    if Strands(s, acts[0]) {
      StrandedAtOnce(s, acts);
      n := 1;
    } else {
      StepKeeps(s, acts[0]);
      n := UncoupledAt(Step(s, acts[0]), acts[1..]);
      PrefixRuns(s, acts, n);
      n := n + 1;
    }
  }

  lemma StrandedAtOnce(s: System, acts: seq<Action>)
    requires Inv(s) && acts != [] && Strands(s, acts[0])
    ensures !Coupled(Run(s, acts[..1]))
  {
    StepKeepsCouplingIff(s, acts[0]);
    PrefixRuns(s, acts, 0);
    assert acts[1..][..0] == [];
  }

  /**
   In every run, every waiting report has its job at every moment exactly if no step of the run strands
   one: refusals of unknown types and failing claim transactions do no other harm.
   */
  lemma CoupledThroughoutIff(acts: seq<Action>)
    ensures (forall n :: 0 <= n <= |acts| ==> Coupled(Run(Start, acts[..n]))) <==> NeverStrands(Start, acts)
  {
    StartInv();
    if NeverStrands(Start, acts) {
      forall n | 0 <= n <= |acts| ensures Coupled(Run(Start, acts[..n])) { CoupledAt(Start, acts, n); }
    } else {
      var n := UncoupledAt(Start, acts);
    }
  }
}
