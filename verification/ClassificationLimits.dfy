/**
 Two runs in which a report is left waiting with no unfinished job: a worker that does not know the
 job type, and a worker that outlives a failing claim transaction on every one of its attempts.
 Together with the exact conditions in `ClassificationPromises` they show what the coupling rests on.
 */
module ClassificationLimits {
  import opened Basics
  import Q = JobQueue
  import QS = JobQueueSafety
  import R = Reports
  import opened Classification
  import opened ClassificationSafety
  import opened ClassificationPromises
  import opened ClassificationLiveness

  const OTHER: R.Category := R.Category(0, R.FALLBACK_NAME)

  /** One report filed without a category. */
  const FILING: Action := FileReport(1, "A pothole on Main Street", "Main Street", None, OTHER, R.Medium)

  /** Job 0 is the unfinished job of report 0, tried `n` times; the report waits for it. */
  predicate Tried(s: System, n: nat) {
    && Live(s, 0, 0, 1) && Waits(s, 0) && s.docs[0].report.ai.request == 1
    && s.queue.entries[0].queue.Ai? && s.queue.entries[0].attempts == n
    && s.docs[0].report.ai.token.None?
  }

  /** Only refusals and recorded ends can strand a report. */
  predicate IsCalm(a: Action) {
    !a.RefuseType? && !a.Finish?
  }

  lemma {:induction false} Calm(s: System, acts: seq<Action>)
    requires forall i :: 0 <= i < |acts| ==> IsCalm(acts[i])
    ensures NeverStrands(s, acts)
    decreases |acts|
  {
    if acts != [] { Calm(Step(s, acts[0]), acts[1..]); }
  }

  lemma {:induction false} NeverStrandsOn(s: System, first: seq<Action>, rest: seq<Action>)
    requires NeverStrands(s, first) && NeverStrands(Run(s, first), rest)
    ensures NeverStrands(s, first + rest)
    decreases |first|
  {
    if first == [] {
      assert first + rest == rest;
    } else {
      assert (first + rest)[1..] == first[1..] + rest;
      NeverStrandsOn(Step(s, first[0]), first[1..], rest);
    }
  }

  lemma FilingStarts()
    ensures Inv(Run(Start, [FILING])) && Tried(Run(Start, [FILING]), 0)
  {
    Calm(Start, [FILING]);
    Reached([FILING]);
    StepRun(Start, FILING);
    RunShort(Q.Empty, QueueActs(Start, FILING));
  }

  // ----- an unknown type -----

  /** Filed, offered, and delivered to a worker that has no handler for the type. */
  lemma UnknownTypeStrandsReport() returns (acts: seq<Action>)
    ensures acts != [] && NeverStrands(Start, acts[..|acts| - 1]) && acts[|acts| - 1].RefuseType?
    ensures Waits(Run(Start, acts), 0) && !Coupled(Run(Start, acts))
  {
    var o, job := Q.Offer(0, 0, 0, true), Q.Attempt(0, 0, 1);
    var queueing := [Q.RelayRead(0), Q.AddJob(o), Q.Deliver(7, job)];
    acts := [FILING] + Lift(queueing) + [RefuseType(7)];
    assert acts[..|acts| - 1] == [FILING] + Lift(queueing);
    FilingStarts();
    var s := Run(Start, [FILING]);
    LiftRuns(s, queueing);
    var t := Run(s, Lift(queueing));
    Calm(s, Lift(queueing));
    RunKeeps(s, Lift(queueing));
    Calm(Start, [FILING] + Lift(queueing));
    DeliveredThere(s, t, queueing);
    RunComposes(Start, [FILING], Lift(queueing));
    RunComposes(Start, [FILING] + Lift(queueing), [RefuseType(7)]);
    StepRun(t, RefuseType(7));
    UnknownTypeKeepsCouplingIff(t, 7);
    RefusalFinishes(t, 7);
  }

  lemma DeliveredThere(s: System, t: System, queueing: seq<Q.Action>)
    requires s == Run(Start, [FILING]) && t == s.(queue := Q.Run(s.queue, queueing))
    requires queueing == [Q.RelayRead(0), Q.AddJob(Q.Offer(0, 0, 0, true)), Q.Deliver(7, Q.Attempt(0, 0, 1))]
    ensures Q.Refuses(t.queue, 7) && t.queue.workers[7].payload == Q.Classify(0, 1) && Waits(t, 0)
    ensures t.docs[0].report.ai.request == 1
  {
    FilingStarts();
    StepRun(Start, FILING);
    RunShort(Q.Empty, QueueActs(Start, FILING));
    var q1 := Q.Step(s.queue, queueing[0]);
    var q2 := Q.Step(q1, queueing[1]);
    assert queueing == [queueing[0]] + [queueing[1], queueing[2]];
    QS.RunComposes(s.queue, [queueing[0]], [queueing[1], queueing[2]]);
    RunShort(s.queue, [queueing[0]]);
    RunShort(q1, [queueing[1], queueing[2]]);
  }

  // ----- a claim transaction that fails on every attempt -----

  /** Worker `w` holds job 0 on its next attempt, and nothing else has happened to the report. */
  predicate AboutToClaim(s: System, w: nat, n: nat) {
    && Tried(s, n) && Classifies(s, w) && s.phases[w].Started? && Q.Records(s.queue, w)
    && s.queue.workers[w].job.entry == 0 && s.queue.workers[w].payload == Q.Classify(0, 1)
  }

  /** The claim transaction throws, and the executor records the failure. */
  function Throwing(w: nat): seq<Action> {
    [ClaimThrows(w), Finish(w)]
  }

  function Thrown(s: System, w: nat): System {
    s.(phases := s.phases[w := Threw(INTERNAL, false)])
  }

  lemma ThrowingSteps(s: System, w: nat)
    requires Classifies(s, w) && s.phases[w].Started?
    ensures Run(s, Throwing(w)) == Step(Thrown(s, w), Finish(w))
  {
    assert Throwing(w) == [ClaimThrows(w)] + [Finish(w)];
    RunComposes(s, [ClaimThrows(w)], [Finish(w)]);
    StepRun(s, ClaimThrows(w));
    StepRun(Thrown(s, w), Finish(w));
    ThrowIsLocal(s, w);
  }

  lemma ThrowIsLocal(s: System, w: nat)
    requires Classifies(s, w) && s.phases[w].Started?
    ensures Step(s, ClaimThrows(w)) == Thrown(s, w)
  {
  }

  lemma RetryRecorded(s: System, w: nat, n: nat)
    requires AboutToClaim(s, w, n) && n + 1 < Q.MaxAttempts(Q.Ai)
    ensures
      var t := Step(Thrown(s, w), Finish(w));
      && Tried(t, n + 1) && t.docs == s.docs && !EndsJob(Thrown(s, w), Finish(w), 0)
      && t.phases == s.phases - {w} && |t.queue.entries| == |s.queue.entries|
  {
    RunShort(s.queue, [Q.RecordFailure(w, INTERNAL)]);
    assert Thrown(s, w).phases - {w} == s.phases - {w};
  }

  lemma RetryIsNotFinal(s: System, w: nat, n: nat)
    requires AboutToClaim(s, w, n) && n + 1 < Q.MaxAttempts(Q.Ai)
    ensures !FinallyFails(Thrown(s, w), w)
  {
  }

  lemma TwoNeverStrand(s: System, a: Action, b: Action)
    requires !Strands(s, a) && !Strands(Step(s, a), b)
    ensures NeverStrands(s, [a, b])
  {
    assert [a, b][1..] == [b] && [b][1..] == [];
    assert NeverStrands(Step(s, a), [b]);
  }

  /** A failure that may be retried strands no report, claimed report or not. */
  lemma RetryStrandsNone(s: System, w: nat, n: nat)
    requires Inv(s) && AboutToClaim(s, w, n) && n + 1 < Q.MaxAttempts(Q.Ai)
    ensures NeverStrands(s, Throwing(w)) && Inv(Run(s, Throwing(w)))
  {
    ThrowIsLocal(s, w);
    RetryIsNotFinal(s, w, n);
    TwoNeverStrand(s, ClaimThrows(w), Finish(w));
    RunKeeps(s, Throwing(w));
  }

  /** Offer, deliver and claim job 0 for a free worker. */
  lemma ClaimAgain(s: System, n: nat) returns (acts: seq<Action>, w: nat)
    requires Inv(s) && Tried(s, n)
    ensures NeverStrands(s, acts) && AllOrdinary(acts)
    ensures Inv(Run(s, acts)) && AboutToClaim(Run(s, acts), w, n)
  {
    w := FreshNat(s.queue.workers.Keys);
    acts := Reclaim(s, 0, w);
    ReclaimIsOrdinary(s, 0, w);
    Calm(s, acts);
    RunKeeps(s, acts);
    ReclaimClaims(s, 0, w);
    var t := Run(s, acts);
    assert PhaseOk(t, w);
    PayloadOfJob(t, w);
  }

  /** The deployment's ordinary steps, and claim transactions that throw. */
  predicate OnlyClaimsThrow(acts: seq<Action>) {
    forall i :: 0 <= i < |acts| ==> Ordinary(acts[i]) || acts[i].ClaimThrows?
  }

  /** One stretch of steps after another. */
  lemma ThenAll(s: System, first: seq<Action>, rest: seq<Action>)
    requires NeverStrands(s, first) && NeverStrands(Run(s, first), rest) && OnlyClaimsThrow(first)
    requires OnlyClaimsThrow(rest)
    ensures NeverStrands(s, first + rest) && OnlyClaimsThrow(first + rest)
    ensures Run(s, first + rest) == Run(Run(s, first), rest)
  {
    RunComposes(s, first, rest);
    NeverStrandsOn(s, first, rest);
  }

  lemma ThrowAndRecord(s: System, w: nat, n: nat)
    requires Inv(s) && AboutToClaim(s, w, n) && n + 1 < Q.MaxAttempts(Q.Ai)
    ensures NeverStrands(s, Throwing(w)) && OnlyClaimsThrow(Throwing(w))
    ensures Inv(Run(s, Throwing(w))) && Tried(Run(s, Throwing(w)), n + 1)
  {
    RetryStrandsNone(s, w, n);
    RetryRecorded(s, w, n);
    ThrowingSteps(s, w);
  }

  /** One attempt: claimed, thrown, recorded for another try. */
  lemma ThrowOnce(s: System, n: nat) returns (acts: seq<Action>)
    requires Inv(s) && Tried(s, n) && n + 1 < Q.MaxAttempts(Q.Ai)
    ensures NeverStrands(s, acts) && OnlyClaimsThrow(acts)
    ensures Inv(Run(s, acts)) && Tried(Run(s, acts), n + 1)
  {
    var claim, w := ClaimAgain(s, n);
    var t := Run(s, claim);
    ThrowAndRecord(t, w, n);
    acts := claim + Throwing(w);
    ThenAll(s, claim, Throwing(w));
  }

  lemma {:induction false} ThrowRepeatedly(s: System, n: nat) returns (acts: seq<Action>)
    requires Inv(s) && Tried(s, n) && n < Q.MaxAttempts(Q.Ai)
    ensures NeverStrands(s, acts) && OnlyClaimsThrow(acts)
    ensures Inv(Run(s, acts)) && Tried(Run(s, acts), Q.MaxAttempts(Q.Ai) - 1)
    decreases Q.MaxAttempts(Q.Ai) - n
  {
    acts := [];
    if n + 1 < Q.MaxAttempts(Q.Ai) {
      var once := ThrowOnce(s, n);
      var rest := ThrowRepeatedly(Run(s, once), n + 1);
      acts := once + rest;
      ThenAll(s, once, rest);
    }
  }

  lemma ThrowNext(s: System, w: nat)
    requires Classifies(s, w) && s.phases[w].Started?
    ensures Run(s, [ClaimThrows(w)]) == Thrown(s, w)
    ensures NeverStrands(s, [ClaimThrows(w)]) && OnlyClaimsThrow([ClaimThrows(w)])
  {
    StepRun(s, ClaimThrows(w));
    ThrowIsLocal(s, w);
    Calm(s, [ClaimThrows(w)]);
  }

  /** Claims that throw, up to the last attempt, whose worker has claimed the job and thrown as well. */
  lemma ThrowToTheLast(s: System) returns (acts: seq<Action>, u: System, w: nat)
    requires Inv(s) && Tried(s, 0)
    ensures NeverStrands(s, acts) && OnlyClaimsThrow(acts)
    ensures Inv(u) && AboutToClaim(u, w, Q.MaxAttempts(Q.Ai) - 1) && Run(s, acts) == Thrown(u, w)
  {
    var tries := ThrowRepeatedly(s, 0);
    var t := Run(s, tries);
    var claim;
    claim, w := ClaimAgain(t, Q.MaxAttempts(Q.Ai) - 1);
    u := Run(t, claim);
    ThrowNext(u, w);
    ThenAll(t, claim, [ClaimThrows(w)]);
    acts := tries + (claim + [ClaimThrows(w)]);
    ThenAll(s, tries, claim + [ClaimThrows(w)]);
  }

  /**
   A report is filed; its job is offered, claimed and its claim transaction throws, on every attempt. The
   record of the last failure, and nothing before it, leaves the report waiting with its job finished:
   only an administrator can help.
   */
  lemma FailingClaimsStrandReport() returns (acts: seq<Action>, w: nat)
    ensures acts != [] && acts[0] == FILING && OnlyClaimsThrow(acts[1..])
    ensures NeverStrands(Start, acts) && FinallyFails(Run(Start, acts), w)
    ensures Run(Start, acts).phases[w] == Threw(INTERNAL, false)
    ensures Waits(Run(Start, acts + [Finish(w)]), 0) && !Coupled(Run(Start, acts + [Finish(w)]))
  {
    FilingStarts();
    var rest, u;
    rest, u, w := ThrowToTheLast(Run(Start, [FILING]));
    acts := [FILING] + rest;
    assert acts[1..] == rest;
    Calm(Start, [FILING]);
    NeverStrandsOn(Start, [FILING], rest);
    RunComposes(Start, [FILING], rest);
    LastThrowStrands(u, w);
    RunComposes(Start, acts, [Finish(w)]);
    StepRun(Run(Start, acts), Finish(w));
  }

  lemma LastThrowFails(s: System, w: nat)
    requires AboutToClaim(s, w, Q.MaxAttempts(Q.Ai) - 1)
    ensures FinallyFails(Thrown(s, w), w)
    ensures R.CurrentPending(ReportOf(Thrown(s, w), w), RequestOf(Thrown(s, w), w))
    ensures !IsCurrentPending(Thrown(s, w), w)
  {
  }

  lemma LastThrowStrands(s: System, w: nat)
    requires Inv(s) && AboutToClaim(s, w, Q.MaxAttempts(Q.Ai) - 1)
    ensures FinallyFails(Thrown(s, w), w)
    ensures Waits(Step(Thrown(s, w), Finish(w)), 0) && !Coupled(Step(Thrown(s, w), Finish(w)))
  {
    var u := Thrown(s, w);
    LastThrowFails(s, w);
    ThrowIsLocal(s, w);
    StepKeeps(s, ClaimThrows(w));
    FinalFailureKeepsCouplingIff(u, w);
    FinalFailureFinishes(u, w);
  }
}
