/**
 No job of the system is ever stuck: from every reachable state the clock, the relay and one worker
 finish it, and if a report waits for it and the provider answers, the report is classified.
 */
module ClassificationLiveness {
  import opened Basics
  import Q = JobQueue
  import QS = JobQueueSafety
  import QL = JobQueueLiveness
  import R = Reports
  import opened Classification
  import opened ClassificationSafety
  import opened ClassificationPromises

  /** Steps a deployment takes by itself, with a provider that answers. */
  predicate Ordinary(a: Action) {
    match a
    case Queue(act) => QL.Ordinary(act)
    case ClaimEntry(_, _) => true
    case ClaimReport(_) => true
    case Load(_) => true
    case LoadAgain(_, _) => true
    case Reply(_, _) => true
    case WriteResult(_, _) => true
    case MailEnds(_, failure) => failure.None?
    case Finish(_) => true
    case _ => false
  }

  predicate AllOrdinary(acts: seq<Action>) {
    forall i :: 0 <= i < |acts| ==> Ordinary(acts[i])
  }

  /** Queue steps that stand alone, as system steps. */
  function Lift(acts: seq<Q.Action>): seq<Action> {
    seq(|acts|, i requires 0 <= i < |acts| => Queue(acts[i]))
  }

  lemma {:induction false} LiftRuns(s: System, acts: seq<Q.Action>)
    requires forall i :: 0 <= i < |acts| ==> Standalone(acts[i])
    ensures Run(s, Lift(acts)) == s.(queue := Q.Run(s.queue, acts))
    decreases |acts|
  {
    if acts != [] {
      assert Lift(acts)[1..] == Lift(acts[1..]);
      LiftOne(s, acts[0]);
      LiftRuns(Step(s, Queue(acts[0])), acts[1..]);
    }
  }

  lemma LiftOne(s: System, act: Q.Action)
    requires Standalone(act)
    ensures Step(s, Queue(act)) == s.(queue := Q.Step(s.queue, act))
  {
    RunShort(s.queue, [act]);
  }

  lemma StepRun(s: System, a: Action)
    ensures Run(s, [a]) == Step(s, a)
  {
    assert [a][1..] == [];
  }

  /** Offer the job and deliver it to `w`. */
  function Redeliver(s: System, id: nat, w: nat): seq<Q.Action>
    requires id < |s.queue.entries|
  {
    QL.OfferSteps(s.queue, id) + [Q.Deliver(w, QS.NextOf(QL.OfferFor(s.queue, id)))]
  }

  /** Then claim it. */
  function Reclaim(s: System, id: nat, w: nat): seq<Action>
    requires id < |s.queue.entries|
  {
    Lift(Redeliver(s, id, w)) + [ClaimEntry(w, false)]
  }

  /** Worker `w` has just claimed job `id`, and nothing else that matters has changed since `s`. */
  predicate JustClaimed(s: System, t: System, id: nat, w: nat)
    requires id < |s.queue.entries|
  {
    && Holds(t, w) && Q.Records(t.queue, w) && t.phases[w].Started?
    && t.queue.workers[w].job.entry == id && t.queue.workers[w].payload == s.queue.entries[id].payload
    && !Q.Finished(t.queue.entries[id].state)
    && t.queue.entries[id].queue == s.queue.entries[id].queue
    && t.queue.entries[id].attempts == s.queue.entries[id].attempts
    && t.docs == s.docs
  }

  /** The state when the job has been delivered but not claimed. */
  function Redelivered(s: System, id: nat, w: nat): System
    requires id < |s.queue.entries|
  {
    s.(queue := Q.Run(s.queue, Redeliver(s, id, w)))
  }

  lemma RedeliverStandsAlone(s: System, id: nat, w: nat, i: nat)
    requires id < |s.queue.entries| && i < |Redeliver(s, id, w)|
    ensures Standalone(Redeliver(s, id, w)[i])
  {
  }

  lemma RedeliverRuns(s: System, id: nat, w: nat)
    requires id < |s.queue.entries|
    ensures Run(s, Lift(Redeliver(s, id, w))) == Redelivered(s, id, w)
  {
    forall i | 0 <= i < |Redeliver(s, id, w)| ensures Standalone(Redeliver(s, id, w)[i]) {
      RedeliverStandsAlone(s, id, w, i);
    }
    LiftRuns(s, Redeliver(s, id, w));
  }

  lemma ReclaimSteps(s: System, id: nat, w: nat)
    requires id < |s.queue.entries|
    ensures Run(s, Reclaim(s, id, w)) == Step(Redelivered(s, id, w), ClaimEntry(w, false))
  {
    RedeliverRuns(s, id, w);
    RunComposes(s, Lift(Redeliver(s, id, w)), [ClaimEntry(w, false)]);
    StepRun(Redelivered(s, id, w), ClaimEntry(w, false));
  }

  lemma QueueReclaims(s: System, id: nat, w: nat)
    requires id < |s.queue.entries|
    ensures Q.Run(s.queue, QL.Reclaim(s.queue, id, w)) == Q.Step(Redelivered(s, id, w).queue, Q.ClaimJob(w, false))
  {
    assert QL.Reclaim(s.queue, id, w) == Redeliver(s, id, w) + [Q.ClaimJob(w, false)];
    QS.RunComposes(s.queue, Redeliver(s, id, w), [Q.ClaimJob(w, false)]);
    RunShort(Redelivered(s, id, w).queue, [Q.ClaimJob(w, false)]);
  }

  lemma ReclaimIsOrdinary(s: System, id: nat, w: nat)
    requires id < |s.queue.entries|
    ensures AllOrdinary(Reclaim(s, id, w))
  {
  }

  lemma PhaseNeedsWorker(s: System, w: nat)
    requires PhasesOk(s)
    ensures w in s.phases ==> w in s.queue.workers
  {
    if w in s.phases { assert PhaseOk(s, w); }
  }

  lemma ReclaimClaims(s: System, id: nat, w: nat)
    requires Grounded(s) && id < |s.queue.entries| && !Q.Finished(s.queue.entries[id].state) && w !in s.queue.workers
    ensures JustClaimed(s, Run(s, Reclaim(s, id, w)), id, w) && Grounded(Run(s, Reclaim(s, id, w)))
  {
    ReclaimIsOrdinary(s, id, w);
    RunGrounds(s, Reclaim(s, id, w));
    ReclaimSteps(s, id, w);
    QueueReclaims(s, id, w);
    QL.ReclaimClaims(s.queue, id, w);
    PhaseNeedsWorker(s, w);
    RedeliverRuns(s, id, w);
    RunGrounds(s, Lift(Redeliver(s, id, w)));
    ClaimFromFree(Redelivered(s, id, w), w);
  }

  /** A claim that leaves the worker holding starts its handler. */
  lemma ClaimFromFree(u: System, w: nat)
    requires w !in u.phases && (w in u.queue.workers ==> !u.queue.workers[w].Holding?)
    requires Q.IsHolding(Q.Step(u.queue, Q.ClaimJob(w, false)), w)
    ensures
      var t := Step(u, ClaimEntry(w, false));
      t.queue == Q.Step(u.queue, Q.ClaimJob(w, false)) && t.docs == u.docs && w in t.phases && t.phases[w].Started?
  {
    RunShort(u.queue, [Q.ClaimJob(w, false)]);
    QS.HolderOrigin(u.queue, Q.ClaimJob(w, false), w);
  }

  // ----- the handler, undisturbed -----

  /** The claim transaction: a waiting report is claimed, otherwise the handler returns. */
  lemma ReportClaimed(t: System, w: nat)
    requires At(t, w, Started) && Q.Records(t.queue, w)
    ensures
      var u := Step(t, ClaimReport(w));
      && Classifies(u, w) && u.queue.workers == t.queue.workers && Q.Records(u.queue, w) && |u.docs| == |t.docs|
      && (if R.CurrentPending(ReportOf(t, w), RequestOf(t, w))
          then u.phases[w].ReportHeld? && IsCurrentPending(u, w)
          else u.phases[w].Returned? && u.docs == t.docs)
  {
    RunShort(t.queue, [Q.Renew(w)]);
  }

  /** Both readings find the report current, the provider answers, and the result is about to be written. */
  function Think(w: nat, categories: seq<R.Category>, answer: R.Answer): seq<Action> {
    [Load(w), LoadAgain(w, categories), Reply(w, answer)]
  }

  lemma LoadGoesOn(t: System, w: nat)
    requires Classifies(t, w) && t.phases[w].ReportHeld? && IsCurrentPending(t, w)
    ensures Step(t, Load(w)) == t.(phases := t.phases[w := Current])
  {
    ThinkingIsLocal(t, Load(w));
  }

  lemma SecondLoadGoesOn(t: System, w: nat, categories: seq<R.Category>)
    requires Classifies(t, w) && t.phases[w].Current? && IsCurrentPending(t, w)
    ensures Step(t, LoadAgain(w, categories)) == t.(phases := t.phases[w := Ready(ReportOf(t, w), categories)])
  {
    ThinkingIsLocal(t, LoadAgain(w, categories));
  }

  lemma ReplyGoesOn(t: System, w: nat, answer: R.Answer)
    requires Classifies(t, w) && t.phases[w].Ready?
    ensures Step(t, Reply(w, answer)) ==
      t.(phases := t.phases[w := Answered(t.phases[w].seen, t.phases[w].categories, answer, 0)])
  {
    ThinkingIsLocal(t, Reply(w, answer));
  }

  lemma ThinkingAnswers(t: System, w: nat, categories: seq<R.Category>, answer: R.Answer)
    requires Classifies(t, w) && t.phases[w].ReportHeld? && IsCurrentPending(t, w)
    ensures Run(t, Think(w, categories, answer)) ==
      t.(phases := t.phases[w := Answered(ReportOf(t, w), categories, answer, 0)])
  {
    var t1 := t.(phases := t.phases[w := Current]);
    var t2 := t1.(phases := t1.phases[w := Ready(ReportOf(t, w), categories)]);
    LoadGoesOn(t, w);
    SecondLoadGoesOn(t1, w, categories);
    ReplyGoesOn(t2, w, answer);
    RunThree(t, Load(w), LoadAgain(w, categories), Reply(w, answer));
  }

  lemma RunThree(s: System, a: Action, b: Action, c: Action)
    ensures Run(s, [a, b, c]) == Step(Step(Step(s, a), b), c)
  {
    assert [a, b, c] == [a] + ([b] + [c]);
    RunComposes(s, [a], [b] + [c]);
    RunComposes(Step(s, a), [b], [c]);
    StepRun(s, a);
    StepRun(Step(s, a), b);
    StepRun(Step(Step(s, a), b), c);
  }

  lemma WriteSettles(t: System, w: nat, threshold: real)
    requires AnswerWritable(t, w) && ResultMatches(t, w)
    ensures
      var u, r := Step(t, WriteResult(w, threshold)), t.queue.workers[w].payload.report;
      && u.queue == t.queue && Classifies(u, w) && u.phases[w].Returned?
      && u.docs[r].report.ai.status.AiDone? && u.docs[r].report.ai.request == RequestOf(t, w)
      && |u.docs| == |t.docs|
  {
  }

  lemma FinishDone(t: System, w: nat)
    requires Holds(t, w) && t.phases[w].Returned? && Q.Records(t.queue, w)
    ensures
      var u := Step(t, Finish(w));
      && u.docs == t.docs && |u.queue.entries| == |t.queue.entries|
      && u.queue.entries[t.queue.workers[w].job.entry].state.Done?
  {
    RunShort(t.queue, [Q.RecordDone(w)]);
  }

  /** What the worker does after its claim. */
  function Handle(t: System, w: nat, categories: seq<R.Category>, answer: R.Answer, threshold: real): seq<Action>
    requires Holds(t, w)
  {
    if !Classifies(t, w) then [MailEnds(w, None)]
    else if R.CurrentPending(ReportOf(t, w), RequestOf(t, w)) then
      [ClaimReport(w)] + (Think(w, categories, answer) + [WriteResult(w, threshold)])
    else [ClaimReport(w)]
  }

  /** The handler reaches its end with the claim intact; a waiting report is classified on the way. */
  predicate Handled(t: System, u: System, w: nat)
    requires Holds(t, w)
  {
    && Holds(u, w) && u.phases[w].Returned? && Q.Records(u.queue, w)
    && u.queue.workers[w].job == t.queue.workers[w].job && |u.queue.entries| == |t.queue.entries|
    && (Classifies(t, w) && R.CurrentPending(ReportOf(t, w), RequestOf(t, w)) ==>
          var r := t.queue.workers[w].payload.report;
          r < |u.docs| && u.docs[r].report.ai.status.AiDone? && u.docs[r].report.ai.request == RequestOf(t, w))
  }

  lemma MailHandled(t: System, w: nat)
    requires Holds(t, w) && t.phases[w].Started? && Q.Records(t.queue, w) && t.queue.workers[w].payload.Mail?
    ensures Handled(t, Run(t, [MailEnds(w, None)]), w)
  {
    StepRun(t, MailEnds(w, None));
    ThinkingIsLocal(t, MailEnds(w, None));
  }

  lemma WaitingHandled(t: System, w: nat, categories: seq<R.Category>, answer: R.Answer, threshold: real)
    requires At(t, w, Started) && Q.Records(t.queue, w)
    requires R.ChosenCategory(categories, answer).Some?
    requires R.CurrentPending(ReportOf(t, w), RequestOf(t, w))
    ensures Handled(t, Run(t, Handle(t, w, categories, answer, threshold)), w)
  {
    var u := Step(t, ClaimReport(w));
    ReportClaimed(t, w);
    ThinkingAnswers(u, w, categories, answer);
    var v := Run(u, Think(w, categories, answer));
    assert AnswerWritable(v, w) && ResultMatches(v, w);
    WriteSettles(v, w, threshold);
    RunComposes(t, [ClaimReport(w)], Think(w, categories, answer) + [WriteResult(w, threshold)]);
    RunComposes(u, Think(w, categories, answer), [WriteResult(w, threshold)]);
    StepRun(t, ClaimReport(w));
    StepRun(v, WriteResult(w, threshold));
    RenewKeepsSize(t, w);
  }

  lemma RenewKeepsSize(t: System, w: nat)
    ensures |Step(t, ClaimReport(w)).queue.entries| == |t.queue.entries|
  {
    RunShort(t.queue, QueueActs(t, ClaimReport(w)));
  }

  lemma StaleHandled(t: System, w: nat, categories: seq<R.Category>, answer: R.Answer, threshold: real)
    requires At(t, w, Started) && Q.Records(t.queue, w)
    requires !R.CurrentPending(ReportOf(t, w), RequestOf(t, w))
    ensures Handled(t, Run(t, Handle(t, w, categories, answer, threshold)), w)
  {
    ReportClaimed(t, w);
    StepRun(t, ClaimReport(w));
    RenewKeepsSize(t, w);
  }

  lemma ClaimedIsHandled(t: System, w: nat, categories: seq<R.Category>, answer: R.Answer, threshold: real)
    requires PhaseOk(t, w) && t.phases[w].Started? && Q.Records(t.queue, w)
    requires R.ChosenCategory(categories, answer).Some?
    ensures Handled(t, Run(t, Handle(t, w, categories, answer, threshold)), w)
  {
    if !Classifies(t, w) {
      MailHandled(t, w);
    } else if R.CurrentPending(ReportOf(t, w), RequestOf(t, w)) {
      WaitingHandled(t, w, categories, answer, threshold);
    } else {
      StaleHandled(t, w, categories, answer, threshold);
    }
  }

  /** Job `id` of `s` is done in `t`, and the report that waited for it is classified. */
  predicate Finishes(s: System, t: System, id: nat)
    requires id < |s.queue.entries|
  {
    var p := s.queue.entries[id].payload;
    && id < |t.queue.entries| && t.queue.entries[id].state.Done?
    && (p.Classify? && p.report < |s.docs| && R.CurrentPending(s.docs[p.report].report, p.request) ==>
          p.report < |t.docs| && t.docs[p.report].report.ai.status.AiDone?
          && t.docs[p.report].report.ai.request == p.request)
  }

  lemma HandlingFinishes(s: System, t: System, id: nat, w: nat, categories: seq<R.Category>, answer: R.Answer,
                         threshold: real)
    requires id < |s.queue.entries| && JustClaimed(s, t, id, w) && PhaseOk(t, w)
    requires R.ChosenCategory(categories, answer).Some?
    ensures Finishes(s, Run(t, Handle(t, w, categories, answer, threshold) + [Finish(w)]), id)
  {
    var handle := Handle(t, w, categories, answer, threshold);
    ClaimedIsHandled(t, w, categories, answer, threshold);
    FinishDone(Run(t, handle), w);
    RunComposes(t, handle, [Finish(w)]);
    StepRun(Run(t, handle), Finish(w));
  }

  lemma HandleIsOrdinary(t: System, w: nat, categories: seq<R.Category>, answer: R.Answer, threshold: real)
    requires Holds(t, w)
    ensures AllOrdinary(Handle(t, w, categories, answer, threshold) + [Finish(w)])
  {
  }

  /**
   From every reachable state, ordinary steps finish any unfinished job; and if a report waits for
   that job, they classify it.
   */
  lemma NeverStuck(acts: seq<Action>, id: nat, categories: seq<R.Category>, answer: R.Answer, threshold: real)
    returns (more: seq<Action>)
    requires id < |Run(Start, acts).queue.entries| && !Q.Finished(Run(Start, acts).queue.entries[id].state)
    requires R.ChosenCategory(categories, answer).Some?
    ensures AllOrdinary(more) && Finishes(Run(Start, acts), Run(Start, acts + more), id)
  {
    var s := Run(Start, acts);
    Reached(acts);
    var w := FreshNat(s.queue.workers.Keys);
    var claim := Reclaim(s, id, w);
    ReclaimClaims(s, id, w);
    ReclaimIsOrdinary(s, id, w);
    var t := Run(s, claim);
    assert PhaseOk(t, w);
    var rest := Handle(t, w, categories, answer, threshold) + [Finish(w)];
    HandlingFinishes(s, t, id, w, categories, answer, threshold);
    HandleIsOrdinary(t, w, categories, answer, threshold);
    more := claim + rest;
    RunComposes(Start, acts, more);
    RunComposes(s, claim, rest);
  }
}
