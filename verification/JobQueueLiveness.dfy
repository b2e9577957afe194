/**
 No unfinished entry is ever stuck: whatever was lost (Redis jobs, workers, a relay that stopped
 between offering and marking), letting time pass and running the relay and one worker finishes it.
 */
module JobQueueLiveness {
  import opened Basics
  import opened JobQueue
  import opened JobQueueSafety

  /** Steps a deployment takes by itself: no administrator, no crash, no loss. */
  predicate Ordinary(a: Action) {
    a.Tick? || a.RelayRead? || a.ReofferRead? || a.AddJob? || a.MarkOffered?
    || a.Deliver? || a.ClaimJob? || a.RecordDone?
  }

  /** Long enough for the entry's retry time, re-offer time and any leftover claim to pass. */
  function LongWait(e: Entry): nat {
    e.notBefore.GetOr(0) + e.queuedAt.GetOr(0) + (if e.lease.Some? then e.lease.value.at else 0)
    + REOFFER_AFTER_MS + CLAIM_AFTER_MS + 1
  }

  /** The entry as the relay will read it. */
  function OfferFor(s: State, id: nat): Offer
    requires id < |s.entries|
  {
    Offer(id, s.entries[id].runKey, s.entries[id].attempts, s.entries[id].state.Pending?)
  }

  /** Wait, read the entry (again), put its job in Redis and mark it. */
  function OfferSteps(s: State, id: nat): seq<Action>
    requires id < |s.entries|
  {
    var o := OfferFor(s, id);
    [Tick(LongWait(s.entries[id])), ReadFor(s, id), AddJob(o), MarkOffered(o)]
  }

  lemma RunCons(s: State, a: Action, rest: seq<Action>)
    ensures Run(s, [a] + rest) == Run(Step(s, a), rest)
  {
    assert ([a] + rest)[1..] == rest;
  }

  lemma RunFour(s: State, a: Action, b: Action, c: Action, d: Action)
    ensures Run(s, [a, b, c, d]) == Step(Step(Step(Step(s, a), b), c), d)
  {
    var t, u := Step(s, a), Step(Step(s, a), b);
    assert [a, b, c, d] == [a] + [b, c, d] && [b, c, d] == [b] + [c, d] && [c, d] == [c] + [d] && [d] == [d] + [];
    RunCons(s, a, [b, c, d]);
    RunCons(t, b, [c, d]);
    RunCons(u, c, [d]);
    RunCons(Step(u, c), d, []);
  }

  function ReadFor(s: State, id: nat): Action
    requires id < |s.entries|
  {
    if s.entries[id].state.Pending? then RelayRead(id) else ReofferRead(id)
  }

  lemma ReadOffers(s: State, id: nat)
    requires id < |s.entries| && (Due(s.entries[id], s.now) || LongQueued(s.entries[id], s.now))
    ensures Step(s, ReadFor(s, id)) == s.(offers := s.offers + {OfferFor(s, id)})
  {
  }

  lemma MarkQueues(s: State, o: Offer)
    requires o in s.offers && o.entry < |s.entries| && OfferMatches(s.entries[o.entry], o)
    ensures
      var e, t := s.entries[o.entry], Step(s, MarkOffered(o));
      && t.workers == s.workers && t.jobs == s.jobs && t.now == s.now && |t.entries| == |s.entries|
      && t.entries[o.entry] ==
           e.(state := Queued, queuedAt := Some(s.now), notBefore := if o.first then None else e.notBefore)
  {
  }

  /** Those steps put the entry's next attempt in Redis and leave the entry QUEUED, its old claim stale. */
  lemma OfferReaches(s: State, id: nat)
    requires id < |s.entries| && EntryOk(s, s.entries[id]) && !Finished(s.entries[id].state)
    ensures
      var e, t := s.entries[id], Run(s, OfferSteps(s, id));
      && t.workers == s.workers && |t.entries| == |s.entries|
      && NextOf(OfferFor(s, id)) in t.jobs && IsNext(t.entries[id], NextOf(OfferFor(s, id)))
      && t.entries[id].state.Queued? && t.entries[id].lease == e.lease
      && t.entries[id].queue == e.queue && t.entries[id].payload == e.payload
      && (e.lease.Some? ==> e.lease.value.at + CLAIM_AFTER_MS < t.now)
  {
    var e := s.entries[id];
    var o := OfferFor(s, id);
    var s1 := Step(s, Tick(LongWait(e)));
    assert s1 == s.(now := s.now + LongWait(e));
    ReadOffers(s1, id);
    var s2 := Step(s1, ReadFor(s1, id));
    var s3 := Step(s2, AddJob(o));
    assert s3 == s2.(jobs := s2.jobs + {NextOf(o)});
    MarkQueues(s3, o);
    RunFour(s, Tick(LongWait(e)), ReadFor(s, id), AddJob(o), MarkOffered(o));
  }

  /** A queued entry whose claim is free or stale goes to the worker its job is delivered to. */
  lemma DeliveryClaims(s: State, job: Attempt, w: nat)
    requires job.entry < |s.entries| && s.entries[job.entry].state.Queued? && w !in s.workers
    requires s.entries[job.entry].lease.Some? ==> s.entries[job.entry].lease.value.at + CLAIM_AFTER_MS < s.now
    requires job in s.jobs && IsNext(s.entries[job.entry], job)
    ensures
      var e, t := s.entries[job.entry], Run(s, [Deliver(w, job), ClaimJob(w, false)]);
      && Records(t, w) && t.workers[w].job == job && t.workers[w].payload == e.payload
      && |t.entries| == |s.entries|
      && t.entries[job.entry].queue == e.queue && t.entries[job.entry].payload == e.payload
      && t.entries[job.entry].state.Queued?
  {
    var t := Step(s, Deliver(w, job));
    assert t.workers[w] ==
      Looking(job, s.entries[job.entry].payload, s.entries[job.entry].lastError, s.entries[job.entry].state);
    assert Claims(t, w, false);
    assert [Deliver(w, job), ClaimJob(w, false)] == [Deliver(w, job)] + ([ClaimJob(w, false)] + []);
    RunCons(s, Deliver(w, job), [ClaimJob(w, false)] + []);
    RunCons(t, ClaimJob(w, false), []);
  }

  /** Offer the entry, deliver its job and claim it. */
  function Reclaim(s: State, id: nat, w: nat): seq<Action>
    requires id < |s.entries|
  {
    OfferSteps(s, id) + [Deliver(w, NextOf(OfferFor(s, id))), ClaimJob(w, false)]
  }

  /** After those steps the worker holds the claim on the entry's next attempt. */
  lemma ReclaimClaims(s: State, id: nat, w: nat)
    requires Inv(s) && id < |s.entries| && !Finished(s.entries[id].state) && w !in s.workers
    ensures
      var e, t := s.entries[id], Run(s, Reclaim(s, id, w));
      && Records(t, w) && t.workers[w].job == NextOf(OfferFor(s, id)) && t.workers[w].payload == e.payload
      && |t.entries| == |s.entries|
      && t.entries[id].queue == e.queue && t.entries[id].payload == e.payload
      && t.entries[id].state.Queued?
  {
    assert EntryOk(s, s.entries[id]);
    OfferReaches(s, id);
    DeliveryClaims(Run(s, OfferSteps(s, id)), NextOf(OfferFor(s, id)), w);
    RunComposes(s, OfferSteps(s, id), [Deliver(w, NextOf(OfferFor(s, id))), ClaimJob(w, false)]);
  }

  lemma NeverStuck(acts: seq<Action>, id: nat) returns (more: seq<Action>)
    requires id < |Run(Empty, acts).entries| && !Finished(Run(Empty, acts).entries[id].state)
    ensures forall a :: a in more ==> Ordinary(a)
    ensures id < |Run(Empty, acts + more).entries| && Run(Empty, acts + more).entries[id].state.Done?
  {
    var s := Run(Empty, acts);
    InitInv();
    RunKeeps(Empty, acts);
    var w := FreshNat(s.workers.Keys);
    var claim := Reclaim(s, id, w);
    ReclaimClaims(s, id, w);
    more := claim + [RecordDone(w)];
    var t := Run(s, claim);
    RunComposes(s, claim, [RecordDone(w)]);
    assert Run(t, [RecordDone(w)]) == Step(t, RecordDone(w));
    RunComposes(Empty, acts, more);
  }
}
