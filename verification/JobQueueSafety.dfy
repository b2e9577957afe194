/**
 What the queue's compare-and-set filters guarantee in every run: each attempt is recorded at most
 once, records land only on unfinished entries, attempts stay below the limit, and no attempt is
 claimed before the wait its predecessor recorded.
 */
module JobQueueSafety {
  import opened Basics
  import opened JobQueue

  /** The highest attempt number anyone may know of in the entry's current run key. */
  function Horizon(e: Entry): nat {
    e.attempts + (if Finished(e.state) then 0 else 1)
  }

  /** The attempt is one the entry has recorded, or the next one while it is unfinished. */
  predicate Bound(e: Entry, a: Attempt) {
    a.number >= 1 && (a.runKey < e.runKey || (a.runKey == e.runKey && a.number <= Horizon(e)))
  }

  /** The attempt has been recorded, in this run key or an earlier one. */
  predicate Past(e: Entry, a: Attempt) {
    a.number >= 1 && (a.runKey < e.runKey || (a.runKey == e.runKey && a.number <= e.attempts))
  }

  function NextOf(o: Offer): Attempt {
    Attempt(o.entry, o.runKey, o.attempts + 1)
  }

  /** If the attempt before this one recorded a wait, the wait is over. */
  predicate Ripe(s: State, a: Attempt) {
    a.number >= 1 ==>
      var before := a.(number := a.number - 1);
      before in s.outcomes && s.outcomes[before].RetryAt? ==> s.outcomes[before].time <= s.now
  }

  /** A job, offer or delivery in flight: it names a known attempt, and its wait is over. */
  predicate InFlight(s: State, a: Attempt) {
    a.entry < |s.entries| && Bound(s.entries[a.entry], a) && Ripe(s, a)
  }

  predicate WorkerOk(s: State, w: Worker) {
    && InFlight(s, w.job)
    && (w.job.runKey == s.entries[w.job.entry].runKey ==> w.payload == s.entries[w.job.entry].payload)
    && (w.Holding? ==> w.token < s.tokens)
  }

  /** While an entry waits for its retry time it is PENDING and still shows that time. */
  predicate Waiting(e: Entry, k: Attempt, o: Outcome, now: nat) {
    o.RetryAt? && k.runKey == e.runKey && k.number == e.attempts ==>
      o.time <= now || (e.state.Pending? && e.notBefore == Some(o.time))
  }

  predicate OutcomeOk(s: State, k: Attempt)
    requires k in s.outcomes
  {
    && k.entry < |s.entries|
    && Past(s.entries[k.entry], k)
    && Waiting(s.entries[k.entry], k, s.outcomes[k], s.now)
  }

  predicate EntryOk(s: State, e: Entry) {
    && (!Finished(e.state) ==> e.attempts < MaxAttempts(e.queue))
    && (e.lease.Some? ==> e.lease.value.token < s.tokens)
    && (e.state.Queued? ==> e.queuedAt.Some?)
  }

  ghost predicate EntriesOk(s: State) {
    forall id :: 0 <= id < |s.entries| ==> EntryOk(s, s.entries[id])
  }

  ghost predicate FlightsOk(s: State) {
    && (forall o :: o in s.offers ==> InFlight(s, NextOf(o)))
    && (forall j :: j in s.jobs ==> InFlight(s, j))
  }

  ghost predicate WorkersOk(s: State) {
    forall w :: w in s.workers ==> WorkerOk(s, s.workers[w])
  }

  ghost predicate OutcomesOk(s: State) {
    forall k :: k in s.outcomes ==> OutcomeOk(s, k)
  }

  /** No two deliveries hold the same claim token. */
  ghost predicate TokensDistinct(s: State) {
    forall v, w :: v in s.workers && w in s.workers && v != w && s.workers[v].Holding? && s.workers[w].Holding? ==>
      s.workers[v].token != s.workers[w].token
  }

  ghost predicate Inv(s: State) {
    EntriesOk(s) && FlightsOk(s) && WorkersOk(s) && OutcomesOk(s) && TokensDistinct(s)
  }

  /** How one step may move an entry: (runKey, attempts) grows, and a finished count stays finished. */
  predicate EntryGrows(e: Entry, f: Entry) {
    && f.queue == e.queue
    && (e.runKey < f.runKey
       || (e.runKey == f.runKey && e.attempts <= f.attempts && Horizon(e) <= Horizon(f) && e.payload == f.payload))
  }

  /** What every step does to entries, clocks and history. */
  ghost predicate Grows(s: State, t: State) {
    && |s.entries| <= |t.entries|
    && (forall id :: 0 <= id < |s.entries| ==> EntryGrows(s.entries[id], t.entries[id]))
    && s.now <= t.now && s.tokens <= t.tokens
    && (forall k :: k in s.outcomes ==> k in t.outcomes && t.outcomes[k] == s.outcomes[k])
    && (forall k :: k in t.outcomes && k !in s.outcomes ==> k.entry < |s.entries| && IsNext(s.entries[k.entry], k))
  }

  lemma InitInv()
    ensures Inv(Empty)
  {
  }

  // ----- how entries move -----

  predicate IsRecord(a: Action) {
    a.RefuseType? || a.RecordDone? || a.RecordFailure?
  }

  lemma RecordGrows(s: State, a: Action)
    requires OutcomesOk(s) && IsRecord(a)
    ensures Grows(s, Step(s, a))
  {
    if a.RefuseType? { RefusalGrows(s, a.worker); }
    else if a.RecordDone? { DoneGrows(s, a.worker); }
    else { FailureGrows(s, a.worker, a.failure); }
  }

  lemma RefusalGrows(s: State, w: nat)
    requires OutcomesOk(s)
    ensures Grows(s, JobQueue.Refused(s, w))
  {
  }

  lemma DoneGrows(s: State, w: nat)
    requires OutcomesOk(s)
    ensures Grows(s, RecordedDone(s, w))
  {
  }

  lemma FailureGrows(s: State, w: nat, f: Failure)
    requires OutcomesOk(s)
    ensures Grows(s, RecordedFailure(s, w, f))
  {
  }

  predicate EditsEntries(a: Action) {
    a.Enqueue? || a.ClaimJob? || a.Renew? || a.MarkOffered? || a.Retry? || a.Dismiss? || a.DismissReplaced?
  }

  lemma OtherGrows(s: State, a: Action)
    requires !IsRecord(a)
    ensures Grows(s, Step(s, a))
  {
    if EditsEntries(a) { EditGrows(s, a); } else { EntriesStay(s, a); }
  }

  lemma EditGrows(s: State, a: Action)
    requires EditsEntries(a)
    ensures Grows(s, Step(s, a))
  {
    match a
    case Enqueue(queue, payload) => NewEntryGrows(s, queue, payload);
    case ClaimJob(w, takeOver) => ClaimGrows(s, w, takeOver);
    case Renew(w) => RenewalGrows(s, w);
    case MarkOffered(o) => MarkGrows(s, o);
    case Retry(id, payload) => RetryGrows(s, id, payload);
    case Dismiss(id) => DismissalGrows(s, id);
    case DismissReplaced(report, keep) => ReplacementGrows(s, report, keep);
  }

  lemma NewEntryGrows(s: State, queue: Queue, payload: Payload)
    ensures Grows(s, s.(entries := s.entries + [NewEntry(queue, payload)]))
  {
  }

  lemma ClaimGrows(s: State, w: nat, takeOver: bool)
    ensures Grows(s, Claimed(s, w, takeOver))
  {
  }

  lemma RenewalGrows(s: State, w: nat)
    ensures Grows(s, Renewed(s, w))
  {
  }

  lemma MarkGrows(s: State, o: Offer)
    ensures Grows(s, Marked(s, o))
  {
  }

  lemma RetryGrows(s: State, id: nat, payload: Payload)
    ensures Grows(s, Retried(s, id, payload))
  {
  }

  lemma DismissalGrows(s: State, id: nat)
    ensures Grows(s, Step(s, Dismiss(id)))
  {
  }

  lemma ReplacementGrows(s: State, report: nat, keep: Option<nat>)
    ensures Grows(s, DismissedReplaced(s, report, keep))
  {
  }

  lemma EntriesStay(s: State, a: Action)
    requires !IsRecord(a) && !EditsEntries(a)
    ensures Grows(s, Step(s, a)) && Step(s, a).entries == s.entries
  {
  }

  lemma StepGrows(s: State, a: Action)
    requires OutcomesOk(s)
    ensures Grows(s, Step(s, a))
  {
    if IsRecord(a) { RecordGrows(s, a); } else { OtherGrows(s, a); }
  }

  // ----- what is in flight stays valid -----

  lemma FlightStays(s: State, t: State, a: Attempt)
    requires Grows(s, t) && InFlight(s, a)
    ensures InFlight(t, a)
  {
  }

  lemma OfferKeeps(s: State, a: Action, o: Offer)
    requires Inv(s) && Grows(s, Step(s, a)) && o in Step(s, a).offers
    ensures InFlight(Step(s, a), NextOf(o))
  {
    if o in s.offers {
      FlightStays(s, Step(s, a), NextOf(o));
    } else {
      NewOffer(s, a, o);
      OfferRipe(s, a.entry);
    }
  }

  lemma NewOffer(s: State, a: Action, o: Offer)
    requires o in Step(s, a).offers && o !in s.offers
    ensures a.RelayRead? || a.ReofferRead?
    ensures a.entry < |s.entries| && (Due(s.entries[a.entry], s.now) || LongQueued(s.entries[a.entry], s.now))
    ensures o.entry == a.entry && o.runKey == s.entries[a.entry].runKey && o.attempts == s.entries[a.entry].attempts
    ensures Step(s, a).entries == s.entries && Step(s, a).outcomes == s.outcomes && Step(s, a).now == s.now
  {
  }

  lemma JobKeeps(s: State, a: Action, j: Attempt)
    requires FlightsOk(s) && Grows(s, Step(s, a)) && j in Step(s, a).jobs
    ensures InFlight(Step(s, a), j)
  {
    if j in s.jobs {
      FlightStays(s, Step(s, a), j);
    } else {
      assert a.AddJob? && j == NextOf(a.offer);
    }
  }

  lemma FlightsKeep(s: State, a: Action)
    requires Inv(s)
    ensures FlightsOk(Step(s, a))
  {
    StepGrows(s, a);
    forall o | o in Step(s, a).offers ensures InFlight(Step(s, a), NextOf(o)) {
      OfferKeeps(s, a, o);
    }
    forall j | j in Step(s, a).jobs ensures InFlight(Step(s, a), j) {
      JobKeeps(s, a, j);
    }
  }

  /** An entry the relay may read has no wait left, whether it is due or queued. */
  lemma OfferRipe(s: State, id: nat)
    requires Inv(s) && id < |s.entries|
    requires Due(s.entries[id], s.now) || LongQueued(s.entries[id], s.now)
    ensures InFlight(s, Attempt(id, s.entries[id].runKey, s.entries[id].attempts + 1))
  {
    var k := Attempt(id, s.entries[id].runKey, s.entries[id].attempts);
    assert k in s.outcomes ==> OutcomeOk(s, k);
  }

  lemma WorkerStays(s: State, t: State, w: Worker)
    requires Grows(s, t) && WorkerOk(s, w)
    ensures WorkerOk(t, w)
  {
    FlightStays(s, t, w.job);
  }

  /** A delivery present after the step was there before, has just read its entry, or has just claimed it. */
  lemma WorkerKeeps(s: State, a: Action, w: nat)
    requires Grows(s, Step(s, a)) && FlightsOk(s)
    requires w in s.workers ==> WorkerOk(s, s.workers[w])
    requires w in Step(s, a).workers
    ensures WorkerOk(Step(s, a), Step(s, a).workers[w])
  {
    if w in s.workers {
      WorkerStays(s, Step(s, a), s.workers[w]);
      WorkerMoves(s, a, w);
    } else {
      NewWorker(s, a, w);
      assert InFlight(s, a.job);
    }
  }

  /** A delivery stays what it was, or has just claimed. */
  lemma WorkerMoves(s: State, a: Action, w: nat)
    requires w in s.workers && w in Step(s, a).workers
    ensures
      var before, after := s.workers[w], Step(s, a).workers[w];
      after == before
      || (before.Looking? && after == Holding(before.job, before.payload, before.lastError, s.tokens)
          && s.tokens < Step(s, a).tokens)
  {
  }

  lemma NewWorker(s: State, a: Action, w: nat)
    requires w !in s.workers && w in Step(s, a).workers
    ensures a.Deliver? && a.worker == w && a.job in s.jobs && a.job.entry < |s.entries|
    ensures
      var e := s.entries[a.job.entry];
      Step(s, a) == s.(workers := s.workers[w := Looking(a.job, e.payload, e.lastError, e.state)])
  {
  }

  lemma WorkersKeep(s: State, a: Action)
    requires Inv(s)
    ensures WorkersOk(Step(s, a))
  {
    var t := Step(s, a);
    StepGrows(s, a);
    forall w | w in t.workers ensures WorkerOk(t, t.workers[w]) {
      WorkerKeeps(s, a, w);
    }
  }

  lemma TokensKeep(s: State, a: Action)
    requires WorkersOk(s) && TokensDistinct(s)
    ensures TokensDistinct(Step(s, a))
  {
    forall w | w in s.workers ensures WorkerOk(s, s.workers[w]) {}
  }

  lemma EntryKeeps(s: State, a: Action, id: nat)
    requires id < |s.entries| && EntryOk(s, s.entries[id])
    requires |s.entries| <= |Step(s, a).entries| && s.tokens <= Step(s, a).tokens
    ensures EntryOk(Step(s, a), Step(s, a).entries[id])
  {
    if IsRecord(a) { RecordedEntryKeeps(s, a, id); }
    else if EditsEntries(a) { EditedEntryKeeps(s, a, id); }
    else { EntriesStay(s, a); }
  }

  lemma RecordedEntryKeeps(s: State, a: Action, id: nat)
    requires id < |s.entries| && EntryOk(s, s.entries[id]) && IsRecord(a)
    ensures |s.entries| <= |Step(s, a).entries| && EntryOk(Step(s, a), Step(s, a).entries[id])
  {
  }

  lemma EditedEntryKeeps(s: State, a: Action, id: nat)
    requires id < |s.entries| && EntryOk(s, s.entries[id]) && EditsEntries(a)
    requires |s.entries| <= |Step(s, a).entries|
    ensures EntryOk(Step(s, a), Step(s, a).entries[id])
  {
  }

  lemma EntriesKeep(s: State, a: Action)
    requires Inv(s)
    ensures EntriesOk(Step(s, a))
  {
    var t := Step(s, a);
    StepGrows(s, a);
    forall id | 0 <= id < |t.entries| ensures EntryOk(t, t.entries[id]) {
      if id < |s.entries| {
        EntryKeeps(s, a, id);
      } else {
        assert a.Enqueue?;
      }
    }
  }

  lemma OldOutcomeKeeps(s: State, a: Action, k: Attempt)
    requires k in s.outcomes && OutcomeOk(s, k)
    requires Grows(s, Step(s, a)) && FlightsOk(s)
    ensures OutcomeOk(Step(s, a), k)
  {
    assert EntryGrows(s.entries[k.entry], Step(s, a).entries[k.entry]);
    if IsRecord(a) { RecordKeepsOutcome(s, a, k); }
    else if a.MarkOffered? { MarkKeepsOutcome(s, a.offer, k); }
    else if EditsEntries(a) { EditKeepsOutcome(s, a, k); }
    else { EntriesStay(s, a); }
  }

  lemma RecordKeepsOutcome(s: State, a: Action, k: Attempt)
    requires k in s.outcomes && OutcomeOk(s, k) && Grows(s, Step(s, a)) && IsRecord(a)
    requires EntryGrows(s.entries[k.entry], Step(s, a).entries[k.entry])
    ensures OutcomeOk(Step(s, a), k)
  {
  }

  lemma MarkKeepsOutcome(s: State, o: Offer, k: Attempt)
    requires k in s.outcomes && OutcomeOk(s, k) && FlightsOk(s)
    ensures OutcomeOk(Marked(s, o), k)
  {
    if o in s.offers && o.entry == k.entry {
      assert InFlight(s, NextOf(o));
      assert NextOf(o).(number := o.attempts) == Attempt(k.entry, o.runKey, o.attempts);
    }
  }

  lemma EditKeepsOutcome(s: State, a: Action, k: Attempt)
    requires k in s.outcomes && OutcomeOk(s, k) && EditsEntries(a) && !a.MarkOffered? && Grows(s, Step(s, a))
    ensures OutcomeOk(Step(s, a), k)
  {
  }

  lemma NewOutcomeOk(s: State, a: Action, k: Attempt)
    requires WorkersOk(s)
    requires k !in s.outcomes && k in Step(s, a).outcomes
    ensures OutcomeOk(Step(s, a), k)
  {
    assert IsRecord(a);
    assert k == s.workers[a.worker].job && WorkerOk(s, s.workers[a.worker]);
  }

  lemma OutcomesKeep(s: State, a: Action)
    requires Inv(s)
    ensures OutcomesOk(Step(s, a))
  {
    StepGrows(s, a);
    forall k | k in Step(s, a).outcomes ensures OutcomeOk(Step(s, a), k) {
      if k in s.outcomes { OldOutcomeKeeps(s, a, k); } else { NewOutcomeOk(s, a, k); }
    }
  }

  lemma StepKeeps(s: State, a: Action)
    requires Inv(s)
    ensures Inv(Step(s, a)) && Grows(s, Step(s, a))
  {
    StepGrows(s, a);
    EntriesKeep(s, a);
    FlightsKeep(s, a);
    WorkersKeep(s, a);
    OutcomesKeep(s, a);
    TokensKeep(s, a);
  }

  // ----- what the other deliveries cannot do to a claim -----

  /** The delivery a queue step belongs to. */
  predicate Touches(a: Action, w: nat) {
    || (a.RefuseType? && a.worker == w) || (a.ClaimJob? && a.worker == w) || (a.RecordDone? && a.worker == w)
    || (a.RecordFailure? && a.worker == w) || (a.Crash? && a.worker == w)
  }

  /** A holding delivery goes on holding, and its claim on the entry is never given back to it. */
  predicate ClaimKept(s: State, t: State, w: nat)
    requires IsHolding(s, w)
  {
    var h := s.workers[w];
    && w in t.workers && t.workers[w] == h && |s.entries| <= |t.entries|
    && (HasLease(t.entries[h.job.entry], h.job.runKey, h.token) ==>
          HasLease(s.entries[h.job.entry], h.job.runKey, h.token))
  }

  lemma StepKeepsClaim(s: State, a: Action, w: nat)
    requires IsHolding(s, w) && WorkerOk(s, s.workers[w]) && !Touches(a, w)
    requires a.Renew? && a.worker != w && IsHolding(s, a.worker) ==> s.workers[a.worker].token != s.workers[w].token
    ensures ClaimKept(s, Step(s, a), w)
  {
  }

  lemma {:induction false} RunKeepsClaim(s: State, acts: seq<Action>, w: nat)
    requires Inv(s) && IsHolding(s, w) && forall i :: 0 <= i < |acts| ==> !Touches(acts[i], w)
    ensures ClaimKept(s, Run(s, acts), w)
    decreases |acts|
  {
    if acts != [] {
      assert WorkerOk(s, s.workers[w]);
      StepKeepsClaim(s, acts[0], w);
      StepKeeps(s, acts[0]);
      RunKeepsClaim(Step(s, acts[0]), acts[1..], w);
    }
  }

  /** A delivery holds a claim because it held it before or has just made it. */
  lemma HolderOrigin(s: State, a: Action, w: nat)
    requires w in Step(s, a).workers && Step(s, a).workers[w].Holding?
    ensures (w in s.workers && s.workers[w].Holding?) || (a.ClaimJob? && a.worker == w && Claims(s, w, a.takeOver))
  {
  }

  lemma {:induction false} RunHolderOrigin(s: State, acts: seq<Action>, w: nat)
    requires w in Run(s, acts).workers && Run(s, acts).workers[w].Holding?
    requires forall i :: 0 <= i < |acts| ==> !acts[i].ClaimJob?
    ensures w in s.workers && s.workers[w].Holding?
    decreases |acts|
  {
    if acts != [] {
      RunHolderOrigin(Step(s, acts[0]), acts[1..], w);
      HolderOrigin(s, acts[0], w);
    }
  }

  // ----- whole runs -----

  lemma {:induction false} RunKeeps(s: State, acts: seq<Action>)
    requires Inv(s)
    ensures Inv(Run(s, acts))
    decreases |acts|
  {
    if acts != [] {
      StepKeeps(s, acts[0]);
      RunKeeps(Step(s, acts[0]), acts[1..]);
    }
  }

  lemma {:induction false} RunComposes(s: State, first: seq<Action>, second: seq<Action>)
    ensures Run(s, first + second) == Run(Run(s, first), second)
    decreases |first|
  {
    if first == [] {
      assert first + second == second;
    } else {
      assert (first + second)[1..] == first[1..] + second;
      RunComposes(Step(s, first[0]), first[1..], second);
    }
  }

  /** What is kept between any two points of a run. */
  ghost predicate Later(s: State, t: State) {
    && s.now <= t.now
    && |s.entries| <= |t.entries|
    && (forall id :: 0 <= id < |s.entries| ==> EntryGrows(s.entries[id], t.entries[id]))
    && (forall k :: k in s.outcomes ==> k in t.outcomes && t.outcomes[k] == s.outcomes[k])
  }

  lemma LaterTransitive(s: State, t: State, u: State)
    requires Grows(s, t) && Later(t, u)
    ensures Later(s, u)
  {
    forall id | 0 <= id < |s.entries| ensures EntryGrows(s.entries[id], u.entries[id]) {
      assert EntryGrows(s.entries[id], t.entries[id]) && EntryGrows(t.entries[id], u.entries[id]);
    }
  }

  lemma {:induction false} RunLater(s: State, acts: seq<Action>)
    requires Inv(s)
    ensures Later(s, Run(s, acts))
    decreases |acts|
  {
    if acts != [] {
      StepKeeps(s, acts[0]);
      RunLater(Step(s, acts[0]), acts[1..]);
      LaterTransitive(s, Step(s, acts[0]), Run(s, acts));
    }
  }

  // ----- the queue's promises, over every run -----

  /**
   However an attempt was delivered, re-offered or taken over, its record is made once: a record
   that matches finds the entry unfinished and the attempt unrecorded, and stores exactly that
   attempt.
   */
  lemma AttemptRecordedOnce(acts: seq<Action>, a: Action)
    requires a.RecordDone? || a.RecordFailure? || a.RefuseType?
    requires var s := Run(Empty, acts); if a.RefuseType? then Refuses(s, a.worker) else Records(s, a.worker)
    ensures
      var s, t := Run(Empty, acts), Run(Empty, acts + [a]);
      var job := s.workers[a.worker].job;
      && !Finished(s.entries[job.entry].state)
      && job !in s.outcomes
      && t.outcomes.Keys == s.outcomes.Keys + {job}
      && |t.entries| == |s.entries|
      && t.entries[job.entry].runKey == job.runKey && t.entries[job.entry].attempts == job.number
  {
    var s := Run(Empty, acts);
    InitInv();
    RunKeeps(Empty, acts);
    RunComposes(Empty, acts, [a]);
    var job := s.workers[a.worker].job;
    assert WorkerOk(s, s.workers[a.worker]);
    assert job in s.outcomes ==> OutcomeOk(s, job);
    assert Run(s, [a]) == Step(s, a);
  }

  /** What was recorded for an attempt is never rewritten, and (runKey, attempts) only grows. */
  lemma HistoryIsKept(acts: seq<Action>, more: seq<Action>)
    ensures Later(Run(Empty, acts), Run(Empty, acts + more))
  {
    InitInv();
    RunKeeps(Empty, acts);
    RunComposes(Empty, acts, more);
    RunLater(Run(Empty, acts), more);
  }

  /** Once an attempt is recorded, no delivery of it, now or later, can record again. */
  lemma RecordedAttemptIsClosed(acts: seq<Action>, more: seq<Action>, w: nat)
    requires IsHolding(Run(Empty, acts + more), w)
    requires Run(Empty, acts + more).workers[w].job in Run(Empty, acts).outcomes
    ensures !Records(Run(Empty, acts + more), w)
  {
    HistoryIsKept(acts, more);
    if Records(Run(Empty, acts + more), w) {
      AttemptRecordedOnce(acts + more, RecordDone(w));
    }
  }

  /** An unfinished entry always has a try left. */
  lemma AttemptsBelowLimit(acts: seq<Action>, id: nat)
    requires id < |Run(Empty, acts).entries|
    ensures
      var e := Run(Empty, acts).entries[id];
      !Finished(e.state) ==> e.attempts < MaxAttempts(e.queue)
  {
    InitInv();
    RunKeeps(Empty, acts);
    assert EntryOk(Run(Empty, acts), Run(Empty, acts).entries[id]);
  }

  /** The entry is still finished with its count, or an administrator has started it again under a later run key. */
  predicate Rests(e: Entry, f: Entry) {
    Finished(e.state) ==> e.runKey < f.runKey || (e.runKey == f.runKey && Finished(f.state) && f.attempts == e.attempts)
  }

  lemma RecordRests(s: State, a: Action, id: nat)
    requires WorkersOk(s) && IsRecord(a) && id < |s.entries|
    ensures id < |Step(s, a).entries| && Rests(s.entries[id], Step(s, a).entries[id])
  {
    if a.worker in s.workers { assert WorkerOk(s, s.workers[a.worker]); }
  }

  lemma StepRests(s: State, a: Action, id: nat)
    requires Inv(s) && id < |s.entries|
    ensures id < |Step(s, a).entries| && Rests(s.entries[id], Step(s, a).entries[id])
  {
    if IsRecord(a) { RecordRests(s, a, id); }
    else if EditsEntries(a) { EditRests(s, a, id); }
    else { EntriesStay(s, a); }
  }

  lemma EditRests(s: State, a: Action, id: nat)
    requires EditsEntries(a) && id < |s.entries|
    ensures id < |Step(s, a).entries| && Rests(s.entries[id], Step(s, a).entries[id])
  {
  }

  lemma {:induction false} RunRests(s: State, acts: seq<Action>, id: nat)
    requires Inv(s) && id < |s.entries|
    ensures id < |Run(s, acts).entries| && Rests(s.entries[id], Run(s, acts).entries[id])
    decreases |acts|
  {
    if acts != [] {
      StepKeeps(s, acts[0]);
      StepRests(s, acts[0], id);
      RunLater(Step(s, acts[0]), acts[1..]);
      RunRests(Step(s, acts[0]), acts[1..], id);
    }
  }

  /** A finished entry stays finished and records nothing more under its run key, whatever still runs for it. */
  lemma FinishedStaysFinished(acts: seq<Action>, more: seq<Action>, id: nat)
    requires id < |Run(Empty, acts).entries|
    ensures id < |Run(Empty, acts + more).entries|
    ensures Rests(Run(Empty, acts).entries[id], Run(Empty, acts + more).entries[id])
  {
    InitInv();
    RunKeeps(Empty, acts);
    RunComposes(Empty, acts, more);
    RunRests(Run(Empty, acts), more, id);
  }

  /** No attempt is claimed before the time its predecessor recorded, whoever offered or re-offered it. */
  lemma NeverClaimedEarly(acts: seq<Action>, w: nat, takeOver: bool)
    requires Claims(Run(Empty, acts), w, takeOver)
    ensures
      var s := Run(Empty, acts);
      var job := s.workers[w].job;
      && job.number >= 1
      && var before := job.(number := job.number - 1);
         before in s.outcomes && s.outcomes[before].RetryAt? ==> s.outcomes[before].time <= s.now
  {
    InitInv();
    RunKeeps(Empty, acts);
    assert WorkerOk(Run(Empty, acts), Run(Empty, acts).workers[w]);
  }
}
