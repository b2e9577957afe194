/** How long an entry is kept waiting by the failures of one run key, over every run. */
module JobQueueWaits {
  import opened Basics
  import opened JobQueue
  import opened JobQueueSafety

  // ----- the sum of the back-offs -----

  /** The waits scheduled by the failures of a run key that makes `n` attempts. */
  function TotalWait(base: nat, cap: nat, n: nat): nat {
    if n <= 1 then 0 else TotalWait(base, cap, n - 1) + Backoff(base, cap, n - 1)
  }

  lemma Doubling(base: nat, n: nat)
    requires n >= 1
    ensures Pow2(n) == 2 * Pow2(n - 1)
    ensures base * (Pow2(n) - 1) == base * (Pow2(n - 1) - 1) + base * Pow2(n - 1)
  {
    var p := Pow2(n - 1);
    assert base * (2 * p - 1) == base * (p - 1) + base * p;
  }

  lemma BackoffBounds(base: nat, cap: nat, attempt: nat)
    requires attempt >= 1
    ensures Backoff(base, cap, attempt) <= base * Pow2(attempt - 1)
    ensures Backoff(base, cap, attempt) <= cap
  {
    assert Max(0, attempt - 1) == attempt - 1;
  }

  /** Without provider waits, n attempts wait at most base * (2^(n-1) - 1), and at most cap each. */
  lemma {:induction false} TotalWaitBounded(base: nat, cap: nat, n: nat)
    requires n >= 1
    ensures TotalWait(base, cap, n) <= base * (Pow2(n - 1) - 1)
    ensures TotalWait(base, cap, n) <= (n - 1) * cap
  {
    if n > 1 {
      TotalWaitBounded(base, cap, n - 1);
      BackoffBounds(base, cap, n - 1);
      assert TotalWait(base, cap, n) == TotalWait(base, cap, n - 1) + Backoff(base, cap, n - 1);
      Doubling(base, n - 1);
      OneMore(n - 1, cap);
    }
  }

  lemma OneMore(n: nat, cap: nat)
    requires n >= 1
    ensures n * cap == (n - 1) * cap + cap
  {
  }

  /** The bound base * (2^(n-1) - 1) is met exactly when the last wait is not cut by the cap. */
  lemma {:induction false} TotalWaitExact(base: nat, cap: nat, n: nat)
    requires n >= 2
    ensures TotalWait(base, cap, n) == base * (Pow2(n - 1) - 1) <==> base * Pow2(n - 2) <= cap
  {
    TotalWaitBounded(base, cap, n - 1);
    Doubling(base, n - 1);
    if n > 2 {
      TotalWaitExact(base, cap, n - 1);
      Doubling(base, n - 2);
      HalfIsLess(base, Pow2(n - 3));
    }
  }

  lemma HalfIsLess(base: nat, p: nat)
    ensures base * p <= base * (2 * p)
  {
    assert base * (2 * p) == base * p + base * p;
  }

  // ----- the waits of a run -----

  /** The wait a step schedules for the entry under that run key. */
  function WaitOf(s: State, a: Action, id: nat, runKey: nat): nat {
    if a.RecordFailure? && Records(s, a.worker) then
      var job := s.workers[a.worker].job;
      var e := s.entries[job.entry];
      if job.entry == id && job.runKey == runKey && !IsFinal(e, job, a.failure) then WaitFor(e, job, a.failure) else 0
    else 0
  }

  /** All the waits a run schedules for the entry under that run key. */
  function WaitsOf(s: State, acts: seq<Action>, id: nat, runKey: nat): nat
    decreases |acts|
  {
    if acts == [] then 0 else WaitOf(s, acts[0], id, runKey) + WaitsOf(Step(s, acts[0]), acts[1..], id, runKey)
  }

  /** No provider names a wait of its own. */
  predicate NoRetryAfter(acts: seq<Action>) {
    forall i :: 0 <= i < |acts| && acts[i].RecordFailure? ==> acts[i].failure.retryAfter.None?
  }

  /** The attempts of the entry recorded under that run key. */
  function RecordedUnder(s: State, id: nat, runKey: nat): set<Attempt> {
    set k | k in s.outcomes && k.entry == id && k.runKey == runKey
  }

  /** An attempt under that run key is still to come. */
  predicate OneToCome(s: State, id: nat, runKey: nat) {
    id < |s.entries| && s.entries[id].runKey == runKey && !Finished(s.entries[id].state)
  }

  /** The attempts of the run key: those recorded, and the one to come while the entry is unfinished under it. */
  function Attempts(s: State, id: nat, runKey: nat): nat {
    |RecordedUnder(s, id, runKey)| + if OneToCome(s, id, runKey) then 1 else 0
  }

  function Scheduled(queue: Queue, n: nat): nat {
    TotalWait(BackoffBase(queue), BackoffCap(queue), n)
  }

  // ----- recorded attempts are counted by the entry -----

  /** The entry counts the attempts of its present run key; a later one has none, and none has more than the limit. */
  predicate CountOk(s: State, id: nat, runKey: nat) {
    var n := |RecordedUnder(s, id, runKey)|;
    if id >= |s.entries| || s.entries[id].runKey < runKey then n == 0
    else
      && n <= MaxAttempts(s.entries[id].queue)
      && (s.entries[id].runKey == runKey ==> n == s.entries[id].attempts)
  }

  lemma RecordedMore(s: State, t: State, job: Attempt, o: Outcome, id: nat, runKey: nat)
    requires t.outcomes == s.outcomes[job := o] && job !in s.outcomes
    ensures |RecordedUnder(t, id, runKey)|
      == |RecordedUnder(s, id, runKey)| + if job.entry == id && job.runKey == runKey then 1 else 0
  {
    if job.entry == id && job.runKey == runKey {
      assert RecordedUnder(t, id, runKey) == RecordedUnder(s, id, runKey) + {job};
    } else {
      assert RecordedUnder(t, id, runKey) == RecordedUnder(s, id, runKey);
    }
  }

  /** What a record does to the entry and to history. */
  predicate RecordsAttempt(s: State, t: State, job: Attempt) {
    && job.entry < |s.entries| == |t.entries| && IsNext(s.entries[job.entry], job)
    && !Finished(s.entries[job.entry].state) && job !in s.outcomes && job in t.outcomes
    && t.outcomes == s.outcomes[job := t.outcomes[job]]
    && t.entries == s.entries[job.entry := t.entries[job.entry]]
    && (var e, f := s.entries[job.entry], t.entries[job.entry];
        f.runKey == e.runKey && f.attempts == job.number && f.queue == e.queue
        && (Finished(f.state) || job.number < MaxAttempts(e.queue))
        && (Finished(f.state) <==> !t.outcomes[job].RetryAt?))
  }

  lemma RecordCounts(s: State, t: State, job: Attempt, id: nat, runKey: nat)
    requires CountOk(s, id, runKey) && RecordsAttempt(s, t, job)
    requires s.entries[job.entry].attempts < MaxAttempts(s.entries[job.entry].queue)
    ensures CountOk(t, id, runKey)
    ensures Attempts(t, id, runKey) == Attempts(s, id, runKey)
      + if job.entry == id && job.runKey == runKey && t.outcomes[job].RetryAt? then 1 else 0
  {
    RecordedMore(s, t, job, t.outcomes[job], id, runKey);
  }

  /** No other step records anything, and only a retry of a failed entry changes its run key. */
  predicate NoRecord(s: State, t: State, id: nat) {
    && t.outcomes == s.outcomes && |s.entries| <= |t.entries|
    && (id < |s.entries| ==>
          var e, f := s.entries[id], t.entries[id];
          && f.queue == e.queue
          && ((f.runKey == e.runKey && f.attempts == e.attempts && (Finished(f.state) <==> Finished(e.state)))
              || (e.state.Failed? && f.runKey == e.runKey + 1 && f.attempts == 0 && f.state.Pending?)))
    && (|s.entries| <= id < |t.entries| ==>
          t.entries[id].runKey == 0 && t.entries[id].attempts == 0 && t.entries[id].state.Pending?)
  }

  lemma OthersCount(s: State, t: State, id: nat, runKey: nat)
    requires CountOk(s, id, runKey) && NoRecord(s, t, id)
    ensures CountOk(t, id, runKey)
    ensures Attempts(t, id, runKey) == Attempts(s, id, runKey)
      || (Attempts(s, id, runKey) == 0 && Attempts(t, id, runKey) == 1)
  {
    assert RecordedUnder(t, id, runKey) == RecordedUnder(s, id, runKey);
  }

  /** Whether the step records an attempt, and which. */
  predicate IsRecording(s: State, a: Action) {
    && IsRecord(a)
    && (if a.RefuseType? then Refuses(s, a.worker) else Records(s, a.worker))
  }

  lemma RecordingRecords(s: State, a: Action)
    requires IsRecording(s, a) && Inv(s)
    ensures RecordsAttempt(s, Step(s, a), s.workers[a.worker].job)
    ensures s.entries[s.workers[a.worker].job.entry].attempts
      < MaxAttempts(s.entries[s.workers[a.worker].job.entry].queue)
  {
    var job := s.workers[a.worker].job;
    assert WorkerOk(s, s.workers[a.worker]) && EntryOk(s, s.entries[job.entry]);
    assert job in s.outcomes ==> OutcomeOk(s, job);
  }

  lemma OthersDoNotRecord(s: State, a: Action, id: nat)
    requires !IsRecording(s, a)
    ensures NoRecord(s, Step(s, a), id)
  {
    if EditsEntries(a) { EditsDoNotRecord(s, a, id); }
  }

  lemma EditsDoNotRecord(s: State, a: Action, id: nat)
    requires EditsEntries(a)
    ensures NoRecord(s, Step(s, a), id)
  {
  }

  // ----- every step, every run -----

  /** A retry of attempt k adds the wait after attempt k to the schedule, and no other step adds any. */
  lemma StepSchedules(s: State, a: Action, id: nat, runKey: nat, queue: Queue)
    requires Inv(s) && CountOk(s, id, runKey) && (a.RecordFailure? ==> a.failure.retryAfter.None?)
    requires id < |s.entries| ==> s.entries[id].queue == queue
    ensures CountOk(Step(s, a), id, runKey)
    ensures WaitOf(s, a, id, runKey) + Scheduled(queue, Attempts(s, id, runKey))
      == Scheduled(queue, Attempts(Step(s, a), id, runKey))
  {
    if IsRecording(s, a) {
      var job := s.workers[a.worker].job;
      RecordingRecords(s, a);
      RecordCounts(s, Step(s, a), job, id, runKey);
      WaitRecorded(s, a, id, runKey);
    } else {
      OthersDoNotRecord(s, a, id);
      OthersCount(s, Step(s, a), id, runKey);
    }
  }

  lemma WaitRecorded(s: State, a: Action, id: nat, runKey: nat)
    requires IsRecording(s, a) && (a.RecordFailure? ==> a.failure.retryAfter.None?)
    ensures
      var job := s.workers[a.worker].job;
      var e := s.entries[job.entry];
      && job in Step(s, a).outcomes
      && WaitOf(s, a, id, runKey) ==
           if job.entry == id && job.runKey == runKey && Step(s, a).outcomes[job].RetryAt?
           then Backoff(BackoffBase(e.queue), BackoffCap(e.queue), e.attempts + 1) else 0
  {
  }

  lemma {:induction false} RunSchedules(s: State, acts: seq<Action>, id: nat, runKey: nat, queue: Queue)
    requires Inv(s) && CountOk(s, id, runKey) && NoRetryAfter(acts)
    requires id < |Run(s, acts).entries| && Run(s, acts).entries[id].queue == queue
    ensures CountOk(Run(s, acts), id, runKey)
    ensures WaitsOf(s, acts, id, runKey) + Scheduled(queue, Attempts(s, id, runKey))
      == Scheduled(queue, Attempts(Run(s, acts), id, runKey))
    decreases |acts|
  {
    if acts != [] {
      StepKeeps(s, acts[0]);
      RunLater(s, acts);
      assert id < |s.entries| ==> EntryGrows(s.entries[id], Run(s, acts).entries[id]);
      StepSchedules(s, acts[0], id, runKey, queue);
      RunSchedules(Step(s, acts[0]), acts[1..], id, runKey, queue);
    }
  }

  /**
   In every run, the failures of one run key with n attempts schedule exactly the first n - 1 back-offs;
   so they stay within both bounds, and n within the queue's limit. It counts the attempts recorded under
   the run key, whether the entry is past it or not, and the one to come while it is unfinished.
   */
  lemma WaitsAreBounded(acts: seq<Action>, id: nat, runKey: nat)
    requires NoRetryAfter(acts) && id < |Run(Empty, acts).entries|
    ensures
      var t := Run(Empty, acts);
      var queue, n := t.entries[id].queue, Attempts(t, id, runKey);
      && WaitsOf(Empty, acts, id, runKey) == TotalWait(BackoffBase(queue), BackoffCap(queue), n)
      && n <= MaxAttempts(queue)
      && (n == 0 ==> WaitsOf(Empty, acts, id, runKey) == 0)
      && (n >= 1 ==>
            && WaitsOf(Empty, acts, id, runKey) <= BackoffBase(queue) * (Pow2(n - 1) - 1)
            && WaitsOf(Empty, acts, id, runKey) <= (n - 1) * BackoffCap(queue))
  {
    var t := Run(Empty, acts);
    var queue, n := t.entries[id].queue, Attempts(t, id, runKey);
    InitInv();
    RunKeeps(Empty, acts);
    assert RecordedUnder(Empty, id, runKey) == {};
    RunSchedules(Empty, acts, id, runKey, queue);
    assert EntryOk(t, t.entries[id]);
    if n >= 1 { TotalWaitBounded(BackoffBase(queue), BackoffCap(queue), n); }
  }
}
