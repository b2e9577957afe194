/**
 The executor and the relay as the loops and conditional updates they are. Between any two of their
 own updates everyone else may take any number of steps of the queue.
 */
module JobWorkers {
  import opened Basics
  import opened JobQueue
  import opened JobQueueSafety
  import opened JobQueueClaims

  /** What an execution reports to the queue library. */
  datatype Report = Skipped | Finished | FailedFor(code: Code) | Retrying(code: Code, time: nat)

  /** Everyone's steps but those of delivery `w`. */
  function NotOf(acts: seq<Action>, w: nat): (rest: seq<Action>)
    ensures forall i :: 0 <= i < |rest| ==> !Concerns(rest[i], w)
    ensures Own(rest, w) == []
  {
    if acts == [] then []
    else if Concerns(acts[0], w) then NotOf(acts[1..], w)
    else [acts[0]] + NotOf(acts[1..], w)
  }

  predicate Concerns(a: Action, w: nat) {
    Touches(a, w) || (a.Deliver? && a.worker == w)
  }

  /** The steps of delivery `w` in a trace. */
  function Own(trace: seq<Action>, w: nat): seq<Action> {
    if trace == [] then []
    else if Concerns(trace[0], w) then [trace[0]] + Own(trace[1..], w)
    else Own(trace[1..], w)
  }

  lemma {:induction false} OwnJoins(first: seq<Action>, rest: seq<Action>, w: nat)
    ensures Own(first + rest, w) == Own(first, w) + Own(rest, w)
    decreases |first|
  {
    if first == [] {
      assert first + rest == rest;
    } else {
      assert (first + rest)[1..] == first[1..] + rest;
      OwnJoins(first[1..], rest, w);
    }
  }

  /** One trace after another. */
  lemma Along(s: State, first: seq<Action>, rest: seq<Action>, w: nat)
    ensures Run(s, first + rest) == Run(Run(s, first), rest)
    ensures Own(first + rest, w) == Own(first, w) + Own(rest, w)
  {
    RunComposes(s, first, rest);
    OwnJoins(first, rest, w);
  }

  lemma OneStep(s: State, a: Action, w: nat)
    ensures Run(s, [a]) == Step(s, a) && Own([a], w) == if Concerns(a, w) then [a] else []
  {
    assert [a][1..] == [];
  }

  lemma OtherStepKeepsMine(s: State, a: Action, w: nat)
    requires !Concerns(a, w)
    ensures w in Step(s, a).workers <==> w in s.workers
    ensures w in s.workers ==> Step(s, a).workers[w] == s.workers[w]
  {
  }

  lemma {:induction false} OthersKeepMine(s: State, acts: seq<Action>, w: nat)
    requires Inv(s) && forall i :: 0 <= i < |acts| ==> !Concerns(acts[i], w)
    ensures Inv(Run(s, acts))
    ensures w in Run(s, acts).workers <==> w in s.workers
    ensures w in s.workers ==> Run(s, acts).workers[w] == s.workers[w]
    decreases |acts|
  {
    if acts != [] {
      StepKeeps(s, acts[0]);
      OtherStepKeepsMine(s, acts[0], w);
      OthersKeepMine(Step(s, acts[0]), acts[1..], w);
    }
  }

  /** An attempt about to be recorded has no record yet, and its entry is unfinished. */
  lemma Unrecorded(s: State, job: Attempt)
    requires Inv(s) && job.entry < |s.entries| && Bound(s.entries[job.entry], job) && IsNext(s.entries[job.entry], job)
    ensures job !in s.outcomes && !JobQueue.Finished(s.entries[job.entry].state)
  {
    assert job in s.outcomes ==> OutcomeOk(s, job);
  }

  /** The entry a report leaves behind; a handler's record also gives up the claim. */
  predicate EntryFits(before: Entry, e: Entry, job: Attempt, ran: bool, report: Report) {
    match report
    case Skipped => false
    case Finished => e == before.(state := Done, attempts := job.number, lease := None, notBefore := None)
    case FailedFor(code) =>
      e == before.(state := Failed, attempts := job.number, lastError := Some(code),
                   lease := if ran then None else before.lease)
    case Retrying(code, time) =>
      e == before.(state := Pending, attempts := job.number, lastError := Some(code), lease := None,
                   notBefore := Some(time))
      && job.number < MaxAttempts(e.queue)
  }

  function OutcomeOf(report: Report): Outcome
    requires !report.Skipped?
  {
    match report case Finished => Completed case FailedFor(code) => GaveUp(code) case Retrying(_, time) => RetryAt(time)
  }

  /**
   From `at`, delivery `w` has ended: skipped, it left no record; else it has recorded its attempt,
   never recorded before, on an entry that was unfinished and, if it ran a handler, still under its claim.
   */
  ghost predicate Ended(at: State, t: State, w: nat, job: Attempt, ran: bool, report: Report) {
    && t.workers == at.workers - {w}
    && (report.Skipped? ==> t == at.(workers := t.workers))
    && (!report.Skipped? ==>
          && job.entry < |at.entries| == |t.entries|
          && !JobQueue.Finished(at.entries[job.entry].state) && IsNext(at.entries[job.entry], job)
          && (ran ==> Records(at, w) && at.workers[w].job == job)
          && job !in at.outcomes
          && EntryFits(at.entries[job.entry], t.entries[job.entry], job, ran, report)
          && t == at.(workers := t.workers, outcomes := at.outcomes[job := OutcomeOf(report)],
                      entries := at.entries[job.entry := t.entries[job.entry]]))
  }

  function FailureReport(s: State, w: nat, f: Failure): Report
    requires IsHolding(s, w)
  {
    var job, e := s.workers[w].job, s.entries[s.workers[w].job.entry];
    if !Records(s, w) then Skipped
    else if IsFinal(e, job, f) then FailedFor(f.code)
    else Retrying(f.code, s.now + WaitFor(e, job, f))
  }

  lemma ClaimKeepsInv(s: State, w: nat, takeOver: bool)
    requires Inv(s)
    ensures Inv(Claimed(s, w, takeOver))
  {
    ClaimIs(s, w, takeOver);
    StepKeeps(s, ClaimJob(w, takeOver));
  }

  lemma ClaimIs(s: State, w: nat, takeOver: bool)
    ensures Step(s, ClaimJob(w, takeOver)) == Claimed(s, w, takeOver)
  {
  }

  lemma RecordIs(s: State, w: nat, f: Failure)
    ensures Step(s, RefuseType(w)) == JobQueue.Refused(s, w)
    ensures Step(s, Action.RecordDone(w)) == RecordedDone(s, w)
    ensures Step(s, Action.RecordFailure(w, f)) == RecordedFailure(s, w, f)
  {
  }

  lemma RefusalKeepsInv(s: State, w: nat)
    requires Inv(s)
    ensures Inv(JobQueue.Refused(s, w))
  {
    RecordIs(s, w, Failure(Internal, true, None));
    StepKeeps(s, RefuseType(w));
  }

  lemma DoneKeepsInv(s: State, w: nat)
    requires Inv(s)
    ensures Inv(RecordedDone(s, w))
  {
    RecordIs(s, w, Failure(Internal, true, None));
    StepKeeps(s, Action.RecordDone(w));
  }

  lemma FailureKeepsInv(s: State, w: nat, f: Failure)
    requires Inv(s)
    ensures Inv(RecordedFailure(s, w, f))
  {
    RecordIs(s, w, f);
    StepKeeps(s, Action.RecordFailure(w, f));
  }

  /** If a delivery's attempt is still the entry's next one, nothing has recorded it. */
  predicate IsFresh(s: State, w: nat) {
    w in s.workers && var job := s.workers[w].job;
    job.entry < |s.entries| && (IsNext(s.entries[job.entry], job) ==>
      job !in s.outcomes && !JobQueue.Finished(s.entries[job.entry].state))
  }

  lemma Fresh(s: State, w: nat)
    requires Inv(s) && w in s.workers
    ensures IsFresh(s, w)
  {
    assert WorkerOk(s, s.workers[w]);
    if IsNext(s.entries[s.workers[w].job.entry], s.workers[w].job) { Unrecorded(s, s.workers[w].job); }
  }

  lemma DoneEnds(s: State, w: nat)
    requires IsFresh(s, w) && IsHolding(s, w)
    ensures Ended(s, RecordedDone(s, w), w, s.workers[w].job, true, if Records(s, w) then Finished else Skipped)
  {
  }

  lemma FailureEnds(s: State, w: nat, f: Failure)
    requires IsFresh(s, w) && IsHolding(s, w)
    ensures Ended(s, RecordedFailure(s, w, f), w, s.workers[w].job, true, FailureReport(s, w, f))
  {
  }

  lemma RefusalEnds(s: State, w: nat)
    requires IsFresh(s, w) && IsLooking(s, w)
    ensures Ended(s, JobQueue.Refused(s, w), w, s.workers[w].job, false,
                  if Refuses(s, w) then FailedFor(UnknownType) else Skipped)
  {
  }

  // ----- one execution -----

  /** The longest an attempt may number, by queue. */
  function LastAttempt(queue: Queue): nat {
    match queue case Ai => 6 case Email => 8
  }

  /** The provider's own wait, or half a minute or a minute doubled with every attempt, up to half an hour or two. */
  function RetryWait(queue: Queue, number: nat, f: Failure): nat
    requires number >= 1
  {
    if f.retryAfter.Some? then f.retryAfter.value
    else match queue
      case Ai => Min(30_000 * Pow2(number - 1), 1_800_000)
      case Email => Min(60_000 * Pow2(number - 1), 7_200_000)
  }

  /** What a recorded answer is reported as: a failure is final once it may not or cannot be tried again. */
  predicate Reports(queue: Queue, job: Attempt, answer: Option<Failure>, now: nat, report: Report) {
    match report
    case Skipped => true
    case Finished => answer.None?
    case FailedFor(code) =>
      answer.Some? && answer.value.code == code && (!answer.value.retryable || job.number >= LastAttempt(queue))
    case Retrying(code, time) =>
      && answer.Some? && answer.value.code == code && answer.value.retryable && 1 <= job.number < LastAttempt(queue)
      && time == now + RetryWait(queue, job.number, answer.value)
  }

  /** The entry still expects this attempt under this delivery's token. */
  predicate StillMine(e: Entry, job: Attempt, token: nat) {
    e.runKey == job.runKey && e.attempts + 1 == job.number && e.lease.Some? && e.lease.value.token == token
  }

  /** The attempt may start: it is the entry's next, and nobody's claim lives, or its worker is known to be gone. */
  predicate MayStart(e: Entry, job: Attempt, takeOver: bool, now: nat) {
    && e.runKey == job.runKey && e.attempts + 1 == job.number && (e.state.Pending? || e.state.Queued?)
    && (takeOver || !LiveClaim(e, now))
  }

  /** From its claim on: a delivery that may start runs and records; another ends at once and changes no entry. */
  ghost predicate ClaimHonoured(there: State, trace: seq<Action>, t: State, w: nat, job: Attempt, takeOver: bool,
                                answer: Option<Failure>, report: Report) {
    && job.entry < |there.entries|
    && if MayStart(there.entries[job.entry], job, takeOver, there.now)
       then Own(trace, w) == [ClaimJob(w, takeOver), RecordOf(w, answer)]
       else trace == [ClaimJob(w, takeOver)] && report.Skipped? && t == there.(workers := there.workers - {w})
  }

  /** The first reading: the entry is unfinished and waits for this attempt. */
  predicate Expects(s: State, job: Attempt) {
    job.entry < |s.entries| && !JobQueue.Finished(s.entries[job.entry].state) && IsNext(s.entries[job.entry], job)
  }

  /** The record a handler's answer leads to. */
  function RecordOf(w: nat, answer: Option<Failure>): Action {
    if answer.Some? then Action.RecordFailure(w, answer.value) else Action.RecordDone(w)
  }

  function ReportOf(s: State, w: nat, answer: Option<Failure>): Report
    requires IsHolding(s, w)
  {
    if answer.Some? then FailureReport(s, w, answer.value) else if Records(s, w) then Finished else Skipped
  }

  /**
   From `s`, along the trace, with `at` the state just before the delivery's last step: after its first
   reading, what a delivery does is decided by its other readings and its handler's answer alone.
   */
  ghost predicate HandledAs(s: State, trace: seq<Action>, at: State, w: nat, takeOver: bool, known: bool,
                            answer: Option<Failure>, report: Report) {
    && trace != [] && at == Run(s, trace[..|trace| - 1])
    && (var last := trace[|trace| - 1];
        if !known then
          && Own(trace, w) == [RefuseType(w)] && last == RefuseType(w)
          && report == (if Refuses(at, w) then FailedFor(UnknownType) else Skipped)
        else if IsHolding(at, w) then
          && Own(trace, w) == [ClaimJob(w, takeOver), RecordOf(w, answer)] && last == RecordOf(w, answer)
          && report == ReportOf(at, w, answer)
        else
          && Own(trace, w) == [ClaimJob(w, takeOver)] && last == ClaimJob(w, takeOver)
          && !Claims(at, w, takeOver) && report.Skipped?)
  }

  /** The same from the delivery on; a delivery that finds another attempt due does nothing. */
  ghost predicate ExecutedAs(s: State, first: seq<Action>, trace: seq<Action>, at: State, w: nat, job: Attempt,
                             takeOver: bool, known: bool, answer: Option<Failure>, report: Report) {
    if !Expects(s, job) then first == [] && trace == [] && at == s && report.Skipped?
    else Own(first, w) == [Deliver(w, job)] && HandledAs(Run(s, first), trace, at, w, takeOver, known, answer, report)
  }

  lemma HeldHandled(s: State, trace: seq<Action>, at: State, w: nat, takeOver: bool, answer: Option<Failure>)
    requires at == Run(s, trace) && Own(trace, w) == [ClaimJob(w, takeOver)] && IsHolding(at, w)
    ensures Run(s, trace + [RecordOf(w, answer)]) == Step(at, RecordOf(w, answer))
    ensures HandledAs(s, trace + [RecordOf(w, answer)], at, w, takeOver, true, answer, ReportOf(at, w, answer))
  {
    LastStep(s, trace, RecordOf(w, answer), w);
  }

  lemma MissHandled(s: State, w: nat, takeOver: bool, answer: Option<Failure>)
    requires !Claims(s, w, takeOver) && !IsHolding(s, w)
    ensures HandledAs(s, [ClaimJob(w, takeOver)], s, w, takeOver, true, answer, Skipped)
  {
    assert [ClaimJob(w, takeOver)][..0] == [];
    OneStep(s, ClaimJob(w, takeOver), w);
  }

  lemma DeliveredIs(s: State, w: nat, job: Attempt)
    requires w !in s.workers && job in s.jobs && Expects(s, job)
    ensures
      var e := s.entries[job.entry];
      Step(s, Deliver(w, job)) == s.(workers := s.workers[w := Looking(job, e.payload, e.lastError, e.state)])
  {
  }

  lemma DeliveryIs(s: State, w: nat, job: Attempt)
    requires Inv(s) && w !in s.workers && job in s.jobs && Expects(s, job)
    ensures
      var e := s.entries[job.entry];
      Run(s, [Deliver(w, job)]) == s.(workers := s.workers[w := Looking(job, e.payload, e.lastError, e.state)])
    ensures Own([Deliver(w, job)], w) == [Deliver(w, job)] && Inv(Run(s, [Deliver(w, job)]))
  {
    OneStep(s, Deliver(w, job), w);
    DeliveredIs(s, w, job);
    StepKeeps(s, Deliver(w, job));
  }

  /** A trace extended by the delivery's own last step. */
  lemma LastStep(s: State, trace: seq<Action>, a: Action, w: nat)
    requires Concerns(a, w)
    ensures Run(s, trace + [a]) == Step(Run(s, trace), a) && Own(trace + [a], w) == Own(trace, w) + [a]
    ensures (trace + [a])[..|trace + [a]| - 1] == trace
  {
    Along(s, trace, [a], w);
    OneStep(Run(s, trace), a, w);
  }

  // ----- a relay pass -----

  function FirstOffer(id: nat, e: Entry): Offer {
    Offer(id, e.runKey, e.attempts, true)
  }

  /** The entries due among the first `n`, at most `limit` of them, as the pass read them. */
  function DueBatch(entries: seq<Entry>, now: nat, limit: nat, n: nat): seq<Offer>
    requires n <= |entries|
  {
    if n == 0 then []
    else
      var before := DueBatch(entries, now, limit, n - 1);
      if |before| < limit && Due(entries[n - 1], now) then before + [FirstOffer(n - 1, entries[n - 1])] else before
  }

  /** The entry waits to be offered, and its time has come. */
  predicate Waits(e: Entry, now: nat) {
    e.state.Pending? && (e.notBefore.None? || e.notBefore.value <= now)
  }

  lemma {:induction false} DueBatchOk(entries: seq<Entry>, now: nat, limit: nat, n: nat)
    requires n <= |entries|
    ensures
      var batch := DueBatch(entries, now, limit, n);
      && |batch| <= limit
      && (forall k :: 0 <= k < |batch| ==>
            && batch[k].entry < n && Waits(entries[batch[k].entry], now)
            && batch[k] == FirstOffer(batch[k].entry, entries[batch[k].entry]))
      && (forall j, k :: 0 <= j < k < |batch| ==> batch[j].entry < batch[k].entry)
      && (|batch| < limit ==>
            forall id :: 0 <= id < n && Waits(entries[id], now) ==> FirstOffer(id, entries[id]) in batch)
  {
    if n > 0 { DueBatchOk(entries, now, limit, n - 1); }
  }

  /** An entry is offered only once its wait is over, and offered again only ten minutes after it was queued. */
  lemma OffersAreDue(s: State, a: Action, o: Offer)
    requires o in Step(s, a).offers && o !in s.offers
    ensures o.entry < |s.entries|
    ensures
      var e := s.entries[o.entry];
      && o.runKey == e.runKey && o.attempts == e.attempts
      && if o.first then Waits(e, s.now)
         else e.state.Queued? && e.queuedAt.Some? && e.queuedAt.value + 600_000 < s.now
  {
    NewOffer(s, a, o);
  }

  /** The entry no longer waits to be offered on that attempt: it is queued, claimed further, or done with. */
  predicate HandedOn(e: Entry, o: Offer) {
    || e.runKey > o.runKey
    || (e.runKey == o.runKey && (e.attempts > o.attempts || (e.attempts == o.attempts && !e.state.Pending?)))
  }

  predicate AtLeast(e: Entry, o: Offer) {
    e.runKey > o.runKey || (e.runKey == o.runKey && e.attempts >= o.attempts)
  }

  lemma StepHandsOn(s: State, a: Action, o: Offer)
    requires o.entry < |s.entries|
    ensures o.entry < |Step(s, a).entries|
    ensures AtLeast(s.entries[o.entry], o) ==> AtLeast(Step(s, a).entries[o.entry], o)
    ensures HandedOn(s.entries[o.entry], o) ==> HandedOn(Step(s, a).entries[o.entry], o)
  {
  }

  /** Everyone's steps but those that use up one of these offers. */
  function Leaving(acts: seq<Action>, mine: set<Offer>): (rest: seq<Action>)
    ensures forall i :: 0 <= i < |rest| ==> !UsesUp(rest[i], mine)
  {
    if acts == [] then []
    else if UsesUp(acts[0], mine) then Leaving(acts[1..], mine)
    else [acts[0]] + Leaving(acts[1..], mine)
  }

  predicate UsesUp(a: Action, mine: set<Offer>) {
    (a.MarkOffered? || a.StopOffer?) && a.offer in mine
  }

  ghost predicate OffersKept(s: State, t: State, mine: set<Offer>) {
    && |s.entries| <= |t.entries|
    && (mine <= s.offers ==> mine <= t.offers)
    && (forall o: Offer :: o.entry < |s.entries| ==>
          && (AtLeast(s.entries[o.entry], o) ==> AtLeast(t.entries[o.entry], o))
          && (HandedOn(s.entries[o.entry], o) ==> HandedOn(t.entries[o.entry], o)))
  }

  lemma StepKeepsOffers(s: State, a: Action, mine: set<Offer>)
    requires !UsesUp(a, mine)
    ensures OffersKept(s, Step(s, a), mine)
  {
    forall o: Offer | o.entry < |s.entries|
      ensures
        && o.entry < |Step(s, a).entries|
        && (AtLeast(s.entries[o.entry], o) ==> AtLeast(Step(s, a).entries[o.entry], o))
        && (HandedOn(s.entries[o.entry], o) ==> HandedOn(Step(s, a).entries[o.entry], o))
    {
      StepHandsOn(s, a, o);
    }
    EntriesOnlyGrow(s, a);
  }

  lemma EntriesOnlyGrow(s: State, a: Action)
    ensures |s.entries| <= |Step(s, a).entries|
  {
  }

  lemma {:induction false} RunKeepsOffers(s: State, acts: seq<Action>, mine: set<Offer>)
    requires Inv(s) && forall i :: 0 <= i < |acts| ==> !UsesUp(acts[i], mine)
    ensures Inv(Run(s, acts)) && OffersKept(s, Run(s, acts), mine)
    decreases |acts|
  {
    if acts != [] {
      StepKeeps(s, acts[0]);
      StepKeepsOffers(s, acts[0], mine);
      RunKeepsOffers(Step(s, acts[0]), acts[1..], mine);
    }
  }

  lemma OffersKeptOn(s: State, t: State, u: State, mine: set<Offer>, fewer: set<Offer>)
    requires OffersKept(s, t, mine) && OffersKept(t, u, fewer) && fewer <= mine <= s.offers
    ensures OffersKept(s, u, fewer)
  {
  }

  /** All of the batch was read, and the first `n` offers of it are handed on. */
  ghost predicate Progress(entries: seq<Entry>, batch: seq<Offer>, n: nat) {
    && (forall k :: 0 <= k < |batch| ==> batch[k].entry < |entries| && AtLeast(entries[batch[k].entry], batch[k]))
    && (forall k :: 0 <= k < |batch| && k < n ==> HandedOn(entries[batch[k].entry], batch[k]))
  }

  lemma ProgressKept(s: State, t: State, mine: set<Offer>, batch: seq<Offer>, n: nat)
    requires OffersKept(s, t, mine) && Progress(s.entries, batch, n)
    ensures Progress(t.entries, batch, n)
  {
  }

  /** First offers of different entries. */
  predicate IsBatch(batch: seq<Offer>) {
    && (forall k :: 0 <= k < |batch| ==> batch[k].first)
    && (forall j, k :: 0 <= j < k < |batch| ==> batch[j] != batch[k])
  }

  function OffersFrom(batch: seq<Offer>, n: nat): set<Offer> {
    set o: Offer | o in batch[Min(n, |batch|)..]
  }

  lemma OfferStepIs(s: State, id: nat, o: Offer)
    requires id < |s.entries| && Due(s.entries[id], s.now)
    ensures Step(s, RelayRead(id)) == s.(offers := s.offers + {FirstOffer(id, s.entries[id])})
    ensures o in s.offers ==> Step(s, AddJob(o)) == s.(jobs := s.jobs + {NextOf(o)})
  {
  }

  lemma ReadKeepsInv(s: State, id: nat)
    requires Inv(s) && id < |s.entries| && Due(s.entries[id], s.now)
    ensures Inv(s.(offers := s.offers + {FirstOffer(id, s.entries[id])}))
  {
    OfferStepIs(s, id, FirstOffer(id, s.entries[id]));
    StepKeeps(s, RelayRead(id));
  }

  lemma AddKeepsInv(s: State, o: Offer)
    requires Inv(s) && o in s.offers
    ensures Inv(s.(jobs := s.jobs + {NextOf(o)}))
  {
    assert Step(s, AddJob(o)) == s.(jobs := s.jobs + {NextOf(o)});
    StepKeeps(s, AddJob(o));
  }

  lemma MarkKeepsInv(s: State, o: Offer)
    requires Inv(s)
    ensures Inv(Marked(s, o))
  {
    assert Step(s, MarkOffered(o)) == Marked(s, o);
    StepKeeps(s, MarkOffered(o));
  }

  lemma MarkHandsOn(s: State, o: Offer)
    requires o in s.offers && o.entry < |s.entries| && AtLeast(s.entries[o.entry], o) && o.first
    ensures OffersKept(s, Marked(s, o), s.offers - {o}) && HandedOn(Marked(s, o).entries[o.entry], o)
  {
  }

  /** The readings of a batch, as steps. */
  function Reads(batch: seq<Offer>): seq<Action> {
    seq(|batch|, k requires 0 <= k < |batch| => RelayRead(batch[k].entry))
  }

  lemma OneMoreRead(s: State, batch: seq<Offer>, o: Offer)
    ensures Run(s, Reads(batch + [o])) == Step(Run(s, Reads(batch)), RelayRead(o.entry))
  {
    assert Reads(batch + [o]) == Reads(batch) + [RelayRead(o.entry)];
    RunComposes(s, Reads(batch), [RelayRead(o.entry)]);
    OneStep(Run(s, Reads(batch)), RelayRead(o.entry), 0);
  }

  /** The offer reached Redis, and then its entry was marked. */
  predicate OfferedIn(trace: seq<Action>, o: Offer) {
    trace != [] && (if trace[0] == AddJob(o) then MarkOffered(o) in trace[1..] else OfferedIn(trace[1..], o))
  }

  lemma {:induction false} OfferedBefore(trace: seq<Action>, next: seq<Action>, o: Offer)
    requires OfferedIn(trace, o)
    ensures OfferedIn(trace + next, o)
    decreases |trace|
  {
    assert (trace + next)[1..] == trace[1..] + next;
    if trace[0] != AddJob(o) { OfferedBefore(trace[1..], next, o); }
  }

  lemma {:induction false} OfferedAfter(trace: seq<Action>, next: seq<Action>, o: Offer)
    requires OfferedIn(next, o)
    ensures OfferedIn(trace + next, o)
    decreases |trace|
  {
    if trace == [] {
      assert trace + next == next;
    } else {
      assert (trace + next)[1..] == trace[1..] + next;
      OfferedAfter(trace[1..], next, o);
      MarkedAfter(next, o);
    }
  }

  lemma {:induction false} MarkedAfter(trace: seq<Action>, o: Offer)
    requires OfferedIn(trace, o)
    ensures MarkOffered(o) in trace
    decreases |trace|
  {
    if trace[0] != AddJob(o) { MarkedAfter(trace[1..], o); }
  }

  lemma AddThen(s: State, o: Offer, acts: seq<Action>)
    requires o in s.offers
    ensures Run(s, [AddJob(o)] + acts) == Run(s.(jobs := s.jobs + {NextOf(o)}), acts)
  {
    assert ([AddJob(o)] + acts)[1..] == acts;
  }

  lemma MarkThen(s: State, o: Offer, acts: seq<Action>)
    ensures Run(s, [MarkOffered(o)] + acts) == Run(Marked(s, o), acts)
  {
    assert ([MarkOffered(o)] + acts)[1..] == acts;
  }

  lemma StillOffered(trace: seq<Action>, next: seq<Action>, batch: seq<Offer>, n: nat)
    requires n < |batch| && OfferedIn(next, batch[n])
    requires forall k :: 0 <= k < n ==> OfferedIn(trace, batch[k])
    ensures forall k :: 0 <= k <= n ==> OfferedIn(trace + next, batch[k])
  {
    forall k | 0 <= k <= n ensures OfferedIn(trace + next, batch[k]) {
      if k < n { OfferedBefore(trace, next, batch[k]); } else { OfferedAfter(trace, next, batch[n]); }
    }
  }

  class Outbox {
    var now: nat
    var tokens: nat
    var entries: seq<Entry>
    var offers: set<Offer>
    var jobs: set<Attempt>
    var workers: map<nat, Worker>
    var outcomes: map<Attempt, Outcome>

    function View(): State
      reads this
    {
      State(now, tokens, entries, offers, jobs, workers, outcomes)
    }

    /** Any steps of anyone but delivery `w`. */
    method Others(w: nat) returns (ghost trace: seq<Action>)
      requires Inv(View())
      modifies this
      ensures View() == Run(old(View()), trace) && Own(trace, w) == []
      ensures Inv(View())
      ensures w in workers <==> w in old(workers)
      ensures w in workers ==> workers[w] == old(workers[w])
    {
      var acts: seq<Action> := *;
      trace := NotOf(acts, w);
      var t := Run(View(), NotOf(acts, w));
      OthersKeepMine(View(), NotOf(acts, w), w);
      now, tokens, entries, offers, jobs, workers, outcomes :=
        t.now, t.tokens, t.entries, t.offers, t.jobs, t.workers, t.outcomes;
    }

    /**
     One delivery of one attempt, given what its handler answers. Along the two stretches of the trace,
     everyone's steps interleave with exactly the delivery's own; and its record, if it makes one, is the
     attempt's first.
     */
    method ExecuteEntry(w: nat, job: Attempt, takeOver: bool, known: bool, answer: Option<Failure>)
      returns (report: Report, ghost first: seq<Action>, ghost trace: seq<Action>, ghost at: State)
      requires Inv(View()) && w !in workers && job in jobs
      modifies this
      ensures known && first != [] ==>
        ClaimHonoured(Run(old(View()), first), trace, View(), w, job, takeOver, answer, report)
      ensures known && first != [] ==>
        job.entry < |at.entries| && Reports(at.entries[job.entry].queue, job, answer, at.now, report)
      ensures Inv(View()) && View() == Run(old(View()), first + trace)
      ensures ExecutedAs(old(View()), first, trace, at, w, job, takeOver, known, answer, report)
      ensures Ended(at, View(), w, job, known, report)
    {
      ghost var s := View();
      if job.entry >= |entries| {
        return Skipped, [], [], s;
      }
      var entry := entries[job.entry];
      if JobQueue.Finished(entry.state) || entry.runKey != job.runKey || entry.attempts + 1 != job.number {
        return Skipped, [], [], s;
      }
      first := Receive(w, job);
      if known {
        report, trace, at := Handle(w, job, takeOver, answer);
      } else {
        at := View();
        OneStep(at, RefuseType(w), w);
        RecordIs(at, w, Failure(Internal, true, None));
        report := RecordUnknownType(w, job, entry.state);
        trace := [RefuseType(w)];
      }
      RunComposes(s, first, trace);
    }

    /** A known type: claim, handler, record. */
    method Handle(w: nat, job: Attempt, takeOver: bool, answer: Option<Failure>)
      returns (report: Report, ghost trace: seq<Action>, ghost at: State)
      requires Inv(View()) && w in workers && job.entry < |entries|
      requires workers[w].Looking? && workers[w].job == job
      modifies this
      ensures Inv(View()) && View() == Run(old(View()), trace)
      ensures HandledAs(old(View()), trace, at, w, takeOver, true, answer, report)
      ensures ClaimHonoured(old(View()), trace, View(), w, job, takeOver, answer, report)
      ensures job.entry < |at.entries| && Reports(at.entries[job.entry].queue, job, answer, at.now, report)
      ensures Ended(at, View(), w, job, true, report)
    {
      ghost var s := View();
      var token, held;
      token, held, trace, at := ClaimAndRun(w, job, takeOver);
      if held {
        HeldHandled(s, trace, at, w, takeOver, answer);
        report := Record(w, job, token, answer);
        trace := trace + [RecordOf(w, answer)];
      } else {
        report := Skipped;
        MissHandled(s, w, takeOver, answer);
      }
    }

    /** The delivery arrives; others act before its next step. */
    method Receive(w: nat, job: Attempt) returns (ghost trace: seq<Action>)
      requires Inv(View()) && w !in workers && job in jobs && Expects(View(), job)
      modifies this
      ensures Inv(View()) && View() == Run(old(View()), trace) && Own(trace, w) == [Deliver(w, job)]
      ensures w in workers && job.entry < |entries|
      ensures
        var e := old(entries)[job.entry];
        workers[w] == Looking(job, e.payload, e.lastError, e.state)
    {
      ghost var s := View();
      DeliveryIs(s, w, job);
      var entry := entries[job.entry];
      workers := workers[w := Looking(job, entry.payload, entry.lastError, entry.state)];
      ghost var others := Others(w);
      Along(s, [Deliver(w, job)], others, w);
      trace := [Deliver(w, job)] + others;
      Fresh(View(), w);
    }

    /** The claim, and the handler's work while others act. */
    method ClaimAndRun(w: nat, job: Attempt, takeOver: bool)
      returns (token: nat, held: bool, ghost trace: seq<Action>, ghost at: State)
      requires Inv(View()) && w in workers && job.entry < |entries|
      requires workers[w].Looking? && workers[w].job == job
      modifies this
      ensures Inv(View()) && View() == Run(old(View()), trace) && Own(trace, w) == [ClaimJob(w, takeOver)]
      ensures held ==>
        && at == View() && w in workers && job.entry < |entries|
        && workers[w] == Holding(job, old(workers)[w].payload, old(workers)[w].lastError, token)
      ensures held <==> MayStart(old(entries)[job.entry], job, takeOver, old(now))
      ensures !held ==>
        && trace == [ClaimJob(w, takeOver)] && at == old(View()) && !Claims(at, w, takeOver)
        && View() == at.(workers := at.workers - {w})
    {
      ghost var s := View();
      at := s;
      OneStep(s, ClaimJob(w, takeOver), w);
      ClaimIs(s, w, takeOver);
      token, held := Claim(w, job, takeOver);
      trace := [ClaimJob(w, takeOver)];
      if held {
        ghost var others := Others(w);
        Along(s, trace, others, w);
        trace := trace + others;
        at := View();
        Fresh(at, w);
      }
    }

    /** The terminal update the handler's answer leads to. */
    method Record(w: nat, job: Attempt, token: nat, answer: Option<Failure>) returns (report: Report)
      requires Inv(View()) && w in workers && job.entry < |entries|
      requires workers[w].Holding? && workers[w].job == job && workers[w].token == token
      modifies this
      ensures View() == Step(old(View()), RecordOf(w, answer)) && Inv(View())
      ensures report == ReportOf(old(View()), w, answer) && Ended(old(View()), View(), w, job, true, report)
      ensures Reports(old(entries)[job.entry].queue, job, answer, old(now), report)
      ensures !report.Skipped? <==> StillMine(old(entries)[job.entry], job, token)
    {
      if answer.Some? {
        RecordIs(View(), w, answer.value);
        report := RecordFailed(w, job, token, answer.value);
      } else {
        RecordIs(View(), w, Failure(Internal, true, None));
        report := RecordDone(w, job, token);
      }
    }

    /** The claim: a fresh token on the entry, unless someone else's claim stands. */
    method Claim(w: nat, job: Attempt, takeOver: bool) returns (token: nat, held: bool)
      requires Inv(View()) && w in workers && job.entry < |entries|
      requires workers[w].Looking? && workers[w].job == job
      modifies this
      ensures View() == Claimed(old(View()), w, takeOver) && Inv(View())
      ensures held <==> MayStart(old(entries)[job.entry], job, takeOver, now)
      ensures held ==>
        w in workers && workers[w] == Holding(job, old(workers)[w].payload, old(workers)[w].lastError, token)
      ensures held ==> token == old(tokens) && entries[job.entry].lease == Some(Lease(token, now))
      ensures !held ==> View() == old(View()).(workers := old(workers) - {w})
    {
      ClaimKeepsInv(View(), w, takeOver);
      var e := entries[job.entry];
      token := tokens;
      held := e.runKey == job.runKey && e.attempts + 1 == job.number && (e.state.Pending? || e.state.Queued?)
              && (takeOver || e.lease.None? || e.lease.value.at + CLAIM_AFTER_MS < now);
      if !held {
        workers := workers - {w};
        return;
      }
      tokens := tokens + 1;
      entries := entries[job.entry := e.(lease := Some(Lease(token, now)))];
      workers := workers[w := Holding(job, workers[w].payload, workers[w].lastError, token)];
    }

    method RecordUnknownType(w: nat, job: Attempt, seen: JobState) returns (report: Report)
      requires Inv(View()) && w in workers && job.entry < |entries|
      requires workers[w].Looking? && workers[w].job == job && workers[w].seen == seen
      modifies this
      ensures View() == JobQueue.Refused(old(View()), w) && Inv(View())
      ensures Ended(old(View()), View(), w, job, false, report)
      ensures report ==
        var e := old(entries)[job.entry];
        if e.runKey == job.runKey && e.attempts + 1 == job.number && e.state == seen then FailedFor(UnknownType)
        else Skipped
    {
      RefusalKeepsInv(View(), w);
      Fresh(View(), w);
      RefusalEnds(View(), w);
      var e := entries[job.entry];
      if e.runKey != job.runKey || e.attempts + 1 != job.number || e.state != seen {
        workers := workers - {w};
        return Skipped;
      }
      workers := workers - {w};
      entries := entries[job.entry := e.(state := Failed, attempts := job.number, lastError := Some(UnknownType))];
      outcomes := outcomes[job := GaveUp(UnknownType)];
      return FailedFor(UnknownType);
    }

    method RecordDone(w: nat, job: Attempt, token: nat) returns (report: Report)
      requires Inv(View()) && w in workers && job.entry < |entries|
      requires workers[w].Holding? && workers[w].job == job && workers[w].token == token
      modifies this
      ensures View() == RecordedDone(old(View()), w) && Inv(View())
      ensures Ended(old(View()), View(), w, job, true, report)
      ensures report == if StillMine(old(entries)[job.entry], job, token) then Finished else Skipped
    {
      DoneKeepsInv(View(), w);
      Fresh(View(), w);
      DoneEnds(View(), w);
      var e := entries[job.entry];
      if !(e.runKey == job.runKey && e.attempts + 1 == job.number && e.lease.Some? && e.lease.value.token == token) {
        workers := workers - {w};
        return Skipped;
      }
      workers := workers - {w};
      entries := entries[job.entry := e.(state := Done, attempts := job.number, lease := None, notBefore := None)];
      outcomes := outcomes[job := Completed];
      return Finished;
    }

    /** The entry and the report a failure leads to: the last one fails it, any other sets its next time. */
    method AfterFailure(e: Entry, job: Attempt, f: Failure) returns (next: Entry, report: Report)
      ensures next == FailedEntry(e, job, f, now)
      ensures report == if IsFinal(e, job, f) then FailedFor(f.code) else Retrying(f.code, now + WaitFor(e, job, f))
      ensures job.number >= 1 ==> Reports(e.queue, job, Some(f), now, report)
    {
      var last := !f.retryable || job.number >= MaxAttempts(e.queue);
      var waitMs := if f.retryAfter.Some? then f.retryAfter.value
                    else Backoff(BackoffBase(e.queue), BackoffCap(e.queue), job.number);
      next := e.(attempts := job.number, lastError := Some(f.code), lease := None);
      if last {
        next := next.(state := Failed);
        report := FailedFor(f.code);
      } else {
        next := next.(state := Pending, notBefore := Some(now + waitMs));
        report := Retrying(f.code, now + waitMs);
      }
    }

    method RecordFailed(w: nat, job: Attempt, token: nat, f: Failure) returns (report: Report)
      requires Inv(View()) && w in workers && job.entry < |entries|
      requires workers[w].Holding? && workers[w].job == job && workers[w].token == token
      modifies this
      ensures View() == RecordedFailure(old(View()), w, f) && Inv(View())
      ensures report == FailureReport(old(View()), w, f)
      ensures Reports(old(entries)[job.entry].queue, job, Some(f), old(now), report)
      ensures !report.Skipped? <==> StillMine(old(entries)[job.entry], job, token)
      ensures Ended(old(View()), View(), w, job, true, report)
    {
      ghost var s := View();
      assert WorkerOk(s, workers[w]);
      report := WriteFailure(w, job, token, f);
      FailureKeepsInv(s, w, f);
      Fresh(s, w);
      FailureEnds(s, w, f);
    }

    /** The conditional update, under this delivery's claim. */
    method WriteFailure(w: nat, job: Attempt, token: nat, f: Failure) returns (report: Report)
      requires w in workers && job.entry < |entries|
      requires workers[w] == Holding(job, workers[w].payload, workers[w].lastError, token)
      modifies this
      ensures View() == RecordedFailure(old(View()), w, f)
      ensures report == FailureReport(old(View()), w, f)
      ensures job.number >= 1 ==> Reports(old(entries)[job.entry].queue, job, Some(f), old(now), report)
      ensures !report.Skipped? <==> StillMine(old(entries)[job.entry], job, token)
    {
      var e := entries[job.entry];
      var next;
      next, report := AfterFailure(e, job, f);
      workers := workers - {w};
      if !(e.runKey == job.runKey && e.attempts + 1 == job.number && e.lease.Some? && e.lease.value.token == token) {
        return Skipped;
      }
      entries := entries[job.entry := next];
      outcomes := outcomes[job := OutcomeOf(report)];
    }

    /** Any steps of anyone, leaving these offers to the pass that made them. */
    method Meanwhile(mine: set<Offer>) returns (ghost trace: seq<Action>)
      requires Inv(View())
      modifies this
      ensures Inv(View()) && View() == Run(old(View()), trace) && OffersKept(old(View()), View(), mine)
    {
      var acts: seq<Action> := *;
      trace := Leaving(acts, mine);
      var t := Run(View(), Leaving(acts, mine));
      RunKeepsOffers(View(), Leaving(acts, mine), mine);
      now, tokens, entries, offers, jobs, workers, outcomes :=
        t.now, t.tokens, t.entries, t.offers, t.jobs, t.workers, t.outcomes;
    }

    /** Reads the due entries, at most `limit`, oldest first. */
    method ReadDue(limit: nat) returns (batch: seq<Offer>)
      requires Inv(View())
      modifies this
      ensures Inv(View()) && entries == old(entries)
      ensures batch == DueBatch(entries, old(now), limit, |entries|)
      ensures offers == old(offers) + OffersFrom(batch, 0)
      ensures View() == Run(old(View()), Reads(batch))
    {
      ghost var s := View();
      batch := [];
      for id := 0 to |entries|
        invariant Inv(View()) && entries == old(entries) && now == old(now)
        invariant batch == DueBatch(entries, now, limit, id)
        invariant offers == old(offers) + OffersFrom(batch, 0)
        invariant View() == Run(s, Reads(batch))
      {
        if |batch| < limit && Due(entries[id], now) {
          ReadKeepsInv(View(), id);
          var o := Offer(id, entries[id].runKey, entries[id].attempts, true);
          OneMoreRead(s, batch, o);
          OfferStepIs(View(), id, o);
          offers := offers + {o};
          batch := batch + [o];
        }
      }
    }

    /** The conditional update after an offer: queued, unless the entry has moved on meanwhile. */
    method Mark(o: Offer)
      requires Inv(View()) && o in offers && o.first
      requires o.entry < |entries| && AtLeast(entries[o.entry], o)
      modifies this
      ensures Inv(View()) && View() == Marked(old(View()), o)
      ensures
        var e := old(entries)[o.entry];
        entries[o.entry] ==
          if e.state.Pending? && e.runKey == o.runKey && e.attempts == o.attempts
          then e.(state := Queued, queuedAt := Some(now), notBefore := None) else e
      ensures OffersKept(old(View()), View(), old(offers) - {o}) && HandedOn(entries[o.entry], o)
    {
      MarkKeepsInv(View(), o);
      MarkHandsOn(View(), o);
      offers := offers - {o};
      var e := entries[o.entry];
      if e.state.Pending? && e.runKey == o.runKey && e.attempts == o.attempts {
        entries := entries[o.entry := e.(state := Queued, queuedAt := Some(now), notBefore := None)];
      }
    }

    /** The offer reaches Redis; others act before the entry is marked. */
    method OfferToQueue(o: Offer, mine: set<Offer>) returns (ghost trace: seq<Action>)
      requires Inv(View()) && o in mine && mine <= offers
      modifies this
      ensures Inv(View()) && View() == Run(old(View()), trace) && trace != [] && trace[0] == AddJob(o)
      ensures OffersKept(old(View()), View(), mine)
    {
      ghost var s := View();
      AddKeepsInv(s, o);
      jobs := jobs + {Attempt(o.entry, o.runKey, o.attempts + 1)};
      ghost var others := Meanwhile(mine);
      AddThen(s, o, others);
      trace := [AddJob(o)] + others;
    }

    method MarkAndGoOn(o: Offer, rest: set<Offer>) returns (ghost trace: seq<Action>)
      requires Inv(View()) && o.first && o in offers && o !in rest && rest <= offers
      requires o.entry < |entries| && AtLeast(entries[o.entry], o)
      modifies this
      ensures Inv(View()) && View() == Run(old(View()), trace) && trace != [] && trace[0] == MarkOffered(o)
      ensures OffersKept(old(View()), View(), rest) && HandedOn(entries[o.entry], o)
    {
      ghost var s := View();
      Mark(o);
      ghost var t := View();
      ghost var others := Meanwhile(rest);
      MarkThen(s, o, others);
      OffersKeptOn(s, t, View(), s.offers - {o}, rest);
      trace := [MarkOffered(o)] + others;
    }

    /** Offers one entry to its queue and marks it, others interleaving; the rest of the batch stays offered. */
    method OfferAndMark(o: Offer, rest: set<Offer>) returns (ghost trace: seq<Action>)
      requires Inv(View()) && o.first && o !in rest && {o} + rest <= offers
      requires o.entry < |entries| && AtLeast(entries[o.entry], o)
      modifies this
      ensures Inv(View()) && View() == Run(old(View()), trace) && OfferedIn(trace, o)
      ensures OffersKept(old(View()), View(), rest) && rest <= offers && HandedOn(entries[o.entry], o)
    {
      ghost var s := View();
      ghost var first := OfferToQueue(o, {o} + rest);
      ghost var t := View();
      ghost var second := MarkAndGoOn(o, rest);
      RunComposes(s, first, second);
      OffersKeptOn(s, t, View(), {o} + rest, rest);
      trace := first + second;
      assert trace[1..] == first[1..] + second;
    }

    method OfferNext(todo: seq<Offer>, n: nat) returns (ghost trace: seq<Action>)
      requires Inv(View()) && n < |todo| && OffersFrom(todo, n) <= offers && Progress(entries, todo, n)
      requires IsBatch(todo)
      modifies this
      ensures Inv(View()) && OffersFrom(todo, n + 1) <= offers && Progress(entries, todo, n + 1)
      ensures View() == Run(old(View()), trace) && OfferedIn(trace, todo[n])
    {
      var o, rest := todo[n], OffersFrom(todo, n + 1);
      assert todo[n..] == [o] + todo[n + 1..];
      ghost var s := View();
      trace := OfferAndMark(o, rest);
      ProgressKept(s, View(), rest, todo, n);
    }

    /**
     One pass, given which of its offers find the queue reachable: it offers and marks its batch up to the
     first that does not, and moves all of it or reports nothing. However claims, records, retries and other
     passes interleave, every entry it offered has then left that wait: it is queued, or its attempt count or
     run key has moved on.
     */
    method RelayPass(limit: nat, reachable: nat -> bool)
      returns (moved: nat, ghost batch: seq<Offer>, ghost offered: nat, ghost trace: seq<Action>)
      requires Inv(View())
      modifies this
      ensures Inv(View()) && View() == Run(old(View()), Reads(batch) + trace)
      ensures batch == DueBatch(old(entries), old(now), limit, |old(entries)|)
      ensures offered <= |batch| && (forall k :: 0 <= k < offered ==> reachable(k) && OfferedIn(trace, batch[k]))
      ensures offered < |batch| ==> !reachable(offered)
      ensures moved == if offered == |batch| then |batch| else 0
      ensures Progress(entries, batch, offered)
    {
      ghost var s := View();
      var todo := ReadDue(limit);
      batch := todo;
      DueBatchOk(entries, old(now), limit, |entries|);
      moved, offered, trace := OfferAll(todo, reachable);
      RunComposes(s, Reads(batch), trace);
    }

    method OfferAll(todo: seq<Offer>, reachable: nat -> bool)
      returns (moved: nat, ghost offered: nat, ghost trace: seq<Action>)
      requires Inv(View()) && OffersFrom(todo, 0) <= offers && Progress(entries, todo, 0) && IsBatch(todo)
      modifies this
      ensures Inv(View()) && View() == Run(old(View()), trace) && Progress(entries, todo, offered)
      ensures offered <= |todo| && (forall k :: 0 <= k < offered ==> reachable(k) && OfferedIn(trace, todo[k]))
      ensures offered < |todo| ==> !reachable(offered)
      ensures moved == if offered == |todo| then |todo| else 0
    {
      trace := [];
      moved := 0;
      while moved < |todo|
        invariant Inv(View()) && moved <= |todo| && OffersFrom(todo, moved) <= offers
        invariant Progress(entries, todo, moved)
        invariant View() == Run(old(View()), trace)
        invariant forall k :: 0 <= k < moved ==> reachable(k) && OfferedIn(trace, todo[k])
      {
        if !reachable(moved) {
          offered := moved;
          return 0, offered, trace;
        }
        ghost var next := OfferNext(todo, moved);
        RunComposes(old(View()), trace, next);
        StillOffered(trace, next, todo, moved);
        trace := trace + next;
        moved := moved + 1;
      }
      offered := moved;
    }
  }
}
