/**
 The durable job queue: outbox entries in MongoDB, the relay that offers them to Redis, and the
 executor that claims and records attempts. Every database update is one atomic step; between a
 read and the write that follows it anything else may happen. Redis is a set of job ids that may
 lose members at any time, and a delivery may be repeated, overlap, or die.

 An update whose filter matches nothing leaves the state alone, so `Step` is total and every
 sequence of actions is a run.
 */
module JobQueue {
  import opened Basics

  datatype Queue = Ai | Email

  datatype JobState = Pending | Queued | Done | Failed | Dismissed

  /** What the job is for. All email jobs look alike to the queue. */
  datatype Payload = Classify(report: nat, request: nat) | Mail

  datatype Lease = Lease(token: nat, at: nat)

  datatype Entry = Entry(
    queue: Queue,
    payload: Payload,
    state: JobState,
    runKey: nat,
    attempts: nat,
    lease: Option<Lease>,
    lastError: Option<Code>,
    notBefore: Option<nat>,
    queuedAt: Option<nat>)

  /** One try of one entry: the data a Redis job carries. */
  datatype Attempt = Attempt(entry: nat, runKey: nat, number: nat)

  /** What was recorded for an attempt. */
  datatype Outcome = Completed | GaveUp(code: Code) | RetryAt(time: nat)

  /** What a handler throws; `retryAfter` is the provider's own wait, if it named one. */
  datatype Failure = Failure(code: Code, retryable: bool, retryAfter: Option<nat>)

  /** An entry as the relay read it; `first` when it was read as PENDING, else it is a re-offer. */
  datatype Offer = Offer(entry: nat, runKey: nat, attempts: nat, first: bool)

  /** Where a delivery stands: it has read its entry, or it holds the claim it made. */
  datatype Worker =
    | Looking(job: Attempt, payload: Payload, lastError: Option<Code>, seen: JobState)
    | Holding(job: Attempt, payload: Payload, lastError: Option<Code>, token: nat)

  /** `outcomes` is history: no step reads it. */
  datatype State = State(
    now: nat,
    tokens: nat,
    entries: seq<Entry>,
    offers: set<Offer>,
    jobs: set<Attempt>,
    workers: map<nat, Worker>,
    outcomes: map<Attempt, Outcome>)

  datatype Action =
    | Tick(ms: nat)
    | Enqueue(queue: Queue, payload: Payload)
    | RelayRead(entry: nat)
    | ReofferRead(entry: nat)
    | AddJob(offer: Offer)
    | MarkOffered(offer: Offer)
    | StopOffer(offer: Offer)
    | LoseJob(job: Attempt)
    | Deliver(worker: nat, job: Attempt)
    | RefuseType(worker: nat)
    | ClaimJob(worker: nat, takeOver: bool)
    | Renew(worker: nat)
    | RecordDone(worker: nat)
    | RecordFailure(worker: nat, failure: Failure)
    | Crash(worker: nat)
    | Retry(entry: nat, payload: Payload)
    | Dismiss(entry: nat)
    | DismissReplaced(report: nat, keep: Option<nat>)

  const CLAIM_AFTER_MS: nat := 600_000
  const REOFFER_AFTER_MS: nat := 600_000

  const Empty: State := State(0, 0, [], {}, {}, map[], map[])

  function MaxAttempts(queue: Queue): nat {
    match queue case Ai => 6 case Email => 8
  }

  function BackoffBase(queue: Queue): nat {
    match queue case Ai => 30_000 case Email => 60_000
  }

  function BackoffCap(queue: Queue): nat {
    match queue case Ai => 1_800_000 case Email => 7_200_000
  }

  function Pow2(n: nat): (p: nat)
    ensures p >= 1
  {
    if n == 0 then 1 else 2 * Pow2(n - 1)
  }

  /** The wait after a failed attempt when the provider named none. */
  function Backoff(base: nat, cap: nat, attempt: nat): nat {
    Min(base * Pow2(Max(0, attempt - 1)), cap)
  }

  predicate Finished(state: JobState) {
    state.Done? || state.Failed? || state.Dismissed?
  }

  function NewEntry(queue: Queue, payload: Payload): Entry {
    Entry(queue, payload, Pending, 0, 0, None, None, None, None)
  }

  predicate Due(e: Entry, now: nat) {
    e.state.Pending? && (e.notBefore.Some? ==> e.notBefore.value <= now)
  }

  predicate LongQueued(e: Entry, now: nat) {
    e.state.Queued? && e.queuedAt.Some? && e.queuedAt.value + REOFFER_AFTER_MS < now
  }

  predicate OfferMatches(e: Entry, o: Offer) {
    e.runKey == o.runKey && e.attempts == o.attempts && (if o.first then e.state.Pending? else e.state.Queued?)
  }

  /** Attempt `a` is the next one the entry will record. */
  predicate IsNext(e: Entry, a: Attempt) {
    e.runKey == a.runKey && e.attempts + 1 == a.number
  }

  predicate MayClaim(e: Entry, a: Attempt, takeOver: bool, now: nat) {
    && IsNext(e, a)
    && (e.state.Pending? || e.state.Queued?)
    && (takeOver || e.lease.None? || e.lease.value.at + CLAIM_AFTER_MS < now)
  }

  /** The entry still carries this delivery's claim. */
  predicate HasLease(e: Entry, runKey: nat, token: nat) {
    e.runKey == runKey && e.lease.Some? && e.lease.value.token == token
  }

  predicate MayRecord(e: Entry, a: Attempt, token: nat) {
    IsNext(e, a) && HasLease(e, a.runKey, token)
  }

  predicate IsFinal(e: Entry, a: Attempt, f: Failure) {
    !f.retryable || a.number >= MaxAttempts(e.queue)
  }

  function WaitFor(e: Entry, a: Attempt, f: Failure): nat {
    if f.retryAfter.Some? then f.retryAfter.value
    else Backoff(BackoffBase(e.queue), BackoffCap(e.queue), a.number)
  }

  function FailureOutcome(e: Entry, a: Attempt, f: Failure, now: nat): Outcome {
    if IsFinal(e, a, f) then GaveUp(f.code) else RetryAt(now + WaitFor(e, a, f))
  }

  function FailedEntry(e: Entry, a: Attempt, f: Failure, now: nat): Entry {
    var base := e.(attempts := a.number, lastError := Some(f.code), lease := None);
    if IsFinal(e, a, f) then base.(state := Failed)
    else base.(state := Pending, notBefore := Some(now + WaitFor(e, a, f)))
  }

  function DoneEntry(e: Entry, a: Attempt): Entry {
    e.(state := Done, attempts := a.number, lease := None, notBefore := None)
  }

  predicate Replaced(e: Entry, id: nat, report: nat, keep: Option<nat>) {
    e.state.Failed? && e.payload.Classify? && e.payload.report == report && keep != Some(id)
  }

  function Without(workers: map<nat, Worker>, w: nat): map<nat, Worker> {
    workers - {w}
  }

  function Put(s: State, id: nat, e: Entry): State
    requires id < |s.entries|
  {
    s.(entries := s.entries[id := e])
  }

  predicate IsLooking(s: State, w: nat) {
    w in s.workers && s.workers[w].Looking? && s.workers[w].job.entry < |s.entries|
  }

  predicate IsHolding(s: State, w: nat) {
    w in s.workers && s.workers[w].Holding? && s.workers[w].job.entry < |s.entries|
  }

  predicate Records(s: State, w: nat) {
    IsHolding(s, w) && MayRecord(s.entries[s.workers[w].job.entry], s.workers[w].job, s.workers[w].token)
  }

  predicate Claims(s: State, w: nat, takeOver: bool) {
    IsLooking(s, w) && MayClaim(s.entries[s.workers[w].job.entry], s.workers[w].job, takeOver, s.now)
  }

  predicate Refuses(s: State, w: nat) {
    && IsLooking(s, w)
    && var e := s.entries[s.workers[w].job.entry];
       IsNext(e, s.workers[w].job) && e.state == s.workers[w].seen
  }

  function Delivered(s: State, w: nat, job: Attempt): State {
    if w !in s.workers && job in s.jobs && job.entry < |s.entries| then
      var e := s.entries[job.entry];
      if !Finished(e.state) && IsNext(e, job) then
        s.(workers := s.workers[w := Looking(job, e.payload, e.lastError, e.state)])
      else s
    else s
  }

  function Refused(s: State, w: nat): State {
    if Refuses(s, w) then
      var job := s.workers[w].job;
      var e := s.entries[job.entry];
      Put(s, job.entry, e.(state := Failed, attempts := job.number, lastError := Some(UnknownType))).(
        workers := Without(s.workers, w),
        outcomes := s.outcomes[job := GaveUp(UnknownType)])
    else if IsLooking(s, w) then s.(workers := Without(s.workers, w))
    else s
  }

  function Claimed(s: State, w: nat, takeOver: bool): State {
    if Claims(s, w, takeOver) then
      var l := s.workers[w];
      var e := s.entries[l.job.entry];
      Put(s, l.job.entry, e.(lease := Some(Lease(s.tokens, s.now)))).(
        tokens := s.tokens + 1,
        workers := s.workers[w := Holding(l.job, l.payload, l.lastError, s.tokens)])
    else if IsLooking(s, w) then s.(workers := Without(s.workers, w))
    else s
  }

  function Renewed(s: State, w: nat): State {
    if IsHolding(s, w) then
      var h := s.workers[w];
      var e := s.entries[h.job.entry];
      if HasLease(e, h.job.runKey, h.token) then Put(s, h.job.entry, e.(lease := Some(Lease(h.token, s.now))))
      else s
    else s
  }

  function RecordedDone(s: State, w: nat): State {
    if Records(s, w) then
      var job := s.workers[w].job;
      Put(s, job.entry, DoneEntry(s.entries[job.entry], job)).(
        workers := Without(s.workers, w),
        outcomes := s.outcomes[job := Completed])
    else if IsHolding(s, w) then s.(workers := Without(s.workers, w))
    else s
  }

  function RecordedFailure(s: State, w: nat, f: Failure): State {
    if Records(s, w) then
      var job := s.workers[w].job;
      var e := s.entries[job.entry];
      Put(s, job.entry, FailedEntry(e, job, f, s.now)).(
        workers := Without(s.workers, w),
        outcomes := s.outcomes[job := FailureOutcome(e, job, f, s.now)])
    else if IsHolding(s, w) then s.(workers := Without(s.workers, w))
    else s
  }

  function Marked(s: State, o: Offer): State {
    if o in s.offers then
      var t := s.(offers := s.offers - {o});
      if o.entry < |s.entries| && OfferMatches(s.entries[o.entry], o) then
        var e := s.entries[o.entry];
        Put(t, o.entry,
            if o.first then e.(state := Queued, queuedAt := Some(s.now), notBefore := None)
            else e.(queuedAt := Some(s.now)))
      else t
    else s
  }

  function Retried(s: State, id: nat, payload: Payload): State {
    if id < |s.entries| && s.entries[id].state.Failed? then
      var e := s.entries[id];
      Put(s, id, e.(state := Pending, attempts := 0, runKey := e.runKey + 1, payload := payload,
                    lastError := None, queuedAt := None, notBefore := None))
    else s
  }

  function DismissedReplaced(s: State, report: nat, keep: Option<nat>): State {
    s.(entries := seq(|s.entries|, id requires 0 <= id < |s.entries| =>
      if Replaced(s.entries[id], id, report, keep) then s.entries[id].(state := Dismissed) else s.entries[id]))
  }

  function Step(s: State, a: Action): State {
    match a
    case Tick(ms) => s.(now := s.now + ms)
    case Enqueue(queue, payload) => s.(entries := s.entries + [NewEntry(queue, payload)])
    case RelayRead(id) =>
      if id < |s.entries| && Due(s.entries[id], s.now) then
        s.(offers := s.offers + {Offer(id, s.entries[id].runKey, s.entries[id].attempts, true)})
      else s
    case ReofferRead(id) =>
      if id < |s.entries| && LongQueued(s.entries[id], s.now) then
        s.(offers := s.offers + {Offer(id, s.entries[id].runKey, s.entries[id].attempts, false)})
      else s
    case AddJob(o) =>
      if o in s.offers then s.(jobs := s.jobs + {Attempt(o.entry, o.runKey, o.attempts + 1)}) else s
    case MarkOffered(o) => Marked(s, o)
    case StopOffer(o) => s.(offers := s.offers - {o})
    case LoseJob(job) => s.(jobs := s.jobs - {job})
    case Deliver(w, job) => Delivered(s, w, job)
    case RefuseType(w) => Refused(s, w)
    case ClaimJob(w, takeOver) => Claimed(s, w, takeOver)
    case Renew(w) => Renewed(s, w)
    case RecordDone(w) => RecordedDone(s, w)
    case RecordFailure(w, f) => RecordedFailure(s, w, f)
    case Crash(w) => s.(workers := Without(s.workers, w))
    case Retry(id, payload) => Retried(s, id, payload)
    case Dismiss(id) =>
      if id < |s.entries| && s.entries[id].state.Failed? then Put(s, id, s.entries[id].(state := Dismissed)) else s
    case DismissReplaced(report, keep) => DismissedReplaced(s, report, keep)
  }

  function Run(s: State, acts: seq<Action>): State
    decreases |acts|
  {
    if acts == [] then s else Run(Step(s, acts[0]), acts[1..])
  }
}
