/** The fixed-window throttle: a stored counter per scope and subject, and the time it starts again. */
module Throttle {
  import opened Basics

  /** The stored key is a digest of the subject under a secret; distinct subjects have distinct digests. */
  datatype Key = Key(scope: string, subject: string)
  datatype Record = Record(count: nat, resetAt: nat)
  datatype Answer = Admitted(count: nat, resetAt: nat) | TooMany(retryAfterSeconds: nat) | BadLimits
  datatype Reading = Reading(count: nat, resetAt: Option<nat>)

  type Store = map<Key, Record>

  predicate ValidLimits(limit: int, window: int) {
    limit >= 1 && window >= 1
  }

  /** The store holds no record of the key that still counts at this time. */
  predicate Expired(store: Store, key: Key, now: nat) {
    key !in store || store[key].resetAt <= now
  }

  /** The stored record after one more call. */
  function Counted(store: Store, key: Key, window: nat, now: nat): Record {
    if Expired(store, key, now) then Record(1, now + window) else store[key].(count := store[key].count + 1)
  }

  /** The whole number of seconds, at least one, that first covers that many milliseconds. */
  predicate IsWait(seconds: nat, ms: int) {
    seconds >= 1 && 1000 * seconds >= ms && (seconds > 1 ==> 1000 * (seconds - 1) < ms)
  }

  function CeilSeconds(ms: int): int {
    (ms + 999) / 1000
  }

  function SecondsUntil(resetAt: nat, now: nat): nat {
    Max(1, CeilSeconds(resetAt - now))
  }

  class Service {
    var records: Store

    constructor ()
      ensures records == map[]
    {
      records := map[];
    }

    method Consume(key: Key, limit: int, window: int, now: nat) returns (answer: Answer)
      modifies this
      ensures answer == ReplyTo(old(records), Timed(now, Op.Consume(key, limit, window))).answer
      ensures records == After(old(records), Timed(now, Op.Consume(key, limit, window)))
      ensures limit < 1 || window < 1 ==> answer.BadLimits? && records == old(records)
      ensures limit >= 1 && window >= 1 ==>
        var over := key !in old(records) || old(records)[key].resetAt <= now;
        var count := if over then 1 else old(records)[key].count + 1;
        var resetAt := if over then now + window else old(records)[key].resetAt;
        && records == old(records)[key := Record(count, resetAt)]
        && if count <= limit then answer == Admitted(count, resetAt)
           else answer.TooMany? && IsWait(answer.retryAfterSeconds, resetAt - now)
    {
      if limit < 1 || window < 1 {
        return BadLimits;
      }
      var nextResetAt := now + window;
      var expired := key !in records || records[key].resetAt <= now;
      var record := Record(if expired then 1 else records[key].count + 1,
        if expired then nextResetAt else records[key].resetAt);
      records := records[key := record];
      if record.count > limit {
        return TooMany(SecondsUntil(record.resetAt, now));
      }
      return Admitted(record.count, record.resetAt);
    }

    method Peek(key: Key, now: nat) returns (reading: Reading)
      ensures reading == ReplyTo(records, Timed(now, Op.Peek(key))).reading
      ensures reading ==
        if key in records && now < records[key].resetAt then Reading(records[key].count, Some(records[key].resetAt))
        else Reading(0, None)
    {
      if key !in records || records[key].resetAt <= now {
        return Reading(0, None);
      }
      return Reading(records[key].count, Some(records[key].resetAt));
    }

    method Clear(key: Key)
      modifies this
      ensures records == After(old(records), Timed(0, Op.Clear(key))) == old(records) - {key}
    {
      records := records - {key};
    }
  }

  // ----- histories of calls -----

  /** `Expire` is the database removing a record whose time is over. */
  datatype Op = Consume(key: Key, limit: int, window: int) | Peek(key: Key) | Clear(key: Key) | Expire(key: Key)
  datatype Timed = Timed(at: nat, op: Op)
  datatype Reply = Consumed(answer: Answer) | Peeked(reading: Reading) | Silent

  function After(store: Store, t: Timed): Store {
    match t.op
    case Consume(key, limit, window) =>
      if ValidLimits(limit, window) then store[key := Counted(store, key, window, t.at)] else store
    case Peek(_) => store
    case Clear(key) => store - {key}
    case Expire(key) => if Expired(store, key, t.at) then store - {key} else store
  }

  function ReplyTo(store: Store, t: Timed): Reply {
    match t.op
    case Consume(key, limit, window) =>
      if !ValidLimits(limit, window) then Consumed(BadLimits)
      else
        var record := Counted(store, key, window, t.at);
        Consumed(if record.count > limit then TooMany(SecondsUntil(record.resetAt, t.at))
                 else Admitted(record.count, record.resetAt))
    case Peek(key) =>
      Peeked(if Expired(store, key, t.at) then Reading(0, None)
             else Reading(store[key].count, Some(store[key].resetAt)))
    case Clear(_) => Silent
    case Expire(_) => Silent
  }

  function AfterAll(store: Store, ops: seq<Timed>): Store
    decreases |ops|
  {
    if ops == [] then store else AfterAll(After(store, ops[0]), ops[1..])
  }

  function Replies(store: Store, ops: seq<Timed>): seq<Reply>
    decreases |ops|
  {
    if ops == [] then []
    else (if ops[0].op.Expire? then [] else [ReplyTo(store, ops[0])]) + Replies(After(store, ops[0]), ops[1..])
  }

  /** The clock only moves forward. */
  predicate InOrder(ops: seq<Timed>) {
    forall i, j :: 0 <= i < j < |ops| ==> ops[i].at <= ops[j].at
  }

  // ----- removing expired records -----

  function WithoutExpiry(ops: seq<Timed>): seq<Timed>
    decreases |ops|
  {
    if ops == [] then [] else (if ops[0].op.Expire? then [] else [ops[0]]) + WithoutExpiry(ops[1..])
  }

  /** The two stores hold the same records, apart from ones already over. */
  ghost predicate Alike(a: Store, b: Store, now: nat) {
    forall k: Key ::
      (Expired(a, k, now) <==> Expired(b, k, now)) && (!Expired(a, k, now) ==> a[k] == b[k])
  }

  lemma AlikeReplies(a: Store, b: Store, t: Timed)
    requires Alike(a, b, t.at)
    ensures ReplyTo(a, t) == ReplyTo(b, t) && Alike(After(a, t), After(b, t), t.at)
    ensures t.op.Expire? ==> Alike(After(a, t), b, t.at)
  {
  }

  lemma {:induction false} AlikeHistories(a: Store, b: Store, ops: seq<Timed>, now: nat)
    requires Alike(a, b, now) && InOrder(ops) && (ops != [] ==> now <= ops[0].at)
    ensures Replies(a, ops) == Replies(b, WithoutExpiry(ops))
    decreases |ops|
  {
    if ops != [] {
      var t := ops[0];
      assert Alike(a, b, t.at);
      AlikeReplies(a, b, t);
      if t.op.Expire? {
        AlikeHistories(After(a, t), b, ops[1..], t.at);
        assert WithoutExpiry(ops) == WithoutExpiry(ops[1..]);
      } else {
        AlikeHistories(After(a, t), After(b, t), ops[1..], t.at);
        assert WithoutExpiry(ops) == [t] + WithoutExpiry(ops[1..]);
      }
    }
  }

  /** The database may remove expired records at any moment: no later answer changes. */
  lemma ExpiryChangesNoAnswer(store: Store, ops: seq<Timed>)
    requires InOrder(ops)
    ensures Replies(store, ops) == Replies(store, WithoutExpiry(ops))
  {
    AlikeHistories(store, store, ops, 0);
  }

  // ----- how many calls are admitted -----

  predicate Asks(t: Timed, key: Key) {
    t.op.Consume? && t.op.key == key
  }

  predicate Admits(store: Store, t: Timed, key: Key) {
    Asks(t, key) && ReplyTo(store, t).answer.Admitted?
  }

  function CountAdmitted(store: Store, ops: seq<Timed>, key: Key): nat
    decreases |ops|
  {
    if ops == [] then 0
    else (if Admits(store, ops[0], key) then 1 else 0) + CountAdmitted(After(store, ops[0]), ops[1..], key)
  }

  function CountAsked(ops: seq<Timed>, key: Key): nat
    decreases |ops|
  {
    if ops == [] then 0 else (if Asks(ops[0], key) then 1 else 0) + CountAsked(ops[1..], key)
  }

  /** Every call for the key has this limit and window, and nothing clears it. */
  predicate FixedFor(ops: seq<Timed>, key: Key, limit: int, window: int) {
    forall i :: 0 <= i < |ops| && ops[i].op.key == key ==>
      !ops[i].op.Clear? && (ops[i].op.Consume? ==> ops[i].op.limit == limit && ops[i].op.window == window)
  }

  /** Within one window: exactly the first calls up to the limit are admitted. */
  lemma {:induction false} AdmittedInOneWindow(store: Store, ops: seq<Timed>, key: Key, limit: int, window: int)
    requires ValidLimits(limit, window) && FixedFor(ops, key, limit, window) && InOrder(ops)
    requires key in store && (ops != [] ==> ops[|ops| - 1].at < store[key].resetAt)
    ensures CountAdmitted(store, ops, key) == Min(CountAsked(ops, key), Max(0, limit - store[key].count))
    decreases |ops|
  {
    if ops != [] {
      var next := After(store, ops[0]);
      assert ops[0].at <= ops[|ops| - 1].at;
      assert !Expired(store, key, ops[0].at);
      assert ops[0].op.key != key ==> key in next && next[key] == store[key];
      AdmittedInOneWindow(next, ops[1..], key, limit, window);
    }
  }

  /** From a window's first call on, at most the limit is admitted before the window ends. */
  lemma AdmittedFromFirstCall(store: Store, ops: seq<Timed>, key: Key, limit: int, window: int)
    requires ValidLimits(limit, window) && FixedFor(ops, key, limit, window) && InOrder(ops)
    requires ops != [] && Asks(ops[0], key) && Expired(store, key, ops[0].at)
    requires ops[|ops| - 1].at < ops[0].at + window
    ensures CountAdmitted(store, ops, key) == Min(CountAsked(ops, key), limit)
  {
    AdmittedInOneWindow(After(store, ops[0]), ops[1..], key, limit, window);
  }

  lemma {:induction false} AdmittedFromExpired(store: Store, ops: seq<Timed>, key: Key, limit: int, window: int,
                                               until: nat)
    requires ValidLimits(limit, window) && FixedFor(ops, key, limit, window) && InOrder(ops)
    requires ops != [] ==> Expired(store, key, ops[0].at) && ops[|ops| - 1].at <= until && until < ops[0].at + window
    ensures CountAdmitted(store, ops, key) <= limit
    decreases |ops|
  {
    if ops != [] {
      if Asks(ops[0], key) {
        AdmittedFromFirstCall(store, ops, key, limit, window);
      } else {
        AdmittedFromExpired(After(store, ops[0]), ops[1..], key, limit, window, until);
      }
    }
  }

  /** While a window is open that ends after the span began, it and one more window bound the span. */
  lemma {:induction false} AdmittedAcrossReset(store: Store, ops: seq<Timed>, key: Key, limit: int, window: int,
                                               begin: nat)
    requires ValidLimits(limit, window) && FixedFor(ops, key, limit, window) && InOrder(ops)
    requires key in store && begin < store[key].resetAt
    requires ops != [] ==> ops[|ops| - 1].at <= begin + window
    ensures CountAdmitted(store, ops, key) <= Max(0, limit - store[key].count) + limit
    decreases |ops|
  {
    if ops != [] {
      if Expired(store, key, ops[0].at) {
        AdmittedFromExpired(store, ops, key, limit, window, begin + window);
      } else {
        var next := After(store, ops[0]);
        assert ops[0].op.key != key ==> key in next && next[key] == store[key];
        AdmittedAcrossReset(next, ops[1..], key, limit, window, begin);
      }
    }
  }

  /** In any span no longer than one window at most twice the limit is admitted, whatever came before. */
  lemma {:induction false} AdmittedInAnySpan(store: Store, ops: seq<Timed>, key: Key, limit: int, window: int,
                                             begin: nat)
    requires ValidLimits(limit, window) && FixedFor(ops, key, limit, window) && InOrder(ops)
    requires ops != [] ==> begin <= ops[0].at && ops[|ops| - 1].at <= begin + window
    ensures CountAdmitted(store, ops, key) <= 2 * limit
    decreases |ops|
  {
    if ops != [] {
      if !Expired(store, key, ops[0].at) {
        AdmittedAcrossReset(store, ops, key, limit, window, begin);
      } else if Asks(ops[0], key) {
        AdmittedAcrossReset(After(store, ops[0]), ops[1..], key, limit, window, begin);
      } else {
        AdmittedInAnySpan(After(store, ops[0]), ops[1..], key, limit, window, begin);
      }
    }
  }

  // ----- waiting the reported time -----

  /** The reported time is the least whole number of seconds, at least one, that reaches the end of the window. */
  lemma RetryAfterIsLeast(resetAt: nat, now: nat, seconds: nat)
    requires seconds >= 1
    ensures now + 1000 * seconds >= resetAt <==> seconds >= SecondsUntil(resetAt, now)
  {
  }

  /** The key's window ends at `until`, or its record is gone and no call for it comes before then. */
  ghost predicate EndsAt(store: Store, ops: seq<Timed>, key: Key, until: nat) {
    && (key in store ==> store[key].resetAt == until)
    && (key !in store ==> forall i :: 0 <= i < |ops| ==> !Asks(ops[i], key))
  }

  /** Calls made before a window ends do not prolong it. */
  lemma {:induction false} CallsDoNotProlong(store: Store, ops: seq<Timed>, key: Key, until: nat)
    requires InOrder(ops) && EndsAt(store, ops, key, until)
    requires forall i :: 0 <= i < |ops| ==> (Asks(ops[i], key) ==> ops[i].at < until) && ops[i].op != Clear(key)
    ensures EndsAt(AfterAll(store, ops), [], key, until)
    decreases |ops|
  {
    if ops != [] {
      var next, rest := After(store, ops[0]), ops[1..];
      forall i | 0 <= i < |rest| && key !in next ensures !Asks(rest[i], key) {
        assert rest[i] == ops[i + 1] && ops[0].at <= ops[i + 1].at;
      }
      CallsDoNotProlong(next, rest, key, until);
    }
  }

  /**
   After a refusal, calls made before the window ends do not prolong it, and the database may remove the
   record once it is over: the first call after the reported wait is admitted.
   */
  lemma WaitingAdmits(store: Store, refused: Timed, others: seq<Timed>, retry: Timed)
    requires refused.op.Consume? && ReplyTo(store, refused).answer.TooMany?
    requires Asks(retry, refused.op.key) && ValidLimits(retry.op.limit, retry.op.window)
    requires retry.at >= refused.at + 1000 * ReplyTo(store, refused).answer.retryAfterSeconds
    requires InOrder(others)
    requires forall i :: 0 <= i < |others| ==>
      && (Asks(others[i], refused.op.key) ==> others[i].at < After(store, refused)[refused.op.key].resetAt)
      && others[i].op != Clear(refused.op.key)
    ensures ReplyTo(AfterAll(After(store, refused), others), retry).answer == Admitted(1, retry.at + retry.op.window)
  {
    var key := refused.op.key;
    var next := After(store, refused);
    CallsDoNotProlong(next, others, key, next[key].resetAt);
    RetryAfterIsLeast(next[key].resetAt, refused.at, SecondsUntil(next[key].resetAt, refused.at));
  }

  /** A call, reading or removal for one key changes no other. */
  lemma KeysAreIndependent(store: Store, t: Timed, key: Key)
    requires t.op.key != key
    ensures key in After(store, t) <==> key in store
    ensures key in store ==> After(store, t)[key] == store[key]
  {
  }
}
