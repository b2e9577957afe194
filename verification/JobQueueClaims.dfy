/**
 What a claim is worth: for ten minutes after it was made or last renewed it keeps every other delivery
 out, unless the queue library says that its worker is gone.
 */
module JobQueueClaims {
  import opened Basics
  import opened JobQueue
  import opened JobQueueSafety

  /** Somebody's claim on the entry is not ten minutes old. */
  predicate LiveClaim(e: Entry, now: nat) {
    e.lease.Some? && now <= e.lease.value.at + 600_000
  }

  /** This claim succeeds: its delivery, which only looked at the entry, holds it afterwards. */
  predicate ClaimsNow(s: State, a: Action, job: Attempt) {
    && a.ClaimJob? && a.worker in s.workers && s.workers[a.worker].Looking? && s.workers[a.worker].job == job
    && a.worker in Step(s, a).workers && Step(s, a).workers[a.worker].Holding?
  }

  /** A delivery renews the claim it still has. */
  predicate RenewsNow(s: State, a: Action, job: Attempt) {
    && a.Renew? && a.worker in s.workers && s.workers[a.worker].Holding? && s.workers[a.worker].job == job
    && job.entry < |s.entries| && s.entries[job.entry].runKey == job.runKey
    && s.entries[job.entry].lease.Some? && s.entries[job.entry].lease.value.token == s.workers[a.worker].token
  }

  /** While a claim lives, nobody else's succeeds: the other delivery ends and leaves the entry as it is. */
  lemma LiveClaimKeepsOut(s: State, w: nat)
    requires w in s.workers && s.workers[w].Looking? && s.workers[w].job.entry < |s.entries|
    requires LiveClaim(s.entries[s.workers[w].job.entry], s.now)
    ensures Step(s, ClaimJob(w, false)) == s.(workers := s.workers - {w})
  {
  }

  /** A claim older than that, or a take-over, lets the entry's next attempt start. */
  lemma StaleClaimLetsIn(s: State, w: nat, takeOver: bool)
    requires w in s.workers && s.workers[w].Looking? && s.workers[w].job.entry < |s.entries|
    requires
      var e, job := s.entries[s.workers[w].job.entry], s.workers[w].job;
      e.runKey == job.runKey && e.attempts + 1 == job.number && (e.state.Pending? || e.state.Queued?)
      && (takeOver || !LiveClaim(e, s.now))
    ensures ClaimsNow(s, ClaimJob(w, takeOver), s.workers[w].job)
    ensures Step(s, ClaimJob(w, takeOver)).entries[s.workers[w].job.entry].lease == Some(Lease(s.tokens, s.now))
  {
  }

  // ----- over a run -----

  /** The attempt is recorded or given up, or its entry carries a claim at least this young. */
  predicate Reserved(s: State, job: Attempt, since: nat) {
    && since <= s.now && job.entry < |s.entries|
    && var e := s.entries[job.entry];
       || e.runKey > job.runKey || (e.runKey == job.runKey && e.attempts >= job.number)
       || (IsNext(e, job) && e.lease.Some? && e.lease.value.at >= since)
  }

  lemma ClaimReserves(s: State, a: Action, job: Attempt)
    requires WorkersOk(s) && (ClaimsNow(s, a, job) || RenewsNow(s, a, job))
    ensures Reserved(Step(s, a), job, s.now)
  {
    assert WorkerOk(s, s.workers[a.worker]);
  }

  lemma EditKeepsReserved(s: State, a: Action, job: Attempt, since: nat)
    requires EditsEntries(a) && Reserved(s, job, since)
    ensures Reserved(Step(s, a), job, since)
  {
  }

  lemma RecordKeepsReserved(s: State, a: Action, job: Attempt, since: nat)
    requires IsRecord(a) && Reserved(s, job, since)
    ensures Reserved(Step(s, a), job, since)
  {
  }

  lemma StepKeepsReserved(s: State, a: Action, job: Attempt, since: nat)
    requires Reserved(s, job, since)
    ensures Reserved(Step(s, a), job, since)
  {
    if EditsEntries(a) { EditKeepsReserved(s, a, job, since); }
    else if IsRecord(a) { RecordKeepsReserved(s, a, job, since); }
    else { EntriesStay(s, a); }
  }

  lemma {:induction false} RunKeepsReserved(s: State, acts: seq<Action>, job: Attempt, since: nat)
    requires Reserved(s, job, since)
    ensures Reserved(Run(s, acts), job, since)
    decreases |acts|
  {
    if acts != [] {
      StepKeepsReserved(s, acts[0], job, since);
      RunKeepsReserved(Step(s, acts[0]), acts[1..], job, since);
    }
  }

  lemma NextClaimIsLate(s: State, b: Action, job: Attempt, since: nat)
    requires Reserved(s, job, since) && ClaimsNow(s, b, job)
    ensures b.takeOver || since + 600_000 < s.now
  {
  }

  /**
   In every run, two deliveries of one attempt have both claimed it only if the later one was told that the
   worker was gone, or came more than ten minutes after the earlier one's claim and after its every renewal.
   */
  lemma AttemptRunsOnce(acts: seq<Action>, a: Action, more: seq<Action>, b: Action, job: Attempt)
    requires ClaimsNow(Run(Empty, acts), a, job) || RenewsNow(Run(Empty, acts), a, job)
    requires ClaimsNow(Run(Empty, acts + [a] + more), b, job)
    ensures b.takeOver || Run(Empty, acts).now + 600_000 < Run(Empty, acts + [a] + more).now
  {
    var s := Run(Empty, acts);
    InitInv();
    RunKeeps(Empty, acts);
    RunComposes(Empty, acts, [a]);
    RunComposes(Empty, acts + [a], more);
    assert Run(s, [a]) == Step(s, a);
    ClaimReserves(s, a, job);
    RunKeepsReserved(Step(s, a), more, job, s.now);
    NextClaimIsLate(Run(Empty, acts + [a] + more), b, job, s.now);
  }
}
