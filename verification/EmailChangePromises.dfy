/** What the email-change protocol promises the account holder, over every run. */
module EmailChangePromises {
  import opened Basics
  import opened EmailChange
  import opened EmailChangeSafety

  lemma {:induction false} RunComposes(s: State, first: seq<Action>, rest: seq<Action>)
    ensures Run(s, first + rest) == Run(Run(s, first), rest)
    decreases |first|
  {
    if first == [] {
      assert first + rest == rest;
    } else {
      assert (first + rest)[1..] == first[1..] + rest;
      RunComposes(Step(s, first[0]), first[1..], rest);
    }
  }

  /**
   Whenever a confirmation replaced an address, a notice of that very change had gone to exactly that
   address before any link of the change was made, and the link used was one of them.
   */
  lemma ReplacementWasAnnounced(acts: seq<Action>, k: nat)
    requires k < |Run(Empty, acts).log| && Run(Empty, acts).log[k].Replaced?
    ensures
      var log := Run(Empty, acts).log;
      var e := log[k];
      && (exists m :: 0 <= m < k && log[m] == LinkMade(e.change, e.link))
      && (forall m :: 0 <= m < |log| && log[m].LinkMade? && log[m].change == e.change ==>
            Told(e.change, e.from) in log[..m])
  {
    RunKeeps(Empty, acts);
    var s := Run(Empty, acts);
    assert EventOk(s, k);
    forall m | 0 <= m < |s.log| && s.log[m].LinkMade? && s.log[m].change == s.log[k].change
      ensures Told(s.log[k].change, s.log[k].from) in s.log[..m]
    {
      assert EventOk(s, m);
    }
  }

  /** A local account's address changes only by a confirmation, which the log records, or by retirement. */
  lemma AddressChangesAreLogged(s: State, a: Action, user: nat)
    requires Inv(s) && user < |s.users| && s.users[user].isLocal
    ensures
      var t := Step(s, a);
      && user < |t.users|
      && (|| t.users[user].email == s.users[user].email
      || (a == Retire(user) && t.users[user].email == RetiredAddress(user))
      || (exists id, link :: 0 <= id < |s.changes| && s.changes[id].user == user
            && t.log == s.log + [Replaced(id, link, s.users[user].email, t.users[user].email)]))
  {
    var t := Step(s, a);
    if a.Confirm? && Confirms(s, a.link) {
      var id := s.links[a.link].change.value;
      assert LinkOk(s, a.link) && ChangeOk(s, id);
      if user == s.links[a.link].user {
        assert t.log == s.log + [Replaced(id, a.link, s.users[user].email, t.users[user].email)];
      }
    }
  }

  /** From a change's creation to its end, through failures, retries and repeated runs, the address stays the same. */
  lemma AddressHeldWhileOpen(s: State, first: seq<Action>, rest: seq<Action>, id: nat)
    requires Inv(s) && id < |s.changes|
    requires id < |Run(s, first + rest).changes| && Open(Run(s, first + rest).changes[id])
    ensures
      var user := s.changes[id].user;
      && user < |s.users| <= |Run(s, first).users|
      && Run(s, first).users[user].email == s.users[user].email == s.changes[id].oldEmail
  {
    var mid := Run(s, first);
    RunKeeps(s, first);
    RunComposes(s, first, rest);
    RunKeeps(mid, rest);
    assert SameChange(s.changes[id], mid.changes[id]);
    assert SameChange(mid.changes[id], Run(mid, rest).changes[id]);
    assert ChangeOk(s, id) && ChangeOk(mid, id);
  }

  /** A request opens exactly one change: the new one, from the address the account has at that moment. */
  lemma RequestOpensOne(s: State, user: nat, newEmail: Address, id: nat)
    requires Inv(s) && user < |s.users| && s.users[user].isLocal && newEmail.Address?
    requires id < |Step(s, Request(user, newEmail)).changes|
    requires Step(s, Request(user, newEmail)).changes[id].user == user
    ensures
      var t := Step(s, Request(user, newEmail));
      && (Open(t.changes[id]) <==> id == |s.changes|)
      && t.changes[|s.changes|].oldEmail == s.users[user].email
  {
    if id < |s.changes| { assert ChangeOk(s, id); }
  }

  /** In every run, `active` holds exactly in the three states under way. */
  lemma ActiveIffUnderWay(acts: seq<Action>, id: nat)
    requires id < |Run(Empty, acts).changes|
    ensures Run(Empty, acts).changes[id].active <==> UnderWay(Run(Empty, acts).changes[id].state)
  {
    RunKeeps(Empty, acts);
    assert ChangeOk(Run(Empty, acts), id);
  }

  /** Only an account's latest change can be under way or open to a retry. */
  lemma OnlyTheLatestIsOpen(acts: seq<Action>, id: nat, other: nat)
    requires id < |Run(Empty, acts).changes| && other < |Run(Empty, acts).changes| && other != id
    requires Run(Empty, acts).changes[other].user == Run(Empty, acts).changes[id].user
    ensures
      var changes := Run(Empty, acts).changes;
      Open(changes[id]) ==> other < id && changes[other].createdAt <= changes[id].createdAt && !Open(changes[other])
  {
    RunKeeps(Empty, acts);
    assert ChangeOk(Run(Empty, acts), id) && ChangeOk(Run(Empty, acts), other);
  }

  /** Confirmed, superseded, cancelled and deleted are for good. */
  lemma EndedStaysEnded(s: State, acts: seq<Action>, id: nat)
    requires Inv(s) && id < |s.changes| && !Open(s.changes[id])
    ensures
      var c := Run(s, acts).changes;
      id < |c| && !Open(c[id]) && c[id].state == s.changes[id].state
  {
    RunKeeps(s, acts);
    assert SameChange(s.changes[id], Run(s, acts).changes[id]);
  }

  predicate Uses(e: Event, id: nat) {
    (e.LinkMade? || e.Replaced?) && e.change == id
  }

  lemma StepNeverUses(s: State, a: Action, id: nat, k: nat)
    requires Inv(s) && id < |s.changes| && !Open(s.changes[id]) && |s.log| <= k < |Step(s, a).log|
    ensures !Uses(Step(s, a).log[k], id)
  {
    if a.Confirm? { assert ChangeOk(s, s.links[a.link].change.value); }
  }

  /** Once a change has ended no further link is made for it and no link confirms it. */
  lemma {:induction false} EndedIsNeverUsed(s: State, acts: seq<Action>, id: nat, k: nat)
    requires Inv(s) && id < |s.changes| && !Open(s.changes[id]) && |s.log| <= k < |Run(s, acts).log|
    ensures !Uses(Run(s, acts).log[k], id)
    decreases |acts|
  {
    if acts != [] {
      var t := Step(s, acts[0]);
      StepKeeps(s, acts[0]);
      assert SameChange(s.changes[id], t.changes[id]);
      if k < |t.log| {
        StepNeverUses(s, acts[0], id, k);
        RunKeeps(t, acts[1..]);
        assert Run(s, acts).log[..|t.log|][k] == t.log[k];
      } else {
        EndedIsNeverUsed(t, acts[1..], id, k);
      }
    }
  }

  /** The steps by which a person, or an administrator suspending them, moves on from earlier requests. */
  predicate MovesOn(s: State, a: Action, user: nat) {
    || a == ChangePassword(user)
    || (a.ResetPassword? && Resets(s, a.link) && s.links[a.link].user == user)
    || (a == Suspend(user) && user < |s.users| && !s.users[user].retired)
    || (a.Confirm? && Confirms(s, a.link) && s.links[a.link].user == user)
    || (a == Retire(user) && user < |s.users| && !s.users[user].retired)
  }

  lemma MovingOnEnds(s: State, a: Action, user: nat, id: nat)
    requires Inv(s) && MovesOn(s, a, user) && id < |s.changes| && s.changes[id].user == user
    ensures !Open(Step(s, a).changes[id])
  {
    assert ChangeOk(s, id);
  }

  /** After it, no retry, job run or link ever revives or confirms a change requested before. */
  lemma NothingEarlierRevives(s: State, a: Action, acts: seq<Action>, user: nat, id: nat, k: nat)
    requires Inv(s) && MovesOn(s, a, user) && id < |s.changes| && s.changes[id].user == user
    ensures
      var t := Run(Step(s, a), acts);
      && id < |t.changes| && !Open(t.changes[id])
      && (|Step(s, a).log| <= k < |t.log| ==> !Uses(t.log[k], id))
  {
    StepKeeps(s, a);
    MovingOnEnds(s, a, user, id);
    EndedStaysEnded(Step(s, a), acts, id);
    if |Step(s, a).log| <= k < |Run(Step(s, a), acts).log| { EndedIsNeverUsed(Step(s, a), acts, id, k); }
  }

  /** It also leaves the account no usable link of any kind. */
  lemma MovingOnCancelsLinks(s: State, a: Action, user: nat, l: nat, purpose: Purpose)
    requires Inv(s) && MovesOn(s, a, user) && l < |s.links| && s.links[l].user == user
    ensures !LinkUsable(Step(s, a).links[l], purpose, Step(s, a).now)
  {
  }

  /** Every usable link was made while the account had the address it has now. */
  lemma UsableLinksFitTheAddress(acts: seq<Action>, l: nat, purpose: Purpose)
    requires l < |Run(Empty, acts).links| && LinkUsable(Run(Empty, acts).links[l], purpose, Run(Empty, acts).now)
    ensures
      var s := Run(Empty, acts);
      s.links[l].user < |s.users| && s.links[l].address == s.users[s.links[l].user].email
  {
    RunKeeps(Empty, acts);
    assert LinkOk(Run(Empty, acts), l);
  }

  /** A change replaces the address at most once. */
  lemma ReplacedAtMostOnce(acts: seq<Action>, j: nat, k: nat)
    requires j < k < |Run(Empty, acts).log| && Run(Empty, acts).log[j].Replaced? && Run(Empty, acts).log[k].Replaced?
    ensures Run(Empty, acts).log[j].change != Run(Empty, acts).log[k].change
  {
    RunKeeps(Empty, acts);
  }

  /** No two accounts ever share an address. */
  lemma AddressesStayDistinct(acts: seq<Action>, u: nat, v: nat)
    requires u < v < |Run(Empty, acts).users|
    ensures Run(Empty, acts).users[u].email != Run(Empty, acts).users[v].email
  {
    RunKeeps(Empty, acts);
  }

  /** A failed change can be retried, unless the account has another change of the very same millisecond. */
  lemma FailedCanBeRetriedIff(s: State, job: nat)
    requires Inv(s) && job < |s.jobs| && s.jobs[job].change < |s.changes|
    requires !s.changes[s.jobs[job].change].deleted && s.changes[s.jobs[job].change].state.Failed?
    ensures
      var id := s.jobs[job].change;
      Reopens(s, job) <==>
        !exists n :: 0 <= n < id && !s.changes[n].deleted && s.changes[n].user == s.changes[id].user
                  && s.changes[n].createdAt == s.changes[id].createdAt
  {
    var id := s.jobs[job].change;
    assert JobOk(s, job);
    assert ChangeOk(s, id);
    if HasNewer(s.changes, id) {
      var n :| 0 <= n < |s.changes| && n != id && !s.changes[n].deleted && s.changes[n].user == s.changes[id].user
               && s.changes[id].createdAt <= s.changes[n].createdAt;
      assert n < id && s.changes[n].createdAt == s.changes[id].createdAt;
    }
  }
}
