/** What every reachable state of the email-change protocol keeps. */
module EmailChangeSafety {
  import opened Basics
  import opened EmailChange

  // ----- the invariant -----

  /** The notice of this change was handed to the provider, addressed to the old address. */
  predicate Announced(s: State, id: nat)
    requires id < |s.changes|
  {
    Told(id, s.changes[id].oldEmail) in s.log
  }

  /** Announced, or ended for good. */
  predicate Settled(s: State, id: nat)
    requires id < |s.changes|
  {
    Announced(s, id) || !Open(s.changes[id])
  }

  predicate Newest(changes: seq<Change>, id: nat)
    requires id < |changes|
  {
    forall n :: id < n < |changes| ==> changes[n].user != changes[id].user
  }

  /** An open change still starts from the account's address, and no later change of the account exists. */
  predicate StillCurrent(s: State, id: nat)
    requires id < |s.changes| && s.changes[id].user < |s.users|
  {
    var c := s.changes[id];
    s.users[c.user].isLocal && s.users[c.user].email == c.oldEmail && Newest(s.changes, id)
  }

  predicate ChangeOk(s: State, id: nat)
    requires id < |s.changes|
  {
    var c := s.changes[id];
    && c.user < |s.users| && c.createdAt <= s.now && c.newEmail.Address?
    && (c.active <==> UnderWay(c.state))
    && (c.active ==> c.endedAt.None?)
    && (Open(c) ==> StillCurrent(s, id))
    && (Open(c) && (c.state.NoticeSent? || c.state.LinkSent?) ==> Announced(s, id))
  }

  predicate LinkOk(s: State, l: nat)
    requires l < |s.links|
  {
    var k := s.links[l];
    && k.user < |s.users| && s.users[k.user].isLocal
    && (!k.deleted && !k.used ==> k.address == s.users[k.user].email)
    && (k.change.Some? <==> k.purpose.ChangeLink?)
    && (k.change.Some? ==>
        && k.change.value < |s.changes| && s.changes[k.change.value].user == k.user
        && LinkMade(k.change.value, l) in s.log)
  }

  predicate JobOk(s: State, j: nat)
    requires j < |s.jobs|
  {
    && s.jobs[j].change < |s.changes|
    && (s.jobs[j].kind.LinkMail? || s.jobs[j].delivered ==> Settled(s, s.jobs[j].change))
  }

  /** What a run has read about its change holds of it, unless the change has ended for good. */
  predicate RunOk(s: State, w: nat)
    requires w in s.runs
  {
    var r := s.runs[w];
    && r.job < |s.jobs| && s.jobs[r.job].change < |s.changes|
    && (var id := s.jobs[r.job].change;
        && (s.jobs[r.job].kind.LinkMail? || r.delivered || r.stage.Sent? || r.stage.Marked? ==> Settled(s, id))
        && (r.stage.Ready? ==> r.stage.address == s.changes[id].oldEmail || !Open(s.changes[id])))
  }

  predicate EventOk(s: State, k: nat)
    requires k < |s.log|
  {
    match s.log[k]
    case Told(id, address) => id < |s.changes|
    case LinkMade(id, link) => id < |s.changes| && link < |s.links| && Told(id, s.changes[id].oldEmail) in s.log[..k]
    case LinkMailed(id, address) => id < |s.changes| && address == s.changes[id].newEmail
    case Replaced(id, link, from, to) =>
      && id < |s.changes| && !Open(s.changes[id]) && from == s.changes[id].oldEmail && to == s.changes[id].newEmail
      && LinkMade(id, link) in s.log[..k]
  }

  predicate ChangesOk(s: State) { forall id :: 0 <= id < |s.changes| ==> ChangeOk(s, id) }
  predicate LinksOk(s: State) { forall l :: 0 <= l < |s.links| ==> LinkOk(s, l) }
  predicate JobsOk(s: State) { forall j :: 0 <= j < |s.jobs| ==> JobOk(s, j) }
  predicate RunsOk(s: State) { forall w :: w in s.runs ==> RunOk(s, w) }
  predicate LogOk(s: State) { forall k :: 0 <= k < |s.log| ==> EventOk(s, k) }

  /** No two accounts share an address, and a retired account's address is its own. */
  predicate AddressesOk(users: seq<User>) {
    && (forall u, v :: 0 <= u < v < |users| ==> users[u].email != users[v].email)
    && (forall u :: 0 <= u < |users| && users[u].email.RetiredAddress? ==> users[u].email.user == u)
  }

  /** Later changes were created no earlier, and no change is confirmed twice. */
  predicate InOrder(s: State) {
    && (forall m, n :: 0 <= m < n < |s.changes| ==> s.changes[m].createdAt <= s.changes[n].createdAt)
    && (forall j, k :: 0 <= j < k < |s.log| && s.log[j].Replaced? && s.log[k].Replaced? ==>
          s.log[j].change != s.log[k].change)
  }

  predicate Inv(s: State) {
    InOrder(s) && ChangesOk(s) && LinksOk(s) && JobsOk(s) && RunsOk(s) && LogOk(s) && AddressesOk(s.users)
  }

  // ----- what no step undoes -----

  predicate SameChange(c: Change, d: Change) {
    d.user == c.user && d.newEmail == c.newEmail && d.oldEmail == c.oldEmail && d.createdAt == c.createdAt
    && (c.deleted ==> d.deleted)
    && (!Open(c) ==> !Open(d) && d.state == c.state)
  }

  predicate Grows(s: State, t: State) {
    && s.now <= t.now
    && |s.users| <= |t.users| && (forall u :: 0 <= u < |s.users| ==> t.users[u].isLocal == s.users[u].isLocal)
    && |s.changes| <= |t.changes| && (forall id :: 0 <= id < |s.changes| ==> SameChange(s.changes[id], t.changes[id]))
    && |s.links| <= |t.links|
    && |s.jobs| <= |t.jobs|
    && (forall j :: 0 <= j < |s.jobs| ==> t.jobs[j].kind == s.jobs[j].kind && t.jobs[j].change == s.jobs[j].change)
    && |s.log| <= |t.log| && t.log[..|s.log|] == s.log
  }

  predicate ActiveOk(c: Change) {
    (c.active <==> UnderWay(c.state)) && (c.active ==> c.endedAt.None?)
  }

  predicate ActiveAll(s: State) { forall id :: 0 <= id < |s.changes| ==> ActiveOk(s.changes[id]) }

  predicate ByPerson(a: Action) {
    a.Request? || a.Confirm? || a.ChangePassword? || a.ResetPassword? || a.Suspend? || a.Retire?
  }

  predicate ByRun(a: Action) {
    a.Begin? || a.FindChange? || a.FindUser? || a.MakeLink? || a.GiveWay? || a.Send? || a.Mark? || a.Move? || a.Crash?
  }

  lemma StepGrows(s: State, a: Action)
    requires ActiveAll(s)
    ensures Grows(s, Step(s, a))
  {
    if ByPerson(a) { PersonGrows(s, a); }
    else if ByRun(a) { RunGrows(s, a); }
    else { OtherGrows(s, a); }
  }

  lemma PersonGrows(s: State, a: Action)
    requires ActiveAll(s) && ByPerson(a)
    ensures Grows(s, Step(s, a))
  {
    match a
    case Request(user, newEmail) => RequestGrows(s, user, newEmail);
    case Confirm(link) => ConfirmGrows(s, link);
    case Retire(user) => RetireGrows(s, user);
    case _ => ResetGrows(s, a);
  }

  lemma RequestGrows(s: State, user: nat, newEmail: Address)
    requires ActiveAll(s)
    ensures Grows(s, Requested(s, user, newEmail))
  {
  }

  lemma ConfirmGrows(s: State, link: nat)
    requires ActiveAll(s)
    ensures Confirms(s, link) ==> Grows(s, AfterConfirmation(s, link))
  {
  }

  lemma RetireGrows(s: State, user: nat)
    ensures Grows(s, Retired(s, user))
  {
  }

  lemma ResetGrows(s: State, a: Action)
    requires ActiveAll(s) && (a.ChangePassword? || a.ResetPassword? || a.Suspend?)
    ensures Grows(s, Step(s, a))
  {
  }

  lemma RunGrows(s: State, a: Action)
    requires ActiveAll(s) && ByRun(a)
    ensures Grows(s, Step(s, a))
  {
    match a
    case Move(w) => MoveGrows(s, w);
    case FindUser(w) => UserFoundGrows(s, w);
    case GiveWay(w) => GaveWayGrows(s, w);
    case MakeLink(w) => LinkStepGrows(s, w);
    case Send(w) => SentGrows(s, w);
    case Mark(w) => MarkedGrows(s, w);
    case FindChange(w) => FoundGrows(s, w);
    case _ => RunsGrow(s, a);
  }

  lemma MoveGrows(s: State, w: nat)
    requires ActiveAll(s)
    ensures Grows(s, Step(s, Move(w)))
  {
  }

  lemma UserFoundGrows(s: State, w: nat)
    requires ActiveAll(s)
    ensures Grows(s, UserFound(s, w))
  {
  }

  lemma GaveWayGrows(s: State, w: nat)
    requires ActiveAll(s)
    ensures Grows(s, GaveWay(s, w))
  {
  }

  lemma LinkStepGrows(s: State, w: nat)
    ensures Grows(s, Step(s, MakeLink(w)))
  {
    if MakesLink(s, w) { LinkMadeGrows(s, w); }
  }

  lemma LinkMadeGrows(s: State, w: nat)
    requires MakesLink(s, w)
    ensures Grows(s, LinkMadeBy(s, w)) && LinkMadeBy(s, w).changes == s.changes
  {
  }

  lemma SentGrows(s: State, w: nat)
    ensures Grows(s, SentBy(s, w)) && SentBy(s, w).changes == s.changes
  {
  }

  lemma MarkedGrows(s: State, w: nat)
    ensures Grows(s, MarkedBy(s, w)) && MarkedBy(s, w).changes == s.changes
  {
  }

  lemma FoundGrows(s: State, w: nat)
    ensures Grows(s, ChangeFound(s, w)) && ChangeFound(s, w).changes == s.changes
  {
  }

  lemma RunsGrow(s: State, a: Action)
    requires a.Begin? || a.Crash?
    ensures Grows(s, Step(s, a)) && Step(s, a).changes == s.changes
  {
  }

  lemma OtherGrows(s: State, a: Action)
    requires ActiveAll(s) && !ByPerson(a) && !ByRun(a)
    ensures Grows(s, Step(s, a))
  {
  }

  // ----- changes -----

  lemma PersonChange(s: State, a: Action, id: nat)
    requires ChangesOk(s) && Grows(s, Step(s, a)) && ByPerson(a)
    requires id < |Step(s, a).changes|
    ensures ChangeOk(Step(s, a), id)
  {
    var t := Step(s, a);
    if id < |s.changes| { assert ChangeOk(s, id); assert SameChange(s.changes[id], t.changes[id]); }
  }

  /** What was announced stays announced. */
  lemma StillAnnounced(s: State, t: State, id: nat)
    requires Grows(s, t) && id < |s.changes|
    ensures Announced(s, id) ==> Announced(t, id)
  {
    assert SameChange(s.changes[id], t.changes[id]);
    if Announced(s, id) { assert Told(id, s.changes[id].oldEmail) in t.log[..|s.log|]; }
  }

  lemma MoveChange(s: State, w: nat, id: nat)
    requires ChangesOk(s) && RunsOk(s) && Grows(s, Step(s, Move(w)))
    requires id < |Step(s, Move(w)).changes|
    ensures ChangeOk(Step(s, Move(w)), id)
  {
    assert ChangeOk(s, id);
    if Moves(s, w) { assert RunOk(s, w); }
  }

  lemma SameChanges(s: State, t: State, id: nat)
    requires ChangesOk(s) && Grows(s, t) && t.changes == s.changes && t.users == s.users && id < |s.changes|
    ensures ChangeOk(t, id)
  {
    assert ChangeOk(s, id);
    StillAnnounced(s, t, id);
  }

  lemma CancelledByRun(s: State, a: Action, id: nat)
    requires ChangesOk(s) && Grows(s, Step(s, a)) && (a.FindUser? || a.GiveWay?)
    requires id < |s.changes|
    ensures ChangeOk(Step(s, a), id)
  {
    assert ChangeOk(s, id);
    StillAnnounced(s, Step(s, a), id);
  }

  lemma RunChange(s: State, a: Action, id: nat)
    requires ChangesOk(s) && RunsOk(s) && Grows(s, Step(s, a)) && ByRun(a)
    requires id < |Step(s, a).changes|
    ensures ChangeOk(Step(s, a), id)
  {
    if a.Move? { MoveChange(s, a.run, id); }
    else if a.FindUser? || a.GiveWay? { CancelledByRun(s, a, id); }
    else { SameChanges(s, Step(s, a), id); }
  }

  lemma OtherChange(s: State, a: Action, id: nat)
    requires ChangesOk(s) && JobsOk(s) && Grows(s, Step(s, a)) && !ByPerson(a) && !ByRun(a)
    requires id < |Step(s, a).changes|
    ensures ChangeOk(Step(s, a), id)
  {
    assert ChangeOk(s, id);
    if a.Retry? && Reopens(s, a.job) { assert JobOk(s, a.job); }
  }

  lemma StepChange(s: State, a: Action, id: nat)
    requires ChangesOk(s) && JobsOk(s) && RunsOk(s) && Grows(s, Step(s, a))
    requires id < |Step(s, a).changes|
    ensures ChangeOk(Step(s, a), id)
  {
    if ByPerson(a) { PersonChange(s, a, id); }
    else if ByRun(a) { RunChange(s, a, id); }
    else { OtherChange(s, a, id); }
  }

  // ----- links -----

  lemma ConfirmLink(s: State, link: nat, l: nat)
    requires ChangesOk(s) && LinksOk(s) && Grows(s, Step(s, Confirm(link))) && l < |s.links|
    ensures LinkOk(Step(s, Confirm(link)), l)
  {
    var t := Step(s, Confirm(link));
    assert LinkOk(s, l);
    if s.links[l].change.Some? { assert LinkMade(s.links[l].change.value, l) in t.log[..|s.log|]; }
  }

  lemma PersonLink(s: State, a: Action, l: nat)
    requires ChangesOk(s) && LinksOk(s) && Grows(s, Step(s, a)) && ByPerson(a)
    requires l < |Step(s, a).links|
    ensures LinkOk(Step(s, a), l)
  {
    if a.Confirm? { ConfirmLink(s, a.link, l); }
    else if a.Retire? { RetireLink(s, a.user, l); }
    else if a.Request? { RequestLink(s, a.user, a.newEmail, l); }
    else { ResetLink(s, a, l); }
  }

  lemma RetireLink(s: State, user: nat, l: nat)
    requires LinksOk(s) && l < |s.links|
    ensures LinkOk(Retired(s, user), l)
  {
    assert LinkOk(s, l);
  }

  lemma RequestLink(s: State, user: nat, newEmail: Address, l: nat)
    requires LinksOk(s) && l < |s.links|
    ensures LinkOk(Requested(s, user, newEmail), l)
  {
    assert LinkOk(s, l);
  }

  lemma ResetLink(s: State, a: Action, l: nat)
    requires LinksOk(s) && (a.ChangePassword? || a.ResetPassword? || a.Suspend?) && l < |s.links|
    ensures LinkOk(Step(s, a), l)
  {
    assert LinkOk(s, l);
  }

  lemma SameLinks(s: State, t: State, l: nat)
    requires LinksOk(s) && Grows(s, t) && t.links == s.links && t.users == s.users && l < |s.links|
    ensures LinkOk(t, l)
  {
    assert LinkOk(s, l);
    if s.links[l].change.Some? { assert LinkMade(s.links[l].change.value, l) in t.log[..|s.log|]; }
  }

  lemma MadeLink(s: State, w: nat, l: nat)
    requires ChangesOk(s) && LinksOk(s) && Grows(s, Step(s, MakeLink(w))) && l < |Step(s, MakeLink(w)).links|
    ensures LinkOk(Step(s, MakeLink(w)), l)
  {
    if MakesLink(s, w) { assert ChangeOk(s, JobOf(s, w).change); }
    var t := Step(s, MakeLink(w));
    if l < |s.links| {
      assert LinkOk(s, l);
      if s.links[l].change.Some? { assert LinkMade(s.links[l].change.value, l) in t.log[..|s.log|]; }
    }
  }

  lemma RunLink(s: State, a: Action, l: nat)
    requires ChangesOk(s) && LinksOk(s) && Grows(s, Step(s, a)) && ByRun(a)
    requires l < |Step(s, a).links|
    ensures LinkOk(Step(s, a), l)
  {
    if a.MakeLink? { MadeLink(s, a.run, l); } else { SameLinks(s, Step(s, a), l); }
  }

  lemma OtherLink(s: State, a: Action, l: nat)
    requires LinksOk(s) && Grows(s, Step(s, a)) && !ByPerson(a) && !ByRun(a)
    requires l < |Step(s, a).links|
    ensures LinkOk(Step(s, a), l)
  {
    if l < |s.links| { assert LinkOk(s, l); }
  }

  // ----- jobs and runs -----

  lemma StillSettled(s: State, t: State, id: nat)
    requires Grows(s, t) && id < |s.changes|
    ensures Settled(s, id) ==> Settled(t, id)
  {
    assert SameChange(s.changes[id], t.changes[id]);
    StillAnnounced(s, t, id);
  }

  /** Jobs stay, are marked or unmarked as delivered, or are new. */
  lemma JobMoves(s: State, a: Action, j: nat)
    requires j < |Step(s, a).jobs|
    ensures j < |s.jobs| ==>
      || Step(s, a).jobs[j] == s.jobs[j]
      || (a.Retry? && Step(s, a).jobs[j] == s.jobs[j].(delivered := false))
      || (a.Mark? && IsRun(s, a.run) && s.runs[a.run].stage.Sent? && s.runs[a.run].job == j
          && Step(s, a).jobs[j] == s.jobs[j].(delivered := true))
    ensures j >= |s.jobs| ==>
      || (a.Request? && Step(s, a).jobs[j] == Job(Notice, |s.changes|, false) && |s.changes| < |Step(s, a).changes|)
      || (a.Move? && Moves(s, a.run) && Step(s, a).jobs[j] == Job(LinkMail, JobOf(s, a.run).change, false))
  {
  }

  lemma StepJob(s: State, a: Action, j: nat)
    requires JobsOk(s) && RunsOk(s) && Grows(s, Step(s, a))
    requires j < |Step(s, a).jobs|
    ensures JobOk(Step(s, a), j)
  {
    JobMoves(s, a, j);
    if j < |s.jobs| {
      assert JobOk(s, j);
      StillSettled(s, Step(s, a), s.jobs[j].change);
      if Step(s, a).jobs[j] != s.jobs[j] && a.Mark? { assert RunOk(s, a.run); }
    } else if a.Move? {
      assert RunOk(s, a.run);
      StillSettled(s, Step(s, a), JobOf(s, a.run).change);
    }
  }


  lemma KeptRun(s: State, t: State, w: nat)
    requires RunsOk(s) && Grows(s, t) && w in s.runs && w in t.runs && t.runs[w] == s.runs[w]
    ensures RunOk(t, w)
  {
    assert RunOk(s, w);
    StillSettled(s, t, s.jobs[s.runs[w].job].change);
  }

  lemma OwnRun(s: State, a: Action, w: nat)
    requires ChangesOk(s) && JobsOk(s) && RunsOk(s) && Grows(s, Step(s, a))
    requires ByRun(a) && !a.Begin? && a.run == w && w in s.runs && w in Step(s, a).runs
    ensures RunOk(Step(s, a), w)
  {
    if a.FindChange? || a.FindUser? { RunReads(s, a, w); }
    else if a.Send? || a.Mark? || a.MakeLink? { RunWorks(s, a, w); }
    else { RunStops(s, a, w); }
  }

  lemma RunReads(s: State, a: Action, w: nat)
    requires ChangesOk(s) && RunsOk(s) && w in s.runs && w in Step(s, a).runs
    requires (a.FindChange? || a.FindUser?) && a.run == w
    ensures RunOk(Step(s, a), w)
  {
    if a.FindChange? { RunReadsChange(s, w); } else { RunReadsUser(s, w); }
  }

  lemma RunWorks(s: State, a: Action, w: nat)
    requires RunsOk(s) && w in s.runs && (a.Send? || a.Mark? || a.MakeLink?) && a.run == w
    ensures w in Step(s, a).runs && RunOk(Step(s, a), w)
  {
    if a.Send? { RunSends(s, w); } else if a.Mark? { RunMarks(s, w); } else { RunMakesLink(s, w); }
  }

  lemma RunReadsChange(s: State, w: nat)
    requires RunsOk(s) && w in s.runs && w in ChangeFound(s, w).runs
    ensures RunOk(ChangeFound(s, w), w)
  {
    assert RunOk(s, w);
  }

  /** A change that is open still starts from the account's present address. */
  lemma RunReadsUser(s: State, w: nat)
    requires ChangesOk(s) && RunsOk(s) && w in s.runs && w in UserFound(s, w).runs
    ensures RunOk(UserFound(s, w), w)
  {
    assert RunOk(s, w);
    assert ChangeOk(s, s.jobs[s.runs[w].job].change);
  }

  lemma RunMakesLink(s: State, w: nat)
    requires RunsOk(s) && w in s.runs
    ensures w in Step(s, MakeLink(w)).runs && RunOk(Step(s, MakeLink(w)), w)
  {
    assert RunOk(s, w);
    if MakesLink(s, w) {
      LinkMadeGrows(s, w);
      StillSettled(s, LinkMadeBy(s, w), JobOf(s, w).change);
    }
  }

  lemma RunSends(s: State, w: nat)
    requires RunsOk(s) && w in s.runs
    ensures w in SentBy(s, w).runs && RunOk(SentBy(s, w), w)
  {
    assert RunOk(s, w);
    SentGrows(s, w);
    StillSettled(s, SentBy(s, w), s.jobs[s.runs[w].job].change);
  }

  lemma RunMarks(s: State, w: nat)
    requires RunsOk(s) && w in s.runs
    ensures w in MarkedBy(s, w).runs && RunOk(MarkedBy(s, w), w)
  {
    assert RunOk(s, w);
  }

  /** A run that moves its change on, gives way or dies is over, or has not got that far. */
  lemma RunStops(s: State, a: Action, w: nat)
    requires RunsOk(s) && (a.GiveWay? || a.Move? || a.Crash?) && a.run == w && w in s.runs && w in Step(s, a).runs
    ensures RunOk(Step(s, a), w)
  {
    assert RunOk(s, w) && Step(s, a) == s;
  }

  lemma StepRun(s: State, a: Action, w: nat)
    requires ChangesOk(s) && JobsOk(s) && RunsOk(s) && Grows(s, Step(s, a))
    requires w in Step(s, a).runs
    ensures RunOk(Step(s, a), w)
  {
    if ByRun(a) && !a.Begin? && a.run == w && w in s.runs {
      OwnRun(s, a, w);
    } else {
      RunAppears(s, a, w);
      if w in s.runs { KeptRun(s, Step(s, a), w); } else { assert JobOk(s, a.job); }
    }
  }

  lemma RunAppears(s: State, a: Action, w: nat)
    requires w in Step(s, a).runs && !(ByRun(a) && !a.Begin? && a.run == w && w in s.runs)
    ensures w in s.runs ==> Step(s, a).runs[w] == s.runs[w]
    ensures w !in s.runs ==>
      && a.Begin? && a.job < |s.jobs|
      && Step(s, a) == s.(runs := s.runs[w := JobRun(a.job, s.jobs[a.job].delivered, Reading)])
  {
  }

  // ----- the log and the addresses -----

  lemma KeptEvent(s: State, t: State, k: nat)
    requires LogOk(s) && Grows(s, t) && k < |s.log|
    ensures EventOk(t, k)
  {
    assert EventOk(s, k);
    assert t.log[..k] == s.log[..k] && t.log[k] == s.log[k];
    if !s.log[k].LinkMade? { assert s.log[k].change < |s.changes|; }
    assert SameChange(s.changes[s.log[k].change], t.changes[s.log[k].change]);
  }

  lemma ConfirmEvent(s: State, a: Action)
    requires ChangesOk(s) && LinksOk(s) && a.Confirm? && |Step(s, a).log| > |s.log|
    ensures EventOk(Step(s, a), |s.log|)
  {
    assert LinkOk(s, a.link) && ChangeOk(s, s.links[a.link].change.value);
    assert Step(s, a).log[..|s.log|] == s.log;
  }

  lemma MadeEvent(s: State, a: Action)
    requires ChangesOk(s) && JobsOk(s) && a.MakeLink? && |Step(s, a).log| > |s.log|
    ensures EventOk(Step(s, a), |s.log|)
  {
    assert ChangeOk(s, JobOf(s, a.run).change);
    assert Step(s, a).log[..|s.log|] == s.log;
  }

  lemma NewEvent(s: State, a: Action)
    requires ChangesOk(s) && LinksOk(s) && JobsOk(s) && RunsOk(s) && |Step(s, a).log| == |s.log| + 1
    ensures EventOk(Step(s, a), |s.log|)
  {
    if a.Confirm? { ConfirmEvent(s, a); }
    else if a.MakeLink? { MadeEvent(s, a); }
    else { SendEvent(s, a); }
  }

  lemma LatestEvent(s: State, a: Action)
    requires ChangesOk(s) && LinksOk(s) && JobsOk(s) && RunsOk(s)
    ensures |Step(s, a).log| <= |s.log| + 1
    ensures |Step(s, a).log| == |s.log| + 1 ==> EventOk(Step(s, a), |s.log|)
  {
    OneMoreEvent(s, a);
    if |Step(s, a).log| == |s.log| + 1 { NewEvent(s, a); }
  }

  lemma OnlySendsLog(s: State, a: Action)
    requires !a.Confirm? && !a.MakeLink? && |Step(s, a).log| > |s.log|
    ensures a.Send?
  {
  }

  lemma SendEvent(s: State, a: Action)
    requires RunsOk(s) && !a.Confirm? && !a.MakeLink? && |Step(s, a).log| == |s.log| + 1
    ensures EventOk(Step(s, a), |s.log|)
  {
    OnlySendsLog(s, a);
    SentEvent(s, a.run);
  }

  lemma SentEvent(s: State, w: nat)
    requires |SentBy(s, w).log| == |s.log| + 1
    ensures EventOk(SentBy(s, w), |s.log|)
  {
  }

  lemma StepAddresses(s: State, a: Action)
    requires ChangesOk(s) && AddressesOk(s.users)
    ensures AddressesOk(Step(s, a).users)
  {
    if a.Confirm? { ConfirmAddresses(s, a.link); }
    else if a.Join? || a.SignInWithGoogle? { NewAddresses(s, a); }
    else { OtherAddresses(s, a); }
  }

  lemma ConfirmAddresses(s: State, link: nat)
    requires ChangesOk(s) && AddressesOk(s.users)
    ensures AddressesOk(Step(s, Confirm(link)).users)
  {
    if Confirms(s, link) { assert ChangeOk(s, s.links[link].change.value); }
  }

  lemma NewAddresses(s: State, a: Action)
    requires AddressesOk(s.users) && (a.Join? || a.SignInWithGoogle?)
    ensures AddressesOk(Step(s, a).users)
  {
  }

  lemma OtherAddresses(s: State, a: Action)
    requires AddressesOk(s.users) && !a.Confirm? && !a.Join? && !a.SignInWithGoogle?
    ensures AddressesOk(Step(s, a).users)
  {
  }

  lemma CreatedInOrder(s: State, t: State, m: nat, n: nat)
    requires InOrder(s) && Grows(s, t) && m < n < |s.changes|
    ensures t.changes[m].createdAt <= t.changes[n].createdAt
  {
    assert SameChange(s.changes[m], t.changes[m]) && SameChange(s.changes[n], t.changes[n]);
  }

  lemma NewestComesLast(s: State, a: Action, m: nat)
    requires ChangesOk(s) && Grows(s, Step(s, a)) && m < |s.changes| < |Step(s, a).changes|
    ensures |Step(s, a).changes| == |s.changes| + 1
    ensures Step(s, a).changes[m].createdAt <= Step(s, a).changes[|s.changes|].createdAt
  {
    OnlyRequestsCreate(s, a);
    assert ChangeOk(s, m) && SameChange(s.changes[m], Step(s, a).changes[m]);
  }

  lemma OnlyRequestsCreate(s: State, a: Action)
    requires |s.changes| < |Step(s, a).changes|
    ensures |Step(s, a).changes| == |s.changes| + 1 && Step(s, a).changes[|s.changes|].createdAt == s.now
  {
  }

  lemma ReplacesNew(s: State, a: Action, j: nat)
    requires LogOk(s) && Grows(s, Step(s, a)) && j < |s.log| < |Step(s, a).log|
    requires s.log[j].Replaced? && Step(s, a).log[|s.log|].Replaced?
    ensures |Step(s, a).log| == |s.log| + 1 && Step(s, a).log[|s.log|].change != s.log[j].change
  {
    assert a.Confirm?;
    assert EventOk(s, j);
  }

  lemma StepInOrder(s: State, a: Action)
    requires InOrder(s) && ChangesOk(s) && LogOk(s) && Grows(s, Step(s, a))
    ensures InOrder(Step(s, a))
  {
    var t := Step(s, a);
    forall m, n | 0 <= m < n < |t.changes| ensures t.changes[m].createdAt <= t.changes[n].createdAt {
      if n < |s.changes| {
        CreatedInOrder(s, t, m, n);
      } else {
        OnlyRequestsCreate(s, a);
        NewestComesLast(s, a, m);
      }
    }
    forall j, k | 0 <= j < k < |t.log| && t.log[j].Replaced? && t.log[k].Replaced?
      ensures t.log[j].change != t.log[k].change
    {
      ReplacedApart(s, a, j, k);
    }
  }

  lemma ReplacedApart(s: State, a: Action, j: nat, k: nat)
    requires InOrder(s) && LogOk(s) && Grows(s, Step(s, a)) && j < k < |Step(s, a).log|
    requires Step(s, a).log[j].Replaced? && Step(s, a).log[k].Replaced?
    ensures Step(s, a).log[j].change != Step(s, a).log[k].change
  {
    OneMoreEvent(s, a);
    assert Step(s, a).log[..|s.log|] == s.log;
    assert Step(s, a).log[j] == s.log[j];
    if k >= |s.log| { ReplacesNew(s, a, j); }
  }

  lemma OneMoreEvent(s: State, a: Action)
    ensures |Step(s, a).log| <= |s.log| + 1
  {
  }

  lemma ChangesKeep(s: State, a: Action)
    requires ChangesOk(s) && JobsOk(s) && RunsOk(s) && Grows(s, Step(s, a))
    ensures ChangesOk(Step(s, a))
  {
    forall id | 0 <= id < |Step(s, a).changes| ensures ChangeOk(Step(s, a), id) { StepChange(s, a, id); }
  }

  lemma LinksKeep(s: State, a: Action)
    requires ChangesOk(s) && LinksOk(s) && Grows(s, Step(s, a))
    ensures LinksOk(Step(s, a))
  {
    forall l | 0 <= l < |Step(s, a).links| ensures LinkOk(Step(s, a), l) {
      if ByPerson(a) { PersonLink(s, a, l); } else if ByRun(a) { RunLink(s, a, l); } else { OtherLink(s, a, l); }
    }
  }

  lemma RunsKeep(s: State, a: Action)
    requires ChangesOk(s) && JobsOk(s) && RunsOk(s) && Grows(s, Step(s, a))
    ensures JobsOk(Step(s, a)) && RunsOk(Step(s, a))
  {
    forall j | 0 <= j < |Step(s, a).jobs| ensures JobOk(Step(s, a), j) { StepJob(s, a, j); }
    forall w | w in Step(s, a).runs ensures RunOk(Step(s, a), w) { StepRun(s, a, w); }
  }

  lemma LogKeeps(s: State, t: State)
    requires LogOk(s) && Grows(s, t) && |t.log| <= |s.log| + 1
    requires |t.log| == |s.log| + 1 ==> EventOk(t, |s.log|)
    ensures LogOk(t)
  {
    forall k | 0 <= k < |t.log| ensures EventOk(t, k) { if k < |s.log| { KeptEvent(s, t, k); } }
  }

  lemma ActiveEverywhere(s: State)
    requires ChangesOk(s)
    ensures ActiveAll(s)
  {
    forall id | 0 <= id < |s.changes| ensures ActiveOk(s.changes[id]) { assert ChangeOk(s, id); }
  }

  lemma StepKeeps(s: State, a: Action)
    requires Inv(s)
    ensures Inv(Step(s, a)) && Grows(s, Step(s, a))
  {
    ActiveEverywhere(s);
    StepGrows(s, a);
    ChangesKeep(s, a);
    LinksKeep(s, a);
    RunsKeep(s, a);
    LatestEvent(s, a);
    LogKeeps(s, Step(s, a));
    StepAddresses(s, a);
    StepInOrder(s, a);
  }

  lemma GrowsOn(s: State, t: State, u: State)
    requires Grows(s, t) && Grows(t, u)
    ensures Grows(s, u)
  {
    assert u.log[..|s.log|] == t.log[..|s.log|];
    forall id | 0 <= id < |s.changes| ensures SameChange(s.changes[id], u.changes[id]) {
      assert SameChange(s.changes[id], t.changes[id]) && SameChange(t.changes[id], u.changes[id]);
    }
  }

  /** The invariant holds of every run, and nothing a run records is undone. */
  lemma {:induction false} RunKeeps(s: State, acts: seq<Action>)
    requires Inv(s)
    ensures Inv(Run(s, acts)) && Grows(s, Run(s, acts))
    decreases |acts|
  {
    if acts != [] {
      StepKeeps(s, acts[0]);
      RunKeeps(Step(s, acts[0]), acts[1..]);
      GrowsOn(s, Step(s, acts[0]), Run(s, acts));
    }
  }
}
