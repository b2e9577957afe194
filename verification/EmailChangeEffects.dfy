/**
 What the transactions of an email change do, told from the stored records alone: when a link may be used,
 what its use changes, and what a request, a reset and a retry leave behind. And how long a link lives, over
 every run.
 */
module EmailChangeEffects {
  import opened Basics
  import opened EmailChange

  predicate InState(c: Change, state: ChangeState) {
    !c.deleted && c.active && c.state == state
  }

  /** An account that may change its address: active, not retired, and with a password of its own. */
  predicate CanChange(u: User) {
    u.active && !u.retired && u.isLocal
  }

  // ----- when a link may be used -----

  /** The link is there, of that purpose, unused, and its time is not over. */
  predicate MayBeUsed(l: Link, purpose: Purpose, now: nat) {
    l.purpose == purpose && !l.used && !l.deleted && now < l.expiresAt
  }

  predicate MayConfirm(s: State, link: nat) {
    && link < |s.links| && MayBeUsed(s.links[link], ChangeLink, s.now)
    && s.links[link].change.Some? && s.links[link].change.value < |s.changes| && s.links[link].user < |s.users|
    && var c := s.changes[s.links[link].change.value];
       && (InState(c, NoticeSent) || InState(c, LinkSent)) && CanChange(s.users[s.links[link].user])
       && forall u :: 0 <= u < |s.users| && u != s.links[link].user ==> s.users[u].email != c.newEmail
  }

  predicate MayReset(s: State, link: nat) {
    && link < |s.links| && MayBeUsed(s.links[link], PasswordReset, s.now)
    && s.links[link].user < |s.users| && CanChange(s.users[s.links[link].user])
  }

  // ----- what is left behind -----

  /** The account's unused links of these purposes are gone, and those of no other account. */
  predicate LinksEnded(before: seq<Link>, user: nat, purposes: set<Purpose>, after: seq<Link>) {
    |after| == |before| && forall l :: 0 <= l < |before| ==>
      after[l] == if before[l].user == user && !before[l].used && before[l].purpose in purposes
                  then before[l].(deleted := true) else before[l]
  }

  /** The change's unused links are gone, and no others. */
  predicate LinksDropped(before: seq<Link>, change: nat, after: seq<Link>) {
    |after| == |before| && forall l :: 0 <= l < |before| ==>
      after[l] == if before[l].change == Some(change) && !before[l].used then before[l].(deleted := true) else before[l]
  }

  /** The account's changes under way or failed have ended in that state, and those of no other account. */
  predicate ChangesEnded(before: seq<Change>, user: nat, state: ChangeState, now: nat, after: seq<Change>) {
    |after| == |before| && forall id :: 0 <= id < |before| ==>
      var c := before[id];
      after[id] == if c.user == user && !c.deleted && (c.active || c.state.Failed?)
                   then c.(state := state, active := false, endedAt := Some(now)) else c
  }

  /** A confirmation: the account has the new address, the change is confirmed, and nothing else of it is open. */
  predicate WasConfirmed(s: State, link: nat, t: State)
    requires link < |s.links| && s.links[link].change.Some? && s.links[link].change.value < |s.changes|
    requires s.links[link].user < |s.users|
  {
    var u, id := s.links[link].user, s.links[link].change.value;
    var c := s.changes[id];
    && t == s.(users := t.users, links := t.links, changes := t.changes, log := t.log)
    && t.users == s.users[u := s.users[u].(email := c.newEmail)]
    && t.log == s.log + [Replaced(id, link, s.users[u].email, c.newEmail)]
    && LinksEnded(s.links[link := s.links[link].(used := true)], u, {PasswordReset, ChangeLink, VerifyLink}, t.links)
    && ChangesEnded(s.changes[id := c.(state := ChangeState.Confirmed, active := false, endedAt := Some(s.now))],
                    u, Superseded, s.now, t.changes)
  }

  /** A reset uses its link up and ends every link and change of the account; addresses stay. */
  predicate WasReset(s: State, link: nat, t: State)
    requires link < |s.links|
  {
    var u := s.links[link].user;
    && t == s.(links := t.links, changes := t.changes)
    && LinksEnded(s.links[link := s.links[link].(used := true)], u, {PasswordReset, ChangeLink, VerifyLink}, t.links)
    && ChangesEnded(s.changes, u, Cancelled, s.now, t.changes)
  }

  /** A request ends the account's earlier changes and their links, and stores its own with its notice job. */
  predicate WasRequested(s: State, user: nat, newEmail: Address, t: State)
    requires user < |s.users|
  {
    var n := |s.changes|;
    && t == s.(links := t.links, changes := t.changes, jobs := s.jobs + [Job(Notice, n, false)])
    && LinksEnded(s.links, user, {ChangeLink}, t.links)
    && |t.changes| == n + 1 && ChangesEnded(s.changes, user, Superseded, s.now, t.changes[..n])
    && t.changes[n] == Change(user, newEmail, s.users[user].email, s.now, NoticePending, true, None, false)
  }

  /** A fresh link takes the place of the account's earlier ones: half an hour for a reset, else a day. */
  predicate LinkAdded(s: State, user: nat, purpose: Purpose, change: Option<nat>, address: Address, links: seq<Link>) {
    var n := |s.links|;
    && |links| == n + 1 && LinksEnded(s.links, user, {purpose}, links[..n])
    && links[n] == Link(user, purpose, change, address, s.now,
                        s.now + (if purpose.PasswordReset? then 1_800_000 else 86_400_000), false, false)
  }

  /** A change may come back: failed or still there, and the account has none created as late or later. */
  predicate MayReopen(s: State, job: nat)
    requires job < |s.jobs| && s.jobs[job].change < |s.changes|
  {
    var id := s.jobs[job].change;
    var c := s.changes[id];
    && !c.deleted
    && (c.state.Failed? || InState(c, if s.jobs[job].kind.Notice? then NoticePending else NoticeSent))
    && forall n :: 0 <= n < |s.changes| && n != id && !s.changes[n].deleted && s.changes[n].user == c.user ==>
         s.changes[n].createdAt < c.createdAt
  }

  /** It waits again for what its job sends, and a link is to be sent anew. */
  predicate WasReopened(s: State, job: nat, t: State)
    requires job < |s.jobs| && s.jobs[job].change < |s.changes|
  {
    var id, kind := s.jobs[job].change, s.jobs[job].kind;
    && t == s.(changes := t.changes, jobs := t.jobs)
    && t.changes == s.changes[id := s.changes[id].(
         state := if kind.Notice? then NoticePending else NoticeSent, active := true, endedAt := None)]
    && t.jobs == if kind.Notice? then s.jobs else s.jobs[job := s.jobs[job].(delivered := false)]
  }

  lemma ConfirmsIs(s: State, link: nat)
    ensures Confirms(s, link) <==> MayConfirm(s, link)
    ensures Confirms(s, link) ==> WasConfirmed(s, link, AfterConfirmation(s, link))
  {
    if Confirms(s, link) { ConfirmationIs(s, link); }
  }

  lemma ConfirmationIs(s: State, link: nat)
    requires Confirms(s, link)
    ensures WasConfirmed(s, link, AfterConfirmation(s, link))
  {
  }

  lemma ResetsIs(s: State, link: nat)
    ensures Resets(s, link) <==> MayReset(s, link)
    ensures Resets(s, link) ==> WasReset(s, link, Step(s, ResetPassword(link)))
  {
  }

  lemma RequestedIs(s: State, user: nat, newEmail: Address)
    requires user < |s.users| && s.users[user].isLocal
    ensures WasRequested(s, user, newEmail, Requested(s, user, newEmail))
  {
    assert Requested(s, user, newEmail).changes[..|s.changes|] == EndOpenChanges(s.changes, user, Superseded, s.now);
  }

  lemma WithLinkIs(s: State, user: nat, purpose: Purpose, change: Option<nat>, address: Address)
    ensures LinkAdded(s, user, purpose, change, address, WithLink(s, user, purpose, change, address).links)
  {
    var links := WithLink(s, user, purpose, change, address).links;
    assert links[..|s.links|] == CancelLinks(s.links, user, {purpose});
  }

  lemma ReopensIs(s: State, job: nat)
    requires job < |s.jobs| && s.jobs[job].change < |s.changes|
    ensures Reopens(s, job) <==> MayReopen(s, job)
    ensures Reopens(s, job) ==> WasReopened(s, job, Retried(s, job))
  {
  }

  // ----- how long a link lives -----

  /** A reset link lives for half an hour, any other for a day. */
  function Lifetime(purpose: Purpose): nat {
    match purpose
    case PasswordReset => 1_800_000
    case ChangeLink => 86_400_000
    case VerifyLink => 86_400_000
  }

  predicate Dated(l: Link, now: nat) {
    l.madeAt <= now && l.expiresAt == l.madeAt + Lifetime(l.purpose)
  }

  /** The same link; it may have been used or deleted since. */
  predicate SameLink(l: Link, m: Link) {
    m == l.(used := m.used, deleted := m.deleted) && (l.used ==> m.used)
  }

  /** The step uses the link up: a confirmation or a reset, within the link's time. */
  predicate UsesUp(s: State, a: Action, l: nat)
    requires l < |s.links|
  {
    || (a == Confirm(l) && MayBeUsed(s.links[l], ChangeLink, s.now))
    || (a == ResetPassword(l) && MayBeUsed(s.links[l], PasswordReset, s.now))
  }

  /** What any step does to a link, or a new link it makes. */
  predicate LinkAfter(s: State, a: Action, t: State, l: nat) {
    && s.now <= t.now && |s.links| <= |t.links|
    && (l < |s.links| ==>
          && SameLink(s.links[l], t.links[l])
          && (t.links[l].used && !s.links[l].used ==> UsesUp(s, a, l)))
    && (|s.links| <= l < |t.links| ==> !t.links[l].used && Dated(t.links[l], t.now))
  }

  lemma ConfirmLinks(s: State, link: nat, l: nat)
    ensures LinkAfter(s, Confirm(link), Step(s, Confirm(link)), l)
  {
  }

  lemma ResetLinks(s: State, a: Action, l: nat)
    requires a.ResetPassword? || a.ChangePassword? || a.Suspend?
    ensures LinkAfter(s, a, Step(s, a), l)
  {
  }

  lemma MakeLinks(s: State, a: Action, l: nat)
    requires a.MakeLink? || a.IssueLink?
    ensures LinkAfter(s, a, Step(s, a), l)
  {
  }

  lemma EndLinks(s: State, a: Action, l: nat)
    requires a.Request? || a.Retire? || a.DropLinksOf? || a.ExpireLink?
    ensures LinkAfter(s, a, Step(s, a), l)
  {
  }

  predicate LeavesLinks(a: Action) {
    && !a.Confirm? && !a.ResetPassword? && !a.ChangePassword? && !a.Suspend? && !a.MakeLink? && !a.IssueLink?
    && !a.Request? && !a.Retire? && !a.DropLinksOf? && !a.ExpireLink?
  }

  lemma NoLinks(s: State, a: Action)
    requires LeavesLinks(a)
    ensures Step(s, a).links == s.links && s.now <= Step(s, a).now
  {
  }

  lemma StepLinks(s: State, a: Action, l: nat)
    ensures LinkAfter(s, a, Step(s, a), l)
  {
    match a
    case Confirm(link) => ConfirmLinks(s, link, l);
    case ResetPassword(_) => ResetLinks(s, a, l);
    case ChangePassword(_) => ResetLinks(s, a, l);
    case Suspend(_) => ResetLinks(s, a, l);
    case MakeLink(_) => MakeLinks(s, a, l);
    case IssueLink(_, _, _) => MakeLinks(s, a, l);
    case Request(_, _) => EndLinks(s, a, l);
    case Retire(_) => EndLinks(s, a, l);
    case DropLinksOf(_) => EndLinks(s, a, l);
    case ExpireLink(_) => EndLinks(s, a, l);
    case _ => NoLinks(s, a);
  }

  lemma {:induction false} RunDated(s: State, acts: seq<Action>, l: nat)
    requires l < |s.links| ==> Dated(s.links[l], s.now)
    ensures l < |Run(s, acts).links| ==> Dated(Run(s, acts).links[l], Run(s, acts).now)
    decreases |acts|
  {
    if acts != [] {
      StepLinks(s, acts[0], l);
      RunDated(Step(s, acts[0]), acts[1..], l);
    }
  }

  /**
   In every run, a link is used only by a confirmation or a reset, each by a link of its own purpose, and
   only within a day, or half an hour for a reset, of the moment it was made. Verification links change nothing.
   */
  lemma LinksAreUsedInTime(acts: seq<Action>, a: Action, l: nat)
    requires l < |Run(Empty, acts).links| && !Run(Empty, acts).links[l].used
    ensures l < |Step(Run(Empty, acts), a).links|
    ensures Step(Run(Empty, acts), a).links[l].used ==>
      var link, now := Run(Empty, acts).links[l], Run(Empty, acts).now;
      && !link.deleted
      && ((a == Confirm(l) && link.purpose.ChangeLink? && now < link.madeAt + 86_400_000)
          || (a == ResetPassword(l) && link.purpose.PasswordReset? && now < link.madeAt + 1_800_000))
  {
    RunDated(Empty, acts, l);
    StepLinks(Run(Empty, acts), a, l);
  }

  /** So an address is replaced, and a password reset, only by a step that uses up such a link. */
  lemma ReplacementUsesLink(acts: seq<Action>, a: Action)
    requires a.Confirm? || a.ResetPassword?
    requires Step(Run(Empty, acts), a) != Run(Empty, acts)
    ensures
      var s := Run(Empty, acts);
      && a.link < |s.links| && !s.links[a.link].used && !s.links[a.link].deleted
      && s.now < s.links[a.link].madeAt + (if a.Confirm? then 86_400_000 else 1_800_000)
      && a.link < |Step(s, a).links| && Step(s, a).links[a.link].used
  {
    var s := Run(Empty, acts);
    RunDated(Empty, acts, a.link);
    if a.Confirm? { ConfirmsIs(s, a.link); } else { ResetsIs(s, a.link); }
    StepLinks(s, a, a.link);
  }
}
