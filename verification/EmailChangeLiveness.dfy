/** A fresh request can always be carried through, whatever happened before it. */
module EmailChangeLiveness {
  import opened Basics
  import opened EmailChange
  import EmailChangePromises
  import opened EmailChangeService

  /** An active local account that asks for an address no one holds. */
  predicate MayAsk(s: State, user: nat, newEmail: Address) {
    user < |s.users| && MayUse(s.users[user]) && newEmail.Address? && AddressFree(s.users, newEmail, user)
  }

  /** The account's change `id` to that address is under way in this state, and job `job` of this kind works on it. */
  predicate Going(s: State, user: nat, newEmail: Address, id: nat, state: ChangeState, job: nat, kind: Kind) {
    && MayAsk(s, user, newEmail)
    && id < |s.changes| && s.changes[id].user == user && s.changes[id].newEmail == newEmail
    && Present(s.changes[id], state)
    && job < |s.jobs| && s.jobs[job] == Job(kind, id, false)
  }

  predicate Stands(s: State, w: nat, job: nat, stage: Stage) {
    w in s.runs && s.runs[w] == JobRun(job, false, stage)
  }

  lemma RequestGoes(s: State, user: nat, newEmail: Address)
    requires MayAsk(s, user, newEmail)
    ensures Going(Step(s, Request(user, newEmail)), user, newEmail, |s.changes|, NoticePending, |s.jobs|, Notice)
    ensures Step(s, Request(user, newEmail)).(links := s.links, changes := s.changes, jobs := s.jobs) == s
  {
  }

  /** A run that has read its change and its account. */
  function Reading(s: State, w: nat, job: nat): State {
    UserFound(ChangeFound(Step(s, Begin(w, job)), w), w)
  }

  lemma ReadingGoes(s: State, user: nat, newEmail: Address, id: nat, job: nat, kind: Kind, w: nat)
    requires Going(s, user, newEmail, id, Expected(kind), job, kind) && w !in s.runs
    ensures
      Reading(s, w, job) == s.(runs := s.runs[w := JobRun(job, false, Ready(s.users[user].email))])
  {
    var read := s.runs[w := JobRun(job, false, EmailChange.Reading)];
    var seen := s.runs[w := JobRun(job, false, Checking)];
    assert Step(s, Begin(w, job)) == s.(runs := read);
    assert read[w := JobRun(job, false, Checking)] == seen;
    assert ChangeFound(s.(runs := read), w) == s.(runs := seen);
    assert seen[w := JobRun(job, false, Ready(s.users[user].email))]
      == s.runs[w := JobRun(job, false, Ready(s.users[user].email))];
  }

  /** The notice is sent, recorded, and the change handed to the link job. */
  function Noticed(s: State, w: nat): State {
    var marked := MarkedBy(SentBy(s, w), w);
    if Moves(marked, w) then MovedBy(marked, w) else marked
  }

  lemma NoticeGoes(s: State, user: nat, newEmail: Address, id: nat, job: nat, w: nat)
    requires Going(s, user, newEmail, id, NoticePending, job, Notice)
    requires Stands(s, w, job, Ready(s.users[user].email))
    ensures
      var t := Noticed(s, w);
      && Going(t, user, newEmail, id, NoticeSent, |s.jobs|, LinkMail)
      && t.runs == s.runs - {w} && t.users == s.users && t.links == s.links
      && t.log == s.log + [Told(id, s.users[user].email)]
  {
  }

  /** The link is made and mailed. */
  function LinkMailedBy(s: State, w: nat): State {
    if MakesLink(s, w) then SentBy(LinkMadeBy(s, w), w) else s
  }

  lemma LinkGoes(s: State, user: nat, newEmail: Address, id: nat, job: nat, w: nat)
    requires Going(s, user, newEmail, id, NoticeSent, job, LinkMail)
    requires Stands(s, w, job, Ready(s.users[user].email))
    ensures
      var t, link := LinkMailedBy(s, w), |s.links|;
      && MakesLink(s, w) && Confirms(t, link)
      && t.links[link].user == user && t.links[link].change == Some(id) && t.changes[id].newEmail == newEmail
      && t.users == s.users && t.log == s.log + [LinkMade(id, link), EmailChange.LinkMailed(id, newEmail)]
  {
  }

  lemma ConfirmGoes(s: State, link: nat)
    requires Confirms(s, link)
    ensures
      var t := Step(s, Confirm(link));
      var user, id := s.links[link].user, s.links[link].change.value;
      && t.users[user].email == s.changes[id].newEmail
      && !Confirms(t, link)
      && t.log == s.log + [Replaced(id, link, s.users[user].email, s.changes[id].newEmail)]
  {
  }

  // ----- the steps -----

  function NoticeSteps(w: nat, job: nat): seq<Action> {
    [Begin(w, job), FindChange(w), FindUser(w), Send(w), Mark(w), Move(w)]
  }

  /** The run of the link job up to its email, and the use of the link. */
  function LinkSteps(w: nat, job: nat, link: nat): seq<Action> {
    [Begin(w, job), FindChange(w), FindUser(w), MakeLink(w), Send(w), Confirm(link)]
  }

  lemma ThreeSteps(s: State, acts: seq<Action>)
    requires |acts| == 3
    ensures Run(s, acts) == Step(Step(Step(s, acts[0]), acts[1]), acts[2])
  {
    assert acts[1..][1..] == [acts[2]];
    assert acts[1..][1..][1..] == [];
    assert Run(s, acts) == Run(Step(s, acts[0]), acts[1..]);
    assert Run(Step(s, acts[0]), acts[1..]) == Run(Step(Step(s, acts[0]), acts[1]), acts[1..][1..]);
  }

  lemma SixSteps(s: State, acts: seq<Action>)
    requires |acts| == 6
    ensures Run(s, acts) == Step(Step(Step(Run(s, acts[..3]), acts[3]), acts[4]), acts[5])
  {
    ThreeSteps(Run(s, acts[..3]), acts[3..]);
    EmailChangePromises.RunComposes(s, acts[..3], acts[3..]);
    assert acts == acts[..3] + acts[3..];
  }

  lemma ReadingIs(s: State, w: nat, job: nat, acts: seq<Action>)
    requires acts == [Begin(w, job), FindChange(w), FindUser(w)]
    ensures Run(s, acts) == Reading(s, w, job)
  {
    ThreeSteps(s, acts);
    ReadIs(Step(s, Begin(w, job)), w);
    ReadIs(ChangeFound(Step(s, Begin(w, job)), w), w);
  }

  lemma NoticeStepsAre(s: State, w: nat, job: nat)
    ensures Run(s, NoticeSteps(w, job)) == Noticed(Reading(s, w, job), w)
  {
    var r := Reading(s, w, job);
    ReadingIs(s, w, job, NoticeSteps(w, job)[..3]);
    SixSteps(s, NoticeSteps(w, job));
    SendIs(r, w);
    SendIs(SentBy(r, w), w);
    SendIs(MarkedBy(SentBy(r, w), w), w);
  }

  lemma LinkStepsAre(s: State, w: nat, job: nat, link: nat)
    requires MakesLink(Reading(s, w, job), w)
    ensures Run(s, LinkSteps(w, job, link)) == Step(LinkMailedBy(Reading(s, w, job), w), Confirm(link))
  {
    var r := Reading(s, w, job);
    ReadingIs(s, w, job, LinkSteps(w, job, link)[..3]);
    SixSteps(s, LinkSteps(w, job, link));
    LinkIs(r, w);
    SendIs(LinkMadeBy(r, w), w);
  }

  lemma NoticePart(s: State, user: nat, newEmail: Address, id: nat, job: nat, w: nat) returns (t: State)
    requires Going(s, user, newEmail, id, NoticePending, job, Notice) && w !in s.runs
    ensures t == Run(s, NoticeSteps(w, job))
    ensures Going(t, user, newEmail, id, NoticeSent, |s.jobs|, LinkMail) && w !in t.runs
    ensures t.users == s.users && t.links == s.links && t.log == s.log + [Told(id, s.users[user].email)]
  {
    t := Run(s, NoticeSteps(w, job));
    NoticeStepsAre(s, w, job);
    ReadingGoes(s, user, newEmail, id, job, Notice, w);
    NoticeGoes(Reading(s, w, job), user, newEmail, id, job, w);
  }

  lemma LinkPart(s: State, user: nat, newEmail: Address, id: nat, job: nat, w: nat) returns (t: State)
    requires Going(s, user, newEmail, id, NoticeSent, job, LinkMail) && w !in s.runs
    ensures t == Run(s, LinkSteps(w, job, |s.links|))
    ensures user < |t.users| && t.users[user].email == newEmail
    ensures t.log == s.log + [LinkMade(id, |s.links|), EmailChange.LinkMailed(id, newEmail),
                              Replaced(id, |s.links|, s.users[user].email, newEmail)]
  {
    t := Run(s, LinkSteps(w, job, |s.links|));
    var r := Reading(s, w, job);
    ReadingGoes(s, user, newEmail, id, job, LinkMail, w);
    LinkGoes(r, user, newEmail, id, job, w);
    LinkStepsAre(s, w, job, |s.links|);
    ConfirmGoes(LinkMailedBy(r, w), |s.links|);
  }

  /**
   From any state, a request by an active local account for a free address goes through: a run of its
   notice job, a run of its link job up to the email, and the use of that link. The outside world sees the
   notice to the old address, the link, the email to the new address and the change, in this order.
   */
  lemma RequestGoesThrough(s: State, user: nat, newEmail: Address) returns (w: nat)
    requires MayAsk(s, user, newEmail)
    ensures
      var id, job, link, email := |s.changes|, |s.jobs|, |s.links|, s.users[user].email;
      var t := Run(s, [Request(user, newEmail)] + NoticeSteps(w, job) + LinkSteps(w, job + 1, link));
      && user < |t.users| && t.users[user].email == newEmail
      && t.log == s.log + [Told(id, email), LinkMade(id, link), EmailChange.LinkMailed(id, newEmail),
                           Replaced(id, link, email, newEmail)]
  {
    w := FreshNat(s.runs.Keys);
    var id, job, link := |s.changes|, |s.jobs|, |s.links|;
    var t := Step(s, Request(user, newEmail));
    RequestGoes(s, user, newEmail);
    assert |t.jobs| == job + 1 && |t.links| == link;
    var u := NoticePart(t, user, newEmail, id, job, w);
    var v := LinkPart(u, user, newEmail, id, job + 1, w);
    var acts := [Request(user, newEmail)] + NoticeSteps(w, job) + LinkSteps(w, job + 1, link);
    assert acts[1..] == NoticeSteps(w, job) + LinkSteps(w, job + 1, link);
    EmailChangePromises.RunComposes(t, NoticeSteps(w, job), LinkSteps(w, job + 1, link));
  }
}
