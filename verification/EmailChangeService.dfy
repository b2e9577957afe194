/**
 The email-change transactions and the notice and link jobs as they run: bulk updates are loops over
 the records, and between a job's own updates everyone else may take any number of steps.
 */
module EmailChangeService {
  import opened Basics
  import opened EmailChange
  import opened EmailChangeSafety
  import opened EmailChangeEffects
  import EmailChangePromises

  predicate IsOf(a: Action, w: nat) {
    (a.Begin? || a.FindChange? || a.FindUser? || a.MakeLink? || a.GiveWay? || a.Send? || a.Mark? || a.Move? || a.Crash?)
    && a.run == w
  }

  function NotOf(acts: seq<Action>, w: nat): (rest: seq<Action>)
    ensures forall i :: 0 <= i < |rest| ==> !IsOf(rest[i], w)
    ensures Own(rest, w) == []
  {
    if acts == [] then []
    else if IsOf(acts[0], w) then NotOf(acts[1..], w)
    else [acts[0]] + NotOf(acts[1..], w)
  }

  /** The steps of run `w` in a trace. */
  function Own(trace: seq<Action>, w: nat): seq<Action> {
    if trace == [] then []
    else if IsOf(trace[0], w) then [trace[0]] + Own(trace[1..], w)
    else Own(trace[1..], w)
  }

  lemma {:induction false} OwnJoins(first: seq<Action>, rest: seq<Action>, w: nat)
    ensures Own(first + rest, w) == Own(first, w) + Own(rest, w)
    decreases |first|
  {
    if first == [] {
      assert first + rest == rest;
    } else {
      assert (first + rest)[1..] == first[1..] + rest;
      OwnJoins(first[1..], rest, w);
    }
  }

  /** One trace after another. */
  lemma Along(s: State, first: seq<Action>, rest: seq<Action>, w: nat)
    ensures Run(s, first + rest) == Run(Run(s, first), rest)
    ensures Own(first + rest, w) == Own(first, w) + Own(rest, w)
  {
    EmailChangePromises.RunComposes(s, first, rest);
    OwnJoins(first, rest, w);
  }

  lemma OneStep(s: State, a: Action, w: nat)
    ensures Run(s, [a]) == Step(s, a) && Own([a], w) == if IsOf(a, w) then [a] else []
  {
    assert [a][1..] == [];
  }

  /** The trace ends with this step, taken from `at`. */
  ghost predicate EndsWith(s: State, trace: seq<Action>, at: State, a: Action) {
    trace != [] && trace[|trace| - 1] == a && at == Run(s, trace[..|trace| - 1])
  }

  lemma EndsLater(s: State, first: seq<Action>, rest: seq<Action>, at: State, a: Action)
    requires EndsWith(Run(s, first), rest, at, a)
    ensures EndsWith(s, first + rest, at, a)
  {
    assert (first + rest)[..|first + rest| - 1] == first + rest[..|rest| - 1];
    EmailChangePromises.RunComposes(s, first, rest[..|rest| - 1]);
  }

  lemma EndsNowWith(s: State, trace: seq<Action>, a: Action, w: nat)
    ensures EndsWith(s, trace + [a], Run(s, trace), a) && Run(s, trace + [a]) == Step(Run(s, trace), a)
    ensures Own(trace + [a], w) == Own(trace, w) + if IsOf(a, w) then [a] else []
  {
    Along(s, trace, [a], w);
    OneStep(Run(s, trace), a, w);
    assert (trace + [a])[..|trace + [a]| - 1] == trace;
  }

  lemma OtherStepLeaves(s: State, a: Action, w: nat)
    requires !IsOf(a, w)
    ensures w in Step(s, a).runs <==> w in s.runs
    ensures w in s.runs ==> Step(s, a).runs[w] == s.runs[w]
  {
  }

  lemma {:induction false} OthersLeave(s: State, acts: seq<Action>, w: nat)
    requires forall i :: 0 <= i < |acts| ==> !IsOf(acts[i], w)
    ensures w in Run(s, acts).runs <==> w in s.runs
    ensures w in s.runs ==> Run(s, acts).runs[w] == s.runs[w]
    decreases |acts|
  {
    if acts != [] {
      OtherStepLeaves(s, acts[0], w);
      OthersLeave(Step(s, acts[0]), acts[1..], w);
    }
  }

  // ----- a job's own steps -----

  lemma ReadIs(s: State, w: nat)
    ensures Step(s, FindChange(w)) == ChangeFound(s, w)
    ensures Step(s, FindUser(w)) == UserFound(s, w)
    ensures Step(s, Crash(w)) == Finish(s, w)
  {
  }

  lemma ReadsKeep(s: State, w: nat)
    requires Inv(s)
    ensures Inv(ChangeFound(s, w)) && Inv(UserFound(s, w)) && Inv(Finish(s, w))
  {
    ReadIs(s, w);
    StepKeeps(s, FindChange(w));
    StepKeeps(s, FindUser(w));
    StepKeeps(s, Crash(w));
  }

  lemma LinkIs(s: State, w: nat)
    ensures Step(s, MakeLink(w)) == if MakesLink(s, w) then LinkMadeBy(s, w) else s
    ensures Step(s, GiveWay(w)) == GaveWay(s, w)
  {
  }

  lemma LinkKeeps(s: State, w: nat)
    requires Inv(s)
    ensures MakesLink(s, w) ==> Inv(LinkMadeBy(s, w))
    ensures Inv(GaveWay(s, w))
  {
    LinkIs(s, w);
    StepKeeps(s, MakeLink(w));
    StepKeeps(s, GiveWay(w));
  }

  lemma SendIs(s: State, w: nat)
    ensures Step(s, Send(w)) == SentBy(s, w)
    ensures Step(s, Mark(w)) == MarkedBy(s, w)
    ensures Step(s, Move(w)) == if Moves(s, w) then MovedBy(s, w) else s
  {
  }

  lemma SendKeeps(s: State, w: nat)
    requires Inv(s)
    ensures Inv(SentBy(s, w)) && Inv(MarkedBy(s, w))
    ensures Moves(s, w) ==> Inv(MovedBy(s, w))
  {
    SendIs(s, w);
    StepKeeps(s, Send(w));
    StepKeeps(s, Mark(w));
    StepKeeps(s, Move(w));
  }

  lemma RunIsRun(s: State, w: nat)
    requires Inv(s) && w in s.runs
    ensures IsRun(s, w)
  {
    assert RunOk(s, w);
    assert ChangeOk(s, s.jobs[s.runs[w].job].change);
  }

  /** How a run of a notice or link job ends, unless it dies. */
  datatype Result = NothingToDo | HandedOver | NotSent | Capped | NoLink

  /** The steps in which a run reads what it works on. */
  function Readings(w: nat, job: nat): seq<Action> {
    [Begin(w, job), FindChange(w), FindUser(w)]
  }

  /** The run stopped at a reading: its change was not in the state it works on, or its account may not change. */
  ghost predicate StoppedReading(s: State, trace: seq<Action>, at: State, w: nat, job: nat) {
    && IsRun(at, w)
    && ((Own(trace, w) == Readings(w, job)[..2] && EndsWith(s, trace, at, FindChange(w))
         && !InState(ChangeOf(at, w), if JobOf(at, w).kind.Notice? then NoticePending else NoticeSent))
        || (Own(trace, w) == Readings(w, job) && EndsWith(s, trace, at, FindUser(w)) && !CanChange(UserOf(at, w))))
  }

  /** What a notice run does, by its result. */
  ghost predicate NoticeRan(s: State, trace: seq<Action>, at: State, w: nat, job: nat, sendFails: bool, result: Result)
    requires job < |s.jobs|
  {
    match result
    case NothingToDo => StoppedReading(s, trace, at, w, job)
    case NotSent => !s.jobs[job].delivered && sendFails && Own(trace, w) == Readings(w, job) + [Crash(w)]
    case HandedOver =>
      if s.jobs[job].delivered then Own(trace, w) == Readings(w, job) + [Move(w)]
      else !sendFails && Own(trace, w) == Readings(w, job) + [Send(w), Mark(w), Move(w)]
    case _ => false
  }

  /** What a link run does once it has read what it works on, by its result. */
  ghost predicate LinkFinished(own: seq<Action>, at: State, w: nat, delivered: bool, capped: bool, sendFails: bool,
                               result: Result) {
    match result
    case NothingToDo => false
    case Capped => !delivered && capped && own == [Crash(w)]
    case NoLink => !delivered && !capped && own == [MakeLink(w), GiveWay(w)] && MakesLink(at, w) && !LinkAllowed(at, w)
    case NotSent => !delivered && !capped && sendFails && own == [MakeLink(w), Crash(w)]
    case HandedOver =>
      if delivered then own == [Move(w)]
      else !capped && !sendFails && own == [MakeLink(w), Send(w), Mark(w), Move(w)]
  }

  /** What a link run does, by its result. */
  ghost predicate LinkRan(s: State, trace: seq<Action>, at: State, w: nat, job: nat, capped: bool, sendFails: bool,
                          result: Result)
    requires job < |s.jobs|
  {
    if result.NothingToDo? then StoppedReading(s, trace, at, w, job)
    else
      && |Own(trace, w)| >= 3 && Own(trace, w)[..3] == Readings(w, job)
      && LinkFinished(Own(trace, w)[3..], at, w, s.jobs[job].delivered, capped, sendFails, result)
  }

  /** The change that job `job` works on is announced by now, or has ended. */
  ghost predicate HandsOver(s: State, t: State, job: nat) {
    job < |s.jobs| && s.jobs[job].change < |t.changes| && Settled(t, s.jobs[job].change)
  }

  /** The account still has the address and the change still waits for its link. */
  predicate LinkAllowed(s: State, w: nat)
    requires MakesLink(s, w)
  {
    var u := UserOf(s, w);
    u.active && !u.retired && u.email == s.runs[w].stage.address && InState(ChangeOf(s, w), NoticeSent)
  }

  /** In the log from `n` on, someone was told of this change: at its old address, unless it has ended. */
  ghost predicate ToldSince(s: State, n: nat, id: nat) {
    && id < |s.changes|
    && exists k :: n <= k < |s.log| && s.log[k].Told? && s.log[k].change == id
         && (s.log[k].address == s.changes[id].oldEmail || !Open(s.changes[id]))
  }

  /** In the log from `n` on, this change's link went to its new address. */
  ghost predicate MailedSince(s: State, n: nat, id: nat) {
    id < |s.changes| && exists k :: n <= k < |s.log| && s.log[k] == LinkMailed(id, s.changes[id].newEmail)
  }

  class Desk {
    var now: nat
    var users: seq<User>
    var changes: seq<Change>
    var links: seq<Link>
    var jobs: seq<Job>
    var runs: map<nat, JobRun>
    var log: seq<Event>

    function View(): State
      reads this
    {
      State(now, users, changes, links, jobs, runs, log)
    }

    /** Any steps but those of run `w`. */
    method Others(w: nat) returns (ghost trace: seq<Action>)
      requires Inv(View())
      modifies this
      ensures Inv(View()) && View() == Run(old(View()), trace) && Own(trace, w) == []
      ensures Grows(old(View()), View())
      ensures w in runs <==> w in old(runs)
      ensures w in runs ==> runs[w] == old(runs)[w]
    {
      var acts: seq<Action> := *;
      trace := NotOf(acts, w);
      var t := Run(View(), NotOf(acts, w));
      RunKeeps(View(), NotOf(acts, w));
      OthersLeave(View(), NotOf(acts, w), w);
      now, users, changes, links, jobs, runs, log := t.now, t.users, t.changes, t.links, t.jobs, t.runs, t.log;
    }

    // ----- the bulk updates -----

    method EndOpen(user: nat, state: ChangeState)
      modifies this`changes
      ensures changes == EndOpenChanges(old(changes), user, state, now)
      ensures ChangesEnded(old(changes), user, state, now, changes)
    {
      ghost var was := changes;
      for id := 0 to |changes|
        invariant |changes| == |was|
        invariant forall j :: 0 <= j < |was| ==>
          changes[j] == if j < id && EndsNow(was[j], user) then Ended(was[j], state, now) else was[j]
      {
        var c := changes[id];
        if !c.deleted && c.user == user && (c.active || c.state.Failed?) {
          changes := changes[id := c.(state := state, active := false, endedAt := Some(now))];
        }
      }
    }

    method Cancel(user: nat, purposes: set<Purpose>)
      modifies this`links
      ensures links == CancelLinks(old(links), user, purposes)
      ensures LinksEnded(old(links), user, purposes, links)
    {
      ghost var was := links;
      for l := 0 to |links|
        invariant |links| == |was|
        invariant forall j :: 0 <= j < |was| ==>
          links[j] ==
            if j < l && was[j].user == user && !was[j].used && was[j].purpose in purposes then was[j].(deleted := true)
            else was[j]
      {
        if links[l].user == user && !links[l].used && links[l].purpose in purposes {
          links := links[l := links[l].(deleted := true)];
        }
      }
    }

    // ----- requests -----

    /**
     Refused by what it reads first, or carried out whatever has happened since: the checks made before the
     transaction hold nothing once it runs. `at` is the state the transaction finds.
     */
    method RequestEmailChange(user: nat, newEmail: Address, asking: Asking)
      returns (id: Basics.Result<nat, Refusal>, ghost trace: seq<Action>, ghost at: State)
      requires Inv(View()) && newEmail.Address?
      modifies this
      ensures Inv(View()) && at == Run(old(View()), trace)
      ensures (if id.Ok? then None else Some(id.reason)) == Declines(old(View()), user, newEmail, asking)
      ensures id.Refused? ==> trace == [] && View() == at
      ensures id.Ok? ==> View() == Requested(at, user, newEmail) && id.value == |at.changes| < |changes|
      ensures id.Ok? ==> user < |at.users| && WasRequested(at, user, newEmail, View())
    {
      at := View();
      trace := [];
      var refusal := CheckRequest(user, newEmail, asking);
      if refusal.Some? {
        return Refused(refusal.value), trace, at;
      }
      ghost var s := View();
      trace := Meanwhile();
      at := View();
      StillLocal(s, trace, user);
      CreateChange(user, newEmail);
      return Ok(|changes| - 1), trace, at;
    }

    /** The checks before the transaction, in their order. */
    method CheckRequest(user: nat, newEmail: Address, asking: Asking) returns (refusal: Option<Refusal>)
      ensures refusal == Declines(View(), user, newEmail, asking)
    {
      if user >= |users| {
        return Some(NotFound);
      }
      if asking.own {
        if asking.actor >= |users| || !users[asking.actor].active || users[asking.actor].retired {
          return Some(NotActive);
        }
      } else {
        if asking.actor >= |users| || !asking.isAdmin || !users[asking.actor].active || users[asking.actor].retired {
          return Some(NotAdministrator);
        }
        if asking.actor == user {
          return Some(UseProfile);
        }
      }
      if users[user].retired {
        return Some(IsRetired);
      }
      if !users[user].isLocal {
        return Some(GoogleAccount);
      }
      if asking.own && asking.password.LockedOut? {
        return Some(TooManyAttempts);
      }
      if asking.own && asking.password.Wrong? {
        return Some(WrongPassword);
      }
      if !asking.withinLimit {
        return Some(TooManyAttempts);
      }
      if newEmail == users[user].email {
        return Some(SameEmail);
      }
      for u := 0 to |users|
        invariant forall v :: 0 <= v < u ==> users[v].email != newEmail
      {
        if users[u].email == newEmail {
          return Some(AddressTaken);
        }
      }
      return None;
    }

    /** The transaction: earlier changes end, their links go, and the change and its notice job are stored together. */
    method CreateChange(user: nat, newEmail: Address)
      requires Inv(View()) && newEmail.Address? && user < |users| && users[user].isLocal
      modifies this
      ensures Inv(View()) && View() == Requested(old(View()), user, newEmail)
      ensures WasRequested(old(View()), user, newEmail, View())
    {
      RequestKeeps(View(), user, newEmail);
      RequestedIs(View(), user, newEmail);
      EndOpen(user, Superseded);
      Cancel(user, {ChangeLink});
      changes := changes + [Change(user, newEmail, users[user].email, now, NoticePending, true, None, false)];
      jobs := jobs + [Job(Notice, |changes| - 1, false)];
    }

    /** Any steps of anyone. */
    method Meanwhile() returns (ghost trace: seq<Action>)
      requires Inv(View())
      modifies this
      ensures Inv(View()) && View() == Run(old(View()), trace)
    {
      var acts: seq<Action> := *;
      trace := acts;
      var t := Run(View(), acts);
      RunKeeps(View(), acts);
      now, users, changes, links, jobs, runs, log := t.now, t.users, t.changes, t.links, t.jobs, t.runs, t.log;
    }

    method ConfirmEmailChange(link: nat) returns (confirmed: bool)
      requires Inv(View())
      modifies this
      ensures Inv(View()) && (confirmed <==> MayConfirm(old(View()), link)) && confirmed == Confirms(old(View()), link)
      ensures View() == if confirmed then AfterConfirmation(old(View()), link) else old(View())
      ensures confirmed ==> WasConfirmed(old(View()), link, View())
    {
      ConfirmsIs(View(), link);
      if link >= |links| || !LinkUsable(links[link], ChangeLink, now) || links[link].change.None?
         || links[link].change.value >= |changes| {
        return false;
      }
      var id, user := links[link].change.value, links[link].user;
      var c := changes[id];
      if c.deleted || !c.active || !(c.state.NoticeSent? || c.state.LinkSent?) {
        return false;
      }
      if user >= |users| || users[user].retired || !users[user].active || !users[user].isLocal {
        return false;
      }
      for u := 0 to |users|
        invariant forall v :: 0 <= v < u && v != user ==> users[v].email != c.newEmail
      {
        if u != user && users[u].email == c.newEmail {
          return false;
        }
      }
      ConfirmKeeps(View(), link);
      log := log + [Replaced(id, link, users[user].email, c.newEmail)];
      users := users[user := users[user].(email := c.newEmail)];
      links := links[link := links[link].(used := true)];
      Cancel(user, AllPurposes);
      changes := changes[id := Ended(c, ChangeState.Confirmed, now)];
      EndOpen(user, Superseded);
      return true;
    }

    /** What a password change, a reset and a suspension have in common. */
    method EndLinksAndChanges(user: nat)
      modifies this`links, this`changes
      ensures View() == Reset(old(View()), user)
    {
      Cancel(user, AllPurposes);
      EndOpen(user, Cancelled);
    }

    method ResetPassword(link: nat) returns (done: bool)
      requires Inv(View())
      modifies this
      ensures Inv(View()) && View() == Step(old(View()), Action.ResetPassword(link))
      ensures done <==> MayReset(old(View()), link)
      ensures if done then WasReset(old(View()), link, View()) else View() == old(View())
    {
      ResetsIs(View(), link);
      StepKeeps(View(), Action.ResetPassword(link));
      if link >= |links| || !LinkUsable(links[link], PasswordReset, now)
         || links[link].user >= |users| || !MayUse(users[links[link].user]) {
        return false;
      }
      links := links[link := links[link].(used := true)];
      EndLinksAndChanges(links[link].user);
      return true;
    }

    // ----- failure and retry -----

    /**
     Ends the change, then drops its links: two updates, with anything between them. `ended` is the state
     after the first. A change already deleted is left alone.
     */
    method FailChange(id: nat) returns (ghost trace: seq<Action>, ghost ended: State)
      requires Inv(View()) && id < |changes|
      modifies this
      ensures Inv(View())
      ensures old(changes)[id].deleted ==> View() == old(View())
      ensures !old(changes)[id].deleted ==>
        && ended == old(View()).(changes :=
             if old(changes)[id].active
             then old(changes)[id := old(changes)[id].(state := Failed, active := false, endedAt := Some(old(now)))]
             else old(changes))
        && View() == Run(ended, trace).(links := links)
        && LinksDropped(Run(ended, trace).links, id, links)
        && (forall l :: 0 <= l < |links| && links[l].change == Some(id) && !links[l].used ==> links[l].deleted)
    {
      FailKeeps(View(), id);
      var c := changes[id];
      ended := View();
      trace := [];
      if c.deleted {
        return;
      }
      if c.active {
        changes := changes[id := c.(state := Failed, active := false, endedAt := Some(now))];
      }
      ended := View();
      trace := Meanwhile();
      DropKeeps(View(), id);
      DropLinks(id);
    }

    method DropLinks(id: nat)
      modifies this`links
      ensures links == DeleteLinksOf(old(links), id) && LinksDropped(old(links), id, links)
    {
      ghost var was := links;
      for l := 0 to |links|
        invariant |links| == |was|
        invariant forall j :: 0 <= j < |was| ==>
          links[j] == if j < l && was[j].change == Some(id) && !was[j].used then was[j].(deleted := true) else was[j]
      {
        if links[l].change == Some(id) && !links[l].used {
          links := links[l := links[l].(deleted := true)];
        }
      }
    }

    /** An administrator's retry: the change comes back only as the account's latest. */
    method RetryJob(job: nat) returns (reopened: bool)
      requires Inv(View()) && job < |jobs| && jobs[job].change < |changes|
      modifies this
      ensures Inv(View()) && (reopened <==> MayReopen(old(View()), job))
      ensures View() == Retried(old(View()), job)
      ensures if reopened then WasReopened(old(View()), job, View()) else View() == old(View())
    {
      ReopensIs(View(), job);
      RetryKeeps(View(), job);
      var id := jobs[job].change;
      var c := changes[id];
      for n := 0 to |changes|
        invariant forall m :: 0 <= m < n && m != id && !changes[m].deleted && changes[m].user == c.user ==>
          changes[m].createdAt < c.createdAt
      {
        if n != id && !changes[n].deleted && changes[n].user == c.user && c.createdAt <= changes[n].createdAt {
          return false;
        }
      }
      var state := Expected(jobs[job].kind);
      if c.deleted || !(c.state.Failed? || (c.state == state && c.active)) {
        return false;
      }
      changes := changes[id := c.(state := state, active := true, endedAt := None)];
      if jobs[job].kind.LinkMail? {
        jobs := jobs[job := jobs[job].(delivered := false)];
      }
      return true;
    }

    // ----- the jobs -----

    /** The change, if it is in the state this job works on. */
    method ReadChange(w: nat) returns (found: bool)
      requires Inv(View()) && w in runs && runs[w].stage.Reading?
      modifies this`runs
      ensures Inv(View()) && View() == ChangeFound(old(View()), w)
      ensures found ==> runs == old(runs)[w := old(runs)[w].(stage := Checking)]
      ensures !found ==> w !in runs
    {
      RunIsRun(View(), w);
      ReadsKeep(View(), w);
      var c := changes[jobs[runs[w].job].change];
      found := !c.deleted && c.active && c.state == Expected(jobs[runs[w].job].kind);
      runs := if found then runs[w := runs[w].(stage := Checking)] else runs - {w};
    }

    /** Its account; one that may not change its address cancels the change. */
    method ReadUser(w: nat) returns (found: bool)
      requires Inv(View()) && IsRun(View(), w) && runs[w].stage.Checking?
      modifies this`runs, this`changes
      ensures Inv(View()) && View() == UserFound(old(View()), w)
      ensures
        var id := jobs[old(runs)[w].job].change;
        var c := old(changes)[id];
        && (found <==> CanChange(users[c.user]))
        && changes ==
             if !found && !c.deleted && c.active
             then old(changes)[id := c.(state := Cancelled, active := false, endedAt := Some(now))] else old(changes)
      ensures found ==>
        w in runs && runs[w].stage.Ready? && runs[w].job == old(runs)[w].job
        && runs[w].delivered == old(runs)[w].delivered
      ensures !found ==> w !in runs
    {
      RunIsRun(View(), w);
      ReadsKeep(View(), w);
      var id := jobs[runs[w].job].change;
      var c := changes[id];
      var user := users[c.user];
      found := !user.retired && user.active && user.isLocal;
      if found {
        runs := runs[w := runs[w].(stage := Ready(user.email))];
      } else {
        if !c.deleted && c.active {
          changes := changes[id := c.(state := Cancelled, active := false, endedAt := Some(now))];
        }
        runs := runs - {w};
      }
    }

    /** Hands the email to the provider. */
    method SendMail(w: nat)
      requires Inv(View()) && w in runs && IsRun(View(), w)
      requires if JobOf(View(), w).kind.Notice? then !runs[w].delivered && runs[w].stage.Ready?
        else runs[w].stage.Linked?
      modifies this`runs, this`log
      ensures Inv(View()) && View() == SentBy(old(View()), w) && w in runs && runs[w].stage.Sent?
    {
      SendKeeps(View(), w);
      var id := jobs[runs[w].job].change;
      if jobs[runs[w].job].kind.Notice? {
        log := log + [Told(id, runs[w].stage.address)];
      } else {
        log := log + [LinkMailed(id, changes[id].newEmail)];
      }
      runs := runs[w := runs[w].(stage := Sent)];
    }

    method MarkDelivered(w: nat)
      requires Inv(View()) && w in runs && IsRun(View(), w) && runs[w].stage.Sent?
      modifies this`runs, this`jobs
      ensures Inv(View()) && View() == MarkedBy(old(View()), w) && w in runs && runs[w].stage.Marked?
    {
      SendKeeps(View(), w);
      jobs := jobs[runs[w].job := jobs[runs[w].job].(delivered := true)];
      runs := runs[w := runs[w].(stage := Marked)];
    }

    /** The change moves on, with the link job when the notice is done; a change that moved meanwhile is left. */
    method MoveOn(w: nat)
      requires Inv(View()) && Moves(View(), w)
      modifies this`runs, this`jobs, this`changes
      ensures Inv(View()) && View() == MovedBy(old(View()), w) && w !in runs
      ensures
        var j := old(jobs)[old(runs)[w].job];
        var c := old(changes)[j.change];
        var told, mailed := j.kind.Notice? && InState(c, NoticePending), j.kind.LinkMail? && InState(c, NoticeSent);
        && changes == (if told then old(changes)[j.change := c.(state := NoticeSent)]
                       else if mailed then old(changes)[j.change := c.(state := LinkSent)] else old(changes))
        && jobs == old(jobs) + if told then [Job(LinkMail, j.change, false)] else []
    {
      SendKeeps(View(), w);
      var j := jobs[runs[w].job];
      var c := changes[j.change];
      if !c.deleted && c.active && c.state == Expected(j.kind) {
        if j.kind.Notice? {
          changes := changes[j.change := c.(state := NoticeSent)];
          jobs := jobs + [Job(LinkMail, j.change, false)];
        } else {
          changes := changes[j.change := c.(state := LinkSent)];
        }
      }
      runs := runs - {w};
    }

    /** A new link replaces the account's earlier unused ones of that purpose. */
    method AddLink(user: nat, purpose: Purpose, change: Option<nat>, address: Address)
      modifies this`links
      ensures View() == WithLink(old(View()), user, purpose, change, address) && |links| == |old(links)| + 1
      ensures LinkAdded(old(View()), user, purpose, change, address, links)
    {
      WithLinkIs(View(), user, purpose, change, address);
      Cancel(user, {purpose});
      links := links + [Link(user, purpose, change, address, now, now + LinkLifetime(purpose), false, false)];
    }

    /** Makes a fresh link in place of the account's earlier ones, while change and account still allow it. */
    method IssueLink(w: nat) returns (made: bool)
      requires Inv(View()) && MakesLink(View(), w)
      modifies this`runs, this`links, this`log
      ensures Inv(View()) && View() == LinkMadeBy(old(View()), w)
      ensures made <==> LinkAllowed(old(View()), w)
      ensures
        var id, address := jobs[old(runs)[w].job].change, old(runs)[w].stage.address;
        if made then LinkAdded(old(View()), changes[id].user, ChangeLink, Some(id), address, links)
                     && log == old(log) + [LinkMade(id, |old(links)|)]
        else links == old(links) && log == old(log)
      ensures w in runs && (if made then runs[w].stage.Linked? else runs[w].stage.Unlinked?)
        && runs[w].job == old(runs)[w].job
    {
      LinkKeeps(View(), w);
      var id := jobs[runs[w].job].change;
      var c := changes[id];
      var user := users[c.user];
      made := user.active && !user.retired && user.email == runs[w].stage.address
        && !c.deleted && c.active && c.state.NoticeSent?;
      if made {
        AddLink(c.user, ChangeLink, Some(id), runs[w].stage.address);
        log := log + [LinkMade(id, |links| - 1)];
        runs := runs[w := runs[w].(stage := Linked(|links| - 1))];
      } else {
        runs := runs[w := runs[w].(stage := Unlinked)];
      }
    }

    /** Only a change still waiting for its link is cancelled. */
    method GiveUpLink(w: nat)
      requires Inv(View()) && IsRun(View(), w) && runs[w].stage.Unlinked?
      modifies this`runs, this`changes
      ensures Inv(View()) && View() == GaveWay(old(View()), w) && w !in runs
      ensures
        var id := jobs[old(runs)[w].job].change;
        changes == if InState(old(changes)[id], NoticeSent)
                   then old(changes)[id := old(changes)[id].(state := Cancelled, active := false, endedAt := Some(now))]
                   else old(changes)
    {
      LinkKeeps(View(), w);
      var id := jobs[runs[w].job].change;
      var c := changes[id];
      if !c.deleted && c.active && c.state.NoticeSent? {
        changes := changes[id := c.(state := Cancelled, active := false, endedAt := Some(now))];
      }
      runs := runs - {w};
    }

    /** Others, then the reading of the change. */
    method NextChange(w: nat) returns (found: bool, ghost trace: seq<Action>, ghost at: State)
      requires Inv(View()) && w in runs && runs[w].stage.Reading?
      modifies this
      ensures Inv(View()) && View() == Run(old(View()), trace)
      ensures Own(trace, w) == [FindChange(w)] && EndsWith(old(View()), trace, at, FindChange(w)) && IsRun(at, w)
      ensures found <==> Present(ChangeOf(at, w), Expected(JobOf(at, w).kind))
      ensures found ==> w in runs && runs[w] == old(runs)[w].(stage := Checking)
      ensures !found ==> w !in runs
    {
      ghost var s := View();
      trace := Others(w);
      at := View();
      RunIsRun(at, w);
      ReadIs(at, w);
      EndsNowWith(s, trace, FindChange(w), w);
      found := ReadChange(w);
      trace := trace + [FindChange(w)];
    }

    /** Others, then the reading of the account. */
    method NextUser(w: nat) returns (found: bool, ghost trace: seq<Action>, ghost at: State)
      requires Inv(View()) && w in runs && runs[w].stage.Checking?
      modifies this
      ensures Inv(View()) && View() == Run(old(View()), trace)
      ensures Own(trace, w) == [FindUser(w)] && EndsWith(old(View()), trace, at, FindUser(w)) && IsRun(at, w)
      ensures found <==> MayUse(UserOf(at, w))
      ensures found ==>
        w in runs && runs[w].stage.Ready? && runs[w].job == old(runs)[w].job
        && runs[w].delivered == old(runs)[w].delivered
      ensures !found ==> w !in runs
    {
      ghost var s := View();
      trace := Others(w);
      at := View();
      RunIsRun(at, w);
      ReadIs(at, w);
      EndsNowWith(s, trace, FindUser(w), w);
      found := ReadUser(w);
      trace := trace + [FindUser(w)];
    }

    method BeginRun(w: nat, job: nat)
      requires Inv(View()) && w !in runs && job < |jobs|
      modifies this`runs
      ensures Inv(View()) && View() == Step(old(View()), Begin(w, job))
      ensures w in runs && runs[w] == JobRun(job, jobs[job].delivered, Reading)
    {
      BeginKeeps(View(), w, job);
      runs := runs[w := JobRun(job, jobs[job].delivered, Reading)];
    }

    /** Starts a run and reads its change. */
    method StartOnChange(w: nat, job: nat) returns (found: bool, ghost trace: seq<Action>, ghost at: State)
      requires Inv(View()) && w !in runs && job < |jobs|
      modifies this
      ensures Inv(View()) && View() == Run(old(View()), trace) && Own(trace, w) == [Begin(w, job), FindChange(w)]
      ensures EndsWith(old(View()), trace, at, FindChange(w)) && IsRun(at, w)
      ensures found <==> Present(ChangeOf(at, w), Expected(JobOf(at, w).kind))
      ensures found ==> w in runs && runs[w] == JobRun(job, old(jobs)[job].delivered, Checking)
      ensures !found ==> w !in runs
    {
      ghost var s := View();
      OneStep(s, Begin(w, job), w);
      BeginRun(w, job);
      ghost var more;
      found, more, at := NextChange(w);
      EndsLater(s, [Begin(w, job)], more, at, FindChange(w));
      Along(s, [Begin(w, job)], more, w);
      trace := [Begin(w, job)] + more;
    }

    /** Starts a run and reads what it works on, others interleaving. */
    method Start(w: nat, job: nat) returns (found: bool, ghost trace: seq<Action>, ghost at: State)
      requires Inv(View()) && w !in runs && job < |jobs|
      modifies this
      ensures Inv(View()) && View() == Run(old(View()), trace)
      ensures found ==>
        && Own(trace, w) == Readings(w, job)
        && w in runs && runs[w].stage.Ready? && runs[w].job == job && runs[w].delivered == old(jobs)[job].delivered
      ensures !found ==> w !in runs && StoppedReading(old(View()), trace, at, w, job)
    {
      ghost var s := View();
      found, trace, at := StartOnChange(w, job);
      if found {
        ghost var more;
        found, more, at := NextUser(w);
        ReadingsEnd(s, trace, more, at, w, job, found);
        trace := trace + more;
      }
    }

    /** Ends a run: it dies, or throws. */
    method Die(w: nat)
      requires Inv(View())
      modifies this`runs
      ensures Inv(View()) && View() == Step(old(View()), Crash(w)) && w !in runs
    {
      ReadsKeep(View(), w);
      ReadIs(View(), w);
      runs := runs - {w};
    }

    /** Others, then the email handed to the provider. */
    method NextSend(w: nat) returns (ghost trace: seq<Action>)
      requires Inv(View()) && IsRun(View(), w)
      requires if JobOf(View(), w).kind.Notice? then !runs[w].delivered && runs[w].stage.Ready?
        else runs[w].stage.Linked?
      modifies this
      ensures Inv(View()) && View() == Run(old(View()), trace) && Own(trace, w) == [Send(w)]
      ensures Grows(old(View()), View()) && w in runs && runs[w].stage.Sent? && runs[w].job == old(runs)[w].job
      ensures SentSince(View(), |old(log)|, old(runs)[w].job)
    {
      ghost var s := View();
      trace := Others(w);
      ghost var at := View();
      SameJob(s, at, w);
      EndsNowWith(s, trace, Send(w), w);
      SendIs(at, w);
      NoticeTold(at, w);
      SentIsOut(s, at, w);
      SendsGrow(at, w);
      SendMail(w);
      GrowsOn(s, at, View());
      trace := trace + [Send(w)];
    }

    /** The sending, others, and the record of the delivery. */
    method Deliver(w: nat) returns (ghost trace: seq<Action>)
      requires Inv(View()) && IsRun(View(), w)
      requires if JobOf(View(), w).kind.Notice? then !runs[w].delivered && runs[w].stage.Ready?
        else runs[w].stage.Linked?
      modifies this
      ensures Inv(View()) && View() == Run(old(View()), trace) && Own(trace, w) == [Send(w), Mark(w)]
      ensures Moves(View(), w) && runs[w].job == old(runs)[w].job && Grows(old(View()), View())
      ensures SentSince(View(), |old(log)|, old(runs)[w].job)
    {
      ghost var s := View();
      trace := NextSend(w);
      ghost var t := View();
      ghost var more := RecordDelivery(w);
      SentKept(t, View(), |s.log|, s.runs[w].job);
      GrowsOn(s, t, View());
      Along(s, trace, more, w);
      trace := trace + more;
    }

    method RecordDelivery(w: nat) returns (ghost trace: seq<Action>)
      requires Inv(View()) && w in runs && runs[w].stage.Sent?
      modifies this
      ensures Inv(View()) && View() == Run(old(View()), trace) && Own(trace, w) == [Mark(w)]
      ensures Moves(View(), w) && runs[w].job == old(runs)[w].job && Grows(old(View()), View())
    {
      ghost var s := View();
      trace := Others(w);
      ghost var t := View();
      RunIsRun(t, w);
      EndsNowWith(s, trace, Mark(w), w);
      SendIs(t, w);
      SendsGrow(t, w);
      MarkDelivered(w);
      GrowsOn(s, t, View());
      trace := trace + [Mark(w)];
      RunIsRun(View(), w);
    }

    /** The last step of a run that has nothing left to send. */
    method Complete(w: nat) returns (ghost trace: seq<Action>)
      requires Inv(View()) && Moves(View(), w)
      modifies this
      ensures Inv(View()) && View() == Run(old(View()), trace) && Own(trace, w) == [Move(w)] && w !in runs
      ensures Grows(old(View()), View())
      ensures HandsOver(old(View()), View(), old(runs)[w].job)
    {
      ghost var s := View();
      trace := Others(w);
      ghost var t := View();
      RunIsRun(t, w);
      SameJob(s, t, w);
      EndsNowWith(s, trace, Move(w), w);
      HandingOver(t, w);
      SendIs(t, w);
      MoveOn(w);
      GrowsOn(s, t, View());
      trace := trace + [Move(w)];
      StillSettled(t, View(), JobOf(t, w).change);
    }

    /**
     A run of the notice job, given whether the provider takes the email. If it hands the change over, the
     old address has been told, or the change has ended; unless an earlier run had sent the notice, this one
     did.
     */
    method RunNotice(w: nat, job: nat, sendFails: bool)
      returns (result: Result, ghost trace: seq<Action>, ghost at: State)
      requires Inv(View()) && w !in runs && job < |jobs| && jobs[job].kind.Notice? && jobs[job].change < |changes|
      modifies this
      ensures Inv(View()) && View() == Run(old(View()), trace) && w !in runs
      ensures NoticeRan(old(View()), trace, at, w, job, sendFails, result)
      ensures result.HandedOver? ==> HandsOver(old(View()), View(), job)
      ensures result.HandedOver? && !old(jobs)[job].delivered ==>
        ToldSince(View(), |old(log)|, old(jobs)[job].change)
    {
      ghost var s := View();
      var found;
      found, trace, at := Start(w, job);
      if !found {
        return NothingToDo, trace, at;
      }
      ghost var t := View();
      JobStays(s, trace, job);
      RunIsRun(t, w);
      ghost var more;
      result, more := FinishNotice(w, sendFails);
      if result.HandedOver? && !s.jobs[job].delivered { ToldLater(s, t, View(), s.jobs[job].change); }
      Along(s, trace, more, w);
      trace := trace + more;
    }

    /** The rest of a notice run, once it has read what it works on. */
    method FinishNotice(w: nat, sendFails: bool) returns (result: Result, ghost trace: seq<Action>)
      requires Inv(View()) && IsRun(View(), w) && JobOf(View(), w).kind.Notice? && runs[w].stage.Ready?
      modifies this
      ensures Inv(View()) && View() == Run(old(View()), trace) && w !in runs
      ensures result == if !old(runs)[w].delivered && sendFails then NotSent else HandedOver
      ensures Own(trace, w) ==
        if old(runs)[w].delivered then [Move(w)] else if sendFails then [Crash(w)] else [Send(w), Mark(w), Move(w)]
      ensures result.HandedOver? ==> HandsOver(old(View()), View(), old(runs)[w].job)
      ensures result.HandedOver? && !old(runs)[w].delivered ==>
        ToldSince(View(), |old(log)|, JobOf(old(View()), w).change)
    {
      if runs[w].delivered {
        trace := Complete(w);
        return HandedOver, trace;
      }
      if sendFails {
        OneStep(View(), Crash(w), w);
        Die(w);
        return NotSent, [Crash(w)];
      }
      trace := Notify(w);
      return HandedOver, trace;
    }

    /** The notice goes out, and the change is handed to the link job. */
    method Notify(w: nat) returns (ghost trace: seq<Action>)
      requires Inv(View()) && IsRun(View(), w) && JobOf(View(), w).kind.Notice? && !runs[w].delivered
      requires runs[w].stage.Ready?
      modifies this
      ensures Inv(View()) && View() == Run(old(View()), trace) && Own(trace, w) == [Send(w), Mark(w), Move(w)]
      ensures w !in runs
      ensures HandsOver(old(View()), View(), old(runs)[w].job)
      ensures ToldSince(View(), |old(log)|, JobOf(old(View()), w).change)
    {
      trace := SendAndHandOver(w);
    }

    /** The email goes out, and the change moves on. */
    method SendAndHandOver(w: nat) returns (ghost trace: seq<Action>)
      requires Inv(View()) && IsRun(View(), w)
      requires if JobOf(View(), w).kind.Notice? then !runs[w].delivered && runs[w].stage.Ready?
        else runs[w].stage.Linked?
      modifies this
      ensures Inv(View()) && View() == Run(old(View()), trace) && Own(trace, w) == [Send(w), Mark(w), Move(w)]
      ensures w !in runs
      ensures Grows(old(View()), View()) && HandsOver(old(View()), View(), old(runs)[w].job)
      ensures SentSince(View(), |old(log)|, old(runs)[w].job)
    {
      ghost var s := View();
      trace := Deliver(w);
      ghost var t := View();
      ghost var more := Complete(w);
      SentKept(t, View(), |s.log|, s.runs[w].job);
      GrowsOn(s, t, View());
      Along(s, trace, more, w);
      trace := trace + more;
    }

    /**
     A run of the link job, given whether the address is over its cap and whether the provider takes the
     email. If it hands the change over without an earlier delivery, the link has gone to the new address.
     */
    method RunLink(w: nat, job: nat, capped: bool, sendFails: bool)
      returns (result: Result, ghost trace: seq<Action>, ghost at: State)
      requires Inv(View()) && w !in runs && job < |jobs| && jobs[job].kind.LinkMail? && jobs[job].change < |changes|
      modifies this
      ensures Inv(View()) && View() == Run(old(View()), trace) && w !in runs
      ensures LinkRan(old(View()), trace, at, w, job, capped, sendFails, result)
      ensures result.HandedOver? && !old(jobs)[job].delivered ==>
        MailedSince(View(), |old(log)|, old(jobs)[job].change)
    {
      ghost var s := View();
      var found;
      found, trace, at := Start(w, job);
      if !found {
        return NothingToDo, trace, at;
      }
      ghost var t := View();
      JobStays(s, trace, job);
      RunIsRun(t, w);
      ghost var more;
      result, more, at := FinishLink(w, capped, sendFails);
      if result.HandedOver? && !s.jobs[job].delivered { MailedLater(s, t, View(), s.jobs[job].change); }
      Along(s, trace, more, w);
      trace := trace + more;
    }

    /** The rest of a link run, once it has read what it works on. */
    method FinishLink(w: nat, capped: bool, sendFails: bool)
      returns (result: Result, ghost trace: seq<Action>, ghost at: State)
      requires Inv(View()) && IsRun(View(), w) && JobOf(View(), w).kind.LinkMail? && runs[w].stage.Ready?
      modifies this
      ensures Inv(View()) && View() == Run(old(View()), trace) && w !in runs
      ensures LinkFinished(Own(trace, w), at, w, old(runs)[w].delivered, capped, sendFails, result)
      ensures result.HandedOver? && !old(runs)[w].delivered ==>
        MailedSince(View(), |old(log)|, JobOf(old(View()), w).change)
    {
      at := View();
      if runs[w].delivered {
        trace := Complete(w);
        return HandedOver, trace, at;
      }
      if capped {
        OneStep(View(), Crash(w), w);
        Die(w);
        return Capped, [Crash(w)], at;
      }
      result, trace, at := SendLink(w, sendFails);
    }

    /** A fresh link is made and sent, or the run gives way. */
    method SendLink(w: nat, sendFails: bool) returns (result: Result, ghost trace: seq<Action>, ghost at: State)
      requires Inv(View()) && MakesLink(View(), w)
      modifies this
      ensures Inv(View()) && View() == Run(old(View()), trace) && w !in runs
      ensures LinkFinished(Own(trace, w), at, w, false, false, sendFails, result)
      ensures result.HandedOver? ==> MailedSince(View(), |old(log)|, JobOf(old(View()), w).change)
    {
      ghost var s := View();
      var made;
      made, trace, at := NextLink(w);
      ghost var t := View();
      ghost var more;
      result, more := AfterLink(w, made, sendFails);
      if result.HandedOver? { MailedLater(s, t, View(), JobOf(s, w).change); }
      Along(s, trace, more, w);
      LinkEnds(more, at, w, made, sendFails);
      trace := trace + more;
    }

    /** The link goes out; or there is none, or the provider refuses it. */
    method AfterLink(w: nat, made: bool, sendFails: bool) returns (result: Result, ghost trace: seq<Action>)
      requires Inv(View()) && IsRun(View(), w) && JobOf(View(), w).kind.LinkMail?
      requires if made then runs[w].stage.Linked? else runs[w].stage.Unlinked?
      modifies this
      ensures Inv(View()) && View() == Run(old(View()), trace) && w !in runs
      ensures result == if !made then NoLink else if sendFails then NotSent else HandedOver
      ensures Own(trace, w) ==
        if !made then [GiveWay(w)] else if sendFails then [Crash(w)] else [Send(w), Mark(w), Move(w)]
      ensures result.HandedOver? ==> MailedSince(View(), |old(log)|, JobOf(old(View()), w).change)
    {
      if !made {
        trace := NextGivingUp(w);
        return NoLink, trace;
      }
      if sendFails {
        OneStep(View(), Crash(w), w);
        Die(w);
        return NotSent, [Crash(w)];
      }
      trace := MailLink(w);
      return HandedOver, trace;
    }

    /** Others, then the making of the link. */
    method NextLink(w: nat) returns (made: bool, ghost trace: seq<Action>, ghost at: State)
      requires Inv(View()) && MakesLink(View(), w)
      modifies this
      ensures Inv(View()) && View() == Run(old(View()), trace) && Own(trace, w) == [MakeLink(w)]
      ensures MakesLink(at, w) && (made <==> LinkAllowed(at, w))
      ensures w in runs && (if made then runs[w].stage.Linked? else runs[w].stage.Unlinked?)
      ensures Grows(old(View()), View()) && IsRun(View(), w) && JobOf(View(), w).kind.LinkMail?
      ensures JobOf(View(), w).change == JobOf(old(View()), w).change
    {
      ghost var s := View();
      trace := Others(w);
      at := View();
      SameJob(s, at, w);
      EndsNowWith(s, trace, MakeLink(w), w);
      LinkIs(at, w);
      LinkGrows(at, w);
      made := IssueLink(w);
      GrowsOn(s, at, View());
      RunIsRun(View(), w);
      trace := trace + [MakeLink(w)];
    }

    method NextGivingUp(w: nat) returns (ghost trace: seq<Action>)
      requires Inv(View()) && w in runs && runs[w].stage.Unlinked?
      modifies this
      ensures Inv(View()) && View() == Run(old(View()), trace) && Own(trace, w) == [GiveWay(w)] && w !in runs
    {
      ghost var s := View();
      trace := Others(w);
      RunIsRun(View(), w);
      EndsNowWith(s, trace, GiveWay(w), w);
      LinkIs(View(), w);
      GiveUpLink(w);
      trace := trace + [GiveWay(w)];
    }

    /** The link goes to the new address, and the change waits for its use. */
    method MailLink(w: nat) returns (ghost trace: seq<Action>)
      requires Inv(View()) && IsRun(View(), w) && JobOf(View(), w).kind.LinkMail? && runs[w].stage.Linked?
      modifies this
      ensures Inv(View()) && View() == Run(old(View()), trace) && Own(trace, w) == [Send(w), Mark(w), Move(w)]
      ensures w !in runs
      ensures MailedSince(View(), |old(log)|, JobOf(old(View()), w).change)
    {
      trace := SendAndHandOver(w);
    }
  }

  /** How the check of the account's password ends: past the sign-in limit it is not compared at all. */
  datatype PasswordCheck = Right | Wrong | LockedOut

  /**
   Who asks, for their own account or as an administrator, and what the password check and the throttle of
   requests for this account answer.
   */
  datatype Asking = Asking(actor: nat, isAdmin: bool, own: bool, password: PasswordCheck, withinLimit: bool)

  datatype Refusal =
    | NotFound | NotActive | NotAdministrator | UseProfile | IsRetired | GoogleAccount
    | WrongPassword | TooManyAttempts | SameEmail | AddressTaken

  /** Why the first reading of a request refuses it, if it does. */
  function Declines(s: State, user: nat, newEmail: Address, asking: Asking): (refusal: Option<Refusal>)
    ensures refusal.None? <==>
      && user < |s.users| && !s.users[user].retired && s.users[user].isLocal
      && asking.actor < |s.users| && s.users[asking.actor].active && !s.users[asking.actor].retired
      && (if asking.own then asking.password.Right? else asking.isAdmin && asking.actor != user) && asking.withinLimit
      && forall u :: 0 <= u < |s.users| ==> s.users[u].email != newEmail
  {
    var actorActive := asking.actor < |s.users| && s.users[asking.actor].active && !s.users[asking.actor].retired;
    if user >= |s.users| then Some(NotFound)
    else if asking.own && !actorActive then Some(NotActive)
    else if !asking.own && !(asking.isAdmin && actorActive) then Some(NotAdministrator)
    else if !asking.own && asking.actor == user then Some(UseProfile)
    else if s.users[user].retired then Some(IsRetired)
    else if !s.users[user].isLocal then Some(GoogleAccount)
    else if asking.own && asking.password.LockedOut? then Some(TooManyAttempts)
    else if asking.own && asking.password.Wrong? then Some(WrongPassword)
    else if !asking.withinLimit then Some(TooManyAttempts)
    else if newEmail == s.users[user].email then Some(SameEmail)
    else if exists u :: 0 <= u < |s.users| && s.users[u].email == newEmail then Some(AddressTaken)
    else None
  }

  lemma LinkEnds(more: seq<Action>, at: State, w: nat, made: bool, sendFails: bool)
    requires MakesLink(at, w) && (made <==> LinkAllowed(at, w))
    requires Own(more, w) ==
      if !made then [GiveWay(w)] else if sendFails then [Crash(w)] else [Send(w), Mark(w), Move(w)]
    ensures LinkFinished([MakeLink(w)] + Own(more, w), at, w, false, false, sendFails,
                         if !made then NoLink else if sendFails then NotSent else HandedOver)
  {
  }

  /** In the log from `n` on, the job's email went out. */
  ghost predicate SentSince(s: State, n: nat, job: nat) {
    && job < |s.jobs|
    && if s.jobs[job].kind.Notice? then ToldSince(s, n, s.jobs[job].change) else MailedSince(s, n, s.jobs[job].change)
  }

  /** The second reading after the first. */
  lemma ReadingsEnd(s: State, first: seq<Action>, more: seq<Action>, at: State, w: nat, job: nat, found: bool)
    requires Own(first, w) == [Begin(w, job), FindChange(w)] && Own(more, w) == [FindUser(w)]
    requires EndsWith(Run(s, first), more, at, FindUser(w)) && IsRun(at, w) && (found <==> MayUse(UserOf(at, w)))
    ensures Run(s, first + more) == Run(Run(s, first), more) && Own(first + more, w) == Readings(w, job)
    ensures !found ==> StoppedReading(s, first + more, at, w, job)
  {
    EndsLater(s, first, more, at, FindUser(w));
    Along(s, first, more, w);
  }

  lemma JobStays(s: State, trace: seq<Action>, job: nat)
    requires Inv(s) && job < |s.jobs|
    ensures Grows(s, Run(s, trace))
    ensures
      var t := Run(s, trace);
      job < |t.jobs| && t.jobs[job].kind == s.jobs[job].kind && t.jobs[job].change == s.jobs[job].change
  {
    RunKeeps(s, trace);
  }

  lemma StillLocal(s: State, trace: seq<Action>, user: nat)
    requires Inv(s) && user < |s.users| && s.users[user].isLocal
    ensures user < |Run(s, trace).users| && Run(s, trace).users[user].isLocal
  {
    RunKeeps(s, trace);
  }

  /** A run keeps its job, and the job its change. */
  lemma SameJob(s: State, t: State, w: nat)
    requires Inv(t) && Grows(s, t) && IsRun(s, w) && w in t.runs && t.runs[w] == s.runs[w]
    ensures IsRun(t, w) && JobOf(t, w).kind == JobOf(s, w).kind && JobOf(t, w).change == JobOf(s, w).change
    ensures SameChange(ChangeOf(s, w), ChangeOf(t, w))
  {
    RunIsRun(t, w);
  }

  /** The address a ready notice run has read is the change's old one, unless the change has ended. */
  lemma NoticeTold(s: State, w: nat)
    requires Inv(s) && IsRun(s, w)
    ensures s.runs[w].stage.Ready? ==>
      s.runs[w].stage.address == ChangeOf(s, w).oldEmail || !Open(ChangeOf(s, w))
  {
    assert RunOk(s, w);
  }

  lemma SentIsOut(s: State, at: State, w: nat)
    requires Grows(s, at) && IsRun(at, w)
    requires if JobOf(at, w).kind.Notice? then !at.runs[w].delivered && at.runs[w].stage.Ready?
      else at.runs[w].stage.Linked?
    requires at.runs[w].stage.Ready? ==>
      at.runs[w].stage.address == ChangeOf(at, w).oldEmail || !Open(ChangeOf(at, w))
    ensures SentSince(SentBy(at, w), |s.log|, at.runs[w].job)
  {
    var id, sent := JobOf(at, w).change, SentBy(at, w);
    if JobOf(at, w).kind.Notice? {
      assert sent.log[|at.log|] == Told(id, at.runs[w].stage.address);
    } else {
      assert sent.log[|at.log|] == LinkMailed(id, sent.changes[id].newEmail);
    }
  }

  /** What went out stays recorded. */
  lemma SentKept(s: State, t: State, n: nat, job: nat)
    requires Grows(s, t) && SentSince(s, n, job)
    ensures SentSince(t, n, job)
  {
    var id := s.jobs[job].change;
    assert SameChange(s.changes[id], t.changes[id]);
    if s.jobs[job].kind.Notice? {
      var k :| n <= k < |s.log| && s.log[k].Told? && s.log[k].change == id
            && (s.log[k].address == s.changes[id].oldEmail || !Open(s.changes[id]));
      assert t.log[..|s.log|][k] == t.log[k];
    } else {
      var k :| n <= k < |s.log| && s.log[k] == LinkMailed(id, s.changes[id].newEmail);
      assert t.log[..|s.log|][k] == t.log[k];
    }
  }

  lemma ToldLater(s: State, t: State, u: State, id: nat)
    requires Grows(s, t) && ToldSince(u, |t.log|, id)
    ensures ToldSince(u, |s.log|, id)
  {
  }

  lemma MailedLater(s: State, t: State, u: State, id: nat)
    requires Grows(s, t) && MailedSince(u, |t.log|, id)
    ensures MailedSince(u, |s.log|, id)
  {
  }

  lemma SendsGrow(s: State, w: nat)
    requires Inv(s)
    ensures Grows(s, SentBy(s, w)) && Grows(s, MarkedBy(s, w))
  {
    SendIs(s, w);
    StepKeeps(s, Send(w));
    StepKeeps(s, Mark(w));
  }

  lemma LinkGrows(s: State, w: nat)
    requires Inv(s)
    ensures MakesLink(s, w) ==> Grows(s, LinkMadeBy(s, w))
    ensures Grows(s, GaveWay(s, w))
  {
    LinkIs(s, w);
    StepKeeps(s, MakeLink(w));
    StepKeeps(s, GiveWay(w));
  }

  /** A run that moves its change on knows the notice was sent. */
  lemma HandingOver(s: State, w: nat)
    requires Inv(s) && Moves(s, w)
    ensures Settled(s, JobOf(s, w).change)
    ensures Grows(s, MovedBy(s, w))
  {
    assert RunOk(s, w);
    SendIs(s, w);
    StepKeeps(s, Move(w));
  }

  lemma BeginKeeps(s: State, w: nat, job: nat)
    requires Inv(s) && w !in s.runs && job < |s.jobs|
    ensures
      var t := s.(runs := s.runs[w := JobRun(job, s.jobs[job].delivered, Reading)]);
      Inv(t) && Grows(s, t)
  {
    assert Step(s, Begin(w, job)) == s.(runs := s.runs[w := JobRun(job, s.jobs[job].delivered, Reading)]);
    StepKeeps(s, Begin(w, job));
  }

  lemma RequestKeeps(s: State, user: nat, newEmail: Address)
    requires Inv(s) && newEmail.Address?
    ensures Inv(Requested(s, user, newEmail))
  {
    assert Step(s, Request(user, newEmail)) == Requested(s, user, newEmail);
    StepKeeps(s, Request(user, newEmail));
  }

  lemma ConfirmKeeps(s: State, link: nat)
    requires Inv(s) && Confirms(s, link)
    ensures Inv(AfterConfirmation(s, link))
  {
    assert Step(s, Confirm(link)) == AfterConfirmation(s, link);
    StepKeeps(s, Confirm(link));
  }

  lemma FailKeeps(s: State, id: nat)
    requires Inv(s)
    ensures Inv(Failing(s, id)) && Grows(s, Failing(s, id))
  {
    assert Step(s, Action.FailChange(id)) == Failing(s, id);
    StepKeeps(s, Action.FailChange(id));
  }

  lemma DropKeeps(s: State, id: nat)
    requires Inv(s)
    ensures Inv(s.(links := DeleteLinksOf(s.links, id))) && Grows(s, s.(links := DeleteLinksOf(s.links, id)))
  {
    assert Step(s, DropLinksOf(id)) == s.(links := DeleteLinksOf(s.links, id));
    StepKeeps(s, DropLinksOf(id));
  }

  lemma RetryKeeps(s: State, job: nat)
    requires Inv(s)
    ensures Inv(Retried(s, job))
  {
    assert Step(s, Retry(job)) == Retried(s, job);
    StepKeeps(s, Retry(job));
  }
}
