/**
 Changing an account's email address: requests, the notice and link jobs, administrator retries,
 confirmation, and everything that ends a change under way. Each guarded transaction and each single
 update is one step; a job run is split at every read, send and write, and any number of runs of one
 job may overlap, repeat or die.
 */
module EmailChange {
  import opened Basics

  datatype User = User(email: Address, active: bool, retired: bool, isLocal: bool)

  datatype ChangeState = NoticePending | NoticeSent | LinkSent | Confirmed | Failed | Superseded | Cancelled

  /** `oldEmail` is history: the account's address when the change was created. */
  datatype Change = Change(
    user: nat,
    newEmail: Address,
    oldEmail: Address,
    createdAt: nat,
    state: ChangeState,
    active: bool,
    endedAt: Option<nat>,
    deleted: bool)

  datatype Purpose = PasswordReset | ChangeLink | VerifyLink

  /** `address` and `madeAt` are history: the account's address and the time when the link was made. */
  datatype Link = Link(
    user: nat,
    purpose: Purpose,
    change: Option<nat>,
    address: Address,
    madeAt: nat,
    expiresAt: nat,
    used: bool,
    deleted: bool)

  datatype Kind = Notice | LinkMail
  datatype Job = Job(kind: Kind, change: nat, delivered: bool)

  /** Where a run of a job stands between its steps. */
  datatype Stage = Reading | Checking | Ready(address: Address) | Linked(link: nat) | Unlinked | Sent | Marked
  datatype JobRun = JobRun(job: nat, delivered: bool, stage: Stage)

  /** What the outside world saw, in order. */
  datatype Event =
    | Told(change: nat, address: Address)
    | LinkMade(change: nat, link: nat)
    | LinkMailed(change: nat, address: Address)
    | Replaced(change: nat, link: nat, from: Address, to: Address)

  datatype State = State(
    now: nat,
    users: seq<User>,
    changes: seq<Change>,
    links: seq<Link>,
    jobs: seq<Job>,
    runs: map<nat, JobRun>,
    log: seq<Event>)

  datatype Action =
    | Tick(ms: nat)
    | Join(email: Address, isLocal: bool)
    | SignInWithGoogle(user: nat, email: Address)
    | Request(user: nat, newEmail: Address)
    | Confirm(link: nat)
    | ChangePassword(user: nat)
    | ResetPassword(link: nat)
    | Suspend(user: nat)
    | Reactivate(user: nat)
    | Retire(user: nat)
    | IssueLink(user: nat, address: Address, purpose: Purpose)
    | FailChange(change: nat)
    | DropLinksOf(change: nat)
    | Retry(job: nat)
    | ExpireChange(change: nat)
    | ExpireLink(link: nat)
    | Begin(run: nat, job: nat)
    | FindChange(run: nat)
    | FindUser(run: nat)
    | MakeLink(run: nat)
    | GiveWay(run: nat)
    | Send(run: nat)
    | Mark(run: nat)
    | Move(run: nat)
    | Crash(run: nat)

  const Empty: State := State(0, [], [], [], [], map[], [])

  const CHANGE_KEPT_MS: nat := 30 * 24 * 3600 * 1000

  function LinkLifetime(purpose: Purpose): nat {
    match purpose
    case PasswordReset => 1_800_000
    case ChangeLink => 86_400_000
    case VerifyLink => 86_400_000
  }

  predicate UnderWay(state: ChangeState) {
    state.NoticePending? || state.NoticeSent? || state.LinkSent?
  }

  /** A change that may still replace the address: under way, or failed and so open to a retry. */
  predicate Open(c: Change) {
    !c.deleted && (UnderWay(c.state) || c.state.Failed?)
  }

  predicate Present(c: Change, state: ChangeState) {
    !c.deleted && c.active && c.state == state
  }

  predicate MayUse(u: User) {
    u.active && !u.retired && u.isLocal
  }

  predicate AddressFree(users: seq<User>, email: Address, except: nat) {
    forall u :: 0 <= u < |users| && u != except ==> users[u].email != email
  }

  predicate EndsNow(c: Change, user: nat) {
    !c.deleted && c.user == user && (c.active || c.state.Failed?)
  }

  function Ended(c: Change, state: ChangeState, now: nat): Change {
    c.(state := state, active := false, endedAt := Some(now))
  }

  /** Ends the account's change under way, if any, and any change that failed. */
  function EndOpenChanges(changes: seq<Change>, user: nat, state: ChangeState, now: nat): seq<Change> {
    seq(|changes|, c requires 0 <= c < |changes| =>
      if EndsNow(changes[c], user) then Ended(changes[c], state, now) else changes[c])
  }

  /** The account's unused links of these purposes are deleted. */
  function CancelLinks(links: seq<Link>, user: nat, purposes: set<Purpose>): seq<Link> {
    seq(|links|, l requires 0 <= l < |links| =>
      if links[l].user == user && !links[l].used && links[l].purpose in purposes
        then links[l].(deleted := true) else links[l])
  }

  const AllPurposes: set<Purpose> := {PasswordReset, ChangeLink, VerifyLink}

  function DeleteLinks(links: seq<Link>, user: nat): seq<Link> {
    seq(|links|, l requires 0 <= l < |links| =>
      if links[l].user == user then links[l].(deleted := true) else links[l])
  }

  function DeleteChanges(changes: seq<Change>, user: nat): seq<Change> {
    seq(|changes|, c requires 0 <= c < |changes| =>
      if changes[c].user == user then changes[c].(deleted := true) else changes[c])
  }

  function DeleteLinksOf(links: seq<Link>, change: nat): seq<Link> {
    seq(|links|, l requires 0 <= l < |links| =>
      if links[l].change == Some(change) && !links[l].used then links[l].(deleted := true) else links[l])
  }

  predicate LinkUsable(l: Link, purpose: Purpose, now: nat) {
    !l.deleted && !l.used && l.purpose == purpose && now < l.expiresAt
  }

  predicate IsRun(s: State, w: nat) {
    && w in s.runs && s.runs[w].job < |s.jobs|
    && s.jobs[s.runs[w].job].change < |s.changes|
    && s.changes[s.jobs[s.runs[w].job].change].user < |s.users|
  }

  function JobOf(s: State, w: nat): Job
    requires IsRun(s, w)
  {
    s.jobs[s.runs[w].job]
  }

  function ChangeOf(s: State, w: nat): Change
    requires IsRun(s, w)
  {
    s.changes[JobOf(s, w).change]
  }

  function UserOf(s: State, w: nat): User
    requires IsRun(s, w)
  {
    s.users[ChangeOf(s, w).user]
  }

  function At(s: State, w: nat, stage: Stage): State
    requires w in s.runs
  {
    s.(runs := s.runs[w := s.runs[w].(stage := stage)])
  }

  function Finish(s: State, w: nat): State {
    s.(runs := s.runs - {w})
  }

  /** The state the job's run expects to find its change in. */
  function Expected(kind: Kind): ChangeState {
    match kind case Notice => NoticePending case LinkMail => NoticeSent
  }

  // ----- requests -----

  function Requested(s: State, user: nat, newEmail: Address): State {
    if user < |s.users| && s.users[user].isLocal then
      s.(changes := EndOpenChanges(s.changes, user, Superseded, s.now)
                    + [Change(user, newEmail, s.users[user].email, s.now, NoticePending, true, None, false)],
         links := CancelLinks(s.links, user, {ChangeLink}),
         jobs := s.jobs + [Job(Notice, |s.changes|, false)])
    else s
  }

  predicate Confirms(s: State, link: nat) {
    && link < |s.links| && LinkUsable(s.links[link], ChangeLink, s.now)
    && s.links[link].change.Some? && s.links[link].change.value < |s.changes|
    && (var c := s.changes[s.links[link].change.value];
        Present(c, NoticeSent) || Present(c, LinkSent))
    && s.links[link].user < |s.users| && MayUse(s.users[s.links[link].user])
    && AddressFree(s.users, s.changes[s.links[link].change.value].newEmail, s.links[link].user)
  }

  function UseLink(links: seq<Link>, link: nat): seq<Link>
    requires link < |links|
  {
    links[link := links[link].(used := true)]
  }

  function AfterConfirmation(s: State, link: nat): State
    requires Confirms(s, link)
  {
    var user, id := s.links[link].user, s.links[link].change.value;
    var c := s.changes[id];
    s.(users := s.users[user := s.users[user].(email := c.newEmail)],
       links := CancelLinks(UseLink(s.links, link), user, AllPurposes),
       changes := EndOpenChanges(s.changes[id := Ended(c, ChangeState.Confirmed, s.now)], user, Superseded, s.now),
       log := s.log + [Replaced(id, link, s.users[user].email, c.newEmail)])
  }

  /** Password changes, resets and suspensions cancel the account's links and end its change. */
  function Reset(s: State, user: nat): State {
    s.(links := CancelLinks(s.links, user, AllPurposes),
       changes := EndOpenChanges(s.changes, user, Cancelled, s.now))
  }

  predicate Resets(s: State, link: nat) {
    && link < |s.links| && LinkUsable(s.links[link], PasswordReset, s.now)
    && s.links[link].user < |s.users| && MayUse(s.users[s.links[link].user])
  }

  function Retired(s: State, user: nat): State {
    if user < |s.users| && !s.users[user].retired then
      s.(users := s.users[user := s.users[user].(email := RetiredAddress(user), active := false, retired := true)],
         links := DeleteLinks(s.links, user),
         changes := DeleteChanges(s.changes, user))
    else s
  }

  /** A new link replaces the account's earlier unused ones of that purpose. */
  function WithLink(s: State, user: nat, purpose: Purpose, change: Option<nat>, address: Address): State {
    s.(links := CancelLinks(s.links, user, {purpose})
                + [Link(user, purpose, change, address, s.now, s.now + LinkLifetime(purpose), false, false)])
  }

  predicate MayHaveLink(s: State, user: nat, address: Address) {
    user < |s.users| && s.users[user].active && !s.users[user].retired && s.users[user].email == address
  }

  // ----- failures and retries -----

  /** Another change of the account, created no earlier. */
  predicate HasNewer(changes: seq<Change>, id: nat)
    requires id < |changes|
  {
    exists n :: 0 <= n < |changes| && n != id && !changes[n].deleted && changes[n].user == changes[id].user
             && changes[id].createdAt <= changes[n].createdAt
  }

  predicate Reopens(s: State, job: nat) {
    && job < |s.jobs| && s.jobs[job].change < |s.changes|
    && (var c := s.changes[s.jobs[job].change];
        !c.deleted && (c.state.Failed? || Present(c, Expected(s.jobs[job].kind))))
    && !HasNewer(s.changes, s.jobs[job].change)
  }

  function Retried(s: State, job: nat): State {
    if Reopens(s, job) then
      var id := s.jobs[job].change;
      s.(changes := s.changes[id :=
           s.changes[id].(state := Expected(s.jobs[job].kind), active := true, endedAt := None)],
         jobs := if s.jobs[job].kind.LinkMail? then s.jobs[job := s.jobs[job].(delivered := false)] else s.jobs)
    else s
  }

  function Failing(s: State, id: nat): State {
    if id < |s.changes| && !s.changes[id].deleted && s.changes[id].active then
      s.(changes := s.changes[id := Ended(s.changes[id], Failed, s.now)])
    else s
  }

  // ----- a run of a notice or link job -----

  function ChangeFound(s: State, w: nat): State {
    if IsRun(s, w) && s.runs[w].stage.Reading? then
      if Present(ChangeOf(s, w), Expected(JobOf(s, w).kind)) then At(s, w, Checking) else Finish(s, w)
    else s
  }

  function UserFound(s: State, w: nat): State {
    if IsRun(s, w) && s.runs[w].stage.Checking? then
      if MayUse(UserOf(s, w)) then At(s, w, Ready(UserOf(s, w).email))
      else
        var c := ChangeOf(s, w);
        var t := if !c.deleted && c.active
                 then s.(changes := s.changes[JobOf(s, w).change := Ended(c, Cancelled, s.now)]) else s;
        Finish(t, w)
    else s
  }

  predicate MakesLink(s: State, w: nat) {
    IsRun(s, w) && JobOf(s, w).kind.LinkMail? && !s.runs[w].delivered && s.runs[w].stage.Ready?
  }

  function LinkMadeBy(s: State, w: nat): State
    requires MakesLink(s, w)
  {
    var c := ChangeOf(s, w);
    if MayHaveLink(s, c.user, s.runs[w].stage.address) && Present(c, NoticeSent) then
      var t := WithLink(s, c.user, ChangeLink, Some(JobOf(s, w).change), s.runs[w].stage.address);
      At(t.(log := s.log + [LinkMade(JobOf(s, w).change, |s.links|)]), w, Linked(|s.links|))
    else At(s, w, Unlinked)
  }

  function GaveWay(s: State, w: nat): State {
    if IsRun(s, w) && s.runs[w].stage.Unlinked? then
      var c := ChangeOf(s, w);
      var t := if Present(c, NoticeSent)
               then s.(changes := s.changes[JobOf(s, w).change := Ended(c, Cancelled, s.now)]) else s;
      Finish(t, w)
    else s
  }

  function SentBy(s: State, w: nat): State {
    if !IsRun(s, w) then s
    else if JobOf(s, w).kind.Notice? && !s.runs[w].delivered && s.runs[w].stage.Ready? then
      At(s.(log := s.log + [Told(JobOf(s, w).change, s.runs[w].stage.address)]), w, Sent)
    else if JobOf(s, w).kind.LinkMail? && s.runs[w].stage.Linked? then
      At(s.(log := s.log + [LinkMailed(JobOf(s, w).change, ChangeOf(s, w).newEmail)]), w, Sent)
    else s
  }

  function MarkedBy(s: State, w: nat): State {
    if IsRun(s, w) && s.runs[w].stage.Sent? then
      At(s.(jobs := s.jobs[s.runs[w].job := JobOf(s, w).(delivered := true)]), w, Marked)
    else s
  }

  predicate Moves(s: State, w: nat) {
    IsRun(s, w) && (s.runs[w].stage.Marked? || (s.runs[w].delivered && s.runs[w].stage.Ready?))
  }

  function MovedBy(s: State, w: nat): State
    requires Moves(s, w)
  {
    var j := JobOf(s, w);
    var c := ChangeOf(s, w);
    if !Present(c, Expected(j.kind)) then Finish(s, w)
    else if j.kind.Notice? then
      Finish(s.(changes := s.changes[j.change := c.(state := NoticeSent)],
                jobs := s.jobs + [Job(LinkMail, j.change, false)]), w)
    else Finish(s.(changes := s.changes[j.change := c.(state := LinkSent)]), w)
  }

  function Step(s: State, a: Action): State {
    match a
    case Tick(ms) => s.(now := s.now + ms)
    case Join(email, isLocal) =>
      if email.Address? && AddressFree(s.users, email, |s.users|)
      then s.(users := s.users + [User(email, true, false, isLocal)]) else s
    case SignInWithGoogle(user, email) =>
      if user < |s.users| && s.users[user].active && !s.users[user].retired && !s.users[user].isLocal
         && email.Address? && AddressFree(s.users, email, user)
      then s.(users := s.users[user := s.users[user].(email := email)]) else s
    case Request(user, newEmail) => if newEmail.Address? then Requested(s, user, newEmail) else s
    case Confirm(link) => if Confirms(s, link) then AfterConfirmation(s, link) else s
    case ChangePassword(user) => Reset(s, user)
    case ResetPassword(link) =>
      if Resets(s, link) then Reset(s.(links := UseLink(s.links, link)), s.links[link].user) else s
    case Suspend(user) =>
      if user < |s.users| && !s.users[user].retired
      then Reset(s.(users := s.users[user := s.users[user].(active := false)]), user) else s
    case Reactivate(user) =>
      if user < |s.users| && !s.users[user].retired
      then s.(users := s.users[user := s.users[user].(active := true)]) else s
    case Retire(user) => Retired(s, user)
    case IssueLink(user, address, purpose) =>
      if MayHaveLink(s, user, address) && s.users[user].isLocal && !purpose.ChangeLink?
      then WithLink(s, user, purpose, None, address) else s
    case FailChange(id) => Failing(s, id)
    case DropLinksOf(id) => s.(links := DeleteLinksOf(s.links, id))
    case Retry(job) => Retried(s, job)
    case ExpireChange(id) =>
      if id < |s.changes| && s.changes[id].endedAt.Some? && s.changes[id].endedAt.value + CHANGE_KEPT_MS < s.now
      then s.(changes := s.changes[id := s.changes[id].(deleted := true)]) else s
    case ExpireLink(link) =>
      if link < |s.links| && s.links[link].expiresAt < s.now
      then s.(links := s.links[link := s.links[link].(deleted := true)]) else s
    case Begin(w, job) =>
      if w !in s.runs && job < |s.jobs| then s.(runs := s.runs[w := JobRun(job, s.jobs[job].delivered, Reading)]) else s
    case FindChange(w) => ChangeFound(s, w)
    case FindUser(w) => UserFound(s, w)
    case MakeLink(w) => if MakesLink(s, w) then LinkMadeBy(s, w) else s
    case GiveWay(w) => GaveWay(s, w)
    case Send(w) => SentBy(s, w)
    case Mark(w) => MarkedBy(s, w)
    case Move(w) => if Moves(s, w) then MovedBy(s, w) else s
    case Crash(w) => Finish(s, w)
  }

  function Run(s: State, acts: seq<Action>): State
    decreases |acts|
  {
    if acts == [] then s else Run(Step(s, acts[0]), acts[1..])
  }
}
