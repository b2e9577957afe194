/**
 What a viewer is shown of a report. Staff see everything the allow-list names; the reporter sees the
 public part, in which other people appear only by role.
 */
module Presenter {
  import opened Basics
  import R = Reports

  // ----- a stored report with the accounts it refers to -----

  datatype Person = Person(id: nat, name: string, role: R.Role, retired: bool)

  /** A reference to an account: the account itself, or only its id once it is gone. */
  datatype Ref = Live(person: Person) | Bare(id: nat)

  datatype Snapshot = Snapshot(userId: nat, role: Option<R.Role>)

  datatype Kind = Created | StatusChanged | PriorityChanged | CategoryChanged | Withdrawn

  datatype Entry = Entry(
    id: nat,
    kind: Kind,
    status: R.Status,
    priorityChange: Option<R.PriorityChange>,
    categoryChange: Option<R.CategoryChange>,
    publicNote: Option<string>,
    internalNote: Option<string>,
    actor: Option<Ref>,
    actorSnapshot: Option<Snapshot>,
    createdAt: nat)

  datatype LiveCategory = LiveCategory(id: nat, name: string, active: bool)
  datatype Coordinates = Coordinates(latitude: Option<real>, longitude: Option<real>, source: Option<string>)

  /** Where a classification came from and how it went: for staff only. */
  datatype Provenance = Provenance(
    suggestedCategory: Option<string>,
    confidence: Option<real>,
    classifiedAt: Option<nat>,
    error: Option<string>,
    inputMode: Option<string>,
    analysisCount: Option<nat>,
    requestSeq: Option<nat>,
    failureCode: Option<string>,
    failedAt: Option<nat>,
    provider: Option<string>,
    model: Option<string>,
    promptVersion: Option<string>,
    disagreement: Option<R.Disagreement>)

  datatype Image = Image(url: string, publicId: string)
  datatype Edit = Edit(editedAt: nat, editor: Option<Snapshot>, fields: seq<string>, reanalysed: bool)
  datatype Move = Move(kind: R.AssignmentKind, previous: Option<Snapshot>, next: Option<Snapshot>,
                       mover: Option<Snapshot>, reason: Option<string>, createdAt: nat)

  datatype Complaint = Complaint(
    id: nat,
    referenceCode: string,
    status: R.Status,
    priority: R.Priority,
    description: string,
    categoryId: nat,
    category: Option<LiveCategory>,
    categorySnapshot: Option<R.Category>,
    categorySource: Option<R.CategorySource>,
    citizenCategory: Option<R.Category>,
    aiStatus: Option<R.AiStatus>,
    aiSummary: string,
    aiTags: seq<string>,
    provenance: Provenance,
    address: Option<string>,
    coordinates: Coordinates,
    images: seq<Image>,
    reporter: Ref,
    reporterSnapshot: Option<Snapshot>,
    assignee: Option<Ref>,
    history: seq<Entry>,
    moves: seq<Move>,
    edits: seq<Edit>,
    version: nat,
    createdAt: nat,
    updatedAt: nat,
    resolvedAt: Option<nat>,
    resolvedAtEstimated: bool)

  // ----- the response -----

  datatype Identity = Identity(userId: nat, displayName: string, role: Option<R.Role>)
  datatype ActorLabel = You | Administrator | AgencyStaff | Reporter | System
  datatype ShownCategory = ShownCategory(id: nat, name: string, recordedName: string, active: bool, deleted: bool)

  datatype StaffEntry = StaffEntry(internalNote: Option<string>, categoryChange: Option<R.CategoryChange>,
                                   actor: Option<Identity>)
  datatype ShownEntry = ShownEntry(
    id: nat,
    kind: Kind,
    status: R.Status,
    priorityChange: Option<R.PriorityChange>,
    publicNote: Option<string>,
    actorLabel: ActorLabel,
    createdAt: nat,
    staff: Option<StaffEntry>)

  datatype StaffSummary = StaffSummary(reporter: Identity, assignee: Option<Identity>,
                                       disagreement: Option<R.Disagreement>)
  datatype Summary = Summary(
    id: nat,
    referenceCode: string,
    status: R.Status,
    priority: R.Priority,
    description: string,
    category: ShownCategory,
    categorySource: Option<R.CategorySource>,
    aiStatus: Option<R.AiStatus>,
    address: Option<string>,
    hasPrecisePosition: bool,
    imageCount: nat,
    thumbnailUrl: Option<string>,
    createdAt: nat,
    updatedAt: nat,
    staff: Option<StaffSummary>)

  datatype ShownMove = ShownMove(kind: R.AssignmentKind, previous: Option<Identity>, next: Option<Identity>,
                                 mover: Option<Identity>, reason: Option<string>, createdAt: nat)
  datatype ShownEdit = ShownEdit(editedAt: nat, editor: Option<Identity>, fields: seq<string>, reanalysed: bool)

  datatype StaffView = StaffView(
    coordinates: Coordinates,
    provenance: Provenance,
    assignee: Option<Identity>,
    moves: seq<ShownMove>,
    edits: seq<ShownEdit>,
    allowedTransitions: set<R.Status>,
    canManage: bool,
    canAssign: bool,
    resolvedAt: Option<nat>,
    resolvedAtEstimated: bool)

  datatype View = View(
    summary: Summary,
    reporter: Identity,
    version: nat,
    images: seq<string>,
    citizenCategory: Option<R.Category>,
    aiStatus: Option<R.AiStatus>,
    aiSummary: string,
    aiTags: seq<string>,
    timeline: seq<ShownEntry>,
    isAssigned: bool,
    canEdit: bool,
    canWithdraw: bool,
    staff: Option<StaffView>)

  // ----- presenting -----

  predicate IsStaff(v: R.Viewer) {
    v.role.AdminRole? || v.role.AgencyRole?
  }

  function IdOf(ref: Ref): nat {
    match ref case Live(person) => person.id case Bare(id) => id
  }

  /** Live accounts show their present name and role; a gone one shows at most the role recorded for it. */
  function IdentityOf(ref: Option<Ref>, snapshot: Snapshot): Identity {
    match ref
    case Some(Live(person)) =>
      Identity(person.id, if person.retired then "Retired account" else person.name, Some(person.role))
    case _ => Identity(snapshot.userId, "Unavailable account", snapshot.role)
  }

  function ActorOf(e: Entry): Option<Identity> {
    if e.actor.None? && e.actorSnapshot.None? then None
    else Some(IdentityOf(e.actor,
      e.actorSnapshot.GetOr(Snapshot(if e.actor.Some? then IdOf(e.actor.value) else 0, None))))
  }

  function LabelOf(actor: Option<Identity>, v: R.Viewer): ActorLabel {
    if actor.None? then System
    else if actor.value.userId == v.id then You
    else match actor.value.role
      case Some(AdminRole) => Administrator
      case Some(AgencyRole) => AgencyStaff
      case Some(CitizenRole) => Reporter
      case None => System
  }

  /** An empty note is left out. */
  function Shown(note: Option<string>): Option<string> {
    if note == Some("") then None else note
  }

  function PresentEntry(e: Entry, v: R.Viewer): ShownEntry {
    ShownEntry(e.id, e.kind, e.status, e.priorityChange, Shown(e.publicNote), LabelOf(ActorOf(e), v), e.createdAt,
      if IsStaff(v) then Some(StaffEntry(Shown(e.internalNote), e.categoryChange, ActorOf(e))) else None)
  }

  /** Places the entry after every earlier one recorded at the same time. */
  function Insert(e: Entry, sorted: seq<Entry>): seq<Entry>
    decreases |sorted|
  {
    if sorted == [] || sorted[|sorted| - 1].createdAt <= e.createdAt then sorted + [e]
    else Insert(e, sorted[..|sorted| - 1]) + [sorted[|sorted| - 1]]
  }

  /** By time, and by place in the history within one time. */
  function SortedTimeline(history: seq<Entry>): seq<Entry>
    decreases |history|
  {
    if history == [] then [] else Insert(history[|history| - 1], SortedTimeline(history[..|history| - 1]))
  }

  function Filter(p: Entry -> bool, entries: seq<Entry>): seq<Entry>
    decreases |entries|
  {
    if entries == [] then []
    else
      var rest, last := Filter(p, entries[..|entries| - 1]), entries[|entries| - 1];
      if p(last) then rest + [last] else rest
  }

  predicate IsPublic(e: Entry) {
    !e.kind.CategoryChanged?
  }

  function VisibleTo(v: R.Viewer): Entry -> bool {
    (e: Entry) => IsStaff(v) || IsPublic(e)
  }

  function PresentCategory(c: Complaint): ShownCategory {
    var recorded := if c.categorySnapshot.Some? then c.categorySnapshot.value.name
                    else if c.category.Some? then c.category.value.name else "Unavailable category";
    if c.category.Some? then
      ShownCategory(c.category.value.id, c.category.value.name, recorded, c.category.value.active, false)
    else
      ShownCategory(if c.categorySnapshot.Some? then c.categorySnapshot.value.id else c.categoryId, recorded, recorded,
                    false, true)
  }

  predicate HasPrecisePosition(c: Complaint) {
    c.coordinates.latitude.Some? && c.coordinates.longitude.Some?
  }

  function PresentReporter(c: Complaint): Identity {
    IdentityOf(Some(c.reporter), c.reporterSnapshot.GetOr(Snapshot(IdOf(c.reporter), None)))
  }

  function PresentAssignee(c: Complaint): Option<Identity> {
    if c.assignee.None? then None else Some(IdentityOf(c.assignee, Snapshot(IdOf(c.assignee.value), None)))
  }

  function PresentSummary(c: Complaint, v: R.Viewer): Summary {
    Summary(c.id, c.referenceCode, c.status, c.priority, c.description, PresentCategory(c), c.categorySource,
            c.aiStatus,
      c.address, HasPrecisePosition(c), |c.images|, if c.images == [] then None else Some(c.images[0].url),
      c.createdAt, c.updatedAt,
      if IsStaff(v) then Some(StaffSummary(PresentReporter(c), PresentAssignee(c), c.provenance.disagreement))
      else None)
  }

  function SnapshotIdentity(snapshot: Option<Snapshot>, identities: map<nat, Person>): Option<Identity> {
    if snapshot.None? then None
    else
      var id := snapshot.value.userId;
      Some(IdentityOf(if id in identities then Some(Live(identities[id])) else None, snapshot.value))
  }

  predicate IsReporter(v: R.Viewer, c: Complaint) {
    IdOf(c.reporter) == v.id
  }

  predicate CanManage(v: R.Viewer, c: Complaint) {
    v.role.AdminRole? || (v.role.AgencyRole? && c.assignee.Some? && IdOf(c.assignee.value) == v.id)
  }

  function PresentStaff(c: Complaint, v: R.Viewer, identities: map<nat, Person>): StaffView {
    StaffView(c.coordinates, c.provenance, PresentAssignee(c),
      seq(|c.moves|, i requires 0 <= i < |c.moves| =>
        var m := c.moves[i];
        ShownMove(m.kind, SnapshotIdentity(m.previous, identities), SnapshotIdentity(m.next, identities),
                  SnapshotIdentity(m.mover, identities), Shown(m.reason), m.createdAt)),
      seq(|c.edits|, i requires 0 <= i < |c.edits| =>
        var e := c.edits[i];
        ShownEdit(e.editedAt, SnapshotIdentity(e.editor, identities), e.fields, e.reanalysed)),
      (set to | to in AllStatuses && CanManage(v, c) && R.Allowed(c.status, to)),
      CanManage(v, c) && !c.status.Withdrawn?,
      v.role.AdminRole? && !c.status.Withdrawn?,
      c.resolvedAt, c.resolvedAtEstimated)
  }

  const AllStatuses: set<R.Status> := {R.Pending, R.InReview, R.InProgress, R.Resolved, R.Rejected, R.Status.Withdrawn}

  /** What the viewer is shown of the history, in order of time. */
  function PresentTimeline(history: seq<Entry>, v: R.Viewer): seq<ShownEntry> {
    var entries := Filter(VisibleTo(v), SortedTimeline(history));
    seq(|entries|, i requires 0 <= i < |entries| => PresentEntry(entries[i], v))
  }

  function PresentImages(images: seq<Image>): seq<string> {
    seq(|images|, i requires 0 <= i < |images| => images[i].url)
  }

  predicate CanWithdraw(v: R.Viewer, c: Complaint) {
    IsReporter(v, c) && c.status.Pending?
  }

  predicate CanEdit(v: R.Viewer, c: Complaint) {
    IsReporter(v, c) && c.status.Pending? && |c.edits| < R.MAX_EDITS
  }

  function Present(c: Complaint, v: R.Viewer, identities: map<nat, Person>): View {
    View(PresentSummary(c, v), PresentReporter(c), c.version, PresentImages(c.images), c.citizenCategory,
      c.aiStatus, c.aiSummary, c.aiTags, PresentTimeline(c.history, v), c.assignee.Some?, CanEdit(v, c),
      CanWithdraw(v, c),
      if IsStaff(v) then Some(PresentStaff(c, v, identities)) else None)
  }

  // ----- the timeline's order -----

  predicate ByTime(entries: seq<Entry>) {
    forall i, j :: 0 <= i < j < |entries| ==> entries[i].createdAt <= entries[j].createdAt
  }

  lemma {:induction false} InsertAdds(e: Entry, s: seq<Entry>)
    ensures multiset(Insert(e, s)) == multiset(s) + multiset{e}
    decreases |s|
  {
    if s != [] && s[|s| - 1].createdAt > e.createdAt {
      assert s == s[..|s| - 1] + [s[|s| - 1]];
      InsertAdds(e, s[..|s| - 1]);
    }
  }

  predicate AllBy(s: seq<Entry>, at: nat) {
    forall i :: 0 <= i < |s| ==> s[i].createdAt <= at
  }

  lemma AppendKeepsOrder(s: seq<Entry>, e: Entry)
    requires ByTime(s) && AllBy(s, e.createdAt)
    ensures ByTime(s + [e])
  {
  }

  lemma {:induction false} InsertKeepsOrder(e: Entry, s: seq<Entry>)
    requires ByTime(s)
    ensures ByTime(Insert(e, s))
    ensures forall at: nat :: AllBy(s, at) && e.createdAt <= at ==> AllBy(Insert(e, s), at)
    decreases |s|
  {
    if s == [] || s[|s| - 1].createdAt <= e.createdAt {
      AppendKeepsOrder(s, e);
    } else {
      var init, last := s[..|s| - 1], s[|s| - 1];
      InsertKeepsOrder(e, init);
      assert AllBy(init, last.createdAt);
      AppendKeepsOrder(Insert(e, init), last);
      forall at: nat | AllBy(s, at) && e.createdAt <= at ensures AllBy(Insert(e, s), at) {
        assert AllBy(init, at) && AllBy(Insert(e, init), at);
        assert last == s[|s| - 1];
      }
    }
  }

  /** The timeline is in order of time and holds exactly the history's entries. */
  lemma {:induction false} TimelineInOrder(h: seq<Entry>)
    ensures ByTime(SortedTimeline(h)) && multiset(SortedTimeline(h)) == multiset(h)
    decreases |h|
  {
    if h != [] {
      var init, last := h[..|h| - 1], h[|h| - 1];
      assert h == init + [last];
      TimelineInOrder(init);
      InsertKeepsOrder(last, SortedTimeline(init));
      InsertAdds(last, SortedTimeline(init));
    }
  }

  lemma {:induction false} FilterFrom(p: Entry -> bool, s: seq<Entry>)
    ensures forall x :: x in Filter(p, s) ==> x in s && p(x)
    decreases |s|
  {
    if s != [] { FilterFrom(p, s[..|s| - 1]); }
  }

  lemma FilterAppend(p: Entry -> bool, s: seq<Entry>, e: Entry)
    ensures Filter(p, s + [e]) == Filter(p, s) + if p(e) then [e] else []
  {
    assert (s + [e])[..|s|] == s;
  }

  lemma {:induction false} FilterInsert(p: Entry -> bool, e: Entry, s: seq<Entry>)
    requires ByTime(s)
    ensures Filter(p, Insert(e, s)) == if p(e) then Insert(e, Filter(p, s)) else Filter(p, s)
    decreases |s|
  {
    if s == [] || s[|s| - 1].createdAt <= e.createdAt {
      FilterAppend(p, s, e);
      FilterFrom(p, s);
      var f := Filter(p, s);
      if f != [] {
        assert f[|f| - 1] in s;
      }
    } else {
      var init, last := s[..|s| - 1], s[|s| - 1];
      FilterInsert(p, e, init);
      FilterAppend(p, Insert(e, init), last);
      if p(e) && p(last) {
        assert (Filter(p, init) + [last])[..|Filter(p, init)|] == Filter(p, init);
      }
    }
  }

  /** Leaving entries out before or after sorting is the same. */
  lemma {:induction false} FilterCommutes(p: Entry -> bool, h: seq<Entry>)
    ensures Filter(p, SortedTimeline(h)) == SortedTimeline(Filter(p, h))
    decreases |h|
  {
    if h != [] {
      var init, last := h[..|h| - 1], h[|h| - 1];
      FilterCommutes(p, init);
      TimelineInOrder(init);
      FilterInsert(p, last, SortedTimeline(init));
      if p(last) {
        assert (Filter(p, init) + [last])[..|Filter(p, init)|] == Filter(p, init);
      }
    }
  }

  lemma {:induction false} AlreadyInOrder(h: seq<Entry>)
    requires ByTime(h)
    ensures SortedTimeline(h) == h
    decreases |h|
  {
    if h != [] {
      var init, last := h[..|h| - 1], h[|h| - 1];
      AlreadyInOrder(init);
      assert init != [] ==> init[|init| - 1].createdAt <= last.createdAt;
      assert SortedTimeline(h) == init + [last] == h;
    }
  }

  /** Entries of the same time keep the order in which they were recorded. */
  lemma TimelineIsStable(h: seq<Entry>, at: nat)
    ensures Filter((e: Entry) => e.createdAt == at, SortedTimeline(h)) == Filter((e: Entry) => e.createdAt == at, h)
  {
    var p := (e: Entry) => e.createdAt == at;
    FilterCommutes(p, h);
    FilterFrom(p, h);
    var same := Filter(p, h);
    assert forall i :: 0 <= i < |same| ==> same[i] in same;
    AlreadyInOrder(same);
  }

  // ----- the citizen's view -----

  /** What a citizen is told of: everything but changes of category. */
  predicate IsTold(e: Entry) {
    match e.kind
    case Created => true
    case StatusChanged => true
    case PriorityChanged => true
    case Withdrawn => true
    case CategoryChanged => false
  }

  /** Whose doing the event was, and in what role: the account's, else the one recorded at the time. */
  function ActedBy(e: Entry): Option<(nat, Option<R.Role>)> {
    match (e.actor, e.actorSnapshot)
    case (Some(Live(person)), _) => Some((person.id, Some(person.role)))
    case (_, Some(recorded)) => Some((recorded.userId, recorded.role))
    case (Some(Bare(id)), None) => Some((id, None))
    case (None, None) => None
  }

  /** How the actor is named to the viewer. */
  function ActorName(e: Entry, v: R.Viewer): ActorLabel {
    match ActedBy(e)
    case None => System
    case Some((id, role)) =>
      if id == v.id then You
      else if role == Some(R.AdminRole) then Administrator
      else if role == Some(R.AgencyRole) then AgencyStaff
      else if role == Some(R.CitizenRole) then Reporter
      else System
  }

  /** The note is shown as it was written, and an empty one not at all. */
  predicate NoteShown(note: Option<string>, shown: Option<string>) {
    if note.Some? && note.value != "" then shown == note else shown.None?
  }

  /** What everyone who sees the event is shown of it. */
  predicate EventShown(e: Entry, v: R.Viewer, shown: ShownEntry) {
    && shown.id == e.id && shown.kind == e.kind && shown.status == e.status && shown.createdAt == e.createdAt
    && shown.priorityChange == e.priorityChange && NoteShown(e.publicNote, shown.publicNote)
    && shown.actorLabel == ActorName(e, v)
  }

  lemma EventIsShown(e: Entry, v: R.Viewer)
    ensures EventShown(e, v, PresentEntry(e, v))
  {
  }

  /** Both entries were made by no one, by the viewer, or by someone else of the same role. */
  predicate SameActor(a: Entry, b: Entry, v: R.Viewer) {
    match (ActedBy(a), ActedBy(b))
    case (None, None) => true
    case (Some((x, xRole)), Some((y, yRole))) => (x == v.id && y == v.id) || (x != v.id && y != v.id && xRole == yRole)
    case _ => false
  }

  /** The entries differ at most in internal notes and in who else, of the same role, made them. */
  predicate SameEntry(a: Entry, b: Entry, v: R.Viewer) {
    && a.id == b.id && a.kind == b.kind && a.status == b.status && a.priorityChange == b.priorityChange
    && a.publicNote == b.publicNote && a.createdAt == b.createdAt && SameActor(a, b, v)
  }

  predicate SameEntries(a: seq<Entry>, b: seq<Entry>, v: R.Viewer) {
    |a| == |b| && forall i :: 0 <= i < |a| ==> SameEntry(a[i], b[i], v)
  }

  predicate SameImages(a: seq<Image>, b: seq<Image>) {
    |a| == |b| && forall i :: 0 <= i < |a| ==> a[i].url == b[i].url
  }

  /**
   The reports agree on public data. They may differ in category changes, internal notes, other
   people's names and ids, which staff member is assigned, coordinates, the assignment history, the
   contents of edits, and everything about where a classification came from.
   */
  predicate SamePublicly(a: Complaint, b: Complaint, v: R.Viewer) {
    && a.id == b.id && a.referenceCode == b.referenceCode && a.status == b.status && a.priority == b.priority
    && a.description == b.description && a.categoryId == b.categoryId && a.category == b.category
    && a.categorySnapshot == b.categorySnapshot && a.categorySource == b.categorySource
    && a.citizenCategory == b.citizenCategory
    && a.aiStatus == b.aiStatus && a.aiSummary == b.aiSummary && a.aiTags == b.aiTags
    && a.address == b.address && (HasPrecisePosition(a) <==> HasPrecisePosition(b))
    && SameImages(a.images, b.images) && a.reporter == b.reporter && a.reporterSnapshot == b.reporterSnapshot
    && (a.assignee.Some? <==> b.assignee.Some?)
    && SameEntries(Filter(IsTold, a.history), Filter(IsTold, b.history), v)
    && |a.edits| == |b.edits| && a.version == b.version && a.createdAt == b.createdAt && a.updatedAt == b.updatedAt
  }

  lemma {:induction false} InsertSame(e: Entry, f: Entry, s: seq<Entry>, t: seq<Entry>, v: R.Viewer)
    requires SameEntry(e, f, v) && SameEntries(s, t, v)
    ensures SameEntries(Insert(e, s), Insert(f, t), v)
    decreases |s|
  {
    if s != [] && s[|s| - 1].createdAt > e.createdAt {
      InsertSame(e, f, s[..|s| - 1], t[..|t| - 1], v);
    }
  }

  lemma {:induction false} SortSame(s: seq<Entry>, t: seq<Entry>, v: R.Viewer)
    requires SameEntries(s, t, v)
    ensures SameEntries(SortedTimeline(s), SortedTimeline(t), v)
    decreases |s|
  {
    if s != [] {
      SortSame(s[..|s| - 1], t[..|t| - 1], v);
      InsertSame(s[|s| - 1], t[|t| - 1], SortedTimeline(s[..|s| - 1]), SortedTimeline(t[..|t| - 1]), v);
    }
  }

  lemma {:induction false} FilterSame(p: Entry -> bool, q: Entry -> bool, s: seq<Entry>)
    requires forall e :: p(e) == q(e)
    ensures Filter(p, s) == Filter(q, s)
    decreases |s|
  {
    if s != [] { FilterSame(p, q, s[..|s| - 1]); }
  }

  lemma SameEntryShown(a: Entry, b: Entry, v: R.Viewer)
    requires v.role.CitizenRole? && SameEntry(a, b, v)
    ensures PresentEntry(a, v) == PresentEntry(b, v)
  {
  }

  lemma CitizenTimeline(a: seq<Entry>, b: seq<Entry>, v: R.Viewer)
    requires v.role.CitizenRole? && SameEntries(Filter(IsTold, a), Filter(IsTold, b), v)
    ensures SameEntries(Filter(VisibleTo(v), SortedTimeline(a)), Filter(VisibleTo(v), SortedTimeline(b)), v)
  {
    FilterSame(VisibleTo(v), IsTold, SortedTimeline(a));
    FilterSame(VisibleTo(v), IsTold, SortedTimeline(b));
    FilterCommutes(IsTold, a);
    FilterCommutes(IsTold, b);
    SortSame(Filter(IsTold, a), Filter(IsTold, b), v);
  }

  lemma SameTimelineShown(a: seq<Entry>, b: seq<Entry>, v: R.Viewer)
    requires v.role.CitizenRole? && SameEntries(Filter(IsTold, a), Filter(IsTold, b), v)
    ensures PresentTimeline(a, v) == PresentTimeline(b, v)
  {
    CitizenTimeline(a, b, v);
    var x, y := Filter(VisibleTo(v), SortedTimeline(a)), Filter(VisibleTo(v), SortedTimeline(b));
    forall i | 0 <= i < |x| ensures PresentEntry(x[i], v) == PresentEntry(y[i], v) {
      SameEntryShown(x[i], y[i], v);
    }
  }

  lemma SameImagesShown(a: seq<Image>, b: seq<Image>)
    requires SameImages(a, b)
    ensures PresentImages(a) == PresentImages(b)
  {
  }

  lemma SameSummaryShown(a: Complaint, b: Complaint, v: R.Viewer)
    requires v.role.CitizenRole? && SamePublicly(a, b, v)
    ensures PresentSummary(a, v) == PresentSummary(b, v) && PresentReporter(a) == PresentReporter(b)
    ensures CanEdit(v, a) == CanEdit(v, b) && CanWithdraw(v, a) == CanWithdraw(v, b)
  {
  }

  /** A citizen's response is a function of the report's public data. */
  lemma CitizenSeesOnlyPublicData(a: Complaint, b: Complaint, v: R.Viewer,
    ids: map<nat, Person>, others: map<nat, Person>)
    requires v.role.CitizenRole? && SamePublicly(a, b, v)
    ensures Present(a, v, ids) == Present(b, v, others)
    ensures PresentSummary(a, v) == PresentSummary(b, v)
  {
    SameTimelineShown(a.history, b.history, v);
    SameImagesShown(a.images, b.images);
    SameSummaryShown(a, b, v);
  }

  /** The same event, as far as the reporter is told of it. */
  predicate ToldAlike(a: Entry, b: Entry, v: R.Viewer) {
    a.id == b.id && a.kind == b.kind && a.status == b.status && a.priorityChange == b.priorityChange
    && a.publicNote.GetOr("") == b.publicNote.GetOr("") && a.createdAt == b.createdAt
    && ActorName(a, v) == ActorName(b, v)
  }

  lemma ShownAlike(a: Entry, b: Entry, v: R.Viewer)
    requires PresentEntry(a, v) == PresentEntry(b, v)
    ensures ToldAlike(a, b, v)
  {
    EventIsShown(a, v);
    EventIsShown(b, v);
  }

  lemma TimelineTells(a: seq<Entry>, b: seq<Entry>, v: R.Viewer)
    requires v.role.CitizenRole? && PresentTimeline(a, v) == PresentTimeline(b, v)
    ensures
      var x, y := SortedTimeline(Filter(IsTold, a)), SortedTimeline(Filter(IsTold, b));
      |x| == |y| && forall i :: 0 <= i < |x| ==> ToldAlike(x[i], y[i], v)
  {
    FilterSame(VisibleTo(v), IsTold, SortedTimeline(a));
    FilterSame(VisibleTo(v), IsTold, SortedTimeline(b));
    FilterCommutes(IsTold, a);
    FilterCommutes(IsTold, b);
    var x, y := SortedTimeline(Filter(IsTold, a)), SortedTimeline(Filter(IsTold, b));
    var s, t := PresentTimeline(a, v), PresentTimeline(b, v);
    assert |s| == |x| && |t| == |y|;
    forall i | 0 <= i < |x| ensures ToldAlike(x[i], y[i], v) {
      assert s[i] == PresentEntry(x[i], v) && t[i] == PresentEntry(y[i], v);
      ShownAlike(x[i], y[i], v);
    }
  }

  lemma ImagesTell(a: seq<Image>, b: seq<Image>)
    requires PresentImages(a) == PresentImages(b)
    ensures SameImages(a, b)
  {
    assert |PresentImages(a)| == |a| && |PresentImages(b)| == |b|;
    forall i | 0 <= i < |a| ensures a[i].url == b[i].url {
      assert PresentImages(a)[i] == a[i].url && PresentImages(b)[i] == b[i].url;
    }
  }

  /**
   Nothing public is withheld: equal responses come from reports that agree on all of it, event by event
   in order of time.
   */
  lemma CitizenSeesAllPublicData(a: Complaint, b: Complaint, v: R.Viewer,
    ids: map<nat, Person>, others: map<nat, Person>)
    requires v.role.CitizenRole? && Present(a, v, ids) == Present(b, v, others)
    ensures a.id == b.id && a.referenceCode == b.referenceCode && a.status == b.status && a.priority == b.priority
    ensures a.description == b.description && a.address == b.address && a.version == b.version
    ensures PresentCategory(a) == PresentCategory(b) && a.categorySource == b.categorySource
    ensures a.citizenCategory == b.citizenCategory && PresentReporter(a) == PresentReporter(b)
    ensures a.aiStatus == b.aiStatus && a.aiSummary == b.aiSummary && a.aiTags == b.aiTags
    ensures HasPrecisePosition(a) == HasPrecisePosition(b) && SameImages(a.images, b.images)
    ensures a.createdAt == b.createdAt && a.updatedAt == b.updatedAt
    ensures a.assignee.Some? == b.assignee.Some? && CanEdit(v, a) == CanEdit(v, b)
    ensures CanWithdraw(v, a) == CanWithdraw(v, b)
    ensures
      var x, y := SortedTimeline(Filter(IsTold, a.history)), SortedTimeline(Filter(IsTold, b.history));
      |x| == |y| && forall i :: 0 <= i < |x| ==> ToldAlike(x[i], y[i], v)
  {
    var s, t := Present(a, v, ids), Present(b, v, others);
    assert s.summary == PresentSummary(a, v) && t.summary == PresentSummary(b, v);
    assert s.images == PresentImages(a.images) && t.images == PresentImages(b.images);
    assert s.timeline == PresentTimeline(a.history, v) && t.timeline == PresentTimeline(b.history, v);
    ImagesTell(a.images, b.images);
    TimelineTells(a.history, b.history, v);
  }

  // ----- what is shown, field by field -----

  /** A live account shows its present name and role; of a gone one, no name. */
  predicate NamesAccount(ref: Option<Ref>, id: nat, role: Option<R.Role>, shown: Identity) {
    match ref
    case Some(Live(person)) =>
      && shown.userId == person.id && shown.role == Some(person.role)
      && shown.displayName == if person.retired then "Retired account" else person.name
    case _ => shown == Identity(id, "Unavailable account", role)
  }

  /** The category as it is, and the name recorded when the report got it. */
  predicate CategoryShown(c: Complaint, shown: ShownCategory) {
    && (c.category.Some? ==>
          shown.id == c.category.value.id && shown.name == c.category.value.name && !shown.deleted
          && shown.active == c.category.value.active)
    && (c.category.None? ==> shown.deleted && !shown.active && shown.name == shown.recordedName)
    && (c.categorySnapshot.Some? ==> shown.recordedName == c.categorySnapshot.value.name)
    && (c.category.None? ==>
          shown.id == if c.categorySnapshot.Some? then c.categorySnapshot.value.id else c.categoryId)
  }

  predicate SummaryShown(c: Complaint, s: Summary) {
    && s.id == c.id && s.referenceCode == c.referenceCode && s.status == c.status && s.priority == c.priority
    && s.description == c.description && CategoryShown(c, s.category) && s.categorySource == c.categorySource
    && s.aiStatus == c.aiStatus && s.address == c.address && s.createdAt == c.createdAt && s.updatedAt == c.updatedAt
    && (s.hasPrecisePosition <==> c.coordinates.latitude.Some? && c.coordinates.longitude.Some?)
    && s.imageCount == |c.images| && s.thumbnailUrl == if c.images == [] then None else Some(c.images[0].url)
  }

  /** What the reporter and staff are both shown, beside the timeline. */
  predicate BasicsShown(c: Complaint, v: R.Viewer, s: View) {
    && SummaryShown(c, s.summary) && s.version == c.version && s.citizenCategory == c.citizenCategory
    && s.aiStatus == c.aiStatus && s.aiSummary == c.aiSummary && s.aiTags == c.aiTags
    && |s.images| == |c.images| && (forall i :: 0 <= i < |c.images| ==> s.images[i] == c.images[i].url)
    && NamesAccount(Some(c.reporter), c.reporterSnapshot.GetOr(Snapshot(IdOf(c.reporter), None)).userId,
                    c.reporterSnapshot.GetOr(Snapshot(IdOf(c.reporter), None)).role, s.reporter)
    && (s.isAssigned <==> c.assignee.Some?)
    && (s.canWithdraw <==> IdOf(c.reporter) == v.id && c.status.Pending?)
    && (s.canEdit <==> IdOf(c.reporter) == v.id && c.status.Pending? && |c.edits| < 20)
  }

  lemma BasicsAreShown(c: Complaint, v: R.Viewer, ids: map<nat, Person>)
    ensures BasicsShown(c, v, Present(c, v, ids)) && SummaryShown(c, PresentSummary(c, v))
  {
  }

  /**
   A citizen is shown every event but changes of category, once and in order of time, without internal
   notes; no coordinates, no provenance, no assignment history, no edits, and nobody's name but the reporter's.
   */
  lemma CitizenIsShown(c: Complaint, v: R.Viewer, ids: map<nat, Person>)
    requires v.role.CitizenRole?
    ensures
      var s, x := Present(c, v, ids), SortedTimeline(Filter(IsTold, c.history));
      && s.staff.None? && s.summary.staff.None? && PresentSummary(c, v).staff.None? && BasicsShown(c, v, s)
      && |s.timeline| == |x|
      && forall i :: 0 <= i < |x| ==> EventShown(x[i], v, s.timeline[i]) && s.timeline[i].staff.None?
  {
    FilterSame(VisibleTo(v), IsTold, SortedTimeline(c.history));
    FilterCommutes(IsTold, c.history);
    BasicsAreShown(c, v, ids);
    var x := SortedTimeline(Filter(IsTold, c.history));
    assert |PresentTimeline(c.history, v)| == |x|;
    forall i | 0 <= i < |x| ensures PresentTimeline(c.history, v)[i] == PresentEntry(x[i], v) {
    }
    forall i | 0 <= i < |x| ensures EventShown(x[i], v, PresentTimeline(c.history, v)[i]) { EventIsShown(x[i], v); }
  }

  /** What staff are shown of an event beyond that: the internal note, the change of category and who did it. */
  predicate StaffEventShown(e: Entry, shown: ShownEntry) {
    && shown.staff.Some? && NoteShown(e.internalNote, shown.staff.value.internalNote)
    && shown.staff.value.categoryChange == e.categoryChange
    && (match ActedBy(e)
        case None => shown.staff.value.actor.None?
        case Some((id, role)) =>
          shown.staff.value.actor.Some? && NamesAccount(e.actor, id, role, shown.staff.value.actor.value))
  }

  predicate AssigneeShown(c: Complaint, shown: Option<Identity>) {
    if c.assignee.None? then shown.None?
    else shown.Some? && NamesAccount(c.assignee, IdOf(c.assignee.value), None, shown.value)
  }

  /** Administrators manage every report, agency staff the ones assigned to them. */
  predicate Manages(v: R.Viewer, c: Complaint) {
    match v.role
    case AdminRole => true
    case AgencyRole => c.assignee.Some? && IdOf(c.assignee.value) == v.id
    case CitizenRole => false
  }

  /** A person the record names, shown as the account is now, if it still is. */
  predicate PersonShown(recorded: Option<Snapshot>, ids: map<nat, Person>, shown: Option<Identity>) {
    if recorded.None? then shown.None?
    else
      var id := recorded.value.userId;
      && shown.Some?
      && NamesAccount(if id in ids then Some(Live(ids[id])) else None, id, recorded.value.role, shown.value)
  }

  predicate StaffPartShown(c: Complaint, v: R.Viewer, ids: map<nat, Person>, s: StaffView) {
    && s.coordinates == c.coordinates && s.provenance == c.provenance && AssigneeShown(c, s.assignee)
    && s.resolvedAt == c.resolvedAt && s.resolvedAtEstimated == c.resolvedAtEstimated
    && |s.moves| == |c.moves| && |s.edits| == |c.edits|
    && (forall i :: 0 <= i < |c.moves| ==>
          s.moves[i].kind == c.moves[i].kind && s.moves[i].createdAt == c.moves[i].createdAt
          && NoteShown(c.moves[i].reason, s.moves[i].reason)
          && PersonShown(c.moves[i].previous, ids, s.moves[i].previous)
          && PersonShown(c.moves[i].next, ids, s.moves[i].next)
          && PersonShown(c.moves[i].mover, ids, s.moves[i].mover))
    && (forall i :: 0 <= i < |c.edits| ==>
          s.edits[i].editedAt == c.edits[i].editedAt && s.edits[i].fields == c.edits[i].fields
          && s.edits[i].reanalysed == c.edits[i].reanalysed
          && PersonShown(c.edits[i].editor, ids, s.edits[i].editor))
    && (forall to :: to in s.allowedTransitions <==> Manages(v, c) && R.Allowed(c.status, to))
    && (s.canManage <==> Manages(v, c) && !c.status.Withdrawn?)
    && (s.canAssign <==> v.role.AdminRole? && !c.status.Withdrawn?)
  }

  lemma StaffPartIsShown(c: Complaint, v: R.Viewer, ids: map<nat, Person>)
    ensures StaffPartShown(c, v, ids, PresentStaff(c, v, ids))
  {
    forall to | Manages(v, c) && R.Allowed(c.status, to) ensures to in AllStatuses {}
  }

  lemma StaffEventIsShown(e: Entry, v: R.Viewer)
    requires v.role.AdminRole? || v.role.AgencyRole?
    ensures StaffEventShown(e, PresentEntry(e, v))
  {
  }

  lemma {:induction false} FilterAll(p: Entry -> bool, s: seq<Entry>)
    requires forall e :: p(e)
    ensures Filter(p, s) == s
    decreases |s|
  {
    if s != [] { FilterAll(p, s[..|s| - 1]); }
  }

  /** Administrators and agency staff are shown every event in order of time, with its internal side, and the rest. */
  lemma StaffAreShown(c: Complaint, v: R.Viewer, ids: map<nat, Person>)
    requires v.role.AdminRole? || v.role.AgencyRole?
    ensures
      var s, x := Present(c, v, ids), SortedTimeline(c.history);
      && BasicsShown(c, v, s) && s.staff.Some? && StaffPartShown(c, v, ids, s.staff.value)
      && s.summary.staff.Some? && s.summary.staff.value.reporter == s.reporter
      && s.summary.staff.value.disagreement == c.provenance.disagreement
      && AssigneeShown(c, s.summary.staff.value.assignee)
      && |s.timeline| == |x|
      && forall i :: 0 <= i < |x| ==> EventShown(x[i], v, s.timeline[i]) && StaffEventShown(x[i], s.timeline[i])
  {
    var x := SortedTimeline(c.history);
    FilterAll(VisibleTo(v), x);
    BasicsAreShown(c, v, ids);
    StaffPartIsShown(c, v, ids);
    assert |PresentTimeline(c.history, v)| == |x|;
    forall i | 0 <= i < |x|
      ensures PresentTimeline(c.history, v)[i] == PresentEntry(x[i], v)
      ensures EventShown(x[i], v, PresentEntry(x[i], v)) && StaffEventShown(x[i], PresentEntry(x[i], v))
    {
      EventIsShown(x[i], v);
      StaffEventIsShown(x[i], v);
    }
  }
}
