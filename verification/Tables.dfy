/**
 What the orchestrator keeps (src/orchestrator/mod.rs, negotiation.rs, subscription.rs,
 transports.rs, tracks.rs, plane.rs), and what it means for the tables to agree with
 each other and with the shard.
 */
module Tables {
  import opened Words
  import opened Collections
  import opened Wrappers
  import opened Ssrc
  import opened Shard

  type Pid = nat
  type Room = nat

  const MAX_MEDIA_SECTIONS: nat := 32
  const MAX_TRACKS_PER_REQUEST: nat := 10
  const MAX_REOFFERS: nat := 1
  const MAX_TRANSPORTS: nat := 0x10_0000
  const MAX_CLOSING: nat := 4096

  datatype Kind = Audio | Video

  /** A subscribe m-line: the forwarded track, its subscription id and out SSRC. */
  datatype Slot = Slot(track: Tid, sub: SubId, ssrc: u32, onShard: bool)
  datatype Role = Publish | Subscribe(slot: Slot) | Inactive
  datatype Mline = Mline(mid: nat, kind: Kind, role: Role)

  datatype Offer = Offer(version: nat, mlines: seq<Mline>)

  /** One participant's negotiation state. */
  datatype Neg = Neg(
    session: Option<Sid>,
    published: seq<Tid>,
    offerPending: bool,
    renegotiate: bool,
    nextMid: nat,
    mlines: seq<Mline>,
    awaiting: seq<nat>,
    queued: Option<seq<Kind>>,
    lastIds: seq<Tid>,
    invalidAnswers: nat,
    version: nat)

  const NEW_NEG := Neg(None, [], false, false, 0, [], [], None, [], 0, 0)

  datatype SubState = Negotiating | Active
  datatype Subscription = Subscription(track: Tid, state: SubState)

  datatype Handle = Handle(room: Option<Room>, published: seq<Tid>)

  datatype DtlsState = Running | Complete | Failed | Freed

  /** What a handshake call may do: finish once from `Running`, fail, or nothing. */
  predicate DtlsMoves(from: DtlsState, to: DtlsState, completed: bool) {
    if completed then from == Running && to == Complete else to == from || to == Failed
  }

  /** The same, and whether the call reported failure; if neither, it changed nothing. */
  predicate DtlsStepped(from: DtlsState, to: DtlsState, failed: bool, completed: bool) {
    && DtlsMoves(from, to, completed)
    && (failed ==> to == Failed && !completed) && (!failed && !completed ==> to == from)
  }

  datatype Entry = Entry(participant: Pid, ssrcs: Allocator, dtls: DtlsState, srtpInstalled: bool)

  datatype Track = Track(publisher: Pid, session: Sid, room: Room, kind: Kind, mid: nat, ssrc: Option<u32>)

  datatype Reason = Overloaded | DtlsFailed | IceFailed | ConsentExpired | Internal

  datatype Closing = Closing(participant: Pid, reason: Reason)

  datatype ErrorCode =
    | NotInRoom | TooManyTracks | SessionFailed | InvalidAnswer | OfferFailed | SsrcExhausted
    | AlreadyInRoom | JoinFailed | InvalidTrack | SsrcCollision | DuplicateSsrc | SubscribeFailed | NotOwner
    | Closed(reason: Reason)

  datatype Signal =
    | Error(code: ErrorCode)
    | Published(track: Tid, mid: nat)
    | Subscribed(tracks: seq<Tid>)
    | Unsubscribed(tracks: seq<Tid>)

  /**
   The plane's tables, and what the code cannot see:
   `shard` the tables the accepted commands produced, `rejects` what the shard refused,
   `refused` how often the queue was full, `lost` the participants whose tables may differ
   from the shard because a push of theirs failed, `dropped` those of them that the shard
   refused or that did not fit the closing list, `leaked` the sessions whose close was given up, and `owner` who each
   subscription id was made for.
   */
  datatype PlaneView = PlaneView(
    entries: map<Sid, Entry>,
    byParticipant: map<Pid, Sid>,
    tracks: map<Tid, Track>,
    nextSession: nat,
    nextTrack: nat,
    nextSub: nat,
    closing: seq<Closing>,
    pendingClose: seq<Sid>,
    outbox: map<Pid, seq<Signal>>,
    offers: map<Pid, seq<Offer>>,
    shard: Shard.Tables,
    rejects: seq<Reject>,
    refused: nat,
    lost: set<Pid>,
    dropped: set<Pid>,
    leaked: set<Sid>,
    owner: map<SubId, Pid>)

  datatype World = World(sessions: map<Pid, Handle>, neg: map<Pid, Neg>, plane: PlaneView)

  /**
   What a step in progress may leave unfinished: `gone` are tracks already taken off the
   shard whose subscribers were not told yet; `open` are mids of `who` whose answer is being
   registered; `taken` are participants just taken off the closing list.
   */
  datatype Slack = Slack(gone: set<Tid>, who: Pid, open: set<nat>, taken: set<Pid>)

  const SETTLED := Slack({}, 0, {}, {})

  /**
   The larger predicates below are sealed: what they say is used in a proof only after
   `assert Open(0)`. A proof that only passes them on never looks inside.
   */
  ghost predicate Open(i: int) {
    true
  }

  // ── Small vocabulary ─────────────────────────────────────────────

  predicate SlotAt(ms: seq<Mline>, i: int) {
    0 <= i < |ms| && ms[i].role.Subscribe?
  }

  predicate PublishAt(ms: seq<Mline>, i: int) {
    0 <= i < |ms| && ms[i].role.Publish?
  }

  function SlotIndices(ms: seq<Mline>): set<int> {
    set i | 0 <= i < |ms| && ms[i].role.Subscribe?
  }

  /** An m-line of `ms` carries subscription `sub` to `track` on the shard. */
  ghost predicate Carries(ms: seq<Mline>, sub: SubId, track: Tid) {
    exists i :: SlotAt(ms, i) && ms[i].role.slot.onShard && ms[i].role.slot.sub == sub && ms[i].role.slot.track == track
  }

  predicate InClosing(closing: seq<Closing>, p: Pid) {
    exists i :: 0 <= i < |closing| && closing[i].participant == p
  }

  predicate IsClosing(v: PlaneView, p: Pid) {
    InClosing(v.closing, p)
  }

  /** Sessions still on the shard that the tables no longer know. */
  ghost function Zombies(v: PlaneView): set<Sid> {
    (set i | 0 <= i < |v.pendingClose| :: v.pendingClose[i]) + v.leaked
  }

  function Queued(n: Neg): nat {
    if n.queued.Some? then |n.queued.value| else 0
  }

  function OpenMids(p: Pid, k: Slack): set<nat> {
    if p == k.who then k.open else {}
  }

  // ── The tables among themselves ──────────────────────────────────

  ghost predicate Domains(w: World) {
    && w.sessions.Keys == w.neg.Keys
    && 0 !in w.neg
    && w.neg.Keys <= w.plane.outbox.Keys
    && w.neg.Keys <= w.plane.offers.Keys
  }

  /** The session and participant maps are inverse to each other and to the negotiation states. */
  ghost predicate Transports(w: World)
  {
    forall i {:trigger Open(i)} :: Open(i) ==> TransportsDef(w)
  }

  ghost predicate TransportsDef(w: World) {
    && (forall id :: id in w.plane.entries ==> EntryOk(w, id))
    && (forall p :: p in w.neg ==> SessionKnown(w, p))
    && (forall p :: p in w.plane.byParticipant ==> MappedBack(w.plane, p))
  }

  ghost predicate EntryOk(w: World, id: Sid)
    requires id in w.plane.entries
  {
    var p := w.plane.entries[id].participant;
    && 0 < id < w.plane.nextSession
    && p in w.neg && w.neg[p].session == Some(id)
    && p in w.plane.byParticipant && w.plane.byParticipant[p] == id
  }

  ghost predicate SessionKnown(w: World, p: Pid)
    requires p in w.neg
  {
    w.neg[p].session.Some? ==>
      w.neg[p].session.value in w.plane.entries && w.plane.entries[w.neg[p].session.value].participant == p
  }

  ghost predicate MappedBack(v: PlaneView, p: Pid)
    requires p in v.byParticipant
  {
    v.byParticipant[p] in v.entries && v.entries[v.byParticipant[p]].participant == p
  }

  ghost predicate TrackOk(w: World, t: Tid)
    requires t in w.plane.tracks
  {
    var i := w.plane.tracks[t];
    && 0 < t < w.plane.nextTrack
    && i.publisher in w.neg
    && i.publisher in w.sessions
    && w.neg[i.publisher].session == Some(i.session)
    && w.sessions[i.publisher].room == Some(i.room)
    && t in w.neg[i.publisher].published
    && PublishAt(w.neg[i.publisher].mlines, i.mid)
  }

  ghost predicate Registry(w: World)
  {
    forall i {:trigger Open(i)} :: Open(i) ==> RegistryDef(w)
  }

  ghost predicate RegistryDef(w: World) {
    var ts := w.plane.tracks;
    && (forall t :: t in ts ==> TrackOk(w, t))
    && (forall t, u :: t in ts && u in ts && t != u && ts[t].publisher == ts[u].publisher ==>
          ts[t].mid != ts[u].mid && (ts[t].ssrc.Some? ==> ts[t].ssrc != ts[u].ssrc))
  }

  // ── One participant's m-lines ────────────────────────────────────

  /** Mids are positions, and never more than an offer may carry. */
  predicate Shape(n: Neg) {
    && |n.mlines| <= MAX_MEDIA_SECTIONS
    && n.nextMid == |n.mlines|
    && (forall i :: 0 <= i < |n.mlines| ==> n.mlines[i].mid == i)
    && (n.session.None? ==> n.mlines == [] && !n.offerPending && n.version == 0)
  }

  /** `m` is a publish m-line whose track is not registered. */
  predicate Unregistered(n: Neg, ts: map<Tid, Track>, m: nat) {
    && PublishAt(n.mlines, m)
    && forall t :: t in n.published && t in ts ==> ts[t].mid != m
  }

  /** Publish m-lines are exactly those of published tracks and those awaiting an answer. */
  ghost predicate PublishLines(p: Pid, n: Neg, ts: map<Tid, Track>, open: set<nat>) {
    && (forall t :: t in n.published ==> t in ts && ts[t].publisher == p)
    && NoDup(n.published)
    && NoDup(n.awaiting)
    && (forall m :: m in n.awaiting ==> m !in open && Unregistered(n, ts, m))
    && (forall m :: m in open ==> Unregistered(n, ts, m))
    && (forall i :: PublishAt(n.mlines, i) ==>
          i in n.awaiting || i in open || exists t :: t in n.published && t in ts && ts[t].mid == i)
    && |n.published| + |n.awaiting| + |open| + Queued(n) <= MAX_TRACKS_PER_SESSION
  }

  ghost predicate SlotOk(w: World, p: Pid, a: Allocator, slot: Slot, gone: set<Tid>)
    requires p in w.neg && p in w.sessions
  {
    && slot.sub in w.plane.owner && w.plane.owner[slot.sub] == p
    && (slot.track in gone ||
        (slot.track in w.plane.tracks && w.sessions[p].room == Some(w.plane.tracks[slot.track].room)))
    && 0 < OffsetOf(a, slot.ssrc) < a.next
    && (slot.onShard ==> IsStale(a, slot.ssrc))
    && (!slot.onShard && w.neg[p].offerPending ==> !IsStale(a, slot.ssrc))
  }

  ghost predicate SlotsDistinct(ms: seq<Mline>) {
    forall i, j :: SlotAt(ms, i) && SlotAt(ms, j) && i != j ==>
      var (x, y) := (ms[i].role.slot, ms[j].role.slot);
      x.track != y.track && x.sub != y.sub && x.ssrc != y.ssrc
  }

  ghost predicate SubscribeLines(w: World, p: Pid, gone: set<Tid>)
    requires p in w.neg && p in w.sessions
  {
    var n := w.neg[p];
    && SlotsDistinct(n.mlines)
    && |SlotIndices(n.mlines)| <= MAX_SUBS_PER_SESSION
    && (n.session.Some? ==>
          && n.session.value in w.plane.entries
          && forall i :: SlotAt(n.mlines, i) ==>
               SlotOk(w, p, w.plane.entries[n.session.value].ssrcs, n.mlines[i].role.slot, gone))
  }

  /**
   Offer/answer discipline: versions count the offers, no offered m-line moves, changes its
   kind or disappears, and the outstanding offer carries exactly the m-lines there are.
   */
  predicate Discipline(n: Neg, os: seq<Offer>) {
    && |os| == n.version
    && (forall j :: 0 <= j < |os| ==> os[j].version == j + 1 && Extends(os[j].mlines, n.mlines))
    && (forall j :: 0 < j < |os| ==> Extends(os[j-1].mlines, os[j].mlines))
    && (n.offerPending ==> |os| > 0 && |os[|os|-1].mlines| == |n.mlines|)
  }

  /** Every m-line of `xs` is in `ys`, at the same position, with the same mid and kind. */
  predicate Extends(xs: seq<Mline>, ys: seq<Mline>) {
    |xs| <= |ys| && forall i :: 0 <= i < |xs| ==> xs[i].mid == ys[i].mid && xs[i].kind == ys[i].kind
  }

  ghost predicate Lines(w: World, p: Pid, k: Slack)
    requires p in w.neg
  {
    forall i {:trigger Open(i)} :: Open(i) ==> LinesDef(w, p, k)
  }

  ghost predicate LinesDef(w: World, p: Pid, k: Slack)
    requires p in w.neg
  {
    && p in w.sessions && p in w.plane.offers
    && Shape(w.neg[p])
    && PublishLines(p, w.neg[p], w.plane.tracks, OpenMids(p, k))
    && SubscribeLines(w, p, k.gone)
    && Discipline(w.neg[p], w.plane.offers[p])
  }

  // ── The tables and the shard ─────────────────────────────────────

  ghost predicate SessionOk(v: PlaneView, id: Sid)
    requires id in v.entries
  {
    var e := v.entries[id];
    && Valid(e.ssrcs)
    && id in v.shard.sessions
    && v.shard.sessions[id].base == e.ssrcs.base
    && v.shard.sessions[id].lastOffset <= e.ssrcs.high
    && (v.shard.sessions[id].srtp ==> e.srtpInstalled)
    && (e.srtpInstalled ==> e.dtls != Running)
    && (e.participant !in v.lost ==>
          && v.shard.sessions[id].lastOffset == e.ssrcs.high
          && v.shard.sessions[id].srtp == e.srtpInstalled)
  }

  /** Sessions on the shard are the table's plus the ones waiting to be closed (or leaked). */
  ghost predicate ShardSessions(v: PlaneView)
  {
    forall i {:trigger Open(i)} :: Open(i) ==> ShardSessionsDef(v)
  }

  ghost predicate ShardSessionsDef(v: PlaneView) {
    && v.shard.sessions.Keys == v.entries.Keys + Zombies(v)
    && v.entries.Keys !! Zombies(v)
    && NoDup(v.pendingClose)
    && (forall i :: 0 <= i < |v.pendingClose| ==> v.pendingClose[i] !in v.leaked)
    && (forall id :: id in Zombies(v) ==> 0 < id < v.nextSession)
    && (forall id :: id in v.entries ==> SessionOk(v, id))
  }

  ghost predicate ShardTracks(v: PlaneView)
  {
    forall i {:trigger Open(i)} :: Open(i) ==> ShardTracksDef(v)
  }

  ghost predicate ShardTracksDef(v: PlaneView) {
    && (forall t :: t in v.shard.tracks ==>
          && 0 < t < v.nextTrack
          && (t in v.tracks || v.shard.tracks[t].session in Zombies(v)))
    && (forall t :: t in v.tracks ==>
          && t in v.shard.tracks
          && v.shard.tracks[t] == ShardTrack(v.tracks[t].session, v.tracks[t].ssrc))
  }

  /** Why the shard has subscription `x`. */
  ghost predicate Explained(w: World, x: SubId)
    requires x in w.plane.shard.subs && x in w.plane.owner && Linked(w.plane.shard)
  {
    var (v, s, q) := (w.plane, w.plane.shard.subs[x], w.plane.owner[x]);
    || s.session in Zombies(v)
    || v.shard.tracks[s.track].session in Zombies(v)
    || (q in w.neg && w.neg[q].session == Some(s.session) && (q in v.lost || Carries(w.neg[q].mlines, x, s.track)))
  }

  ghost predicate ShardSubs(w: World, gone: set<Tid>)
  {
    forall i {:trigger Open(i)} :: Open(i) ==> ShardSubsDef(w, gone)
  }

  ghost predicate ShardSubsDef(w: World, gone: set<Tid>) {
    && Linked(w.plane.shard)
    && (forall x :: x in w.plane.shard.subs ==> x in w.plane.owner && Explained(w, x))
    && (forall p, i :: p in w.neg && p !in w.plane.lost && SlotAt(w.neg[p].mlines, i) ==>
          OnShardTruly(w, p, w.neg[p].mlines[i].role.slot, gone))
    && (forall p, i :: p in w.neg && SlotAt(w.neg[p].mlines, i) ==> OffShardTruly(w, w.neg[p].mlines[i].role.slot))
  }

  /** A subscription the answer has not accepted yet is unknown to the shard. */
  ghost predicate OffShardTruly(w: World, slot: Slot) {
    !slot.onShard ==> slot.sub !in w.plane.shard.subs
  }

  ghost predicate OnShardTruly(w: World, p: Pid, slot: Slot, gone: set<Tid>)
    requires p in w.neg
  {
    slot.onShard && slot.track !in gone ==>
      && slot.sub in w.plane.shard.subs
      && w.neg[p].session == Some(w.plane.shard.subs[slot.sub].session)
      && w.plane.shard.subs[slot.sub].track == slot.track
      && w.plane.shard.subs[slot.sub].outSsrc == slot.ssrc
  }

  /** Nothing differs as long as the queue never refused. */
  ghost predicate Quiet(v: PlaneView) {
    v.refused == 0 ==> v.pendingClose == [] && v.leaked == {} && v.lost == {} && v.rejects == []
  }

  ghost predicate Books(v: PlaneView, taken: set<Pid>)
  {
    forall i {:trigger Open(i)} :: Open(i) ==> BooksDef(v, taken)
  }

  ghost predicate BooksDef(v: PlaneView, taken: set<Pid>) {
    && (forall x :: x in v.owner ==> x < v.nextSub)
    && 0 < v.nextSession && 0 < v.nextTrack
    && (forall i, j :: 0 <= i < j < |v.closing| ==> v.closing[i].participant != v.closing[j].participant)
    && (forall p :: p in v.lost ==> p in v.dropped || p in taken || IsClosing(v, p))
    && (forall i :: 0 <= i < |v.rejects| ==> v.rejects[i].SubscriptionLimit? || v.rejects[i].UnknownSubscription?)
    && Quiet(v)
  }

  ghost predicate Core(w: World, k: Slack) {
    && Domains(w)
    && Transports(w)
    && Registry(w)
    && (forall p :: p in w.neg ==> Lines(w, p, k))
    && ShardSessions(w.plane)
    && ShardTracks(w.plane)
    && ShardSubs(w, k.gone)
    && Books(w.plane, k.taken)
  }
}
