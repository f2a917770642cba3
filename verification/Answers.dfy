/** What an answer does to the publish and subscribe m-lines it answers (negotiation.rs). */
module Answers {
  import opened Words
  import opened Collections
  import opened Wrappers
  import opened Ssrc
  import opened Shard
  import opened Tables
  import opened Updates
  import opened Commands
  import opened Publishing
  import opened Lifecycle
  import opened Mlines
  import opened Offers
  import opened Steps
  import opened Protocol

  /** What `track_spec` makes of a publish m-line: declined, unusable, or a track. */
  datatype TrackSpec = NoTrack | BadTrack | Spec(kind: Kind, ssrc: Option<u32>)

  /** What `sub_spec` makes of a subscribe m-line. */
  datatype SubSpec = Declined | Mismatched | Accept

  datatype AnswerMline = AnswerMline(mid: Option<nat>, track: TrackSpec, sub: SubSpec, ssrcs: seq<u32>)

  /** An answer as the SDP parser sees it; `dtls` says that it has a usable role and fingerprint. */
  datatype Answer = Malformed | Parsed(dtls: bool, media: seq<AnswerMline>)

  datatype Acceptance = NotExpected | Invalid | Expected(id: Sid, dtls: bool, media: seq<AnswerMline>)

  /** One m-line per offered m-line, same mids, same order. */
  predicate MidsMatch(media: seq<AnswerMline>, mlines: seq<Mline>) {
    |media| == |mlines| && forall i :: 0 <= i < |media| ==> media[i].mid == Some(mlines[i].mid)
  }

  // ── The peer's SSRCs ─────────────────────────────────────────────

  /** `note_peer_ssrc` for each, until one is refused. */
  function NoteAll(a: Allocator, ssrcs: seq<u32>): (Allocator, bool)
    decreases |ssrcs|
  {
    if ssrcs == [] then (a, true)
    else if !NoteAccepted(a, ssrcs[0]) then (a, false)
    else NoteAll(AfterNote(a, ssrcs[0]), ssrcs[1..])
  }

  lemma NoteStep(w: World, u: World, p: Pid, ssrc: u32, k: Slack)
    requires Sound(w, k) && p in w.neg && w.neg[p].session.Some? && w.neg[p].session.value in w.plane.entries
    requires u == Noted(w, w.neg[p].session.value, ssrc)
    ensures Sound(u, k)
  {
    assert Look(0);
    NotedKeeps(w, p, ssrc, k);
  }

  /** Only the allocator of session `id` differs. */
  ghost predicate NotedIn(w: World, u: World, id: Sid) {
    && id in w.plane.entries && id in u.plane.entries
    && u == w.(plane :=
         w.plane.(entries := w.plane.entries[id := w.plane.entries[id].(ssrcs := u.plane.entries[id].ssrcs)]))
    && u.plane.entries[id].ssrcs == w.plane.entries[id].ssrcs.(peers := u.plane.entries[id].ssrcs.peers)
  }

  lemma NotedNone(w: World, id: Sid)
    requires id in w.plane.entries
    ensures NotedIn(w, w, id)
  {
  }

  lemma NotedTwice(w: World, a: World, u: World, id: Sid)
    requires NotedIn(w, a, id) && NotedIn(a, u, id)
    ensures NotedIn(w, u, id)
  {
  }

  /** `p`'s session has the same SSRC base and mark. */
  ghost predicate SameMarks(w: World, u: World, p: Pid) {
    && p in w.neg && p in u.neg && u.neg[p].session == w.neg[p].session
    && (w.neg[p].session.Some? && w.neg[p].session.value in w.plane.entries ==>
          var id := w.neg[p].session.value;
          && id in u.plane.entries
          && u.plane.entries[id].ssrcs.base == w.plane.entries[id].ssrcs.base
          && u.plane.entries[id].ssrcs.high == w.plane.entries[id].ssrcs.high)
  }

  // ── Publish m-lines ──────────────────────────────────────────────

  /** A new track of `p` on m-line `mid`, in the registry and in `p`'s list. */
  ghost predicate TrackMade(w: World, u: World, p: Pid, mid: nat, spec: TrackSpec) {
    && p in w.neg && p in u.neg && p in w.sessions && w.sessions[p].room.Some? && w.neg[p].session.Some? && spec.Spec?
    && var t := w.plane.nextTrack;
       && t !in w.plane.tracks
       && u.neg[p] == w.neg[p].(published := w.neg[p].published + [t])
       && u.plane.tracks ==
            w.plane.tracks[t := Track(p, w.neg[p].session.value, w.sessions[p].room.value, spec.kind, mid, spec.ssrc)]
  }

  /** `register_publish`: a track, or none and (unless the peer declined) a message or a refusal. */
  ghost predicate PublishRegistered(w: World, u: World, p: Pid, mid: nat, media: AnswerMline, ok: bool) {
    && Only(w, u, p) && SameMarks(w, u, p) && OfferCount(u, p) == OfferCount(w, p)
    && (ok ==> TrackMade(w, u, p, mid, media.track) && Mail(u, p) == Mail(w, p) + 1)
    && (!ok ==>
          && u.neg == w.neg && u.plane.tracks == w.plane.tracks
          && (p in w.sessions && w.sessions[p].room.Some? && !media.track.NoTrack? ==>
               Mail(u, p) > Mail(w, p) || u.plane.refused > w.plane.refused))
  }

  lemma RefusedTrack(w: World, p: Pid, mid: nat, media: AnswerMline)
    requires p in w.neg && (p !in w.sessions || w.sessions[p].room.None? || media.track.NoTrack?)
    ensures PublishRegistered(w, w, p, mid, media, false)
  {
  }

  lemma ToldTrack(w: World, a: World, u: World, p: Pid, id: Sid, mid: nat, media: AnswerMline, signal: Signal)
    requires p in w.neg && p in w.plane.outbox && (a == w || NotedIn(w, a, id))
      && u == a.(plane := Told(a.plane, p, signal))
    ensures PublishRegistered(w, u, p, mid, media, false)
  {
  }

  lemma TurnedTrack(w: World, a: World, u: World, p: Pid, id: Sid, mid: nat, media: AnswerMline)
    requires p in w.neg && NotedIn(w, a, id) && u == a.(plane := u.plane)
    requires Turned(a.plane.(nextTrack := a.plane.nextTrack + 1), p, u.plane)
    ensures PublishRegistered(w, u, p, mid, media, false)
  {
    PushFrame(a.plane.(nextTrack := a.plane.nextTrack + 1), SendDatagram(0), p, false, u.plane);
  }

  lemma TurnedTrackStep(w: World, u: World, p: Pid, k: Slack)
    requires Sound(w, k) && u == w.(plane := u.plane)
      && Turned(w.plane.(nextTrack := w.plane.nextTrack + 1), p, u.plane)
    ensures Sound(u, k)
  {
    TrackIdStep(w, k);
    var a := w.(plane := w.plane.(nextTrack := w.plane.nextTrack + 1));
    RefusedStep(a, u.plane, p, k);
    assert u == a.(plane := u.plane);
  }

  ghost predicate TrackAddedTo(w: World, u: World, p: Pid, info: Track) {
    && p in w.neg && u.sessions == w.sessions
    && u.neg == w.neg[p := w.neg[p].(published := w.neg[p].published + [w.plane.nextTrack])]
    && u.plane.tracks == w.plane.tracks[w.plane.nextTrack := info]
    && u.plane.entries == w.plane.entries
    && u.plane.outbox == w.plane.outbox && u.plane.offers == w.plane.offers && w.plane.refused <= u.plane.refused
  }

  lemma AddedStep(w: World, u: World, z: PlaneView, p: Pid, info: Track, k: Slack)
    requires Sound(w, k) && Addable(w, p, info, k)
    requires Taken(w.plane.(nextTrack := w.plane.nextTrack + 1), AddTrack(info.session, w.plane.nextTrack, info.ssrc),
      p, z)
    requires u == World(w.sessions, w.neg[p := w.neg[p].(published := w.neg[p].published + [w.plane.nextTrack])],
                        z.(tracks := z.tracks[w.plane.nextTrack := info]))
    ensures Sound(u, k.(open := k.open - {info.mid})) && TrackAddedTo(w, u, p, info)
  {
    PushFrame(w.plane.(nextTrack := w.plane.nextTrack + 1), AddTrack(info.session, w.plane.nextTrack, info.ssrc), p,
      true, z);
    AddTrackStep(w, u, z, p, info, k);
  }

  lemma AddedTrack(w: World, a: World, b: World, p: Pid, id: Sid, mid: nat, media: AnswerMline, info: Track)
    requires p in w.neg && NotedIn(w, a, id) && a.plane.nextTrack !in a.plane.tracks && TrackAddedTo(a, b, p, info)
    requires p in w.sessions && w.sessions[p].room.Some? && w.neg[p].session == Some(id) && media.track.Spec?
    requires info == Track(p, id, w.sessions[p].room.value, media.track.kind, mid, media.track.ssrc)
    ensures TrackMade(w, b, p, mid, media.track) && Only(w, b, p) && SameMarks(w, b, p)
      && OfferCount(b, p) == OfferCount(w, p) && Mail(b, p) == Mail(w, p)
  {
  }

  lemma ToldMade(w: World, b: World, u: World, p: Pid, mid: nat, media: AnswerMline, signal: Signal)
    requires TrackMade(w, b, p, mid, media.track) && Only(w, b, p) && SameMarks(w, b, p)
      && OfferCount(b, p) == OfferCount(w, p) && Mail(b, p) == Mail(w, p)
    requires p in b.plane.outbox && u == b.(plane := Told(b.plane, p, signal))
    ensures PublishRegistered(w, u, p, mid, media, true)
  {
  }

  lemma FreshTrackId(w: World, k: Slack)
    requires Sound(w, k)
    ensures w.plane.nextTrack !in w.plane.tracks
  {
    assert Look(0);
    FreshTrack(w.plane);
  }

  /** The mids of `mids` from `i` on. */
  ghost function From(mids: seq<nat>, i: nat): set<nat> {
    set m | m in mids && m >= i
  }

  lemma FromNext(mids: seq<nat>, i: nat)
    ensures i in mids ==> From(mids, i + 1) == From(mids, i) - {i}
    ensures i !in mids ==> From(mids, i + 1) == From(mids, i)
    ensures From(mids, 0) == Elements(mids)
    ensures (forall m :: m in mids ==> m < i) ==> From(mids, i) == {}
  {
  }

  /** The slack while the answered mids from `i` on are still to be registered. */
  ghost function Registration(k: Slack, p: Pid, mids: seq<nat>, i: nat): Slack {
    k.(who := p, open := From(mids, i))
  }

  /** M-line `i` became a track. */
  ghost predicate Made(w: World, u: World, p: Pid, i: nat) {
    exists t ::
      t in u.plane.tracks && t !in w.plane.tracks && u.plane.tracks[t].publisher == p && u.plane.tracks[t].mid == i
  }

  /** More messages than tracks: `p` was told that something failed; or the queue refused. */
  ghost predicate Trouble(w: World, u: World, p: Pid)
    requires p in w.neg && p in u.neg
  {
    Mail(u, p) - Mail(w, p) > |u.neg[p].published| - |w.neg[p].published| || u.plane.refused > w.plane.refused
  }

  /** The answered publish m-lines below `i` became tracks, or were released. */
  ghost predicate Registering(w: World, u: World, p: Pid, mids: seq<nat>, media: seq<AnswerMline>, i: nat) {
    && Only(w, u, p) && SameMarks(w, u, p) && OfferCount(u, p) == OfferCount(w, p)
    && var (n, m) := (w.neg[p], u.neg[p]);
       && m == n.(published := m.published, mlines := m.mlines)
       && n.published <= m.published && OnlyReleases(n.mlines, m.mlines)
       && TracksGrow(w, u, p)
       && Mail(u, p) - Mail(w, p) >= |m.published| - |n.published|
       && (Trouble(w, u, p) || forall j :: 0 <= j < i && j < |media| && j in mids && Publishes(w, p, media[j]) ==>
            Made(w, u, p, j))
  }

  ghost predicate Publishes(w: World, p: Pid, media: AnswerMline) {
    p in w.sessions && w.sessions[p].room.Some? && !media.track.NoTrack?
  }

  /** Tracks stay as they are; new ones are `p`'s, and on its list. */
  ghost predicate TracksGrow(w: World, u: World, p: Pid)
    requires p in u.neg
  {
    && (forall t :: t in w.plane.tracks ==> t in u.plane.tracks && u.plane.tracks[t] == w.plane.tracks[t])
    && (forall t :: t in u.plane.tracks && t !in w.plane.tracks ==>
         u.plane.tracks[t].publisher == p && t in u.neg[p].published)
  }

  lemma NothingRegistered(w: World, p: Pid, mids: seq<nat>, media: seq<AnswerMline>)
    requires p in w.neg
    ensures Registering(w, w, p, mids, media, 0)
  {
  }

  lemma NotAPublish(w: World, u: World, p: Pid, mids: seq<nat>, media: seq<AnswerMline>, i: nat)
    requires Registering(w, u, p, mids, media, i) && i !in mids
    ensures Registering(w, u, p, mids, media, i + 1)
  {
  }

  lemma OneRegistered(w: World, a: World, u: World, p: Pid, mids: seq<nat>, media: seq<AnswerMline>, i: nat)
    requires Registering(w, a, p, mids, media, i) && i < |media| && PublishRegistered(a, u, p, i, media[i], true)
    ensures Registering(w, u, p, mids, media, i + 1)
  {
    var t := a.plane.nextTrack;
    assert u.plane.tracks[t].mid == i && t !in w.plane.tracks;
    assert u.neg[p].published[|a.neg[p].published|] == t;
    if !Trouble(w, u, p) {
      forall j | 0 <= j < i + 1 && j < |media| && j in mids && Publishes(w, p, media[j]) ensures Made(w, u, p, j) {
        if j < i {
          assert Made(w, a, p, j);
          var x :| x in a.plane.tracks && x !in w.plane.tracks && a.plane.tracks[x].publisher == p
            && a.plane.tracks[x].mid == j;
          assert x in u.plane.tracks;
        }
      }
    }
  }

  lemma OneReleased(w: World, a: World, b: World, u: World, p: Pid, mids: seq<nat>, media: seq<AnswerMline>, i: nat)
    requires Registering(w, a, p, mids, media, i) && i < |media| && PublishRegistered(a, b, p, i, media[i], false)
    requires u == WithNeg(b, p, PublishReleased(b.neg[p], i))
    ensures Registering(w, u, p, mids, media, i + 1)
  {
    if !Trouble(w, u, p) {
      forall j | 0 <= j < i + 1 && j < |media| && j in mids && Publishes(w, p, media[j]) ensures Made(w, u, p, j) {
        assert Made(w, a, p, j);
      }
    }
  }

  lemma ReleaseStep(w: World, u: World, p: Pid, mid: nat, k: Slack)
    requires Sound(w, k) && p in w.neg && k.who == p && mid in k.open
      && u == WithNeg(w, p, PublishReleased(w.neg[p], mid))
    ensures Sound(u, k.(open := k.open - {mid}))
  {
    assert Look(0);
    ReleasedKeeps(w, p, mid, k);
  }

  /** The answer is taken: its publish mids are to be registered. */
  lemma TakeMids(w: World, u: World, p: Pid, k: Slack)
    requires Sound(w, k) && Calm(k) && p in w.neg
      && u == WithNeg(w, p, w.neg[p].(invalidAnswers := 0, awaiting := [], offerPending := false))
    ensures Sound(u, Registration(k, p, w.neg[p].awaiting, 0))
  {
    assert Look(0);
    AnsweredKeeps(w, p, u.neg[p], k);
    FromNext(w.neg[p].awaiting, 0);
  }

  /** With no mid left open it does not matter whose they were. */
  lemma AllRegistered(w: World, p: Pid, k: Slack, l: Slack)
    requires Sound(w, l) && l == k.(who := p, open := {}) && k.open == {}
    ensures Sound(w, k)
  {
    assert Look(0);
    forall q | q in w.neg ensures Lines(w, q, k) {
      LinesInDomain(w, q, l);
      LinesKept(w, w, q, l, k);
    }
  }

  /** Waiting mids are positions of m-lines. */
  lemma WaitingMids(w: World, p: Pid, k: Slack)
    requires Sound(w, k) && p in w.neg
    ensures forall m :: m in w.neg[p].awaiting ==> m < |w.neg[p].mlines|
  {
    assert Look(0);
    PublishedStay(w, p, k);
    forall m | m in w.neg[p].awaiting ensures m < |w.neg[p].mlines| {
      assert Unregistered(w.neg[p], w.plane.tracks, m);
    }
  }

  // ── Subscribe m-lines ────────────────────────────────────────────

  /** M-line `i` has a subscription to put on the shard. */
  predicate PendingAt(ms: seq<Mline>, a: Allocator, i: nat) {
    i < |ms| && ms[i].role.Subscribe? && !ms[i].role.slot.onShard && !IsStale(a, ms[i].role.slot.ssrc)
  }

  function SlotOffset(ms: seq<Mline>, a: Allocator, i: nat): nat {
    if i < |ms| && ms[i].role.Subscribe? then OffsetOf(a, ms[i].role.slot.ssrc) else 0
  }

  /** In increasing out-SSRC offset. */
  predicate Ordered(ms: seq<Mline>, a: Allocator, r: seq<nat>) {
    forall i, j :: 0 <= i < j < |r| ==> SlotOffset(ms, a, r[i]) <= SlotOffset(ms, a, r[j])
  }

  /** `x` put in its place. */
  function Insert(ms: seq<Mline>, a: Allocator, r: seq<nat>, x: nat): (q: seq<nat>)
    requires Ordered(ms, a, r) && NoDup(r) && x !in r
    ensures Ordered(ms, a, q) && NoDup(q) && forall y :: y in q <==> y in r || y == x
  {
    if r == [] || SlotOffset(ms, a, x) < SlotOffset(ms, a, r[0]) then
      var q := [x] + r;
      assert forall i :: 0 < i < |q| ==> q[i] == r[i - 1];
      q
    else
      assert Ordered(ms, a, r[1..]) && NoDup(r[1..]);
      var rest := Insert(ms, a, r[1..], x);
      assert r == [r[0]] + r[1..];
      var q := [r[0]] + rest;
      assert forall y :: y in rest ==> SlotOffset(ms, a, r[0]) <= SlotOffset(ms, a, y) && y != r[0];
      q
  }

  /** The pending m-lines, sorted: what `register_subscriptions` collects. */
  method PendingSlots(ms: seq<Mline>, a: Allocator) returns (r: seq<nat>)
    ensures Ordered(ms, a, r) && NoDup(r) && forall i: nat :: i in r <==> PendingAt(ms, a, i)
  {
    r := [];
    for i := 0 to |ms|
      invariant Ordered(ms, a, r) && NoDup(r) && forall j: nat :: j in r <==> j < i && PendingAt(ms, a, j)
    {
      if PendingAt(ms, a, i) {
        r := Insert(ms, a, r, i);
      }
    }
  }

  /** The offsets are distinct: sorted is strictly increasing. */
  lemma StrictlyOrdered(ms: seq<Mline>, a: Allocator, r: seq<nat>, i: nat, j: nat)
    requires SlotsDistinct(ms) && Ordered(ms, a, r) && NoDup(r) && i < j < |r| && PendingAt(ms, a, r[i])
      && PendingAt(ms, a, r[j])
    ensures SlotOffset(ms, a, r[i]) < SlotOffset(ms, a, r[j])
  {
    assert SlotAt(ms, r[i]) && SlotAt(ms, r[j]);
  }

  /** `x` is `y`, or `y` put on the shard. */
  predicate SameOrActive(y: Mline, x: Mline) {
    x == y || (y.role.Subscribe? && x == y.(role := Role.Subscribe(y.role.slot.(onShard := true))))
  }

  /** Subscriptions were put on the shard (`activated`); nothing else of the m-lines changed. */
  ghost predicate ActiveSoFar(w: World, u: World, p: Pid, activated: seq<Tid>) {
    && Only(w, u, p) && u.plane.tracks == w.plane.tracks && OfferCount(u, p) == OfferCount(w, p)
    && var (ms, us) := (w.neg[p].mlines, u.neg[p].mlines);
       && u.neg[p] == w.neg[p].(mlines := us)
       && |us| == |ms| && (forall i :: 0 <= i < |ms| ==> SameOrActive(ms[i], us[i]))
       && OnShardTracks(us) == OnShardTracks(ms) + Elements(activated) && SlotTracks(us) == SlotTracks(ms)
  }

  /** If the answer accepts m-line `i` and its track is live, its subscription is on the shard. */
  predicate Handled(us: seq<Mline>, ts: map<Tid, Track>, media: seq<AnswerMline>, i: nat) {
    i < |media| && i < |us| && media[i].sub.Accept? && us[i].role.Subscribe? && us[i].role.slot.track in ts ==>
      us[i].role.slot.onShard
  }

  /** Of the pending m-lines those before `c` were handled; the others still wait above the mark. */
  ghost predicate Activating(w: World, u: World, p: Pid, id: Sid, pending: seq<nat>, c: nat, media: seq<AnswerMline>,
                             activated: seq<Tid>)
  {
    && ActiveSoFar(w, u, p, activated)
    && (forall j :: 0 <= j < c && j < |pending| ==> Handled(u.neg[p].mlines, u.plane.tracks, media, pending[j]))
    && StillWaiting(w, u, p, id, pending, c)
  }

  ghost predicate StillWaiting(w: World, u: World, p: Pid, id: Sid, pending: seq<nat>, c: nat) {
    && p in w.neg && p in u.neg && id in u.plane.entries
    && (forall j :: c <= j < |pending| ==>
         Waits(w.neg[p].mlines, u.neg[p].mlines, u.plane.entries[id].ssrcs, pending[j]))
  }

  predicate Waits(ms: seq<Mline>, us: seq<Mline>, a: Allocator, i: nat) {
    i < |ms| && i < |us| && us[i] == ms[i] && PendingAt(us, a, i)
  }

  lemma NothingActivated(w: World, p: Pid, id: Sid, pending: seq<nat>, media: seq<AnswerMline>)
    requires p in w.neg && id in w.plane.entries && forall i :: i in pending ==>
      PendingAt(w.neg[p].mlines, w.plane.entries[id].ssrcs, i)
    ensures Activating(w, w, p, id, pending, 0, media, [])
  {
    assert Elements([]) == {};
    forall j | 0 <= j < |pending|
      ensures Waits(w.neg[p].mlines, w.neg[p].mlines, w.plane.entries[id].ssrcs, pending[j])
    {
      assert pending[j] in pending;
    }
    assert OnShardTracks(w.neg[p].mlines) + {} == OnShardTracks(w.neg[p].mlines);
  }

  lemma NotActivated(w: World, a: World, u: World, p: Pid, id: Sid, pending: seq<nat>, c: nat,
                     media: seq<AnswerMline>, activated: seq<Tid>)
    requires Activating(w, a, p, id, pending, c, media, activated) && c < |pending| && pending[c] < |media|
    requires !media[pending[c]].sub.Accept? || a.neg[p].mlines[pending[c]].role.slot.track !in a.plane.tracks
    requires u == a.(plane := a.plane.(outbox := u.plane.outbox)) && Mail(a, p) <= Mail(u, p)
      && forall q :: q != p ==> Mail(u, q) == Mail(a, q)
    ensures Activating(w, u, p, id, pending, c + 1, media, activated)
  {
  }

  lemma ActiveTracks(ms: seq<Mline>, us: seq<Mline>, i: nat)
    requires i < |ms| && ms[i].role.Subscribe?
      && us == ms[i := ms[i].(role := Role.Subscribe(ms[i].role.slot.(onShard := true)))]
    ensures OnShardTracks(us) == OnShardTracks(ms) + {ms[i].role.slot.track} && SlotTracks(us) == SlotTracks(ms)
  {
    assert us[i].role.slot.track == ms[i].role.slot.track;
    forall t | t in OnShardTracks(ms) ensures t in OnShardTracks(us) {
      var j :| 0 <= j < |ms| && ms[j].role.Subscribe? && ms[j].role.slot.onShard && ms[j].role.slot.track == t;
      assert us[j].role.slot.track == t;
    }
    forall t | t in OnShardTracks(us) && t != ms[i].role.slot.track ensures t in OnShardTracks(ms) {
      var j :| 0 <= j < |us| && us[j].role.Subscribe? && us[j].role.slot.onShard && us[j].role.slot.track == t;
      assert ms[j] == us[j];
    }
    forall t | t in SlotTracks(ms) ensures t in SlotTracks(us) {
      var j :| 0 <= j < |ms| && ms[j].role.Subscribe? && ms[j].role.slot.track == t;
      assert us[j].role.slot.track == t;
    }
    forall t | t in SlotTracks(us) ensures t in SlotTracks(ms) {
      var j :| 0 <= j < |us| && us[j].role.Subscribe? && us[j].role.slot.track == t;
      assert ms[j].role.slot.track == t;
    }
  }

  lemma OneMoreActive(w: World, a: World, u: World, p: Pid, i: nat, activated: seq<Tid>)
    requires ActiveSoFar(w, a, p, activated) && i < |a.neg[p].mlines| && a.neg[p].mlines[i].role.Subscribe?
    requires u.sessions == a.sessions && u.neg == a.neg[p := Activated(a.neg[p], i)]
    requires u.plane.tracks == a.plane.tracks && u.plane.outbox == a.plane.outbox
      && u.plane.offers == a.plane.offers && a.plane.refused <= u.plane.refused
    ensures ActiveSoFar(w, u, p, activated + [a.neg[p].mlines[i].role.slot.track])
  {
    var (ms, us) := (a.neg[p].mlines, u.neg[p].mlines);
    ActiveTracks(ms, us, i);
    var t := ms[i].role.slot.track;
    assert Elements(activated + [t]) == Elements(activated) + {t} by {
      assert (activated + [t])[|activated|] == t;
    }
    assert OnShardTracks(us) == OnShardTracks(w.neg[p].mlines) + Elements(activated + [t]);
  }

  lemma MarkedBelow(w: World, a: World, u: World, p: Pid, id: Sid, pending: seq<nat>, c: nat)
    requires StillWaiting(w, a, p, id, pending, c) && c < |pending| && NoDup(pending)
    requires forall j :: c < j < |pending| ==>
      SlotOffset(a.neg[p].mlines, a.plane.entries[id].ssrcs, pending[c]) <
        SlotOffset(a.neg[p].mlines, a.plane.entries[id].ssrcs, pending[j])
    requires u.neg == a.neg[p := Activated(a.neg[p], pending[c])]
    requires u.plane.entries == Marked(a.plane.entries, id, a.neg[p].mlines[pending[c]].role.slot.ssrc)
    ensures StillWaiting(w, u, p, id, pending, c + 1)
  {
    var (ms, us, i) := (a.neg[p].mlines, u.neg[p].mlines, pending[c]);
    assert u.plane.entries[id].ssrcs ==
      a.plane.entries[id].ssrcs.(high := SlotOffset(ms, a.plane.entries[id].ssrcs, i));
    forall j | c + 1 <= j < |pending| ensures Waits(w.neg[p].mlines, us, u.plane.entries[id].ssrcs, pending[j]) {
      assert Waits(w.neg[p].mlines, ms, a.plane.entries[id].ssrcs, pending[j]);
    }
  }

  /** The next one goes on the shard, and the mark up to its offset; the others are above it. */
  lemma OneActivated(w: World, a: World, u: World, p: Pid, id: Sid, pending: seq<nat>, c: nat,
                     media: seq<AnswerMline>, activated: seq<Tid>)
    requires Activating(w, a, p, id, pending, c, media, activated) && c < |pending| && NoDup(pending)
    requires forall j :: c < j < |pending| ==>
      SlotOffset(a.neg[p].mlines, a.plane.entries[id].ssrcs, pending[c]) <
        SlotOffset(a.neg[p].mlines, a.plane.entries[id].ssrcs, pending[j])
    requires u.sessions == a.sessions && u.neg == a.neg[p := Activated(a.neg[p], pending[c])]
    requires u.plane.entries == Marked(a.plane.entries, id, a.neg[p].mlines[pending[c]].role.slot.ssrc)
    requires u.plane.tracks == a.plane.tracks && u.plane.outbox == a.plane.outbox
      && u.plane.offers == a.plane.offers && a.plane.refused <= u.plane.refused
    ensures Activating(w, u, p, id, pending, c + 1, media, activated + [a.neg[p].mlines[pending[c]].role.slot.track])
  {
    OneMoreActive(w, a, u, p, pending[c], activated);
    MarkedBelow(w, a, u, p, id, pending, c);
    forall j | 0 <= j < c + 1 && j < |pending| ensures Handled(u.neg[p].mlines, u.plane.tracks, media, pending[j]) {
      assert j < c ==> Handled(a.neg[p].mlines, a.plane.tracks, media, pending[j]);
    }
  }

  /** The pending ones from `c` on have strictly increasing offsets. */
  ghost predicate Increasing(u: World, p: Pid, id: Sid, pending: seq<nat>, c: nat) {
    && p in u.neg && id in u.plane.entries
    && forall i, j :: c <= i < j < |pending| ==>
         SlotOffset(u.neg[p].mlines, u.plane.entries[id].ssrcs, pending[i]) <
           SlotOffset(u.neg[p].mlines, u.plane.entries[id].ssrcs, pending[j])
  }

  lemma IncreasingAtFirst(w: World, p: Pid, id: Sid, pending: seq<nat>, k: Slack)
    requires Sound(w, k) && p in w.neg && id in w.plane.entries && NoDup(pending)
      && Ordered(w.neg[p].mlines, w.plane.entries[id].ssrcs, pending)
    requires forall i :: i in pending ==> PendingAt(w.neg[p].mlines, w.plane.entries[id].ssrcs, i)
    ensures Increasing(w, p, id, pending, 0)
  {
    DistinctFacts(w, p, k);
    forall i, j | 0 <= i < j < |pending|
      ensures SlotOffset(w.neg[p].mlines, w.plane.entries[id].ssrcs, pending[i]) <
        SlotOffset(w.neg[p].mlines, w.plane.entries[id].ssrcs, pending[j])
    {
      StrictlyOrdered(w.neg[p].mlines, w.plane.entries[id].ssrcs, pending, i, j);
    }
  }

  lemma DistinctFacts(w: World, p: Pid, k: Slack)
    requires Sound(w, k) && p in w.neg
    ensures SlotsDistinct(w.neg[p].mlines)
  {
    assert Look(0);
    LinesDistinct(w, p, k);
  }

  lemma LinesDistinct(w: World, p: Pid, k: Slack)
    requires p in w.neg && Lines(w, p, k)
    ensures SlotsDistinct(w.neg[p].mlines)
  {
    assert Open(0);
  }

  lemma StillIncreasing(a: World, u: World, p: Pid, id: Sid, pending: seq<nat>, c: nat)
    requires Increasing(a, p, id, pending, c) && c < |pending| && pending[c] < |a.neg[p].mlines|
      && a.neg[p].mlines[pending[c]].role.Subscribe?
    requires u.neg == a.neg[p := Activated(a.neg[p], pending[c])]
    requires u.plane.entries == Marked(a.plane.entries, id, a.neg[p].mlines[pending[c]].role.slot.ssrc)
    ensures Increasing(u, p, id, pending, c + 1)
  {
    forall i
      ensures SlotOffset(u.neg[p].mlines, u.plane.entries[id].ssrcs, i) ==
        SlotOffset(a.neg[p].mlines, a.plane.entries[id].ssrcs, i)
    {
    }
  }

  /** Every accepted m-line that was pending is on the shard, unless the queue refused. */
  ghost predicate SubsRegistered(w: World, u: World, p: Pid, id: Sid, media: seq<AnswerMline>, activated: seq<Tid>) {
    && ActiveSoFar(w, u, p, activated) && id in w.plane.entries
    && (u.plane.refused > w.plane.refused ||
        forall i: nat :: PendingAt(w.neg[p].mlines, w.plane.entries[id].ssrcs, i) ==>
          Handled(u.neg[p].mlines, u.plane.tracks, media, i))
  }

  lemma PushRefused(w: World, a: World, u: World, p: Pid, id: Sid, media: seq<AnswerMline>, activated: seq<Tid>)
    requires ActiveSoFar(w, a, p, activated) && Turned(a.plane, p, u.plane) && u == a.(plane := u.plane)
      && id in w.plane.entries
    ensures SubsRegistered(w, u, p, id, media, activated)
  {
    PushFrame(a.plane, SendDatagram(0), p, false, u.plane);
  }

  lemma AllHandled(w: World, u: World, p: Pid, id: Sid, pending: seq<nat>, media: seq<AnswerMline>, activated: seq<Tid>)
    requires Activating(w, u, p, id, pending, |pending|, media, activated) && id in w.plane.entries
    requires forall i: nat :: i in pending <==> PendingAt(w.neg[p].mlines, w.plane.entries[id].ssrcs, i)
    ensures SubsRegistered(w, u, p, id, media, activated)
  {
    forall i: nat | PendingAt(w.neg[p].mlines, w.plane.entries[id].ssrcs, i)
      ensures Handled(u.neg[p].mlines, u.plane.tracks, media, i)
    {
      var j :| 0 <= j < |pending| && pending[j] == i;
    }
  }

  // ── The answer as a whole ────────────────────────────────────────

  /** Only `p`'s handshake, keys and closing may have moved. */
  ghost predicate HandshakeMoved(w: World, u: World, p: Pid) {
    Only(w, u, p) && u.neg == w.neg && u.plane.tracks == w.plane.tracks && Mail(u, p) == Mail(w, p)
      && OfferCount(u, p) == OfferCount(w, p)
  }

  /** `p` is to be closed when the event settles, if the list has room. */
  ghost predicate Ending(v: PlaneView, p: Pid) {
    InClosing(v.closing, p) || |v.closing| >= MAX_CLOSING
  }

  /**
   A handshake call that failed ends its participant; one that completed installs the keys on
   both sides, or ends it; any other leaves the keys alone.
   */
  ghost predicate HandshakeRan(w: World, u: World, id: Sid, failed: bool, completed: bool)
    requires id in w.plane.entries
  {
    var p := w.plane.entries[id].participant;
    && HandshakeMoved(w, u, p) && id in u.plane.entries
    && DtlsMoves(w.plane.entries[id].dtls, u.plane.entries[id].dtls, completed)
    && (failed ==> u.plane.entries[id].dtls == Failed && !completed && Ending(u.plane, p))
    && (completed ==> Ending(u.plane, p) || KeysOn(u.plane, id))
    && (!completed ==> u.plane.entries[id].srtpInstalled == w.plane.entries[id].srtpInstalled)
    && (!completed && !failed ==> u.plane.entries[id].dtls == w.plane.entries[id].dtls)
  }

  ghost predicate KeysOn(v: PlaneView, id: Sid) {
    id in v.entries && v.entries[id].srtpInstalled && id in v.shard.sessions && v.shard.sessions[id].srtp
  }

  lemma KeysInstalled(v: PlaneView, u: PlaneView, p: Pid, id: Sid)
    requires id in v.entries && id in v.shard.sessions
    requires
      || u == CloseRequested(v, p, DtlsFailed)
      || Taken(WithKeys(v, id), InstallSrtp(id), p, u)
      || Turned(WithKeys(v, id), p, u)
    ensures id in u.entries && u.entries[id].dtls == v.entries[id].dtls
    ensures Ending(u, p) || KeysOn(u, id)
  {
    assert LookTaken(0) && LookTurned(0);
    if u == CloseRequested(v, p, DtlsFailed) {
      RecordedIsClosing(v.closing, p, DtlsFailed);
    } else if u == Refused(WithKeys(v, id), p) {
      RecordedIsClosing(v.closing, p, Overloaded);
    }
  }

  lemma StillEnding(v: PlaneView, p: Pid, reason: Reason)
    ensures forall q :: Ending(v, q) ==> Ending(CloseRequested(v, p, reason), q)
  {
    forall q | InClosing(v.closing, q) ensures InClosing(Recorded(v.closing, p, reason), q) {
      RecordedKeeps(v.closing, p, reason, q);
    }
  }

  lemma RecordedIsClosing(closing: seq<Closing>, p: Pid, reason: Reason)
    ensures InClosing(Recorded(closing, p, reason), p) || |Recorded(closing, p, reason)| >= MAX_CLOSING
  {
    var r := Recorded(closing, p, reason);
    if !InClosing(closing, p) && |closing| < MAX_CLOSING {
      assert r[|closing|].participant == p;
    }
  }

  /** At most `n` more are to be closed, nobody fewer, and the sessions are whose they were. */
  ghost predicate Progressed(v: PlaneView, u: PlaneView, n: nat) {
    && |v.closing| <= |u.closing| <= |v.closing| + n
       && (forall q :: InClosing(v.closing, q) ==> InClosing(u.closing, q))
    && u.entries.Keys == v.entries.Keys
    && (forall id :: id in v.entries ==> u.entries[id].participant == v.entries[id].participant)
  }

  /** Nobody but `p` is newly to be closed. */
  ghost predicate OnlyCloses(v: PlaneView, u: PlaneView, p: Pid) {
    && (u.closing == v.closing || exists reason :: u.closing == Recorded(v.closing, p, reason))
    && u.entries.Keys == v.entries.Keys
    && (forall id :: id in v.entries ==> u.entries[id].participant == v.entries[id].participant)
  }

  lemma OnlyClosesOne(v: PlaneView, u: PlaneView, p: Pid)
    requires OnlyCloses(v, u, p)
    ensures Progressed(v, u, 1)
  {
    if u.closing != v.closing {
      var reason :| u.closing == Recorded(v.closing, p, reason);
      forall q | InClosing(v.closing, q) ensures InClosing(u.closing, q) {
        RecordedKeeps(v.closing, p, reason, q);
      }
    }
  }

  lemma OnlyClosesTwice(v: PlaneView, a: PlaneView, u: PlaneView, p: Pid)
    requires OnlyCloses(v, a, p) && OnlyCloses(a, u, p)
    ensures OnlyCloses(v, u, p)
  {
    if a.closing != v.closing && u.closing != a.closing {
      var first :| a.closing == Recorded(v.closing, p, first);
      var second :| u.closing == Recorded(a.closing, p, second);
      RecordedIsClosing(v.closing, p, first);
    }
  }

  lemma TurnedCloses(v: PlaneView, u: PlaneView, p: Pid)
    requires u == v || Turned(v, p, u)
    ensures OnlyCloses(v, u, p)
  {
    assert LookTurned(0);
  }

  lemma KeysClose(v: PlaneView, u: PlaneView, p: Pid, id: Sid)
    requires id in v.entries
    requires
      || u == CloseRequested(v, p, DtlsFailed)
      || Taken(WithKeys(v, id), InstallSrtp(id), p, u)
      || Turned(WithKeys(v, id), p, u)
    ensures OnlyCloses(v, u, p)
  {
    assert LookTaken(0) && LookTurned(0);
  }

  lemma EntryPresent(w: World, id: Sid, k: Slack)
    requires Sound(w, k) && id in w.plane.entries
    ensures w.plane.entries[id].participant in w.neg && id in w.plane.shard.sessions
  {
    assert Look(0);
    EntryFacts(w, id);
    SessionFacts(w.plane, id);
  }

  lemma DtlsStep(w: World, u: World, id: Sid, to: DtlsState, completed: bool, k: Slack)
    requires Sound(w, k) && id in w.plane.entries && DtlsMoves(w.plane.entries[id].dtls, to, completed)
    requires u == WithEntry(w, id, w.plane.entries[id].(dtls := to))
    ensures Sound(u, k) && (completed ==> to == Complete && !w.plane.entries[id].srtpInstalled)
  {
    assert Look(0);
    SessionFacts(w.plane, id);
    DtlsMovedKeeps(w, id, to, k);
  }

  lemma CloseRequestStep(w: World, u: World, p: Pid, reason: Reason, k: Slack)
    requires Sound(w, k) && u == w.(plane := CloseRequested(w.plane, p, reason))
    ensures Sound(u, k)
  {
    assert Look(0);
    CloseRequestedKeeps(w, p, reason, k);
  }

  /** Every off-shard slot of the outstanding offer can be registered. */
  lemma NoneStaleOffered(w: World, p: Pid, k: Slack)
    requires Sound(w, k) && p in w.neg && w.neg[p].offerPending && w.neg[p].session.Some?
      && w.neg[p].session.value in w.plane.entries
    ensures forall i: nat :: SlotAt(w.neg[p].mlines, i) && !w.neg[p].mlines[i].role.slot.onShard ==>
      PendingAt(w.neg[p].mlines, w.plane.entries[w.neg[p].session.value].ssrcs, i)
  {
    assert Look(0);
    forall i: nat | SlotAt(w.neg[p].mlines, i) && !w.neg[p].mlines[i].role.slot.onShard
      ensures PendingAt(w.neg[p].mlines, w.plane.entries[w.neg[p].session.value].ssrcs, i)
    {
      SlotFacts(w, p, i, k);
    }
  }

  lemma SlotsLive(w: World, p: Pid, k: Slack)
    requires Sound(w, k) && k.gone == {} && p in w.neg
    ensures forall i: nat :: SlotAt(w.neg[p].mlines, i) ==> w.neg[p].mlines[i].role.slot.track in w.plane.tracks
  {
    assert Look(0);
    forall i: nat | SlotAt(w.neg[p].mlines, i) ensures w.neg[p].mlines[i].role.slot.track in w.plane.tracks {
      SlotFacts(w, p, i, k);
    }
  }

  /** What the subscription manager knows of `p`: the set asked for, which the slots keep to. */
  ghost predicate Follows(w: World, p: Pid, ids: seq<Tid>) {
    && p in w.neg && SlotTracks(w.neg[p].mlines) <= Elements(ids)
    && (w.neg[p].renegotiate ==> w.neg[p].lastIds == ids)
  }

  /** Nothing waits for an answer that is not outstanding. */
  predicate Waitless(n: Neg) {
    n.renegotiate || n.queued.Some? ==> n.offerPending
  }

  datatype Fate = Ignored | Refuted | Shut | Applied

  /**
   An accepted answer: its publish m-lines are tracks or inactive, its accepted subscribe
   m-lines are on the shard (unless a push failed), the slots on the shard are those that
   were and the activated ones, and what waited for it went out.
   */
  ghost predicate Answered(w: World, u: World, p: Pid, ids: seq<Tid>, media: seq<AnswerMline>, activated: seq<Tid>) {
    && Only(w, u, p) && TracksGrow(w, u, p)
    && var (n, m) := (w.neg[p], u.neg[p]);
       && n.published <= m.published && m.lastIds == n.lastIds && m.invalidAnswers == 0
       && OnShardTracks(m.mlines) == OnShardTracks(n.mlines) + Elements(activated)
          && SlotTracks(m.mlines) <= Elements(ids)
       && !m.renegotiate && Waitless(m)
       && (u.plane.refused > w.plane.refused
            || forall i :: SlotAt(n.mlines, i) && i < |media| && media[i].sub.Accept? ==>
             n.mlines[i].role.slot.track in OnShardTracks(m.mlines))
       && (Trouble(w, u, p) || forall j :: 0 <= j < |media| && j in n.awaiting && Publishes(w, p, media[j]) ==>
            Made(w, u, p, j))
  }

  /** Re-offers and queued work that may still go out to a client that answers nothing well. */
  function Potential(n: Neg): nat {
    Backlog(n) + Retries(n)
  }

  /** An invalid answer: the offer is settled, and every new offer uses up some of the potential. */
  ghost predicate RefutedAnswer(w: World, u: World, p: Pid, ids: seq<Tid>) {
    && Only(w, u, p) && u.plane.tracks == w.plane.tracks && Mail(u, p) > Mail(w, p)
    && var (n, m) := (w.neg[p], u.neg[p]);
       && m.published == n.published && m.lastIds == n.lastIds
       && OnShardTracks(m.mlines) == OnShardTracks(n.mlines) && SlotTracks(m.mlines) <= Elements(ids)
       && !m.renegotiate && Waitless(m)
       && Spends(w, u, p, Potential(n), Potential(m))
  }

  ghost predicate AnswerHandled(w: World, u: World, p: Pid, ids: seq<Tid>, answer: Answer, activated: seq<Tid>,
                                fate: Fate)
  {
    && (fate.Ignored? <==> !(p in w.neg && w.neg[p].session.Some? && w.neg[p].offerPending))
    && (fate.Refuted? ==> !(answer.Parsed? && MidsMatch(answer.media, w.neg[p].mlines)))
    && (fate.Applied? || fate.Shut? ==> answer.Parsed? && MidsMatch(answer.media, w.neg[p].mlines))
    && (!fate.Applied? ==> activated == [])
    && match fate
       case Ignored => u == w
       case Refuted => RefutedAnswer(w, u, p, ids)
       case Shut => HandshakeMoved(w, u, p) && Ending(u.plane, p)
       case Applied => Answered(w, u, p, ids, answer.media, activated)
  }

  lemma OnShardAreSlots(ms: seq<Mline>)
    ensures OnShardTracks(ms) <= SlotTracks(ms)
  {
  }

  /** From the refusal told (`a`) over what waited (`b`) to the re-offer (`u`). */
  lemma RefutedDone(w: World, a: World, b: World, u: World, p: Pid, ids: seq<Tid>)
    requires Follows(w, p, ids) && Only(w, a, p) && a.plane.tracks == w.plane.tracks && Mail(a, p) > Mail(w, p)
      && OfferCount(a, p) == OfferCount(w, p)
    requires a.neg[p] == w.neg[p].(offerPending := false) && AfterAnswered(a, b, p) && Retried(b, u, p)
    ensures RefutedAnswer(w, u, p, ids)
  {
    OnlyTwice(w, a, b, p);
    OnlyTwice(w, b, u, p);
    OnShardAreSlots(w.neg[p].mlines);
  }

  lemma ReleasesTracks(ms: seq<Mline>, us: seq<Mline>)
    requires OnlyReleases(ms, us)
    ensures SlotTracks(us) == SlotTracks(ms) && OnShardTracks(us) == OnShardTracks(ms)
    ensures forall i :: SlotAt(ms, i) ==> SlotAt(us, i) && us[i] == ms[i]
  {
    assert SameSlots(ms, us);
    SameSlotsTracks(ms, us);
  }

  /** Pending before the tracks were registered is pending after. */
  lemma StillPending(w: World, a: World, b: World, p: Pid, id: Sid, mids: seq<nat>, media: seq<AnswerMline>, i: nat)
    requires p in w.neg && w.neg[p].session == Some(id) && id in w.plane.entries && SlotAt(w.neg[p].mlines, i)
    requires a == WithNeg(w, p, w.neg[p].(invalidAnswers := 0, awaiting := [], offerPending := false))
    requires Registering(a, b, p, mids, media, |media|) && PendingAt(w.neg[p].mlines, w.plane.entries[id].ssrcs, i)
    ensures id in b.plane.entries && PendingAt(b.neg[p].mlines, b.plane.entries[id].ssrcs, i)
      && b.neg[p].mlines[i] == w.neg[p].mlines[i]
  {
    ReleasesTracks(a.neg[p].mlines, b.neg[p].mlines);
  }

  lemma AcceptedAreOn(w: World, a: World, b: World, c: World, p: Pid, id: Sid, media: seq<AnswerMline>,
                      activated: seq<Tid>, i: nat, k: Slack)
    requires p in w.neg && w.neg[p].session == Some(id) && id in w.plane.entries && SlotAt(w.neg[p].mlines, i)
      && i < |media| && media[i].sub.Accept?
    requires a == WithNeg(w, p, w.neg[p].(invalidAnswers := 0, awaiting := [], offerPending := false))
    requires Registering(a, b, p, w.neg[p].awaiting, media, |media|) && SubsRegistered(b, c, p, id, media, activated)
    requires c.plane.refused == w.plane.refused && w.neg[p].mlines[i].role.slot.track in c.plane.tracks
    requires !w.neg[p].mlines[i].role.slot.onShard ==> PendingAt(w.neg[p].mlines, w.plane.entries[id].ssrcs, i)
    ensures w.neg[p].mlines[i].role.slot.track in OnShardTracks(c.neg[p].mlines)
  {
    ReleasesTracks(a.neg[p].mlines, b.neg[p].mlines);
    var (bs, cs) := (b.neg[p].mlines, c.neg[p].mlines);
    assert bs[i] == w.neg[p].mlines[i] && SameOrActive(bs[i], cs[i]);
    if !bs[i].role.slot.onShard {
      StillPending(w, a, b, p, id, w.neg[p].awaiting, media, i);
      assert Handled(cs, c.plane.tracks, media, i);
    }
    assert cs[i].role.slot.onShard;
  }

  /** From the mids taken (`a`) over tracks (`b`) and subscriptions (`c`) to what waited (`u`). */
  lemma AnsweredDone(w: World, a: World, b: World, c: World, u: World, p: Pid, id: Sid, ids: seq<Tid>,
                     media: seq<AnswerMline>, activated: seq<Tid>)
    requires Follows(w, p, ids) && w.neg[p].session == Some(id) && id in w.plane.entries
    requires a == WithNeg(w, p, w.neg[p].(invalidAnswers := 0, awaiting := [], offerPending := false))
    requires Registering(a, b, p, w.neg[p].awaiting, media, |media|)
      && SubsRegistered(b, c, p, id, media, activated) && AfterAnswered(c, u, p)
    requires c.plane.refused > w.plane.refused
      || forall i :: SlotAt(w.neg[p].mlines, i) && i < |media| && media[i].sub.Accept? ==>
      w.neg[p].mlines[i].role.slot.track in OnShardTracks(c.neg[p].mlines)
    ensures Answered(w, u, p, ids, media, activated)
  {
    ReleasesTracks(a.neg[p].mlines, b.neg[p].mlines);
    OnShardAreSlots(c.neg[p].mlines);
    assert Only(w, a, p);
    OnlyTwice(w, a, b, p);
    OnlyTwice(w, b, c, p);
    OnlyTwice(w, c, u, p);
    assert OnShardTracks(u.neg[p].mlines) == OnShardTracks(c.neg[p].mlines);
    AnsweredTracks(w, a, b, u, p, media);
  }

  lemma AnsweredTracks(w: World, a: World, b: World, u: World, p: Pid, media: seq<AnswerMline>)
    requires p in w.neg && p in u.neg
      && a == WithNeg(w, p, w.neg[p].(invalidAnswers := 0, awaiting := [], offerPending := false))
    requires Registering(a, b, p, w.neg[p].awaiting, media, |media|) && u.plane.tracks == b.plane.tracks
      && u.neg[p].published == b.neg[p].published
    requires Mail(b, p) <= Mail(u, p) && b.plane.refused <= u.plane.refused
    ensures TracksGrow(w, u, p)
    ensures Trouble(w, u, p)
      || forall j :: 0 <= j < |media| && j in w.neg[p].awaiting && Publishes(w, p, media[j]) ==> Made(w, u, p, j)
  {
    if !Trouble(w, u, p) {
      forall j | 0 <= j < |media| && j in w.neg[p].awaiting && Publishes(w, p, media[j]) ensures Made(w, u, p, j) {
        assert Publishes(a, p, media[j]) && Made(a, b, p, j);
      }
    }
  }

  lemma HandshakeSteps(w: World, a: World, u: World, p: Pid, id: Sid)
    requires p in w.neg && id in w.plane.entries && w.plane.entries[id].participant == p
    requires a == w
      || (id in a.plane.entries && a == WithEntry(w, id, w.plane.entries[id].(dtls := a.plane.entries[id].dtls)))
    requires u == a.(plane := u.plane)
    requires u == a || Turned(a.plane, p, u.plane) || u.plane == CloseRequested(a.plane, p, DtlsFailed)
    ensures HandshakeMoved(w, u, p)
    ensures id in u.plane.entries && u.plane.entries[id] == a.plane.entries[id]
  {
    if Turned(a.plane, p, u.plane) {
      PushFrame(a.plane, SendDatagram(0), p, false, u.plane);
    }
  }

  lemma KeysSteps(w: World, a: World, u: World, p: Pid, id: Sid)
    requires HandshakeMoved(w, a, p) && id in a.plane.entries && u == a.(plane := u.plane)
    requires
      || u.plane == CloseRequested(a.plane, p, DtlsFailed)
      || Taken(WithKeys(a.plane, id), InstallSrtp(id), p, u.plane)
      || Turned(WithKeys(a.plane, id), p, u.plane)
    ensures HandshakeMoved(w, u, p)
  {
    if u.plane != CloseRequested(a.plane, p, DtlsFailed) {
      var ok: bool :| Pushed(WithKeys(a.plane, id), InstallSrtp(id), p, ok, u.plane);
      PushFrame(WithKeys(a.plane, id), InstallSrtp(id), p, ok, u.plane);
    }
  }

  lemma KeysStep(w: World, u: World, p: Pid, id: Sid, k: Slack)
    requires Sound(w, k) && id in w.plane.entries && w.plane.entries[id].participant == p && u == w.(plane := u.plane)
    requires w.plane.entries[id].dtls == Complete && !w.plane.entries[id].srtpInstalled
    requires
      || u.plane == CloseRequested(w.plane, p, DtlsFailed)
      || Taken(WithKeys(w.plane, id), InstallSrtp(id), p, u.plane)
      || Turned(WithKeys(w.plane, id), p, u.plane)
    ensures Sound(u, k)
  {
    if u.plane == CloseRequested(w.plane, p, DtlsFailed) {
      CloseRequestStep(w, u, p, DtlsFailed, k);
    } else {
      SrtpStep(w, u.plane, id, k);
      assert u == w.(plane := u.plane);
    }
  }

  lemma DatagramsStep(w: World, u: World, p: Pid, k: Slack)
    requires Sound(w, k) && u == w.(plane := u.plane) && (u.plane == w.plane || Turned(w.plane, p, u.plane))
    ensures Sound(u, k)
  {
    if u.plane == w.plane {
      assert u == w;
    } else {
      RefusedStep(w, u.plane, p, k);
      assert u == w.(plane := u.plane);
    }
  }

  /** Accepted m-lines are on the shard after the subscriptions, unless a push failed. */
  lemma SubscribedSoFar(w: World, a: World, b: World, c: World, p: Pid, id: Sid, media: seq<AnswerMline>,
                        activated: seq<Tid>, k: Slack)
    requires Sound(c, k) && k.gone == {} && p in w.neg && w.neg[p].session == Some(id) && id in w.plane.entries
    requires a == WithNeg(w, p, w.neg[p].(invalidAnswers := 0, awaiting := [], offerPending := false))
    requires Registering(a, b, p, w.neg[p].awaiting, media, |media|) && SubsRegistered(b, c, p, id, media, activated)
    requires forall i: nat :: SlotAt(w.neg[p].mlines, i) && !w.neg[p].mlines[i].role.slot.onShard ==>
      PendingAt(w.neg[p].mlines, w.plane.entries[id].ssrcs, i)
    ensures c.plane.refused > w.plane.refused
      || forall i :: SlotAt(w.neg[p].mlines, i) && i < |media| && media[i].sub.Accept? ==>
      w.neg[p].mlines[i].role.slot.track in OnShardTracks(c.neg[p].mlines)
  {
    if c.plane.refused == w.plane.refused {
      SlotsLive(c, p, k);
      ReleasesTracks(a.neg[p].mlines, b.neg[p].mlines);
      forall i | SlotAt(w.neg[p].mlines, i) && i < |media| && media[i].sub.Accept?
        ensures w.neg[p].mlines[i].role.slot.track in OnShardTracks(c.neg[p].mlines)
      {
        assert SameOrActive(b.neg[p].mlines[i], c.neg[p].mlines[i]) && SlotAt(c.neg[p].mlines, i);
        AcceptedAreOn(w, a, b, c, p, id, media, activated, i, k);
      }
    }
  }

  lemma AfterHandshake(w: World, x: World, u: World, p: Pid, ids: seq<Tid>, media: seq<AnswerMline>,
                       activated: seq<Tid>)
    requires HandshakeMoved(w, x, p) && Answered(x, u, p, ids, media, activated)
    ensures Answered(w, u, p, ids, media, activated)
  {
    OnlyTwice(w, x, u, p);
    if !Trouble(w, u, p) {
      forall j | 0 <= j < |media| && j in w.neg[p].awaiting && Publishes(w, p, media[j]) ensures Made(w, u, p, j) {
        assert Publishes(x, p, media[j]) && Made(x, u, p, j);
      }
    }
  }

  /** The tracks registered meanwhile are in the publisher's own room too. */
  lemma StillOwnRoom(w: World, a: World, b: World, c: World, p: Pid, media: seq<AnswerMline>, ids: seq<Tid>, k: Slack)
    requires Sound(c, k) && OwnRoom(w, p, ids) && p in w.neg
    requires a == WithNeg(w, p, w.neg[p].(invalidAnswers := 0, awaiting := [], offerPending := false))
    requires Registering(a, b, p, w.neg[p].awaiting, media, |media|) && c.plane.tracks == b.plane.tracks
      && c.sessions == w.sessions
    ensures OwnRoom(c, p, ids)
  {
    assert Look(0);
    forall t | p in c.sessions && t in ids && t in c.plane.tracks
      ensures c.sessions[p].room == Some(c.plane.tracks[t].room)
    {
      TrackOkFacts(c, t);
    }
  }

  /** An outstanding offer belongs to a session. */
  lemma Answerable(w: World, p: Pid, k: Slack)
    requires Sound(w, k) && p in w.neg && w.neg[p].offerPending
    ensures w.neg[p].session.Some?
  {
    assert Look(0);
    ShapeFacts(w, p, k);
  }
}
