/** `AddTrack` and `RemoveTrack`, and the publish m-lines behind them. */
module Publishing {
  import opened Collections
  import opened Wrappers
  import opened Shard
  import opened Tables
  import opened Updates
  import opened Commands

  // ── AddTrack ─────────────────────────────────────────────────────

  ghost function TrackAdded(w: World, p: Pid, info: Track): World
    requires p in w.neg
  {
    var t := w.plane.nextTrack;
    w.(neg := w.neg[p := w.neg[p].(published := w.neg[p].published + [t])],
       plane := Accepted(w.plane.(nextTrack := t + 1), AddTrack(info.session, t, info.ssrc), p).(
         tracks := w.plane.tracks[t := info]))
  }

  /** `info` is a track of `p` that an answered, still unregistered publish m-line may become. */
  ghost predicate Addable(w: World, p: Pid, info: Track, k: Slack) {
    && p in w.neg && p in w.sessions
    && info.publisher == p && w.neg[p].session == Some(info.session) && w.sessions[p].room == Some(info.room)
    && k.who == p && info.mid in k.open
    && |w.neg[p].published| < MAX_TRACKS_PER_SESSION
    && (info.ssrc.Some? ==>
         forall t :: t in w.plane.tracks && w.plane.tracks[t].publisher == p ==> w.plane.tracks[t].ssrc != info.ssrc)
  }

  lemma ShardTrackFacts(w: World, p: Pid, id: Sid, x: Tid)
    requires Transports(w) && Registry(w) && ShardSessions(w.plane) && ShardTracks(w.plane)
    requires p in w.neg && w.neg[p].session == Some(id) && x in TracksOf(w.plane.shard, id)
    ensures x in w.plane.tracks && w.plane.tracks[x].publisher == p && x in w.neg[p].published
    ensures w.plane.shard.tracks[x].ssrc == w.plane.tracks[x].ssrc
  {
    assert Open(0);
    assert SessionKnown(w, p) && TrackOk(w, x) && SessionKnown(w, w.plane.tracks[x].publisher);
  }

  /** The shard takes every track the checks let through. */
  lemma AddTrackVerdict(w: World, p: Pid, info: Track, k: Slack)
    requires Core(w, k) && Addable(w, p, info, k)
    ensures Verdict(w.plane.shard, AddTrack(info.session, w.plane.nextTrack, info.ssrc)).None?
  {
    var (v, id, n) := (w.plane, info.session, w.neg[p]);
    TransportFacts(w, p);
    SessionFacts(v, id);
    FreshTrack(v);
    forall x | x in TracksOf(v.shard, id)
      ensures x in Elements(n.published) && x in v.tracks && v.tracks[x].publisher == p
        && v.shard.tracks[x].ssrc == v.tracks[x].ssrc
    {
      ShardTrackFacts(w, p, id, x);
    }
    Subset(TracksOf(v.shard, id), Elements(n.published));
    ElementsSize(n.published);
    forall x | x in v.shard.tracks && info.ssrc.Some? ensures v.shard.tracks[x] != ShardTrack(id, info.ssrc) {
      if v.shard.tracks[x].session == id {
        assert x in TracksOf(v.shard, id);
      }
    }
  }

  lemma FreshTrack(v: PlaneView)
    requires ShardTracks(v)
    ensures v.nextTrack !in v.shard.tracks && v.nextTrack !in v.tracks
  {
    assert Open(0);
  }

  lemma TrackAddedOk(w: World, u: World, p: Pid, info: Track, k: Slack)
    requires p in w.neg && Lines(w, p, k) && Addable(w, p, info, k)
      && (forall t :: t in w.plane.tracks ==> TrackOk(w, t))
    requires u.sessions == w.sessions && 0 < w.plane.nextTrack
    requires u.neg == w.neg[p := w.neg[p].(published := w.neg[p].published + [w.plane.nextTrack])]
    requires u.plane.tracks == w.plane.tracks[w.plane.nextTrack := info] && u.plane.nextTrack == w.plane.nextTrack + 1
    ensures forall t :: t in u.plane.tracks ==> TrackOk(u, t)
    ensures forall t :: t in w.plane.tracks && w.plane.tracks[t].publisher == p ==> w.plane.tracks[t].mid != info.mid
  {
    assert Open(0);
    assert Unregistered(w.neg[p], w.plane.tracks, info.mid);
    forall t | t in u.plane.tracks ensures TrackOk(u, t) {
      if t in w.plane.tracks {
        assert TrackOk(w, t);
      }
    }
    forall t | t in w.plane.tracks && w.plane.tracks[t].publisher == p ensures w.plane.tracks[t].mid != info.mid {
      assert TrackOk(w, t);
    }
  }

  lemma TrackAddedRegistry(w: World, u: World, p: Pid, info: Track, k: Slack)
    requires p in w.neg && Registry(w) && Lines(w, p, k) && Addable(w, p, info, k)
    requires u.sessions == w.sessions && 0 < w.plane.nextTrack
    requires u.neg == w.neg[p := w.neg[p].(published := w.neg[p].published + [w.plane.nextTrack])]
    requires u.plane.tracks == w.plane.tracks[w.plane.nextTrack := info] && u.plane.nextTrack == w.plane.nextTrack + 1
    ensures Registry(u)
  {
    assert Open(0);
    TrackAddedOk(w, u, p, info, k);
  }

  lemma TrackAddedPublishLines(p: Pid, n: Neg, ts: map<Tid, Track>, t: Tid, info: Track, open: set<nat>)
    requires PublishLines(p, n, ts, open) && t !in ts && info.publisher == p && info.mid in open
    ensures PublishLines(p, n.(published := n.published + [t]), ts[t := info], open - {info.mid})
  {
    var (m, us, rest) := (n.(published := n.published + [t]), ts[t := info], open - {info.mid});
    assert m.published[|n.published|] == t && forall x :: x in m.published <==> x in n.published || x == t;
    assert Unregistered(n, ts, info.mid);
    forall x | Unregistered(n, ts, x) && x != info.mid ensures Unregistered(m, us, x) {
    }
    assert |open| == |rest| + 1;
    forall i | PublishAt(m.mlines, i)
      ensures i in m.awaiting || i in rest || exists x :: x in m.published && x in us && us[x].mid == i
    {
      if i == info.mid {
        assert us[t].mid == i;
      } else if i !in n.awaiting && i !in open {
        var x :| x in n.published && x in ts && ts[x].mid == i;
        assert x in m.published && us[x].mid == i;
      }
    }
  }

  lemma TrackAddedLines(w: World, u: World, p: Pid, info: Track, k: Slack)
    requires p in w.neg && Lines(w, p, k) && Addable(w, p, info, k) && w.plane.nextTrack !in w.plane.tracks
    requires u == TrackAdded(w, p, info)
    ensures Lines(u, p, k.(open := k.open - {info.mid}))
  {
    assert Open(0);
    var (n, m, t) := (w.neg[p], u.neg[p], w.plane.nextTrack);
    TrackAddedPublishLines(p, n, w.plane.tracks, t, info, k.open);
    DisciplineSame(n, m, w.plane.offers[p]);
    SlotsKept(w, u, p, k.gone, k.gone);
  }

  lemma TrackAddedShardTracks(v: PlaneView, z: PlaneView, info: Track)
    requires ShardTracks(v) && Zombies(z) == Zombies(v) && 0 < v.nextTrack
    requires z.tracks == v.tracks[v.nextTrack := info] && z.nextTrack == v.nextTrack + 1
    requires z.shard.tracks == v.shard.tracks[v.nextTrack := ShardTrack(info.session, info.ssrc)]
    ensures ShardTracks(z)
  {
    assert Open(0);
  }

  /** Commands that only add to the shard's tables leave its subscriptions explained. */
  lemma ShardSubsGrown(w: World, u: World, gone: set<Tid>)
    requires ShardSubs(w, gone) && Zombies(u.plane) == Zombies(w.plane)
    requires u.neg.Keys == w.neg.Keys
    requires forall p :: p in w.neg ==> u.neg[p].session == w.neg[p].session && u.neg[p].mlines == w.neg[p].mlines
    requires u.plane.owner == w.plane.owner && u.plane.lost == w.plane.lost && u.plane.shard.subs == w.plane.shard.subs
    requires u.plane.shard.sessions.Keys == w.plane.shard.sessions.Keys
    requires forall t :: t in w.plane.shard.tracks ==>
      t in u.plane.shard.tracks && u.plane.shard.tracks[t] == w.plane.shard.tracks[t]
    requires forall t :: t in u.plane.shard.tracks ==> u.plane.shard.tracks[t].session in u.plane.shard.sessions
    ensures ShardSubs(u, gone)
  {
    assert Open(0);
    forall x | x in u.plane.shard.subs ensures x in u.plane.owner && Explained(u, x) {
      assert Explained(w, x);
    }
    forall q, i | q in u.neg && SlotAt(u.neg[q].mlines, i)
      ensures q in u.plane.lost || OnShardTruly(u, q, u.neg[q].mlines[i].role.slot, gone)
      ensures OffShardTruly(u, u.neg[q].mlines[i].role.slot)
    {
      assert q in w.plane.lost || OnShardTruly(w, q, w.neg[q].mlines[i].role.slot, gone);
      assert OffShardTruly(w, w.neg[q].mlines[i].role.slot);
    }
  }

  lemma LinkedFacts(w: World, gone: set<Tid>)
    requires ShardSubs(w, gone)
    ensures Linked(w.plane.shard)
  {
    assert Open(0);
  }

  /** An answered publish m-line becomes a track, on the shard and in every table. */
  lemma TrackAddedKeeps(w: World, p: Pid, info: Track, k: Slack)
    requires Core(w, k) && Addable(w, p, info, k)
    ensures Core(TrackAdded(w, p, info), k.(open := k.open - {info.mid}))
    ensures TrackAdded(w, p, info).plane.rejects == w.plane.rejects
  {
    var (u, l) := (TrackAdded(w, p, info), k.(open := k.open - {info.mid}));
    AddTrackVerdict(w, p, info, k);
    FreshTrack(w.plane);
    QuietFacts(w.plane, k.taken);
    LinkedFacts(w, k.gone);
    TransportFacts(w, p);
    SessionFacts(w.plane, info.session);
    assert Zombies(u.plane) == Zombies(w.plane);
    TrackAddedTables(w, u, p, info, k, l);
    ShardSessionsSame(w.plane, u.plane);
    TrackAddedShardTracks(w.plane, u.plane, info);
    ShardSubsGrown(w, u, k.gone);
    OwnerFacts(w.plane, k.taken);
    BooksKept(w.plane, u.plane, k.taken);
  }

  lemma TrackAddedTables(w: World, u: World, p: Pid, info: Track, k: Slack, l: Slack)
    requires Core(w, k) && Addable(w, p, info, k) && u == TrackAdded(w, p, info) && l == k.(open := k.open - {info.mid})
    requires w.plane.nextTrack !in w.plane.tracks && 0 < w.plane.nextTrack
    ensures Transports(u) && Registry(u) && forall q :: q in u.neg ==> Lines(u, q, l)
  {
    assert SameSessions(w, u);
    TransportsKept(w, u);
    TrackAddedRegistry(w, u, p, info, k);
    TrackAddedLines(w, u, p, info, k);
    forall q | q in u.neg && q != p ensures Lines(u, q, l) {
      LinesInDomain(w, q, k);
      assert SameFor(w, u, q, k.gone);
      LinesKept(w, u, q, k, l);
    }
  }

  lemma OwnerFacts(v: PlaneView, taken: set<Pid>)
    requires Books(v, taken)
    ensures forall x :: x in v.owner ==> x < v.nextSub
  {
    assert Open(0);
  }

  lemma ShardSessionsSame(v: PlaneView, z: PlaneView)
    requires ShardSessions(v) && z.entries == v.entries && z.shard.sessions == v.shard.sessions && z.lost == v.lost
    requires z.pendingClose == v.pendingClose && z.leaked == v.leaked && z.nextSession == v.nextSession
    ensures ShardSessions(z)
  {
    assert Open(0);
    assert Zombies(z) == Zombies(v);
    forall id | id in z.entries ensures SessionOk(z, id) {
      assert SessionOk(v, id);
    }
  }

  // ── RemoveTrack ──────────────────────────────────────────────────

  /** `s` without `t` (`retain`). */
  function Without(s: seq<Tid>, t: Tid): (r: seq<Tid>)
    ensures forall x :: x in r <==> x in s && x != t
    ensures NoDup(s) ==> NoDup(r)
    ensures |r| <= |s|
  {
    if s == [] then []
    else
      var rest := Without(s[1..], t);
      assert NoDup(s) ==> NoDup(s[1..]) && s[0] !in s[1..];
      assert s == [s[0]] + s[1..];
      var r := if s[0] == t then rest else [s[0]] + rest;
      assert forall x :: x in r <==> x in s && x != t;
      r
  }

  /** The first publish m-line with `mid`. */
  function FindPublish(ms: seq<Mline>, mid: nat, from: nat := 0): (r: Option<nat>)
    requires from <= |ms|
    ensures r.Some? ==> from <= r.value < |ms| && ms[r.value].role.Publish? && ms[r.value].mid == mid
    ensures r.None? ==> forall i :: from <= i < |ms| ==> !(ms[i].role.Publish? && ms[i].mid == mid)
    decreases |ms| - from
  {
    if from == |ms| then None
    else if ms[from].role.Publish? && ms[from].mid == mid then Some(from)
    else FindPublish(ms, mid, from + 1)
  }

  /** The publish m-line `mid` turned inactive, if there is one. */
  function PublishReleased(n: Neg, mid: nat): Neg {
    match FindPublish(n.mlines, mid)
    case Some(i) => Deactivated(n, i)
    case None => n
  }

  function Released(n: Neg, t: Tid, mid: nat): Neg {
    PublishReleased(n.(published := Without(n.published, t)), mid)
  }

  ghost function TrackRemoved(w: World, p: Pid, t: Tid): World
    requires p in w.neg && t in w.plane.tracks
  {
    w.(neg := w.neg[p := Released(w.neg[p], t, w.plane.tracks[t].mid)],
       plane := Accepted(w.plane, RemoveTrack(t), p).(tracks := w.plane.tracks - {t}))
  }

  lemma ReleasedShape(n: Neg, t: Tid, mid: nat)
    requires Shape(n) && PublishAt(n.mlines, mid)
    ensures Released(n, t, mid) == Deactivated(n.(published := Without(n.published, t)), mid)
  {
    assert n.mlines[mid].mid == mid;
  }

  lemma TrackRemovedRegistry(w: World, u: World, p: Pid, t: Tid)
    requires Registry(w) && p in w.neg && t in w.plane.tracks && w.plane.tracks[t].publisher == p
    requires PublishAt(w.neg[p].mlines, w.plane.tracks[t].mid) && u.sessions == w.sessions
    requires u.neg ==
      w.neg[p := Deactivated(w.neg[p].(published := Without(w.neg[p].published, t)), w.plane.tracks[t].mid)]
    requires u.plane.tracks == w.plane.tracks - {t} && u.plane.nextTrack == w.plane.nextTrack
    ensures Registry(u)
  {
    assert Open(0);
    forall x | x in u.plane.tracks ensures TrackOk(u, x) {
      assert TrackOk(w, x);
    }
  }

  lemma TrackRemovedPublishLines(p: Pid, n: Neg, ts: map<Tid, Track>, t: Tid, open: set<nat>)
    requires PublishLines(p, n, ts, open) && t in n.published && t in ts && PublishAt(n.mlines, ts[t].mid)
    requires forall x :: x in n.published && x in ts && x != t ==> ts[x].mid != ts[t].mid
    ensures PublishLines(p, Deactivated(n.(published := Without(n.published, t)), ts[t].mid), ts - {t}, open)
  {
    var (m, us) := (Deactivated(n.(published := Without(n.published, t)), ts[t].mid), ts - {t});
    forall x | Unregistered(n, ts, x) ensures Unregistered(m, us, x) {
      assert ts[t].mid != x;
    }
    forall i | PublishAt(m.mlines, i)
      ensures i in m.awaiting || i in open || exists x :: x in m.published && x in us && us[x].mid == i
    {
      assert PublishAt(n.mlines, i);
      if i !in n.awaiting && i !in open {
        var x :| x in n.published && x in ts && ts[x].mid == i;
        assert x in m.published && us[x].mid == i;
      }
    }
  }

  lemma TrackRemovedLines(w: World, u: World, p: Pid, t: Tid, k: Slack)
    requires p in w.neg && Lines(w, p, k) && t in w.plane.tracks && w.plane.tracks[t].publisher == p && TrackOk(w, t)
    requires forall x :: x in w.neg[p].published && x in w.plane.tracks && x != t ==>
      w.plane.tracks[x].mid != w.plane.tracks[t].mid
    requires u.neg ==
      w.neg[p := Deactivated(w.neg[p].(published := Without(w.neg[p].published, t)), w.plane.tracks[t].mid)]
    requires u.sessions == w.sessions && u.plane.tracks == w.plane.tracks - {t} && u.plane.entries == w.plane.entries
    requires u.plane.offers == w.plane.offers && u.plane.owner == w.plane.owner
    ensures Lines(u, p, k.(gone := k.gone + {t}))
  {
    assert Open(0);
    var (n, m) := (w.neg[p], u.neg[p]);
    TrackRemovedPublishLines(p, n, w.plane.tracks, t, OpenMids(p, k));
    DisciplineSame(n, m, w.plane.offers[p]);
    SlotsKept(w, u, p, k.gone, k.gone + {t});
  }

  lemma MidsDistinct(w: World, t: Tid, x: Tid)
    requires Registry(w) && t in w.plane.tracks && x in w.plane.tracks && x != t
    requires w.plane.tracks[t].publisher == w.plane.tracks[x].publisher
    ensures w.plane.tracks[x].mid != w.plane.tracks[t].mid
  {
    assert Open(0);
  }

  lemma PublishedFacts(w: World, p: Pid, k: Slack)
    requires p in w.neg && Lines(w, p, k)
    ensures forall t :: t in w.neg[p].published ==> t in w.plane.tracks && w.plane.tracks[t].publisher == p
  {
    assert Open(0);
  }

  /** `RemoveTrack` takes the subscriptions to the track with it. */
  lemma TrackRemovedShardSubs(w: World, u: World, t: Tid, gone: set<Tid>)
    requires ShardSubs(w, gone) && Zombies(u.plane) == Zombies(w.plane) && t in w.plane.shard.tracks
    requires u.neg.Keys == w.neg.Keys
    requires forall p :: p in w.neg ==>
      u.neg[p].session == w.neg[p].session && SameSlots(w.neg[p].mlines, u.neg[p].mlines)
    requires u.plane.owner == w.plane.owner && u.plane.lost == w.plane.lost
    requires u.plane.shard == Apply(w.plane.shard, RemoveTrack(t))
    ensures ShardSubs(u, gone + {t})
  {
    assert Open(0);
    forall x | x in u.plane.shard.subs ensures x in u.plane.owner && Explained(u, x) {
      assert Explained(w, x);
      var (s, q) := (w.plane.shard.subs[x], w.plane.owner[x]);
      if q in w.neg && Carries(w.neg[q].mlines, x, s.track) {
        SameSlotsCarries(w.neg[q].mlines, u.neg[q].mlines, x, s.track);
      }
    }
    forall q, i | q in u.neg && SlotAt(u.neg[q].mlines, i)
      ensures q in u.plane.lost || OnShardTruly(u, q, u.neg[q].mlines[i].role.slot, gone + {t})
      ensures OffShardTruly(u, u.neg[q].mlines[i].role.slot)
    {
      assert SlotAt(w.neg[q].mlines, i);
      assert q in w.plane.lost || OnShardTruly(w, q, w.neg[q].mlines[i].role.slot, gone);
      assert OffShardTruly(w, w.neg[q].mlines[i].role.slot);
    }
  }

  /** The same subscribe m-lines at the same positions. */
  ghost predicate SameSlots(xs: seq<Mline>, ys: seq<Mline>) {
    && (forall i :: SlotAt(xs, i) ==> SlotAt(ys, i) && ys[i].role == xs[i].role)
    && (forall i :: SlotAt(ys, i) ==> SlotAt(xs, i))
  }

  lemma SameSlotsCarries(xs: seq<Mline>, ys: seq<Mline>, x: SubId, t: Tid)
    requires SameSlots(xs, ys) && Carries(xs, x, t)
    ensures Carries(ys, x, t)
  {
    var i :| SlotAt(xs, i) && xs[i].role.slot.onShard && xs[i].role.slot.sub == x && xs[i].role.slot.track == t;
    assert SlotAt(ys, i);
  }

  lemma TrackRemovedShardTracks(v: PlaneView, z: PlaneView, t: Tid)
    requires ShardTracks(v) && Zombies(z) == Zombies(v) && t in v.tracks
    requires z.tracks == v.tracks - {t} && z.nextTrack == v.nextTrack && z.shard.tracks == v.shard.tracks - {t}
    ensures ShardTracks(z)
  {
    assert Open(0);
  }

  lemma NotPublishedByOthers(w: World, p: Pid, q: Pid, t: Tid, k: Slack)
    requires q in w.neg && q != p && Lines(w, q, k) && t in w.plane.tracks && w.plane.tracks[t].publisher == p
    ensures t !in w.neg[q].published
  {
    assert Open(0);
  }

  lemma TrackOkFacts(w: World, t: Tid)
    requires Registry(w) && t in w.plane.tracks
    ensures TrackOk(w, t)
  {
    assert Open(0);
  }

  lemma ShapeFacts(w: World, p: Pid, k: Slack)
    requires p in w.neg && Lines(w, p, k)
    ensures Shape(w.neg[p])
  {
    assert Open(0);
  }

  /** Participants other than `p` keep their m-lines in order. */
  lemma OthersKept(w: World, u: World, p: Pid, k: Slack, l: Slack)
    requires (forall q :: q in w.neg ==> Lines(w, q, k)) && k.gone <= l.gone
    requires forall q :: q in w.neg && q != p ==> SameFor(w, u, q, l.gone) && OpenMids(q, l) == OpenMids(q, k)
    ensures forall q :: q in w.neg && q != p ==> q in u.neg && Lines(u, q, l)
  {
    forall q | q in w.neg && q != p ensures q in u.neg && Lines(u, q, l) {
      LinesKept(w, u, q, k, l);
    }
  }

  lemma TrackRemovedFor(w: World, u: World, p: Pid, t: Tid, k: Slack, gone: set<Tid>)
    requires (forall q :: q in w.neg ==> Lines(w, q, k)) && t in gone
    requires p in w.neg && t in w.plane.tracks && w.plane.tracks[t].publisher == p
    requires u.neg.Keys == w.neg.Keys && (forall q :: q in w.neg && q != p ==> u.neg[q] == w.neg[q])
    requires u.sessions == w.sessions && u.plane.tracks == w.plane.tracks - {t} && u.plane.entries == w.plane.entries
    requires u.plane.offers == w.plane.offers && u.plane.owner == w.plane.owner
    ensures forall q :: q in w.neg && q != p ==> SameFor(w, u, q, gone)
  {
    forall q | q in w.neg && q != p ensures SameFor(w, u, q, gone) {
      LinesInDomain(w, q, k);
      NotPublishedByOthers(w, p, q, t, k);
    }
  }

  lemma OwnMid(w: World, p: Pid, t: Tid, k: Slack)
    requires p in w.neg && Lines(w, p, k) && Registry(w) && t in w.plane.tracks && w.plane.tracks[t].publisher == p
    ensures forall x :: x in w.neg[p].published && x in w.plane.tracks && x != t ==>
      w.plane.tracks[x].mid != w.plane.tracks[t].mid
  {
    PublishedFacts(w, p, k);
    forall x | x in w.neg[p].published && x in w.plane.tracks && x != t
      ensures w.plane.tracks[x].mid != w.plane.tracks[t].mid
    {
      MidsDistinct(w, t, x);
    }
  }

  lemma TrackRemovedIs(w: World, p: Pid, t: Tid, k: Slack)
    requires Core(w, k) && p in w.neg && t in w.plane.tracks && w.plane.tracks[t].publisher == p
    ensures t in w.plane.shard.tracks && TrackOk(w, t)
    ensures TrackRemoved(w, p, t) ==
      w.(neg := w.neg[p := Deactivated(w.neg[p].(published := Without(w.neg[p].published, t)), w.plane.tracks[t].mid)],
         plane := w.plane.(shard := Apply(w.plane.shard, RemoveTrack(t)), tracks := w.plane.tracks - {t}))
  {
    TrackFacts(w.plane, t);
    TrackOkFacts(w, t);
    ShapeFacts(w, p, k);
    ReleasedShape(w.neg[p], t, w.plane.tracks[t].mid);
  }

  lemma TrackRemovedTables(w: World, u: World, p: Pid, t: Tid, k: Slack, l: Slack)
    requires Core(w, k) && p in w.neg && t in w.plane.tracks && w.plane.tracks[t].publisher == p
      && l == k.(gone := k.gone + {t})
    requires TrackOk(w, t) && u.sessions == w.sessions
    requires forall x :: x in w.neg[p].published && x in w.plane.tracks && x != t ==>
      w.plane.tracks[x].mid != w.plane.tracks[t].mid
    requires u.neg ==
      w.neg[p := Deactivated(w.neg[p].(published := Without(w.neg[p].published, t)), w.plane.tracks[t].mid)]
    requires u.plane == w.plane.(shard := u.plane.shard, tracks := w.plane.tracks - {t})
    ensures Transports(u) && Registry(u) && forall q :: q in u.neg ==> Lines(u, q, l)
  {
    assert SameSessions(w, u);
    TransportsKept(w, u);
    TrackRemovedRegistry(w, u, p, t);
    TrackRemovedLines(w, u, p, t, k);
    TrackRemovedFor(w, u, p, t, k, l.gone);
    OthersKept(w, u, p, k, l);
  }

  /** An unpublished track leaves the shard and the registry; its m-line can be used again. */
  lemma TrackRemovedKeeps(w: World, p: Pid, t: Tid, k: Slack)
    requires Core(w, k) && p in w.neg && t in w.plane.tracks && w.plane.tracks[t].publisher == p
    ensures Core(TrackRemoved(w, p, t), k.(gone := k.gone + {t}))
    ensures TrackRemoved(w, p, t).plane.rejects == w.plane.rejects
  {
    var (u, l) := (TrackRemoved(w, p, t), k.(gone := k.gone + {t}));
    TrackRemovedIs(w, p, t, k);
    OwnMid(w, p, t, k);
    assert Zombies(u.plane) == Zombies(w.plane);
    TrackRemovedTables(w, u, p, t, k, l);
    ShardSessionsSame(w.plane, u.plane);
    TrackRemovedShardTracks(w.plane, u.plane, t);
    TrackRemovedShardSubs(w, u, t, k.gone);
    OwnerFacts(w.plane, k.taken);
    BooksKept(w.plane, u.plane, k.taken);
  }
}
