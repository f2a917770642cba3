/** The ways a step changes the tables, and what each keeps. */
module Updates {
  import opened Collections
  import opened Ssrc
  import opened Shard
  import opened Tables

  // ── Frames: what an untouched part of the tables depends on ──────

  /** Sessions, their participants and the participant map are the same. */
  ghost predicate SameSessions(w: World, u: World) {
    && u.neg.Keys == w.neg.Keys
    && (forall p :: p in w.neg ==> u.neg[p].session == w.neg[p].session)
    && u.plane.entries.Keys == w.plane.entries.Keys
    && (forall id :: id in w.plane.entries ==> u.plane.entries[id].participant == w.plane.entries[id].participant)
    && u.plane.byParticipant == w.plane.byParticipant
    && w.plane.nextSession <= u.plane.nextSession
  }

  lemma TransportsKept(w: World, u: World)
    requires SameSessions(w, u) && Transports(w)
    ensures Transports(u)
  {
    assert Open(0);
    forall id | id in u.plane.entries ensures EntryOk(u, id) {
      assert EntryOk(w, id);
    }
    forall p | p in u.neg ensures SessionKnown(u, p) {
      assert SessionKnown(w, p);
    }
    forall p | p in u.plane.byParticipant ensures MappedBack(u.plane, p) {
      assert MappedBack(w.plane, p);
    }
  }

  /** The registry is the same, and every track still has its publisher and publish m-line. */
  ghost predicate SamePublishers(w: World, u: World) {
    && u.plane.tracks == w.plane.tracks
    && w.plane.nextTrack <= u.plane.nextTrack
    && (forall t :: t in w.plane.tracks && TrackOk(w, t) ==> TrackOk(u, t))
  }

  lemma RegistryKept(w: World, u: World)
    requires SamePublishers(w, u) && Registry(w)
    ensures Registry(u)
  {
    assert Open(0);
  }

  /** Participant `q` and everything its m-lines refer to is the same. */
  ghost predicate SameFor(w: World, u: World, q: Pid, gone: set<Tid>) {
    && q in w.neg && q in u.neg && u.neg[q] == w.neg[q]
    && q in w.sessions && q in u.sessions && u.sessions[q].room == w.sessions[q].room
    && q in w.plane.offers && q in u.plane.offers && u.plane.offers[q] == w.plane.offers[q]
    && (w.neg[q].session.Some? && w.neg[q].session.value in w.plane.entries ==>
          var id := w.neg[q].session.value;
          id in u.plane.entries && u.plane.entries[id].ssrcs == w.plane.entries[id].ssrcs)
    && (forall t :: t in w.plane.tracks ==>
          (t in u.plane.tracks && u.plane.tracks[t] == w.plane.tracks[t]) || (t in gone && t !in w.neg[q].published))
    && SameOwners(w.plane, u.plane)
  }

  ghost predicate SameOwners(v: PlaneView, z: PlaneView) {
    forall x :: x in v.owner ==> x in z.owner && z.owner[x] == v.owner[x]
  }

  lemma LinesKept(w: World, u: World, q: Pid, k: Slack, l: Slack)
    requires SameFor(w, u, q, l.gone) && Lines(w, q, k)
    requires k.gone <= l.gone && OpenMids(q, l) == OpenMids(q, k)
    ensures Lines(u, q, l)
  {
    assert Open(0);
    var n := w.neg[q];
    PublishLinesKept(q, n, w.plane.tracks, u.plane.tracks, OpenMids(q, k));
    SlotsKept(w, u, q, k.gone, l.gone);
  }

  /** Fewer slots, in the same session, with tracks still live or gone, stay in order. */
  lemma SlotsKept(w: World, u: World, p: Pid, gone: set<Tid>, more: set<Tid>)
    requires p in w.neg && p in w.sessions && p in u.neg && p in u.sessions
    requires SubscribeLines(w, p, gone) && gone <= more && Shape(w.neg[p])
    requires u.sessions[p].room == w.sessions[p].room && u.neg[p].session == w.neg[p].session
    requires u.neg[p].offerPending ==> w.neg[p].offerPending
    requires forall i :: SlotAt(u.neg[p].mlines, i) ==>
      SlotAt(w.neg[p].mlines, i) && u.neg[p].mlines[i].role == w.neg[p].mlines[i].role
    requires w.neg[p].session.Some? ==>
      var id := w.neg[p].session.value;
      id in u.plane.entries && id in w.plane.entries && u.plane.entries[id].ssrcs == w.plane.entries[id].ssrcs
    requires SameOwners(w.plane, u.plane)
    requires forall t :: t in w.plane.tracks ==>
      (t in u.plane.tracks && u.plane.tracks[t].room == w.plane.tracks[t].room) || t in more
    ensures SubscribeLines(u, p, more)
  {
    var (n, m) := (w.neg[p], u.neg[p]);
    assert SlotIndices(m.mlines) <= SlotIndices(n.mlines);
    Subset(SlotIndices(m.mlines), SlotIndices(n.mlines));
    if n.session.Some? {
      var a := w.plane.entries[n.session.value].ssrcs;
      forall i | SlotAt(m.mlines, i) ensures SlotOk(u, p, a, m.mlines[i].role.slot, more) {
        assert SlotOk(w, p, a, n.mlines[i].role.slot, gone);
      }
    }
  }

  lemma PublishLinesKept(p: Pid, n: Neg, ts: map<Tid, Track>, us: map<Tid, Track>, open: set<nat>)
    requires PublishLines(p, n, ts, open)
    requires forall t :: t in n.published && t in ts ==> t in us && us[t] == ts[t]
    ensures PublishLines(p, n, us, open)
  {
    forall m | Unregistered(n, ts, m) ensures Unregistered(n, us, m) {
    }
    forall i | PublishAt(n.mlines, i)
      ensures i in n.awaiting || i in open || exists t :: t in n.published && t in us && us[t].mid == i
    {
      if i !in n.awaiting && i !in open {
        var t :| t in n.published && t in ts && ts[t].mid == i;
        assert t in us && us[t].mid == i;
      }
    }
  }

  lemma PublishLinesSame(p: Pid, n: Neg, m: Neg, ts: map<Tid, Track>, open: set<nat>)
    requires PublishLines(p, n, ts, open)
    requires m.published == n.published && m.awaiting == n.awaiting && m.queued == n.queued
    requires forall i :: PublishAt(m.mlines, i) <==> PublishAt(n.mlines, i)
    ensures PublishLines(p, m, ts, open)
  {
    forall x | Unregistered(n, ts, x) ensures Unregistered(m, ts, x) {
    }
  }

  lemma DisciplineSame(n: Neg, m: Neg, os: seq<Offer>)
    requires Discipline(n, os) && m.version == n.version
    requires Extends(n.mlines, m.mlines) && (m.offerPending ==> n.offerPending && |m.mlines| == |n.mlines|)
    ensures Discipline(m, os)
  {
    forall j | 0 <= j < |os| ensures Extends(os[j].mlines, m.mlines) {
      assert Extends(os[j].mlines, n.mlines);
    }
  }

  /** Subscriptions on the shard, and what explains them, are the same. */
  ghost predicate SameSubs(w: World, u: World) {
    && u.plane.shard == w.plane.shard
    && Zombies(u.plane) == Zombies(w.plane)
    && w.plane.lost <= u.plane.lost
    && u.neg.Keys == w.neg.Keys
    && (forall p :: p in w.neg ==>
          u.neg[p].session == w.neg[p].session && SameOnShard(w.neg[p].mlines, u.neg[p].mlines))
    && (forall p, i :: p in u.neg && SlotAt(u.neg[p].mlines, i) ==>
          OldOrNewSlot(w, p, u.neg[p].mlines[i].role.slot))
    && SameOwners(w.plane, u.plane)
  }

  /** `slot` has the subscription id of a slot that `p` had before, or one never used. */
  ghost predicate OldOrNewSlot(w: World, p: Pid, slot: Slot)
    requires p in w.neg
  {
    || slot.onShard
    || slot.sub !in w.plane.owner
    || (exists i ::
          && SlotAt(w.neg[p].mlines, i)
          && !w.neg[p].mlines[i].role.slot.onShard
          && w.neg[p].mlines[i].role.slot.sub == slot.sub)
  }

  /** The same on-shard slots at the same positions. */
  ghost predicate SameOnShard(xs: seq<Mline>, ys: seq<Mline>) {
    && (forall i :: SlotAt(xs, i) && xs[i].role.slot.onShard ==> SlotAt(ys, i) && ys[i].role == xs[i].role)
    && (forall i :: SlotAt(ys, i) && ys[i].role.slot.onShard ==> SlotAt(xs, i) && ys[i].role == xs[i].role)
  }

  lemma SameOnShardCarries(xs: seq<Mline>, ys: seq<Mline>, x: SubId, t: Tid)
    requires SameOnShard(xs, ys) && Carries(xs, x, t)
    ensures Carries(ys, x, t)
  {
    var i :| SlotAt(xs, i) && xs[i].role.slot.onShard && xs[i].role.slot.sub == x && xs[i].role.slot.track == t;
    assert SlotAt(ys, i);
  }

  lemma ShardSubsKept(w: World, u: World, gone: set<Tid>)
    requires SameSubs(w, u) && ShardSubs(w, gone)
    ensures ShardSubs(u, gone)
  {
    assert Open(0);
    forall x | x in u.plane.shard.subs ensures x in u.plane.owner && Explained(u, x) {
      assert Explained(w, x);
      var (s, q) := (w.plane.shard.subs[x], w.plane.owner[x]);
      if q in w.neg && Carries(w.neg[q].mlines, x, s.track) {
        SameOnShardCarries(w.neg[q].mlines, u.neg[q].mlines, x, s.track);
      }
    }
    forall q, i | q in u.neg && q !in u.plane.lost && SlotAt(u.neg[q].mlines, i)
      ensures OnShardTruly(u, q, u.neg[q].mlines[i].role.slot, gone)
    {
      if u.neg[q].mlines[i].role.slot.onShard {
        assert SlotAt(w.neg[q].mlines, i);
        assert OnShardTruly(w, q, w.neg[q].mlines[i].role.slot, gone);
      }
    }
    forall q, i | q in u.neg && SlotAt(u.neg[q].mlines, i) ensures OffShardTruly(u, u.neg[q].mlines[i].role.slot) {
      var slot := u.neg[q].mlines[i].role.slot;
      assert OldOrNewSlot(w, q, slot);
      if !slot.onShard && slot.sub in w.plane.owner {
        var j :| SlotAt(w.neg[q].mlines, j) && !w.neg[q].mlines[j].role.slot.onShard
          && w.neg[q].mlines[j].role.slot.sub == slot.sub;
        assert OffShardTruly(w, w.neg[q].mlines[j].role.slot);
      }
    }
  }

  /** The shard's sessions and tracks, and what the tables say of them, are the same. */
  ghost predicate SameShardTables(v: PlaneView, z: PlaneView) {
    && z.shard.sessions == v.shard.sessions && z.shard.tracks == v.shard.tracks
    && z.pendingClose == v.pendingClose && z.leaked == v.leaked
    && z.tracks == v.tracks
    && v.nextSession <= z.nextSession && v.nextTrack <= z.nextTrack
    && v.lost <= z.lost
    && z.entries.Keys == v.entries.Keys
    && (forall id :: id in v.entries ==>
          z.entries[id] == v.entries[id].(ssrcs := z.entries[id].ssrcs)
            && Advanced(v.entries[id].ssrcs, z.entries[id].ssrcs))
  }

  /** `a` only moved on to later offsets. */
  predicate Advanced(a: Allocator, b: Allocator) {
    b == a || (Valid(b) && b == a.(next := b.next, peers := b.peers) && a.next <= b.next)
  }

  lemma ShardTablesKept(v: PlaneView, z: PlaneView)
    requires SameShardTables(v, z) && ShardSessions(v) && ShardTracks(v)
    ensures ShardSessions(z) && ShardTracks(z)
  {
    assert Open(0);
    assert Zombies(z) == Zombies(v);
    forall id | id in z.entries ensures SessionOk(z, id) {
      assert SessionOk(v, id);
    }
  }

  // ── Changes outside the tables ───────────────────────────────────

  /** Only the closing list, the outbox, the counters and the history changed. */
  ghost predicate Rebooks(w: World, u: World) {
    && u == w.(plane := w.plane.(nextSession := u.plane.nextSession, closing := u.plane.closing,
                                 outbox := u.plane.outbox, rejects := u.plane.rejects, refused := u.plane.refused,
                                 lost := u.plane.lost, dropped := u.plane.dropped))
    && w.plane.lost <= u.plane.lost
    && w.plane.outbox.Keys <= u.plane.outbox.Keys
    && w.plane.nextSession <= u.plane.nextSession
  }

  lemma Rebooked(w: World, u: World, k: Slack, l: Slack)
    requires Core(w, k) && Rebooks(w, u) && Books(u.plane, l.taken) && l == k.(taken := l.taken)
    ensures Core(u, l)
  {
    TransportsKept(w, u);
    assert SamePublishers(w, u);
    RegistryKept(w, u);
    forall q | q in u.neg ensures Lines(u, q, l) {
      LinesInDomain(w, q, k);
      LinesKept(w, u, q, k, l);
    }
    assert SameShardTables(w.plane, u.plane);
    ShardTablesKept(w.plane, u.plane);
    assert SameSubs(w, u);
    ShardSubsKept(w, u, k.gone);
  }

  lemma LinesInDomain(w: World, q: Pid, k: Slack)
    requires q in w.neg && Lines(w, q, k)
    ensures q in w.sessions && q in w.plane.offers
  {
    assert Open(0);
  }

  // ── Changes of one participant's m-lines ─────────────────────────

  /** Of the tables, only participant `p`'s m-lines, flags, offers and session entry changed. */
  ghost predicate Relines(w: World, u: World, p: Pid) {
    && p in w.neg
    && p in u.neg
    && u.sessions == w.sessions
    && u.neg == w.neg[p := u.neg[p]]
    && u.neg[p].session == w.neg[p].session
    && u.neg[p].published == w.neg[p].published
    && (forall t :: t in w.neg[p].published && t in w.plane.tracks ==>
          PublishAt(u.neg[p].mlines, w.plane.tracks[t].mid))
    && SameTables(w.plane, u.plane, p)
  }

  /** Of the plane's tables, only `p`'s session entry and offers changed. */
  ghost predicate SameTables(v: PlaneView, z: PlaneView, p: Pid) {
    && z.tracks == v.tracks && z.nextTrack == v.nextTrack
    && z.byParticipant == v.byParticipant && v.nextSession <= z.nextSession
    && z.entries.Keys == v.entries.Keys
    && (forall id :: id in v.entries ==> z.entries[id].participant == v.entries[id].participant)
    && (forall id :: id in v.entries && v.entries[id].participant != p ==> z.entries[id] == v.entries[id])
    && v.outbox.Keys <= z.outbox.Keys
    && v.offers.Keys <= z.offers.Keys
    && (forall q :: q in v.offers && q != p ==> z.offers[q] == v.offers[q])
    && SameOwners(v, z)
  }

  lemma RelinesFor(w: World, u: World, p: Pid, q: Pid, gone: set<Tid>)
    requires Relines(w, u, p) && Transports(w)
    requires q in w.neg && q in w.sessions && q in w.plane.offers && q != p
    ensures SameFor(w, u, q, gone)
  {
    assert Open(0);
    assert SessionKnown(w, q);
  }

  lemma RelinesPublishers(w: World, u: World, p: Pid)
    requires Relines(w, u, p) && Registry(w)
    ensures SamePublishers(w, u)
  {
    assert Open(0);
    forall t | t in u.plane.tracks ensures TrackOk(u, t) {
      assert TrackOk(w, t);
    }
  }

  /**
   Changing one participant's m-lines keeps the tables, if its own m-lines are in order and
   the shard still agrees.
   */
  lemma Relined(w: World, u: World, p: Pid, k: Slack, l: Slack)
    requires Core(w, k) && Relines(w, u, p) && Lines(u, p, l)
    requires ShardSessions(u.plane) && ShardTracks(u.plane) && ShardSubs(u, l.gone) && Books(u.plane, l.taken)
    requires k.gone <= l.gone && forall q :: q in w.neg && q != p ==> OpenMids(q, l) == OpenMids(q, k)
    ensures Core(u, l)
  {
    assert SameSessions(w, u);
    TransportsKept(w, u);
    RelinesPublishers(w, u, p);
    RegistryKept(w, u);
    forall q | q in u.neg ensures Lines(u, q, l) {
      if q != p {
        LinesInDomain(w, q, k);
        RelinesFor(w, u, p, q, l.gone);
        LinesKept(w, u, q, k, l);
      }
    }
  }

  /** As `Relined`, when no command was sent and no slot on the shard was touched. */
  lemma RelinedQuietly(w: World, u: World, p: Pid, k: Slack, l: Slack)
    requires Core(w, k) && Relines(w, u, p) && Lines(u, p, l)
    requires l == k.(who := l.who, open := l.open) && forall q :: q in w.neg && q != p ==>
      OpenMids(q, l) == OpenMids(q, k)
    requires SameShardTables(w.plane, u.plane) && SameOnShard(w.neg[p].mlines, u.neg[p].mlines)
    requires forall i :: SlotAt(u.neg[p].mlines, i) ==> OldOrNewSlot(w, p, u.neg[p].mlines[i].role.slot)
    requires u.plane == w.plane.(entries := u.plane.entries, nextSub := u.plane.nextSub, owner := u.plane.owner,
                                 outbox := u.plane.outbox, offers := u.plane.offers)
    requires forall x :: x in u.plane.owner ==> x < u.plane.nextSub
    ensures Core(u, l)
  {
    ShardTablesKept(w.plane, u.plane);
    assert Zombies(u.plane) == Zombies(w.plane);
    ShardSubsKept(w, u, k.gone);
    BooksKept(w.plane, u.plane, k.taken);
    Relined(w, u, p, k, l);
  }

  lemma BooksKept(v: PlaneView, z: PlaneView, taken: set<Pid>)
    requires Books(v, taken)
    requires z.closing == v.closing && z.rejects == v.rejects && z.refused == v.refused && z.lost == v.lost
    requires z.dropped == v.dropped && z.leaked == v.leaked && z.pendingClose == v.pendingClose
    requires v.nextSession <= z.nextSession && v.nextTrack <= z.nextTrack
    requires forall x :: x in z.owner ==> x < z.nextSub
    ensures Books(z, taken)
  {
    assert Open(0);
  }

  lemma {:induction false} DistinctSize(s: seq<nat>)
    requires NoDup(s)
    ensures |Elements(s)| == |s|
  {
    if s == [] {
      assert Elements(s) == {};
    } else {
      var n := |s| - 1;
      assert s == s[..n] + [s[n]];
      DistinctSize(s[..n]);
      assert s[n] !in s[..n];
      assert Elements(s) == Elements(s[..n]) + {s[n]};
    }
  }
}
