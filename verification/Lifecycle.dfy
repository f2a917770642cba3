/** Participants arriving and leaving, their transports, and sessions closed late. */
module Lifecycle {
  import opened Collections
  import opened Wrappers
  import opened Shard
  import opened Tables
  import opened Updates
  import opened Commands
  import opened Publishing

  // ── Connect and join ─────────────────────────────────────────────

  ghost function Connected(w: World, p: Pid): World {
    w.(sessions := w.sessions[p := Handle(None, [])], neg := w.neg[p := NEW_NEG],
       plane := w.plane.(outbox := w.plane.outbox[p := []], offers := w.plane.offers[p := []]))
  }

  lemma ConnectedTransports(w: World, p: Pid)
    requires Transports(w) && p !in w.neg
    ensures Transports(Connected(w, p))
  {
    assert Open(0);
    var u := Connected(w, p);
    forall id | id in u.plane.entries ensures EntryOk(u, id) {
      assert EntryOk(w, id);
    }
    forall q | q in u.neg ensures SessionKnown(u, q) {
      assert q != p ==> SessionKnown(w, q);
    }
    forall q | q in u.plane.byParticipant ensures MappedBack(u.plane, q) {
      assert MappedBack(w.plane, q);
    }
  }

  lemma ConnectedRegistry(w: World, p: Pid)
    requires Registry(w) && p !in w.neg
    ensures SamePublishers(w, Connected(w, p))
  {
    assert Open(0);
    forall t | t in w.plane.tracks ensures TrackOk(Connected(w, p), t) {
      assert TrackOk(w, t);
    }
  }

  lemma ConnectedShardSubs(w: World, p: Pid, gone: set<Tid>)
    requires ShardSubs(w, gone) && p !in w.neg
    ensures ShardSubs(Connected(w, p), gone)
  {
    assert Open(0);
    var u := Connected(w, p);
    assert Zombies(u.plane) == Zombies(w.plane);
    forall x | x in u.plane.shard.subs ensures x in u.plane.owner && Explained(u, x) {
      assert Explained(w, x);
    }
    forall q, i | q in u.neg && SlotAt(u.neg[q].mlines, i)
      ensures q in u.plane.lost || OnShardTruly(u, q, u.neg[q].mlines[i].role.slot, gone)
      ensures OffShardTruly(u, u.neg[q].mlines[i].role.slot)
    {
      assert q in w.plane.lost || OnShardTruly(w, q, w.neg[q].mlines[i].role.slot, gone);
      assert OffShardTruly(w, w.neg[q].mlines[i].role.slot);
    }
  }

  lemma ConnectedLines(w: World, p: Pid, k: Slack)
    requires OpenMids(p, k) == {}
    ensures Lines(Connected(w, p), p, k)
  {
    assert Open(0);
    assert SlotIndices([]) == {};
  }

  /** A participant that is not in the tables arrives with nothing. */
  lemma ConnectedKeeps(w: World, p: Pid, k: Slack)
    requires Core(w, k) && p !in w.neg && p != 0 && OpenMids(p, k) == {}
    ensures Core(Connected(w, p), k)
  {
    var u := Connected(w, p);
    ConnectedTransports(w, p);
    ConnectedRegistry(w, p);
    RegistryKept(w, u);
    ConnectedLines(w, p, k);
    ConnectedShardSubs(w, p, k.gone);
    assert SameShardTables(w.plane, u.plane);
    ShardTablesKept(w.plane, u.plane);
    OwnerFacts(w.plane, k.taken);
    BooksKept(w.plane, u.plane, k.taken);
    forall q | q in w.neg ensures SameFor(w, u, q, k.gone) {
      LinesInDomain(w, q, k);
    }
    OthersKept(w, u, p, k, k);
  }

  ghost function Joined(w: World, p: Pid, room: Room): World
    requires p in w.sessions
  {
    w.(sessions := w.sessions[p := w.sessions[p].(room := Some(room))])
  }

  lemma JoinedLines(w: World, p: Pid, room: Room)
    requires p in w.neg && p in w.sessions && Lines(w, p, SETTLED) && w.sessions[p].room.None?
    ensures Lines(Joined(w, p, room), p, SETTLED)
  {
    var u := Joined(w, p, room);
    var n := w.neg[p];
    forall i | 0 <= i < |n.mlines| ensures !n.mlines[i].role.Subscribe? {
      if n.mlines[i].role.Subscribe? {
        SlotFacts(w, p, i, SETTLED);
      }
    }
    assert Open(0);
    PublishLinesSame(p, n, n, w.plane.tracks, {});
    assert SubscribeLines(u, p, {});
  }

  lemma JoinedRegistry(w: World, p: Pid, room: Room)
    requires p in w.sessions && Registry(w) && w.sessions[p].room.None?
    ensures SamePublishers(w, Joined(w, p, room))
  {
    assert Open(0);
    forall t | t in w.plane.tracks ensures TrackOk(Joined(w, p, room), t) {
      assert TrackOk(w, t);
    }
  }

  /** Joining a first room: nothing was published or subscribed before. */
  lemma JoinedKeeps(w: World, p: Pid, room: Room)
    requires Core(w, SETTLED) && p in w.neg && p in w.sessions && w.sessions[p].room.None?
    ensures Core(Joined(w, p, room), SETTLED)
  {
    var u := Joined(w, p, room);
    assert SameSessions(w, u);
    TransportsKept(w, u);
    JoinedRegistry(w, p, room);
    RegistryKept(w, u);
    JoinedLines(w, p, room);
    assert SameOnShardAll(w, u);
    ShardSubsUntouched(w, u, {});
    forall q | q in w.neg && q != p ensures SameFor(w, u, q, {}) {
      LinesInDomain(w, q, SETTLED);
    }
    OthersKept(w, u, p, SETTLED, SETTLED);
  }

  ghost predicate SameOnShardAll(w: World, u: World) {
    u.neg == w.neg && u.plane == w.plane
  }

  lemma ShardSubsUntouched(w: World, u: World, gone: set<Tid>)
    requires ShardSubs(w, gone) && SameOnShardAll(w, u)
    ensures ShardSubs(u, gone)
  {
    assert Open(0);
    forall x | x in u.plane.shard.subs ensures x in u.plane.owner && Explained(u, x) {
      assert Explained(w, x);
    }
    forall q, i | q in u.neg && SlotAt(u.neg[q].mlines, i)
      ensures q in u.plane.lost || OnShardTruly(u, q, u.neg[q].mlines[i].role.slot, gone)
      ensures OffShardTruly(u, u.neg[q].mlines[i].role.slot)
    {
      assert q in w.plane.lost || OnShardTruly(w, q, w.neg[q].mlines[i].role.slot, gone);
      assert OffShardTruly(w, w.neg[q].mlines[i].role.slot);
    }
  }

  // ── The transport entry: DTLS and SRTP ───────────────────────────

  ghost function WithEntry(w: World, id: Sid, e: Entry): World {
    w.(plane := w.plane.(entries := w.plane.entries[id := e]))
  }

  lemma EntrySessions(v: PlaneView, z: PlaneView, id: Sid)
    requires ShardSessions(v) && id in v.entries && id in z.entries && id in z.shard.sessions
    requires z.entries == v.entries[id := z.entries[id]] && SessionOk(z, id)
    requires z.pendingClose == v.pendingClose && z.leaked == v.leaked && z.nextSession == v.nextSession
      && v.lost <= z.lost
    requires z.shard.sessions == v.shard.sessions[id := z.shard.sessions[id]]
    ensures ShardSessions(z)
  {
    assert Open(0);
    assert Zombies(z) == Zombies(v);
    forall x | x in z.entries ensures SessionOk(z, x) {
      if x != id {
        assert SessionOk(v, x);
      }
    }
  }

  /** Changing a session's DTLS state, SRTP mark or shard keys keeps the tables. */
  lemma EntryChanged(w: World, u: World, id: Sid, k: Slack)
    requires Core(w, k) && id in w.plane.entries && id in u.plane.entries
    requires u.sessions == w.sessions && u.neg == w.neg
    requires u.plane.entries == w.plane.entries[id := u.plane.entries[id]]
    requires u.plane.entries[id].participant == w.plane.entries[id].participant
      && u.plane.entries[id].ssrcs == w.plane.entries[id].ssrcs
    requires u.plane == w.plane.(entries := u.plane.entries, shard := u.plane.shard, closing := u.plane.closing,
                                 refused := u.plane.refused, lost := u.plane.lost, dropped := u.plane.dropped)
    requires u.plane.shard == w.plane.shard.(sessions := u.plane.shard.sessions) && id in u.plane.shard.sessions
    requires u.plane.shard.sessions == w.plane.shard.sessions[id := u.plane.shard.sessions[id]]
      && id in w.plane.shard.sessions
    requires SessionOk(u.plane, id) && w.plane.lost <= u.plane.lost && Books(u.plane, k.taken)
    ensures Core(u, k)
  {
    assert SameSessions(w, u);
    TransportsKept(w, u);
    assert forall t :: t in w.plane.tracks && TrackOk(w, t) ==> TrackOk(u, t);
    RegistryKept(w, u);
    EntrySessions(w.plane, u.plane, id);
    assert Zombies(u.plane) == Zombies(w.plane);
    SessionCreatedShardTracks(w.plane, u.plane);
    EntrySubs(w, u, k.gone);
    forall q | q in u.neg ensures Lines(u, q, k) {
      LinesInDomain(w, q, k);
      LinesKept(w, u, q, k, k);
    }
  }

  lemma EntrySubs(w: World, u: World, gone: set<Tid>)
    requires ShardSubs(w, gone) && u.neg == w.neg && u.plane.owner == w.plane.owner && w.plane.lost <= u.plane.lost
    requires Zombies(u.plane) == Zombies(w.plane)
    requires u.plane.shard.subs == w.plane.shard.subs && u.plane.shard.tracks == w.plane.shard.tracks
    requires u.plane.shard.sessions.Keys == w.plane.shard.sessions.Keys
    ensures ShardSubs(u, gone)
  {
    assert Open(0);
    forall x | x in u.plane.shard.subs ensures x in u.plane.owner && Explained(u, x) {
      assert Explained(w, x);
    }
    forall q, i | q in u.neg && SlotAt(u.neg[q].mlines, i)
      ensures q in u.plane.lost || OnShardTruly(u, q, u.neg[q].mlines[i].role.slot, gone)
      ensures OffShardTruly(u, u.neg[q].mlines[i].role.slot)
    {
      assert q in w.plane.lost || OnShardTruly(w, q, w.neg[q].mlines[i].role.slot, gone);
      assert OffShardTruly(w, w.neg[q].mlines[i].role.slot);
    }
  }

  lemma DtlsMovedKeeps(w: World, id: Sid, d: DtlsState, k: Slack)
    requires Core(w, k) && id in w.plane.entries && (w.plane.entries[id].srtpInstalled ==> d != Running)
    ensures Core(WithEntry(w, id, w.plane.entries[id].(dtls := d)), k)
  {
    SessionFacts(w.plane, id);
    var u := WithEntry(w, id, w.plane.entries[id].(dtls := d));
    OwnerFacts(w.plane, k.taken);
    BooksKept(w.plane, u.plane, k.taken);
    EntryChanged(w, u, id, k);
  }

  ghost function SrtpAccepted(w: World, id: Sid): World
    requires id in w.plane.entries
  {
    var u := WithEntry(w, id, w.plane.entries[id].(srtpInstalled := true));
    u.(plane := Accepted(u.plane, InstallSrtp(id), w.plane.entries[id].participant))
  }

  ghost function SrtpRefused(w: World, id: Sid): World
    requires id in w.plane.entries
  {
    var u := WithEntry(w, id, w.plane.entries[id].(srtpInstalled := true));
    u.(plane := Refused(u.plane, w.plane.entries[id].participant))
  }

  /** Keys are installed once: the shard has none yet when the orchestrator has not sent any. */
  lemma SrtpInstalledKeeps(w: World, id: Sid, k: Slack)
    requires Core(w, k) && id in w.plane.entries && w.plane.entries[id].dtls == Complete
      && !w.plane.entries[id].srtpInstalled
    ensures Core(SrtpAccepted(w, id), k) && Core(SrtpRefused(w, id), k)
    ensures SrtpAccepted(w, id).plane.rejects == w.plane.rejects
  {
    SessionFacts(w.plane, id);
    var (a, r) := (SrtpAccepted(w, id), SrtpRefused(w, id));
    OwnerFacts(w.plane, k.taken);
    BooksKept(w.plane, a.plane, k.taken);
    EntryChanged(w, a, id, k);
    var m := WithEntry(w, id, w.plane.entries[id].(srtpInstalled := true));
    BooksKept(w.plane, m.plane, k.taken);
    RefusedBooks(m.plane, w.plane.entries[id].participant, k.taken);
    EntryChanged(w, r, id, k);
  }

  // ── Leaving ──────────────────────────────────────────────────────

  function SessionOf(n: Neg): set<Sid> {
    if n.session.Some? then {n.session.value} else {}
  }

  /** The tables without participant `p`, its session and its tracks. */
  ghost function Left(w: World, p: Pid): World
    requires p in w.neg
  {
    var n := w.neg[p];
    World(w.sessions - {p}, w.neg - {p},
          w.plane.(entries := w.plane.entries - SessionOf(n), byParticipant := w.plane.byParticipant - {p},
                   tracks := w.plane.tracks - Elements(n.published),
                   lost := w.plane.lost - {p}, dropped := w.plane.dropped - {p}))
  }

  /** The shard closed the session. */
  ghost function LeftClosed(w: World, p: Pid): World
    requires p in w.neg && w.neg[p].session.Some?
  {
    var u := Left(w, p);
    u.(plane := u.plane.(shard := Apply(w.plane.shard, CloseSession(w.neg[p].session.value))))
  }

  /** The queue was full: the close waits, or is given up when too many wait. */
  ghost function LeftWaiting(w: World, p: Pid): World
    requires p in w.neg && w.neg[p].session.Some?
  {
    var (u, id) := (Left(w, p), w.neg[p].session.value);
    if |w.plane.pendingClose| >= MAX_TRANSPORTS
    then u.(plane := u.plane.(leaked := w.plane.leaked + {id}, refused := w.plane.refused + 1))
    else u.(plane := u.plane.(pendingClose := w.plane.pendingClose + [id], refused := w.plane.refused + 1))
  }

  lemma LeftTransports(w: World, u: World, p: Pid)
    requires Transports(w) && p in w.neg && u.neg == w.neg - {p}
    requires u.plane.entries == w.plane.entries - SessionOf(w.neg[p])
      && u.plane.byParticipant == w.plane.byParticipant - {p}
    requires u.plane.nextSession == w.plane.nextSession
    ensures Transports(u)
  {
    assert Open(0);
    forall id | id in u.plane.entries ensures EntryOk(u, id) {
      assert EntryOk(w, id);
    }
    forall q | q in u.neg ensures SessionKnown(u, q) {
      assert SessionKnown(w, q) && SessionKnown(w, p);
    }
    forall q | q in u.plane.byParticipant ensures MappedBack(u.plane, q) {
      assert MappedBack(w.plane, q) && EntryOk(w, w.plane.byParticipant[q]);
    }
  }

  lemma LeftRegistry(w: World, u: World, p: Pid)
    requires Registry(w) && p in w.neg && u.neg == w.neg - {p} && u.sessions == w.sessions - {p}
    requires u.plane.tracks == w.plane.tracks - Elements(w.neg[p].published) && u.plane.nextTrack == w.plane.nextTrack
    ensures Registry(u)
  {
    assert Open(0);
    forall t | t in u.plane.tracks ensures TrackOk(u, t) {
      assert TrackOk(w, t);
    }
  }

  lemma LeftFor(w: World, u: World, p: Pid, q: Pid, k: Slack, gone: set<Tid>)
    requires Transports(w) && p in w.neg && q in w.neg && q != p && Lines(w, q, k) && Lines(w, p, k)
    requires u.neg == w.neg - {p} && u.sessions == w.sessions - {p}
    requires u.plane.entries == w.plane.entries - SessionOf(w.neg[p])
    requires u.plane.tracks == w.plane.tracks - Elements(w.neg[p].published) && Elements(w.neg[p].published) <= gone
    requires u.plane.offers == w.plane.offers && u.plane.owner == w.plane.owner
    ensures SameFor(w, u, q, gone)
  {
    assert Open(0);
    assert SessionKnown(w, q) && SessionKnown(w, p);
  }

  /** The shard's tracks of a session are its participant's published tracks. */
  lemma SessionTracks(w: World, p: Pid, id: Sid, k: Slack)
    requires Core(w, k) && p in w.neg && w.neg[p].session == Some(id)
    ensures TracksOf(w.plane.shard, id) == Elements(w.neg[p].published)
  {
    forall x | x in TracksOf(w.plane.shard, id) ensures x in Elements(w.neg[p].published) {
      ShardTrackFacts(w, p, id, x);
    }
    PublishedFacts(w, p, k);
    forall x | x in Elements(w.neg[p].published) ensures x in TracksOf(w.plane.shard, id) {
      TrackFacts(w.plane, x);
      TrackOkFacts(w, x);
    }
  }

  lemma ClosedSessions(v: PlaneView, z: PlaneView, id: Sid, p: Pid)
    requires ShardSessions(v) && id in v.entries
    requires forall x :: x in v.entries && x != id ==> v.entries[x].participant != p
    requires z.entries == v.entries - {id} && z.lost == v.lost - {p} && z.nextSession == v.nextSession
    requires z.shard.sessions == v.shard.sessions - {id} && z.pendingClose == v.pendingClose && z.leaked == v.leaked
    ensures ShardSessions(z) && Zombies(z) == Zombies(v)
  {
    assert Open(0);
    assert Zombies(z) == Zombies(v);
    forall x | x in z.entries ensures SessionOk(z, x) {
      assert SessionOk(v, x);
    }
  }

  lemma WaitingZombies(v: PlaneView, z: PlaneView, id: Sid)
    requires
      || (z.pendingClose == v.pendingClose + [id] && z.leaked == v.leaked)
      || (z.pendingClose == v.pendingClose && z.leaked == v.leaked + {id})
    ensures Zombies(z) == Zombies(v) + {id}
  {
    if z.pendingClose == v.pendingClose + [id] {
      assert z.pendingClose[|v.pendingClose|] == id;
      forall x | x in Zombies(v) ensures x in Zombies(z) {
        if x !in v.leaked {
          var i :| 0 <= i < |v.pendingClose| && v.pendingClose[i] == x;
          assert z.pendingClose[i] == x;
        }
      }
    }
  }

  lemma WaitingSessions(v: PlaneView, z: PlaneView, id: Sid, p: Pid)
    requires ShardSessions(v) && id in v.entries && 0 < id < v.nextSession && Zombies(z) == Zombies(v) + {id}
    requires forall x :: x in v.entries && x != id ==> v.entries[x].participant != p
    requires z.entries == v.entries - {id} && z.lost == v.lost - {p} && z.nextSession == v.nextSession
    requires z.shard == v.shard
    requires
      || (z.pendingClose == v.pendingClose + [id] && z.leaked == v.leaked)
      || (z.pendingClose == v.pendingClose && z.leaked == v.leaked + {id})
    ensures ShardSessions(z)
  {
    assert Open(0);
    assert id !in Zombies(v) && id in v.shard.sessions;
    forall i | 0 <= i < |v.pendingClose| ensures v.pendingClose[i] != id {
      assert v.pendingClose[i] in Zombies(v);
    }
    forall x | x in z.entries ensures SessionOk(z, x) {
      assert SessionOk(v, x);
    }
  }

  lemma ClosedTracks(v: PlaneView, z: PlaneView, id: Sid, published: set<Tid>)
    requires ShardTracks(v) && TracksOf(v.shard, id) == published && z.tracks == v.tracks - published
    requires z.nextTrack == v.nextTrack
    requires
      || (z.shard.tracks == v.shard.tracks - published && Zombies(z) == Zombies(v))
      || (z.shard.tracks == v.shard.tracks && Zombies(z) == Zombies(v) + {id})
    ensures ShardTracks(z)
  {
    assert Open(0);
  }

  lemma ClosedSubs(w: World, u: World, p: Pid, id: Sid, gone: set<Tid>)
    requires ShardSubs(w, gone) && p in w.neg && w.neg[p].session == Some(id) && u.neg == w.neg - {p}
    requires forall q :: q in w.neg && q != p ==> w.neg[q].session != Some(id)
    requires u.plane.owner == w.plane.owner && u.plane.lost == w.plane.lost - {p} && id in w.plane.shard.sessions
    requires u.plane.shard == Apply(w.plane.shard, CloseSession(id)) && Zombies(u.plane) == Zombies(w.plane)
    ensures ShardSubs(u, gone + TracksOf(w.plane.shard, id))
  {
    assert Open(0);
    LinksKept(w.plane.shard, CloseSession(id));
    forall x | x in u.plane.shard.subs ensures x in u.plane.owner && Explained(u, x) {
      assert Explained(w, x);
    }
    LeftSlots(w, u, p, id, gone);
  }

  lemma WaitingSubs(w: World, u: World, p: Pid, id: Sid, gone: set<Tid>)
    requires ShardSubs(w, gone) && p in w.neg && w.neg[p].session == Some(id) && u.neg == w.neg - {p}
    requires forall q :: q in w.neg && q != p ==> w.neg[q].session != Some(id)
    requires u.plane.owner == w.plane.owner && u.plane.lost == w.plane.lost - {p} && id in w.plane.shard.sessions
    requires u.plane.shard == w.plane.shard && Zombies(u.plane) == Zombies(w.plane) + {id}
    ensures ShardSubs(u, gone + TracksOf(w.plane.shard, id))
  {
    assert Open(0);
    forall x | x in u.plane.shard.subs ensures x in u.plane.owner && Explained(u, x) {
      assert Explained(w, x);
    }
    LeftSlots(w, u, p, id, gone);
  }

  lemma LeftSlots(w: World, u: World, p: Pid, id: Sid, gone: set<Tid>)
    requires ShardSubs(w, gone) && p in w.neg && w.neg[p].session == Some(id) && u.neg == w.neg - {p}
    requires forall q :: q in w.neg && q != p ==> w.neg[q].session != Some(id)
    requires u.plane.lost == w.plane.lost - {p} && id in w.plane.shard.sessions
    requires u.plane.shard == w.plane.shard || u.plane.shard == Apply(w.plane.shard, CloseSession(id))
    ensures forall q, i :: q in u.neg && SlotAt(u.neg[q].mlines, i) ==>
      && (q in u.plane.lost || OnShardTruly(u, q, u.neg[q].mlines[i].role.slot, gone + TracksOf(w.plane.shard, id)))
      && OffShardTruly(u, u.neg[q].mlines[i].role.slot)
  {
    assert Open(0);
    forall q, i | q in u.neg && SlotAt(u.neg[q].mlines, i)
      ensures q in u.plane.lost || OnShardTruly(u, q, u.neg[q].mlines[i].role.slot, gone + TracksOf(w.plane.shard, id))
      ensures OffShardTruly(u, u.neg[q].mlines[i].role.slot)
    {
      assert q in w.plane.lost || OnShardTruly(w, q, w.neg[q].mlines[i].role.slot, gone);
      assert OffShardTruly(w, w.neg[q].mlines[i].role.slot);
    }
  }

  /** Everything but the shard: the tables without `p` are in order among themselves. */
  lemma LeftTables(w: World, u: World, p: Pid, k: Slack, l: Slack)
    requires Core(w, k) && p in w.neg && (p == k.who ==> k.open == {})
    requires l == k.(gone := k.gone + Elements(w.neg[p].published))
    requires u.sessions == w.sessions - {p} && u.neg == w.neg - {p}
    requires u.plane.entries == w.plane.entries - SessionOf(w.neg[p])
      && u.plane.byParticipant == w.plane.byParticipant - {p}
    requires u.plane.tracks == w.plane.tracks - Elements(w.neg[p].published)
    requires u.plane.nextSession == w.plane.nextSession && u.plane.nextTrack == w.plane.nextTrack
    requires u.plane.outbox == w.plane.outbox && u.plane.offers == w.plane.offers && u.plane.owner == w.plane.owner
    ensures Domains(u) && Transports(u) && Registry(u) && forall q :: q in u.neg ==> Lines(u, q, l)
  {
    LeftTransports(w, u, p);
    LeftRegistry(w, u, p);
    forall q | q in w.neg && q != p ensures SameFor(w, u, q, l.gone) {
      LeftFor(w, u, p, q, k, l.gone);
    }
    OthersKept(w, u, p, k, l);
  }

  lemma OnlyHolder(w: World, p: Pid)
    requires Transports(w) && p in w.neg && w.neg[p].session.Some?
    ensures forall q :: q in w.neg && q != p ==> w.neg[q].session != w.neg[p].session
    ensures forall x :: x in w.plane.entries && x != w.neg[p].session.value ==> w.plane.entries[x].participant != p
  {
    assert Open(0);
    assert SessionKnown(w, p);
    forall q | q in w.neg && q != p ensures w.neg[q].session != w.neg[p].session {
      assert SessionKnown(w, q);
    }
    forall x | x in w.plane.entries && x != w.neg[p].session.value ensures w.plane.entries[x].participant != p {
      assert EntryOk(w, x);
    }
  }

  lemma LeftBooks(v: PlaneView, z: PlaneView, p: Pid, taken: set<Pid>)
    requires Books(v, taken)
    requires z.closing == v.closing && z.rejects == v.rejects && z.lost == v.lost - {p} && z.dropped == v.dropped - {p}
    requires z.owner == v.owner && z.nextSub == v.nextSub && z.nextSession == v.nextSession
      && z.nextTrack == v.nextTrack
    requires v.refused <= z.refused
      && (z.refused == v.refused ==> z.pendingClose == v.pendingClose && z.leaked == v.leaked)
    ensures Books(z, taken)
  {
    assert Open(0);
  }

  /** A participant leaves and the shard closes its session. */
  lemma LeftClosedKeeps(w: World, p: Pid, k: Slack)
    requires Core(w, k) && p in w.neg && w.neg[p].session.Some? && (p == k.who ==> k.open == {})
    ensures Core(LeftClosed(w, p), k.(gone := k.gone + Elements(w.neg[p].published)))
    ensures Verdict(w.plane.shard, CloseSession(w.neg[p].session.value)).None?
  {
    var (u, id, l) := (LeftClosed(w, p), w.neg[p].session.value, k.(gone := k.gone + Elements(w.neg[p].published)));
    TransportFacts(w, p);
    SessionFacts(w.plane, id);
    OnlyHolder(w, p);
    SessionTracks(w, p, id, k);
    LeftTables(w, u, p, k, l);
    ClosedSessions(w.plane, u.plane, id, p);
    ClosedTracks(w.plane, u.plane, id, Elements(w.neg[p].published));
    ClosedSubs(w, u, p, id, k.gone);
    LeftBooks(w.plane, u.plane, p, k.taken);
  }

  /** A participant leaves while the queue is full: its session stays on the shard for later. */
  lemma LeftWaitingKeeps(w: World, p: Pid, k: Slack)
    requires Core(w, k) && p in w.neg && w.neg[p].session.Some? && (p == k.who ==> k.open == {})
    ensures Core(LeftWaiting(w, p), k.(gone := k.gone + Elements(w.neg[p].published)))
  {
    var (u, id, l) := (LeftWaiting(w, p), w.neg[p].session.value, k.(gone := k.gone + Elements(w.neg[p].published)));
    TransportFacts(w, p);
    SessionFacts(w.plane, id);
    OnlyHolder(w, p);
    SessionTracks(w, p, id, k);
    LeftTables(w, u, p, k, l);
    WaitingZombies(w.plane, u.plane, id);
    WaitingSessions(w.plane, u.plane, id, p);
    ClosedTracks(w.plane, u.plane, id, Elements(w.neg[p].published));
    WaitingSubs(w, u, p, id, k.gone);
    LeftBooks(w.plane, u.plane, p, k.taken);
  }

  lemma SessionlessFacts(w: World, p: Pid, k: Slack)
    requires Core(w, k) && p in w.neg && w.neg[p].session.None?
    ensures w.neg[p].published == [] && w.neg[p].mlines == []
    ensures forall x :: x in w.plane.entries ==> w.plane.entries[x].participant != p
  {
    ShapeFacts(w, p, k);
    PublishedFacts(w, p, k);
    if w.neg[p].published != [] {
      TrackOkFacts(w, w.neg[p].published[0]);
    }
    forall x | x in w.plane.entries ensures w.plane.entries[x].participant != p {
      EntryFacts(w, x);
    }
  }

  lemma EntryFacts(w: World, id: Sid)
    requires Transports(w) && id in w.plane.entries
    ensures EntryOk(w, id)
  {
    assert Open(0);
  }

  lemma SessionlessSubs(w: World, u: World, p: Pid, gone: set<Tid>)
    requires ShardSubs(w, gone) && p in w.neg && w.neg[p].session.None? && u.neg == w.neg - {p}
    requires u.plane.owner == w.plane.owner && u.plane.lost == w.plane.lost - {p} && u.plane.shard == w.plane.shard
    requires Zombies(u.plane) == Zombies(w.plane)
    ensures ShardSubs(u, gone)
  {
    assert Open(0);
    forall x | x in u.plane.shard.subs ensures x in u.plane.owner && Explained(u, x) {
      assert Explained(w, x);
    }
    forall q, i | q in u.neg && SlotAt(u.neg[q].mlines, i)
      ensures q in u.plane.lost || OnShardTruly(u, q, u.neg[q].mlines[i].role.slot, gone)
      ensures OffShardTruly(u, u.neg[q].mlines[i].role.slot)
    {
      assert q in w.plane.lost || OnShardTruly(w, q, w.neg[q].mlines[i].role.slot, gone);
      assert OffShardTruly(w, w.neg[q].mlines[i].role.slot);
    }
  }

  lemma SessionlessSessions(v: PlaneView, z: PlaneView, p: Pid)
    requires ShardSessions(v) && z.entries == v.entries && z.shard == v.shard && z.lost == v.lost - {p}
    requires forall x :: x in v.entries ==> v.entries[x].participant != p
    requires z.pendingClose == v.pendingClose && z.leaked == v.leaked && z.nextSession == v.nextSession
    ensures ShardSessions(z)
  {
    assert Open(0);
    assert Zombies(z) == Zombies(v);
    forall x | x in z.entries ensures SessionOk(z, x) {
      assert SessionOk(v, x);
    }
  }

  /** A participant that never had a session leaves nothing on the shard. */
  lemma LeftSessionlessKeeps(w: World, p: Pid, k: Slack)
    requires Core(w, k) && p in w.neg && w.neg[p].session.None? && (p == k.who ==> k.open == {})
    ensures w.neg[p].published == [] && Core(Left(w, p), k)
  {
    var u := Left(w, p);
    SessionlessFacts(w, p, k);
    assert Elements([]) == {};
    assert k.gone + {} == k.gone;
    LeftTables(w, u, p, k, k);
    assert Zombies(u.plane) == Zombies(w.plane);
    SessionlessSessions(w.plane, u.plane, p);
    SessionCreatedShardTracks(w.plane, u.plane);
    SessionlessSubs(w, u, p, k.gone);
    LeftBooks(w.plane, u.plane, p, k.taken);
  }

  // ── Tracks gone from the shard ───────────────────────────────────

  /** M-lines forwarding one of `ts` turned inactive. */
  function ForgottenLines(ms: seq<Mline>, ts: set<Tid>): (r: seq<Mline>)
    ensures |r| == |ms|
    ensures forall i :: 0 <= i < |ms| ==>
      r[i] == if ms[i].role.Subscribe? && ms[i].role.slot.track in ts then ms[i].(role := Inactive) else ms[i]
  {
    seq(|ms|, i requires 0 <= i < |ms| =>
      if ms[i].role.Subscribe? && ms[i].role.slot.track in ts then ms[i].(role := Inactive) else ms[i])
  }

  function Forgotten(neg: map<Pid, Neg>, ts: set<Tid>): (r: map<Pid, Neg>)
    ensures r.Keys == neg.Keys
    ensures forall p :: p in neg ==> r[p] == neg[p].(mlines := ForgottenLines(neg[p].mlines, ts))
  {
    map p | p in neg :: neg[p].(mlines := ForgottenLines(neg[p].mlines, ts))
  }

  lemma ForgottenLinesOk(w: World, u: World, p: Pid, k: Slack, l: Slack)
    requires p in w.neg && Lines(w, p, k) && u == w.(neg := Forgotten(w.neg, k.gone)) && l == k.(gone := {})
    ensures Lines(u, p, l)
  {
    assert Open(0);
    var (n, m) := (w.neg[p], u.neg[p]);
    PublishLinesSame(p, n, m, w.plane.tracks, OpenMids(p, k));
    DisciplineSame(n, m, w.plane.offers[p]);
    ForgottenSlots(w, u, p, k.gone);
  }

  lemma ForgottenSlots(w: World, u: World, p: Pid, gone: set<Tid>)
    requires p in w.neg && p in w.sessions && SubscribeLines(w, p, gone) && u.sessions == w.sessions
      && u.plane == w.plane
    requires p in u.neg && u.neg[p] == w.neg[p].(mlines := ForgottenLines(w.neg[p].mlines, gone))
    ensures SubscribeLines(u, p, {})
  {
    var (n, m) := (w.neg[p], u.neg[p]);
    assert SlotIndices(m.mlines) <= SlotIndices(n.mlines);
    Subset(SlotIndices(m.mlines), SlotIndices(n.mlines));
    if n.session.Some? {
      var a := w.plane.entries[n.session.value].ssrcs;
      forall i | SlotAt(m.mlines, i) ensures SlotOk(u, p, a, m.mlines[i].role.slot, {}) {
        assert SlotAt(n.mlines, i) && SlotOk(w, p, a, n.mlines[i].role.slot, gone);
      }
    }
  }

  lemma ForgottenRegistry(w: World, u: World, gone: set<Tid>)
    requires Registry(w) && u == w.(neg := Forgotten(w.neg, gone))
    ensures SamePublishers(w, u)
  {
    assert Open(0);
    forall t | t in w.plane.tracks ensures TrackOk(u, t) {
      assert TrackOk(w, t);
    }
  }

  /** Subscriptions to forgotten tracks left the shard with the track, or will with its session. */
  lemma ForgottenSubs(w: World, u: World, gone: set<Tid>)
    requires ShardSubs(w, gone) && ShardTracks(w.plane) && u == w.(neg := Forgotten(w.neg, gone))
    requires gone !! w.plane.tracks.Keys
    ensures ShardSubs(u, {})
  {
    assert Open(0);
    forall x | x in u.plane.shard.subs ensures x in u.plane.owner && Explained(u, x) {
      assert Explained(w, x);
      var (s, q) := (w.plane.shard.subs[x], w.plane.owner[x]);
      if s.track !in gone && q in w.neg && Carries(w.neg[q].mlines, x, s.track) {
        ForgottenCarries(w.neg[q].mlines, gone, x, s.track);
      }
    }
    forall q, i | q in u.neg && SlotAt(u.neg[q].mlines, i)
      ensures q in u.plane.lost || OnShardTruly(u, q, u.neg[q].mlines[i].role.slot, {})
      ensures OffShardTruly(u, u.neg[q].mlines[i].role.slot)
    {
      assert SlotAt(w.neg[q].mlines, i);
      assert q in w.plane.lost || OnShardTruly(w, q, w.neg[q].mlines[i].role.slot, gone);
      assert OffShardTruly(w, w.neg[q].mlines[i].role.slot);
    }
  }

  lemma ForgottenCarries(ms: seq<Mline>, gone: set<Tid>, x: SubId, t: Tid)
    requires Carries(ms, x, t) && t !in gone
    ensures Carries(ForgottenLines(ms, gone), x, t)
  {
    var i :| SlotAt(ms, i) && ms[i].role.slot.onShard && ms[i].role.slot.sub == x && ms[i].role.slot.track == t;
    assert SlotAt(ForgottenLines(ms, gone), i);
  }

  /** Once every subscriber forgot the tracks that are gone, nothing is left unfinished. */
  lemma ForgottenKeeps(w: World, k: Slack)
    requires Core(w, k) && k.gone !! w.plane.tracks.Keys
    ensures Core(w.(neg := Forgotten(w.neg, k.gone)), k.(gone := {}))
  {
    var (u, l) := (w.(neg := Forgotten(w.neg, k.gone)), k.(gone := {}));
    assert SameSessions(w, u);
    TransportsKept(w, u);
    ForgottenRegistry(w, u, k.gone);
    RegistryKept(w, u);
    forall p | p in u.neg ensures Lines(u, p, l) {
      ForgottenLinesOk(w, u, p, k, l);
    }
    ForgottenSubs(w, u, k.gone);
  }

  // ── Closes that waited ───────────────────────────────────────────

  /** The close at position `j` of the waiting ones is accepted. */
  ghost function LateClosed(w: World, j: nat): World
    requires j < |w.plane.pendingClose|
  {
    w.(plane := w.plane.(pendingClose := w.plane.pendingClose[..j] + w.plane.pendingClose[j+1..],
                         shard := Apply(w.plane.shard, CloseSession(w.plane.pendingClose[j]))))
  }

  lemma LateZombies(v: PlaneView, z: PlaneView, j: nat)
    requires j < |v.pendingClose| && NoDup(v.pendingClose) && v.pendingClose[j] !in v.leaked
    requires z.pendingClose == v.pendingClose[..j] + v.pendingClose[j+1..] && z.leaked == v.leaked
    ensures Zombies(z) == Zombies(v) - {v.pendingClose[j]} && NoDup(z.pendingClose)
  {
    forall x | x in Zombies(v) && x != v.pendingClose[j] ensures x in Zombies(z) {
      if x !in v.leaked {
        var i :| 0 <= i < |v.pendingClose| && v.pendingClose[i] == x;
        assert z.pendingClose[if i < j then i else i - 1] == x;
      }
    }
    forall i | 0 <= i < |z.pendingClose|
      ensures z.pendingClose[i] in Zombies(v) && z.pendingClose[i] != v.pendingClose[j]
    {
      assert z.pendingClose[i] == v.pendingClose[if i < j then i else i + 1];
    }
  }

  lemma LateSessions(v: PlaneView, z: PlaneView, id: Sid)
    requires ShardSessions(v) && id in Zombies(v) && Zombies(z) == Zombies(v) - {id} && NoDup(z.pendingClose)
    requires forall i :: 0 <= i < |z.pendingClose| ==> z.pendingClose[i] in v.pendingClose
    requires z.entries == v.entries && z.leaked == v.leaked && z.nextSession == v.nextSession && z.lost == v.lost
    requires z.shard.sessions == v.shard.sessions - {id}
    ensures ShardSessions(z)
  {
    assert Open(0);
    forall x | x in z.entries ensures SessionOk(z, x) {
      assert SessionOk(v, x);
    }
  }

  lemma LateTracks(v: PlaneView, z: PlaneView, id: Sid)
    requires ShardTracks(v) && Zombies(z) == Zombies(v) - {id} && z.tracks == v.tracks && z.nextTrack == v.nextTrack
    requires z.shard.tracks == v.shard.tracks - TracksOf(v.shard, id)
    requires forall t :: t in v.tracks ==> v.tracks[t].session != id
    ensures ShardTracks(z)
  {
    assert Open(0);
  }

  lemma LateSubs(w: World, u: World, id: Sid, gone: set<Tid>)
    requires ShardSubs(w, gone) && u.neg == w.neg && u.plane.owner == w.plane.owner && u.plane.lost == w.plane.lost
    requires u.plane.shard == Apply(w.plane.shard, CloseSession(id)) && Zombies(u.plane) == Zombies(w.plane) - {id}
    requires id in w.plane.shard.sessions
    requires forall q :: q in w.neg ==> w.neg[q].session != Some(id)
    requires forall q, i :: q in w.neg && SlotAt(w.neg[q].mlines, i) && w.neg[q].mlines[i].role.slot.track !in gone ==>
      w.neg[q].mlines[i].role.slot.track !in TracksOf(w.plane.shard, id)
    ensures ShardSubs(u, gone)
  {
    assert Open(0);
    LinksKept(w.plane.shard, CloseSession(id));
    forall x | x in u.plane.shard.subs ensures x in u.plane.owner && Explained(u, x) {
      assert Explained(w, x);
    }
    forall q, i | q in u.neg && SlotAt(u.neg[q].mlines, i)
      ensures q in u.plane.lost || OnShardTruly(u, q, u.neg[q].mlines[i].role.slot, gone)
      ensures OffShardTruly(u, u.neg[q].mlines[i].role.slot)
    {
      assert q in w.plane.lost || OnShardTruly(w, q, w.neg[q].mlines[i].role.slot, gone);
      assert OffShardTruly(w, w.neg[q].mlines[i].role.slot);
    }
  }

  lemma ZombieFacts(w: World, j: nat)
    requires ShardSessions(w.plane) && j < |w.plane.pendingClose|
    ensures
      var id := w.plane.pendingClose[j];
      && id in Zombies(w.plane) && id in w.plane.shard.sessions && id !in w.plane.entries && id !in w.plane.leaked
      && NoDup(w.plane.pendingClose)
  {
    assert Open(0);
  }

  lemma NoZombieTrack(w: World, id: Sid, t: Tid)
    requires Registry(w) && Transports(w) && ShardTracks(w.plane) && id !in w.plane.entries && t in w.plane.tracks
    ensures w.plane.tracks[t].session != id && t !in TracksOf(w.plane.shard, id)
  {
    TrackOkFacts(w, t);
    TransportFacts(w, w.plane.tracks[t].publisher);
    TrackFacts(w.plane, t);
  }

  /** A close that waited is accepted: it concerns no session, track or slot of the tables. */
  lemma LateClosedKeeps(w: World, j: nat, k: Slack)
    requires Core(w, k) && j < |w.plane.pendingClose|
    ensures Verdict(w.plane.shard, CloseSession(w.plane.pendingClose[j])).None?
    ensures Core(LateClosed(w, j), k)
  {
    var (u, id) := (LateClosed(w, j), w.plane.pendingClose[j]);
    ZombieFacts(w, j);
    LateZombies(w.plane, u.plane, j);
    LateSessions(w.plane, u.plane, id);
    forall t | t in w.plane.tracks ensures w.plane.tracks[t].session != id {
      NoZombieTrack(w, id, t);
    }
    LateTracks(w.plane, u.plane, id);
    forall q | q in w.neg ensures w.neg[q].session != Some(id) {
      if w.neg[q].session.Some? {
        TransportFacts(w, q);
      }
    }
    forall q, i | q in w.neg && SlotAt(w.neg[q].mlines, i) && w.neg[q].mlines[i].role.slot.track !in k.gone
      ensures w.neg[q].mlines[i].role.slot.track !in TracksOf(w.plane.shard, id)
    {
      SlotFacts(w, q, i, k);
      NoZombieTrack(w, id, w.neg[q].mlines[i].role.slot.track);
    }
    LateSubs(w, u, id, k.gone);
    LateRest(w, u, k);
  }

  lemma LateRest(w: World, u: World, k: Slack)
    requires Core(w, k) && u == w.(plane := w.plane.(pendingClose := u.plane.pendingClose, shard := u.plane.shard))
    requires |u.plane.pendingClose| <= |w.plane.pendingClose|
    ensures Transports(u) && Registry(u) && Books(u.plane, k.taken) && forall q :: q in u.neg ==> Lines(u, q, k)
  {
    assert SameSessions(w, u);
    TransportsKept(w, u);
    assert SamePublishers(w, u);
    RegistryKept(w, u);
    forall q | q in u.neg ensures Lines(u, q, k) {
      LinesInDomain(w, q, k);
      LinesKept(w, u, q, k, k);
    }
    LateBooks(w.plane, u.plane, k.taken);
  }

  lemma LateBooks(v: PlaneView, z: PlaneView, taken: set<Pid>)
    requires Books(v, taken) && z == v.(pendingClose := z.pendingClose, shard := z.shard)
    requires |z.pendingClose| <= |v.pendingClose|
    ensures Books(z, taken)
  {
    assert Open(0);
  }
}
