/** What a command, accepted or refused by the queue, does to the tables and the shard. */
module Commands {
  import opened Words
  import opened Collections
  import opened Wrappers
  import opened Ssrc
  import opened Shard
  import opened Tables
  import opened Updates

  /** The closing list with `p` on it, once (`Plane::close_participant`). */
  function Recorded(closing: seq<Closing>, p: Pid, reason: Reason): seq<Closing> {
    if InClosing(closing, p) || |closing| >= MAX_CLOSING then closing else closing + [Closing(p, reason)]
  }

  function CloseRequested(v: PlaneView, p: Pid, reason: Reason): PlaneView {
    v.(closing := Recorded(v.closing, p, reason))
  }

  function Rejected(rejects: seq<Reject>, verdict: Option<Reject>): seq<Reject> {
    if verdict.Some? then rejects + [verdict.value] else rejects
  }

  function Blamed(ps: set<Pid>, p: Pid, blame: bool): set<Pid> {
    if blame then ps + {p} else ps
  }

  /** The queue took `c` for participant `p`; the shard applies or rejects it. */
  function Accepted(v: PlaneView, c: Command, p: Pid): PlaneView {
    var verdict := Verdict(v.shard, c);
    v.(shard := Apply(v.shard, c), rejects := Rejected(v.rejects, verdict),
       lost := Blamed(v.lost, p, verdict.Some?), dropped := Blamed(v.dropped, p, verdict.Some?))
  }

  /** The queue was full for participant `p`. */
  function Refused(v: PlaneView, p: Pid): PlaneView {
    var closing := Recorded(v.closing, p, Overloaded);
    v.(closing := closing, refused := v.refused + 1, lost := v.lost + {p},
       dropped := Blamed(v.dropped, p, !InClosing(closing, p)))
  }

  lemma RecordedKeeps(closing: seq<Closing>, p: Pid, reason: Reason, q: Pid)
    ensures InClosing(closing, q) ==> InClosing(Recorded(closing, p, reason), q)
  {
    var all := Recorded(closing, p, reason);
    if InClosing(closing, q) {
      var i :| 0 <= i < |closing| && closing[i].participant == q;
      assert all[i].participant == q;
    }
  }

  lemma CloseRequestedBooks(v: PlaneView, p: Pid, reason: Reason, taken: set<Pid>)
    requires Books(v, taken)
    ensures Books(CloseRequested(v, p, reason), taken)
  {
    assert Open(0);
    forall q ensures InClosing(v.closing, q) ==> InClosing(Recorded(v.closing, p, reason), q) {
      RecordedKeeps(v.closing, p, reason, q);
    }
  }

  lemma RefusedBooks(v: PlaneView, p: Pid, taken: set<Pid>)
    requires Books(v, taken)
    ensures Books(Refused(v, p), taken)
  {
    assert Open(0);
    forall q ensures InClosing(v.closing, q) ==> InClosing(Recorded(v.closing, p, Overloaded), q) {
      RecordedKeeps(v.closing, p, Overloaded, q);
    }
  }

  /** A refused push changes no table: the participant is marked and will be closed. */
  lemma RefusedKeeps(w: World, p: Pid, k: Slack)
    requires Core(w, k)
    ensures Core(w.(plane := Refused(w.plane, p)), k)
  {
    var u := w.(plane := Refused(w.plane, p));
    RefusedBooks(w.plane, p, k.taken);
    assert Rebooks(w, u);
    Rebooked(w, u, k, k);
  }

  lemma CloseRequestedKeeps(w: World, p: Pid, reason: Reason, k: Slack)
    requires Core(w, k)
    ensures Core(w.(plane := CloseRequested(w.plane, p, reason)), k)
  {
    var u := w.(plane := CloseRequested(w.plane, p, reason));
    CloseRequestedBooks(w.plane, p, reason, k.taken);
    assert Rebooks(w, u);
    Rebooked(w, u, k, k);
  }

  // ── CreateSession ────────────────────────────────────────────────

  /** The tables with a new session of `p`, before the queue is asked. */
  function WithSession(v: PlaneView, p: Pid, base: u32): PlaneView {
    v.(entries := v.entries[v.nextSession := Entry(p, Allocator(base, 1, 0, []), Running, false)],
       byParticipant := v.byParticipant[p := v.nextSession],
       nextSession := v.nextSession + 1)
  }

  ghost function SessionCreated(w: World, p: Pid, base: u32): World
    requires p in w.neg
  {
    var v := WithSession(w.plane, p, base);
    w.(neg := w.neg[p := w.neg[p].(session := Some(w.plane.nextSession), version := 0)],
       plane := Accepted(v, CreateSession(w.plane.nextSession, base), p))
  }

  lemma NewSessionAccepted(w: World, p: Pid, base: u32, taken: set<Pid>)
    requires ShardSessions(w.plane) && Transports(w) && Books(w.plane, taken) && base != 0
    ensures
      var id := w.plane.nextSession;
      var z := Accepted(WithSession(w.plane, p, base), CreateSession(id, base), p);
      && z == WithSession(w.plane, p, base).(shard :=
           w.plane.shard.(sessions := w.plane.shard.sessions[id := ShardSession(base, 0, false)]))
      && id !in w.plane.entries && id !in w.plane.shard.sessions
      && ShardSessions(z) && Books(z, taken)
  {
    assert Open(0);
    var (v, id) := (w.plane, w.plane.nextSession);
    assert id in v.entries ==> EntryOk(w, id);
    assert id !in Zombies(v);
    var z := Accepted(WithSession(v, p, base), CreateSession(id, base), p);
    assert Zombies(z) == Zombies(v);
    forall x | x in z.entries ensures SessionOk(z, x) {
      if x != id {
        assert SessionOk(v, x);
      }
    }
  }

  lemma SessionCreatedTransports(w: World, u: World, p: Pid, id: Sid)
    requires Transports(w) && p in w.neg && w.neg[p].session.None? && p in u.neg
    requires 0 < w.plane.nextSession == id && id !in w.plane.entries && u.plane.nextSession == id + 1
    requires u.neg == w.neg[p := u.neg[p]] && u.neg[p].session == Some(id)
    requires id in u.plane.entries && u.plane.entries[id].participant == p
    requires u.plane.entries == w.plane.entries[id := u.plane.entries[id]]
    requires u.plane.byParticipant == w.plane.byParticipant[p := id]
    ensures Transports(u)
  {
    assert Open(0);
    forall x | x in u.plane.entries ensures EntryOk(u, x) {
      if x != id {
        assert EntryOk(w, x);
      }
    }
    forall q | q in u.neg ensures SessionKnown(u, q) {
      assert SessionKnown(w, q);
    }
    forall q | q in u.plane.byParticipant ensures MappedBack(u.plane, q) {
      if q != p {
        assert MappedBack(w.plane, q);
      }
    }
  }

  lemma SessionCreatedRegistry(w: World, u: World, p: Pid)
    requires Registry(w) && p in w.neg && w.neg[p].session.None? && p in u.neg
    requires u.sessions == w.sessions && u.neg == w.neg[p := u.neg[p]]
    requires u.plane.tracks == w.plane.tracks && u.plane.nextTrack == w.plane.nextTrack
    ensures Registry(u)
  {
    assert Open(0);
    forall t | t in u.plane.tracks ensures TrackOk(u, t) {
      assert TrackOk(w, t);
    }
  }

  lemma SessionCreatedShardSubs(w: World, u: World, p: Pid, gone: set<Tid>)
    requires ShardSubs(w, gone) && p in w.neg && w.neg[p].session.None? && p in u.neg
    requires u.neg == w.neg[p := u.neg[p]] && w.neg[p].mlines == [] == u.neg[p].mlines
    requires u.plane.owner == w.plane.owner && u.plane.lost == w.plane.lost && Zombies(u.plane) == Zombies(w.plane)
    requires u.plane.shard.tracks == w.plane.shard.tracks && u.plane.shard.subs == w.plane.shard.subs
    requires w.plane.shard.sessions.Keys <= u.plane.shard.sessions.Keys
    ensures ShardSubs(u, gone)
  {
    assert Open(0);
    forall x | x in u.plane.shard.subs ensures x in u.plane.owner && Explained(u, x) {
      assert Explained(w, x);
    }
    forall q, i | q in u.neg && q !in u.plane.lost && SlotAt(u.neg[q].mlines, i)
      ensures OnShardTruly(u, q, u.neg[q].mlines[i].role.slot, gone)
    {
      assert OnShardTruly(w, q, w.neg[q].mlines[i].role.slot, gone);
    }
    forall q, i | q in u.neg && SlotAt(u.neg[q].mlines, i) ensures OffShardTruly(u, u.neg[q].mlines[i].role.slot) {
      assert OffShardTruly(w, w.neg[q].mlines[i].role.slot);
    }
  }

  lemma SessionCreatedLines(w: World, u: World, p: Pid, k: Slack)
    requires p in w.neg && Lines(w, p, k) && w.neg[p].session.None?
    requires p in u.neg && u.neg[p] == w.neg[p].(session := u.neg[p].session, version := 0) && u.neg[p].session.Some?
    requires u.neg[p].session.value in u.plane.entries
    requires u.sessions == w.sessions && u.plane.offers == w.plane.offers && u.plane.tracks == w.plane.tracks
    ensures Lines(u, p, k) && w.neg[p].mlines == []
  {
    assert Open(0);
    PublishLinesSame(p, w.neg[p], u.neg[p], w.plane.tracks, OpenMids(p, k));
  }

  /** A session created and accepted: a fresh id, both maps, and the shard agree. */
  lemma SessionCreatedKeeps(w: World, p: Pid, base: u32, k: Slack)
    requires Core(w, k) && p in w.neg && w.neg[p].session.None? && base != 0
    ensures Core(SessionCreated(w, p, base), k)
    ensures SessionCreated(w, p, base).plane.rejects == w.plane.rejects
  {
    var u := SessionCreated(w, p, base);
    var id := w.plane.nextSession;
    NewSessionAccepted(w, p, base, k.taken);
    QuietFacts(w.plane, k.taken);
    SessionCreatedTransports(w, u, p, id);
    SessionCreatedRegistry(w, u, p);
    SessionCreatedLines(w, u, p, k);
    assert Zombies(u.plane) == Zombies(w.plane);
    SessionCreatedShardSubs(w, u, p, k.gone);
    SessionCreatedShardTracks(w.plane, u.plane);
    forall q | q in u.neg ensures Lines(u, q, k) {
      if q != p {
        LinesInDomain(w, q, k);
        assert SameFor(w, u, q, k.gone);
        LinesKept(w, u, q, k, k);
      }
    }
  }

  lemma SessionCreatedShardTracks(v: PlaneView, z: PlaneView)
    requires ShardTracks(v) && Zombies(z) == Zombies(v)
    requires z.shard.tracks == v.shard.tracks && z.tracks == v.tracks && z.nextTrack == v.nextTrack
    ensures ShardTracks(z)
  {
    assert Open(0);
  }

  // ── Unsubscribe ──────────────────────────────────────────────────

  /** M-line `i` of `p` turned inactive. */
  function Deactivated(n: Neg, i: nat): Neg
    requires i < |n.mlines|
  {
    n.(mlines := n.mlines[i := n.mlines[i].(role := Inactive)])
  }

  lemma DeactivatedLines(w: World, u: World, p: Pid, i: nat, k: Slack)
    requires p in w.neg && Lines(w, p, k) && SlotAt(w.neg[p].mlines, i)
    requires p in u.neg && u.neg[p] == Deactivated(w.neg[p], i) && u.sessions == w.sessions
    requires u.plane.tracks == w.plane.tracks && u.plane.entries == w.plane.entries
    requires p in w.plane.offers && p in u.plane.offers && u.plane.offers[p] == w.plane.offers[p]
    requires u.plane.owner == w.plane.owner
    ensures Lines(u, p, k)
  {
    assert Open(0);
    var (n, m) := (w.neg[p], u.neg[p]);
    PublishLinesSame(p, n, m, w.plane.tracks, OpenMids(p, k));
    DisciplineSame(n, m, w.plane.offers[p]);
    SlotsKept(w, u, p, k.gone, k.gone);
  }

  /** Each slot's subscription id was made for its participant, and for that slot. */
  ghost predicate OwnersOk(w: World) {
    forall p, i :: p in w.neg && SlotAt(w.neg[p].mlines, i) ==> OwnedBy(w, p, i)
  }

  ghost predicate OwnedBy(w: World, p: Pid, i: int)
    requires p in w.neg && SlotAt(w.neg[p].mlines, i)
  {
    var ms := w.neg[p].mlines;
    && ms[i].role.slot.sub in w.plane.owner && w.plane.owner[ms[i].role.slot.sub] == p
    && w.neg[p].session.Some?
    && forall j :: SlotAt(ms, j) && j != i ==> ms[j].role.slot.sub != ms[i].role.slot.sub
  }

  lemma CoreOwners(w: World, k: Slack)
    requires Core(w, k)
    ensures OwnersOk(w)
  {
    forall p, i | p in w.neg && SlotAt(w.neg[p].mlines, i) ensures OwnedBy(w, p, i) {
      assert Lines(w, p, k);
      LinesOwner(w, p, i, k);
    }
  }

  lemma LinesOwner(w: World, p: Pid, i: int, k: Slack)
    requires p in w.neg && Lines(w, p, k) && SlotAt(w.neg[p].mlines, i)
    ensures OwnedBy(w, p, i)
  {
    assert Open(0);
    var n := w.neg[p];
    assert n.session.Some?;
    assert SlotOk(w, p, w.plane.entries[n.session.value].ssrcs, n.mlines[i].role.slot, k.gone);
  }

  ghost function DropAccepted(w: World, p: Pid, i: nat): World
    requires p in w.neg && SlotAt(w.neg[p].mlines, i)
  {
    w.(neg := w.neg[p := Deactivated(w.neg[p], i)],
       plane := Accepted(w.plane, Unsubscribe(w.neg[p].mlines[i].role.slot.sub), p))
  }

  ghost function DropRefused(w: World, p: Pid, i: nat): World
    requires p in w.neg && SlotAt(w.neg[p].mlines, i)
  {
    w.(neg := w.neg[p := Deactivated(w.neg[p], i)], plane := Refused(w.plane, p))
  }

  /** With the slot and its subscription gone together, or `p` marked, the shard still agrees. */
  lemma DropShardSubs(w: World, u: World, p: Pid, i: nat, gone: set<Tid>)
    requires ShardSubs(w, gone) && OwnersOk(w) && p in w.neg && SlotAt(w.neg[p].mlines, i)
    requires u.neg == w.neg[p := Deactivated(w.neg[p], i)]
    requires u.plane.owner == w.plane.owner && w.plane.lost <= u.plane.lost && Zombies(u.plane) == Zombies(w.plane)
    requires u.plane.shard.tracks == w.plane.shard.tracks && u.plane.shard.sessions == w.plane.shard.sessions
    requires
      var x := w.neg[p].mlines[i].role.slot.sub;
      || u.plane.shard.subs == w.plane.shard.subs - {x}
      || (u.plane.shard.subs == w.plane.shard.subs && p in u.plane.lost)
      || (u.plane.shard.subs == w.plane.shard.subs && !w.neg[p].mlines[i].role.slot.onShard)
    ensures ShardSubs(u, gone)
  {
    assert Open(0);
    var x := w.neg[p].mlines[i].role.slot.sub;
    assert OwnedBy(w, p, i);
    forall y | y in u.plane.shard.subs ensures y in u.plane.owner && Explained(u, y) {
      assert Explained(w, y);
      var (s, q) := (w.plane.shard.subs[y], w.plane.owner[y]);
      if q == p && p !in u.plane.lost && p in w.neg && Carries(w.neg[p].mlines, y, s.track) {
        DropCarries(w.neg[p].mlines, i, y, s.track);
      }
    }
    forall q, j | q in u.neg && q !in u.plane.lost && SlotAt(u.neg[q].mlines, j)
      ensures OnShardTruly(u, q, u.neg[q].mlines[j].role.slot, gone)
    {
      assert SlotAt(w.neg[q].mlines, j);
      assert OnShardTruly(w, q, w.neg[q].mlines[j].role.slot, gone);
      assert OwnedBy(w, q, j);
    }
    forall q, j | q in u.neg && SlotAt(u.neg[q].mlines, j) ensures OffShardTruly(u, u.neg[q].mlines[j].role.slot) {
      assert SlotAt(w.neg[q].mlines, j);
      assert OffShardTruly(w, w.neg[q].mlines[j].role.slot);
    }
  }

  lemma DropCarries(ms: seq<Mline>, i: nat, y: SubId, t: Tid)
    requires SlotAt(ms, i) && Carries(ms, y, t) && (ms[i].role.slot.sub != y || !ms[i].role.slot.onShard)
    ensures Carries(ms[i := ms[i].(role := Inactive)], y, t)
  {
    var j :| SlotAt(ms, j) && ms[j].role.slot.onShard && ms[j].role.slot.sub == y && ms[j].role.slot.track == t;
    assert SlotAt(ms[i := ms[i].(role := Inactive)], j);
  }

  /** Dropping a slot on the shard, whatever the queue and the shard say. */
  lemma DroppedKeeps(w: World, p: Pid, i: nat, k: Slack)
    requires Core(w, k) && p in w.neg && SlotAt(w.neg[p].mlines, i) && w.neg[p].mlines[i].role.slot.onShard
    requires k.gone == {}
    ensures Core(DropAccepted(w, p, i), k) && Core(DropRefused(w, p, i), k)
    ensures DropAccepted(w, p, i).plane.rejects == w.plane.rejects || p in w.plane.lost
  {
    CoreOwners(w, k);
    var x := w.neg[p].mlines[i].role.slot.sub;
    var (a, r) := (DropAccepted(w, p, i), DropRefused(w, p, i));
    UnsubscribeVerdict(w, p, i);
    LinesInDomain(w, p, k);
    assert Zombies(a.plane) == Zombies(w.plane) == Zombies(r.plane);
    DropShardSubs(w, a, p, i, {});
    DropShardSubs(w, r, p, i, {});
    DeactivatedLines(w, a, p, i, k);
    DeactivatedLines(w, r, p, i, k);
    DeactivatedRelines(w, a, p, i, k);
    DeactivatedRelines(w, r, p, i, k);
    ShardTablesKept(w.plane, a.plane);
    ShardTablesKept(w.plane, r.plane);
    RefusedBooks(w.plane, p, k.taken);
    AcceptedUnsubscribeBooks(w.plane, x, p, k.taken);
    Relined(w, a, p, k, k);
    Relined(w, r, p, k, k);
  }

  lemma UnsubscribeVerdict(w: World, p: Pid, i: nat)
    requires p in w.neg && SlotAt(w.neg[p].mlines, i) && w.neg[p].mlines[i].role.slot.onShard && ShardSubs(w, {})
    ensures
      var x := w.neg[p].mlines[i].role.slot.sub;
      Verdict(w.plane.shard, Unsubscribe(x)).None? || p in w.plane.lost
  {
    assert Open(0);
    assert p in w.plane.lost || OnShardTruly(w, p, w.neg[p].mlines[i].role.slot, {});
  }

  lemma DeactivatedRelines(w: World, u: World, p: Pid, i: nat, k: Slack)
    requires p in w.neg && SlotAt(w.neg[p].mlines, i) && Registry(w) && Lines(w, p, k)
    requires u.neg == w.neg[p := Deactivated(w.neg[p], i)] && u.sessions == w.sessions
    requires SameTables(w.plane, u.plane, p)
    ensures Relines(w, u, p)
  {
    assert Open(0);
    forall t | t in w.neg[p].published && t in w.plane.tracks
      ensures PublishAt(u.neg[p].mlines, w.plane.tracks[t].mid)
    {
      assert TrackOk(w, t);
    }
  }

  lemma AcceptedUnsubscribeBooks(v: PlaneView, x: SubId, p: Pid, taken: set<Pid>)
    requires Books(v, taken)
    requires Verdict(v.shard, Unsubscribe(x)).None? || p in v.lost
    ensures Books(Accepted(v, Unsubscribe(x), p), taken)
  {
    assert Open(0);
    var z := Accepted(v, Unsubscribe(x), p);
  }

  // ── Subscribe ────────────────────────────────────────────────────

  /** M-line `i` of `p` carries its subscription on the shard. */
  function Activated(n: Neg, i: nat): Neg
    requires SlotAt(n.mlines, i)
  {
    n.(mlines := n.mlines[i := n.mlines[i].(role := Role.Subscribe(n.mlines[i].role.slot.(onShard := true)))])
  }

  /** The queue took the `Subscribe` of slot `i`: the mark moves up to its offset. */
  ghost function SubscribeAccepted(w: World, p: Pid, i: nat): World
    requires p in w.neg && SlotAt(w.neg[p].mlines, i) && w.neg[p].session.Some?
    requires w.neg[p].session.value in w.plane.entries
  {
    var (id, slot) := (w.neg[p].session.value, w.neg[p].mlines[i].role.slot);
    var e := w.plane.entries[id];
    w.(neg := w.neg[p := Activated(w.neg[p], i)],
       plane := Accepted(w.plane, Command.Subscribe(id, slot.sub, slot.track, slot.ssrc), p).(
         entries := w.plane.entries[id := e.(ssrcs := e.ssrcs.(high := OffsetOf(e.ssrcs, slot.ssrc)))]))
  }

  /** Slot `i` may be registered: in the session, off the shard, above the mark, its track live. */
  ghost predicate Registrable(w: World, p: Pid, i: nat) {
    && p in w.neg && SlotAt(w.neg[p].mlines, i) && w.neg[p].session.Some? && !w.neg[p].offerPending
    && w.neg[p].session.value in w.plane.entries
    && var slot := w.neg[p].mlines[i].role.slot;
       && !slot.onShard && slot.track in w.plane.tracks
       && !IsStale(w.plane.entries[w.neg[p].session.value].ssrcs, slot.ssrc)
  }

  ghost function OnShardIds(ms: seq<Mline>): set<SubId> {
    set i | 0 <= i < |ms| && ms[i].role.Subscribe? && ms[i].role.slot.onShard :: ms[i].role.slot.sub
  }

  lemma OnShardIdsSize(ms: seq<Mline>)
    ensures |OnShardIds(ms)| <= |set i | 0 <= i < |ms| && ms[i].role.Subscribe? && ms[i].role.slot.onShard|
  {
    var all := set i | 0 <= i < |ms| && ms[i].role.Subscribe? && ms[i].role.slot.onShard;
    var sub: int -> SubId := i => if 0 <= i < |ms| && ms[i].role.Subscribe? then ms[i].role.slot.sub else 0;
    forall x | x in OnShardIds(ms) ensures exists i :: i in all && sub(i) == x {
      var i :| 0 <= i < |ms| && ms[i].role.Subscribe? && ms[i].role.slot.onShard && ms[i].role.slot.sub == x;
      assert i in all && sub(i) == x;
    }
    ImageSize(all, sub, OnShardIds(ms));
  }

  /** With a slot still off the shard there is room for one more subscription. */
  lemma RoomForOne(ms: seq<Mline>, i: nat)
    requires SlotAt(ms, i) && !ms[i].role.slot.onShard && |SlotIndices(ms)| <= MAX_SUBS_PER_SESSION
    ensures |OnShardIds(ms)| < MAX_SUBS_PER_SESSION
  {
    OnShardIdsSize(ms);
    var on := set j | 0 <= j < |ms| && ms[j].role.Subscribe? && ms[j].role.slot.onShard;
    assert on + {i} <= SlotIndices(ms) && i !in on;
    Subset(on + {i}, SlotIndices(ms));
  }

  /** The shard refuses it only for a subscription the tables already forgot. */
  lemma SubscribeVerdict(w: World, p: Pid, i: nat, k: Slack)
    requires Core(w, k) && Registrable(w, p, i)
    ensures
      var (id, slot) := (w.neg[p].session.value, w.neg[p].mlines[i].role.slot);
      var r := Verdict(w.plane.shard, Command.Subscribe(id, slot.sub, slot.track, slot.ssrc));
      r.None? || (r == Some(SubscriptionLimit) && w.plane.refused > 0)
  {
    var (id, slot, v) := (w.neg[p].session.value, w.neg[p].mlines[i].role.slot, w.plane);
    SlotFacts(w, p, i, k);
    SessionFacts(v, id);
    TrackFacts(v, slot.track);
    OffShardFacts(w, p, i, k.gone);
    if v.refused == 0 {
      QuietSubs(w, p, id, k);
      RoomForOne(w.neg[p].mlines, i);
      Subset(SubsOf(v.shard, id), OnShardIds(w.neg[p].mlines));
    }
  }

  lemma SlotFacts(w: World, p: Pid, i: nat, k: Slack)
    requires p in w.neg && Lines(w, p, k) && SlotAt(w.neg[p].mlines, i)
    ensures
      var n := w.neg[p];
      && p in w.sessions && n.session.Some? && n.session.value in w.plane.entries
      && |SlotIndices(n.mlines)| <= MAX_SUBS_PER_SESSION
      && SlotOk(w, p, w.plane.entries[n.session.value].ssrcs, n.mlines[i].role.slot, k.gone)
  {
    assert Open(0);
  }

  lemma SessionFacts(v: PlaneView, id: Sid)
    requires ShardSessions(v) && id in v.entries
    ensures SessionOk(v, id)
  {
    assert Open(0);
  }

  lemma TransportFacts(w: World, p: Pid)
    requires Transports(w) && p in w.neg && w.neg[p].session.Some?
    ensures w.neg[p].session.value in w.plane.entries && w.plane.entries[w.neg[p].session.value].participant == p
    ensures EntryOk(w, w.neg[p].session.value)
  {
    assert Open(0);
    assert SessionKnown(w, p);
  }

  lemma TrackFacts(v: PlaneView, t: Tid)
    requires ShardTracks(v) && t in v.tracks
    ensures t in v.shard.tracks && v.shard.tracks[t] == ShardTrack(v.tracks[t].session, v.tracks[t].ssrc)
  {
    assert Open(0);
  }

  lemma OffShardFacts(w: World, p: Pid, i: nat, gone: set<Tid>)
    requires ShardSubs(w, gone) && p in w.neg && SlotAt(w.neg[p].mlines, i)
    ensures OffShardTruly(w, w.neg[p].mlines[i].role.slot)
  {
    assert Open(0);
  }

  /** In a run without refusals the session's subscriptions are those of its m-lines. */
  lemma QuietSubs(w: World, p: Pid, id: Sid, k: Slack)
    requires Core(w, k) && p in w.neg && w.neg[p].session == Some(id) && w.plane.refused == 0
    ensures SubsOf(w.plane.shard, id) <= OnShardIds(w.neg[p].mlines)
  {
    QuietFacts(w.plane, k.taken);
    forall x | x in SubsOf(w.plane.shard, id) ensures x in OnShardIds(w.neg[p].mlines) {
      QuietSub(w, p, id, x, k.gone);
    }
  }

  lemma QuietFacts(v: PlaneView, taken: set<Pid>)
    requires Books(v, taken)
    ensures 0 < v.nextSession && 0 < v.nextTrack
    ensures v.refused == 0 ==> Zombies(v) == {} && v.lost == {} && v.rejects == []
  {
    assert Open(0);
  }

  lemma QuietSub(w: World, p: Pid, id: Sid, x: SubId, gone: set<Tid>)
    requires Transports(w) && ShardSubs(w, gone) && p in w.neg && w.neg[p].session == Some(id)
    requires Zombies(w.plane) == {} && w.plane.lost == {} && x in SubsOf(w.plane.shard, id)
    ensures x in OnShardIds(w.neg[p].mlines)
  {
    assert Open(0);
    assert Explained(w, x);
    var q := w.plane.owner[x];
    assert SessionKnown(w, p) && SessionKnown(w, q);
    var t := w.plane.shard.subs[x].track;
    assert Carries(w.neg[p].mlines, x, t);
  }

  lemma SubscribedSlots(w: World, u: World, p: Pid, i: nat, gone: set<Tid>)
    requires Registrable(w, p, i) && p in w.sessions && SubscribeLines(w, p, gone)
    requires p in u.neg && u.neg[p] == Activated(w.neg[p], i) && u.sessions == w.sessions
    requires u.plane.tracks == w.plane.tracks && u.plane.owner == w.plane.owner
    requires
      var (id, slot) := (w.neg[p].session.value, w.neg[p].mlines[i].role.slot);
      && id in u.plane.entries
      && u.plane.entries[id].ssrcs == w.plane.entries[id].ssrcs.(high := OffsetOf(w.plane.entries[id].ssrcs, slot.ssrc))
    ensures SubscribeLines(u, p, gone)
  {
    var (n, m) := (w.neg[p], u.neg[p]);
    assert SlotIndices(m.mlines) == SlotIndices(n.mlines);
    var (a, b) := (w.plane.entries[n.session.value].ssrcs, u.plane.entries[n.session.value].ssrcs);
    forall j | SlotAt(m.mlines, j) ensures SlotOk(u, p, b, m.mlines[j].role.slot, gone) {
      assert SlotAt(n.mlines, j) && SlotOk(w, p, a, n.mlines[j].role.slot, gone);
    }
  }

  lemma SubscribedLines(w: World, p: Pid, i: nat, k: Slack)
    requires Registrable(w, p, i) && Lines(w, p, k)
    ensures Lines(SubscribeAccepted(w, p, i), p, k)
  {
    assert Open(0);
    var u := SubscribeAccepted(w, p, i);
    PublishLinesSame(p, w.neg[p], u.neg[p], w.plane.tracks, OpenMids(p, k));
    DisciplineSame(w.neg[p], u.neg[p], w.plane.offers[p]);
    SubscribedSlots(w, u, p, i, k.gone);
  }

  lemma SubscribedShardSessions(w: World, p: Pid, i: nat, k: Slack)
    requires Core(w, k) && Registrable(w, p, i)
    ensures ShardSessions(SubscribeAccepted(w, p, i).plane)
  {
    var u := SubscribeAccepted(w, p, i);
    var id := w.neg[p].session.value;
    SubscribeVerdict(w, p, i, k);
    SlotFacts(w, p, i, k);
    SessionFacts(w.plane, id);
    TransportFacts(w, p);
    SubscribedSessions(w.plane, u.plane, id, OffsetOf(w.plane.entries[id].ssrcs, w.neg[p].mlines[i].role.slot.ssrc));
  }

  lemma SubscribedSessions(v: PlaneView, z: PlaneView, id: Sid, high: nat)
    requires ShardSessions(v) && id in v.entries
    requires z.entries == v.entries[id := v.entries[id].(ssrcs := v.entries[id].ssrcs.(high := high))]
    requires v.entries[id].ssrcs.high < high < v.entries[id].ssrcs.next
    requires z.pendingClose == v.pendingClose && z.leaked == v.leaked && z.nextSession == v.nextSession
    requires v.lost <= z.lost && id in v.shard.sessions
    requires
      || z.shard.sessions == v.shard.sessions[id := v.shard.sessions[id].(lastOffset := high)]
      || (z.shard.sessions == v.shard.sessions && v.entries[id].participant in z.lost)
    ensures ShardSessions(z)
  {
    assert Open(0);
    assert Zombies(z) == Zombies(v);
    forall x | x in z.entries ensures SessionOk(z, x) {
      assert SessionOk(v, x);
    }
  }

  lemma SubscribedShardSubs(w: World, u: World, p: Pid, i: nat, gone: set<Tid>)
    requires ShardSubs(w, gone) && OwnersOk(w) && Registrable(w, p, i)
    requires u.neg == w.neg[p := Activated(w.neg[p], i)]
    requires u.plane.owner == w.plane.owner && w.plane.lost <= u.plane.lost && Zombies(u.plane) == Zombies(w.plane)
    requires u.plane.shard.tracks == w.plane.shard.tracks && u.plane.shard.sessions.Keys == w.plane.shard.sessions.Keys
    requires
      var (id, slot) := (w.neg[p].session.value, w.neg[p].mlines[i].role.slot);
      && slot.track in w.plane.shard.tracks && id in w.plane.shard.sessions
      && (|| u.plane.shard.subs == w.plane.shard.subs[slot.sub := ShardSub(id, slot.track, slot.ssrc)]
          || (u.plane.shard.subs == w.plane.shard.subs && p in u.plane.lost))
    ensures ShardSubs(u, gone)
  {
    assert Open(0);
    var (id, slot) := (w.neg[p].session.value, w.neg[p].mlines[i].role.slot);
    assert OwnedBy(w, p, i) && OffShardTruly(w, slot);
    forall y | y in u.plane.shard.subs ensures y in u.plane.owner && Explained(u, y) {
      if y == slot.sub {
        assert SlotAt(u.neg[p].mlines, i);
      } else {
        assert Explained(w, y);
        var (s, q) := (w.plane.shard.subs[y], w.plane.owner[y]);
        if q == p && Carries(w.neg[p].mlines, y, s.track) {
          ActivatedCarries(w.neg[p], i, y, s.track);
        }
      }
    }
    forall q, j | q in u.neg && SlotAt(u.neg[q].mlines, j)
      ensures q in u.plane.lost || OnShardTruly(u, q, u.neg[q].mlines[j].role.slot, gone)
      ensures OffShardTruly(u, u.neg[q].mlines[j].role.slot)
    {
      assert SlotAt(w.neg[q].mlines, j) && OwnedBy(w, q, j);
      assert q in w.plane.lost || OnShardTruly(w, q, w.neg[q].mlines[j].role.slot, gone);
      assert OffShardTruly(w, w.neg[q].mlines[j].role.slot);
    }
  }

  lemma ActivatedCarries(n: Neg, i: nat, y: SubId, t: Tid)
    requires SlotAt(n.mlines, i) && !n.mlines[i].role.slot.onShard && Carries(n.mlines, y, t)
    ensures Carries(Activated(n, i).mlines, y, t)
  {
    var ms := n.mlines;
    var j :| SlotAt(ms, j) && ms[j].role.slot.onShard && ms[j].role.slot.sub == y && ms[j].role.slot.track == t;
    assert SlotAt(Activated(n, i).mlines, j);
  }

  lemma SubscribedBooks(v: PlaneView, z: PlaneView, c: Command, p: Pid, taken: set<Pid>)
    requires Books(v, taken) && c.Subscribe? && z == Accepted(v, c, p).(entries := z.entries)
    requires Verdict(v.shard, c).None? || (Verdict(v.shard, c) == Some(SubscriptionLimit) && v.refused > 0)
    ensures Books(z, taken)
  {
    assert Open(0);
  }

  /**
   Registering a slot above the mark: the shard takes it (its offsets strictly increase), or
   rejects it for its limit after an earlier refusal, and then the participant is marked.
   */
  lemma SubscribedKeeps(w: World, p: Pid, i: nat, k: Slack)
    requires Core(w, k) && Registrable(w, p, i)
    ensures Core(SubscribeAccepted(w, p, i), k)
  {
    var u := SubscribeAccepted(w, p, i);
    var (id, slot) := (w.neg[p].session.value, w.neg[p].mlines[i].role.slot);
    CoreOwners(w, k);
    SubscribeVerdict(w, p, i, k);
    SessionFacts(w.plane, id);
    TrackFacts(w.plane, slot.track);
    LinesInDomain(w, p, k);
    assert Zombies(u.plane) == Zombies(w.plane);
    SubscribedShardSubs(w, u, p, i, k.gone);
    SubscribedShardSessions(w, p, i, k);
    SubscribedLines(w, p, i, k);
    SessionCreatedShardTracks(w.plane, u.plane);
    SubscribedBooks(w.plane, u.plane, Command.Subscribe(id, slot.sub, slot.track, slot.ssrc), p, k.taken);
    SubscribedRelines(w, u, p, i, k);
    Relined(w, u, p, k, k);
  }

  lemma SubscribedRelines(w: World, u: World, p: Pid, i: nat, k: Slack)
    requires Registrable(w, p, i) && u == SubscribeAccepted(w, p, i) && Registry(w) && Transports(w) && Lines(w, p, k)
    ensures Relines(w, u, p)
  {
    assert Open(0);
    assert SessionKnown(w, p);
    forall t | t in w.neg[p].published && t in w.plane.tracks
      ensures PublishAt(u.neg[p].mlines, w.plane.tracks[t].mid)
    {
      assert TrackOk(w, t);
    }
  }
}
