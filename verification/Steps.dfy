/**
 One command offered to the shard's queue, and what it does to the tables whichever way
 the queue decides.
 */
module Steps {
  import opened Words
  import opened Wrappers
  import opened Ssrc
  import opened Shard
  import opened Tables
  import opened Updates
  import opened Commands
  import opened Publishing
  import opened Lifecycle

  // ── The queue ────────────────────────────────────────────────────

  /** These open the predicates below, as `Open` opens those of `Tables`. */
  ghost predicate Look(i: int) {
    true
  }

  ghost predicate LookTaken(i: int) {
    true
  }

  ghost predicate LookTurned(i: int) {
    true
  }

  /** The queue took `c`, and the shard judged it. */
  ghost predicate Taken(v: PlaneView, c: Command, p: Pid, z: PlaneView) {
    forall i {:trigger LookTaken(i)} :: LookTaken(i) ==> z == Accepted(v, c, p)
  }

  /** The queue was full, and `p` is to be closed for it. */
  ghost predicate Turned(v: PlaneView, p: Pid, z: PlaneView) {
    forall i {:trigger LookTurned(i)} :: LookTurned(i) ==> z == Refused(v, p)
  }

  /** The queue took `c`, or was full. */
  ghost predicate Sent(v: PlaneView, c: Command, p: Pid, ok: bool, z: PlaneView) {
    if ok then Taken(v, c, p, z) else z == v.(refused := v.refused + 1)
  }

  /** As `Sent`, for a participant that is closed when the queue was full. */
  ghost predicate Pushed(v: PlaneView, c: Command, p: Pid, ok: bool, z: PlaneView) {
    if ok then Taken(v, c, p, z) else Turned(v, p, z)
  }

  /** The tables and the shard are in order, but for what `k` allows. */
  ghost predicate Sound(w: World, k: Slack) {
    forall i {:trigger Look(i)} :: Look(i) ==> Core(w, k)
  }

  /** What the queue never touches. */
  lemma PushFrame(v: PlaneView, c: Command, p: Pid, ok: bool, z: PlaneView)
    requires Pushed(v, c, p, ok, z)
    ensures z.entries == v.entries && z.byParticipant == v.byParticipant && z.tracks == v.tracks
    ensures z.nextSession == v.nextSession && z.nextTrack == v.nextTrack && z.nextSub == v.nextSub
    ensures z.outbox == v.outbox && z.offers == v.offers
    ensures z.refused == if ok then v.refused else v.refused + 1
  {
    assert LookTaken(0) && LookTurned(0);
  }

  // ── Steps ────────────────────────────────────────────────────────

  lemma RefusedStep(w: World, z: PlaneView, p: Pid, k: Slack)
    requires Sound(w, k) && Turned(w.plane, p, z)
    ensures Sound(w.(plane := z), k)
  {
    assert Look(0) && LookTurned(0);
    RefusedKeeps(w, p, k);
  }

  /** Datagrams for a session that the tables know change nothing on the shard. */
  lemma DatagramStep(v: PlaneView, z: PlaneView, id: Sid, p: Pid)
    requires id in v.shard.sessions && Taken(v, SendDatagram(id), p, z)
    ensures z == v
  {
    assert LookTaken(0);
  }

  lemma DropStep(w: World, u: World, p: Pid, i: nat, ok: bool, k: Slack)
    requires Sound(w, k) && k.gone == {} && p in w.neg && SlotAt(w.neg[p].mlines, i)
      && w.neg[p].mlines[i].role.slot.onShard
    requires u == World(w.sessions, w.neg[p := Deactivated(w.neg[p], i)], u.plane)
    requires Pushed(w.plane, Unsubscribe(w.neg[p].mlines[i].role.slot.sub), p, ok, u.plane)
    ensures Sound(u, k)
  {
    assert Look(0) && LookTaken(0) && LookTurned(0);
    DroppedKeeps(w, p, i, k);
    assert u == if ok then DropAccepted(w, p, i) else DropRefused(w, p, i);
  }

  function Marked(es: map<Sid, Entry>, id: Sid, ssrc: u32): map<Sid, Entry>
    requires id in es
  {
    es[id := es[id].(ssrcs := es[id].ssrcs.(high := OffsetOf(es[id].ssrcs, ssrc)))]
  }

  /** Where the orchestrator marks an SSRC as registered, both asserts of `mark_registered` hold. */
  lemma SlotMarkable(w: World, p: Pid, i: nat, k: Slack)
    requires Sound(w, k) && Registrable(w, p, i)
    ensures Markable(w.plane.entries[w.neg[p].session.value].ssrcs, w.neg[p].mlines[i].role.slot.ssrc)
  {
    assert Look(0);
    SlotFacts(w, p, i, k);
  }

  lemma SubscribeStep(w: World, u: World, z: PlaneView, p: Pid, i: nat, k: Slack)
    requires Sound(w, k) && Registrable(w, p, i)
    requires
      var (id, slot) := (w.neg[p].session.value, w.neg[p].mlines[i].role.slot);
      && Taken(w.plane, Command.Subscribe(id, slot.sub, slot.track, slot.ssrc), p, z)
      && u == World(w.sessions, w.neg[p := Activated(w.neg[p], i)],
           z.(entries := Marked(w.plane.entries, id, slot.ssrc)))
    ensures Sound(u, k)
  {
    assert Look(0) && LookTaken(0);
    SubscribedKeeps(w, p, i, k);
    assert u == SubscribeAccepted(w, p, i);
  }

  lemma AddTrackStep(w: World, u: World, z: PlaneView, p: Pid, info: Track, k: Slack)
    requires Sound(w, k) && Addable(w, p, info, k)
    requires Taken(w.plane.(nextTrack := w.plane.nextTrack + 1), AddTrack(info.session, w.plane.nextTrack, info.ssrc),
      p, z)
    requires u == World(w.sessions, w.neg[p := w.neg[p].(published := w.neg[p].published + [w.plane.nextTrack])],
                        z.(tracks := w.plane.tracks[w.plane.nextTrack := info]))
    ensures Sound(u, k.(open := k.open - {info.mid}))
  {
    assert Look(0) && LookTaken(0);
    TrackAddedKeeps(w, p, info, k);
    assert u == TrackAdded(w, p, info);
  }

  /** A track id that was handed out and not used. */
  lemma TrackIdStep(w: World, k: Slack)
    requires Sound(w, k)
    ensures Sound(w.(plane := w.plane.(nextTrack := w.plane.nextTrack + 1)), k)
  {
    assert Look(0);
    var u := w.(plane := w.plane.(nextTrack := w.plane.nextTrack + 1));
    OwnerFacts(w.plane, k.taken);
    BooksKept(w.plane, u.plane, k.taken);
    TransportsKept(w, u);
    assert SamePublishers(w, u);
    RegistryKept(w, u);
    forall q | q in u.neg ensures Lines(u, q, k) {
      LinesInDomain(w, q, k);
      LinesKept(w, u, q, k, k);
    }
    ShardTablesKept(w.plane, u.plane);
    assert Zombies(u.plane) == Zombies(w.plane);
    assert SameSubs(w, u) by {
      forall p, i | p in u.neg && SlotAt(u.neg[p].mlines, i) ensures OldOrNewSlot(w, p, u.neg[p].mlines[i].role.slot) {
        assert SlotAt(w.neg[p].mlines, i);
      }
    }
    ShardSubsKept(w, u, k.gone);
  }

  lemma RemoveTrackStep(w: World, u: World, z: PlaneView, p: Pid, t: Tid, k: Slack)
    requires Sound(w, k) && p in w.neg && t in w.plane.tracks && w.plane.tracks[t].publisher == p
    requires Taken(w.plane, RemoveTrack(t), p, z)
    requires u ==
      World(w.sessions, w.neg[p := Released(w.neg[p], t, w.plane.tracks[t].mid)], z.(tracks := w.plane.tracks - {t}))
    ensures Sound(u, k.(gone := k.gone + {t}))
  {
    assert Look(0) && LookTaken(0);
    TrackRemovedKeeps(w, p, t, k);
    assert u == TrackRemoved(w, p, t);
  }

  lemma CreateStep(w: World, u: World, p: Pid, base: u32, k: Slack)
    requires Sound(w, k) && p in w.neg && w.neg[p].session.None? && base != 0
    requires Taken(WithSession(w.plane, p, base), CreateSession(w.plane.nextSession, base), p, u.plane)
    requires u == World(w.sessions, w.neg[p := w.neg[p].(session := Some(w.plane.nextSession), version := 0)], u.plane)
    ensures Sound(u, k)
  {
    assert Look(0) && LookTaken(0);
    SessionCreatedKeeps(w, p, base, k);
    assert u == SessionCreated(w, p, base);
  }

  /** Taking the new session back out leaves a refusal and a used id. */
  lemma CreateRefused(v: PlaneView, u: PlaneView, z: PlaneView, p: Pid, id: Sid)
    requires Turned(u, p, z) && id !in v.entries && p !in v.byParticipant && id in u.entries
    requires u == v.(entries := v.entries[id := u.entries[id]], byParticipant := v.byParticipant[p := id])
    ensures Turned(v, p, z.(entries := z.entries - {id}, byParticipant := z.byParticipant - {p}))
  {
    assert LookTurned(0);
    assert z.entries == u.entries && z.byParticipant == u.byParticipant;
    assert z.entries - {id} == v.entries && z.byParticipant - {p} == v.byParticipant;
  }

  /** A session id that was handed out and not used. */
  lemma SessionIdStep(w: World, k: Slack)
    requires Sound(w, k)
    ensures Sound(w.(plane := w.plane.(nextSession := w.plane.nextSession + 1)), k)
  {
    assert Look(0);
    var u := w.(plane := w.plane.(nextSession := w.plane.nextSession + 1));
    OwnerFacts(w.plane, k.taken);
    BooksKept(w.plane, u.plane, k.taken);
    assert Rebooks(w, u);
    Rebooked(w, u, k, k);
  }

  ghost function WithKeys(v: PlaneView, id: Sid): PlaneView
    requires id in v.entries
  {
    v.(entries := v.entries[id := v.entries[id].(srtpInstalled := true)])
  }

  lemma SrtpStep(w: World, z: PlaneView, id: Sid, k: Slack)
    requires Sound(w, k) && id in w.plane.entries && w.plane.entries[id].dtls == Complete
      && !w.plane.entries[id].srtpInstalled
    requires
      var p := w.plane.entries[id].participant;
      Taken(WithKeys(w.plane, id), InstallSrtp(id), p, z) || Turned(WithKeys(w.plane, id), p, z)
    ensures Sound(w.(plane := z), k)
  {
    assert Look(0) && LookTaken(0) && LookTurned(0);
    SrtpInstalledKeeps(w, id, k);
    assert w.(plane := z) == SrtpAccepted(w, id) || w.(plane := z) == SrtpRefused(w, id);
  }

  // ── Closes ───────────────────────────────────────────────────────

  lemma CloseStep(v: PlaneView, z: PlaneView, id: Sid, p: Pid)
    requires id in v.shard.sessions && Taken(v, CloseSession(id), p, z)
    ensures z == v.(shard := Apply(v.shard, CloseSession(id)))
  {
    assert LookTaken(0);
  }

  /** `z` is `v` without session `id`: closed on the shard, waiting to be, or given up. */
  ghost predicate SessionClosed(v: PlaneView, id: Sid, z: PlaneView)
    requires id in v.entries
  {
    var u := v.(entries := v.entries - {id}, byParticipant := v.byParticipant - {v.entries[id].participant});
    || z == u.(shard := Apply(v.shard, CloseSession(id)))
    || (z == u.(refused := v.refused + 1, pendingClose := v.pendingClose + [id]) && |v.pendingClose| < MAX_TRANSPORTS)
    || (z == u.(refused := v.refused + 1, leaked := v.leaked + {id}) && |v.pendingClose| >= MAX_TRANSPORTS)
  }

  /** The plane with the closes still to be retried back on the list. */
  ghost function Waiting(v: PlaneView, pending: seq<Sid>, i: nat): PlaneView
    requires i <= |pending|
  {
    v.(pendingClose := v.pendingClose + pending[i..])
  }

  lemma RestOf(kept: seq<Sid>, pending: seq<Sid>, i: nat)
    requires i <= |pending|
    ensures i == 0 && kept == [] ==> kept + pending[i..] == pending
    ensures i == |pending| ==> kept + pending[i..] == kept
    ensures i < |pending| ==>
      var all := kept + pending[i..];
      && |kept| < |all| && all[|kept|] == pending[i]
      && all[..|kept|] + all[|kept|+1..] == kept + pending[i+1..]
      && all == kept + [pending[i]] + pending[i+1..]
  {
  }

  lemma RetryStart(w: World, v: PlaneView, k: Slack)
    requires Sound(w, k) && v == w.plane.(pendingClose := [])
    ensures Sound(w.(plane := Waiting(v, w.plane.pendingClose, 0)), k)
  {
    RestOf([], w.plane.pendingClose, 0);
    assert w.(plane := Waiting(v, w.plane.pendingClose, 0)) == w;
  }

  lemma RetryEnd(w: World, v: PlaneView, pending: seq<Sid>, k: Slack)
    requires Sound(w.(plane := Waiting(v, pending, |pending|)), k)
    ensures Sound(w.(plane := v), k)
  {
    RestOf(v.pendingClose, pending, |pending|);
    assert w.(plane := Waiting(v, pending, |pending|)) == w.(plane := v);
  }

  /** The waiting close is taken, or refused once more. */
  lemma LateStep(w: World, v: PlaneView, z: PlaneView, pending: seq<Sid>, i: nat, ok: bool, k: Slack)
    requires i < |pending| && Sound(w.(plane := Waiting(v, pending, i)), k)
      && Sent(v, CloseSession(pending[i]), 0, ok, z)
    ensures z.refused == (if ok then v.refused else v.refused + 1) && z.tracks == v.tracks
      && z.closing == v.closing && z.pendingClose == v.pendingClose
    ensures ok ==> Sound(w.(plane := Waiting(z, pending, i + 1)), k)
    ensures !ok ==> Sound(w.(plane := Waiting(z.(pendingClose := v.pendingClose + [pending[i]]), pending, i + 1)), k)
  {
    var (u, j) := (w.(plane := Waiting(v, pending, i)), |v.pendingClose|);
    RestOf(v.pendingClose, pending, i);
    if ok {
      LateVerdict(u, j, k);
      CloseStep(v, z, pending[i], 0);
      LateTaken(u, j, k, w.(plane := Waiting(z, pending, i + 1)));
    } else {
      CounterKeeps(u, k);
      assert w.(plane := Waiting(z.(pendingClose := v.pendingClose + [pending[i]]), pending, i + 1)) ==
             u.(plane := u.plane.(refused := u.plane.refused + 1));
    }
  }

  lemma LateVerdict(w: World, j: nat, k: Slack)
    requires Sound(w, k) && j < |w.plane.pendingClose|
    ensures w.plane.pendingClose[j] in w.plane.shard.sessions
  {
    assert Look(0);
    ZombieFacts(w, j);
  }

  lemma LateTaken(w: World, j: nat, k: Slack, u: World)
    requires Sound(w, k) && j < |w.plane.pendingClose| && u == LateClosed(w, j)
    ensures Sound(u, k)
  {
    assert Look(0);
    LateClosedKeeps(w, j, k);
  }

  /** A refusal that nobody is to be closed for. */
  lemma CounterKeeps(w: World, k: Slack)
    requires Sound(w, k)
    ensures Sound(w.(plane := w.plane.(refused := w.plane.refused + 1)), k)
  {
    assert Look(0);
    var u := w.(plane := w.plane.(refused := w.plane.refused + 1));
    CounterBooks(w.plane, k.taken);
    assert Rebooks(w, u);
    Rebooked(w, u, k, k);
  }

  lemma CounterBooks(v: PlaneView, taken: set<Pid>)
    requires Books(v, taken)
    ensures Books(v.(refused := v.refused + 1), taken)
  {
    assert Open(0);
    var z := v.(refused := v.refused + 1);
  }
}
