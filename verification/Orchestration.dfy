/** Steps that reach across participants: tracks that went away, and participants that left. */
module Orchestration {
  import opened Collections
  import opened Wrappers
  import opened Shard
  import opened Tables
  import opened Updates
  import opened Commands
  import opened Publishing
  import opened Lifecycle
  import opened Offers
  import opened Steps
  import opened Protocol
  import opened Answers
  import opened Subscriptions

  /** Each handle mirrors the tracks its participant published. */
  ghost predicate Mirrored(w: World) {
    forall p :: p in w.neg && p in w.sessions ==> w.sessions[p].published == w.neg[p].published
  }

  // ── One participant's steps ──────────────────────────────────────

  lemma PublishAgrees(w: World, u: World, p: Pid, kinds: seq<Kind>, ss: seq<Subscription>)
    requires Agrees(w, p, ss) && PublishAsked(w, u, p, kinds)
    ensures Agrees(u, p, ss) && TracksStay(w, u) && u.neg[p].published == w.neg[p].published
  {
    PublishAskedTracks(w, u, p, kinds);
  }

  lemma AnswerAgrees(w: World, u: World, p: Pid, answer: Answer, activated: seq<Tid>, fate: Fate, ss: seq<Subscription>)
    requires Agrees(w, p, ss) && AnswerHandled(w, u, p, TrackIds(ss), answer, activated, fate)
    ensures Agrees(u, p, Activate(ss, activated)) && TracksStay(w, u) && u.neg == w.neg[p := u.neg[p]]
      && u.sessions == w.sessions
  {
    ActivateSets(ss, activated);
    assert Elements([]) == {};
    if fate.Applied? {
      OnShardAreSlots(u.neg[p].mlines);
    }
  }

  lemma AgreesFollows(w: World, p: Pid, ss: seq<Subscription>)
    requires Agrees(w, p, ss)
    ensures Follows(w, p, TrackIds(ss)) && OwnRoom(w, p, TrackIds(ss))
  {
  }

  // ── Steps that leave the negotiation alone ───────────────────────

  /** Sessions, m-lines and tracks are the same. */
  ghost predicate PlaneOnly(w: World, u: World) {
    u.sessions == w.sessions && u.neg == w.neg && u.plane.tracks == w.plane.tracks
  }

  lemma PlaneAccord(w: World, u: World, subs: map<Pid, seq<Subscription>>)
    requires Accord(w, subs) && PlaneOnly(w, u)
    ensures Accord(u, subs)
  {
    assert LookAgreed(0);
    forall q | q in u.neg ensures Agrees(u, q, subs[q]) {
      assert Agrees(w, q, subs[q]);
    }
  }

  // ── Arriving ─────────────────────────────────────────────────────

  lemma ConnectStep(w: World, u: World, p: Pid, subs: map<Pid, seq<Subscription>>, k: Slack)
    requires Sound(w, k) && Accord(w, subs) && Calm(k) && p !in w.neg && p != 0 && u == Connected(w, p)
    ensures Sound(u, k)
  {
    assert Look(0);
    ConnectedKeeps(w, p, k);
  }

  lemma ConnectAccord(w: World, u: World, p: Pid, subs: map<Pid, seq<Subscription>>)
    requires Accord(w, subs) && p !in w.neg && u == Connected(w, p)
    ensures Accord(u, subs[p := []])
  {
    assert LookAgreed(0);
    forall q | q in u.neg ensures Agrees(u, q, subs[p := []][q]) {
      if q != p {
        assert Agrees(w, q, subs[q]);
      }
    }
  }

  lemma JoinStep(w: World, u: World, p: Pid, room: Room)
    requires Sound(w, SETTLED) && p in w.neg && p in w.sessions && w.sessions[p].room.None? && u == Joined(w, p, room)
    ensures Sound(u, SETTLED)
  {
    assert Look(0);
    JoinedKeeps(w, p, room);
  }

  lemma JoinAccord(w: World, u: World, p: Pid, room: Room, subs: map<Pid, seq<Subscription>>)
    requires Accord(w, subs) && p in w.neg && p in w.sessions && w.sessions[p].room.None? && u == Joined(w, p, room)
    ensures Accord(u, subs)
  {
    assert LookAgreed(0);
    forall q | q in u.neg ensures Agrees(u, q, subs[q]) {
      assert Agrees(w, q, subs[q]);
      if q == p && subs[p] != [] {
        assert TrackIds(subs[p])[0] in TrackIds(subs[p]);
      }
    }
  }

  // ── Tracks that went away ────────────────────────────────────────

  /** `q`'s slots, flags and room are the same; publish m-lines may have been released. */
  ghost predicate SlotsSame(w: World, u: World, q: Pid) {
    && q in w.neg && q in u.neg && q in w.sessions && q in u.sessions && u.sessions[q].room == w.sessions[q].room
    && var (n, m) := (w.neg[q], u.neg[q]);
       && SameSlots(n.mlines, m.mlines)
       && m.offerPending == n.offerPending && m.renegotiate == n.renegotiate && m.queued == n.queued
          && m.lastIds == n.lastIds
  }

  /** `removed` left the registry (with their publisher, perhaps); the others are as they were. */
  ghost predicate TracksGone(w: World, u: World, removed: set<Tid>) {
    && u.neg.Keys <= w.neg.Keys && (forall q :: q in u.neg ==> SlotsSame(w, u, q))
    && u.plane.tracks == w.plane.tracks - removed
  }

  /** All are in agreement but those in `todo`, who are still to be offered their sets. */
  ghost predicate AccordBut(w: World, subs: map<Pid, seq<Subscription>>, todo: set<Pid>) {
    forall i {:trigger LookAgreed(i)} :: LookAgreed(i) ==>
      && subs.Keys == w.neg.Keys && todo <= w.neg.Keys
      && forall q :: q in w.neg ==> Almost(w, q, subs[q]) && (q !in todo ==> Agrees(w, q, subs[q]))
  }

  lemma ForgottenTracks(ms: seq<Mline>, tracks: set<Tid>)
    ensures SlotTracks(ForgottenLines(ms, tracks)) == SlotTracks(ms) - tracks
    ensures OnShardTracks(ForgottenLines(ms, tracks)) == OnShardTracks(ms) - tracks
  {
    var us := ForgottenLines(ms, tracks);
    forall t | t in SlotTracks(ms) && t !in tracks ensures t in SlotTracks(us) {
      var i :| 0 <= i < |ms| && ms[i].role.Subscribe? && ms[i].role.slot.track == t;
      assert us[i] == ms[i];
    }
    forall t | t in OnShardTracks(ms) && t !in tracks ensures t in OnShardTracks(us) {
      var i :| 0 <= i < |ms| && ms[i].role.Subscribe? && ms[i].role.slot.onShard && ms[i].role.slot.track == t;
      assert us[i] == ms[i];
    }
    forall t | t in SlotTracks(us) ensures t in SlotTracks(ms) && t !in tracks {
      var i :| 0 <= i < |us| && us[i].role.Subscribe? && us[i].role.slot.track == t;
      assert us[i] == ms[i];
    }
    forall t | t in OnShardTracks(us) ensures t in OnShardTracks(ms) && t !in tracks {
      var i :| 0 <= i < |us| && us[i].role.Subscribe? && us[i].role.slot.onShard && us[i].role.slot.track == t;
      assert us[i] == ms[i];
    }
  }

  /** One participant after the tracks are forgotten: ready to be offered its smaller set. */
  lemma ForgottenAlmost(w: World, a: World, u: World, q: Pid, ss: seq<Subscription>, removed: set<Tid>)
    requires Agrees(w, q, ss) && SlotsSame(w, a, q) && a.plane.tracks == w.plane.tracks - removed
    requires u == a.(neg := Forgotten(a.neg, removed))
    ensures Almost(u, q, Retained(ss, removed))
    ensures Retained(ss, removed) == ss ==> Agrees(u, q, ss)
  {
    ForgottenTracks(a.neg[q].mlines, removed);
    SameSlotsTracks(w.neg[q].mlines, a.neg[q].mlines);
    RetainedSets(ss, removed);
    RetainedMembers(ss, removed);
    RetainedSame(ss, removed);
    var r := Retained(ss, removed);
    forall t | t in TrackIds(r) ensures t in u.plane.tracks && u.sessions[q].room == Some(u.plane.tracks[t].room) {
      assert t in Elements(TrackIds(r));
      assert t in TrackIds(ss);
    }
  }

  lemma ForgottenAccord(w: World, a: World, u: World, subs: map<Pid, seq<Subscription>>, left: map<Pid,
                        seq<Subscription>>, removed: set<Tid>, affected: set<Pid>)
    requires Accord(w, subs) && TracksGone(w, a, removed) && u == a.(neg := Forgotten(a.neg, removed))
    requires left.Keys == a.neg.Keys && forall q :: q in left ==> q in subs && left[q] == subs[q]
    requires affected <= a.neg.Keys && forall q :: q in a.neg && Retained(left[q], removed) != left[q] ==> q in affected
    ensures AccordBut(u, ForgottenSets(left, removed), affected)
  {
    assert LookAgreed(0);
    var sets := ForgottenSets(left, removed);
    forall q | q in u.neg ensures Almost(u, q, sets[q]) && (q !in affected ==> Agrees(u, q, sets[q])) {
      assert Agrees(w, q, subs[q]);
      ForgottenAlmost(w, a, u, q, subs[q], removed);
    }
  }

  lemma AlmostFacts(w: World, subs: map<Pid, seq<Subscription>>, todo: set<Pid>, p: Pid)
    requires AccordBut(w, subs, todo) && p in todo
    ensures p in subs && p in w.neg && Almost(w, p, subs[p])
  {
    assert LookAgreed(0);
  }

  lemma OneOffered(w: World, u: World, subs: map<Pid, seq<Subscription>>, todo: set<Pid>, p: Pid)
    requires AccordBut(w, subs, todo) && p in todo && p in subs && Almost(w, p, subs[p])
      && Requested(w, u, p, TrackIds(subs[p]))
    ensures AccordBut(u, subs, todo - {p})
  {
    RequestedAgrees(w, u, p, subs[p]);
    assert LookAgreed(0);
    forall q | q in u.neg ensures Almost(u, q, subs[q]) && (q !in todo - {p} ==> Agrees(u, q, subs[q])) {
      if q != p {
        assert Almost(w, q, subs[q]);
      }
    }
  }

  lemma AllOffered(w: World, subs: map<Pid, seq<Subscription>>)
    requires AccordBut(w, subs, {})
    ensures Accord(w, subs)
  {
    assert LookAgreed(0);
    forall q | q in w.neg ensures Agrees(w, q, subs[q]) {
      assert q !in {};
    }
  }

  // ── Closing ──────────────────────────────────────────────────────

  /** A participant that is in no table is not waited for, and blamed for nothing. */
  lemma AbsentStep(w: World, u: World, p: Pid, k: Slack, l: Slack)
    requires Sound(w, k) && p !in w.neg && l == k.(taken := k.taken - {p})
    requires u == w.(plane := w.plane.(lost := w.plane.lost - {p}, dropped := w.plane.dropped - {p}))
    ensures Sound(u, l)
  {
    assert Look(0);
    forall x | x in w.plane.entries ensures w.plane.entries[x].participant != p {
      EntryFacts(w, x);
    }
    TransportsKept(w, u);
    assert SamePublishers(w, u);
    RegistryKept(w, u);
    forall q | q in u.neg ensures Lines(u, q, l) {
      LinesInDomain(w, q, k);
      LinesKept(w, u, q, k, l);
    }
    SessionlessSessions(w.plane, u.plane, p);
    assert Zombies(u.plane) == Zombies(w.plane);
    SessionCreatedShardTracks(w.plane, u.plane);
    AbsentSubs(w, u, p, k.gone);
    AbsentBooks(w.plane, u.plane, p, k.taken);
  }

  lemma AbsentSubs(w: World, u: World, p: Pid, gone: set<Tid>)
    requires ShardSubs(w, gone) && p !in w.neg
      && u == w.(plane := w.plane.(lost := w.plane.lost - {p}, dropped := w.plane.dropped - {p}))
    ensures ShardSubs(u, gone)
  {
    assert Open(0);
    assert Zombies(u.plane) == Zombies(w.plane);
    forall x | x in u.plane.shard.subs ensures x in u.plane.owner && Explained(u, x) {
      assert Explained(w, x);
    }
    forall q, i | q in u.neg && SlotAt(u.neg[q].mlines, i)
      ensures q in u.plane.lost || OnShardTruly(u, q, u.neg[q].mlines[i].role.slot, gone)
      ensures OffShardTruly(u, u.neg[q].mlines[i].role.slot)
    {
      assert q in w.plane.lost || OnShardTruly(w, q, w.neg[q].mlines[i].role.slot, gone);
      assert OffShardTruly(w, w.neg[q].mlines[i].role.slot);
    }
  }

  lemma AbsentBooks(v: PlaneView, z: PlaneView, p: Pid, taken: set<Pid>)
    requires Books(v, taken) && z == v.(lost := v.lost - {p}, dropped := v.dropped - {p})
    ensures Books(z, taken - {p})
  {
    assert Open(0);
  }

  /** The closing list is taken to be worked off. */
  lemma TakeStep(w: World, u: World)
    requires Sound(w, SETTLED) && u == w.(plane := w.plane.(closing := []))
    ensures Sound(u, SETTLED.(taken := Participants(w.plane.closing)))
  {
    assert Look(0);
    TakenBooks(w.plane, u.plane);
    assert Rebooks(w, u);
    Rebooked(w, u, SETTLED, SETTLED.(taken := Participants(w.plane.closing)));
  }

  ghost function Participants(closing: seq<Closing>): set<Pid> {
    set i | 0 <= i < |closing| :: closing[i].participant
  }

  lemma TakenBooks(v: PlaneView, z: PlaneView)
    requires Books(v, {}) && z == v.(closing := [])
    ensures Books(z, Participants(v.closing))
  {
    assert Open(0);
    forall p | p in z.lost ensures p in z.dropped || p in Participants(v.closing) {
      if p !in v.dropped {
        assert IsClosing(v, p);
        var i :| 0 <= i < |v.closing| && v.closing[i].participant == p;
      }
    }
  }

  // ── Handles ──────────────────────────────────────────────────────

  /** The handles' own lists matter to nobody else. */
  lemma HandlesStep(w: World, u: World, k: Slack)
    requires Sound(w, k) && u == w.(sessions := u.sessions) && u.sessions.Keys == w.sessions.Keys
    requires forall q :: q in w.sessions ==> u.sessions[q].room == w.sessions[q].room
    ensures Sound(u, k)
  {
    assert Look(0);
    TransportsKept(w, u);
    assert SamePublishers(w, u);
    RegistryKept(w, u);
    forall q | q in u.neg ensures Lines(u, q, k) {
      LinesInDomain(w, q, k);
      LinesKept(w, u, q, k, k);
    }
    ShardSubsUntouched(w, u, k.gone);
  }

  lemma HandlesAccord(w: World, u: World, subs: map<Pid, seq<Subscription>>)
    requires Accord(w, subs) && u == w.(sessions := u.sessions) && u.sessions.Keys == w.sessions.Keys
    requires forall q :: q in w.sessions ==> u.sessions[q].room == w.sessions[q].room
    ensures Accord(u, subs)
  {
    assert LookAgreed(0);
    forall q | q in u.neg ensures Agrees(u, q, subs[q]) {
      assert Agrees(w, q, subs[q]);
    }
  }

  // ── Unpublish ────────────────────────────────────────────────────

  /** `s` without `removed` (`retain`). */
  function Kept(s: seq<Tid>, removed: set<Tid>): (r: seq<Tid>)
    ensures forall t :: t in r <==> t in s && t !in removed
  {
    if s == [] then []
    else
      var rest := Kept(s[1..], removed);
      assert s == [s[0]] + s[1..];
      if s[0] in removed then rest else [s[0]] + rest
  }

  lemma {:induction false} KeptWithout(s: seq<Tid>, removed: set<Tid>, t: Tid)
    ensures Without(Kept(s, removed), t) == Kept(s, removed + {t})
  {
    if s != [] {
      KeptWithout(s[1..], removed, t);
      var (rest, r) := (Kept(s[1..], removed), Kept(s, removed));
      if s[0] in removed {
        assert r == rest;
      } else {
        assert r == [s[0]] + rest && r[1..] == rest;
      }
    }
  }

  lemma {:induction false} KeptAll(s: seq<Tid>)
    ensures Kept(s, {}) == s
  {
    if s != [] {
      KeptAll(s[1..]);
    }
  }

  /** `p` unpublished `removed`, its own tracks; only its list and publish m-lines changed. */
  ghost predicate Unpublishing(w: World, u: World, p: Pid, removed: set<Tid>) {
    && u.sessions == w.sessions && p in w.neg && p in u.neg && p in w.sessions && u.neg == w.neg[p := u.neg[p]]
    && u.neg[p].published == Kept(w.neg[p].published, removed)
    && SlotsSame(w, u, p)
    && removed <= TracksBy(w.plane.tracks, p) && u.plane.tracks == w.plane.tracks - removed
    && w.plane.refused <= u.plane.refused
  }

  lemma NothingUnpublished(w: World, p: Pid)
    requires p in w.neg && p in w.sessions
    ensures Unpublishing(w, w, p, {})
  {
    KeptAll(w.neg[p].published);
    assert w.plane.tracks - {} == w.plane.tracks;
  }

  lemma UnpublishTold(w: World, a: World, u: World, p: Pid, removed: set<Tid>)
    requires Unpublishing(w, a, p, removed) && u == a.(plane := a.plane.(outbox := u.plane.outbox))
    ensures Unpublishing(w, u, p, removed)
  {
  }

  lemma UnpublishTurned(w: World, a: World, u: World, p: Pid, removed: set<Tid>)
    requires Unpublishing(w, a, p, removed) && u == a.(plane := u.plane) && Turned(a.plane, p, u.plane)
    ensures Unpublishing(w, u, p, removed) && u.plane.refused > a.plane.refused
  {
    PushFrame(a.plane, SendDatagram(0), p, false, u.plane);
  }

  lemma OneUnpublished(w: World, a: World, u: World, z: PlaneView, p: Pid, t: Tid, removed: set<Tid>)
    requires Unpublishing(w, a, p, removed) && t in a.plane.tracks && a.plane.tracks[t].publisher == p
      && Taken(a.plane, RemoveTrack(t), p, z)
    requires u ==
      World(a.sessions, a.neg[p := Released(a.neg[p], t, a.plane.tracks[t].mid)], z.(tracks := a.plane.tracks - {t}))
    ensures Unpublishing(w, u, p, removed + {t})
  {
    PushFrame(a.plane, RemoveTrack(t), p, true, z);
    KeptWithout(w.neg[p].published, removed, t);
    assert SameSlots(a.neg[p].mlines, u.neg[p].mlines);
  }

  lemma UnpublishedGone(w: World, a: World, p: Pid, removed: set<Tid>, k: Slack)
    requires Sound(w, k) && Unpublishing(w, a, p, removed)
    ensures TracksGone(w,
      a.(sessions := w.sessions[p := w.sessions[p].(published := Kept(w.sessions[p].published, removed))]), removed)
  {
    Present(w, p, k);
    var u := a.(sessions := w.sessions[p := w.sessions[p].(published := Kept(w.sessions[p].published, removed))]);
    forall q | q in u.neg ensures SlotsSame(w, u, q) {
    }
  }

  lemma LeftGone(w: World, u: World, p: Pid, removed: set<Tid>, k: Slack)
    requires Sound(w, k) && p in w.neg && u == World(w.sessions - {p}, w.neg - {p}, u.plane)
    requires GoneFrom(w.plane, w.neg[p], p, u.plane) && removed == Elements(w.neg[p].published)
    ensures TracksGone(w, u, removed) && w.plane.closing == u.plane.closing
  {
    Present(w, p, k);
    PublisherTracks(w, p, k);
    forall q | q in u.neg ensures SlotsSame(w, u, q) {
      assert q in w.neg;
    }
  }

  lemma RequestedMirrored(w: World, u: World, p: Pid, ids: seq<Tid>)
    requires Mirrored(w) && p in w.neg && Requested(w, u, p, ids)
    ensures Mirrored(u)
  {
  }

  lemma NothingForgotten(w: World, a: World, subs: map<Pid, seq<Subscription>>, left: map<Pid, seq<Subscription>>)
    requires Accord(w, subs) && TracksGone(w, a, {})
    requires left.Keys == a.neg.Keys && forall q :: q in left ==> q in subs && left[q] == subs[q]
    ensures Accord(a, left)
  {
    forall q | q in left ensures Retained(left[q], {}) == left[q] {
      RetainedAll(left[q]);
    }
    assert ForgottenSets(left, {}) == left;
    forall q | q in a.neg ensures ForgottenLines(a.neg[q].mlines, {}) == a.neg[q].mlines {
    }
    assert Forgotten(a.neg, {}) == a.neg;
    ForgottenAccord(w, a, a, subs, left, {}, {});
    AllOffered(a, left);
  }

  lemma NobodyLeft(w: World, u: World, p: Pid, k: Slack)
    requires Sound(w, k) && Calm(k) && p !in w.neg && u == World(w.sessions - {p}, w.neg - {p}, w.plane)
    ensures u == w && Sound(u, k.(gone := {})) && TracksGone(w, u, {})
  {
    Present(w, p, k);
    assert w.sessions - {p} == w.sessions && w.neg - {p} == w.neg && k.(gone := {}) == k;
    assert w.plane.tracks - {} == w.plane.tracks;
    forall q | q in w.neg ensures SlotsSame(w, w, q) {
    }
  }

  lemma AnswerMirrored(w: World, a: World, u: World, p: Pid)
    requires Mirrored(w) && p in w.neg && p in a.neg && p in a.sessions && a.neg == w.neg[p := a.neg[p]]
      && a.sessions == w.sessions
    requires u == a.(sessions := a.sessions[p := a.sessions[p].(published := a.neg[p].published)])
    ensures Mirrored(u)
  {
  }

  lemma SubscribeMirrored(w: World, u: World, p: Pid, ss: seq<Subscription>, ids: seq<Tid>, accepted: seq<Tid>)
    requires Mirrored(w) && SubscribeAsked(w, u, p, ss, ids, accepted)
    ensures Mirrored(u)
  {
    if accepted != [] {
      RequestedMirrored(w.(plane := Told(w.plane, p, Subscribed(accepted))), u, p, TrackIds(ss) + accepted);
    }
  }

  lemma UnsubscribeMirrored(w: World, u: World, p: Pid, ss: seq<Subscription>, removed: seq<Tid>)
    requires Mirrored(w) && p in w.neg && UnsubscribeAsked(w, u, p, ss, removed)
    ensures Mirrored(u)
  {
    if removed != [] {
      var a :| Unslotted(w, a, p, removed)
        && Requested(a.(plane := Told(a.plane, p, Unsubscribed(removed))), u, p, TrackIds(ss));
      RequestedMirrored(a.(plane := Told(a.plane, p, Unsubscribed(removed))), u, p, TrackIds(ss));
    }
  }

  lemma UnpublishMirrored(w: World, a: World, u: World, p: Pid, removed: set<Tid>)
    requires Mirrored(w) && Unpublishing(w, a, p, removed)
    requires u == a.(sessions := a.sessions[p := a.sessions[p].(published := Kept(a.sessions[p].published, removed))])
    ensures Mirrored(u)
  {
  }

  // ── Sessions ─────────────────────────────────────────────────────

  lemma FreedStep(w: World, u: World, id: Sid, k: Slack)
    requires Sound(w, k) && id in w.plane.entries && w.plane.entries[id].dtls == Complete
    requires u == WithEntry(w, id, w.plane.entries[id].(dtls := Freed))
    ensures Sound(u, k)
  {
    assert Look(0);
    DtlsMovedKeeps(w, id, Freed, k);
  }
}
