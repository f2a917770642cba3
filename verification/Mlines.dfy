/** Changes of a participant's m-lines that send no command (negotiation.rs). */
module Mlines {
  import opened Wrappers
  import opened Ssrc
  import opened Shard
  import opened Tables
  import opened Updates
  import opened Commands
  import opened Publishing

  // ── Claiming an m-line ───────────────────────────────────────────

  /** The first inactive m-line of `kind`, or the position of a new one. */
  function ClaimIndex(ms: seq<Mline>, kind: Kind, from: nat := 0): (i: nat)
    requires from <= |ms|
    ensures from <= i <= |ms|
    ensures i < |ms| ==> ms[i].role.Inactive? && ms[i].kind == kind
    ensures forall j :: from <= j < i ==> !(ms[j].role.Inactive? && ms[j].kind == kind)
    decreases |ms| - from
  {
    if from == |ms| || (ms[from].role.Inactive? && ms[from].kind == kind) then from
    else ClaimIndex(ms, kind, from + 1)
  }

  /** `role` on an inactive m-line of `kind`, else on a new one (`claim_mline`). */
  function Claimed(n: Neg, kind: Kind, role: Role): Neg {
    var i := ClaimIndex(n.mlines, kind);
    if i < |n.mlines| then n.(mlines := n.mlines[i := n.mlines[i].(role := role)])
    else n.(mlines := n.mlines + [Mline(n.nextMid, kind, role)], nextMid := n.nextMid + 1)
  }

  predicate CanClaim(n: Neg, kind: Kind) {
    |n.mlines| < MAX_MEDIA_SECTIONS || ClaimIndex(n.mlines, kind) < |n.mlines|
  }

  lemma ClaimedShape(n: Neg, kind: Kind, role: Role, os: seq<Offer>)
    requires Shape(n) && Discipline(n, os) && n.session.Some? && CanClaim(n, kind) && !n.offerPending
    ensures
      var (m, i) := (Claimed(n, kind, role), ClaimIndex(n.mlines, kind));
      && Shape(m) && Discipline(m, os)
      && i < |m.mlines| && m.mlines[i].mid == i && m.mlines[i].role == role
      && Extends(n.mlines, m.mlines)
      && (forall j :: 0 <= j < |m.mlines| && j != i ==> j < |n.mlines| && m.mlines[j] == n.mlines[j])
  {
    var m := Claimed(n, kind, role);
    forall j | 0 <= j < |os| ensures Extends(os[j].mlines, m.mlines) {
      assert Extends(os[j].mlines, n.mlines);
    }
  }

  function PublishClaimed(n: Neg, kind: Kind): Neg {
    Claimed(n, kind, Publish).(awaiting := n.awaiting + [ClaimIndex(n.mlines, kind)])
  }

  lemma PublishClaimedLines(p: Pid, n: Neg, kind: Kind, ts: map<Tid, Track>, os: seq<Offer>)
    requires PublishLines(p, n, ts, {}) && Shape(n) && Discipline(n, os) && n.session.Some? && CanClaim(n, kind)
      && !n.offerPending
    requires |n.published| + |n.awaiting| + Queued(n) < MAX_TRACKS_PER_SESSION
    requires forall t :: t in n.published && t in ts ==> PublishAt(n.mlines, ts[t].mid)
    ensures PublishLines(p, PublishClaimed(n, kind), ts, {})
  {
    ClaimedShape(n, kind, Publish, os);
    var (m, i) := (PublishClaimed(n, kind), ClaimIndex(n.mlines, kind));
    assert i in n.awaiting ==> Unregistered(n, ts, i);
    assert forall x :: x in m.awaiting <==> x in n.awaiting || x == i;
    forall x | x in m.awaiting ensures Unregistered(m, ts, x) {
      if x != i {
        assert Unregistered(n, ts, x);
      }
    }
    forall j | PublishAt(m.mlines, j)
      ensures j in m.awaiting || exists t :: t in m.published && t in ts && ts[t].mid == j
    {
      if j != i {
        assert PublishAt(n.mlines, j);
      }
    }
  }

  lemma ClaimedOtherSlots(w: World, u: World, p: Pid, gone: set<Tid>)
    requires p in w.neg && p in w.sessions && SubscribeLines(w, p, gone) && Shape(w.neg[p])
    requires p in u.neg && u.sessions == w.sessions && u.plane == w.plane
    requires u.neg[p].session == w.neg[p].session && (u.neg[p].offerPending ==> w.neg[p].offerPending)
    requires forall i :: SlotAt(u.neg[p].mlines, i) ==>
      SlotAt(w.neg[p].mlines, i) && u.neg[p].mlines[i].role == w.neg[p].mlines[i].role
    ensures SubscribeLines(u, p, gone)
  {
    SlotsKept(w, u, p, gone, gone);
  }

  ghost function WithNeg(w: World, p: Pid, n: Neg): World {
    w.(neg := w.neg[p := n])
  }

  lemma PublishClaimedOk(w: World, p: Pid, kind: Kind, k: Slack)
    requires p in w.neg && Lines(w, p, k) && Registry(w) && OpenMids(p, k) == {}
    requires w.neg[p].session.Some? && CanClaim(w.neg[p], kind) && !w.neg[p].offerPending
    requires |w.neg[p].published| + |w.neg[p].awaiting| + Queued(w.neg[p]) < MAX_TRACKS_PER_SESSION
    requires forall t :: t in w.neg[p].published ==>
      t in w.plane.tracks && PublishAt(w.neg[p].mlines, w.plane.tracks[t].mid)
    ensures Lines(WithNeg(w, p, PublishClaimed(w.neg[p], kind)), p, k)
  {
    var n := w.neg[p];
    var u := WithNeg(w, p, PublishClaimed(n, kind));
    assert Open(0);
    var os := w.plane.offers[p];
    ClaimedShape(n, kind, Publish, os);
    PublishClaimedLines(p, n, kind, w.plane.tracks, os);
    ClaimedOtherSlots(w, u, p, k.gone);
  }

  lemma PublishClaimedSame(n: Neg, kind: Kind, os: seq<Offer>)
    requires Shape(n) && Discipline(n, os) && n.session.Some? && CanClaim(n, kind) && !n.offerPending
    ensures
      var m := PublishClaimed(n, kind);
      && SameOnShard(n.mlines, m.mlines)
      && (forall i :: SlotAt(m.mlines, i) ==> SlotAt(n.mlines, i) && m.mlines[i].role == n.mlines[i].role)
      && (forall i :: PublishAt(n.mlines, i) ==> PublishAt(m.mlines, i))
  {
    ClaimedShape(n, kind, Publish, os);
  }

  /** A publish m-line is claimed for the next offer. */
  lemma PublishClaimedKeeps(w: World, p: Pid, kind: Kind, k: Slack)
    requires Core(w, k) && p in w.neg && OpenMids(p, k) == {}
    requires w.neg[p].session.Some? && CanClaim(w.neg[p], kind) && !w.neg[p].offerPending
    requires |w.neg[p].published| + |w.neg[p].awaiting| + Queued(w.neg[p]) < MAX_TRACKS_PER_SESSION
    ensures Core(WithNeg(w, p, PublishClaimed(w.neg[p], kind)), k)
  {
    forall t | t in w.neg[p].published
      ensures t in w.plane.tracks && PublishAt(w.neg[p].mlines, w.plane.tracks[t].mid)
    {
      PublishedAt(w, p, t, k);
    }
    PublishClaimedOk(w, p, kind, k);
    InOrder(w, p, k);
    PublishClaimedSame(w.neg[p], kind, w.plane.offers[p]);
    var u := WithNeg(w, p, PublishClaimed(w.neg[p], kind));
    OwnerFacts(w.plane, k.taken);
    OldSlots(w, u, p);
    RelinedQuietly(w, u, p, k, k);
  }

  lemma OldSlots(w: World, u: World, p: Pid)
    requires p in w.neg && p in u.neg
    requires forall i :: SlotAt(u.neg[p].mlines, i) ==>
      SlotAt(w.neg[p].mlines, i) && u.neg[p].mlines[i].role == w.neg[p].mlines[i].role
    ensures forall i :: SlotAt(u.neg[p].mlines, i) ==> OldOrNewSlot(w, p, u.neg[p].mlines[i].role.slot)
  {
    forall i | SlotAt(u.neg[p].mlines, i) ensures OldOrNewSlot(w, p, u.neg[p].mlines[i].role.slot) {
      assert SlotAt(w.neg[p].mlines, i);
    }
  }

  // ── Subscribe m-lines ────────────────────────────────────────────

  ghost predicate HasSlot(ms: seq<Mline>, t: Tid) {
    exists i :: SlotAt(ms, i) && ms[i].role.slot.track == t
  }

  function NewSlot(v: PlaneView, id: Sid, track: Tid): Slot
    requires id in v.entries && Allocated(v.entries[id].ssrcs).Some?
  {
    Slot(track, v.nextSub, Allocated(v.entries[id].ssrcs).value, false)
  }

  function AfterSlot(v: PlaneView, p: Pid, id: Sid): PlaneView
    requires id in v.entries
  {
    v.(entries := v.entries[id := v.entries[id].(ssrcs := AfterAllocate(v.entries[id].ssrcs))],
       nextSub := v.nextSub + 1, owner := v.owner[v.nextSub := p])
  }

  ghost predicate Claimable(w: World, p: Pid, track: Tid, kind: Kind) {
    && p in w.neg && p in w.sessions
    && var n := w.neg[p];
       && n.session.Some? && !n.offerPending && CanClaim(n, kind) && n.session.value in w.plane.entries
       && Allocated(w.plane.entries[n.session.value].ssrcs).Some?
       && track in w.plane.tracks && w.sessions[p].room == Some(w.plane.tracks[track].room)
       && !HasSlot(n.mlines, track) && |SlotIndices(n.mlines)| < MAX_SUBS_PER_SESSION
  }

  ghost function SubClaimed(w: World, p: Pid, track: Tid, kind: Kind): World
    requires Claimable(w, p, track, kind)
  {
    var id := w.neg[p].session.value;
    World(w.sessions, w.neg[p := Claimed(w.neg[p], kind, Role.Subscribe(NewSlot(w.plane, id, track)))],
      AfterSlot(w.plane, p, id))
  }

  /** Slot `i` of `u`, with a fresh id and SSRC and a track of its own, is all that `u` adds to `p`'s slots. */
  ghost predicate AddsSlot(w: World, u: World, p: Pid, i: nat) {
    && p in w.neg && p in w.sessions && p in u.neg && u.sessions == w.sessions && u.plane.tracks == w.plane.tracks
    && u.neg[p].session == w.neg[p].session && w.neg[p].session.Some? && u.neg[p].offerPending == w.neg[p].offerPending
    && var (ms, us, id) := (w.neg[p].mlines, u.neg[p].mlines, w.neg[p].session.value);
       && SlotAt(us, i) && !SlotAt(ms, i)
       && (forall j :: SlotAt(ms, j) ==> SlotAt(us, j))
       && (forall j :: SlotAt(us, j) && j != i ==> SlotAt(ms, j) && us[j] == ms[j])
       && id in w.plane.entries && id in u.plane.entries
       && FreshSlot(w, u, p, w.plane.entries[id].ssrcs, u.plane.entries[id].ssrcs, us[i].role.slot)
       && !HasSlot(ms, us[i].role.slot.track)
  }

  ghost predicate FreshSlot(w: World, u: World, p: Pid, a: Allocator, b: Allocator, slot: Slot)
    requires p in w.sessions
  {
    && b == a.(next := b.next) && a.next <= OffsetOf(a, slot.ssrc) < b.next && a.high < a.next && !slot.onShard
    && slot.sub !in w.plane.owner && u.plane.owner == w.plane.owner[slot.sub := p]
    && slot.track in w.plane.tracks && w.sessions[p].room == Some(w.plane.tracks[slot.track].room)
  }

  /** A slot with a fresh id and SSRC, for a track without one, fits in with the others. */
  lemma NewSlotFits(w: World, u: World, p: Pid, i: nat, gone: set<Tid>)
    requires AddsSlot(w, u, p, i) && SubscribeLines(w, p, gone) && |SlotIndices(w.neg[p].mlines)| < MAX_SUBS_PER_SESSION
    ensures SubscribeLines(u, p, gone)
  {
    forall j | SlotAt(u.neg[p].mlines, j) ensures SlotFits(w, u, p, i, j, gone) {
      SlotsFit(w, u, p, i, j, gone);
    }
    assert SlotIndices(u.neg[p].mlines) == SlotIndices(w.neg[p].mlines) + {i};
    StillDistinct(w.neg[p].mlines, u.neg[p].mlines, i);
  }

  ghost predicate SlotFits(w: World, u: World, p: Pid, i: nat, j: nat, gone: set<Tid>)
    requires AddsSlot(w, u, p, i) && SlotAt(u.neg[p].mlines, j)
  {
    var us := u.neg[p].mlines;
    && SlotOk(u, p, u.plane.entries[u.neg[p].session.value].ssrcs, us[j].role.slot, gone)
    && (j != i ==> Differ(us[i].role.slot, us[j].role.slot))
  }

  lemma SlotsFit(w: World, u: World, p: Pid, i: nat, j: nat, gone: set<Tid>)
    requires AddsSlot(w, u, p, i) && SubscribeLines(w, p, gone) && SlotAt(u.neg[p].mlines, j)
    ensures SlotFits(w, u, p, i, j, gone)
  {
    var (ms, us, id) := (w.neg[p].mlines, u.neg[p].mlines, w.neg[p].session.value);
    var (a, b) := (w.plane.entries[id].ssrcs, u.plane.entries[id].ssrcs);
    if j != i {
      OldSlotFits(w, u, p, a, b, ms[j].role.slot, us[i].role.slot, gone);
    }
  }

  lemma OldSlotFits(w: World, u: World, p: Pid, a: Allocator, b: Allocator, was: Slot, slot: Slot, gone: set<Tid>)
    requires p in w.neg && p in w.sessions && p in u.neg && u.sessions == w.sessions && u.plane.tracks == w.plane.tracks
    requires u.neg[p].offerPending == w.neg[p].offerPending && SlotOk(w, p, a, was, gone)
    requires b == a.(next := b.next) && a.next <= OffsetOf(a, slot.ssrc) < b.next
    requires slot.sub !in w.plane.owner && u.plane.owner == w.plane.owner[slot.sub := p] && was.track != slot.track
    ensures SlotOk(u, p, b, was, gone) && Differ(slot, was)
  {
  }

  predicate Differ(x: Slot, y: Slot) {
    x.track != y.track && x.sub != y.sub && x.ssrc != y.ssrc
  }

  lemma StillDistinct(ms: seq<Mline>, us: seq<Mline>, i: nat)
    requires SlotsDistinct(ms) && SlotAt(us, i)
    requires forall j :: SlotAt(us, j) && j != i ==>
      SlotAt(ms, j) && us[j] == ms[j] && Differ(us[i].role.slot, us[j].role.slot)
    ensures SlotsDistinct(us)
  {
    forall j, l | SlotAt(us, j) && SlotAt(us, l) && j != l ensures Differ(us[j].role.slot, us[l].role.slot) {
    }
  }

  lemma SubClaimedSlots(w: World, p: Pid, track: Tid, kind: Kind, gone: set<Tid>)
    requires Claimable(w, p, track, kind) && SubscribeLines(w, p, gone) && Shape(w.neg[p])
    requires p in w.plane.offers && Discipline(w.neg[p], w.plane.offers[p])
    requires Valid(w.plane.entries[w.neg[p].session.value].ssrcs) && forall x :: x in w.plane.owner ==>
      x < w.plane.nextSub
    ensures SubscribeLines(SubClaimed(w, p, track, kind), p, gone)
  {
    var (u, id) := (SubClaimed(w, p, track, kind), w.neg[p].session.value);
    ClaimedShape(w.neg[p], kind, Role.Subscribe(NewSlot(w.plane, id, track)), w.plane.offers[p]);
    AllocatedIsFresh(w.plane.entries[id].ssrcs);
    NewSlotFits(w, u, p, ClaimIndex(w.neg[p].mlines, kind), gone);
  }

  lemma SubClaimedSame(w: World, p: Pid, track: Tid, kind: Kind)
    requires Claimable(w, p, track, kind) && Shape(w.neg[p]) && p in w.plane.offers
      && Discipline(w.neg[p], w.plane.offers[p])
    ensures
      var u := SubClaimed(w, p, track, kind);
      && Shape(u.neg[p]) && Discipline(u.neg[p], w.plane.offers[p])
      && (forall i :: PublishAt(u.neg[p].mlines, i) <==> PublishAt(w.neg[p].mlines, i))
      && SameOnShard(w.neg[p].mlines, u.neg[p].mlines)
      && (forall i :: SlotAt(u.neg[p].mlines, i) ==>
            || (SlotAt(w.neg[p].mlines, i) && u.neg[p].mlines[i].role == w.neg[p].mlines[i].role)
            || u.neg[p].mlines[i].role.slot == NewSlot(w.plane, w.neg[p].session.value, track))
  {
    ClaimedShape(w.neg[p], kind, Role.Subscribe(NewSlot(w.plane, w.neg[p].session.value, track)), w.plane.offers[p]);
  }

  lemma SubClaimedLines(w: World, p: Pid, track: Tid, kind: Kind, k: Slack)
    requires Claimable(w, p, track, kind) && Lines(w, p, k)
    requires Valid(w.plane.entries[w.neg[p].session.value].ssrcs) && forall x :: x in w.plane.owner ==>
      x < w.plane.nextSub
    ensures Lines(SubClaimed(w, p, track, kind), p, k)
  {
    assert Open(0);
    var u := SubClaimed(w, p, track, kind);
    SubClaimedSlots(w, p, track, kind, k.gone);
    SubClaimedSame(w, p, track, kind);
    PublishLinesSame(p, w.neg[p], u.neg[p], w.plane.tracks, OpenMids(p, k));
  }

  lemma InOrder(w: World, p: Pid, k: Slack)
    requires p in w.neg && Lines(w, p, k)
    ensures Shape(w.neg[p]) && p in w.plane.offers && Discipline(w.neg[p], w.plane.offers[p])
  {
    assert Open(0);
  }

  lemma PublishedAt(w: World, p: Pid, t: Tid, k: Slack)
    requires p in w.neg && Lines(w, p, k) && Registry(w) && t in w.neg[p].published
    ensures t in w.plane.tracks && PublishAt(w.neg[p].mlines, w.plane.tracks[t].mid)
  {
    PublishedFacts(w, p, k);
    TrackOkFacts(w, t);
  }

  /** A new subscription gets an m-line, a fresh id and a fresh SSRC above every other. */
  lemma SubClaimedKeeps(w: World, p: Pid, track: Tid, kind: Kind, k: Slack)
    requires Core(w, k) && Claimable(w, p, track, kind)
    ensures Core(SubClaimed(w, p, track, kind), k)
  {
    var (u, id) := (SubClaimed(w, p, track, kind), w.neg[p].session.value);
    SessionFacts(w.plane, id);
    TransportFacts(w, p);
    AllocatedIsFresh(w.plane.entries[id].ssrcs);
    OwnerFacts(w.plane, k.taken);
    SubClaimedLines(w, p, track, kind, k);
    InOrder(w, p, k);
    SubClaimedSame(w, p, track, kind);
    forall t | t in w.neg[p].published && t in w.plane.tracks
      ensures PublishAt(u.neg[p].mlines, w.plane.tracks[t].mid)
    {
      PublishedAt(w, p, t, k);
    }
    forall i | SlotAt(u.neg[p].mlines, i) ensures OldOrNewSlot(w, p, u.neg[p].mlines[i].role.slot) {
    }
    assert SameTables(w.plane, u.plane, p) by {
      forall x | x in w.plane.entries && w.plane.entries[x].participant != p
        ensures u.plane.entries[x] == w.plane.entries[x]
      {
      }
    }
    RelinedQuietly(w, u, p, k, k);
  }

  // ── Stale slots ──────────────────────────────────────────────────

  ghost predicate StaleAt(w: World, p: Pid, i: nat) {
    && p in w.neg && SlotAt(w.neg[p].mlines, i) && !w.neg[p].mlines[i].role.slot.onShard
    && w.neg[p].session.Some? && w.neg[p].session.value in w.plane.entries
    && IsStale(w.plane.entries[w.neg[p].session.value].ssrcs, w.neg[p].mlines[i].role.slot.ssrc)
  }

  /** Slot `i` with a fresh SSRC, or inactive when there is none left. */
  ghost function Refreshed(w: World, p: Pid, i: nat): World
    requires StaleAt(w, p, i)
  {
    var (n, id) := (w.neg[p], w.neg[p].session.value);
    var e := w.plane.entries[id];
    match Allocated(e.ssrcs)
    case None => WithNeg(w, p, Deactivated(n, i))
    case Some(ssrc) =>
      World(w.sessions,
            w.neg[p :=
              n.(mlines := n.mlines[i := n.mlines[i].(role := Role.Subscribe(n.mlines[i].role.slot.(ssrc := ssrc)))])],
            w.plane.(entries := w.plane.entries[id := e.(ssrcs := AfterAllocate(e.ssrcs))]))
  }

  lemma RefreshedSlots(w: World, p: Pid, i: nat, gone: set<Tid>)
    requires StaleAt(w, p, i) && p in w.sessions && SubscribeLines(w, p, gone)
    requires
      var a := w.plane.entries[w.neg[p].session.value].ssrcs;
      Valid(a) && Allocated(a).Some?
    ensures SubscribeLines(Refreshed(w, p, i), p, gone)
  {
    var u := Refreshed(w, p, i);
    var (n, m, id) := (w.neg[p], u.neg[p], w.neg[p].session.value);
    var (a, b) := (w.plane.entries[id].ssrcs, u.plane.entries[id].ssrcs);
    AllocatedIsFresh(a);
    assert SlotIndices(m.mlines) == SlotIndices(n.mlines);
    forall j | SlotAt(m.mlines, j) ensures SlotOk(u, p, b, m.mlines[j].role.slot, gone) {
      assert SlotAt(n.mlines, j) && SlotOk(w, p, a, n.mlines[j].role.slot, gone);
    }
    forall j | SlotAt(m.mlines, j) && j != i ensures m.mlines[j].role.slot.ssrc != m.mlines[i].role.slot.ssrc {
      assert SlotAt(n.mlines, j) && SlotOk(w, p, a, n.mlines[j].role.slot, gone);
    }
    assert SlotsDistinct(m.mlines);
  }

  lemma RefreshedLines(w: World, p: Pid, i: nat, k: Slack)
    requires StaleAt(w, p, i) && Lines(w, p, k)
    requires
      var a := w.plane.entries[w.neg[p].session.value].ssrcs;
      Valid(a) && Allocated(a).Some?
    ensures Lines(Refreshed(w, p, i), p, k)
  {
    assert Open(0);
    var u := Refreshed(w, p, i);
    RefreshedSlots(w, p, i, k.gone);
    PublishLinesSame(p, w.neg[p], u.neg[p], w.plane.tracks, OpenMids(p, k));
    DisciplineSame(w.neg[p], u.neg[p], w.plane.offers[p]);
  }

  /** Refreshing a stale slot touches nothing the shard knows. */
  lemma RefreshedKeeps(w: World, p: Pid, i: nat, k: Slack)
    requires Core(w, k) && StaleAt(w, p, i)
    ensures Core(Refreshed(w, p, i), k)
  {
    var (u, id) := (Refreshed(w, p, i), w.neg[p].session.value);
    SessionFacts(w.plane, id);
    TransportFacts(w, p);
    AllocatedIsFresh(w.plane.entries[id].ssrcs);
    OwnerFacts(w.plane, k.taken);
    LinesInDomain(w, p, k);
    if Allocated(w.plane.entries[id].ssrcs).Some? {
      RefreshedLines(w, p, i, k);
    } else {
      DeactivatedLines(w, u, p, i, k);
    }
    forall t | t in w.neg[p].published && t in w.plane.tracks
      ensures PublishAt(u.neg[p].mlines, w.plane.tracks[t].mid)
    {
      PublishedAt(w, p, t, k);
    }
    forall j | SlotAt(u.neg[p].mlines, j) ensures OldOrNewSlot(w, p, u.neg[p].mlines[j].role.slot) {
      assert SlotAt(w.neg[p].mlines, j);
    }
    RelinedQuietly(w, u, p, k, k);
  }

  /** A slot that is not on the shard turned inactive. */
  lemma OffShardDropKeeps(w: World, p: Pid, i: nat, k: Slack)
    requires Core(w, k) && p in w.neg && SlotAt(w.neg[p].mlines, i) && !w.neg[p].mlines[i].role.slot.onShard
    ensures Core(WithNeg(w, p, Deactivated(w.neg[p], i)), k)
  {
    var u := WithNeg(w, p, Deactivated(w.neg[p], i));
    LinesInDomain(w, p, k);
    OwnerFacts(w.plane, k.taken);
    DeactivatedLines(w, u, p, i, k);
    DeactivatedRelines(w, u, p, i, k);
    OldSlots(w, u, p);
    RelinedQuietly(w, u, p, k, k);
  }
}
