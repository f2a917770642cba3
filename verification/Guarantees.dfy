/**
 What a settled orchestrator promises, in its own terms. Every event ends settled
 (module `Orchestrator`), so each of these holds after every event of every run.
 */
module Guarantees {
  import opened Collections
  import opened Wrappers
  import opened Ssrc
  import opened Shard
  import opened Tables
  import opened Updates
  import opened Commands
  import opened Publishing
  import opened Lifecycle
  import opened Mlines
  import opened Offers
  import opened Steps
  import opened Protocol
  import opened Answers
  import opened Subscriptions
  import opened Orchestration

  // ── The shard ────────────────────────────────────────────────────

  /** M-line `i` of `p` carries subscription `x` on the shard. */
  ghost predicate CarriedBy(w: World, x: SubId, p: Pid, i: int) {
    p in w.neg && SlotAt(w.neg[p].mlines, i) && w.neg[p].mlines[i].role.slot.onShard
      && w.neg[p].mlines[i].role.slot.sub == x
  }

  /** The shard has the subscription of the slot, in the participant's session, for the slot's track and SSRC. */
  ghost predicate SubscriptionOf(w: World, x: SubId, p: Pid, i: int)
    requires CarriedBy(w, x, p, i)
  {
    var slot := w.neg[p].mlines[i].role.slot;
    && x in w.plane.shard.subs && w.neg[p].session.Some?
    && w.plane.shard.subs[x] == ShardSub(w.neg[p].session.value, slot.track, slot.ssrc)
  }

  /** The shard's tables are what the orchestrator's tables say, and it never refused a command. */
  ghost predicate Exact(w: World) {
    && w.plane.rejects == []
    && w.plane.shard.sessions.Keys == w.plane.entries.Keys
    && (forall id :: id in w.plane.entries ==> ExactSession(w.plane, id))
    && w.plane.shard.tracks.Keys == w.plane.tracks.Keys
    && (forall t :: t in w.plane.tracks ==>
         w.plane.shard.tracks[t] == ShardTrack(w.plane.tracks[t].session, w.plane.tracks[t].ssrc))
    && (forall x :: x in w.plane.shard.subs ==> exists p, i :: CarriedBy(w, x, p, i))
    && (forall x, p, i :: CarriedBy(w, x, p, i) ==> SubscriptionOf(w, x, p, i))
  }

  ghost predicate ExactSession(v: PlaneView, id: Sid)
    requires id in v.entries
  {
    && id in v.shard.sessions
    && v.shard.sessions[id] ==
         ShardSession(v.entries[id].ssrcs.base, v.entries[id].ssrcs.high, v.entries[id].srtpInstalled)
  }

  /** Shard refinement: as long as the queue never refused, the shard equals the tables. */
  lemma ShardRefinement(w: World)
    requires Sound(w, SETTLED) && w.plane.refused == 0
    ensures Exact(w)
  {
    assert Look(0);
    QuietFacts(w.plane, {});
    QuietSessions(w.plane);
    QuietTracks(w.plane);
    QuietSubscriptions(w);
    CoreOwners(w, SETTLED);
    forall x, p, i | CarriedBy(w, x, p, i) ensures SubscriptionOf(w, x, p, i) {
      assert OwnedBy(w, p, i);
      TrulyOn(w, p, i);
    }
  }

  lemma QuietSessions(v: PlaneView)
    requires ShardSessions(v) && Zombies(v) == {} && v.lost == {}
    ensures v.shard.sessions.Keys == v.entries.Keys && forall id :: id in v.entries ==> ExactSession(v, id)
  {
    assert Open(0);
    forall id | id in v.entries ensures ExactSession(v, id) {
      assert SessionOk(v, id);
    }
  }

  lemma QuietTracks(v: PlaneView)
    requires ShardTracks(v) && Zombies(v) == {}
    ensures v.shard.tracks.Keys == v.tracks.Keys
    ensures forall t :: t in v.tracks ==> v.shard.tracks[t] == ShardTrack(v.tracks[t].session, v.tracks[t].ssrc)
  {
    assert Open(0);
  }

  lemma QuietSubscriptions(w: World)
    requires ShardSubs(w, {}) && Zombies(w.plane) == {} && w.plane.lost == {}
    ensures forall x :: x in w.plane.shard.subs ==> exists p, i :: CarriedBy(w, x, p, i)
  {
    assert Open(0);
    forall x | x in w.plane.shard.subs ensures exists p, i :: CarriedBy(w, x, p, i) {
      assert Explained(w, x);
      var (s, q) := (w.plane.shard.subs[x], w.plane.owner[x]);
      var i :| SlotAt(w.neg[q].mlines, i) && w.neg[q].mlines[i].role.slot.onShard
        && w.neg[q].mlines[i].role.slot.sub == x;
      assert CarriedBy(w, x, q, i);
    }
  }

  lemma TrulyOn(w: World, p: Pid, i: int)
    requires ShardSubs(w, {}) && p in w.neg && p !in w.plane.lost && SlotAt(w.neg[p].mlines, i)
    ensures OnShardTruly(w, p, w.neg[p].mlines[i].role.slot, {})
  {
    assert Open(0);
  }

  /**
   Even when the queue refuses, the shard rejects nothing but a subscription over its limit
   and the removal of one it never got. No SSRC is ever out of order, no id is used twice,
   no track is over the limit, and keys are installed once.
   */
  lemma OnlyTheseRejects(w: World)
    requires Sound(w, SETTLED)
    ensures forall r :: r in w.plane.rejects ==> r == SubscriptionLimit || r == UnknownSubscription
    ensures w.plane.rejects != [] ==> w.plane.refused > 0
  {
    assert Look(0);
    RejectFacts(w.plane);
  }

  lemma RejectFacts(v: PlaneView)
    requires Books(v, {})
    ensures forall r :: r in v.rejects ==> r == SubscriptionLimit || r == UnknownSubscription
    ensures v.rejects != [] ==> v.refused > 0
  {
    assert Open(0);
  }

  /** Subscriptions of session `id` that its m-lines forgot, to tracks of sessions still waiting to be closed. */
  ghost function Overdue(v: PlaneView, id: Sid): set<SubId> {
    set x | x in SubsOf(v.shard, id) && v.shard.subs[x].track in v.shard.tracks &&
            v.shard.tracks[v.shard.subs[x].track].session in Zombies(v)
  }

  /**
   Exactly when the shard rejects a subscription of a participant that is in step: when the
   m-lines on the shard and the overdue subscriptions fill the session. That takes a publisher
   whose close did not fit, so with no close waiting it never happens. What is on the shard
   can be unsubscribed in any case.
   */
  lemma RejectsExactly(w: World, p: Pid, i: nat)
    requires Sound(w, SETTLED) && Registrable(w, p, i) && p !in w.plane.lost
    ensures
      var (v, ms, id) := (w.plane, w.neg[p].mlines, w.neg[p].session.value);
      var slot := ms[i].role.slot;
      && Verdict(v.shard, Command.Subscribe(id, slot.sub, slot.track, slot.ssrc)) ==
        (if |OnShardIds(ms)| + |Overdue(v, id)| >= MAX_SUBS_PER_SESSION then Some(SubscriptionLimit) else None)
      && (Zombies(v) == {} ==> Verdict(v.shard, Command.Subscribe(id, slot.sub, slot.track, slot.ssrc)).None?)
      && (forall j :: SlotAt(ms, j) && ms[j].role.slot.onShard ==>
           Verdict(v.shard, Unsubscribe(ms[j].role.slot.sub)).None?)
  {
    assert Look(0);
    var (v, ms, id) := (w.plane, w.neg[p].mlines, w.neg[p].session.value);
    SubscribeVerdict(w, p, i, SETTLED);
    SubsAre(w, p, id);
    SlotFacts(w, p, i, SETTLED);
    RoomForOne(ms, i);
    forall j | SlotAt(ms, j) && ms[j].role.slot.onShard
      ensures Verdict(v.shard, Unsubscribe(ms[j].role.slot.sub)).None?
    {
      UnsubscribeVerdict(w, p, j);
    }
  }

  /** The tables once `p` left without its close on the queue and its subscribers forgot its tracks. */
  ghost function LeftOverdue(w: World, p: Pid): World
    requires p in w.neg && w.neg[p].session.Some?
  {
    var u := LeftWaiting(w, p);
    u.(neg := Forgotten(u.neg, Elements(w.neg[p].published)))
  }

  /**
   How a session comes to be filled: a publisher whose close was refused frees none of its
   subscribers' room. What their m-lines forget becomes overdue one for one, so a participant
   with as many subscriptions as a session may have is still full, with m-lines to spare.
   */
  lemma RefusedCloseFreesNothing(w: World, p: Pid, q: Pid)
    requires Sound(w, SETTLED) && p in w.neg && w.neg[p].session.Some?
    requires q in w.neg && q != p && q !in w.plane.lost && w.neg[q].session.Some?
    ensures
      var (u, id) := (LeftOverdue(w, p), w.neg[q].session.value);
      && Sound(u, SETTLED) && q in u.neg && u.neg[q].session == Some(id)
      && (var (on, overdue) := (OnShardIds(u.neg[q].mlines), Overdue(u.plane, id));
          && on <= OnShardIds(w.neg[q].mlines)
          && overdue == Overdue(w.plane, id) + (OnShardIds(w.neg[q].mlines) - on)
          && |on| + |overdue| == |OnShardIds(w.neg[q].mlines)| + |Overdue(w.plane, id)|)
  {
    var (u, id) := (LeftOverdue(w, p), w.neg[q].session.value);
    LeftOverdueSound(w, p);
    SubsAre(w, q, id);
    SubsAre(u, q, id);
    ForgottenFewer(w.neg[q].mlines, Elements(w.neg[p].published));
    Shifted(OnShardIds(w.neg[q].mlines), Overdue(w.plane, id), OnShardIds(u.neg[q].mlines), Overdue(u.plane, id));
  }

  lemma LeftOverdueSound(w: World, p: Pid)
    requires Sound(w, SETTLED) && p in w.neg && w.neg[p].session.Some?
    ensures Sound(LeftOverdue(w, p), SETTLED)
  {
    var (a, gone) := (LeftWaiting(w, p), Elements(w.neg[p].published));
    LeaveWaits(w, a, p, SETTLED);
    assert SETTLED.gone + gone == gone;
    ForgetStep(a, LeftOverdue(w, p), SETTLED.(gone := gone), SETTLED);
  }

  lemma ForgottenFewer(ms: seq<Mline>, ts: set<Tid>)
    ensures OnShardIds(ForgottenLines(ms, ts)) <= OnShardIds(ms)
  {
    var us := ForgottenLines(ms, ts);
    forall x | x in OnShardIds(us) ensures x in OnShardIds(ms) {
      var i :| 0 <= i < |us| && us[i].role.Subscribe? && us[i].role.slot.onShard && us[i].role.slot.sub == x;
      assert us[i] == ms[i];
    }
  }

  lemma Shifted(on: set<SubId>, overdue: set<SubId>, less: set<SubId>, more: set<SubId>)
    requires on !! overdue && less !! more && on + overdue == less + more && less <= on
    ensures more == overdue + (on - less) && |less| + |more| == |on| + |overdue|
  {
    assert |less + more| == |on + overdue|;
  }

  /** The subscriptions of a session in step are those of its m-lines and the overdue ones. */
  lemma SubsAre(w: World, p: Pid, id: Sid)
    requires Sound(w, SETTLED) && p in w.neg && p !in w.plane.lost && w.neg[p].session == Some(id)
    ensures
      var (on, overdue) := (OnShardIds(w.neg[p].mlines), Overdue(w.plane, id));
      on !! overdue && SubsOf(w.plane.shard, id) == on + overdue
  {
    assert Look(0);
    var (on, overdue) := (OnShardIds(w.neg[p].mlines), Overdue(w.plane, id));
    forall x | x in SubsOf(w.plane.shard, id) ensures x in on || x in overdue {
      InStepSub(w, p, id, x);
    }
    forall x | x in on ensures x in SubsOf(w.plane.shard, id) && x !in overdue {
      var i :| 0 <= i < |w.neg[p].mlines| && w.neg[p].mlines[i].role.Subscribe? &&
        w.neg[p].mlines[i].role.slot.onShard && w.neg[p].mlines[i].role.slot.sub == x;
      OnShardIsLive(w, p, id, i);
    }
  }

  lemma InStepSub(w: World, p: Pid, id: Sid, x: SubId)
    requires Transports(w) && ShardSubs(w, {}) && ShardSessions(w.plane) && p in w.neg && w.neg[p].session == Some(id)
    requires p !in w.plane.lost && x in SubsOf(w.plane.shard, id)
    ensures x in OnShardIds(w.neg[p].mlines) || x in Overdue(w.plane, id)
  {
    TransportFacts(w, p);
    ZombieSessions(w.plane);
    assert Open(0);
    assert Explained(w, x);
    var q := w.plane.owner[x];
    if x !in Overdue(w.plane, id) {
      assert id !in Zombies(w.plane);
      assert SessionKnown(w, p) && SessionKnown(w, q);
      assert Carries(w.neg[p].mlines, x, w.plane.shard.subs[x].track);
    }
  }

  lemma OnShardIsLive(w: World, p: Pid, id: Sid, i: nat)
    requires Core(w, SETTLED) && p in w.neg && p !in w.plane.lost && w.neg[p].session == Some(id)
    requires SlotAt(w.neg[p].mlines, i) && w.neg[p].mlines[i].role.slot.onShard
    ensures
      var x := w.neg[p].mlines[i].role.slot.sub;
      x in SubsOf(w.plane.shard, id) && x !in Overdue(w.plane, id)
  {
    var slot := w.neg[p].mlines[i].role.slot;
    TrulyOn(w, p, i);
    SlotFacts(w, p, i, SETTLED);
    TrackFacts(w.plane, slot.track);
    TrackOkFacts(w, slot.track);
    TransportFacts(w, w.plane.tracks[slot.track].publisher);
    ZombieSessions(w.plane);
    assert w.plane.shard.tracks[slot.track].session !in Zombies(w.plane);
  }

  /** Sessions on the shard are the table's and the ones waiting to be closed (or given up), each once. */
  lemma SessionConservation(w: World)
    requires Sound(w, SETTLED)
    ensures
      var v := w.plane;
      && v.shard.sessions.Keys == v.entries.Keys + (set id | id in v.pendingClose) + v.leaked
      && NoDup(v.pendingClose) && (forall id :: id in v.pendingClose ==> id !in v.entries && id !in v.leaked)
         && v.leaked !! v.entries.Keys
      && (forall p :: p in v.byParticipant ==>
           v.byParticipant[p] in v.entries && v.entries[v.byParticipant[p]].participant == p)
      && (forall id :: id in v.entries ==>
           v.entries[id].participant in v.byParticipant && v.byParticipant[v.entries[id].participant] == id)
  {
    assert Look(0);
    ZombieSessions(w.plane);
    forall p | p in w.plane.byParticipant ensures MappedBack(w.plane, p) {
      MappedFacts(w, p);
    }
    forall id | id in w.plane.entries ensures EntryOk(w, id) {
      EntryFacts(w, id);
    }
  }

  lemma ZombieSessions(v: PlaneView)
    requires ShardSessions(v)
    ensures v.shard.sessions.Keys == v.entries.Keys + (set id | id in v.pendingClose) + v.leaked
    ensures NoDup(v.pendingClose) && (forall id :: id in v.pendingClose ==> id !in v.entries && id !in v.leaked)
      && v.leaked !! v.entries.Keys
  {
    assert Open(0);
    assert Zombies(v) == (set id | id in v.pendingClose) + v.leaked;
  }

  // ── The managers ─────────────────────────────────────────────────

  /** Subscriptions, m-lines, registry and handles say the same about each participant. */
  lemma CrossManagerAgreement(w: World, subs: map<Pid, seq<Subscription>>, p: Pid)
    requires Sound(w, SETTLED) && Accord(w, subs) && Mirrored(w) && p in w.neg
    ensures p in subs && p in w.sessions
    ensures ActiveSet(subs[p]) == OnShardTracks(w.neg[p].mlines)
    ensures SlotTracks(w.neg[p].mlines) <= Elements(TrackIds(subs[p])) && SlotsDistinct(w.neg[p].mlines)
    ensures forall t :: t in TrackIds(subs[p]) ==>
      t in w.plane.tracks && w.sessions[p].room == Some(w.plane.tracks[t].room)
    ensures w.sessions[p].published == w.neg[p].published && Elements(w.neg[p].published) == TracksBy(w.plane.tracks, p)
  {
    Present(w, p, SETTLED);
    AgreedFacts(w, subs, p);
    DistinctFacts(w, p, SETTLED);
    PublisherTracks(w, p, SETTLED);
  }

  /**
   Offer/answer discipline (section 8 of RFC 3264): versions number the offers, each offer
   repeats the m-lines of the one before it in place, and the outstanding one has exactly
   the m-lines there are, so that an answer with the same mids answers each of them.
   */
  lemma OfferDiscipline(w: World, p: Pid)
    requires Sound(w, SETTLED) && p in w.neg
    ensures p in w.plane.offers
    ensures
      var (n, os) := (w.neg[p], w.plane.offers[p]);
      && |os| == n.version && (forall j :: 0 <= j < |os| ==> os[j].version == j + 1)
      && (forall j :: 0 < j < |os| ==> Extends(os[j-1].mlines, os[j].mlines))
      && (forall i, j :: 0 <= i < j < |n.mlines| ==> n.mlines[i].mid != n.mlines[j].mid)
      && (n.offerPending ==> |os| > 0 && SameMids(os[|os|-1].mlines, n.mlines))
  {
    assert Look(0);
    InOrder(w, p, SETTLED);
    var (n, os) := (w.neg[p], w.plane.offers[p]);
    if n.offerPending {
      assert Extends(os[|os|-1].mlines, n.mlines);
    }
  }

  predicate SameMids(xs: seq<Mline>, ys: seq<Mline>) {
    |xs| == |ys| && forall i :: 0 <= i < |xs| ==> xs[i].mid == ys[i].mid && xs[i].kind == ys[i].kind
  }

  /** No off-shard slot of an outstanding offer would be refused by the shard for its SSRC. */
  lemma OfferedSlotsAreFresh(w: World, p: Pid)
    requires Sound(w, SETTLED) && p in w.neg && w.neg[p].offerPending
    ensures HasEntry(w, p)
    ensures forall i: nat :: SlotAt(w.neg[p].mlines, i) && !w.neg[p].mlines[i].role.slot.onShard ==>
      var e := w.plane.entries[w.neg[p].session.value];
      e.ssrcs.high < OffsetOf(e.ssrcs, w.neg[p].mlines[i].role.slot.ssrc) < e.ssrcs.next
  {
    Answerable(w, p, SETTLED);
    Present(w, p, SETTLED);
    assert Look(0);
    forall i: nat | SlotAt(w.neg[p].mlines, i) && !w.neg[p].mlines[i].role.slot.onShard
      ensures
        var e := w.plane.entries[w.neg[p].session.value];
        e.ssrcs.high < OffsetOf(e.ssrcs, w.neg[p].mlines[i].role.slot.ssrc) < e.ssrcs.next
    {
      SlotFacts(w, p, i, SETTLED);
    }
  }

  // ── Publish m-lines ──────────────────────────────────────────────

  function PublishIndices(ms: seq<Mline>): set<nat> {
    set i: nat | i < |ms| && ms[i].role.Publish?
  }

  /** The mids of `ts` that the tracks of `published` were registered on. */
  ghost function MidsOf(published: seq<Tid>, ts: map<Tid, Track>): set<nat> {
    set t | t in published && t in ts :: ts[t].mid
  }

  lemma {:induction false} MidsSize(published: seq<Tid>, ts: map<Tid, Track>)
    requires NoDup(published) && forall t :: t in published ==> t in ts
    requires forall t, u :: t in published && u in published && t != u ==> ts[t].mid != ts[u].mid
    ensures |MidsOf(published, ts)| == |published|
  {
    if published == [] {
      assert MidsOf(published, ts) == {};
    } else {
      var n := |published| - 1;
      var rest := published[..n];
      assert published == rest + [published[n]];
      MidsSize(rest, ts);
      assert published[n] !in rest;
      assert MidsOf(published, ts) == MidsOf(rest, ts) + {ts[published[n]].mid};
      assert ts[published[n]].mid !in MidsOf(rest, ts);
    }
  }

  /**
   Publish m-lines are conserved: there are as many as published tracks and mids that await
   an answer, each track's mid names one of them, none of which is awaited, and with the
   queued requests they are never more than a session may have.
   */
  lemma PublishConservation(w: World, p: Pid)
    requires Sound(w, SETTLED) && p in w.neg
    ensures
      var (n, ts) := (w.neg[p], w.plane.tracks);
      && (forall t :: t in n.published ==> t in ts)
      && PublishIndices(n.mlines) == MidsOf(n.published, ts) + Elements(n.awaiting)
         && MidsOf(n.published, ts) !! Elements(n.awaiting)
      && |PublishIndices(n.mlines)| == |n.published| + |n.awaiting|
      && |n.published| + |n.awaiting| + Queued(n) <= MAX_TRACKS_PER_SESSION
  {
    assert Look(0);
    PublishedStay(w, p, SETTLED);
    PublishedFacts(w, p, SETTLED);
    var (n, ts) := (w.neg[p], w.plane.tracks);
    forall t, u | t in n.published && u in n.published && t != u ensures ts[t].mid != ts[u].mid {
      MidsDistinct(w, u, t);
    }
    MidsSize(n.published, ts);
    DistinctSize(n.awaiting);
    PublishPartition(p, n, ts);
  }

  lemma PublishPartition(p: Pid, n: Neg, ts: map<Tid, Track>)
    requires PublishLines(p, n, ts, {}) && forall t :: t in n.published && t in ts ==> PublishAt(n.mlines, ts[t].mid)
    ensures PublishIndices(n.mlines) == MidsOf(n.published, ts) + Elements(n.awaiting)
      && MidsOf(n.published, ts) !! Elements(n.awaiting)
  {
    forall m | m in n.awaiting ensures m in PublishIndices(n.mlines) && m !in MidsOf(n.published, ts) {
      assert Unregistered(n, ts, m);
    }
    forall i | i in PublishIndices(n.mlines) ensures i in MidsOf(n.published, ts) || i in n.awaiting {
      assert PublishAt(n.mlines, i);
      if i !in n.awaiting {
        var t :| t in n.published && t in ts && ts[t].mid == i;
      }
    }
  }

  // ── Closing ──────────────────────────────────────────────────────

  /**
   A participant that a refused push left out of step with the shard does not stay: with
   the closing list empty, only those remain that the list could not take or the shard
   rejected a command of.
   */
  lemma NobodyIsLeftBehind(w: World)
    requires Sound(w, SETTLED) && w.plane.closing == []
    ensures w.plane.lost <= w.plane.dropped
  {
    assert Look(0);
    LostFacts(w.plane);
  }

  lemma LostFacts(v: PlaneView)
    requires Books(v, {}) && v.closing == []
    ensures v.lost <= v.dropped
  {
    assert Open(0);
    forall p | p in v.lost ensures p in v.dropped {
      assert p in v.dropped || IsClosing(v, p);
    }
  }
}
