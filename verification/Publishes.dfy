/**
 What the SDK keeps about its requests and the tracks it publishes (sdk/src/client.ts), and
 what each call and each reply does to it. Class `Fences.NexusClient` is the client itself.
 */
module Publishes {
  import opened Collections
  import opened Wrappers
  import opened Line
  import opened Held

  datatype FenceKind =
    | PublishFence(track: MediaTrack, offered: bool)
    | AnswerFence(tracks: seq<MediaTrack>)
    | SubscribeFence
    | RequestFence
    | KeepaliveFence

  datatype Fence = Fence(id: nat, kind: FenceKind)

  function Ids(fences: seq<Fence>): (r: seq<nat>)
    ensures |r| == |fences| && forall i :: 0 <= i < |fences| ==> r[i] == fences[i].id
  {
    seq(|fences|, i requires 0 <= i < |fences| => fences[i].id)
  }

  /**
   The client's fields. `attachedTracks` maps a track that has an m-line to the answer that
   gave it one. `hung` says that the loop over held-back actions goes round for ever. The last
   two are history that no branch consults: the request of each publish that went out and is
   pending, and for each answer the tracks that the SFU has not replied about, in order.
   */
  datatype Desk = Desk(
    fences: seq<Fence>,
    serverQueued: seq<MediaTrack>,
    pendingPublishes: set<MediaTrack>,
    localTracks: set<MediaTrack>,
    unattachedTracks: seq<MediaTrack>,
    attachedTracks: map<MediaTrack, nat>,
    pendingActions: seq<Action>,
    offerPending: bool,
    hung: bool,
    nextId: nat,
    requests: map<MediaTrack, nat>,
    owed: map<nat, seq<MediaTrack>>)

  /** Nothing asked for, the next request being `nextId`. */
  function Empty(nextId: nat): Desk {
    Desk([], [], {}, {}, [], map[], [], false, false, nextId, map[], map[])
  }

  // ── Requests ─────────────────────────────────────────────────────

  function Requested(d: Desk, kind: FenceKind): Desk {
    d.(fences := d.fences + [Fence(d.nextId, kind)], nextId := d.nextId + 1)
  }

  /** `publishTrack`: held back while an offer is awaited; nothing if the publish failed meanwhile. */
  function Tracked(d: Desk, t: MediaTrack): Desk {
    if d.offerPending then d.(pendingActions := d.pendingActions + [PublishAction(t)])
    else if t !in d.pendingPublishes then d
    else
      Requested(
        d.(localTracks := d.localTracks + {t}, unattachedTracks := d.unattachedTracks + [t], offerPending := true,
           requests := d.requests[t := d.nextId]),
        PublishFence(t, false))
  }

  predicate Taken(d: Desk, t: MediaTrack) {
    t in d.pendingPublishes || t in d.localTracks
  }

  /** `publish`: not of a track that is published or about to be; it is pending at once, held back or not. */
  function Asked(d: Desk, t: MediaTrack): Desk {
    if Taken(d, t) then d else Tracked(d.(pendingPublishes := d.pendingPublishes + {t}), t)
  }

  /** `subscribe`, held back like a publish. */
  function Subscribed(d: Desk): Desk {
    if d.offerPending then d.(pendingActions := d.pendingActions + [SubscribeAction]) else Requested(d, SubscribeFence)
  }

  /** The first held-back action is taken up. */
  function TakenUp(d: Desk): Desk
    requires d.pendingActions != []
  {
    var rest := d.(pendingActions := d.pendingActions[1..]);
    match d.pendingActions[0]
    case SubscribeAction => Subscribed(rest)
    case PublishAction(t) => Tracked(rest, t)
  }

  /** `runPendingActions`: once an offer is awaited again with actions left, they only go round (`Held.GoesRound`). */
  function Drained(d: Desk): Desk
    decreases |d.pendingActions|
  {
    if d.pendingActions == [] then d
    else if d.offerPending then d.(hung := true)
    else Drained(TakenUp(d))
  }

  /** `attachPendingTracks`: the tracks that the browser found m-lines for. */
  function Attached(d: Desk, tracks: seq<MediaTrack>): Desk {
    var attached := set t | t in tracks;
    d.(unattachedTracks := WithoutTracks(d.unattachedTracks, attached),
       attachedTracks := d.attachedTracks + (map t | t in attached :: d.nextId),
       serverQueued := WithoutTracks(d.serverQueued, attached))
  }

  function AnswerSent(d: Desk, tracks: seq<MediaTrack>): Desk {
    var a := Requested(Attached(d, tracks), AnswerFence(tracks));
    a.(offerPending := false, owed := d.owed[d.nextId := tracks])
  }

  /** The answer to an offer, and then what was held back. */
  function Answered(d: Desk, tracks: seq<MediaTrack>): Desk {
    Drained(AnswerSent(d, tracks))
  }

  function Unpublished(d: Desk, t: MediaTrack): Desk {
    Requested(d.(localTracks := d.localTracks - {t}, attachedTracks := d.attachedTracks - {t}), RequestFence)
  }

  /** A disconnect drops the fences and what the SFU queued, and nothing else. */
  function Disconnected(d: Desk): Desk {
    d.(fences := [], serverQueued := [])
  }

  function WithoutTracks(tracks: seq<MediaTrack>, gone: set<MediaTrack>): (r: seq<MediaTrack>)
    ensures forall t :: t in r <==> t in tracks && t !in gone
  {
    if tracks == [] then []
    else (if tracks[0] in gone then [] else [tracks[0]]) + WithoutTracks(tracks[1..], gone)
  }

  // ── Replies ──────────────────────────────────────────────────────

  function Forgets(kind: FenceKind, track: MediaTrack): FenceKind {
    if kind.AnswerFence? then AnswerFence(WithoutTracks(kind.tracks, {track})) else kind
  }

  function ForgetIn(fences: seq<Fence>, track: MediaTrack): (r: seq<Fence>)
    ensures |r| == |fences| && forall i :: 0 <= i < |r| ==> r[i] == Fence(fences[i].id, Forgets(fences[i].kind, track))
    ensures Ids(r) == Ids(fences)
  {
    seq(|fences|, i requires 0 <= i < |fences| => Fence(fences[i].id, Forgets(fences[i].kind, track)))
  }

  /** `failPublish` up to the held-back actions. */
  function Dropped(d: Desk, t: MediaTrack): Desk {
    d.(pendingPublishes := d.pendingPublishes - {t}, localTracks := d.localTracks - {t},
       fences := ForgetIn(d.fences, t), serverQueued := WithoutTracks(d.serverQueued, {t}),
       unattachedTracks := WithoutTracks(d.unattachedTracks, {t}), requests := d.requests - {t})
  }

  /** The last track that waited for an offer stops the waiting. */
  predicate Releases(d: Desk, t: MediaTrack) {
    t in d.unattachedTracks && d.offerPending && WithoutTracks(d.unattachedTracks, {t}) == []
  }

  /** `failPublish`: the track can be published again. */
  function Failed(d: Desk, t: MediaTrack): Desk {
    if Releases(d, t) then
      var a := Drained(Dropped(d, t).(offerPending := false));
      if a.hung then a else Detached(a, t)
    else Detached(Dropped(d, t), t)
  }

  function Detached(d: Desk, t: MediaTrack): Desk {
    d.(attachedTracks := d.attachedTracks - {t})
  }

  /** A call that goes round for ever does not come to the next track. */
  function FailedAll(d: Desk, tracks: seq<MediaTrack>): Desk
    decreases |tracks|
  {
    if tracks == [] || d.hung then d else FailedAll(Failed(d, tracks[0]), tracks[1..])
  }

  /** What an error at the head of the fences rejects, in order. */
  function Rejects(d: Desk, code: Code): seq<MediaTrack> {
    if d.fences == [] then []
    else
      match d.fences[0].kind
      case PublishFence(track, _) => if code in PUBLISH_REFUSALS then [track] else []
      case AnswerFence(tracks) =>
        if code in MLINE_REFUSALS && tracks != [] then [tracks[0]]
        else if code in PUBLISH_REFUSALS then d.serverQueued
        else []
      case _ => []
  }

  /** The replies to the oldest fenced request are complete. */
  function Ended(d: Desk): Desk {
    if d.fences == [] then d
    else
      var a := d.(fences := d.fences[1..]);
      match d.fences[0].kind
      case PublishFence(track, offered) =>
        if !offered && track in d.pendingPublishes then a.(serverQueued := d.serverQueued + [track]) else a
      case AnswerFence(tracks) => FailedAll(a, tracks)
      case _ => a
  }

  /** An offer among the replies to a publish is noted before the Pong. */
  function Offered(d: Desk): Desk {
    if d.fences != [] && d.fences[0].kind.PublishFence?
    then d.(fences := d.fences[0 := Fence(d.fences[0].id, d.fences[0].kind.(offered := true))])
    else d
  }

  /** A registered track is pending no longer, and no answer counts on it. */
  function Registered(d: Desk, id: nat, t: MediaTrack): Desk {
    if t in d.attachedTracks && d.attachedTracks[t] == id
    then d.(fences := ForgetIn(d.fences, t), pendingPublishes := d.pendingPublishes - {t}, requests := d.requests - {t})
    else d
  }

  function Behind(tracks: seq<MediaTrack>, t: MediaTrack): seq<MediaTrack> {
    if t !in tracks then tracks else if tracks[0] == t then tracks[1..] else Behind(tracks[1..], t)
  }

  /** The SFU replied about `t`, and so about all before it. */
  function Settled(owed: map<nat, seq<MediaTrack>>, id: nat, t: MediaTrack): map<nat, seq<MediaTrack>> {
    if id in owed then owed[id := Behind(owed[id], t)] else owed
  }

  function Reported(owed: map<nat, seq<MediaTrack>>, id: nat, refused: Option<MediaTrack>): map<nat, seq<MediaTrack>> {
    if refused.Some? then Settled(owed, id, refused.value) else owed
  }

  function Replied(d: Desk, r: Reply): Desk {
    match r
    case Pong(_) => Ended(d)
    case ErrorOf(id, code, refused) =>
      FailedAll(d.(owed := Reported(d.owed, id, refused)), Rejects(d, code))
    case Offer => Offered(d)
    case Published(id, t) => Registered(d.(owed := Settled(d.owed, id, t)), id, t)
    case Notice => d
  }

  // ── What always holds ────────────────────────────────────────────

  /** Some answer still counts on `track` to be registered. */
  predicate Awaited(fences: seq<Fence>, track: MediaTrack) {
    exists i :: 0 <= i < |fences| && fences[i].kind.AnswerFence? && track in fences[i].kind.tracks
  }

  /** Each fence has an id of its own. */
  ghost predicate Numbered(fences: seq<Fence>, nextId: nat) {
    NoDup(Ids(fences)) && forall i :: 0 <= i < |fences| ==> fences[i].id < nextId
  }

  /** A track is awaited only in the fence of the answer that attached it. */
  ghost predicate Placed(fences: seq<Fence>, attached: map<MediaTrack, nat>) {
    forall i :: 0 <= i < |fences| ==> PlacedAt(fences[i], attached)
  }

  ghost predicate PlacedAt(f: Fence, attached: map<MediaTrack, nat>) {
    f.kind.AnswerFence? ==> forall t :: t in f.kind.tracks ==> t in attached && attached[t] == f.id
  }

  /** Tracks that wait for an m-line have a request, once each, and no m-line. */
  ghost predicate Sorted(d: Desk) {
    && d.requests.Keys <= d.pendingPublishes && d.attachedTracks.Keys <= d.localTracks
    && NoDup(d.unattachedTracks)
    && (forall t :: t in d.unattachedTracks ==> t in d.requests && t in d.localTracks && t !in d.attachedTracks)
  }

  ghost predicate TidyDef(d: Desk) {
    Numbered(d.fences, d.nextId) && Placed(d.fences, d.attachedTracks) && Sorted(d)
  }

  /** A held-back publish that is still wanted has no request yet. */
  ghost predicate FreshActions(d: Desk) {
    forall i :: 0 <= i < |d.pendingActions| && LivePublish(d.pendingActions[i], d.pendingPublishes) ==>
      d.pendingActions[i].track !in d.requests && d.pendingActions[i].track !in d.localTracks
  }

  /** Actions are held back only while an offer is awaited. */
  ghost predicate Steady(d: Desk) {
    d.hung || ((d.pendingActions != [] ==> d.offerPending) && FreshActions(d))
  }

  // Sealed like the matching of the line, each with a key of its own; `Peek` has them all.

  ghost predicate TidyKey(i: int) {
    true
  }

  ghost predicate CalmKey(i: int) {
    true
  }

  ghost predicate OwnedKey(i: int) {
    true
  }

  ghost predicate ListedKey(i: int) {
    true
  }

  ghost predicate Peek(i: int) {
    TidyKey(i) && CalmKey(i) && OwnedKey(i) && ListedKey(i)
  }

  ghost predicate Tidy(d: Desk) {
    forall i {:trigger TidyKey(i)} :: TidyKey(i) ==> TidyDef(d)
  }

  ghost predicate Calm(d: Desk) {
    forall i {:trigger CalmKey(i)} :: CalmKey(i) ==> Steady(d)
  }

  lemma TidyRequested(d: Desk, kind: FenceKind)
    requires Tidy(d) && !kind.AnswerFence?
    ensures Tidy(Requested(d, kind))
  {
    assert Peek(0);
    assert Ids(Requested(d, kind).fences) == Ids(d.fences) + [d.nextId];
  }

  lemma TidyTracked(d: Desk, t: MediaTrack)
    requires Tidy(d) && (!d.offerPending && t in d.pendingPublishes ==> t !in d.requests && t !in d.localTracks)
    ensures Tidy(Tracked(d, t))
  {
    assert Peek(0);
    if !d.offerPending && t in d.pendingPublishes {
      var a := d.(localTracks := d.localTracks + {t}, unattachedTracks := d.unattachedTracks + [t],
                  offerPending := true, requests := d.requests[t := d.nextId]);
      assert TidyDef(a);
      TidyRequested(a, PublishFence(t, false));
    }
  }

  lemma TidyAsked(d: Desk, t: MediaTrack)
    requires Tidy(d) && Calm(d) && !d.hung
    ensures Tidy(Asked(d, t)) && Calm(Asked(d, t)) && !Asked(d, t).hung
  {
    assert Peek(0);
    if !Taken(d, t) {
      var a := d.(pendingPublishes := d.pendingPublishes + {t});
      assert TidyDef(a) && FreshActions(a);
      TidyTracked(a, t);
    }
  }

  lemma TidySubscribed(d: Desk)
    requires Tidy(d) && Calm(d) && !d.hung
    ensures Tidy(Subscribed(d)) && Calm(Subscribed(d)) && !Subscribed(d).hung
  {
    assert Peek(0);
    TidyRequested(d, SubscribeFence);
  }

  lemma {:induction false} TidyDrained(d: Desk)
    requires Tidy(d) && (d.offerPending || FreshActions(d))
    ensures Tidy(Drained(d)) && Calm(Drained(d)) && Drained(d).pendingPublishes == d.pendingPublishes
    decreases |d.pendingActions|
  {
    assert Peek(0);
    if d.pendingActions != [] && !d.offerPending {
      var rest := d.(pendingActions := d.pendingActions[1..]);
      assert TidyDef(rest);
      assert FreshActions(rest) by {
        forall i | 0 <= i < |rest.pendingActions| ensures rest.pendingActions[i] == d.pendingActions[i + 1] {
        }
      }
      match d.pendingActions[0] {
        case SubscribeAction => TidyRequested(rest, SubscribeFence);
        case PublishAction(t) =>
          assert t in d.pendingPublishes ==> LivePublish(d.pendingActions[0], d.pendingPublishes);
          TidyTracked(rest, t);
      }
      TidyDrained(TakenUp(d));
    }
  }

  lemma {:induction false} WithoutDistinct(tracks: seq<MediaTrack>, gone: set<MediaTrack>)
    requires NoDup(tracks)
    ensures NoDup(WithoutTracks(tracks, gone))
  {
    if tracks != [] {
      assert NoDup(tracks[1..]);
      WithoutDistinct(tracks[1..], gone);
      var rest := WithoutTracks(tracks[1..], gone);
      assert tracks[0] !in rest by {
        assert tracks[0] !in tracks[1..];
      }
    }
  }

  lemma ForgetPlaced(fences: seq<Fence>, attached: map<MediaTrack, nat>, t: MediaTrack, nextId: nat)
    requires Numbered(fences, nextId) && Placed(fences, attached)
    ensures Numbered(ForgetIn(fences, t), nextId)
    ensures Placed(ForgetIn(fences, t), attached) && Placed(ForgetIn(fences, t), attached - {t})
  {
    var r := ForgetIn(fences, t);
    forall i | 0 <= i < |r| ensures PlacedAt(r[i], attached) && PlacedAt(r[i], attached - {t}) && r[i].id < nextId {
      assert PlacedAt(fences[i], attached) && r[i] == Fence(fences[i].id, Forgets(fences[i].kind, t));
    }
  }

  lemma TidyDropped(d: Desk, t: MediaTrack)
    requires Tidy(d)
    ensures Tidy(Detached(Dropped(d, t), t)) && (t in d.unattachedTracks ==> Tidy(Dropped(d, t)))
  {
    assert Peek(0);
    ForgetPlaced(d.fences, d.attachedTracks, t, d.nextId);
    SortedDropped(d, t);
  }

  lemma SortedDropped(d: Desk, t: MediaTrack)
    requires Sorted(d)
    ensures Sorted(Detached(Dropped(d, t), t)) && (t in d.unattachedTracks ==> Sorted(Dropped(d, t)))
  {
    WithoutDistinct(d.unattachedTracks, {t});
  }

  lemma TidyFailed(d: Desk, t: MediaTrack)
    requires Tidy(d) && Calm(d) && !d.hung
    ensures Tidy(Failed(d, t)) && Calm(Failed(d, t)) && Failed(d, t).pendingPublishes == d.pendingPublishes - {t}
  {
    TidyDropped(d, t);
    if Releases(d, t) {
      TidyReleased(d, t);
    } else {
      assert Calm(Detached(Dropped(d, t), t)) by {
        assert Peek(0);
      }
    }
  }

  lemma TidyReleased(d: Desk, t: MediaTrack)
    requires Tidy(d) && Calm(d) && !d.hung && Releases(d, t) && Tidy(Dropped(d, t))
    ensures Tidy(Failed(d, t)) && Calm(Failed(d, t)) && Failed(d, t).pendingPublishes == d.pendingPublishes - {t}
  {
    var a := Dropped(d, t).(offerPending := false);
    assert Tidy(a) && FreshActions(a) && t !in a.attachedTracks by {
      assert Peek(0);
    }
    TidyDrained(a);
    DrainedKeeps(a);
    var u := Drained(a);
    assert u.attachedTracks - {t} == u.attachedTracks;
    assert Detached(u, t) == u;
  }

  /** What taking up held-back actions never touches; the fences only grow, by publishes and subscriptions. */
  lemma {:induction false} DrainedKeeps(d: Desk)
    ensures
      var u := Drained(d);
      && u.attachedTracks == d.attachedTracks && u.serverQueued == d.serverQueued && u.owed == d.owed
      && u.pendingPublishes == d.pendingPublishes && (d.hung ==> u.hung) && d.nextId <= u.nextId
    decreases |d.pendingActions|
  {
    if d.pendingActions != [] && !d.offerPending {
      DrainedKeeps(TakenUp(d));
    }
  }

  lemma {:induction false} DrainedGrows(d: Desk)
    ensures Grown(d.fences, Drained(d).fences)
    decreases |d.pendingActions|
  {
    if d.pendingActions != [] && !d.offerPending {
      var next := TakenUp(d);
      DrainedGrows(next);
      assert Grown(d.fences, next.fences);
      GrownTwice(d.fences, next.fences, Drained(next).fences);
    }
  }

  lemma GrownTwice(a: seq<Fence>, b: seq<Fence>, c: seq<Fence>)
    requires Grown(a, b) && Grown(b, c)
    ensures Grown(a, c)
  {
    forall i | |a| <= i < |c| ensures !c[i].kind.AnswerFence? {
      if i < |b| {
        assert c[..|b|][i] == b[i];
      }
    }
    assert c[..|a|] == c[..|b|][..|a|];
  }

  /** `more` is `fences` with fences behind them that are of no answer. */
  ghost predicate Grown(fences: seq<Fence>, more: seq<Fence>) {
    && |fences| <= |more| && more[..|fences|] == fences
    && forall i :: |fences| <= i < |more| ==> !more[i].kind.AnswerFence?
  }

  lemma {:induction false} TidyFailedAll(d: Desk, tracks: seq<MediaTrack>)
    requires Tidy(d) && Calm(d)
    ensures
      var u := FailedAll(d, tracks);
      && Tidy(u) && Calm(u) && u.pendingPublishes <= d.pendingPublishes
      && (forall t :: t in d.pendingPublishes && t !in u.pendingPublishes ==> t in tracks)
      && (!u.hung ==> u.pendingPublishes == d.pendingPublishes - set t | t in tracks)
    decreases |tracks|
  {
    if tracks != [] && !d.hung {
      TidyFailed(d, tracks[0]);
      TidyFailedAll(Failed(d, tracks[0]), tracks[1..]);
      assert (set t | t in tracks) == {tracks[0]} + set t | t in tracks[1..];
    }
  }

  lemma TidyAttached(d: Desk, tracks: seq<MediaTrack>)
    requires Tidy(d) && NoDup(tracks) && forall t :: t in tracks ==> t in d.unattachedTracks
    ensures TidyDef(Attached(d, tracks))
  {
    assert Peek(0);
    WithoutDistinct(d.unattachedTracks, set t | t in tracks);
    var a := Attached(d, tracks);
    forall i | 0 <= i < |d.fences| ensures PlacedAt(d.fences[i], a.attachedTracks) {
      assert PlacedAt(d.fences[i], d.attachedTracks);
    }
    assert Sorted(a);
  }

  lemma TidyAnswered(d: Desk, tracks: seq<MediaTrack>)
    requires Tidy(d) && Calm(d) && !d.hung && NoDup(tracks) && forall t :: t in tracks ==> t in d.unattachedTracks
    ensures Tidy(Answered(d, tracks)) && Calm(Answered(d, tracks))
  {
    TidyAttached(d, tracks);
    TidyAnswerSent(d, tracks);
    assert FreshActions(AnswerSent(d, tracks)) by {
      assert Peek(0);
    }
    TidyDrained(AnswerSent(d, tracks));
  }

  lemma TidyAnswerSent(d: Desk, tracks: seq<MediaTrack>)
    requires TidyDef(Attached(d, tracks))
    ensures Tidy(AnswerSent(d, tracks))
  {
    var (a, b) := (Attached(d, tracks), AnswerSent(d, tracks));
    assert Ids(b.fences) == Ids(a.fences) + [d.nextId];
    forall i | 0 <= i < |b.fences| ensures PlacedAt(b.fences[i], b.attachedTracks) {
      if i < |a.fences| {
        assert b.fences[i] == a.fences[i];
      }
    }
  }

  lemma TidyUnpublished(d: Desk, t: MediaTrack)
    requires Tidy(d) && Calm(d) && !d.hung && t in d.attachedTracks && !Awaited(d.fences, t)
    ensures Tidy(Unpublished(d, t)) && Calm(Unpublished(d, t))
  {
    assert Peek(0);
    var a := d.(localTracks := d.localTracks - {t}, attachedTracks := d.attachedTracks - {t});
    assert TidyDef(a) && FreshActions(a);
    TidyRequested(a, RequestFence);
  }

  lemma TidyEnded(d: Desk)
    requires Tidy(d) && Calm(d) && !d.hung
    ensures Tidy(Ended(d)) && Calm(Ended(d))
  {
    if d.fences != [] {
      var a := d.(fences := d.fences[1..]);
      assert Tidy(a) && Calm(a) by {
        TidyPopped(d);
      }
      match d.fences[0].kind
      case PublishFence(track, _) =>
        var b := a.(serverQueued := d.serverQueued + [track]);
        assert Tidy(b) && Calm(b) by {
          assert Peek(0);
        }
      case AnswerFence(tracks) => TidyFailedAll(a, tracks);
      case _ =>
    }
  }

  lemma TidyPopped(d: Desk)
    requires Tidy(d) && Calm(d) && d.fences != []
    ensures Tidy(d.(fences := d.fences[1..])) && Calm(d.(fences := d.fences[1..]))
  {
    assert Peek(0);
    var a := d.(fences := d.fences[1..]);
    assert Ids(a.fences) == Ids(d.fences)[1..];
    forall i | 0 <= i < |a.fences| ensures a.fences[i] == d.fences[i + 1] {
    }
    assert TidyDef(a);
  }

  lemma TidyOffered(d: Desk)
    requires Tidy(d) && Calm(d)
    ensures Tidy(Offered(d)) && Calm(Offered(d))
  {
    assert Peek(0);
    assert Ids(Offered(d).fences) == Ids(d.fences);
    assert TidyDef(Offered(d));
  }

  lemma TidyRegistered(d: Desk, id: nat, t: MediaTrack)
    requires Tidy(d) && Calm(d)
    ensures Tidy(Registered(d, id, t)) && Calm(Registered(d, id, t))
  {
    assert Peek(0);
    assert TidyDef(Registered(d, id, t));
  }

  lemma TidyOwed(d: Desk, owed: map<nat, seq<MediaTrack>>)
    requires Tidy(d) && Calm(d)
    ensures Tidy(d.(owed := owed)) && Calm(d.(owed := owed))
  {
    assert Peek(0);
  }

  lemma TidyReplied(d: Desk, r: Reply)
    requires Tidy(d) && Calm(d) && !d.hung
    ensures Tidy(Replied(d, r)) && Calm(Replied(d, r))
  {
    match r
    case Pong(_) => TidyEnded(d);
    case ErrorOf(id, code, refused) =>
      var a := d.(owed := Reported(d.owed, id, refused));
      TidyOwed(d, a.owed);
      TidyFailedAll(a, Rejects(d, code));
    case Offer => TidyOffered(d);
    case Published(id, t) =>
      TidyOwed(d, Settled(d.owed, id, t));
      TidyRegistered(d.(owed := Settled(d.owed, id, t)), id, t);
    case Notice =>
  }

  lemma TidyDisconnected(d: Desk)
    requires Tidy(d) && Calm(d)
    ensures Tidy(Disconnected(d)) && Calm(Disconnected(d))
  {
    assert Peek(0);
    assert Ids(Disconnected(d).fences) == [];
  }

  lemma TidyEmpty(nextId: nat)
    ensures Tidy(Empty(nextId)) && Calm(Empty(nextId))
  {
    assert Ids([]) == [];
  }

  // ── Whose error ──────────────────────────────────────────────────

  /** Some publish of `t` is still fenced. */
  predicate Fenced(fences: seq<Fence>, t: MediaTrack) {
    exists i :: 0 <= i < |fences| && fences[i].kind.PublishFence? && fences[i].kind.track == t
  }

  /** The fence of a publish that is pending is that publish's own. */
  ghost predicate Owned(d: Desk) {
    forall i {:trigger OwnedKey(i)} :: OwnedKey(i) ==> OwnedDef(d)
  }

  ghost predicate OwnedDef(d: Desk) {
    forall i ::
      0 <= i < |d.fences| && d.fences[i].kind.PublishFence? && d.fences[i].kind.track in d.pendingPublishes ==>
      d.fences[i].kind.track in d.requests && d.requests[d.fences[i].kind.track] == d.fences[i].id
  }

  /** Each answer's fence lists what the SFU has not replied about. */
  ghost predicate Listed(d: Desk) {
    forall i {:trigger ListedKey(i)} :: ListedKey(i) ==> ListedDef(d)
  }

  ghost predicate ListedDef(d: Desk) {
    forall i :: 0 <= i < |d.fences| ==> ListedAt(d.fences[i], d.owed)
  }

  ghost predicate ListedAt(f: Fence, owed: map<nat, seq<MediaTrack>>) {
    f.kind.AnswerFence? ==> f.id in owed && NoDup(owed[f.id]) && f.kind.tracks == owed[f.id]
  }

  // ── Publishes and their fences ───────────────────────────────────

  /** A publish that goes out with no other of its track fenced. */
  lemma OwnedSent(d: Desk, t: MediaTrack)
    requires Tidy(d) && !d.offerPending && t in d.pendingPublishes && t !in d.requests
    ensures Owned(Tracked(d, t)) <==> Owned(d)
  {
    assert Peek(0);
    var (u, n) := (Tracked(d, t), |d.fences|);
    forall i | 0 <= i < n ensures u.fences[i] == d.fences[i] {
    }
    assert u.fences[n] == Fence(d.nextId, PublishFence(t, false));
    if Owned(d) {
      forall i | 0 <= i < |u.fences| && u.fences[i].kind.PublishFence? && u.fences[i].kind.track in u.pendingPublishes
        ensures u.fences[i].kind.track in u.requests && u.requests[u.fences[i].kind.track] == u.fences[i].id
      {
      }
    } else {
      var i :| 0 <= i < n && d.fences[i].kind.PublishFence? && d.fences[i].kind.track in d.pendingPublishes &&
        !(d.fences[i].kind.track in d.requests && d.requests[d.fences[i].kind.track] == d.fences[i].id);
      assert u.fences[i] == d.fences[i] && d.fences[i].id != d.nextId;
    }
  }

  /**
   Exactly when publishing a track keeps every fence its own publish's: when no earlier publish
   of it is still fenced. That goes for a publish that is held back, too.
   */
  lemma OwnedAsked(d: Desk, t: MediaTrack)
    requires Tidy(d) && Calm(d) && !d.hung && !Taken(d, t)
    ensures Owned(Asked(d, t)) <==> Owned(d) && !Fenced(d.fences, t)
  {
    assert Peek(0);
    var a := d.(pendingPublishes := d.pendingPublishes + {t});
    assert t !in d.requests && Tidy(a) by {
      assert Peek(0);
    }
    if !d.offerPending {
      OwnedSent(a, t);
    }
    OwnedPending(d, t);
  }

  lemma OwnedPending(d: Desk, t: MediaTrack)
    requires t !in d.pendingPublishes && t !in d.requests
    ensures Owned(d.(pendingPublishes := d.pendingPublishes + {t})) <==> Owned(d) && !Fenced(d.fences, t)
  {
    assert Peek(0);
  }

  lemma OwnedRequested(d: Desk, kind: FenceKind)
    requires Owned(d) && !kind.PublishFence?
    ensures Owned(Requested(d, kind))
  {
    assert Peek(0);
    var u := Requested(d, kind);
    forall i | 0 <= i < |u.fences| && u.fences[i].kind.PublishFence?
      ensures i < |d.fences| && u.fences[i] == d.fences[i]
    {
    }
  }

  lemma {:induction false} OwnedDrained(d: Desk)
    requires Tidy(d) && (d.offerPending || FreshActions(d)) && Owned(d)
    ensures Owned(Drained(d))
    decreases |d.pendingActions|
  {
    assert Peek(0);
    if d.pendingActions != [] && !d.offerPending {
      var rest := d.(pendingActions := d.pendingActions[1..]);
      assert Tidy(rest) by {
        assert Peek(0);
      }
      forall i | 0 <= i < |rest.pendingActions| ensures rest.pendingActions[i] == d.pendingActions[i + 1] {
      }
      match d.pendingActions[0] {
        case SubscribeAction =>
          TidyRequested(rest, SubscribeFence);
          OwnedRequested(rest, SubscribeFence);
        case PublishAction(t) =>
          assert t in d.pendingPublishes ==> LivePublish(d.pendingActions[0], d.pendingPublishes);
          TidyTracked(rest, t);
          if t in d.pendingPublishes {
            OwnedSent(rest, t);
          }
      }
      OwnedDrained(TakenUp(d));
    }
  }

  lemma OwnedFailed(d: Desk, t: MediaTrack)
    requires Tidy(d) && Calm(d) && !d.hung && Owned(d)
    ensures Owned(Failed(d, t))
  {
    assert Peek(0);
    var a := Dropped(d, t);
    assert Owned(a) && Owned(Detached(a, t));
    if Releases(d, t) {
      TidyDropped(d, t);
      var b := a.(offerPending := false);
      assert Tidy(b) && FreshActions(b) by {
        assert Peek(0);
      }
      OwnedDrained(b);
    }
  }

  lemma {:induction false} OwnedFailedAll(d: Desk, tracks: seq<MediaTrack>)
    requires Tidy(d) && Calm(d) && Owned(d)
    ensures Owned(FailedAll(d, tracks))
    decreases |tracks|
  {
    assert Peek(0);
    if tracks != [] && !d.hung {
      TidyFailed(d, tracks[0]);
      OwnedFailed(d, tracks[0]);
      OwnedFailedAll(Failed(d, tracks[0]), tracks[1..]);
    }
  }

  lemma OwnedAnswered(d: Desk, tracks: seq<MediaTrack>)
    requires Tidy(d) && Calm(d) && !d.hung && Owned(d)
    requires NoDup(tracks) && forall t :: t in tracks ==> t in d.unattachedTracks
    ensures Owned(Answered(d, tracks))
  {
    assert Peek(0);
    TidyAttached(d, tracks);
    TidyAnswerSent(d, tracks);
    OwnedRequested(Attached(d, tracks), AnswerFence(tracks));
    assert FreshActions(AnswerSent(d, tracks)) by {
      assert Peek(0);
    }
    assert Owned(AnswerSent(d, tracks));
    OwnedDrained(AnswerSent(d, tracks));
  }

  lemma OwnedReplied(d: Desk, r: Reply)
    requires Tidy(d) && Calm(d) && !d.hung && Owned(d)
    ensures Owned(Replied(d, r))
  {
    assert Peek(0);
    match r
    case Pong(_) =>
      if d.fences != [] {
        var a := d.(fences := d.fences[1..]);
        TidyPopped(d);
        forall i | 0 <= i < |a.fences| ensures a.fences[i] == d.fences[i + 1] {
        }
        if d.fences[0].kind.AnswerFence? {
          OwnedFailedAll(a, d.fences[0].kind.tracks);
        }
      }
    case ErrorOf(id, code, refused) =>
      var a := d.(owed := Reported(d.owed, id, refused));
      TidyOwed(d, a.owed);
      OwnedFailedAll(a, Rejects(d, code));
    case Offer =>
    case Published(id, t) =>
    case Notice =>
  }

  /** An error or a Pong that finds a publish's fence finds that of the publish it answers. */
  lemma OwnPublish(d: Desk, t: MediaTrack)
    requires Owned(d) && d.fences != [] && d.fences[0].kind.PublishFence? && d.fences[0].kind.track == t
    requires t in d.pendingPublishes
    ensures t in d.requests && d.requests[t] == d.fences[0].id
  {
    assert Peek(0);
  }

  // ── Answers and their tracks ─────────────────────────────────────

  lemma ListedGrown(d: Desk, u: Desk)
    requires Grown(d.fences, u.fences) && u.owed == d.owed
    ensures Listed(d) <==> Listed(u)
  {
    assert Peek(0);
    forall i | 0 <= i < |d.fences| ensures u.fences[i] == d.fences[i] {
      assert u.fences[..|d.fences|][i] == d.fences[i];
    }
  }

  lemma FailedGrows(d: Desk, t: MediaTrack)
    ensures Grown(ForgetIn(d.fences, t), Failed(d, t).fences) && Failed(d, t).owed == d.owed
  {
    assert Peek(0);
    if Releases(d, t) {
      DrainedKeeps(Dropped(d, t).(offerPending := false));
      DrainedGrows(Dropped(d, t).(offerPending := false));
    }
  }

  lemma ForgetNothing(fences: seq<Fence>, t: MediaTrack)
    requires !Awaited(fences, t)
    ensures ForgetIn(fences, t) == fences
  {
    assert Peek(0);
    forall i | 0 <= i < |fences| ensures Forgets(fences[i].kind, t) == fences[i].kind {
      if fences[i].kind.AnswerFence? {
        NotWithout(fences[i].kind.tracks, t);
      }
    }
  }

  lemma {:induction false} NotWithout(tracks: seq<MediaTrack>, track: MediaTrack)
    requires track !in tracks
    ensures WithoutTracks(tracks, {track}) == tracks
  {
    assert Peek(0);
    if tracks != [] {
      NotWithout(tracks[1..], track);
    }
  }

  /** Exactly when a publish that fails for itself leaves the answers' lists right: when no answer counts on it. */
  lemma ListedFailed(d: Desk, t: MediaTrack)
    requires Listed(d)
    ensures Listed(Failed(d, t)) <==> !Awaited(d.fences, t)
  {
    assert Peek(0);
    FailedGrows(d, t);
    var a := d.(fences := ForgetIn(d.fences, t));
    ListedGrown(a, Failed(d, t));
    if Awaited(d.fences, t) {
      var i :| 0 <= i < |d.fences| && d.fences[i].kind.AnswerFence? && t in d.fences[i].kind.tracks;
      assert t !in a.fences[i].kind.tracks && a.fences[i].id == d.fences[i].id;
    } else {
      ForgetNothing(d.fences, t);
    }
  }

  lemma StillNotAwaited(d: Desk, t: MediaTrack, x: MediaTrack)
    requires !Awaited(d.fences, x)
    ensures !Awaited(Failed(d, t).fences, x)
  {
    assert Peek(0);
    FailedGrows(d, t);
    var (a, u) := (ForgetIn(d.fences, t), Failed(d, t).fences);
    forall i | 0 <= i < |u| && u[i].kind.AnswerFence? ensures x !in u[i].kind.tracks {
      assert u[..|a|][i] == a[i];
    }
  }

  lemma {:induction false} ListedFailedAll(d: Desk, tracks: seq<MediaTrack>)
    requires Listed(d) && forall t :: t in tracks ==> !Awaited(d.fences, t)
    ensures Listed(FailedAll(d, tracks))
    decreases |tracks|
  {
    assert Peek(0);
    if tracks != [] && !d.hung {
      ListedFailed(d, tracks[0]);
      forall t | t in tracks[1..] ensures !Awaited(Failed(d, tracks[0]).fences, t) {
        StillNotAwaited(d, tracks[0], t);
      }
      ListedFailedAll(Failed(d, tracks[0]), tracks[1..]);
    }
  }

  lemma ListedAnswered(d: Desk, tracks: seq<MediaTrack>)
    requires Tidy(d) && Listed(d) && NoDup(tracks)
    ensures Listed(Answered(d, tracks))
  {
    assert Peek(0);
    var a := AnswerSent(d, tracks);
    forall i | 0 <= i < |d.fences| ensures a.fences[i] == d.fences[i] && a.fences[i].id != d.nextId {
    }
    assert Listed(a);
    DrainedKeeps(a);
    DrainedGrows(a);
    ListedGrown(a, Drained(a));
  }

  /** `t` is the next that the SFU has to reply about for answer `id`. */
  ghost predicate NextOwed(d: Desk, id: nat, t: MediaTrack) {
    id in d.owed && d.owed[id] != [] && d.owed[id][0] == t
  }

  ghost predicate AnswerFenced(d: Desk, id: nat) {
    exists i :: 0 <= i < |d.fences| && d.fences[i].id == id && d.fences[i].kind.AnswerFence?
  }

  /**
   The reply is about the next track that its answer is owed one about, or about none and
   rejects none that an answer counts on. An m-line that the SFU passes over in silence, for
   one, puts the reply about the next one out of turn.
   */
  ghost predicate InTurn(d: Desk, r: Reply) {
    match r
    case Published(id, t) => AnswerFenced(d, id) ==> NextOwed(d, id, t)
    case ErrorOf(id, code, Some(t)) =>
      && d.fences != [] && d.fences[0].id == id && d.fences[0].kind.AnswerFence? && code in MLINE_REFUSALS
      && NextOwed(d, id, t)
    case ErrorOf(id, code, None) => forall t :: t in Rejects(d, code) ==> !Awaited(d.fences, t)
    case _ => true
  }

  /** A track is awaited in the fence of the answer that attached it, and in no other. */
  lemma AwaitedOnce(d: Desk, i: nat, j: nat, t: MediaTrack)
    requires Tidy(d) && i < |d.fences| && j < |d.fences| && d.fences[i].kind.AnswerFence?
      && d.fences[j].kind.AnswerFence?
    requires t in d.fences[i].kind.tracks && t in d.fences[j].kind.tracks
    ensures i == j
  {
    assert Peek(0);
    assert PlacedAt(d.fences[i], d.attachedTracks) && PlacedAt(d.fences[j], d.attachedTracks);
    assert Ids(d.fences)[i] == Ids(d.fences)[j];
  }

  lemma NotElsewhere(d: Desk, i: nat, k: nat, t: MediaTrack)
    requires Tidy(d) && i < |d.fences| && k < |d.fences| && d.fences[i].kind.AnswerFence?
      && d.fences[k].kind.AnswerFence?
    requires t in d.fences[k].kind.tracks && i != k
    ensures t !in d.fences[i].kind.tracks
  {
    assert Peek(0);
    if t in d.fences[i].kind.tracks {
      AwaitedOnce(d, i, k, t);
    }
  }

  /** The SFU's reply about the next track of answer `id`, and the track forgotten in the fences. */
  lemma ListedForgets(d: Desk, id: nat, t: MediaTrack)
    requires Tidy(d) && Listed(d) && AnswerFenced(d, id) && NextOwed(d, id, t)
    ensures Listed(d.(owed := Settled(d.owed, id, t), fences := ForgetIn(d.fences, t)))
    ensures t in d.attachedTracks && d.attachedTracks[t] == id
  {
    assert Peek(0);
    var k :| 0 <= k < |d.fences| && d.fences[k].id == id && d.fences[k].kind.AnswerFence?;
    var (r, owed) := (ForgetIn(d.fences, t), Settled(d.owed, id, t));
    assert ListedAt(d.fences[k], d.owed);
    ListedFirst(d.fences[k], d.owed, t);
    OwnAnswer(d, k, t);
    forall i | 0 <= i < |r| ensures ListedAt(r[i], owed) {
      if i != k && d.fences[i].kind.AnswerFence? {
        assert ListedAt(d.fences[i], d.owed);
        OtherAnswer(d, i, k, t);
      }
    }
  }

  lemma ListedFirst(f: Fence, owed: map<nat, seq<MediaTrack>>, t: MediaTrack)
    requires ListedAt(f, owed) && f.kind.AnswerFence? && owed[f.id] != [] && owed[f.id][0] == t
    ensures ListedAt(Fence(f.id, Forgets(f.kind, t)), Settled(owed, f.id, t))
  {
    assert Peek(0);
    var tail := owed[f.id][1..];
    assert t !in tail && NoDup(tail);
    NotWithout(tail, t);
  }

  lemma OwnAnswer(d: Desk, k: nat, t: MediaTrack)
    requires Tidy(d) && k < |d.fences| && d.fences[k].kind.AnswerFence? && t in d.fences[k].kind.tracks
    ensures t in d.attachedTracks && d.attachedTracks[t] == d.fences[k].id
  {
    assert Peek(0);
    assert PlacedAt(d.fences[k], d.attachedTracks);
  }

  lemma OtherAnswer(d: Desk, i: nat, k: nat, t: MediaTrack)
    requires Tidy(d) && i < |d.fences| && k < |d.fences| && d.fences[i].kind.AnswerFence?
      && d.fences[k].kind.AnswerFence?
    requires t in d.fences[k].kind.tracks && i != k
    ensures d.fences[i].id != d.fences[k].id && Forgets(d.fences[i].kind, t) == d.fences[i].kind
  {
    assert Peek(0);
    NotElsewhere(d, i, k, t);
    NotWithout(d.fences[i].kind.tracks, t);
    assert Peek(0);
    assert Ids(d.fences)[i] != Ids(d.fences)[k];
  }

  lemma ListedPublished(d: Desk, id: nat, t: MediaTrack)
    requires Tidy(d) && Listed(d) && InTurn(d, Published(id, t))
    ensures Listed(Replied(d, Published(id, t)))
  {
    assert Peek(0);
    if AnswerFenced(d, id) {
      ListedForgets(d, id, t);
    } else {
      assert Listed(d.(owed := Settled(d.owed, id, t)));
      if t in d.attachedTracks && d.attachedTracks[t] == id {
        assert !Awaited(d.fences, t) by {
          forall i | 0 <= i < |d.fences| && d.fences[i].kind.AnswerFence? ensures t !in d.fences[i].kind.tracks {
            if t in d.fences[i].kind.tracks {
              OwnAnswer(d, i, t);
            }
          }
        }
        ForgetNothing(d.fences, t);
      }
    }
  }

  lemma ListedRefused(d: Desk, id: nat, code: Code, t: MediaTrack)
    requires Tidy(d) && !d.hung && Listed(d) && InTurn(d, ErrorOf(id, code, Some(t)))
    ensures Listed(Replied(d, ErrorOf(id, code, Some(t)))) && Rejects(d, code) == [t]
  {
    assert Peek(0);
    assert AnswerFenced(d, id);
    ListedForgets(d, id, t);
    assert d.fences[0].kind.tracks == d.owed[id];
    var a := d.(owed := Settled(d.owed, id, t));
    FailedGrows(a, t);
    ListedGrown(a.(fences := ForgetIn(a.fences, t)), Failed(a, t));
    assert [t][1..] == [] && FailedAll(a, [t]) == Failed(a, t);
  }

  lemma ListedEnded(d: Desk)
    requires Tidy(d) && Listed(d)
    ensures Listed(Ended(d))
  {
    assert Peek(0);
    if d.fences != [] {
      var a := d.(fences := d.fences[1..]);
      forall i | 0 <= i < |a.fences| ensures a.fences[i] == d.fences[i + 1] {
      }
      assert Listed(a);
      if d.fences[0].kind.AnswerFence? {
        forall t | t in d.fences[0].kind.tracks ensures !Awaited(a.fences, t) {
          forall i | 0 <= i < |a.fences| && a.fences[i].kind.AnswerFence? ensures t !in a.fences[i].kind.tracks {
            if t in a.fences[i].kind.tracks {
              AwaitedOnce(d, 0, i + 1, t);
            }
          }
        }
        ListedFailedAll(a, d.fences[0].kind.tracks);
      }
    }
  }

  lemma ListedReplied(d: Desk, r: Reply)
    requires Tidy(d) && Calm(d) && !d.hung && Listed(d) && InTurn(d, r)
    ensures Listed(Replied(d, r))
  {
    assert Peek(0);
    match r
    case Pong(_) => ListedEnded(d);
    case ErrorOf(id, code, Some(t)) => ListedRefused(d, id, code, t);
    case ErrorOf(id, code, None) =>
      assert d.(owed := Reported(d.owed, id, None)) == d;
      ListedFailedAll(d, Rejects(d, code));
    case Offer =>
    case Published(id, t) => ListedPublished(d, id, t);
    case Notice =>
  }

  /**
   Exactly when the refusal of one of an answer's tracks rejects that track: when it is the
   next that the answer is owed a reply about.
   */
  lemma RefusalHits(d: Desk, id: nat, code: Code, t: MediaTrack)
    requires Listed(d) && d.fences != [] && d.fences[0].id == id && d.fences[0].kind.AnswerFence?
    requires code in MLINE_REFUSALS && id in d.owed && t in d.owed[id]
    ensures Rejects(d, code) == [t] <==> NextOwed(d, id, t)
  {
    assert Peek(0);
  }

  // ── Held-back actions ────────────────────────────────────────────

  /** Taking up the held-back actions ends exactly as the loop does. */
  lemma {:induction false} DrainedHangs(d: Desk)
    requires !d.offerPending && !d.hung
    ensures Drained(d).hung <==> !PublishesLast(d.pendingActions, d.pendingPublishes)
    decreases |d.pendingActions|
  {
    if d.pendingActions != [] {
      var (next, q) := (TakenUp(d), d.pendingActions);
      forall i | 0 <= i < |q[1..]| ensures q[1..][i] == q[i + 1] {
      }
      if next.offerPending {
        assert LivePublish(q[0], d.pendingPublishes);
        assert Drained(next).hung <==> q[1..] != [];
      } else {
        assert !LivePublish(q[0], d.pendingPublishes);
        DrainedHangs(next);
        assert PublishesLast(q[1..], d.pendingPublishes) <==> PublishesLast(q, d.pendingPublishes) by {
          if !PublishesLast(q, d.pendingPublishes) {
            var i :| 0 <= i < |q| - 1 && LivePublish(q[i], d.pendingPublishes);
            assert q[1..][i - 1] == q[i];
          }
        }
      }
    }
  }

  /** The fences of actions sent from request `id` on. */
  function FencesOf(actions: seq<Action>, id: nat): seq<Fence> {
    if actions == [] then []
    else
      [Fence(id, if actions[0].PublishAction? then PublishFence(actions[0].track, false) else SubscribeFence)]
      + FencesOf(actions[1..], id + 1)
  }

  /** Where it ends, what is still wanted goes out, in order, and nothing is held back. */
  lemma {:induction false} DrainedSends(d: Desk)
    requires PublishesLast(d.pendingActions, d.pendingPublishes) && (d.offerPending ==> d.pendingActions == [])
    ensures
      var live := Live(d.pendingActions, d.pendingPublishes);
      Drained(d).pendingActions == [] && Drained(d).fences == d.fences + FencesOf(live, d.nextId)
    decreases |d.pendingActions|
  {
    if d.pendingActions != [] {
      var (next, q) := (TakenUp(d), d.pendingActions);
      forall i | 0 <= i < |q[1..]| ensures q[1..][i] == q[i + 1] {
      }
      DrainedSends(next);
      FirstSent(d, Live(q[1..], d.pendingPublishes));
    }
  }

  lemma FirstSent(d: Desk, rest: seq<Action>)
    requires d.pendingActions != [] && !d.offerPending && rest == Live(d.pendingActions[1..], d.pendingPublishes)
    ensures
      var next := TakenUp(d);
      next.fences + FencesOf(rest, next.nextId) ==
        d.fences + FencesOf(Live(d.pendingActions, d.pendingPublishes), d.nextId)
  {
    var q := d.pendingActions;
    if q[0].SubscribeAction? || LivePublish(q[0], d.pendingPublishes) {
      assert Live(q, d.pendingPublishes) == [q[0]] + rest && ([q[0]] + rest)[1..] == rest;
    } else {
      assert Live(q, d.pendingPublishes) == rest;
    }
  }
}
