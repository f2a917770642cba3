/**
 The orchestrator: one event at a time, each followed by `Settle`
 (src/orchestrator/mod.rs, connection.rs).
 */
module Orchestrator {
  import opened Collections
  import opened Wrappers
  import opened Shard
  import opened Tables
  import opened Updates
  import opened Commands
  import opened Lifecycle
  import opened Offers
  import opened Steps
  import opened Protocol
  import opened Answers
  import opened ControlPlane
  import opened Negotiation
  import opened Subscriptions
  import opened Orchestration
  import opened Guarantees

  /** What the orchestrator is woken by: signaling, the data plane, and its timers. */
  datatype Event =
    | ParticipantConnected(p: Pid)
    | JoinRequest(p: Pid, room: Room)
    | PublishRequest(p: Pid, kinds: seq<Option<Kind>>, contents: nat)
    | AnswerMessage(p: Pid, answer: Option<Answer>)
    | SubscribeRequest(p: Pid, tracks: seq<Tid>)
    | UnsubscribeRequest(p: Pid, tracks: seq<Tid>)
    | UnpublishRequest(p: Pid, tracks: seq<Tid>)
    | LeaveRequest(p: Pid)
    | ParticipantDisconnected(p: Pid)
    | DataplaneBatch(events: seq<PlaneEvent>)
    | DtlsTick(handshaking: seq<Sid>)
    | SweepTick(expired: seq<(Sid, Reason)>)

  /** What the data plane sends. */
  datatype PlaneEvent =
    | HandshakeEvent(id: Sid)
    | PeerSrtpVerified(id: Sid)
    | ConsentLost(id: Sid)
    | CommandRejected(session: Option<Sid>, reason: Reject)

  /** The most data-plane events that are received at once. */
  const EVENT_BATCH: nat := 256

  class SessionOrchestrator {
    var sessions: map<Pid, Handle>
    const negotiation: NegotiationManager
    const subscription: SubscriptionManager
    const plane: Plane

    ghost function W(): World
      reads this, negotiation, plane
    {
      World(sessions, negotiation.states, plane.view)
    }

    /** All tables agree with each other and with the shard, but for what `k` allows. */
    ghost predicate Sane(k: Slack)
      reads this, negotiation, subscription, plane
    {
      Sound(W(), k) && Accord(W(), subscription.states) && Mirrored(W())
    }

    /** What holds between events. */
    ghost predicate Settled()
      reads this, negotiation, subscription, plane
    {
      Sane(SETTLED) && plane.view.closing == []
    }

    constructor ()
      ensures Settled() && sessions == map[] && fresh(negotiation) && fresh(subscription) && fresh(plane)
      ensures plane.view == NEW_PLANE
    {
      sessions := map[];
      negotiation := new NegotiationManager();
      subscription := new SubscriptionManager();
      plane := new Plane();
      new;
      NothingYet(W());
    }

    // ── Tracks that went away ──────────────────────────────────────

    /** Everybody affected is offered its set, without the tracks that are gone. */
    method OfferAffected(affected: set<Pid>, ghost k: Slack)
      requires Sound(W(), k) && Calm(k) && AccordBut(W(), subscription.states, affected) && Mirrored(W())
      modifies negotiation, plane
      ensures Sane(k) && plane.view.refused >= old(plane.view).refused && plane.view.tracks == old(plane.view).tracks
    {
      var todo := affected;
      while todo != {}
        invariant Sound(W(), k) && AccordBut(W(), subscription.states, todo) && Mirrored(W())
        invariant plane.view.refused >= old(plane.view).refused && plane.view.tracks == old(plane.view).tracks
      {
        var p :| p in todo;
        OfferOne(p, todo, k);
        todo := todo - {p};
      }
      AllOffered(W(), subscription.states);
    }

    method OfferOne(p: Pid, ghost todo: set<Pid>, ghost k: Slack)
      requires Sound(W(), k) && Calm(k) && AccordBut(W(), subscription.states, todo) && Mirrored(W()) && p in todo
      modifies negotiation, plane
      ensures Sound(W(), k) && AccordBut(W(), subscription.states, todo - {p}) && Mirrored(W())
      ensures plane.view.refused >= old(plane.view).refused && plane.view.tracks == old(plane.view).tracks
    {
      ghost var w := W();
      Present(w, p, k);
      AlmostFacts(w, subscription.states, todo, p);
      var ids := TrackIds(subscription.states[p]);
      SetInRoom(w, p, subscription.states[p]);
      negotiation.RequestRenegotiation(p, ids, sessions, plane, k);
      OneOffered(w, W(), subscription.states, todo, p);
      RequestedMirrored(w, W(), p, ids);
    }

    /** `w` and `subs` are the tables before the tracks were removed. */
    method OnTracksRemoved(tracks: set<Tid>, ghost w: World, ghost subs: map<Pid, seq<Subscription>>, ghost k: Slack)
      requires Calm(k) && Sound(W(), k.(gone := tracks)) && Mirrored(W())
      requires Accord(w, subs) && TracksGone(w, W(), tracks)
      requires subscription.states.Keys == negotiation.states.Keys && forall q :: q in subscription.states ==>
        q in subs && subscription.states[q] == subs[q]
      modifies negotiation, subscription, plane
      ensures Sane(k) && plane.view.refused >= old(plane.view).refused && plane.view.tracks == old(plane.view).tracks
      ensures tracks == {} ==> plane.view == old(plane.view) && negotiation.states == old(negotiation.states)
    {
      ghost var (a, left) := (W(), subscription.states);
      if tracks == {} {
        NothingForgotten(w, a, subs, left);
        assert k.(gone := {}) == k;
        return;
      }
      var lines := negotiation.ForgetTracks(tracks);
      var sets := subscription.ForgetTracks(tracks);
      ForgetStep(a, W(), k.(gone := tracks), k);
      ForgottenAccord(w, a, W(), subs, left, tracks, lines + sets);
      OfferAffected(lines + sets, k);
    }

    // ── Leaving ────────────────────────────────────────────────────

    /** The participant leaves every table; subscribers of its tracks are offered without them. */
    method CleanupParticipant(p: Pid, ghost k: Slack)
      requires Sane(k) && Calm(k)
      modifies this, negotiation, subscription, plane
      ensures Sane(k) && sessions == old(sessions) - {p}
        && plane.view.tracks == old(plane.view).tracks - TracksBy(old(plane.view).tracks, p)
      ensures p !in old(sessions) ==> plane.view == old(plane.view) && negotiation.states == old(negotiation.states)
    {
      ghost var (w, subs) := (W(), subscription.states);
      Present(w, p, k);
      AgreedFacts(w, subs, p);
      subscription.CleanupParticipant(p);
      var removed := negotiation.CleanupParticipant(p, sessions, plane, k);
      sessions := sessions - {p};
      if p in w.neg {
        LeaveStep(w, W(), p, k);
        LeftGone(w, W(), p, removed, k);
      } else {
        NobodyLeft(w, W(), p, k);
      }
      PublisherTracks(w, p, k);
      OnTracksRemoved(removed, w, subs, k);
    }

    /** A participant whose session failed is told why, and leaves. */
    method CloseParticipant(p: Pid, reason: Reason, ghost k: Slack)
      requires Sane(k) && Calm(k)
      modifies this, negotiation, subscription, plane
      ensures Sane(k.(taken := k.taken - {p})) && sessions == old(sessions) - {p}
      ensures p !in old(sessions) ==> plane.view.closing == old(plane.view).closing
    {
      ghost var l := k.(taken := k.taken - {p});
      Present(W(), p, k);
      if p in sessions {
        ghost var w := W();
        plane.Tell(sessions, p, Error(Closed(reason)));
        TellStep(w, p, Error(Closed(reason)), k);
        PlaneAccord(w, W(), subscription.states);
        CleanupParticipant(p, k);
        Present(W(), p, k);
      } else {
        assert sessions - {p} == sessions;
      }
      ghost var a := W();
      plane.view := plane.view.(lost := plane.view.lost - {p}, dropped := plane.view.dropped - {p});
      AbsentStep(a, W(), p, k, l);
      PlaneAccord(a, W(), subscription.states);
    }

    /** Closes everybody on a list that was taken; a round in which nobody leaves records nobody. */
    method CloseAll(closing: seq<Closing>)
      requires Sane(SETTLED.(taken := Participants(closing))) && plane.view.closing == []
      modifies this, negotiation, subscription, plane
      ensures Sane(SETTLED) && sessions.Keys == old(sessions).Keys - Participants(closing)
      ensures sessions.Keys == old(sessions).Keys ==> plane.view.closing == []
      ensures closing == [] ==> W() == old(W()) && subscription.states == old(subscription.states)
    {
      assert Participants(closing[0..]) == Participants(closing) by {
        assert closing[0..] == closing;
      }
      for i := 0 to |closing|
        invariant Sane(SETTLED.(taken := Participants(closing[i..])))
        invariant sessions.Keys == old(sessions).Keys - Participants(closing[..i])
        invariant sessions.Keys == old(sessions).Keys ==> plane.view.closing == []
        invariant i == 0 ==> W() == old(W()) && subscription.states == old(subscription.states)
      {
        ghost var k := SETTLED.(taken := Participants(closing[i..]));
        CloseParticipant(closing[i].participant, closing[i].reason, k);
        ListStep(closing, i);
        TakenMore(W(), k.(taken := k.taken - {closing[i].participant}),
          SETTLED.(taken := Participants(closing[i + 1..])));
      }
      assert closing[|closing|..] == [] && closing[..|closing|] == closing;
      assert Participants([]) == {};
    }

    /** One round: the list is taken, and everybody on it closed. */
    method SettleRound() returns (closing: seq<Closing>)
      requires Sane(SETTLED)
      modifies this, negotiation, subscription, plane
      ensures Sane(SETTLED) && closing == old(plane.view).closing
        && sessions.Keys == old(sessions).Keys - Participants(closing)
      ensures closing == [] ==> W() == old(W()) && subscription.states == old(subscription.states)
      ensures plane.view.closing == [] || |sessions.Keys| < |old(sessions).Keys|
    {
      ghost var (w, keys) := (W(), sessions.Keys);
      closing := plane.TakeClosing();
      TakeStep(w, W());
      PlaneAccord(w, W(), subscription.states);
      CloseAll(closing);
      if sessions.Keys != keys {
        SmallerSet(sessions.Keys, keys);
      }
      if closing == [] {
        assert Participants(closing) == {};
      }
    }

    /**
     Works off the closing list. The source's bound of one round more than there are
     participants is enough: the list is empty afterwards, and whoever was on it is gone.
     */
    method Settle()
      requires Sane(SETTLED)
      modifies this, negotiation, subscription, plane
      ensures Settled() && sessions.Keys <= old(sessions).Keys
      ensures Participants(old(plane.view).closing) !! sessions.Keys
      ensures old(plane.view).closing == [] ==> W() == old(W()) && subscription.states == old(subscription.states)
    {
      var n := |sessions.Keys|;
      ghost var listed := Participants(old(plane.view).closing);
      for round := 0 to n + 1
        invariant Sane(SETTLED) && sessions.Keys <= old(sessions).Keys
        invariant round == 0 || old(plane.view).closing == [] ==>
          W() == old(W()) && subscription.states == old(subscription.states)
        invariant round > 0 ==> listed !! sessions.Keys
        invariant plane.view.closing == [] || |sessions.Keys| + round <= n
      {
        var closing := SettleRound();
        assert listed !! sessions.Keys;
        if closing == [] {
          break;
        }
      }
    }

    // ── Signaling ──────────────────────────────────────────────────

    /** The source overwrites a participant that is already connected; ids are not reused while they are. */
    method HandleConnected(p: Pid)
      requires Sane(SETTLED) && p !in sessions
      modifies this, negotiation, subscription, plane
      ensures Sane(SETTLED) && (p != 0 ==> W() == Connected(old(W()), p))
      ensures p == 0 ==> W() == old(W()) && subscription.states == old(subscription.states)
    {
      if p == 0 {
        return;
      }
      ghost var w := W();
      Present(w, p, SETTLED);
      ConnectStep(w, Connected(w, p), p, subscription.states, SETTLED);
      ConnectAccord(w, Connected(w, p), p, subscription.states);
      sessions := sessions[p := Handle(None, [])];
      plane.view := plane.view.(outbox := plane.view.outbox[p := []], offers := plane.view.offers[p := []]);
      negotiation.AddParticipant(p);
      subscription.AddParticipant(p);
    }

    /** A message instead of a change. */
    method Refuse(p: Pid, code: ErrorCode)
      requires Sane(SETTLED)
      modifies plane
      ensures Sane(SETTLED) && plane.view == if p in sessions then Told(old(plane.view), p, Error(code))
        else old(plane.view)
    {
      ghost var w := W();
      plane.Tell(sessions, p, Error(code));
      TellStep(w, p, Error(code), SETTLED);
      PlaneAccord(w, W(), subscription.states);
    }

    /** One room per participant; whether the room exists, has space and is granted is not modelled. */
    method HandleJoin(p: Pid, room: Room)
      requires Sane(SETTLED) && p in sessions
      modifies this, plane
      ensures Sane(SETTLED)
      ensures W() == Joined(old(W()), p, room)
        || (sessions == old(sessions) && plane.view == Told(old(plane.view), p, Error(AlreadyInRoom)))
        || (sessions == old(sessions) && plane.view == Told(old(plane.view), p, Error(JoinFailed)))
      ensures old(sessions)[p].room.Some? ==> sessions == old(sessions)
    {
      if sessions[p].room.Some? {
        Refuse(p, AlreadyInRoom);
        return;
      }
      var granted: bool := *;
      if !granted {
        Refuse(p, JoinFailed);
        return;
      }
      ghost var w := W();
      Present(w, p, SETTLED);
      sessions := sessions[p := sessions[p].(room := Some(room))];
      JoinStep(w, W(), p, room);
      JoinAccord(w, W(), p, room, subscription.states);
    }

    method HandlePublish(p: Pid, requested: seq<Option<Kind>>, contents: nat)
      requires Sane(SETTLED) && p in sessions
      modifies negotiation, plane
      ensures Sane(SETTLED)
      ensures |requested| == contents ==>
        PublishAsked(old(W()), W(), p, Known(requested)) && PublishChoice(old(W()), W(), p, Known(requested))
      ensures |requested| != contents ==> W() == old(W())
    {
      ghost var w := W();
      Present(w, p, SETTLED);
      AgreedFacts(w, subscription.states, p);
      negotiation.HandlePublish(p, requested, contents, sessions, plane, SETTLED);
      if |requested| == contents {
        PublishAgrees(w, W(), p, Known(requested), subscription.states[p]);
        AccordKept(w, W(), subscription.states, p, subscription.states[p]);
        assert subscription.states[p := subscription.states[p]] == subscription.states;
      }
    }

    /** `None` is the empty SDP, which is ignored. */
    method HandleAnswer(p: Pid, answer: Option<Answer>) returns (ghost fate: Fate, ghost activated: seq<Tid>)
      requires Sane(SETTLED) && p in sessions
      modifies this, negotiation, subscription, plane
      ensures Sane(SETTLED) && sessions.Keys == old(sessions).Keys
      ensures answer.None? ==> W() == old(W()) && subscription.states == old(subscription.states)
      ensures answer.Some? ==>
        && AnswerHandled(old(W()), W().(sessions := old(sessions)), p, TrackIds(SetOf(old(subscription.states), p)),
             answer.value, activated, fate)
        && subscription.states == old(subscription.states)[p := Activate(SetOf(old(subscription.states), p), activated)]
    {
      fate, activated := Ignored, [];
      ghost var w := W();
      Present(w, p, SETTLED);
      AgreedFacts(w, subscription.states, p);
      if answer.None? {
        return;
      }
      ghost var ss := subscription.states[p];
      AgreesFollows(w, p, ss);
      var tracks, f := negotiation.HandleAnswer(p, answer.value, sessions, plane, TrackIds(ss), SETTLED);
      fate, activated := f, tracks;
      subscription.ActivateTracks(p, tracks);
      ghost var a := W();
      AnswerAgrees(w, a, p, answer.value, activated, fate, ss);
      AccordKept(w, a, old(subscription.states), p, subscription.states[p]);
      var published := if p in negotiation.states then negotiation.states[p].published else [];
      sessions := sessions[p := sessions[p].(published := published)];
      HandlesStep(a, W(), SETTLED);
      HandlesAccord(a, W(), subscription.states);
      AnswerMirrored(w, a, W(), p);
      assert W().(sessions := w.sessions) == a;
    }

    method HandleSubscribe(p: Pid, ids: seq<Tid>)
      requires Sane(SETTLED) && p in sessions
      modifies negotiation, subscription, plane
      ensures Sane(SETTLED)
      ensures exists accepted ::
        && subscription.states ==
             old(subscription.states)[p := SetOf(old(subscription.states), p) + Negotiated(accepted)]
        && SubscribeAsked(old(W()), W(), p, SetOf(old(subscription.states), p), ids, accepted)
    {
      ghost var w := W();
      Present(w, p, SETTLED);
      AgreedFacts(w, subscription.states, p);
      ghost var accepted := subscription.HandleSubscribe(p, ids, negotiation, sessions, plane, SETTLED);
      SubscribeMirrored(w, W(), p, old(subscription.states)[p], ids, accepted);
    }

    method HandleUnsubscribe(p: Pid, ids: seq<Tid>)
      requires Sane(SETTLED) && p in sessions
      modifies negotiation, subscription, plane
      ensures Sane(SETTLED)
      ensures exists removed ::
        && subscription.states ==
             old(subscription.states)[p := Retained(SetOf(old(subscription.states), p), Elements(removed))]
        && (forall t :: t in removed <==> t in ids && t in TrackIds(SetOf(old(subscription.states), p)))
        && UnsubscribeAsked(old(W()), W(), p, SetOf(subscription.states, p), removed)
    {
      ghost var w := W();
      Present(w, p, SETTLED);
      AgreedFacts(w, subscription.states, p);
      ghost var removed := subscription.HandleUnsubscribe(p, ids, negotiation, sessions, plane, SETTLED);
      UnsubscribeMirrored(w, W(), p, subscription.states[p], removed);
    }

    // ── Unpublish ──────────────────────────────────────────────────

    /** One track of an unpublish request; `ok` is false when the queue refused. */
    method UnpublishTrack(p: Pid, t: Tid, removed: set<Tid>, ghost w: World) returns (ok: bool, more: set<Tid>)
      requires Sound(W(), SETTLED.(gone := removed)) && Unpublishing(w, W(), p, removed)
      modifies negotiation, plane
      ensures Sound(W(), SETTLED.(gone := more)) && Unpublishing(w, W(), p, more) && removed <= more
      ensures ok && t != 0 && t in TracksBy(w.plane.tracks, p) ==> t in more
      ensures p in sessions && t != 0 && t in old(plane.view).tracks && old(plane.view).tracks[t].publisher != p ==>
        more == removed && plane.view == Told(old(plane.view), p, Error(NotOwner))
      ensures !ok ==> plane.view.refused > old(plane.view).refused
    {
      ghost var (a, k) := (W(), SETTLED.(gone := removed));
      more := removed;
      if t == 0 || t !in plane.view.tracks {
        return true, more;
      }
      if plane.view.tracks[t].publisher != p {
        plane.Tell(sessions, p, Error(NotOwner));
        TellStep(a, p, Error(NotOwner), k);
        UnpublishTold(w, a, W(), p, removed);
        return true, more;
      }
      ok := plane.Push(RemoveTrack(t), p);
      if !ok {
        RefusedStep(a, plane.view, p, k);
        UnpublishTurned(w, a, W(), p, removed);
        return;
      }
      ghost var z := plane.view;
      PushFrame(a.plane, RemoveTrack(t), p, true, z);
      var mid := plane.view.tracks[t].mid;
      plane.view := plane.view.(tracks := plane.view.tracks - {t});
      negotiation.ReleasePublish(p, t, mid);
      more := removed + {t};
      RemoveTrackStep(a, W(), z, p, t, k);
      OneUnpublished(w, a, W(), z, p, t, removed);
    }

    /** The participant's own tracks of the first 32 ids, until the queue refuses. */
    method RemoveTracks(p: Pid, ids: seq<Tid>) returns (removed: set<Tid>)
      requires Sound(W(), SETTLED) && p in negotiation.states && p in sessions
      modifies negotiation, plane
      ensures Sound(W(), SETTLED.(gone := removed)) && Unpublishing(old(W()), W(), p, removed)
      ensures plane.view.refused > old(plane.view).refused || AllOwnGone(old(plane.view).tracks, p, ids, removed)
    {
      ghost var w := W();
      NothingUnpublished(w, p);
      removed := {};
      var i := 0;
      while i < |ids| && i < MAX_MEDIA_SECTIONS
        invariant 0 <= i <= |ids| && Sound(W(), SETTLED.(gone := removed)) && Unpublishing(w, W(), p, removed)
        invariant forall j :: 0 <= j < i && ids[j] != 0 && ids[j] in TracksBy(w.plane.tracks, p) ==> ids[j] in removed
      {
        var ok, more := UnpublishTrack(p, ids[i], removed, w);
        removed := more;
        if !ok {
          return;
        }
        i := i + 1;
      }
    }

    /** The removed tracks also leave the participant's handle. */
    method UnpublishTracks(p: Pid, ids: seq<Tid>) returns (removed: set<Tid>)
      requires Sound(W(), SETTLED) && Mirrored(W()) && p in sessions
      modifies this, negotiation, plane
      ensures Sound(W(), SETTLED.(gone := removed)) && Mirrored(W()) && TracksGone(old(W()), W(), removed)
      ensures removed <= TracksBy(old(plane.view).tracks, p) && negotiation.states.Keys == old(negotiation.states).Keys
      ensures sessions == old(sessions)[p := old(sessions)[p].(published := Kept(old(sessions)[p].published, removed))]
      ensures plane.view.refused > old(plane.view).refused || AllOwnGone(old(plane.view).tracks, p, ids, removed)
    {
      ghost var w := W();
      Present(w, p, SETTLED);
      removed := RemoveTracks(p, ids);
      ghost var a := W();
      sessions := sessions[p := sessions[p].(published := Kept(sessions[p].published, removed))];
      HandlesStep(a, W(), SETTLED.(gone := removed));
      UnpublishedGone(w, a, p, removed, SETTLED);
      UnpublishMirrored(w, a, W(), p, removed);
    }

    method HandleUnpublish(p: Pid, ids: seq<Tid>) returns (ghost removed: set<Tid>)
      requires Sane(SETTLED) && p in sessions
      modifies this, negotiation, subscription, plane
      ensures Sane(SETTLED) && removed <= TracksBy(old(plane.view).tracks, p)
        && plane.view.tracks == old(plane.view).tracks - removed
      ensures sessions == old(sessions)[p := old(sessions)[p].(published := Kept(old(sessions)[p].published, removed))]
      ensures plane.view.refused > old(plane.view).refused || AllOwnGone(old(plane.view).tracks, p, ids, removed)
    {
      ghost var (w, subs) := (W(), subscription.states);
      AgreedFacts(w, subs, p);
      var gone := UnpublishTracks(p, ids);
      removed := gone;
      OnTracksRemoved(gone, w, subs, SETTLED);
    }

    // ── Data-plane events and timers ───────────────────────────────

    /** The keys of a handshake that completed since `w`. */
    method InstallKeys(id: Sid, ghost w: World)
      requires Sound(W(), SETTLED) && id in plane.view.entries
      requires plane.view.entries[id].dtls == Complete && !plane.view.entries[id].srtpInstalled
      requires HandshakeMoved(w, W(), plane.view.entries[id].participant)
      modifies plane
      ensures Sound(W(), SETTLED) && id in plane.view.entries && plane.view.entries[id].dtls == Complete
      ensures
        var p := old(plane.view).entries[id].participant;
        && OnlyCloses(old(plane.view), plane.view, p) && HandshakeMoved(w, W(), p)
        && (Ending(plane.view, p) || KeysOn(plane.view, id))
    {
      ghost var b := W();
      ghost var p := plane.view.entries[id].participant;
      plane.InstallSrtp(id);
      EntryPresent(b, id, SETTLED);
      KeysInstalled(b.plane, plane.view, p, id);
      KeysClose(b.plane, plane.view, p, id);
      KeysStep(b, W(), p, id, SETTLED);
      KeysSteps(w, b, W(), p, id);
    }

    /** A call into the session's handshake and what it asks for: datagrams out, keys in, or the end. */
    method OnHandshake(id: Sid) returns (ghost fails: bool, ghost completes: bool)
      requires Sane(SETTLED)
      modifies plane
      ensures Sane(SETTLED) && PlaneOnly(old(W()), W())
      ensures id !in old(plane.view).entries ==> plane.view == old(plane.view)
      ensures id in old(plane.view).entries ==> HandshakeRan(old(W()), W(), id, fails, completes)
      ensures Progressed(old(plane.view), plane.view, 1)
    {
      fails, completes := false, false;
      if id !in plane.view.entries {
        return;
      }
      ghost var w := W();
      EntryPresent(w, id, SETTLED);
      var p := plane.view.entries[id].participant;
      var failed, completed, datagrams, to := plane.StepDtls(id);
      fails, completes := failed, completed;
      ghost var a := W();
      DtlsStep(w, a, id, to, completed, SETTLED);
      if failed {
        plane.CloseParticipant(p, DtlsFailed);
        RecordedIsClosing(a.plane.closing, p, DtlsFailed);
        assert OnlyCloses(w.plane, plane.view, p);
        CloseRequestStep(a, W(), p, DtlsFailed, SETTLED);
        HandshakeSteps(w, a, W(), p, id);
      } else {
        plane.SendDatagrams(id, datagrams);
        ghost var b := W();
        TurnedCloses(a.plane, plane.view, p);
        DatagramsStep(a, b, p, SETTLED);
        HandshakeSteps(w, a, b, p, id);
        if completed {
          InstallKeys(id, w);
          OnlyClosesTwice(a.plane, b.plane, plane.view, p);
        }
      }
      PlaneAccord(w, W(), subscription.states);
      OnlyClosesOne(w.plane, plane.view, p);
    }

    /** The peer's SRTP authenticated: a complete handshake is freed, any other is left alone. */
    method OnPeerSrtpVerified(id: Sid)
      requires Sane(SETTLED)
      modifies plane
      ensures Sane(SETTLED) && PlaneOnly(old(W()), W())
      ensures id in old(plane.view).entries && old(plane.view).entries[id].dtls == Complete ==>
        W() == WithEntry(old(W()), id, old(plane.view).entries[id].(dtls := Freed))
      ensures !(id in old(plane.view).entries && old(plane.view).entries[id].dtls == Complete) ==>
        plane.view == old(plane.view)
    {
      if id in plane.view.entries && plane.view.entries[id].dtls == Complete {
        ghost var w := W();
        plane.view := plane.view.(entries := plane.view.entries[id := plane.view.entries[id].(dtls := Freed)]);
        FreedStep(w, W(), id, SETTLED);
        PlaneAccord(w, W(), subscription.states);
      }
    }

    /** The session's participant is to be closed. */
    method OnSessionFailed(id: Sid, reason: Reason)
      requires Sane(SETTLED)
      modifies plane
      ensures Sane(SETTLED) && PlaneOnly(old(W()), W())
      ensures plane.view ==
        if id in old(plane.view).entries
          then CloseRequested(old(plane.view), old(plane.view).entries[id].participant, reason) else old(plane.view)
    {
      if id in plane.view.entries {
        ghost var w := W();
        var p := plane.view.entries[id].participant;
        plane.CloseParticipant(p, reason);
        CloseRequestStep(w, W(), p, reason, SETTLED);
        PlaneAccord(w, W(), subscription.states);
      }
    }

    /** A rejected command: unknown ids are expected after removals, anything else ends the session. */
    method OnRejected(id: Option<Sid>, reason: Reject)
      requires Sane(SETTLED)
      modifies plane
      ensures Sane(SETTLED) && PlaneOnly(old(W()), W())
      ensures !Serious(reason) ==> plane.view == old(plane.view)
      ensures id.None? || id.value !in old(plane.view).entries ==> plane.view == old(plane.view)
      ensures Serious(reason) && id.Some? && id.value in old(plane.view).entries ==>
        var p := old(plane.view).entries[id.value].participant;
        && plane.view == CloseRequested(old(plane.view), p, CloseReason(reason))
        && Ending(plane.view, p)
    {
      var close := Overloaded;
      match reason {
        case UnknownSession => return;
        case UnknownTrack => return;
        case UnknownSubscription => return;
        case TrackLimit =>
        case SubscriptionLimit =>
        case _ => close := Internal;
      }
      if id.Some? {
        ghost var v := plane.view;
        OnSessionFailed(id.value, close);
        if id.value in v.entries {
          RecordedIsClosing(v.closing, v.entries[id.value].participant, close);
        }
      }
    }

    /** Retransmissions of the running handshakes. */
    method PollDtls(handshaking: seq<Sid>)
      requires Sane(SETTLED)
      modifies plane
      ensures Sane(SETTLED) && PlaneOnly(old(W()), W())
    {
      for i := 0 to |handshaking|
        invariant Sane(SETTLED) && PlaneOnly(old(W()), W())
      {
        var _, _ := OnHandshake(handshaking[i]);
      }
    }

    /** Timed-out sessions are closed, and closes that did not fit are tried again. */
    method Sweep(expired: seq<(Sid, Reason)>)
      requires Sane(SETTLED)
      modifies plane
      ensures Sane(SETTLED) && PlaneOnly(old(W()), W())
      ensures plane.view.refused == old(plane.view).refused ==> plane.view.pendingClose == []
      ensures forall i :: 0 <= i < |expired| && expired[i].0 in old(plane.view).entries ==>
        Ending(plane.view, old(plane.view).entries[expired[i].0].participant)
      ensures |plane.view.closing| <= |old(plane.view).closing| + |expired|
    {
      for i := 0 to |expired|
        invariant Sane(SETTLED) && PlaneOnly(old(W()), W())
        invariant plane.view.refused == old(plane.view).refused && plane.view.entries == old(plane.view).entries
        invariant |plane.view.closing| <= |old(plane.view).closing| + i
        invariant forall j :: 0 <= j < i && expired[j].0 in plane.view.entries ==>
          Ending(plane.view, plane.view.entries[expired[j].0].participant)
      {
        ghost var v := plane.view;
        OnSessionFailed(expired[i].0, expired[i].1);
        if expired[i].0 in v.entries {
          RecordedIsClosing(v.closing, v.entries[expired[i].0].participant, expired[i].1);
          StillEnding(v, v.entries[expired[i].0].participant, expired[i].1);
        }
      }
      ghost var w := W();
      plane.RetryPendingCloses(w, SETTLED);
      assert W() == w.(plane := plane.view);
      PlaneAccord(w, W(), subscription.states);
    }

    // ── Runs ───────────────────────────────────────────────────────

    /** A message from a connected participant. */
    method HandleMessage(event: Event)
      requires Sane(SETTLED) && Message(event)
      modifies this, negotiation, subscription, plane
      ensures Sane(SETTLED)
      ensures event.p == 0 || event.p !in old(sessions) ==>
        W() == old(W()) && subscription.states == old(subscription.states)
      ensures event.p != 0 && event.p in old(sessions) ==>
        Dispatched(event, old(W()), old(subscription.states), W(), subscription.states)
    {
      if event.p == 0 || event.p !in sessions {
        return;
      }
      match event {
        case JoinRequest(p, room) => HandleJoin(p, room);
        case PublishRequest(p, kinds, contents) => HandlePublish(p, kinds, contents);
        case AnswerMessage(p, answer) => var _, _ := HandleAnswer(p, answer);
        case SubscribeRequest(p, tracks) => HandleSubscribe(p, tracks);
        case UnsubscribeRequest(p, tracks) => HandleUnsubscribe(p, tracks);
        case UnpublishRequest(p, tracks) => var _ := HandleUnpublish(p, tracks);
        case LeaveRequest(p) => CleanupParticipant(p, SETTLED);
      }
    }

    /** One event of the data plane. */
    method HandlePlaneEvent(event: PlaneEvent)
      requires Sane(SETTLED)
      modifies plane
      ensures Sane(SETTLED) && Progressed(old(plane.view), plane.view, 1)
      ensures forall p :: Fails(event, old(plane.view), p) ==> Ending(plane.view, p)
    {
      ghost var v := plane.view;
      match event {
        case HandshakeEvent(id) => var _, _ := OnHandshake(id);
        case PeerSrtpVerified(id) => OnPeerSrtpVerified(id);
        case ConsentLost(id) =>
          OnSessionFailed(id, ConsentExpired);
          if id in v.entries {
            CloseProgressed(v, v.entries[id].participant, ConsentExpired);
          }
        case CommandRejected(id, reason) =>
          OnRejected(id, reason);
          if id.Some? && id.value in v.entries && Serious(reason) {
            CloseProgressed(v, v.entries[id.value].participant, CloseReason(reason));
          }
      }
    }

    /** As many events as the channel held, before the closes they caused. */
    method HandleBatch(events: seq<PlaneEvent>)
      requires Settled()
      modifies plane
      ensures Sane(SETTLED) && sessions == old(sessions)
      ensures |events| <= EVENT_BATCH ==>
        forall i, p :: 0 <= i < |events| && Fails(events[i], old(plane.view), p) ==>
          p in Participants(plane.view.closing)
    {
      ghost var v := plane.view;
      for i := 0 to |events|
        invariant Sane(SETTLED) && Progressed(v, plane.view, i)
        invariant forall j, p :: 0 <= j < i && Fails(events[j], v, p) ==> Ending(plane.view, p)
      {
        ghost var u := plane.view;
        HandlePlaneEvent(events[i]);
        OneMore(v, u, plane.view, i, events[i]);
      }
      if |events| <= EVENT_BATCH {
        forall i, p | 0 <= i < |events| && Fails(events[i], v, p) ensures p in Participants(plane.view.closing) {
          assert Ending(plane.view, p);
        }
      }
    }

    /** Events of the data plane and the timers. */
    method HandleDataplane(event: Event)
      requires Settled() && !Message(event) && !event.ParticipantConnected? && !event.ParticipantDisconnected?
      modifies plane
      ensures Sane(SETTLED) && sessions == old(sessions)
      ensures forall p :: Leaves(event, old(plane.view), p) ==> p in Participants(plane.view.closing)
    {
      ghost var v := plane.view;
      match event {
        case DataplaneBatch(events) => HandleBatch(events);
        case DtlsTick(handshaking) => PollDtls(handshaking);
        case SweepTick(expired) =>
          Sweep(expired);
          forall p | Leaves(event, v, p) ensures p in Participants(plane.view.closing) {
            assert Ending(plane.view, p) && |plane.view.closing| < MAX_CLOSING;
          }
      }
    }

    /**
     One event, then the closes it caused: whoever left, lost consent, timed out or had a
     command rejected is gone when it returns.
     */
    method HandleEvent(event: Event)
      requires Settled()
      modifies this, negotiation, subscription, plane
      ensures Settled()
      ensures event.ParticipantConnected? && event.p != 0 ==> event.p in sessions
      ensures forall p :: Leaves(event, old(plane.view), p) ==> p !in sessions
      ensures plane.view.refused == 0 ==> Exact(W())
    {
      if Message(event) {
        HandleMessage(event);
      } else if event.ParticipantConnected? {
        if event.p !in sessions {
          HandleConnected(event.p);
        }
      } else if event.ParticipantDisconnected? {
        if event.p != 0 {
          CleanupParticipant(event.p, SETTLED);
        }
      } else {
        HandleDataplane(event);
      }
      Settle();
      if plane.view.refused == 0 {
        ShardRefinement(W());
      }
    }

    /** Any events in any order, with the queue refusing whenever it likes. */
    method Run(events: seq<Event>)
      requires Settled()
      modifies this, negotiation, subscription, plane
      ensures Settled()
      ensures plane.view.refused == 0 ==> Exact(W())
    {
      if plane.view.refused == 0 {
        ShardRefinement(W());
      }
      for i := 0 to |events|
        invariant Settled() && (plane.view.refused == 0 ==> Exact(W()))
      {
        HandleEvent(events[i]);
      }
    }
  }

  /** What each message does. */
  ghost predicate Dispatched(event: Event, w: World, subs: map<Pid, seq<Subscription>>, u: World, sets: map<Pid,
                             seq<Subscription>>)
    requires Message(event) && event.p in w.sessions
  {
    match event
    case JoinRequest(p, room) =>
      && sets == subs
      && (u == Joined(w, p, room)
           || (u.sessions == w.sessions && u.neg == w.neg && exists code :: u.plane == Told(w.plane, p, Error(code))))
      && (w.sessions[p].room.Some? ==> u.sessions == w.sessions)
    case PublishRequest(p, kinds, contents) =>
      && sets == subs
      && (if |kinds| == contents then PublishAsked(w, u, p, Known(kinds)) && PublishChoice(w, u, p, Known(kinds))
           else u == w)
    case AnswerMessage(p, answer) =>
      if answer.None? then u == w && sets == subs else
      exists fate, activated ::
        && AnswerHandled(w, u.(sessions := w.sessions), p, TrackIds(SetOf(subs, p)), answer.value, activated, fate)
        && sets == subs[p := Activate(SetOf(subs, p), activated)]
    case SubscribeRequest(p, ids) =>
      exists accepted ::
        sets == subs[p := SetOf(subs, p) + Negotiated(accepted)]
          && SubscribeAsked(w, u, p, SetOf(subs, p), ids, accepted)
    case UnsubscribeRequest(p, ids) =>
      exists removed ::
        && sets == subs[p := Retained(SetOf(subs, p), Elements(removed))]
           && UnsubscribeAsked(w, u, p, SetOf(sets, p), removed)
        && (forall t :: t in removed <==> t in ids && t in TrackIds(SetOf(subs, p)))
    case UnpublishRequest(p, ids) =>
      exists removed ::
        && removed <= TracksBy(w.plane.tracks, p) && u.plane.tracks == w.plane.tracks - removed
        && (u.plane.refused > w.plane.refused || AllOwnGone(w.plane.tracks, p, ids, removed))
        && u.sessions == w.sessions[p := w.sessions[p].(published := Kept(w.sessions[p].published, removed))]
    case LeaveRequest(p) =>
      u.sessions == w.sessions - {p} && u.plane.tracks == w.plane.tracks - TracksBy(w.plane.tracks, p)
  }

  /** Of the ids that one request may name, all that are tracks of `p` are among `removed`. */
  ghost predicate AllOwnGone(ts: map<Tid, Track>, p: Pid, ids: seq<Tid>, removed: set<Tid>) {
    forall i :: 0 <= i < |ids| && i < MAX_MEDIA_SECTIONS && ids[i] != 0 && ids[i] in TracksBy(ts, p) ==>
      ids[i] in removed
  }

  /** The event ends the session of `p`. */
  ghost predicate Fails(event: PlaneEvent, v: PlaneView, p: Pid) {
    match event
    case ConsentLost(id) => id in v.entries && v.entries[id].participant == p
    case CommandRejected(id, reason) =>
      Serious(reason) && id.Some? && id.value in v.entries && v.entries[id.value].participant == p
    case _ => false
  }

  function CloseReason(reason: Reject): Reason {
    if reason in {TrackLimit, SubscriptionLimit} then Overloaded else Internal
  }

  lemma CloseProgressed(v: PlaneView, p: Pid, reason: Reason)
    ensures Progressed(v, CloseRequested(v, p, reason), 1) && Ending(CloseRequested(v, p, reason), p)
  {
    assert OnlyCloses(v, CloseRequested(v, p, reason), p);
    OnlyClosesOne(v, CloseRequested(v, p, reason), p);
    RecordedIsClosing(v.closing, p, reason);
  }

  lemma OneMore(v: PlaneView, u: PlaneView, z: PlaneView, i: nat, event: PlaneEvent)
    requires Progressed(v, u, i) && Progressed(u, z, 1)
    requires forall p :: Fails(event, u, p) ==> Ending(z, p)
    ensures Progressed(v, z, i + 1)
    ensures forall p :: Fails(event, v, p) ==> Ending(z, p)
    ensures forall p :: Ending(u, p) ==> Ending(z, p)
  {
    forall p | Fails(event, v, p) ensures Ending(z, p) {
      assert Fails(event, u, p);
    }
  }

  /** Participants that are gone once the event has been handled. */
  ghost predicate Leaves(event: Event, v: PlaneView, p: Pid) {
    match event
    case LeaveRequest(q) => q == p && q != 0
    case ParticipantDisconnected(q) => q == p && q != 0
    case DataplaneBatch(events) =>
      |events| <= EVENT_BATCH && exists i :: 0 <= i < |events| && Fails(events[i], v, p)
    case SweepTick(expired) =>
      |expired| < MAX_CLOSING
        && exists i :: 0 <= i < |expired| && expired[i].0 in v.entries && v.entries[expired[i].0].participant == p
    case _ => false
  }

  /** A rejection that is not just of something already removed. */
  predicate Serious(reason: Reject) {
    reason !in {UnknownSession, UnknownTrack, UnknownSubscription}
  }

  predicate Message(event: Event) {
    || event.JoinRequest? || event.PublishRequest? || event.AnswerMessage? || event.SubscribeRequest?
    || event.UnsubscribeRequest? || event.UnpublishRequest? || event.LeaveRequest?
  }

  lemma NothingYet(w: World)
    requires w == World(map[], map[], NEW_PLANE)
    ensures Sound(w, SETTLED) && Accord(w, map[])
  {
    assert Zombies(w.plane) == {};
    assert Open(0);
    assert LookAgreed(0);
  }

  lemma SmallerSet<T>(small: set<T>, big: set<T>)
    requires small < big
    ensures |small| < |big|
  {
    var x :| x in big && x !in small;
    Subset(small, big - {x});
  }

  lemma ListStep(closing: seq<Closing>, i: nat)
    requires i < |closing|
    ensures Participants(closing[i..]) == Participants(closing[i + 1..]) + {closing[i].participant}
    ensures Participants(closing[..i + 1]) == Participants(closing[..i]) + {closing[i].participant}
  {
    var (a, b, c, d) := (closing[i..], closing[i + 1..], closing[..i], closing[..i + 1]);
    assert a[0] == closing[i] && d[i] == closing[i];
    forall q | q in Participants(b) ensures q in Participants(a) {
      var j :| 0 <= j < |b| && b[j].participant == q;
      assert a[j + 1] == b[j];
    }
    forall q | q in Participants(a) && q != closing[i].participant ensures q in Participants(b) {
      var j :| 0 <= j < |a| && a[j].participant == q;
      assert b[j - 1] == a[j];
    }
    forall q | q in Participants(c) ensures q in Participants(d) {
      var j :| 0 <= j < |c| && c[j].participant == q;
      assert d[j] == c[j];
    }
    forall q | q in Participants(d) && q != closing[i].participant ensures q in Participants(c) {
      var j :| 0 <= j < |d| && d[j].participant == q;
      assert c[j] == d[j];
    }
  }

  /** More participants may be waited for than need to be. */
  lemma TakenMore(w: World, k: Slack, l: Slack)
    requires Sound(w, k) && l == k.(taken := l.taken) && k.taken <= l.taken
    ensures Sound(w, l)
  {
    assert Look(0);
    MoreBooks(w.plane, k.taken, l.taken);
    assert w.plane == w.plane.(closing := w.plane.closing);
    Rebooked(w, w, k, l);
  }

  lemma MoreBooks(v: PlaneView, taken: set<Pid>, more: set<Pid>)
    requires Books(v, taken) && taken <= more
    ensures Books(v, more)
  {
    assert Open(0);
  }

  ghost function SetOf(subs: map<Pid, seq<Subscription>>, p: Pid): seq<Subscription> {
    if p in subs then subs[p] else []
  }
}
