/**
 The SDK's client (sdk/src/client.ts): which request a reply answers, and which publish an
 error rejects. What it keeps and what each reply does to it is specified in `Publishes`.
 */
module Fences {
  import opened Collections
  import opened Wrappers
  import opened Line
  import opened Held
  import opened Publishes

  /** `id` is fenced, and is neither a publish nor an answer. */
  ghost predicate AnswersOther(fences: seq<Fence>, id: nat) {
    exists i :: 0 <= i < |fences| && fences[i].id == id && !fences[i].kind.PublishFence? && !fences[i].kind.AnswerFence?
  }

  /** The fences that are left when `r` has arrived. */
  ghost function Left(d: Desk, r: Reply): seq<nat>
    requires r.Pong? ==> d.fences != []
  {
    if r.Pong? then Ids(d.fences)[1..] else Ids(d.fences)
  }

  /** A request and its Ping behind everything. */
  function Posted(w: Wire, here: bool, id: nat): Wire {
    Put(Put(w, here, Request(id)), here, Ping(id))
  }

  class NexusClient {
    const signaling: SignalingTransport
    /** What the client keeps, as one record (see `Desk`). */
    var desk: Desk

    ghost predicate Linked()
      reads this, signaling
    {
      signaling.Valid() && SoundOn(signaling.wire, Ids(desk.fences), desk.nextId)
    }

    ghost predicate Valid()
      reads this, signaling
    {
      Linked() && Tidy(desk) && Calm(desk)
    }

    /** The fences match the Pings and Pongs under way, one to one and in order. */
    ghost predicate Matched()
      reads this, signaling
    {
      Linked() && InStepOn(signaling.wire, Ids(desk.fences))
    }

    /** And every error that can still arrive is of a fenced request. */
    ghost predicate Attributed()
      reads this, signaling
    {
      Linked() && ClearOn(signaling.wire, Ids(desk.fences))
    }

    constructor ()
      ensures Valid() && Attributed() && fresh(signaling) && desk == Empty(0)
      ensures !signaling.connected && signaling.wire == Wire([], [], [])
    {
      signaling := new SignalingTransport();
      desk := Empty(0);
      new;
      WireEmpty(0);
      TidyEmpty(0);
    }

    // ── Requests ─────────────────────────────────────────────────────

    /** The request and its Ping. */
    method SendFenced(id: nat)
      requires signaling.Valid()
      modifies signaling`wire
      ensures signaling.Valid() && signaling.wire == Posted(old(signaling.wire), signaling.Sending(), id)
    {
      signaling.Send(Request(id));
      signaling.Send(Ping(id));
    }

    /** A request with a Ping behind it. */
    method DoRequest(kind: FenceKind)
      requires Linked()
      modifies this, signaling`wire
      ensures Linked() && (Matched() <==> old(Matched())) && (old(Attributed()) ==> Attributed())
      ensures desk == Requested(old(desk), kind)
      ensures signaling.wire == Posted(old(signaling.wire), signaling.Sending(), old(desk).nextId)
    {
      var id := desk.nextId;
      ghost var (w, ids) := (signaling.wire, Ids(desk.fences));
      WireRequest(w, signaling.Sending(), ids, id);
      IdsMore(desk.fences, Fence(id, kind));
      SendFenced(id);
      desk := desk.(fences := desk.fences + [Fence(id, kind)], nextId := id + 1);
      assert KeptOn(w, ids, signaling.wire, Ids(desk.fences), desk.nextId);
    }

    /** Create, Join, Unsubscribe: requests of their own kind. */
    method Ask()
      requires Valid() && !desk.hung
      modifies this, signaling`wire
      ensures Valid() && (Matched() <==> old(Matched())) && (old(Attributed()) ==> Attributed())
      ensures desk == Requested(old(desk), RequestFence)
      ensures (old(Owned(desk)) ==> Owned(desk)) && (old(Listed(desk)) ==> Listed(desk))
    {
      RequestedKeeps(desk, RequestFence);
      DoRequest(RequestFence);
    }

    /** Held back while an offer is awaited, and nothing if the publish failed meanwhile. */
    method PublishTrack(track: MediaTrack)
      requires Linked()
      modifies this, signaling`wire
      ensures Linked() && (Matched() <==> old(Matched())) && (old(Attributed()) ==> Attributed())
      ensures desk == Tracked(old(desk), track)
      ensures desk.nextId == old(desk).nextId ==> signaling.wire == old(signaling.wire)
      ensures desk.nextId > old(desk).nextId ==>
        signaling.wire == Posted(old(signaling.wire), signaling.Sending(), old(desk).nextId)
    {
      if desk.offerPending {
        desk := desk.(pendingActions := desk.pendingActions + [PublishAction(track)]);
        return;
      }
      if track !in desk.pendingPublishes {
        return;
      }
      desk := desk.(localTracks := desk.localTracks + {track}, unattachedTracks := desk.unattachedTracks + [track],
                    offerPending := true, requests := desk.requests[track := desk.nextId]);
      DoRequest(PublishFence(track, false));
    }

    /**
     Not of a track that is published or about to be; it is pending at once, held back or not.
     Every publish's fence stays its own exactly when no earlier publish of the track is fenced.
     */
    method Publish(track: MediaTrack) returns (ok: bool)
      requires Valid() && !desk.hung
      modifies this, signaling`wire
      ensures Valid() && !desk.hung && (Matched() <==> old(Matched())) && (old(Attributed()) ==> Attributed())
      ensures desk == Asked(old(desk), track) && (ok <==> !Taken(old(desk), track))
      ensures ok ==> (Owned(desk) <==> Owned(old(desk)) && !Fenced(old(desk).fences, track))
      ensures old(Listed(desk)) ==> Listed(desk)
      ensures desk.nextId == old(desk).nextId ==> signaling.wire == old(signaling.wire)
      ensures desk.nextId > old(desk).nextId ==>
        signaling.wire == Posted(old(signaling.wire), signaling.Sending(), old(desk).nextId)
    {
      ghost var d := desk;
      TidyAsked(d, track);
      if track in desk.pendingPublishes || track in desk.localTracks {
        return false;
      }
      OwnedAsked(d, track);
      desk := desk.(pendingPublishes := desk.pendingPublishes + {track});
      PublishTrack(track);
      ListedGrown(d, desk);
      return true;
    }

    /** Held back like a publish. */
    method SubscribeChunk()
      requires Linked()
      modifies this, signaling`wire
      ensures Linked() && (Matched() <==> old(Matched())) && (old(Attributed()) ==> Attributed())
      ensures desk == Subscribed(old(desk))
      ensures desk.nextId == old(desk).nextId ==> signaling.wire == old(signaling.wire)
      ensures desk.nextId > old(desk).nextId ==>
        signaling.wire == Posted(old(signaling.wire), signaling.Sending(), old(desk).nextId)
    {
      if desk.offerPending {
        desk := desk.(pendingActions := desk.pendingActions + [SubscribeAction]);
        return;
      }
      DoRequest(SubscribeFence);
    }

    method Subscribe()
      requires Valid() && !desk.hung
      modifies this, signaling`wire
      ensures Valid() && (Matched() <==> old(Matched())) && (old(Attributed()) ==> Attributed())
      ensures desk == Subscribed(old(desk))
      ensures (old(Owned(desk)) ==> Owned(desk)) && (old(Listed(desk)) ==> Listed(desk))
      ensures desk.nextId > old(desk).nextId ==>
        signaling.wire == Posted(old(signaling.wire), signaling.Sending(), old(desk).nextId)
    {
      TidySubscribed(desk);
      RequestedKeeps(desk, SubscribeFence);
      SubscribeChunk();
    }

    /**
     What was held back, until nothing is left or an offer is awaited again; in the latter case
     the source's loop never ends, and in no other.
     */
    method RunPendingActions()
      requires Linked()
      modifies this, signaling`wire
      ensures Linked() && (Matched() <==> old(Matched())) && (old(Attributed()) ==> Attributed())
      ensures desk == Drained(old(desk))
      ensures !old(desk).offerPending && !old(desk).hung ==>
        (desk.hung <==> !Ends(Actions(old(desk).pendingActions, false, []), desk.pendingPublishes))
      ensures old(desk).pendingActions == [] ==> signaling.wire == old(signaling.wire)
    {
      ghost var d := desk;
      if !desk.offerPending && !desk.hung {
        DrainedHangs(d);
        DrainedKeeps(d);
        EndsExactly(desk.pendingActions, desk.pendingPublishes, []);
      }
      while desk.pendingActions != []
        invariant Linked() && (Matched() <==> old(Matched())) && (old(Attributed()) ==> Attributed())
        invariant Drained(desk) == Drained(d)
        invariant old(desk).pendingActions == [] ==> signaling.wire == old(signaling.wire)
        decreases |desk.pendingActions|
      {
        if desk.offerPending {
          desk := desk.(hung := true);
          return;
        }
        ghost var e := desk;
        var action := desk.pendingActions[0];
        desk := desk.(pendingActions := desk.pendingActions[1..]);
        if action.SubscribeAction? {
          SubscribeChunk();
        } else {
          PublishTrack(action.track);
        }
        assert desk == TakenUp(e);
      }
    }

    /** The tracks that the browser found m-lines for, and the answer. */
    method SendAnswer(tracks: seq<MediaTrack>)
      requires Linked()
      modifies this, signaling`wire
      ensures Linked() && (Matched() <==> old(Matched())) && (old(Attributed()) ==> Attributed())
      ensures desk == AnswerSent(old(desk), tracks)
      ensures signaling.wire == Posted(old(signaling.wire), signaling.Sending(), old(desk).nextId)
    {
      var attached := set t | t in tracks;
      desk := desk.(unattachedTracks := WithoutTracks(desk.unattachedTracks, attached),
                    attachedTracks := desk.attachedTracks + (map t | t in attached :: desk.nextId),
                    serverQueued := WithoutTracks(desk.serverQueued, attached));
      DoRequest(AnswerFence(tracks));
      desk := desk.(offerPending := false, owed := desk.owed[desk.nextId - 1 := tracks]);
    }

    /** The answer to an offer, and then what was held back. */
    method AnswerOffer(tracks: seq<MediaTrack>)
      requires Valid() && !desk.hung && NoDup(tracks) && forall t :: t in tracks ==> t in desk.unattachedTracks
      modifies this, signaling`wire
      ensures Valid() && (Matched() <==> old(Matched())) && (old(Attributed()) ==> Attributed())
      ensures desk == Answered(old(desk), tracks)
      ensures desk.hung <==> !Ends(Actions(old(desk).pendingActions, false, []), old(desk).pendingPublishes)
      ensures (old(Owned(desk)) ==> Owned(desk)) && (old(Listed(desk)) ==> Listed(desk))
      ensures old(desk).pendingActions == [] ==>
        signaling.wire == Posted(old(signaling.wire), signaling.Sending(), old(desk).nextId)
    {
      AnsweredFacts(desk, tracks);
      SendAnswer(tracks);
      DrainedKeeps(desk);
      RunPendingActions();
    }

    /** A registered track: no publish of it is pending and no answer counts on it. */
    method Unpublish(track: MediaTrack)
      requires Valid() && !desk.hung && track in desk.attachedTracks && !Awaited(desk.fences, track)
      modifies this, signaling`wire
      ensures Valid() && (Matched() <==> old(Matched())) && (old(Attributed()) ==> Attributed())
      ensures desk == Unpublished(old(desk), track)
      ensures (old(Owned(desk)) ==> Owned(desk)) && (old(Listed(desk)) ==> Listed(desk))
    {
      TidyUnpublished(desk, track);
      UnpublishedKeeps(desk, track);
      desk := desk.(localTracks := desk.localTracks - {track}, attachedTracks := desk.attachedTracks - {track});
      DoRequest(RequestFence);
    }

    /** The keepalive Ping has a fence too: its Pong answers no request. */
    method Keepalive()
      requires Valid() && !desk.hung
      modifies this, signaling`wire
      ensures Valid() && (Matched() <==> old(Matched())) && (old(Attributed()) ==> Attributed())
      ensures desk == Requested(old(desk), KeepaliveFence)
      ensures (old(Owned(desk)) ==> Owned(desk)) && (old(Listed(desk)) ==> Listed(desk))
    {
      RequestedKeeps(desk, KeepaliveFence);
      var id := desk.nextId;
      WirePing(signaling.wire, signaling.Sending(), Ids(desk.fences), id);
      signaling.Send(Ping(id));
      IdsMore(desk.fences, Fence(id, KeepaliveFence));
      desk := desk.(fences := desk.fences + [Fence(id, KeepaliveFence)], nextId := id + 1);
    }

    /** `send`: a message without a fence. */
    method SendUnfenced()
      requires Valid()
      modifies signaling`wire
      ensures Valid() && (Matched() <==> old(Matched())) && (old(Attributed()) ==> Attributed())
    {
      WirePlain(signaling.wire, signaling.Sending(), Ids(desk.fences), desk.nextId);
      signaling.Send(Unfenced);
    }

    // ── The connection ───────────────────────────────────────────────

    /**
     The connection is gone: so are its fences, and the Pings that were queued. Requests that
     were queued stay, and then their errors come without a fence.
     */
    method OnDisconnected()
      requires Valid() && signaling.connected
      modifies this, signaling
      ensures Valid() && Matched() && desk == Disconnected(old(desk))
      ensures Attributed() <==> !HasRequest(old(signaling.wire).queue)
      ensures signaling.connected && !signaling.authenticated
      ensures signaling.wire == Wire([], [], WithoutPings(old(signaling.wire).queue))
    {
      TidyDisconnected(desk);
      WireClosed(signaling.wire, Ids(desk.fences), desk.nextId);
      signaling.OnClose();
      desk := desk.(fences := [], serverQueued := []);
      signaling.DropPings();
      assert Ids(desk.fences) == [];
    }

    method Close()
      requires Valid()
      modifies this, signaling
      ensures Valid() && Matched() && Attributed() && desk == Empty(old(desk).nextId)
    {
      signaling.Close();
      WireEmpty(desk.nextId);
      TidyEmpty(desk.nextId);
      desk := Empty(desk.nextId);
    }

    /**
     A new socket silently replaces the current one. The fences match afterwards exactly when
     there are as many as Pings queued: on an open connection, when there are none.
     */
    method Connect()
      requires Valid()
      modifies signaling
      ensures Valid() && (Matched() <==> |desk.fences| == |Tags(MsgMarks(old(signaling.wire).queue))|)
      ensures old(signaling.Sending()) ==> (Matched() <==> desk.fences == [])
      ensures Matched() ==> old(Matched())
      ensures Matched() && old(Attributed()) ==> Attributed()
      ensures signaling.connected && !signaling.authenticated
        && signaling.wire == Wire([], [], old(signaling.wire).queue)
    {
      WireReplaced(signaling.wire, Ids(desk.fences), desk.nextId);
      signaling.Connect();
    }

    /** `auth_ok`: what was queued goes out. */
    method OnAuthenticated()
      requires Valid() && signaling.connected && !signaling.authenticated
      modifies signaling
      ensures Valid() && (Matched() <==> old(Matched())) && (old(Attributed()) ==> Attributed())
      ensures signaling.Sending() && signaling.wire == Wire([], old(signaling.wire).queue, [])
    {
      WireFlushed(signaling.wire.queue, Ids(desk.fences), desk.nextId);
      signaling.OnAuthenticated();
    }

    // ── Replies ──────────────────────────────────────────────────────

    /**
     The track can be published again; the last one that waited for an offer stops the waiting.
     The answers' lists stay right exactly when none of them counts on the track.
     */
    method FailPublish(track: MediaTrack)
      requires Valid() && !desk.hung
      modifies this, signaling`wire
      ensures Valid() && (Matched() <==> old(Matched())) && (old(Attributed()) ==> Attributed())
      ensures desk == Failed(old(desk), track)
      ensures old(Owned(desk)) ==> Owned(desk)
      ensures old(Listed(desk)) ==> (Listed(desk) <==> !Awaited(old(desk).fences, track))
      ensures old(desk).pendingActions == [] ==> signaling.wire == old(signaling.wire) && desk.pendingActions == []
    {
      ghost var d := desk;
      FailedFacts(d, track);
      desk := desk.(pendingPublishes := desk.pendingPublishes - {track}, localTracks := desk.localTracks - {track},
                    fences := ForgetIn(desk.fences, track), serverQueued := WithoutTracks(desk.serverQueued, {track}),
                    requests := desk.requests - {track});
      if track in desk.unattachedTracks {
        desk := desk.(unattachedTracks := WithoutTracks(desk.unattachedTracks, {track}));
        if desk.unattachedTracks == [] && desk.offerPending {
          desk := desk.(offerPending := false);
          RunPendingActions();
          if desk.hung {
            return;
          }
        }
      } else {
        NotWithout(desk.unattachedTracks, track);
      }
      desk := desk.(attachedTracks := desk.attachedTracks - {track});
    }

    method FailAll(tracks: seq<MediaTrack>)
      requires Valid()
      modifies this, signaling`wire
      ensures Valid() && (Matched() <==> old(Matched())) && (old(Attributed()) ==> Attributed())
      ensures desk == FailedAll(old(desk), tracks)
      ensures old(desk).pendingActions == [] ==> signaling.wire == old(signaling.wire) && desk.pendingActions == []
    {
      assert tracks[0..] == tracks;
      for i := 0 to |tracks|
        invariant Valid() && (Matched() <==> old(Matched())) && (old(Attributed()) ==> Attributed())
        invariant FailedAll(desk, tracks[i..]) == FailedAll(old(desk), tracks)
        invariant old(desk).pendingActions == [] ==> signaling.wire == old(signaling.wire) && desk.pendingActions == []
      {
        if desk.hung {
          return;
        }
        assert tracks[i..][1..] == tracks[i + 1..];
        FailPublish(tracks[i]);
      }
    }

    /** An error goes to the request at the head. */
    method HandleError(code: Code)
      requires Valid() && !desk.hung
      modifies this, signaling`wire
      ensures Valid() && (Matched() <==> old(Matched())) && (old(Attributed()) ==> Attributed())
      ensures desk == FailedAll(old(desk), Rejects(old(desk), code))
      ensures old(desk).pendingActions == [] ==> signaling.wire == old(signaling.wire) && desk.pendingActions == []
    {
      if desk.fences == [] {
        return;
      }
      var head := desk.fences[0];
      if head.kind.PublishFence? && code in PUBLISH_REFUSALS {
        OneFailed(desk, head.kind.track);
        FailPublish(head.kind.track);
      } else if head.kind.AnswerFence? {
        if code in MLINE_REFUSALS && head.kind.tracks != [] {
          OneFailed(desk, head.kind.tracks[0]);
          FailPublish(head.kind.tracks[0]);
        } else if code in PUBLISH_REFUSALS {
          FailAll(desk.serverQueued);
        }
      }
    }

    /** The replies to the oldest fenced request are complete. The line is already past the Pong. */
    method HandlePong()
      requires signaling.Valid() && desk.fences != [] && !desk.hung
        && SoundOn(signaling.wire, Ids(desk.fences)[1..], desk.nextId)
      requires Tidy(desk) && Calm(desk)
      modifies this, signaling`wire
      ensures Valid() && (Matched() <==> old(InStepOn(signaling.wire, Ids(desk.fences)[1..])))
      ensures old(ClearOn(signaling.wire, Ids(desk.fences)[1..])) ==> Attributed()
      ensures desk == Ended(old(desk))
      ensures old(desk).pendingActions == [] ==> signaling.wire == old(signaling.wire) && desk.pendingActions == []
    {
      TidyEnded(desk);
      TidyPopped(desk);
      var fence := desk.fences[0];
      desk := desk.(fences := desk.fences[1..]);
      assert Ids(desk.fences) == Ids(old(desk).fences)[1..];
      if fence.kind.PublishFence? && !fence.kind.offered && fence.kind.track in desk.pendingPublishes {
        desk := desk.(serverQueued := desk.serverQueued + [fence.kind.track]);
      } else if fence.kind.AnswerFence? {
        FailAll(fence.kind.tracks);
      }
    }

    /** An offer among the replies to a publish is noted before the Pong. */
    method HandleOffer()
      requires Valid()
      modifies this
      ensures Valid() && Ids(desk.fences) == Ids(old(desk).fences) && desk == Offered(old(desk))
    {
      TidyOffered(desk);
      if desk.fences != [] && desk.fences[0].kind.PublishFence? {
        desk := desk.(fences := desk.fences[0 := desk.fences[0].(kind := desk.fences[0].kind.(offered := true))]);
      }
      assert Ids(desk.fences) == Ids(old(desk).fences);
    }

    /** A registered track is pending no longer, and no answer counts on it: a Pong cannot fail it any more. */
    method HandlePublished(id: nat, track: MediaTrack)
      requires Valid()
      modifies this
      ensures Valid() && Ids(desk.fences) == Ids(old(desk).fences) && desk == Registered(old(desk), id, track)
      ensures track in desk.attachedTracks && desk.attachedTracks[track] == id ==>
        track !in desk.pendingPublishes && !Awaited(desk.fences, track)
    {
      TidyRegistered(desk, id, track);
      if track !in desk.attachedTracks || desk.attachedTracks[track] != id {
        return;
      }
      desk := desk.(fences := ForgetIn(desk.fences, track), pendingPublishes := desk.pendingPublishes - {track},
                    requests := desk.requests - {track});
    }

    /** The history takes note of the SFU's reply. */
    method Report(id: nat, refused: Option<MediaTrack>)
      modifies this
      ensures desk == old(desk).(owed := Reported(old(desk).owed, id, refused))
    {
      desk := desk.(owed := Reported(desk.owed, id, refused));
    }

    /** An error of request `id`, which refuses the m-line of `refused`, if of one. */
    method OnError(id: nat, code: Code, refused: Option<MediaTrack>)
      requires Valid() && !desk.hung
      modifies this, signaling`wire
      ensures Valid() && (Matched() <==> old(Matched())) && (old(Attributed()) ==> Attributed())
      ensures desk == Replied(old(desk), ErrorOf(id, code, refused))
      ensures old(desk).pendingActions == [] ==> signaling.wire == old(signaling.wire) && desk.pendingActions == []
    {
      TidyOwed(desk, Reported(desk.owed, id, refused));
      ErrorIs(desk, id, code, refused);
      Report(id, refused);
      HandleError(code);
    }

    method OnPublished(id: nat, track: MediaTrack)
      requires Valid()
      modifies this
      ensures Valid() && (Matched() <==> old(Matched())) && (old(Attributed()) ==> Attributed())
      ensures desk == Replied(old(desk), Published(id, track)) && desk.pendingActions == old(desk).pendingActions
    {
      TidyOwed(desk, Settled(desk.owed, id, track));
      desk := desk.(owed := Settled(desk.owed, id, track));
      HandlePublished(id, track);
    }

    /** `handleMessage`, with the line already past the reply. */
    method Handle(r: Reply)
      requires signaling.Valid() && !desk.hung && Tidy(desk) && Calm(desk) && (r.Pong? ==> desk.fences != [])
      requires SoundOn(signaling.wire, Left(desk, r), desk.nextId)
      modifies this, signaling`wire
      ensures Valid() && desk == Replied(old(desk), r)
      ensures Matched() <==> old(InStepOn(signaling.wire, Left(desk, r)))
      ensures old(ClearOn(signaling.wire, Left(desk, r))) ==> Attributed()
      ensures old(desk).pendingActions == [] ==> signaling.wire == old(signaling.wire) && desk.pendingActions == []
    {
      match r {
        case Pong(_) => HandlePong();
        case ErrorOf(id, code, refused) => OnError(id, code, refused);
        case Offer => HandleOffer();
        case Published(id, track) => OnPublished(id, track);
        case Notice =>
      }
    }

    /**
     The oldest reply arrives. With the fences matched a Pong ends its own request, and an
     error of a fenced request finds that request's fence at the head; with all errors
     accounted for, every error does. If besides every publish's fence is its own, an error
     rejects a publish only if it answers that publish's request; and if the answers' lists are
     right, the refusal of an m-line rejects that m-line's track exactly when it is next.
     */
    method OnMessage() returns (r: Reply)
      requires Valid() && !desk.hung && signaling.authenticated && signaling.wire.down != []
      modifies this, signaling`wire
      ensures Valid() && (Matched() <==> old(Matched())) && (old(Attributed()) ==> Attributed())
      ensures r == old(signaling.wire).down[0]
      ensures desk == Replied(old(desk), r) && (r.Pong? ==> old(desk).fences != [])
      ensures old(Owned(desk)) ==> Owned(desk)
      ensures old(Listed(desk)) && InTurn(old(desk), r) ==> Listed(desk)
      ensures old(Attributed()) && Answers(r) ==> old(desk).fences != [] && old(desk).fences[0].id == r.id
      ensures old(Matched()) && Answers(r) && r.id in Ids(old(desk).fences) ==> old(desk).fences[0].id == r.id
      ensures old(Matched()) && r.Pong? ==> old(desk).fences[0].id == r.id
      ensures r.ErrorOf? ==> forall t :: t in old(desk).pendingPublishes && t !in desk.pendingPublishes ==>
        t in Rejects(old(desk), r.code)
      ensures r.ErrorOf? && !desk.hung ==>
        desk.pendingPublishes == old(desk).pendingPublishes - set t | t in Rejects(old(desk), r.code)
      ensures old(Matched()) && r.ErrorOf? && AnswersOther(old(desk).fences, r.id) ==>
        desk.pendingPublishes == old(desk).pendingPublishes
      ensures old(Owned(desk)) && ((old(Attributed()) && r.ErrorOf?) || (old(Matched()) && r.Pong?)) ==>
        OnlyItsOwn(old(desk), r.id)
      ensures old(Listed(desk) && Attributed()) && r.ErrorOf? && r.refused.Some? && r.code in MLINE_REFUSALS ==>
        RefusesNext(old(desk), r.id, r.code, r.refused.value)
      ensures old(desk).pendingActions == [] ==>
        desk.pendingActions == [] && signaling.wire == old(signaling.wire).(down := old(signaling.wire).down[1..])
    {
      ghost var d := desk;
      WireDelivered(signaling.wire, Ids(desk.fences), desk.nextId);
      OtherAtHead(d);
      r := signaling.Receive();
      WhatArrived(d, r);
      Handle(r);
    }

    /** The SFU handles the oldest message that reached it. */
    method SfuAnswers(replies: seq<Reply>)
      requires Valid() && signaling.wire.up != [] && Replies(signaling.wire.up[0], replies)
      modifies signaling`wire
      ensures Valid() && (Matched() <==> old(Matched())) && (old(Attributed()) ==> Attributed())
      ensures signaling.wire ==
        Wire(old(signaling.wire).down + replies, old(signaling.wire).up[1..], old(signaling.wire).queue)
    {
      WireAnswered(signaling.wire, replies, Ids(desk.fences), desk.nextId);
      signaling.SfuAnswers(replies);
    }

    // ── Runs ─────────────────────────────────────────────────────────

    /** What holds with these faults since the last disconnect or close. */
    ghost predicate Holds(f: Faults)
      reads this, signaling
    {
      && Valid() && (Matched() <==> !f.lost) && (!f.lost && !f.orphaned ==> Attributed())
      && (!f.reused ==> Owned(desk)) && (!f.unlisted ==> Listed(desk))
    }

    /**
     Any steps of the client, the socket and the SFU, in any order. Without faults every reply
     finds its own request's fence, every publish its own, and every answer's list is right;
     `AfterStep` says exactly which steps are faults. None of the first two happens on one
     connection.
     */
    method Run(steps: seq<ClientStep>) returns (ghost faults: Faults)
      requires Holds(NO_FAULTS)
      modifies this, signaling
      ensures Holds(faults)
      ensures (forall i :: 0 <= i < |steps| ==> !steps[i].SocketConnect? && !steps[i].SocketClosed?) ==> Attributed()
    {
      faults := NO_FAULTS;
      for i := 0 to |steps|
        invariant Holds(faults)
        invariant (forall j :: 0 <= j < i ==> !steps[j].SocketConnect? && !steps[j].SocketClosed?) ==>
          !faults.lost && !faults.orphaned
      {
        faults := TakeStep(steps[i], faults);
      }
    }

    /** A step that cannot happen does nothing; a client that goes round for ever takes none. */
    method TakeStep(step: ClientStep, ghost f: Faults) returns (ghost g: Faults)
      requires Holds(f)
      modifies this, signaling
      ensures Holds(g) && (old(desk).hung ==> g == f)
      ensures !old(desk).hung ==>
        g == AfterStep(f, step, old(desk), old(signaling.wire), old(signaling.connected), old(signaling.authenticated))
    {
      g := f;
      if desk.hung {
        return;
      }
      g := AfterStep(f, step, desk, signaling.wire, signaling.connected, signaling.authenticated);
      if Called(step) {
        TakeCall(step, f);
      } else {
        TakeLineStep(step, f);
      }
    }

    /** What the application asks for, and its timers. */
    method TakeCall(step: ClientStep, ghost f: Faults)
      requires Holds(f) && !desk.hung && Called(step)
      modifies this, signaling
      ensures Holds(AfterStep(f, step, old(desk), old(signaling.wire), old(signaling.connected),
                              old(signaling.authenticated)))
    {
      match step {
        case AskToPublish(track) => var _ := Publish(track);
        case SubscribeTracks => Subscribe();
        case AskOther => Ask();
        case AnswerTo(tracks) =>
          if NoDup(tracks) && forall t :: t in tracks ==> t in desk.unattachedTracks {
            AnswerOffer(tracks);
          }
        case UnpublishTrack(track) =>
          if track in desk.attachedTracks && !Awaited(desk.fences, track) {
            Unpublish(track);
          }
        case PublishTimeout(track) =>
          if track in desk.pendingPublishes {
            FailPublish(track);
          }
        case KeepaliveTick => Keepalive();
        case SendOther => SendUnfenced();
        case ClientClose =>
          Close();
          NothingFenced(desk);
      }
    }

    /** What the socket and the SFU do. */
    method TakeLineStep(step: ClientStep, ghost f: Faults)
      requires Holds(f) && !desk.hung && !Called(step)
      modifies this, signaling
      ensures Holds(AfterStep(f, step, old(desk), old(signaling.wire), old(signaling.connected),
                              old(signaling.authenticated)))
    {
      match step {
        case SfuReplies(replies) => TakeReplies(replies, f);
        case Arrival => TakeArrival(f);
        case SocketClosing => signaling.OnClosing();
        case SocketClosed => TakeDisconnect(f);
        case SocketConnect => TakeConnect(f);
        case SocketReady => TakeReady(f);
      }
    }

    method TakeReplies(replies: seq<Reply>, ghost f: Faults)
      requires Holds(f)
      modifies signaling`wire
      ensures Holds(f)
    {
      if signaling.wire.up != [] && Replies(signaling.wire.up[0], replies) {
        SfuAnswers(replies);
      }
    }

    method TakeReady(ghost f: Faults)
      requires Holds(f)
      modifies signaling
      ensures Holds(f)
    {
      if signaling.connected && !signaling.authenticated {
        OnAuthenticated();
      }
    }

    /** A reply out of turn leaves an answer's list wrong; nothing else does. */
    method TakeArrival(ghost f: Faults)
      requires Holds(f) && !desk.hung
      modifies this, signaling`wire
      ensures Holds(AfterStep(f, Arrival, old(desk), old(signaling.wire), old(signaling.connected),
                              old(signaling.authenticated)))
    {
      if signaling.authenticated && signaling.wire.down != [] {
        var _ := OnMessage();
      }
    }

    /** A disconnect leaves requests without their fence exactly if some were queued. */
    method TakeDisconnect(ghost f: Faults)
      requires Holds(f)
      modifies this, signaling
      ensures Holds(AfterStep(f, SocketClosed, old(desk), old(signaling.wire), old(signaling.connected),
                              old(signaling.authenticated)))
    {
      if signaling.connected {
        OnDisconnected();
        NothingFenced(desk);
      }
    }

    /** A new socket loses fences exactly if there are more than Pings queued. */
    method TakeConnect(ghost f: Faults)
      requires Holds(f)
      modifies signaling
      ensures Holds(f.(lost := |desk.fences| != |Tags(MsgMarks(old(signaling.wire).queue))|))
    {
      Connect();
    }
  }

  datatype ClientStep =
    | AskToPublish(track: MediaTrack)
    | SubscribeTracks
    | AskOther
    | AnswerTo(tracks: seq<MediaTrack>)
    | UnpublishTrack(track: MediaTrack)
    | PublishTimeout(track: MediaTrack)
    | KeepaliveTick
    | SendOther
    | SfuReplies(replies: seq<Reply>)
    | Arrival
    | SocketClosing
    | SocketClosed
    | SocketConnect
    | SocketReady
    | ClientClose

  /**
   What can go wrong between the last disconnect or close and now: fences lost with a replaced
   socket, requests left queued without theirs, a track published again while an earlier
   publish of it was fenced, and an answer's list that the SFU's replies do not follow.
   */
  datatype Faults = Faults(lost: bool, orphaned: bool, reused: bool, unlisted: bool)

  const NO_FAULTS := Faults(false, false, false, false)

  ghost function AfterStep(f: Faults, step: ClientStep, d: Desk, w: Wire, connected: bool,
                           authenticated: bool): Faults
  {
    match step
    case SocketConnect => f.(lost := |d.fences| != |Tags(MsgMarks(w.queue))|)
    case SocketClosed => if connected then Faults(false, HasRequest(w.queue), false, false) else f
    case ClientClose => NO_FAULTS
    case AskToPublish(t) => f.(reused := f.reused || (!Taken(d, t) && Fenced(d.fences, t)))
    case PublishTimeout(t) => f.(unlisted := f.unlisted || (t in d.pendingPublishes && Awaited(d.fences, t)))
    case Arrival => if authenticated && w.down != [] then f.(unlisted := f.unlisted || !InTurn(d, w.down[0])) else f
    case _ => f
  }

  /** A step of the application or its timers. */
  predicate Called(step: ClientStep) {
    !step.SfuReplies? && !step.Arrival? && !step.SocketClosing? && !step.SocketClosed? && !step.SocketConnect?
    && !step.SocketReady?
  }

  lemma NothingFenced(d: Desk)
    requires d.fences == []
    ensures Owned(d) && Listed(d)
  {
  }

  /** A publish's fence at the head is of request `id`, if the publish is pending. */
  ghost predicate OnlyItsOwn(d: Desk, id: nat) {
    d.fences != [] && d.fences[0].kind.PublishFence? && d.fences[0].kind.track in d.pendingPublishes ==>
      d.fences[0].kind.track in d.requests && d.requests[d.fences[0].kind.track] == id
  }

  /** With an answer's fence at the head, the refusal rejects `t` exactly if `t` is next. */
  ghost predicate RefusesNext(d: Desk, id: nat, code: Code, t: MediaTrack) {
    d.fences != [] && d.fences[0].kind.AnswerFence? && id in d.owed && t in d.owed[id] ==>
      (Rejects(d, code) == [t] <==> NextOwed(d, id, t))
  }

  lemma IdsMore(fences: seq<Fence>, f: Fence)
    ensures Ids(fences + [f]) == Ids(fences) + [f.id]
  {
  }

  lemma RequestedKeeps(d: Desk, kind: FenceKind)
    requires !kind.PublishFence? && !kind.AnswerFence?
    ensures Tidy(d) ==> Tidy(Requested(d, kind))
    ensures Calm(d) ==> Calm(Requested(d, kind))
    ensures Owned(d) ==> Owned(Requested(d, kind))
    ensures Listed(d) ==> Listed(Requested(d, kind))
  {
    if Tidy(d) {
      TidyRequested(d, kind);
    }
    assert Calm(d) ==> Calm(Requested(d, kind)) by {
      assert Peek(0);
    }
    if Owned(d) {
      OwnedRequested(d, kind);
    }
    ListedGrown(d, Requested(d, kind));
  }

  lemma UnpublishedKeeps(d: Desk, t: MediaTrack)
    ensures Owned(d) ==> Owned(Unpublished(d, t))
    ensures Listed(d) ==> Listed(Unpublished(d, t))
  {
    var a := d.(localTracks := d.localTracks - {t}, attachedTracks := d.attachedTracks - {t});
    assert (Owned(d) ==> Owned(a)) && (Listed(d) ==> Listed(a)) by {
      assert Peek(0);
    }
    RequestedKeeps(a, RequestFence);
  }

  lemma AnsweredFacts(d: Desk, tracks: seq<MediaTrack>)
    requires Tidy(d) && Calm(d) && !d.hung && NoDup(tracks) && forall t :: t in tracks ==> t in d.unattachedTracks
    ensures Tidy(Answered(d, tracks)) && Calm(Answered(d, tracks))
    ensures (Owned(d) ==> Owned(Answered(d, tracks))) && (Listed(d) ==> Listed(Answered(d, tracks)))
  {
    TidyAnswered(d, tracks);
    if Owned(d) {
      OwnedAnswered(d, tracks);
    }
    if Listed(d) {
      ListedAnswered(d, tracks);
    }
  }

  lemma FailedFacts(d: Desk, t: MediaTrack)
    requires Tidy(d) && Calm(d) && !d.hung
    ensures Tidy(Failed(d, t)) && Calm(Failed(d, t))
    ensures Owned(d) ==> Owned(Failed(d, t))
    ensures Listed(d) ==> (Listed(Failed(d, t)) <==> !Awaited(d.fences, t))
    ensures d.pendingActions == [] ==> Failed(d, t).pendingActions == []
  {
    TidyFailed(d, t);
    if Owned(d) {
      OwnedFailed(d, t);
    }
    if Listed(d) {
      ListedFailed(d, t);
    }
  }

  lemma ErrorIs(d: Desk, id: nat, code: Code, refused: Option<MediaTrack>)
    ensures
      var a := d.(owed := Reported(d.owed, id, refused));
      Replied(d, ErrorOf(id, code, refused)) == FailedAll(a, Rejects(a, code))
  {
  }

  lemma OneFailed(d: Desk, t: MediaTrack)
    requires !d.hung
    ensures FailedAll(d, [t]) == Failed(d, t)
  {
    assert [t][1..] == [];
  }

  lemma OtherAtHead(d: Desk)
    requires Tidy(d)
    ensures d.fences != [] && AnswersOther(d.fences, d.fences[0].id) ==>
      !d.fences[0].kind.PublishFence? && !d.fences[0].kind.AnswerFence?
    ensures forall id :: AnswersOther(d.fences, id) ==> id in Ids(d.fences)
  {
    assert Peek(0);
    var fences := d.fences;
    forall id | AnswersOther(fences, id) ensures id in Ids(fences) {
      var i :| 0 <= i < |fences| && fences[i].id == id;
      assert Ids(fences)[i] == id;
    }
    if fences != [] && AnswersOther(fences, fences[0].id) {
      var i :| 0 <= i < |fences| && fences[i].id == fences[0].id && !fences[i].kind.PublishFence?
        && !fences[i].kind.AnswerFence?;
      assert Ids(fences)[i] == Ids(fences)[0];
    }
  }

  /** What a reply does to publishes, fences and lists. */
  lemma WhatArrived(d: Desk, r: Reply)
    requires Tidy(d) && Calm(d) && !d.hung
    ensures Owned(d) ==> Owned(Replied(d, r))
    ensures Listed(d) && InTurn(d, r) ==> Listed(Replied(d, r))
    ensures r.ErrorOf? ==>
      && (forall t :: t in d.pendingPublishes && t !in Replied(d, r).pendingPublishes ==> t in Rejects(d, r.code))
      && Replied(d, r).pendingPublishes <= d.pendingPublishes
      && (!Replied(d, r).hung ==>
           Replied(d, r).pendingPublishes == d.pendingPublishes - set t | t in Rejects(d, r.code))
    ensures (r.ErrorOf? || r.Pong?) && Owned(d) && d.fences != [] && d.fences[0].id == r.id ==> OnlyItsOwn(d, r.id)
    ensures
      r.ErrorOf? && r.refused.Some? && Listed(d) && r.code in MLINE_REFUSALS && d.fences != []
        && d.fences[0].id == r.id ==>
        RefusesNext(d, r.id, r.code, r.refused.value)
  {
    if Owned(d) {
      OwnedReplied(d, r);
    }
    if Listed(d) && InTurn(d, r) {
      ListedReplied(d, r);
    }
    if r.ErrorOf? {
      var a := d.(owed := Reported(d.owed, r.id, r.refused));
      TidyOwed(d, a.owed);
      TidyFailedAll(a, Rejects(d, r.code));
    }
    HeadFacts(d, r);
  }

  lemma HeadFacts(d: Desk, r: Reply)
    ensures (r.ErrorOf? || r.Pong?) && Owned(d) && d.fences != [] && d.fences[0].id == r.id ==> OnlyItsOwn(d, r.id)
    ensures
      r.ErrorOf? && r.refused.Some? && Listed(d) && r.code in MLINE_REFUSALS && d.fences != []
        && d.fences[0].id == r.id ==>
        RefusesNext(d, r.id, r.code, r.refused.value)
  {
    assert Peek(0);
    if d.fences != [] && Listed(d) {
      assert ListedAt(d.fences[0], d.owed);
    }
  }

  // ── Errors that reject the wrong publish ─────────────────────────

  /** A client on an open connection, before any request. */
  method Ready() returns (c: NexusClient)
    ensures fresh(c) && fresh(c.signaling) && c.Holds(NO_FAULTS) && c.desk == Empty(0)
    ensures c.signaling.Sending() && c.signaling.wire.up == [] && c.signaling.wire.down == []
  {
    c := new NexusClient();
    c.Connect();
    c.OnAuthenticated();
  }

  /** It publishes a track. */
  method PublishedOnce(t: MediaTrack) returns (c: NexusClient)
    ensures fresh(c) && fresh(c.signaling) && c.Holds(NO_FAULTS) && c.desk == OncePublished(t)
    ensures c.signaling.Sending() && c.signaling.wire.up == [Request(0), Ping(0)] && c.signaling.wire.down == []
  {
    c := Ready();
    FirstPublish(t);
    var _ := c.Publish(t);
  }

  /** The publish times out before the SFU replied. */
  method TimedOut(t: MediaTrack) returns (c: NexusClient)
    ensures fresh(c) && fresh(c.signaling) && c.Holds(NO_FAULTS) && c.desk == FailedPublish(t)
    ensures c.signaling.Sending() && c.signaling.wire.up == [Request(0), Ping(0)] && c.signaling.wire.down == []
  {
    c := PublishedOnce(t);
    FirstFailure(t);
    c.FailPublish(t);
  }

  /** The same track is published again: its first fence is still there. */
  method PublishedTwice(t: MediaTrack) returns (c: NexusClient)
    ensures fresh(c) && fresh(c.signaling) && c.Valid() && c.Attributed() && c.signaling.Sending()
    ensures c.signaling.wire.up == [Request(0), Ping(0), Request(1), Ping(1)] && c.signaling.wire.down == []
    ensures c.desk == TwicePublished(t)
  {
    c := TimedOut(t);
    SecondPublish(t);
    var _ := c.Publish(t);
  }

  /**
   The refusal of the first request rejects the second publish, with the fences matched and
   every error accounted for.
   */
  method RepublishedTrackMisattributes(t: MediaTrack) returns (c: NexusClient, r: Reply)
    ensures r == ErrorOf(0, TooManyTracks, None) && TwicePublished(t).requests == map[t := 1]
      && !Owned(TwicePublished(t))
    ensures c.desk == Replied(TwicePublished(t), r) && t !in c.desk.pendingPublishes && c.Attributed()
  {
    c := PublishedTwice(t);
    SecondFailure(t);
    c.SfuAnswers([ErrorOf(0, TooManyTracks, None)]);
    r := c.OnMessage();
  }

  function OncePublished(t: MediaTrack): Desk {
    Desk([Fence(0, PublishFence(t, false))], [], {t}, {t}, [t], map[], [], true, false, 1, map[t := 0], map[])
  }

  function TwicePublished(t: MediaTrack): Desk {
    Desk([Fence(0, PublishFence(t, false)), Fence(1, PublishFence(t, false))], [], {t}, {t}, [t], map[],
         [], true, false, 2, map[t := 1], map[])
  }

  function FailedPublish(t: MediaTrack): Desk {
    OncePublished(t).(pendingPublishes := {}, localTracks := {}, unattachedTracks := [], offerPending := false,
                      requests := map[])
  }

  lemma FirstPublish(t: MediaTrack)
    ensures Asked(Empty(0), t) == OncePublished(t)
  {
  }

  lemma FirstFailure(t: MediaTrack)
    ensures Failed(OncePublished(t), t) == FailedPublish(t) && !Awaited(OncePublished(t).fences, t)
  {
    FailedAlone(OncePublished(t), t);
  }

  lemma SecondPublish(t: MediaTrack)
    ensures Asked(FailedPublish(t), t) == TwicePublished(t)
  {
  }

  lemma SecondFailure(t: MediaTrack)
    ensures
      var r := ErrorOf(0, TooManyTracks, None);
      Rejects(TwicePublished(t), TooManyTracks) == [t] && Replied(TwicePublished(t), r).pendingPublishes == {}
    ensures !Owned(TwicePublished(t))
  {
    var d := TwicePublished(t);
    FailedAlone(d, t);
    OneFailed(d, t);
    assert d.(owed := Reported(d.owed, 0, None)) == d;
    assert Peek(0);
    assert d.fences[0].kind.track == t;
  }

  /** The only track that waits fails, with nothing held back and no answers. */
  lemma FailedAlone(d: Desk, t: MediaTrack)
    requires d.unattachedTracks == [t] && d.offerPending && d.pendingActions == [] && !d.hung
      && d.attachedTracks == map[]
    requires d.serverQueued == [] && !Awaited(d.fences, t)
    ensures Failed(d, t) == d.(pendingPublishes := d.pendingPublishes - {t}, localTracks := d.localTracks - {t},
                               unattachedTracks := [], offerPending := false, requests := d.requests - {t})
  {
    assert [t][1..] == [] && WithoutTracks([], {t}) == [] && WithoutTracks([t], {t}) == [];
    ForgetNothing(d.fences, t);
    assert d.attachedTracks - {t} == d.attachedTracks;
  }

  // ── A loop that never ends ───────────────────────────────────────

  /** Two more tracks are published while the first waits for its offer. */
  method TwoHeldBack(a: MediaTrack, b: MediaTrack, x: MediaTrack) returns (c: NexusClient)
    requires a != b && a != x && b != x
    ensures fresh(c) && fresh(c.signaling) && c.Holds(NO_FAULTS) && c.signaling.Sending()
    ensures c.desk ==
      OncePublished(a).(pendingPublishes := {a, b, x}, pendingActions := [PublishAction(b), PublishAction(x)])
  {
    c := PublishedOnce(a);
    var d := c.desk.(pendingPublishes := {a, b}, pendingActions := [PublishAction(b)]);
    assert Asked(c.desk, b) == d && !Fenced(c.desk.fences, b) && !Fenced(c.desk.fences, x);
    assert Asked(d, x) == d.(pendingPublishes := {a, b, x}, pendingActions := [PublishAction(b), PublishAction(x)]);
    var _ := c.Publish(b);
    var _ := c.Publish(x);
  }

  /** The first track's offer is answered, and the client takes up the other two for ever. */
  method ThreePublishesHang(a: MediaTrack, b: MediaTrack, x: MediaTrack) returns (c: NexusClient)
    requires a != b && a != x && b != x
    ensures c.desk.hung
  {
    c := TwoHeldBack(a, b, x);
    TwoPublishesNeverEnd(b, x, c.desk.pendingPublishes);
    c.AnswerOffer([a]);
  }

  // ── Errors that find the wrong fence ─────────────────────────────

  /** A subscription and a publish in flight; the SFU offered for the former. */
  function BothInFlight(t: MediaTrack): Desk {
    Desk([Fence(0, SubscribeFence), Fence(1, PublishFence(t, false))], [], {t}, {t}, [t], map[], [], true, false, 2,
         map[t := 1], map[])
  }

  method SubscribedAndPublished(t: MediaTrack) returns (c: NexusClient)
    ensures fresh(c) && fresh(c.signaling) && c.Holds(NO_FAULTS) && c.desk == BothInFlight(t)
    ensures c.signaling.Sending() && c.signaling.wire.up == [Request(0), Ping(0), Request(1), Ping(1)]
    ensures c.signaling.wire.down == []
  {
    c := Ready();
    var d := Requested(Empty(0), SubscribeFence);
    assert Subscribed(Empty(0)) == d && Asked(d, t) == BothInFlight(t) && !Fenced(d.fences, t);
    c.Subscribe();
    var _ := c.Publish(t);
  }

  method SubscriptionOffered(t: MediaTrack) returns (c: NexusClient)
    ensures fresh(c) && fresh(c.signaling) && c.Valid() && c.desk == BothInFlight(t)
    ensures c.signaling.Sending() && c.signaling.wire.down == [Offer, Pong(0)]
  {
    c := SubscribedAndPublished(t);
    c.SfuAnswers([Offer]);
    assert c.signaling.wire.up == [Ping(0), Request(1), Ping(1)];
    c.SfuAnswers([Pong(0)]);
  }

  /** The offer is answered, so nothing is held back any more; the publish's fence is the oldest. */
  function AnsweredOffer(t: MediaTrack): Desk {
    BothInFlight(t).(fences := [Fence(1, PublishFence(t, false)), Fence(2, AnswerFence([]))], offerPending := false,
                     nextId := 3, owed := map[2 := []])
  }

  method PublishInFlight(t: MediaTrack) returns (c: NexusClient)
    ensures fresh(c) && fresh(c.signaling) && c.Valid() && c.signaling.Sending() && c.desk == AnsweredOffer(t)
  {
    c := SubscriptionOffered(t);
    InFlight(t);
    var _ := c.OnMessage();
    assert c.signaling.wire.down == [Pong(0)];
    var _ := c.OnMessage();
    c.AnswerOffer([]);
  }

  lemma InFlight(t: MediaTrack)
    ensures
      var d := BothInFlight(t);
      && Replied(d, Offer) == d
      && Replied(d, Pong(0)) == d.(fences := [Fence(1, PublishFence(t, false))])
      && Answered(d.(fences := [Fence(1, PublishFence(t, false))]), []) == AnsweredOffer(t)
  {
    var d := BothInFlight(t).(fences := [Fence(1, PublishFence(t, false))]);
    KeepAllTracks([t]);
    var attached: set<MediaTrack> := set t | t in [];
    assert attached == {} && d.attachedTracks + (map t | t in attached :: d.nextId) == d.attachedTracks;
    assert AnswerSent(d, []) == AnsweredOffer(t);
  }

  lemma KeepAllTracks(tracks: seq<MediaTrack>)
    requires |tracks| == 1
    ensures WithoutTracks(tracks, {}) == tracks && WithoutTracks([], {}) == []
  {
    assert tracks[1..] == [] && [tracks[0]] == tracks;
  }

  /**
   A client that connects again with these in flight, and then subscribes before it is in a
   room. The SFU's error is of the subscription, whose fence is there; yet the publish is
   rejected, whose fence is at the head although its Pong never comes.
   */
  method ReplacedSocketMisattributes(t: MediaTrack) returns (c: NexusClient, r: Reply)
    ensures r == ErrorOf(3, NotInRoom, None) && t in AnsweredOffer(t).pendingPublishes && t !in c.desk.pendingPublishes
    ensures c.desk == Replied(Requested(AnsweredOffer(t), SubscribeFence), r) && !c.Matched()
  {
    c := SubscribedAfterReplacement(t);
    var d := Requested(AnsweredOffer(t), SubscribeFence);
    assert Rejects(d, NotInRoom) == [t];
    c.SfuAnswers([ErrorOf(3, NotInRoom, None)]);
    PublishGone(d, t, ErrorOf(3, NotInRoom, None));
    r := c.OnMessage();
  }

  method SubscribedAfterReplacement(t: MediaTrack) returns (c: NexusClient)
    ensures fresh(c) && fresh(c.signaling) && c.Valid() && !c.Matched() && c.signaling.Sending()
    ensures c.desk == Requested(AnsweredOffer(t), SubscribeFence) && c.signaling.wire.up == [Request(3), Ping(3)]
    ensures c.signaling.wire.down == []
  {
    c := PublishInFlight(t);
    c.Connect();
    c.OnAuthenticated();
    c.Subscribe();
  }

  /** An error that rejects `t`, whether or not the client goes on. */
  lemma PublishGone(d: Desk, t: MediaTrack, r: Reply)
    requires r.ErrorOf? && Rejects(d, r.code) == [t] && !d.hung
    ensures t !in Replied(d, r).pendingPublishes
  {
    var a := d.(owed := Reported(d.owed, r.id, r.refused));
    OneFailed(a, t);
    if Releases(a, t) {
      DrainedKeeps(Dropped(a, t).(offerPending := false));
    }
  }

  /** A client that subscribed before its connection was ready, and lost the connection. */
  method RequestLeftQueued() returns (c: NexusClient)
    ensures fresh(c) && fresh(c.signaling) && c.Valid() && c.Matched() && c.desk == Empty(1)
    ensures c.signaling.connected && !c.signaling.authenticated && c.signaling.wire.queue == [Request(0)]
  {
    c := new NexusClient();
    c.Connect();
    c.Subscribe();
    assert c.signaling.wire.queue == [Request(0), Ping(0)];
    c.OnDisconnected();
    OnlyRequest(Request(0), Ping(0));
  }

  lemma OnlyRequest(m: Msg, ping: Msg)
    requires !m.Ping? && ping.Ping?
    ensures WithoutPings([m, ping]) == [m]
  {
    assert [m, ping][1..] == [ping] && [ping][1..] == [];
    assert WithoutPings([ping]) == [];
  }

  method PublishedBehindIt(t: MediaTrack) returns (c: NexusClient)
    ensures fresh(c) && fresh(c.signaling) && c.Valid() && c.Matched() && c.signaling.Sending()
    ensures c.desk == Asked(Empty(1), t) && c.signaling.wire.up == [Request(0), Request(1), Ping(1)]
      && c.signaling.wire.down == []
  {
    c := RequestLeftQueued();
    var _ := c.Publish(t);
    assert c.signaling.wire.queue == [Request(0), Request(1), Ping(1)];
    OnePing(0, 1);
    c.Connect();
    c.OnAuthenticated();
  }

  /**
   It publishes before the next connection is ready. The fences match all along; but the
   subscription goes out without its fence, and its error rejects the publish.
   */
  method QueuedRequestMisattributes(t: MediaTrack) returns (c: NexusClient, r: Reply)
    ensures r == ErrorOf(0, NotInRoom, None) && c.desk == Replied(Asked(Empty(1), t), r) && c.Matched()
    ensures Asked(Empty(1), t).requests == map[t := 1] && t !in c.desk.pendingPublishes
  {
    c := PublishedBehindIt(t);
    assert Rejects(Asked(Empty(1), t), NotInRoom) == [t];
    c.SfuAnswers([ErrorOf(0, NotInRoom, None)]);
    PublishGone(Asked(Empty(1), t), t, ErrorOf(0, NotInRoom, None));
    r := c.OnMessage();
  }

  lemma OnePing(a: nat, b: nat)
    ensures Tags(MsgMarks([Request(a), Request(b), Ping(b)])) == [b]
  {
    var marks := MsgMarks([Request(a), Request(b), Ping(b)]);
    assert marks == [About(a)] + ([About(b)] + ([Tag(b)] + []));
    TagsOf(About(a), [About(b)] + ([Tag(b)] + []));
    TagsOf(About(b), [Tag(b)] + []);
    TagsOf(Tag(b), []);
  }

  // ── Errors that refuse another track ─────────────────────────────

  /** Two tracks that the browser attached in one answer, the older requests having been answered. */
  function TwoAttached(a: MediaTrack, b: MediaTrack): Desk {
    Desk([Fence(4, AnswerFence([a, b]))], [], {a, b}, {a, b}, [], map[a := 4, b := 4], [], false, false, 5,
         map[a := 1, b := 3], map[2 := [], 4 := [a, b]])
  }

  /**
   They come to be there: after `PublishInFlight` the SFU queues the first publish and ends the
   empty answer, the client publishes the second track, the SFU offers for both, and the client
   answers.
   */
  lemma TwoAttachedIsReached(a: MediaTrack, b: MediaTrack)
    requires a != b
    ensures
      var d := Replied(Replied(AnsweredOffer(a), Pong(1)), Pong(2));
      TwoAttached(a, b) == Answered(Replied(Replied(Asked(d, b), Offer), Pong(3)), [a, b])
  {
    var d := AnsweredOffer(a).(fences := [], serverQueued := [a]);
    assert Replied(AnsweredOffer(a), Pong(1)) == d.(fences := [Fence(2, AnswerFence([]))]);
    assert Replied(d.(fences := [Fence(2, AnswerFence([]))]), Pong(2)) == d;
    var e := d.(pendingPublishes := {a, b}, localTracks := {a, b}, unattachedTracks := [a, b], offerPending := true,
                nextId := 4, requests := map[a := 1, b := 3]);
    assert Asked(d, b) == e.(fences := [Fence(3, PublishFence(b, false))]);
    assert Replied(e.(fences := [Fence(3, PublishFence(b, false))]), Offer) ==
      e.(fences := [Fence(3, PublishFence(b, true))]);
    assert Replied(e.(fences := [Fence(3, PublishFence(b, true))]), Pong(3)) == e;
    BothAttached(e, a, b);
  }

  lemma BothAttached(d: Desk, a: MediaTrack, b: MediaTrack)
    requires a != b && d.unattachedTracks == [a, b] && d.serverQueued == [a] && d.fences == [] && d.pendingActions == []
    requires d.attachedTracks == map[]
    ensures Answered(d, [a, b]) ==
      d.(fences := [Fence(d.nextId, AnswerFence([a, b]))], serverQueued := [], unattachedTracks := [],
         attachedTracks := map[a := d.nextId, b := d.nextId], offerPending := false, nextId := d.nextId + 1,
         owed := d.owed[d.nextId := [a, b]])
  {
    var attached := set t | t in [a, b];
    assert attached == {a, b};
    assert [a, b][1..] == [b] && [b][1..] == [] && [a][1..] == [];
    assert WithoutTracks([], attached) == [] && WithoutTracks([b], attached) == [];
    assert WithoutTracks([a, b], attached) == [] && WithoutTracks([a], attached) == [];
    assert d.attachedTracks + (map t | t in attached :: d.nextId) == map[a := d.nextId, b := d.nextId];
  }

  /**
   When the first of the two times out before the SFU replied, the refusal of its m-line
   rejects the second, with every publish's fence its own.
   */
  lemma TimedOutAnswerMisattributes(a: MediaTrack, b: MediaTrack)
    requires a != b
    ensures
      var (d, r) := (Failed(TwoAttached(a, b), a), ErrorOf(4, InvalidTrack, Some(a)));
      && Listed(TwoAttached(a, b)) && Owned(TwoAttached(a, b)) && Tidy(TwoAttached(a, b))
      && Owned(d) && !Listed(d) && d.pendingPublishes == {b} && b !in Replied(d, r).pendingPublishes
  {
    var d := TwoAttached(a, b);
    assert Listed(d) && Owned(d) && Tidy(d) && Calm(d) by {
      assert Ids(d.fences) == [4];
    }
    ListedFailed(d, a);
    OwnedFailed(d, a);
    assert a in d.fences[0].kind.tracks;
    assert [a, b][1..] == [b] && [b][1..] == [];
    assert WithoutTracks([], {a}) == [] && WithoutTracks([b], {a}) == [b] && WithoutTracks([a, b], {a}) == [b];
    assert Failed(d, a).fences == [Fence(4, AnswerFence([b]))];
    PublishGone(Failed(d, a), b, ErrorOf(4, InvalidTrack, Some(a)));
  }
}
