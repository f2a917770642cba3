/** Sessions, offers and answers, and the m-lines of each participant (src/orchestrator/negotiation.rs). */
module Negotiation {
  import opened Words
  import opened Collections
  import opened Wrappers
  import opened Ssrc
  import opened Shard
  import opened Tables
  import opened Commands
  import opened Publishing
  import opened Lifecycle
  import opened Mlines
  import opened Offers
  import opened Steps
  import opened Protocol
  import opened Answers
  import opened ControlPlane

  class NegotiationManager {
    var states: map<Pid, Neg>

    ghost function W(sessions: map<Pid, Handle>, plane: Plane): World
      reads this, plane
    {
      World(sessions, states, plane.view)
    }

    constructor ()
      ensures states == map[]
    {
      states := map[];
    }

    // ── Sessions ───────────────────────────────────────────────────

    method EnsureSession(p: Pid, sessions: map<Pid, Handle>, plane: Plane, ghost k: Slack) returns (r: Option<Sid>)
      requires Sound(W(sessions, plane), k)
      modifies this, plane
      ensures Sound(W(sessions, plane), k)
      ensures p !in old(states) ==> r.None? && W(sessions, plane) == old(W(sessions, plane))
      ensures p in old(states) ==> SessionEnsured(old(W(sessions, plane)), W(sessions, plane), p, r)
    {
      if p !in states {
        return None;
      }
      if states[p].session.Some? {
        return states[p].session;
      }
      ghost var w := W(sessions, plane);
      Present(w, p, k);
      Sessionless(w, p, k);
      var id, base := plane.CreateSession(p);
      if id.None? {
        ghost var z := plane.view;
        plane.Tell(sessions, p, Error(SessionFailed));
        NoSessionStep(w, p, z, k);
        TellStep(w.(plane := z), p, Error(SessionFailed), k);
        SessionDenied(w, p, z, W(sessions, plane), Error(SessionFailed));
        return None;
      }
      states := states[p := states[p].(session := id, version := 0)];
      CreateStep(w, W(sessions, plane), p, base, k);
      SessionMade(w, W(sessions, plane), p, base);
      return id;
    }

    // ── Publish ────────────────────────────────────────────────────

    /** The source's assert that the m-line count was checked is the precondition. */
    method ClaimMline(p: Pid, kind: Kind, role: Role) returns (mid: nat)
      requires p in states && CanClaim(states[p], kind)
      modifies this
      ensures states == old(states)[p := Claimed(old(states)[p], kind, role)]
      ensures
        var i := ClaimIndex(old(states)[p].mlines, kind);
        i < |states[p].mlines| && mid == states[p].mlines[i].mid
    {
      var n := states[p];
      var i := 0;
      while i < |n.mlines| && !(n.mlines[i].role.Inactive? && n.mlines[i].kind == kind)
        invariant 0 <= i <= |n.mlines|
        invariant ClaimIndex(n.mlines, kind) == ClaimIndex(n.mlines, kind, i)
      {
        i := i + 1;
      }
      if i < |n.mlines| {
        states := states[p := n.(mlines := n.mlines[i := n.mlines[i].(role := role)])];
        return n.mlines[i].mid;
      }
      mid := n.nextMid;
      states := states[p := n.(mlines := n.mlines + [Mline(mid, kind, role)], nextMid := mid + 1)];
    }

    /** One more publish m-line and waiting mid. */
    method ClaimOne(p: Pid, kind: Kind, sessions: map<Pid, Handle>, plane: Plane, ghost n: Neg,
                    ghost kinds: seq<Kind>, ghost k: Slack)
      requires Sound(W(sessions, plane), k) && Calm(k) && p in states && PublishClaims(n, states[p], kinds)
      requires states[p].session.Some? && !states[p].offerPending && |states[p].mlines| < MAX_MEDIA_SECTIONS
      requires |n.published| + |n.awaiting| + |kinds| + Queued(n) < MAX_TRACKS_PER_SESSION
      modifies this
      ensures Sound(W(sessions, plane), k)
      ensures p in states && states == old(states)[p := states[p]] && PublishClaims(n, states[p], kinds + [kind])
    {
      ghost var w := W(sessions, plane);
      Positions(w, p, k);
      var mid := ClaimMline(p, kind, Publish);
      states := states[p := states[p].(awaiting := states[p].awaiting + [mid])];
      ClaimStep(w, W(sessions, plane), p, n, kinds, kind, k);
    }

    /** A publish m-line and a waiting mid for each of `kinds`. */
    method ClaimPublish(p: Pid, kinds: seq<Kind>, sessions: map<Pid, Handle>, plane: Plane, ghost k: Slack)
      requires Sound(W(sessions, plane), k) && Calm(k) && p in states && states[p].session.Some?
        && !states[p].offerPending
      requires |states[p].published| + |states[p].awaiting| + Queued(states[p]) + |kinds| <= MAX_TRACKS_PER_SESSION
      requires |states[p].mlines| + |kinds| <= MAX_MEDIA_SECTIONS
      modifies this
      ensures Sound(W(sessions, plane), k)
      ensures p in states && states == old(states)[p := states[p]] && PublishClaims(old(states)[p], states[p], kinds)
    {
      ghost var n := states[p];
      NoClaims(n);
      assert kinds[..0] == [];
      for i := 0 to |kinds|
        invariant p in states && states == old(states)[p := states[p]]
        invariant Sound(W(sessions, plane), k) && PublishClaims(n, states[p], kinds[..i])
      {
        ClaimOne(p, kinds[i], sessions, plane, n, kinds[..i], k);
        assert kinds[..i + 1] == kinds[..i] + [kinds[i]];
      }
      assert kinds[..|kinds|] == kinds;
    }

    /** `requested` are the kinds as sent; only audio and video are offered. */
    method HandlePublish(p: Pid, requested: seq<Option<Kind>>, contents: nat, sessions: map<Pid, Handle>,
                         plane: Plane, ghost k: Slack)
      requires Sound(W(sessions, plane), k) && Calm(k)
      modifies this, plane
      ensures Sound(W(sessions, plane), k)
      ensures p in old(states) && |requested| == contents ==>
        && PublishAsked(old(W(sessions, plane)), W(sessions, plane), p, Known(requested))
        && PublishChoice(old(W(sessions, plane)), W(sessions, plane), p, Known(requested))
      ensures p !in old(states) || |requested| != contents ==> W(sessions, plane) == old(W(sessions, plane))
    {
      ghost var w := W(sessions, plane);
      Present(w, p, k);
      if p == 0 || |requested| != contents {
        return;
      }
      if p !in sessions || sessions[p].room.None? {
        plane.Tell(sessions, p, Error(NotInRoom));
        TellStep(w, p, Error(NotInRoom), k);
        assert p in states ==> PublishAsked(w, W(sessions, plane), p, Known(requested)) by {
          if p in states {
            PublishRefused(w, W(sessions, plane), p, Known(requested), Error(NotInRoom));
          }
        }
        return;
      }
      if p !in states {
        return;
      }
      var kinds := Known(requested);
      if kinds == [] {
        PublishIgnored(w, p, kinds);
        return;
      }
      var n := states[p];
      var queued := if n.queued.Some? then |n.queued.value| else 0;
      var tracks := |n.published| + |n.awaiting| + queued;
      if tracks + |kinds| > MAX_TRACKS_PER_SESSION || |n.mlines| + |kinds| > MAX_MEDIA_SECTIONS {
        plane.Tell(sessions, p, Error(TooManyTracks));
        TellStep(w, p, Error(TooManyTracks), k);
        PublishRefused(w, W(sessions, plane), p, kinds, Error(TooManyTracks));
        return;
      }
      if n.offerPending {
        states := states[p := n.(queued := Some(QueuedKinds(n) + kinds))];
        PublishQueued(w, W(sessions, plane), p, kinds, k);
        return;
      }
      var id := EnsureSession(p, sessions, plane, k);
      if id.None? {
        PublishDenied(w, W(sessions, plane), p, kinds);
        return;
      }
      ghost var a := W(sessions, plane);
      ClaimPublish(p, kinds, sessions, plane, k);
      ghost var b := W(sessions, plane);
      SendOrderedOffer(p, sessions, plane, k);
      PublishDone(w, a, b, W(sessions, plane), p, id.value, kinds);
    }

    // ── Renegotiation ──────────────────────────────────────────────

    /** One m-line of `drop_subscriptions_except`. */
    method DropSlot(p: Pid, keep: seq<Tid>, i: nat, sessions: map<Pid, Handle>, plane: Plane, ghost w: World,
                    ghost k: Slack)
      requires Sound(W(sessions, plane), k) && k.gone == {} && DroppedIn(w, W(sessions, plane), p, keep, i)
        && i < |w.neg[p].mlines|
      modifies this, plane
      ensures Sound(W(sessions, plane), k) && DroppedIn(w, W(sessions, plane), p, keep, i + 1)
    {
      ghost var a := W(sessions, plane);
      var line := states[p].mlines[i];
      if !line.role.Subscribe? || line.role.slot.track in keep {
        NotDropped(w, a, p, keep, i);
        return;
      }
      var slot := line.role.slot;
      states := states[p := states[p].(mlines := states[p].mlines[i := line.(role := Inactive)])];
      if slot.onShard {
        var ok := plane.Push(Unsubscribe(slot.sub), p);
        PushFrame(a.plane, Unsubscribe(slot.sub), p, ok, plane.view);
        DropStep(a, W(sessions, plane), p, i, ok, k);
      } else {
        OffShardStep(a, W(sessions, plane), p, i, k);
      }
      OneDropped(w, a, W(sessions, plane), p, keep, i);
    }

    method DropSubscriptionsExcept(p: Pid, keep: seq<Tid>, sessions: map<Pid, Handle>, plane: Plane, ghost k: Slack)
      requires Sound(W(sessions, plane), k) && k.gone == {}
      modifies this, plane
      ensures Sound(W(sessions, plane), k)
      ensures p !in old(states) ==> W(sessions, plane) == old(W(sessions, plane))
      ensures p in old(states) ==>
        DroppedIn(old(W(sessions, plane)), W(sessions, plane), p, keep, |old(states)[p].mlines|)
    {
      if p !in states {
        return;
      }
      ghost var w := W(sessions, plane);
      Present(w, p, k);
      NothingDropped(w, p, keep);
      if states[p].session.None? || states[p].session.value !in plane.view.entries {
        Sessionless(w, p, k);
        return;
      }
      var i := 0;
      while i < |states[p].mlines|
        invariant 0 <= i <= |w.neg[p].mlines| && Sound(W(sessions, plane), k)
          && DroppedIn(w, W(sessions, plane), p, keep, i)
        decreases |w.neg[p].mlines| - i
      {
        DropSlot(p, keep, i, sessions, plane, w, k);
        i := i + 1;
      }
    }

    /** A slot for one track of the set to be offered; `ok` is false when there can be no more. */
    method OfferTrack(p: Pid, id: Sid, track: Tid, ids: seq<Tid>, sessions: map<Pid, Handle>, plane: Plane,
                      ghost w: World, ghost k: Slack)
      returns (ok: bool)
      requires Sound(W(sessions, plane), k) && Calm(k) && Subscribing(w, W(sessions, plane), p, ids)
      requires states[p].session == Some(id) && !states[p].offerPending
      requires track in ids && track in plane.view.tracks && OwnRoom(W(sessions, plane), p, ids)
      modifies this, plane
      ensures Sound(W(sessions, plane), k) && Subscribing(w, W(sessions, plane), p, ids)
      ensures ok ==>
        track in SlotTracks(states[p].mlines) && Mail(W(sessions, plane), p) == Mail(old(W(sessions, plane)), p)
      ensures ok ==> SlotTracks(old(states)[p].mlines) <= SlotTracks(states[p].mlines)
      ensures !ok ==> Mail(W(sessions, plane), p) > Mail(old(W(sessions, plane)), p)
    {
      ghost var a := W(sessions, plane);
      Present(a, p, k);
      var (n, kind) := (states[p], plane.view.tracks[track].kind);
      if (exists i :: 0 <= i < |n.mlines| && n.mlines[i].role.Subscribe? && n.mlines[i].role.slot.track == track) {
        return true;
      }
      var hasMline := |n.mlines| < MAX_MEDIA_SECTIONS ||
        (exists i :: 0 <= i < |n.mlines| && n.mlines[i].role.Inactive? && n.mlines[i].kind == kind);
      if |SlotIndices(n.mlines)| >= MAX_SUBS_PER_SESSION || !hasMline {
        plane.Tell(sessions, p, Error(TooManyTracks));
        TellStep(a, p, Error(TooManyTracks), k);
        SubscribingTold(w, a, W(sessions, plane), p, ids, Error(TooManyTracks));
        return false;
      }
      var e := plane.view.entries[id];
      var ssrc := Allocated(e.ssrcs);
      if ssrc.None? {
        plane.Tell(sessions, p, Error(SsrcExhausted));
        TellStep(a, p, Error(SsrcExhausted), k);
        SubscribingTold(w, a, W(sessions, plane), p, ids, Error(SsrcExhausted));
        return false;
      }
      var slot := Slot(track, plane.view.nextSub, ssrc.value, false);
      plane.view := plane.view.(entries := plane.view.entries[id := e.(ssrcs := AfterAllocate(e.ssrcs))],
                                nextSub := slot.sub + 1, owner := plane.view.owner[slot.sub := p]);
      var _ := ClaimMline(p, kind, Role.Subscribe(slot));
      assert Claimable(a, p, track, kind);
      SubClaimStep(a, W(sessions, plane), p, track, kind, k);
      OneMoreSub(w, a, W(sessions, plane), p, ids, track, kind);
      return true;
    }

    /** Slots for all of `live`, until one cannot be had. */
    method OfferTracks(p: Pid, id: Sid, live: seq<Tid>, ids: seq<Tid>, sessions: map<Pid, Handle>, plane: Plane,
                       ghost k: Slack)
      returns (ok: bool)
      requires Sound(W(sessions, plane), k) && Calm(k) && p in states && states[p].session == Some(id)
        && !states[p].offerPending
      requires OwnRoom(W(sessions, plane), p, ids) && forall t :: t in live ==> t in ids && t in plane.view.tracks
      modifies this, plane
      ensures Sound(W(sessions, plane), k) && Subscribing(old(W(sessions, plane)), W(sessions, plane), p, ids)
      ensures ok ==> forall t :: t in live ==> t in SlotTracks(states[p].mlines)
      ensures !ok ==> Mail(W(sessions, plane), p) > Mail(old(W(sessions, plane)), p)
    {
      ghost var w := W(sessions, plane);
      NotSubscribing(w, p, ids);
      var i := 0;
      while i < |live|
        invariant 0 <= i <= |live| && Sound(W(sessions, plane), k) && Subscribing(w, W(sessions, plane), p, ids)
        invariant Mail(W(sessions, plane), p) == Mail(w, p)
        invariant forall j :: 0 <= j < i ==> live[j] in SlotTracks(states[p].mlines)
      {
        ok := OfferTrack(p, id, live[i], ids, sessions, plane, w, k);
        if !ok {
          return false;
        }
        i := i + 1;
      }
      return true;
    }

    method TriggerSubscriberRenegotiation(p: Pid, ids: seq<Tid>, sessions: map<Pid, Handle>, plane: Plane,
                                          ghost k: Slack)
      requires Sound(W(sessions, plane), k) && Calm(k) && (p in states ==> !states[p].offerPending)
      requires OwnRoom(W(sessions, plane), p, ids)
      modifies this, plane
      ensures Sound(W(sessions, plane), k)
      ensures p !in old(states) ==> W(sessions, plane) == old(W(sessions, plane))
      ensures p in old(states) ==> Triggered(old(W(sessions, plane)), W(sessions, plane), p, ids)
    {
      ghost var w := W(sessions, plane);
      var hasSession := p in states && states[p].session.Some?;
      assert p in states && !hasSession ==> states[p].mlines == [] by {
        if p in states && !hasSession {
          Sessionless(w, p, k);
        }
      }
      if !hasSession && ids == [] {
        assert p in states ==> Triggered(w, w, p, ids) by {
          if p in states {
            NothingToOffer(w, p);
          }
        }
        return;
      }
      var id := EnsureSession(p, sessions, plane, k);
      if id.None? {
        assert p in w.neg ==> Triggered(w, W(sessions, plane), p, ids) by {
          if p in w.neg {
            TriggerDenied(w, W(sessions, plane), p, ids);
          }
        }
        return;
      }
      ghost var a := W(sessions, plane);
      DropSubscriptionsExcept(p, ids, sessions, plane, k);
      ghost var b := W(sessions, plane);
      var live := Live(ids, plane.view.tracks);
      states := states[p := states[p].(lastIds := ids)];
      ghost var c := W(sessions, plane);
      MarkStep(b, c, p, k);
      var ok := OfferTracks(p, id.value, live, ids, sessions, plane, k);
      ghost var d := W(sessions, plane);
      SendOrderedOffer(p, sessions, plane, k);
      TriggerDone(w, a, b, c, d, W(sessions, plane), p, id.value, ids, ok);
    }

    method RequestRenegotiation(p: Pid, ids: seq<Tid>, sessions: map<Pid, Handle>, plane: Plane, ghost k: Slack)
      requires Sound(W(sessions, plane), k) && Calm(k) && OwnRoom(W(sessions, plane), p, ids)
      modifies this, plane
      ensures Sound(W(sessions, plane), k)
      ensures p !in old(states) ==> W(sessions, plane) == old(W(sessions, plane))
      ensures p in old(states) ==> Requested(old(W(sessions, plane)), W(sessions, plane), p, ids)
    {
      if p !in states {
        return;
      }
      ghost var w := W(sessions, plane);
      if states[p].offerPending {
        states := states[p := states[p].(renegotiate := true, lastIds := ids)];
        MarkStep(w, W(sessions, plane), p, k);
        return;
      }
      TriggerSubscriberRenegotiation(p, ids, sessions, plane, k);
    }

    // ── After an answer ────────────────────────────────────────────

    method AfterAnswer(p: Pid, sessions: map<Pid, Handle>, plane: Plane, ghost k: Slack)
      requires Sound(W(sessions, plane), k) && Calm(k)
      requires p in states ==>
        !states[p].offerPending && (states[p].renegotiate ==> OwnRoom(W(sessions, plane), p, states[p].lastIds))
      modifies this, plane
      ensures Sound(W(sessions, plane), k)
      ensures p !in old(states) ==> W(sessions, plane) == old(W(sessions, plane))
      ensures p in old(states) ==> AfterAnswered(old(W(sessions, plane)), W(sessions, plane), p)
    {
      if p !in states {
        return;
      }
      ghost var w := W(sessions, plane);
      var (renegotiate, queued, ids) := (states[p].renegotiate, states[p].queued, states[p].lastIds);
      states := states[p := states[p].(renegotiate := false, queued := None)];
      ghost var a := W(sessions, plane);
      MarkStep(w, a, p, k);
      if renegotiate {
        TriggerSubscriberRenegotiation(p, ids, sessions, plane, k);
      }
      ghost var b := W(sessions, plane);
      if queued.Some? {
        var requested := Wanted(queued.value);
        HandlePublish(p, requested, |requested|, sessions, plane, k);
      }
      AfterAnswerDone(w, a, b, W(sessions, plane), p, queued);
    }

    method RetryUnanswered(p: Pid, sessions: map<Pid, Handle>, plane: Plane, ghost k: Slack)
      requires Sound(W(sessions, plane), k) && Calm(k)
      modifies this, plane
      ensures Sound(W(sessions, plane), k)
      ensures p !in old(states) ==> W(sessions, plane) == old(W(sessions, plane))
      ensures p in old(states) ==> Retried(old(W(sessions, plane)), W(sessions, plane), p)
    {
      if p !in states {
        return;
      }
      ghost var w := W(sessions, plane);
      var n := states[p];
      var unansweredSubs := exists i ::
        0 <= i < |n.mlines| && n.mlines[i].role.Subscribe? && !n.mlines[i].role.slot.onShard;
      if n.offerPending || (n.awaiting == [] && !unansweredSubs) {
        NotRetried(w, p);
        return;
      }
      var count := if n.invalidAnswers < 255 then n.invalidAnswers + 1 else n.invalidAnswers;
      states := states[p := n.(invalidAnswers := count)];
      ghost var a := W(sessions, plane);
      if count <= MAX_REOFFERS {
        MarkStep(w, a, p, k);
        SendOrderedOffer(p, sessions, plane, k);
        RetryOffered(w, a, W(sessions, plane), p, count);
        return;
      }
      states := states[p := states[p].(mlines := ReleasedAll(n.mlines, n.awaiting), awaiting := [])];
      GiveUpStep(w, W(sessions, plane), p, count, k);
    }

    // ── Tracks ─────────────────────────────────────────────────────

    method NotePeerSsrc(p: Pid, id: Sid, ssrc: u32, sessions: map<Pid, Handle>, plane: Plane, ghost k: Slack)
      returns (ok: bool)
      requires Sound(W(sessions, plane), k) && p in states && states[p].session == Some(id) && id in plane.view.entries
      modifies plane
      ensures Sound(W(sessions, plane), k) && NotedIn(old(W(sessions, plane)), W(sessions, plane), id)
      ensures ok == NoteAccepted(old(plane.view).entries[id].ssrcs, ssrc)
      ensures plane.view.entries[id].ssrcs == AfterNote(old(plane.view).entries[id].ssrcs, ssrc)
    {
      ghost var w := W(sessions, plane);
      var e := plane.view.entries[id];
      ok := NoteAccepted(e.ssrcs, ssrc);
      plane.view := plane.view.(entries := plane.view.entries[id := e.(ssrcs := AfterNote(e.ssrcs, ssrc))]);
      NoteStep(w, W(sessions, plane), p, ssrc, k);
    }

    /** The session remembers the peer's SSRCs, unless one of them is its own. */
    method NotePeerSsrcs(p: Pid, id: Sid, ssrcs: seq<u32>, sessions: map<Pid, Handle>, plane: Plane, ghost k: Slack)
      returns (ok: bool)
      requires Sound(W(sessions, plane), k) && p in states && states[p].session == Some(id) && id in plane.view.entries
      modifies plane
      ensures Sound(W(sessions, plane), k) && NotedIn(old(W(sessions, plane)), W(sessions, plane), id)
      ensures (plane.view.entries[id].ssrcs, ok) == NoteAll(old(plane.view).entries[id].ssrcs, ssrcs)
    {
      ghost var (a, w) := (plane.view.entries[id].ssrcs, W(sessions, plane));
      NotedNone(w, id);
      var i := 0;
      while i < |ssrcs|
        invariant 0 <= i <= |ssrcs|
        invariant Sound(W(sessions, plane), k) && NotedIn(w, W(sessions, plane), id)
        invariant NoteAll(a, ssrcs) == NoteAll(plane.view.entries[id].ssrcs, ssrcs[i..])
      {
        ghost var x := W(sessions, plane);
        ok := NotePeerSsrc(p, id, ssrcs[i], sessions, plane, k);
        NotedTwice(w, x, W(sessions, plane), id);
        if !ok {
          return false;
        }
        i := i + 1;
      }
      return true;
    }

    /** One answered publish m-line; the result says whether it became a track. */
    method RegisterPublish(p: Pid, id: Sid, mid: nat, media: AnswerMline, sessions: map<Pid, Handle>, plane: Plane,
                           ghost k: Slack)
      returns (ok: bool)
      requires Sound(W(sessions, plane), k) && p in states && states[p].session == Some(id) && k.who == p
        && mid in k.open
      modifies this, plane
      ensures PublishRegistered(old(W(sessions, plane)), W(sessions, plane), p, mid, media, ok)
      ensures Sound(W(sessions, plane), if ok then k.(open := k.open - {mid}) else k)
    {
      ghost var w := W(sessions, plane);
      Present(w, p, k);
      if p !in sessions || sessions[p].room.None? {
        RefusedTrack(w, p, mid, media);
        return false;
      }
      var room := sessions[p].room.value;
      if |states[p].published| >= MAX_TRACKS_PER_SESSION {
        plane.Tell(sessions, p, Error(TooManyTracks));
        TellStep(w, p, Error(TooManyTracks), k);
        ToldTrack(w, w, W(sessions, plane), p, id, mid, media, Error(TooManyTracks));
        return false;
      }
      if media.track.NoTrack? {
        RefusedTrack(w, p, mid, media);
        return false;
      }
      if media.track.BadTrack? {
        plane.Tell(sessions, p, Error(InvalidTrack));
        TellStep(w, p, Error(InvalidTrack), k);
        ToldTrack(w, w, W(sessions, plane), p, id, mid, media, Error(InvalidTrack));
        return false;
      }
      var noted := NotePeerSsrcs(p, id, media.ssrcs, sessions, plane, k);
      ghost var a := W(sessions, plane);
      if !noted {
        plane.Tell(sessions, p, Error(SsrcCollision));
        TellStep(a, p, Error(SsrcCollision), k);
        ToldTrack(w, a, W(sessions, plane), p, id, mid, media, Error(SsrcCollision));
        return false;
      }
      var info := Track(p, id, room, media.track.kind, mid, media.track.ssrc);
      if info.ssrc.Some?
        && exists t ::
           t in plane.view.tracks && plane.view.tracks[t].publisher == p && plane.view.tracks[t].ssrc == info.ssrc {
        plane.Tell(sessions, p, Error(DuplicateSsrc));
        TellStep(a, p, Error(DuplicateSsrc), k);
        ToldTrack(w, a, W(sessions, plane), p, id, mid, media, Error(DuplicateSsrc));
        return false;
      }
      FreshTrackId(a, k);
      var track := plane.view.nextTrack;
      ok := AddTrack(p, info, mid, sessions, plane, k);
      if ok {
        ghost var b := W(sessions, plane);
        AddedTrack(w, a, b, p, id, mid, media, info);
        plane.Tell(sessions, p, Published(track, mid));
        TellStep(b, p, Published(track, mid), k.(open := k.open - {mid}));
        ToldMade(w, b, W(sessions, plane), p, mid, media, Published(track, mid));
      } else {
        TurnedTrack(w, a, W(sessions, plane), p, id, mid, media);
      }
    }

    /** A fresh id, `AddTrack`, and on success the registry and the participant's list. */
    method AddTrack(p: Pid, info: Track, mid: nat, sessions: map<Pid, Handle>, plane: Plane, ghost k: Slack)
      returns (ok: bool)
      requires Sound(W(sessions, plane), k) && Addable(W(sessions, plane), p, info, k) && info.mid == mid
      modifies this, plane
      ensures Sound(W(sessions, plane), if ok then k.(open := k.open - {mid}) else k)
      ensures
        var (w, u) := (old(W(sessions, plane)), W(sessions, plane));
        if ok then TrackAddedTo(w, u, p, info)
        else u == w.(plane := u.plane) && Turned(w.plane.(nextTrack := w.plane.nextTrack + 1), p, u.plane)
    {
      ghost var w := W(sessions, plane);
      var track := plane.view.nextTrack;
      plane.view := plane.view.(nextTrack := track + 1);
      ok := plane.Push(Command.AddTrack(info.session, track, info.ssrc), p);
      if !ok {
        TurnedTrackStep(w, W(sessions, plane), p, k);
        return;
      }
      ghost var z := plane.view;
      plane.view := plane.view.(tracks := plane.view.tracks[track := info]);
      states := states[p := states[p].(published := states[p].published + [track])];
      AddedStep(w, W(sessions, plane), z, p, info, k);
    }

    method ReleaseUnregisteredPublish(p: Pid, mid: nat)
      modifies this
      ensures states == if p in old(states) then old(states)[p := PublishReleased(old(states)[p], mid)] else old(states)
    {
      if p !in states {
        return;
      }
      var n := states[p];
      var i := 0;
      while i < |n.mlines| && !(n.mlines[i].role.Publish? && n.mlines[i].mid == mid)
        invariant 0 <= i <= |n.mlines|
        invariant FindPublish(n.mlines, mid) == FindPublish(n.mlines, mid, i)
      {
        i := i + 1;
      }
      if i < |n.mlines| {
        states := states[p := n.(mlines := n.mlines[i := n.mlines[i].(role := Inactive)])];
      }
    }

    /** One m-line of the answer. */
    method RegisterMedia(p: Pid, id: Sid, mids: seq<nat>, media: seq<AnswerMline>, i: nat, sessions: map<Pid, Handle>,
                         plane: Plane,
                         ghost w: World, ghost k: Slack)
      requires Calm(k) && i < |media| && media[i].mid == Some(i)
        && Registering(w, W(sessions, plane), p, mids, media, i)
      requires Sound(W(sessions, plane), Registration(k, p, mids, i)) && states[p].session == Some(id)
      modifies this, plane
      ensures Sound(W(sessions, plane), Registration(k, p, mids, i + 1))
        && Registering(w, W(sessions, plane), p, mids, media, i + 1)
    {
      ghost var a := W(sessions, plane);
      ghost var l := Registration(k, p, mids, i);
      FromNext(mids, i);
      if !(media[i].mid.Some? && media[i].mid.value in mids) {
        NotAPublish(w, a, p, mids, media, i);
        return;
      }
      var ok := RegisterPublish(p, id, media[i].mid.value, media[i], sessions, plane, l);
      if ok {
        OneRegistered(w, a, W(sessions, plane), p, mids, media, i);
      } else {
        ghost var b := W(sessions, plane);
        ReleaseUnregisteredPublish(p, media[i].mid.value);
        ReleaseStep(b, W(sessions, plane), p, i, l);
        OneReleased(w, a, b, W(sessions, plane), p, mids, media, i);
      }
    }

    method RegisterPublishes(p: Pid, id: Sid, mids: seq<nat>, media: seq<AnswerMline>, sessions: map<Pid, Handle>,
                             plane: Plane, ghost k: Slack)
      requires Calm(k) && p in states && states[p].session == Some(id)
        && Sound(W(sessions, plane), Registration(k, p, mids, 0))
      requires (forall i :: 0 <= i < |media| ==> media[i].mid == Some(i)) && (forall m :: m in mids ==> m < |media|)
      modifies this, plane
      ensures Sound(W(sessions, plane), k)
      ensures Registering(old(W(sessions, plane)), W(sessions, plane), p, mids, media, |media|)
    {
      ghost var w := W(sessions, plane);
      NothingRegistered(w, p, mids, media);
      var i := 0;
      while i < |media|
        invariant 0 <= i <= |media| && Sound(W(sessions, plane), Registration(k, p, mids, i))
        invariant Registering(w, W(sessions, plane), p, mids, media, i)
      {
        RegisterMedia(p, id, mids, media, i, sessions, plane, w, k);
        i := i + 1;
      }
      FromNext(mids, i);
      AllRegistered(W(sessions, plane), p, k, Registration(k, p, mids, i));
    }

    /** The next pending subscribe m-line; `ok` is false when the queue refused. */
    method RegisterSubscription(p: Pid, id: Sid, pending: seq<nat>, c: nat, media: seq<AnswerMline>,
                                activated: seq<Tid>,
                                sessions: map<Pid, Handle>, plane: Plane, ghost w: World, ghost k: Slack)
      returns (ok: bool, more: seq<Tid>)
      requires Sound(W(sessions, plane), k) && Activating(w, W(sessions, plane), p, id, pending, c, media, activated)
      requires c < |pending| && NoDup(pending) && Increasing(W(sessions, plane), p, id, pending, c)
        && id in w.plane.entries
      requires states[p].session == Some(id) && !states[p].offerPending && |media| == |states[p].mlines|
      modifies this, plane
      ensures Sound(W(sessions, plane), k)
      ensures ok ==>
        Activating(w, W(sessions, plane), p, id, pending, c + 1, media, more)
          && Increasing(W(sessions, plane), p, id, pending, c + 1)
      ensures !ok ==> SubsRegistered(w, W(sessions, plane), p, id, media, more)
      ensures
        var i := pending[c];
        media[i].sub.Mismatched? && old(states)[p].mlines[i].role.slot.track in old(plane.view).tracks ==>
          plane.view == Told(old(plane.view), p, Error(SubscribeFailed))
    {
      ghost var a := W(sessions, plane);
      Present(a, p, k);
      var i := pending[c];
      assert Waits(w.neg[p].mlines, states[p].mlines, plane.view.entries[id].ssrcs, i);
      var slot := states[p].mlines[i].role.slot;
      more := activated;
      if slot.track !in plane.view.tracks || media[i].sub.Declined? {
        NotActivated(w, a, a, p, id, pending, c, media, activated);
        return true, more;
      }
      if media[i].sub.Mismatched? {
        plane.Tell(sessions, p, Error(SubscribeFailed));
        TellStep(a, p, Error(SubscribeFailed), k);
        NotActivated(w, a, W(sessions, plane), p, id, pending, c, media, activated);
        return true, more;
      }
      ok := plane.Push(Command.Subscribe(id, slot.sub, slot.track, slot.ssrc), p);
      if !ok {
        RefusedStep(a, plane.view, p, k);
        PushRefused(w, a, W(sessions, plane), p, id, media, activated);
        return;
      }
      ghost var z := plane.view;
      PushFrame(a.plane, Command.Subscribe(id, slot.sub, slot.track, slot.ssrc), p, true, z);
      SlotMarkable(a, p, i, k);
      assert Markable(plane.view.entries[id].ssrcs, slot.ssrc);
      plane.view := plane.view.(entries := Marked(plane.view.entries, id, slot.ssrc));
      states := states[p := states[p].(mlines :=
        states[p].mlines[i := states[p].mlines[i].(role := Role.Subscribe(slot.(onShard := true)))])];
      more := activated + [slot.track];
      SubscribeStep(a, W(sessions, plane), z, p, i, k);
      OneActivated(w, a, W(sessions, plane), p, id, pending, c, media, activated);
      StillIncreasing(a, W(sessions, plane), p, id, pending, c);
    }

    method RegisterSubscriptions(p: Pid, id: Sid, media: seq<AnswerMline>, sessions: map<Pid, Handle>, plane: Plane,
                                 ghost k: Slack)
      returns (activated: seq<Tid>)
      requires Sound(W(sessions, plane), k) && p in states && states[p].session == Some(id) && !states[p].offerPending
      requires |media| == |states[p].mlines|
      modifies this, plane
      ensures Sound(W(sessions, plane), k)
        && SubsRegistered(old(W(sessions, plane)), W(sessions, plane), p, id, media, activated)
    {
      ghost var w := W(sessions, plane);
      Present(w, p, k);
      var pending := PendingSlots(states[p].mlines, plane.view.entries[id].ssrcs);
      NothingActivated(w, p, id, pending, media);
      IncreasingAtFirst(w, p, id, pending, k);
      activated := [];
      var c := 0;
      while c < |pending|
        invariant 0 <= c <= |pending| && Sound(W(sessions, plane), k)
        invariant Activating(w, W(sessions, plane), p, id, pending, c, media, activated)
        invariant Increasing(W(sessions, plane), p, id, pending, c)
      {
        var ok, more := RegisterSubscription(p, id, pending, c, media, activated, sessions, plane, w, k);
        activated := more;
        if !ok {
          return;
        }
        c := c + 1;
      }
      AllHandled(w, W(sessions, plane), p, id, pending, media, activated);
    }

    // ── Answer ─────────────────────────────────────────────────────

    /** The answer, if it answers the outstanding offer; an unusable one settles it with a message. */
    method AcceptAnswer(p: Pid, answer: Answer, sessions: map<Pid, Handle>, plane: Plane, ghost k: Slack)
      returns (r: Acceptance)
      requires Sound(W(sessions, plane), k)
      modifies this, plane
      ensures Sound(W(sessions, plane), k)
      ensures r.NotExpected? <==> !(p in old(states) && old(states)[p].session.Some? && old(states)[p].offerPending)
      ensures r.Expected? ==> answer.Parsed? && r == Expected(old(states)[p].session.value, answer.dtls, answer.media)
      ensures r.Expected? ==> MidsMatch(answer.media, old(states)[p].mlines)
      ensures !r.Invalid? ==> W(sessions, plane) == old(W(sessions, plane))
      ensures r.Invalid? ==>
        var (w, u) := (old(W(sessions, plane)), W(sessions, plane));
        && !(answer.Parsed? && MidsMatch(answer.media, w.neg[p].mlines))
        && Only(w, u, p) && u.plane.tracks == w.plane.tracks && Mail(u, p) > Mail(w, p)
           && OfferCount(u, p) == OfferCount(w, p)
        && u.neg[p] == w.neg[p].(offerPending := false)
    {
      if p !in states || states[p].session.None? || !states[p].offerPending {
        return NotExpected;
      }
      if answer.Parsed? && MidsMatch(answer.media, states[p].mlines) {
        return Expected(states[p].session.value, answer.dtls, answer.media);
      }
      ghost var w := W(sessions, plane);
      Present(w, p, k);
      states := states[p := states[p].(offerPending := false)];
      ghost var a := W(sessions, plane);
      MarkStep(w, a, p, k);
      plane.Tell(sessions, p, Error(InvalidAnswer));
      TellStep(a, p, Error(InvalidAnswer), k);
      return Invalid;
    }

    /** Role and fingerprint into the handshake; false when the session is being closed. */
    method ApplyDtls(p: Pid, id: Sid, dtls: bool, sessions: map<Pid, Handle>, plane: Plane, ghost k: Slack)
      returns (ok: bool, ghost completes: bool)
      requires Sound(W(sessions, plane), k) && p in states && states[p].session == Some(id)
      modifies plane
      ensures Sound(W(sessions, plane), k) && HandshakeMoved(old(W(sessions, plane)), W(sessions, plane), p)
      ensures !dtls ==> !ok && plane.view == CloseRequested(old(plane.view), p, DtlsFailed)
      ensures dtls ==>
        id in old(plane.view).entries && HandshakeRan(old(W(sessions, plane)), W(sessions, plane), id, !ok, completes)
      ensures !ok ==> Ending(plane.view, p)
    {
      completes := false;
      ghost var w := W(sessions, plane);
      Present(w, p, k);
      if !dtls {
        plane.CloseParticipant(p, DtlsFailed);
        RecordedIsClosing(w.plane.closing, p, DtlsFailed);
        CloseRequestStep(w, W(sessions, plane), p, DtlsFailed, k);
        HandshakeSteps(w, w, W(sessions, plane), p, id);
        return false, false;
      }
      var failed, completed, datagrams, to := plane.StepDtls(id);
      ghost var a := W(sessions, plane);
      DtlsStep(w, a, id, to, completed, k);
      if failed {
        plane.CloseParticipant(p, DtlsFailed);
        RecordedIsClosing(a.plane.closing, p, DtlsFailed);
        CloseRequestStep(a, W(sessions, plane), p, DtlsFailed, k);
        HandshakeSteps(w, a, W(sessions, plane), p, id);
        return false, false;
      }
      plane.SendDatagrams(id, datagrams);
      ghost var b := W(sessions, plane);
      DatagramsStep(a, b, p, k);
      HandshakeSteps(w, a, b, p, id);
      if completed {
        plane.InstallSrtp(id);
        EntryPresent(b, id, k);
        KeysInstalled(b.plane, plane.view, p, id);
        KeysStep(b, W(sessions, plane), p, id, k);
        KeysSteps(w, b, W(sessions, plane), p, id);
      }
      return true, completed;
    }

    /** `ids` is the set of tracks that the participant asked for. */
    method HandleAnswer(p: Pid, answer: Answer, sessions: map<Pid, Handle>, plane: Plane, ghost ids: seq<Tid>,
                        ghost k: Slack)
      returns (activated: seq<Tid>, ghost fate: Fate)
      requires Sound(W(sessions, plane), k) && Calm(k)
      requires p in states ==> Follows(W(sessions, plane), p, ids) && OwnRoom(W(sessions, plane), p, ids)
      modifies this, plane
      ensures Sound(W(sessions, plane), k)
      ensures AnswerHandled(old(W(sessions, plane)), W(sessions, plane), p, ids, answer, activated, fate)
    {
      ghost var w := W(sessions, plane);
      activated := [];
      var accepted := AcceptAnswer(p, answer, sessions, plane, k);
      if accepted.NotExpected? {
        fate := Ignored;
        return;
      }
      if accepted.Invalid? {
        ghost var a := W(sessions, plane);
        AfterAnswer(p, sessions, plane, k);
        ghost var b := W(sessions, plane);
        RetryUnanswered(p, sessions, plane, k);
        RefutedDone(w, a, b, W(sessions, plane), p, ids);
        fate := Refuted;
        return;
      }
      var id := accepted.id;
      var ok, _ := ApplyDtls(p, id, accepted.dtls, sessions, plane, k);
      if !ok {
        fate := Shut;
        return;
      }
      ghost var x := W(sessions, plane);
      activated := ApplyAnswer(p, id, accepted.media, sessions, plane, ids, k);
      AfterHandshake(w, x, W(sessions, plane), p, ids, accepted.media, activated);
      fate := Applied;
    }

    /**
     A client that answers every offer wrongly, in whatever way, while nobody else acts. It
     is sent at most one offer for each thing that waited and each re-offer left, and then
     no offer is outstanding.
     */
    method Stonewall(p: Pid, sessions: map<Pid, Handle>, plane: Plane, ghost ids: seq<Tid>, ghost k: Slack)
      returns (answers: nat)
      requires Sound(W(sessions, plane), k) && Calm(k) && p in states && Waitless(states[p])
      requires Follows(W(sessions, plane), p, ids) && OwnRoom(W(sessions, plane), p, ids)
      modifies this, plane
      ensures Sound(W(sessions, plane), k) && p in states && !states[p].offerPending
      ensures Bit(old(states)[p].offerPending) <= answers <= Potential(old(states)[p]) + 1
      ensures OfferCount(W(sessions, plane), p) <= OfferCount(old(W(sessions, plane)), p) + Potential(old(states)[p])
    {
      answers := 0;
      ghost var w := W(sessions, plane);
      while states[p].offerPending
        invariant Sound(W(sessions, plane), k) && p in states && Follows(W(sessions, plane), p, ids)
          && OwnRoom(W(sessions, plane), p, ids)
        invariant Waitless(states[p]) && plane.view.tracks == w.plane.tracks
        invariant answers + Bit(states[p].offerPending) + Potential(states[p]) <= 1 + Potential(w.neg[p])
        invariant OfferCount(W(sessions, plane), p) + Potential(states[p]) <= OfferCount(w, p) + Potential(w.neg[p])
        invariant answers == 0 ==> states[p].offerPending == w.neg[p].offerPending
        decreases Potential(states[p]) + Bit(states[p].offerPending)
      {
        Answerable(W(sessions, plane), p, k);
        var answer: Answer := *;
        if answer.Parsed? && MidsMatch(answer.media, states[p].mlines) {
          answer := Malformed;
        }
        var _, _ := HandleAnswer(p, answer, sessions, plane, ids, k);
        answers := answers + 1;
      }
    }

    /** Tracks and subscriptions of an accepted answer, then what waited for it. */
    method ApplyAnswer(p: Pid, id: Sid, media: seq<AnswerMline>, sessions: map<Pid, Handle>, plane: Plane,
                       ghost ids: seq<Tid>, ghost k: Slack)
      returns (activated: seq<Tid>)
      requires Sound(W(sessions, plane), k) && Calm(k) && Follows(W(sessions, plane), p, ids)
      requires OwnRoom(W(sessions, plane), p, ids)
      requires states[p].session == Some(id) && states[p].offerPending && MidsMatch(media, states[p].mlines)
      modifies this, plane
      ensures Sound(W(sessions, plane), k)
        && Answered(old(W(sessions, plane)), W(sessions, plane), p, ids, media, activated)
    {
      ghost var w := W(sessions, plane);
      Present(w, p, k);
      Positions(w, p, k);
      WaitingMids(w, p, k);
      NoneStaleOffered(w, p, k);
      var mids := states[p].awaiting;
      states := states[p := states[p].(invalidAnswers := 0, awaiting := [], offerPending := false)];
      ghost var a := W(sessions, plane);
      TakeMids(w, a, p, k);
      RegisterPublishes(p, id, mids, media, sessions, plane, k);
      ghost var b := W(sessions, plane);
      activated := RegisterSubscriptions(p, id, media, sessions, plane, k);
      ghost var c := W(sessions, plane);
      SubscribedSoFar(w, a, b, c, p, id, media, activated, k);
      StillOwnRoom(w, a, b, c, p, media, ids, k);
      AfterAnswer(p, sessions, plane, k);
      AnsweredDone(w, a, b, c, W(sessions, plane), p, id, ids, media, activated);
    }

    /** Unsubscribed tracks: their m-lines turn inactive at once. */
    method DropSubscriptions(p: Pid, tracks: seq<Tid>, sessions: map<Pid, Handle>, plane: Plane, ghost k: Slack)
      requires Sound(W(sessions, plane), k) && k.gone == {}
      modifies this, plane
      ensures Sound(W(sessions, plane), k)
      ensures p !in old(states) ==> W(sessions, plane) == old(W(sessions, plane))
      ensures p in old(states) ==> Unslotted(old(W(sessions, plane)), W(sessions, plane), p, tracks)
    {
      if p !in states {
        return;
      }
      ghost var ms := states[p].mlines;
      var keep := KeptTracks(states[p].mlines, tracks);
      DropSubscriptionsExcept(p, keep, sessions, plane, k);
      KeptDropped(ms, tracks);
    }

    // ── Tracks that went away ──────────────────────────────────────

    /** The track leaves the participant's list and its m-line turns inactive. */
    method ReleasePublish(p: Pid, track: Tid, mid: nat)
      modifies this
      ensures states == if p in old(states) then old(states)[p := Released(old(states)[p], track, mid)] else old(states)
    {
      if p !in states {
        return;
      }
      states := states[p := states[p].(published := Without(states[p].published, track))];
      ReleaseUnregisteredPublish(p, mid);
    }

    /** Every m-line forwarding one of `tracks` turns inactive; the result is who had one. */
    method ForgetTracks(tracks: set<Tid>) returns (affected: set<Pid>)
      modifies this
      ensures states == Forgotten(old(states), tracks)
      ensures affected == set p | p in old(states)
        && ForgottenLines(old(states)[p].mlines, tracks) != old(states)[p].mlines
    {
      affected := {};
      var todo := states.Keys;
      while todo != {}
        invariant todo <= states.Keys == old(states).Keys
        invariant forall p :: p in todo ==> states[p] == old(states)[p]
        invariant forall p :: p in states.Keys - todo ==>
          states[p] == old(states)[p].(mlines := ForgottenLines(old(states)[p].mlines, tracks))
        invariant affected == set p | p in old(states).Keys - todo
          && ForgottenLines(old(states)[p].mlines, tracks) != old(states)[p].mlines
      {
        var p :| p in todo;
        var ms := ForgetLines(states[p].mlines, tracks);
        if ms != states[p].mlines {
          affected := affected + {p};
        }
        states := states[p := states[p].(mlines := ms)];
        todo := todo - {p};
      }
    }

    method ForgetLines(ms: seq<Mline>, tracks: set<Tid>) returns (r: seq<Mline>)
      ensures r == ForgottenLines(ms, tracks)
    {
      r := ms;
      for i := 0 to |ms|
        invariant |r| == |ms|
        invariant forall j :: 0 <= j < i ==> r[j] == ForgottenLines(ms, tracks)[j]
        invariant forall j :: i <= j < |ms| ==> r[j] == ms[j]
      {
        if r[i].role.Subscribe? && r[i].role.slot.track in tracks {
          r := r[i := r[i].(role := Inactive)];
        }
      }
    }

    // ── Leaving ────────────────────────────────────────────────────

    method AddParticipant(p: Pid)
      modifies this
      ensures states == old(states)[p := NEW_NEG]
    {
      states := states[p := NEW_NEG];
    }

    /** The participant's tracks leave the registry and its session the plane; the result is the tracks. */
    method CleanupParticipant(p: Pid, sessions: map<Pid, Handle>, plane: Plane, ghost k: Slack)
      returns (removed: set<Tid>)
      requires Sound(W(sessions, plane), k)
      modifies this, plane
      ensures states == old(states) - {p}
      ensures p !in old(states) ==> plane.view == old(plane.view) && removed == {}
      ensures p in old(states) ==>
        GoneFrom(old(plane.view), old(states)[p], p, plane.view) && removed == Elements(old(states)[p].published)
    {
      ghost var w := W(sessions, plane);
      Present(w, p, k);
      PublisherTracks(w, p, k);
      removed := TracksBy(plane.view.tracks, p);
      if p !in states {
        assert states - {p} == states;
        return;
      }
      var session := states[p].session;
      states := states - {p};
      plane.view := plane.view.(tracks := plane.view.tracks - removed);
      if session.Some? {
        plane.CloseSession(session.value);
      }
      plane.view := plane.view.(lost := plane.view.lost - {p}, dropped := plane.view.dropped - {p});
    }

    // ── Offers ─────────────────────────────────────────────────────

    /** One m-line of `refresh_stale_slots`. */
    method RefreshSlot(p: Pid, id: Sid, i: nat, sessions: map<Pid, Handle>, plane: Plane, ghost k: Slack)
      requires Sound(W(sessions, plane), k) && p in states && states[p].session == Some(id) && id in plane.view.entries
      requires i < |states[p].mlines|
      modifies this, plane
      ensures
        var (w, u) := (old(W(sessions, plane)), W(sessions, plane));
        Sound(u, k) && RefreshedAt(w, u, p, i)
    {
      ghost var w := W(sessions, plane);
      var (n, e) := (states[p], plane.view.entries[id]);
      if !n.mlines[i].role.Subscribe? {
        NothingToRefresh(w, p, i);
        return;
      }
      var slot := n.mlines[i].role.slot;
      if slot.onShard || !IsStale(e.ssrcs, slot.ssrc) {
        NothingToRefresh(w, p, i);
        return;
      }
      var ssrc := Allocated(e.ssrcs);
      plane.view := plane.view.(entries := plane.view.entries[id := e.(ssrcs := AfterAllocate(e.ssrcs))]);
      var role := match ssrc case Some(s) => Role.Subscribe(slot.(ssrc := s)) case None => Inactive;
      states := states[p := n.(mlines := n.mlines[i := n.mlines[i].(role := role)])];
      RefreshStep(w, W(sessions, plane), p, i, k);
    }

    method RefreshStaleSlots(p: Pid, id: Sid, sessions: map<Pid, Handle>, plane: Plane, ghost k: Slack)
      requires Sound(W(sessions, plane), k) && p in states && states[p].session == Some(id) && id in plane.view.entries
      modifies this, plane
      ensures
        var (w, u) := (old(W(sessions, plane)), W(sessions, plane));
        Sound(u, k) && RefreshedIn(w, u, p) && NoneStale(u, p)
    {
      ghost var w := W(sessions, plane);
      var i := 0;
      while i < |states[p].mlines|
        invariant p in states && 0 <= i <= |states[p].mlines| && states[p].session == Some(id)
          && id in plane.view.entries
        invariant Sound(W(sessions, plane), k) && RefreshedIn(w, W(sessions, plane), p)
        invariant forall j: nat :: j < i ==> !StaleAt(W(sessions, plane), p, j)
        decreases |states[p].mlines| - i
      {
        ghost var u := W(sessions, plane);
        RefreshSlot(p, id, i, sessions, plane, k);
        RefreshedTwice(w, u, W(sessions, plane), p);
        i := i + 1;
      }
    }

    method SendOrderedOffer(p: Pid, sessions: map<Pid, Handle>, plane: Plane, ghost k: Slack)
      requires Sound(W(sessions, plane), k) && (p in states ==> !states[p].offerPending)
      modifies this, plane
      ensures Sound(W(sessions, plane), k)
      ensures p in old(states) ==> OfferMade(old(W(sessions, plane)), W(sessions, plane), p)
      ensures p !in old(states) ==> W(sessions, plane) == old(W(sessions, plane))
    {
      if p !in states {
        return;
      }
      ghost var w := W(sessions, plane);
      if states[p].session.None? || states[p].mlines == [] {
        NoOffer(w, p);
        return;
      }
      Present(w, p, k);
      RefreshStaleSlots(p, states[p].session.value, sessions, plane, k);
      ghost var x := W(sessions, plane);
      var version := states[p].version + 1;
      var built: bool := *;
      if !built {
        plane.Tell(sessions, p, Error(OfferFailed));
        TellStep(x, p, Error(OfferFailed), k);
        OfferGivenUp(w, x, W(sessions, plane), p, Error(OfferFailed));
        return;
      }
      plane.view :=
        plane.view.(offers := plane.view.offers[p := plane.view.offers[p] + [Offer(version, states[p].mlines)]]);
      states := states[p := states[p].(offerPending := true, renegotiate := false, version := version)];
      OfferStep(x, W(sessions, plane), p, k);
      OfferWent(w, x, W(sessions, plane), p);
    }
  }

  /** A publish request for `kinds`. */
  function Wanted(kinds: seq<Kind>): (r: seq<Option<Kind>>)
    ensures Known(r) == kinds
  {
    if kinds == [] then [] else [Some(kinds[0])] + Wanted(kinds[1..])
  }
}
