/** What each participant asked to receive (src/orchestrator/subscription.rs), and how it agrees with its m-lines. */
module Subscriptions {
  import opened Collections
  import opened Wrappers
  import opened Shard
  import opened Tables
  import opened Updates
  import opened Offers
  import opened Steps
  import opened Protocol
  import opened Answers
  import opened ControlPlane
  import opened Negotiation

  // ── Subscription sets ────────────────────────────────────────────

  function TrackIds(ss: seq<Subscription>): (r: seq<Tid>)
    ensures |r| == |ss| && forall i :: 0 <= i < |ss| ==> r[i] == ss[i].track
  {
    seq(|ss|, i requires 0 <= i < |ss| => ss[i].track)
  }

  /** The tracks whose subscriptions are on the shard, as the subscription manager has it. */
  ghost function ActiveSet(ss: seq<Subscription>): set<Tid> {
    set i | 0 <= i < |ss| && ss[i].state == Active :: ss[i].track
  }

  function Negotiated(tracks: seq<Tid>): (r: seq<Subscription>)
    ensures |r| == |tracks| && forall i :: 0 <= i < |r| ==> r[i] == Subscription(tracks[i], Negotiating)
  {
    seq(|tracks|, i requires 0 <= i < |tracks| => Subscription(tracks[i], Negotiating))
  }

  /** Without the subscriptions to `tracks` (`retain`). */
  function Retained(ss: seq<Subscription>, tracks: set<Tid>): (r: seq<Subscription>)
    ensures |r| <= |ss|
  {
    if ss == [] then []
    else (if ss[0].track in tracks then [] else [ss[0]]) + Retained(ss[1..], tracks)
  }

  lemma {:induction false} RetainedMembers(ss: seq<Subscription>, tracks: set<Tid>)
    ensures forall s :: s in Retained(ss, tracks) <==> s in ss && s.track !in tracks
  {
    if ss != [] {
      RetainedMembers(ss[1..], tracks);
      assert ss == [ss[0]] + ss[1..];
    }
  }

  lemma {:induction false} RetainedSame(ss: seq<Subscription>, tracks: set<Tid>)
    ensures Retained(ss, tracks) == ss <==> forall i :: 0 <= i < |ss| ==> ss[i].track !in tracks
  {
    if ss != [] {
      RetainedSame(ss[1..], tracks);
      var (rest, r) := (Retained(ss[1..], tracks), Retained(ss, tracks));
      if ss[0].track !in tracks {
        assert r == [ss[0]] + rest && r[1..] == rest;
      }
    }
  }

  lemma {:induction false} RetainedDistinct(ss: seq<Subscription>, tracks: set<Tid>)
    ensures NoDup(TrackIds(ss)) ==> NoDup(TrackIds(Retained(ss, tracks)))
  {
    if ss != [] {
      RetainedDistinct(ss[1..], tracks);
      RetainedMembers(ss[1..], tracks);
      if NoDup(TrackIds(ss)) {
        RetainedNoDup(ss, tracks);
      }
    }
  }

  lemma RetainedNoDup(ss: seq<Subscription>, tracks: set<Tid>)
    requires ss != [] && NoDup(TrackIds(ss))
      && (NoDup(TrackIds(ss[1..])) ==> NoDup(TrackIds(Retained(ss[1..], tracks))))
    requires forall s :: s in Retained(ss[1..], tracks) ==> s in ss[1..]
    ensures NoDup(TrackIds(Retained(ss, tracks)))
  {
    var (rest, r) := (Retained(ss[1..], tracks), Retained(ss, tracks));
    assert TrackIds(ss[1..]) == TrackIds(ss)[1..];
    forall i | 0 <= i < |rest| ensures rest[i].track != ss[0].track {
      assert rest[i] in ss[1..];
      var j :| 0 <= j < |ss[1..]| && ss[1..][j] == rest[i];
      assert TrackIds(ss)[0] != TrackIds(ss)[j + 1];
    }
    if ss[0].track !in tracks {
      assert r == [ss[0]] + rest;
      forall i, j | 0 <= i < j < |r| ensures TrackIds(r)[i] != TrackIds(r)[j] {
        assert j > 0 ==> r[j] == rest[j - 1];
        assert i > 0 ==> TrackIds(rest)[i - 1] != TrackIds(rest)[j - 1];
      }
    } else {
      assert r == rest;
    }
  }

  /** Answered subscriptions turn active (`activate`). */
  function Activate(ss: seq<Subscription>, tracks: seq<Tid>): (r: seq<Subscription>)
    ensures |r| == |ss|
    ensures forall i :: 0 <= i < |ss| ==>
      r[i] == if ss[i].track in tracks then Subscription(ss[i].track, Active) else ss[i]
  {
    seq(|ss|, i requires 0 <= i < |ss| => if ss[i].track in tracks then Subscription(ss[i].track, Active) else ss[i])
  }

  lemma IdsAre(ss: seq<Subscription>, t: Tid)
    ensures t in TrackIds(ss) <==> exists s :: s in ss && s.track == t
    ensures t in ActiveSet(ss) <==> exists s :: s in ss && s.track == t && s.state == Active
    ensures t in ActiveSet(ss) ==> t in TrackIds(ss)
  {
    if t in TrackIds(ss) {
      var i :| 0 <= i < |ss| && TrackIds(ss)[i] == t;
      assert ss[i] in ss;
    }
    if s :| s in ss && s.track == t {
      var i :| 0 <= i < |ss| && ss[i] == s;
      assert TrackIds(ss)[i] == t;
    }
    if t in ActiveSet(ss) {
      var i :| 0 <= i < |ss| && ss[i].state == Active && ss[i].track == t;
      assert ss[i] in ss && TrackIds(ss)[i] == t;
    }
    if s :| s in ss && s.track == t && s.state == Active {
      var i :| 0 <= i < |ss| && ss[i] == s;
      assert t in ActiveSet(ss);
    }
  }

  lemma RetainedSets(ss: seq<Subscription>, tracks: set<Tid>)
    ensures Elements(TrackIds(Retained(ss, tracks))) == Elements(TrackIds(ss)) - tracks
    ensures ActiveSet(Retained(ss, tracks)) == ActiveSet(ss) - tracks
    ensures NoDup(TrackIds(ss)) ==> NoDup(TrackIds(Retained(ss, tracks)))
  {
    var r := Retained(ss, tracks);
    RetainedMembers(ss, tracks);
    RetainedDistinct(ss, tracks);
    forall t ensures t in TrackIds(r) <==> t in TrackIds(ss) && t !in tracks {
      IdsAre(ss, t);
      IdsAre(r, t);
    }
    forall t ensures t in ActiveSet(r) <==> t in ActiveSet(ss) && t !in tracks {
      IdsAre(ss, t);
      IdsAre(r, t);
    }
  }

  lemma ActivateSets(ss: seq<Subscription>, tracks: seq<Tid>)
    ensures TrackIds(Activate(ss, tracks)) == TrackIds(ss)
    ensures ActiveSet(Activate(ss, tracks)) == ActiveSet(ss) + (Elements(TrackIds(ss)) * Elements(tracks))
  {
    var r := Activate(ss, tracks);
    forall t | t in ActiveSet(ss) ensures t in ActiveSet(r) {
      var i :| 0 <= i < |ss| && ss[i].state == Active && ss[i].track == t;
      assert r[i].state == Active && r[i].track == t;
    }
    forall t | t in TrackIds(ss) && t in tracks ensures t in ActiveSet(r) {
      var i :| 0 <= i < |ss| && TrackIds(ss)[i] == t;
      assert r[i].state == Active && r[i].track == t;
    }
    forall t | t in ActiveSet(r) && t !in ActiveSet(ss) ensures t in TrackIds(ss) && t in tracks {
      var i :| 0 <= i < |r| && r[i].state == Active && r[i].track == t;
      assert TrackIds(ss)[i] == t;
    }
  }

  lemma AddedSets(ss: seq<Subscription>, tracks: seq<Tid>)
    requires NoDup(TrackIds(ss)) && NoDup(tracks) && forall t :: t in tracks ==> t !in TrackIds(ss)
    ensures
      var r := ss + Negotiated(tracks);
      && TrackIds(r) == TrackIds(ss) + tracks && NoDup(TrackIds(r)) && ActiveSet(r) == ActiveSet(ss)
      && Elements(TrackIds(ss)) <= Elements(TrackIds(r))
  {
    var r := ss + Negotiated(tracks);
    var (a, b) := (TrackIds(ss), TrackIds(r));
    assert b == a + tracks;
    forall i, j | 0 <= i < j < |b| ensures b[i] != b[j] {
      if j < |a| {
        assert b[i] == a[i] && b[j] == a[j];
      } else if i < |a| {
        assert b[i] == a[i] && a[i] in a && b[j] == tracks[j - |a|] && tracks[j - |a|] in tracks;
      } else {
        assert b[i] == tracks[i - |a|] && b[j] == tracks[j - |a|];
      }
    }
    forall t | t in ActiveSet(ss) ensures t in ActiveSet(r) {
      var i :| 0 <= i < |ss| && ss[i].state == Active && ss[i].track == t;
      assert r[i] == ss[i];
    }
    forall t | t in ActiveSet(r) ensures t in ActiveSet(ss) {
      var i :| 0 <= i < |r| && r[i].state == Active && r[i].track == t;
      assert r[i] == ss[i];
    }
  }

  // ── Agreement with the negotiation ───────────────────────────────

  /** `p` subscribes to each track once, to no more than fit, and to live ones of its own room. */
  ghost predicate InSet(w: World, p: Pid, ss: seq<Subscription>) {
    && p in w.sessions && NoDup(TrackIds(ss)) && |ss| <= MAX_SUBS_PER_SESSION
    && forall t :: t in TrackIds(ss) ==> t in w.plane.tracks && w.sessions[p].room == Some(w.plane.tracks[t].room)
  }

  /** Slots are for subscribed tracks, and active means on the shard. */
  ghost predicate InStep(n: Neg, ss: seq<Subscription>) {
    && SlotTracks(n.mlines) <= Elements(TrackIds(ss))
    && OnShardTracks(n.mlines) == ActiveSet(ss)
  }

  ghost predicate Agrees(w: World, p: Pid, ss: seq<Subscription>) {
    && p in w.neg && InSet(w, p, ss) && InStep(w.neg[p], ss)
    && Waitless(w.neg[p]) && (w.neg[p].renegotiate ==> w.neg[p].lastIds == TrackIds(ss))
  }

  ghost predicate LookAgreed(i: int) {
    true
  }

  /** All participants, sealed like the predicates of `Tables`. */
  ghost predicate Accord(w: World, subs: map<Pid, seq<Subscription>>) {
    forall i {:trigger LookAgreed(i)} :: LookAgreed(i) ==>
      subs.Keys == w.neg.Keys && forall p :: p in w.neg ==> Agrees(w, p, subs[p])
  }

  lemma AgreedFacts(w: World, subs: map<Pid, seq<Subscription>>, p: Pid)
    requires Accord(w, subs)
    ensures subs.Keys == w.neg.Keys && (p in w.neg ==> Agrees(w, p, subs[p]))
  {
    assert LookAgreed(0);
  }

  ghost predicate TracksStay(w: World, u: World) {
    forall t :: t in w.plane.tracks ==> t in u.plane.tracks && u.plane.tracks[t] == w.plane.tracks[t]
  }

  /** A step of `p` alone leaves the others in agreement. */
  lemma AccordKept(w: World, u: World, subs: map<Pid, seq<Subscription>>, p: Pid, ss: seq<Subscription>)
    requires Accord(w, subs) && p in w.neg && p in u.neg && u.neg == w.neg[p := u.neg[p]] && TracksStay(w, u)
    requires u.sessions.Keys == w.sessions.Keys && forall q :: q in w.sessions ==>
      u.sessions[q].room == w.sessions[q].room
    requires Agrees(u, p, ss)
    ensures Accord(u, subs[p := ss])
  {
    assert LookAgreed(0);
    forall q | q in u.neg ensures Agrees(u, q, subs[p := ss][q]) {
      assert Agrees(w, q, subs[q]);
    }
  }

  /** As `Agrees`, when the set is about to be offered. */
  ghost predicate Almost(w: World, p: Pid, ss: seq<Subscription>) {
    p in w.neg && InSet(w, p, ss) && InStep(w.neg[p], ss) && Waitless(w.neg[p])
  }

  lemma RequestedAgrees(w: World, u: World, p: Pid, ss: seq<Subscription>)
    requires Almost(w, p, ss) && Requested(w, u, p, TrackIds(ss))
    ensures Agrees(u, p, ss) && u.neg == w.neg[p := u.neg[p]] && TracksStay(w, u) && u.sessions == w.sessions
  {
    forall t | t in ActiveSet(ss) ensures t in TrackIds(ss) {
      IdsAre(ss, t);
    }
  }

  lemma SetInRoom(w: World, p: Pid, ss: seq<Subscription>)
    requires p in w.sessions ==> InSet(w, p, ss)
    ensures OwnRoom(w, p, TrackIds(ss))
  {
  }

  // ── Steps ────────────────────────────────────────────────────────

  /** Ids that `p` may subscribe to and does not yet. */
  predicate NewInRoom(ts: map<Tid, Track>, room: Room, ss: seq<Subscription>, t: Tid) {
    t != 0 && t in ts && ts[t].room == room && t !in TrackIds(ss)
  }

  lemma MoreAsked(w: World, a: World, p: Pid, ss: seq<Subscription>, accepted: seq<Tid>)
    requires Agrees(w, p, ss) && w.sessions[p].room.Some? && NoDup(accepted)
      && |ss| + |accepted| <= MAX_SUBS_PER_SESSION
    requires forall t :: t in accepted ==> NewInRoom(w.plane.tracks, w.sessions[p].room.value, ss, t)
    requires a.sessions == w.sessions && a.neg == w.neg && a.plane.tracks == w.plane.tracks
    ensures Almost(a, p, ss + Negotiated(accepted))
  {
    AddedSets(ss, accepted);
  }

  lemma FewerAsked(w: World, a: World, b: World, p: Pid, ss: seq<Subscription>, removed: seq<Tid>)
    requires Agrees(w, p, ss) && Unslotted(w, a, p, removed)
    requires b.sessions == a.sessions && b.neg == a.neg && b.plane.tracks == a.plane.tracks
    ensures Almost(b, p, Retained(ss, Elements(removed)))
  {
    RetainedSets(ss, Elements(removed));
    RetainedMembers(ss, Elements(removed));
    var r := Retained(ss, Elements(removed));
    forall t | t in TrackIds(r) ensures t in TrackIds(ss) {
      IdsAre(r, t);
      IdsAre(ss, t);
    }
  }

  ghost function NewOnes(w: World, p: Pid, ss: seq<Subscription>, ids: seq<Tid>): set<Tid>
    requires p in w.sessions && w.sessions[p].room.Some?
  {
    set t | t in ids && NewInRoom(w.plane.tracks, w.sessions[p].room.value, ss, t)
  }

  /** A participant in a room, few enough ids, something new among them, and space for all that is. */
  ghost predicate Admitted(w: World, p: Pid, ss: seq<Subscription>, ids: seq<Tid>) {
    && p in w.sessions && w.sessions[p].room.Some? && |ids| <= MAX_TRACKS_PER_REQUEST
    && 0 < |NewOnes(w, p, ss, ids)| <= MAX_SUBS_PER_SESSION - |ss|
  }

  /** What a subscribe request did. */
  ghost predicate SubscribeAsked(w: World, u: World, p: Pid, ss: seq<Subscription>, ids: seq<Tid>, accepted: seq<Tid>) {
    && p in w.neg && p in w.sessions && (accepted != [] <==> Admitted(w, p, ss, ids))
    && (accepted == [] ==> u.neg == w.neg && u.sessions == w.sessions && u.plane.tracks == w.plane.tracks)
    && (accepted == []
         && (exists t ::
              t in ids && (w.sessions[p].room.None? || NewInRoom(w.plane.tracks, w.sessions[p].room.value, ss, t))) ==>
          Mail(u, p) > Mail(w, p))
    && (accepted != [] ==>
          && w.sessions[p].room.Some? && NoDup(accepted)
          && (forall t :: t in accepted <==> t in ids && NewInRoom(w.plane.tracks, w.sessions[p].room.value, ss, t))
          && Requested(w.(plane := Told(w.plane, p, Subscribed(accepted))), u, p, TrackIds(ss) + accepted))
  }

  class SubscriptionManager {
    var states: map<Pid, seq<Subscription>>

    constructor ()
      ensures states == map[]
    {
      states := map[];
    }

    method AddParticipant(p: Pid)
      modifies this
      ensures states == old(states)[p := []]
    {
      states := states[p := []];
    }

    /** The ids to subscribe to, each once, in the order asked for. */
    method Subscribable(ids: seq<Tid>, ts: map<Tid, Track>, room: Room, ss: seq<Subscription>)
      returns (accepted: seq<Tid>)
      ensures NoDup(accepted) && forall t :: t in accepted <==> t in ids && NewInRoom(ts, room, ss, t)
    {
      accepted := [];
      for i := 0 to |ids|
        invariant NoDup(accepted) && forall t :: t in accepted <==> t in ids[..i] && NewInRoom(ts, room, ss, t)
      {
        if NewInRoom(ts, room, ss, ids[i]) && ids[i] !in accepted {
          accepted := accepted + [ids[i]];
        }
        assert ids[..i + 1] == ids[..i] + [ids[i]];
      }
      assert ids[..|ids|] == ids;
    }

    method HandleSubscribe(p: Pid, ids: seq<Tid>, negotiation: NegotiationManager, sessions: map<Pid, Handle>,
                           plane: Plane, ghost k: Slack)
      returns (ghost accepted: seq<Tid>)
      requires Sound(negotiation.W(sessions, plane), k) && Calm(k) && Accord(negotiation.W(sessions, plane), states)
      modifies this, negotiation, plane
      ensures Sound(negotiation.W(sessions, plane), k) && Accord(negotiation.W(sessions, plane), states)
      ensures p !in old(states) ==>
        states == old(states) && negotiation.W(sessions, plane) == old(negotiation.W(sessions, plane))
      ensures p in old(states) ==>
        && states == old(states)[p := old(states)[p] + Negotiated(accepted)]
        && SubscribeAsked(old(negotiation.W(sessions, plane)), negotiation.W(sessions, plane), p, old(states)[p], ids,
             accepted)
    {
      ghost var w := negotiation.W(sessions, plane);
      AgreedFacts(w, states, p);
      Present(w, p, k);
      accepted := [];
      if p !in states {
        return;
      }
      var ss := states[p];
      assert ss + Negotiated([]) == ss && states[p := ss] == states;
      if p !in sessions || sessions[p].room.None? {
        Refuse(p, NotInRoom, negotiation, sessions, plane, k);
        return;
      }
      if |ids| > MAX_TRACKS_PER_REQUEST {
        Refuse(p, TooManyTracks, negotiation, sessions, plane, k);
        return;
      }
      var tracks := Subscribable(ids, plane.view.tracks, sessions[p].room.value, ss);
      assert Elements(tracks) == NewOnes(w, p, ss, ids);
      DistinctSize(tracks);
      if tracks == [] {
        return;
      }
      if |ss| + |tracks| > MAX_SUBS_PER_SESSION {
        Refuse(p, TooManyTracks, negotiation, sessions, plane, k);
        return;
      }
      accepted := tracks;
      states := states[p := ss + Negotiated(tracks)];
      plane.Tell(sessions, p, Subscribed(tracks));
      ghost var a := negotiation.W(sessions, plane);
      TellStep(w, p, Subscribed(tracks), k);
      MoreAsked(w, a, p, ss, tracks);
      AddedSets(ss, tracks);
      SetInRoom(a, p, states[p]);
      negotiation.RequestRenegotiation(p, TrackIds(states[p]), sessions, plane, k);
      RequestedAgrees(a, negotiation.W(sessions, plane), p, states[p]);
      AccordKept(w, negotiation.W(sessions, plane), old(states), p, states[p]);
    }

    /** A message instead of a change. */
    method Refuse(p: Pid, code: ErrorCode, negotiation: NegotiationManager, sessions: map<Pid, Handle>, plane: Plane,
                  ghost k: Slack)
      requires Sound(negotiation.W(sessions, plane), k) && Accord(negotiation.W(sessions, plane), states)
        && p in negotiation.states
      modifies plane
      ensures Sound(negotiation.W(sessions, plane), k) && Accord(negotiation.W(sessions, plane), states)
      ensures plane.view == Told(old(plane.view), p, Error(code))
        && Mail(negotiation.W(sessions, plane), p) > Mail(old(negotiation.W(sessions, plane)), p)
    {
      ghost var w := negotiation.W(sessions, plane);
      Present(w, p, k);
      plane.Tell(sessions, p, Error(code));
      TellStep(w, p, Error(code), k);
      AgreedFacts(w, states, p);
      assert Agrees(negotiation.W(sessions, plane), p, states[p]);
      AccordKept(w, negotiation.W(sessions, plane), states, p, states[p]);
      assert states[p := states[p]] == states;
    }

    /** The requested subscriptions are dropped from the set; the result is the ones there were. */
    method Remove(p: Pid, ids: seq<Tid>) returns (removed: seq<Tid>)
      requires p in states && NoDup(TrackIds(states[p]))
      modifies this
      ensures states == old(states)[p := Retained(old(states)[p], Elements(removed))]
      ensures forall t :: t in removed <==> t in ids && t in TrackIds(old(states)[p])
    {
      var ss := states[p];
      var rest := ss;
      removed := [];
      RetainedAll(ss);
      for i := 0 to |ids|
        invariant states == old(states) && rest == Retained(ss, Elements(removed))
        invariant forall t :: t in removed <==> t in ids[..i] && t in TrackIds(ss)
      {
        RemoveStep(ss, ids, i, removed);
        if ids[i] in TrackIds(rest) {
          rest := Retained(rest, {ids[i]});
          removed := removed + [ids[i]];
        }
      }
      assert ids[..|ids|] == ids;
      states := states[p := rest];
    }

    method HandleUnsubscribe(p: Pid, ids: seq<Tid>, negotiation: NegotiationManager, sessions: map<Pid, Handle>,
                             plane: Plane, ghost k: Slack)
      returns (ghost removed: seq<Tid>)
      requires Sound(negotiation.W(sessions, plane), k) && Calm(k) && Accord(negotiation.W(sessions, plane), states)
      modifies this, negotiation, plane
      ensures Sound(negotiation.W(sessions, plane), k) && Accord(negotiation.W(sessions, plane), states)
      ensures p !in old(states) ==>
        states == old(states) && negotiation.W(sessions, plane) == old(negotiation.W(sessions, plane))
      ensures p in old(states) ==>
        && states == old(states)[p := Retained(old(states)[p], Elements(removed))]
        && (forall t :: t in removed <==> t in ids && t in TrackIds(old(states)[p]))
        && UnsubscribeAsked(old(negotiation.W(sessions, plane)), negotiation.W(sessions, plane), p, states[p], removed)
    {
      ghost var w := negotiation.W(sessions, plane);
      AgreedFacts(w, states, p);
      Present(w, p, k);
      removed := [];
      if p !in states {
        return;
      }
      ghost var ss := states[p];
      var gone := Remove(p, ids);
      removed := gone;
      if gone == [] {
        RetainedAll(ss);
        assert Elements([]) == {} && states == old(states);
        return;
      }
      negotiation.DropSubscriptions(p, gone, sessions, plane, k);
      ghost var a := negotiation.W(sessions, plane);
      plane.Tell(sessions, p, Unsubscribed(gone));
      ghost var b := negotiation.W(sessions, plane);
      TellStep(a, p, Unsubscribed(gone), k);
      FewerAsked(w, a, b, p, ss, gone);
      SetInRoom(b, p, states[p]);
      negotiation.RequestRenegotiation(p, TrackIds(states[p]), sessions, plane, k);
      RequestedAgrees(b, negotiation.W(sessions, plane), p, states[p]);
      AccordKept(w, negotiation.W(sessions, plane), old(states), p, states[p]);
      UnsubscribedDone(w, a, b, negotiation.W(sessions, plane), p, states[p], gone);
    }

    /** The answer put `tracks` on the shard. */
    method ActivateTracks(p: Pid, tracks: seq<Tid>)
      modifies this
      ensures states == if p in old(states) then old(states)[p := Activate(old(states)[p], tracks)] else old(states)
    {
      if p !in states {
        return;
      }
      var ss := states[p];
      for i := 0 to |ss|
        invariant |ss| == |old(states)[p]|
        invariant forall j :: 0 <= j < i ==> ss[j] == Activate(old(states)[p], tracks)[j]
        invariant forall j :: i <= j < |ss| ==> ss[j] == old(states)[p][j]
      {
        if ss[i].state == Negotiating && ss[i].track in tracks {
          ss := ss[i := ss[i].(state := Active)];
        }
      }
      assert ss == Activate(old(states)[p], tracks);
      states := states[p := ss];
    }

    /** `tracks` leave every subscription set; the result is who had one. */
    method ForgetTracks(tracks: set<Tid>) returns (affected: set<Pid>)
      modifies this
      ensures states == ForgottenSets(old(states), tracks)
      ensures affected == set p | p in old(states) && Retained(old(states)[p], tracks) != old(states)[p]
    {
      affected := {};
      var todo := states.Keys;
      while todo != {}
        invariant todo <= states.Keys == old(states).Keys
        invariant forall p :: p in todo ==> states[p] == old(states)[p]
        invariant forall p :: p in states.Keys - todo ==> states[p] == Retained(old(states)[p], tracks)
        invariant affected == set p | p in old(states).Keys - todo && Retained(old(states)[p], tracks) != old(states)[p]
      {
        var p :| p in todo;
        var ss := Retained(states[p], tracks);
        if ss != states[p] {
          affected := affected + {p};
        }
        states := states[p := ss];
        todo := todo - {p};
      }
    }

    method CleanupParticipant(p: Pid)
      modifies this
      ensures states == old(states) - {p}
    {
      states := states - {p};
    }
  }

  ghost predicate UnsubscribeAsked(w: World, u: World, p: Pid, ss: seq<Subscription>, removed: seq<Tid>) {
    && (removed == [] ==> u == w)
    && (removed != [] ==>
         exists a ::
           Unslotted(w, a, p, removed)
             && Requested(a.(plane := Told(a.plane, p, Unsubscribed(removed))), u, p, TrackIds(ss)))
  }

  lemma UnsubscribedDone(w: World, a: World, b: World, u: World, p: Pid, ss: seq<Subscription>, removed: seq<Tid>)
    requires removed != [] && Unslotted(w, a, p, removed)
      && b == a.(plane := Told(a.plane, p, Unsubscribed(removed))) && Requested(b, u, p, TrackIds(ss))
    ensures UnsubscribeAsked(w, u, p, ss, removed)
  {
  }

  lemma RemoveStep(ss: seq<Subscription>, ids: seq<Tid>, i: nat, removed: seq<Tid>)
    requires i < |ids| && forall t :: t in removed <==> t in ids[..i] && t in TrackIds(ss)
    ensures
      var rest := Retained(ss, Elements(removed));
      if ids[i] in TrackIds(rest)
      then Retained(rest, {ids[i]}) == Retained(ss, Elements(removed + [ids[i]]))
        && forall t :: t in removed + [ids[i]] <==> t in ids[..i + 1] && t in TrackIds(ss)
      else forall t :: t in removed <==> t in ids[..i + 1] && t in TrackIds(ss)
  {
    assert ids[..i + 1] == ids[..i] + [ids[i]];
    RetainedSets(ss, Elements(removed));
    var rest := Retained(ss, Elements(removed));
    assert ids[i] in TrackIds(rest) <==> ids[i] in Elements(TrackIds(rest));
    assert ids[i] in TrackIds(ss) <==> ids[i] in Elements(TrackIds(ss));
    if ids[i] in TrackIds(rest) {
      RetainedTwice(ss, Elements(removed), {ids[i]});
      assert Elements(removed + [ids[i]]) == Elements(removed) + {ids[i]} by {
        assert (removed + [ids[i]])[|removed|] == ids[i];
      }
    }
  }

  function ForgottenSets(subs: map<Pid, seq<Subscription>>, tracks: set<Tid>): (r: map<Pid, seq<Subscription>>)
    ensures r.Keys == subs.Keys && forall p :: p in subs ==> r[p] == Retained(subs[p], tracks)
  {
    map p | p in subs :: Retained(subs[p], tracks)
  }

  lemma RetainedAll(ss: seq<Subscription>)
    ensures Retained(ss, {}) == ss && Elements([]) == {}
  {
    RetainedSame(ss, {});
  }

  lemma {:induction false} RetainedTwice(ss: seq<Subscription>, a: set<Tid>, b: set<Tid>)
    ensures Retained(Retained(ss, a), b) == Retained(ss, a + b)
  {
    if ss != [] {
      RetainedTwice(ss[1..], a, b);
      var (rest, r) := (Retained(ss[1..], a), Retained(ss, a));
      if ss[0].track in a {
        assert r == rest;
      } else {
        assert r == [ss[0]] + rest && r[1..] == rest;
      }
    }
  }
}
