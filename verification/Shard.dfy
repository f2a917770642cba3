/**
 The shard's tables and what each command does to them
 (crates/nexus-dataplane/src/shard/commands.rs). The orchestrator sees none of this: it
 only learns that the queue took a command, and later that the shard refused one.
 */
module Shard {
  import opened Words
  import opened Collections
  import opened Wrappers
  import opened Ssrc

  type Sid = nat
  type Tid = nat
  type SubId = nat

  const MAX_TRACKS_PER_SESSION: nat := 10
  const MAX_SUBS_PER_SESSION: nat := 31

  datatype ShardSession = ShardSession(base: u32, lastOffset: nat, srtp: bool)
  datatype ShardTrack = ShardTrack(session: Sid, ssrc: Option<u32>)
  datatype ShardSub = ShardSub(session: Sid, track: Tid, outSsrc: u32)

  datatype Tables = Tables(
    sessions: map<Sid, ShardSession>,
    tracks: map<Tid, ShardTrack>,
    subs: map<SubId, ShardSub>)

  datatype Command =
    | CreateSession(id: Sid, base: u32)
    | SendDatagram(id: Sid)
    | InstallSrtp(id: Sid)
    | AddTrack(id: Sid, track: Tid, ssrc: Option<u32>)
    | RemoveTrack(track: Tid)
    | Subscribe(id: Sid, sub: SubId, track: Tid, outSsrc: u32)
    | Unsubscribe(sub: SubId)
    | CloseSession(id: Sid)

  datatype Reject =
    | UnknownSession | UnknownTrack | UnknownSubscription | DuplicateId
    | TrackLimit | SubscriptionLimit | SrtpAlreadyInstalled | OutSsrcNotMonotonic | SsrcInUse

  const EMPTY := Tables(map[], map[], map[])

  function TracksOf(t: Tables, id: Sid): set<Tid> {
    set x | x in t.tracks && t.tracks[x].session == id
  }

  function SubsOf(t: Tables, id: Sid): set<SubId> {
    set x | x in t.subs && t.subs[x].session == id
  }

  function SubsTo(t: Tables, tracks: set<Tid>): set<SubId> {
    set x | x in t.subs && t.subs[x].track in tracks
  }

  /** The offset of an out SSRC from the session's base (`wrapping_sub`). */
  function Offset(s: ShardSession, ssrc: u32): u32 {
    WrapSub(ssrc, s.base)
  }

  /** Why the shard refuses `c`; `None` if it applies it. */
  function Verdict(t: Tables, c: Command): (r: Option<Reject>) {
    match c
    case CreateSession(id, _) => if id in t.sessions then Some(DuplicateId) else None
    case SendDatagram(id) => if id !in t.sessions then Some(UnknownSession) else None
    case InstallSrtp(id) =>
      if id !in t.sessions then Some(UnknownSession)
      else if t.sessions[id].srtp then Some(SrtpAlreadyInstalled)
      else None
    case AddTrack(id, track, ssrc) =>
      if id !in t.sessions then Some(UnknownSession)
      else if track in t.tracks then Some(DuplicateId)
      else if |TracksOf(t, id)| >= MAX_TRACKS_PER_SESSION then Some(TrackLimit)
      else if ssrc.Some? && exists x :: x in t.tracks && t.tracks[x] == ShardTrack(id, ssrc) then Some(SsrcInUse)
      else None
    case RemoveTrack(track) => if track !in t.tracks then Some(UnknownTrack) else None
    case Subscribe(id, sub, track, outSsrc) =>
      if id !in t.sessions then Some(UnknownSession)
      else if track !in t.tracks then Some(UnknownTrack)
      else if sub in t.subs then Some(DuplicateId)
      else if |SubsOf(t, id)| >= MAX_SUBS_PER_SESSION then Some(SubscriptionLimit)
      else if !(t.sessions[id].lastOffset < Offset(t.sessions[id], outSsrc) <= MAX_OFFSET)
      then Some(OutSsrcNotMonotonic)
      else None
    case Unsubscribe(sub) => if sub !in t.subs then Some(UnknownSubscription) else None
    case CloseSession(id) => if id !in t.sessions then Some(UnknownSession) else None
  }

  /** The tables after `c`; a refused command changes nothing. */
  function Apply(t: Tables, c: Command): (r: Tables) {
    if Verdict(t, c).Some? then t else
    match c
    case CreateSession(id, base) => t.(sessions := t.sessions[id := ShardSession(base, 0, false)])
    case SendDatagram(_) => t
    case InstallSrtp(id) => t.(sessions := t.sessions[id := t.sessions[id].(srtp := true)])
    case AddTrack(id, track, ssrc) => t.(tracks := t.tracks[track := ShardTrack(id, ssrc)])
    case RemoveTrack(track) => t.(tracks := t.tracks - {track}, subs := t.subs - SubsTo(t, {track}))
    case Subscribe(id, sub, track, outSsrc) =>
      t.(subs := t.subs[sub := ShardSub(id, track, outSsrc)],
         sessions := t.sessions[id := t.sessions[id].(lastOffset := Offset(t.sessions[id], outSsrc))])
    case Unsubscribe(sub) => t.(subs := t.subs - {sub})
    case CloseSession(id) =>
      t.(sessions := t.sessions - {id},
         tracks := t.tracks - TracksOf(t, id),
         subs := t.subs - SubsTo(t, TracksOf(t, id)) - SubsOf(t, id))
  }

  /** Tracks and subscriptions belong to sessions and tracks that exist. */
  predicate Linked(t: Tables) {
    && (forall x :: x in t.tracks ==> t.tracks[x].session in t.sessions)
    && (forall x :: x in t.subs ==> t.subs[x].session in t.sessions && t.subs[x].track in t.tracks)
  }

  predicate WithinLimits(t: Tables) {
    forall id :: id in t.sessions ==>
      |TracksOf(t, id)| <= MAX_TRACKS_PER_SESSION && |SubsOf(t, id)| <= MAX_SUBS_PER_SESSION
  }

  /** No subscription of a session is above the last offset the session accepted. */
  predicate OffsetsBounded(t: Tables)
    requires Linked(t)
  {
    forall x :: x in t.subs ==>
      var s := t.sessions[t.subs[x].session];
      Offset(s, t.subs[x].outSsrc) <= s.lastOffset
  }

  /** Only `AddTrack` and `Subscribe` of a session add to what it has. */
  lemma OthersOnlyRemove(t: Tables, c: Command, id: Sid)
    requires Linked(t)
    ensures !(c.AddTrack? && c.id == id && Verdict(t, c).None?) ==> TracksOf(Apply(t, c), id) <= TracksOf(t, id)
    ensures !(c.Subscribe? && c.id == id && Verdict(t, c).None?) ==> SubsOf(Apply(t, c), id) <= SubsOf(t, id)
    ensures id !in t.sessions ==> TracksOf(t, id) == {} && SubsOf(t, id) == {}
  {
  }

  lemma AddedOne(t: Tables, c: Command)
    requires Verdict(t, c).None?
    ensures c.AddTrack? ==>
      TracksOf(Apply(t, c), c.id) == TracksOf(t, c.id) + {c.track} && |TracksOf(t, c.id)| < MAX_TRACKS_PER_SESSION
    ensures c.Subscribe? ==>
      SubsOf(Apply(t, c), c.id) == SubsOf(t, c.id) + {c.sub} && |SubsOf(t, c.id)| < MAX_SUBS_PER_SESSION
  {
  }

  lemma CountsKept(t: Tables, c: Command, id: Sid)
    requires Linked(t) && WithinLimits(t)
    ensures |TracksOf(Apply(t, c), id)| <= MAX_TRACKS_PER_SESSION && |SubsOf(Apply(t, c), id)| <= MAX_SUBS_PER_SESSION
  {
    OthersOnlyRemove(t, c, id);
    var (tracks, subs) := (TracksOf(Apply(t, c), id), SubsOf(Apply(t, c), id));
    if tracks <= TracksOf(t, id) {
      Subset(tracks, TracksOf(t, id));
    } else {
      AddedOne(t, c);
    }
    if subs <= SubsOf(t, id) {
      Subset(subs, SubsOf(t, id));
    } else {
      AddedOne(t, c);
    }
  }

  lemma LinksKept(t: Tables, c: Command)
    requires Linked(t)
    ensures Linked(Apply(t, c))
  {
  }

  lemma OffsetsKept(t: Tables, c: Command)
    requires Linked(t) && OffsetsBounded(t) && Linked(Apply(t, c))
    ensures OffsetsBounded(Apply(t, c))
  {
  }

  /** Every command, from any sender, keeps the shard's tables linked, bounded and ordered. */
  lemma ApplyKeepsTables(t: Tables, c: Command)
    requires Linked(t) && WithinLimits(t) && OffsetsBounded(t)
    ensures Linked(Apply(t, c)) && WithinLimits(Apply(t, c)) && OffsetsBounded(Apply(t, c))
  {
    LinksKept(t, c);
    OffsetsKept(t, c);
    forall id | id in Apply(t, c).sessions
      ensures |TracksOf(Apply(t, c), id)| <= MAX_TRACKS_PER_SESSION
      ensures |SubsOf(Apply(t, c), id)| <= MAX_SUBS_PER_SESSION
    {
      CountsKept(t, c, id);
    }
  }
}
