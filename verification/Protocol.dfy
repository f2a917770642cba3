/** What the negotiation's steps promise to each other and to the other managers. */
module Protocol {
  import opened Words
  import opened Collections
  import opened Wrappers
  import opened Ssrc
  import opened Shard
  import opened Tables
  import opened Commands
  import opened Publishing
  import opened Lifecycle
  import opened Mlines
  import opened Offers
  import opened Steps

  // ── Vocabulary ───────────────────────────────────────────────────

  /** The tracks that some subscribe m-line forwards. */
  ghost function SlotTracks(ms: seq<Mline>): set<Tid> {
    set i | 0 <= i < |ms| && ms[i].role.Subscribe? :: ms[i].role.slot.track
  }

  /** The tracks that are forwarded on the shard. */
  ghost function OnShardTracks(ms: seq<Mline>): set<Tid> {
    set i | 0 <= i < |ms| && ms[i].role.Subscribe? && ms[i].role.slot.onShard :: ms[i].role.slot.track
  }

  /** Nothing is unfinished but closings in progress. */
  ghost predicate Calm(k: Slack) {
    k.gone == {} && k.open == {}
  }

  /** How many messages `p` was sent. */
  ghost function Mail(w: World, p: Pid): nat {
    if p in w.plane.outbox then |w.plane.outbox[p]| else 0
  }

  ghost function OfferCount(w: World, p: Pid): nat {
    if p in w.plane.offers then |w.plane.offers[p]| else 0
  }

  /** No SSRC is left for `p`'s session. */
  ghost predicate Exhausted(w: World, p: Pid) {
    && p in w.neg && w.neg[p].session.Some? && w.neg[p].session.value in w.plane.entries
    && Allocated(w.plane.entries[w.neg[p].session.value].ssrcs).None?
  }

  /** Other participants' state, mail and offers are the same. */
  ghost predicate Only(w: World, u: World, p: Pid) {
    && u.sessions == w.sessions
    && p in w.neg && p in u.neg && u.neg == w.neg[p := u.neg[p]]
    && (w.neg[p].session.Some? ==> u.neg[p].session == w.neg[p].session)
    && (forall q :: q != p ==> Mail(u, q) == Mail(w, q) && OfferCount(u, q) == OfferCount(w, q))
    && Mail(w, p) <= Mail(u, p) && OfferCount(w, p) <= OfferCount(u, p)
    && w.plane.refused <= u.plane.refused
  }

  lemma OnlyTwice(w: World, u: World, x: World, p: Pid)
    requires Only(w, u, p) && Only(u, x, p)
    ensures Only(w, x, p)
  {
  }

  // ── Offers ───────────────────────────────────────────────────────

  /** An off-shard slot got a new SSRC, or lost its m-line; everything else is the same. */
  ghost predicate Refreshes(ms: seq<Mline>, us: seq<Mline>) {
    && |us| == |ms|
    && forall i :: 0 <= i < |ms| ==> RefreshedRole(ms[i], us[i])
  }

  predicate RefreshedRole(a: Mline, b: Mline) {
    || b == a
    || (&& a.role.Subscribe? && !a.role.slot.onShard
        && (|| b == a.(role := Inactive)
            || (b.role.Subscribe? && b == a.(role := Role.Subscribe(a.role.slot.(ssrc := b.role.slot.ssrc))))))
  }

  lemma RefreshesTwice(a: seq<Mline>, b: seq<Mline>, c: seq<Mline>)
    requires Refreshes(a, b) && Refreshes(b, c)
    ensures Refreshes(a, c)
  {
    forall i | 0 <= i < |a| ensures RefreshedRole(a[i], c[i]) {
      assert RefreshedRole(a[i], b[i]) && RefreshedRole(b[i], c[i]);
    }
  }

  lemma RefreshesTracks(ms: seq<Mline>, us: seq<Mline>)
    requires Refreshes(ms, us)
    ensures SlotTracks(us) <= SlotTracks(ms) && OnShardTracks(us) == OnShardTracks(ms)
    ensures (forall i :: SlotAt(ms, i) ==> SlotAt(us, i)) ==> SlotTracks(us) == SlotTracks(ms)
    ensures forall i :: PublishAt(us, i) <==> PublishAt(ms, i)
  {
    forall t | t in SlotTracks(us) ensures t in SlotTracks(ms) {
      var i :| 0 <= i < |us| && us[i].role.Subscribe? && us[i].role.slot.track == t;
      assert RefreshedRole(ms[i], us[i]);
    }
    forall t | t in OnShardTracks(us) ensures t in OnShardTracks(ms) {
      var i :| 0 <= i < |us| && us[i].role.Subscribe? && us[i].role.slot.onShard && us[i].role.slot.track == t;
      assert RefreshedRole(ms[i], us[i]);
    }
    forall t | t in OnShardTracks(ms) ensures t in OnShardTracks(us) {
      var i :| 0 <= i < |ms| && ms[i].role.Subscribe? && ms[i].role.slot.onShard && ms[i].role.slot.track == t;
      assert RefreshedRole(ms[i], us[i]);
    }
    if forall i :: SlotAt(ms, i) ==> SlotAt(us, i) {
      forall t | t in SlotTracks(ms) ensures t in SlotTracks(us) {
        var i :| 0 <= i < |ms| && ms[i].role.Subscribe? && ms[i].role.slot.track == t;
        assert SlotAt(us, i) && RefreshedRole(ms[i], us[i]);
      }
    }
  }

  /** Only `p`'s m-lines and allocator changed, by refreshing stale slots. */
  ghost predicate RefreshedIn(w: World, u: World, p: Pid) {
    && p in w.neg && p in u.neg && u.sessions == w.sessions
    && u.neg == w.neg[p := w.neg[p].(mlines := u.neg[p].mlines)]
    && u.plane == w.plane.(entries := u.plane.entries)
    && u.plane.entries.Keys == w.plane.entries.Keys
    && Refreshes(w.neg[p].mlines, u.neg[p].mlines)
    && (Exhausted(u, p) || forall i :: SlotAt(w.neg[p].mlines, i) ==> SlotAt(u.neg[p].mlines, i))
  }

  /** M-line `i` was looked at: it is not stale now, and no other one became so. */
  ghost predicate RefreshedAt(w: World, u: World, p: Pid, i: nat) {
    && RefreshedIn(w, u, p) && (Exhausted(w, p) ==> Exhausted(u, p))
    && !StaleAt(u, p, i) && forall j: nat :: StaleAt(u, p, j) ==> StaleAt(w, p, j)
  }

  lemma NothingToRefresh(w: World, p: Pid, i: nat)
    requires p in w.neg && !StaleAt(w, p, i)
    ensures RefreshedAt(w, w, p, i)
  {
  }

  lemma RefreshFacts(w: World, u: World, p: Pid, i: nat)
    requires StaleAt(w, p, i) && u == Refreshed(w, p, i) && Valid(w.plane.entries[w.neg[p].session.value].ssrcs)
    ensures RefreshedAt(w, u, p, i)
  {
    AllocatedIsFresh(w.plane.entries[w.neg[p].session.value].ssrcs);
  }

  lemma RefreshSound(w: World, u: World, p: Pid, i: nat, k: Slack)
    requires Sound(w, k) && StaleAt(w, p, i) && u == Refreshed(w, p, i)
    ensures Sound(u, k) && Valid(w.plane.entries[w.neg[p].session.value].ssrcs)
  {
    assert Look(0);
    RefreshedKeeps(w, p, i, k);
    SessionFacts(w.plane, w.neg[p].session.value);
  }

  lemma RefreshStep(w: World, u: World, p: Pid, i: nat, k: Slack)
    requires Sound(w, k) && StaleAt(w, p, i) && u == Refreshed(w, p, i)
    ensures Sound(u, k) && RefreshedAt(w, u, p, i)
  {
    RefreshSound(w, u, p, i, k);
    RefreshFacts(w, u, p, i);
  }

  lemma RefreshedTwice(w: World, u: World, x: World, p: Pid)
    requires RefreshedIn(w, u, p) && RefreshedIn(u, x, p) && (Exhausted(u, p) ==> Exhausted(x, p))
    ensures RefreshedIn(w, x, p)
  {
    RefreshesTwice(w.neg[p].mlines, u.neg[p].mlines, x.neg[p].mlines);
  }

  /**
   `p` was sent an offer of all its m-lines, or told why not; an SSRC that the shard would
   refuse is in neither case left on an off-shard slot.
   */
  ghost predicate OfferMade(w: World, u: World, p: Pid) {
    && Only(w, u, p) && u.plane.tracks == w.plane.tracks
    && var (n, m) := (w.neg[p], u.neg[p]);
       && Refreshes(n.mlines, m.mlines)
       && (Exhausted(u, p) || forall i :: SlotAt(n.mlines, i) ==> SlotAt(m.mlines, i))
       && (m.offerPending ==> OfferAdded(w, u, p) && m == OfferSent(n).(mlines := m.mlines) && Mail(u, p) == Mail(w, p))
       && (!m.offerPending ==> m == n.(mlines := m.mlines) && OfferCount(u, p) == OfferCount(w, p))
       && (!m.offerPending && n.session.Some? && n.mlines != [] ==> Mail(u, p) > Mail(w, p))
  }

  /** The last offer to `p` is new, and carries its m-lines. */
  ghost predicate OfferAdded(w: World, u: World, p: Pid) {
    && p in u.neg && p in u.plane.offers && OfferCount(u, p) == OfferCount(w, p) + 1
    && u.plane.offers[p][OfferCount(w, p)] == Offer(u.neg[p].version, u.neg[p].mlines)
  }

  lemma NoOffer(w: World, p: Pid)
    requires p in w.neg && !w.neg[p].offerPending && (w.neg[p].session.None? || w.neg[p].mlines == [])
    ensures OfferMade(w, w, p)
  {
  }

  lemma OfferGivenUp(w: World, x: World, u: World, p: Pid, signal: Signal)
    requires RefreshedIn(w, x, p) && !w.neg[p].offerPending && p in w.plane.outbox
      && u == x.(plane := Told(x.plane, p, signal))
    ensures OfferMade(w, u, p)
  {
  }

  lemma OfferWent(w: World, x: World, u: World, p: Pid)
    requires RefreshedIn(w, x, p) && !w.neg[p].offerPending && p in x.plane.offers && u == Offered(x, p)
    ensures OfferMade(w, u, p)
  {
  }

  lemma OfferStep(w: World, u: World, p: Pid, k: Slack)
    requires Sound(w, k) && p in w.neg && NoneStale(w, p) && !w.neg[p].offerPending && w.neg[p].session.Some?
    requires p in w.plane.offers && u == Offered(w, p)
    ensures Sound(u, k)
  {
    assert Look(0);
    OfferedKeeps(w, p, k);
  }

  lemma TellStep(w: World, p: Pid, signal: Signal, k: Slack)
    requires Sound(w, k)
    ensures Sound(w.(plane := Told(w.plane, p, signal)), k)
  {
    assert Look(0);
    ToldKeeps(w, p, signal, k);
  }

  /** A participant's row is in every table. */
  lemma Present(w: World, p: Pid, k: Slack)
    requires Sound(w, k)
    ensures w.sessions.Keys == w.neg.Keys && 0 !in w.neg
    ensures p in w.neg ==> p in w.plane.outbox && p in w.plane.offers
    ensures p in w.neg && w.neg[p].session.Some? ==> HasEntry(w, p)
  {
    assert Look(0);
    if p in w.neg && w.neg[p].session.Some? {
      TransportFacts(w, p);
      SessionFacts(w.plane, w.neg[p].session.value);
    }
  }

  ghost predicate HasEntry(w: World, p: Pid) {
    && p in w.neg && w.neg[p].session.Some?
    && var id := w.neg[p].session.value;
       id in w.plane.entries && w.plane.entries[id].participant == p && id in w.plane.shard.sessions
  }

  // ── Sessions ─────────────────────────────────────────────────────

  /** `p` has session `r`, as before or new; or it has none and was told so. */
  ghost predicate SessionEnsured(w: World, u: World, p: Pid, r: Option<Sid>) {
    && Only(w, u, p) && u.plane.tracks == w.plane.tracks && OfferCount(u, p) == OfferCount(w, p)
    && (r.Some? ==> u.neg[p] == w.neg[p].(session := r) && Mail(u, p) == Mail(w, p))
    && (r.Some? && w.neg[p].session.Some? ==> u == w)
    && (r.None? ==> u.neg == w.neg && w.neg[p].session.None? && Mail(u, p) > Mail(w, p))
  }

  /** Before its first session a participant has no m-lines and was sent no offer. */
  lemma Sessionless(w: World, p: Pid, k: Slack)
    requires Sound(w, k) && p in w.neg && w.neg[p].session.None?
    ensures w.neg[p].mlines == [] && !w.neg[p].offerPending && w.neg[p].version == 0
  {
    assert Look(0);
    ShapeFacts(w, p, k);
  }

  lemma SessionMade(w: World, u: World, p: Pid, base: u32)
    requires p in w.neg && w.neg[p].session.None? && w.neg[p].version == 0
    requires Taken(WithSession(w.plane, p, base), CreateSession(w.plane.nextSession, base), p, u.plane)
    requires u == World(w.sessions, w.neg[p := w.neg[p].(session := Some(w.plane.nextSession), version := 0)], u.plane)
    ensures SessionEnsured(w, u, p, Some(w.plane.nextSession))
  {
    PushFrame(WithSession(w.plane, p, base), CreateSession(w.plane.nextSession, base), p, true, u.plane);
  }

  /** What a failed `create_session` leaves behind. */
  ghost predicate NoSession(v: PlaneView, p: Pid, z: PlaneView) {
    || z == v
    || z == v.(nextSession := v.nextSession + 1)
    || Turned(v.(nextSession := v.nextSession + 1), p, z)
  }

  lemma NoSessionStep(w: World, p: Pid, z: PlaneView, k: Slack)
    requires Sound(w, k) && NoSession(w.plane, p, z)
    ensures Sound(w.(plane := z), k)
  {
    SessionIdStep(w, k);
    var u := w.(plane := w.plane.(nextSession := w.plane.nextSession + 1));
    if z == w.plane {
      assert w.(plane := z) == w;
    } else if z == u.plane {
      assert w.(plane := z) == u;
    } else {
      RefusedStep(u, z, p, k);
      assert w.(plane := z) == u.(plane := z);
    }
  }

  lemma SessionDenied(w: World, p: Pid, z: PlaneView, u: World, signal: Signal)
    requires p in w.neg && w.neg[p].session.None? && p in w.plane.outbox && NoSession(w.plane, p, z)
    requires u == w.(plane := Told(z, p, signal))
    ensures SessionEnsured(w, u, p, None)
  {
    NoSessionFrame(w.plane, p, z);
  }

  lemma NoSessionFrame(v: PlaneView, p: Pid, z: PlaneView)
    requires NoSession(v, p, z)
    ensures z.tracks == v.tracks && z.outbox == v.outbox && z.offers == v.offers && v.refused <= z.refused
  {
    if Turned(v.(nextSession := v.nextSession + 1), p, z) {
      PushFrame(v.(nextSession := v.nextSession + 1), SendDatagram(0), p, false, z);
    }
  }

  // ── Publish ──────────────────────────────────────────────────────

  /** The kinds this server offers, of those asked for. */
  function Known(requested: seq<Option<Kind>>): seq<Kind> {
    if requested == [] then []
    else (if requested[0].Some? then [requested[0].value] else []) + Known(requested[1..])
  }

  /** `m` is `n` with a publish m-line claimed for each of `kinds`. */
  ghost predicate PublishClaims(n: Neg, m: Neg, kinds: seq<Kind>) {
    && m == n.(mlines := m.mlines, nextMid := m.nextMid, awaiting := m.awaiting)
    && |m.awaiting| == |n.awaiting| + |kinds| && n.awaiting <= m.awaiting
    && (forall j :: 0 <= j < |kinds| ==> ClaimedFor(m, m.awaiting[|n.awaiting| + j], kinds[j]))
    && Extends(n.mlines, m.mlines) && |m.mlines| <= |n.mlines| + |kinds|
    && SameSlots(n.mlines, m.mlines)
  }

  predicate ClaimedFor(m: Neg, mid: nat, kind: Kind) {
    PublishAt(m.mlines, mid) && m.mlines[mid].kind == kind
  }

  lemma NoClaims(n: Neg)
    ensures PublishClaims(n, n, [])
  {
  }

  lemma OneMoreClaim(n: Neg, m: Neg, x: Neg, kinds: seq<Kind>, kind: Kind, os: seq<Offer>)
    requires PublishClaims(n, m, kinds) && x == PublishClaimed(m, kind) && CanClaim(m, kind) && !m.offerPending
    requires Shape(m) && Discipline(m, os) && m.session.Some?
    ensures PublishClaims(n, x, kinds + [kind])
  {
    ClaimedShape(m, kind, Publish, os);
    var (i, ks) := (ClaimIndex(m.mlines, kind), kinds + [kind]);
    forall j | 0 <= j < |ks| ensures ClaimedFor(x, x.awaiting[|n.awaiting| + j], ks[j]) {
      if j < |kinds| {
        assert ClaimedFor(m, m.awaiting[|n.awaiting| + j], kinds[j]);
        assert x.awaiting[|n.awaiting| + j] == m.awaiting[|n.awaiting| + j];
      } else {
        assert x.awaiting[|n.awaiting| + j] == i;
      }
    }
  }

  lemma ClaimStep(w: World, u: World, p: Pid, n: Neg, kinds: seq<Kind>, kind: Kind, k: Slack)
    requires Sound(w, k) && Calm(k) && p in w.neg && PublishClaims(n, w.neg[p], kinds)
    requires w.neg[p].session.Some? && CanClaim(w.neg[p], kind) && !w.neg[p].offerPending
    requires |n.published| + |n.awaiting| + |kinds| + Queued(n) < MAX_TRACKS_PER_SESSION
    requires u == WithNeg(w, p, PublishClaimed(w.neg[p], kind))
    ensures Sound(u, k) && PublishClaims(n, u.neg[p], kinds + [kind])
  {
    assert Look(0);
    PublishClaimedKeeps(w, p, kind, k);
    InOrder(w, p, k);
    OneMoreClaim(n, w.neg[p], u.neg[p], kinds, kind, w.plane.offers[p]);
  }

  /**
   A publish request: refused with a message, queued behind the outstanding offer, or its
   m-lines are claimed and offered (or the offer failed with a message).
   */
  ghost predicate PublishAsked(w: World, u: World, p: Pid, kinds: seq<Kind>) {
    && Only(w, u, p) && u.plane.tracks == w.plane.tracks
    && var (n, m) := (w.neg[p], u.neg[p]);
       || (m == n && OfferCount(u, p) == OfferCount(w, p) && (kinds == [] || Mail(u, p) > Mail(w, p)))
       || (n.offerPending && m == n.(queued := Some(QueuedKinds(n) + kinds)) && OfferCount(u, p) == OfferCount(w, p))
       || (!n.offerPending
            && exists id, x :: PublishOffered(n.(session := Some(id)), x, kinds, m) && OfferOutcome(w, u, p))
  }

  function QueuedKinds(n: Neg): seq<Kind> {
    if n.queued.Some? then n.queued.value else []
  }

  /** M-lines claimed (`x`), then offered or not (`m`). */
  ghost predicate PublishOffered(n: Neg, x: Neg, kinds: seq<Kind>, m: Neg) {
    && PublishClaims(n, x, kinds) && Refreshes(x.mlines, m.mlines)
    && m == (if m.offerPending then OfferSent(x) else x).(mlines := m.mlines)
  }

  ghost predicate OfferOutcome(w: World, u: World, p: Pid)
    requires p in u.neg
  {
    if u.neg[p].offerPending then OfferAdded(w, u, p)
      else OfferCount(u, p) == OfferCount(w, p) && Mail(u, p) > Mail(w, p)
  }

  predicate PublishFits(n: Neg, kinds: seq<Kind>) {
    && |n.published| + |n.awaiting| + Queued(n) + |kinds| <= MAX_TRACKS_PER_SESSION
    && |n.mlines| + |kinds| <= MAX_MEDIA_SECTIONS
  }

  /** Which outcome a publish request has, and what it was told. */
  ghost predicate PublishChoice(w: World, u: World, p: Pid, kinds: seq<Kind>) {
    && p in w.neg && p in u.neg && p in w.sessions
    && var n := w.neg[p];
       if w.sessions[p].room.None? then u == w.(plane := Told(w.plane, p, Error(NotInRoom)))
       else if kinds == [] then u == w
       else if !PublishFits(n, kinds) then u == w.(plane := Told(w.plane, p, Error(TooManyTracks)))
       else if n.offerPending then u == WithNeg(w, p, n.(queued := Some(QueuedKinds(n) + kinds)))
       else
         || (n.session.None? && u.neg == w.neg && Mail(u, p) > Mail(w, p))
         || |u.neg[p].awaiting| == |n.awaiting| + |kinds|
  }

  lemma PublishIgnored(w: World, p: Pid, kinds: seq<Kind>)
    requires p in w.neg && kinds == []
    ensures PublishAsked(w, w, p, kinds)
  {
  }

  lemma PublishRefused(w: World, u: World, p: Pid, kinds: seq<Kind>, signal: Signal)
    requires p in w.neg && p in w.plane.outbox && u == w.(plane := Told(w.plane, p, signal))
    ensures PublishAsked(w, u, p, kinds)
  {
  }

  lemma PublishQueued(w: World, u: World, p: Pid, kinds: seq<Kind>, k: Slack)
    requires Sound(w, k) && Calm(k) && p in w.neg && w.neg[p].offerPending
    requires |w.neg[p].published| + |w.neg[p].awaiting| + Queued(w.neg[p]) + |kinds| <= MAX_TRACKS_PER_SESSION
    requires u == WithNeg(w, p, w.neg[p].(queued := Some(QueuedKinds(w.neg[p]) + kinds)))
    ensures Sound(u, k) && PublishAsked(w, u, p, kinds)
  {
    assert Look(0);
    MarkedKeeps(w, p, u.neg[p], k);
  }

  lemma PublishDenied(w: World, u: World, p: Pid, kinds: seq<Kind>)
    requires SessionEnsured(w, u, p, None)
    ensures PublishAsked(w, u, p, kinds)
  {
  }

  lemma PublishDone(w: World, a: World, b: World, u: World, p: Pid, id: Sid, kinds: seq<Kind>)
    requires p in w.neg && !w.neg[p].offerPending && kinds != []
    requires SessionEnsured(w, a, p, Some(id)) && b == a.(neg := b.neg) && p in b.neg && b.neg == a.neg[p := b.neg[p]]
    requires PublishClaims(a.neg[p], b.neg[p], kinds) && OfferMade(b, u, p)
    ensures PublishAsked(w, u, p, kinds) && |u.neg[p].awaiting| == |w.neg[p].awaiting| + |kinds|
  {
    var (n, x, m) := (w.neg[p], b.neg[p], u.neg[p]);
    assert ClaimedFor(x, x.awaiting[|n.awaiting|], kinds[0]);
    assert PublishOffered(n.(session := Some(id)), x, kinds, m);
    assert Only(w, b, p);
    OnlyTwice(w, b, u, p);
    assert OfferOutcome(w, u, p);
  }

  /** A mid is the position of its m-line. */
  lemma Positions(w: World, p: Pid, k: Slack)
    requires Sound(w, k) && p in w.neg
    ensures w.neg[p].nextMid == |w.neg[p].mlines| && forall i :: 0 <= i < |w.neg[p].mlines| ==>
      w.neg[p].mlines[i].mid == i
  {
    assert Look(0);
    ShapeFacts(w, p, k);
  }

  // ── Renegotiation ────────────────────────────────────────────────

  /** Subscribe m-lines of tracks that are not in `keep`, up to position `i`, turned inactive. */
  function Dropped(ms: seq<Mline>, keep: seq<Tid>, i: nat): (r: seq<Mline>)
    requires i <= |ms|
    ensures |r| == |ms|
    ensures forall j :: 0 <= j < |ms| ==>
      r[j] == if j < i && ms[j].role.Subscribe? && ms[j].role.slot.track !in keep then ms[j].(role := Inactive)
        else ms[j]
  {
    seq(|ms|, j requires 0 <= j < |ms| =>
      if j < i && ms[j].role.Subscribe? && ms[j].role.slot.track !in keep then ms[j].(role := Inactive) else ms[j])
  }

  ghost predicate DroppedIn(w: World, u: World, p: Pid, keep: seq<Tid>, i: nat) {
    && Only(w, u, p) && u.plane.tracks == w.plane.tracks
    && Mail(u, p) == Mail(w, p) && OfferCount(u, p) == OfferCount(w, p)
    && i <= |w.neg[p].mlines| && u.neg[p] == w.neg[p].(mlines := Dropped(w.neg[p].mlines, keep, i))
  }

  lemma NothingDropped(w: World, p: Pid, keep: seq<Tid>)
    requires p in w.neg
    ensures DroppedIn(w, w, p, keep, 0)
    ensures w.neg[p].mlines == [] ==> DroppedIn(w, w, p, keep, |w.neg[p].mlines|)
  {
    assert Dropped(w.neg[p].mlines, keep, 0) == w.neg[p].mlines;
  }

  lemma NotDropped(w: World, u: World, p: Pid, keep: seq<Tid>, i: nat)
    requires DroppedIn(w, u, p, keep, i) && i < |w.neg[p].mlines|
    requires !(u.neg[p].mlines[i].role.Subscribe? && u.neg[p].mlines[i].role.slot.track !in keep)
    ensures DroppedIn(w, u, p, keep, i + 1)
  {
    assert Dropped(w.neg[p].mlines, keep, i + 1) == Dropped(w.neg[p].mlines, keep, i);
  }

  lemma OneDropped(w: World, a: World, u: World, p: Pid, keep: seq<Tid>, i: nat)
    requires DroppedIn(w, a, p, keep, i) && i < |w.neg[p].mlines|
    requires a.neg[p].mlines[i].role.Subscribe? && a.neg[p].mlines[i].role.slot.track !in keep
    requires u == World(a.sessions, a.neg[p := Deactivated(a.neg[p], i)], u.plane)
    requires u.plane.tracks == a.plane.tracks && u.plane.outbox == a.plane.outbox
      && u.plane.offers == a.plane.offers && a.plane.refused <= u.plane.refused
    ensures DroppedIn(w, u, p, keep, i + 1)
  {
    assert Dropped(w.neg[p].mlines, keep, i + 1) ==
      Dropped(w.neg[p].mlines, keep, i)[i := w.neg[p].mlines[i].(role := Inactive)];
  }

  lemma OffShardStep(w: World, u: World, p: Pid, i: nat, k: Slack)
    requires Sound(w, k) && p in w.neg && SlotAt(w.neg[p].mlines, i) && !w.neg[p].mlines[i].role.slot.onShard
    requires u == WithNeg(w, p, Deactivated(w.neg[p], i))
    ensures Sound(u, k)
  {
    assert Look(0);
    OffShardDropKeeps(w, p, i, k);
  }

  lemma DroppedTracks(ms: seq<Mline>, keep: seq<Tid>)
    ensures
      var us := Dropped(ms, keep, |ms|);
      && SlotTracks(us) == SlotTracks(ms) * Elements(keep)
      && OnShardTracks(us) == OnShardTracks(ms) * Elements(keep)
      && forall i :: PublishAt(us, i) <==> PublishAt(ms, i)
  {
    var us := Dropped(ms, keep, |ms|);
    forall t | t in SlotTracks(ms) && t in keep ensures t in SlotTracks(us) {
      var i :| 0 <= i < |ms| && ms[i].role.Subscribe? && ms[i].role.slot.track == t;
      assert us[i] == ms[i];
    }
    forall t | t in OnShardTracks(ms) && t in keep ensures t in OnShardTracks(us) {
      var i :| 0 <= i < |ms| && ms[i].role.Subscribe? && ms[i].role.slot.onShard && ms[i].role.slot.track == t;
      assert us[i] == ms[i];
    }
  }

  /** The live ones of `ids` are in `p`'s own room. */
  ghost predicate OwnRoom(w: World, p: Pid, ids: seq<Tid>) {
    p in w.sessions ==>
      forall t :: t in ids && t in w.plane.tracks ==> w.sessions[p].room == Some(w.plane.tracks[t].room)
  }

  /** The live ones of `ids`, in order. */
  function Live(ids: seq<Tid>, ts: map<Tid, Track>): (r: seq<Tid>)
    ensures forall t :: t in r <==> t in ids && t in ts
  {
    if ids == [] then []
    else
      var rest := Live(ids[1..], ts);
      assert ids == [ids[0]] + ids[1..];
      if ids[0] in ts then [ids[0]] + rest else rest
  }

  /** M-lines were claimed for tracks of `ids`; the slots there were stay. */
  ghost predicate Subscribing(w: World, u: World, p: Pid, ids: seq<Tid>) {
    && Only(w, u, p) && u.plane.tracks == w.plane.tracks && OfferCount(u, p) == OfferCount(w, p)
    && var (n, m) := (w.neg[p], u.neg[p]);
       && m == n.(mlines := m.mlines, nextMid := m.nextMid)
       && SlotTracks(n.mlines) <= SlotTracks(m.mlines) <= SlotTracks(n.mlines) + Elements(ids)
       && OnShardTracks(m.mlines) == OnShardTracks(n.mlines)
  }

  lemma NotSubscribing(w: World, p: Pid, ids: seq<Tid>)
    requires p in w.neg
    ensures Subscribing(w, w, p, ids)
  {
  }

  lemma SubscribingTold(w: World, a: World, u: World, p: Pid, ids: seq<Tid>, signal: Signal)
    requires Subscribing(w, a, p, ids) && p in a.plane.outbox && u == a.(plane := Told(a.plane, p, signal))
    ensures Subscribing(w, u, p, ids) && Mail(u, p) > Mail(a, p)
  {
  }

  lemma SubClaimStep(w: World, u: World, p: Pid, track: Tid, kind: Kind, k: Slack)
    requires Sound(w, k) && Claimable(w, p, track, kind) && u == SubClaimed(w, p, track, kind)
    ensures Sound(u, k)
  {
    assert Look(0);
    SubClaimedKeeps(w, p, track, kind, k);
  }

  lemma ClaimedTracks(n: Neg, kind: Kind, slot: Slot)
    requires !slot.onShard && CanClaim(n, kind)
    ensures
      var m := Claimed(n, kind, Role.Subscribe(slot));
      && SlotTracks(m.mlines) == SlotTracks(n.mlines) + {slot.track}
      && OnShardTracks(m.mlines) == OnShardTracks(n.mlines)
  {
    var (m, i) := (Claimed(n, kind, Role.Subscribe(slot)), ClaimIndex(n.mlines, kind));
    assert m.mlines[i].role.slot.track == slot.track;
    forall t | t in SlotTracks(n.mlines) ensures t in SlotTracks(m.mlines) {
      var j :| 0 <= j < |n.mlines| && n.mlines[j].role.Subscribe? && n.mlines[j].role.slot.track == t;
      assert m.mlines[j] == n.mlines[j];
    }
    forall t | t in OnShardTracks(n.mlines) ensures t in OnShardTracks(m.mlines) {
      var j :| 0 <= j < |n.mlines| && n.mlines[j].role.Subscribe? && n.mlines[j].role.slot.onShard
        && n.mlines[j].role.slot.track == t;
      assert m.mlines[j] == n.mlines[j];
    }
    forall t | t in OnShardTracks(m.mlines) ensures t in OnShardTracks(n.mlines) {
      var j :| 0 <= j < |m.mlines| && m.mlines[j].role.Subscribe? && m.mlines[j].role.slot.onShard
        && m.mlines[j].role.slot.track == t;
      assert m.mlines[j] == n.mlines[j];
    }
  }

  lemma OneMoreSub(w: World, a: World, u: World, p: Pid, ids: seq<Tid>, track: Tid, kind: Kind)
    requires Subscribing(w, a, p, ids) && Claimable(a, p, track, kind) && u == SubClaimed(a, p, track, kind)
      && track in ids
    ensures Subscribing(w, u, p, ids) && track in SlotTracks(u.neg[p].mlines) && Mail(u, p) == Mail(a, p)
    ensures SlotTracks(a.neg[p].mlines) <= SlotTracks(u.neg[p].mlines)
  {
    ClaimedTracks(a.neg[p], kind, NewSlot(a.plane, a.neg[p].session.value, track));
  }

  /**
   `p` is offered the set `ids`: its other slots are gone, the ones on the shard are those
   of `ids` that were, and unless something went wrong (a message, or no SSRC left) every
   live track of `ids` has a slot in the offer that went out.
   */
  ghost predicate Triggered(w: World, u: World, p: Pid, ids: seq<Tid>) {
    && Only(w, u, p) && u.plane.tracks == w.plane.tracks
    && var (n, m) := (w.neg[p], u.neg[p]);
       && m == n.(session := m.session, mlines := m.mlines, nextMid := m.nextMid, lastIds := m.lastIds,
                  offerPending := m.offerPending, renegotiate := m.renegotiate, version := m.version)
       && (m.lastIds == ids || m.lastIds == n.lastIds)
       && SlotTracks(m.mlines) <= Elements(ids) && OnShardTracks(m.mlines) == OnShardTracks(n.mlines) * Elements(ids)
       && (m.offerPending ==> OfferAdded(w, u, p) && m.version == n.version + 1 && !m.renegotiate)
       && (!m.offerPending ==>
            OfferCount(u, p) == OfferCount(w, p) && m.version == n.version && m.renegotiate == n.renegotiate)
       && (Mail(u, p) == Mail(w, p) && !Exhausted(u, p) ==>
             && (forall t :: t in ids && t in w.plane.tracks ==> t in SlotTracks(m.mlines))
             && (m.mlines != [] ==> m.offerPending))
  }

  lemma NothingToOffer(w: World, p: Pid)
    requires p in w.neg && w.neg[p].mlines == [] && !w.neg[p].offerPending
    ensures Triggered(w, w, p, [])
  {
  }

  lemma TriggerDenied(w: World, u: World, p: Pid, ids: seq<Tid>)
    requires SessionEnsured(w, u, p, None) && w.neg[p].mlines == [] && !w.neg[p].offerPending
    ensures Triggered(w, u, p, ids)
  {
  }

  /** From the session (`a`) over the drops (`b`, `c`) and claims (`d`) to the offer (`u`). */
  lemma TriggerDone(w: World, a: World, b: World, c: World, d: World, u: World, p: Pid, id: Sid, ids: seq<Tid>,
                    done: bool)
    requires p in w.neg && !w.neg[p].offerPending && SessionEnsured(w, a, p, Some(id))
    requires DroppedIn(a, b, p, ids, |a.neg[p].mlines|) && c == WithNeg(b, p, b.neg[p].(lastIds := ids))
    requires Subscribing(c, d, p, ids) && OfferMade(d, u, p)
    requires done ==> forall t :: t in ids && t in w.plane.tracks ==> t in SlotTracks(d.neg[p].mlines)
    requires !done ==> Mail(d, p) > Mail(c, p)
    ensures Triggered(w, u, p, ids)
  {
    DroppedTracks(a.neg[p].mlines, ids);
    RefreshesTracks(d.neg[p].mlines, u.neg[p].mlines);
    assert Only(b, c, p);
    OnlyTwice(w, a, b, p);
    OnlyTwice(w, b, c, p);
    OnlyTwice(w, c, d, p);
    OnlyTwice(w, d, u, p);
  }

  /** Flags and counters, and publishes queued within the limit. */
  lemma MarkStep(w: World, u: World, p: Pid, k: Slack)
    requires Sound(w, k) && p in w.neg && p in u.neg && u == WithNeg(w, p, u.neg[p])
    requires
      var (n, m) := (w.neg[p], u.neg[p]);
      && m == n.(offerPending := m.offerPending, renegotiate := m.renegotiate, queued := m.queued, lastIds :=
           m.lastIds, invalidAnswers := m.invalidAnswers)
      && (m.offerPending ==> n.offerPending) && Queued(m) <= Queued(n)
    ensures Sound(u, k)
  {
    assert Look(0);
    CountFacts(w, p, k);
    MarkedKeeps(w, p, u.neg[p], k);
  }

  /** Offered now, or noted for when the outstanding offer is answered. */
  ghost predicate Requested(w: World, u: World, p: Pid, ids: seq<Tid>) {
    if p in w.neg && w.neg[p].offerPending
    then u == WithNeg(w, p, w.neg[p].(renegotiate := true, lastIds := ids))
    else Triggered(w, u, p, ids)
  }

  // ── After an answer ──────────────────────────────────────────────

  function Bit(b: bool): nat {
    if b then 1 else 0
  }

  /** What waited for the answer: a renegotiation, and a publish. */
  function Backlog(n: Neg): nat {
    Bit(n.renegotiate) + Bit(n.queued.Some?)
  }

  /** Re-offers of unanswered m-lines that are left. */
  function Retries(n: Neg): nat {
    if n.invalidAnswers < MAX_REOFFERS then MAX_REOFFERS - n.invalidAnswers else 0
  }

  /** Offers out only if one was sent in this step, and each used up something that waited. */
  ghost predicate Spends(w: World, u: World, p: Pid, before: nat, after: nat)
    requires p in w.neg && p in u.neg
  {
    && OfferCount(u, p) == OfferCount(w, p) + Bit(u.neg[p].offerPending)
    && Bit(u.neg[p].offerPending) + after <= before
  }

  /** What waited went out, or was dropped with a message; slots on the shard are kept as `ids` says. */
  ghost predicate AfterAnswered(w: World, u: World, p: Pid) {
    && Only(w, u, p) && u.plane.tracks == w.plane.tracks
    && var (n, m) := (w.neg[p], u.neg[p]);
       && m.published == n.published && m.lastIds == n.lastIds && m.invalidAnswers == n.invalidAnswers
       && n.awaiting <= m.awaiting
       && !m.renegotiate && (m.queued.Some? ==> m.offerPending)
       && (n.renegotiate ==>
            OnShardTracks(m.mlines) == OnShardTracks(n.mlines) * Elements(n.lastIds)
              && SlotTracks(m.mlines) <= Elements(n.lastIds))
       && (!n.renegotiate ==>
            OnShardTracks(m.mlines) == OnShardTracks(n.mlines) && SlotTracks(m.mlines) <= SlotTracks(n.mlines))
       && Spends(w, u, p, Backlog(n), Backlog(m))
  }

  lemma PublishAskedTracks(w: World, u: World, p: Pid, kinds: seq<Kind>)
    requires PublishAsked(w, u, p, kinds)
    ensures
      var (n, m) := (w.neg[p], u.neg[p]);
      && m.published == n.published && m.lastIds == n.lastIds && m.invalidAnswers == n.invalidAnswers
         && n.awaiting <= m.awaiting
      && OnShardTracks(m.mlines) == OnShardTracks(n.mlines) && SlotTracks(m.mlines) <= SlotTracks(n.mlines)
      && (m.renegotiate ==> n.renegotiate) && (m.offerPending == n.offerPending || !m.renegotiate)
      && (m.queued == n.queued || (n.offerPending && m.offerPending && m.queued.Some?))
      && OfferCount(u, p) == OfferCount(w, p) + (if n.offerPending then 0 else Bit(m.offerPending))
      && (n.offerPending ==> m.offerPending)
  {
    var (n, m) := (w.neg[p], u.neg[p]);
    if m != n && !n.offerPending {
      var id, x :| PublishOffered(n.(session := Some(id)), x, kinds, m) && OfferOutcome(w, u, p);
      RefreshesTracks(x.mlines, m.mlines);
      SameSlotsTracks(n.mlines, x.mlines);
    }
  }

  lemma SameSlotsTracks(ms: seq<Mline>, us: seq<Mline>)
    requires SameSlots(ms, us)
    ensures SlotTracks(us) == SlotTracks(ms) && OnShardTracks(us) == OnShardTracks(ms)
  {
    forall t | t in SlotTracks(ms) ensures t in SlotTracks(us) {
      var i :| 0 <= i < |ms| && ms[i].role.Subscribe? && ms[i].role.slot.track == t;
      assert SlotAt(ms, i) && SlotAt(us, i);
    }
    forall t | t in SlotTracks(us) ensures t in SlotTracks(ms) {
      var i :| 0 <= i < |us| && us[i].role.Subscribe? && us[i].role.slot.track == t;
      assert SlotAt(us, i) && SlotAt(ms, i);
    }
    forall t | t in OnShardTracks(ms) ensures t in OnShardTracks(us) {
      var i :| 0 <= i < |ms| && ms[i].role.Subscribe? && ms[i].role.slot.onShard && ms[i].role.slot.track == t;
      assert SlotAt(ms, i) && SlotAt(us, i);
    }
    forall t | t in OnShardTracks(us) ensures t in OnShardTracks(ms) {
      var i :| 0 <= i < |us| && us[i].role.Subscribe? && us[i].role.slot.onShard && us[i].role.slot.track == t;
      assert SlotAt(us, i) && SlotAt(ms, i);
    }
  }

  /** From the flags taken (`a`) over the renegotiation (`b`) to the publish (`u`). */
  lemma AfterAnswerDone(w: World, a: World, b: World, u: World, p: Pid, kinds: Option<seq<Kind>>)
    requires p in w.neg && !w.neg[p].offerPending && kinds == w.neg[p].queued
    requires a == WithNeg(w, p, w.neg[p].(renegotiate := false, queued := None))
    requires if w.neg[p].renegotiate then Triggered(a, b, p, w.neg[p].lastIds) else b == a
    requires if kinds.Some? then PublishAsked(b, u, p, kinds.value) else u == b
    ensures AfterAnswered(w, u, p)
  {
    assert Only(w, a, p);
    OnlyTwice(w, a, b, p);
    if kinds.Some? {
      PublishAskedTracks(b, u, p, kinds.value);
      OnlyTwice(w, b, u, p);
    }
  }

  /** Unanswered m-lines are offered once more, or the publish m-lines among them given up. */
  ghost predicate Retried(w: World, u: World, p: Pid) {
    && Only(w, u, p) && u.plane.tracks == w.plane.tracks
    && var (n, m) := (w.neg[p], u.neg[p]);
       && (n.offerPending ==> u == w)
       && m.published == n.published && m.lastIds == n.lastIds && m.queued == n.queued
          && (m.renegotiate ==> n.renegotiate)
       && OnShardTracks(m.mlines) == OnShardTracks(n.mlines) && SlotTracks(m.mlines) <= SlotTracks(n.mlines)
       && (m.awaiting == n.awaiting || (m.awaiting == [] && n.invalidAnswers >= MAX_REOFFERS))
       && (!n.offerPending ==> Spends(w, u, p, Retries(n), Retries(m)))
  }

  lemma NotRetried(w: World, p: Pid)
    requires p in w.neg
    ensures Retried(w, w, p)
  {
  }

  lemma RetryOffered(w: World, a: World, u: World, p: Pid, count: nat)
    requires p in w.neg && !w.neg[p].offerPending && w.neg[p].invalidAnswers < count <= MAX_REOFFERS
    requires a == WithNeg(w, p, w.neg[p].(invalidAnswers := count)) && OfferMade(a, u, p)
    ensures Retried(w, u, p)
  {
    RefreshesTracks(a.neg[p].mlines, u.neg[p].mlines);
    assert Only(w, a, p);
    OnlyTwice(w, a, u, p);
  }

  lemma GiveUpStep(w: World, u: World, p: Pid, count: nat, k: Slack)
    requires Sound(w, k) && Calm(k) && p in w.neg && !w.neg[p].offerPending
      && MAX_REOFFERS <= w.neg[p].invalidAnswers <= count
    requires u == WithNeg(w, p, GivenUp(w.neg[p].(invalidAnswers := count)))
    ensures Sound(u, k) && Retried(w, u, p)
  {
    var a := WithNeg(w, p, w.neg[p].(invalidAnswers := count));
    MarkStep(w, a, p, k);
    GivenUpSound(a, u, p, k);
    assert SameSlots(w.neg[p].mlines, u.neg[p].mlines);
    SameSlotsTracks(w.neg[p].mlines, u.neg[p].mlines);
  }

  lemma GivenUpSound(w: World, u: World, p: Pid, k: Slack)
    requires Sound(w, k) && Calm(k) && p in w.neg && u == WithNeg(w, p, GivenUp(w.neg[p]))
    ensures Sound(u, k) && SameSlots(w.neg[p].mlines, u.neg[p].mlines)
  {
    assert Look(0);
    GivenUpKeeps(w, p, k);
    PublishedStay(w, p, k);
    ShapeFacts(w, p, k);
    GivenUpLines(p, w.neg[p], w.plane.tracks);
  }

  /** The tracks of `ms` that are not in `tracks`. */
  function KeptTracks(ms: seq<Mline>, tracks: seq<Tid>): (r: seq<Tid>)
    ensures forall t :: t in r <==> t !in tracks && exists i :: SlotAt(ms, i) && ms[i].role.slot.track == t
  {
    if ms == [] then []
    else
      var n := |ms| - 1;
      var rest := KeptTracks(ms[..n], tracks);
      assert forall i :: SlotAt(ms[..n], i) <==> SlotAt(ms, i) && i < n;
      if ms[n].role.Subscribe? && ms[n].role.slot.track !in tracks then
        var r := rest + [ms[n].role.slot.track];
        assert SlotAt(ms, n);
        assert forall t :: t in r <==> t in rest || t == ms[n].role.slot.track;
        r
      else rest
  }

  lemma KeptDropped(ms: seq<Mline>, tracks: seq<Tid>)
    ensures
      var us := Dropped(ms, KeptTracks(ms, tracks), |ms|);
      && SlotTracks(us) == SlotTracks(ms) - Elements(tracks)
      && OnShardTracks(us) == OnShardTracks(ms) - Elements(tracks)
  {
    var keep := KeptTracks(ms, tracks);
    DroppedTracks(ms, keep);
    forall t | t in SlotTracks(ms) && t !in tracks ensures t in keep {
      var i :| 0 <= i < |ms| && ms[i].role.Subscribe? && ms[i].role.slot.track == t;
      assert SlotAt(ms, i);
    }
    forall t | t in OnShardTracks(ms) ensures t in SlotTracks(ms) {
    }
  }

  /** The m-lines of `tracks` turned inactive; flags, mail and offers are the same. */
  ghost predicate Unslotted(w: World, u: World, p: Pid, tracks: seq<Tid>) {
    && Only(w, u, p) && u.plane.tracks == w.plane.tracks
    && Mail(u, p) == Mail(w, p) && OfferCount(u, p) == OfferCount(w, p)
    && u.neg[p] == w.neg[p].(mlines := u.neg[p].mlines)
    && SlotTracks(u.neg[p].mlines) == SlotTracks(w.neg[p].mlines) - Elements(tracks)
    && OnShardTracks(u.neg[p].mlines) == OnShardTracks(w.neg[p].mlines) - Elements(tracks)
  }

  // ── Leaving ──────────────────────────────────────────────────────

  /** A publisher's tracks in the registry are the ones on its list. */
  lemma PublisherTracks(w: World, p: Pid, k: Slack)
    requires Sound(w, k)
    ensures p in w.neg ==> TracksBy(w.plane.tracks, p) == Elements(w.neg[p].published)
    ensures p !in w.neg ==> TracksBy(w.plane.tracks, p) == {}
  {
    assert Look(0);
    forall t | t in TracksBy(w.plane.tracks, p) ensures p in w.neg && t in w.neg[p].published {
      TrackOkFacts(w, t);
    }
    if p in w.neg {
      PublishedFacts(w, p, k);
    }
  }

  function TracksBy(ts: map<Tid, Track>, p: Pid): set<Tid> {
    set t | t in ts && ts[t].publisher == p
  }

  /** `p` is gone from the plane: its tracks, and its session closed, waiting to be, or given up. */
  ghost predicate GoneFrom(v: PlaneView, n: Neg, p: Pid, z: PlaneView) {
    var u := v.(tracks := v.tracks - TracksBy(v.tracks, p));
    exists x ::
      && (if n.session.Some? && n.session.value in v.entries then SessionClosed(u, n.session.value, x) else x == u)
      && z == x.(lost := x.lost - {p}, dropped := x.dropped - {p})
  }

  /** Leaving, seen from all tables. */
  lemma LeaveStep(w: World, u: World, p: Pid, k: Slack)
    requires Sound(w, k) && Calm(k) && p in w.neg
    requires u == World(w.sessions - {p}, w.neg - {p}, u.plane) && GoneFrom(w.plane, w.neg[p], p, u.plane)
    ensures Sound(u, k.(gone := Elements(w.neg[p].published)))
  {
    Present(w, p, k);
    PublisherTracks(w, p, k);
    var (n, v) := (w.neg[p], w.plane.(tracks := w.plane.tracks - TracksBy(w.plane.tracks, p)));
    var x :|
      && (if n.session.Some? && n.session.value in v.entries then SessionClosed(v, n.session.value, x) else x == v)
      && u.plane == x.(lost := x.lost - {p}, dropped := x.dropped - {p});
    if n.session.None? {
      LeaveSessionless(w, u, p, k);
    } else {
      LeaveSession(w, u, p, x, k);
    }
  }

  lemma LeaveSessionless(w: World, u: World, p: Pid, k: Slack)
    requires Sound(w, k) && Calm(k) && p in w.neg && w.neg[p].session.None?
      && TracksBy(w.plane.tracks, p) == Elements(w.neg[p].published)
    requires u == World(w.sessions - {p}, w.neg - {p}, w.plane.(tracks := w.plane.tracks - TracksBy(w.plane.tracks, p),
                        lost := w.plane.lost - {p}, dropped := w.plane.dropped - {p}))
    ensures Sound(u, k.(gone := Elements(w.neg[p].published)))
  {
    assert Look(0);
    LeftSessionlessKeeps(w, p, k);
    SessionlessMaps(w, p, k);
    assert w.plane.entries - {} == w.plane.entries;
    assert u == Left(w, p);
    assert k.(gone := Elements(w.neg[p].published)) == k;
  }

  lemma SessionlessMaps(w: World, p: Pid, k: Slack)
    requires Core(w, k) && p in w.neg && w.neg[p].session.None?
    ensures w.plane.byParticipant - {p} == w.plane.byParticipant
  {
    if p in w.plane.byParticipant {
      MappedFacts(w, p);
      EntryFacts(w, w.plane.byParticipant[p]);
    }
  }

  lemma MappedFacts(w: World, p: Pid)
    requires Transports(w) && p in w.plane.byParticipant
    ensures MappedBack(w.plane, p)
  {
    assert Open(0);
  }

  /** The plane without `p`'s session and tracks, before the shard hears of it. */
  ghost function WithoutSession(w: World, p: Pid): PlaneView
    requires p in w.neg
  {
    w.plane.(tracks := w.plane.tracks - Elements(w.neg[p].published), entries := w.plane.entries - SessionOf(w.neg[p]),
             byParticipant := w.plane.byParticipant - {p})
  }

  lemma SessionGone(w: World, p: Pid, x: PlaneView)
    requires HasEntry(w, p) && TracksBy(w.plane.tracks, p) == Elements(w.neg[p].published)
    requires SessionClosed(w.plane.(tracks := w.plane.tracks - TracksBy(w.plane.tracks, p)), w.neg[p].session.value, x)
    ensures
      var (v, id) := (WithoutSession(w, p), w.neg[p].session.value);
      || x == v.(shard := Apply(w.plane.shard, CloseSession(id)))
      || (x == v.(refused := v.refused + 1, pendingClose := v.pendingClose + [id]) && |v.pendingClose| < MAX_TRANSPORTS)
      || (x == v.(refused := v.refused + 1, leaked := v.leaked + {id}) && |v.pendingClose| >= MAX_TRANSPORTS)
  {
    assert SessionOf(w.neg[p]) == {w.neg[p].session.value};
  }

  lemma LeaveSession(w: World, u: World, p: Pid, x: PlaneView, k: Slack)
    requires Sound(w, k) && Calm(k) && HasEntry(w, p) && TracksBy(w.plane.tracks, p) == Elements(w.neg[p].published)
    requires SessionClosed(w.plane.(tracks := w.plane.tracks - TracksBy(w.plane.tracks, p)), w.neg[p].session.value, x)
    requires u == World(w.sessions - {p}, w.neg - {p}, x.(lost := x.lost - {p}, dropped := x.dropped - {p}))
    ensures Sound(u, k.(gone := Elements(w.neg[p].published)))
  {
    assert k.gone + Elements(w.neg[p].published) == Elements(w.neg[p].published);
    SessionGone(w, p, x);
    LeaveIs(w, u, p, x);
    if u == LeftClosed(w, p) {
      LeaveCloses(w, u, p, k);
    } else {
      LeaveWaits(w, u, p, k);
    }
  }

  lemma LeaveIs(w: World, u: World, p: Pid, x: PlaneView)
    requires p in w.neg && w.neg[p].session.Some?
    requires
      var (v, id) := (WithoutSession(w, p), w.neg[p].session.value);
      || x == v.(shard := Apply(w.plane.shard, CloseSession(id)))
      || (x == v.(refused := v.refused + 1, pendingClose := v.pendingClose + [id]) && |v.pendingClose| < MAX_TRANSPORTS)
      || (x == v.(refused := v.refused + 1, leaked := v.leaked + {id}) && |v.pendingClose| >= MAX_TRANSPORTS)
    requires u == World(w.sessions - {p}, w.neg - {p}, x.(lost := x.lost - {p}, dropped := x.dropped - {p}))
    ensures u == LeftClosed(w, p) || u == LeftWaiting(w, p)
  {
  }

  lemma LeaveCloses(w: World, u: World, p: Pid, k: Slack)
    requires Sound(w, k) && Calm(k) && p in w.neg && w.neg[p].session.Some? && u == LeftClosed(w, p)
    ensures Sound(u, k.(gone := k.gone + Elements(w.neg[p].published)))
  {
    assert Look(0);
    LeftClosedKeeps(w, p, k);
  }

  lemma LeaveWaits(w: World, u: World, p: Pid, k: Slack)
    requires Sound(w, k) && Calm(k) && p in w.neg && w.neg[p].session.Some? && u == LeftWaiting(w, p)
    ensures Sound(u, k.(gone := k.gone + Elements(w.neg[p].published)))
  {
    assert Look(0);
    LeftWaitingKeeps(w, p, k);
  }

  lemma ForgetStep(w: World, u: World, k: Slack, l: Slack)
    requires Sound(w, k) && k.gone !! w.plane.tracks.Keys && u == w.(neg := Forgotten(w.neg, k.gone))
      && l == k.(gone := {})
    ensures Sound(u, l)
  {
    assert Look(0);
    ForgottenKeeps(w, k);
  }
}
