/** Offers, answers and the publish m-lines between them (negotiation.rs). */
module Offers {
  import opened Words
  import opened Collections
  import opened Wrappers
  import opened Ssrc
  import opened Shard
  import opened Tables
  import opened Updates
  import opened Commands
  import opened Publishing
  import opened Mlines

  // ── Flags, queues and released publish m-lines ───────────────────

  /** Some publish m-lines turned inactive; nothing else changed. */
  predicate OnlyReleases(ms: seq<Mline>, us: seq<Mline>) {
    && |us| == |ms|
    && forall i :: 0 <= i < |ms| ==> us[i] == ms[i] || (ms[i].role.Publish? && us[i] == ms[i].(role := Inactive))
  }

  /** `m` has the session, tracks, m-lines (but for released ones) and version of `n`, and no new offer. */
  predicate SameBut(n: Neg, m: Neg) {
    && m.session == n.session && m.published == n.published && m.version == n.version && m.nextMid == n.nextMid
    && (m.offerPending ==> n.offerPending)
    && OnlyReleases(n.mlines, m.mlines)
  }

  lemma ReleasesSlots(w: World, u: World, p: Pid, gone: set<Tid>)
    requires p in w.neg && p in w.sessions && SubscribeLines(w, p, gone) && Shape(w.neg[p])
    requires p in u.neg && u.sessions == w.sessions && u.plane == w.plane && SameBut(w.neg[p], u.neg[p])
    ensures SubscribeLines(u, p, gone)
  {
    SlotsKept(w, u, p, gone, gone);
  }

  lemma ReleasesLines(w: World, u: World, p: Pid, k: Slack, l: Slack)
    requires p in w.neg && Lines(w, p, k) && p in u.neg && u == WithNeg(w, p, u.neg[p]) && SameBut(w.neg[p], u.neg[p])
    requires PublishLines(p, u.neg[p], w.plane.tracks, OpenMids(p, l)) && l.gone == k.gone
    ensures Lines(u, p, l)
  {
    assert Open(0);
    DisciplineSame(w.neg[p], u.neg[p], w.plane.offers[p]);
    ReleasesSlots(w, u, p, k.gone);
  }

  /** What happens between offers: flags, queues, and publish m-lines that no track needs. */
  lemma FlagsKeep(w: World, p: Pid, m: Neg, k: Slack, l: Slack)
    requires Core(w, k) && p in w.neg && SameBut(w.neg[p], m)
    requires PublishLines(p, m, w.plane.tracks, OpenMids(p, l))
    requires forall t :: t in m.published && t in w.plane.tracks ==> PublishAt(m.mlines, w.plane.tracks[t].mid)
    requires l == k.(who := l.who, open := l.open) && forall q :: q in w.neg && q != p ==>
      OpenMids(q, l) == OpenMids(q, k)
    ensures Core(WithNeg(w, p, m), l)
  {
    var u := WithNeg(w, p, m);
    ReleasesLines(w, u, p, k, l);
    OwnerFacts(w.plane, k.taken);
    OldSlots(w, u, p);
    RelinedQuietly(w, u, p, k, l);
  }

  lemma PublishedStay(w: World, p: Pid, k: Slack)
    requires p in w.neg && Lines(w, p, k) && Registry(w)
    ensures forall t :: t in w.neg[p].published && t in w.plane.tracks ==>
      PublishAt(w.neg[p].mlines, w.plane.tracks[t].mid)
    ensures PublishLines(p, w.neg[p], w.plane.tracks, OpenMids(p, k))
  {
    forall t | t in w.neg[p].published && t in w.plane.tracks
      ensures PublishAt(w.neg[p].mlines, w.plane.tracks[t].mid)
    {
      PublishedAt(w, p, t, k);
    }
    assert Open(0);
  }

  /** Flags and counters, the offer answered, or publishes queued within the limit. */
  lemma MarkedKeeps(w: World, p: Pid, m: Neg, k: Slack)
    requires Core(w, k) && p in w.neg && SameBut(w.neg[p], m) && m.mlines == w.neg[p].mlines
      && m.awaiting == w.neg[p].awaiting
    requires |m.published| + |m.awaiting| + |OpenMids(p, k)| + Queued(m) <= MAX_TRACKS_PER_SESSION
    ensures Core(WithNeg(w, p, m), k)
  {
    PublishedStay(w, p, k);
    PublishLinesSame(p, w.neg[p], m.(queued := w.neg[p].queued), w.plane.tracks, OpenMids(p, k));
    MarkedLines(p, m, w.neg[p].queued, w.plane.tracks, OpenMids(p, k));
    FlagsKeep(w, p, m, k, k);
  }

  lemma MarkedLines(p: Pid, m: Neg, queued: Option<seq<Kind>>, ts: map<Tid, Track>, open: set<nat>)
    requires PublishLines(p, m.(queued := queued), ts, open)
    requires |m.published| + |m.awaiting| + |open| + Queued(m) <= MAX_TRACKS_PER_SESSION
    ensures PublishLines(p, m, ts, open)
  {
    forall x | Unregistered(m.(queued := queued), ts, x) ensures Unregistered(m, ts, x) {
    }
  }

  lemma CountFacts(w: World, p: Pid, k: Slack)
    requires p in w.neg && Lines(w, p, k)
    ensures |w.neg[p].published| + |w.neg[p].awaiting| + |OpenMids(p, k)| + Queued(w.neg[p]) <= MAX_TRACKS_PER_SESSION
  {
    assert Open(0);
  }

  // ── An answer's publish m-lines ──────────────────────────────────

  lemma AnsweredLines(p: Pid, n: Neg, m: Neg, ts: map<Tid, Track>)
    requires PublishLines(p, n, ts, {})
    requires m.published == n.published && m.mlines == n.mlines && m.awaiting == [] && Queued(m) <= Queued(n)
    ensures PublishLines(p, m, ts, Elements(n.awaiting))
  {
    ElementsSize(n.awaiting);
    forall x | Unregistered(n, ts, x) ensures Unregistered(m, ts, x) {
    }
  }

  /** The mids an accepted answer registers, taken off the waiting ones. */
  lemma AnsweredKeeps(w: World, p: Pid, m: Neg, k: Slack)
    requires Core(w, k) && p in w.neg && k.open == {} && SameBut(w.neg[p], m) && m.mlines == w.neg[p].mlines
    requires m.awaiting == [] && m.queued == w.neg[p].queued
    ensures Core(WithNeg(w, p, m), k.(who := p, open := Elements(w.neg[p].awaiting)))
  {
    PublishedStay(w, p, k);
    AnsweredLines(p, w.neg[p], m, w.plane.tracks);
    FlagsKeep(w, p, m, k, k.(who := p, open := Elements(w.neg[p].awaiting)));
  }

  lemma ReleasedIs(n: Neg, mid: nat)
    requires Shape(n)
    ensures PublishReleased(n, mid) == if PublishAt(n.mlines, mid) then Deactivated(n, mid) else n
  {
  }

  lemma ReleasedLines(p: Pid, n: Neg, ts: map<Tid, Track>, open: set<nat>, mid: nat)
    requires PublishLines(p, n, ts, open) && mid in open
    ensures PublishAt(n.mlines, mid) && PublishLines(p, Deactivated(n, mid), ts, open - {mid})
  {
    var m := Deactivated(n, mid);
    assert Unregistered(n, ts, mid);
    forall x | Unregistered(n, ts, x) && x != mid ensures Unregistered(m, ts, x) {
    }
    forall i | PublishAt(m.mlines, i)
      ensures i in m.awaiting || i in open - {mid} || exists t :: t in m.published && t in ts && ts[t].mid == i
    {
      assert PublishAt(n.mlines, i);
    }
  }

  /** A publish m-line of the answer that became no track turns inactive. */
  lemma ReleasedKeeps(w: World, p: Pid, mid: nat, k: Slack)
    requires Core(w, k) && p in w.neg && k.who == p && mid in k.open
    ensures Core(WithNeg(w, p, PublishReleased(w.neg[p], mid)), k.(open := k.open - {mid}))
  {
    var n := w.neg[p];
    PublishedStay(w, p, k);
    ShapeFacts(w, p, k);
    ReleasedIs(n, mid);
    ReleasedLines(p, n, w.plane.tracks, k.open, mid);
    assert Unregistered(n, w.plane.tracks, mid);
    FlagsKeep(w, p, Deactivated(n, mid), k, k.(open := k.open - {mid}));
  }

  // ── Publish m-lines given up after invalid answers ───────────────

  /** The publish m-lines with one of `mids` turned inactive. */
  function ReleasedAll(ms: seq<Mline>, mids: seq<nat>): (r: seq<Mline>)
    ensures |r| == |ms|
    ensures forall i :: 0 <= i < |ms| ==> r[i] == if ms[i].mid in mids then ms[i].(role := Inactive) else ms[i]
  {
    seq(|ms|, i requires 0 <= i < |ms| => if ms[i].mid in mids then ms[i].(role := Inactive) else ms[i])
  }

  function GivenUp(n: Neg): Neg {
    n.(mlines := ReleasedAll(n.mlines, n.awaiting), awaiting := [])
  }

  lemma GivenUpLines(p: Pid, n: Neg, ts: map<Tid, Track>)
    requires Shape(n) && PublishLines(p, n, ts, {})
    ensures SameBut(n, GivenUp(n)) && PublishLines(p, GivenUp(n), ts, {})
    ensures forall t :: t in n.published && t in ts && PublishAt(n.mlines, ts[t].mid) ==>
      PublishAt(GivenUp(n).mlines, ts[t].mid)
  {
    var m := GivenUp(n);
    forall x | x in n.awaiting ensures PublishAt(n.mlines, x) {
      assert Unregistered(n, ts, x);
    }
    forall t | t in n.published && t in ts ensures ts[t].mid !in n.awaiting {
      assert ts[t].mid in n.awaiting ==> Unregistered(n, ts, ts[t].mid);
    }
    forall i | PublishAt(m.mlines, i) ensures exists t :: t in m.published && t in ts && ts[t].mid == i {
      assert PublishAt(n.mlines, i) && i !in n.awaiting;
    }
  }

  lemma GivenUpKeeps(w: World, p: Pid, k: Slack)
    requires Core(w, k) && p in w.neg && OpenMids(p, k) == {}
    ensures Core(WithNeg(w, p, GivenUp(w.neg[p])), k)
  {
    PublishedStay(w, p, k);
    ShapeFacts(w, p, k);
    GivenUpLines(p, w.neg[p], w.plane.tracks);
    FlagsKeep(w, p, GivenUp(w.neg[p]), k, k);
  }

  // ── Offers ───────────────────────────────────────────────────────

  function OfferSent(n: Neg): Neg {
    n.(offerPending := true, renegotiate := false, version := n.version + 1)
  }

  ghost function Offered(w: World, p: Pid): World
    requires p in w.neg && p in w.plane.offers
  {
    var n := w.neg[p];
    World(w.sessions, w.neg[p := OfferSent(n)],
          w.plane.(offers := w.plane.offers[p := w.plane.offers[p] + [Offer(n.version + 1, n.mlines)]]))
  }

  /** No slot that is off the shard would be refused by it for its SSRC. */
  ghost predicate NoneStale(w: World, p: Pid) {
    p in w.neg ==> forall i: nat :: !StaleAt(w, p, i)
  }

  lemma OfferedDiscipline(n: Neg, os: seq<Offer>)
    requires Discipline(n, os) && !n.offerPending
    ensures Discipline(OfferSent(n), os + [Offer(n.version + 1, n.mlines)])
  {
    var (m, us) := (OfferSent(n), os + [Offer(n.version + 1, n.mlines)]);
    forall j | 0 <= j < |us| ensures us[j].version == j + 1 && Extends(us[j].mlines, m.mlines) {
      if j < |os| {
        assert us[j] == os[j];
      }
    }
    forall j | 0 < j < |us| ensures Extends(us[j-1].mlines, us[j].mlines) {
      assert us[j-1] == os[j-1];
      if j < |os| {
        assert us[j] == os[j];
      }
    }
  }

  lemma OfferedSlots(w: World, u: World, p: Pid, gone: set<Tid>)
    requires p in w.neg && p in w.sessions && SubscribeLines(w, p, gone) && NoneStale(w, p)
    requires p in u.neg && u.neg[p] == OfferSent(w.neg[p]) && u.sessions == w.sessions
    requires u.plane == w.plane.(offers := u.plane.offers)
    ensures SubscribeLines(u, p, gone)
  {
    var n := w.neg[p];
    if n.session.Some? {
      var a := w.plane.entries[n.session.value].ssrcs;
      forall i | SlotAt(n.mlines, i) ensures SlotOk(u, p, a, n.mlines[i].role.slot, gone) {
        assert SlotOk(w, p, a, n.mlines[i].role.slot, gone);
        assert !StaleAt(w, p, i);
      }
    }
  }

  lemma OfferedLines(w: World, u: World, p: Pid, k: Slack)
    requires p in w.neg && Lines(w, p, k) && NoneStale(w, p) && !w.neg[p].offerPending && w.neg[p].session.Some?
    requires p in w.plane.offers && u == Offered(w, p)
    ensures Lines(u, p, k)
  {
    assert Open(0);
    OfferedDiscipline(w.neg[p], w.plane.offers[p]);
    PublishLinesSame(p, w.neg[p], u.neg[p], w.plane.tracks, OpenMids(p, k));
    OfferedSlots(w, u, p, k.gone);
  }

  /** An offer goes out, when none is outstanding and no slot in it is stale. */
  lemma OfferedKeeps(w: World, p: Pid, k: Slack)
    requires Core(w, k) && p in w.neg && NoneStale(w, p) && !w.neg[p].offerPending && w.neg[p].session.Some?
    ensures p in w.plane.offers && Core(Offered(w, p), k)
  {
    LinesInDomain(w, p, k);
    var u := Offered(w, p);
    OfferedLines(w, u, p, k);
    OwnerFacts(w.plane, k.taken);
    PublishedStay(w, p, k);
    OldSlots(w, u, p);
    RelinedQuietly(w, u, p, k, k);
  }

  // ── The peer's SSRCs ─────────────────────────────────────────────

  ghost function Noted(w: World, id: Sid, ssrc: u32): World
    requires id in w.plane.entries
  {
    var e := w.plane.entries[id];
    w.(plane := w.plane.(entries := w.plane.entries[id := e.(ssrcs := AfterNote(e.ssrcs, ssrc))]))
  }

  lemma NotedLines(w: World, p: Pid, ssrc: u32, k: Slack)
    requires p in w.neg && Lines(w, p, k) && w.neg[p].session.Some? && w.neg[p].session.value in w.plane.entries
    ensures Lines(Noted(w, w.neg[p].session.value, ssrc), p, k)
  {
    assert Open(0);
    var (n, id) := (w.neg[p], w.neg[p].session.value);
    var u := Noted(w, id, ssrc);
    var (a, b) := (w.plane.entries[id].ssrcs, u.plane.entries[id].ssrcs);
    forall i | SlotAt(n.mlines, i) ensures SlotOk(u, p, b, n.mlines[i].role.slot, k.gone) {
      assert SlotOk(w, p, a, n.mlines[i].role.slot, k.gone);
    }
  }

  /** Remembering a peer SSRC changes no offset. */
  lemma NotedKeeps(w: World, p: Pid, ssrc: u32, k: Slack)
    requires Core(w, k) && p in w.neg && w.neg[p].session.Some?
    ensures w.neg[p].session.value in w.plane.entries && Core(Noted(w, w.neg[p].session.value, ssrc), k)
  {
    TransportFacts(w, p);
    var id := w.neg[p].session.value;
    var u := Noted(w, id, ssrc);
    SessionFacts(w.plane, id);
    NotedLines(w, p, ssrc, k);
    OwnerFacts(w.plane, k.taken);
    PublishedStay(w, p, k);
    OldSlots(w, u, p);
    RelinedQuietly(w, u, p, k, k);
  }

  // ── Messages to participants, datagrams ──────────────────────────

  function Told(v: PlaneView, p: Pid, signal: Signal): PlaneView {
    if p in v.outbox then v.(outbox := v.outbox[p := v.outbox[p] + [signal]]) else v
  }

  lemma ToldKeeps(w: World, p: Pid, signal: Signal, k: Slack)
    requires Core(w, k)
    ensures Core(w.(plane := Told(w.plane, p, signal)), k)
  {
    var u := w.(plane := Told(w.plane, p, signal));
    OwnerFacts(w.plane, k.taken);
    BooksKept(w.plane, u.plane, k.taken);
    assert Rebooks(w, u);
    Rebooked(w, u, k, k);
  }
}
