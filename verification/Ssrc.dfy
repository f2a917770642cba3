/**
 Outbound SSRCs of one session (src/orchestrator/transports.rs).

 An out SSRC is `base + offset` in wrapping 32-bit arithmetic. Offsets are handed out in
 increasing order from 1, skipping the SSRC 0 and the SSRCs the peer announced; `high` is
 the largest offset the shard accepted. `Allocator` is the value of an allocator and the
 functions on it are its specification; `SsrcAllocator` is the allocator itself.
 */
module Ssrc {
  import opened Words
  import opened Collections
  import opened Wrappers

  const MAX_OFFSET: nat := 0x7FFF_FFFF
  const MAX_PEERS: nat := 64
  const TRIES: nat := MAX_PEERS + 2

  /** 32-bit `wrapping_sub`. */
  function WrapSub(x: u32, y: u32): u32 {
    if x >= y then x - y else x + WORD - y
  }

  datatype Allocator = Allocator(base: u32, next: nat, high: nat, peers: seq<u32>)

  predicate Valid(a: Allocator) {
    && a.base != 0
    && a.high < a.next
    && 1 <= a.next <= MAX_OFFSET + 1
    && |a.peers| <= MAX_PEERS
  }

  /** The SSRC at `offset` from the base (`wrapping_add`). */
  function At(a: Allocator, offset: nat): u32 {
    (a.base + offset) % WORD
  }

  /** The offset of `ssrc` from the base. */
  function OffsetOf(a: Allocator, ssrc: u32): u32 {
    WrapSub(ssrc, a.base)
  }

  predicate IsStale(a: Allocator, ssrc: u32) {
    OffsetOf(a, ssrc) <= a.high
  }

  predicate Usable(a: Allocator, offset: nat) {
    offset <= MAX_OFFSET && At(a, offset) != 0 && At(a, offset) !in a.peers
  }

  /** `ssrc` was handed out, or is the base. */
  predicate InUse(a: Allocator, ssrc: u32, handedOut: set<u32>) {
    ssrc == a.base || ssrc in handedOut
  }

  /** The first usable offset among the `tries` offsets from `offset` on. */
  function Scan(a: Allocator, offset: nat, tries: nat): (r: Option<nat>)
    ensures r.Some? ==> offset <= r.value < offset + tries && Usable(a, r.value)
    ensures forall o :: offset <= o < (if r.Some? then r.value else offset + tries) ==> !Usable(a, o)
    decreases tries
  {
    if tries == 0 then None
    else if Usable(a, offset) then Some(offset)
    else Scan(a, offset + 1, tries - 1)
  }

  lemma {:induction false} PastTheEnd(a: Allocator, offset: nat, tries: nat)
    requires offset > MAX_OFFSET
    ensures Scan(a, offset, tries).None?
    decreases tries
  {
    if tries > 0 {
      PastTheEnd(a, offset + 1, tries - 1);
    }
  }

  /** What `allocate` hands out: `None` consumes no offset. */
  function Allocated(a: Allocator): (r: Option<u32>) {
    match Scan(a, a.next, TRIES)
    case Some(offset) => Some(At(a, offset))
    case None => None
  }

  function AfterAllocate(a: Allocator): Allocator {
    match Scan(a, a.next, TRIES)
    case Some(offset) => a.(next := offset + 1)
    case None => a
  }

  predicate NoteAccepted(a: Allocator, ssrc: u32) {
    OffsetOf(a, ssrc) >= a.next
  }

  function AfterNote(a: Allocator, ssrc: u32): Allocator {
    if NoteAccepted(a, ssrc) && ssrc !in a.peers && |a.peers| < MAX_PEERS
    then a.(peers := a.peers + [ssrc]) else a
  }

  // ── Wrapping arithmetic ──────────────────────────────────────────

  /** Offsets and SSRCs are two names for the same thing. */
  lemma OffsetRoundTrip(a: Allocator, offset: nat, ssrc: u32)
    requires offset < WORD
    ensures OffsetOf(a, At(a, offset)) == offset
    ensures At(a, OffsetOf(a, ssrc)) == ssrc
  {
    assert a.base + offset < WORD || a.base + offset == WORD + (a.base + offset - WORD);
    if ssrc >= a.base {
      assert (ssrc + WORD - a.base) == WORD + (ssrc - a.base);
    }
  }

  /** Distinct offsets of one window name distinct SSRCs. */
  lemma AtInjective(a: Allocator, o1: nat, o2: nat)
    requires o1 < WORD && o2 < WORD && At(a, o1) == At(a, o2)
    ensures o1 == o2
  {
    OffsetRoundTrip(a, o1, 0);
    OffsetRoundTrip(a, o2, 0);
  }

  // ── Allocation ───────────────────────────────────────────────────

  ghost function Window(a: Allocator, offset: nat, tries: nat): set<u32>
    decreases tries
  {
    if tries == 0 then {} else {At(a, offset)} + Window(a, offset + 1, tries - 1)
  }

  lemma {:induction false} WindowSize(a: Allocator, offset: nat, tries: nat)
    requires offset + tries < WORD
    ensures |Window(a, offset, tries)| == tries
    ensures forall s :: s in Window(a, offset, tries) ==> exists o :: offset <= o < offset + tries && s == At(a, o)
    decreases tries
  {
    if tries > 0 {
      WindowSize(a, offset + 1, tries - 1);
      if At(a, offset) in Window(a, offset + 1, tries - 1) {
        var o :| offset + 1 <= o < offset + tries && At(a, offset) == At(a, o);
        AtInjective(a, offset, o);
      }
    }
  }

  /**
   Completeness: `allocate` gives up only when no offset is left at all. More offsets are
   tried than there are SSRCs to skip (0 and at most 64 of the peer's), so a run of
   unusable offsets cannot fill the window.
   */
  lemma NoneMeansExhausted(a: Allocator)
    requires Valid(a)
    ensures Allocated(a).None? <==> forall o :: a.next <= o <= MAX_OFFSET ==> !Usable(a, o)
  {
    if Scan(a, a.next, TRIES).None? && a.next + TRIES <= MAX_OFFSET + 1 {
      WindowSize(a, a.next, TRIES);
      var peers := Elements(a.peers);
      var skipped := peers + {0};
      forall s | s in Window(a, a.next, TRIES) ensures s in skipped {
        var o :| a.next <= o < a.next + TRIES && s == At(a, o);
        assert !Usable(a, o);
      }
      ElementsSize(a.peers);
      assert |skipped| <= |peers| + 1 by {
        assert skipped - {0} <= peers && |skipped - {0}| == |skipped| - 1;
        Subset(skipped - {0}, peers);
      }
      Subset(Window(a, a.next, TRIES), skipped);
      assert false;
    }
  }

  /**
   Soundness: the SSRC handed out is not 0, not the base, not one of the peer's, and its
   offset is the smallest usable one above every offset handed out or registered before.
   */
  lemma AllocatedIsFresh(a: Allocator)
    requires Valid(a)
    ensures Valid(AfterAllocate(a))
    ensures Allocated(a).None? ==> AfterAllocate(a) == a
    ensures Allocated(a).Some? ==>
      var s := Allocated(a).value;
      var o := OffsetOf(a, s);
      && s != 0 && s != a.base && s !in a.peers && !IsStale(a, s)
      && a.next <= o && AfterAllocate(a) == a.(next := o + 1)
      && forall k :: a.next <= k < o ==> !Usable(a, k)
  {
    match Scan(a, a.next, TRIES)
    case None =>
    case Some(offset) =>
      OffsetRoundTrip(a, offset, a.base);
      OffsetRoundTrip(a, 0, 0);
  }

  // ── Runs ─────────────────────────────────────────────────────────

  /** A call on the allocator. */
  datatype Step = Note(ssrc: u32) | Allocate | Mark(ssrc: u32)

  /** An allocator and all it has handed out. */
  datatype History = History(a: Allocator, handedOut: set<u32>)

  ghost function Fresh(base: u32): History {
    History(Allocator(base, 1, 0, []), {})
  }

  /** The source's asserts on `mark_registered`: a call that fails them does not return. */
  predicate Markable(a: Allocator, ssrc: u32) {
    !IsStale(a, ssrc) && OffsetOf(a, ssrc) < a.next
  }

  ghost function After(h: History, step: Step): History {
    match step
    case Note(ssrc) => h.(a := AfterNote(h.a, ssrc))
    case Allocate =>
      History(AfterAllocate(h.a), h.handedOut + (if Allocated(h.a).Some? then {Allocated(h.a).value} else {}))
    case Mark(ssrc) => if Markable(h.a, ssrc) then h.(a := h.a.(high := OffsetOf(h.a, ssrc))) else h
  }

  ghost function Run(h: History, steps: seq<Step>): History
    decreases |steps|
  {
    if steps == [] then h else Run(After(h, steps[0]), steps[1..])
  }

  /** `allocate` went past `ssrc` without handing it out, for it is 0 or the peer's. */
  predicate Skipped(a: Allocator, ssrc: u32) {
    1 <= OffsetOf(a, ssrc) < a.next && (ssrc == 0 || ssrc in a.peers)
  }

  /** Below `next` every SSRC but the base was either handed out or skipped, and none was both. */
  ghost predicate Accounted(h: History) {
    && Valid(h.a) && h.a.base !in h.a.peers
    && (forall s: u32 :: s in h.handedOut <==> 1 <= OffsetOf(h.a, s) < h.a.next && !Skipped(h.a, s))
  }

  lemma StepAccounted(h: History, step: Step)
    requires Accounted(h)
    ensures Accounted(After(h, step))
  {
    var (a, k) := (h.a, After(h, step));
    if step.Allocate? {
      AllocatedIsFresh(a);
      forall s: u32 ensures s in k.handedOut <==> 1 <= OffsetOf(a, s) < k.a.next && !Skipped(k.a, s) {
        OffsetRoundTrip(a, OffsetOf(a, s), s);
        if a.next <= OffsetOf(a, s) < k.a.next - 1 {
          assert !Usable(a, OffsetOf(a, s));
        }
      }
    }
  }

  lemma {:induction false} RunAccounted(h: History, steps: seq<Step>)
    requires Accounted(h)
    ensures Accounted(Run(h, steps)) && Run(h, steps).a.base == h.a.base && h.handedOut <= Run(h, steps).handedOut
    decreases |steps|
  {
    if steps != [] {
      StepAccounted(h, steps[0]);
      RunAccounted(After(h, steps[0]), steps[1..]);
    }
  }

  /** Every run from a new allocator accounts for all it went past. */
  lemma RunsAreAccounted(base: u32, steps: seq<Step>)
    requires base != 0
    ensures Accounted(Run(Fresh(base), steps)) && Run(Fresh(base), steps).a.base == base
  {
    assert forall s: u32 :: !(1 <= OffsetOf(Fresh(base).a, s) < 1);
    RunAccounted(Fresh(base), steps);
  }

  /**
   After any calls in any order, what `allocate` hands out next was never handed out before,
   and is neither 0 nor the base nor an SSRC of the peer's that is remembered.
   */
  lemma NeverTwice(base: u32, steps: seq<Step>)
    requires base != 0
    ensures
      var h := Run(Fresh(base), steps);
      Allocated(h.a).Some? ==>
        var s := Allocated(h.a).value;
        s !in h.handedOut && s != 0 && s != base && s !in h.a.peers
  {
    RunsAreAccounted(base, steps);
    AllocatedIsFresh(Run(Fresh(base), steps).a);
  }

  lemma AllocateStep(h: History)
    requires Accounted(h)
    ensures Valid(h.a) && Accounted(After(h, Allocate))
    ensures Allocated(h.a).None? <==> forall o :: h.a.next <= o <= MAX_OFFSET ==> !Usable(h.a, o)
    ensures Allocated(h.a).Some? ==>
      var s := Allocated(h.a).value;
      s !in h.handedOut && s != 0 && s != h.a.base && s !in h.a.peers
  {
    StepAccounted(h, Allocate);
    AllocatedIsFresh(h.a);
    NoneMeansExhausted(h.a);
  }

  // ── The peer's SSRCs ─────────────────────────────────────────────

  /**
   After any calls: an SSRC in use is refused, and an accepted one is in use neither then nor
   by the next allocation.
   */
  lemma AcceptedNoteWasUnused(base: u32, steps: seq<Step>, ssrc: u32)
    requires base != 0
    ensures
      var h := Run(Fresh(base), steps);
      && (InUse(h.a, ssrc, h.handedOut) ==> !NoteAccepted(h.a, ssrc))
      && (NoteAccepted(h.a, ssrc) && ssrc in AfterNote(h.a, ssrc).peers ==>
           Allocated(AfterNote(h.a, ssrc)) != Some(ssrc))
  {
    RunsAreAccounted(base, steps);
    var h := Run(Fresh(base), steps);
    AllocatedIsFresh(AfterNote(h.a, ssrc));
  }

  /**
   The converse fails: a peer SSRC that `allocate` skipped is refused when it is announced
   again, although the session never used it.
   */
  lemma SkippedPeerSsrcIsRefused()
    ensures
      var h := Run(Fresh(100), [Note(101), Allocate]);
      && h.handedOut == {102} && NoteAccepted(Fresh(100).a, 101)
      && !NoteAccepted(h.a, 101) && !InUse(h.a, 101, h.handedOut)
  {
    var start := Fresh(100);
    var a1 := AfterNote(start.a, 101);
    assert At(a1, 1) == 101 && At(a1, 2) == 102;
    assert Scan(a1, 1, TRIES) == Scan(a1, 2, TRIES - 1);
    assert Usable(a1, 2);
    assert [Note(101), Allocate][1..] == [Allocate] && [Allocate][1..] == [];
    assert Run(start, [Note(101), Allocate]) == Run(After(start, Note(101)), [Allocate]);
    assert Run(start, [Note(101), Allocate]) == After(After(start, Note(101)), Allocate);
  }

  /**
   And exactly when: after any calls, an SSRC that nothing uses is refused if and only if
   `allocate` skipped it, being 0 or remembered as the peer's.
   */
  lemma RefusedThoughUnused(base: u32, steps: seq<Step>, ssrc: u32)
    requires base != 0
    ensures
      var h := Run(Fresh(base), steps);
      !NoteAccepted(h.a, ssrc) && !InUse(h.a, ssrc, h.handedOut) <==> Skipped(h.a, ssrc)
  {
    RunsAreAccounted(base, steps);
    OffsetRoundTrip(Run(Fresh(base), steps).a, OffsetOf(Run(Fresh(base), steps).a, ssrc), ssrc);
  }

  /** So a refusal means use, for all SSRCs, if and only if neither 0 nor a remembered SSRC lies below `next`. */
  lemma NoteIsExactWithoutSkips(base: u32, steps: seq<Step>)
    requires base != 0
    ensures
      var h := Run(Fresh(base), steps);
      (forall ssrc: u32 :: NoteAccepted(h.a, ssrc) <==> !InUse(h.a, ssrc, h.handedOut))
        <==> h.a.next <= OffsetOf(h.a, 0) && forall i :: 0 <= i < |h.a.peers| ==>
          h.a.next <= OffsetOf(h.a, h.a.peers[i])
  {
    RunsAreAccounted(base, steps);
    var h := Run(Fresh(base), steps);
    forall ssrc: u32 ensures !NoteAccepted(h.a, ssrc) && !InUse(h.a, ssrc, h.handedOut) <==> Skipped(h.a, ssrc) {
      RefusedThoughUnused(base, steps, ssrc);
    }
    if h.a.next > OffsetOf(h.a, 0) {
      assert Skipped(h.a, 0);
    }
    forall i | 0 <= i < |h.a.peers| && h.a.next > OffsetOf(h.a, h.a.peers[i]) ensures Skipped(h.a, h.a.peers[i]) {
      assert h.a.peers[i] != base;
    }
  }

  // ── The allocator ────────────────────────────────────────────────

  class SsrcAllocator {
    var base: u32
    var nextOffset: nat
    var highWater: nat
    var peerSsrcs: seq<u32>
    ghost var handedOut: set<u32>

    ghost function View(): History
      reads this
    {
      History(Allocator(base, nextOffset, highWater, peerSsrcs), handedOut)
    }

    constructor (base: u32)
      requires base != 0
      ensures View() == Fresh(base) && Accounted(View())
    {
      this.base := base;
      nextOffset, highWater, peerSsrcs, handedOut := 1, 0, [], {};
      new;
      RunsAreAccounted(base, []);
    }

    /** Refused exactly if the session uses the SSRC or `Allocate` skipped it. */
    method NotePeerSsrc(ssrc: u32) returns (ok: bool)
      requires Accounted(View())
      modifies this`peerSsrcs
      ensures View() == After(old(View()), Note(ssrc)) && Accounted(View())
      ensures !ok <==> InUse(old(View()).a, ssrc, handedOut) || Skipped(old(View()).a, ssrc)
    {
      ghost var h := View();
      StepAccounted(h, Note(ssrc));
      OffsetRoundTrip(h.a, OffsetOf(h.a, ssrc), ssrc);
      if WrapSub(ssrc, base) < nextOffset {
        return false;
      }
      if ssrc !in peerSsrcs && |peerSsrcs| < MAX_PEERS {
        peerSsrcs := peerSsrcs + [ssrc];
      }
      return true;
    }

    /** The loop of `allocate`. */
    method NextUsable() returns (r: Option<nat>)
      ensures r == Scan(View().a, nextOffset, TRIES)
    {
      ghost var a := View().a;
      var offset := nextOffset;
      var tried := 0;
      while tried < TRIES
        invariant tried <= TRIES && offset == nextOffset + tried
        invariant Scan(a, nextOffset, TRIES) == Scan(a, offset, TRIES - tried)
      {
        if offset > MAX_OFFSET {
          PastTheEnd(a, offset, TRIES - tried);
          return None;
        }
        var ssrc := (base + offset) % WORD;
        if ssrc != 0 && ssrc !in peerSsrcs {
          return Some(offset);
        }
        offset, tried := offset + 1, tried + 1;
      }
      return None;
    }

    /**
     An SSRC never handed out before, or none is left. The assert of the source,
     `offset > high_water`, is proved and not assumed.
     */
    method Allocate() returns (r: Option<u32>)
      requires Accounted(View())
      modifies this`nextOffset, this`handedOut
      ensures r == Allocated(old(View()).a)
      ensures View() == After(old(View()), Step.Allocate) && Accounted(View())
      ensures r.Some? ==> r.value !in old(handedOut) && r.value != 0 && r.value != base && r.value !in peerSsrcs
      ensures r.None? <==> forall o :: old(nextOffset) <= o <= MAX_OFFSET ==> !Usable(old(View()).a, o)
    {
      ghost var h := View();
      AllocateStep(h);
      var offset := NextUsable();
      if offset.None? {
        assert View() == After(h, Step.Allocate);
        return None;
      }
      assert offset.value >= nextOffset && offset.value > highWater;
      r := Some((base + offset.value) % WORD);
      nextOffset := offset.value + 1;
      handedOut := handedOut + {r.value};
      assert View() == After(h, Step.Allocate);
    }

    /** Both asserts of the source are its precondition; the orchestrator establishes it. */
    method MarkRegistered(ssrc: u32)
      requires Accounted(View()) && Markable(View().a, ssrc)
      modifies this`highWater
      ensures View() == After(old(View()), Mark(ssrc)) && Accounted(View())
      ensures IsStale(View().a, ssrc) && forall s: u32 :: IsStale(old(View()).a, s) ==> IsStale(View().a, s)
    {
      StepAccounted(View(), Mark(ssrc));
      highWater := WrapSub(ssrc, base);
    }
  }
}
