/**
 Two-phase bandwidth allocation (crates/nexus-bwe/src/gcc.rs, allocation.rs): first each
 track's lowest layer, then the rest by priority.
 */
module Allocation {
  import opened Arithmetic

  datatype Layer = Layer(index: nat, bitrate: nat)

  /** A track as requested, and what it is given. Priorities are 0 (low) to 3 (critical). */
  datatype Track = Track(id: nat, priority: nat, max: nat, layers: seq<Layer>, given: nat, selected: nat)

  /** The lowest layer's bitrate. */
  function Min(t: Track): nat {
    if t.layers == [] then 0 else t.layers[0].bitrate
  }

  predicate Increasing(layers: seq<Layer>) {
    forall i, j :: 0 <= i < j < |layers| ==> layers[i].bitrate < layers[j].bitrate
  }

  /** The request without the outcome. */
  function Asked(t: Track): Track {
    t.(given := 0, selected := 0)
  }

  function Requests(ts: seq<Track>): (r: seq<Track>)
    ensures |r| == |ts| && forall i :: 0 <= i < |ts| ==> r[i] == Asked(ts[i])
  {
    seq(|ts|, i requires 0 <= i < |ts| => Asked(ts[i]))
  }

  function TotalMin(ts: seq<Track>): nat {
    if ts == [] then 0 else Min(ts[0]) + TotalMin(ts[1..])
  }

  function TotalMax(ts: seq<Track>): nat {
    if ts == [] then 0 else ts[0].max + TotalMax(ts[1..])
  }

  function Total(ts: seq<Track>): nat {
    if ts == [] then 0 else ts[0].given + Total(ts[1..])
  }

  /** What the tracks can take on top of what they have. */
  function Room(ts: seq<Track>): nat {
    if ts == [] then 0 else Extra(ts[0]) + Room(ts[1..])
  }

  function Extra(t: Track): nat {
    if t.max > t.given then t.max - t.given else 0
  }

  // ── Phase 1: the lowest layers ───────────────────────────────────

  /** In exact arithmetic; the source multiplies in binary64. */
  function Share(available: nat, min: nat, total: nat): nat {
    if min > 0 && total > 0 then available * min / total else 0
  }

  function Reserved(ts: seq<Track>, available: nat): (r: seq<Track>)
    ensures |r| == |ts|
    ensures forall i :: 0 <= i < |ts| ==>
      r[i] == ts[i].(given := if TotalMin(ts) <= available then Min(ts[i])
        else Share(available, Min(ts[i]), TotalMin(ts)))
  {
    seq(|ts|, i requires 0 <= i < |ts| =>
      ts[i].(given := if TotalMin(ts) <= available then Min(ts[i]) else Share(available, Min(ts[i]), TotalMin(ts))))
  }

  lemma {:induction false} ReservedMins(ts: seq<Track>)
    requires forall i :: 0 <= i < |ts| ==> ts[i].given == Min(ts[i])
    ensures Total(ts) == TotalMin(ts)
    ensures (forall i :: 0 <= i < |ts| ==> Min(ts[i]) <= ts[i].max) ==> Total(ts) + Room(ts) == TotalMax(ts)
  {
    if ts != [] {
      ReservedMins(ts[1..]);
    }
  }

  lemma ShareBelow(available: nat, min: nat, total: nat)
    ensures total * Share(available, min, total) <= available * min
  {
    if min > 0 && total > 0 {
      var x := available * min;
      assert x == total * (x / total) + x % total;
    }
  }

  /** Proportional shares never add up to more than there is. */
  lemma {:induction false} SharesFit(ts: seq<Track>, available: nat, total: nat)
    requires forall i :: 0 <= i < |ts| ==> ts[i].given == Share(available, Min(ts[i]), total)
    ensures total * Total(ts) <= available * TotalMin(ts)
  {
    if ts != [] {
      SharesFit(ts[1..], available, total);
      ShareBelow(available, Min(ts[0]), total);
      Distribute(total, ts[0].given, Total(ts[1..]));
      Distribute(available, Min(ts[0]), TotalMin(ts[1..]));
    }
  }

  lemma Cancel(total: nat, x: nat, y: nat)
    requires total > 0 && total * x <= y * total
    ensures x <= y
  {
    if x > y {
      Times(y + 1, x, total);
    }
  }

  lemma Distribute(a: nat, x: nat, y: nat)
    ensures a * (x + y) == a * x + a * y
  {
  }

  lemma ReservedFits(ts: seq<Track>, available: nat)
    ensures Total(Reserved(ts, available)) <= available
  {
    var r := Reserved(ts, available);
    SameMins(ts, r);
    if TotalMin(ts) <= available {
      ReservedMins(r);
    } else {
      SharesFit(r, available, TotalMin(ts));
      Cancel(TotalMin(ts), Total(r), available);
    }
  }

  lemma {:induction false} SameMins(ts: seq<Track>, us: seq<Track>)
    requires |us| == |ts| && forall i :: 0 <= i < |ts| ==> us[i].layers == ts[i].layers && us[i].max == ts[i].max
    ensures TotalMin(us) == TotalMin(ts) && TotalMax(us) == TotalMax(ts)
  {
    if ts != [] {
      SameMins(ts[1..], us[1..]);
    }
  }

  // ── Sorting ──────────────────────────────────────────────────────

  predicate Sorted(ts: seq<Track>) {
    forall i, j :: 0 <= i < j < |ts| ==> ts[i].priority >= ts[j].priority
  }

  /** The tracks of one priority, in order. */
  function Of(ts: seq<Track>, priority: nat): seq<Track> {
    if ts == [] then [] else (if ts[0].priority == priority then [ts[0]] else []) + Of(ts[1..], priority)
  }

  /** `t` behind everything of at least its priority. */
  function Insert(ts: seq<Track>, t: Track): (r: seq<Track>)
    requires Sorted(ts)
    ensures Sorted(r) && |r| == |ts| + 1 && forall x :: x in r ==> x in ts || x == t
  {
    if ts == [] || ts[0].priority < t.priority then
      var r := [t] + ts;
      assert forall i :: 0 < i < |r| ==> r[i] == ts[i - 1];
      r
    else
      assert Sorted(ts[1..]);
      var rest := Insert(ts[1..], t);
      assert ts == [ts[0]] + ts[1..];
      var r := [ts[0]] + rest;
      assert forall x :: x in rest ==> x.priority <= ts[0].priority;
      r
  }

  /** The stable sort by descending priority (`sort_by`). */
  function SortDesc(ts: seq<Track>): (r: seq<Track>)
    ensures Sorted(r) && |r| == |ts|
  {
    if ts == [] then [] else
      var n := |ts| - 1;
      Insert(SortDesc(ts[..n]), ts[n])
  }

  lemma {:induction false} OfAppend(a: seq<Track>, b: seq<Track>, priority: nat)
    ensures Of(a + b, priority) == Of(a, priority) + Of(b, priority)
  {
    if a == [] {
      assert a + b == b;
    } else {
      OfAppend(a[1..], b, priority);
      assert (a + b)[0] == a[0] && (a + b)[1..] == a[1..] + b;
      var head := if a[0].priority == priority then [a[0]] else [];
      assert Of(a + b, priority) == head + (Of(a[1..], priority) + Of(b, priority));
      assert head + (Of(a[1..], priority) + Of(b, priority)) == (head + Of(a[1..], priority)) + Of(b, priority);
    }
  }

  lemma {:induction false} InsertStable(ts: seq<Track>, t: Track, priority: nat)
    requires Sorted(ts)
    ensures Of(Insert(ts, t), priority) == Of(ts, priority) + Of([t], priority)
  {
    if ts == [] || ts[0].priority < t.priority {
      assert Insert(ts, t) == [t] + ts;
      OfAppend([t], ts, priority);
      if t.priority == priority {
        NoneOf(ts, priority);
      }
    } else {
      assert Sorted(ts[1..]);
      InsertStable(ts[1..], t, priority);
      var r := Insert(ts, t);
      assert r[0] == ts[0] && r[1..] == Insert(ts[1..], t);
    }
  }

  lemma {:induction false} InsertTotals(ts: seq<Track>, t: Track)
    requires Sorted(ts)
    ensures Total(Insert(ts, t)) == Total(ts) + t.given && Room(Insert(ts, t)) == Room(ts) + Extra(t)
  {
    var r := Insert(ts, t);
    if ts == [] || ts[0].priority < t.priority {
      assert r[0] == t && r[1..] == ts;
    } else {
      assert Sorted(ts[1..]);
      InsertTotals(ts[1..], t);
      assert r[0] == ts[0] && r[1..] == Insert(ts[1..], t);
    }
  }

  lemma {:induction false} NoneOf(ts: seq<Track>, priority: nat)
    requires Sorted(ts) && (ts != [] ==> ts[0].priority < priority)
    ensures Of(ts, priority) == []
  {
    if ts != [] {
      assert Sorted(ts[1..]);
      NoneOf(ts[1..], priority);
    }
  }

  lemma {:induction false} TotalsAppend(a: seq<Track>, t: Track)
    ensures Total(a + [t]) == Total(a) + t.given && Room(a + [t]) == Room(a) + Extra(t)
  {
    if a == [] {
      assert a + [t] == [t] && [t][1..] == [];
    } else {
      TotalsAppend(a[1..], t);
      assert (a + [t])[0] == a[0] && (a + [t])[1..] == a[1..] + [t];
    }
  }

  /** Sorting is stable: each priority keeps its tracks in their order. */
  lemma {:induction false} SortStable(ts: seq<Track>, priority: nat)
    ensures Of(SortDesc(ts), priority) == Of(ts, priority)
  {
    if ts != [] {
      var n := |ts| - 1;
      SortStable(ts[..n], priority);
      InsertStable(SortDesc(ts[..n]), ts[n], priority);
      assert ts == ts[..n] + [ts[n]];
      OfAppend(ts[..n], [ts[n]], priority);
    }
  }

  /** Sorting changes neither what is given nor what there is room for. */
  lemma {:induction false} SortTotals(ts: seq<Track>)
    ensures Total(SortDesc(ts)) == Total(ts) && Room(SortDesc(ts)) == Room(ts)
  {
    if ts != [] {
      var n := |ts| - 1;
      var (front, t) := (ts[..n], ts[n]);
      SortTotals(front);
      InsertTotals(SortDesc(front), t);
      TotalsAppend(front, t);
      assert ts == front + [t] && SortDesc(ts) == Insert(SortDesc(front), t);
    }
  }

  lemma {:induction false} SortMembers(ts: seq<Track>)
    ensures forall x :: x in SortDesc(ts) <==> x in ts
  {
    if ts != [] {
      var n := |ts| - 1;
      SortMembers(ts[..n]);
      InsertMembers(SortDesc(ts[..n]), ts[n]);
      assert ts == ts[..n] + [ts[n]];
    }
  }

  lemma {:induction false} InsertMembers(ts: seq<Track>, t: Track)
    requires Sorted(ts)
    ensures forall x :: x in Insert(ts, t) <==> x in ts || x == t
  {
    if !(ts == [] || ts[0].priority < t.priority) {
      assert Sorted(ts[1..]) && ts == [ts[0]] + ts[1..];
      InsertMembers(ts[1..], t);
    }
  }

  // ── Phase 2: the rest by priority ────────────────────────────────

  function Grant(t: Track, remaining: nat): nat {
    if Extra(t) < remaining then Extra(t) else remaining
  }

  /** In order, each track up to its maximum, while something remains. */
  function Distributed(ts: seq<Track>, remaining: nat): seq<Track>
    decreases |ts|
  {
    if ts == [] || remaining == 0 then ts
    else
      var more := Grant(ts[0], remaining);
      [ts[0].(given := ts[0].given + more)] + Distributed(ts[1..], remaining - more)
  }

  /** Everything that remains is given, as far as there is room for it. */
  lemma {:induction false} DistributedTotal(ts: seq<Track>, remaining: nat)
    ensures Total(Distributed(ts, remaining)) == Total(ts) + (if Room(ts) < remaining then Room(ts) else remaining)
    decreases |ts|
  {
    if ts != [] && remaining > 0 {
      DistributedTotal(ts[1..], remaining - Grant(ts[0], remaining));
    }
  }

  /** Only the outcome changes, and a track gets more only when every track before it is at its maximum. */
  lemma {:induction false} DistributedInOrder(ts: seq<Track>, remaining: nat, i: nat)
    requires i < |ts|
    ensures
      var r := Distributed(ts, remaining);
      && |r| == |ts| && r[i] == ts[i].(given := r[i].given)
      && ts[i].given <= r[i].given && (r[i].given <= ts[i].max || r[i].given == ts[i].given)
      && (r[i].given > ts[i].given ==> forall j :: 0 <= j < i ==> r[j].given >= r[j].max)
    decreases |ts|
  {
    if remaining > 0 {
      var more := Grant(ts[0], remaining);
      var rest := Distributed(ts[1..], remaining - more);
      if |ts| > 1 {
        DistributedInOrder(ts[1..], remaining - more, if i > 0 then i - 1 else 0);
      }
      if i > 0 && Distributed(ts, remaining)[i].given > ts[i].given {
        forall j | 0 <= j < i ensures Distributed(ts, remaining)[j].given >= Distributed(ts, remaining)[j].max {
          if j > 0 {
            assert Distributed(ts, remaining)[j] == rest[j - 1];
          }
        }
      }
    }
  }

  // ── Layers ───────────────────────────────────────────────────────

  /** How many layers, from the lowest, fit into `bitrate`. */
  function Fitting(layers: seq<Layer>, bitrate: nat): (n: nat)
    ensures n <= |layers|
  {
    if layers == [] || layers[0].bitrate > bitrate then 0 else 1 + Fitting(layers[1..], bitrate)
  }

  function SelectedLayer(t: Track): nat {
    var n := Fitting(t.layers, t.given);
    if n == 0 then 0 else t.layers[n - 1].index
  }

  /** The selected layer is the highest that fits. */
  lemma {:induction false} FittingIsHighest(layers: seq<Layer>, bitrate: nat)
    requires Increasing(layers)
    ensures forall i :: 0 <= i < |layers| ==> (layers[i].bitrate <= bitrate <==> i < Fitting(layers, bitrate))
  {
    if layers != [] && layers[0].bitrate <= bitrate {
      assert Increasing(layers[1..]);
      FittingIsHighest(layers[1..], bitrate);
      forall i | 0 <= i < |layers| ensures layers[i].bitrate <= bitrate <==> i < Fitting(layers, bitrate) {
        assert i > 0 ==> layers[i] == layers[1..][i - 1];
      }
    }
  }

  method SelectLayer(t: Track) returns (r: Track)
    ensures r == t.(selected := SelectedLayer(t))
  {
    if t.layers == [] {
      return t.(selected := 0);
    }
    var selected := 0;
    var i := 0;
    while i < |t.layers|
      invariant 0 <= i <= |t.layers|
      invariant Fitting(t.layers, t.given) == i + Fitting(t.layers[i..], t.given)
      invariant selected == if i == 0 then 0 else t.layers[i - 1].index
    {
      if t.layers[i].bitrate <= t.given {
        selected := t.layers[i].index;
      } else {
        break;
      }
      i := i + 1;
    }
    return t.(selected := selected);
  }

  // ── allocate_bandwidth ───────────────────────────────────────────

  function Finished(ts: seq<Track>): (r: seq<Track>)
    ensures |r| == |ts| && forall i :: 0 <= i < |ts| ==> r[i] == ts[i].(selected := SelectedLayer(ts[i]))
  {
    seq(|ts|, i requires 0 <= i < |ts| => ts[i].(selected := SelectedLayer(ts[i])))
  }

  function Remaining(ts: seq<Track>, available: nat): nat {
    if TotalMin(ts) < available then available - TotalMin(ts) else 0
  }

  function Allocated(ts: seq<Track>, available: nat): seq<Track> {
    Finished(Distributed(SortDesc(Reserved(ts, available)), Remaining(ts, available)))
  }

  method AllocateBandwidth(tracks: seq<Track>, available: nat) returns (r: seq<Track>)
    ensures r == Allocated(tracks, available)
  {
    r := AllocateMinimumLayers(tracks, available);
    var total := SumMin(tracks);
    var remaining := if total < available then available - total else 0;
    r := SortByPriority(r);
    r := AllocateRemaining(r, remaining);
    var i := 0;
    ghost var before := r;
    while i < |r|
      invariant 0 <= i <= |r| == |before|
      invariant forall j :: 0 <= j < i ==> r[j] == Finished(before)[j]
      invariant forall j :: i <= j < |r| ==> r[j] == before[j]
    {
      var t := SelectLayer(r[i]);
      r := r[i := t];
      i := i + 1;
    }
    assert r == Finished(before);
  }

  method SumMin(ts: seq<Track>) returns (total: nat)
    ensures total == TotalMin(ts)
  {
    total := 0;
    var i := |ts|;
    while i > 0
      invariant 0 <= i <= |ts| && total == TotalMin(ts[i..])
    {
      i := i - 1;
      assert ts[i..][1..] == ts[i + 1..];
      total := Min(ts[i]) + total;
    }
    assert ts[0..] == ts;
  }

  method AllocateMinimumLayers(tracks: seq<Track>, available: nat) returns (r: seq<Track>)
    ensures r == Reserved(tracks, available)
  {
    var total := SumMin(tracks);
    r := tracks;
    var i := 0;
    while i < |r|
      invariant 0 <= i <= |r| == |tracks|
      invariant forall j :: 0 <= j < i ==> r[j] == Reserved(tracks, available)[j]
      invariant forall j :: i <= j < |r| ==> r[j] == tracks[j]
    {
      var min := Min(r[i]);
      if total <= available {
        r := r[i := r[i].(given := min)];
      } else {
        r := r[i := r[i].(given := Share(available, min, total))];
      }
      i := i + 1;
    }
    assert r == Reserved(tracks, available);
  }

  method SortByPriority(ts: seq<Track>) returns (r: seq<Track>)
    ensures r == SortDesc(ts)
  {
    r := [];
    for i := 0 to |ts|
      invariant r == SortDesc(ts[..i])
    {
      assert ts[..i + 1][..i] == ts[..i];
      r := Insert(r, ts[i]);
    }
    assert ts[..|ts|] == ts;
  }

  method AllocateRemaining(ts: seq<Track>, amount: nat) returns (r: seq<Track>)
    ensures r == Distributed(ts, amount)
  {
    r := [];
    var (i, remaining) := (0, amount);
    while i < |ts| && remaining != 0
      invariant 0 <= i <= |ts| && r + Distributed(ts[i..], remaining) == Distributed(ts, amount)
    {
      assert ts[i..][1..] == ts[i + 1..];
      var more := Grant(ts[i], remaining);
      r := r + [ts[i].(given := ts[i].given + more)];
      remaining := remaining - more;
      i := i + 1;
    }
    r := r + ts[i..];
  }

  // ── What it promises ─────────────────────────────────────────────

  predicate MinsWithinMax(ts: seq<Track>) {
    forall i :: 0 <= i < |ts| ==> Min(ts[i]) <= ts[i].max
  }

  /**
   Never more than the target, whatever was asked; and the same requests, by descending
   priority, those of one priority in the order they were in.
   */
  lemma NeverOverTarget(ts: seq<Track>, available: nat)
    ensures Total(Allocated(ts, available)) <= available
    ensures Sorted(Allocated(ts, available)) && |Allocated(ts, available)| == |ts|
    ensures forall priority :: Of(Requests(Allocated(ts, available)), priority) == Of(Requests(ts), priority)
  {
    WithinTarget(ts, available);
    SameRequests(ts, available);
    var r := Allocated(ts, available);
    forall i, j | 0 <= i < j < |r| ensures r[i].priority >= r[j].priority {
      assert Requests(r)[i].priority >= Requests(r)[j].priority;
    }
    forall priority ensures Of(Requests(r), priority) == Of(Requests(ts), priority) {
      SortStable(Requests(ts), priority);
    }
  }

  lemma WithinTarget(ts: seq<Track>, available: nat)
    ensures Total(Allocated(ts, available)) <= available
  {
    var a := Reserved(ts, available);
    var b := SortDesc(a);
    SortTotals(a);
    ReservedFits(ts, available);
    DistributedTotal(b, Remaining(ts, available));
    FinishedTotal(Distributed(b, Remaining(ts, available)));
    SameMins(ts, a);
    if TotalMin(ts) <= available {
      ReservedMins(a);
    }
  }

  lemma SameRequests(ts: seq<Track>, available: nat)
    ensures Requests(Allocated(ts, available)) == SortDesc(Requests(ts))
  {
    var a := Reserved(ts, available);
    var c := Distributed(SortDesc(a), Remaining(ts, available));
    DistributedRequests(SortDesc(a), Remaining(ts, available));
    assert Requests(a) == Requests(ts);
    SortRequests(a);
    assert Requests(Allocated(ts, available)) == Requests(c);
  }

  lemma {:induction false} FinishedTotal(ts: seq<Track>)
    ensures Total(Finished(ts)) == Total(ts)
  {
    if ts != [] {
      FinishedTotal(ts[1..]);
      assert Finished(ts)[1..] == Finished(ts[1..]);
    }
  }

  lemma DistributedRequests(ts: seq<Track>, remaining: nat)
    ensures Requests(Distributed(ts, remaining)) == Requests(ts)
  {
    DistributedLength(ts, remaining);
    forall i | 0 <= i < |ts| ensures Requests(Distributed(ts, remaining))[i] == Requests(ts)[i] {
      DistributedInOrder(ts, remaining, i);
    }
  }

  lemma {:induction false} DistributedLength(ts: seq<Track>, remaining: nat)
    ensures |Distributed(ts, remaining)| == |ts|
    decreases |ts|
  {
    if ts != [] && remaining > 0 {
      DistributedLength(ts[1..], remaining - Grant(ts[0], remaining));
    }
  }

  /** Sorting looks only at the request. */
  lemma {:induction false} SortRequests(ts: seq<Track>)
    ensures Requests(SortDesc(ts)) == SortDesc(Requests(ts))
  {
    if ts != [] {
      var n := |ts| - 1;
      SortRequests(ts[..n]);
      InsertRequests(SortDesc(ts[..n]), ts[n]);
      assert Requests(ts)[..n] == Requests(ts[..n]);
    }
  }

  lemma {:induction false} InsertRequests(ts: seq<Track>, t: Track)
    requires Sorted(ts)
    ensures Sorted(Requests(ts)) && Requests(Insert(ts, t)) == Insert(Requests(ts), Asked(t))
  {
    RequestsSorted(ts);
    if ts == [] || ts[0].priority < t.priority {
      RequestsCons(t, ts);
    } else {
      assert Sorted(ts[1..]);
      InsertRequests(ts[1..], t);
      assert Requests(ts)[1..] == Requests(ts[1..]);
      RequestsCons(ts[0], Insert(ts[1..], t));
    }
  }

  lemma RequestsSorted(ts: seq<Track>)
    requires Sorted(ts)
    ensures Sorted(Requests(ts))
  {
  }

  lemma RequestsCons(t: Track, ts: seq<Track>)
    ensures Requests([t] + ts) == [Asked(t)] + Requests(ts)
  {
  }

  /**
   When the lowest layers fit, nobody is below its lowest layer, everything that can be used
   is given out, and a track gets more than its lowest layer only when every track of higher
   priority has its maximum.
   */
  lemma FairWhenMinimumsFit(ts: seq<Track>, available: nat)
    requires MinsWithinMax(ts) && TotalMin(ts) <= available
    ensures
      var r := Allocated(ts, available);
      && Total(r) == (if TotalMax(ts) < available then TotalMax(ts) else available)
      && (forall i :: 0 <= i < |r| ==> Min(r[i]) <= r[i].given <= r[i].max)
      && (forall i, j :: 0 <= i < |r| && 0 <= j < |r| && r[i].given > Min(r[i]) && r[j].priority > r[i].priority ==>
           r[j].given == r[j].max)
  {
    var r := Allocated(ts, available);
    EverythingGiven(ts, available);
    forall i | 0 <= i < |r| ensures FairAt(r, i) {
      FairOne(ts, available, i);
    }
    HigherFirst(r);
  }

  lemma EverythingGiven(ts: seq<Track>, available: nat)
    requires MinsWithinMax(ts) && TotalMin(ts) <= available
    ensures Total(Allocated(ts, available)) == if TotalMax(ts) < available then TotalMax(ts) else available
  {
    var a := Reserved(ts, available);
    var b := SortDesc(a);
    SortTotals(a);
    SameMins(ts, a);
    ReservedMins(a);
    DistributedTotal(b, Remaining(ts, available));
    FinishedTotal(Distributed(b, Remaining(ts, available)));
  }

  lemma HigherFirst(r: seq<Track>)
    requires forall i :: 0 <= i < |r| ==> FairAt(r, i)
    ensures forall i :: 0 <= i < |r| ==> Min(r[i]) <= r[i].given <= r[i].max
    ensures forall i, j :: 0 <= i < |r| && 0 <= j < |r| && r[i].given > Min(r[i]) && r[j].priority > r[i].priority ==>
      r[j].given == r[j].max
  {
    forall i | 0 <= i < |r| ensures Min(r[i]) <= r[i].given <= r[i].max {
      assert FairAt(r, i);
    }
    forall i, j | 0 <= i < |r| && 0 <= j < |r| && r[i].given > Min(r[i]) && r[j].priority > r[i].priority
      ensures r[j].given == r[j].max
    {
      assert FairAt(r, i) && FairAt(r, j);
    }
  }

  /** Track `i` is within its bounds, and above its lowest layer only if all before it have their maximum. */
  predicate FairAt(r: seq<Track>, i: nat)
    requires i < |r|
  {
    && Min(r[i]) <= r[i].given <= r[i].max
    && (r[i].given > Min(r[i]) ==> forall j :: 0 <= j < i ==> r[j].given >= r[j].max)
    && (forall j :: 0 <= j < i ==> r[j].priority >= r[i].priority)
  }

  lemma FairOne(ts: seq<Track>, available: nat, i: nat)
    requires MinsWithinMax(ts) && TotalMin(ts) <= available && i < |Allocated(ts, available)|
    ensures FairAt(Allocated(ts, available), i)
  {
    var b := SortDesc(Reserved(ts, available));
    var (rest, r) := (Remaining(ts, available), Allocated(ts, available));
    DistributedLength(b, rest);
    DistributedInOrder(b, rest, i);
    SortedFrom(Reserved(ts, available), i);
    forall j | 0 <= j < i ensures r[j].priority >= r[i].priority {
      DistributedInOrder(b, rest, j);
    }
  }

  /** A sorted track is one of the unsorted ones. */
  lemma SortedFrom(a: seq<Track>, i: nat)
    requires i < |a|
    ensures exists k :: 0 <= k < |a| && a[k] == SortDesc(a)[i]
    ensures exists k :: 0 <= k < |a| && SortDesc(a)[k] == a[i]
  {
    SortMembers(a);
    assert SortDesc(a)[i] in a && a[i] in SortDesc(a);
  }

  /** When they do not fit, each track gets its proportional share and no more. */
  lemma ShareWhenTheyDoNot(ts: seq<Track>, available: nat)
    requires TotalMin(ts) > available
    ensures
      var r := Allocated(ts, available);
      forall i :: 0 <= i < |r| ==> r[i].given == Share(available, Min(r[i]), TotalMin(ts))
  {
    var a := Reserved(ts, available);
    var (b, r) := (SortDesc(a), Allocated(ts, available));
    assert Distributed(b, 0) == b;
    forall i | 0 <= i < |r| ensures r[i].given == Share(available, Min(r[i]), TotalMin(ts)) {
      SortedFrom(a, i);
    }
  }

  predicate InOrder(layers: seq<Layer>) {
    forall i :: 0 < i < |layers| ==> layers[i - 1].bitrate < layers[i].bitrate
  }

  /** The source's `verify`: the track is not above its maximum, and its layers increase. */
  predicate Verified(t: Track) {
    t.given <= t.max && InOrder(t.layers)
  }

  predicate Verifies(ts: seq<Track>) {
    forall i :: 0 <= i < |ts| ==> Verified(ts[i])
  }

  /** All that `finalize_allocations` asserts: each track, the total, and that nobody starves while the minimums fit. */
  predicate Asserts(r: seq<Track>, available: nat, fits: bool) {
    && Verifies(r) && Total(r) <= available
    && (fits ==> forall i :: 0 <= i < |r| ==> Min(r[i]) <= r[i].given)
  }

  /** A track whose lowest layer is above its maximum fails `verify`: it is given the layer. */
  lemma LowestLayerAboveMaximum()
    ensures !Verifies(Allocated([Track(1, 1, 50, [Layer(0, 100)], 0, 0)], 1000))
  {
    var ts := [Track(1, 1, 50, [Layer(0, 100)], 0, 0)];
    assert ts[1..] == [] && TotalMin(ts) == 100;
    var a := Reserved(ts, 1000);
    assert a == [a[0]] && a[..0] == [];
    assert SortDesc(a) == [a[0]];
    assert a[1..] == [];
    assert Distributed(a, 900) == [a[0]] + Distributed([], 900);
  }

  /**
   Tracks that an allocation can pass on: layers in order, and no minimum, or share if they do
   not fit, above the maximum.
   */
  predicate Allocatable(ts: seq<Track>, available: nat) {
    && (forall i :: 0 <= i < |ts| ==> InOrder(ts[i].layers))
    && if TotalMin(ts) <= available then MinsWithinMax(ts)
       else forall i :: 0 <= i < |ts| ==> Share(available, Min(ts[i]), TotalMin(ts)) <= ts[i].max
  }

  /** The closing asserts pass exactly for those: the total and the minimums are never what fails. */
  lemma VerifyPasses(ts: seq<Track>, available: nat)
    ensures Asserts(Allocated(ts, available), available, TotalMin(ts) <= available) <==> Allocatable(ts, available)
    ensures Verifies(Allocated(ts, available)) <==> Allocatable(ts, available)
  {
    var a := Reserved(ts, available);
    VerifiesDistributed(SortDesc(a), Remaining(ts, available));
    VerifiesSorted(a);
    ReservedVerifies(ts, available);
    WithinTarget(ts, available);
    if TotalMin(ts) <= available {
      NobodyStarves(ts, available);
    }
  }

  lemma ReservedVerifies(ts: seq<Track>, available: nat)
    ensures Verifies(Reserved(ts, available)) <==> Allocatable(ts, available)
  {
    var a := Reserved(ts, available);
    forall i | 0 <= i < |ts| ensures Verified(a[i]) <==> (InOrder(ts[i].layers) && a[i].given <= ts[i].max) {
    }
  }

  /** What the minimums reserved is never taken back. */
  lemma NobodyStarves(ts: seq<Track>, available: nat)
    requires TotalMin(ts) <= available
    ensures forall i :: 0 <= i < |Allocated(ts, available)| ==>
      Min(Allocated(ts, available)[i]) <= Allocated(ts, available)[i].given
  {
    var a := Reserved(ts, available);
    var (b, r) := (SortDesc(a), Allocated(ts, available));
    DistributedLength(b, Remaining(ts, available));
    forall i | 0 <= i < |r| ensures Min(r[i]) <= r[i].given {
      SortedFrom(a, i);
      DistributedInOrder(b, Remaining(ts, available), i);
    }
  }

  lemma VerifiesDistributed(b: seq<Track>, rest: nat)
    ensures Verifies(Finished(Distributed(b, rest))) <==> Verifies(b)
  {
    var r := Finished(Distributed(b, rest));
    DistributedLength(b, rest);
    forall i | 0 <= i < |b| ensures Verified(r[i]) <==> Verified(b[i]) {
      DistributedInOrder(b, rest, i);
    }
  }

  lemma VerifiesSorted(a: seq<Track>)
    ensures Verifies(SortDesc(a)) <==> Verifies(a)
  {
    forall i | 0 <= i < |a|
      ensures Verifies(a) ==> Verified(SortDesc(a)[i])
      ensures Verifies(SortDesc(a)) ==> Verified(a[i])
    {
      SortedFrom(a, i);
    }
  }
}
