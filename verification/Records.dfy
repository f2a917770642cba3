/** DTLS records and the datagrams they are packed into (src/orchestrator/dtls.rs). */
module Records {
  import opened Words
  import opened Wrappers

  /** Type (1), version (2), epoch (2), sequence (6), length (2). */
  const RECORD_HEADER_LEN: nat := 13
  const DTLS_MTU: nat := 1200
  const CONTENT_TYPE_HANDSHAKE: byte := 22
  const HANDSHAKE_CLIENT_HELLO: byte := 1

  /** An epoch 0 handshake record whose first message is a ClientHello comes first. */
  predicate IsClientHello(datagram: seq<byte>) {
    && |datagram| > RECORD_HEADER_LEN
    && datagram[0] == CONTENT_TYPE_HANDSHAKE
    && datagram[3] == 0 && datagram[4] == 0
    && datagram[RECORD_HEADER_LEN] == HANDSHAKE_CLIENT_HELLO
  }

  /** The length that the first record of `b` says it has, header included. */
  function RecordLen(b: seq<byte>): (n: nat)
    requires |b| >= RECORD_HEADER_LEN
    ensures n >= RECORD_HEADER_LEN
  {
    var high: nat := b[11];
    var low: nat := b[12];
    RECORD_HEADER_LEN + high * 256 + low
  }

  predicate IsRecord(r: seq<byte>) {
    |r| >= RECORD_HEADER_LEN && |r| == RecordLen(r)
  }

  predicate Whole(rs: seq<seq<byte>>) {
    forall i :: 0 <= i < |rs| ==> IsRecord(rs[i])
  }

  function Flat(rs: seq<seq<byte>>): seq<byte> {
    if rs == [] then [] else rs[0] + Flat(rs[1..])
  }

  function Size(rs: seq<seq<byte>>): nat {
    |Flat(rs)|
  }

  lemma {:induction false} FlatAppend(xs: seq<seq<byte>>, ys: seq<seq<byte>>)
    ensures Flat(xs + ys) == Flat(xs) + Flat(ys)
  {
    if xs == [] {
      assert xs + ys == ys;
    } else {
      FlatAppend(xs[1..], ys);
      assert (xs + ys)[0] == xs[0] && (xs + ys)[1..] == xs[1..] + ys;
      assert xs[0] + (Flat(xs[1..]) + Flat(ys)) == (xs[0] + Flat(xs[1..])) + Flat(ys);
    }
  }

  lemma FlatOne(r: seq<byte>)
    ensures Flat([r]) == r
  {
    assert Flat([]) == [];
    assert r + [] == r;
  }

  // ── Reading records ──────────────────────────────────────────────

  /** `b` cut into records; `None` when the last one is cut short. */
  function Parse(b: seq<byte>): (r: Option<seq<seq<byte>>>)
    decreases |b|
  {
    if b == [] then Some([])
    else if |b| < RECORD_HEADER_LEN || |b| < RecordLen(b) then None
    else
      match Parse(b[RecordLen(b)..])
      case None => None
      case Some(rest) => Some([b[..RecordLen(b)]] + rest)
  }

  lemma {:induction false} ParseSound(b: seq<byte>)
    requires Parse(b).Some?
    ensures Whole(Parse(b).value) && Flat(Parse(b).value) == b
    decreases |b|
  {
    if b != [] {
      var (first, rest) := (b[..RecordLen(b)], b[RecordLen(b)..]);
      CutOff(b);
      ParseSound(rest);
      FirstRecord(first, Parse(rest).value);
    }
  }

  lemma CutOff(b: seq<byte>)
    requires |b| >= RECORD_HEADER_LEN && |b| >= RecordLen(b)
    ensures IsRecord(b[..RecordLen(b)]) && b == b[..RecordLen(b)] + b[RecordLen(b)..]
  {
  }

  lemma FirstRecord(first: seq<byte>, rest: seq<seq<byte>>)
    requires IsRecord(first) && Whole(rest)
    ensures Whole([first] + rest) && Flat([first] + rest) == first + Flat(rest)
  {
    assert ([first] + rest)[1..] == rest;
  }

  lemma {:induction false} ParseComplete(rs: seq<seq<byte>>)
    requires Whole(rs)
    ensures Parse(Flat(rs)) == Some(rs)
  {
    if rs != [] {
      var b := Flat(rs);
      assert b[..|rs[0]|] == rs[0] && b[|rs[0]|..] == Flat(rs[1..]);
      assert RecordLen(b) == RecordLen(rs[0]);
      ParseComplete(rs[1..]);
      assert [rs[0]] + rs[1..] == rs;
    }
  }

  // ── Packing ──────────────────────────────────────────────────────

  /** Groups of consecutive records, each a datagram. */
  ghost predicate Packs(groups: seq<seq<seq<byte>>>, rs: seq<seq<byte>>) {
    Join(groups) == rs && forall i :: 0 <= i < |groups| ==> Fits(groups[i])
  }

  /** Within the MTU, or a single record. */
  ghost predicate Fits(group: seq<seq<byte>>) {
    group != [] && (Size(group) <= DTLS_MTU || |group| == 1)
  }

  function Join(groups: seq<seq<seq<byte>>>): seq<seq<byte>> {
    if groups == [] then [] else Join(groups[..|groups| - 1]) + groups[|groups| - 1]
  }

  /** The next record goes into the last datagram if it fits, else into a new one. */
  function Greedy(rs: seq<seq<byte>>): seq<seq<seq<byte>>> {
    if rs == [] then []
    else
      var n := |rs| - 1;
      Placed(Greedy(rs[..n]), rs[n])
  }

  function Placed(groups: seq<seq<seq<byte>>>, r: seq<byte>): seq<seq<seq<byte>>> {
    var k := |groups| - 1;
    if groups != [] && Size(groups[k]) + |r| <= DTLS_MTU then groups[..k] + [groups[k] + [r]] else groups + [[r]]
  }

  lemma SizeMore(group: seq<seq<byte>>, r: seq<byte>)
    ensures Size(group + [r]) == Size(group) + |r|
  {
    FlatAppend(group, [r]);
    FlatOne(r);
  }

  /** Greedy packing is a packing: the same records in order, each datagram within the MTU or a single record. */
  lemma {:induction false} GreedyPacks(rs: seq<seq<byte>>)
    ensures Packs(Greedy(rs), rs)
  {
    if rs != [] {
      var n := |rs| - 1;
      GreedyPacks(rs[..n]);
      PlacedPacks(Greedy(rs[..n]), rs[..n], rs[n]);
      assert rs[..n] + [rs[n]] == rs;
    }
  }

  lemma PlacedPacks(groups: seq<seq<seq<byte>>>, rs: seq<seq<byte>>, r: seq<byte>)
    requires Packs(groups, rs)
    ensures Packs(Placed(groups, r), rs + [r])
  {
    var (k, placed) := (|groups| - 1, Placed(groups, r));
    if groups != [] && Size(groups[k]) + |r| <= DTLS_MTU {
      SizeMore(groups[k], r);
      assert placed[..k] == groups[..k] && placed[k] == groups[k] + [r];
      assert Join(placed) == Join(groups[..k]) + (groups[k] + [r]);
      assert Join(groups[..k]) + (groups[k] + [r]) == Join(groups) + [r];
    } else {
      assert placed[..|groups|] == groups;
    }
  }

  /** A packing without its last record. */
  ghost function Shorter(groups: seq<seq<seq<byte>>>): seq<seq<seq<byte>>>
    requires groups != [] && groups[|groups| - 1] != []
  {
    var k := |groups| - 1;
    var last := groups[k];
    if |last| == 1 then groups[..k] else groups[..k] + [last[..|last| - 1]]
  }

  lemma ShorterPacks(groups: seq<seq<seq<byte>>>, rs: seq<seq<byte>>)
    requires Packs(groups, rs) && rs != []
    ensures groups != [] && groups[|groups| - 1] != [] && Packs(Shorter(groups), rs[..|rs| - 1])
    ensures groups[|groups| - 1][|groups[|groups| - 1]| - 1] == rs[|rs| - 1]
  {
    var k := |groups| - 1;
    var last := groups[k];
    assert Fits(last);
    var m := |last| - 1;
    assert rs == Join(groups[..k]) + last;
    assert rs[|rs| - 1] == last[m];
    var s := Shorter(groups);
    if m == 0 {
      assert rs[..|rs| - 1] == Join(groups[..k]);
    } else {
      assert s[..k] == groups[..k] && s[k] == last[..m];
      assert rs[..|rs| - 1] == Join(groups[..k]) + last[..m];
      assert last == last[..m] + [last[m]];
      SizeMore(last[..m], last[m]);
    }
  }

  /** Placing one more record keeps the lead: `groups` is `others` with `r` added somehow. */
  lemma PlacedAhead(greedy: seq<seq<seq<byte>>>, others: seq<seq<seq<byte>>>, r: seq<byte>, groups: seq<seq<seq<byte>>>)
    requires |greedy| <= |others| && (greedy != [] && |greedy| == |others| ==> Size(Last(greedy)) <= Size(Last(others)))
    requires
      || (|groups| == |others| + 1 && Last(groups) == [r])
      || (|groups| == |others| > 0 && Last(groups) == Last(others) + [r] && Size(Last(groups)) <= DTLS_MTU)
    ensures
      var placed := Placed(greedy, r);
      |placed| <= |groups| && (|placed| == |groups| ==> Size(Last(placed)) <= Size(Last(groups)))
  {
    PlacedLast(greedy, r);
    SizeMore(Last(others), r);
    FlatOne(r);
  }

  lemma PlacedLast(groups: seq<seq<seq<byte>>>, r: seq<byte>)
    ensures
      var (placed, size) := (Placed(groups, r), Size(Last(groups)));
      if groups != [] && size + |r| <= DTLS_MTU then |placed| == |groups| && Size(Last(placed)) == size + |r|
      else |placed| == |groups| + 1 && Size(Last(placed)) == |r|
  {
    SizeMore(Last(groups), r);
    FlatOne(r);
  }

  /**
   Greedy packing stays ahead of every other packing of the same records: it never has more
   datagrams, and with as many its last one is no fuller.
   */
  lemma {:induction false} GreedyStaysAhead(rs: seq<seq<byte>>, groups: seq<seq<seq<byte>>>)
    requires Packs(groups, rs)
    ensures |Greedy(rs)| <= |groups|
    ensures rs != [] && |Greedy(rs)| == |groups| ==> Size(Last(Greedy(rs))) <= Size(Last(groups))
    decreases |rs|
  {
    if rs != [] {
      var n := |rs| - 1;
      ShorterPacks(groups, rs);
      GreedyStaysAhead(rs[..n], Shorter(groups));
      LastOfShorter(groups, rs);
      PlacedAhead(Greedy(rs[..n]), Shorter(groups), rs[n], groups);
    }
  }

  lemma LastOfShorter(groups: seq<seq<seq<byte>>>, rs: seq<seq<byte>>)
    requires Packs(groups, rs) && rs != [] && groups != [] && groups[|groups| - 1] != []
    requires groups[|groups| - 1][|groups[|groups| - 1]| - 1] == rs[|rs| - 1]
    ensures
      var (s, r) := (Shorter(groups), rs[|rs| - 1]);
      || (|groups| == |s| + 1 && Last(groups) == [r])
      || (|groups| == |s| > 0 && Last(groups) == Last(s) + [r] && Size(Last(groups)) <= DTLS_MTU)
  {
    assert Fits(Last(groups));
  }

  ghost function Last(groups: seq<seq<seq<byte>>>): seq<seq<byte>> {
    if groups == [] then [] else groups[|groups| - 1]
  }

  function Datagrams(groups: seq<seq<seq<byte>>>): (r: seq<seq<byte>>)
    ensures |r| == |groups| && forall i :: 0 <= i < |groups| ==> r[i] == Flat(groups[i])
  {
    seq(|groups|, i requires 0 <= i < |groups| => Flat(groups[i]))
  }

  /** The datagrams carry the bytes of the records, in order. */
  lemma {:induction false} DatagramsFlat(groups: seq<seq<seq<byte>>>)
    ensures Flat(Datagrams(groups)) == Flat(Join(groups))
  {
    if groups != [] {
      var k := |groups| - 1;
      DatagramsFlat(groups[..k]);
      assert Datagrams(groups) == Datagrams(groups[..k]) + [Flat(groups[k])];
      FlatAppend(Datagrams(groups[..k]), [Flat(groups[k])]);
      FlatOne(Flat(groups[k]));
      FlatAppend(Join(groups[..k]), groups[k]);
    }
  }

  // ── split_records ────────────────────────────────────────────────

  /**
   Packs the engine's output. It succeeds exactly on whole records, and then its datagrams
   are the greedy packing of them.
   */
  method SplitRecords(output: seq<byte>) returns (r: Option<seq<seq<byte>>>)
    ensures r.Some? <==> Parse(output).Some?
    ensures r.Some? ==> r.value == Datagrams(Greedy(Parse(output).value))
  {
    var records := output;
    var datagrams: seq<seq<byte>> := [];
    ghost var done: seq<seq<byte>> := [];
    assert Parse(output).Some? ==> [] + Parse(output).value == Parse(output).value;
    while records != []
      invariant ParsedUpTo(output, records, done)
      invariant datagrams == Datagrams(Greedy(done))
      decreases |records|
    {
      if |records| < RECORD_HEADER_LEN {
        return None;
      }
      var len := RecordLen(records);
      if |records| < len {
        return None;
      }
      var (first, k) := (records[..len], |datagrams| - 1);
      SplitStep(output, records, done);
      if datagrams != [] && |datagrams[k]| + len <= DTLS_MTU {
        datagrams := datagrams[..k] + [datagrams[k] + first];
      } else {
        datagrams := datagrams + [first];
      }
      done := done + [first];
      records := records[len..];
    }
    assert done + [] == done;
    return Some(datagrams);
  }

  /** `output` is the records `done` and then `records`. */
  ghost predicate ParsedUpTo(output: seq<byte>, records: seq<byte>, done: seq<seq<byte>>) {
    match Parse(records)
    case None => Parse(output).None?
    case Some(rest) => Parse(output) == Some(done + rest)
  }

  lemma SplitStep(output: seq<byte>, records: seq<byte>, done: seq<seq<byte>>)
    requires ParsedUpTo(output, records, done) && |records| >= RECORD_HEADER_LEN && |records| >= RecordLen(records)
    ensures
      var (len, ds) := (RecordLen(records), Datagrams(Greedy(done)));
      var (first, k) := (records[..len], |ds| - 1);
      && ParsedUpTo(output, records[len..], done + [first])
      && Datagrams(Greedy(done + [first])) == if ds != [] && |ds[k]| + len <= DTLS_MTU then ds[..k] + [ds[k] + first]
         else ds + [first]
  {
    var first := records[..RecordLen(records)];
    var rest := Parse(records[RecordLen(records)..]);
    if rest.Some? {
      assert done + ([first] + rest.value) == (done + [first]) + rest.value;
    }
    assert (done + [first])[..|done|] == done;
    PlacedDatagrams(Greedy(done), first);
  }

  lemma PlacedDatagrams(groups: seq<seq<seq<byte>>>, r: seq<byte>)
    ensures
      var (ds, k) := (Datagrams(groups), |groups| - 1);
      Datagrams(Placed(groups, r)) ==
        if groups != [] && |ds[k]| + |r| <= DTLS_MTU then ds[..k] + [ds[k] + r] else ds + [r]
  {
    var (ds, k, placed) := (Datagrams(groups), |groups| - 1, Placed(groups, r));
    FlatOne(r);
    if groups != [] && |ds[k]| + |r| <= DTLS_MTU {
      FlatAppend(groups[k], [r]);
      assert Datagrams(placed) == ds[..k] + [ds[k] + r];
    } else {
      assert Datagrams(placed) == ds + [r];
    }
  }

  /**
   What a caller gets: the output concatenates back to the input, every datagram is within
   the MTU or a single record, and no order-preserving packing of the records needs fewer.
   */
  lemma SplitIsOptimal(output: seq<byte>, groups: seq<seq<seq<byte>>>)
    requires Parse(output).Some?
    ensures
      var (rs, ds) := (Parse(output).value, Datagrams(Greedy(Parse(output).value)));
      && Flat(ds) == output
      && (forall i :: 0 <= i < |ds| ==> |ds[i]| <= DTLS_MTU || IsRecord(ds[i]))
      && (Packs(groups, rs) ==> |ds| <= |groups|)
  {
    var rs := Parse(output).value;
    var g := Greedy(rs);
    ParseSound(output);
    GreedyPacks(rs);
    DatagramsFlat(g);
    forall i | 0 <= i < |g| ensures |Flat(g[i])| <= DTLS_MTU || IsRecord(Flat(g[i])) {
      assert Fits(g[i]);
      if |g[i]| == 1 {
        FlatOne(g[i][0]);
        GroupRecords(g, rs, i);
        assert g[i] == [g[i][0]];
      }
    }
    if Packs(groups, rs) {
      GreedyStaysAhead(rs, groups);
    }
  }

  lemma {:induction false} GroupRecords(groups: seq<seq<seq<byte>>>, rs: seq<seq<byte>>, i: nat)
    requires Join(groups) == rs && Whole(rs) && i < |groups|
    ensures Whole(groups[i])
    decreases |groups|
  {
    var k := |groups| - 1;
    assert rs == Join(groups[..k]) + groups[k];
    if i == k {
      forall j | 0 <= j < |groups[k]| ensures IsRecord(groups[k][j]) {
        assert groups[k][j] == rs[|Join(groups[..k])| + j];
      }
    } else {
      forall j | 0 <= j < |Join(groups[..k])| ensures IsRecord(Join(groups[..k])[j]) {
        assert Join(groups[..k])[j] == rs[j];
      }
      GroupRecords(groups[..k], Join(groups[..k]), i);
    }
  }
}
