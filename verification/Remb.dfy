/**
 The bitrate code of REMB packets, section 2.2 of draft-alvestrand-rmcat-remb
 (crates/nexus-bwe/src/remb.rs): a 6-bit exponent and an 18-bit mantissa.
 */
module Remb {
  import opened Arithmetic
  import opened Words

  const MAX_MANTISSA: nat := 0x3FFFF
  const REMB_PACKET_LENGTH: nat := 24

  function Pow2(n: nat): (p: nat)
    ensures p > 0
  {
    if n == 0 then 1 else 2 * Pow2(n - 1)
  }

  /** How often the mantissa is halved until it fits. */
  function Exponent(mantissa: nat): (exp: nat) {
    if mantissa <= MAX_MANTISSA then 0 else 1 + Exponent(mantissa / 2)
  }

  function Encode(bitrate: nat): (nat, nat) {
    (Exponent(bitrate), bitrate / Pow2(Exponent(bitrate)))
  }

  function Decode(exp: nat, mantissa: nat): nat {
    mantissa * Pow2(exp)
  }

  function Rounded(bitrate: nat): nat {
    Decode(Encode(bitrate).0, Encode(bitrate).1)
  }

  // ── Arithmetic ───────────────────────────────────────────────────

  /** Halving `n` times is dividing by 2^n. */
  lemma HalfThenDivide(b: nat, n: nat)
    ensures (b / 2) / Pow2(n) == b / Pow2(n + 1)
  {
    var p := Pow2(n);
    var q := b / (2 * p);
    assert b == 2 * p * q + b % (2 * p);
    var r := b % (2 * p);
    assert b / 2 == p * q + r / 2;
    assert r / 2 < p;
    Quotient(b / 2, p, q, r / 2);
  }

  lemma Quotient(x: nat, p: nat, q: nat, r: nat)
    requires p > 0 && r < p && x == p * q + r
    ensures x / p == q
  {
    var d := x / p;
    assert x == p * d + x % p;
    if d < q {
      Times(d + 1, q, p);
    } else if d > q {
      Times(q + 1, d, p);
    }
  }

  /** The exponent is what it is said to be: the mantissa fits, and with a smaller exponent it would not. */
  lemma {:induction false} ExponentIsMinimal(b: nat)
    ensures b / Pow2(Exponent(b)) <= MAX_MANTISSA
    ensures forall e :: 0 <= e < Exponent(b) ==> b / Pow2(e) > MAX_MANTISSA
    ensures Exponent(b) > 0 ==> b / Pow2(Exponent(b)) > MAX_MANTISSA / 2
    decreases b
  {
    if b > MAX_MANTISSA {
      ExponentIsMinimal(b / 2);
      HalfThenDivide(b, Exponent(b / 2));
      forall e | 0 <= e < Exponent(b) ensures b / Pow2(e) > MAX_MANTISSA {
        if e > 0 {
          HalfThenDivide(b, e - 1);
        }
      }
    }
  }

  lemma {:induction false} ExponentFits(b: nat, n: nat)
    requires b < Pow2(18 + n)
    ensures Exponent(b) <= n
    decreases n
  {
    Pow18();
    if n > 0 && b > MAX_MANTISSA {
      ExponentFits(b / 2, n - 1);
    }
  }

  lemma Pow18()
    ensures Pow2(18) == 0x40000 && Pow2(64) == 0x1_0000_0000_0000_0000
  {
    assert Pow2(4) == 16;
    PowAdd(4, 4);
    PowAdd(8, 8);
    PowAdd(16, 2);
    PowAdd(16, 16);
    PowAdd(32, 32);
  }

  lemma {:induction false} PowAdd(a: nat, b: nat)
    ensures Pow2(a + b) == Pow2(a) * Pow2(b)
    decreases a
  {
    if a > 0 {
      PowAdd(a - 1, b);
      assert Pow2(a + b) == 2 * (Pow2(a - 1) * Pow2(b));
    }
  }

  // ── What the code loses ──────────────────────────────────────────

  /** The decoded bitrate is below the encoded one by less than 2^exp. */
  lemma RoundsDown(b: nat)
    ensures Rounded(b) <= b < Rounded(b) + Pow2(Exponent(b))
  {
    var p := Pow2(Exponent(b));
    assert b == p * (b / p) + b % p;
  }

  lemma {:induction false} ExponentMonotone(a: nat, b: nat)
    requires a <= b
    ensures Exponent(a) <= Exponent(b)
    decreases b
  {
    if a > MAX_MANTISSA {
      ExponentMonotone(a / 2, b / 2);
    }
  }

  /** Decoding keeps the order of bitrates. */
  lemma RoundedMonotone(a: nat, b: nat)
    requires a <= b
    ensures Rounded(a) <= Rounded(b)
  {
    ExponentMonotone(a, b);
    var (e, f) := (Exponent(a), Exponent(b));
    if e == f {
      DivideMonotone(a, b, Pow2(e));
    } else {
      // A larger exponent is only used for what the smaller one cannot hold
      ExponentIsMinimal(a);
      ExponentIsMinimal(b);
      RoundsDown(b);
      LargerExponent(a / Pow2(e), b, e, f);
    }
  }

  lemma DivideMonotone(a: nat, b: nat, p: nat)
    requires a <= b && p > 0
    ensures (a / p) * p <= (b / p) * p
  {
    if a / p > b / p {
      assert p * (a / p) >= p * (b / p + 1);
    }
  }

  lemma LargerExponent(m: nat, b: nat, e: nat, f: nat)
    requires e < f && m <= MAX_MANTISSA && b / Pow2(f) > MAX_MANTISSA / 2
    ensures m * Pow2(e) <= (b / Pow2(f)) * Pow2(f)
  {
    PowSplit(e, f);
    var (p, q, half) := (Pow2(e), Pow2(f), MAX_MANTISSA / 2 + 1);
    ProductBound(m, p, b / q, q, half);
  }

  lemma ProductBound(m: nat, p: nat, x: nat, q: nat, half: nat)
    requires m <= 2 * half && half <= x && 2 * p <= q
    ensures m * p <= x * q
  {
    calc {
      m * p;
    <= { Times(m, 2 * half, p); }
      (2 * half) * p;
    ==
      (2 * p) * half;
    <= { Times(2 * p, q, half); }
      q * half;
    <= { Times(half, x, q); }
      x * q;
    }
  }

  lemma {:induction false} PowSplit(e: nat, f: nat)
    requires e < f
    ensures Pow2(f) >= 2 * Pow2(e)
    decreases f
  {
    if f > e + 1 {
      PowSplit(e, f - 1);
    }
  }

  /** What was decoded is encoded without loss. */
  lemma RoundedIdempotent(b: nat)
    ensures Rounded(Rounded(b)) == Rounded(b) && Encode(Rounded(b)) == Encode(b)
  {
    var e := Exponent(b);
    var m := b / Pow2(e);
    ExponentIsMinimal(b);
    ShiftedExponent(m, e);
    Quotient(m * Pow2(e), Pow2(e), m, 0);
  }

  lemma {:induction false} ShiftedExponent(m: nat, e: nat)
    requires m <= MAX_MANTISSA && (e > 0 ==> m > MAX_MANTISSA / 2)
    ensures Exponent(m * Pow2(e)) == e
    decreases e
  {
    if e > 0 {
      var b := m * Pow2(e);
      assert b == 2 * (m * Pow2(e - 1));
      assert m * Pow2(e) >= m * 2 by {
        assert Pow2(e) >= 2;
      }
      ShiftedExponent(m, e - 1);
    }
  }

  // ── encode_bitrate ───────────────────────────────────────────────

  /** Both asserts of the source, on the mantissa and the exponent, are proved. */
  method EncodeBitrate(bitrate: u64) returns (exp: nat, mantissa: nat)
    ensures (exp, mantissa) == Encode(bitrate) && mantissa <= MAX_MANTISSA && exp <= 46
  {
    if bitrate == 0 {
      return 0, 0;
    }
    exp, mantissa := 0, bitrate;
    Pow18();
    ExponentFits(bitrate, 46);
    while mantissa > MAX_MANTISSA && exp < 63
      invariant exp + Exponent(mantissa) == Exponent(bitrate) && mantissa == bitrate / Pow2(exp)
      decreases mantissa
    {
      HalvesAgain(bitrate, exp);
      mantissa := mantissa / 2;
      exp := exp + 1;
    }
    assert Exponent(mantissa) == 0;
  }

  lemma HalvesAgain(b: nat, e: nat)
    ensures (b / Pow2(e)) / 2 == b / Pow2(e + 1)
  {
    HalfQuotient(b, Pow2(e));
  }

  lemma HalfQuotient(b: nat, p: nat)
    requires p > 0
    ensures (b / p) / 2 == b / (2 * p)
  {
    var (q, r) := (b / p, b % p);
    var (h, t) := (q / 2, q % 2);
    assert b == p * q + r && q == 2 * h + t;
    assert p * q == (2 * p) * h + p * t;
    Times(t, 1, p);
    Quotient(b, 2 * p, h, p * t + r);
  }

  // ── The packet ───────────────────────────────────────────────────

  function Be32(x: u32): (r: seq<byte>)
    ensures |r| == 4
  {
    [x / 0x100_0000, x / 0x1_0000 % 256, x / 256 % 256, x % 256]
  }

  function FromBe32(b: seq<byte>): nat
    requires |b| == 4
  {
    var (b0, b1, b2, b3) := (b[0] as nat, b[1] as nat, b[2] as nat, b[3] as nat);
    b0 * 0x100_0000 + b1 * 0x1_0000 + b2 * 256 + b3
  }

  lemma Be32RoundTrip(x: u32)
    ensures FromBe32(Be32(x)) == x
  {
    assert x / 0x1_0000 == (x / 0x100_0000) * 256 + x / 0x1_0000 % 256;
    assert x / 256 == (x / 0x1_0000) * 256 + x / 256 % 256;
  }

  /** What a receiver reads: sender, media source and feedback SSRC, and the bitrate code. */
  datatype Fields = Fields(sender: nat, source: nat, feedback: nat, exp: nat, mantissa: nat)

  function Parse(p: seq<byte>): Fields
    requires |p| == REMB_PACKET_LENGTH
  {
    var (hi, mid, lo) := (p[17] as nat, p[18] as nat, p[19] as nat);
    Fields(FromBe32(p[4..8]), FromBe32(p[8..12]), FromBe32(p[20..24]), hi / 4, (hi % 4) * 0x1_0000 + mid * 256 + lo)
  }

  function Code(exp: nat, mantissa: nat): (r: seq<byte>)
    requires exp < 64
    ensures |r| == 4
  {
    [1, exp * 4 + mantissa / 0x1_0000 % 4, mantissa / 256 % 256, mantissa % 256]
  }

  function Packet(sender: u32, exp: nat, mantissa: nat, media: u32): (r: seq<byte>)
    requires exp < 64
    ensures |r| == REMB_PACKET_LENGTH
  {
    var head: seq<byte> := [2 * 64 + 15, 206, 0, 5];
    var name: seq<byte> := [82, 69, 77, 66];
    head + Be32(sender) + Be32(0) + name + Code(exp, mantissa) + Be32(media)
  }

  lemma PacketSlices(sender: u32, exp: nat, mantissa: nat, media: u32)
    requires exp < 64
    ensures
      var p := Packet(sender, exp, mantissa, media);
      && p[4..8] == Be32(sender) && p[8..12] == Be32(0) && p[12..16] == [82, 69, 77, 66]
         && p[16..20] == Code(exp, mantissa) && p[20..24] == Be32(media)
  {
  }

  /** Reading a packet gives back what was put in. */
  lemma PacketRoundTrip(sender: u32, exp: nat, mantissa: nat, media: u32)
    requires exp < 64 && mantissa <= MAX_MANTISSA
    ensures Parse(Packet(sender, exp, mantissa, media)) == Fields(sender, 0, media, exp, mantissa)
  {
    var p := Packet(sender, exp, mantissa, media);
    PacketSlices(sender, exp, mantissa, media);
    Be32RoundTrip(sender);
    Be32RoundTrip(0);
    Be32RoundTrip(media);
    assert p[17] == p[16..20][1] && p[18] == p[16..20][2] && p[19] == p[16..20][3];
    MantissaParts(mantissa);
  }

  /** The 24 bytes of a packet, of which a receiver reads the bitrate code and the SSRCs. */
  method Generate(sender: u32, bitrate: u64, media: u32) returns (packet: seq<byte>)
    requires bitrate > 0
    ensures |packet| == REMB_PACKET_LENGTH
    ensures packet[0] == 143 && packet[1] == 206 && packet[2] == 0 && packet[3] == 5 && packet[16] == 1
    ensures packet[12..16] == [82, 69, 77, 66]
    ensures Parse(packet) == Fields(sender, 0, media, Encode(bitrate).0, Encode(bitrate).1)
  {
    var exp, mantissa := EncodeBitrate(bitrate);
    packet := Packet(sender, exp, mantissa, media);
    PacketSlices(sender, exp, mantissa, media);
    PacketRoundTrip(sender, exp, mantissa, media);
    assert packet[16] == packet[16..20][0];
  }

  lemma MantissaParts(m: nat)
    requires m <= MAX_MANTISSA
    ensures m / 0x1_0000 % 4 * 0x1_0000 + m / 256 % 256 * 256 + m % 256 == m
  {
    assert m / 0x1_0000 < 4;
    assert m / 256 == (m / 0x1_0000) * 256 + m / 256 % 256;
  }
}
