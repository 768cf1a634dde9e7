/** The media loop's audio primitives: the G.711 mu-law codec, and the bounded byte
    queue that drops the oldest audio. Bit operations are written as arithmetic. */
module Audio {
  import opened Common

  const BIAS := 132
  const CLIP := 32635

  function Pow2(n: nat): (p: nat)
    ensures p >= 1
  {
    if n == 0 then 1 else 2 * Pow2(n - 1)
  }

  lemma SmallPowers()
    ensures Pow2(0) == 1 && Pow2(1) == 2 && Pow2(2) == 4 && Pow2(3) == 8 && Pow2(4) == 16 && Pow2(5) == 32
    ensures Pow2(6) == 64 && Pow2(7) == 128 && Pow2(8) == 256 && Pow2(9) == 512 && Pow2(10) == 1024
    ensures Pow2(11) == 2048 && Pow2(12) == 4096 && Pow2(13) == 8192 && Pow2(14) == 16384 && Pow2(15) == 32768
  {
    assert Pow2(4) == 16;
    assert Pow2(8) == 256;
    assert Pow2(12) == 4096;
  }

  // ---- the codec -----------------------------------------------------------------------

  /** The magnitude that is coded: clipped to 16 bits, made positive, clipped again. */
  function Magnitude(sample: int): (m: nat)
    ensures m <= CLIP
  {
    var s := if sample < -32768 then -32768 else if sample > 32767 then 32767 else sample;
    var a := if s < 0 then -s else s;
    if a > CLIP then CLIP else a
  }

  /** The segment a biased magnitude lies in. */
  function Segment(s: nat): (e: nat)
    ensures e <= 7
  {
    if s < 256 then 0 else if s < 512 then 1 else if s < 1024 then 2 else if s < 2048 then 3
    else if s < 4096 then 4 else if s < 8192 then 5 else if s < 16384 then 6 else 7
  }

  ghost predicate InSegment(s: nat, e: nat) { e <= 7 && Pow2(e + 7) <= s < Pow2(e + 8) }

  lemma SegmentIff(s: nat, e: nat)
    requires 128 <= s < 32768
    ensures InSegment(s, e) <==> e == Segment(s)
  {
    SmallPowers();
    hide Pow2;
    if e == 0 {} else if e == 1 {} else if e == 2 {} else if e == 3 {}
    else if e == 4 {} else if e == 5 {} else if e == 6 {} else if e == 7 {} else {}
  }

  function Pack(negative: bool, e: nat, mantissa: nat): (b: Byte)
    requires e <= 7 && mantissa <= 15
  {
    (255 - ((if negative then 128 else 0) + e * 16 + mantissa)) as Byte
  }

  method LinearToMulaw(sample: int) returns (b: Byte)
    ensures b == Code(sample)
  {
    SmallPowers();
    var s := Magnitude(sample) + BIAS;
    var exponent, mask := 7, 0x4000;
    while (s / mask) % 2 == 0 && exponent > 0
      invariant exponent <= 7 && mask == Pow2(exponent + 7) && s < 2 * mask
      decreases exponent
    {
      TopBit(s, mask);
      assert mask == 2 * Pow2(exponent + 6);
      mask := mask / 2;
      exponent := exponent - 1;
    }
    TopBit(s, mask);
    SegmentIff(s, exponent);
    var mantissa := (s / Pow2(exponent + 3)) % 16;
    b := Pack(sample < 0, exponent, mantissa);
  }

  lemma TopBit(s: nat, mask: nat)
    requires mask > 0 && s < 2 * mask
    ensures (s / mask) % 2 == 0 <==> s < mask
  {
    if s >= mask {
      assert s / mask == 1 by { assert s == mask * 1 + (s - mask); Quotient(s, mask, 1, s - mask); }
    } else {
      assert s / mask == 0;
    }
  }

  lemma Grows(d: nat, x: int)
    requires d > 0
    ensures x >= 1 ==> d * x >= d
    ensures x <= -1 ==> d * x <= 0 - d
  {
    if x >= 1 { assert d * (x - 1) >= 0; } else if x <= -1 { assert d * (-x - 1) >= 0; }
  }

  lemma Quotient(s: nat, d: nat, q: nat, r: nat)
    requires d > 0 && s == d * q + r && r < d
    ensures s / d == q
  {
    var k := s / d;
    assert s == d * k + s % d;
    assert d * (q - k) == d * q - d * k;
    Grows(d, q - k);
  }

  /** The code of a sample: its sign, its segment, and the four bits below the top bit. */
  function Code(sample: int): Byte {
    var s := Magnitude(sample) + BIAS;
    Pack(sample < 0, Segment(s), (s / Pow2(Segment(s) + 3)) % 16)
  }

  /** The biased magnitude a segment and its four bits stand for. */
  function Level(e: nat, m: nat): nat { (m * 8 + BIAS) * Pow2(e) }

  function MulawToLinear(b: Byte): int {
    var u := 255 - b as int;
    var exponent, mantissa := (u / 16) % 8, u % 16;
    var magnitude := Level(exponent, mantissa) - BIAS;
    if u >= 128 then -magnitude else magnitude
  }

  /** The four bits below the top bit, and what they leave out. */
  lemma Mantissa(s: nat, e: nat) returns (m: nat)
    requires InSegment(s, e)
    ensures m <= 15 && (s / Pow2(e + 3)) % 16 == m
    ensures (16 + m) * Pow2(e + 3) <= s < (17 + m) * Pow2(e + 3)
  {
    SmallPowers();
    var d := Pow2(e + 3);
    assert Pow2(e + 4) == 2 * d && Pow2(e + 5) == 4 * d && Pow2(e + 6) == 8 * d && Pow2(e + 7) == 16 * d
      && Pow2(e + 8) == 32 * d;
    hide Pow2;
    m := FourBits(s, d);
  }

  lemma FourBits(s: nat, d: nat) returns (m: nat)
    requires d > 0 && 16 * d <= s < 32 * d
    ensures m <= 15 && (s / d) % 16 == m && (16 + m) * d <= s < (17 + m) * d
  {
    var q := s / d;
    QuotientRange(s, d, q);
    m := q - 16;
    QuotientBounds(s, d, q);
  }

  lemma QuotientBounds(s: nat, d: nat, q: nat)
    requires d > 0 && q == s / d
    ensures q * d <= s < (q + 1) * d
  {
    assert s == d * q + s % d;
    assert (q + 1) * d == q * d + d;
  }

  lemma QuotientRange(s: nat, d: nat, q: nat)
    requires d > 0 && 16 * d <= s < 32 * d && q == s / d
    ensures 16 <= q < 32
  {
    QuotientBounds(s, d, q);
    assert d * (q - 31) == q * d - 31 * d && d * (16 - q) == 16 * d - q * d;
    assert (q + 1) * d == q * d + d;
    Grows(d, q - 31);
    Grows(d, 16 - q);
  }

  lemma Unpack(negative: bool, e: nat, m: nat)
    requires e <= 7 && m <= 15
    ensures MulawToLinear(Pack(negative, e, m)) == if negative then BIAS - Level(e, m) else Level(e, m) - BIAS
  {
    hide Level;
    Fields(negative, e, m, 255 - Pack(negative, e, m) as int);
  }

  lemma Fields(negative: bool, e: nat, m: nat, u: int)
    requires e <= 7 && m <= 15 && u == (if negative then 128 else 0) + e * 16 + m
    ensures (u / 16) % 8 == e && u % 16 == m && (u >= 128 <==> negative)
  {
    assert u == 16 * ((if negative then 8 else 0) + e) + m;
  }

  function Abs(x: int): nat { if x < 0 then -x else x }

  function Clipped(sample: int): int { if sample < 0 then 0 - Magnitude(sample) else Magnitude(sample) }

  /** Decoding the code of a sample gives the sample (clipped) back up to half a step
      of its segment, which is at most a thirty-second of the biased magnitude. */
  lemma {:induction false} CodecError(sample: int)
    ensures Abs(MulawToLinear(Code(sample)) - Clipped(sample)) <= Pow2(Segment(Magnitude(sample) + BIAS) + 2)
    ensures 32 * Abs(MulawToLinear(Code(sample)) - Clipped(sample)) <= Magnitude(sample) + BIAS
  {
    hide Pow2;
    hide Code;
    hide MulawToLinear;
    var s := Magnitude(sample) + BIAS;
    var e, m := Coded(sample);
    Midpoint(s, e, m);
  }

  lemma Coded(sample: int) returns (e: nat, m: nat)
    ensures InSegment(Magnitude(sample) + BIAS, e) && m <= 15
    ensures (16 + m) * Pow2(e + 3) <= Magnitude(sample) + BIAS < (17 + m) * Pow2(e + 3)
    ensures MulawToLinear(Code(sample)) == if sample < 0 then BIAS - Level(e, m) else Level(e, m) - BIAS
    ensures e == Segment(Magnitude(sample) + BIAS)
  {
    hide Level;
    hide Pow2;
    var s := Magnitude(sample) + BIAS;
    e := Segment(s);
    SegmentIff(s, e);
    m := Mantissa(s, e);
    Unpack(sample < 0, e, m);
  }

  /** The codec keeps the order of samples, across both signs. */
  lemma {:induction false} CodecIsMonotone(a: int, b: int)
    requires a <= b
    ensures MulawToLinear(Code(a)) <= MulawToLinear(Code(b))
  {
    hide Level;
    hide Pow2;
    hide Code;
    hide MulawToLinear;
    var e, m := Coded(a);
    var f, n := Coded(b);
    DecodedInSegment(e, m);
    DecodedInSegment(f, n);
    if a >= 0 {
      Levels(Magnitude(a) + BIAS, Magnitude(b) + BIAS, e, f, m, n);
    } else if b < 0 {
      Levels(Magnitude(b) + BIAS, Magnitude(a) + BIAS, f, e, n, m);
    }
  }

  lemma SegmentsGrow(e: nat, f: nat)
    requires e < f <= 7
    ensures Pow2(e + 8) <= Pow2(f + 7)
  {
    SmallPowers();
  }

  lemma SameSegment(s: nat, t: nat, e: nat, m: nat, n: nat)
    requires s <= t && (16 + m) * Pow2(e + 3) <= s && t < (17 + n) * Pow2(e + 3)
    ensures m <= n
  {
    var d := Pow2(e + 3);
    assert (17 + n) * d - (16 + m) * d == d * (1 + n - m);
    Grows(d, n - m);
    assert d * (1 + n - m) == d + d * (n - m);
  }

  lemma Levels(s: nat, t: nat, e: nat, f: nat, m: nat, n: nat)
    requires s <= t && InSegment(s, e) && InSegment(t, f) && m <= 15 && n <= 15
    requires (16 + m) * Pow2(e + 3) <= s && t < (17 + n) * Pow2(f + 3)
    ensures Level(e, m) <= Level(f, n)
  {
    SmallPowers();
    DecodedInSegment(e, m);
    DecodedInSegment(f, n);
    if e == f {
      SameSegment(s, t, e, m, n);
      SameLevel(e, m, n);
    } else if e < f {
      SegmentsGrow(e, f);
    } else {
      SegmentsGrow(f, e);
    }
  }

  lemma SameLevel(e: nat, m: nat, n: nat)
    requires m <= n
    ensures Level(e, m) <= Level(e, n)
  {
    assert Level(e, n) == Level(e, m) + (n - m) * 8 * Pow2(e);
  }

  lemma Midpoint(s: nat, e: nat, m: nat)
    requires InSegment(s, e) && (16 + m) * Pow2(e + 3) <= s < (17 + m) * Pow2(e + 3)
    ensures Abs(Level(e, m) - s) <= Pow2(e + 2) && 32 * Pow2(e + 2) <= s
  {
    SmallPowers();
    hide Pow2;
    if e == 0 {} else if e == 1 {} else if e == 2 {} else if e == 3 {}
    else if e == 4 {} else if e == 5 {} else if e == 6 {} else {}
  }

  /** Coding what a code decodes to gives the code back, except for the code of
      minus zero, which comes back as plus zero. */
  lemma {:induction false} CodesRoundTrip(b: Byte)
    ensures Code(MulawToLinear(b)) == b <==> b != 127
  {
    hide Pow2;
    var u := 255 - b as int;
    var e, m := (u / 16) % 8, u % 16;
    var s := Level(e, m);
    assert u == (if u >= 128 then 128 else 0) + e * 16 + m;
    DecodedInSegment(e, m);
    SegmentIff(s, e);
    DecodedBits(e, m);
    assert Magnitude(MulawToLinear(b)) + BIAS == s;
    SignBit(MulawToLinear(b));
    assert b == Pack(u >= 128, e, m);
  }

  lemma SignBit(sample: int)
    ensures Code(sample) >= 128 <==> sample >= 0
  {
  }

  lemma DecodedInSegment(e: nat, m: nat)
    requires e <= 7 && m <= 15
    ensures InSegment(Level(e, m), e) && BIAS <= Level(e, m) <= CLIP + BIAS
    ensures Level(e, m) == BIAS <==> m == 0 && e == 0
  {
    SmallPowers();
  }

  lemma DecodedBits(e: nat, m: nat)
    requires e <= 7 && m <= 15
    ensures (Level(e, m) / Pow2(e + 3)) % 16 == m
  {
    var p := Pow2(e);
    assert Pow2(e + 1) == 2 * p && Pow2(e + 2) == 4 * p && Pow2(e + 3) == 8 * p;
    assert (m * 8 + BIAS) * p == (8 * p) * (16 + m) + 4 * p;
    Quotient((m * 8 + BIAS) * p, 8 * p, 16 + m, 4 * p);
  }

  // ---- the bounded queue -------------------------------------------------------------------

  type Chunk = seq<Byte>

  function Concat(chunks: seq<Chunk>): seq<Byte> {
    if chunks == [] then [] else chunks[0] + Concat(chunks[1..])
  }

  lemma {:induction false} ConcatPush(chunks: seq<Chunk>, chunk: Chunk)
    ensures Concat(chunks + [chunk]) == Concat(chunks) + chunk
  {
    if chunks == [] {
      assert [chunk][1..] == [];
    } else {
      ConcatPush(chunks[1..], chunk);
      assert (chunks + [chunk])[1..] == chunks[1..] + [chunk];
    }
  }

  ghost predicate IsTail(part: seq<Byte>, whole: seq<Byte>) {
    |part| <= |whole| && part == whole[|whole| - |part|..]
  }

  class BoundedAudioQueue {
    const maxBytes: nat
    var chunks: seq<Chunk>
    var bytes: nat
    var dropped: nat
    /** Everything pushed since the queue was last emptied, and how much of that went. */
    ghost var pushed: seq<Byte>
    ghost var lost: nat

    ghost predicate Valid()
      reads this
    {
      && bytes == |Concat(chunks)| <= maxBytes && IsTail(Concat(chunks), pushed)
      && |pushed| == bytes + lost && lost <= dropped
    }

    constructor (maxBytes: nat)
      requires maxBytes > 0
      ensures Valid() && this.maxBytes == maxBytes && chunks == [] && dropped == 0 && pushed == []
    {
      this.maxBytes := maxBytes;
      chunks, bytes, dropped, pushed, lost := [], 0, 0, [], 0;
    }

    /** The newest audio stays; what it displaces is the oldest, and is counted. */
    method Push(chunk: Chunk)
      requires Valid() && maxBytes > 0
      modifies this
      ensures Valid() && pushed == old(pushed) + chunk
      ensures dropped - old(dropped) == lost - old(lost) == old(bytes) + |chunk| - bytes
      ensures |chunk| > 0 ==> bytes > 0
      ensures old(bytes) + |chunk| <= maxBytes ==> Concat(chunks) == old(Concat(chunks)) + chunk
    {
      if |chunk| == 0 {
        assert pushed + chunk == pushed && Concat(chunks) + chunk == Concat(chunks);
        return;
      }
      var kept := chunk;
      pushed := pushed + chunk;
      if |chunk| > maxBytes {
        dropped, lost := dropped + |chunk| - maxBytes, lost + |chunk| - maxBytes;
        kept := chunk[|chunk| - maxBytes..];
      }
      ghost var queue := Concat(chunks);
      ConcatPush(chunks, kept);
      chunks, bytes := chunks + [kept], bytes + |kept|;
      DropOldest(kept);
      Newest(queue, old(pushed), chunk, kept, Concat(chunks), maxBytes);
    }

    /** Drops whole chunks from the front until the ceiling holds; never the last one. */
    method DropOldest(kept: Chunk)
      requires bytes == |Concat(chunks)| && 0 < |kept| <= maxBytes && chunks != [] && chunks[|chunks| - 1] == kept
      modifies `chunks, `bytes, `dropped, `lost
      ensures bytes == |Concat(chunks)| <= maxBytes && IsTail(Concat(chunks), old(Concat(chunks)))
      ensures IsTail(kept, Concat(chunks)) && (old(bytes) <= maxBytes ==> chunks == old(chunks))
      ensures dropped - old(dropped) == lost - old(lost) == old(bytes) - bytes
    {
      hide Concat;
      hide IsTail;
      WholeIsTail(Concat(chunks));
      while bytes > maxBytes
        invariant bytes == |Concat(chunks)| && IsTail(Concat(chunks), old(Concat(chunks)))
        invariant chunks != [] && chunks[|chunks| - 1] == kept
        invariant dropped - old(dropped) == lost - old(lost) == old(bytes) - bytes
        invariant old(bytes) <= maxBytes ==> chunks == old(chunks)
        decreases |chunks|
      {
        var head := chunks[0];
        ConcatHead(chunks);
        LoneChunk(chunks, kept);
        TailShorter(head, Concat(chunks[1..]), old(Concat(chunks)));
        chunks, bytes := chunks[1..], bytes - |head|;
        dropped, lost := dropped + |head|, lost + |head|;
      }
      LastStays(chunks, kept);
    }

    method Drain() returns (out: seq<Chunk>)
      requires Valid()
      modifies this
      ensures Valid() && out == old(chunks) && chunks == [] && bytes == 0 && dropped == old(dropped)
      ensures IsTail(Concat(out), old(pushed)) && |Concat(out)| + old(lost) == |old(pushed)|
    {
      out := chunks;
      chunks, bytes := [], 0;
      pushed, lost := [], 0;
    }
  }

  lemma WholeIsTail(t: seq<Byte>)
    ensures IsTail(t, t)
  {
  }

  lemma ConcatHead(chunks: seq<Chunk>)
    requires chunks != []
    ensures Concat(chunks) == chunks[0] + Concat(chunks[1..])
  {
  }

  lemma LoneChunk(chunks: seq<Chunk>, kept: Chunk)
    requires chunks != [] && chunks[|chunks| - 1] == kept
    ensures |chunks| == 1 ==> Concat(chunks) == kept
  {
    if |chunks| == 1 { assert chunks[1..] == []; }
  }

  lemma TailShorter(head: Chunk, rest: seq<Byte>, whole: seq<Byte>)
    requires IsTail(head + rest, whole)
    ensures IsTail(rest, whole)
  {
  }

  /** What is left is the newest of everything pushed. */
  lemma Newest(queue: seq<Byte>, pushed: seq<Byte>, chunk: Chunk, kept: Chunk, left: seq<Byte>, max: nat)
    requires IsTail(queue, pushed) && IsTail(left, queue + kept) && |left| <= max && IsTail(kept, left)
    requires kept == chunk || (|kept| == max && IsTail(kept, chunk))
    ensures IsTail(left, pushed + chunk)
  {
    if kept != chunk { assert left == kept; }
  }

  lemma {:induction false} LastStays(chunks: seq<Chunk>, kept: Chunk)
    requires chunks != [] && chunks[|chunks| - 1] == kept
    ensures |Concat(chunks)| >= |kept| && IsTail(kept, Concat(chunks))
  {
    if |chunks| > 1 {
      LastStays(chunks[1..], kept);
    } else {
      assert chunks[1..] == [];
    }
  }
}
