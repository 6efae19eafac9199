/** The reflected CRC-32 of RFC 1952, section 8, and what it can never miss. */
module Crc32 {
  import opened Bytes

  const POLYNOMIAL: bv32 := 0xEDB88320

  /** One bit of the division. */
  function Round(state: bv32): bv32 {
    (state >> 1) ^ (if state & 1 == 1 then POLYNOMIAL else 0)
  }

  /** The polynomial sets the top bit, so the bit shifted out can be read back. */
  lemma RoundInjective(a: bv32, b: bv32)
    ensures Round(a) == Round(b) ==> a == b
  {
  }

  function Rounds(state: bv32, n: nat): bv32
    decreases n
  {
    if n == 0 then state else Rounds(Round(state), n - 1)
  }

  lemma {:induction false} RoundsInjective(a: bv32, b: bv32, n: nat)
    requires Rounds(a, n) == Rounds(b, n)
    ensures a == b
    decreases n
  {
    hide Round;
    if n > 0 {
      RoundsInjective(Round(a), Round(b), n - 1);
      RoundInjective(a, b);
    }
  }

  function BitAt(b: byte, place: nat, mask: bv32): bv32
    requires place > 0
  {
    if b / place % 2 == 1 then mask else 0
  }

  /** The byte as the low eight bits of a word. */
  function Widen(b: byte): bv32 {
    BitAt(b, 1, 1) | BitAt(b, 2, 2) | BitAt(b, 4, 4) | BitAt(b, 8, 8)
    | BitAt(b, 16, 16) | BitAt(b, 32, 32) | BitAt(b, 64, 64) | BitAt(b, 128, 128)
  }

  lemma WidenBits(b: byte)
    ensures Widen(b) & 1 == 1 <==> b % 2 == 1
    ensures Widen(b) & 2 == 2 <==> b / 2 % 2 == 1
    ensures Widen(b) & 4 == 4 <==> b / 4 % 2 == 1
    ensures Widen(b) & 8 == 8 <==> b / 8 % 2 == 1
    ensures Widen(b) & 16 == 16 <==> b / 16 % 2 == 1
    ensures Widen(b) & 32 == 32 <==> b / 32 % 2 == 1
    ensures Widen(b) & 64 == 64 <==> b / 64 % 2 == 1
    ensures Widen(b) & 128 == 128 <==> b / 128 % 2 == 1
  {
  }

  lemma WidenInjective(a: byte, b: byte)
    requires Widen(a) == Widen(b)
    ensures a == b
  {
    WidenBits(a);
    WidenBits(b);
    hide Widen;
    EqualBits(a, b);
  }

  lemma EqualBits(a: byte, b: byte)
    requires a % 2 == 1 <==> b % 2 == 1
    requires a / 2 % 2 == 1 <==> b / 2 % 2 == 1
    requires a / 4 % 2 == 1 <==> b / 4 % 2 == 1
    requires a / 8 % 2 == 1 <==> b / 8 % 2 == 1
    requires a / 16 % 2 == 1 <==> b / 16 % 2 == 1
    requires a / 32 % 2 == 1 <==> b / 32 % 2 == 1
    requires a / 64 % 2 == 1 <==> b / 64 % 2 == 1
    requires a / 128 % 2 == 1 <==> b / 128 % 2 == 1
    ensures a == b
  {
    Halves(a);
    Halves(b);
    SameNumber(a / 128, b / 128);
    SameNumber(a / 64, b / 64);
    SameNumber(a / 32, b / 32);
    SameNumber(a / 16, b / 16);
    SameNumber(a / 8, b / 8);
    SameNumber(a / 4, b / 4);
    SameNumber(a / 2, b / 2);
    SameNumber(a, b);
  }

  lemma SameNumber(x: nat, y: nat)
    requires x / 2 == y / 2 && (x % 2 == 1 <==> y % 2 == 1)
    ensures x == y
  {
  }

  lemma Halves(b: byte)
    ensures b / 128 / 2 == 0 && b / 64 / 2 == b / 128 && b / 32 / 2 == b / 64 && b / 16 / 2 == b / 32
    ensures b / 8 / 2 == b / 16 && b / 4 / 2 == b / 8 && b / 2 / 2 == b / 4
  {
  }

  function Mix(state: bv32, b: byte): bv32 { state ^ Widen(b) }

  lemma MixInjective(s: bv32, t: bv32, b: byte)
    requires Mix(s, b) == Mix(t, b)
    ensures s == t
  {
    hide Widen;
    XorCancels(s, t, Widen(b));
  }

  lemma MixSeparates(s: bv32, a: byte, b: byte)
    requires Mix(s, a) == Mix(s, b)
    ensures a == b
  {
    hide Widen;
    XorCommutes(s, Widen(a));
    XorCommutes(s, Widen(b));
    XorCancels(Widen(a), Widen(b), s);
    WidenInjective(a, b);
  }

  function Feed(state: bv32, b: byte): bv32 {
    Rounds(Mix(state, b), 8)
  }

  lemma FeedInjective(s: bv32, t: bv32, b: byte)
    requires Feed(s, b) == Feed(t, b)
    ensures s == t
  {
    hide Rounds, Mix;
    RoundsInjective(Mix(s, b), Mix(t, b), 8);
    MixInjective(s, t, b);
  }

  lemma FeedSeparates(s: bv32, a: byte, b: byte)
    requires Feed(s, a) == Feed(s, b)
    ensures a == b
  {
    hide Rounds, Mix;
    RoundsInjective(Mix(s, a), Mix(s, b), 8);
    MixSeparates(s, a, b);
  }

  lemma XorCancels(x: bv32, y: bv32, k: bv32)
    requires x ^ k == y ^ k
    ensures x == y
  {
  }

  lemma XorCommutes(x: bv32, y: bv32)
    ensures x ^ y == y ^ x
  {
  }

  function FeedAll(state: bv32, bytes: seq<byte>): bv32 {
    if bytes == [] then state else Feed(FeedAll(state, bytes[..|bytes| - 1]), bytes[|bytes| - 1])
  }

  function Crc(bytes: seq<byte>): u32 {
    (FeedAll(0xFFFF_FFFF, bytes) ^ 0xFFFF_FFFF) as int
  }

  /** A message never has the CRC of one that differs from it in a single byte, wherever
      that byte is and however long the message. */
  lemma {:induction false} StatesDiffer(state: bv32, a: seq<byte>, b: seq<byte>, k: nat)
    requires |a| == |b| && k < |a| && a[k] != b[k]
    requires forall i | 0 <= i < |a| && i != k :: a[i] == b[i]
    ensures FeedAll(state, a) != FeedAll(state, b)
  {
    var n := |a| - 1;
    if k == n {
      assert a[..n] == b[..n];
      if FeedAll(state, a) == FeedAll(state, b) { FeedSeparates(FeedAll(state, a[..n]), a[n], b[n]); }
    } else {
      StatesDiffer(state, a[..n], b[..n], k);
      if FeedAll(state, a) == FeedAll(state, b) { FeedInjective(FeedAll(state, a[..n]), FeedAll(state, b[..n]), a[n]); }
    }
  }

  lemma OneByteChangeIsDetected(a: seq<byte>, b: seq<byte>, k: nat)
    requires |a| == |b| && k < |a| && a[k] != b[k]
    requires forall i | 0 <= i < |a| && i != k :: a[i] == b[i]
    ensures Crc(a) != Crc(b)
  {
    StatesDiffer(0xFFFF_FFFF, a, b, k);
    var x, y := FeedAll(0xFFFF_FFFF, a), FeedAll(0xFFFF_FFFF, b);
    DifferentAfterInversion(x, y);
  }

  lemma DifferentAfterInversion(x: bv32, y: bv32)
    requires x != y
    ensures (x ^ 0xFFFF_FFFF) as int != (y ^ 0xFFFF_FFFF) as int
  {
    assert x ^ 0xFFFF_FFFF != y ^ 0xFFFF_FFFF;
    assert ((x ^ 0xFFFF_FFFF) as int) as bv32 == x ^ 0xFFFF_FFFF;
    assert ((y ^ 0xFFFF_FFFF) as int) as bv32 == y ^ 0xFFFF_FFFF;
  }

  /** crc32_update, one buffer at a time. */
  method Update(state: bv32, data: seq<byte>) returns (next: bv32)
    ensures next == FeedAll(state, data)
  {
    hide Rounds, Mix, Round;
    next := state;
    for i := 0 to |data|
      invariant next == FeedAll(state, data[..i])
    {
      assert data[..i + 1][..i] == data[..i];
      next := EightRounds(Mix(next, data[i]));
    }
    assert data[..|data|] == data;
  }

  method EightRounds(state: bv32) returns (next: bv32)
    ensures next == Rounds(state, 8)
  {
    hide Round;
    next := state;
    var left := 8;
    while left > 0
      invariant 0 <= left <= 8
      invariant Rounds(next, left) == Rounds(state, 8)
    {
      next := Round(next);
      left := left - 1;
    }
  }

  /** Feeding a message in pieces is feeding it at once: chunked hashing is exact. */
  lemma {:induction false} FeedInPieces(state: bv32, a: seq<byte>, b: seq<byte>)
    ensures FeedAll(FeedAll(state, a), b) == FeedAll(state, a + b)
  {
    if b == [] {
      assert a + b == a;
    } else {
      FeedInPieces(state, a, b[..|b| - 1]);
      assert (a + b)[..|a + b| - 1] == a + b[..|b| - 1];
    }
  }

  // ---------- The check value ----------

  lemma EightRoundsOf(state: bv32)
    ensures Rounds(state, 8) == Round(Round(Round(Round(Round(Round(Round(Round(state))))))))
  {
    hide Round;
  }

  lemma LowDigitsWidened()
    ensures Widen(49) == 49 && Widen(50) == 50 && Widen(51) == 51
  {
  }

  lemma MiddleDigitsWidened()
    ensures Widen(52) == 52 && Widen(53) == 53 && Widen(54) == 54
  {
  }

  lemma HighDigitsWidened()
    ensures Widen(55) == 55 && Widen(56) == 56 && Widen(57) == 57
  {
  }

  lemma Digit1()
    ensures Feed(0xFFFFFFFF, 49) == 0x7C231048
  {
    hide Rounds, Widen;
    LowDigitsWidened();
    EightRoundsOf(0xFFFFFFCE);
  }

  lemma Digit2()
    ensures Feed(0x7C231048, 50) == 0xB0ACBB32
  {
    hide Rounds, Widen;
    LowDigitsWidened();
    EightRoundsOf(0x7C23107A);
  }

  lemma Digit3()
    ensures Feed(0xB0ACBB32, 51) == 0x77B79C2D
  {
    hide Rounds, Widen;
    LowDigitsWidened();
    EightRoundsOf(0xB0ACBB01);
  }

  lemma Digit4()
    ensures Feed(0x77B79C2D, 52) == 0x641C1F5C
  {
    hide Rounds, Widen;
    MiddleDigitsWidened();
    EightRoundsOf(0x77B79C19);
  }

  lemma Digit5()
    ensures Feed(0x641C1F5C, 53) == 0x340AC5E3
  {
    hide Rounds, Widen;
    MiddleDigitsWidened();
    EightRoundsOf(0x641C1F69);
  }

  lemma Digit6()
    ensures Feed(0x340AC5E3, 54) == 0xF68D2C9E
  {
    hide Rounds, Widen;
    MiddleDigitsWidened();
    EightRoundsOf(0x340AC5D5);
  }

  lemma Digit7()
    ensures Feed(0xF68D2C9E, 55) == 0xAFFC9660
  {
    hide Rounds, Widen;
    HighDigitsWidened();
    EightRoundsOf(0xF68D2CA9);
  }

  lemma Digit8()
    ensures Feed(0xAFFC9660, 56) == 0x651F2550
  {
    hide Rounds, Widen;
    HighDigitsWidened();
    EightRoundsOf(0xAFFC9658);
  }

  lemma Digit9()
    ensures Feed(0x651F2550, 57) == 0x340BC6D9
  {
    hide Rounds, Widen;
    HighDigitsWidened();
    EightRoundsOf(0x651F2569);
  }

  lemma OneMore(state: bv32, bytes: seq<byte>, last: byte)
    ensures FeedAll(state, bytes + [last]) == Feed(FeedAll(state, bytes), last)
  {
    assert (bytes + [last])[..|bytes|] == bytes;
  }

  /** The published check value of this CRC: that of the nine digits "123456789". */
  lemma CheckValue()
    ensures Crc([49, 50, 51, 52, 53, 54, 55, 56, 57]) == 0xCBF43926
  {
    hide Feed;
    Digit1(); Digit2(); Digit3(); Digit4(); Digit5(); Digit6(); Digit7(); Digit8(); Digit9();
    OneMore(0xFFFF_FFFF, [], 49);
    assert [] + [49] == [49];
    OneMore(0xFFFF_FFFF, [49], 50);
    assert [49] + [50] == [49, 50];
    OneMore(0xFFFF_FFFF, [49, 50], 51);
    assert [49, 50] + [51] == [49, 50, 51];
    OneMore(0xFFFF_FFFF, [49, 50, 51], 52);
    assert [49, 50, 51] + [52] == [49, 50, 51, 52];
    OneMore(0xFFFF_FFFF, [49, 50, 51, 52], 53);
    assert [49, 50, 51, 52] + [53] == [49, 50, 51, 52, 53];
    OneMore(0xFFFF_FFFF, [49, 50, 51, 52, 53], 54);
    assert [49, 50, 51, 52, 53] + [54] == [49, 50, 51, 52, 53, 54];
    OneMore(0xFFFF_FFFF, [49, 50, 51, 52, 53, 54], 55);
    assert [49, 50, 51, 52, 53, 54] + [55] == [49, 50, 51, 52, 53, 54, 55];
    OneMore(0xFFFF_FFFF, [49, 50, 51, 52, 53, 54, 55], 56);
    assert [49, 50, 51, 52, 53, 54, 55] + [56] == [49, 50, 51, 52, 53, 54, 55, 56];
    OneMore(0xFFFF_FFFF, [49, 50, 51, 52, 53, 54, 55, 56], 57);
    assert [49, 50, 51, 52, 53, 54, 55, 56] + [57] == [49, 50, 51, 52, 53, 54, 55, 56, 57];
  }
}
