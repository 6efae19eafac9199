/** Bytes, little-endian integers and fixed-width records. */
module Bytes {

  type byte = x: int | 0 <= x < 256
  type u32 = x: int | 0 <= x < 0x1_0000_0000
  type u64 = x: int | 0 <= x < 0x1_0000_0000_0000_0000

  datatype Option<+T> = None | Some(value: T)

  function Min(x: int, y: int): int { if x < y then x else y }
  function Max(x: int, y: int): int { if x < y then y else x }

  /** `n` copies of one byte. */
  function Fill(b: byte, n: nat): (bytes: seq<byte>)
    ensures |bytes| == n && AllAre(b, bytes)
  {
    seq(n, _ => b)
  }

  predicate AllAre(b: byte, bytes: seq<byte>) {
    forall i | 0 <= i < |bytes| :: bytes[i] == b
  }

  function Pow256(n: nat): (p: nat)
    ensures p > 0
  {
    if n == 0 then 1 else 256 * Pow256(n - 1)
  }

  /** Little-endian encoding in exactly `width` bytes; higher bytes are cut off. */
  function Le(value: nat, width: nat): (bytes: seq<byte>)
    ensures |bytes| == width
  {
    if width == 0 then [] else [value % 256] + Le(value / 256, width - 1)
  }

  function FromLe(bytes: seq<byte>): (value: nat)
    ensures value < Pow256(|bytes|)
  {
    if bytes == [] then 0 else bytes[0] + 256 * FromLe(bytes[1..])
  }

  lemma {:induction false} LeRoundTrip(value: nat, width: nat)
    requires value < Pow256(width)
    ensures FromLe(Le(value, width)) == value
  {
    if width != 0 {
      LeRoundTrip(value / 256, width - 1);
      assert Le(value, width)[1..] == Le(value / 256, width - 1);
    }
  }

  lemma {:induction false} FromLeRoundTrip(bytes: seq<byte>)
    ensures Le(FromLe(bytes), |bytes|) == bytes
  {
    if bytes != [] {
      FromLeRoundTrip(bytes[1..]);
      var rest := FromLe(bytes[1..]);
      assert FromLe(bytes) % 256 == bytes[0] && FromLe(bytes) / 256 == rest;
    }
  }

  lemma Pow256Values()
    ensures Pow256(1) == 0x100 && Pow256(2) == 0x1_0000
    ensures Pow256(4) == 0x1_0000_0000
    ensures Pow256(8) == 0x1_0000_0000_0000_0000
  {
    assert Pow256(3) == 0x100_0000;
    assert Pow256(4) == 0x1_0000_0000;
    assert Pow256(5) == 0x100_0000_0000;
    assert Pow256(6) == 0x1_0000_0000_0000;
    assert Pow256(7) == 0x100_0000_0000_0000;
  }

  // ---------- Fixed-width records ----------

  function Sum(widths: seq<nat>): nat {
    if widths == [] then 0 else widths[0] + Sum(widths[1..])
  }

  /** The sum from index `i` on; unlike `Sum` it evaluates on constant tables. */
  function SumFrom(widths: seq<nat>, i: nat): nat
    requires i <= |widths|
    decreases |widths| - i
  {
    if i == |widths| then 0 else widths[i] + SumFrom(widths, i + 1)
  }

  lemma {:induction false} SumIsSumFrom(widths: seq<nat>, i: nat)
    requires i <= |widths|
    ensures Sum(widths[i..]) == SumFrom(widths, i)
    decreases |widths| - i
  {
    if i != |widths| {
      SumIsSumFrom(widths, i + 1);
      assert widths[i..][1..] == widths[i + 1..];
    }
  }

  function Join(fields: seq<seq<byte>>): seq<byte> {
    if fields == [] then [] else fields[0] + Join(fields[1..])
  }

  function Split(bytes: seq<byte>, widths: seq<nat>): (fields: seq<seq<byte>>)
    requires |bytes| == Sum(widths)
    ensures |fields| == |widths|
    ensures forall i | 0 <= i < |widths| :: |fields[i]| == widths[i]
  {
    if widths == [] then []
    else [bytes[..widths[0]]] + Split(bytes[widths[0]..], widths[1..])
  }

  predicate Fits(fields: seq<seq<byte>>, widths: seq<nat>) {
    |fields| == |widths| && forall i | 0 <= i < |widths| :: |fields[i]| == widths[i]
  }

  lemma {:induction false} JoinSplit(fields: seq<seq<byte>>, widths: seq<nat>)
    requires Fits(fields, widths)
    ensures |Join(fields)| == Sum(widths)
    ensures Split(Join(fields), widths) == fields
  {
    if fields != [] {
      JoinSplit(fields[1..], widths[1..]);
      assert Join(fields)[..widths[0]] == fields[0];
      assert Join(fields)[widths[0]..] == Join(fields[1..]);
    }
  }

  lemma JoinHead(fields: seq<seq<byte>>)
    requires fields != []
    ensures |Join(fields)| >= |fields[0]| && Join(fields)[..|fields[0]|] == fields[0]
  {
  }

  lemma {:induction false} SplitJoin(bytes: seq<byte>, widths: seq<nat>)
    requires |bytes| == Sum(widths)
    ensures Join(Split(bytes, widths)) == bytes
  {
    if widths != [] {
      SplitJoin(bytes[widths[0]..], widths[1..]);
      assert Split(bytes, widths)[1..] == Split(bytes[widths[0]..], widths[1..]);
    }
  }

  /** A table of 32-bit words, four bytes each. */
  function Words(words: seq<u32>): (bytes: seq<byte>)
    ensures |bytes| == 4 * |words|
  {
    if words == [] then [] else Le(words[0], 4) + Words(words[1..])
  }

  function FromWords(bytes: seq<byte>, count: nat): (words: seq<u32>)
    requires |bytes| == 4 * count
    ensures |words| == count
  {
    if count == 0 then []
    else Pow256Values(); [FromLe(bytes[..4])] + FromWords(bytes[4..], count - 1)
  }

  lemma {:induction false} WordsRoundTrip(words: seq<u32>)
    ensures FromWords(Words(words), |words|) == words
  {
    if words != [] {
      Pow256Values();
      LeRoundTrip(words[0], 4);
      WordsRoundTrip(words[1..]);
      assert Words(words)[..4] == Le(words[0], 4);
      assert Words(words)[4..] == Words(words[1..]);
    }
  }

  lemma {:induction false} FromWordsRoundTrip(bytes: seq<byte>, count: nat)
    requires |bytes| == 4 * count
    ensures Words(FromWords(bytes, count)) == bytes
  {
    if count != 0 {
      FromLeRoundTrip(bytes[..4]);
      FromWordsRoundTrip(bytes[4..], count - 1);
      assert FromWords(bytes, count)[1..] == FromWords(bytes[4..], count - 1);
    }
  }

  // ---------- Bits of a byte ----------

  /** `(b >> i) & 1` */
  predicate Bit(b: byte, i: nat) {
    if i == 0 then b % 2 == 1 else Bit(b / 2, i - 1)
  }

  /** `b & ~(1 << i)` */
  function ClearBit(b: byte, i: nat): (r: byte)
    ensures r <= b
  {
    if i == 0 then b - b % 2 else b % 2 + 2 * ClearBit(b / 2, i - 1)
  }

  lemma {:induction false} ClearBitClears(b: byte, i: nat, j: nat)
    ensures Bit(ClearBit(b, i), j) <==> j != i && Bit(b, j)
  {
    if i != 0 && j != 0 {
      ClearBitClears(b / 2, i - 1, j - 1);
      assert ClearBit(b, i) / 2 == ClearBit(b / 2, i - 1);
    } else if i == 0 && j != 0 {
      assert (b - b % 2) / 2 == b / 2;
    }
  }

  /** `b | (1 << i)`; `room` is the number of bits available. */
  function SetBit(b: nat, i: nat, room: nat): (r: nat)
    requires i < room && b < Two(room)
    ensures r < Two(room)
  {
    if i == 0 then b - b % 2 + 1 else b % 2 + 2 * SetBit(b / 2, i - 1, room - 1)
  }

  function Two(n: nat): (p: nat)
    ensures p > 0
    ensures n > 0 ==> p % 2 == 0
  {
    if n == 0 then 1 else 2 * Two(n - 1)
  }

  lemma TwoEight()
    ensures Two(8) == 256
  {
    assert Two(4) == 16;
  }

  lemma {:induction false} SetBitSets(b: byte, i: nat, room: nat, j: nat)
    requires i < room && b < Two(room) && SetBit(b, i, room) < 256
    ensures Bit(SetBit(b, i, room), j) <==> j == i || Bit(b, j)
  {
    var r := SetBit(b, i, room);
    if i != 0 {
      assert r / 2 == SetBit(b / 2, i - 1, room - 1) && r % 2 == b % 2;
      if j != 0 { SetBitSets(b / 2, i - 1, room - 1, j - 1); }
    } else if j != 0 {
      assert r / 2 == b / 2;
    }
  }

  function Ones(n: nat): nat {
    if n == 0 then 0 else 1 + 2 * Ones(n - 1)
  }

  lemma {:induction false} OnesAreSet(n: nat, i: nat)
    requires i < n && Ones(n) < 256
    ensures Bit(Ones(n), i)
  {
    assert Ones(n) / 2 == Ones(n - 1);
    if i != 0 { OnesAreSet(n - 1, i - 1); }
  }

  lemma ErasedByteHasEveryBit(i: nat)
    requires i < 8
    ensures Bit(255, i)
  {
    assert Ones(4) == 15;
    assert Ones(8) == 255;
    OnesAreSet(8, i);
  }

  lemma {:induction false} ZeroHasNoBit(i: nat)
    ensures !Bit(0, i)
  {
    if i > 0 { ZeroHasNoBit(i - 1); }
  }

  /** A part has no more elements than the whole. */
  lemma Fewer<T>(a: set<T>, b: set<T>)
    requires a <= b
    ensures |a| <= |b|
  {
    assert b == a + (b - a);
  }
}
