/** Units rebuilt from fragments in any order. */
module Assemblers {
  import opened Bytes

  const FRAGMENT_MAX: nat := 101

  /** What is known of a unit: the bytes received so far. */
  type Partial = seq<Option<byte>>

  datatype Fragment = Fragment(offset: nat, data: seq<byte>)

  datatype AcceptResult = Accepted | InvalidArgument | OutOfBounds | Conflict | WrongOwner | WrongUnit | Incomplete

  predicate Covers(f: Fragment, i: nat) { f.offset <= i < f.offset + |f.data| }

  predicate Agrees(partial: Partial, f: Fragment)
    requires f.offset + |f.data| <= |partial|
  {
    forall i | 0 <= i < |f.data| :: partial[f.offset + i].None? || partial[f.offset + i] == Some(f.data[i])
  }

  function Merge(partial: Partial, f: Fragment): (r: Partial)
    requires f.offset + |f.data| <= |partial|
    ensures |r| == |partial|
  {
    seq(|partial|, i requires 0 <= i < |partial| =>
      if partial[i].None? && Covers(f, i) then Some(f.data[i - f.offset]) else partial[i])
  }

  function Verdict(partial: Partial, f: Fragment): AcceptResult {
    if f.data == [] then InvalidArgument
    else if |f.data| > FRAGMENT_MAX || f.offset + |f.data| > |partial| then OutOfBounds
    else if !Agrees(partial, f) then Conflict
    else Accepted
  }

  /** A refused fragment changes nothing, even when part of it was new. */
  function Step(partial: Partial, f: Fragment): (r: Partial)
    ensures |r| == |partial|
  {
    if Verdict(partial, f).Accepted? then Merge(partial, f) else partial
  }

  function Unknown(n: nat): (p: Partial)
    ensures |p| == n
  {
    seq(n, _ => None)
  }

  function Received(partial: Partial): nat {
    if partial == [] then 0
    else Received(partial[..|partial| - 1]) + (if partial[|partial| - 1].Some? then 1 else 0)
  }

  function FirstMissing(partial: Partial, from: nat): (first: nat)
    requires from <= |partial|
    ensures from <= first <= |partial|
    ensures forall i | from <= i < first :: partial[i].Some?
    ensures first < |partial| ==> partial[first].None?
    decreases |partial| - from
  {
    if from == |partial| || partial[from].None? then from else FirstMissing(partial, from + 1)
  }

  predicate Whole(partial: Partial) { forall i | 0 <= i < |partial| :: partial[i].Some? }

  function Known(partial: Partial): seq<byte>
    requires Whole(partial)
  {
    seq(|partial|, i requires 0 <= i < |partial| => partial[i].value)
  }

  // ---------- Any sequence of fragments ----------

  /** All of these fragments, in this order, are accepted from nothing. */
  predicate AllAccepted(n: nat, fragments: seq<Fragment>) {
    fragments == []
    || (AllAccepted(n, fragments[..|fragments| - 1])
        && Verdict(Rebuilt(n, fragments[..|fragments| - 1]), fragments[|fragments| - 1]).Accepted?)
  }

  function Rebuilt(n: nat, fragments: seq<Fragment>): (partial: Partial)
    ensures |partial| == n
  {
    if fragments == [] then Unknown(n)
    else Step(Rebuilt(n, fragments[..|fragments| - 1]), fragments[|fragments| - 1])
  }

  /** Byte `i` is known exactly when an accepted fragment covers it, and it is what every
      one of them says. */
  lemma {:induction false} RebuiltMeaning(n: nat, fragments: seq<Fragment>, i: nat)
    requires AllAccepted(n, fragments) && i < n
    ensures Rebuilt(n, fragments)[i].Some? <==> exists k | 0 <= k < |fragments| :: Covers(fragments[k], i)
    ensures forall k | 0 <= k < |fragments| && Covers(fragments[k], i) ::
              Rebuilt(n, fragments)[i] == Some(fragments[k].data[i - fragments[k].offset])
  {
    if fragments != [] {
      var last := fragments[|fragments| - 1];
      var front := fragments[..|fragments| - 1];
      RebuiltMeaning(n, front, i);
      var before := Rebuilt(n, front);
      if Covers(last, i) {
        assert before[last.offset + (i - last.offset)].None? || before[i] == Some(last.data[i - last.offset]);
        assert Covers(fragments[|fragments| - 1], i);
      }
      forall k | 0 <= k < |fragments| && Covers(fragments[k], i)
        ensures Rebuilt(n, fragments)[i] == Some(fragments[k].data[i - fragments[k].offset])
      {
        if k < |front| { assert Covers(front[k], i); }
      }
      if exists k | 0 <= k < |front| :: Covers(front[k], i) {
        var k :| 0 <= k < |front| && Covers(front[k], i);
        assert Covers(fragments[k], i);
      }
    }
  }

  /** Order, duplicates and overlaps do not matter: the same accepted fragments rebuild the
      same unit. */
  lemma OrderDoesNotMatter(n: nat, a: seq<Fragment>, b: seq<Fragment>)
    requires AllAccepted(n, a) && AllAccepted(n, b)
    requires forall f :: f in a <==> f in b
    ensures Rebuilt(n, a) == Rebuilt(n, b)
  {
    forall i | 0 <= i < n ensures Rebuilt(n, a)[i] == Rebuilt(n, b)[i] {
      MoreFragmentsKnowMore(n, a, b, i);
      MoreFragmentsKnowMore(n, b, a, i);
    }
  }

  lemma MoreFragmentsKnowMore(n: nat, a: seq<Fragment>, b: seq<Fragment>, i: nat)
    requires AllAccepted(n, a) && AllAccepted(n, b) && i < n
    requires forall f :: f in a ==> f in b
    ensures Rebuilt(n, a)[i].Some? ==> Rebuilt(n, b)[i] == Rebuilt(n, a)[i]
  {
    RebuiltMeaning(n, a, i);
    RebuiltMeaning(n, b, i);
    hide AllAccepted, Rebuilt;
    if Rebuilt(n, a)[i].Some? {
      var k :| 0 <= k < |a| && Covers(a[k], i);
      var f := a[k];
      assert f in a && f in b;
      var m :| 0 <= m < |b| && b[m] == f;
      hide Covers;
      assert Covers(b[m], i);
    }
  }

  predicate PartOf(message: seq<byte>, f: Fragment) {
    && 0 < |f.data| <= FRAGMENT_MAX && f.offset + |f.data| <= |message|
    && f.data == message[f.offset..f.offset + |f.data|]
  }

  /** Fragments of one message are always accepted, and once they cover it they are it. */
  lemma {:induction false} PartsRebuildMessage(message: seq<byte>, fragments: seq<Fragment>)
    requires forall k | 0 <= k < |fragments| :: PartOf(message, fragments[k])
    ensures AllAccepted(|message|, fragments)
    ensures forall i | 0 <= i < |message| ::
              Rebuilt(|message|, fragments)[i].None? || Rebuilt(|message|, fragments)[i] == Some(message[i])
    ensures Whole(Rebuilt(|message|, fragments)) ==> Known(Rebuilt(|message|, fragments)) == message
  {
    if fragments != [] {
      var front := fragments[..|fragments| - 1];
      forall k | 0 <= k < |front| ensures PartOf(message, front[k]) { assert PartOf(message, fragments[k]); }
      PartsRebuildMessage(message, front);
      var last := fragments[|fragments| - 1];
      assert PartOf(message, last);
      forall i | 0 <= i < |last.data| ensures last.data[i] == message[last.offset + i] {}
    }
  }

  lemma {:induction false} ReceivedBounds(partial: Partial)
    ensures Received(partial) <= |partial|
    ensures Received(partial) == |partial| <==> Whole(partial)
  {
    if partial != [] {
      var front := partial[..|partial| - 1];
      ReceivedBounds(front);
      assert Whole(partial) <==> Whole(front) && partial[|partial| - 1].Some?;
    }
  }

  lemma {:induction false} ReceivedOneMore(partial: Partial, i: nat, b: byte)
    requires i < |partial| && partial[i].None?
    ensures Received(partial[i := Some(b)]) == Received(partial) + 1
  {
    var after := partial[i := Some(b)];
    if i == |partial| - 1 {
      assert after[..|after| - 1] == partial[..|partial| - 1];
    } else {
      ReceivedOneMore(partial[..|partial| - 1], i, b);
      assert after[..|after| - 1] == partial[..|partial| - 1][i := Some(b)];
    }
  }

  lemma {:induction false} NothingReceived(n: nat)
    ensures Received(Unknown(n)) == 0
  {
    if n > 0 {
      NothingReceived(n - 1);
      assert Unknown(n)[..n - 1] == Unknown(n - 1);
    }
  }

  // ---------- The buffer and its bitmap ----------

  predicate BitmapAt(bitmap: seq<byte>, i: nat)
    requires i / 8 < |bitmap|
  {
    Bit(bitmap[i / 8], i % 8)
  }

  function PartialOf(bytes: seq<byte>, bitmap: seq<byte>, n: nat): (partial: Partial)
    requires n <= |bytes| && n <= 8 * |bitmap|
    ensures |partial| == n
    ensures forall i | 0 <= i < n :: partial[i] == if BitmapAt(bitmap, i) then Some(bytes[i]) else None
  {
    seq(n, i requires 0 <= i < n => if BitmapAt(bitmap, i) then Some(bytes[i]) else None)
  }

  lemma BitmapChange(bitmap: seq<byte>, i: nat, j: nat)
    requires i / 8 < |bitmap| && j / 8 < |bitmap|
    ensures bitmap[i / 8] < Two(8) && SetBit(bitmap[i / 8], i % 8, 8) < 256
    ensures BitmapAt(bitmap[i / 8 := SetBit(bitmap[i / 8], i % 8, 8)], j) <==> j == i || BitmapAt(bitmap, j)
  {
    TwoEight();
    if j / 8 == i / 8 { SetBitSets(bitmap[i / 8], i % 8, 8, j % 8); }
  }

  /** The byte buffer, received bitmap and counter both assemblers are built on. */
  class FragmentBuffer {
    const bytes: array<byte>
    const bitmap: array<byte>
    var expected: nat
    var receivedBytes: nat

    ghost predicate Valid()
      reads this, bytes, bitmap
    {
      && bytes != bitmap
      && expected <= bytes.Length && bytes.Length <= 8 * bitmap.Length
      && receivedBytes == Received(Contents())
    }

    ghost function Contents(): (partial: Partial)
      reads this, bytes, bitmap
      requires expected <= bytes.Length && expected <= 8 * bitmap.Length
      ensures |partial| == expected
    {
      PartialOf(bytes[..], bitmap[..], expected)
    }

    constructor (capacity: nat)
      requires capacity % 8 == 0
      ensures Valid() && fresh(bytes) && fresh(bitmap) && bytes.Length == capacity
      ensures expected == 0
    {
      bytes := new byte[capacity](_ => 0);
      bitmap := new byte[capacity / 8](_ => 0);
      expected, receivedBytes := 0, 0;
    }

    method Reset(n: nat)
      requires Valid() && n <= bytes.Length
      modifies this, bytes, bitmap
      ensures Valid() && expected == n && Contents() == Unknown(n)
    {
      forall i | 0 <= i < bytes.Length { bytes[i] := 0; }
      forall i | 0 <= i < bitmap.Length { bitmap[i] := 0; }
      expected, receivedBytes := n, 0;
      forall i | 0 <= i < n ensures Contents()[i].None? { ZeroHasNoBit(i % 8); }
      assert Contents() == Unknown(n);
      NothingReceived(n);
    }

    /** All or nothing: the whole fragment is compared before a byte of it is stored. */
    method Accept(f: Fragment) returns (r: AcceptResult)
      requires Valid()
      modifies this, bytes, bitmap
      ensures Valid() && expected == old(expected)
      ensures r == Verdict(old(Contents()), f)
      ensures Contents() == Step(old(Contents()), f)
    {
      hide Received, Bit, PartialOf;
      if f.data == [] { return InvalidArgument; }
      if |f.data| > FRAGMENT_MAX || f.offset + |f.data| > expected { return OutOfBounds; }
      var agrees := Compare(f);
      if !agrees { return Conflict; }
      ghost var before := Contents();
      MergeNothing(before, f);
      hide Merge, Agrees;
      for index := 0 to |f.data|
        invariant Valid() && expected == old(expected)
        invariant Contents() == Merge(before, f.(data := f.data[..index]))
      {
        MergeOneMore(before, f, index);
        Store(f.offset + index, f.data[index]);
      }
      assert f.data[..|f.data|] == f.data;
      r := Accepted;
    }

    method Compare(f: Fragment) returns (agrees: bool)
      requires Valid() && f.offset + |f.data| <= expected
      ensures agrees <==> Agrees(Contents(), f)
    {
      for index := 0 to |f.data|
        invariant forall i | 0 <= i < index ::
          Contents()[f.offset + i].None? || Contents()[f.offset + i] == Some(f.data[i])
      {
        var destination := f.offset + index;
        if Bit(bitmap[destination / 8], destination % 8) && bytes[destination] != f.data[index] {
          assert Contents()[f.offset + index] == Some(bytes[destination]);
          return false;
        }
      }
      agrees := true;
    }

    /** One byte, if it is still missing. */
    method Store(at: nat, b: byte)
      requires Valid() && at < expected
      modifies this`receivedBytes, bytes, bitmap
      ensures Valid()
      ensures Contents() == if old(Contents())[at].None? then old(Contents())[at := Some(b)] else old(Contents())
    {
      hide Received, Bit, SetBit;
      ghost var before := Contents();
      if Bit(bitmap[at / 8], at % 8) { return; }
      assert before[at].None?;
      ghost var was := bitmap[..];
      BitmapChange(was, at, at);
      bytes[at] := b;
      bitmap[at / 8] := SetBit(bitmap[at / 8], at % 8, 8);
      receivedBytes := receivedBytes + 1;
      assert bitmap[..] == was[at / 8 := SetBit(was[at / 8], at % 8, 8)];
      forall i | 0 <= i < expected ensures Contents()[i] == before[at := Some(b)][i] {
        BitmapChange(was, at, i);
      }
      assert Contents() == before[at := Some(b)];
      ReceivedOneMore(before, at, b);
    }

    method FirstMissingOffset() returns (first: nat)
      requires Valid()
      ensures first == FirstMissing(Contents(), 0)
      ensures first == expected <==> receivedBytes == expected
    {
      ReceivedBounds(Contents());
      first := 0;
      while first < expected && Bit(bitmap[first / 8], first % 8)
        invariant first <= expected
        invariant FirstMissing(Contents(), first) == FirstMissing(Contents(), 0)
      {
        first := first + 1;
      }
    }

    /** The unit, once every byte of it has arrived. */
    method Data() returns (data: seq<byte>)
      requires Valid() && receivedBytes == expected
      ensures Whole(Contents()) && data == Known(Contents())
    {
      ReceivedBounds(Contents());
      data := bytes[..expected];
    }
  }

  lemma MergeNothing(partial: Partial, f: Fragment)
    requires f.offset <= |partial|
    ensures Merge(partial, f.(data := f.data[..0])) == partial
  {
  }

  lemma MergeOneMore(partial: Partial, f: Fragment, index: nat)
    requires f.offset + |f.data| <= |partial| && index < |f.data| && Agrees(partial, f)
    ensures var before := Merge(partial, f.(data := f.data[..index]));
            var at := f.offset + index;
            Merge(partial, f.(data := f.data[..index + 1]))
            == if before[at].None? then before[at := Some(f.data[index])] else before
  {
  }
}
