/** EIAD resources: IMA ADPCM in frames of 10 ms, decoded all at once or as they arrive. */
module Eiad {
  import opened Bytes

  const HEADER_BYTES: nat := 20
  const FRAME_HEADER: nat := 6
  const FRAME_SAMPLES: nat := 480
  const STEPS: nat := 89
  const SAMPLE_RATE: nat := 48000
  const MAX_BYTES: nat := 4 * 1024 * 1024
  const MAX_SAMPLES: nat := 48000 * 150

  /** "EIAD" */
  const MAGIC: seq<byte> := [69, 73, 65, 68]

  type Sample = x: int | -32768 <= x <= 32767
  type StepIndex = x: int | 0 <= x < STEPS

  const STEP_TABLE: seq<nat> :=
    [7, 8, 9, 10, 11, 12, 13, 14, 16, 17, 19, 21]
    + [23, 25, 28, 31, 34, 37, 41, 45, 50, 55, 60, 66]
    + [73, 80, 88, 97, 107, 118, 130, 143, 157, 173, 190, 209]
    + [230, 253, 279, 307, 337, 371, 408, 449, 494, 544, 598, 658]
    + [724, 796, 876, 963, 1060, 1166, 1282, 1411, 1552, 1707, 1878, 2066]
    + [2272, 2499, 2749, 3024, 3327, 3660, 4026, 4428, 4871, 5358, 5894, 6484]
    + [7132, 7845, 8630, 9493, 10442, 11487, 12635, 13899, 15289, 16818, 18500, 20350]
    + [22385, 24623, 27086, 29794, 32767]

  const INDEX_DELTA: seq<int> := [-1, -1, -1, -1, 2, 4, 6, 8]

  // ---------- One sample ----------

  datatype Predictor = Predictor(value: Sample, index: StepIndex)

  /** The three magnitude bits each add a shifted step. */
  function Difference(step: nat, magnitude: nat): nat
    requires magnitude < 8
  {
    step / 8 + (if magnitude % 2 == 1 then step / 4 else 0)
             + (if magnitude / 2 % 2 == 1 then step / 2 else 0)
             + (if magnitude / 4 == 1 then step else 0)
  }

  /** The shifts lose less than three against the exact (2m + 1) / 8 of a step. */
  lemma DifferenceIsClose(step: nat, magnitude: nat)
    requires magnitude < 8
    ensures Difference(step, magnitude) <= (2 * magnitude + 1) * step / 8 <= Difference(step, magnitude) + 2
  {
    var q, r := step / 8, step % 8;
    assert step == 8 * q + r;
    assert step / 2 == 4 * q + r / 2 && step / 4 == 2 * q + r / 4;
    if magnitude < 4 { SmallIsClose(q, r, magnitude); } else { LargeIsClose(q, r, magnitude); }
  }

  lemma SmallIsClose(q: nat, r: nat, magnitude: nat)
    requires magnitude < 4 && r < 8
    ensures Difference(8 * q + r, magnitude) <= (2 * magnitude + 1) * (8 * q + r) / 8 <= Difference(8 * q + r, magnitude) + 2
  {
    match magnitude case 0 => case 1 => case 2 => case _ =>
  }

  lemma LargeIsClose(q: nat, r: nat, magnitude: nat)
    requires 4 <= magnitude < 8 && r < 8
    ensures Difference(8 * q + r, magnitude) <= (2 * magnitude + 1) * (8 * q + r) / 8 <= Difference(8 * q + r, magnitude) + 2
  {
    match magnitude case 4 => case 5 => case 6 => case _ =>
  }

  function Saturate(x: int, low: int, high: int): int
    requires low <= high
  {
    if x < low then low else if x > high then high else x
  }

  /** A code moves the predictor up or down and adapts the step. */
  function Step(p: Predictor, code: nat): Predictor
    requires code < 16
  {
    assert |STEP_TABLE| == STEPS && |INDEX_DELTA| == 8;
    var difference := Difference(STEP_TABLE[p.index], code % 8);
    Predictor(Saturate(if code >= 8 then p.value - difference else p.value + difference, -32768, 32767),
              Saturate(p.index + INDEX_DELTA[code % 8], 0, STEPS - 1))
  }

  /** Three independent bits: an eighth of the step always, then a quarter, a half, all of it. */
  lemma DifferenceBits(step: nat, quarter: bool, half: bool, whole: bool)
    ensures var magnitude := (if quarter then 1 else 0) + (if half then 2 else 0) + (if whole then 4 else 0);
            Difference(step, magnitude) ==
              step / 8 + (if quarter then step / 4 else 0) + (if half then step / 2 else 0) + (if whole then step else 0)
  {
  }

  /** A tenth more, to the next integer or the one after it. */
  predicate TenthMore(step: nat, next: nat) { 11 * step / 10 <= next <= 11 * step / 10 + 1 }

  predicate GrowsAt(table: seq<nat>, i: nat) { i + 1 < |table| && TenthMore(table[i], table[i + 1]) && table[i] < table[i + 1] }

  /** The steps start at 7, each is a tenth larger than the one before, and the last one, cut
      off there, is the largest sample. */
  lemma StepsGrow(i: nat)
    requires i + 2 < STEPS
    ensures GrowsAt(STEP_TABLE, i)
    ensures |STEP_TABLE| == STEPS && STEP_TABLE[0] == 7 && STEP_TABLE[STEPS - 1] == 32767
  {
    hide GrowsAt;
    if i < 22 { StepsGrowIn1(i); } else if i < 44 { StepsGrowIn2(i); } else if i < 66 { StepsGrowIn3(i); } else { StepsGrowIn4(i); }
  }

  lemma StepsGrowIn1(i: nat)
    requires i < 22
    ensures GrowsAt(STEP_TABLE, i)
  {
  }

  lemma StepsGrowIn2(i: nat)
    requires 22 <= i < 44
    ensures GrowsAt(STEP_TABLE, i)
  {
  }

  lemma StepsGrowIn3(i: nat)
    requires 44 <= i < 66
    ensures GrowsAt(STEP_TABLE, i)
  {
  }

  lemma StepsGrowIn4(i: nat)
    requires 66 <= i < 87
    ensures GrowsAt(STEP_TABLE, i)
  {
  }

  /** Small magnitudes shrink the step by one place, larger ones grow it by two places each;
      the direction of the code does not matter, and the place stays in the table. */
  lemma IndexMoves(p: Predictor, code: nat)
    requires code < 16
    ensures var m := code % 8;
            var moved := p.index + if m <= 3 then -1 else 2 * (m - 3);
            Step(p, code).index == if moved < 0 then 0 else if moved > 88 then 88 else moved
  {
    hide STEP_TABLE, Difference;
  }

  /** The sample moves by the difference of its step, up for codes below eight and down for
      the others, and stops at the ends of 16 bits. */
  lemma ValueMoves(p: Predictor, code: nat)
    requires code < 16
    ensures |STEP_TABLE| == STEPS
    ensures var d := Difference(STEP_TABLE[p.index], if code < 8 then code else code - 8);
            && (code < 8 ==> Step(p, code).value == if p.value + d > 32767 then 32767 else p.value + d)
            && (code >= 8 ==> Step(p, code).value == if p.value - d < -32768 then -32768 else p.value - d)
  {
    hide Difference;
  }

  /** The sign bit only chooses the direction. */
  lemma SignMirrors(p: Predictor, magnitude: nat)
    requires magnitude < 8
    ensures Step(p, magnitude).value >= p.value >= Step(p, magnitude + 8).value
    ensures Step(p, magnitude).index == Step(p, magnitude + 8).index
  {
  }

  // ---------- One frame ----------

  function Le16(a: seq<byte>, at: nat): (v: nat)
    requires at + 2 <= |a|
    ensures v < 0x1_0000
  {
    var low: int, high: int := a[at], a[at + 1];
    low + 256 * high
  }

  function Le32(a: seq<byte>, at: nat): (v: nat)
    requires at + 4 <= |a|
    ensures v < 0x1_0000_0000
  {
    Le16(a, at) + 0x1_0000 * Le16(a, at + 2)
  }

  function Signed16(v: nat): Sample
    requires v < 0x1_0000
  {
    if v < 0x8000 then v else v - 0x1_0000
  }

  /** The nibble behind sample `k`, low nibble first. */
  function Code(payload: seq<byte>, k: nat): (code: nat)
    requires 1 <= k && (k - 1) / 2 < |payload|
    ensures code < 16
  {
    if (k - 1) % 2 == 0 then payload[(k - 1) / 2] % 16 else payload[(k - 1) / 2] / 16
  }

  /** The predictor after sample `k`. */
  function After(start: Predictor, payload: seq<byte>, k: nat): Predictor
    requires k <= 2 * |payload|
  {
    if k == 0 then start else Step(After(start, payload, k - 1), Code(payload, k))
  }

  function FramePcm(start: Predictor, payload: seq<byte>, count: nat): (pcm: seq<Sample>)
    requires 0 < count && count / 2 <= |payload|
    ensures |pcm| == count
  {
    seq(count, k requires 0 <= k < count => After(start, payload, k).value)
  }

  /** A frame of `expected` samples starts at `at` and ends inside the resource. */
  predicate FrameValid(a: seq<byte>, at: nat, expected: nat) {
    && 0 < expected <= FRAME_SAMPLES
    && at + FRAME_HEADER <= |a|
    && Le16(a, at) == expected
    && a[at + 4] < STEPS && a[at + 5] == 0
    && FrameEnd(at, expected) <= |a|
    && (expected % 2 == 0 ==> a[FrameEnd(at, expected) - 1] < 16)
  }

  function FrameEnd(at: nat, count: nat): nat { at + FRAME_HEADER + count / 2 }

  function FrameAt(a: seq<byte>, at: nat, count: nat): (pcm: seq<Sample>)
    requires FrameValid(a, at, count)
    ensures |pcm| == count
  {
    FramePcm(Predictor(Signed16(Le16(a, at + 2)), a[at + 4]), a[at + FRAME_HEADER..FrameEnd(at, count)], count)
  }

  // ---------- A whole resource ----------

  datatype Info = Info(frames: nat, samples: nat)

  predicate HeaderShaped(a: seq<byte>) {
    && |a| >= HEADER_BYTES
    && a[..4] == MAGIC && a[4] == 1 && a[5] == 1
    && Le32(a, 6) == SAMPLE_RATE && Le16(a, 10) == FRAME_SAMPLES && Le16(a, 18) == HEADER_BYTES
    && Le16(a, 12) != 0 && Le32(a, 14) != 0
  }

  function InfoOf(a: seq<byte>): Info
    requires |a| >= HEADER_BYTES
  {
    Info(Le16(a, 12), Le32(a, 14))
  }

  function Expected(remaining: nat): nat { Min(FRAME_SAMPLES, remaining) }

  /** `frames` full frames and a last one, `remaining` samples in all, up to the last byte. */
  predicate FramesValid(a: seq<byte>, at: nat, remaining: nat, frames: nat)
    decreases frames
  {
    if frames == 0 then at == |a| && remaining == 0
    else
      && FrameValid(a, at, Expected(remaining))
      && FramesValid(a, FrameEnd(at, Expected(remaining)), remaining - Expected(remaining), frames - 1)
  }

  /** The batch result. */
  function Pcm(a: seq<byte>, at: nat, remaining: nat, frames: nat): (pcm: seq<Sample>)
    requires FramesValid(a, at, remaining, frames)
    ensures |pcm| == remaining
    decreases frames
  {
    if frames == 0 then []
    else
      var count := Expected(remaining);
      FrameAt(a, at, count) + Pcm(a, FrameEnd(at, count), remaining - count, frames - 1)
  }

  predicate ResourceValid(a: seq<byte>) {
    HeaderShaped(a) && FramesValid(a, HEADER_BYTES, InfoOf(a).samples, InfoOf(a).frames)
  }

  /** The first of several frames, taken apart. */
  lemma FirstFrame(a: seq<byte>, at: nat, remaining: nat, frames: nat)
    requires FramesValid(a, at, remaining, frames) && frames > 0
    ensures var count := Expected(remaining);
            && FrameValid(a, at, count)
            && FramesValid(a, FrameEnd(at, count), remaining - count, frames - 1)
            && Pcm(a, at, remaining, frames) == FrameAt(a, at, count) + Pcm(a, FrameEnd(at, count), remaining - count, frames - 1)
  {
  }

  lemma FirstFrameDecides(a: seq<byte>, at: nat, remaining: nat, frames: nat)
    requires frames > 0 && FrameValid(a, at, Expected(remaining))
    ensures FramesValid(a, at, remaining, frames)
            <==> FramesValid(a, FrameEnd(at, Expected(remaining)), remaining - Expected(remaining), frames - 1)
  {
  }

  lemma {:induction false} FrameCount(a: seq<byte>, at: nat, remaining: nat, frames: nat)
    requires FramesValid(a, at, remaining, frames) && frames > 0
    ensures remaining > 0 && frames == 1 + (remaining - 1) / FRAME_SAMPLES
    ensures at + FRAME_HEADER <= |a|
    decreases frames
  {
    if frames > 1 {
      FrameCount(a, FrameEnd(at, Expected(remaining)), remaining - Expected(remaining), frames - 1);
    }
  }

  /** Decodes one frame into the front of a caller's buffer. */
  method DecodeInto(output: array<Sample>, start: Predictor, payload: seq<byte>, count: nat)
    requires 0 < count <= output.Length && count / 2 <= |payload|
    modifies output
    ensures output[..count] == FramePcm(start, payload, count)
    ensures forall i | count <= i < output.Length :: output[i] == old(output[i])
  {
    hide Step, Code, STEP_TABLE;
    var p := start;
    output[0] := p.value;
    for k := 1 to count
      invariant p == After(start, payload, k - 1)
      invariant forall i | 0 <= i < k :: output[i] == After(start, payload, i).value
      invariant forall i | count <= i < output.Length :: output[i] == old(output[i])
    {
      p := Step(p, Code(payload, k));
      output[k] := p.value;
    }
  }

  // ---------- Batch decoder ----------

  datatype BatchStatus = BatchOk | BatchEnd | BatchNotReady | BatchTooSmall | InvalidAsset

  /** Validates everything first, then decodes frame by frame. */
  class ImaAdpcmDecoder {
    var encoded: seq<byte>
    var ready: bool
    var nextOffset: nat
    var decodedSamples: nat
    var nextFrame: nat

    ghost predicate Valid()
      reads this
    {
      ready ==>
        && |encoded| >= HEADER_BYTES && ResourceValid(encoded) && nextFrame <= InfoOf(encoded).frames && decodedSamples <= InfoOf(encoded).samples
        && FramesValid(encoded, nextOffset, InfoOf(encoded).samples - decodedSamples, InfoOf(encoded).frames - nextFrame)
    }

    /** What is still to come. */
    ghost function Rest(): seq<Sample>
      reads this
      requires Valid() && ready
    {
      Pcm(encoded, nextOffset, InfoOf(encoded).samples - decodedSamples, InfoOf(encoded).frames - nextFrame)
    }

    constructor ()
      ensures Valid() && !ready
    {
      encoded, ready, nextOffset, decodedSamples, nextFrame := [], false, 0, 0, 0;
    }

    /** The loop over all frames accepts exactly the valid resources. */
    method Open(a: seq<byte>) returns (r: BatchStatus)
      modifies this
      ensures Valid()
      ensures r.BatchOk? <==> ResourceValid(a)
      ensures r.BatchOk? || r.InvalidAsset?
      ensures ready == r.BatchOk?
      ensures ready ==> encoded == a && Rest() == Pcm(a, HEADER_BYTES, InfoOf(a).samples, InfoOf(a).frames)
    {
      encoded, ready, nextOffset, decodedSamples, nextFrame := [], false, 0, 0, 0;
      if !HeaderShaped(a) { return InvalidAsset; }
      var info := InfoOf(a);
      var offset: nat, observed: nat := HEADER_BYTES, 0;
      for frame := 0 to info.frames
        invariant offset <= |a| && !ready && nextFrame == 0 && decodedSamples == 0
        invariant observed <= info.samples ==>
          (ResourceValid(a) <==> FramesValid(a, offset, info.samples - observed, info.frames - frame))
        invariant observed > info.samples ==> !ResourceValid(a)
      {
        ghost var left := info.frames - frame;
        var more := frame + 1 < info.frames;
        if offset + FRAME_HEADER > |a| { return InvalidAsset; }
        var count := Le16(a, offset);
        if !FrameAcceptable(a, offset, count, more) {
          if observed <= info.samples { UnacceptableIsInvalid(a, offset, info.samples - observed, left); }
          return InvalidAsset;
        }
        if observed <= info.samples { AcceptableStep(a, offset, info.samples - observed, left); }
        observed := observed + count;
        offset := FrameEnd(offset, count);
      }
      if offset != |a| || observed != info.samples { return InvalidAsset; }
      encoded, nextOffset, ready := a, HEADER_BYTES, true;
      r := BatchOk;
    }

    /** The next frame, whole, or nothing. */
    method DecodeNext(output: array<Sample>) returns (r: BatchStatus, count: nat)
      requires Valid()
      modifies this, output
      ensures Valid() && ready == old(ready) && encoded == old(encoded)
      ensures r.BatchNotReady? <==> !ready
      ensures r.BatchEnd? <==> ready && old(Rest()) == []
      ensures r.BatchTooSmall? ==> ready && output.Length < FRAME_SAMPLES
      ensures !r.InvalidAsset?
      ensures r.BatchOk? ==>
                && 0 < count <= output.Length
                && old(Rest()) == output[..count] + Rest()
      ensures !r.BatchOk? ==> count == 0 && (ready ==> Rest() == old(Rest())) && output[..] == old(output[..])
    {
      hide FramesValid, Pcm, ResourceValid, FramePcm, STEP_TABLE, FrameValid, Le16, InfoOf, FrameAt;
      if !ready { return BatchNotReady, 0; }
      var info := InfoOf(encoded);
      ghost var remaining, frames := info.samples - decodedSamples, info.frames - nextFrame;
      if nextFrame >= info.frames {
        NoFrameLeft(encoded, nextOffset, remaining);
        return BatchEnd, 0;
      }
      FrameCount(encoded, nextOffset, remaining, frames);
      FirstFrame(encoded, nextOffset, remaining, frames);
      CountField(encoded, nextOffset, Expected(remaining));
      count := Le16(encoded, nextOffset);
      if output.Length < count { return BatchTooSmall, 0; }
      TakeFrame(output, count);
      r := BatchOk;
    }

    method TakeFrame(output: array<Sample>, count: nat)
      requires FrameValid(encoded, nextOffset, count) && count <= output.Length
      modifies this`nextOffset, this`decodedSamples, this`nextFrame, output
      ensures output[..count] == FrameAt(encoded, old(nextOffset), count)
      ensures nextOffset == FrameEnd(old(nextOffset), count) && decodedSamples == old(decodedSamples) + count
      ensures nextFrame == old(nextFrame) + 1
    {
      hide FramePcm, STEP_TABLE;
      DecodeInto(output, Predictor(Signed16(Le16(encoded, nextOffset + 2)), encoded[nextOffset + 4]),
                 encoded[nextOffset + FRAME_HEADER..FrameEnd(nextOffset, count)], count);
      nextOffset, decodedSamples, nextFrame := FrameEnd(nextOffset, count), decodedSamples + count, nextFrame + 1;
    }
  }

  lemma CountField(a: seq<byte>, at: nat, count: nat)
    requires FrameValid(a, at, count)
    ensures at + 2 <= |a| && Le16(a, at) == count && 0 < count <= FRAME_SAMPLES
  {
  }

  lemma NoFrameLeft(a: seq<byte>, at: nat, remaining: nat)
    requires FramesValid(a, at, remaining, 0)
    ensures Pcm(a, at, remaining, 0) == []
  {
  }

  /** What the batch validator asks of one frame. */
  predicate FrameAcceptable(a: seq<byte>, at: nat, count: nat, more: bool)
    requires at + FRAME_HEADER <= |a|
  {
    && 0 < count <= FRAME_SAMPLES && (more ==> count == FRAME_SAMPLES)
    && a[at + 4] < STEPS && a[at + 5] == 0
    && FrameEnd(at, count) <= |a|
    && (count % 2 == 0 ==> a[FrameEnd(at, count) - 1] < 16)
  }

  lemma UnacceptableIsInvalid(a: seq<byte>, at: nat, remaining: nat, frames: nat)
    requires at + FRAME_HEADER <= |a| && frames > 0
    requires !FrameAcceptable(a, at, Le16(a, at), frames > 1)
    ensures !FramesValid(a, at, remaining, frames)
  {
    if FramesValid(a, at, remaining, frames) && frames > 1 {
      FrameCount(a, FrameEnd(at, Expected(remaining)), remaining - Expected(remaining), frames - 1);
    }
  }

  /** A full frame before others, or whatever the last one is, leaves the same question. */
  lemma AcceptableStep(a: seq<byte>, at: nat, remaining: nat, frames: nat)
    requires at + FRAME_HEADER <= |a| && frames > 0
    requires FrameAcceptable(a, at, Le16(a, at), frames > 1)
    ensures var count := Le16(a, at);
            && (count <= remaining ==>
                  (FramesValid(a, at, remaining, frames) <==> FramesValid(a, FrameEnd(at, count), remaining - count, frames - 1)))
            && (count > remaining ==> !FramesValid(a, at, remaining, frames))
  {
  }

  /** Exactly the last frame ends the resource. */
  lemma LastFrame(a: seq<byte>, at: nat, remaining: nat, frames: nat)
    requires FramesValid(a, at, remaining, frames) && frames > 0
    ensures var count := Expected(remaining);
            && (frames == 1 ==> FrameEnd(at, count) == |a| && count == remaining)
            && (frames > 1 ==> FrameEnd(at, count) < |a| && count < remaining)
  {
    if frames > 1 { FrameCount(a, FrameEnd(at, Expected(remaining)), remaining - Expected(remaining), frames - 1); }
  }

  // ---------- Streaming decoder ----------

  datatype ReadResult = ReadOk | End | NotReady | IoError | InvalidResource | OutputTooSmall

  /** A resource whose bytes become readable over time; any read may also fail. */
  class Source {
    const bytes: seq<byte>
    var published: nat

    constructor (bytes: seq<byte>)
      ensures this.bytes == bytes && published == 0
    {
      this.bytes := bytes;
      published := 0;
    }

    method Read(offset: nat, length: nat) returns (r: ReadResult, data: seq<byte>)
      requires offset + length <= |bytes|
      ensures r.ReadOk? || r.NotReady? || r.IoError?
      ensures r.ReadOk? ==> data == bytes[offset..offset + length]
      ensures r.NotReady? ==> offset + length > published
    {
      data := [];
      if offset + length > published { return NotReady, data; }
      var fault: bool := *;
      if fault { return IoError, data; }
      r, data := ReadOk, bytes[offset..offset + length];
    }
  }

  /** Checks each frame when it is needed and keeps its place on every failure. */
  class SoundAssetStreamDecoder {
    const source: Source
    var info: Info
    var nextOffset: nat
    var decodedSamples: nat
    var nextFrame: nat
    /** Everything returned since the last reset. */
    ghost var played: seq<Sample>

    ghost predicate Valid()
      reads this
    {
      && |source.bytes| >= HEADER_BYTES && info == InfoOf(source.bytes) && HeaderShaped(source.bytes)
      && nextFrame <= info.frames && decodedSamples <= info.samples && |played| == decodedSamples
      && (ResourceValid(source.bytes) <==>
            FramesValid(source.bytes, nextOffset, info.samples - decodedSamples, info.frames - nextFrame))
      && (ResourceValid(source.bytes) ==>
            played + Pcm(source.bytes, nextOffset, info.samples - decodedSamples, info.frames - nextFrame) == Whole())
    }

    /** The batch result of the same resource. */
    ghost function Whole(): seq<Sample>
      reads this
      requires |source.bytes| >= HEADER_BYTES && ResourceValid(source.bytes)
    {
      Pcm(source.bytes, HEADER_BYTES, InfoOf(source.bytes).samples, InfoOf(source.bytes).frames)
    }

    /** Opening needs only the header. */
    constructor (source: Source)
      requires |source.bytes| >= HEADER_BYTES && HeaderOpens(source.bytes)
      ensures Valid() && this.source == source && played == []
    {
      this.source := source;
      info := InfoOf(source.bytes);
      nextOffset, decodedSamples, nextFrame, played := HEADER_BYTES, 0, 0, [];
    }

    method Reset()
      requires Valid()
      modifies this
      ensures Valid() && played == []
    {
      hide FramesValid, Pcm, HeaderShaped;
      nextOffset, decodedSamples, nextFrame, played := HEADER_BYTES, 0, 0, [];
    }

    /** One frame in order, or no change at all. */
    method DecodeNext(output: array<Sample>) returns (r: ReadResult, count: nat)
      requires Valid()
      modifies this, output
      ensures Valid()
      ensures r.ReadOk? ==> 0 < count <= output.Length && played == old(played) + output[..count]
      ensures !r.ReadOk? ==>
                count == 0 && played == old(played) && nextOffset == old(nextOffset) && nextFrame == old(nextFrame)
                && decodedSamples == old(decodedSamples) && output[..] == old(output[..])
      ensures ResourceValid(source.bytes) ==> !r.InvalidResource? && (r.End? <==> old(nextFrame) == info.frames)
      ensures r.End? ==> ResourceValid(source.bytes) && played == Whole()
      ensures r.NotReady? ==> source.published < |source.bytes|
      ensures r.OutputTooSmall? ==> output.Length < FRAME_SAMPLES
    {
      count := 0;
      if nextFrame >= info.frames {
        r := if decodedSamples == info.samples && nextOffset == |source.bytes| then End else InvalidResource;
        return;
      }
      if output.Length < FRAME_SAMPLES { return OutputTooSmall, 0; }
      if ResourceValid(source.bytes) {
        FrameCount(source.bytes, nextOffset, info.samples - decodedSamples, info.frames - nextFrame);
      }
      if decodedSamples >= info.samples || nextOffset + FRAME_HEADER > |source.bytes| {
        return InvalidResource, 0;
      }
      r, count := ReadFrame(output);
    }

    /** Both reads, all checks, then the samples; the place moves last. */
    method ReadFrame(output: array<Sample>) returns (r: ReadResult, count: nat)
      requires Valid() && output.Length >= FRAME_SAMPLES
      requires nextFrame < info.frames && decodedSamples < info.samples && nextOffset + FRAME_HEADER <= |source.bytes|
      modifies this, output
      ensures Valid()
      ensures r.ReadOk? ==> 0 < count <= output.Length && played == old(played) + output[..count]
      ensures !r.ReadOk? ==>
                count == 0 && played == old(played) && nextOffset == old(nextOffset) && nextFrame == old(nextFrame)
                && decodedSamples == old(decodedSamples) && output[..] == old(output[..])
      ensures r.ReadOk? || r.NotReady? || r.IoError? || r.InvalidResource?
      ensures r.NotReady? ==> source.published < |source.bytes|
      ensures ResourceValid(source.bytes) ==> !r.InvalidResource?
    {
      hide FramesValid, Pcm, HeaderShaped, FramePcm, STEP_TABLE;
      var a := source.bytes;
      var remaining := info.samples - decodedSamples;
      if ResourceValid(a) { FirstFrame(a, nextOffset, remaining, info.frames - nextFrame); }
      var header;
      r, header := source.Read(nextOffset, FRAME_HEADER);
      if !r.ReadOk? { return r, 0; }
      var n := Le16(header, 0);
      assert n == Le16(a, nextOffset) && header[4] == a[nextOffset + 4] && header[5] == a[nextOffset + 5];
      if n == 0 || n != Expected(remaining) || header[4] >= STEPS || header[5] != 0 || FrameEnd(nextOffset, n) > |a| {
        return InvalidResource, 0;
      }
      assert Le16(header, 2) == Le16(a, nextOffset + 2);
      r, count := ReadPayload(output, Predictor(Signed16(Le16(header, 2)), header[4]), n);
    }

    method ReadPayload(output: array<Sample>, start: Predictor, n: nat) returns (r: ReadResult, count: nat)
      requires Valid() && output.Length >= FRAME_SAMPLES
      requires nextFrame < info.frames && decodedSamples < info.samples && nextOffset + FRAME_HEADER <= |source.bytes|
      requires n == Expected(info.samples - decodedSamples) == Le16(source.bytes, nextOffset) && FrameEnd(nextOffset, n) <= |source.bytes|
      requires source.bytes[nextOffset + 4] < STEPS && source.bytes[nextOffset + 5] == 0
      requires start == Predictor(Signed16(Le16(source.bytes, nextOffset + 2)), source.bytes[nextOffset + 4])
      modifies this, output
      ensures Valid()
      ensures r.ReadOk? ==> 0 < count <= output.Length && played == old(played) + output[..count]
      ensures !r.ReadOk? ==>
                count == 0 && played == old(played) && nextOffset == old(nextOffset) && nextFrame == old(nextFrame)
                && decodedSamples == old(decodedSamples) && output[..] == old(output[..])
      ensures r.ReadOk? || r.NotReady? || r.IoError? || r.InvalidResource?
      ensures r.NotReady? ==> source.published < |source.bytes|
      ensures ResourceValid(source.bytes) ==> !r.InvalidResource?
    {
      hide FramesValid, Pcm, HeaderShaped, FramePcm, STEP_TABLE, Le16;
      var a := source.bytes;
      var remaining := info.samples - decodedSamples;
      ghost var frames := info.frames - nextFrame;
      if ResourceValid(a) {
        FirstFrame(a, nextOffset, remaining, frames);
        LastFrame(a, nextOffset, remaining, frames);
      }
      var payload;
      r, payload := source.Read(nextOffset + FRAME_HEADER, n / 2);
      if !r.ReadOk? { return r, 0; }
      assert payload == a[nextOffset + FRAME_HEADER..FrameEnd(nextOffset, n)];
      if n % 2 == 0 && payload[n / 2 - 1] >= 16 { return InvalidResource, 0; }
      var end := FrameEnd(nextOffset, n);
      var final := nextFrame + 1 == info.frames;
      if (final && (end != |a| || n != remaining)) || (!final && (end >= |a| || n >= remaining)) {
        return InvalidResource, 0;
      }
      assert FrameValid(a, nextOffset, n);
      Play(output, start, payload, n);
      return ReadOk, n;
    }

    method Play(output: array<Sample>, start: Predictor, payload: seq<byte>, n: nat)
      requires Valid() && output.Length >= FRAME_SAMPLES && nextFrame < info.frames
      requires n == Expected(info.samples - decodedSamples) && FrameValid(source.bytes, nextOffset, n)
      requires start == Predictor(Signed16(Le16(source.bytes, nextOffset + 2)), source.bytes[nextOffset + 4])
      requires payload == source.bytes[nextOffset + FRAME_HEADER..FrameEnd(nextOffset, n)]
      modifies this, output
      ensures Valid() && 0 < n <= output.Length && played == old(played) + output[..n]
    {
      hide FramesValid, Pcm, HeaderShaped, FramePcm, STEP_TABLE, Le16;
      ghost var a, remaining, frames := source.bytes, info.samples - decodedSamples, info.frames - nextFrame;
      FirstFrameDecides(a, nextOffset, remaining, frames);
      if ResourceValid(a) { FirstFrame(a, nextOffset, remaining, frames); }
      DecodeInto(output, start, payload, n);
      assert output[..n] == FrameAt(a, nextOffset, n);
      played := played + output[..n];
      nextOffset, decodedSamples, nextFrame := FrameEnd(nextOffset, n), decodedSamples + n, nextFrame + 1;
    }

    /** Under any schedule what was played is a prefix of the batch result, and all of it at
        the end. */
    lemma PlayedIsPrefix()
      requires Valid() && ResourceValid(source.bytes)
      ensures played <= Whole()
      ensures nextFrame == info.frames ==> played == Whole() && |played| == info.samples
    {
    }
  }

  /** The limits and the frame count the streaming decoder asks of a header. */
  predicate HeaderOpens(a: seq<byte>) {
    && HeaderShaped(a) && |a| <= MAX_BYTES
    && InfoOf(a).samples <= MAX_SAMPLES
    && InfoOf(a).frames == 1 + (InfoOf(a).samples - 1) / FRAME_SAMPLES
  }

  /** Inside its limits the streaming decoder opens every resource the batch decoder accepts. */
  lemma ValidOpens(a: seq<byte>)
    requires ResourceValid(a) && |a| <= MAX_BYTES && InfoOf(a).samples <= MAX_SAMPLES
    ensures HeaderOpens(a)
  {
    FrameCount(a, HEADER_BYTES, InfoOf(a).samples, InfoOf(a).frames);
  }
}
