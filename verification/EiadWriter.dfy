/** Sounds written as EIAD resources, independently of the decoders that read them. */
module EiadWriter {
  import opened Bytes
  import opened Eiad

  /** One frame: where the predictor starts, and a code for every further sample. */
  datatype Track = Track(start: Predictor, codes: seq<nat>)

  predicate CodesFit(codes: seq<nat>) { forall i | 0 <= i < |codes| :: codes[i] < 16 }

  predicate Writable(f: Track) { |f.codes| < 480 && CodesFit(f.codes) }

  /** Two codes a byte, the earlier one in the low nibble; an odd last one stands alone. */
  function Packed(codes: seq<nat>): (payload: seq<byte>)
    requires CodesFit(codes)
    ensures |payload| == (|codes| + 1) / 2
  {
    if codes == [] then []
    else if |codes| == 1 then [codes[0]]
    else [codes[0] + 16 * codes[1]] + Packed(codes[2..])
  }

  /** One packed byte in front moves every later code two places on. */
  lemma CodeBehind(first: byte, low: nat, high: nat, rest: seq<byte>, k: nat)
    requires low < 16 && high < 16 && first == low + 16 * high && k / 2 < |rest| + 1
    ensures Code([first] + rest, k + 1) == if k == 0 then low else if k == 1 then high else Code(rest, k - 1)
  {
  }

  lemma CodeAlone(only: byte)
    requires only < 16
    ensures Code([only], 1) == only
  {
  }

  lemma {:induction false} PackedAt(codes: seq<nat>, k: nat)
    requires CodesFit(codes) && k < |codes|
    ensures Code(Packed(codes), k + 1) == codes[k]
    ensures |codes| % 2 == 1 ==> Packed(codes)[|codes| / 2] == codes[|codes| - 1]
  {
    if |codes| >= 2 {
      hide Code;
      var rest := codes[2..];
      assert forall i | 0 <= i < |rest| :: rest[i] == codes[i + 2];
      if k >= 2 { PackedAt(rest, k - 2); } else if rest != [] { PackedAt(rest, 0); }
      CodeBehind(codes[0] + 16 * codes[1], codes[0], codes[1], Packed(rest), k);
    } else {
      CodeAlone(codes[0]);
    }
  }

  /** The codes the decoders read from a payload. */
  function CodesOf(payload: seq<byte>): (codes: seq<nat>)
    ensures |codes| == 2 * |payload| && CodesFit(codes)
    ensures forall k | 0 <= k < |codes| :: codes[k] == Code(payload, k + 1)
  {
    seq(2 * |payload|, k requires 0 <= k < 2 * |payload| => Code(payload, k + 1))
  }

  lemma ByteOfCodes(payload: seq<byte>, i: nat)
    requires i < |payload|
    ensures payload[i] == Code(payload, 2 * i + 1) + 16 * Code(payload, 2 * i + 2)
  {
  }

  lemma LaterCodes(payload: seq<byte>)
    requires payload != []
    ensures CodesOf(payload)[2..] == CodesOf(payload[1..])
  {
    var codes, rest := CodesOf(payload), CodesOf(payload[1..]);
    forall k | 0 <= k < |rest| ensures codes[2..][k] == rest[k] {
      assert payload[1..][k / 2] == payload[k / 2 + 1];
    }
  }

  /** Every payload is the packing of the codes that are read from it. */
  lemma {:induction false} ReadCodesPack(payload: seq<byte>)
    ensures Packed(CodesOf(payload)) == payload
  {
    if payload != [] {
      hide Code, CodesOf;
      ReadCodesPack(payload[1..]);
      LaterCodes(payload);
      ByteOfCodes(payload, 0);
      assert payload == [payload[0]] + payload[1..];
    }
  }

  // ---------- Frames ----------

  /** Sixteen bits, the low byte first. */
  function Word(v: nat): (b: seq<byte>)
    requires v < 0x1_0000
    ensures |b| == 2
  {
    [v % 256, v / 256]
  }

  function Raw(v: Sample): nat { if v < 0 then v + 0x1_0000 else v }

  function FrameBytes(f: Track): (b: seq<byte>)
    requires Writable(f)
  {
    Word(|f.codes| + 1) + Word(Raw(f.start.value)) + [f.start.index, 0] + Packed(f.codes)
  }

  /** The first sample is the predictor's; each code moves it on. */
  function Heard(p: Predictor, codes: seq<nat>): (pcm: seq<Sample>)
    requires CodesFit(codes)
    ensures |pcm| == |codes| + 1
    decreases |codes|
  {
    [p.value] + if codes == [] then [] else Heard(Eiad.Step(p, codes[0]), codes[1..])
  }

  lemma {:induction false} HeardIsAfter(p: Predictor, payload: seq<byte>, codes: seq<nat>, done: nat)
    requires done <= |codes| <= 2 * |payload| && CodesFit(codes)
    requires forall k | 0 <= k < |codes| :: Code(payload, k + 1) == codes[k]
    ensures var pcm := Heard(After(p, payload, done), codes[done..]);
            forall k | done <= k <= |codes| :: pcm[k - done] == After(p, payload, k).value
    decreases |codes| - done
  {
    hide Eiad.Step;
    if done < |codes| {
      HeardIsAfter(p, payload, codes, done + 1);
      assert codes[done..][1..] == codes[done + 1..];
      assert After(p, payload, done + 1) == Eiad.Step(After(p, payload, done), codes[done]);
    }
  }

  /** The fields and the payload of a written frame are where the decoders look for them. */
  lemma FrameFields(a: seq<byte>, at: nat, f: Track)
    requires Writable(f) && at + |FrameBytes(f)| <= |a| && a[at..at + |FrameBytes(f)|] == FrameBytes(f)
    ensures FrameEnd(at, |f.codes| + 1) == at + |FrameBytes(f)|
    ensures Le16(a, at) == |f.codes| + 1 && Signed16(Le16(a, at + 2)) == f.start.value
    ensures a[at + 4] == f.start.index && a[at + 5] == 0
    ensures a[at + FRAME_HEADER..FrameEnd(at, |f.codes| + 1)] == Packed(f.codes)
  {
    hide Packed, CodesFit;
    var b := FrameBytes(f);
    assert forall i | 0 <= i < |b| :: a[at + i] == b[i];
    assert a[at] == b[0] && a[at + 1] == b[1] && a[at + 2] == b[2] && a[at + 3] == b[3] && a[at + 4] == b[4] && a[at + 5] == b[5];
    assert a[at + 6..at + |b|] == b[6..] == Packed(f.codes);
  }

  /** A written frame is valid, and the decoders hear exactly its track. */
  lemma FrameRoundTrip(a: seq<byte>, at: nat, f: Track)
    requires Writable(f) && at + |FrameBytes(f)| <= |a| && a[at..at + |FrameBytes(f)|] == FrameBytes(f)
    ensures FrameEnd(at, |f.codes| + 1) == at + |FrameBytes(f)|
    ensures FrameValid(a, at, |f.codes| + 1) && FrameAt(a, at, |f.codes| + 1) == Heard(f.start, f.codes)
  {
    hide Eiad.Step, After, Code, Le16, Signed16, FrameBytes, Packed, Heard;
    FrameFields(a, at, f);
    var n, payload := |f.codes| + 1, Packed(f.codes);
    if n % 2 == 0 {
      PackedAt(f.codes, 0);
      assert a[FrameEnd(at, n) - 1] == a[at + FRAME_HEADER..FrameEnd(at, n)][|payload| - 1] == f.codes[|f.codes| - 1];
    }
    HeardInFrame(f);
  }

  lemma HeardInFrame(f: Track)
    requires Writable(f)
    ensures FramePcm(f.start, Packed(f.codes), |f.codes| + 1) == Heard(f.start, f.codes)
  {
    hide Eiad.Step, After, Code, Packed, Heard;
    var payload := Packed(f.codes);
    forall k | 0 <= k < |f.codes| ensures Code(payload, k + 1) == f.codes[k] { PackedAt(f.codes, k); }
    StartIsZero(f.start, payload);
    HeardIsAfter(f.start, payload, f.codes, 0);
    assert f.codes[0..] == f.codes;
  }

  lemma StartIsZero(p: Predictor, payload: seq<byte>)
    ensures After(p, payload, 0) == p
  {
  }

  // ---------- Resources ----------

  function Body(tracks: seq<Track>): (b: seq<byte>)
    requires forall i | 0 <= i < |tracks| :: Writable(tracks[i])
  {
    if tracks == [] then [] else FrameBytes(tracks[0]) + Body(tracks[1..])
  }

  function Sound(tracks: seq<Track>): (pcm: seq<Sample>)
    requires forall i | 0 <= i < |tracks| :: Writable(tracks[i])
  {
    if tracks == [] then [] else assert Writable(tracks[0]); Heard(tracks[0].start, tracks[0].codes) + Sound(tracks[1..])
  }

  /** Ten milliseconds in every frame but the last. */
  predicate Regular(tracks: seq<Track>) {
    && (forall i | 0 <= i < |tracks| :: Writable(tracks[i]))
    && forall i | 0 <= i < |tracks| - 1 :: |tracks[i].codes| == 479
  }

  /** "EIAD", version one, one channel, 48 kHz, frames of 480 samples, the two totals, and the
      length of this header. */
  function Header(frames: nat, samples: nat): (b: seq<byte>)
    requires frames < 0x1_0000 && samples < 0x1_0000_0000
    ensures |b| == 20
  {
    [69, 73, 65, 68, 1, 1, 0x80, 0xBB, 0, 0, 0xE0, 1] + Word(frames) + Word(samples % 0x1_0000) + Word(samples / 0x1_0000) + [20, 0]
  }

  /** What the fields of a header can count, and not nothing. */
  predicate Recordable(tracks: seq<Track>) { Regular(tracks) && 0 < |tracks| < 0x1_0000 && |Sound(tracks)| < 0x1_0000_0000 }

  function Resource(tracks: seq<Track>): seq<byte>
    requires Recordable(tracks)
  {
    Header(|tracks|, |Sound(tracks)|) + Body(tracks)
  }

  lemma {:induction false} BodyRoundTrip(a: seq<byte>, at: nat, tracks: seq<Track>)
    requires Regular(tracks) && at <= |a| && a[at..] == Body(tracks)
    ensures FramesValid(a, at, |Sound(tracks)|, |tracks|) && Pcm(a, at, |Sound(tracks)|, |tracks|) == Sound(tracks)
    decreases |tracks|
  {
    hide FrameValid, FrameAt, FrameBytes, Heard, Writable;
    if tracks != [] {
      var f := tracks[0];
      var next := at + |FrameBytes(f)|;
      assert a[at..next] == a[at..][..|FrameBytes(f)|] == FrameBytes(f);
      assert a[next..] == a[at..][|FrameBytes(f)|..] == Body(tracks[1..]);
      FrameRoundTrip(a, at, f);
      assert Regular(tracks[1..]);
      BodyRoundTrip(a, next, tracks[1..]);
      FrameOfTrack(tracks);
    }
  }

  lemma FrameOfTrack(tracks: seq<Track>)
    requires Regular(tracks) && tracks != []
    ensures Expected(|Sound(tracks)|) == |tracks[0].codes| + 1
    ensures |Sound(tracks)| == |tracks[0].codes| + 1 + |Sound(tracks[1..])|
  {
  }

  lemma HeaderFields(a: seq<byte>, frames: nat, samples: nat)
    requires 0 < frames < 0x1_0000 && 0 < samples < 0x1_0000_0000 && |a| >= 20 && a[..20] == Header(frames, samples)
    ensures HeaderShaped(a) && InfoOf(a) == Info(frames, samples)
  {
    var b := Header(frames, samples);
    assert forall i | 0 <= i < 20 :: a[i] == b[i];
    assert a[..4] == [a[0], a[1], a[2], a[3]];
  }

  /** Every regular sound can be written, its resource is valid, and the batch decoder plays
      it sample by sample. */
  lemma ResourceRoundTrip(tracks: seq<Track>)
    requires Recordable(tracks)
    ensures var a := Resource(tracks);
            && ResourceValid(a) && InfoOf(a) == Info(|tracks|, |Sound(tracks)|)
            && Pcm(a, 20, |Sound(tracks)|, |tracks|) == Sound(tracks)
  {
    hide FramesValid, Pcm, Body, Header, HeaderShaped, InfoOf;
    var a := Resource(tracks);
    assert a[20..] == Body(tracks);
    assert a[..20] == Header(|tracks|, |Sound(tracks)|);
    BodyRoundTrip(a, 20, tracks);
    FrameOfTrack(tracks);
    HeaderFields(a, |tracks|, |Sound(tracks)|);
  }

  // ---------- Nothing else is valid ----------

  /** A high nibble of zero is what a missing last code leaves. */
  lemma {:induction false} LastZero(codes: seq<nat>)
    requires CodesFit(codes) && |codes| > 0 && |codes| % 2 == 0 && codes[|codes| - 1] == 0
    ensures CodesFit(codes[..|codes| - 1]) && Packed(codes[..|codes| - 1]) == Packed(codes)
  {
    var most := codes[..|codes| - 1];
    if |codes| > 2 {
      assert most[2..] == codes[2..][..|codes[2..]| - 1];
      LastZero(codes[2..]);
    } else {
      assert most == [codes[0]] && codes[2..] == [];
    }
  }

  /** The track a valid frame was written from. */
  function TrackAt(a: seq<byte>, at: nat, count: nat): Track
    requires FrameValid(a, at, count)
  {
    Track(Predictor(Signed16(Le16(a, at + 2)), a[at + 4]), CodesOf(a[at + FRAME_HEADER..FrameEnd(at, count)])[..count - 1])
  }

  lemma FrameReadBack(a: seq<byte>, at: nat, count: nat)
    requires FrameValid(a, at, count)
    ensures var f := TrackAt(a, at, count);
            Writable(f) && |f.codes| == count - 1 && a[at..FrameEnd(at, count)] == FrameBytes(f)
  {
    hide Code, CodesOf, Packed;
    var payload := a[at + FRAME_HEADER..FrameEnd(at, count)];
    var f := TrackAt(a, at, count);
    ReadCodesPack(payload);
    if count % 2 == 0 {
      ByteOfCodes(payload, |payload| - 1);
      assert CodesOf(payload)[|CodesOf(payload)| - 1] == 0;
      LastZero(CodesOf(payload));
    } else {
      assert CodesOf(payload)[..count - 1] == CodesOf(payload);
    }
    WordReadBack(a, at);
    WordReadBack(a, at + 2);
    assert a[at..FrameEnd(at, count)] == a[at..at + 2] + a[at + 2..at + 4] + [a[at + 4], a[at + 5]] + payload;
  }

  lemma WordReadBack(a: seq<byte>, at: nat)
    requires at + 2 <= |a|
    ensures a[at..at + 2] == Word(Le16(a, at)) && Raw(Signed16(Le16(a, at))) == Le16(a, at)
  {
  }

  function TracksOf(a: seq<byte>, at: nat, remaining: nat, frames: nat): (tracks: seq<Track>)
    requires FramesValid(a, at, remaining, frames)
    ensures |tracks| == frames
    decreases frames
  {
    if frames == 0 then []
    else [TrackAt(a, at, Expected(remaining))]
         + TracksOf(a, FrameEnd(at, Expected(remaining)), remaining - Expected(remaining), frames - 1)
  }

  lemma MoreTracks(f: Track, rest: seq<Track>)
    requires Writable(f) && Regular(rest) && (rest != [] ==> |f.codes| == 479)
    ensures var tracks := [f] + rest;
            Regular(tracks) && Body(tracks) == FrameBytes(f) + Body(rest) && |Sound(tracks)| == |f.codes| + 1 + |Sound(rest)|
  {
    assert ([f] + rest)[1..] == rest;
  }

  lemma FirstTrack(a: seq<byte>, at: nat, remaining: nat, frames: nat)
    requires FramesValid(a, at, remaining, frames) && frames > 0
    ensures var count := Expected(remaining);
            && FrameValid(a, at, count) && FrameEnd(at, count) <= |a| && count <= remaining
            && FramesValid(a, FrameEnd(at, count), remaining - count, frames - 1)
            && TracksOf(a, at, remaining, frames)
               == [TrackAt(a, at, count)] + TracksOf(a, FrameEnd(at, count), remaining - count, frames - 1)
    ensures frames > 1 ==> Expected(remaining) == 480
  {
    hide TrackAt;
    if frames > 1 { FrameCount(a, FrameEnd(at, Expected(remaining)), remaining - Expected(remaining), frames - 1); }
  }

  lemma NoTrack(a: seq<byte>, at: nat, remaining: nat)
    requires FramesValid(a, at, remaining, 0) && at <= |a|
    ensures TracksOf(a, at, remaining, 0) == [] && a[at..] == [] && remaining == 0
  {
  }

  lemma {:induction false} BodyReadBack(a: seq<byte>, at: nat, remaining: nat, frames: nat)
    requires FramesValid(a, at, remaining, frames) && at <= |a|
    ensures var tracks := TracksOf(a, at, remaining, frames);
            Regular(tracks) && a[at..] == Body(tracks) && |Sound(tracks)| == remaining
    decreases frames
  {
    if frames > 0 {
      hide FramesValid, FrameValid, Writable, FrameBytes, TrackAt, Body, Sound, Regular, TracksOf, Expected, FrameEnd;
      var count := Expected(remaining);
      var next := FrameEnd(at, count);
      FirstTrack(a, at, remaining, frames);
      FrameReadBack(a, at, count);
      BodyReadBack(a, next, remaining - count, frames - 1);
      MoreTracks(TrackAt(a, at, count), TracksOf(a, next, remaining - count, frames - 1));
      assert a[at..] == a[at..next] + a[next..];
    } else {
      NoTrack(a, at, remaining);
    }
  }

  /** The batch decoder accepts exactly the resources that can be written. */
  lemma ValidIsWritten(a: seq<byte>)
    ensures ResourceValid(a) <==> exists tracks :: Recordable(tracks) && a == Resource(tracks)
  {
    hide FramesValid, Regular, Header, Body, Sound, Le16, Le32;
    if ResourceValid(a) {
      var info := InfoOf(a);
      HeaderReadBack(a);
      BodyReadBack(a, 20, info.samples, info.frames);
      var tracks := TracksOf(a, 20, info.samples, info.frames);
      assert a == a[..20] + a[20..];
      assert Recordable(tracks) && a == Resource(tracks);
    }
    forall tracks | Recordable(tracks) && a == Resource(tracks) ensures ResourceValid(a) {
      ResourceRoundTrip(tracks);
    }
  }

  lemma WordIs(a: seq<byte>, at: nat, v: nat)
    requires at + 2 <= |a| && Le16(a, at) == v
    ensures a[at] == v % 256 && a[at + 1] == v / 256
  {
  }

  lemma HeaderReadBack(a: seq<byte>)
    requires HeaderShaped(a)
    ensures 0 < InfoOf(a).frames < 0x1_0000 && 0 < InfoOf(a).samples < 0x1_0000_0000
    ensures a[..20] == Header(InfoOf(a).frames, InfoOf(a).samples)
  {
    hide Le16;
    assert a[..4] == [a[0], a[1], a[2], a[3]];
    assert Le16(a, 6) == 0xBB80 && Le16(a, 8) == 0;
    WordIs(a, 6, 0xBB80);
    WordIs(a, 8, 0);
    WordIs(a, 10, 480);
    WordIs(a, 18, 20);
    WordIs(a, 12, Le16(a, 12));
    WordIs(a, 14, Le16(a, 14));
    WordIs(a, 16, Le16(a, 16));
    var samples := Le32(a, 14);
    assert samples % 0x1_0000 == Le16(a, 14) && samples / 0x1_0000 == Le16(a, 16);
    assert a[..20] == [a[0], a[1], a[2], a[3], a[4], a[5], a[6], a[7], a[8], a[9], a[10], a[11]]
                      + [a[12], a[13]] + [a[14], a[15]] + [a[16], a[17]] + [a[18], a[19]];
  }
}
