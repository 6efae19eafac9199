/** The 640-byte wire form of a bundle plan. */
module PlanWire {
  import opened Bytes
  import opened Flash
  import opened SoundFormat
  import opened Crc32

  const PLAN_BYTES: nat := 640
  const PLAN_COVERED: nat := 636
  /** "EIBP" */
  const PLAN_MAGIC: seq<byte> := [69, 73, 66, 80]

  // Offsets 0, 4, 6, 8, 16, 48, 52, 56, 60, 92, 124; the CRC at 636 covers them.
  const PLAN_WIDTHS: seq<nat> := [4, 2, 2, 8, 32, 4, 4, 4, 32, 32, 512]

  datatype PlanResult =
    | Decoded(plan: Plan) | InvalidLength | InvalidMagic | UnsupportedVersion | CrcMismatch | InvalidPlan

  function PlanFields(p: Plan): seq<seq<byte>> {
    [PLAN_MAGIC, Le(1, 2), Le(PLAN_BYTES, 2), Le(p.baseGeneration, 8), p.baseSha, Le(p.manifestBytes, 4),
     Le(p.payloadBytes, 4), Le(p.manifestCrc, 4), p.manifestSha, p.bundleSha, Words(p.blockCrcs)]
  }

  function EncodePlan(p: Plan): Option<seq<byte>> {
    if !PlanValid(p) then None
    else
      var covered := Join(PlanFields(p));
      Some(covered + Le(Crc(covered), 4))
  }

  function ParsePlan(f: seq<seq<byte>>): Plan
    requires Fits(f, PLAN_WIDTHS)
  {
    Pow256Values();
    Plan(FromLe(f[3]), f[4], FromLe(f[5]), FromLe(f[6]), FromLe(f[7]), f[8], f[9], FromWords(f[10], 128))
  }

  function DecodePlan(encoded: seq<byte>): PlanResult {
    if |encoded| != PLAN_BYTES then InvalidLength
    else
      PlanWidthsSum();
      var f := Split(encoded[..PLAN_COVERED], PLAN_WIDTHS);
      if f[0] != PLAN_MAGIC then InvalidMagic
      else if FromLe(f[1]) != 1 then UnsupportedVersion
      else if FromLe(f[2]) != PLAN_BYTES then InvalidLength
      else if Crc(encoded[..PLAN_COVERED]) != FromLe(encoded[PLAN_COVERED..]) then PlanResult.CrcMismatch
      else if !PlanValid(ParsePlan(f)) then InvalidPlan
      else Decoded(ParsePlan(f))
  }

  lemma PlanWidthsSum()
    ensures Sum(PLAN_WIDTHS) == PLAN_COVERED
  {
    SumIsSumFrom(PLAN_WIDTHS, 0);
    assert PLAN_WIDTHS[0..] == PLAN_WIDTHS;
    assert SumFrom(PLAN_WIDTHS, 5) == 588;
    assert SumFrom(PLAN_WIDTHS, 0) == 636;
  }

  lemma ParsePlanFields(p: Plan)
    ensures Fits(PlanFields(p), PLAN_WIDTHS)
    ensures ParsePlan(PlanFields(p)) == p
    ensures PlanFields(p)[0] == PLAN_MAGIC && FromLe(PlanFields(p)[1]) == 1 && FromLe(PlanFields(p)[2]) == PLAN_BYTES
  {
    hide Le, FromLe, Words, FromWords, Pow256, Fill;
    Pow256Values();
    LeRoundTrip(1, 2);
    LeRoundTrip(PLAN_BYTES, 2);
    LeRoundTrip(p.baseGeneration, 8);
    LeRoundTrip(p.manifestBytes, 4);
    LeRoundTrip(p.payloadBytes, 4);
    LeRoundTrip(p.manifestCrc, 4);
    WordsRoundTrip(p.blockCrcs);
  }

  /** Every valid plan decodes back to itself, and an invalid one is never encoded. */
  lemma PlanRoundTrip(p: Plan)
    ensures EncodePlan(p).Some? <==> PlanValid(p)
    ensures PlanValid(p) ==> |EncodePlan(p).value| == PLAN_BYTES && DecodePlan(EncodePlan(p).value) == Decoded(p)
  {
    hide ParsePlan, PlanFields, Le, FromLe, PlanValid, Join, Split, Pow256, Sum, PLAN_WIDTHS, Crc;
    if PlanValid(p) {
      var f := PlanFields(p);
      ParsePlanFields(p);
      PlanWidthsSum();
      JoinSplit(f, PLAN_WIDTHS);
      var covered := Join(f);
      var encoded := EncodePlan(p).value;
      assert encoded[..PLAN_COVERED] == covered;
      assert encoded[PLAN_COVERED..] == Le(Crc(covered), 4);
      Pow256Values();
      LeRoundTrip(Crc(covered), 4);
    }
  }

  /** What is accepted is canonical: only the encoding of a valid plan decodes to it. */
  lemma DecodedIsCanonical(encoded: seq<byte>)
    requires DecodePlan(encoded).Decoded?
    ensures PlanValid(DecodePlan(encoded).plan)
    ensures EncodePlan(DecodePlan(encoded).plan) == Some(encoded)
  {
    hide PlanValid, Crc;
    PlanWidthsSum();
    var f := Split(encoded[..PLAN_COVERED], PLAN_WIDTHS);
    var p := DecodePlan(encoded).plan;
    FieldsOfParsed(f);
    SplitJoin(encoded[..PLAN_COVERED], PLAN_WIDTHS);
    hide ParsePlan, PlanFields, FromLe, Le, Join, Split, Sum;
    FromLeRoundTrip(encoded[PLAN_COVERED..]);
    assert encoded == encoded[..PLAN_COVERED] + encoded[PLAN_COVERED..];
  }

  lemma FieldsOfParsed(f: seq<seq<byte>>)
    requires Fits(f, PLAN_WIDTHS)
    requires f[0] == PLAN_MAGIC && FromLe(f[1]) == 1 && FromLe(f[2]) == PLAN_BYTES
    ensures PlanFields(ParsePlan(f)) == f
  {
    hide Le, FromLe, Words, FromWords, Pow256, Fill;
    FromLeRoundTrip(f[1]);
    FromLeRoundTrip(f[2]);
    FromLeRoundTrip(f[3]);
    FromLeRoundTrip(f[5]);
    FromLeRoundTrip(f[6]);
    FromLeRoundTrip(f[7]);
    FromWordsRoundTrip(f[10], 128);
  }

  /** No valid encoding turns into an accepted one by changing a single byte, so no flipped
      bit goes unnoticed. */
  lemma OneByteChangeIsRejected(p: Plan, k: nat, b: byte)
    requires PlanValid(p) && k < PLAN_BYTES
    requires |EncodePlan(p).value| == PLAN_BYTES && EncodePlan(p).value[k] != b
    ensures !DecodePlan(EncodePlan(p).value[k := b]).Decoded?
  {
    hide PlanFields, Join, PlanValid, Le, FromLe, Crc, Split, Sum, ParsePlan, Pow256;
    var encoded := EncodePlan(p).value;
    PlanRoundTrip(p);
    CrcField(encoded);
    ChangeBreaksCrc(encoded, k, b);
  }

  /** A changed byte is in the covered part or in the field, never in both. */
  lemma ChangeBreaksCrc(encoded: seq<byte>, k: nat, b: byte)
    requires |encoded| == PLAN_BYTES && k < PLAN_BYTES && encoded[k] != b
    requires FromLe(encoded[PLAN_COVERED..]) == Crc(encoded[..PLAN_COVERED])
    ensures FromLe(encoded[k := b][PLAN_COVERED..]) != Crc(encoded[k := b][..PLAN_COVERED])
  {
    hide Le, FromLe, Crc;
    var changed := encoded[k := b];
    if k < PLAN_COVERED {
      OneByteChangeIsDetected(encoded[..PLAN_COVERED], changed[..PLAN_COVERED], k);
      assert changed[PLAN_COVERED..] == encoded[PLAN_COVERED..];
    } else {
      assert changed[..PLAN_COVERED] == encoded[..PLAN_COVERED];
      FromLeRoundTrip(encoded[PLAN_COVERED..]);
      FromLeRoundTrip(changed[PLAN_COVERED..]);
      assert encoded[PLAN_COVERED..][k - PLAN_COVERED] == encoded[k];
      assert changed[PLAN_COVERED..][k - PLAN_COVERED] == b;
    }
  }

  lemma CrcField(encoded: seq<byte>)
    ensures DecodePlan(encoded).Decoded? ==>
              |encoded| == PLAN_BYTES && FromLe(encoded[PLAN_COVERED..]) == Crc(encoded[..PLAN_COVERED])
  {
    hide PlanValid, Crc, FromLe, Split, ParsePlan, Sum;
  }
}
