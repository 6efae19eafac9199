/** Where every field of a durable or transmitted record is, byte by byte, and that no other
    bytes are accepted. */
module RecordLayout {
  import opened Bytes
  import opened Flash
  import opened SoundFormat
  import opened PlanWire
  import Crc32

  /** Where field `i` starts. */
  function StartOf(widths: seq<nat>, i: nat): nat
    requires i <= |widths|
  {
    if i == 0 then 0 else StartOf(widths, i - 1) + widths[i - 1]
  }

  lemma {:induction false} StartShifts(widths: seq<nat>, i: nat)
    requires 0 < i <= |widths|
    ensures StartOf(widths, i) == widths[0] + StartOf(widths[1..], i - 1)
  {
    if i > 1 { StartShifts(widths, i - 1); }
  }

  /** Splitting a record cuts out the fields at their offsets. */
  lemma {:induction false} SplitAt(bytes: seq<byte>, widths: seq<nat>, i: nat)
    requires |bytes| == Sum(widths) && i < |widths|
    ensures StartOf(widths, i) + widths[i] <= |bytes|
    ensures Split(bytes, widths)[i] == bytes[StartOf(widths, i)..StartOf(widths, i) + widths[i]]
  {
    if i > 0 {
      SplitAt(bytes[widths[0]..], widths[1..], i - 1);
      StartShifts(widths, i);
      assert widths[1..][i - 1] == widths[i];
    }
  }

  /** Joined fields are found at their offsets. */
  lemma FieldAt(fields: seq<seq<byte>>, widths: seq<nat>, i: nat)
    requires Fits(fields, widths) && i < |widths|
    ensures StartOf(widths, i) + widths[i] <= |Join(fields)|
    ensures Join(fields)[StartOf(widths, i)..StartOf(widths, i) + widths[i]] == fields[i]
  {
    JoinSplit(fields, widths);
    SplitAt(Join(fields), widths, i);
  }

  /** Byte `i` of a little-endian number is its digit `i` to the base 256. */
  lemma {:induction false} Digit(value: nat, width: nat, i: nat)
    requires i < width
    ensures Le(value, width)[i] == value / Pow256(i) % 256
  {
    if i > 0 {
      Digit(value / 256, width - 1, i - 1);
      DivTwice(value, Pow256(i - 1));
    }
  }

  lemma DivTwice(value: nat, d: nat)
    requires d > 0
    ensures value / 256 / d == value / (256 * d)
  {
    var q := value / 256;
    var a := q / d;
    assert value == 256 * q + value % 256;
    assert q == a * d + q % d;
    assert value == a * (256 * d) + (256 * (q % d) + value % 256);
    Quotient(value, a, 256 * d, 256 * (q % d) + value % 256);
  }

  lemma Quotient(value: nat, a: nat, d: nat, rest: nat)
    requires d > 0 && rest < d && value == a * d + rest
    ensures value / d == a
  {
    var q := value / d;
    assert value == q * d + value % d;
    Monotone(q + 1, a, d);
    Monotone(a + 1, q, d);
  }

  lemma Monotone(x: nat, y: nat, d: nat)
    ensures x <= y ==> x * d <= y * d
  {
  }

  /** Every field is at its offset. */
  predicate Placed(e: seq<byte>, f: seq<seq<byte>>, starts: seq<nat>, widths: seq<nat>) {
    && |f| == |starts| == |widths|
    && forall i: nat | i < |f| :: starts[i] + widths[i] <= |e| && e[starts[i]..starts[i] + widths[i]] == f[i]
  }

  lemma CutAt(e: seq<byte>, f: seq<seq<byte>>, starts: seq<nat>, widths: seq<nat>)
    requires Fits(f, widths) && Join(f) <= e && |starts| == |widths|
    requires forall i: nat | i < |widths| :: StartOf(widths, i) == starts[i]
    ensures Placed(e, f, starts, widths)
  {
    hide Join;
    forall i: nat | i < |f| ensures starts[i] + widths[i] <= |e| && e[starts[i]..starts[i] + widths[i]] == f[i] {
      FieldAt(f, widths, i);
      Inside(e, |Join(f)|, starts[i], starts[i] + widths[i]);
      assert e[..|Join(f)|] == Join(f);
    }
  }

  lemma Inside(bytes: seq<byte>, n: nat, from: nat, to: nat)
    requires from <= to <= n <= |bytes|
    ensures bytes[..n][from..to] == bytes[from..to]
  {
  }

  // ---------- Staging header ----------

  const STAGING_STARTS: seq<nat> := [0, 4, 6, 8, 9, 16, 24, 32, 48, 52, 56, 60, 62, 64, 68, 72, 104, 136, 168, 680]

  lemma StagingStarts(i: nat)
    requires i < 20
    ensures StartOf(STAGING_WIDTHS, i) == STAGING_STARTS[i]
  {
    assert StartOf(STAGING_WIDTHS, 5) == 16;
    assert StartOf(STAGING_WIDTHS, 10) == 56;
    assert StartOf(STAGING_WIDTHS, 15) == 72;
    assert StartOf(STAGING_WIDTHS, 19) == 680;
  }

  /** The staging header, offset by offset. */
  lemma StagingLayout(h: Hashes, u: Update)
    requires u.generation != 0 && !AllAre(0, u.transaction) && PlanValid(u.plan)
    ensures |EncodeStaging(h, u)| == 704
    ensures var e := EncodeStaging(h, u);
            && e[0..4] == [69, 73, 83, 72] && e[4..6] == Le(1, 2) && e[6..8] == Le(704, 2)
            && e[8..9] == [if u.bank == A then 0 else 1] && AllAre(0, e[9..16])
            && e[16..24] == Le(u.generation, 8) && e[24..32] == Le(u.plan.baseGeneration, 8)
            && e[32..48] == u.transaction
            && e[48..52] == Le(u.plan.manifestBytes, 4) && e[52..56] == Le(u.plan.payloadBytes, 4)
            && e[56..60] == Le(4096, 4) && e[60..62] == Le((u.plan.payloadBytes + 4095) / 4096, 2) && AllAre(0, e[62..64])
            && e[64..68] == Le(u.plan.manifestCrc, 4) && AllAre(0, e[68..72])
            && e[72..104] == u.plan.baseSha && e[104..136] == u.plan.manifestSha && e[136..168] == u.plan.bundleSha
            && e[168..680] == Words(u.plan.blockCrcs) && AllAre(0, e[680..700])
            && e[700..704] == Le(h.crc32(e[..700]), 4)
  {
    StagingRaw(h, u);
    hide Le, Words, EncodeStaging, Join, Fits, PlanValid, STAGING_WIDTHS, STAGING_STARTS;
    StagingSlices(EncodeStaging(h, u), StagingFields(u));
  }

  lemma StagingRaw(h: Hashes, u: Update)
    requires u.generation != 0 && !AllAre(0, u.transaction) && PlanValid(u.plan)
    ensures |EncodeStaging(h, u)| == 704 && EncodeStaging(h, u)[700..704] == Le(h.crc32(EncodeStaging(h, u)[..700]), 4)
    ensures Placed(EncodeStaging(h, u), StagingFields(u), STAGING_STARTS, STAGING_WIDTHS)
  {
    hide Le, Words, StagingFields, Join, Split, PlanValid, Sum, Fits, Placed, STAGING_WIDTHS, ParseStaging, DecodeStaging;
    StagingRoundTrip(h, u);
    ParseStagingFields(u);
    StagingWidthsSum();
    JoinSplit(StagingFields(u), STAGING_WIDTHS);
    assert EncodeStaging(h, u)[..700] == Join(StagingFields(u));
    StagingTable();
    CutAt(EncodeStaging(h, u), StagingFields(u), STAGING_STARTS, STAGING_WIDTHS);
  }

  lemma StagingTable()
    ensures |STAGING_STARTS| == |STAGING_WIDTHS|
    ensures forall i: nat | i < |STAGING_WIDTHS| :: StartOf(STAGING_WIDTHS, i) == STAGING_STARTS[i]
  {
    forall i: nat | i < |STAGING_WIDTHS| ensures StartOf(STAGING_WIDTHS, i) == STAGING_STARTS[i] { StagingStarts(i); }
  }

  /** The table of offsets, written out. */
  lemma StagingSlices(e: seq<byte>, f: seq<seq<byte>>)
    requires |e| == 704 && Placed(e, f, STAGING_STARTS, STAGING_WIDTHS)
    ensures |f| == 20
    ensures e[0..4] == f[0] && e[4..6] == f[1] && e[6..8] == f[2] && e[8..9] == f[3] && e[9..16] == f[4]
    ensures e[16..24] == f[5] && e[24..32] == f[6] && e[32..48] == f[7] && e[48..52] == f[8] && e[52..56] == f[9]
    ensures e[56..60] == f[10] && e[60..62] == f[11] && e[62..64] == f[12] && e[64..68] == f[13] && e[68..72] == f[14]
    ensures e[72..104] == f[15] && e[104..136] == f[16] && e[136..168] == f[17] && e[168..680] == f[18] && e[680..700] == f[19]
  {
  }

  /** Nothing but the encoding of an update decodes to it. */
  lemma StagingIsCanonical(h: Hashes, id: BankId, e: seq<byte>, u: Update)
    requires |e| == STAGING_BYTES && DecodeStaging(h, id, e) == Some(u)
    ensures u.bank == id && e == EncodeStaging(h, u)
  {
    hide Le, FromLe, Words, Join, Split, Sum, ParseStaging, StagingFields, STAGING_WIDTHS, PlanValid;
    StagingWidthsSum();
    var f := Split(e[..700], STAGING_WIDTHS);
    ParsedStaging(id, f, u);
    SplitJoin(e[..700], STAGING_WIDTHS);
    FromLeRoundTrip(e[700..]);
    assert e == e[..700] + e[700..];
  }

  lemma ParsedStaging(id: BankId, f: seq<seq<byte>>, u: Update)
    requires Fits(f, STAGING_WIDTHS) && ParseStaging(id, f) == Some(u)
    ensures u.bank == id && StagingFields(u) == f
  {
    hide Le, FromLe, Words, FromWords, Pow256, PlanValid, BlockCount;
    FromLeRoundTrip(f[1]);
    FromLeRoundTrip(f[2]);
    FromLeRoundTrip(f[5]);
    FromLeRoundTrip(f[6]);
    FromLeRoundTrip(f[8]);
    FromLeRoundTrip(f[9]);
    FromLeRoundTrip(f[10]);
    FromLeRoundTrip(f[11]);
    FromLeRoundTrip(f[13]);
    FromWordsRoundTrip(f[18], 128);
    assert f[4] == Fill(0, 7) && f[12] == Fill(0, 2) && f[14] == Fill(0, 4) && f[19] == Fill(0, 20);
  }

  // ---------- Commit record ----------

  const COMMIT_STARTS: seq<nat> := [0, 2, 4, 5, 8, 16, 24, 40, 44, 48, 80]

  lemma CommitTable()
    ensures |COMMIT_STARTS| == |COMMIT_WIDTHS|
    ensures forall i: nat | i < |COMMIT_WIDTHS| :: StartOf(COMMIT_WIDTHS, i) == COMMIT_STARTS[i]
  {
    assert StartOf(COMMIT_WIDTHS, 5) == 16;
    assert StartOf(COMMIT_WIDTHS, 10) == 80;
  }

  /** Body and marker, offset by offset: the marker repeats the magic and the CRC inverted. */
  lemma CommitLayout(h: Hashes, s: Snapshot)
    ensures |CommitRecord(h, s)| == 144
    ensures var e := CommitRecord(h, s);
            && e[0..2] == Le(1, 2) && e[2..4] == Le(128, 2) && e[4..5] == [if s.bank == A then 0 else 1] && AllAre(0, e[5..8])
            && e[8..16] == Le(s.generation, 8) && e[16..24] == Le(s.baseGeneration, 8) && e[24..40] == s.transaction
            && e[40..44] == Le(s.manifestBytes, 4) && e[44..48] == Le(s.payloadBytes, 4)
            && e[48..80] == s.manifestSha && e[80..112] == s.bundleSha
            && e[112..116] == Le(h.crc32(e[..112]), 4) && AllAre(0, e[116..128])
            && e[128..132] == [69, 73, 83, 67] && e[132..136] == [186, 182, 172, 188]
            && e[136..140] == e[112..116]
            && e[140] == 255 - e[112] && e[141] == 255 - e[113] && e[142] == 255 - e[114] && e[143] == 255 - e[115]
  {
    CommitRaw(h, s);
    CommitTail(h, s);
    hide Le, CommitRecord, Join, Fits, COMMIT_WIDTHS, COMMIT_STARTS;
    CommitSlices(CommitRecord(h, s), CommitFields(s));
  }

  lemma CommitRaw(h: Hashes, s: Snapshot)
    ensures Placed(CommitRecord(h, s), CommitFields(s), COMMIT_STARTS, COMMIT_WIDTHS)
  {
    hide Le, Join, Split, Sum, Placed, COMMIT_WIDTHS, EncodeMarker;
    CommitFieldsFit(s);
    CommitBodyLength(h, s);
    CommitTable();
    assert Join(CommitFields(s)) <= CommitRecord(h, s);
    hide CommitFields, CommitRecord;
    CutAt(CommitRecord(h, s), CommitFields(s), COMMIT_STARTS, COMMIT_WIDTHS);
  }

  lemma CommitFieldsFit(s: Snapshot)
    ensures Fits(CommitFields(s), COMMIT_WIDTHS)
  {
    hide Le;
  }

  lemma CommitTail(h: Hashes, s: Snapshot)
    ensures var e := CommitRecord(h, s);
            && e[112..116] == Le(h.crc32(e[..112]), 4) && AllAre(0, e[116..128])
            && e[128..132] == [69, 73, 83, 67] && e[132..136] == [186, 182, 172, 188]
            && e[136..140] == e[112..116]
            && e[140] == 255 - e[112] && e[141] == 255 - e[113] && e[142] == 255 - e[114] && e[143] == 255 - e[115]
  {
    hide Le, Join, CommitFields;
    CommitBodyLength(h, s);
    var covered, e := Join(CommitFields(s)), CommitRecord(h, s);
    var crc := Le(h.crc32(covered), 4);
    assert EncodeCommitBody(h, s)[112..116] == crc;
    assert e == covered + crc + Fill(0, 12) + COMMIT_MAGIC + Inverted(COMMIT_MAGIC) + crc + Inverted(crc);
    assert e[..112] == covered;
  }

  lemma CommitSlices(e: seq<byte>, f: seq<seq<byte>>)
    requires |e| == 144 && Placed(e, f, COMMIT_STARTS, COMMIT_WIDTHS)
    ensures |f| == 11
    ensures e[0..2] == f[0] && e[2..4] == f[1] && e[4..5] == f[2] && e[5..8] == f[3] && e[8..16] == f[4] && e[16..24] == f[5]
    ensures e[24..40] == f[6] && e[40..44] == f[7] && e[44..48] == f[8] && e[48..80] == f[9] && e[80..112] == f[10]
  {
  }

  /** Nothing but the record of a snapshot decodes to it, and only snapshots within these
      limits have one. */
  lemma CommitIsCanonical(h: Hashes, id: BankId, e: seq<byte>, s: Snapshot)
    requires |e| == COMMIT_RECORD && DecodeCommitRecord(h, id, e) == Some(s)
    ensures s.bank == id && e == CommitRecord(h, s)
    ensures s.generation != 0 && s.baseGeneration == s.generation - 1
    ensures 32 <= s.manifestBytes <= 4096 && s.payloadBytes <= 128 * 4096
    ensures !AllAre(0, s.transaction) && !AllAre(0, s.manifestSha) && !AllAre(0, s.bundleSha)
  {
    hide Le, FromLe, Join, Split, Sum, EncodeMarker, CommitFields, ParseCommit, COMMIT_WIDTHS;
    CommitWidthsSum();
    var f := Split(e[..112], COMMIT_WIDTHS);
    ParsedCommit(id, f, s);
    SplitJoin(e[..112], COMMIT_WIDTHS);
    FromLeRoundTrip(e[112..116]);
    CommitBodyLength(h, s);
    assert EncodeCommitBody(h, s)[112..116] == e[112..116];
    assert e[116..128] == Fill(0, 12);
    assert e == e[..112] + e[112..116] + e[116..128] + e[128..];
  }

  lemma ParsedCommit(id: BankId, f: seq<seq<byte>>, s: Snapshot)
    requires Fits(f, COMMIT_WIDTHS) && ParseCommit(id, f) == Some(s)
    ensures s.bank == id && CommitFields(s) == f && SnapshotShape(s)
  {
    hide Le, FromLe, Pow256;
    FromLeRoundTrip(f[0]);
    FromLeRoundTrip(f[1]);
    FromLeRoundTrip(f[4]);
    FromLeRoundTrip(f[5]);
    FromLeRoundTrip(f[7]);
    FromLeRoundTrip(f[8]);
    assert f[3] == Fill(0, 3);
  }

  // ---------- Plan ----------

  const PLAN_STARTS: seq<nat> := [0, 4, 6, 8, 16, 48, 52, 56, 60, 92, 124]

  lemma PlanTable()
    ensures |PLAN_STARTS| == |PLAN_WIDTHS|
    ensures forall i: nat | i < |PLAN_WIDTHS| :: StartOf(PLAN_WIDTHS, i) == PLAN_STARTS[i]
  {
    assert StartOf(PLAN_WIDTHS, 5) == 48;
    assert StartOf(PLAN_WIDTHS, 10) == 124;
  }

  /** The limits of a plan: what fits the bank, and hashes that are there. */
  lemma PlanLimits(p: Plan)
    ensures PlanValid(p) <==>
              && 32 <= p.manifestBytes <= 4096 && p.payloadBytes <= 128 * 4096
              && !AllAre(0, p.manifestSha) && !AllAre(0, p.bundleSha)
              && (forall i | 0 <= i < 128 && i * 4096 >= p.payloadBytes :: p.blockCrcs[i] == 0)
              && (p.baseGeneration == 0 <==> AllAre(0, p.baseSha))
  {
    forall i | 0 <= i < 128 ensures i * 4096 >= p.payloadBytes <==> i >= BlockCount(p.payloadBytes) {}
  }

  /** A transmitted plan, offset by offset. */
  lemma PlanLayout(p: Plan)
    requires PlanValid(p)
    ensures EncodePlan(p).Some? && |EncodePlan(p).value| == 640
    ensures var e := EncodePlan(p).value;
            && e[0..4] == [69, 73, 66, 80] && e[4..6] == Le(1, 2) && e[6..8] == Le(640, 2)
            && e[8..16] == Le(p.baseGeneration, 8) && e[16..48] == p.baseSha
            && e[48..52] == Le(p.manifestBytes, 4) && e[52..56] == Le(p.payloadBytes, 4) && e[56..60] == Le(p.manifestCrc, 4)
            && e[60..92] == p.manifestSha && e[92..124] == p.bundleSha && e[124..636] == Words(p.blockCrcs)
            && e[636..640] == Le(Crc32.Crc(e[..636]), 4)
  {
    hide Le, Words, Join, PlanValid, Crc32.Crc, PLAN_STARTS, PLAN_WIDTHS;
    PlanRaw(p);
    PlanSlices(EncodePlan(p).value, PlanFields(p));
  }

  lemma PlanRaw(p: Plan)
    requires PlanValid(p)
    ensures EncodePlan(p).Some? && |EncodePlan(p).value| == 640
    ensures EncodePlan(p).value[636..640] == Le(Crc32.Crc(EncodePlan(p).value[..636]), 4)
    ensures Placed(EncodePlan(p).value, PlanFields(p), PLAN_STARTS, PLAN_WIDTHS)
  {
    hide Le, Words, PlanFields, Join, Split, Sum, Placed, PlanValid, Crc32.Crc, ParsePlan;
    ParsePlanFields(p);
    PlanWidthsSum();
    JoinSplit(PlanFields(p), PLAN_WIDTHS);
    PlanTable();
    assert EncodePlan(p).value[..636] == Join(PlanFields(p));
    CutAt(EncodePlan(p).value, PlanFields(p), PLAN_STARTS, PLAN_WIDTHS);
  }

  lemma PlanSlices(e: seq<byte>, f: seq<seq<byte>>)
    requires |e| == 640 && Placed(e, f, PLAN_STARTS, PLAN_WIDTHS)
    ensures |f| == 11
    ensures e[0..4] == f[0] && e[4..6] == f[1] && e[6..8] == f[2] && e[8..16] == f[3] && e[16..48] == f[4] && e[48..52] == f[5]
    ensures e[52..56] == f[6] && e[56..60] == f[7] && e[60..92] == f[8] && e[92..124] == f[9] && e[124..636] == f[10]
  {
  }

  /** Which refusal a byte sequence gets, from the first thing wrong with it. */
  lemma PlanRefusals(e: seq<byte>)
    ensures |e| != 640 ==> DecodePlan(e).InvalidLength?
    ensures |e| == 640 && e[..4] != [69, 73, 66, 80] ==> DecodePlan(e).InvalidMagic?
    ensures |e| == 640 && e[..4] == [69, 73, 66, 80] && e[4..6] != Le(1, 2) ==> DecodePlan(e).UnsupportedVersion?
    ensures |e| == 640 && e[..4] == [69, 73, 66, 80] && e[4..6] == Le(1, 2) && e[6..8] != Le(640, 2) ==> DecodePlan(e).InvalidLength?
    ensures |e| == 640 && e[..4] == [69, 73, 66, 80] && e[4..6] == Le(1, 2) && e[6..8] == Le(640, 2) ==>
              (DecodePlan(e).CrcMismatch? <==> e[636..] != Le(Crc32.Crc(e[..636]), 4))
  {
    hide Le, FromLe, PlanValid, Crc32.Crc, Split, ParsePlan, PLAN_WIDTHS;
    PlanWidthsSum();
    if |e| == 640 { PlanOpened(e); }
  }

  lemma PlanOpened(e: seq<byte>)
    requires |e| == 640 && |e[..636]| == Sum(PLAN_WIDTHS)
    ensures var f := Split(e[..636], PLAN_WIDTHS);
            && |f| == 11 && f[0] == e[..4]
            && (FromLe(f[1]) == 1 <==> e[4..6] == Le(1, 2)) && (FromLe(f[2]) == 640 <==> e[6..8] == Le(640, 2))
            && (Crc32.Crc(e[..636]) == FromLe(e[636..]) <==> e[636..] == Le(Crc32.Crc(e[..636]), 4))
  {
    hide Le, FromLe, Crc32.Crc, Split, Sum, Pow256, StartOf;
    PlanTable();
    SplitAt(e[..636], PLAN_WIDTHS, 0);
    SplitAt(e[..636], PLAN_WIDTHS, 1);
    SplitAt(e[..636], PLAN_WIDTHS, 2);
    PlanHead(e, Split(e[..636], PLAN_WIDTHS));
    Pow256Values();
    LeIs(e[4..6], 1);
    LeIs(e[6..8], 640);
    LeIs(e[636..], Crc32.Crc(e[..636]));
  }

  lemma PlanHead(e: seq<byte>, f: seq<seq<byte>>)
    requires |e| == 640 && |f| == 11
    requires forall i: nat | i < 3 :: StartOf(PLAN_WIDTHS, i) == PLAN_STARTS[i]
    requires forall i: nat | i < 3 :: f[i] == e[..636][StartOf(PLAN_WIDTHS, i)..StartOf(PLAN_WIDTHS, i) + PLAN_WIDTHS[i]]
    ensures f[0] == e[..4] && f[1] == e[4..6] && f[2] == e[6..8]
  {
  }

  lemma LeIs(bytes: seq<byte>, value: nat)
    requires value < Pow256(|bytes|)
    ensures FromLe(bytes) == value <==> bytes == Le(value, |bytes|)
  {
    hide Le, FromLe, Pow256;
    LeRoundTrip(value, |bytes|);
    FromLeRoundTrip(bytes);
  }
}
