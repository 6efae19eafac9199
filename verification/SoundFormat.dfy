/** The durable records of the sound store: plan, staging header, commit record. */
module SoundFormat {
  import opened Bytes
  import opened Flash

  type Digest = d: seq<byte> | |d| == 32 witness Fill(0, 32)
  type TransactionId = t: seq<byte> | |t| == 16 witness Fill(0, 16)
  type BlockCrcs = c: seq<u32> | |c| == 128 witness seq(128, _ => 0)

  datatype StoreResult =
    | Ok | InvalidArgument | Unavailable | IoError | InvalidBank | InvalidStaging
    | InvalidManifest | CrcMismatch | HashMismatch | Incomplete | Busy | BankPinned
    | StaleBase | GenerationExhausted | TransactionMismatch | SplitBrain | FactoryBlank

  datatype ManifestVerdict = Canonical | NotCanonical | ResourceHashMismatch

  /** CRC-32, SHA-256 and the manifest grammar are parameters: every result holds for any
      deterministic choice of the three. */
  datatype Hashes = Hashes(
    crc32: seq<byte> -> u32,
    sha256: seq<byte> -> Digest,
    manifest: (seq<byte>, seq<byte>) -> ManifestVerdict)

  datatype Plan = Plan(
    baseGeneration: u64, baseSha: Digest,
    manifestBytes: u32, payloadBytes: u32, manifestCrc: u32,
    manifestSha: Digest, bundleSha: Digest, blockCrcs: BlockCrcs)

  datatype Update = Update(bank: BankId, generation: u64, transaction: TransactionId, plan: Plan)

  datatype Snapshot = Snapshot(
    bank: BankId, generation: u64, baseGeneration: u64, transaction: TransactionId,
    manifestBytes: u32, payloadBytes: u32, manifestSha: Digest, bundleSha: Digest)

  function BankByte(id: BankId): byte { if id == A then 0 else 1 }

  function BlockCount(payloadBytes: nat): nat { (payloadBytes + SECTOR - 1) / SECTOR }

  function BlockLength(payloadBytes: nat, index: nat): nat {
    var offset := index * SECTOR;
    if offset >= payloadBytes then 0 else Min(SECTOR, payloadBytes - offset)
  }

  predicate PlanValid(plan: Plan) {
    && 32 <= plan.manifestBytes <= SECTOR
    && plan.payloadBytes <= PAYLOAD_MAX
    && !AllAre(0, plan.manifestSha)
    && !AllAre(0, plan.bundleSha)
    && (forall i | BlockCount(plan.payloadBytes) <= i < 128 :: plan.blockCrcs[i] == 0)
    && (plan.baseGeneration == 0 <==> AllAre(0, plan.baseSha))
  }

  // ---------- Transaction identity ----------

  /** "EASYINPUT-TXN-V1" */
  const TRANSACTION_DOMAIN: seq<byte> :=
    [69, 65, 83, 89, 73, 78, 80, 85, 84, 45, 84, 88, 78, 45, 86, 49]

  /** What a transaction id is derived from. */
  function TransactionInput(plan: Plan, bank: BankId, generation: u64): seq<byte> {
    TRANSACTION_DOMAIN + [BankByte(bank)] + Le(generation, 8) + Le(plan.baseGeneration, 8)
    + plan.baseSha + Le(plan.manifestBytes, 4) + Le(plan.payloadBytes, 4) + plan.manifestSha + plan.bundleSha
  }

  /** The id is bound to the target, the generation, the base and the whole bundle. */
  lemma TransactionBinds(p: Plan, bank: BankId, generation: u64, p2: Plan, bank2: BankId, generation2: u64)
    requires TransactionInput(p, bank, generation) == TransactionInput(p2, bank2, generation2)
    ensures bank == bank2 && generation == generation2
    ensures p.baseGeneration == p2.baseGeneration && p.baseSha == p2.baseSha
    ensures p.manifestBytes == p2.manifestBytes && p.payloadBytes == p2.payloadBytes
    ensures p.manifestSha == p2.manifestSha && p.bundleSha == p2.bundleSha
  {
    var x, y := TransactionInput(p, bank, generation), TransactionInput(p2, bank2, generation2);
    TransactionSlices(p, bank, generation);
    TransactionSlices(p2, bank2, generation2);
    hide TransactionInput, Le, FromLe, Pow256;
    Pow256Values();
    LeRoundTrip(generation, 8);
    LeRoundTrip(generation2, 8);
    LeRoundTrip(p.baseGeneration, 8);
    LeRoundTrip(p2.baseGeneration, 8);
    LeRoundTrip(p.manifestBytes, 4);
    LeRoundTrip(p2.manifestBytes, 4);
    LeRoundTrip(p.payloadBytes, 4);
    LeRoundTrip(p2.payloadBytes, 4);
  }

  lemma TransactionSlices(p: Plan, bank: BankId, generation: u64)
    ensures var x := TransactionInput(p, bank, generation);
            && |x| == 137 && x[..16] == TRANSACTION_DOMAIN && x[16] == (if bank == A then 0 else 1)
            && x[17..25] == Le(generation, 8) && x[25..33] == Le(p.baseGeneration, 8) && x[33..65] == p.baseSha
            && x[65..69] == Le(p.manifestBytes, 4) && x[69..73] == Le(p.payloadBytes, 4)
            && x[73..105] == p.manifestSha && x[105..137] == p.bundleSha
  {
    hide Le;
  }

  /** The first half of the digest, unless it is zero. */
  lemma TransactionIsDigest(h: Hashes, plan: Plan, bank: BankId, generation: u64)
    ensures var digest := h.sha256(TransactionInput(plan, bank, generation));
            !AllAre(0, digest[..16]) ==> DeriveTransaction(h, plan, bank, generation) == digest[..16]
  {
    hide TransactionInput;
  }

  function DeriveTransaction(h: Hashes, plan: Plan, bank: BankId, generation: u64): (t: TransactionId)
    ensures !AllAre(0, t)
  {
    var digest := h.sha256(TransactionInput(plan, bank, generation));
    if !AllAre(0, digest[..16]) then digest[..16]
    else if !AllAre(0, digest[16..]) then digest[16..]
    else
      var t := digest[16..][15 := 1];
      assert t[15] != 0;
      t
  }

  // ---------- Staging header: 704 bytes at the start of a bank ----------

  const STAGING_BYTES: nat := 704
  /** "EISH" */
  const STAGING_MAGIC: seq<byte> := [69, 73, 83, 72]

  // Offsets 0, 4, 6, 8, 9, 16, 24, 32, 48, 52, 56, 60, 62, 64, 68, 72, 104, 136, 168, 680.
  const STAGING_WIDTHS: seq<nat> := [4, 2, 2, 1, 7, 8, 8, 16, 4, 4, 4, 2, 2, 4, 4, 32, 32, 32, 512, 20]

  function StagingFields(u: Update): seq<seq<byte>> {
    [STAGING_MAGIC, Le(1, 2), Le(STAGING_BYTES, 2), [BankByte(u.bank)], Fill(0, 7),
     Le(u.generation, 8), Le(u.plan.baseGeneration, 8), u.transaction,
     Le(u.plan.manifestBytes, 4), Le(u.plan.payloadBytes, 4), Le(SECTOR, 4),
     Le(BlockCount(u.plan.payloadBytes), 2), Fill(0, 2), Le(u.plan.manifestCrc, 4), Fill(0, 4),
     u.plan.baseSha, u.plan.manifestSha, u.plan.bundleSha, Words(u.plan.blockCrcs), Fill(0, 20)]
  }

  function EncodeStaging(h: Hashes, u: Update): seq<byte> {
    var covered := Join(StagingFields(u));
    covered + Le(h.crc32(covered), 4)
  }

  /** The checks and field reads of decode_staging_header, after the CRC. */
  function ParseStaging(id: BankId, f: seq<seq<byte>>): (r: Option<Update>)
    requires Fits(f, STAGING_WIDTHS)
    ensures r.Some? ==> r.value.bank == id && r.value.generation != 0 && PlanValid(r.value.plan)
    ensures r.Some? ==> f[0] == STAGING_MAGIC
  {
    if || f[0] != STAGING_MAGIC || FromLe(f[1]) != 1 || FromLe(f[2]) != STAGING_BYTES
       || f[3] != [BankByte(id)] || !AllAre(0, f[4]) || FromLe(f[10]) != SECTOR
       || !AllAre(0, f[12]) || !AllAre(0, f[14]) || !AllAre(0, f[19])
    then None
    else
      Pow256Values();
      var plan := Plan(FromLe(f[6]), f[15], FromLe(f[8]), FromLe(f[9]), FromLe(f[13]),
                       f[16], f[17], FromWords(f[18], 128));
      if || FromLe(f[5]) == 0 || AllAre(0, f[7]) || !PlanValid(plan)
         || FromLe(f[11]) != BlockCount(plan.payloadBytes)
      then None
      else Some(Update(id, FromLe(f[5]), f[7], plan))
  }

  function DecodeStaging(h: Hashes, id: BankId, encoded: seq<byte>): (r: Option<Update>)
    requires |encoded| == STAGING_BYTES
    ensures r.Some? ==> r.value.bank == id && r.value.generation != 0 && PlanValid(r.value.plan)
  {
    StagingWidthsSum();
    if FromLe(encoded[700..]) != h.crc32(encoded[..700]) then None
    else ParseStaging(id, Split(encoded[..700], STAGING_WIDTHS))
  }

  lemma NoMagicParses(id: BankId, f: seq<seq<byte>>)
    requires Fits(f, STAGING_WIDTHS)
    ensures f[0] != STAGING_MAGIC ==> ParseStaging(id, f).None?
  {
    hide FromLe, FromWords, PlanValid, AllAre;
  }

  lemma StagingNeedsMagic(h: Hashes, id: BankId, encoded: seq<byte>)
    requires |encoded| == STAGING_BYTES
    requires encoded[..4] != STAGING_MAGIC
    ensures DecodeStaging(h, id, encoded).None?
  {
    hide ParseStaging, Sum, PlanValid;
    StagingWidthsSum();
    NoMagicParses(id, Split(encoded[..700], STAGING_WIDTHS));
    assert Split(encoded[..700], STAGING_WIDTHS)[0] == encoded[..700][..4] == encoded[..4];
  }

  lemma StagingTailSum()
    ensures SumFrom(STAGING_WIDTHS, 10) == 644
  {
    assert SumFrom(STAGING_WIDTHS, 16) == 596;
    assert SumFrom(STAGING_WIDTHS, 13) == 636;
  }

  lemma StagingWidthsSum()
    ensures Sum(STAGING_WIDTHS) == 700
  {
    StagingTailSum();
    assert SumFrom(STAGING_WIDTHS, 5) == 684;
    assert SumFrom(STAGING_WIDTHS, 0) == 700;
    SumIsSumFrom(STAGING_WIDTHS, 0);
    assert STAGING_WIDTHS[0..] == STAGING_WIDTHS;
  }

  lemma ParseStagingFields(u: Update)
    requires u.generation != 0 && !AllAre(0, u.transaction) && PlanValid(u.plan)
    ensures Fits(StagingFields(u), STAGING_WIDTHS)
    ensures ParseStaging(u.bank, StagingFields(u)) == Some(u)
  {
    hide Le, FromLe, Words, FromWords, Pow256, Fill, PlanValid, BlockCount;
    BlocksFitU16(u.plan);
    Pow256Values();
    LeRoundTrip(1, 2);
    LeRoundTrip(STAGING_BYTES, 2);
    LeRoundTrip(u.generation, 8);
    LeRoundTrip(u.plan.baseGeneration, 8);
    LeRoundTrip(u.plan.manifestBytes, 4);
    LeRoundTrip(u.plan.payloadBytes, 4);
    LeRoundTrip(SECTOR, 4);
    LeRoundTrip(BlockCount(u.plan.payloadBytes), 2);
    LeRoundTrip(u.plan.manifestCrc, 4);
    WordsRoundTrip(u.plan.blockCrcs);
  }

  lemma BlocksFitU16(plan: Plan)
    requires PlanValid(plan)
    ensures BlockCount(plan.payloadBytes) < 0x1_0000
  {
  }

  lemma StagingRoundTrip(h: Hashes, u: Update)
    requires u.generation != 0 && !AllAre(0, u.transaction) && PlanValid(u.plan)
    ensures |EncodeStaging(h, u)| == STAGING_BYTES
    ensures EncodeStaging(h, u)[..4] == STAGING_MAGIC
    ensures DecodeStaging(h, u.bank, EncodeStaging(h, u)) == Some(u)
  {
    hide ParseStaging, Le, FromLe, PlanValid, Join, Split, Pow256, Sum, STAGING_WIDTHS;
    var f := StagingFields(u);
    ParseStagingFields(u);
    assert f[0] == STAGING_MAGIC;
    hide StagingFields;
    StagingWidthsSum();
    JoinSplit(f, STAGING_WIDTHS);
    JoinHead(f);
    var covered := Join(f);
    assert EncodeStaging(h, u)[..700] == covered;
    assert EncodeStaging(h, u)[700..] == Le(h.crc32(covered), 4);
    Pow256Values();
    LeRoundTrip(h.crc32(covered), 4);
  }

  // ---------- Commit record: 128-byte body and 16-byte marker ----------

  const COMMIT_BODY: nat := 128
  const COMMIT_RECORD: nat := 144
  /** "EISC" */
  const COMMIT_MAGIC: seq<byte> := [69, 73, 83, 67]

  // Offsets 0, 2, 4, 5, 8, 16, 24, 40, 44, 48, 80; the CRC at 112 covers them.
  const COMMIT_WIDTHS: seq<nat> := [2, 2, 1, 3, 8, 8, 16, 4, 4, 32, 32]

  function SnapshotOf(u: Update): Snapshot {
    Snapshot(u.bank, u.generation, u.plan.baseGeneration, u.transaction,
             u.plan.manifestBytes, u.plan.payloadBytes, u.plan.manifestSha, u.plan.bundleSha)
  }

  /** What a commit makes of its update, field by field. */
  lemma SnapshotMeans(u: Update)
    ensures var s := SnapshotOf(u);
            && s.bank == u.bank && s.generation == u.generation && s.transaction == u.transaction
            && s.baseGeneration == u.plan.baseGeneration && s.manifestBytes == u.plan.manifestBytes && s.payloadBytes == u.plan.payloadBytes
            && s.manifestSha == u.plan.manifestSha && s.bundleSha == u.plan.bundleSha
  {
  }

  function CommitFields(s: Snapshot): seq<seq<byte>> {
    [Le(1, 2), Le(COMMIT_BODY, 2), [BankByte(s.bank)], Fill(0, 3),
     Le(s.generation, 8), Le(s.baseGeneration, 8), s.transaction,
     Le(s.manifestBytes, 4), Le(s.payloadBytes, 4), s.manifestSha, s.bundleSha]
  }

  function EncodeCommitBody(h: Hashes, s: Snapshot): seq<byte> {
    var covered := Join(CommitFields(s));
    covered + Le(h.crc32(covered), 4) + Fill(0, 12)
  }

  function Inverted(bytes: seq<byte>): (r: seq<byte>)
    ensures |r| == |bytes|
  {
    seq(|bytes|, i requires 0 <= i < |bytes| => 255 - bytes[i])
  }

  function EncodeMarker(crc: seq<byte>): (marker: seq<byte>)
    requires |crc| == 4
    ensures |marker| == 16
  {
    COMMIT_MAGIC + Inverted(COMMIT_MAGIC) + crc + Inverted(crc)
  }

  function CommitRecord(h: Hashes, s: Snapshot): (record: seq<byte>)
    ensures |record| == COMMIT_RECORD
  {
    CommitBodyLength(h, s);
    var body := EncodeCommitBody(h, s);
    body + EncodeMarker(body[112..116])
  }

  predicate SnapshotShape(s: Snapshot) {
    && s.generation != 0
    && s.baseGeneration == s.generation - 1
    && !AllAre(0, s.transaction)
    && 32 <= s.manifestBytes <= SECTOR
    && s.payloadBytes <= PAYLOAD_MAX
    && !AllAre(0, s.manifestSha)
    && !AllAre(0, s.bundleSha)
  }

  function ParseCommit(id: BankId, f: seq<seq<byte>>): (r: Option<Snapshot>)
    requires Fits(f, COMMIT_WIDTHS)
    ensures r.Some? ==> r.value.bank == id && SnapshotShape(r.value)
    ensures r.Some? ==> FromLe(f[0]) == 1
  {
    if FromLe(f[0]) != 1 || FromLe(f[1]) != COMMIT_BODY || f[2] != [BankByte(id)] || !AllAre(0, f[3])
    then None
    else
      Pow256Values();
      var s := Snapshot(id, FromLe(f[4]), FromLe(f[5]), f[6], FromLe(f[7]), FromLe(f[8]), f[9], f[10]);
      if SnapshotShape(s) then Some(s) else None
  }

  function DecodeCommitRecord(h: Hashes, id: BankId, record: seq<byte>): (r: Option<Snapshot>)
    requires |record| == COMMIT_RECORD
    ensures r.Some? ==> r.value.bank == id && SnapshotShape(r.value)
    ensures r.Some? ==> record[128..] == EncodeMarker(record[112..116])
  {
    CommitWidthsSum();
    if || !AllAre(0, record[116..128])
       || FromLe(record[112..116]) != h.crc32(record[..112])
       || record[128..] != EncodeMarker(record[112..116])
    then None
    else ParseCommit(id, Split(record[..112], COMMIT_WIDTHS))
  }

  /** The first byte of a record is the version; an erased byte there destroys it. */
  lemma CommitNeedsVersion(h: Hashes, id: BankId, record: seq<byte>)
    requires |record| == COMMIT_RECORD && record[0] != 1
    ensures DecodeCommitRecord(h, id, record).None?
  {
    CommitWidthsSum();
    FirstField(record);
    hide Split, Sum, EncodeMarker, SnapshotShape, FromLe, ParseCommit;
    var first := Split(record[..112], COMMIT_WIDTHS)[0];
    assert first[0] == record[0];
    LowByte(first);
  }

  lemma FirstField(record: seq<byte>)
    requires |record| == COMMIT_RECORD
    ensures Sum(COMMIT_WIDTHS) == 112
    ensures Split(record[..112], COMMIT_WIDTHS)[0] == record[..112][..2]
  {
    CommitWidthsSum();
    hide Sum;
  }

  lemma LowByte(bytes: seq<byte>)
    requires bytes != [] && bytes[0] != 1
    ensures FromLe(bytes) != 1
  {
    assert FromLe(bytes) == bytes[0] + 256 * FromLe(bytes[1..]);
  }

  lemma CommitWidthsSum()
    ensures Sum(COMMIT_WIDTHS) == 112
  {
    SumIsSumFrom(COMMIT_WIDTHS, 0);
    assert COMMIT_WIDTHS[0..] == COMMIT_WIDTHS;
    assert SumFrom(COMMIT_WIDTHS, 0) == 112;
  }

  lemma CommitBodyLength(h: Hashes, s: Snapshot)
    ensures |Join(CommitFields(s))| == 112
    ensures |EncodeCommitBody(h, s)| == COMMIT_BODY
  {
    hide Le, Fill, Join, Split, Sum;
    CommitWidthsSum();
    JoinSplit(CommitFields(s), COMMIT_WIDTHS);
  }

  lemma ParseCommitFields(s: Snapshot)
    requires SnapshotShape(s)
    ensures Fits(CommitFields(s), COMMIT_WIDTHS)
    ensures ParseCommit(s.bank, CommitFields(s)) == Some(s)
  {
    hide Le, FromLe, Pow256, Fill;
    Pow256Values();
    LeRoundTrip(1, 2);
    LeRoundTrip(COMMIT_BODY, 2);
    LeRoundTrip(s.generation, 8);
    LeRoundTrip(s.baseGeneration, 8);
    LeRoundTrip(s.manifestBytes, 4);
    LeRoundTrip(s.payloadBytes, 4);
  }

  lemma CommitRoundTrip(h: Hashes, s: Snapshot)
    requires SnapshotShape(s)
    ensures DecodeCommitRecord(h, s.bank, CommitRecord(h, s)) == Some(s)
    ensures CommitRecord(h, s)[..128] == EncodeCommitBody(h, s)
  {
    hide ParseCommit, EncodeMarker, Le, FromLe, Pow256, Join, Split, CommitFields, SnapshotShape, Sum, COMMIT_WIDTHS;
    var f := CommitFields(s);
    var covered := Join(f);
    var crc := Le(h.crc32(covered), 4);
    var record := CommitRecord(h, s);
    CommitBodyLength(h, s);
    ParseCommitFields(s);
    JoinSplit(f, COMMIT_WIDTHS);
    CommitWidthsSum();
    assert EncodeCommitBody(h, s)[112..116] == crc;
    assert record == covered + crc + Fill(0, 12) + EncodeMarker(crc);
    assert record[..112] == covered && record[112..116] == crc;
    assert record[116..128] == Fill(0, 12) && record[128..] == EncodeMarker(crc);
    Pow256Values();
    LeRoundTrip(h.crc32(covered), 4);
  }
}
