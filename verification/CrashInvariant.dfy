/** What every flash image of a run satisfies, and why each mutation keeps it at every
    torn prefix. */
module CrashInvariant {
  import opened Bytes
  import opened Flash
  import opened SoundFormat
  import opened SoundBanks

  // ---------- Progress of one update ----------

  predicate ManifestDurable(h: Hashes, bank: Bank, plan: Plan)
    requires PlanValid(plan)
  {
    && h.crc32(ManifestBytes(bank, plan.manifestBytes)) == plan.manifestCrc
    && h.sha256(ManifestBytes(bank, plan.manifestBytes)) == plan.manifestSha
  }

  function BlockBytes(bank: Bank, payloadBytes: nat, index: nat): seq<byte>
    requires payloadBytes <= PAYLOAD_MAX && index < BlockCount(payloadBytes)
  {
    bank[PAYLOAD + index * SECTOR..PAYLOAD + index * SECTOR + BlockLength(payloadBytes, index)]
  }

  predicate BlockDurable(h: Hashes, bank: Bank, plan: Plan, index: nat)
    requires PlanValid(plan) && index < BlockCount(plan.payloadBytes)
  {
    h.crc32(BlockBytes(bank, plan.payloadBytes, index)) == plan.blockCrcs[index]
  }

  /** What durable means: the planned checksums of what is in flash, unit by unit of 4096
      bytes and the rest. */
  lemma DurableMeans(h: Hashes, bank: Bank, plan: Plan, i: nat)
    requires PlanValid(plan)
    ensures ManifestDurable(h, bank, plan) <==>
              var bytes := bank[0x1000..0x1000 + plan.manifestBytes];
              h.crc32(bytes) == plan.manifestCrc && h.sha256(bytes) == plan.manifestSha
    ensures 4096 * i < plan.payloadBytes <==> i < BlockCount(plan.payloadBytes)
    ensures i < BlockCount(plan.payloadBytes) ==>
              var end := if 4096 * i + 4096 <= plan.payloadBytes then 4096 * i + 4096 else plan.payloadBytes;
              BlockDurable(h, bank, plan, i) <==> h.crc32(bank[0x3000 + 4096 * i..0x3000 + end]) == plan.blockCrcs[i]
  {
  }

  predicate JournalManifestMarked(bank: Bank) { bank[JOURNAL] != 255 }

  predicate JournalBlockMarked(bank: Bank, index: nat)
    requires index < 128
  {
    !Bit(bank[JOURNAL + 1 + index / 8], index % 8)
  }

  /** The marks: a byte of its own for the manifest, then one bit a block, eight to a byte from
      the lowest on. */
  lemma JournalLayout(bank: Bank, byteIndex: nat)
    requires byteIndex < 16
    ensures JournalManifestMarked(bank) <==> bank[0x2000] != 0xFF
    ensures var marks := bank[0x2001 + byteIndex];
            && (JournalBlockMarked(bank, 8 * byteIndex) <==> marks % 2 == 0)
            && (JournalBlockMarked(bank, 8 * byteIndex + 1) <==> marks / 2 % 2 == 0)
            && (JournalBlockMarked(bank, 8 * byteIndex + 2) <==> marks / 4 % 2 == 0)
            && (JournalBlockMarked(bank, 8 * byteIndex + 3) <==> marks / 8 % 2 == 0)
            && (JournalBlockMarked(bank, 8 * byteIndex + 4) <==> marks / 16 % 2 == 0)
            && (JournalBlockMarked(bank, 8 * byteIndex + 5) <==> marks / 32 % 2 == 0)
            && (JournalBlockMarked(bank, 8 * byteIndex + 6) <==> marks / 64 % 2 == 0)
            && (JournalBlockMarked(bank, 8 * byteIndex + 7) <==> marks / 128 % 2 == 0)
  {
    hide Bit;
    BitsMean(bank[0x2001 + byteIndex]);
  }

  lemma BitsMean(b: byte)
    ensures Bit(b, 0) <==> b % 2 == 1
    ensures Bit(b, 1) <==> b / 2 % 2 == 1
    ensures Bit(b, 2) <==> b / 4 % 2 == 1
    ensures Bit(b, 3) <==> b / 8 % 2 == 1
    ensures Bit(b, 4) <==> b / 16 % 2 == 1
    ensures Bit(b, 5) <==> b / 32 % 2 == 1
    ensures Bit(b, 6) <==> b / 64 % 2 == 1
    ensures Bit(b, 7) <==> b / 128 % 2 == 1
  {
    hide Bit;
    LowBits(b);
    LowBits(b / 16);
    HighBits(b, 0);
    HighBits(b, 1);
    HighBits(b, 2);
    HighBits(b, 3);
    assert b / 16 / 2 == b / 32 && b / 16 / 4 == b / 64 && b / 16 / 8 == b / 128;
  }

  lemma LowBits(b: byte)
    ensures Bit(b, 0) <==> b % 2 == 1
    ensures Bit(b, 1) <==> b / 2 % 2 == 1
    ensures Bit(b, 2) <==> b / 4 % 2 == 1
    ensures Bit(b, 3) <==> b / 8 % 2 == 1
  {
    assert b / 2 / 2 == b / 4 && b / 4 / 2 == b / 8;
  }

  lemma HighBits(b: byte, i: nat)
    requires i < 4
    ensures Bit(b, i + 4) == Bit(b / 16, i)
  {
    hide Bit;
    BitOfHalf(b, i + 4);
    BitOfHalf(b / 2, i + 3);
    BitOfHalf(b / 2 / 2, i + 2);
    BitOfHalf(b / 2 / 2 / 2, i + 1);
    assert b / 2 / 2 / 2 / 2 == b / 16;
  }

  lemma BitOfHalf(b: byte, i: nat)
    requires i > 0
    ensures Bit(b, i) == Bit(b / 2, i - 1)
  {
  }

  /** A cleared journal bit always means the planned bytes are already in flash. */
  predicate JournalSound(h: Hashes, bank: Bank, plan: Plan)
    requires PlanValid(plan)
  {
    && (JournalManifestMarked(bank) ==> ManifestDurable(h, bank, plan))
    && forall i | 0 <= i < 128 && JournalBlockMarked(bank, i) ::
         i < BlockCount(plan.payloadBytes) && BlockDurable(h, bank, plan, i)
  }

  /** The first `k` bytes of the commit record are programmed, the rest is erased. */
  predicate RecordTorn(bank: Bank, record: seq<byte>, k: nat)
    requires |record| == COMMIT_RECORD
  {
    && k <= COMMIT_RECORD
    && forall i | 0 <= i < COMMIT_RECORD ::
         Record(bank)[i] == if i < k then record[i] else 255
  }

  predicate CommitTorn(h: Hashes, bank: Bank, u: Update) {
    exists k: nat | k <= COMMIT_RECORD :: RecordTorn(bank, CommitRecord(h, SnapshotOf(u)), k)
  }

  /** A bank on which update `u` may continue: nothing but `u` has been programmed since
      the bank was verified erased. */
  predicate Prepared(h: Hashes, bank: Bank, u: Update) {
    && PlanValid(u.plan)
    && TailsErased(bank, u.plan.manifestBytes, u.plan.payloadBytes)
    && CommitTorn(h, bank, u)
    && JournalSound(h, bank, u.plan)
  }

  // ---------- The image invariant ----------

  predicate StagingInv(h: Hashes, id: BankId, bank: Bank, generation: nat) {
    var staged := StagingOf(h, id, bank);
    staged.Some? ==>
      var u := staged.value;
      && u.transaction == DeriveTransaction(h, u.plan, id, u.generation)
      && (u.generation <= generation
          || (CommitOf(h, id, bank).None? && u.generation == generation + 1 && Prepared(h, bank, u)))
  }

  predicate BankInv(h: Hashes, id: BankId, bank: Bank, generation: nat) {
    && (CommitOf(h, id, bank).Some? ==> Validate(h, id, bank).Ok?)
    && StagingInv(h, id, bank, generation)
  }

  function ActiveOf(h: Hashes, image: Image): Option<Snapshot> {
    Select(CommitOf(h, A, image.a), CommitOf(h, B, image.b)).active
  }

  function GenerationOf(active: Option<Snapshot>): nat {
    if active.Some? then active.value.generation else 0
  }

  predicate Consecutive(a: Option<Snapshot>, b: Option<Snapshot>) {
    a.Some? && b.Some? ==>
      a.value.generation == b.value.generation + 1 || b.value.generation == a.value.generation + 1
  }

  predicate Inv(h: Hashes, image: Image) {
    var generation := GenerationOf(ActiveOf(h, image));
    && BankInv(h, A, image.a, generation)
    && BankInv(h, B, image.b, generation)
    && Consecutive(CommitOf(h, A, image.a), CommitOf(h, B, image.b))
  }

  /** The bank a new update erases. */
  function TargetOf(active: Option<Snapshot>): BankId {
    if active.Some? then active.value.bank.Other() else A
  }

  /** The plan names the bundle it replaces, by generation and by content. */
  predicate BaseMatches(active: Option<Snapshot>, plan: Plan) {
    if active.Some?
    then plan.baseGeneration == active.value.generation && plan.baseSha == active.value.bundleSha
    else plan.baseGeneration == 0 && AllAre(0, plan.baseSha)
  }

  // ---------- Runs ----------

  /** One mutation: the active bundle stays, or its complete successor takes over. */
  predicate SafeStep(h: Hashes, before: Image, after: Image) {
    && Inv(h, after)
    && (ActiveOf(h, after) == ActiveOf(h, before)
        || (ActiveOf(h, after).Some?
            && GenerationOf(ActiveOf(h, after)) == GenerationOf(ActiveOf(h, before)) + 1))
  }

  ghost predicate SafeRun(h: Hashes, history: seq<Image>) {
    && |history| > 0
    && Inv(h, history[0])
    && forall i | 0 < i < |history| :: SafeStep(h, history[i - 1], history[i])
  }

  lemma ExtendRun(h: Hashes, history: seq<Image>, next: Image)
    requires SafeRun(h, history) && SafeStep(h, history[|history| - 1], next)
    ensures SafeRun(h, history + [next])
  {
    hide SafeStep, Inv;
  }

  lemma RunIsInv(h: Hashes, history: seq<Image>, i: nat)
    requires SafeRun(h, history) && i < |history|
    ensures Inv(h, history[i])
  {
    hide Inv, ActiveOf;
    if i != 0 { assert SafeStep(h, history[i - 1], history[i]); }
  }

  /** Over a whole run the selected generation never decreases, and a generation is only
      ever served by one bundle. */
  lemma {:induction false} GenerationsNeverDecrease(h: Hashes, history: seq<Image>, i: nat, j: nat)
    requires SafeRun(h, history) && i <= j < |history|
    ensures GenerationOf(ActiveOf(h, history[i])) <= GenerationOf(ActiveOf(h, history[j]))
    ensures GenerationOf(ActiveOf(h, history[i])) == GenerationOf(ActiveOf(h, history[j]))
            ==> ActiveOf(h, history[i]) == ActiveOf(h, history[j])
  {
    hide Inv, ActiveOf;
    if i < j {
      GenerationsNeverDecrease(h, history, i, j - 1);
      assert SafeStep(h, history[j - 1], history[j]);
    }
  }

  /** At every instant the strict scan and the fast boot read agree, no split brain is
      possible, and what they serve is a complete bundle. */
  lemma ScansAgree(h: Hashes, image: Image)
    requires Inv(h, image)
    ensures StrictSelection(h, image).active == ActiveOf(h, image)
    ensures FastSelection(h, image).active == ActiveOf(h, image)
    ensures !StrictSelection(h, image).splitBrain && !FastSelection(h, image).splitBrain
    ensures ActiveOf(h, image).Some? ==>
              Validate(h, ActiveOf(h, image).value.bank, image.At(ActiveOf(h, image).value.bank)).Ok?
  {
    if CommitOf(h, A, image.a).Some? { CommittedIsAuthentic(h, A, image.a); }
    if CommitOf(h, B, image.b).Some? { CommittedIsAuthentic(h, B, image.b); }
    if RecordBlank(image.a) { BlankIsUncommitted(h, A, image.a); }
    if RecordBlank(image.b) { BlankIsUncommitted(h, B, image.b); }
    hide DecodeCommitRecord, DecodeStaging, Validate, StagingInv, SnapshotShape;
  }

  lemma CommittedIsAuthentic(h: Hashes, id: BankId, bank: Bank)
    requires Validate(h, id, bank).Ok?
    ensures var s := CommitOf(h, id, bank).value;
            h.sha256(ManifestBytes(bank, s.manifestBytes)) == s.manifestSha
  {
    hide DecodeCommitRecord, BundleDigest, TailsErased;
  }

  lemma BlankIsUncommitted(h: Hashes, id: BankId, bank: Bank)
    requires RecordBlank(bank)
    ensures CommitOf(h, id, bank).None?
  {
    CommitNeedsVersion(h, id, Record(bank));
  }

  // ---------- Mutations of the target bank ----------

  /** The target never is the bank of the active bundle. */
  predicate Inactive(h: Hashes, image: Image, id: BankId) {
    var active := ActiveOf(h, image);
    active.Some? ==> active.value.bank != id
  }

  /** Whatever happens to an inactive bank is safe while it carries no commit record. */
  lemma TargetStep(h: Hashes, image: Image, id: BankId, bank: Bank)
    requires Inv(h, image) && Inactive(h, image, id)
    requires CommitOf(h, id, bank).None?
    requires StagingInv(h, id, bank, GenerationOf(ActiveOf(h, image)))
    ensures SafeStep(h, image, image.With(id, bank))
    ensures ActiveOf(h, image.With(id, bank)) == ActiveOf(h, image)
  {
    hide DecodeCommitRecord, StagingInv, Validate;
  }

  /** Publishing: the target becomes the successor of the active bundle. */
  lemma CommitStep(h: Hashes, image: Image, u: Update, bank: Bank)
    requires Inv(h, image) && Inactive(h, image, u.bank)
    requires CommitOf(h, u.bank, image.At(u.bank)).None?
    requires CommitOf(h, u.bank, bank) == Some(SnapshotOf(u)) && Validate(h, u.bank, bank).Ok?
    requires u.generation == GenerationOf(ActiveOf(h, image)) + 1
    requires StagingOf(h, u.bank, bank).None? || StagingOf(h, u.bank, bank) == Some(u)
    requires u.transaction == DeriveTransaction(h, u.plan, u.bank, u.generation)
    ensures SafeStep(h, image, image.With(u.bank, bank))
    ensures ActiveOf(h, image.With(u.bank, bank)) == Some(SnapshotOf(u))
  {
    hide DecodeCommitRecord, DecodeStaging, Validate, Prepared, DeriveTransaction;
    var other := u.bank.Other();
    assert image.With(u.bank, bank).At(other) == image.At(other);
  }

  lemma NoMagicNoStaging(h: Hashes, id: BankId, bank: Bank)
    requires bank[..4] != STAGING_MAGIC
    ensures StagingOf(h, id, bank).None?
  {
    assert bank[..STAGING_BYTES][..4] == bank[..4];
    StagingNeedsMagic(h, id, bank[..STAGING_BYTES]);
  }

  /** Erasing from the start of a bank destroys its staging header with the first byte. */
  lemma ErasedHeader(h: Hashes, id: BankId, bank: Bank, k: nat)
    requires 0 < k <= BANK_SIZE
    ensures StagingOf(h, id, Overwrite(bank, STAGING, Fill(255, k))).None?
  {
    var after := Overwrite(bank, STAGING, Fill(255, k));
    assert after[..4][0] == 255;
    NoMagicNoStaging(h, id, after);
  }

  /** Erasing the commit sector destroys the record with the first byte. */
  lemma ErasedRecord(h: Hashes, id: BankId, bank: Bank, k: nat)
    requires 0 < k <= SECTOR
    ensures CommitOf(h, id, Overwrite(bank, COMMIT, Fill(255, k))).None?
  {
    var after := Overwrite(bank, COMMIT, Fill(255, k));
    assert Record(after)[0] == 255;
    CommitNeedsVersion(h, id, Record(after));
  }

  /** Reclaiming an old generation, first half: the commit sector. */
  lemma EraseRecordStep(h: Hashes, image: Image, id: BankId, k: nat)
    requires Inv(h, image) && Inactive(h, image, id) && k <= SECTOR
    requires var staged := StagingOf(h, id, image.At(id));
             staged.Some? ==> staged.value.generation <= GenerationOf(ActiveOf(h, image))
    ensures var bank := Overwrite(image.At(id), COMMIT, Fill(255, k));
            && SafeStep(h, image, image.With(id, bank))
            && ActiveOf(h, image.With(id, bank)) == ActiveOf(h, image)
            && (k > 0 ==> CommitOf(h, id, bank).None?)
            && StagingOf(h, id, bank) == StagingOf(h, id, image.At(id))
  {
    var bank := Overwrite(image.At(id), COMMIT, Fill(255, k));
    assert bank[..STAGING_BYTES] == image.At(id)[..STAGING_BYTES];
    if k == 0 {
      assert bank == image.At(id);
      assert image.With(id, bank) == image;
    } else {
      ErasedRecord(h, id, image.At(id), k);
      TargetStep(h, image, id, bank);
    }
  }

  /** Erasing from the start of an uncommitted target, up to any point. */
  lemma EraseBankStep(h: Hashes, image: Image, id: BankId, k: nat)
    requires Inv(h, image) && Inactive(h, image, id) && k <= BANK_SIZE
    requires CommitOf(h, id, image.At(id)).None?
    ensures var bank := Overwrite(image.At(id), STAGING, Fill(255, k));
            && SafeStep(h, image, image.With(id, bank))
            && ActiveOf(h, image.With(id, bank)) == ActiveOf(h, image)
            && CommitOf(h, id, bank).None?
            && (StagingOf(h, id, bank).None? || bank == image.At(id))
  {
    var bank := Overwrite(image.At(id), STAGING, Fill(255, k));
    if k == 0 {
      assert bank == image.At(id);
      assert image.With(id, bank) == image;
    } else {
      ErasedHeader(h, id, image.At(id), k);
      if k <= COMMIT {
        assert Record(bank) == Record(image.At(id));
      } else {
        assert Record(bank)[0] == 255;
        CommitNeedsVersion(h, id, Record(bank));
      }
      TargetStep(h, image, id, bank);
    }
  }

  // ---------- Starting an update on a verified-erased bank ----------

  function Blank(): (b: Bank)
    ensures forall i | 0 <= i < BANK_SIZE :: b[i] == 255
  {
    Fill(255, BANK_SIZE)
  }

  /** A blank bank on which the first `k` header bytes from offset 4 are programmed. */
  function HeaderWithoutMagic(h: Hashes, u: Update, k: nat): (b: Bank)
    requires u.generation != 0 && !AllAre(0, u.transaction) && PlanValid(u.plan)
    requires k <= STAGING_BYTES - 4
    ensures forall i | i < 4 || STAGING_BYTES <= i :: 0 <= i < BANK_SIZE ==> b[i] == 255
    ensures |EncodeStaging(h, u)| == STAGING_BYTES
    ensures forall i | 4 <= i < 4 + k :: b[i] == EncodeStaging(h, u)[i]
  {
    StagingRoundTrip(h, u);
    Overwrite(Blank(), 4, EncodeStaging(h, u)[4..][..k])
  }

  lemma HeaderStep(h: Hashes, image: Image, u: Update, k: nat)
    requires Inv(h, image) && Inactive(h, image, u.bank)
    requires u.generation != 0 && !AllAre(0, u.transaction) && PlanValid(u.plan)
    requires k <= STAGING_BYTES - 4
    ensures var bank := HeaderWithoutMagic(h, u, k);
            && SafeStep(h, image, image.With(u.bank, bank))
            && ActiveOf(h, image.With(u.bank, bank)) == ActiveOf(h, image)
            && CommitOf(h, u.bank, bank).None?
            && StagingOf(h, u.bank, bank).None?
  {
    var bank := HeaderWithoutMagic(h, u, k);
    hide HeaderWithoutMagic, EncodeStaging, Validate, Prepared, DecodeStaging, DecodeCommitRecord;
    assert bank[..4][0] == 255;
    NoMagicNoStaging(h, u.bank, bank);
    assert Record(bank)[0] == bank[COMMIT] == 255;
    CommitNeedsVersion(h, u.bank, Record(bank));
    TargetStep(h, image, u.bank, bank);
  }

  /** The header takes effect only with the last byte of its magic. */
  lemma MagicStep(h: Hashes, image: Image, u: Update, k: nat)
    requires Inv(h, image) && Inactive(h, image, u.bank)
    requires u.generation == GenerationOf(ActiveOf(h, image)) + 1
    requires u.transaction == DeriveTransaction(h, u.plan, u.bank, u.generation) && PlanValid(u.plan)
    requires k <= 4
    ensures var bank := Overwrite(HeaderWithoutMagic(h, u, STAGING_BYTES - 4), 0, STAGING_MAGIC[..k]);
            && SafeStep(h, image, image.With(u.bank, bank))
            && ActiveOf(h, image.With(u.bank, bank)) == ActiveOf(h, image)
            && CommitOf(h, u.bank, bank).None?
            && Prepared(h, bank, u)
            && StagingOf(h, u.bank, bank) == (if k < 4 then None else Some(u))
  {
    var bank := Overwrite(HeaderWithoutMagic(h, u, STAGING_BYTES - 4), 0, STAGING_MAGIC[..k]);
    MagicBytes(h, u, k);
    hide HeaderWithoutMagic, EncodeStaging, Validate, Prepared, DecodeStaging, DecodeCommitRecord;
    assert Record(bank)[0] == bank[COMMIT] == 255;
    CommitNeedsVersion(h, u.bank, Record(bank));
    PreparedWhenErased(h, bank, u);
    TargetStep(h, image, u.bank, bank);
  }

  lemma MagicBytes(h: Hashes, u: Update, k: nat)
    requires u.generation != 0 && !AllAre(0, u.transaction) && PlanValid(u.plan)
    requires k <= 4
    ensures var bank := Overwrite(HeaderWithoutMagic(h, u, STAGING_BYTES - 4), 0, STAGING_MAGIC[..k]);
            && StagingOf(h, u.bank, bank) == (if k < 4 then None else Some(u))
            && forall i | STAGING_BYTES <= i < BANK_SIZE :: bank[i] == 255
  {
    var bank := Overwrite(HeaderWithoutMagic(h, u, STAGING_BYTES - 4), 0, STAGING_MAGIC[..k]);
    StagingRoundTrip(h, u);
    hide HeaderWithoutMagic, EncodeStaging, DecodeStaging, PlanValid;
    if k < 4 {
      assert bank[..4][3] == 255;
      NoMagicNoStaging(h, u.bank, bank);
    } else {
      var encoded := EncodeStaging(h, u);
      forall i | 0 <= i < STAGING_BYTES ensures bank[i] == encoded[i] {
        if i < 4 { assert encoded[..4][i] == STAGING_MAGIC[i]; }
      }
      assert bank[..STAGING_BYTES] == encoded;
    }
  }

  lemma PreparedWhenErased(h: Hashes, bank: Bank, u: Update)
    requires PlanValid(u.plan)
    requires forall i | STAGING_BYTES <= i < BANK_SIZE :: bank[i] == 255
    ensures Prepared(h, bank, u)
  {
    hide CommitRecord, ManifestDurable, BlockDurable;
    assert RecordTorn(bank, CommitRecord(h, SnapshotOf(u)), 0);
    forall i | 0 <= i < 128 ensures !JournalBlockMarked(bank, i) {
      ErasedByteHasEveryBit(i % 8);
    }
  }

  // ---------- An update in progress ----------

  /** `u` is the only transaction that can come next, and its bank holds nothing foreign. */
  predicate Live(h: Hashes, image: Image, u: Update) {
    && Inv(h, image)
    && Prepared(h, image.At(u.bank), u)
    && u.transaction == DeriveTransaction(h, u.plan, u.bank, u.generation)
    && (StagingOf(h, u.bank, image.At(u.bank)).None? || StagingOf(h, u.bank, image.At(u.bank)) == Some(u))
    && var base := CommitOf(h, u.bank.Other(), image.At(u.bank.Other()));
       u.generation == GenerationOf(base) + 1 && BaseMatches(base, u.plan)
  }

  function Committed(h: Hashes, image: Image, u: Update): Option<Snapshot> {
    CommitOf(h, u.bank, image.At(u.bank))
  }

  lemma LiveShape(h: Hashes, image: Image, u: Update)
    requires Live(h, image, u)
    ensures SnapshotShape(SnapshotOf(u))
    ensures Committed(h, image, u).None? || Committed(h, image, u) == Some(SnapshotOf(u))
    ensures Committed(h, image, u).Some? ==>
              Record(image.At(u.bank)) == CommitRecord(h, SnapshotOf(u))
    ensures Committed(h, image, u).None? ==>
              Inactive(h, image, u.bank) && GenerationOf(ActiveOf(h, image)) + 1 == u.generation
    ensures Committed(h, image, u).Some? ==> ActiveOf(h, image) == Some(SnapshotOf(u))
  {
    hide DecodeCommitRecord, DecodeStaging, BankInv, TailsErased, JournalSound;
    var bank := image.At(u.bank);
    var record := CommitRecord(h, SnapshotOf(u));
    assert SnapshotShape(SnapshotOf(u));
    var k: nat :| RecordTorn(bank, record, k);
    assert RecordTorn(bank, record, k);
    if Committed(h, image, u).Some? {
      TornRecordCommits(h, u, bank, k);
    }
  }

  /** A torn record decodes only when every byte of it is there. */
  lemma TornRecordCommits(h: Hashes, u: Update, bank: Bank, k: nat)
    requires SnapshotShape(SnapshotOf(u))
    requires RecordTorn(bank, CommitRecord(h, SnapshotOf(u)), k)
    requires CommitOf(h, u.bank, bank).Some?
    ensures Record(bank) == CommitRecord(h, SnapshotOf(u))
    ensures CommitOf(h, u.bank, bank) == Some(SnapshotOf(u))
  {
    var record := CommitRecord(h, SnapshotOf(u));
    var found := Record(bank);
    CommitRoundTrip(h, SnapshotOf(u));
    assert record[128..] == EncodeMarker(record[112..116]);
    assert found[128..] == EncodeMarker(found[112..116]);
    hide DecodeCommitRecord, CommitRecord, SnapshotShape;
    assert found[128] == found[128..][0] == 69;
    assert found[112..116] == record[112..116];
    assert found[..128] == record[..128];
    assert found == found[..128] + found[128..];
    assert record == record[..128] + record[128..];
  }

  /** Manifest, journal and payload mutations: the record and the header are untouched. */
  lemma ContentStep(h: Hashes, image: Image, u: Update, bank: Bank)
    requires Live(h, image, u) && Committed(h, image, u).None?
    requires Record(bank) == Record(image.At(u.bank))
    requires bank[..STAGING_BYTES] == image.At(u.bank)[..STAGING_BYTES]
    requires Prepared(h, bank, u)
    ensures SafeStep(h, image, image.With(u.bank, bank))
    ensures ActiveOf(h, image.With(u.bank, bank)) == ActiveOf(h, image)
    ensures Live(h, image.With(u.bank, bank), u)
    ensures Committed(h, image.With(u.bank, bank), u).None?
  {
    LiveShape(h, image, u);
    hide DecodeCommitRecord, DecodeStaging, Validate, Prepared, DeriveTransaction, SnapshotShape;
    TargetStep(h, image, u.bank, bank);
  }

  /** Overwriting content keeps the bank prepared when only erased bytes reach the tails
      and every journal mark stays justified. */
  lemma ContentOverwrite(h: Hashes, bank: Bank, u: Update, offset: nat, bytes: seq<byte>)
    requires Prepared(h, bank, u)
    requires MANIFEST <= offset && offset + |bytes| <= RESERVED
    requires forall i | 0 <= i < |bytes| ::
               || bytes[i] == 255
               || MANIFEST <= offset + i < MANIFEST + u.plan.manifestBytes
               || JOURNAL <= offset + i < PAYLOAD
               || PAYLOAD <= offset + i < PAYLOAD + u.plan.payloadBytes
    requires JournalSound(h, Overwrite(bank, offset, bytes), u.plan)
    ensures var after := Overwrite(bank, offset, bytes);
            && Prepared(h, after, u)
            && Record(after) == Record(bank)
            && after[..STAGING_BYTES] == bank[..STAGING_BYTES]
  {
    hide CommitRecord, JournalSound;
    var after := Overwrite(bank, offset, bytes);
    var record := CommitRecord(h, SnapshotOf(u));
    var k: nat :| RecordTorn(bank, record, k);
    assert RecordTorn(bank, record, k);
    assert Record(after) == Record(bank);
    assert RecordTorn(after, record, k);
    assert after[..STAGING_BYTES] == bank[..STAGING_BYTES];
    assert TailsErased(after, u.plan.manifestBytes, u.plan.payloadBytes);
  }

  lemma ManifestOverwrite(h: Hashes, bank: Bank, u: Update, bytes: seq<byte>)
    requires Prepared(h, bank, u) && !JournalManifestMarked(bank)
    requires |bytes| <= SECTOR
    requires |bytes| <= u.plan.manifestBytes || AllAre(255, bytes)
    ensures var after := Overwrite(bank, MANIFEST, bytes);
            && Prepared(h, after, u)
            && Record(after) == Record(bank)
            && after[..STAGING_BYTES] == bank[..STAGING_BYTES]
  {
    var after := Overwrite(bank, MANIFEST, bytes);
    forall i | 0 <= i < 128 && JournalBlockMarked(after, i)
      ensures i < BlockCount(u.plan.payloadBytes) && BlockDurable(h, after, u.plan, i)
    {
      assert JournalBlockMarked(bank, i);
      assert BlockBytes(after, u.plan.payloadBytes, i) == BlockBytes(bank, u.plan.payloadBytes, i);
    }
    ContentOverwrite(h, bank, u, MANIFEST, bytes);
  }

  lemma BlockOverwrite(h: Hashes, bank: Bank, u: Update, index: nat, bytes: seq<byte>)
    requires Prepared(h, bank, u)
    requires index < BlockCount(u.plan.payloadBytes) && !JournalBlockMarked(bank, index)
    requires |bytes| <= SECTOR
    requires |bytes| <= BlockLength(u.plan.payloadBytes, index) || AllAre(255, bytes)
    ensures var after := Overwrite(bank, PAYLOAD + index * SECTOR, bytes);
            && Prepared(h, after, u)
            && Record(after) == Record(bank)
            && after[..STAGING_BYTES] == bank[..STAGING_BYTES]
            && (forall i | 0 <= i < BlockCount(u.plan.payloadBytes) && i != index ::
                  BlockBytes(after, u.plan.payloadBytes, i) == BlockBytes(bank, u.plan.payloadBytes, i))
            && ManifestBytes(after, u.plan.manifestBytes) == ManifestBytes(bank, u.plan.manifestBytes)
  {
    var offset := PAYLOAD + index * SECTOR;
    var after := Overwrite(bank, offset, bytes);
    assert ManifestBytes(after, u.plan.manifestBytes) == ManifestBytes(bank, u.plan.manifestBytes);
    forall i | 0 <= i < BlockCount(u.plan.payloadBytes) && i != index
      ensures BlockBytes(after, u.plan.payloadBytes, i) == BlockBytes(bank, u.plan.payloadBytes, i)
    {
      assert i * SECTOR + SECTOR <= index * SECTOR || index * SECTOR + SECTOR <= i * SECTOR;
    }
    forall i | 0 <= i < 128 && JournalBlockMarked(after, i)
      ensures i < BlockCount(u.plan.payloadBytes) && BlockDurable(h, after, u.plan, i)
    {
      assert JournalBlockMarked(bank, i);
    }
    assert JournalManifestMarked(after) == JournalManifestMarked(bank);
    ContentOverwrite(h, bank, u, offset, bytes);
  }

  /** Journal writes: one byte, programmed or not. */
  lemma JournalOverwrite(h: Hashes, bank: Bank, u: Update, offset: nat, bytes: seq<byte>)
    requires Prepared(h, bank, u)
    requires JOURNAL <= offset && |bytes| <= 1 && offset + |bytes| <= PAYLOAD
    requires bytes != [] && offset == JOURNAL ==> ManifestDurable(h, bank, u.plan)
    requires bytes != [] && offset != JOURNAL ==>
               forall i | 0 <= i < 128 && JOURNAL + 1 + i / 8 == offset ::
                 !Bit(bytes[0], i % 8) ==>
                   JournalBlockMarked(bank, i)
                   || (i < BlockCount(u.plan.payloadBytes) && BlockDurable(h, bank, u.plan, i))
    ensures var after := Overwrite(bank, offset, bytes);
            && Prepared(h, after, u)
            && Record(after) == Record(bank)
            && after[..STAGING_BYTES] == bank[..STAGING_BYTES]
            && SameContent(bank, after, u.plan)
  {
    var after := Overwrite(bank, offset, bytes);
    assert ManifestBytes(after, u.plan.manifestBytes) == ManifestBytes(bank, u.plan.manifestBytes);
    forall i | 0 <= i < BlockCount(u.plan.payloadBytes)
      ensures BlockBytes(after, u.plan.payloadBytes, i) == BlockBytes(bank, u.plan.payloadBytes, i) {}
    forall i | 0 <= i < 128 && JournalBlockMarked(after, i)
      ensures i < BlockCount(u.plan.payloadBytes) && BlockDurable(h, after, u.plan, i)
    {
      if bytes == [] || JOURNAL + 1 + i / 8 != offset { assert JournalBlockMarked(bank, i); }
    }
    ContentOverwrite(h, bank, u, offset, bytes);
  }

  /** The planned manifest and payload bytes of two banks are the same. */
  predicate SameContent(bank: Bank, after: Bank, plan: Plan)
    requires PlanValid(plan)
  {
    && ManifestBytes(after, plan.manifestBytes) == ManifestBytes(bank, plan.manifestBytes)
    && forall i | 0 <= i < BlockCount(plan.payloadBytes) ::
         BlockBytes(after, plan.payloadBytes, i) == BlockBytes(bank, plan.payloadBytes, i)
  }

  // ---------- Publishing ----------

  /** Programming record bytes `start..start + j` over a bank whose record is complete up
      to `start`. */
  lemma RecordOverwrite(h: Hashes, bank: Bank, u: Update, start: nat, j: nat)
    requires Prepared(h, bank, u)
    requires start + j <= COMMIT_RECORD
    requires start == 0 || (start == 128 && Record(bank)[..128] == CommitRecord(h, SnapshotOf(u))[..128])
    ensures var record := CommitRecord(h, SnapshotOf(u));
            var after := Overwrite(bank, COMMIT + start, record[start..start + j]);
            && Prepared(h, after, u)
            && after[..COMMIT] == bank[..COMMIT]
            && (Record(bank) == record ==> after == bank)
            && (forall i | 0 <= i < COMMIT_RECORD ::
                  Record(bank)[i] == 255 || Record(bank)[i] == record[i])
  {
    var record := CommitRecord(h, SnapshotOf(u));
    var after := Overwrite(bank, COMMIT + start, record[start..start + j]);
    RecordTornFurther(h, bank, u, start, j);
    hide CommitRecord, ManifestDurable, BlockDurable, JournalSound, CommitTorn;
    assert after[..COMMIT] == bank[..COMMIT];
    SameContentSameJournal(h, bank, after, u.plan);
    assert TailsErased(after, u.plan.manifestBytes, u.plan.payloadBytes);
  }

  lemma RecordTornFurther(h: Hashes, bank: Bank, u: Update, start: nat, j: nat)
    requires CommitTorn(h, bank, u)
    requires start + j <= COMMIT_RECORD
    requires start == 0 || (start == 128 && Record(bank)[..128] == CommitRecord(h, SnapshotOf(u))[..128])
    ensures var record := CommitRecord(h, SnapshotOf(u));
            var after := Overwrite(bank, COMMIT + start, record[start..start + j]);
            && CommitTorn(h, after, u)
            && (Record(bank) == record ==> after == bank)
            && (forall i | 0 <= i < COMMIT_RECORD ::
                  Record(bank)[i] == 255 || Record(bank)[i] == record[i])
  {
    var record := CommitRecord(h, SnapshotOf(u));
    var after := Overwrite(bank, COMMIT + start, record[start..start + j]);
    var k: nat :| RecordTorn(bank, record, k);
    assert RecordTorn(bank, record, k);
    if start == 128 { BodyEndsCleared(h, bank, u); }
    hide CommitRecord, CommitTorn, SnapshotOf;
    FurtherTorn(bank, record, k, start, j);
    assert CommitTorn(h, after, u) by { TornSomewhere(h, after, u, Max(k, start + j)); }
    forall i | 0 <= i < COMMIT_RECORD ensures Record(bank)[i] == 255 || Record(bank)[i] == record[i] {}
  }

  lemma TornSomewhere(h: Hashes, bank: Bank, u: Update, k: nat)
    requires RecordTorn(bank, CommitRecord(h, SnapshotOf(u)), k)
    ensures CommitTorn(h, bank, u)
  {
  }

  lemma FurtherTorn(bank: Bank, record: seq<byte>, k: nat, start: nat, j: nat)
    requires |record| == COMMIT_RECORD && RecordTorn(bank, record, k) && start + j <= COMMIT_RECORD
    requires start == 0 || (start == 128 && Record(bank)[127] == 0)
    ensures var after := Overwrite(bank, COMMIT + start, record[start..start + j]);
            && RecordTorn(after, record, Max(k, start + j))
            && (Record(bank) == record ==> after == bank)
  {
    var after := Overwrite(bank, COMMIT + start, record[start..start + j]);
    forall i | 0 <= i < COMMIT_RECORD
      ensures Record(after)[i] == if i < Max(k, start + j) then record[i] else 255
    {
      assert Record(after)[i] == after[COMMIT + i];
      assert Record(bank)[i] == bank[COMMIT + i];
    }
    assert RecordTorn(after, record, Max(k, start + j));
    if Record(bank) == record {
      forall i | 0 <= i < BANK_SIZE ensures after[i] == bank[i] {
        if COMMIT <= i < COMMIT + COMMIT_RECORD { assert Record(bank)[i - COMMIT] == bank[i]; }
      }
    }
  }

  /** The last body byte is zero, so a body in flash is a cut at or after its end. */
  lemma BodyEndsCleared(h: Hashes, bank: Bank, u: Update)
    requires Record(bank)[..128] == CommitRecord(h, SnapshotOf(u))[..128]
    ensures Record(bank)[127] == 0
  {
    hide EncodeMarker, Join, CommitFields;
    var record := CommitRecord(h, SnapshotOf(u));
    CommitBodyLength(h, SnapshotOf(u));
    assert record[127] == EncodeCommitBody(h, SnapshotOf(u))[127] == 0;
    assert Record(bank)[127] == Record(bank)[..128][127] == record[..128][127];
  }

  lemma SameContentSameJournal(h: Hashes, bank: Bank, after: Bank, plan: Plan)
    requires PlanValid(plan) && JournalSound(h, bank, plan)
    requires after[..COMMIT] == bank[..COMMIT]
    ensures JournalSound(h, after, plan) && SameContent(bank, after, plan)
  {
    forall i: nat | i < COMMIT ensures after[i] == bank[i] {
      assert after[..COMMIT][i] == bank[..COMMIT][i];
    }
    assert ManifestBytes(after, plan.manifestBytes) == ManifestBytes(bank, plan.manifestBytes);
    forall i | 0 <= i < BlockCount(plan.payloadBytes)
      ensures BlockBytes(after, plan.payloadBytes, i) == BlockBytes(bank, plan.payloadBytes, i) {}
    forall i | 0 <= i < 128 && JournalBlockMarked(after, i)
      ensures i < BlockCount(plan.payloadBytes) && BlockDurable(h, after, plan, i)
    {
      assert JournalBlockMarked(bank, i);
    }
  }

  /** Body or marker, torn anywhere: the base stays active until the record is complete,
      and then the verified bundle of `u` takes over. */
  lemma RecordStep(h: Hashes, image: Image, u: Update, start: nat, j: nat)
    requires Live(h, image, u)
    requires start + j <= COMMIT_RECORD
    requires start == 0 || (start == 128 && Record(image.At(u.bank))[..128] == CommitRecord(h, SnapshotOf(u))[..128])
    requires ContentVerdict(h, image.At(u.bank), SnapshotOf(u)).Ok?
    ensures var bank := Overwrite(image.At(u.bank), COMMIT + start, CommitRecord(h, SnapshotOf(u))[start..start + j]);
            var after := image.With(u.bank, bank);
            && SafeStep(h, image, after)
            && Live(h, after, u)
            && ContentVerdict(h, bank, SnapshotOf(u)).Ok?
            && SameContent(image.At(u.bank), bank, u.plan)
            && (Committed(h, after, u).Some? <==> Record(bank) == CommitRecord(h, SnapshotOf(u)))
            && (Committed(h, after, u).None? ==> ActiveOf(h, after) == ActiveOf(h, image))
  {
    var s := SnapshotOf(u);
    var before := image.At(u.bank);
    var bank := Overwrite(before, COMMIT + start, CommitRecord(h, s)[start..start + j]);
    LiveIsPrepared(h, image, u);
    hide CommitRecord, Prepared, Inv, SnapshotShape, ActiveOf, Live, ContentVerdict, SafeStep, CommitOf;
    RecordOverwrite(h, before, u, start, j);
    SameContentSameJournalOf(h, before, bank, u);
    SliceOfPrefix(bank, COMMIT, 0, STAGING_BYTES);
    SliceOfPrefix(before, COMMIT, 0, STAGING_BYTES);
    assert bank[0..STAGING_BYTES] == bank[..STAGING_BYTES] && before[0..STAGING_BYTES] == before[..STAGING_BYTES];
    PublishedOrPending(h, image, u, bank);
  }

  lemma LiveIsPrepared(h: Hashes, image: Image, u: Update)
    requires Live(h, image, u)
    ensures Prepared(h, image.At(u.bank), u) && PlanValid(u.plan)
  {
  }

  lemma SameContentSameJournalOf(h: Hashes, before: Bank, bank: Bank, u: Update)
    requires Prepared(h, before, u) && bank[..COMMIT] == before[..COMMIT]
    ensures SameContent(before, bank, u.plan)
    ensures ContentVerdict(h, bank, SnapshotOf(u)) == ContentVerdict(h, before, SnapshotOf(u))
  {
    SameContentSameJournal(h, before, bank, u.plan);
    hide ContentVerdict;
    assert ManifestBytes(bank, u.plan.manifestBytes) == ManifestBytes(before, u.plan.manifestBytes);
    SliceOfPrefix(bank, COMMIT, PAYLOAD, PAYLOAD + u.plan.payloadBytes);
    SliceOfPrefix(before, COMMIT, PAYLOAD, PAYLOAD + u.plan.payloadBytes);
    VerdictOfContent(h, before, bank, SnapshotOf(u));
  }

  lemma SliceOfPrefix(bytes: seq<byte>, n: nat, from: nat, to: nat)
    requires from <= to <= n <= |bytes|
    ensures bytes[..n][from..to] == bytes[from..to]
  {
  }

  lemma VerdictOfContent(h: Hashes, before: Bank, bank: Bank, s: Snapshot)
    requires s.manifestBytes <= SECTOR && s.payloadBytes <= PAYLOAD_MAX
    requires ManifestBytes(bank, s.manifestBytes) == ManifestBytes(before, s.manifestBytes)
    requires PayloadBytes(bank, s.payloadBytes) == PayloadBytes(before, s.payloadBytes)
    ensures ContentVerdict(h, bank, s) == ContentVerdict(h, before, s)
  {
  }

  lemma PublishedOrPending(h: Hashes, image: Image, u: Update, bank: Bank)
    requires Live(h, image, u)
    requires Prepared(h, bank, u)
    requires bank[..STAGING_BYTES] == image.At(u.bank)[..STAGING_BYTES]
    requires Record(image.At(u.bank)) == CommitRecord(h, SnapshotOf(u)) ==> bank == image.At(u.bank)
    requires ContentVerdict(h, bank, SnapshotOf(u)).Ok?
    ensures var after := image.With(u.bank, bank);
            && SafeStep(h, image, after)
            && Live(h, after, u)
            && (Committed(h, after, u).Some? <==> Record(bank) == CommitRecord(h, SnapshotOf(u)))
            && (Committed(h, after, u).None? ==> ActiveOf(h, after) == ActiveOf(h, image))
  {
    var s := SnapshotOf(u);
    var after := image.With(u.bank, bank);
    LiveShape(h, image, u);
    CommitRoundTrip(h, s);
    if bank == image.At(u.bank) {
      assert after == image;
    } else if Record(bank) == CommitRecord(h, s) {
      assert Validate(h, u.bank, bank).Ok? by {
        if RecordBlank(bank) { BlankIsUncommitted(h, u.bank, bank); }
      }
      CommitStep(h, image, u, bank);
    } else {
      var k: nat :| RecordTorn(bank, CommitRecord(h, s), k);
      assert RecordTorn(bank, CommitRecord(h, s), k);
      if CommitOf(h, u.bank, bank).Some? { TornRecordCommits(h, u, bank, k); }
      TargetStep(h, image, u.bank, bank);
    }
  }

  /** Withdrawing an uncommitted update, torn anywhere. */
  lemma AbortStep(h: Hashes, image: Image, u: Update, k: nat)
    requires Live(h, image, u) && Committed(h, image, u).None? && k <= SECTOR
    ensures var bank := Overwrite(image.At(u.bank), STAGING, Fill(255, k));
            var after := image.With(u.bank, bank);
            && SafeStep(h, image, after)
            && ActiveOf(h, after) == ActiveOf(h, image)
            && Live(h, after, u) && Committed(h, after, u).None?
            && SameContent(image.At(u.bank), bank, u.plan)
            && (k == SECTOR ==> StagingOf(h, u.bank, bank).None?)
  {
    var before := image.At(u.bank);
    var bank := Overwrite(before, STAGING, Fill(255, k));
    LiveIsPrepared(h, image, u);
    LiveShape(h, image, u);
    EraseBankStep(h, image, u.bank, k);
    if k != 0 { ErasedHeader(h, u.bank, before, k); }
    HeaderSectorApart(h, before, u, k);
    hide Prepared, DecodeStaging, DecodeCommitRecord, Inv, SafeStep, SameContent, DeriveTransaction;
    assert image.With(u.bank, bank).At(u.bank.Other()) == image.At(u.bank.Other());
  }

  /** The header sector holds nothing of the content, the journal or the record. */
  lemma HeaderSectorApart(h: Hashes, before: Bank, u: Update, k: nat)
    requires Prepared(h, before, u) && k <= SECTOR
    ensures var bank := Overwrite(before, STAGING, Fill(255, k));
            Prepared(h, bank, u) && SameContent(before, bank, u.plan)
  {
    var bank := Overwrite(before, STAGING, Fill(255, k));
    hide CommitRecord, ManifestDurable, BlockDurable;
    var record := CommitRecord(h, SnapshotOf(u));
    var j: nat :| RecordTorn(before, record, j);
    assert RecordTorn(before, record, j);
    assert Record(bank) == Record(before);
    assert RecordTorn(bank, record, j);
    assert ManifestBytes(bank, u.plan.manifestBytes) == ManifestBytes(before, u.plan.manifestBytes);
    forall i | 0 <= i < BlockCount(u.plan.payloadBytes)
      ensures BlockBytes(bank, u.plan.payloadBytes, i) == BlockBytes(before, u.plan.payloadBytes, i) {}
    AbortKeepsJournal(h, before, bank, u.plan);
  }

  lemma AbortKeepsJournal(h: Hashes, before: Bank, bank: Bank, plan: Plan)
    requires PlanValid(plan) && JournalSound(h, before, plan) && SameContent(before, bank, plan)
    requires forall i | JOURNAL <= i < PAYLOAD :: bank[i] == before[i]
    ensures JournalSound(h, bank, plan)
  {
    forall i | 0 <= i < 128 && JournalBlockMarked(bank, i)
      ensures i < BlockCount(plan.payloadBytes) && BlockDurable(h, bank, plan, i)
    {
      assert JournalBlockMarked(before, i);
    }
  }
}
