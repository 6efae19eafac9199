/** Every mutation an update makes keeps the run safe, the update live and its progress
    flags true, wherever power is cut. */
module UpdateSteps {
  import opened Bytes
  import opened Flash
  import opened SoundFormat
  import opened SoundBanks
  import opened CrashInvariant
  import opened StoreView

  /** An update whose record is still incomplete, with truthful progress flags. */
  predicate Uploading(h: Hashes, image: Image, u: Update, manifestComplete: bool, blocks: seq<bool>) {
    && Live(h, image, u)
    && Committed(h, image, u).None?
    && ProgressSound(h, image.At(u.bank), u, manifestComplete, blocks)
  }

  lemma LivePlan(h: Hashes, image: Image, u: Update)
    requires Live(h, image, u)
    ensures PlanValid(u.plan)
  {
  }

  lemma ProgressKept(h: Hashes, before: Bank, bank: Bank, u: Update, manifestComplete: bool, blocks: seq<bool>)
    requires PlanValid(u.plan)
    requires ProgressSound(h, before, u, manifestComplete, blocks) && CommitOf(h, u.bank, bank).None?
    requires manifestComplete ==> ManifestBytes(bank, u.plan.manifestBytes) == ManifestBytes(before, u.plan.manifestBytes)
    requires JournalManifestMarked(bank) ==> manifestComplete
    requires forall i | 0 <= i < 128 && JournalBlockMarked(bank, i) :: blocks[i]
    requires forall i | 0 <= i < BlockCount(u.plan.payloadBytes) && blocks[i] ::
               BlockBytes(bank, u.plan.payloadBytes, i) == BlockBytes(before, u.plan.payloadBytes, i)
    ensures ProgressSound(h, bank, u, manifestComplete, blocks)
  {
    hide CommitOf, JournalBlockMarked;
  }

  /** Banks that agree on the journal and the payload agree on marks and blocks. */
  lemma PayloadFrame(before: Bank, bank: Bank, payloadBytes: nat)
    requires payloadBytes <= PAYLOAD_MAX
    requires forall i | JOURNAL <= i < RESERVED :: bank[i] == before[i]
    ensures forall i | 0 <= i < 128 :: JournalBlockMarked(bank, i) == JournalBlockMarked(before, i)
    ensures JournalManifestMarked(bank) == JournalManifestMarked(before)
    ensures forall i | 0 <= i < BlockCount(payloadBytes) ::
              BlockBytes(bank, payloadBytes, i) == BlockBytes(before, payloadBytes, i)
  {
    forall i | 0 <= i < BlockCount(payloadBytes)
      ensures BlockBytes(bank, payloadBytes, i) == BlockBytes(before, payloadBytes, i) {}
  }

  lemma PlanFits(plan: Plan)
    requires PlanValid(plan)
    ensures plan.manifestBytes <= SECTOR && plan.payloadBytes <= PAYLOAD_MAX
  {
  }

  /** Erasing or programming part of the manifest sector. */
  lemma ManifestMutation(h: Hashes, image: Image, u: Update, bytes: seq<byte>, blocks: seq<bool>)
    requires Uploading(h, image, u, false, blocks)
    requires |bytes| <= SECTOR
    requires |bytes| <= u.plan.manifestBytes || AllAre(255, bytes)
    ensures var after := image.With(u.bank, Overwrite(image.At(u.bank), MANIFEST, bytes));
            && SafeStep(h, image, after)
            && Uploading(h, after, u, false, blocks)
            && ActiveOf(h, after) == ActiveOf(h, image)
  {
    var before := image.At(u.bank);
    var bank := Overwrite(before, MANIFEST, bytes);
    UnmarkedManifest(h, before, u, blocks);
    hide Live, Prepared, SafeStep, CommitOf, ActiveOf, ProgressSound;
    LivePlan(h, image, u);
    PlanFits(u.plan);
    hide PlanValid;
    LivePrepared(h, image, u);
    ManifestOverwrite(h, before, u, bytes);
    ContentStep(h, image, u, bank);
    PayloadFrame(before, bank, u.plan.payloadBytes);
    ProgressFrame(h, before, bank, u, false, blocks);
  }

  lemma UnmarkedManifest(h: Hashes, bank: Bank, u: Update, blocks: seq<bool>)
    requires PlanValid(u.plan) && ProgressSound(h, bank, u, false, blocks)
    ensures !JournalManifestMarked(bank)
  {
  }

  lemma LivePrepared(h: Hashes, image: Image, u: Update)
    requires Live(h, image, u)
    ensures Prepared(h, image.At(u.bank), u)
  {
  }

  /** Flags stay true when marks and blocks stay, and the manifest too if it is flagged. */
  lemma ProgressFrame(h: Hashes, before: Bank, bank: Bank, u: Update, manifestComplete: bool, blocks: seq<bool>)
    requires PlanValid(u.plan)
    requires ProgressSound(h, before, u, manifestComplete, blocks)
    requires CommitOf(h, u.bank, bank).None? || AllOf(u.plan, blocks)
    requires manifestComplete ==> ManifestBytes(bank, u.plan.manifestBytes) == ManifestBytes(before, u.plan.manifestBytes)
    requires forall i | 0 <= i < 128 :: JournalBlockMarked(bank, i) == JournalBlockMarked(before, i)
    requires JournalManifestMarked(bank) == JournalManifestMarked(before)
    requires forall i | 0 <= i < BlockCount(u.plan.payloadBytes) ::
               BlockBytes(bank, u.plan.payloadBytes, i) == BlockBytes(before, u.plan.payloadBytes, i)
    ensures ProgressSound(h, bank, u, manifestComplete, blocks)
  {
    hide CommitOf, JournalBlockMarked;
  }

  predicate AllOf(plan: Plan, blocks: seq<bool>) {
    |blocks| == 128 && BlockCount(plan.payloadBytes) <= 128
    && forall i | 0 <= i < BlockCount(plan.payloadBytes) :: blocks[i]
  }

  /** Erasing or programming part of one payload sector. */
  lemma BlockMutation(h: Hashes, image: Image, u: Update, index: nat, bytes: seq<byte>,
                      manifestComplete: bool, blocks: seq<bool>)
    requires Uploading(h, image, u, manifestComplete, blocks)
    requires index < BlockCount(u.plan.payloadBytes) && !blocks[index]
    requires |bytes| <= SECTOR
    requires |bytes| <= BlockLength(u.plan.payloadBytes, index) || AllAre(255, bytes)
    ensures var after := image.With(u.bank, Overwrite(image.At(u.bank), PAYLOAD + index * SECTOR, bytes));
            && SafeStep(h, image, after)
            && Uploading(h, after, u, manifestComplete, blocks)
            && ActiveOf(h, after) == ActiveOf(h, image)
  {
    var before := image.At(u.bank);
    var bank := Overwrite(before, PAYLOAD + index * SECTOR, bytes);
    UnmarkedBlock(h, before, u, manifestComplete, blocks, index);
    LivePlan(h, image, u);
    LivePrepared(h, image, u);
    hide Live, Prepared, SafeStep, CommitOf, ActiveOf, ProgressSound, JournalSound;
    BlockOverwrite(h, before, u, index, bytes);
    ContentStep(h, image, u, bank);
    JournalFrame(before, bank);
    FlaggedBlocksKept(h, before, bank, u, manifestComplete, blocks, index);
  }

  lemma UnmarkedBlock(h: Hashes, bank: Bank, u: Update, manifestComplete: bool, blocks: seq<bool>, index: nat)
    requires PlanValid(u.plan) && ProgressSound(h, bank, u, manifestComplete, blocks)
    requires index < 128 && !blocks[index]
    ensures !JournalBlockMarked(bank, index)
  {
  }

  lemma JournalFrame(before: Bank, bank: Bank)
    requires forall i | JOURNAL <= i < PAYLOAD :: bank[i] == before[i]
    ensures forall i | 0 <= i < 128 :: JournalBlockMarked(bank, i) == JournalBlockMarked(before, i)
    ensures JournalManifestMarked(bank) == JournalManifestMarked(before)
  {
  }

  lemma FlaggedBlocksKept(h: Hashes, before: Bank, bank: Bank, u: Update, manifestComplete: bool, blocks: seq<bool>, index: nat)
    requires PlanValid(u.plan) && ProgressSound(h, before, u, manifestComplete, blocks)
    requires index < 128 && !blocks[index] && CommitOf(h, u.bank, bank).None?
    requires ManifestBytes(bank, u.plan.manifestBytes) == ManifestBytes(before, u.plan.manifestBytes)
    requires forall i | 0 <= i < 128 :: JournalBlockMarked(bank, i) == JournalBlockMarked(before, i)
    requires JournalManifestMarked(bank) == JournalManifestMarked(before)
    requires forall i | 0 <= i < BlockCount(u.plan.payloadBytes) && i != index ::
               BlockBytes(bank, u.plan.payloadBytes, i) == BlockBytes(before, u.plan.payloadBytes, i)
    ensures ProgressSound(h, bank, u, manifestComplete, blocks)
  {
    hide CommitOf, JournalBlockMarked, JournalManifestMarked;
  }

  /** Marking the manifest complete in the journal. */
  lemma MarkManifestMutation(h: Hashes, image: Image, u: Update, bytes: seq<byte>, blocks: seq<bool>)
    requires Uploading(h, image, u, true, blocks)
    requires |bytes| <= 1
    ensures var after := image.With(u.bank, Overwrite(image.At(u.bank), JOURNAL, bytes));
            && SafeStep(h, image, after)
            && Uploading(h, after, u, true, blocks)
            && ActiveOf(h, after) == ActiveOf(h, image)
            && SameContent(image.At(u.bank), after.At(u.bank), u.plan)
  {
    var before := image.At(u.bank);
    var bank := Overwrite(before, JOURNAL, bytes);
    hide Live, Prepared, SafeStep, CommitOf, ActiveOf, ProgressSound, ManifestDurable;
    LivePlan(h, image, u);
    LivePrepared(h, image, u);
    FlaggedManifest(h, before, u, blocks);
    JournalOverwrite(h, before, u, JOURNAL, bytes);
    ContentStep(h, image, u, bank);
    MarkedManifest(h, before, bank, u, blocks);
  }

  lemma FlaggedManifest(h: Hashes, bank: Bank, u: Update, blocks: seq<bool>)
    requires PlanValid(u.plan) && ProgressSound(h, bank, u, true, blocks)
    ensures ManifestDurable(h, bank, u.plan)
  {
  }

  lemma MarkedManifest(h: Hashes, before: Bank, bank: Bank, u: Update, blocks: seq<bool>)
    requires PlanValid(u.plan) && ProgressSound(h, before, u, true, blocks)
    requires CommitOf(h, u.bank, bank).None? && SameContent(before, bank, u.plan)
    requires forall i | JOURNAL < i < PAYLOAD :: bank[i] == before[i]
    ensures ProgressSound(h, bank, u, true, blocks)
  {
    hide CommitOf, ManifestBytes, BlockBytes;
    forall i | 0 <= i < 128 && JournalBlockMarked(bank, i) ensures blocks[i] {
      assert JournalBlockMarked(before, i);
    }
  }

  /** Clearing one journal bit by a read-modify-write of its byte. */
  lemma MarkBlockMutation(h: Hashes, image: Image, u: Update, index: nat, k: nat,
                          manifestComplete: bool, blocks: seq<bool>)
    requires Uploading(h, image, u, manifestComplete, blocks)
    requires index < BlockCount(u.plan.payloadBytes) && blocks[index] && k <= 1
    ensures index / 8 < 16
    ensures var offset := JOURNAL + 1 + index / 8;
            var current := image.At(u.bank)[offset];
            var after := image.With(u.bank, Overwrite(image.At(u.bank), offset, [ClearBit(current, index % 8)][..k]));
            && SafeStep(h, image, after)
            && Uploading(h, after, u, manifestComplete, blocks)
            && ActiveOf(h, after) == ActiveOf(h, image)
            && SameContent(image.At(u.bank), after.At(u.bank), u.plan)
  {
    var before := image.At(u.bank);
    var offset := JOURNAL + 1 + index / 8;
    var bytes := [ClearBit(before[offset], index % 8)][..k];
    var bank := Overwrite(before, offset, bytes);
    MarkedBits(before, index, k);
    JournalOverwrite(h, before, u, offset, bytes);
    ContentStep(h, image, u, bank);
    hide Live, Prepared, SafeStep, CommitOf;
    ProgressKept(h, before, bank, u, manifestComplete, blocks);
  }

  /** The bits of the new journal byte are the old ones and the one being cleared. */
  lemma MarkedBits(before: Bank, index: nat, k: nat)
    requires index < 128 && k <= 1
    ensures var offset := JOURNAL + 1 + index / 8;
            var bytes := [ClearBit(before[offset], index % 8)][..k];
            var bank := Overwrite(before, offset, bytes);
            && (bytes != [] ==> forall i | 0 <= i < 128 && JOURNAL + 1 + i / 8 == offset ::
                  !Bit(bytes[0], i % 8) ==> JournalBlockMarked(before, i) || i == index)
            && (forall i | 0 <= i < 128 && JournalBlockMarked(bank, i) ::
                  JournalBlockMarked(before, i) || i == index)
            && JournalManifestMarked(bank) == JournalManifestMarked(before)
  {
    var offset := JOURNAL + 1 + index / 8;
    var marked := ClearBit(before[offset], index % 8);
    var bank := Overwrite(before, offset, [marked][..k]);
    forall i | 0 <= i < 128 && JOURNAL + 1 + i / 8 == offset && !Bit(marked, i % 8)
      ensures JournalBlockMarked(before, i) || i == index
    {
      ClearBitClears(before[offset], index % 8, i % 8);
    }
    hide ClearBit, Bit;
    forall i | 0 <= i < 128 && JournalBlockMarked(bank, i)
      ensures JournalBlockMarked(before, i) || i == index
    {
      assert bank[JOURNAL + 1 + i / 8] == before[JOURNAL + 1 + i / 8] || i / 8 == index / 8;
    }
  }

  lemma RecordElsewhere(before: Bank, start: nat, bytes: seq<byte>)
    requires start + |bytes| <= COMMIT_RECORD
    ensures forall i | 0 <= i < COMMIT :: Overwrite(before, COMMIT + start, bytes)[i] == before[i]
  {
  }

  /** Programming part of the commit record once the content is verified. */
  lemma RecordMutation(h: Hashes, image: Image, u: Update, start: nat, j: nat,
                       manifestComplete: bool, blocks: seq<bool>)
    requires Live(h, image, u)
    requires ProgressSound(h, image.At(u.bank), u, manifestComplete, blocks)
    requires AllOf(u.plan, blocks)
    requires start + j <= COMMIT_RECORD
    requires start == 0 || (start == 128 && Record(image.At(u.bank))[..128] == CommitRecord(h, SnapshotOf(u))[..128])
    requires ContentVerdict(h, image.At(u.bank), SnapshotOf(u)).Ok?
    ensures var bank := Overwrite(image.At(u.bank), COMMIT + start, CommitRecord(h, SnapshotOf(u))[start..start + j]);
            var after := image.With(u.bank, bank);
            && SafeStep(h, image, after)
            && Live(h, after, u)
            && ProgressSound(h, bank, u, manifestComplete, blocks)
            && ContentVerdict(h, bank, SnapshotOf(u)).Ok?
            && SameContent(image.At(u.bank), bank, u.plan)
            && (Committed(h, after, u).Some? <==> Record(bank) == CommitRecord(h, SnapshotOf(u)))
            && (Committed(h, after, u).None? ==> ActiveOf(h, after) == ActiveOf(h, image))
  {
    var before := image.At(u.bank);
    var bank := Overwrite(before, COMMIT + start, CommitRecord(h, SnapshotOf(u))[start..start + j]);
    hide Live, Prepared, SafeStep, CommitOf, CommitRecord, ContentVerdict, ActiveOf, ProgressSound;
    LivePlan(h, image, u);
    PlanFits(u.plan);
    hide Inv, Overwrite;
    RecordStep(h, image, u, start, j);
    RecordElsewhere(before, start, CommitRecord(h, SnapshotOf(u))[start..start + j]);
    PayloadFrame(before, bank, u.plan.payloadBytes);
    ProgressFrame(h, before, bank, u, manifestComplete, blocks);
  }

  /** Programming a record that is erased or already programmed the same cannot be refused. */
  lemma RecordIsProgrammable(h: Hashes, image: Image, u: Update, start: nat)
    requires Live(h, image, u)
    requires start == 0 || (start == 128 && Record(image.At(u.bank))[..128] == CommitRecord(h, SnapshotOf(u))[..128])
    ensures var record := CommitRecord(h, SnapshotOf(u));
            && Programmable(image.At(u.bank), COMMIT, record[..128])
            && Programmable(image.At(u.bank), COMMIT + 128, record[128..])
  {
    var bank := image.At(u.bank);
    var record := CommitRecord(h, SnapshotOf(u));
    RecordTornFurther(h, bank, u, start, 0);
    hide CommitRecord, Live;
    forall i | 0 <= i < COMMIT_RECORD ensures bank[COMMIT + i] == 255 || bank[COMMIT + i] == record[i] {
      assert Record(bank)[i] == bank[COMMIT + i];
    }
    forall i | 0 <= i < 16 ensures bank[COMMIT + 128 + i] == 255 || bank[COMMIT + 128 + i] == record[128..][i] {
      assert record[128..][i] == record[128 + i];
      assert bank[COMMIT + (128 + i)] == 255 || bank[COMMIT + (128 + i)] == record[128 + i];
    }
    RetryIsProgrammable(bank, COMMIT, record[..128]);
    RetryIsProgrammable(bank, COMMIT + 128, record[128..]);
  }

  /** Withdrawing an update by erasing its header sector. */
  lemma AbortMutation(h: Hashes, image: Image, u: Update, k: nat, manifestComplete: bool, blocks: seq<bool>)
    requires Uploading(h, image, u, manifestComplete, blocks) && k <= SECTOR
    ensures var after := image.With(u.bank, Overwrite(image.At(u.bank), STAGING, Fill(255, k)));
            && SafeStep(h, image, after)
            && Uploading(h, after, u, manifestComplete, blocks)
            && ActiveOf(h, after) == ActiveOf(h, image)
            && SameContent(image.At(u.bank), after.At(u.bank), u.plan)
            && (k == SECTOR ==> StagingOf(h, u.bank, after.At(u.bank)).None?)
  {
    var before := image.At(u.bank);
    var bank := Overwrite(before, STAGING, Fill(255, k));
    hide Live, Prepared, SafeStep, CommitOf, ActiveOf, ProgressSound;
    LivePlan(h, image, u);
    PlanFits(u.plan);
    AbortStep(h, image, u, k);
    PayloadFrame(before, bank, u.plan.payloadBytes);
    ProgressFrame(h, before, bank, u, manifestComplete, blocks);
  }

  /** A programmed unit is durable: its hashes are those of the client's bytes. */
  lemma ProgrammedManifest(bank: Bank, plan: Plan, manifest: seq<byte>)
    requires PlanValid(plan) && |manifest| == plan.manifestBytes
    ensures ManifestBytes(Overwrite(bank, MANIFEST, manifest), |manifest|) == manifest
  {
  }

  lemma ProgrammedBlock(bank: Bank, plan: Plan, index: nat, data: seq<byte>)
    requires PlanValid(plan) && index < BlockCount(plan.payloadBytes)
    requires |data| == BlockLength(plan.payloadBytes, index)
    ensures BlockBytes(Overwrite(bank, PAYLOAD + index * SECTOR, data), plan.payloadBytes, index) == data
  {
  }

  // ---------- The beginning and the end of an update ----------

  /** A bank that carries exactly the staging header of `u` is where `u` starts. */
  lemma FreshUpdate(h: Hashes, image: Image, u: Update, before: Image)
    requires Inv(h, image) && GenerationOf(ActiveOf(h, before)) < MAX_GENERATION
    requires ActiveOf(h, before) == ActiveOf(h, image)
    requires u == NextOf(h, before, u.plan) && BaseMatches(ActiveOf(h, before), u.plan)
    requires PlanValid(u.plan)
    requires StagingOf(h, u.bank, image.At(u.bank)) == Some(u)
    requires CommitOf(h, u.bank, image.At(u.bank)).None?
    requires Prepared(h, image.At(u.bank), u)
    ensures Live(h, image, u)
  {
    hide DecodeCommitRecord, DecodeStaging, Validate, Prepared, DeriveTransaction;
  }

  lemma NothingMarked(h: Hashes, u: Update, bank: Bank)
    requires PlanValid(u.plan)
    requires Erased(bank, STAGING_BYTES, BANK_SIZE)
    requires CommitOf(h, u.bank, bank).None?
    ensures ProgressSound(h, bank, u, false, seq(128, _ => false))
  {
    hide CommitOf;
    forall i | 0 <= i < 128 ensures !JournalBlockMarked(bank, i) {
      ErasedByteHasEveryBit(i % 8);
    }
  }

  /** Staged and still possible means live. */
  lemma StagedIsLive(h: Hashes, image: Image, id: BankId)
    requires Inv(h, image)
    requires CommitOf(h, id, image.At(id)).None?
    requires StagingOf(h, id, image.At(id)).Some?
    requires var u := StagingOf(h, id, image.At(id)).value;
             u.generation == GenerationOf(ActiveOf(h, image)) + 1 && BaseMatches(ActiveOf(h, image), u.plan)
    ensures Live(h, image, StagingOf(h, id, image.At(id)).value)
    ensures StagingOf(h, id, image.At(id)).value.bank == id
  {
    StagedBank(h, id, image.At(id));
    hide DecodeCommitRecord, DecodeStaging, Validate, Prepared, DeriveTransaction;
  }

  /** Once the update is over its bank is seen as flash has it. */
  lemma UpdateOver(h: Hashes, image: Image, u: Update)
    requires Live(h, image, u) && Committed(h, image, u).None?
    ensures Visible(h, image, Some(u)) == Visible(h, image, None)
    ensures Visible(h, image, None).active == ActiveOf(h, image)
  {
    hide DecodeCommitRecord;
  }

  /** Two consecutive banks never split. */
  lemma NeverSplit(h: Hashes, image: Image, update: Option<Update>)
    requires Inv(h, image)
    ensures !Visible(h, image, update).splitBrain
    ensures Visible(h, image, None).active == ActiveOf(h, image)
    ensures StrictSelection(h, image) == Visible(h, image, None)
  {
    hide DecodeCommitRecord, StagingInv;
  }
}
