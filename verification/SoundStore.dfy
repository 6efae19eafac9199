/** The two-bank sound store: one owner, one update at a time, leases on what is playing. */
module SoundStore {
  import opened Bytes
  import opened Flash
  import opened SoundFormat
  import opened SoundBanks
  import opened CrashInvariant
  import opened BankChecks
  import opened StoreView
  import opened UnitShapes
  import opened UpdateSteps

  datatype Identity = Identity(generation: u64, bank: BankId, transaction: TransactionId)

  datatype Outcome = Active(update: Update) | Committed(snapshot: Snapshot) | Unknown

  predicate UsedId(leases: seq<Option<Lease>>, id: int) {
    exists i | 0 <= i < |leases| :: leases[i].Some? && leases[i].value.id == id
  }

  /** The `k`-th id tried from `start` on; zero is skipped. */
  function Candidate(start: u64, k: nat): int {
    if start + k <= MAX_GENERATION then start + k else start + k - MAX_GENERATION
  }

  /** Eight slots with one free cannot use up as many ids as there are slots. */
  lemma SomeCandidateFree(leases: seq<Option<Lease>>, start: u64, free: nat)
    requires |leases| == MAX_LEASES && free < MAX_LEASES && leases[free].None? && start != 0
    ensures !forall k | 0 <= k < MAX_LEASES :: UsedId(leases, Candidate(start, k))
  {
    if forall k | 0 <= k < MAX_LEASES :: UsedId(leases, Candidate(start, k)) {
      var tried := set k | 0 <= k < MAX_LEASES :: Candidate(start, k);
      CandidatesDistinct(start, MAX_LEASES);
      var used := UsedIds(leases, MAX_LEASES);
      UsedIdsBound(leases, MAX_LEASES, free);
      forall id | id in tried ensures id in used {
        var i :| 0 <= i < |leases| && leases[i].Some? && leases[i].value.id == id;
        UsedIdsHold(leases, MAX_LEASES, i);
      }
      Fewer(tried, used);
      assert false;
    }
  }

  lemma AddOne(a: set<int>, x: int)
    ensures |a + {x}| <= |a| + 1
  {
    if x in a { assert a + {x} == a; }
  }

  lemma {:induction false} CandidatesDistinct(start: u64, n: nat)
    requires start != 0 && n <= MAX_LEASES
    ensures |set k | 0 <= k < n :: Candidate(start, k)| == n
  {
    if n > 0 {
      CandidatesDistinct(start, n - 1);
      assert (set k | 0 <= k < n :: Candidate(start, k))
          == (set k | 0 <= k < n - 1 :: Candidate(start, k)) + {Candidate(start, n - 1)};
    }
  }

  function UsedIds(leases: seq<Option<Lease>>, n: nat): set<int>
    requires n <= |leases|
  {
    if n == 0 then {}
    else UsedIds(leases, n - 1) + (if leases[n - 1].Some? then {leases[n - 1].value.id} else {})
  }

  lemma {:induction false} UsedIdsBound(leases: seq<Option<Lease>>, n: nat, free: nat)
    requires n <= |leases| && free < |leases| && leases[free].None?
    ensures |UsedIds(leases, n)| <= if free < n then n - 1 else n
  {
    if n > 0 {
      UsedIdsBound(leases, n - 1, free);
      if leases[n - 1].Some? { AddOne(UsedIds(leases, n - 1), leases[n - 1].value.id); }
    }
  }

  lemma {:induction false} UsedIdsHold(leases: seq<Option<Lease>>, n: nat, i: nat)
    requires i < n <= |leases| && leases[i].Some?
    ensures leases[i].value.id in UsedIds(leases, n)
  {
    if i < n - 1 { UsedIdsHold(leases, n - 1, i); }
  }

  const NO_BLOCKS: seq<bool> := seq(128, _ => false)

  function IdentityOf(u: Update): Identity { Identity(u.generation, u.bank, u.transaction) }

  /** What a commit must answer, read off the bank. */
  function CommitVerdict(h: Hashes, bank: Bank, u: Update): StoreResult
    requires PlanValid(u.plan)
  {
    if !ManifestVerdictOf(h, bank, u.plan).Ok? then ManifestVerdictOf(h, bank, u.plan)
    else if exists i | 0 <= i < BlockCount(u.plan.payloadBytes) :: !BlockDurable(h, bank, u.plan, i) then Incomplete
    else ContentVerdict(h, bank, SnapshotOf(u))
  }

  /** Every hash of the plan is that of the bytes in the bank, and the manifest is grammatical. */
  predicate AsPlanned(h: Hashes, bank: Bank, plan: Plan) {
    && plan.manifestBytes <= SECTOR && plan.payloadBytes <= PAYLOAD_MAX
    && var manifest, payload := ManifestBytes(bank, plan.manifestBytes), PayloadBytes(bank, plan.payloadBytes);
    && h.crc32(manifest) == plan.manifestCrc && h.sha256(manifest) == plan.manifestSha
    && (forall i | 0 <= i < BlockCount(plan.payloadBytes) && i < 128 ::
          h.crc32(bank[PAYLOAD + i * SECTOR..PAYLOAD + i * SECTOR + BlockLength(plan.payloadBytes, i)]) == plan.blockCrcs[i])
    && h.manifest(manifest, payload).Canonical?
    && h.sha256(BundleInput(manifest, payload)) == plan.bundleSha
  }

  /** A commit is accepted exactly when all that holds; a wrong bundle digest alone is a hash
      mismatch. */
  lemma CommitMeans(h: Hashes, bank: Bank, u: Update)
    requires PlanValid(u.plan)
    ensures CommitVerdict(h, bank, u).Ok? <==> AsPlanned(h, bank, u.plan)
    ensures ManifestDurable(h, bank, u.plan) && (forall i | 0 <= i < BlockCount(u.plan.payloadBytes) :: BlockDurable(h, bank, u.plan, i))
            && h.manifest(ManifestBytes(bank, u.plan.manifestBytes), PayloadBytes(bank, u.plan.payloadBytes)).Canonical?
            && h.sha256(BundleInput(ManifestBytes(bank, u.plan.manifestBytes), PayloadBytes(bank, u.plan.payloadBytes))) != u.plan.bundleSha
            ==> CommitVerdict(h, bank, u).HashMismatch?
  {
    hide BundleInput, PayloadBytes, ManifestBytes;
    PlanFits(u.plan);
    BlocksFit(u.plan);
    hide PlanValid;
    forall i | 0 <= i < BlockCount(u.plan.payloadBytes)
      ensures BlockDurable(h, bank, u.plan, i)
         <==> h.crc32(bank[PAYLOAD + i * SECTOR..PAYLOAD + i * SECTOR + BlockLength(u.plan.payloadBytes, i)]) == u.plan.blockCrcs[i] {}
    hide BlockDurable, BlockLength;
  }

  lemma InBlock(length: nat, k: nat)
    requires k < length
    ensures k / SECTOR < BlockCount(length)
    ensures 0 <= k - k / SECTOR * SECTOR < BlockLength(length, k / SECTOR)
  {
  }

  lemma SameBytes(before: Bank, after: Bank, plan: Plan)
    requires PlanValid(plan) && SameContent(before, after, plan)
    ensures ManifestBytes(after, plan.manifestBytes) == ManifestBytes(before, plan.manifestBytes)
    ensures PayloadBytes(after, plan.payloadBytes) == PayloadBytes(before, plan.payloadBytes)
  {
    forall k | 0 <= k < plan.payloadBytes
      ensures PayloadBytes(after, plan.payloadBytes)[k] == PayloadBytes(before, plan.payloadBytes)[k]
    {
      var i := k / SECTOR;
      InBlock(plan.payloadBytes, k);
      assert BlockBytes(after, plan.payloadBytes, i)[k - i * SECTOR] == BlockBytes(before, plan.payloadBytes, i)[k - i * SECTOR];
    }
  }

  /** The same bytes keep the same promises. */
  lemma PlannedKept(h: Hashes, before: Bank, after: Bank, plan: Plan)
    requires PlanValid(plan) && SameContent(before, after, plan) && AsPlanned(h, before, plan)
    ensures AsPlanned(h, after, plan)
  {
    SameBytes(before, after, plan);
    BlocksFit(plan);
    forall i | 0 <= i < BlockCount(plan.payloadBytes) && i < 128
      ensures h.crc32(after[PAYLOAD + i * SECTOR..PAYLOAD + i * SECTOR + BlockLength(plan.payloadBytes, i)]) == plan.blockCrcs[i]
    {
      assert BlockBytes(after, plan.payloadBytes, i) == BlockBytes(before, plan.payloadBytes, i);
    }
    hide BundleInput, PayloadBytes, ManifestBytes, BlockBytes;
  }

  /** From image `from` on, bank `id` has not changed. */
  ghost predicate Kept(history: seq<Image>, from: nat, id: BankId) {
    0 < from <= |history| && forall k | from <= k < |history| :: history[k].At(id) == history[from - 1].At(id)
  }

  class SoundAssetStore {
    const h: Hashes
    const storage: FlashStorage

    var selection: Option<Selection>
    var readSelection: Option<Selection>
    var readResult: StoreResult
    var update: Option<Update>
    var manifestComplete: bool
    var payloadComplete: seq<bool>
    var leases: seq<Option<Lease>>
    var nextLease: u64

    /** Every image so far was reached by safe steps, and memory claims only what flash says. */
    ghost predicate Valid()
      reads this, storage
    {
      && |storage.history| > 0
      && SafeRun(h, storage.history)
      && storage.history[|storage.history| - 1] == storage.image
      && MemorySound()
    }

    ghost predicate MemorySound()
      reads this, storage
    {
      && SelectionSound(h, storage.image, update, selection)
      && ReadSound(h, storage.image, update, readSelection, readResult)
      && LeasesSound(h, storage.image, update, leases)
      && nextLease != 0
      && UpdateSound(h, storage.image, update, manifestComplete, payloadComplete)
    }

    /** The one state in which a resent manifest would damage a committed bundle: the
        record is complete in flash, but neither that nor the manifest is known in memory. */
    predicate Exposed()
      reads this, storage
    {
      update.Some? && CommitOf(h, update.value.bank, storage.image.At(update.value.bank)).Some? && !manifestComplete
    }

    /** No leased bank has changed, not even in passing. */
    twostate predicate LeasedBanksKept()
      reads this, storage
    {
      && old(storage.history) <= storage.history
      && forall id | Pinned(old(leases), id) :: Kept(storage.history, |old(storage.history)|, id)
    }

    /** Reboot: a new store over whatever the flash holds. */
    constructor (h: Hashes, storage: FlashStorage)
      requires SafeRun(h, storage.history) && storage.history[|storage.history| - 1] == storage.image
      ensures this.h == h && this.storage == storage
      ensures Valid() && update.None?
      ensures forall id :: !Pinned(leases, id)
    {
      this.h := h;
      this.storage := storage;
      selection := None;
      readSelection := None;
      readResult := StoreResult.Unavailable;
      update := None;
      manifestComplete := false;
      payloadComplete := NO_BLOCKS;
      leases := seq(MAX_LEASES, _ => None);
      nextLease := 1;
    }

    lemma ImageIsInv()
      requires Valid()
      ensures Inv(h, storage.image)
    {
      hide Inv, SafeStep, SelectionSound, ReadSound, LeasesSound, UpdateSound;
      RunIsInv(h, storage.history, |storage.history| - 1);
    }

    method Unscan()
      modifies this`selection, this`readSelection, this`readResult
      ensures selection.None? && readSelection.None? && readResult.Unavailable?
    {
      selection := None;
      readSelection := None;
      readResult := StoreResult.Unavailable;
    }

    /** Both banks strictly validated; bank B is not looked at when bank A cannot be read. */
    method ValidateBanks() returns (r: StoreResult, a: StoreResult, b: StoreResult, found: Selection)
      ensures r.Ok? || Faulted(r)
      ensures storage.Healthy() ==> r.Ok?
      ensures r.Ok? ==> found == StrictSelection(h, storage.image)
      ensures r.Ok? ==> a == Validate(h, A, storage.image.a) && b == Validate(h, B, storage.image.b)
    {
      hide Validate, CommitOf, Select;
      found, b := NO_SELECTION, FactoryBlank;
      var bankA, bankB: Option<Snapshot>;
      a, bankA := ValidateBank(h, storage, A);
      if !a.Ok? && !NonFatal(a) { return a, a, b, found; }
      b, bankB := ValidateBank(h, storage, B);
      if !b.Ok? && !NonFatal(b) { return b, a, b, found; }
      found := Select(bankA, bankB);
      r := StoreResult.Ok;
    }

    method Scan() returns (r: StoreResult)
      requires Valid()
      modifies this`selection, this`readSelection, this`readResult
      ensures Valid()
      ensures update.Some? ==> r.Busy? && selection == old(selection)
      ensures update.None? ==> r.Ok? || Faulted(r)
      ensures update.None? && storage.Healthy() ==> r.Ok?
      ensures r.Ok? ==> selection == Some(StrictSelection(h, storage.image)) && update.None?
    {
      hide Inv, SafeRun, StrictSelection, Visible, LeasesSound, UpdateSound, Validate, Select, CommitOf, ActiveOf, RecordBlank;
      if update.Some? { return Busy; }
      ImageIsInv();
      NeverSplit(h, storage.image, update);
      Unscan();
      var a, b, found;
      r, a, b, found := ValidateBanks();
      if !r.Ok? { return; }
      selection := Some(found);
      readSelection := selection;
      readResult := Disposition(found, a.FactoryBlank? && b.FactoryBlank?);
      r := if found.splitBrain then SplitBrain else StoreResult.Ok;
    }

    // ---------- Queries ----------

    /** The reconciliation query never answers from memory. */
    method QueryCurrentActive() returns (r: StoreResult, active: Option<Snapshot>)
      requires Valid()
      modifies this
      ensures Valid() && leases == old(leases) && nextLease == old(nextLease)
      ensures r.Ok? || Faulted(r)
      ensures storage.Healthy() ==> r.Ok?
      ensures r.Ok? ==> active == ActiveOf(h, storage.image)
      ensures r.Ok? ==>
                update == if old(update).Some? && CommitOf(h, old(update).value.bank, storage.image.At(old(update).value.bank)).None?
                          then old(update) else None
      ensures !r.Ok? ==> active.None? && update == old(update)
      ensures (manifestComplete == old(manifestComplete) && payloadComplete == old(payloadComplete)) || update.None?
    {
      hide Inv, SafeRun, StrictSelection, Live, ProgressSound, CommitOf, Select, Visible, LeasesSound, Validate, ActiveOf;
      active := None;
      ImageIsInv();
      NeverSplit(h, storage.image, None);
      var a, b, found;
      r, a, b, found := ValidateBanks();
      if !r.Ok? {
        Unscan();
        return;
      }
      // With consecutive banks the split-brain answer of the source is unreachable.
      assert !found.splitBrain;
      if update.Some? {
        UpdateFound(h, storage.image, update.value);
        LeasesOutliveUpdate(h, storage.image, update.value, leases);
      }
      selection := Some(found);
      readSelection := selection;
      readResult := Disposition(found, a.FactoryBlank? && b.FactoryBlank?);
      if update.Some? && found.active.Some? && found.active.value.bank == update.value.bank
         && found.active.value.generation == update.value.generation {
        if found.active.value.transaction != update.value.transaction
           || found.active.value.bundleSha != update.value.plan.bundleSha {
          return TransactionMismatch, None;
        }
        ClearUpdate();
      }
      active := found.active;
    }

    /** Asks memory first, then the strictly validated banks. */
    method QueryTransactionOutcome(transaction: TransactionId) returns (r: StoreResult, outcome: Outcome)
      requires Valid()
      modifies this`selection, this`readSelection, this`readResult
      ensures Valid()
      ensures AllAre(0, transaction) <==> r.InvalidArgument?
      ensures r.Ok? && outcome.Active? ==> update == Some(outcome.update) && outcome.update.transaction == transaction
      ensures r.Ok? && outcome.Committed? ==>
                && outcome.snapshot.transaction == transaction
                && CommitOf(h, outcome.snapshot.bank, storage.image.At(outcome.snapshot.bank)) == Some(outcome.snapshot)
      ensures r.Ok? && outcome.Unknown? ==>
                forall id :: BankView(h, storage.image, update, id).Some? ==>
                  BankView(h, storage.image, update, id).value.transaction != transaction
      ensures storage.Healthy() && update.None? && !AllAre(0, transaction) ==> r.Ok?
    {
      hide Inv, SafeRun, Live, ProgressSound, CommitOf, LeasesSound, Validate, ActiveOf;
      outcome := Unknown;
      if AllAre(0, transaction) { return StoreResult.InvalidArgument, outcome; }
      if update.Some? && update.value.transaction == transaction {
        return StoreResult.Ok, Active(update.value);
      }
      if selection.None? {
        r := Scan();
        if !r.Ok? && !r.SplitBrain? { return; }
      }
      r := StoreResult.Ok;
      assert selection.value == Visible(h, storage.image, update);
      BankViewBank(h, storage.image, update);
      if selection.value.bankA.Some? && selection.value.bankA.value.transaction == transaction {
        outcome := Committed(selection.value.bankA.value);
      } else if selection.value.bankB.Some? && selection.value.bankB.value.transaction == transaction {
        outcome := Committed(selection.value.bankB.value);
      }
    }

    /** Memory-only report of an update; every completed unit it names is durable. */
    method UpdateProgress() returns (r: StoreResult, manifestDone: bool, blocksDone: seq<bool>)
      requires Valid()
      ensures r == if update.Some? then StoreResult.Ok else TransactionMismatch
      ensures r.Ok? ==> PlanValid(update.value.plan) && |blocksDone| == BlockCount(update.value.plan.payloadBytes)
      ensures r.Ok? && manifestDone ==> ManifestDurable(h, storage.image.At(update.value.bank), update.value.plan)
      ensures r.Ok? ==> manifestDone == manifestComplete && blocksDone <= payloadComplete
      ensures r.Ok? ==> forall i | 0 <= i < |blocksDone| && blocksDone[i] ::
                BlockDurable(h, storage.image.At(update.value.bank), update.value.plan, i)
    {
      hide Inv, SafeRun, CommitOf, LeasesSound, Visible, Validate;
      if update.None? { return TransactionMismatch, false, []; }
      LivePlan(h, storage.image, update.value);
      hide Live;
      r, manifestDone := StoreResult.Ok, manifestComplete;
      blocksDone := payloadComplete[..BlockCount(update.value.plan.payloadBytes)];
    }

    // ---------- Reading ----------

    /** The cold-start selection: commit records and one manifest only. */
    method ScanCommittedContent() returns (r: StoreResult)
      requires Valid()
      modifies this`readSelection, this`readResult
      ensures Valid()
      ensures update.Some? ==> r.Busy? && readSelection == old(readSelection) && readResult == old(readResult)
      ensures update.None? ==> r.Ok? || r.FactoryBlank? || Faulted(r)
      ensures update.None? ==> (r.Ok? <==> readSelection.Some? && readSelection.value.active.Some?)
      ensures update.None? && storage.Healthy() ==> readSelection.Some?
      ensures r.Ok? ==> readResult.Ok?
    {
      hide Inv, SafeRun, CommitOf, StrictSelection, LeasesSound, UpdateSound, SelectionSound, Select, Visible, ActiveOf;
      if update.Some? { return Busy; }
      readSelection := None;
      readResult := StoreResult.Unavailable;
      var found: Selection;
      ImageIsInv();
      ScansAgree(h, storage.image);
      NeverSplit(h, storage.image, None);
      r, found := FastScan(h, storage);
      if Faulted(r) { return; }
      readSelection := Some(found);
      readResult := if r.FactoryBlank? then r else Disposition(found, false);
      r := readResult;
    }

    /** Leases pin the bundle that is being served; an update in progress serves its base. */
    method AcquireActiveRead() returns (r: StoreResult, lease: Option<Lease>)
      requires Valid()
      modifies this`readSelection, this`readResult, this`leases, this`nextLease
      ensures Valid()
      ensures r.Ok? <==> lease.Some?
      ensures r.Ok? ==>
                && var active := Visible(h, storage.image, update).active;
                && active.Some? && active.value.bank == lease.value.bank
                && active.value.generation == lease.value.generation
                && active.value.bundleSha == lease.value.bundleSha
      ensures r.Ok? ==>
                && !UsedId(old(leases), lease.value.id)
                && (old(nextLease) <= lease.value.id < nextLease || nextLease <= old(nextLease))
                && exists i | 0 <= i < MAX_LEASES :: old(leases)[i].None? && leases == old(leases)[i := lease]
      ensures !r.Ok? ==> leases == old(leases)
      ensures (storage.Healthy() && update.None? && Visible(h, storage.image, update).active.Some?
               && exists i | 0 <= i < MAX_LEASES :: old(leases)[i].None?) ==> r.Ok?
    {
      hide Inv, SafeRun, CommitOf, UpdateSound, SelectionSound, Select, Visible, LeasesSound;
      lease := None;
      assert |leases| == MAX_LEASES by { LeaseSlots(h, storage.image, update, leases); }
      if readSelection.None? {
        r := ScanCommittedContent();
        if !r.Ok? { return; }
      }
      if !readResult.Ok? { return readResult, None; }
      var free := 0;
      while free < MAX_LEASES && leases[free].Some?
        invariant free <= MAX_LEASES
        invariant forall i | 0 <= i < free :: leases[i].Some?
      {
        free := free + 1;
      }
      if free == MAX_LEASES { return Busy, None; }
      var candidate: u64 := FreshId(leases, nextLease, free);
      if candidate == 0 { return Busy, None; }
      var active := readSelection.value.active.value;
      VisibleCommitted(h, storage.image, update);
      lease := Some(Lease(candidate, active.bank, active.generation, active.bundleSha));
      LeaseAdded(h, storage.image, update, leases, free, lease.value);
      leases := leases[free := lease];
      nextLease := if candidate == MAX_GENERATION then 1 else candidate + 1;
      r := StoreResult.Ok;
    }

    /** Exactly the lease that was handed out, and only once. */
    method ReleaseRead(lease: Option<Lease>) returns (r: StoreResult)
      requires Valid()
      modifies this`leases
      ensures Valid()
      ensures r == if lease.None? then StoreResult.InvalidArgument
                   else if lease in old(leases) then StoreResult.Ok
                   else TransactionMismatch
      ensures r.Ok? ==> exists i | 0 <= i < MAX_LEASES :: old(leases)[i] == lease && leases == old(leases)[i := None]
      ensures r.Ok? ==> !UsedId(leases, lease.value.id)
      ensures !r.Ok? ==> leases == old(leases)
    {
      hide Inv, SafeRun, CommitOf, UpdateSound, SelectionSound, Select, Visible;
      if lease.None? { return StoreResult.InvalidArgument; }
      var i := 0;
      while i < MAX_LEASES
        invariant i <= MAX_LEASES
        invariant forall j | 0 <= j < i :: leases[j] != lease
        invariant leases == old(leases) && |leases| == MAX_LEASES
      {
        if leases[i] == lease {
          assert LeaseLive(h, storage.image, update, lease.value);
          leases := leases[i := None];
          return StoreResult.Ok;
        }
        i := i + 1;
      }
      r := TransactionMismatch;
    }

    // ---------- Resuming ----------

    /** Adopts a durable staging header and reports exactly the units that are durable. */
    method LoadStaging(id: BankId, transaction: TransactionId) returns (r: StoreResult)
      requires Valid() && update.None? && selection.Some?
      requires selection.value.At(id).None? && !Pinned(leases, id)
      modifies this`update, this`manifestComplete, this`payloadComplete
      ensures Valid()
      ensures r.IoError? || r == LoadVerdict(h, storage.image, id, transaction)
      ensures storage.Healthy() ==> !r.IoError?
      ensures r.Ok? ==> update.Some? && update == StagingOf(h, id, storage.image.At(id))
      ensures r.Ok? ==> update.value.bank == id && update.value.transaction == transaction
      ensures r.Ok? ==> CommitOf(h, id, storage.image.At(id)).None?
      ensures r.Ok? ==> ProgressExact(h, storage.image.At(id), update.value, manifestComplete, payloadComplete)
      ensures !r.Ok? ==> update.None?
    {
      hide Inv, SafeRun, CommitOf, DecodeStaging, LeasesSound, Select, ActiveOf, Visible, Live, ProgressSound,
           DeriveTransaction, PlanValid, StrictSelection;
      ImageIsInv();
      NeverSplit(h, storage.image, None);
      var read, encoded := ReadRegion(storage, id, STAGING, STAGING_BYTES);
      if !read.Ok? { return StoreResult.IoError; }
      var staged := DecodeStaging(h, id, encoded);
      assert staged == StagingOf(h, id, storage.image.At(id));
      if staged.None? { return TransactionMismatch; }
      var u := staged.value;
      if u.transaction != transaction || !SelfAuthentic(h, u) { return TransactionMismatch; }
      var active := selection.value.active;
      if !BaseMatches(active, u.plan) || u.generation != (GenerationOf(active) + 1) % (MAX_GENERATION + 1) {
        return StaleBase;
      }
      NotVisible(h, storage.image, id);
      StagedIsLive(h, storage.image, id);
      UpdateOver(h, storage.image, u);
      LeasesAdmitUpdate(h, storage.image, u, leases);
      var blocks: seq<bool>;
      var manifest: bool;
      r, manifest, blocks := VerifyProgress(h, storage, u);
      if !r.Ok? { ClearUpdate(); return; }
      ExactIsSound(h, storage.image, u, manifest, blocks);
      update, manifestComplete, payloadComplete := staged, manifest, blocks;
    }

    method EnsureScanned() returns (r: StoreResult)
      requires Valid() && update.None?
      modifies this`selection, this`readSelection, this`readResult
      ensures Valid()
      ensures r.Ok? || Faulted(r)
      ensures storage.Healthy() ==> r.Ok?
      ensures r.Ok? ==> selection.Some? && selection.value.active == ActiveOf(h, storage.image)
      ensures r.Ok? ==> forall id :: selection.value.At(id) == CommitOf(h, id, storage.image.At(id))
    {
      hide Inv, SafeRun, CommitOf, LeasesSound, Select, ActiveOf, StrictSelection;
      ImageIsInv();
      NeverSplit(h, storage.image, None);
      r := StoreResult.Ok;
      if selection.None? { r := Scan(); }
      SelectKeepsBanks(BankView(h, storage.image, None, A), BankView(h, storage.image, None, B));
    }

    /** Either bank may hold the transaction; flash is not touched. */
    method ResumeUpdate(transaction: TransactionId) returns (r: StoreResult, identity: Option<Identity>)
      requires Valid()
      modifies this
      ensures Valid() && leases == old(leases) && nextLease == old(nextLease)
      ensures AllAre(0, transaction) ==> r.InvalidArgument?
      ensures !AllAre(0, transaction) && old(update).Some? ==> r.Busy?
      ensures old(update).Some? ==> manifestComplete == old(manifestComplete) && payloadComplete == old(payloadComplete)
      ensures r.Ok? ==>
                && old(update).None? && update.Some? && update.value.transaction == transaction
                && identity == Some(IdentityOf(update.value))
                && update == StagingOf(h, update.value.bank, storage.image.At(update.value.bank))
                && ProgressExact(h, storage.image.At(update.value.bank), update.value, manifestComplete, payloadComplete)
                && CommitOf(h, update.value.bank, storage.image.At(update.value.bank)).None?
      ensures !r.Ok? ==> update == old(update) && identity.None?
      ensures storage.Healthy() && old(update).None? && r.TransactionMismatch? ==>
                forall id | !Pinned(leases, id) && CommitOf(h, id, storage.image.At(id)).None? ::
                  LoadVerdict(h, storage.image, id, transaction).TransactionMismatch?
    {
      hide Inv, SafeRun, CommitOf, StagingOf, LeasesSound, Select, ActiveOf, Visible, Live, ProgressExact, ProgressSound, LoadVerdict;
      identity := None;
      if AllAre(0, transaction) { return StoreResult.InvalidArgument, None; }
      if update.Some? { return Busy, None; }
      r := EnsureScanned();
      if !r.Ok? { return; }
      var candidates := [A, B];
      for n := 0 to 2
        invariant Valid() && update.None? && selection.Some?
        invariant leases == old(leases) && nextLease == old(nextLease)
        invariant forall id :: selection.value.At(id) == CommitOf(h, id, storage.image.At(id))
        invariant storage.Healthy() ==> forall k | 0 <= k < n ::
          Pinned(leases, candidates[k]) || CommitOf(h, candidates[k], storage.image.At(candidates[k])).Some?
          || LoadVerdict(h, storage.image, candidates[k], transaction).TransactionMismatch?
      {
        var id := candidates[n];
        if selection.value.At(id).None? && !Pinned(leases, id) {
          r := LoadStaging(id, transaction);
          if r.Ok? {
            identity := Some(IdentityOf(update.value));
            return;
          }
          if !r.TransactionMismatch? { return; }
        }
      }
      r := TransactionMismatch;
      if storage.Healthy() {
        forall id | !Pinned(leases, id) && CommitOf(h, id, storage.image.At(id)).None?
          ensures LoadVerdict(h, storage.image, id, transaction).TransactionMismatch?
        {
          assert id == candidates[if id == A then 0 else 1];
        }
      }
    }

    // ---------- Beginning ----------

    /** Reclaiming the target, first half: the commit sector. */
    method EraseRecord(target: BankId) returns (r: StoreResult)
      requires Valid() && update.None? && selection.Some?
      requires target == TargetOf(ActiveOf(h, storage.image)) && !Pinned(leases, target)
      requires !Pending(h, storage.image)
      modifies this`selection, this`readSelection, this`readResult, storage
      ensures Valid() && storage.faults == old(storage.faults)
      ensures r.Ok? || Faulted(r)
      ensures storage.Healthy() ==> r.Ok?
      ensures ActiveOf(h, storage.image) == old(ActiveOf(h, storage.image))
      ensures r.Ok? ==> selection.Some? && CommitOf(h, target, storage.image.At(target)).None?
      ensures r.Ok? ==> Erased(storage.image.At(target), COMMIT, BANK_SIZE)
      ensures storage.history == old(storage.history) + [storage.image]
      ensures storage.image.At(target.Other()) == old(storage.image).At(target.Other())
      ensures !Pending(h, storage.image)
    {
      hide Inv, SafeRun, SafeStep, CommitOf, StagingOf, LeasesSound, Select, ActiveOf, Visible, Pending, Strict;
      ghost var before := storage.image;
      ImageIsInv();
      OldStaging(h, before, target);
      var io;
      ghost var done;
      io, done := storage.Erase(target, COMMIT, SECTOR);
      EraseRecordStep(h, before, target, done);
      OnlyOldStaging(h, storage.image, target);
      ExtendRun(h, old(storage.history), storage.image);
      ghost var bank := Overwrite(before.At(target), COMMIT, Fill(255, done));
      LeasesKept(h, before, target, bank, leases);
      r := MapIo(io);
      if !r.Ok? {
        Unscan();
        return;
      }
      ReclaimedView(h, before, target, bank);
      selection := Some(if target == A then selection.value.(bankA := None) else selection.value.(bankB := None));
    }

    /** Any mutation of a target that has no commit record, while no update is in progress. */
    ghost method TargetMutated(before: Image, history: seq<Image>, target: BankId, bank: Bank)
      requires storage.image == before.With(target, bank)
      requires storage.history == history + [storage.image]
      requires SafeRun(h, history) && history[|history| - 1] == before && SafeStep(h, before, storage.image)
      requires CommitOf(h, target, before.At(target)).None? && CommitOf(h, target, bank).None?
      requires ActiveOf(h, storage.image) == ActiveOf(h, before)
      requires update.None? && !Pinned(leases, target) && nextLease != 0
      requires SelectionSound(h, before, None, selection)
      requires ReadSound(h, before, None, readSelection, readResult)
      requires LeasesSound(h, before, None, leases)
      ensures Valid()
    {
      hide Inv, SafeRun, SafeStep, CommitOf, LeasesSound, Select, ActiveOf;
      ExtendRun(h, history, storage.image);
      LeasesKept(h, before, target, bank, leases);
      UncommittedView(h, before, target, bank);
    }

    /** Reclaiming the target, second half, and the proof that it worked. */
    method EraseRest(target: BankId, length: nat) returns (r: StoreResult)
      requires Valid() && update.None?
      requires target == TargetOf(ActiveOf(h, storage.image)) && !Pinned(leases, target)
      requires CommitOf(h, target, storage.image.At(target)).None?
      requires length == COMMIT || length == BANK_SIZE
      modifies storage
      ensures Valid() && storage.faults == old(storage.faults)
      ensures r.Ok? || r.InvalidBank? || Faulted(r)
      ensures r.Ok? ==> Erased(storage.image.At(target), 0, BANK_SIZE)
      ensures storage.Healthy() && (length == BANK_SIZE || Erased(old(storage.image).At(target), COMMIT, BANK_SIZE)) ==> r.Ok?
      ensures ActiveOf(h, storage.image) == old(ActiveOf(h, storage.image))
      ensures CommitOf(h, target, storage.image.At(target)).None?
      ensures storage.history == old(storage.history) + [storage.image]
      ensures storage.image.At(target.Other()) == old(storage.image).At(target.Other())
      ensures !old(Pending(h, storage.image)) ==> !Pending(h, storage.image)
    {
      hide Inv, SafeRun, SafeStep, CommitOf, StagingOf, LeasesSound, Select, ActiveOf, Visible;
      ghost var before := storage.image;
      ImageIsInv();
      TargetInactive(h, before);
      var io;
      ghost var done;
      io, done := storage.Erase(target, STAGING, length);
      EraseBankStep(h, before, target, done);
      ErasedIsNotPending(h, before, target, storage.image.At(target));
      TargetMutated(before, old(storage.history), target, Overwrite(before.At(target), STAGING, Fill(255, done)));
      r := MapIo(io);
      if !r.Ok? { return; }
      r := VerifyErased(storage, target, 0, BANK_SIZE);
    }

    /** Everything of the header but its magic, read back. */
    method WriteHeaderBody(u: Update) returns (r: StoreResult)
      requires Valid() && update.None? && Startable(h, storage.image, u, leases)
      requires Erased(storage.image.At(u.bank), 0, BANK_SIZE)
      modifies storage
      ensures Valid() && storage.faults == old(storage.faults)
      ensures r.Ok? || r.IoError?
      ensures storage.Healthy() ==> r.Ok?
      ensures ActiveOf(h, storage.image) == old(ActiveOf(h, storage.image))
      ensures CommitOf(h, u.bank, storage.image.At(u.bank)).None?
      ensures r.Ok? ==> storage.image.At(u.bank) == HeaderWithoutMagic(h, u, STAGING_BYTES - 4)
      ensures storage.history == old(storage.history) + [storage.image]
      ensures storage.image.At(u.bank.Other()) == old(storage.image).At(u.bank.Other())
      ensures !Pending(h, storage.image)
    {
      hide Inv, SafeRun, SafeStep, CommitOf, StagingOf, LeasesSound, Select, ActiveOf, Visible, EncodeStaging, DeriveTransaction, PlanValid,
           Programmable, HeaderWithoutMagic, SelectionSound, ReadSound, DecodeStaging;
      ghost var before := storage.image;
      ImageIsInv();
      StartableShape(h, before, u, leases);
      StagingRoundTrip(h, u);
      ErasedIsUncommitted(h, u.bank, before.At(u.bank));
      var header := EncodeStaging(h, u);
      var io;
      ghost var done;
      RetryIsProgrammable(before.At(u.bank), 4, header[4..]);
      io, done := storage.Write(u.bank, 4, header[4..]);
      HeaderBytes(h, before.At(u.bank), u, done);
      HeaderStep(h, before, u, done);
      OnlyOldStaging(h, storage.image, u.bank);
      TargetMutated(before, old(storage.history), u.bank, HeaderWithoutMagic(h, u, done));
      if !io.Ok? { return StoreResult.IoError; }
      var readback;
      r, readback := ReadRegion(storage, u.bank, 4, STAGING_BYTES - 4);
      if !r.Ok? || readback != header[4..] { r := StoreResult.IoError; }
    }

    /** The magic last: only its fourth byte makes the header valid. */
    method WriteMagic(u: Update) returns (r: StoreResult)
      requires Valid() && update.None? && Startable(h, storage.image, u, leases)
      requires storage.image.At(u.bank) == HeaderWithoutMagic(h, u, STAGING_BYTES - 4)
      requires CommitOf(h, u.bank, storage.image.At(u.bank)).None?
      modifies this`update, this`manifestComplete, this`payloadComplete, storage
      ensures Valid() && storage.faults == old(storage.faults)
      ensures r.Ok? || r.IoError?
      ensures storage.Healthy() ==> r.Ok?
      ensures ActiveOf(h, storage.image) == old(ActiveOf(h, storage.image))
      ensures update == if r.Ok? then Some(u) else None
      ensures r.Ok? ==> !manifestComplete && payloadComplete == NO_BLOCKS
      ensures r.Ok? ==> CommitOf(h, u.bank, storage.image.At(u.bank)).None?
      ensures storage.history == old(storage.history) + [storage.image]
      ensures storage.image.At(u.bank.Other()) == old(storage.image).At(u.bank.Other())
      ensures !Foreign(h, storage.image, u.plan)
      ensures Erased(storage.image.At(u.bank), STAGING_BYTES, BANK_SIZE)
    {
      hide Inv, SafeRun, SafeStep, CommitOf, StagingOf, LeasesSound, Select, ActiveOf, Visible, EncodeStaging, DeriveTransaction,
           PlanValid, Live, Prepared, ProgressSound, Foreign, Pending, Programmable;
      ghost var before := storage.image;
      ImageIsInv();
      StartableShape(h, before, u, leases);
      var io;
      ghost var done;
      RetryIsProgrammable(before.At(u.bank), 0, STAGING_MAGIC);
      io, done := storage.Write(u.bank, STAGING, STAGING_MAGIC);
      MagicStep(h, before, u, done);
      OwnStaging(h, storage.image, u);
      TargetMutated(before, old(storage.history), u.bank, storage.image.At(u.bank));
      if !io.Ok? { return StoreResult.IoError; }
      var readback;
      r, readback := ReadRegion(storage, u.bank, STAGING, 4);
      if !r.Ok? || readback != STAGING_MAGIC { return StoreResult.IoError; }
      MagicBytes(h, u, 4);
      ImageIsInv();
      StartableLive(h, storage.image, u, leases);
      NothingMarked(h, u, storage.image.At(u.bank));
      UpdateOver(h, storage.image, u);
      LeasesAdmitUpdate(h, storage.image, u, leases);
      update, manifestComplete, payloadComplete := Some(u), false, NO_BLOCKS;
    }

    /** Reclaiming the target. */
    method Reclaim(target: BankId) returns (r: StoreResult)
      requires Valid() && update.None? && selection.Some?
      requires target == TargetOf(ActiveOf(h, storage.image)) && !Pinned(leases, target)
      requires !Pending(h, storage.image)
      modifies this`selection, this`readSelection, this`readResult, storage
      ensures Valid() && storage.faults == old(storage.faults)
      ensures r.Ok? || r.InvalidBank? || Faulted(r)
      ensures storage.Healthy() ==> r.Ok?
      ensures ActiveOf(h, storage.image) == old(ActiveOf(h, storage.image)) && !Pending(h, storage.image)
      ensures r.Ok? ==> Erased(storage.image.At(target), 0, BANK_SIZE)
      ensures old(storage.history) <= storage.history
      ensures Kept(storage.history, |old(storage.history)|, target.Other())
    {
      hide Inv, SafeRun, CommitOf, StagingOf, Select, ActiveOf, Visible, Pending, MemorySound, Erased;
      KeptNow(storage.history);
      r := EraseRecord(target);
      if !r.Ok? { return; }
      r := EraseRest(target, COMMIT);
    }

    /** The staging header of a fresh update, magic last. */
    method WriteHeader(u: Update) returns (r: StoreResult)
      requires Valid() && update.None? && Startable(h, storage.image, u, leases)
      requires Erased(storage.image.At(u.bank), 0, BANK_SIZE)
      modifies this`update, this`manifestComplete, this`payloadComplete, storage
      ensures Valid() && storage.faults == old(storage.faults)
      ensures r.Ok? || r.IoError?
      ensures storage.Healthy() ==> r.Ok?
      ensures ActiveOf(h, storage.image) == old(ActiveOf(h, storage.image))
      ensures update == if r.Ok? then Some(u) else None
      ensures r.Ok? ==> !manifestComplete && payloadComplete == NO_BLOCKS
      ensures r.Ok? ==> CommitOf(h, u.bank, storage.image.At(u.bank)).None?
      ensures old(storage.history) <= storage.history
      ensures Kept(storage.history, |old(storage.history)|, u.bank.Other())
      ensures !Foreign(h, storage.image, u.plan)
      ensures r.Ok? || Pending(h, storage.image) ==> Erased(storage.image.At(u.bank), STAGING_BYTES, BANK_SIZE)
    {
      hide Inv, SafeRun, CommitOf, StagingOf, Select, ActiveOf, Visible, Pending, Startable, MemorySound, Erased, HeaderWithoutMagic;
      StartableShape(h, storage.image, u, leases);
      ghost var start := storage.image;
      assert storage.history[|storage.history| - 1] == start;
      r := WriteHeaderBody(u);
      if !r.Ok? { return; }
      StartableKept(h, start, storage.image, u, leases);
      r := WriteMagic(u);
    }

    /** The checks begin and discard share. */
    method Admit(plan: Plan) returns (r: StoreResult)
      requires Valid() && update.None? && PlanValid(plan)
      modifies this`selection, this`readSelection, this`readResult
      ensures Valid()
      ensures Faulted(r) || r == Admission(h, storage.image, plan, leases)
      ensures storage.Healthy() ==> !Faulted(r)
      ensures r.Ok? ==> selection.Some? && selection.value.active == ActiveOf(h, storage.image)
      ensures r.Ok? ==> forall id :: selection.value.At(id) == CommitOf(h, id, storage.image.At(id))
    {
      hide Inv, SafeRun, CommitOf, LeasesSound, ActiveOf, Select, MemorySound, PlanValid;
      r := EnsureScanned();
      if !r.Ok? { return; }
      var active := selection.value.active;
      if !BaseMatches(active, plan) { return StaleBase; }
      if active.Some? && active.value.generation == MAX_GENERATION { return GenerationExhausted; }
      if Pinned(leases, TargetOf(active)) { return BankPinned; }
    }

    /** The destructive start, with the checks it repeats after its caller. */
    method BeginNew(plan: Plan) returns (r: StoreResult, identity: Option<Identity>)
      requires Valid() && (update.None? ==> !Pending(h, storage.image))
      modifies this`selection, this`readSelection, this`readResult, this`update, this`manifestComplete, this`payloadComplete, storage
      ensures Valid() && storage.faults == old(storage.faults)
      ensures !PlanValid(plan) ==> r.InvalidArgument?
      ensures PlanValid(plan) && old(update).Some? ==> r.Busy?
      ensures !PlanValid(plan) || old(update).Some? ==>
                update == old(update) && storage.history == old(storage.history) && identity.None?
      ensures PlanValid(plan) && old(update).None? ==>
                && var verdict := Admission(h, old(storage.image), plan, leases);
                && (r == verdict || r.InvalidBank? || Faulted(r))
                && (storage.Healthy() ==> r == verdict)
                && (!verdict.Ok? ==> storage.history == old(storage.history) && !r.Ok?)
                && update == (if r.Ok? then Some(NextOf(h, old(storage.image), plan)) else None)
                && identity == (if r.Ok? then Some(IdentityOf(update.value)) else None)
      ensures ActiveOf(h, storage.image) == old(ActiveOf(h, storage.image))
      ensures old(update).None? && r.Ok? ==>
                !manifestComplete && payloadComplete == NO_BLOCKS && CommitOf(h, update.value.bank, storage.image.At(update.value.bank)).None?
      ensures old(storage.history) <= storage.history
      ensures Kept(storage.history, |old(storage.history)|, TargetOf(ActiveOf(h, storage.image)).Other())
      ensures old(update).None? ==> !Foreign(h, storage.image, plan)
      ensures old(update).None? && (r.Ok? || Pending(h, storage.image)) ==>
                Erased(TargetBank(h, storage.image), STAGING_BYTES, BANK_SIZE)
      ensures old(update).None? ==>
                && var active := old(ActiveOf(h, storage.image));
                && (r.Ok? ==>
                      && update.Some? && update.value.plan == plan
                      && update.value.generation == (if active.Some? then active.value.generation + 1 else 1)
                      && update.value.bank == (if active.Some? && active.value.bank == A then B else A)
                      && (if active.Some?
                          then plan.baseGeneration == active.value.generation && plan.baseSha == active.value.bundleSha
                          else plan.baseGeneration == 0 && AllAre(0, plan.baseSha)))
                && (PlanValid(plan)
                    && (if active.Some?
                        then plan.baseGeneration != active.value.generation || plan.baseSha != active.value.bundleSha
                        else plan.baseGeneration != 0) ==>
                      && (r.StaleBase? || Faulted(r)) && (storage.Healthy() ==> r.StaleBase?)
                      && update.None? && storage.history == old(storage.history))
    {
      hide Inv, SafeRun, CommitOf, StagingOf, LeasesSound, Select, ActiveOf, Visible, Pending, Live, ProgressSound,
           MemorySound, PlanValid, Admission, DeriveTransaction, TargetOf, BaseMatches;
      identity := None;
      KeptNow(storage.history);
      AdmissionMeans(h, storage.image, plan, leases, ActiveOf(h, storage.image));
      if !PlanValid(plan) { return StoreResult.InvalidArgument, None; }
      if update.Some? { return Busy, None; }
      r := Admit(plan);
      if !r.Ok? { return; }
      NextMeans(h, storage.image, plan);
      var active := selection.value.active;
      var target := TargetOf(active);
      AdmittedTarget(h, storage.image, plan, leases);
      ghost var start := storage.image;
      r := Reclaim(target);
      if !r.Ok? { return; }
      var hashed := storage.Checkpoint();
      if !hashed.Ok? { return MapIo(hashed), None; }
      var u := Update(target, GenerationOf(active) + 1, DeriveTransaction(h, plan, target, GenerationOf(active) + 1), plan);
      assert Startable(h, start, u, leases);
      StartableKept(h, start, storage.image, u, leases);
      r := WriteHeader(u);
      if r.Ok? { identity := Some(IdentityOf(u)); }
    }

    /** Idempotent in memory, resumes an exact durable transaction, starts over only where
        nothing valid and pending is lost. */
    method BeginOrResume(plan: Plan) returns (r: StoreResult, identity: Option<Identity>)
      requires Valid()
      modifies this, storage
      ensures Valid() && storage.faults == old(storage.faults)
      ensures leases == old(leases) && nextLease == old(nextLease)
      ensures old(update).Some? ==>
                && r == (if !PlanValid(plan) then StoreResult.InvalidArgument
                         else if plan == old(update).value.plan then StoreResult.Ok else Busy)
                && update == old(update) && storage.history == old(storage.history)
                && manifestComplete == old(manifestComplete) && payloadComplete == old(payloadComplete)
      ensures old(update).None? ==>
                && var verdict := BeginVerdict(h, old(storage.image), plan, leases);
                && (r == verdict || r.InvalidBank? || Faulted(r))
                && (storage.Healthy() ==> r == verdict)
                && (!verdict.Ok? ==> storage.history == old(storage.history) && !r.Ok?)
                && (r.Ok? ==> update == Some(NextOf(h, old(storage.image), plan)))
                && (!r.Ok? ==> update.None?)
      ensures old(update).None? && r.Ok? ==> CommitOf(h, update.value.bank, storage.image.At(update.value.bank)).None?
      ensures old(update).None? && !old(Pending(h, storage.image)) && r.Ok? ==> !manifestComplete && payloadComplete == NO_BLOCKS
      ensures old(update).None? && !old(Pending(h, storage.image)) && (r.Ok? || Pending(h, storage.image)) ==>
                Erased(TargetBank(h, storage.image), STAGING_BYTES, BANK_SIZE)
      ensures old(update).None? && old(Pending(h, storage.image)) ==>
                && storage.history == old(storage.history)
                && (r.Ok? ==> ProgressExact(h, storage.image.At(update.value.bank), update.value, manifestComplete, payloadComplete))
      ensures ActiveOf(h, storage.image) == old(ActiveOf(h, storage.image))
      ensures identity == if r.Ok? then Some(IdentityOf(update.value)) else None
      ensures old(storage.history) <= storage.history
      ensures Kept(storage.history, |old(storage.history)|, TargetOf(ActiveOf(h, storage.image)).Other())
      ensures LeasedBanksKept()
      ensures !old(Foreign(h, storage.image, plan)) && old(update).None? ==> !Foreign(h, storage.image, plan)
      ensures old(update).None? ==>
                && var active := old(ActiveOf(h, storage.image));
                && (r.Ok? ==>
                      && update.Some? && update.value.plan == plan
                      && update.value.generation == (if active.Some? then active.value.generation + 1 else 1)
                      && update.value.bank == (if active.Some? && active.value.bank == A then B else A)
                      && (if active.Some?
                          then plan.baseGeneration == active.value.generation && plan.baseSha == active.value.bundleSha
                          else plan.baseGeneration == 0 && AllAre(0, plan.baseSha)))
                && (PlanValid(plan)
                    && (if active.Some?
                        then plan.baseGeneration != active.value.generation || plan.baseSha != active.value.bundleSha
                        else plan.baseGeneration != 0) ==>
                      && (r.StaleBase? || Faulted(r)) && (storage.Healthy() ==> r.StaleBase?)
                      && update.None? && storage.history == old(storage.history))
    {
      hide Inv, SafeRun, CommitOf, StagingOf, LeasesSound, Select, ActiveOf, Visible, Live, ProgressSound, MemorySound,
           DeriveTransaction, DecodeStaging, ProgressExact, PlanValid, Admission, BaseMatches, TargetOf;
      identity := None;
      KeptNow(storage.history);
      AdmissionMeans(h, storage.image, plan, leases, ActiveOf(h, storage.image));
      if !PlanValid(plan) {
        AdmissionNeedsPlan(h, storage.image, plan, leases);
        return StoreResult.InvalidArgument, None;
      }
      if update.Some? {
        if plan != update.value.plan { return Busy, None; }
        return StoreResult.Ok, Some(IdentityOf(update.value));
      }
      r := Admit(plan);
      if !r.Ok? { return; }
      ImageIsInv();
      NextMeans(h, storage.image, plan);
      var active := selection.value.active;
      var target := TargetOf(active);
      var hashed := storage.Checkpoint();
      if !hashed.Ok? { return MapIo(hashed), None; }
      var u := Update(target, GenerationOf(active) + 1, DeriveTransaction(h, plan, target, GenerationOf(active) + 1), plan);
      assert u == NextOf(h, storage.image, plan);
      assert Startable(h, storage.image, u, leases);
      StartableShape(h, storage.image, u, leases);
      PinnedElsewhere(leases, target);
      if selection.value.At(target).Some? {
        r, identity := BeginNew(plan);
        return;
      }
      var encoded;
      r, encoded := ReadRegion(storage, target, STAGING, STAGING_BYTES);
      if !r.Ok? { return; }
      if AllAre(255, encoded) {
        BlankHasNoStaging(h, target, storage.image.At(target));
        r, identity := BeginNew(plan);
        return;
      }
      var staged := DecodeStaging(h, target, encoded);
      StagingIsDecoded(h, target, storage.image.At(target));
      if staged.None? || !SelfAuthentic(h, staged.value) { return InvalidStaging, None; }
      if active.Some? && staged.value.generation <= active.value.generation {
        r, identity := BeginNew(plan);
        return;
      }
      if staged.value != u { return Busy, None; }
      r := LoadStaging(target, u.transaction);
      LoadAnswers(h, storage.image, u, leases);
      if r.Ok? { identity := Some(IdentityOf(update.value)); }
    }

    /** Explicit repair: only unreadable staging is ever erased, and then begin succeeds. */
    method DiscardInvalidStaging(plan: Plan) returns (r: StoreResult)
      requires Valid()
      modifies this`selection, this`readSelection, this`readResult, storage
      ensures Valid() && storage.faults == old(storage.faults)
      ensures !PlanValid(plan) ==> r.InvalidArgument? && storage.history == old(storage.history)
      ensures PlanValid(plan) && update.Some? ==> r.Busy? && storage.history == old(storage.history)
      ensures update.None? ==>
                && var verdict := DiscardVerdict(h, old(storage.image), plan, leases);
                && (r == verdict || r.InvalidBank? || Faulted(r))
                && (storage.Healthy() ==> r == verdict)
      ensures update.None? && !BeginVerdict(h, old(storage.image), plan, leases).InvalidStaging? ==>
                storage.history == old(storage.history)
      ensures update.None? && BeginVerdict(h, old(storage.image), plan, leases).InvalidStaging? && r.Ok? ==>
                BeginVerdict(h, storage.image, plan, leases).Ok?
      ensures ActiveOf(h, storage.image) == old(ActiveOf(h, storage.image))
      ensures storage.history == old(storage.history) || !Pending(h, storage.image)
      ensures old(storage.history) <= storage.history
      ensures Kept(storage.history, |old(storage.history)|, TargetOf(ActiveOf(h, storage.image)).Other())
      ensures LeasedBanksKept()
      ensures !old(Foreign(h, storage.image, plan)) ==> !Foreign(h, storage.image, plan)
    {
      hide Inv, SafeRun, CommitOf, StagingOf, LeasesSound, Select, ActiveOf, Visible, Live, ProgressSound,
           DeriveTransaction, DecodeStaging, ProgressExact, PlanValid, Admission, BaseMatches, TargetOf, StagingInv;
      KeptNow(storage.history);
      if !PlanValid(plan) {
        AdmissionNeedsPlan(h, storage.image, plan, leases);
        return StoreResult.InvalidArgument;
      }
      if update.Some? { return Busy; }
      r := Admit(plan);
      if !r.Ok? { return; }
      ImageIsInv();
      ghost var before := storage.image;
      var active := selection.value.active;
      var target := TargetOf(active);
      AdmittedTarget(h, before, plan, leases);
      PinnedElsewhere(leases, target);
      if selection.value.At(target).Some? { return Busy; }
      var encoded;
      r, encoded := ReadRegion(storage, target, STAGING, STAGING_BYTES);
      if !r.Ok? { return; }
      if AllAre(255, encoded) { return; }
      var staged := DecodeStaging(h, target, encoded);
      StagingIsDecoded(h, target, before.At(target));
      if staged.Some? {
        if SelfAuthentic(h, staged.value) { return Busy; }
        StagedIsAuthentic(h, before, target);
        assert false;
      }
      r := EraseRest(target, BANK_SIZE);
      if !r.Ok? { Unscan(); return; }
      assert storage.image == before.With(target, storage.image.At(target));
      DiscardUnblocks(h, before, plan, leases, storage.image.At(target));
      UncommittedView(h, before, target, storage.image.At(target));
      readSelection, readResult := None, StoreResult.Unavailable;
    }

    // ---------- Uploading ----------

    /** No record yet, so content may still change. */
    ghost predicate Open()
      reads this, storage
    {
      Valid() && update.Some? && CommitOf(h, update.value.bank, storage.image.At(update.value.bank)).None?
    }

    /** A mutation of the bank under update that keeps the update going. */
    ghost method UpdateMutated(before: Image, history: seq<Image>)
      requires update.Some? && nextLease != 0
      requires storage.image == before.With(update.value.bank, storage.image.At(update.value.bank))
      requires storage.history == history + [storage.image]
      requires SafeRun(h, history) && history[|history| - 1] == before && SafeStep(h, before, storage.image)
      requires Live(h, storage.image, update.value)
      requires PlanValid(update.value.plan)
      requires ProgressSound(h, storage.image.At(update.value.bank), update.value, manifestComplete, payloadComplete)
      requires SelectionSound(h, before, update, selection)
      requires ReadSound(h, before, update, readSelection, readResult)
      requires LeasesSound(h, before, update, leases)
      ensures Valid()
    {
      hide Inv, SafeRun, SafeStep, CommitOf, LeasesSound, Select, ActiveOf, Live, ProgressSound, Visible, PlanValid;
      ExtendRun(h, history, storage.image);
      OthersKept(h, before, update.value, storage.image.At(update.value.bank), selection, readSelection, readResult, leases);
    }

    /** Writes or erases in the manifest sector. */
    method MutateManifest(manifest: Option<seq<byte>>) returns (r: StoreResult)
      requires update.Some? && PlanValid(update.value.plan) && !manifestComplete
      requires manifest.Some? ==> |manifest.value| == update.value.plan.manifestBytes
      modifies storage
      ensures storage.faults == old(storage.faults)
      ensures old(Open()) ==> Open() && ActiveOf(h, storage.image) == old(ActiveOf(h, storage.image))
      ensures r.Ok? || Faulted(r)
      ensures storage.faults.steady && (manifest.None? || Erased(old(storage.image).At(update.value.bank), MANIFEST, MANIFEST + SECTOR)) ==> r.Ok?
      ensures r.Ok? && manifest.None? ==>
                storage.image == old(storage.image).With(update.value.bank,
                     Overwrite(old(storage.image).At(update.value.bank), MANIFEST, Fill(255, SECTOR)))
      ensures ManifestMutated(old(storage.image).At(update.value.bank), storage.image.At(update.value.bank), update.value.plan, manifest, r.Ok?)
      ensures storage.history == old(storage.history) + [storage.image]
      ensures storage.image.At(update.value.bank.Other()) == old(storage.image).At(update.value.bank.Other())
    {
      hide Inv, SafeRun, SafeStep, CommitOf, LeasesSound, Select, ActiveOf, Live, ProgressSound, Visible, PlanValid,
           SelectionSound, ReadSound, ManifestMutated;
      ghost var before := storage.image;
      ghost var history := storage.history;
      ghost var open := Open();
      var u := update.value;
      ManifestFits(u.plan);
      var io;
      ghost var done;
      ghost var bytes;
      if manifest.None? {
        io, done := storage.Erase(u.bank, MANIFEST, SECTOR);
        bytes := Fill(255, done);
      } else {
        RetryWhenErased(before.At(u.bank), MANIFEST, manifest.value);
        io, done := storage.Write(u.bank, MANIFEST, manifest.value);
        bytes := manifest.value[..done];
      }
      MutatedManifest(before.At(u.bank), u.plan, manifest, done, io.Ok?);
      if open {
        ManifestMutation(h, before, u, bytes, payloadComplete);
        UpdateMutated(before, history);
      }
      r := MapIo(io);
    }

    /** mark_manifest_complete */
    method MarkManifest() returns (r: StoreResult)
      requires update.Some? && PlanValid(update.value.plan) && manifestComplete
      modifies storage
      ensures storage.faults == old(storage.faults)
      ensures old(Open()) ==> Open() && ActiveOf(h, storage.image) == old(ActiveOf(h, storage.image))
      ensures r.Ok? || Faulted(r)
      ensures storage.Healthy() ==> r.Ok?
      ensures ManifestBytes(storage.image.At(update.value.bank), update.value.plan.manifestBytes)
           == ManifestBytes(old(storage.image).At(update.value.bank), update.value.plan.manifestBytes)
      ensures BlocksKept(old(storage.image).At(update.value.bank), storage.image.At(update.value.bank), update.value.plan, NO_BLOCK)
      ensures storage.history == old(storage.history) + [storage.image]
      ensures storage.image.At(update.value.bank.Other()) == old(storage.image).At(update.value.bank.Other())
    {
      hide Inv, SafeRun, SafeStep, CommitOf, LeasesSound, Select, ActiveOf, Live, ProgressSound, Visible, SelectionSound, ReadSound;
      ghost var before := storage.image;
      ghost var history := storage.history;
      ghost var open := Open();
      var u := update.value;
      var io;
      ghost var done;
      ZeroIsProgrammable(before.At(u.bank), JOURNAL);
      io, done := storage.Write(u.bank, JOURNAL, [0]);
      BelowPayload(before.At(u.bank), u.plan, JOURNAL, [0][..done]);
      if open {
        MarkManifestMutation(h, before, u, [0][..done], payloadComplete);
        UpdateMutated(before, history);
      }
      r := MapIo(io);
    }

    /** Erase and program. */
    method Rewrite(manifest: seq<byte>) returns (r: StoreResult)
      requires Valid() && update.Some? && !manifestComplete
      requires PlanValid(update.value.plan) && |manifest| == update.value.plan.manifestBytes
      modifies storage
      ensures storage.faults == old(storage.faults)
      ensures old(Open()) ==> Open() && ActiveOf(h, storage.image) == old(ActiveOf(h, storage.image))
      ensures r.Ok? ==> ManifestBytes(storage.image.At(update.value.bank), |manifest|) == manifest
      ensures BlocksKept(old(storage.image).At(update.value.bank), storage.image.At(update.value.bank), update.value.plan, NO_BLOCK)
      ensures Torn(ManifestBytes(old(storage.image).At(update.value.bank), |manifest|), manifest) ==>
                Torn(ManifestBytes(storage.image.At(update.value.bank), |manifest|), manifest)
      ensures storage.faults.steady ==> r.Ok?
      ensures |storage.history| > 0 && storage.history[|storage.history| - 1] == storage.image
      ensures r.Ok? ==> |storage.history| == |old(storage.history)| + 2
      ensures r.Ok? ==> storage.history[|old(storage.history)|] == old(storage.image).With(update.value.bank,
                          Overwrite(old(storage.image).At(update.value.bank), MANIFEST, Fill(255, SECTOR)))
      ensures old(storage.history) < storage.history
      ensures Kept(storage.history, |old(storage.history)|, update.value.bank.Other())
    {
      hide Inv, SafeRun, SafeStep, CommitOf, LeasesSound, Select, ActiveOf, Live, ProgressSound, Visible, SelectionSound, ReadSound,
           ManifestBytes, PlanValid, Erased, Torn, BlocksKept;
      var u := update.value;
      assert storage.history[|storage.history| - 1] == storage.image;
      ghost var start := storage.image.At(u.bank);
      r := MutateManifest(None);
      if !r.Ok? { return; }
      ghost var erased := storage.image.At(u.bank);
      r := MutateManifest(Some(manifest));
      KeptTwice(start, erased, storage.image.At(u.bank), u.plan, NO_BLOCK);
    }

    /** Erase, program, verify, mark. */
    method ReplaceManifest(manifest: seq<byte>) returns (r: StoreResult)
      requires Valid() && update.Some? && !manifestComplete
      requires PlanValid(update.value.plan) && ManifestAccepted(h, manifest, update.value.plan)
      modifies this`manifestComplete, storage
      ensures storage.faults == old(storage.faults)
      ensures old(Open()) ==> Valid() && ActiveOf(h, storage.image) == old(ActiveOf(h, storage.image))
      ensures r.Ok? ==> manifestComplete && ManifestDurable(h, storage.image.At(update.value.bank), update.value.plan)
      ensures r.Ok? ==> ManifestBytes(storage.image.At(update.value.bank), update.value.plan.manifestBytes) == manifest
      ensures BlocksKept(old(storage.image).At(update.value.bank), storage.image.At(update.value.bank), update.value.plan, NO_BLOCK)
      ensures Torn(ManifestBytes(old(storage.image).At(update.value.bank), |manifest|), manifest) ==>
                Torn(ManifestBytes(storage.image.At(update.value.bank), |manifest|), manifest)
      ensures storage.Healthy() ==> r.Ok?
      ensures old(storage.DeafAfter(2)) ==>
                && !r.Ok? && !manifestComplete && ManifestDurable(h, storage.image.At(update.value.bank), update.value.plan)
                && ManifestBytes(storage.image.At(update.value.bank), |manifest|) == manifest
      ensures old(storage.DeafAfter(2)) && old(Open()) ==> Open()
      ensures storage.faults.steady ==>
                && |storage.history| > |old(storage.history)|
                && storage.history[|old(storage.history)|] == old(storage.image).With(update.value.bank,
                     Overwrite(old(storage.image).At(update.value.bank), MANIFEST, Fill(255, SECTOR)))
      ensures old(storage.history) < storage.history
      ensures Kept(storage.history, |old(storage.history)|, update.value.bank.Other())
    {
      hide Inv, SafeRun, SafeStep, CommitOf, LeasesSound, Select, ActiveOf, Live, ProgressSound, Visible, SelectionSound, ReadSound,
           ManifestDurable, ManifestBytes, ManifestAccepted, PlanValid, Erased, Torn, BlocksKept;
      var u := update.value;
      assert |manifest| == u.plan.manifestBytes by { AcceptedLength(h, manifest, u.plan); }
      assert storage.history[|storage.history| - 1] == storage.image;
      ghost var start := storage.image.At(u.bank);
      r := Rewrite(manifest);
      if !r.Ok? { return; }
      ghost var written := storage.image.At(u.bank);
      AcceptedIsDurable(h, storage.image.At(u.bank), u, manifest);
      r := VerifyManifest(h, storage, u);
      if !r.Ok? { return; }
      ManifestFlagRaised(h, storage.image.At(u.bank), u, payloadComplete, manifestComplete);
      manifestComplete := true;
      assert old(Open()) ==> Open();
      r := MarkManifest();
      KeptTwice(start, written, storage.image.At(u.bank), u.plan, NO_BLOCK);
      AcceptedIsDurable(h, storage.image.At(u.bank), u, manifest);
    }

    /** The planned manifest is sent again in the exposed state. */
    predicate Rewrites(manifest: seq<byte>)
      reads this, storage
    {
      Exposed() && ManifestAccepted(h, manifest, update.value.plan)
    }

    /** Never erases a complete manifest, except in the exposed state. */
    method WriteManifest(manifest: seq<byte>) returns (r: StoreResult)
      requires Valid()
      modifies this`manifestComplete, storage
      ensures storage.faults == old(storage.faults)
      ensures !old(Rewrites(manifest)) ==> Valid() && ActiveOf(h, storage.image) == old(ActiveOf(h, storage.image))
      ensures update.None? ==> r.TransactionMismatch? && storage.history == old(storage.history)
      ensures update.Some? && |manifest| != update.value.plan.manifestBytes ==>
                r.InvalidArgument? && storage.history == old(storage.history)
      ensures update.Some? && |manifest| == update.value.plan.manifestBytes && !ManifestAccepted(h, manifest, update.value.plan) ==>
                (r.CrcMismatch? || Faulted(r)) && storage.history == old(storage.history)
      ensures r.Ok? ==> update.Some? && manifestComplete && ManifestDurable(h, storage.image.At(update.value.bank), update.value.plan)
      ensures r.Ok? && !old(manifestComplete) ==>
                ManifestBytes(storage.image.At(update.value.bank), update.value.plan.manifestBytes) == manifest
      ensures update.Some? && ManifestAccepted(h, manifest, update.value.plan) && storage.Healthy() ==> r.Ok?
      ensures update.Some? ==> BlocksKept(old(storage.image).At(update.value.bank), storage.image.At(update.value.bank), update.value.plan, NO_BLOCK)
      ensures update.Some? && Torn(ManifestBytes(old(storage.image).At(update.value.bank), update.value.plan.manifestBytes), manifest) ==>
                Torn(ManifestBytes(storage.image.At(update.value.bank), update.value.plan.manifestBytes), manifest)
      ensures old(manifestComplete) && update.Some? ==> storage.history == old(storage.history) && manifestComplete
      ensures old(storage.DeafAfter(2)) && old(Open()) && !old(manifestComplete) && ManifestAccepted(h, manifest, update.value.plan) ==>
                && Open() && ManifestBytes(storage.image.At(update.value.bank), update.value.plan.manifestBytes) == manifest
                && !r.Ok? && !manifestComplete && ManifestDurable(h, storage.image.At(update.value.bank), update.value.plan)
      ensures old(Rewrites(manifest)) && storage.faults.steady ==>
                && |storage.history| > |old(storage.history)|
                && storage.history[|old(storage.history)|] == old(storage.image).With(update.value.bank,
                     Overwrite(old(storage.image).At(update.value.bank), MANIFEST, Fill(255, SECTOR)))
      ensures old(storage.history) <= storage.history
      ensures storage.history == old(storage.history) ==> manifestComplete == old(manifestComplete)
      ensures update.Some? ==> Kept(storage.history, |old(storage.history)|, update.value.bank.Other())
      ensures LeasedBanksKept()
    {
      hide Inv, SafeRun, SafeStep, CommitOf, LeasesSound, Select, ActiveOf, Live, ProgressSound, Visible, SelectionSound, ReadSound,
           ManifestDurable, ManifestBytes;
      KeptNow(storage.history);
      if update.None? { return TransactionMismatch; }
      var u := update.value;
      LivePlan(h, storage.image, u);
      LeasedElsewhere(h, storage.image, u, leases);
      hide PlanValid;
      if |manifest| != u.plan.manifestBytes { return StoreResult.InvalidArgument; }
      var hashed := storage.Checkpoint();
      if !hashed.Ok? { return MapIo(hashed); }
      if !ManifestAccepted(h, manifest, u.plan) { return CrcMismatch; }
      if manifestComplete {
        // A complete unit cannot stop verifying: its flag is true of flash.
        FlagsTrue(h, storage.image.At(u.bank), u, manifestComplete, payloadComplete);
        r := VerifyManifest(h, storage, u);
        return;
      }
      r := ReplaceManifest(manifest);
    }

    /** Writes or erases in one payload sector. */
    method MutateBlock(index: nat, data: Option<seq<byte>>) returns (r: StoreResult)
      requires Open() && PlanValid(update.value.plan)
      requires index < BlockCount(update.value.plan.payloadBytes) && |payloadComplete| == 128 && !payloadComplete[index]
      requires data.Some? ==> |data.value| == BlockLength(update.value.plan.payloadBytes, index)
      modifies storage
      ensures storage.faults == old(storage.faults)
      ensures Open() && ActiveOf(h, storage.image) == old(ActiveOf(h, storage.image))
      ensures r.Ok? || Faulted(r)
      ensures storage.Healthy() && (data.None? || SectorErased(old(storage.image).At(update.value.bank), index)) ==> r.Ok?
      ensures BlockMutated(old(storage.image).At(update.value.bank), storage.image.At(update.value.bank), update.value.plan, index, data, r.Ok?)
      ensures storage.history == old(storage.history) + [storage.image]
      ensures storage.image.At(update.value.bank.Other()) == old(storage.image).At(update.value.bank.Other())
    {
      hide Inv, SafeRun, SafeStep, CommitOf, LeasesSound, Select, ActiveOf, Live, ProgressSound, Visible, SelectionSound,
           ReadSound, BlockMutated;
      ghost var before := storage.image;
      ghost var history := storage.history;
      var u := update.value;
      var io;
      ghost var done;
      ghost var bytes;
      var offset := PAYLOAD + index * SECTOR;
      if data.None? {
        SectorAligned(index);
        io, done := storage.Erase(u.bank, offset, SECTOR);
        bytes := Fill(255, done);
      } else {
        RetryWhenErased(before.At(u.bank), offset, data.value);
        io, done := storage.Write(u.bank, offset, data.value);
        bytes := data.value[..done];
      }
      MutatedBlock(before.At(u.bank), u.plan, index, data, done, io.Ok?);
      BlockMutation(h, before, u, index, bytes, manifestComplete, payloadComplete);
      UpdateMutated(before, history);
      r := MapIo(io);
    }

    /** mark_payload_complete: read one journal byte, clear one bit, program it back. */
    method MarkBlock(index: nat) returns (r: StoreResult)
      requires Open() && PlanValid(update.value.plan)
      requires index < BlockCount(update.value.plan.payloadBytes) && |payloadComplete| == 128 && payloadComplete[index]
      modifies storage
      ensures storage.faults == old(storage.faults)
      ensures Open() && ActiveOf(h, storage.image) == old(ActiveOf(h, storage.image))
      ensures r.Ok? || Faulted(r)
      ensures storage.Healthy() ==> r.Ok?
      ensures BlockBytes(storage.image.At(update.value.bank), update.value.plan.payloadBytes, index)
           == BlockBytes(old(storage.image).At(update.value.bank), update.value.plan.payloadBytes, index)
      ensures BlocksKept(old(storage.image).At(update.value.bank), storage.image.At(update.value.bank), update.value.plan, NO_BLOCK)
      ensures old(storage.history) <= storage.history
      ensures Kept(storage.history, |old(storage.history)|, update.value.bank.Other())
      ensures ManifestBytes(storage.image.At(update.value.bank), SECTOR) == ManifestBytes(old(storage.image).At(update.value.bank), SECTOR)
    {
      hide Inv, SafeRun, SafeStep, CommitOf, LeasesSound, Select, ActiveOf, Live, ProgressSound, Visible, SelectionSound, ReadSound;
      hide Bit, ClearBit, Programmable, BlockCount, BlockDurable;
      ghost var before := storage.image;
      ghost var history := storage.history;
      var u := update.value;
      BlocksFit(u.plan);
      hide PlanValid;
      var offset := JOURNAL + 1 + index / 8;
      var io, current := storage.Read(u.bank, offset, 1);
      if !io.Ok? { return MapIo(io); }
      assert current[0] == before.At(u.bank)[offset];
      ghost var done;
      var updated := [ClearBit(current[0], index % 8)];
      ClearedIsProgrammable(before.At(u.bank), offset, index % 8);
      io, done := storage.Write(u.bank, offset, updated);
      BelowPayload(before.At(u.bank), u.plan, offset, updated[..done]);
      MarkBlockMutation(h, before, u, index, done, manifestComplete, payloadComplete);
      UpdateMutated(before, history);
      r := MapIo(io);
    }

    /** A block already complete is verified, never rewritten. */
    method WritePayloadBlock(index: nat, data: seq<byte>) returns (r: StoreResult)
      requires Valid()
      modifies this`payloadComplete, storage
      ensures Valid() && storage.faults == old(storage.faults)
      ensures ActiveOf(h, storage.image) == old(ActiveOf(h, storage.image))
      ensures update.None? ==> r.TransactionMismatch? && storage.history == old(storage.history)
      ensures update.Some? ==> PlanValid(update.value.plan)
      ensures update.Some? && !BlockFits(index, data, update.value.plan) ==>
                r.InvalidArgument? && storage.history == old(storage.history)
      ensures update.Some? && BlockFits(index, data, update.value.plan) && h.crc32(data) != update.value.plan.blockCrcs[index] ==>
                (r.CrcMismatch? || Faulted(r)) && storage.history == old(storage.history)
      ensures (update.Some? && storage.Healthy() && BlockFits(index, data, update.value.plan)
               && h.crc32(data) == update.value.plan.blockCrcs[index]) ==> r.Ok?
      ensures r.Ok? ==>
                && update.Some? && index < BlockCount(update.value.plan.payloadBytes)
                && payloadComplete == old(payloadComplete)[index := true]
                && BlockDurable(h, storage.image.At(update.value.bank), update.value.plan, index)
                && (old(payloadComplete)[index]
                    || BlockBytes(storage.image.At(update.value.bank), update.value.plan.payloadBytes, index) == data)
      ensures update.Some? && index < 128 && old(payloadComplete)[index] ==>
                storage.history == old(storage.history) && payloadComplete == old(payloadComplete)
      ensures |payloadComplete| == |old(payloadComplete)|
      ensures forall i | 0 <= i < |payloadComplete| && i != index :: payloadComplete[i] == old(payloadComplete)[i]
      ensures update.Some? ==>
                ManifestBytes(storage.image.At(update.value.bank), SECTOR) == ManifestBytes(old(storage.image).At(update.value.bank), SECTOR)
      ensures update.Some? ==> BlocksKept(old(storage.image).At(update.value.bank), storage.image.At(update.value.bank), update.value.plan, index)
      ensures update.Some? && BlockFits(index, data, update.value.plan)
              && Torn(BlockBytes(old(storage.image).At(update.value.bank), update.value.plan.payloadBytes, index), data) ==>
                Torn(BlockBytes(storage.image.At(update.value.bank), update.value.plan.payloadBytes, index), data)
      ensures old(storage.history) <= storage.history
      ensures update.Some? ==> Kept(storage.history, |old(storage.history)|, update.value.bank.Other())
      ensures LeasedBanksKept()
    {
      hide Inv, SafeRun, SafeStep, CommitOf, LeasesSound, Select, ActiveOf, Live, ProgressSound, Visible, SelectionSound, ReadSound,
           BlockDurable, BlockBytes;
      KeptNow(storage.history);
      if update.None? { return TransactionMismatch; }
      var u := update.value;
      LivePlan(h, storage.image, u);
      LeasedElsewhere(h, storage.image, u, leases);
      FlagsTrue(h, storage.image.At(u.bank), u, manifestComplete, payloadComplete);
      BlocksFit(u.plan);
      hide PlanValid;
      if !BlockFits(index, data, u.plan) { return StoreResult.InvalidArgument; }
      var hashed := storage.Checkpoint();
      if !hashed.Ok? { return MapIo(hashed); }
      if h.crc32(data) != u.plan.blockCrcs[index] { return CrcMismatch; }
      if payloadComplete[index] {
        // A complete unit cannot stop verifying: its flag is true of flash.
        var complete;
        r, complete := VerifyBlock(h, storage, u, index);
        return;
      }
      r := ReplaceBlock(index, data);
    }

    method ReplaceBlock(index: nat, data: seq<byte>) returns (r: StoreResult)
      requires Open() && PlanValid(update.value.plan) && |payloadComplete| == 128
      requires BlockFits(index, data, update.value.plan) && !payloadComplete[index]
      requires h.crc32(data) == update.value.plan.blockCrcs[index]
      modifies this`payloadComplete, storage
      ensures Valid() && storage.faults == old(storage.faults)
      ensures ActiveOf(h, storage.image) == old(ActiveOf(h, storage.image))
      ensures storage.Healthy() ==> r.Ok?
      ensures r.Ok? ==>
                && payloadComplete == old(payloadComplete)[index := true]
                && BlockDurable(h, storage.image.At(update.value.bank), update.value.plan, index)
                && BlockBytes(storage.image.At(update.value.bank), update.value.plan.payloadBytes, index) == data
      ensures BlocksKept(old(storage.image).At(update.value.bank), storage.image.At(update.value.bank), update.value.plan, index)
      ensures Torn(BlockBytes(old(storage.image).At(update.value.bank), update.value.plan.payloadBytes, index), data) ==>
                Torn(BlockBytes(storage.image.At(update.value.bank), update.value.plan.payloadBytes, index), data)
      ensures payloadComplete == old(payloadComplete) || payloadComplete == old(payloadComplete)[index := true]
      ensures old(storage.history) <= storage.history
      ensures Kept(storage.history, |old(storage.history)|, update.value.bank.Other())
      ensures ManifestBytes(storage.image.At(update.value.bank), SECTOR) == ManifestBytes(old(storage.image).At(update.value.bank), SECTOR)
    {
      hide Inv, SafeRun, SafeStep, CommitOf, LeasesSound, Select, ActiveOf, Live, ProgressSound, Visible, SelectionSound, ReadSound,
           BlockDurable, BlockBytes, PlanValid, BlockLength, SectorErased, Torn, BlocksKept;
      var u := update.value;
      BlocksFit(u.plan);
      assert storage.history[|storage.history| - 1] == storage.image;
      ghost var start := storage.image.At(u.bank);
      r := MutateBlock(index, None);
      if !r.Ok? { return; }
      ghost var erased := storage.image.At(u.bank);
      r := MutateBlock(index, Some(data));
      ghost var written := storage.image.At(u.bank);
      KeptTwice(start, erased, written, u.plan, index);
      if !r.Ok? { return; }
      WrittenIsDurable(h, storage.image.At(u.bank), u, index, data);
      var complete;
      r, complete := VerifyBlock(h, storage, u, index);
      if !r.Ok? { return; }
      assert complete;
      BlockFlagRaised(h, storage.image.At(u.bank), u, manifestComplete, payloadComplete, index);
      payloadComplete := payloadComplete[index := true];
      assert Open();
      r := MarkBlock(index);
      KeptTwice(start, written, storage.image.At(u.bank), u.plan, index);
      WrittenIsDurable(h, storage.image.At(u.bank), u, index, data);
    }

    // ---------- Publishing and withdrawing ----------

    /** Programs one part of the commit record and reads it back; what the write itself
        reports only matters when the readback fails. */
    method ProgramRecord(start: nat, end: nat) returns (r: StoreResult)
      requires Valid() && update.Some? && PlanValid(update.value.plan)
      requires (start == 0 && end == 128) || (start == 128 && end == COMMIT_RECORD)
      requires start == 128 ==>
                 Record(storage.image.At(update.value.bank))[..128] == CommitRecord(h, SnapshotOf(update.value))[..128]
      requires AllOf(update.value.plan, payloadComplete)
      requires ContentVerdict(h, storage.image.At(update.value.bank), SnapshotOf(update.value)).Ok?
      modifies storage
      ensures Valid() && storage.faults == old(storage.faults)
      ensures r.Ok? || Faulted(r)
      ensures storage.Readable() ==> r.Ok?
      ensures storage.Deaf() ==> !r.Ok?
      ensures start == 128 && storage.faults.steady ==> CommitOf(h, update.value.bank, storage.image.At(update.value.bank)).Some?
      ensures ContentVerdict(h, storage.image.At(update.value.bank), SnapshotOf(update.value)).Ok?
      ensures r.Ok? ==>
                Record(storage.image.At(update.value.bank))[start..end] == CommitRecord(h, SnapshotOf(update.value))[start..end]
      ensures start == 128 && r.Ok? ==> Record(storage.image.At(update.value.bank))[..128] == CommitRecord(h, SnapshotOf(update.value))[..128]
      ensures SameContent(old(storage.image).At(update.value.bank), storage.image.At(update.value.bank), update.value.plan)
      ensures CommitOf(h, update.value.bank, storage.image.At(update.value.bank)).None? ==>
                ActiveOf(h, storage.image) == old(ActiveOf(h, storage.image))
      ensures storage.history == old(storage.history) + [storage.image]
      ensures storage.image.At(update.value.bank.Other()) == old(storage.image).At(update.value.bank.Other())
    {
      hide Inv, SafeRun, SafeStep, CommitOf, LeasesSound, Select, ActiveOf, Live, ProgressSound, Visible, SelectionSound, ReadSound,
           CommitRecord, ContentVerdict, PlanValid, SameContent;
      ghost var before := storage.image;
      ghost var history := storage.history;
      var u := update.value;
      var record := CommitRecord(h, SnapshotOf(u));
      RecordIsProgrammable(h, before, u, start);
      var io;
      ghost var done;
      assert record[128..] == record[128..COMMIT_RECORD];
      io, done := storage.Write(u.bank, COMMIT + start, record[start..end]);
      assert record[start..end][..done] == record[start..start + done];
      RecordMutation(h, before, u, start, done, manifestComplete, payloadComplete);
      UpdateMutated(before, history);
      RecordPart(before.At(u.bank), record[start..start + done], start, end);
      var readback;
      r, readback := ReadRegion(storage, u.bank, COMMIT + start, end - start);
      if !r.Ok? || readback != record[start..end] {
        r := if io.Ok? then StoreResult.IoError else MapIo(io);
      }
    }

    /** Strict selection again, with the bank of the update now the active one. */
    method RefreshAfterCommit() returns (r: StoreResult)
      requires Valid() && update.Some?
      requires CommitOf(h, update.value.bank, storage.image.At(update.value.bank)).Some?
      modifies this
      ensures Valid() && leases == old(leases) && nextLease == old(nextLease)
      ensures r.Ok? || Faulted(r)
      ensures storage.Healthy() ==> r.Ok?
      ensures r.Ok? ==> update.None?
      ensures !r.Ok? ==> update == old(update) && payloadComplete == old(payloadComplete) && manifestComplete == old(manifestComplete)
    {
      hide Inv, SafeRun, StrictSelection, Live, ProgressSound, CommitOf, Select, Visible, LeasesSound, Validate, ActiveOf;
      ImageIsInv();
      NeverSplit(h, storage.image, None);
      UpdateFound(h, storage.image, update.value);
      LeasesOutliveUpdate(h, storage.image, update.value, leases);
      var a, b, found;
      r, a, b, found := ValidateBanks();
      if !r.Ok? { return; }
      if found.active.None? || found.splitBrain || found.active.value.bank != update.value.bank
         || found.active.value.generation != update.value.generation {
        assert false;
      }
      selection := Some(found);
      readSelection := selection;
      readResult := StoreResult.Ok;
      ClearUpdate();
    }

    /** verify_all_payload_blocks: refreshes the flags and stops at the first gap. */
    method VerifyAllBlocks() returns (r: StoreResult)
      requires Valid() && update.Some? && PlanValid(update.value.plan)
      modifies this`payloadComplete
      ensures Valid()
      ensures r.Ok? || r.Incomplete? || r.IoError?
      ensures storage.Readable() ==> !r.IoError?
      ensures r.Ok? ==> AllOf(update.value.plan, payloadComplete)
      ensures FlagsKept(old(payloadComplete), payloadComplete)
      ensures r.Ok? <==> (!r.IoError? && forall i | 0 <= i < BlockCount(update.value.plan.payloadBytes) ::
                BlockDurable(h, storage.image.At(update.value.bank), update.value.plan, i))
    {
      hide Inv, SafeRun, CommitOf, LeasesSound, Select, ActiveOf, Live, ProgressSound, Visible, SelectionSound, ReadSound,
           BlockDurable;
      var u := update.value;
      BlocksFit(u.plan);
      FlagsTrue(h, storage.image.At(u.bank), u, manifestComplete, payloadComplete);
      for index := 0 to BlockCount(u.plan.payloadBytes)
        invariant Valid() && update == Some(u) && |payloadComplete| == 128
        invariant FlagsKept(old(payloadComplete), payloadComplete)
        invariant forall i | 0 <= i < index ::
          payloadComplete[i] && BlockDurable(h, storage.image.At(u.bank), u.plan, i)
      {
        var complete;
        r, complete := VerifyBlock(h, storage, u, index);
        if !r.Ok? { return; }
        LiveJournal(h, storage.image, u);
        BlockFlagChecked(h, storage.image.At(u.bank), u, manifestComplete, payloadComplete, index);
        payloadComplete := payloadComplete[index := complete];
        if !complete { return Incomplete; }
      }
      r := StoreResult.Ok;
    }

    /** Marker, validation of the finished bank, and the new selection. */
    method Publish() returns (r: StoreResult)
      requires Valid() && update.Some? && PlanValid(update.value.plan)
      requires Record(storage.image.At(update.value.bank))[..128] == CommitRecord(h, SnapshotOf(update.value))[..128]
      requires AllOf(update.value.plan, payloadComplete)
      requires ContentVerdict(h, storage.image.At(update.value.bank), SnapshotOf(update.value)).Ok?
      modifies this, storage
      ensures Valid() && storage.faults == old(storage.faults)
      ensures leases == old(leases) && nextLease == old(nextLease)
      ensures r.Ok? || Faulted(r)
      ensures storage.Healthy() ==> r.Ok?
      ensures old(storage.DeafAfter(1)) ==>
                !r.Ok? && CommitOf(h, old(update).value.bank, storage.image.At(old(update).value.bank)).Some?
      ensures r.Ok? ==> update.None? && ActiveOf(h, storage.image) == Some(SnapshotOf(old(update).value))
      ensures !r.Ok? ==> update == old(update) && manifestComplete == old(manifestComplete) && payloadComplete == old(payloadComplete)
      ensures ActiveOf(h, storage.image) == old(ActiveOf(h, storage.image))
           || ActiveOf(h, storage.image) == Some(SnapshotOf(old(update).value))
      ensures SameContent(old(storage.image).At(old(update).value.bank), storage.image.At(old(update).value.bank), old(update).value.plan)
      ensures old(storage.history) <= storage.history
      ensures Kept(storage.history, |old(storage.history)|, old(update).value.bank.Other())
    {
      hide Inv, SafeRun, SafeStep, CommitOf, LeasesSound, Select, ActiveOf, Live, ProgressSound, Visible, SelectionSound, ReadSound,
           ContentVerdict, CommitRecord, SameContent, AllOf, Validate, PlanValid;
      var u := update.value;
      r := ProgramRecord(128, COMMIT_RECORD);
      LiveShape(h, storage.image, u);
      if !r.Ok? { return; }
      ImageIsInv();
      RecordComplete(h, storage.image, u);
      var committed;
      r, committed := ValidateBank(h, storage, u.bank);
      if !r.Ok? { return; }
      if committed.value.generation != u.generation || committed.value.transaction != u.transaction
         || committed.value.bundleSha != u.plan.bundleSha {
        assert false;
      }
      r := RefreshAfterCommit();
    }

    /** All a commit checks before it programs anything. */
    method VerifyUpdate() returns (r: StoreResult)
      requires Valid() && update.Some? && PlanValid(update.value.plan)
      modifies this`payloadComplete
      ensures Valid() && FlagsKept(old(payloadComplete), payloadComplete)
      ensures r == CommitVerdict(h, storage.image.At(update.value.bank), update.value) || Faulted(r)
      ensures storage.Readable() ==> r == CommitVerdict(h, storage.image.At(update.value.bank), update.value)
      ensures r.Ok? ==> AllOf(update.value.plan, payloadComplete)
      ensures r.Ok? ==> ContentVerdict(h, storage.image.At(update.value.bank), SnapshotOf(update.value)).Ok?
    {
      hide Inv, SafeRun, CommitOf, LeasesSound, Select, ActiveOf, Live, ProgressSound, Visible, SelectionSound, ReadSound,
           BlockDurable, BlockBytes, ManifestVerdictOf, ContentVerdict, AllOf, Validate, ManifestDurable, PlanValid;
      var u := update.value;
      r := VerifyManifest(h, storage, u);
      if !r.Ok? { return; }
      r := VerifyAllBlocks();
      if !r.Ok? { return; }
      SnapshotFits(u);
      r := CheckContent(h, storage, SnapshotOf(u));
    }

    /** The point of no return is the last byte of the marker. */
    method CommitUpdate() returns (r: StoreResult)
      requires Valid()
      modifies this, storage
      ensures Valid() && storage.faults == old(storage.faults)
      ensures leases == old(leases) && nextLease == old(nextLease)
      ensures old(update).None? ==>
                && r.TransactionMismatch? && storage.history == old(storage.history)
                && update.None? && manifestComplete == old(manifestComplete) && payloadComplete == old(payloadComplete)
      ensures old(update).Some? ==>
                && var u := old(update).value;
                && PlanValid(u.plan)
                && var verdict := CommitVerdict(h, old(storage.image).At(u.bank), u);
                && (r == verdict || Faulted(r))
                && (storage.Healthy() ==> r == verdict)
                && (old(storage.DeafAfter(2)) && verdict.Ok? ==>
                      !r.Ok? && CommitOf(h, u.bank, storage.image.At(u.bank)).Some?)
                && (!verdict.Ok? ==> storage.history == old(storage.history))
                && (verdict.Ok? <==> AsPlanned(h, old(storage.image).At(u.bank), u.plan))
                && (r.Ok? ==> AsPlanned(h, storage.image.At(u.bank), u.plan))
                && SameContent(old(storage.image).At(u.bank), storage.image.At(u.bank), u.plan)
                && (r.Ok? ==> update.None? && ActiveOf(h, storage.image) == Some(SnapshotOf(u)))
                && (!r.Ok? ==> update == old(update) && manifestComplete == old(manifestComplete)
                               && FlagsKept(old(payloadComplete), payloadComplete))
                && (ActiveOf(h, storage.image) == old(ActiveOf(h, storage.image))
                    || ActiveOf(h, storage.image) == Some(SnapshotOf(u)))
      ensures old(storage.history) <= storage.history
      ensures old(update).Some? ==> Kept(storage.history, |old(storage.history)|, old(update).value.bank.Other())
      ensures LeasedBanksKept()
    {
      hide Inv, SafeRun, SafeStep, CommitOf, LeasesSound, Select, ActiveOf, Live, ProgressSound, Visible, SelectionSound, ReadSound,
           BlockDurable, BlockBytes, ManifestVerdictOf, CommitVerdict, ContentVerdict, CommitRecord, SameContent, AllOf, Validate, ManifestDurable,
           PlanValid, AsPlanned;
      KeptNow(storage.history);
      if update.None? { return TransactionMismatch; }
      var u := update.value;
      ghost var before := storage.image;
      LivePlan(h, before, u);
      LeasedElsewhere(h, before, u, leases);
      SameContentRefl(before.At(u.bank), u.plan);
      CommitMeans(h, before.At(u.bank), u);
      r := VerifyUpdate();
      if !r.Ok? { return; }
      r := ProgramRecord(0, 128);
      LiveShape(h, storage.image, u);
      ghost var middle := storage.image;
      if !r.Ok? { return; }
      r := Publish();
      SameContentTrans(before.At(u.bank), middle.At(u.bank), storage.image.At(u.bank), u.plan);
      PlannedKept(h, before.At(u.bank), storage.image.At(u.bank), u.plan);
    }

    /** Withdraws an update, or recognises that it can no longer be withdrawn. */
    method AbortUpdate() returns (r: StoreResult)
      requires Valid()
      modifies this, storage
      ensures Valid() && storage.faults == old(storage.faults)
      ensures leases == old(leases) && nextLease == old(nextLease)
      ensures old(update).None? ==> r.Ok? && update.None? && storage.history == old(storage.history)
      ensures r.Ok? || Faulted(r)
      ensures storage.Healthy() ==> r.Ok?
      ensures r.Ok? ==> update.None?
      ensures !r.Ok? ==> update == old(update) && manifestComplete == old(manifestComplete) && payloadComplete == old(payloadComplete)
      ensures ActiveOf(h, storage.image) == old(ActiveOf(h, storage.image))
      ensures old(update).Some? ==>
                && var u := old(update).value;
                && (CommitOf(h, u.bank, old(storage.image).At(u.bank)).Some? ==>
                      storage.history == old(storage.history) && ActiveOf(h, storage.image) == Some(SnapshotOf(u)))
                && (CommitOf(h, u.bank, old(storage.image).At(u.bank)).None? && r.Ok? ==>
                      StagingOf(h, u.bank, storage.image.At(u.bank)).None?)
      ensures old(update).Some? ==>
                && var u := old(update).value;
                && PlanValid(u.plan) && SameContent(old(storage.image).At(u.bank), storage.image.At(u.bank), u.plan)
                && Kept(storage.history, |old(storage.history)|, u.bank.Other())
      ensures old(storage.history) <= storage.history
      ensures LeasedBanksKept()
    {
      hide Inv, SafeRun, SafeStep, CommitOf, LeasesSound, Select, ActiveOf, Live, ProgressSound, Visible, Validate, StagingOf, SameContent, PlanValid;
      KeptNow(storage.history);
      if update.None? { return StoreResult.Ok; }
      var u := update.value;
      LeasedElsewhere(h, storage.image, u, leases);
      LiveShape(h, storage.image, u);
      LivePlan(h, storage.image, u);
      SameContentRefl(storage.image.At(u.bank), u.plan);
      ImageIsInv();
      ValidatesIffCommitted(h, storage.image, u.bank);
      var committed;
      r, committed := ValidateBank(h, storage, u.bank);
      if r.Ok? {
        if committed.value.generation != u.generation || committed.value.transaction != u.transaction
           || committed.value.bundleSha != u.plan.bundleSha {
          assert false;
        }
        r := RefreshAfterCommit();
        return;
      }
      if Faulted(r) { return; }
      r := Withdraw();
    }

    /** Erasing the header sector ends an update whose record is incomplete. */
    method Withdraw() returns (r: StoreResult)
      requires Open()
      modifies this`update, this`manifestComplete, this`payloadComplete, storage
      ensures Valid() && storage.faults == old(storage.faults)
      ensures r.Ok? || Faulted(r)
      ensures storage.Healthy() ==> r.Ok?
      ensures r.Ok? ==> update.None? && StagingOf(h, old(update).value.bank, storage.image.At(old(update).value.bank)).None?
      ensures !r.Ok? ==> update == old(update) && manifestComplete == old(manifestComplete) && payloadComplete == old(payloadComplete)
      ensures ActiveOf(h, storage.image) == old(ActiveOf(h, storage.image))
      ensures PlanValid(old(update).value.plan)
      ensures SameContent(old(storage.image).At(old(update).value.bank), storage.image.At(old(update).value.bank), old(update).value.plan)
      ensures storage.history == old(storage.history) + [storage.image]
      ensures storage.image.At(old(update).value.bank.Other()) == old(storage.image).At(old(update).value.bank.Other())
    {
      hide Inv, SafeRun, SafeStep, CommitOf, LeasesSound, Select, ActiveOf, Live, ProgressSound, Visible, StagingOf;
      var u := update.value;
      ghost var before := storage.image;
      ghost var history := storage.history;
      var io;
      ghost var done;
      io, done := storage.Erase(u.bank, STAGING, SECTOR);
      AbortMutation(h, before, u, done, manifestComplete, payloadComplete);
      LivePlan(h, storage.image, u);
      UpdateMutated(before, history);
      r := MapIo(io);
      if !r.Ok? { return; }
      UpdateOver(h, storage.image, u);
      LeasesOutliveUpdate(h, storage.image, u, leases);
      ClearUpdate();
    }

    method ClearUpdate()
      modifies this`update, this`manifestComplete, this`payloadComplete
      ensures update.None? && !manifestComplete && payloadComplete == NO_BLOCKS
    {
      update := None;
      manifestComplete := false;
      payloadComplete := NO_BLOCKS;
    }
  }

  /** What resuming one bank must answer. */
  function LoadVerdict(h: Hashes, image: Image, id: BankId, transaction: TransactionId): StoreResult {
    var active := ActiveOf(h, image);
    match StagingOf(h, id, image.At(id))
    case None => TransactionMismatch
    case Some(u) =>
      if u.transaction != transaction || !SelfAuthentic(h, u) then TransactionMismatch
      else if !BaseMatches(active, u.plan) || u.generation != (GenerationOf(active) + 1) % (MAX_GENERATION + 1)
      then StaleBase
      else StoreResult.Ok
  }

  /** The flags are set for exactly the durable units. */
  predicate ProgressExact(h: Hashes, bank: Bank, u: Update, manifestComplete: bool, blocks: seq<bool>) {
    && PlanValid(u.plan)
    && |blocks| == 128
    && (manifestComplete <==> ManifestDurable(h, bank, u.plan))
    && forall i | 0 <= i < 128 ::
         blocks[i] <==> i < BlockCount(u.plan.payloadBytes) && BlockDurable(h, bank, u.plan, i)
  }

  /** No complete unit is forgotten. */
  predicate FlagsKept(before: seq<bool>, after: seq<bool>) {
    |before| == |after| && forall i | 0 <= i < |before| && before[i] :: after[i]
  }

  /** Reads every planned unit back; only an unreadable one stops it. */
  method VerifyProgress(h: Hashes, storage: FlashStorage, u: Update)
    returns (r: StoreResult, manifestComplete: bool, blocks: seq<bool>)
    requires PlanValid(u.plan)
    ensures r.Ok? || r.IoError?
    ensures storage.Healthy() ==> r.Ok?
    ensures r.Ok? ==> ProgressExact(h, storage.image.At(u.bank), u, manifestComplete, blocks)
  {
    blocks := NO_BLOCKS;
    var manifest := VerifyManifest(h, storage, u);
    manifestComplete := manifest.Ok?;
    if manifest.IoError? { return manifest, false, blocks; }
    hide ManifestDurable, BlockDurable;
    for index := 0 to BlockCount(u.plan.payloadBytes)
      invariant |blocks| == 128
      invariant forall i | 0 <= i < 128 ::
        blocks[i] <==> i < index && BlockDurable(h, storage.image.At(u.bank), u.plan, i)
    {
      var verified, complete := VerifyBlock(h, storage, u, index);
      if verified.IoError? { return verified, manifestComplete, blocks; }
      blocks := blocks[index := complete];
    }
    r := StoreResult.Ok;
  }

  lemma ExactIsSound(h: Hashes, image: Image, u: Update, manifestComplete: bool, blocks: seq<bool>)
    requires Live(h, image, u) && CommitOf(h, u.bank, image.At(u.bank)).None?
    requires ProgressExact(h, image.At(u.bank), u, manifestComplete, blocks)
    ensures ProgressSound(h, image.At(u.bank), u, manifestComplete, blocks)
  {
    hide CommitOf, ManifestDurable, BlockDurable, Inv, PlanValid, TailsErased;
  }

  lemma NotVisible(h: Hashes, image: Image, id: BankId)
    requires Visible(h, image, None).At(id).None?
    ensures CommitOf(h, id, image.At(id)).None?
  {
    hide DecodeCommitRecord;
  }

  lemma SelectKeepsBanks(a: Option<Snapshot>, b: Option<Snapshot>)
    ensures Select(a, b).bankA == a && Select(a, b).bankB == b
  {
  }

  lemma LeasesAdmitUpdate(h: Hashes, image: Image, u: Update, leases: seq<Option<Lease>>)
    requires LeasesSound(h, image, None, leases) && !Pinned(leases, u.bank)
    ensures LeasesSound(h, image, Some(u), leases)
  {
    hide CommitOf;
    forall i | 0 <= i < |leases| && leases[i].Some? ensures LeaseLive(h, image, Some(u), leases[i].value) {
      assert LeaseLive(h, image, None, leases[i].value);
    }
  }

  lemma TargetInactive(h: Hashes, image: Image)
    ensures Inactive(h, image, TargetOf(ActiveOf(h, image)))
  {
  }

  /** Staging that is not pending can never become current. */
  lemma OldStaging(h: Hashes, image: Image, target: BankId)
    requires Inv(h, image) && !Pending(h, image) && target == TargetOf(ActiveOf(h, image))
    ensures var staged := StagingOf(h, target, image.At(target));
            staged.Some? ==> staged.value.generation <= GenerationOf(ActiveOf(h, image))
    ensures Inactive(h, image, target)
  {
    hide DecodeCommitRecord, DecodeStaging, DeriveTransaction, Prepared, Validate;
  }

  /** Staging of a generation that has passed is not pending. */
  lemma OnlyOldStaging(h: Hashes, image: Image, target: BankId)
    requires target == TargetOf(ActiveOf(h, image))
    requires var staged := StagingOf(h, target, image.At(target)); staged.Some? ==> staged.value.generation <= GenerationOf(ActiveOf(h, image))
    ensures !Pending(h, image)
  {
    hide CommitOf, StagingOf, ActiveOf;
  }

  lemma ErasedIsNotPending(h: Hashes, image: Image, target: BankId, bank: Bank)
    requires target == TargetOf(ActiveOf(h, image)) && ActiveOf(h, image.With(target, bank)) == ActiveOf(h, image)
    requires StagingOf(h, target, bank).None? || bank == image.At(target)
    ensures !Pending(h, image) ==> !Pending(h, image.With(target, bank))
  {
    hide CommitOf, StagingOf, ActiveOf;
    if bank == image.At(target) { assert image.With(target, bank) == image; }
  }

  lemma OwnStaging(h: Hashes, image: Image, u: Update)
    requires u.bank == TargetOf(ActiveOf(h, image))
    requires var staged := StagingOf(h, u.bank, image.At(u.bank)); staged.None? || staged == Some(u)
    ensures !Foreign(h, image, u.plan)
  {
    hide CommitOf, StagingOf, ActiveOf;
  }

  lemma ReclaimedView(h: Hashes, image: Image, target: BankId, bank: Bank)
    requires Inv(h, image) && target == TargetOf(ActiveOf(h, image))
    requires CommitOf(h, target, bank).None?
    ensures var before, after := Visible(h, image, None), Visible(h, image.With(target, bank), None);
            && after == (if target == A then before.(bankA := None) else before.(bankB := None))
            && !after.splitBrain && after.active == before.active
  {
    hide DecodeCommitRecord, BankInv;
    var after := image.With(target, bank);
    assert after.At(target.Other()) == image.At(target.Other());
  }

  lemma UncommittedView(h: Hashes, image: Image, target: BankId, bank: Bank)
    requires CommitOf(h, target, image.At(target)).None? && CommitOf(h, target, bank).None?
    ensures Visible(h, image.With(target, bank), None) == Visible(h, image, None)
  {
    hide DecodeCommitRecord;
    var after := image.With(target, bank);
    assert after.At(target.Other()) == image.At(target.Other());
  }

  /** `u` is the next update, its plan fits and nobody reads its bank. */
  predicate Startable(h: Hashes, image: Image, u: Update, leases: seq<Option<Lease>>) {
    && Admission(h, image, u.plan, leases).Ok?
    && u == NextOf(h, image, u.plan)
  }

  lemma StartableShape(h: Hashes, image: Image, u: Update, leases: seq<Option<Lease>>)
    requires Startable(h, image, u, leases)
    ensures PlanValid(u.plan) && !Pinned(leases, u.bank)
    ensures u.bank == TargetOf(ActiveOf(h, image)) && Inactive(h, image, u.bank)
    ensures u.generation == GenerationOf(ActiveOf(h, image)) + 1
    ensures SelfAuthentic(h, u) && !AllAre(0, u.transaction)
  {
    hide CommitOf, Select, PlanValid;
  }

  lemma StartableLive(h: Hashes, image: Image, u: Update, leases: seq<Option<Lease>>)
    requires Inv(h, image) && Startable(h, image, u, leases)
    requires StagingOf(h, u.bank, image.At(u.bank)) == Some(u)
    requires CommitOf(h, u.bank, image.At(u.bank)).None?
    requires Prepared(h, image.At(u.bank), u)
    ensures Live(h, image, u)
  {
    hide CommitOf, Select, PlanValid, Live, Inv, Prepared, StagingOf;
    FreshUpdate(h, image, u, image);
  }

  lemma HeaderBytes(h: Hashes, bank: Bank, u: Update, k: nat)
    requires u.generation != 0 && !AllAre(0, u.transaction) && PlanValid(u.plan)
    requires Erased(bank, 0, BANK_SIZE) && k <= STAGING_BYTES - 4
    ensures |EncodeStaging(h, u)| == STAGING_BYTES
    ensures Overwrite(bank, 4, EncodeStaging(h, u)[4..][..k]) == HeaderWithoutMagic(h, u, k)
  {
    StagingRoundTrip(h, u);
    hide EncodeStaging, PlanValid;
    assert bank == Blank();
  }

  lemma StartableKept(h: Hashes, image: Image, after: Image, u: Update, leases: seq<Option<Lease>>)
    requires Startable(h, image, u, leases) && ActiveOf(h, after) == ActiveOf(h, image)
    ensures Startable(h, after, u, leases)
  {
    hide ActiveOf, PlanValid;
  }

  lemma KeptNow(history: seq<Image>)
    requires |history| > 0
    ensures Kept(history, |history|, A) && Kept(history, |history|, B)
  {
  }

  lemma AdmissionNeedsPlan(h: Hashes, image: Image, plan: Plan, leases: seq<Option<Lease>>)
    requires !PlanValid(plan)
    ensures Admission(h, image, plan, leases).InvalidArgument?
  {
  }

  lemma PinnedElsewhere(leases: seq<Option<Lease>>, target: BankId)
    requires !Pinned(leases, target)
    ensures forall id | Pinned(leases, id) :: id == target.Other()
  {
  }

  lemma StagingIsDecoded(h: Hashes, id: BankId, bank: Bank)
    ensures DecodeStaging(h, id, bank[STAGING..STAGING + STAGING_BYTES]) == StagingOf(h, id, bank)
    ensures StagingOf(h, id, bank).Some? ==> StagingOf(h, id, bank).value.generation != 0
  {
    assert bank[STAGING..STAGING + STAGING_BYTES] == bank[..STAGING_BYTES];
  }

  lemma LoadAnswers(h: Hashes, image: Image, u: Update, leases: seq<Option<Lease>>)
    requires Startable(h, image, u, leases) && StagingOf(h, u.bank, image.At(u.bank)) == Some(u)
    ensures LoadVerdict(h, image, u.bank, u.transaction).Ok?
  {
    hide CommitOf, StagingOf, Select, PlanValid, DeriveTransaction;
  }

  lemma AdmittedTarget(h: Hashes, image: Image, plan: Plan, leases: seq<Option<Lease>>)
    requires Admission(h, image, plan, leases).Ok?
    ensures !Pinned(leases, TargetOf(ActiveOf(h, image)))
  {
  }

  lemma StagedIsAuthentic(h: Hashes, image: Image, id: BankId)
    requires Inv(h, image) && StagingOf(h, id, image.At(id)).Some?
    ensures SelfAuthentic(h, StagingOf(h, id, image.At(id)).value)
  {
    StagedBank(h, id, image.At(id));
    hide DecodeCommitRecord, DecodeStaging, DeriveTransaction, Prepared, Validate;
  }

  predicate ManifestAccepted(h: Hashes, manifest: seq<byte>, plan: Plan) {
    |manifest| == plan.manifestBytes && h.crc32(manifest) == plan.manifestCrc && h.sha256(manifest) == plan.manifestSha
  }

  /** Where a finished write of part of the record leaves the record. */
  lemma RecordPart(bank: Bank, bytes: seq<byte>, start: nat, end: nat)
    requires start + |bytes| <= end <= COMMIT_RECORD
    ensures var after := Overwrite(bank, COMMIT + start, bytes);
            && after[COMMIT + start..COMMIT + end] == Record(after)[start..end]
            && (|bytes| == end - start ==> Record(after)[start..end] == bytes)
            && (start == 128 ==> Record(after)[..128] == Record(bank)[..128])
  {
  }

  lemma SnapshotFits(u: Update)
    requires PlanValid(u.plan)
    ensures SnapshotOf(u).manifestBytes <= SECTOR && SnapshotOf(u).payloadBytes <= PAYLOAD_MAX
  {
  }

  lemma BehindManifest(bank: Bank, offset: nat, bytes: seq<byte>)
    requires offset >= JOURNAL && offset + |bytes| <= BANK_SIZE
    ensures ManifestBytes(Overwrite(bank, offset, bytes), SECTOR) == ManifestBytes(bank, SECTOR)
  {
  }

  /** A cut erase or programming of the manifest leaves it torn. */
  lemma ManifestTorn(bank: Bank, length: nat, manifest: Option<seq<byte>>, done: nat)
    requires length <= SECTOR
    requires if manifest.Some? then done <= |manifest.value| == length else done <= SECTOR
    ensures var after := Overwrite(bank, MANIFEST, if manifest.Some? then manifest.value[..done] else Fill(255, done));
            && (manifest.None? ==> forall data: seq<byte> | |data| == length ::
                 Torn(ManifestBytes(bank, |data|), data) ==> Torn(ManifestBytes(after, |data|), data))
            && (manifest.Some? && Erased(bank, MANIFEST, MANIFEST + SECTOR) ==>
                 Torn(ManifestBytes(after, |manifest.value|), manifest.value))
  {
    hide Torn, Overwrite;
    if manifest.Some? {
      if Erased(bank, MANIFEST, MANIFEST + SECTOR) { ProgrammedPart(bank, MANIFEST, manifest.value, done); }
    } else {
      forall data: seq<byte> | |data| == length && Torn(ManifestBytes(bank, |data|), data)
        ensures Torn(ManifestBytes(Overwrite(bank, MANIFEST, Fill(255, done)), |data|), data)
      {
        ErasedFurther(bank, MANIFEST, data, done);
      }
    }
  }

  lemma BlockTorn(bank: Bank, payloadBytes: nat, index: nat, data: Option<seq<byte>>, done: nat)
    requires payloadBytes <= PAYLOAD_MAX && index < BlockCount(payloadBytes)
    requires if data.Some? then done <= |data.value| == BlockLength(payloadBytes, index) else done <= SECTOR
    ensures var after := Overwrite(bank, PAYLOAD + index * SECTOR, if data.Some? then data.value[..done] else Fill(255, done));
            && (data.None? ==> forall unit: seq<byte> | |unit| == BlockLength(payloadBytes, index) ::
                 Torn(BlockBytes(bank, payloadBytes, index), unit) ==> Torn(BlockBytes(after, payloadBytes, index), unit))
            && (data.Some? && SectorErased(bank, index) ==> Torn(BlockBytes(after, payloadBytes, index), data.value))
  {
    hide Torn, Overwrite;
    var offset := PAYLOAD + index * SECTOR;
    if data.Some? {
      if SectorErased(bank, index) { ProgrammedPart(bank, offset, data.value, done); }
    } else {
      forall unit: seq<byte> | |unit| == BlockLength(payloadBytes, index) && Torn(BlockBytes(bank, payloadBytes, index), unit)
        ensures Torn(BlockBytes(Overwrite(bank, offset, Fill(255, done)), payloadBytes, index), unit)
      {
        ErasedFurther(bank, offset, unit, done);
      }
    }
  }

  /** What a cut erase or programming of the manifest sector may change. */
  ghost predicate ManifestMutated(before: Bank, after: Bank, plan: Plan, manifest: Option<seq<byte>>, finished: bool)
    requires PlanValid(plan) && (manifest.Some? ==> |manifest.value| == plan.manifestBytes)
  {
    && BlocksKept(before, after, plan, NO_BLOCK)
    && (finished && manifest.None? ==> Erased(after, MANIFEST, MANIFEST + SECTOR))
    && (finished && manifest.Some? ==> ManifestBytes(after, plan.manifestBytes) == manifest.value)
    && (manifest.None? ==> forall data: seq<byte> | |data| == plan.manifestBytes ::
          Torn(ManifestBytes(before, |data|), data) ==> Torn(ManifestBytes(after, |data|), data))
    && (manifest.Some? && Erased(before, MANIFEST, MANIFEST + SECTOR) ==>
          Torn(ManifestBytes(after, |manifest.value|), manifest.value))
  }

  lemma MutatedManifest(bank: Bank, plan: Plan, manifest: Option<seq<byte>>, done: nat, finished: bool)
    requires PlanValid(plan)
    requires finished ==> done == if manifest.Some? then |manifest.value| else SECTOR
    requires if manifest.Some? then done <= |manifest.value| == plan.manifestBytes else done <= SECTOR
    ensures var after := Overwrite(bank, MANIFEST, if manifest.Some? then manifest.value[..done] else Fill(255, done));
            ManifestMutated(bank, after, plan, manifest, finished)
  {
    var bytes := if manifest.Some? then manifest.value[..done] else Fill(255, done);
    BelowPayload(bank, plan, MANIFEST, bytes);
    ManifestTorn(bank, plan.manifestBytes, manifest, done);
    hide Torn, BlocksKept;
    if manifest.Some? && done == |manifest.value| { assert bytes == manifest.value; ProgrammedManifest(bank, plan, manifest.value); }
  }

  /** What a cut erase or programming of one payload sector may change. */
  ghost predicate BlockMutated(before: Bank, after: Bank, plan: Plan, index: nat, data: Option<seq<byte>>, finished: bool)
    requires PlanValid(plan) && index < BlockCount(plan.payloadBytes)
  {
    && BlocksKept(before, after, plan, index)
    && ManifestBytes(after, SECTOR) == ManifestBytes(before, SECTOR)
    && (finished && data.None? ==> SectorErased(after, index))
    && (finished && data.Some? ==> BlockBytes(after, plan.payloadBytes, index) == data.value)
    && (data.None? ==> forall unit: seq<byte> | |unit| == BlockLength(plan.payloadBytes, index) ::
          Torn(BlockBytes(before, plan.payloadBytes, index), unit) ==> Torn(BlockBytes(after, plan.payloadBytes, index), unit))
    && (data.Some? && SectorErased(before, index) ==> Torn(BlockBytes(after, plan.payloadBytes, index), data.value))
  }

  lemma MutatedBlock(bank: Bank, plan: Plan, index: nat, data: Option<seq<byte>>, done: nat, finished: bool)
    requires PlanValid(plan) && index < BlockCount(plan.payloadBytes)
    requires finished ==> done == if data.Some? then |data.value| else SECTOR
    requires if data.Some? then done <= |data.value| == BlockLength(plan.payloadBytes, index) else done <= SECTOR
    ensures var after := Overwrite(bank, PAYLOAD + index * SECTOR, if data.Some? then data.value[..done] else Fill(255, done));
            BlockMutated(bank, after, plan, index, data, finished)
  {
    var offset := PAYLOAD + index * SECTOR;
    var bytes := if data.Some? then data.value[..done] else Fill(255, done);
    OneSector(bank, plan, index, bytes);
    BlockTorn(bank, plan.payloadBytes, index, data, done);
    BehindManifest(bank, offset, bytes);
    hide Torn, BlocksKept, ManifestBytes;
    if data.Some? && done == |data.value| { assert bytes == data.value; ProgrammedBlock(bank, plan, index, data.value); }
  }

  lemma SameContentRefl(bank: Bank, plan: Plan)
    requires PlanValid(plan)
    ensures SameContent(bank, bank, plan)
  {
  }

  lemma SameContentTrans(a: Bank, b: Bank, c: Bank, plan: Plan)
    requires PlanValid(plan)
    ensures SameContent(a, b, plan) && SameContent(b, c, plan) ==> SameContent(a, c, plan)
  {
    hide ManifestBytes, BlockBytes;
  }

  lemma RecordComplete(h: Hashes, image: Image, u: Update)
    requires Live(h, image, u)
    requires Record(image.At(u.bank))[..128] == CommitRecord(h, SnapshotOf(u))[..128]
    requires Record(image.At(u.bank))[128..COMMIT_RECORD] == CommitRecord(h, SnapshotOf(u))[128..COMMIT_RECORD]
    ensures CommitOf(h, u.bank, image.At(u.bank)) == Some(SnapshotOf(u))
    ensures Validate(h, u.bank, image.At(u.bank)).Ok?
  {
    hide CommitRecord, DecodeCommitRecord, Prepared, DecodeStaging, Validate, DeriveTransaction, StagingInv, SnapshotShape, ActiveOf;
    LiveShape(h, image, u);
    CommitRoundTrip(h, SnapshotOf(u));
    var found, record := Record(image.At(u.bank)), CommitRecord(h, SnapshotOf(u));
    assert found == found[..128] + found[128..COMMIT_RECORD];
    assert record == record[..128] + record[128..COMMIT_RECORD];
  }

  lemma LiveJournal(h: Hashes, image: Image, u: Update)
    requires Live(h, image, u)
    ensures PlanValid(u.plan) && JournalSound(h, image.At(u.bank), u.plan)
  {
    hide Inv;
  }

  lemma BlockFlagChecked(h: Hashes, bank: Bank, u: Update, manifestComplete: bool, blocks: seq<bool>, index: nat)
    requires PlanValid(u.plan) && index < BlockCount(u.plan.payloadBytes)
    requires ProgressSound(h, bank, u, manifestComplete, blocks)
    requires JournalSound(h, bank, u.plan)
    ensures |blocks| == 128 && ProgressSound(h, bank, u, manifestComplete, blocks[index := BlockDurable(h, bank, u.plan, index)])
  {
    hide CommitOf, BlockDurable, ManifestDurable;
  }

  lemma ValidatesIffCommitted(h: Hashes, image: Image, id: BankId)
    requires Inv(h, image)
    ensures Validate(h, id, image.At(id)).Ok? <==> CommitOf(h, id, image.At(id)).Some?
  {
    hide Validate, DecodeCommitRecord, StagingInv;
  }

  lemma ClearedIsProgrammable(bank: Bank, offset: nat, i: nat)
    requires offset < BANK_SIZE
    ensures Programmable(bank, offset, [ClearBit(bank[offset], i)])
  {
    forall j | 0 <= j < 8 && Bit(ClearBit(bank[offset], i), j) ensures Bit(bank[offset], j) {
      ClearBitClears(bank[offset], i, j);
    }
  }

  predicate BlockFits(index: nat, data: seq<byte>, plan: Plan) {
    index < BlockCount(plan.payloadBytes) && |data| == BlockLength(plan.payloadBytes, index)
  }

  predicate SectorErased(bank: Bank, index: nat)
    requires index < 128
  {
    Erased(bank, PAYLOAD + index * SECTOR, PAYLOAD + index * SECTOR + SECTOR)
  }

  lemma SectorAligned(index: nat)
    ensures (PAYLOAD + index * SECTOR) % SECTOR == 0
  {
    assert PAYLOAD + index * SECTOR == (3 + index) * SECTOR;
  }

  lemma BlocksFit(plan: Plan)
    requires PlanValid(plan)
    ensures BlockCount(plan.payloadBytes) <= 128
  {
  }

  lemma WrittenIsDurable(h: Hashes, bank: Bank, u: Update, index: nat, data: seq<byte>)
    requires PlanValid(u.plan) && index < BlockCount(u.plan.payloadBytes)
    requires h.crc32(data) == u.plan.blockCrcs[index]
    ensures BlockBytes(bank, u.plan.payloadBytes, index) == data ==> BlockDurable(h, bank, u.plan, index)
  {
  }

  lemma BlockFlagRaised(h: Hashes, bank: Bank, u: Update, manifestComplete: bool, blocks: seq<bool>, index: nat)
    requires PlanValid(u.plan) && index < BlockCount(u.plan.payloadBytes)
    requires ProgressSound(h, bank, u, manifestComplete, blocks) && BlockDurable(h, bank, u.plan, index)
    ensures |blocks| == 128 && ProgressSound(h, bank, u, manifestComplete, blocks[index := true])
  {
    hide CommitOf, BlockDurable, ManifestDurable;
  }

  lemma AcceptedLength(h: Hashes, manifest: seq<byte>, plan: Plan)
    requires ManifestAccepted(h, manifest, plan)
    ensures |manifest| == plan.manifestBytes
  {
  }

  lemma ManifestFits(plan: Plan)
    requires PlanValid(plan)
    ensures plan.manifestBytes <= SECTOR
  {
  }

  lemma RetryWhenErased(bank: Bank, offset: nat, source: seq<byte>)
    requires offset + |source| <= BANK_SIZE
    ensures Erased(bank, offset, offset + |source|) ==> Programmable(bank, offset, source)
  {
    if Erased(bank, offset, offset + |source|) { RetryIsProgrammable(bank, offset, source); }
  }

  lemma ZeroIsProgrammable(bank: Bank, offset: nat)
    requires offset < BANK_SIZE
    ensures Programmable(bank, offset, [0])
  {
    forall i: nat | i < 8 ensures !Bit(0, i) { ZeroHasNoBit(i); }
  }

  lemma LeasedElsewhere(h: Hashes, image: Image, u: Update, leases: seq<Option<Lease>>)
    requires LeasesSound(h, image, Some(u), leases)
    ensures forall id | Pinned(leases, id) :: id == u.bank.Other()
  {
    hide CommitOf;
  }

  lemma FlagsTrue(h: Hashes, bank: Bank, u: Update, manifestComplete: bool, blocks: seq<bool>)
    requires PlanValid(u.plan) && ProgressSound(h, bank, u, manifestComplete, blocks)
    ensures |blocks| == 128
    ensures manifestComplete ==> ManifestVerdictOf(h, bank, u.plan).Ok?
    ensures manifestComplete ==> ManifestDurable(h, bank, u.plan)
    ensures forall i | 0 <= i < 128 && blocks[i] ::
              i < BlockCount(u.plan.payloadBytes) && BlockDurable(h, bank, u.plan, i)
    ensures CommitOf(h, u.bank, bank).Some? ==>
              forall i | 0 <= i < BlockCount(u.plan.payloadBytes) :: blocks[i]
  {
  }

  lemma AcceptedIsDurable(h: Hashes, bank: Bank, u: Update, manifest: seq<byte>)
    requires PlanValid(u.plan) && ManifestAccepted(h, manifest, u.plan)
    ensures ManifestBytes(bank, u.plan.manifestBytes) == manifest ==>
              ManifestVerdictOf(h, bank, u.plan).Ok? && ManifestDurable(h, bank, u.plan)
  {
  }

  lemma ManifestFlagRaised(h: Hashes, bank: Bank, u: Update, blocks: seq<bool>, was: bool)
    requires PlanValid(u.plan) && ManifestDurable(h, bank, u.plan)
    ensures ProgressSound(h, bank, u, was, blocks) ==> ProgressSound(h, bank, u, true, blocks)
  {
  }

  lemma BankViewBank(h: Hashes, image: Image, update: Option<Update>)
    ensures forall id :: BankView(h, image, update, id).Some? ==>
              && BankView(h, image, update, id) == CommitOf(h, id, image.At(id))
              && BankView(h, image, update, id).value.bank == id
  {
    hide DecodeCommitRecord;
  }

  lemma LeaseSlots(h: Hashes, image: Image, update: Option<Update>, leases: seq<Option<Lease>>)
    requires LeasesSound(h, image, update, leases)
    ensures |leases| == MAX_LEASES
  {
  }

  lemma VisibleCommitted(h: Hashes, image: Image, update: Option<Update>)
    ensures var active := Visible(h, image, update).active;
            active.Some? ==>
              && CommitOf(h, active.value.bank, image.At(active.value.bank)) == active
              && (update.Some? ==> update.value.bank != active.value.bank)
  {
    hide DecodeCommitRecord;
  }

  lemma LeaseAdded(h: Hashes, image: Image, update: Option<Update>, leases: seq<Option<Lease>>, free: nat, lease: Lease)
    requires LeasesSound(h, image, update, leases) && LeaseLive(h, image, update, lease)
    requires free < MAX_LEASES && leases[free].None? && !UsedId(leases, lease.id)
    ensures LeasesSound(h, image, update, leases[free := Some(lease)])
  {
    hide LeaseLive;
  }

  /** The next id from `start` on that no live lease uses. */
  method FreshId(leases: seq<Option<Lease>>, start: u64, free: nat) returns (id: u64)
    requires |leases| == MAX_LEASES && free < MAX_LEASES && leases[free].None? && start != 0
    ensures id != 0 && !UsedId(leases, id)
    ensures start <= id || id < MAX_LEASES
  {
    id := start;
    var attempt := 0;
    SomeCandidateFree(leases, start, free);
    while attempt <= MAX_LEASES
      invariant attempt <= MAX_LEASES
      invariant id == Candidate(start, attempt) || (id == 0 && Candidate(start, attempt) == 1)
      invariant forall k | 0 <= k < attempt :: UsedId(leases, Candidate(start, k))
      decreases MAX_LEASES - attempt
    {
      if id == 0 { id := 1; }
      if !UsedId(leases, id) { break; }
      assert UsedId(leases, Candidate(start, attempt));
      id := (id + 1) % (MAX_GENERATION + 1);
      attempt := attempt + 1;
    }
  }

  /** Commit records first, then only the manifest of the candidate. */
  method FastScan(h: Hashes, storage: FlashStorage) returns (r: StoreResult, found: Selection)
    ensures r.Ok? || r.FactoryBlank? || Faulted(r)
    ensures !Faulted(r) ==> found == FastSelection(h, storage.image)
    ensures r.FactoryBlank? ==> found.active.None?
    ensures storage.Healthy() ==> !Faulted(r)
  {
    hide DecodeCommitRecord, ManifestAuthentic, SnapshotShape;
    found := NO_SELECTION;
    var a, b: Option<Snapshot>;
    var readA, readB: StoreResult;
    if RecordBlank(storage.image.a) { BlankIsUncommitted(h, A, storage.image.a); }
    if RecordBlank(storage.image.b) { BlankIsUncommitted(h, B, storage.image.b); }
    readA, a := ReadCommit(h, storage, A);
    if Faulted(readA) { return readA, found; }
    readB, b := ReadCommit(h, storage, B);
    if Faulted(readB) { return readB, found; }
    if readA.FactoryBlank? && readB.FactoryBlank? { return FactoryBlank, found; }
    r := StoreResult.Ok;
    found := Select(a, b);
    if found.splitBrain {
      var verdictA, verdictB: StoreResult;
      verdictA := CheckReadCandidate(h, storage, a.value);
      if Faulted(verdictA) { return verdictA, found; }
      verdictB := CheckReadCandidate(h, storage, b.value);
      if Faulted(verdictB) { return verdictB, found; }
      found := Select(if verdictA.Ok? then a else None, if verdictB.Ok? then b else None);
    } else if found.active.Some? {
      var activeIsA := found.active.value.bank == A;
      var verdict := CheckReadCandidate(h, storage, found.active.value);
      if Faulted(verdict) { return verdict, found; }
      if verdict.Ok? {
        found := if activeIsA then Select(a, None) else Select(None, b);
      } else {
        var fallback := if activeIsA then b else a;
        if fallback.Some? {
          verdict := CheckReadCandidate(h, storage, fallback.value);
          if Faulted(verdict) { return verdict, found; }
          if !verdict.Ok? { fallback := None; }
        }
        found := if activeIsA then Select(None, fallback) else Select(fallback, None);
      }
    }
  }

  lemma LeasesOutliveUpdate(h: Hashes, image: Image, u: Update, leases: seq<Option<Lease>>)
    requires LeasesSound(h, image, Some(u), leases)
    ensures LeasesSound(h, image, None, leases)
  {
    hide CommitOf;
    forall i | 0 <= i < |leases| && leases[i].Some? ensures LeaseLive(h, image, None, leases[i].value) {
      assert LeaseLive(h, image, Some(u), leases[i].value);
    }
  }

  /** The update is found active exactly when its record is complete. */
  lemma UpdateFound(h: Hashes, image: Image, u: Update)
    requires Live(h, image, u)
    ensures var active := ActiveOf(h, image);
            (active.Some? && active.value.bank == u.bank && active.value.generation == u.generation)
            <==> CommitOf(h, u.bank, image.At(u.bank)).Some?
    ensures CommitOf(h, u.bank, image.At(u.bank)).Some? ==> ActiveOf(h, image) == Some(SnapshotOf(u))
    ensures CommitOf(h, u.bank, image.At(u.bank)).None? ==>
              Visible(h, image, Some(u)) == Visible(h, image, None)
  {
    hide DecodeCommitRecord;
    LiveShape(h, image, u);
  }
}
