/** What the store's memory claims about flash, and what each request should answer. */
module StoreView {
  import opened Bytes
  import opened Flash
  import opened SoundFormat
  import opened SoundBanks
  import opened CrashInvariant

  const MAX_GENERATION: nat := 0xFFFF_FFFF_FFFF_FFFF
  const MAX_LEASES: nat := 8

  datatype Lease = Lease(id: u64, bank: BankId, generation: u64, bundleSha: Digest)

  // ---------- Claims ----------

  /** A bank under update has no committed snapshot as far as the store's memory goes. */
  function BankView(h: Hashes, image: Image, update: Option<Update>, id: BankId): Option<Snapshot> {
    if update.Some? && update.value.bank == id then None else CommitOf(h, id, image.At(id))
  }

  function Visible(h: Hashes, image: Image, update: Option<Update>): Selection {
    Select(BankView(h, image, update, A), BankView(h, image, update, B))
  }

  predicate SelectionSound(h: Hashes, image: Image, update: Option<Update>, selection: Option<Selection>) {
    selection.Some? ==> selection.value == Visible(h, image, update) && !selection.value.splitBrain
  }

  predicate ReadSound(h: Hashes, image: Image, update: Option<Update>, selection: Option<Selection>, r: StoreResult) {
    selection.Some? ==>
      && selection.value.active == Visible(h, image, update).active
      && !selection.value.splitBrain
      && (r.Ok? <==> selection.value.active.Some?)
  }

  predicate LeaseLive(h: Hashes, image: Image, update: Option<Update>, lease: Lease) {
    var s := CommitOf(h, lease.bank, image.At(lease.bank));
    && lease.id != 0
    && (update.Some? ==> update.value.bank != lease.bank)
    && s.Some? && s.value.generation == lease.generation && s.value.bundleSha == lease.bundleSha
  }

  predicate LeasesSound(h: Hashes, image: Image, update: Option<Update>, leases: seq<Option<Lease>>) {
    && |leases| == MAX_LEASES
    && (forall i | 0 <= i < |leases| && leases[i].Some? :: LeaseLive(h, image, update, leases[i].value))
    && forall i, j | 0 <= i < j < |leases| && leases[i].Some? && leases[j].Some? ::
         leases[i].value.id != leases[j].value.id
  }

  predicate Pinned(leases: seq<Option<Lease>>, id: BankId) {
    exists i | 0 <= i < |leases| :: leases[i].Some? && leases[i].value.bank == id
  }

  /** The progress flags of a live update: each one is true of flash, and every journal
      mark and every committed block has its flag. */
  predicate ProgressSound(h: Hashes, bank: Bank, u: Update, manifestComplete: bool, blocks: seq<bool>)
    requires PlanValid(u.plan)
  {
    && |blocks| == 128
    && (manifestComplete ==> ManifestDurable(h, bank, u.plan))
    && (JournalManifestMarked(bank) ==> manifestComplete)
    && (forall i | 0 <= i < 128 && blocks[i] ::
          i < BlockCount(u.plan.payloadBytes) && BlockDurable(h, bank, u.plan, i))
    && (forall i | 0 <= i < 128 && JournalBlockMarked(bank, i) :: blocks[i])
    && (CommitOf(h, u.bank, bank).Some? ==>
          forall i | 0 <= i < BlockCount(u.plan.payloadBytes) :: blocks[i])
  }

  predicate UpdateSound(h: Hashes, image: Image, update: Option<Update>, manifestComplete: bool, blocks: seq<bool>) {
    if update.None? then true
    else
      && Live(h, image, update.value)
      && ProgressSound(h, image.At(update.value.bank), update.value, manifestComplete, blocks)
  }

  /** Mutating the bank under update leaves every other claim alone. */
  lemma OthersKept(h: Hashes, image: Image, u: Update, bank: Bank, selection: Option<Selection>,
                   readSelection: Option<Selection>, readResult: StoreResult, leases: seq<Option<Lease>>)
    requires SelectionSound(h, image, Some(u), selection)
    requires ReadSound(h, image, Some(u), readSelection, readResult)
    requires LeasesSound(h, image, Some(u), leases)
    ensures SelectionSound(h, image.With(u.bank, bank), Some(u), selection)
    ensures ReadSound(h, image.With(u.bank, bank), Some(u), readSelection, readResult)
    ensures LeasesSound(h, image.With(u.bank, bank), Some(u), leases)
  {
    hide DecodeCommitRecord, Select;
    var after := image.With(u.bank, bank);
    assert after.At(u.bank.Other()) == image.At(u.bank.Other());
    assert BankView(h, after, Some(u), A) == BankView(h, image, Some(u), A);
    assert BankView(h, after, Some(u), B) == BankView(h, image, Some(u), B);
    forall i | 0 <= i < |leases| && leases[i].Some?
      ensures LeaseLive(h, after, Some(u), leases[i].value)
    {
      assert LeaseLive(h, image, Some(u), leases[i].value);
    }
  }

  /** Mutating an unleased bank leaves every lease alone. */
  lemma LeasesKept(h: Hashes, image: Image, id: BankId, bank: Bank, leases: seq<Option<Lease>>)
    requires LeasesSound(h, image, None, leases) && !Pinned(leases, id)
    ensures LeasesSound(h, image.With(id, bank), None, leases)
  {
    hide DecodeCommitRecord;
    var after := image.With(id, bank);
    forall i | 0 <= i < |leases| && leases[i].Some?
      ensures LeaseLive(h, after, None, leases[i].value)
    {
      assert LeaseLive(h, image, None, leases[i].value);
      assert leases[i].value.bank != id;
      assert after.At(leases[i].value.bank) == image.At(leases[i].value.bank);
    }
  }

  // ---------- Verdicts ----------

  /** The only update that may follow the active bundle. */
  function NextOf(h: Hashes, image: Image, plan: Plan): Update
    requires GenerationOf(ActiveOf(h, image)) < MAX_GENERATION
  {
    var bank := TargetOf(ActiveOf(h, image));
    var generation := GenerationOf(ActiveOf(h, image)) + 1;
    Update(bank, generation, DeriveTransaction(h, plan, bank, generation), plan)
  }

  function TargetBank(h: Hashes, image: Image): Bank { image.At(TargetOf(ActiveOf(h, image))) }

  /** What stands in the way of any work on the target bank. */
  function Admission(h: Hashes, image: Image, plan: Plan, leases: seq<Option<Lease>>): (r: StoreResult)
    ensures r.Ok? ==> PlanValid(plan) && GenerationOf(ActiveOf(h, image)) < MAX_GENERATION
  {
    var active := ActiveOf(h, image);
    if !PlanValid(plan) then StoreResult.InvalidArgument
    else if !BaseMatches(active, plan) then StaleBase
    else if GenerationOf(active) == MAX_GENERATION then GenerationExhausted
    else if Pinned(leases, TargetOf(active)) then BankPinned
    else StoreResult.Ok
  }

  /** A plan is admitted on exactly the bundle it names, generation and digest, or on none at
      all; anything else is a stale base, before exhaustion and leases are looked at. */
  lemma AdmissionMeans(h: Hashes, image: Image, plan: Plan, leases: seq<Option<Lease>>, active: Option<Snapshot>)
    requires active == ActiveOf(h, image)
    ensures var matches := if active.Some? then plan.baseGeneration == active.value.generation && plan.baseSha == active.value.bundleSha
                           else plan.baseGeneration == 0;
            var target := if active.Some? && active.value.bank == A then B else A;
            Admission(h, image, plan, leases) ==
              if !PlanValid(plan) then StoreResult.InvalidArgument
              else if !matches then StaleBase
              else if active.Some? && active.value.generation == 0xFFFF_FFFF_FFFF_FFFF then GenerationExhausted
              else if exists i | 0 <= i < |leases| :: leases[i].Some? && leases[i].value.bank == target then BankPinned
              else StoreResult.Ok
    ensures PlanValid(plan) ==> (plan.baseGeneration == 0 <==> AllAre(0, plan.baseSha))
  {
    hide CommitOf, ActiveOf;
  }

  /** The one update a plan may become. */
  lemma NextMeans(h: Hashes, image: Image, plan: Plan)
    requires GenerationOf(ActiveOf(h, image)) < MAX_GENERATION
    ensures var active, u := ActiveOf(h, image), NextOf(h, image, plan);
            && u.plan == plan
            && u.generation == (if active.Some? then active.value.generation + 1 else 1)
            && u.bank == (if active.Some? && active.value.bank == A then B else A)
            && u.transaction == DeriveTransaction(h, plan, u.bank, u.generation)
  {
    hide ActiveOf, DeriveTransaction;
  }

  /** While no record is written an update is built on the bundle being served, in the other
      bank. */
  lemma LiveBase(h: Hashes, image: Image, u: Update)
    requires Live(h, image, u) && CommitOf(h, u.bank, image.At(u.bank)).None?
    ensures var active := ActiveOf(h, image);
            if active.Some? then
              && u.plan.baseGeneration == active.value.generation && u.plan.baseSha == active.value.bundleSha
              && u.generation == active.value.generation + 1 && u.bank != active.value.bank
            else u.plan.baseGeneration == 0 && AllAre(0, u.plan.baseSha) && u.generation == 1
  {
    hide DecodeCommitRecord, DecodeStaging, Prepared, Validate, StagingInv, DeriveTransaction;
  }

  predicate SelfAuthentic(h: Hashes, u: Update) {
    u.transaction == DeriveTransaction(h, u.plan, u.bank, u.generation)
  }

  function BeginVerdict(h: Hashes, image: Image, plan: Plan, leases: seq<Option<Lease>>): StoreResult {
    var admission := Admission(h, image, plan, leases);
    var target := TargetOf(ActiveOf(h, image));
    if !admission.Ok? then admission
    else if CommitOf(h, target, image.At(target)).Some? then StoreResult.Ok
    else if AllAre(255, image.At(target)[..STAGING_BYTES]) then StoreResult.Ok
    else
      match StagingOf(h, target, image.At(target))
      case None => InvalidStaging
      case Some(staged) =>
        if !SelfAuthentic(h, staged) then InvalidStaging
        else if staged.generation <= GenerationOf(ActiveOf(h, image)) then StoreResult.Ok
        else if staged != NextOf(h, image, plan) then Busy
        else StoreResult.Ok
  }

  function DiscardVerdict(h: Hashes, image: Image, plan: Plan, leases: seq<Option<Lease>>): StoreResult {
    var admission := Admission(h, image, plan, leases);
    var target := TargetOf(ActiveOf(h, image));
    if !admission.Ok? then admission
    else if CommitOf(h, target, image.At(target)).Some? then Busy
    else if AllAre(255, image.At(target)[..STAGING_BYTES]) then StoreResult.Ok
    else
      match StagingOf(h, target, image.At(target))
      case None => StoreResult.Ok
      case Some(staged) => if SelfAuthentic(h, staged) then Busy else StoreResult.Ok
  }

  /** What the staging area of the target says to a plan that is admitted: nothing in the way,
      something unreadable, or somebody else's transaction. */
  lemma BeginMeans(h: Hashes, image: Image, plan: Plan, leases: seq<Option<Lease>>,
                   active: Option<Snapshot>, target: BankId, staged: Option<Update>, blank: bool, authentic: bool, committed: bool)
    requires Admission(h, image, plan, leases).Ok? && active == ActiveOf(h, image)
    requires target == if active.Some? && active.value.bank == A then B else A
    requires staged == StagingOf(h, target, image.At(target)) && (committed <==> CommitOf(h, target, image.At(target)).Some?)
    requires blank <==> forall i | 0 <= i < 704 :: image.At(target)[i] == 0xFF
    requires authentic <==> staged.Some? && var u := staged.value; u.transaction == DeriveTransaction(h, u.plan, u.bank, u.generation)
    ensures BeginVerdict(h, image, plan, leases).InvalidStaging? <==> !committed && !blank && !authentic
    ensures DiscardVerdict(h, image, plan, leases) == if !committed && (blank || !authentic) then StoreResult.Ok else Busy
    ensures BeginVerdict(h, image, plan, leases).Ok? && !committed && !blank ==>
              && staged.Some?
              && var u := staged.value;
              && var next := if active.Some? then active.value.generation + 1 else 1;
              u.generation < next || (u.plan == plan && u.bank == target && u.generation == next)
  {
    hide CommitOf, ActiveOf, DecodeStaging, DeriveTransaction, Admission;
    assert forall i | 0 <= i < 704 :: image.At(target)[..704][i] == image.At(target)[i];
  }

  /** The target carries a complete transaction that may still become current. */
  predicate Pending(h: Hashes, image: Image) {
    var target := TargetOf(ActiveOf(h, image));
    var staged := StagingOf(h, target, image.At(target));
    && CommitOf(h, target, image.At(target)).None?
    && staged.Some? && SelfAuthentic(h, staged.value)
    && staged.value.generation > GenerationOf(ActiveOf(h, image))
  }

  /** Somebody else's complete transaction is on the target. */
  predicate Foreign(h: Hashes, image: Image, plan: Plan) {
    Pending(h, image) && StagingOf(h, TargetOf(ActiveOf(h, image)), TargetBank(h, image)).value.plan != plan
  }

  /** Begin is refused as busy exactly when somebody else's transaction owns the target. */
  lemma BusyMeansForeign(h: Hashes, image: Image, plan: Plan, leases: seq<Option<Lease>>)
    requires Inv(h, image)
    ensures BeginVerdict(h, image, plan, leases).Busy? <==>
              Admission(h, image, plan, leases).Ok? && Foreign(h, image, plan)
  {
    hide DecodeCommitRecord, DecodeStaging, DeriveTransaction, Validate, Prepared;
    var target := TargetOf(ActiveOf(h, image));
    if AllAre(255, image.At(target)[..STAGING_BYTES]) {
      assert image.At(target)[..4][0] == image.At(target)[..STAGING_BYTES][0];
      NoMagicNoStaging(h, target, image.At(target));
    }
    if CommitOf(h, target, image.At(target)).None? && StagingOf(h, target, image.At(target)).Some? {
      StagedBank(h, target, image.At(target));
    }
  }

  lemma StagedBank(h: Hashes, id: BankId, bank: Bank)
    requires StagingOf(h, id, bank).Some?
    ensures StagingOf(h, id, bank).value.bank == id && PlanValid(StagingOf(h, id, bank).value.plan)
  {
  }

  lemma BlankHasNoStaging(h: Hashes, id: BankId, bank: Bank)
    requires AllAre(255, bank[..STAGING_BYTES])
    ensures StagingOf(h, id, bank).None?
  {
    assert bank[..4][0] == bank[..STAGING_BYTES][0];
    NoMagicNoStaging(h, id, bank);
  }

  lemma ErasedIsUncommitted(h: Hashes, id: BankId, bank: Bank)
    requires Erased(bank, 0, BANK_SIZE)
    ensures CommitOf(h, id, bank).None? && AllAre(255, bank[..STAGING_BYTES])
  {
    assert Record(bank)[0] == bank[COMMIT];
    CommitNeedsVersion(h, id, Record(bank));
  }

  /** One discard is always enough: where begin meets unreadable staging, discard is
      allowed, and on the bank it leaves behind the same begin succeeds. */
  lemma DiscardUnblocks(h: Hashes, image: Image, plan: Plan, leases: seq<Option<Lease>>, bank: Bank)
    requires Inv(h, image)
    requires BeginVerdict(h, image, plan, leases).InvalidStaging?
    requires Erased(bank, 0, BANK_SIZE)
    ensures DiscardVerdict(h, image, plan, leases).Ok?
    ensures BeginVerdict(h, image.With(TargetOf(ActiveOf(h, image)), bank), plan, leases).Ok?
  {
    hide DecodeCommitRecord, DecodeStaging, DeriveTransaction, Validate, Prepared;
    var target := TargetOf(ActiveOf(h, image));
    var after := image.With(target, bank);
    ErasedIsUncommitted(h, target, bank);
    assert after.At(target.Other()) == image.At(target.Other());
    assert CommitOf(h, target, image.At(target)).None?;
    assert ActiveOf(h, after) == ActiveOf(h, image);
  }
}
