/** Whole lifetimes of the store: any requests, any power cuts, any reboots. */
module StoreRuns {
  import opened Bytes
  import opened Flash
  import opened SoundFormat
  import opened SoundBanks
  import opened CrashInvariant
  import opened BankChecks
  import opened StoreView
  import opened UpdateSteps
  import opened UnitShapes
  import opened SoundStore
  import opened StoreAnswers
  import Crc32

  /** An update found active in flash has its record complete. */
  lemma CommittedIffActive(h: Hashes, image: Image, u: Update)
    requires Live(h, image, u)
    ensures CommitOf(h, u.bank, image.At(u.bank)).Some? <==> ActiveOf(h, image) == Some(SnapshotOf(u))
  {
    hide Live, CommitOf, ActiveOf, Visible;
    UpdateFound(h, image, u);
  }

  lemma FreshIsUnpublished(h: Hashes, before: Image, image: Image, plan: Plan)
    requires GenerationOf(ActiveOf(h, before)) < MAX_GENERATION
    requires ActiveOf(h, image) == ActiveOf(h, before)
    ensures ActiveOf(h, image) != Some(SnapshotOf(NextOf(h, before, plan)))
  {
    hide ActiveOf, DeriveTransaction;
  }

  /** The same update, and nothing that was complete is forgotten. */
  twostate predicate UpdateKept(store: SoundAssetStore)
    reads store
  {
    && store.update == old(store.update)
    && (old(store.manifestComplete) ==> store.manifestComplete)
    && FlagsKept(old(store.payloadComplete), store.payloadComplete)
  }

  // ---------- Every lifetime ----------

  /** What a run guarantees at every instant: the fast boot read and the strict scan serve
      the same complete bundle, there is no split brain, and generations only grow, each
      of them served by one bundle only. */
  ghost predicate CrashSafe(h: Hashes, history: seq<Image>) {
    && (forall i | 0 <= i < |history| :: Agreed(h, history[i]))
    && forall i, j | 0 <= i <= j < |history| ::
         var early, late := StrictSelection(h, history[i]).active, StrictSelection(h, history[j]).active;
         && GenerationOf(early) <= GenerationOf(late)
         && (GenerationOf(early) == GenerationOf(late) ==> early == late)
  }

  predicate Agreed(h: Hashes, image: Image) {
    var strict, fast := StrictSelection(h, image), FastSelection(h, image);
    && strict.active == fast.active
    && !strict.splitBrain && !fast.splitBrain
    && (strict.active.Some? ==>
          && var s, bank := strict.active.value, image.At(strict.active.value.bank);
          && Validate(h, s.bank, bank).Ok?
          && s.manifestBytes <= SECTOR && s.payloadBytes <= PAYLOAD_MAX
          && h.sha256(ManifestBytes(bank, s.manifestBytes)) == s.manifestSha
          && h.sha256(BundleInput(ManifestBytes(bank, s.manifestBytes), PayloadBytes(bank, s.payloadBytes))) == s.bundleSha)
  }

  lemma SafeRunsAreCrashSafe(h: Hashes, history: seq<Image>)
    requires SafeRun(h, history)
    ensures CrashSafe(h, history)
  {
    hide Inv, SafeRun, ActiveOf, StrictSelection, FastSelection, Validate;
    forall i | 0 <= i < |history|
      ensures Agreed(h, history[i])
      ensures StrictSelection(h, history[i]).active == ActiveOf(h, history[i])
    {
      RunIsInv(h, history, i);
      ScansAgree(h, history[i]);
      if StrictSelection(h, history[i]).active.Some? { ServedIsAuthentic(h, history[i], StrictSelection(h, history[i]).active.value); }
    }
    forall i, j | 0 <= i <= j < |history|
      ensures GenerationOf(ActiveOf(h, history[i])) <= GenerationOf(ActiveOf(h, history[j]))
      ensures GenerationOf(ActiveOf(h, history[i])) == GenerationOf(ActiveOf(h, history[j]))
              ==> ActiveOf(h, history[i]) == ActiveOf(h, history[j])
    {
      GenerationsNeverDecrease(h, history, i, j);
    }
  }

  lemma FactoryImageIsInv(h: Hashes, image: Image)
    requires Erased(image.a, 0, BANK_SIZE) && Erased(image.b, 0, BANK_SIZE)
    ensures Inv(h, image)
  {
    ErasedIsUncommitted(h, A, image.a);
    ErasedIsUncommitted(h, B, image.b);
    BlankHasNoStaging(h, A, image.a);
    BlankHasNoStaging(h, B, image.b);
    hide DecodeCommitRecord, DecodeStaging, Validate, DeriveTransaction, Prepared;
  }

  /** One request with its answer, and the store before and after. */
  datatype Step = Step(request: Request, answer: Answer, before: Memory, after: Memory)

  function StateAt(steps: seq<Step>, first: Memory, i: nat): Memory
    requires i <= |steps|
  {
    if i == 0 then first else steps[i - 1].after
  }

  /** The requests in order, each with the store's answer in the state the one before left. */
  predicate Linked(h: Hashes, steps: seq<Step>, requests: seq<Request>, first: Memory) {
    && |steps| == |requests|
    && forall i | 0 <= i < |steps| ::
         && steps[i].request == requests[i] && steps[i].before == StateAt(steps, first, i)
         && Answers(h, steps[i].before, steps[i].request, steps[i].answer, steps[i].after)
  }

  lemma LinkedOn(h: Hashes, steps: seq<Step>, requests: seq<Request>, first: Memory, step: Step)
    requires |steps| < |requests| && Linked(h, steps, requests[..|steps|], first)
    requires step.request == requests[|steps|] && step.before == StateAt(steps, first, |steps|)
    requires Answers(h, step.before, step.request, step.answer, step.after)
    ensures Linked(h, steps + [step], requests[..|steps| + 1], first)
  {
    hide Answers;
  }

  /** A device as it leaves the factory. */
  predicate FactoryNew(m: Memory) {
    && Erased(m.image.a, 0, BANK_SIZE) && Erased(m.image.b, 0, BANK_SIZE) && m.history == [m.image]
    && m.faults == NO_FAULTS && m.update.None? && forall id :: !Pinned(m.leases, id)
  }

  /** From a factory-blank device, through any requests, faults, torn mutations and
      reboots, up to the first request that sends the planned manifest again in the exposed
      state: every request gets its answer, and flash is crash safe at every instant. */
  method Lifetime(h: Hashes, requests: seq<Request>) returns (store: SoundAssetStore, served: nat, ghost steps: seq<Step>, ghost first: Memory)
    ensures store.Valid() && store.h == h && CrashSafe(h, store.storage.history)
    ensures FactoryNew(first) && served <= |requests| && |steps| == served
    ensures Linked(h, steps, requests[..served], first) && MemoryOf(store) == StateAt(steps, first, served)
    ensures served < |requests| ==> requests[served].Manifest? && store.Rewrites(requests[served].bytes)
  {
    hide SafeRun, SelectionSound, ReadSound, LeasesSound, UpdateSound, ActiveOf, Inv, CrashSafe, SoundAssetStore.Rewrites, Answers;
    var storage := new FlashStorage();
    FactoryImageIsInv(h, storage.image);
    OneImageRun(h, storage.image);
    store := new SoundAssetStore(h, storage);
    served, steps, first := 0, [], MemoryOf(store);
    while served < |requests| && !(requests[served].Manifest? && store.Rewrites(requests[served].bytes))
      invariant store.Valid() && store.h == h && store.storage == storage && served <= |requests| && |steps| == served
      invariant fresh(store) && fresh(storage)
      invariant Linked(h, steps, requests[..served], first) && MemoryOf(store) == StateAt(steps, first, served)
    {
      ghost var before := MemoryOf(store);
      var answer;
      store, answer := StoreAnswers.Serve(store, requests[served]);
      ghost var step := Step(requests[served], answer, before, MemoryOf(store));
      LinkedOn(h, steps, requests, first, step);
      steps := steps + [step];
      served := served + 1;
    }
    SafeRunsAreCrashSafe(h, storage.history);
  }

  lemma OneImageRun(h: Hashes, image: Image)
    requires Inv(h, image)
    ensures SafeRun(h, [image])
  {
    hide Inv;
  }

  // ---------- The condition is exact ----------

  /** In the exposed state a resent manifest takes the served bundle away: once its sector
      is erased, the strict scan falls back to the previous generation. */
  lemma ExposedRewriteRegresses(h: Hashes, image: Image, u: Update)
    requires Live(h, image, u) && CommitOf(h, u.bank, image.At(u.bank)).Some?
    requires h.sha256(Fill(255, u.plan.manifestBytes)) != u.plan.manifestSha
    ensures var after := image.With(u.bank, Overwrite(image.At(u.bank), MANIFEST, Fill(255, SECTOR)));
            && StrictSelection(h, image).active == Some(SnapshotOf(u))
            && StrictSelection(h, after).active == CommitOf(h, u.bank.Other(), image.At(u.bank.Other()))
            && GenerationOf(StrictSelection(h, after).active) < GenerationOf(StrictSelection(h, image).active)
  {
    var bank := Overwrite(image.At(u.bank), MANIFEST, Fill(255, SECTOR));
    ServedStrictly(h, image, u);
    ManifestGone(h, image, u);
    LiveIsInv(h, image, u);
    hide Live, Inv, StrictSelection, Validate, CommitOf, Overwrite;
    FallsBack(h, image, u, bank);
  }

  /** Sending the planned manifest again in the exposed state ends crash safety, whenever the
      erase goes through and an erased manifest does not pass for the planned one. */
  method RewriteRegresses(store: SoundAssetStore, manifest: seq<byte>)
    requires store.Valid() && store.Rewrites(manifest) && store.storage.faults.steady
    requires store.h.sha256(Fill(255, |manifest|)) != store.update.value.plan.manifestSha
    modifies store, store.storage
    ensures !CrashSafe(store.h, store.storage.history)
  {
    hide SafeRun, SelectionSound, ReadSound, LeasesSound, ActiveOf, CommitOf, Live, ProgressSound, StrictSelection, Overwrite, PlanValid,
         CommitVerdict, BlockDurable, ManifestDurable, Agreed;
    ghost var image, n, u := store.storage.image, |store.storage.history|, store.update.value;
    ExposedRewriteRegresses(store.h, image, u);
    var _ := store.WriteManifest(manifest);
    assert store.storage.history[n - 1] == image;
    assert GenerationOf(StrictSelection(store.h, store.storage.history[n]).active) < GenerationOf(StrictSelection(store.h, store.storage.history[n - 1]).active);
  }

  /** Two read faults lead there: the read-back of a written manifest fails, so it is not
      known to be complete, and after the commit record was programmed its read-back fails
      too, so the update is not known to be over. */
  method Expose(store: SoundAssetStore, plan: Plan, manifest: seq<byte>, payload: seq<byte>)
    requires store.Valid() && store.update.None? && store.storage.faults == NO_FAULTS
    requires Describes(store.h, plan, manifest, payload)
    requires BeginVerdict(store.h, store.storage.image, plan, store.leases).Ok? && !Pending(store.h, store.storage.image)
    modifies store, store.storage
    ensures store.Valid() && store.Exposed() && store.Rewrites(manifest) && store.update.value.plan == plan
    ensures store.storage.faults == NO_FAULTS
  {
    hide SafeRun, SelectionSound, ReadSound, LeasesSound, ActiveOf, CommitOf, BeginVerdict, Visible, Pending, PlanValid,
         ProgressSound, CommitVerdict, SameContent, StagingOf, ManifestBytes, Live, Describes, PayloadBytes,
         BlockDurable, BlockBytes, BlockOf;
    PlanDescribed(store.h, plan, manifest, payload);
    BeginUnseen(store, plan, manifest);
    ghost var u := store.update.value;
    ghost var written := store.storage.image.At(u.bank);
    WriteBlocks(store, u, payload);
    SameManifest(written, store.storage.image.At(u.bank), |manifest|);
    BlocksMakePayload(store.storage.image.At(u.bank), payload);
    CommitAccepts(store.h, store.storage.image.At(u.bank), u, manifest, payload);
    ChangeFaults(store, Faults(true, Some(|store.storage.history| + 2)));
    var _ := store.CommitUpdate();
    ChangeFaults(store, NO_FAULTS);
  }

  /** A fresh update whose manifest is in flash although nobody could read it back. */
  method BeginUnseen(store: SoundAssetStore, plan: Plan, manifest: seq<byte>)
    requires store.Valid() && store.update.None? && store.storage.faults == NO_FAULTS
    requires PlanValid(plan) && ManifestAccepted(store.h, manifest, plan) && |manifest| <= SECTOR
    requires BeginVerdict(store.h, store.storage.image, plan, store.leases).Ok? && !Pending(store.h, store.storage.image)
    modifies store, store.storage
    ensures store.Valid() && store.update.Some? && store.update.value.plan == plan && store.storage.faults == NO_FAULTS
    ensures !store.manifestComplete && |store.payloadComplete| == 128 && forall i | 0 <= i < 128 :: !store.payloadComplete[i]
    ensures ManifestBytes(store.storage.image.At(store.update.value.bank), |manifest|) == manifest
  {
    hide SafeRun, SelectionSound, ReadSound, LeasesSound, ActiveOf, CommitOf, NextOf, BeginVerdict, Visible, Pending, PlanValid, ProgressExact,
         ProgressSound, StagingOf, ManifestBytes, Live, Admission, ManifestDurable, BlocksKept, Torn, Erased, ManifestAccepted;
    NextHasPlan(store.h, store.storage.image, plan, store.leases);
    AcceptedLength(store.h, manifest, plan);
    var r, _ := store.BeginOrResume(plan);
    ChangeFaults(store, Faults(true, Some(|store.storage.history| + 2)));
    r := store.WriteManifest(manifest);
    ChangeFaults(store, NO_FAULTS);
  }

  /** From a factory-blank device: without the guard a lifetime need not be crash safe. */
  method UnsafeLifetime(h: Hashes, plan: Plan, manifest: seq<byte>, payload: seq<byte>) returns (store: SoundAssetStore)
    requires Describes(h, plan, manifest, payload)
    requires plan.baseGeneration == 0 && h.sha256(Fill(255, |manifest|)) != plan.manifestSha
    ensures store.h == h && !CrashSafe(h, store.storage.history)
  {
    hide SafeRun, SelectionSound, ReadSound, LeasesSound, UpdateSound, ActiveOf, Inv, CrashSafe, BeginVerdict, Pending, Describes,
         SoundAssetStore.Rewrites, SoundAssetStore.Exposed, PlanValid;
    var storage := new FlashStorage();
    FactoryImageIsInv(h, storage.image);
    OneImageRun(h, storage.image);
    store := new SoundAssetStore(h, storage);
    FactoryAdmits(h, storage.image, plan, manifest, payload, store.leases);
    Expose(store, plan, manifest, payload);
    RewriteRegresses(store, manifest);
  }

  lemma FactoryAdmits(h: Hashes, image: Image, plan: Plan, manifest: seq<byte>, payload: seq<byte>, leases: seq<Option<Lease>>)
    requires Erased(image.a, 0, BANK_SIZE) && Erased(image.b, 0, BANK_SIZE)
    requires Describes(h, plan, manifest, payload) && plan.baseGeneration == 0 && forall id :: !Pinned(leases, id)
    ensures BeginVerdict(h, image, plan, leases).Ok? && !Pending(h, image)
  {
    ErasedIsUncommitted(h, A, image.a);
    ErasedIsUncommitted(h, B, image.b);
    BlankHasNoStaging(h, A, image.a);
    hide DecodeCommitRecord, DecodeStaging, DeriveTransaction;
  }

  /** With the CRC-32 of the firmware every payload has a plan that describes it. */
  lemma SomePlan(payload: seq<byte>) returns (h: Hashes, plan: Plan, manifest: seq<byte>)
    requires |payload| <= PAYLOAD_MAX
    ensures Describes(h, plan, manifest, payload) && plan.baseGeneration == 0
    ensures forall data :: h.crc32(data) == Crc32.Crc(data)
    ensures forall found :: ManifestAccepted(h, found, plan) ==> found == manifest
    ensures h.sha256(Fill(255, |manifest|)) != plan.manifestSha
  {
    manifest := Fill(3, 32);
    var known, count := manifest, BlockCount(|payload|);
    h := Hashes(data => Crc32.Crc(data), data => if data == known then Fill(2, 32) else Fill(1, 32), (_, _) => Canonical);
    var crcs := seq(128, i requires 0 <= i < 128 => if i < count then Crc32.Crc(BlockOf(payload, i)) else 0);
    plan := Plan(0, Fill(0, 32), 32, |payload|, Crc32.Crc(manifest), Fill(2, 32), Fill(1, 32), crcs);
    assert Fill(2, 32)[0] == 2 && Fill(1, 32)[0] == 1 && Fill(255, 32)[0] == 255 && known[0] == 3;
    assert |BUNDLE_DOMAIN + Le(|manifest|, 4) + manifest + Le(|payload|, 4) + payload| > 32;
  }

  lemma ServedStrictly(h: Hashes, image: Image, u: Update)
    requires Live(h, image, u) && CommitOf(h, u.bank, image.At(u.bank)).Some?
    ensures StrictSelection(h, image).active == Some(SnapshotOf(u))
  {
    LiveIsInv(h, image, u);
    LiveShape(h, image, u);
    hide Live, Inv, StrictSelection, FastSelection, Validate, CommitOf, ActiveOf;
    ScansAgree(h, image);
  }

  /** Without its manifest bytes the bank fails strict validation, record or not. */
  lemma ManifestGone(h: Hashes, image: Image, u: Update)
    requires Live(h, image, u) && CommitOf(h, u.bank, image.At(u.bank)).Some?
    requires h.sha256(Fill(255, u.plan.manifestBytes)) != u.plan.manifestSha
    ensures !Validate(h, u.bank, Overwrite(image.At(u.bank), MANIFEST, Fill(255, SECTOR))).Ok?
  {
    LivePlan(h, image, u);
    PlanFits(u.plan);
    LiveShape(h, image, u);
    ManifestErased(image.At(u.bank), u.plan.manifestBytes);
    hide Live, Validate, DecodeCommitRecord, PlanValid, ActiveOf, Overwrite, ManifestBytes, Record, Fill;
    ErasedManifestFails(h, u, Overwrite(image.At(u.bank), MANIFEST, Fill(255, SECTOR)));
  }

  lemma ManifestErased(before: Bank, n: nat)
    requires n <= SECTOR
    ensures var bank := Overwrite(before, MANIFEST, Fill(255, SECTOR));
            Record(bank) == Record(before) && ManifestBytes(bank, n) == Fill(255, n)
  {
  }

  lemma LiveIsInv(h: Hashes, image: Image, u: Update)
    requires Live(h, image, u)
    ensures Inv(h, image)
    ensures u.generation == GenerationOf(CommitOf(h, u.bank.Other(), image.At(u.bank.Other()))) + 1
  {
    hide Inv, Prepared;
  }

  /** With its own bank failing, the strict scan serves what the other bank has committed. */
  lemma FallsBack(h: Hashes, image: Image, u: Update, bank: Bank)
    requires Inv(h, image) && !Validate(h, u.bank, bank).Ok?
    ensures StrictSelection(h, image.With(u.bank, bank)).active == CommitOf(h, u.bank.Other(), image.At(u.bank.Other()))
  {
    hide DecodeCommitRecord, Validate, StagingInv;
    var after := image.With(u.bank, bank);
    assert after.At(u.bank.Other()) == image.At(u.bank.Other());
  }

  lemma ErasedManifestFails(h: Hashes, u: Update, bank: Bank)
    requires CommitOf(h, u.bank, bank) == Some(SnapshotOf(u)) && SnapshotShape(SnapshotOf(u))
    requires h.sha256(ManifestBytes(bank, u.plan.manifestBytes)) != u.plan.manifestSha
    ensures !Validate(h, u.bank, bank).Ok?
  {
    hide DecodeCommitRecord, TailsErased;
  }

  // ---------- Recovery always progresses ----------

  function BlockOf(payload: seq<byte>, index: nat): (data: seq<byte>)
    requires index < BlockCount(|payload|)
    ensures |data| == BlockLength(|payload|, index)
  {
    payload[index * SECTOR..index * SECTOR + BlockLength(|payload|, index)]
  }

  /** The plan describes this manifest and payload. */
  ghost predicate Describes(h: Hashes, plan: Plan, manifest: seq<byte>, payload: seq<byte>) {
    && PlanValid(plan)
    && ManifestAccepted(h, manifest, plan)
    && |payload| == plan.payloadBytes
    && (forall i | 0 <= i < BlockCount(|payload|) :: h.crc32(BlockOf(payload, i)) == plan.blockCrcs[i])
    && h.manifest(manifest, payload).Canonical?
    && BundleDigest(h, manifest, payload) == plan.bundleSha
  }

  /** The units of this plan that are durable in the bank are the client's bytes. */
  ghost predicate Genuine(h: Hashes, bank: Bank, plan: Plan, manifest: seq<byte>, payload: seq<byte>)
    requires PlanValid(plan) && |payload| == plan.payloadBytes
  {
    && (ManifestDurable(h, bank, plan) ==> ManifestBytes(bank, plan.manifestBytes) == manifest)
    && forall i | 0 <= i < BlockCount(|payload|) && BlockDurable(h, bank, plan, i) ::
         BlockBytes(bank, |payload|, i) == BlockOf(payload, i)
  }

  /** The bank holds exactly the client's bytes. */
  predicate Holds(bank: Bank, manifest: seq<byte>, payload: seq<byte>)
    requires |manifest| <= SECTOR && |payload| <= PAYLOAD_MAX
  {
    ManifestBytes(bank, |manifest|) == manifest && PayloadBytes(bank, |payload|) == payload
  }

  lemma DurableIsContent(h: Hashes, bank: Bank, plan: Plan, manifest: seq<byte>, payload: seq<byte>)
    requires Describes(h, plan, manifest, payload) && Genuine(h, bank, plan, manifest, payload)
    requires ManifestDurable(h, bank, plan)
    requires forall i | 0 <= i < BlockCount(plan.payloadBytes) :: BlockDurable(h, bank, plan, i)
    ensures Holds(bank, manifest, payload)
  {
    hide BundleDigest, BlockDurable, BlockBytes, PayloadBytes;
    BlocksMakePayload(bank, payload);
  }

  /** The blocks side by side are the payload. */
  lemma BlocksMakePayload(bank: Bank, payload: seq<byte>)
    requires |payload| <= PAYLOAD_MAX
    ensures PayloadBytes(bank, |payload|) == payload <==>
              forall i | 0 <= i < BlockCount(|payload|) :: BlockBytes(bank, |payload|, i) == BlockOf(payload, i)
  {
    var found := PayloadBytes(bank, |payload|);
    if forall i | 0 <= i < BlockCount(|payload|) :: BlockBytes(bank, |payload|, i) == BlockOf(payload, i) {
      forall k | 0 <= k < |payload| ensures found[k] == payload[k] {
        var i := k / SECTOR;
        InBlock(|payload|, k);
        assert BlockBytes(bank, |payload|, i)[k - i * SECTOR] == BlockOf(payload, i)[k - i * SECTOR];
      }
    }
    if found == payload {
      forall i | 0 <= i < BlockCount(|payload|) ensures BlockBytes(bank, |payload|, i) == BlockOf(payload, i) {
        assert BlockBytes(bank, |payload|, i) == BlockOf(found, i);
      }
    }
  }

  /** A bank that holds what the plan describes may be committed. */
  lemma CommitAccepts(h: Hashes, bank: Bank, u: Update, manifest: seq<byte>, payload: seq<byte>)
    requires Describes(h, u.plan, manifest, payload) && Holds(bank, manifest, payload)
    ensures CommitVerdict(h, bank, u).Ok?
  {
    BlocksMakePayload(bank, payload);
    hide BundleDigest, BlockBytes, PayloadBytes;
  }

  /** Retrying one plan on healthy flash, from whatever a crash left behind: at most one
      discard, and exactly the client's bundle is the active one. */
  method Upload(store: SoundAssetStore, plan: Plan, manifest: seq<byte>, payload: seq<byte>)
    returns (r: StoreResult, discards: nat)
    requires store.Valid() && store.update.None? && store.storage.Healthy()
    requires Describes(store.h, plan, manifest, payload)
    requires Admission(store.h, store.storage.image, plan, store.leases).Ok?
    requires !BeginVerdict(store.h, store.storage.image, plan, store.leases).Busy?
    requires Pending(store.h, store.storage.image) ==>
               Genuine(store.h, TargetBank(store.h, store.storage.image), plan, manifest, payload)
    modifies store, store.storage
    ensures store.Valid() && r.Ok? && discards <= 1 && old(store.storage.history) <= store.storage.history
    ensures var u := NextOf(store.h, old(store.storage.image), plan);
            && ActiveOf(store.h, store.storage.image) == Some(SnapshotOf(u))
            && Holds(store.storage.image.At(u.bank), manifest, payload)
  {
    hide SafeRun, SelectionSound, ReadSound, LeasesSound, ActiveOf, CommitOf, NextOf, BeginVerdict, DiscardVerdict, Visible,
         Pending, PlanValid, ProgressExact, ProgressSound, CommitVerdict, SameContent, StagingOf, ManifestBytes, Live, Admission,
         Describes, PayloadBytes, ManifestDurable, BlockDurable, BlockBytes, BlockOf, Erased, Genuine, OwnFlags;
    ghost var before := store.storage.image;
    PlanDescribed(store.h, plan, manifest, payload);
    AdmittedVerdict(store.h, before, plan, store.leases);
    store.ImageIsInv();
    discards := 0;
    var identity;
    r, identity := store.BeginOrResume(plan);
    if r.InvalidStaging? {
      discards := 1;
      r := store.DiscardInvalidStaging(plan);
      NextKept(store.h, before, store.storage.image, plan);
      InvalidIsNotPending(store.h, before, plan, store.leases);
      r, identity := store.BeginOrResume(plan);
    }
    ghost var u := NextOf(store.h, before, plan);
    NextPlan(store.h, before, plan);
    FreshIsUnpublished(store.h, before, store.storage.image, plan);
    CommittedIffActive(store.h, store.storage.image, u);
    OwnFlagsAtStart(store, u, manifest, payload);
    r := UploadContent(store, u, manifest, payload);
    ghost var image := store.storage.image;
    CommitAccepts(store.h, image.At(u.bank), u, manifest, payload);
    r := store.CommitUpdate();
    SameBytes(image.At(u.bank), store.storage.image.At(u.bank), plan);
  }

  /** Units known to be complete hold the client's bytes. */
  ghost predicate OwnFlags(store: SoundAssetStore, u: Update, manifest: seq<byte>, payload: seq<byte>)
    requires PlanValid(u.plan) && |manifest| == u.plan.manifestBytes && |payload| == u.plan.payloadBytes
    reads store, store.storage
  {
    var bank := store.storage.image.At(u.bank);
    && |store.payloadComplete| == 128
    && (store.manifestComplete ==> ManifestBytes(bank, |manifest|) == manifest)
    && forall i | 0 <= i < BlockCount(|payload|) && store.payloadComplete[i] ::
         BlockBytes(bank, |payload|, i) == BlockOf(payload, i)
  }

  /** Every unit, in order; units already durable are only verified. */
  method UploadContent(store: SoundAssetStore, ghost u: Update, manifest: seq<byte>, payload: seq<byte>)
    returns (r: StoreResult)
    requires store.Valid() && store.update == Some(u) && store.storage.Healthy() && !store.Exposed()
    requires PlanValid(u.plan) && ManifestAccepted(store.h, manifest, u.plan) && |payload| == u.plan.payloadBytes
    requires forall i | 0 <= i < BlockCount(|payload|) :: store.h.crc32(BlockOf(payload, i)) == u.plan.blockCrcs[i]
    requires OwnFlags(store, u, manifest, payload)
    modifies store, store.storage
    ensures old(store.storage.history) <= store.storage.history
    ensures store.Valid() && store.update == Some(u) && store.storage.Healthy() && r.Ok?
    ensures Holds(store.storage.image.At(u.bank), manifest, payload)
  {
    hide SafeRun, SelectionSound, ReadSound, LeasesSound, ActiveOf, CommitOf, Visible, ProgressSound,
         Live, ManifestDurable, BlockDurable, BlockBytes, BlockOf, ManifestBytes, PayloadBytes, PlanValid, Torn;
    PlanFits(u.plan);
    r := store.WriteManifest(manifest);
    ghost var written := store.storage.image.At(u.bank);
    WriteBlocks(store, u, payload);
    SameManifest(written, store.storage.image.At(u.bank), |manifest|);
    BlocksMakePayload(store.storage.image.At(u.bank), payload);
  }

  /** The payload alone. */
  method WriteBlocks(store: SoundAssetStore, ghost u: Update, payload: seq<byte>)
    requires store.Valid() && store.update == Some(u) && store.storage.Healthy()
    requires PlanValid(u.plan) && |payload| == u.plan.payloadBytes && |store.payloadComplete| == 128
    requires forall i | 0 <= i < BlockCount(|payload|) :: store.h.crc32(BlockOf(payload, i)) == u.plan.blockCrcs[i]
    requires forall i | 0 <= i < BlockCount(|payload|) && store.payloadComplete[i] ::
               BlockBytes(store.storage.image.At(u.bank), |payload|, i) == BlockOf(payload, i)
    modifies store, store.storage
    ensures old(store.storage.history) <= store.storage.history
    ensures store.Valid() && store.update == Some(u) && store.storage.faults == old(store.storage.faults)
    ensures store.manifestComplete == old(store.manifestComplete)
    ensures ManifestBytes(store.storage.image.At(u.bank), SECTOR) == ManifestBytes(old(store.storage.image).At(u.bank), SECTOR)
    ensures forall i | 0 <= i < BlockCount(|payload|) ::
              BlockBytes(store.storage.image.At(u.bank), |payload|, i) == BlockOf(payload, i)
  {
    hide SafeRun, SelectionSound, ReadSound, LeasesSound, ActiveOf, CommitOf, Visible, ProgressSound,
         Live, ManifestDurable, BlockDurable, BlockBytes, BlockOf, ManifestBytes, Torn;
    BlocksFit(u.plan);
    hide PlanValid;
    for index := 0 to BlockCount(|payload|)
      invariant old(store.storage.history) <= store.storage.history
      invariant store.Valid() && store.update == Some(u) && store.storage.faults == old(store.storage.faults)
      invariant store.manifestComplete == old(store.manifestComplete) && |store.payloadComplete| == 128
      invariant ManifestBytes(store.storage.image.At(u.bank), SECTOR) == ManifestBytes(old(store.storage.image).At(u.bank), SECTOR)
      invariant forall i | 0 <= i < index :: store.payloadComplete[i]
      invariant forall i | 0 <= i < BlockCount(|payload|) && store.payloadComplete[i] ::
                  BlockBytes(store.storage.image.At(u.bank), |payload|, i) == BlockOf(payload, i)
    {
      var _ := store.WritePayloadBlock(index, BlockOf(payload, index));
    }
  }

  lemma NextPlan(h: Hashes, image: Image, plan: Plan)
    requires GenerationOf(ActiveOf(h, image)) < MAX_GENERATION
    ensures NextOf(h, image, plan).plan == plan && NextOf(h, image, plan).bank == TargetOf(ActiveOf(h, image))
  {
    hide DeriveTransaction;
  }

  lemma AdmittedVerdict(h: Hashes, image: Image, plan: Plan, leases: seq<Option<Lease>>)
    requires Admission(h, image, plan, leases).Ok?
    ensures GenerationOf(ActiveOf(h, image)) < MAX_GENERATION
    ensures var verdict := BeginVerdict(h, image, plan, leases); verdict.Ok? || verdict.InvalidStaging? || verdict.Busy?
    ensures BeginVerdict(h, image, plan, leases).InvalidStaging? ==>
              DiscardVerdict(h, image, plan, leases).Ok? || !Inv(h, image)
  {
    if Inv(h, image) && BeginVerdict(h, image, plan, leases).InvalidStaging? {
      DiscardUnblocks(h, image, plan, leases, Blank());
    }
    hide CommitOf, StagingOf, ActiveOf, DeriveTransaction, Inv, PlanValid;
  }

  lemma NextKept(h: Hashes, before: Image, image: Image, plan: Plan)
    requires ActiveOf(h, before) == ActiveOf(h, image)
    requires GenerationOf(ActiveOf(h, before)) < MAX_GENERATION
    ensures NextOf(h, before, plan) == NextOf(h, image, plan)
  {
    hide ActiveOf, DeriveTransaction;
  }

  lemma SameManifest(before: Bank, after: Bank, length: nat)
    requires length <= SECTOR && ManifestBytes(after, SECTOR) == ManifestBytes(before, SECTOR)
    ensures ManifestBytes(after, length) == ManifestBytes(before, length)
  {
    assert ManifestBytes(after, length) == ManifestBytes(after, SECTOR)[..length];
    assert ManifestBytes(before, length) == ManifestBytes(before, SECTOR)[..length];
  }

  /** Unreadable staging is nobody's transaction. */
  lemma InvalidIsNotPending(h: Hashes, image: Image, plan: Plan, leases: seq<Option<Lease>>)
    requires BeginVerdict(h, image, plan, leases).InvalidStaging?
    ensures !Pending(h, image)
  {
    hide ActiveOf, CommitOf, StagingOf, PlanValid, DeriveTransaction;
  }

  /** Adopted flags stand for durable units, fresh ones for none. */
  lemma OwnFlagsAtStart(store: SoundAssetStore, u: Update, manifest: seq<byte>, payload: seq<byte>)
    requires PlanValid(u.plan) && |manifest| == u.plan.manifestBytes && |payload| == u.plan.payloadBytes
    requires (!store.manifestComplete && store.payloadComplete == NO_BLOCKS)
          || (ProgressExact(store.h, store.storage.image.At(u.bank), u, store.manifestComplete, store.payloadComplete)
              && Genuine(store.h, store.storage.image.At(u.bank), u.plan, manifest, payload))
    ensures OwnFlags(store, u, manifest, payload)
  {
    hide ManifestDurable, BlockDurable, ManifestBytes, BlockBytes, BlockOf;
  }

  lemma PlanDescribed(h: Hashes, plan: Plan, manifest: seq<byte>, payload: seq<byte>)
    requires Describes(h, plan, manifest, payload)
    ensures PlanValid(plan) && ManifestAccepted(h, manifest, plan) && |payload| == plan.payloadBytes
    ensures BlockCount(|payload|) <= 128 && |manifest| <= SECTOR
    ensures forall i | 0 <= i < BlockCount(|payload|) :: h.crc32(BlockOf(payload, i)) == plan.blockCrcs[i]
  {
  }
}
