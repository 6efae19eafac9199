/** An upload interrupted anywhere: retrying its plan publishes it, or finds it published. */
module StoreRecovery {
  import opened Bytes
  import opened Flash
  import opened SoundFormat
  import opened SoundBanks
  import opened CrashInvariant
  import opened BankChecks
  import opened StoreView
  import opened UpdateSteps
  import opened UnitShapes
  import opened SoundStore
  import opened StoreAnswers
  import opened StoreRuns
  import Crc32

  /** What the client has to send. */
  datatype Content = Content(manifest: seq<byte>, payload: seq<byte>)

  // ---------- The client ----------

  /** Requests of one client that uploads `u` only, and whatever happens to the device. A
      transaction may be named when the other bank of the starting image does not bear it. */
  predicate OwnRequest(h: Hashes, start: Image, u: Update, request: Request) {
    match request
    case Begin(plan) => plan == u.plan
    case Discard(plan) => plan == u.plan
    case Resume(transaction) => transaction == u.transaction && !Bears(h, start, u.bank.Other(), transaction)
    case _ => true
  }

  /** The staging header in this bank names the transaction. */
  predicate Bears(h: Hashes, image: Image, id: BankId, transaction: TransactionId) {
    StagingOf(h, id, image.At(id)).Some? && StagingOf(h, id, image.At(id)).value.transaction == transaction
  }

  predicate Fitting(plan: Plan, content: Content) {
    && PlanValid(plan)
    && |content.manifest| == plan.manifestBytes && |content.payload| == plan.payloadBytes
  }

  /** Units that the store would take are the client's own. */
  predicate SendsOwn(h: Hashes, plan: Plan, content: Content, request: Request)
    requires Fitting(plan, content)
  {
    match request
    case Manifest(bytes) => ManifestAccepted(h, bytes, plan) ==> bytes == content.manifest
    case Block(index, bytes) =>
      BlockFits(index, bytes, plan) && h.crc32(bytes) == plan.blockCrcs[index] ==> bytes == BlockOf(content.payload, index)
    case _ => true
  }

  /** The hashes of the plan tell a unit from all that a cut erase or write leaves of it. */
  ghost predicate TornIsNoticed(h: Hashes, plan: Plan, content: Content)
    requires Fitting(plan, content)
  {
    && (forall found | Torn(found, content.manifest) && ManifestAccepted(h, found, plan) :: found == content.manifest)
    && forall i, found | 0 <= i < BlockCount(|content.payload|) && Torn(found, BlockOf(content.payload, i)) ::
         h.crc32(found) == plan.blockCrcs[i] ==> found == BlockOf(content.payload, i)
  }

  /** Every unit of the bank is erased, written or cut in between. */
  predicate ContentTorn(bank: Bank, content: Content)
    requires |content.manifest| <= SECTOR && |content.payload| <= PAYLOAD_MAX
  {
    && Torn(ManifestBytes(bank, |content.manifest|), content.manifest)
    && forall i | 0 <= i < BlockCount(|content.payload|) ::
         Torn(BlockBytes(bank, |content.payload|, i), BlockOf(content.payload, i))
  }

  lemma TornIsGenuine(h: Hashes, bank: Bank, plan: Plan, content: Content)
    requires Fitting(plan, content) && TornIsNoticed(h, plan, content) && ContentTorn(bank, content)
    ensures Genuine(h, bank, plan, content.manifest, content.payload)
  {
    PlanFits(plan);
    hide Torn, BlockBytes, BlockOf, PlanValid;
    assert ManifestDurable(h, bank, plan) ==> ManifestAccepted(h, ManifestBytes(bank, |content.manifest|), plan);
    forall i | 0 <= i < BlockCount(|content.payload|) && BlockDurable(h, bank, plan, i)
      ensures BlockBytes(bank, |content.payload|, i) == BlockOf(content.payload, i)
    {
      assert Torn(BlockBytes(bank, |content.payload|, i), BlockOf(content.payload, i));
    }
  }

  /** With the CRC-32 of the firmware, a block that differs from the erased state in one byte
      at most is always told from what a cut leaves of it. */
  lemma OneByteUnitIsNoticed(found: seq<byte>, data: seq<byte>, k: nat)
    requires Torn(found, data) && forall i | 0 <= i < |data| && i != k :: data[i] == 255
    ensures Crc32.Crc(found) == Crc32.Crc(data) ==> found == data
  {
    if found != data {
      var i :| 0 <= i < |data| && found[i] != data[i];
      assert i == k;
      Crc32.OneByteChangeIsDetected(found, data, k);
    }
  }

  /** So uploads of every size, with the CRC-32 of the firmware, meet the condition. */
  lemma SomeUploadIsNoticed(payload: seq<byte>, marks: seq<nat>) returns (h: Hashes, plan: Plan, content: Content)
    requires |payload| <= PAYLOAD_MAX && |marks| == BlockCount(|payload|)
    requires forall i, k | 0 <= i < BlockCount(|payload|) && 0 <= k < BlockLength(|payload|, i) && k != marks[i] ::
               BlockOf(payload, i)[k] == 255
    ensures content.payload == payload && Describes(h, plan, content.manifest, payload) && plan.baseGeneration == 0
    ensures Fitting(plan, content) && TornIsNoticed(h, plan, content)
    ensures forall data :: h.crc32(data) == Crc32.Crc(data)
  {
    var manifest;
    h, plan, manifest := SomePlan(payload);
    content := Content(manifest, payload);
    hide Crc32.Crc, Torn, BundleDigest;
    forall i, found | 0 <= i < BlockCount(|payload|) && Torn(found, BlockOf(payload, i)) && h.crc32(found) == plan.blockCrcs[i]
      ensures found == BlockOf(payload, i)
    {
      OneByteUnitIsNoticed(found, BlockOf(payload, i), marks[i]);
    }
  }

  lemma BlankIsTorn(bank: Bank, plan: Plan, content: Content)
    requires Fitting(plan, content) && Erased(bank, STAGING_BYTES, BANK_SIZE)
    ensures ContentTorn(bank, content)
  {
    ErasedIsTorn(ManifestBytes(bank, |content.manifest|), content.manifest);
    forall i | 0 <= i < BlockCount(|content.payload|) ensures Torn(BlockBytes(bank, |content.payload|, i), BlockOf(content.payload, i)) {
      ErasedIsTorn(BlockBytes(bank, |content.payload|, i), BlockOf(content.payload, i));
    }
  }

  lemma SameContentStaysTorn(before: Bank, after: Bank, plan: Plan, content: Content)
    requires Fitting(plan, content) && SameContent(before, after, plan)
    ensures ContentTorn(before, content) ==> ContentTorn(after, content)
    ensures Holds(before, content.manifest, content.payload) ==> Holds(after, content.manifest, content.payload)
  {
    SameBytes(before, after, plan);
    hide Torn, BlockBytes, ManifestBytes, BlockOf, PlanValid, PayloadBytes;
  }

  lemma ManifestArrives(before: Bank, after: Bank, plan: Plan, content: Content)
    requires Fitting(plan, content) && ContentTorn(before, content) && BlocksKept(before, after, plan, NO_BLOCK)
    requires Torn(ManifestBytes(after, |content.manifest|), content.manifest)
    ensures ContentTorn(after, content)
  {
    hide Torn, BlockBytes, ManifestBytes, BlockOf, PlanValid;
  }

  lemma BlockArrives(before: Bank, after: Bank, plan: Plan, content: Content, index: nat)
    requires Fitting(plan, content) && ContentTorn(before, content) && BlocksKept(before, after, plan, index)
    requires ManifestBytes(after, SECTOR) == ManifestBytes(before, SECTOR)
    requires index < BlockCount(|content.payload|)
    requires Torn(BlockBytes(after, |content.payload|, index), BlockOf(content.payload, index))
    ensures ContentTorn(after, content)
  {
    SameManifest(before, after, |content.manifest|);
    hide Torn, BlockBytes, ManifestBytes, BlockOf, PlanValid;
  }

  // ---------- What every step keeps ----------

  /** The planned update is published, or the bundle before it is still served and nobody
      else's transaction is in the way. */
  ghost predicate Halfway(h: Hashes, image: Image, base: Option<Snapshot>, u: Update) {
    || ActiveOf(h, image) == Some(SnapshotOf(u))
    || (ActiveOf(h, image) == base && !Foreign(h, image, u.plan))
  }

  /** `u` is the update this plan makes of that base. */
  ghost predicate Succeeds(h: Hashes, base: Option<Snapshot>, u: Update) {
    && BaseMatches(base, u.plan) && GenerationOf(base) < MAX_GENERATION
    && u.bank == TargetOf(base) && u.generation == GenerationOf(base) + 1
    && u.transaction == DeriveTransaction(h, u.plan, u.bank, u.generation)
  }

  /** Published means all bytes are there; before that every unit is a torn one at worst. */
  ghost predicate Arriving(h: Hashes, image: Image, u: Update, begun: bool, content: Content)
    requires Fitting(u.plan, content)
  {
    var bank := image.At(u.bank);
    if ActiveOf(h, image) == Some(SnapshotOf(u)) then Holds(bank, content.manifest, content.payload)
    else begun || Pending(h, image) ==> ContentTorn(bank, content)
  }

  /** `sent` is what the client has to send, if it sends nothing else. */
  ghost predicate Own(store: SoundAssetStore, start: Image, u: Update, sent: Option<Content>)
    reads store, store.storage
  {
    && store.Valid() && Succeeds(store.h, ActiveOf(store.h, start), u)
    && (store.update.None? || store.update == Some(u))
    && Halfway(store.h, store.storage.image, ActiveOf(store.h, start), u)
    && store.storage.image.At(u.bank.Other()) == start.At(u.bank.Other())
    && (sent.Some? ==>
          && Fitting(u.plan, sent.value) && TornIsNoticed(store.h, u.plan, sent.value)
          && Arriving(store.h, store.storage.image, u, store.update.Some?, sent.value))
  }

  /** While `u` is under way nothing foreign is on its bank. */
  lemma LiveIsHalfway(h: Hashes, image: Image, base: Option<Snapshot>, u: Update)
    requires Live(h, image, u) && Succeeds(h, base, u)
    requires ActiveOf(h, image) == base || ActiveOf(h, image) == Some(SnapshotOf(u))
    ensures Halfway(h, image, base, u)
  {
    hide ActiveOf, CommitOf, Pending, Inv, Prepared;
    if ActiveOf(h, image) == base { OwnStaging(h, image, u); }
  }

  /** After publication the plan's base is stale. */
  lemma PublishedIsStale(h: Hashes, image: Image, base: Option<Snapshot>, u: Update, leases: seq<Option<Lease>>)
    requires Succeeds(h, base, u) && ActiveOf(h, image) == Some(SnapshotOf(u))
    ensures !Admission(h, image, u.plan, leases).Ok?
    ensures !BeginVerdict(h, image, u.plan, leases).Ok? && !BeginVerdict(h, image, u.plan, leases).InvalidStaging?
  {
    hide ActiveOf, CommitOf, StagingOf, PlanValid;
  }

  lemma NextIs(h: Hashes, image: Image, u: Update)
    requires Succeeds(h, ActiveOf(h, image), u)
    ensures NextOf(h, image, u.plan) == u
  {
    hide ActiveOf;
  }

  lemma BaseIsOlder(h: Hashes, base: Option<Snapshot>, u: Update)
    requires Succeeds(h, base, u)
    ensures base != Some(SnapshotOf(u))
  {
    hide DeriveTransaction;
  }

  method OwnBegin(store: SoundAssetStore, ghost start: Image, ghost u: Update, ghost sent: Option<Content>, plan: Plan) returns (a: Answer)
    requires Own(store, start, u, sent) && u.plan == plan
    modifies store, store.storage
    ensures Own(store, start, u, sent) && Begun(store.h, old(MemoryOf(store)), plan, a, MemoryOf(store))
  {
    hide SoundAssetStore.Valid, ActiveOf, CommitOf, StagingOf, NextOf, BeginVerdict, Pending, Foreign, PlanValid,
         ProgressExact, DeriveTransaction, Visible, ContentTorn, TornIsNoticed, Holds, Erased, BaseMatches;
    ghost var before, idle := store.storage.image, store.update.None?;
    if ActiveOf(store.h, before) == ActiveOf(store.h, start) {
      NextIs(store.h, before, u);
      BaseIsOlder(store.h, ActiveOf(store.h, start), u);
    } else {
      PublishedIsStale(store.h, before, ActiveOf(store.h, start), u, store.leases);
    }
    NowIsLast(store);
    var r, identity := store.BeginOrResume(plan);
    NowIsLast(store);
    if idle && r.Ok? { StoreAnswers.NextHasPlan(store.h, before, plan, store.leases); }
    a := Plain(r).(identity := identity);
    if sent.Some? && Erased(store.storage.image.At(u.bank), STAGING_BYTES, BANK_SIZE) {
      BlankIsTorn(store.storage.image.At(u.bank), plan, sent.value);
    }
  }

  method OwnDiscard(store: SoundAssetStore, ghost start: Image, ghost u: Update, ghost sent: Option<Content>, plan: Plan) returns (a: Answer)
    requires Own(store, start, u, sent) && u.plan == plan
    modifies store, store.storage
    ensures Own(store, start, u, sent) && Discarded(store.h, old(MemoryOf(store)), plan, a, MemoryOf(store))
  {
    hide SoundAssetStore.Valid, ActiveOf, CommitOf, StagingOf, NextOf, BeginVerdict, DiscardVerdict, Pending, Foreign,
         PlanValid, Visible, ContentTorn, TornIsNoticed, Holds, DeriveTransaction, BaseMatches;
    ghost var before := store.storage.image;
    if ActiveOf(store.h, before) == Some(SnapshotOf(u)) {
      PublishedIsStale(store.h, before, ActiveOf(store.h, start), u, store.leases);
    }
    NowIsLast(store);
    var r := store.DiscardInvalidStaging(plan);
    NowIsLast(store);
    a := Plain(r);
  }

  /** Named by its transaction, only the client's own update can be adopted. */
  lemma AdoptedIsOwn(h: Hashes, image: Image, start: Image, u: Update, found: Update)
    requires Succeeds(h, ActiveOf(h, start), u) && Halfway(h, image, ActiveOf(h, start), u)
    requires image.At(u.bank.Other()) == start.At(u.bank.Other()) && !Bears(h, start, u.bank.Other(), u.transaction)
    requires StagingOf(h, found.bank, image.At(found.bank)) == Some(found) && found.transaction == u.transaction
    requires CommitOf(h, found.bank, image.At(found.bank)).None? && Live(h, image, found)
    ensures found == u && Pending(h, image)
  {
    hide CommitOf, StagingOf, Live, DeriveTransaction, BaseMatches, ActiveOf, Foreign, Pending, PlanValid, Overwrite;
    assert found.bank == u.bank;
    if ActiveOf(h, image) == Some(SnapshotOf(u)) { PublishedCommits(h, image, u); }
    StagedAgain(h, image, found);
    OwnPlan(h, image, u.plan, found);
  }

  lemma StagedAgain(h: Hashes, image: Image, found: Update)
    requires StagingOf(h, found.bank, image.At(found.bank)) == Some(found)
    requires CommitOf(h, found.bank, image.At(found.bank)).None? && Live(h, image, found)
    requires found.bank == TargetOf(ActiveOf(h, image))
    ensures Pending(h, image) && found.generation == GenerationOf(ActiveOf(h, image)) + 1
  {
    LiveShape(h, image, found);
    LiveAuthentic(h, image, found);
    hide CommitOf, StagingOf, Live, DeriveTransaction, ActiveOf;
  }

  lemma LiveAuthentic(h: Hashes, image: Image, u: Update)
    requires Live(h, image, u)
    ensures SelfAuthentic(h, u)
  {
    hide Inv, Prepared, CommitOf, StagingOf, DeriveTransaction;
  }

  lemma OwnPlan(h: Hashes, image: Image, plan: Plan, found: Update)
    requires Pending(h, image) && !Foreign(h, image, plan)
    requires StagingOf(h, found.bank, image.At(found.bank)) == Some(found) && found.bank == TargetOf(ActiveOf(h, image))
    ensures found.plan == plan
  {
    hide CommitOf, StagingOf, DeriveTransaction, ActiveOf, Pending;
  }

  lemma PublishedCommits(h: Hashes, image: Image, u: Update)
    requires ActiveOf(h, image) == Some(SnapshotOf(u))
    ensures CommitOf(h, u.bank, image.At(u.bank)).Some?
  {
    hide DecodeCommitRecord;
    BankViewBank(h, image, None);
    assert BankView(h, image, None, A) == CommitOf(h, A, image.a) && BankView(h, image, None, B) == CommitOf(h, B, image.b);
  }

  method OwnResume(store: SoundAssetStore, ghost start: Image, ghost u: Update, ghost sent: Option<Content>, transaction: TransactionId)
    returns (a: Answer)
    requires Own(store, start, u, sent) && OwnRequest(store.h, start, u, Resume(transaction))
    modifies store
    ensures Own(store, start, u, sent) && Resumed(store.h, old(MemoryOf(store)), transaction, a, MemoryOf(store))
  {
    hide SoundAssetStore.Valid, ActiveOf, CommitOf, StagingOf, Pending, Foreign, PlanValid, LoadVerdict, ProgressExact,
         ContentTorn, TornIsNoticed, Holds, DeriveTransaction, Live, Halfway, Succeeds, Bears;
    var r, identity := store.ResumeUpdate(transaction);
    a := Plain(r).(identity := identity);
    if r.Ok? {
      UpdateIsLive(store, store.update.value);
      OnBase(store);
      AdoptedIsOwn(store.h, store.storage.image, start, u, store.update.value);
    }
  }

  /** An update that is still in memory is live, wherever a mutation of it was cut. */
  lemma UpdateIsLive(store: SoundAssetStore, u: Update)
    requires store.Valid() && store.update == Some(u)
    ensures Live(store.h, store.storage.image, u)
  {
    hide SafeRun, Live;
  }

  lemma LiveCommits(h: Hashes, image: Image, u: Update)
    requires Live(h, image, u)
    ensures CommitOf(h, u.bank, image.At(u.bank)).Some? ==> ActiveOf(h, image) == Some(SnapshotOf(u))
  {
    LiveShape(h, image, u);
    hide Live, CommitOf, ActiveOf;
  }

  /** Once published every flag of a complete block is set. */
  lemma PublishedFlags(store: SoundAssetStore, u: Update)
    requires store.Valid() && store.update == Some(u) && ActiveOf(store.h, store.storage.image) == Some(SnapshotOf(u))
    ensures CommitOf(store.h, u.bank, store.storage.image.At(u.bank)).Some?
    ensures PlanValid(u.plan) && |store.payloadComplete| == 128 && BlockCount(u.plan.payloadBytes) <= 128
    ensures forall i | 0 <= i < BlockCount(u.plan.payloadBytes) :: store.payloadComplete[i]
  {
    hide SafeRun, ActiveOf, CommitOf, Live, PlanValid, SelectionSound, ReadSound, LeasesSound;
    PublishedCommits(store.h, store.storage.image, u);
    LivePlan(store.h, store.storage.image, u);
    BlocksFit(u.plan);
    FlagsTrue(store.h, store.storage.image.At(u.bank), u, store.manifestComplete, store.payloadComplete);
  }

  /** A mutation of the bank under update, seen from the client. */
  lemma StillOwn(store: SoundAssetStore, start: Image, u: Update)
    requires store.Valid() && store.update == Some(u) && Succeeds(store.h, ActiveOf(store.h, start), u)
    requires ActiveOf(store.h, store.storage.image) == ActiveOf(store.h, start)
          || ActiveOf(store.h, store.storage.image) == Some(SnapshotOf(u))
    ensures Halfway(store.h, store.storage.image, ActiveOf(store.h, start), u)
  {
    hide SoundAssetStore.Valid, ActiveOf, Live, Succeeds, Halfway;
    UpdateIsLive(store, u);
    LiveIsHalfway(store.h, store.storage.image, ActiveOf(store.h, start), u);
  }

  lemma HalfwayActive(h: Hashes, image: Image, base: Option<Snapshot>, u: Update)
    requires Halfway(h, image, base, u)
    ensures ActiveOf(h, image) == base || ActiveOf(h, image) == Some(SnapshotOf(u))
  {
    hide ActiveOf, Foreign;
  }

  method OwnManifest(store: SoundAssetStore, ghost start: Image, ghost u: Update, ghost sent: Option<Content>, bytes: seq<byte>) returns (a: Answer)
    requires Own(store, start, u, sent)
    requires !store.Rewrites(bytes)
    requires sent.Some? ==> Fitting(u.plan, sent.value) && SendsOwn(store.h, u.plan, sent.value, Manifest(bytes))
    modifies store, store.storage
    ensures Own(store, start, u, sent) && ManifestWritten(store.h, old(MemoryOf(store)), bytes, a, MemoryOf(store))
  {
    hide SoundAssetStore.Valid, ActiveOf, CommitOf, StagingOf, NextOf, Pending, Foreign, PlanValid, Visible, Live,
         CommitVerdict, SameContent, BlockDurable, BlockBytes, ManifestDurable, ManifestBytes,
         ContentTorn, TornIsNoticed, Holds, DeriveTransaction, BaseMatches, Halfway, BlockOf, Torn, BlocksKept;
    NowIsLast(store);
    ghost var before, busy := store.storage.image, store.update.Some?;
    if busy && ActiveOf(store.h, before) == Some(SnapshotOf(u)) { PublishedFlags(store, u); }
    else if busy && sent.Some? { TornParts(before.At(u.bank), u.plan, sent.value); }
    HalfwayActive(store.h, before, ActiveOf(store.h, start), u);
    if busy { UpdateFits(store); }
    var r := store.WriteManifest(bytes);
    a := Plain(r);
    NowIsLast(store);
    if busy {
      StillOwn(store, start, u);
      if sent.Some? && store.storage.image != before && ActiveOf(store.h, before) != Some(SnapshotOf(u)) {
        ManifestArrives(before.At(u.bank), store.storage.image.At(u.bank), u.plan, sent.value);
      }
    }
  }

  lemma TornParts(bank: Bank, plan: Plan, content: Content)
    requires Fitting(plan, content) && ContentTorn(bank, content)
    ensures Torn(ManifestBytes(bank, |content.manifest|), content.manifest)
    ensures forall i | 0 <= i < BlockCount(|content.payload|) ::
              Torn(BlockBytes(bank, |content.payload|, i), BlockOf(content.payload, i))
  {
    hide Torn, ManifestBytes, BlockBytes, BlockOf;
  }

  method OwnBlock(store: SoundAssetStore, ghost start: Image, ghost u: Update, ghost sent: Option<Content>, index: nat, bytes: seq<byte>) returns (a: Answer)
    requires Own(store, start, u, sent)
    requires sent.Some? ==> Fitting(u.plan, sent.value) && SendsOwn(store.h, u.plan, sent.value, Block(index, bytes))
    modifies store, store.storage
    ensures Own(store, start, u, sent) && BlockWritten(store.h, old(MemoryOf(store)), index, bytes, a, MemoryOf(store))
  {
    hide SoundAssetStore.Valid, ActiveOf, CommitOf, StagingOf, NextOf, Pending, Foreign, PlanValid, Visible, Live,
         CommitVerdict, SameContent, BlockDurable, BlockBytes, ManifestDurable, ManifestBytes,
         ContentTorn, TornIsNoticed, Holds, DeriveTransaction, BaseMatches, Halfway, BlockOf, Torn, BlocksKept;
    NowIsLast(store);
    ghost var before, busy := store.storage.image, store.update.Some?;
    if busy && ActiveOf(store.h, before) == Some(SnapshotOf(u)) { PublishedFlags(store, u); }
    else if busy && sent.Some? { TornParts(before.At(u.bank), u.plan, sent.value); }
    HalfwayActive(store.h, before, ActiveOf(store.h, start), u);
    if busy { UpdateFits(store); }
    var r := store.WritePayloadBlock(index, bytes);
    a := Plain(r);
    NowIsLast(store);
    if busy {
      StillOwn(store, start, u);
      if sent.Some? && store.storage.image != before && ActiveOf(store.h, before) != Some(SnapshotOf(u)) {
        BlockArrives(before.At(u.bank), store.storage.image.At(u.bank), u.plan, sent.value, index);
      }
    }
  }

  /** A commit that changes anything has found every unit durable, so the bytes are the client's. */
  lemma VerifiedIsContent(h: Hashes, bank: Bank, u: Update, content: Content)
    requires Fitting(u.plan, content) && TornIsNoticed(h, u.plan, content) && ContentTorn(bank, content)
    requires CommitVerdict(h, bank, u).Ok?
    ensures Holds(bank, content.manifest, content.payload)
  {
    TornIsGenuine(h, bank, u.plan, content);
    hide Torn, ManifestBytes, BlockBytes, BlockOf, PayloadBytes, ContentVerdict, ContentTorn, TornIsNoticed, PlanValid;
    BlocksMakePayload(bank, content.payload);
  }

  method OwnCommit(store: SoundAssetStore, ghost start: Image, ghost u: Update, ghost sent: Option<Content>) returns (a: Answer)
    requires Own(store, start, u, sent)
    modifies store, store.storage
    ensures Own(store, start, u, sent) && CommitTried(store.h, old(MemoryOf(store)), a, MemoryOf(store))
  {
    hide SoundAssetStore.Valid, ActiveOf, CommitOf, StagingOf, NextOf, Pending, Foreign, PlanValid, Visible, Live,
         CommitVerdict, SameContent, BlockDurable, BlockBytes, ManifestDurable, ManifestBytes,
         ContentTorn, TornIsNoticed, Holds, DeriveTransaction, BaseMatches, BlockOf, Torn, BlocksKept;
    NowIsLast(store);
    ghost var before, busy := store.storage.image, store.update.Some?;
    HalfwayActive(store.h, before, ActiveOf(store.h, start), u);
    if busy && sent.Some? && CommitVerdict(store.h, before.At(u.bank), u).Ok? && ActiveOf(store.h, before) != Some(SnapshotOf(u)) {
      VerifiedIsContent(store.h, before.At(u.bank), u, sent.value);
    }
    var r := store.CommitUpdate();
    a := Plain(r);
    NowIsLast(store);
    if store.update.Some? { StillOwn(store, start, u); }
    if busy && sent.Some? { SameContentStaysTorn(before.At(u.bank), store.storage.image.At(u.bank), u.plan, sent.value); }
  }

  method OwnAbort(store: SoundAssetStore, ghost start: Image, ghost u: Update, ghost sent: Option<Content>) returns (a: Answer)
    requires Own(store, start, u, sent)
    modifies store, store.storage
    ensures Own(store, start, u, sent) && AbortTried(store.h, old(MemoryOf(store)), a, MemoryOf(store))
  {
    hide SoundAssetStore.Valid, ActiveOf, CommitOf, StagingOf, NextOf, Pending, Foreign, PlanValid, Visible, Live,
         CommitVerdict, SameContent, BlockDurable, BlockBytes, ManifestDurable, ManifestBytes,
         ContentTorn, TornIsNoticed, Holds, DeriveTransaction, BaseMatches, BlockOf, Torn, BlocksKept;
    NowIsLast(store);
    ghost var before, busy := store.storage.image, store.update.Some?;
    HalfwayActive(store.h, before, ActiveOf(store.h, start), u);
    if busy { UpdateIsLive(store, u); LiveCommits(store.h, before, u); }
    var r := store.AbortUpdate();
    a := Plain(r);
    NowIsLast(store);
    if store.update.Some? {
      StillOwn(store, start, u);
    } else if busy && ActiveOf(store.h, store.storage.image) == ActiveOf(store.h, start) {
      OwnStaging(store.h, store.storage.image, u);
    }
    if busy && sent.Some? { SameContentStaysTorn(before.At(u.bank), store.storage.image.At(u.bank), u.plan, sent.value); }
  }

  method OwnServe(store: SoundAssetStore, ghost start: Image, ghost u: Update, ghost sent: Option<Content>, request: Request)
    returns (next: SoundAssetStore, a: Answer)
    requires Own(store, start, u, sent) && OwnRequest(store.h, start, u, request)
    requires sent.Some? ==> Fitting(u.plan, sent.value) && SendsOwn(store.h, u.plan, sent.value, request)
    requires request.Manifest? ==> !store.Rewrites(request.bytes)
    modifies store, store.storage
    ensures Own(next, start, u, sent) && next.h == store.h && next.storage == store.storage
    ensures next == store || fresh(next)
    ensures Answers(store.h, old(MemoryOf(store)), request, a, MemoryOf(next))
    ensures old(store.storage.history) <= store.storage.history
  {
    hide SoundAssetStore.Valid, SoundAssetStore.Rewrites, ActiveOf, CommitOf, StagingOf, NextOf, Pending, Foreign, PlanValid,
         Visible, Live, Halfway, Succeeds, SendsOwn, TornIsNoticed, ContentTorn, Holds;
    next, a := store, Plain(StoreResult.Ok);
    match request
    case Reboot => next := Reset(store);
    case FlashTurns(faults) => ChangeFaults(store, faults);
    case Scan => a := DoScan(store);
    case QueryActive => a := DoQueryActive(store);
    case QueryOutcome(transaction) => a := DoQueryOutcome(store, transaction);
    case Begin(plan) => a := OwnBegin(store, start, u, sent, plan);
    case Resume(transaction) => a := OwnResume(store, start, u, sent, transaction);
    case Discard(plan) => a := OwnDiscard(store, start, u, sent, plan);
    case Manifest(bytes) => a := OwnManifest(store, start, u, sent, bytes);
    case Block(index, bytes) => a := OwnBlock(store, start, u, sent, index, bytes);
    case Commit => a := OwnCommit(store, start, u, sent);
    case Abort => a := OwnAbort(store, start, u, sent);
    case Acquire => a := DoAcquire(store);
    case Release(slot) => a := DoRelease(store, slot);
  }

  // ---------- Interrupted and retried ----------

  lemma StartsOwn(store: SoundAssetStore, plan: Plan, sent: Option<Content>)
    requires store.Valid() && store.update.None?
    requires Admission(store.h, store.storage.image, plan, store.leases).Ok?
    requires !BeginVerdict(store.h, store.storage.image, plan, store.leases).Busy?
    requires sent.Some? ==>
               && Fitting(plan, sent.value) && TornIsNoticed(store.h, plan, sent.value)
               && (Pending(store.h, store.storage.image) ==> ContentTorn(TargetBank(store.h, store.storage.image), sent.value))
    ensures var u := NextOf(store.h, store.storage.image, plan);
            u.plan == plan && PlanValid(plan) && Own(store, store.storage.image, u, sent)
  {
    hide SoundAssetStore.Valid, ActiveOf, CommitOf, StagingOf, Foreign, PlanValid, BeginVerdict, Admission, NextOf, Inv,
         DeriveTransaction, Pending, ContentTorn, TornIsNoticed, Holds;
    store.ImageIsInv();
    BusyMeansForeign(store.h, store.storage.image, plan, store.leases);
    AdmittedSucceeds(store.h, store.storage.image, plan, store.leases);
    BaseIsOlder(store.h, ActiveOf(store.h, store.storage.image), NextOf(store.h, store.storage.image, plan));
  }

  lemma AdmittedSucceeds(h: Hashes, image: Image, plan: Plan, leases: seq<Option<Lease>>)
    requires Admission(h, image, plan, leases).Ok?
    ensures GenerationOf(ActiveOf(h, image)) < MAX_GENERATION
    ensures NextOf(h, image, plan).plan == plan && Succeeds(h, ActiveOf(h, image), NextOf(h, image, plan))
  {
    hide ActiveOf, PlanValid, DeriveTransaction;
  }

  /** The same base, no lease in the way: begin or discard goes through. */
  lemma HalfwayAdmits(h: Hashes, image: Image, u: Update, leases: seq<Option<Lease>>)
    requires Inv(h, image) && PlanValid(u.plan) && Succeeds(h, ActiveOf(h, image), u) && !Foreign(h, image, u.plan)
    requires forall id :: !Pinned(leases, id)
    ensures Admission(h, image, u.plan, leases).Ok?
    ensures var verdict := BeginVerdict(h, image, u.plan, leases); verdict.Ok? || verdict.InvalidStaging?
  {
    BusyMeansForeign(h, image, u.plan, leases);
    hide Inv, ActiveOf, CommitOf, StagingOf, PlanValid, Foreign, BeginVerdict;
    assert Admission(h, image, u.plan, leases).Ok?;
    AdmittedVerdict(h, image, u.plan, leases);
  }

  /** The planned manifest comes again while the update is committed in flash and its manifest
      is not flagged. */
  predicate RewritesIn(h: Hashes, s: Memory, bytes: seq<byte>) {
    && s.update.Some? && CommitOf(h, s.update.value.bank, s.Target()).Some? && !s.manifestComplete
    && ManifestAccepted(h, bytes, s.update.value.plan)
  }

  /** After any run of this client, cut anywhere, and a reboot: its plan may begin again, after
      at most one discard, or the outcome query answers that its transaction is committed.
      Its own interrupted transaction never makes the device busy for it. If it has sent
      nothing but its own units, those found durable are its own, and all are once published. */
  method Interrupted(store: SoundAssetStore, plan: Plan, requests: seq<Request>, ghost sent: Option<Content>)
    returns (next: SoundAssetStore, served: nat, verdict: StoreResult, outcome: Outcome, ghost steps: seq<Step>)
    requires store.Valid() && store.update.None?
    requires Admission(store.h, store.storage.image, plan, store.leases).Ok?
    requires !BeginVerdict(store.h, store.storage.image, plan, store.leases).Busy?
    requires forall i | 0 <= i < |requests| ::
               OwnRequest(store.h, store.storage.image, NextOf(store.h, store.storage.image, plan), requests[i])
    requires sent.Some? ==>
               && Fitting(plan, sent.value) && TornIsNoticed(store.h, plan, sent.value)
               && (Pending(store.h, store.storage.image) ==> ContentTorn(TargetBank(store.h, store.storage.image), sent.value))
               && forall i | 0 <= i < |requests| :: SendsOwn(store.h, plan, sent.value, requests[i])
    modifies store, store.storage
    ensures next.Valid() && next.update.None? && next.storage == store.storage && next.storage.faults == NO_FAULTS && next.h == store.h
    ensures fresh(next)
    ensures served <= |requests| && |steps| == served
    ensures Linked(store.h, steps, requests[..served], old(MemoryOf(store)))
    ensures var s := StateAt(steps, old(MemoryOf(store)), served);
            && next.storage.history == s.history && next.storage.image == s.image
            && (served < |requests| ==> requests[served].Manifest? && RewritesIn(store.h, s, requests[served].bytes))
    ensures var u := NextOf(store.h, old(store.storage.image), plan);
            if verdict.Ok? || verdict.InvalidStaging? then
              && verdict == BeginVerdict(next.h, next.storage.image, plan, next.leases)
              && Admission(next.h, next.storage.image, plan, next.leases).Ok?
              && ActiveOf(next.h, next.storage.image) == ActiveOf(store.h, old(store.storage.image))
              && (sent.Some? && Pending(next.h, next.storage.image) ==>
                    Genuine(next.h, next.storage.image.At(u.bank), plan, sent.value.manifest, sent.value.payload))
            else
              && outcome.Committed? && outcome.snapshot.transaction == u.transaction
              && ActiveOf(next.h, next.storage.image) == Some(SnapshotOf(u))
              && (sent.Some? ==> Holds(next.storage.image.At(u.bank), sent.value.manifest, sent.value.payload))
  {
    hide SoundAssetStore.Valid, SoundAssetStore.Rewrites, ActiveOf, CommitOf, StagingOf, NextOf, Pending, Foreign, PlanValid, Visible, Live,
         Succeeds, BeginVerdict, Admission, DeriveTransaction, Inv, OwnRequest, SendsOwn, ContentTorn, TornIsNoticed, Holds, Genuine,
         Answers, RewritesIn;
    StartsOwn(store, plan, sent);
    ghost var start := store.storage.image;
    var u := NextOf(store.h, store.storage.image, plan);
    ghost var first := MemoryOf(store);
    next, served, steps := store, 0, [];
    while served < |requests| && !(requests[served].Manifest? && next.Rewrites(requests[served].bytes))
      invariant Own(next, start, u, sent) && next.h == store.h && next.storage == store.storage && served <= |requests|
      invariant next == store || fresh(next)
      invariant |steps| == served && Linked(store.h, steps, requests[..served], first) && MemoryOf(next) == StateAt(steps, first, served)
    {
      ghost var before := MemoryOf(next);
      var a;
      next, a := OwnServe(next, start, u, sent, requests[served]);
      ghost var step := Step(requests[served], a, before, MemoryOf(next));
      LinkedOn(store.h, steps, requests, first, step);
      steps := steps + [step];
      served := served + 1;
    }
    if served < |requests| { RewriteSeen(next, requests[served].bytes); }
    ChangeFaults(next, NO_FAULTS);
    next := Reset(next);
    verdict := BeginVerdict(next.h, next.storage.image, plan, next.leases);
    var image := next.storage.image;
    if ActiveOf(next.h, image) == Some(SnapshotOf(u)) {
      PublishedIsStale(next.h, image, ActiveOf(store.h, start), u, next.leases);
      NotBlankTransaction(next.h, ActiveOf(store.h, start), u);
      var r;
      r, outcome := next.QueryTransactionOutcome(u.transaction);
      PublishedIsFound(next, u, outcome);
    } else {
      next.ImageIsInv();
      HalfwayAdmits(next.h, image, u, next.leases);
      outcome := Unknown;
      if sent.Some? && Pending(next.h, image) { TornIsGenuine(next.h, image.At(u.bank), plan, sent.value); }
    }
  }

  lemma RewriteSeen(store: SoundAssetStore, bytes: seq<byte>)
    ensures store.Rewrites(bytes) <==> RewritesIn(store.h, MemoryOf(store), bytes)
  {
    hide CommitOf, ManifestAccepted;
  }

  lemma NotBlankTransaction(h: Hashes, base: Option<Snapshot>, u: Update)
    requires Succeeds(h, base, u)
    ensures !AllAre(0, u.transaction)
  {
    hide DeriveTransaction;
  }

  lemma PublishedIsFound(store: SoundAssetStore, u: Update, outcome: Outcome)
    requires store.update.None? && ActiveOf(store.h, store.storage.image) == Some(SnapshotOf(u))
    ensures exists id :: BankView(store.h, store.storage.image, None, id).Some?
                         && BankView(store.h, store.storage.image, None, id).value.transaction == u.transaction
  {
    hide CommitOf;
    var a, b := CommitOf(store.h, A, store.storage.image.a), CommitOf(store.h, B, store.storage.image.b);
    assert BankView(store.h, store.storage.image, None, A) == a && BankView(store.h, store.storage.image, None, B) == b;
  }

  /** So an upload interrupted anywhere and then retried ends with exactly the client's bundle
      active, when no torn unit passes for a whole one. */
  method Recover(store: SoundAssetStore, plan: Plan, content: Content, requests: seq<Request>)
    returns (next: SoundAssetStore, discards: nat, ghost steps: seq<Step>)
    requires store.Valid() && store.update.None?
    requires Admission(store.h, store.storage.image, plan, store.leases).Ok?
    requires !BeginVerdict(store.h, store.storage.image, plan, store.leases).Busy?
    requires Describes(store.h, plan, content.manifest, content.payload) && Fitting(plan, content)
    requires TornIsNoticed(store.h, plan, content)
    requires Pending(store.h, store.storage.image) ==> ContentTorn(TargetBank(store.h, store.storage.image), content)
    requires forall i | 0 <= i < |requests| ::
               && OwnRequest(store.h, store.storage.image, NextOf(store.h, store.storage.image, plan), requests[i])
               && SendsOwn(store.h, plan, content, requests[i])
    modifies store, store.storage
    ensures next.Valid() && next.h == store.h && next.storage == store.storage && discards <= 1
    ensures |steps| <= |requests| && Linked(store.h, steps, requests[..|steps|], old(MemoryOf(store)))
    ensures StateAt(steps, old(MemoryOf(store)), |steps|).history <= next.storage.history
    ensures |steps| < |requests| ==>
              && requests[|steps|].Manifest?
              && RewritesIn(store.h, StateAt(steps, old(MemoryOf(store)), |steps|), requests[|steps|].bytes)
    ensures var u := NextOf(store.h, old(store.storage.image), plan);
            && ActiveOf(next.h, next.storage.image) == Some(SnapshotOf(u))
            && Holds(next.storage.image.At(u.bank), content.manifest, content.payload)
  {
    hide SoundAssetStore.Valid, SoundAssetStore.Rewrites, ActiveOf, CommitOf, StagingOf, NextOf, Pending, Foreign, PlanValid, Visible, Live,
         BeginVerdict, Admission, DeriveTransaction, Inv, Describes, OwnRequest, SendsOwn, ContentTorn, TornIsNoticed, Holds, Genuine,
         Answers, RewritesIn;
    ghost var before := store.storage.image;
    var served, verdict, outcome;
    next, served, verdict, outcome, steps := Interrupted(store, plan, requests, Some(content));
    discards := 0;
    if verdict.Ok? || verdict.InvalidStaging? {
      NextKept(next.h, before, next.storage.image, plan);
      NextPlan(next.h, before, plan);
      var r;
      r, discards := Upload(next, plan, content.manifest, content.payload);
    }
  }
}
