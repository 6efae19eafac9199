/** What the store answers to each request, as a relation between the state before and after. */
module StoreAnswers {
  import opened Bytes
  import opened Flash
  import opened SoundFormat
  import opened SoundBanks
  import opened CrashInvariant
  import opened BankChecks
  import opened StoreView
  import opened UnitShapes
  import opened UpdateSteps
  import opened SoundStore

  datatype Request =
    | Reboot
    | FlashTurns(faults: Faults)
    | Scan
    | QueryActive
    | QueryOutcome(transaction: TransactionId)
    | Begin(plan: Plan)
    | Resume(transaction: TransactionId)
    | Discard(plan: Plan)
    | Manifest(bytes: seq<byte>)
    | Block(index: nat, bytes: seq<byte>)
    | Commit
    | Abort
    | Acquire
    | Release(slot: nat)

  datatype Answer = Answer(
    r: StoreResult, identity: Option<Identity>, active: Option<Snapshot>, outcome: Option<Outcome>, lease: Option<Lease>)

  function Plain(r: StoreResult): Answer { Answer(r, None, None, None, None) }

  /** Flash with all it has been, and what the store keeps in memory about its update and
      leases; the flags matter while there is an update. */
  datatype Memory = Memory(
    history: seq<Image>, image: Image, faults: Faults, update: Option<Update>, manifestComplete: bool, blocks: seq<bool>,
    leases: seq<Option<Lease>>)
  {
    predicate Calm() { faults.steady && faults.deafFrom.None? }

    /** The bank of the update. */
    function Target(): Bank
      requires update.Some?
    {
      image.At(update.value.bank)
    }
  }

  function MemoryOf(store: SoundAssetStore): Memory
    reads store, store.storage
  {
    Memory(store.storage.history, store.storage.image, store.storage.faults, store.update,
           store.update.Some? && store.manifestComplete, if store.update.Some? then store.payloadComplete else [], store.leases)
  }

  predicate Unwritten(s: Memory, t: Memory) {
    t.history == s.history && t.image == s.image && t.faults == s.faults && t.leases == s.leases
  }

  predicate SameUpdate(s: Memory, t: Memory) {
    t.update == s.update && t.manifestComplete == s.manifestComplete && t.blocks == s.blocks
  }

  /** Mutations only: the fault schedule and the leases stay. */
  predicate Written(s: Memory, t: Memory) { s.history <= t.history && t.faults == s.faults && t.leases == s.leases }

  predicate Scanned(s: Memory, a: Answer, t: Memory) {
    && t == s
    && (if s.update.Some? then a.r.Busy? else a.r.Ok? || Faulted(a.r))
    && (s.update.None? && s.Calm() ==> a.r.Ok?)
  }

  predicate ActiveQueried(h: Hashes, s: Memory, a: Answer, t: Memory) {
    && Unwritten(s, t)
    && (a.r.Ok? || Faulted(a.r)) && (s.Calm() ==> a.r.Ok?)
    && (a.r.Ok? ==>
          && a.active == ActiveOf(h, s.image)
          && t.update == if s.update.Some? && CommitOf(h, s.update.value.bank, s.Target()).None? then s.update else None)
    && (!a.r.Ok? ==> a.active.None? && t.update == s.update)
    && (t.update.Some? ==> SameUpdate(s, t))
  }

  predicate OutcomeQueried(h: Hashes, s: Memory, transaction: TransactionId, a: Answer, t: Memory) {
    && t == s
    && (AllAre(0, transaction) <==> a.r.InvalidArgument?)
    && (a.r.Ok? ==>
          && a.outcome.Some?
          && match a.outcome.value
             case Active(u) => s.update == Some(u) && u.transaction == transaction
             case Committed(found) => found.transaction == transaction && CommitOf(h, found.bank, s.image.At(found.bank)) == Some(found)
             case Unknown => forall id :: BankView(h, s.image, s.update, id).Some? ==>
                               BankView(h, s.image, s.update, id).value.transaction != transaction)
    && (s.Calm() && s.update.None? && !AllAre(0, transaction) ==> a.r.Ok?)
  }

  predicate NoneSet(blocks: seq<bool>) { |blocks| == 128 && forall i | 0 <= i < 128 :: !blocks[i] }

  /** The update is built on this bundle, in the other bank and one generation later. */
  predicate Follows(active: Option<Snapshot>, u: Update) {
    if active.Some? then
      && u.plan.baseGeneration == active.value.generation && u.plan.baseSha == active.value.bundleSha
      && u.generation == active.value.generation + 1 && u.bank != active.value.bank
    else u.plan.baseGeneration == 0 && AllAre(0, u.plan.baseSha) && u.generation == 1
  }

  predicate Begun(h: Hashes, s: Memory, plan: Plan, a: Answer, t: Memory) {
    && Written(s, t) && ActiveOf(h, t.image) == ActiveOf(h, s.image)
    && (if s.update.Some? then
          && t == s
          && a.r == if !PlanValid(plan) then StoreResult.InvalidArgument else if plan == s.update.value.plan then StoreResult.Ok else Busy
        else
          && var verdict := BeginVerdict(h, s.image, plan, s.leases);
          && (a.r == verdict || a.r.InvalidBank? || Faulted(a.r)) && (s.Calm() ==> a.r == verdict)
          && (!verdict.Ok? ==> t.history == s.history && !a.r.Ok?)
          && (a.r.Ok? && GenerationOf(ActiveOf(h, s.image)) < MAX_GENERATION ==> t.update == Some(NextOf(h, s.image, plan)))
          && (!a.r.Ok? ==> t.update.None?)
          && (Pending(h, s.image) ==> t.history == s.history)
          && (a.r.Ok? ==>
                if Pending(h, s.image) then
                  t.update.Some? && ProgressExact(h, t.Target(), t.update.value, t.manifestComplete, t.blocks)
                else !t.manifestComplete && NoneSet(t.blocks)))
    && (a.r.Ok? ==> t.update.Some? && t.update.value.plan == plan)
    && (a.r.Ok? && s.update.None? ==> Follows(ActiveOf(h, s.image), t.update.value))
    && a.identity == (if a.r.Ok? && t.update.Some? then Some(IdentityOf(t.update.value)) else None)
  }

  predicate Resumed(h: Hashes, s: Memory, transaction: TransactionId, a: Answer, t: Memory) {
    && Unwritten(s, t)
    && (AllAre(0, transaction) ==> a.r.InvalidArgument?)
    && (!AllAre(0, transaction) && s.update.Some? ==> a.r.Busy?)
    && (!a.r.Ok? ==> t == s && a.identity.None?)
    && (a.r.Ok? ==>
          && s.update.None? && t.update.Some? && t.update.value.transaction == transaction
          && a.identity == Some(IdentityOf(t.update.value)) && Follows(ActiveOf(h, s.image), t.update.value)
          && t.update == StagingOf(h, t.update.value.bank, t.Target()) && CommitOf(h, t.update.value.bank, t.Target()).None?
          && ProgressExact(h, t.Target(), t.update.value, t.manifestComplete, t.blocks))
  }

  predicate Discarded(h: Hashes, s: Memory, plan: Plan, a: Answer, t: Memory) {
    && Written(s, t) && SameUpdate(s, t) && ActiveOf(h, t.image) == ActiveOf(h, s.image)
    && (!PlanValid(plan) ==> a.r.InvalidArgument? && t == s)
    && (PlanValid(plan) && s.update.Some? ==> a.r.Busy? && t == s)
    && (s.update.None? ==>
          && var verdict := DiscardVerdict(h, s.image, plan, s.leases);
          && (a.r == verdict || a.r.InvalidBank? || Faulted(a.r)) && (s.Calm() ==> a.r == verdict)
          && (!BeginVerdict(h, s.image, plan, s.leases).InvalidStaging? ==> t.history == s.history)
          && (BeginVerdict(h, s.image, plan, s.leases).InvalidStaging? && a.r.Ok? ==> BeginVerdict(h, t.image, plan, t.leases).Ok?))
  }

  predicate ManifestWritten(h: Hashes, s: Memory, bytes: seq<byte>, a: Answer, t: Memory) {
    && Written(s, t) && t.update == s.update && t.blocks == s.blocks
    && (s.update.None? ==> a.r.TransactionMismatch? && t == s)
    && (s.update.Some? ==>
          && var plan := s.update.value.plan;
          && ActiveOf(h, t.image) == ActiveOf(h, s.image)
          && (|bytes| != plan.manifestBytes ==> a.r.InvalidArgument? && t == s)
          && (|bytes| == plan.manifestBytes && !ManifestAccepted(h, bytes, plan) ==> (a.r.CrcMismatch? || Faulted(a.r)) && t.history == s.history)
          && (a.r.Ok? ==> PlanValid(plan) && t.manifestComplete && ManifestDurable(h, t.Target(), plan))
          && (a.r.Ok? && !s.manifestComplete ==> plan.manifestBytes <= SECTOR && ManifestBytes(t.Target(), plan.manifestBytes) == bytes)
          && (ManifestAccepted(h, bytes, plan) && s.Calm() ==> a.r.Ok?)
          && (s.manifestComplete ==> t.history == s.history && t.manifestComplete))
  }

  predicate BlockWritten(h: Hashes, s: Memory, index: nat, bytes: seq<byte>, a: Answer, t: Memory) {
    && Written(s, t) && t.update == s.update && t.manifestComplete == s.manifestComplete && |t.blocks| == |s.blocks|
    && ActiveOf(h, t.image) == ActiveOf(h, s.image)
    && (forall i | 0 <= i < |t.blocks| && i != index :: t.blocks[i] == s.blocks[i])
    && (s.update.None? ==> a.r.TransactionMismatch? && t == s)
    && (s.update.Some? ==>
          && var plan := s.update.value.plan;
          && PlanValid(plan) && |s.blocks| == 128
          && (!BlockFits(index, bytes, plan) ==> a.r.InvalidArgument? && t.history == s.history)
          && (BlockFits(index, bytes, plan) ==>
                && (h.crc32(bytes) != plan.blockCrcs[index] ==> (a.r.CrcMismatch? || Faulted(a.r)) && t.history == s.history)
                && (h.crc32(bytes) == plan.blockCrcs[index] && s.Calm() ==> a.r.Ok?))
          && (index < 128 && s.blocks[index] ==> t == s)
          && (a.r.Ok? ==>
                && index < BlockCount(plan.payloadBytes) && t.blocks == s.blocks[index := true]
                && BlockDurable(h, t.Target(), plan, index)
                && (s.blocks[index] || BlockBytes(t.Target(), plan.payloadBytes, index) == bytes)))
  }

  predicate CommitTried(h: Hashes, s: Memory, a: Answer, t: Memory) {
    && Written(s, t)
    && (s.update.None? ==> a.r.TransactionMismatch? && t == s)
    && (s.update.Some? ==>
          && var u := s.update.value;
          && PlanValid(u.plan)
          && var verdict := CommitVerdict(h, s.Target(), u);
          && (a.r == verdict || Faulted(a.r)) && (s.Calm() ==> a.r == verdict)
          && (!verdict.Ok? ==> t.history == s.history)
          && SameContent(s.Target(), t.image.At(u.bank), u.plan)
          && (a.r.Ok? ==> t.update.None? && ActiveOf(h, t.image) == Some(SnapshotOf(u)) && AsPlanned(h, t.image.At(u.bank), u.plan))
          && (!AsPlanned(h, s.Target(), u.plan) ==> !a.r.Ok? && t.history == s.history)
          && (!a.r.Ok? ==> t.update == s.update && t.manifestComplete == s.manifestComplete && FlagsKept(s.blocks, t.blocks))
          && (ActiveOf(h, t.image) == ActiveOf(h, s.image) || ActiveOf(h, t.image) == Some(SnapshotOf(u))))
  }

  predicate AbortTried(h: Hashes, s: Memory, a: Answer, t: Memory) {
    && Written(s, t) && ActiveOf(h, t.image) == ActiveOf(h, s.image)
    && (a.r.Ok? || Faulted(a.r)) && (s.Calm() ==> a.r.Ok?)
    && (a.r.Ok? ==> t.update.None?) && (!a.r.Ok? ==> SameUpdate(s, t))
    && (s.update.None? ==> t == s)
    && (s.update.Some? ==>
          && var u := s.update.value;
          && (CommitOf(h, u.bank, s.Target()).Some? ==> t.history == s.history && ActiveOf(h, t.image) == Some(SnapshotOf(u)))
          && (CommitOf(h, u.bank, s.Target()).None? && a.r.Ok? ==> StagingOf(h, u.bank, t.image.At(u.bank)).None?))
  }

  predicate Leased(h: Hashes, s: Memory, a: Answer, t: Memory) {
    && t == s.(leases := t.leases)
    && (a.r.Ok? <==> a.lease.Some?)
    && (!a.r.Ok? ==> t.leases == s.leases)
    && (a.r.Ok? ==>
          && var active := Visible(h, s.image, s.update).active;
          && active.Some? && active.value.bank == a.lease.value.bank
          && active.value.generation == a.lease.value.generation && active.value.bundleSha == a.lease.value.bundleSha
          && !UsedId(s.leases, a.lease.value.id)
          && |s.leases| == MAX_LEASES && exists i | 0 <= i < MAX_LEASES :: s.leases[i].None? && t.leases == s.leases[i := a.lease])
  }

  predicate Released(s: Memory, slot: nat, a: Answer, t: Memory) {
    && t == s.(leases := t.leases)
    && (slot >= |s.leases| || s.leases[slot].None? ==> a.r.InvalidArgument? && t == s)
    && (slot < |s.leases| && s.leases[slot].Some? ==> a.r.Ok? && !UsedId(t.leases, s.leases[slot].value.id))
  }

  predicate Rebooted(s: Memory, a: Answer, t: Memory) {
    && a.r.Ok? && t == s.(update := None, manifestComplete := false, blocks := [], leases := t.leases)
    && forall id :: !Pinned(t.leases, id)
  }

  /** The answer to a request, and the state it leaves. */
  predicate Answers(h: Hashes, s: Memory, request: Request, a: Answer, t: Memory) {
    match request
    case Reboot => Rebooted(s, a, t)
    case FlashTurns(faults) => a.r.Ok? && t == s.(faults := faults)
    case Scan => Scanned(s, a, t)
    case QueryActive => ActiveQueried(h, s, a, t)
    case QueryOutcome(transaction) => OutcomeQueried(h, s, transaction, a, t)
    case Begin(plan) => Begun(h, s, plan, a, t)
    case Resume(transaction) => Resumed(h, s, transaction, a, t)
    case Discard(plan) => Discarded(h, s, plan, a, t)
    case Manifest(bytes) => ManifestWritten(h, s, bytes, a, t)
    case Block(index, bytes) => BlockWritten(h, s, index, bytes, a, t)
    case Commit => CommitTried(h, s, a, t)
    case Abort => AbortTried(h, s, a, t)
    case Acquire => Leased(h, s, a, t)
    case Release(slot) => Released(s, slot, a, t)
  }

  // ---------- The store gives these answers ----------

  method DoScan(store: SoundAssetStore) returns (a: Answer)
    requires store.Valid()
    modifies store
    ensures store.Valid() && Scanned(old(MemoryOf(store)), a, MemoryOf(store)) && a == Plain(a.r)
    ensures old(store.storage.history) <= store.storage.history
  {
    hide SafeRun, SelectionSound, ReadSound, LeasesSound, UpdateSound, ActiveOf, CommitOf;
    var r := store.Scan();
    a := Plain(r);
  }

  method DoQueryActive(store: SoundAssetStore) returns (a: Answer)
    requires store.Valid()
    modifies store
    ensures store.Valid() && ActiveQueried(store.h, old(MemoryOf(store)), a, MemoryOf(store)) && a == Plain(a.r).(active := a.active)
    ensures old(store.storage.history) <= store.storage.history
  {
    hide SafeRun, SelectionSound, ReadSound, LeasesSound, UpdateSound, ActiveOf, CommitOf;
    var r, active := store.QueryCurrentActive();
    a := Plain(r).(active := active);
  }

  method DoQueryOutcome(store: SoundAssetStore, transaction: TransactionId) returns (a: Answer)
    requires store.Valid()
    modifies store
    ensures store.Valid() && OutcomeQueried(store.h, old(MemoryOf(store)), transaction, a, MemoryOf(store))
    ensures a.outcome.Some? && a == Plain(a.r).(outcome := a.outcome)
    ensures old(store.storage.history) <= store.storage.history
  {
    hide SafeRun, SelectionSound, ReadSound, LeasesSound, UpdateSound, ActiveOf, CommitOf, BankView;
    var r, outcome := store.QueryTransactionOutcome(transaction);
    a := Plain(r).(outcome := Some(outcome));
  }

  method DoBegin(store: SoundAssetStore, plan: Plan) returns (a: Answer)
    requires store.Valid()
    modifies store, store.storage
    ensures store.Valid() && Begun(store.h, old(MemoryOf(store)), plan, a, MemoryOf(store)) && a == Plain(a.r).(identity := a.identity)
    ensures old(store.storage.history) <= store.storage.history
  {
    hide SafeRun, SelectionSound, ReadSound, LeasesSound, UpdateSound, ActiveOf, CommitOf, NextOf, BeginVerdict, Pending, PlanValid,
         ProgressExact, StagingOf, Erased, Foreign;
    ghost var before, idle := store.storage.image, store.update.None?;
    var r, identity := store.BeginOrResume(plan);
    if idle && r.Ok? { NextHasPlan(store.h, before, plan, store.leases); }
    a := Plain(r).(identity := identity);
  }

  method DoResume(store: SoundAssetStore, transaction: TransactionId) returns (a: Answer)
    requires store.Valid()
    modifies store
    ensures store.Valid() && Resumed(store.h, old(MemoryOf(store)), transaction, a, MemoryOf(store)) && a == Plain(a.r).(identity := a.identity)
    ensures old(store.storage.history) <= store.storage.history
  {
    hide SafeRun, SelectionSound, ReadSound, LeasesSound, UpdateSound, ActiveOf, CommitOf, ProgressExact, StagingOf, LoadVerdict;
    var r, identity := store.ResumeUpdate(transaction);
    a := Plain(r).(identity := identity);
    if r.Ok? { OnBase(store); }
  }

  method DoDiscard(store: SoundAssetStore, plan: Plan) returns (a: Answer)
    requires store.Valid()
    modifies store, store.storage
    ensures store.Valid() && Discarded(store.h, old(MemoryOf(store)), plan, a, MemoryOf(store)) && a == Plain(a.r)
    ensures old(store.storage.history) <= store.storage.history
  {
    hide SafeRun, SelectionSound, ReadSound, LeasesSound, UpdateSound, ActiveOf, CommitOf, BeginVerdict, DiscardVerdict, PlanValid,
         Pending, Foreign;
    NowIsLast(store);
    var r := store.DiscardInvalidStaging(plan);
    NowIsLast(store);
    a := Plain(r);
  }

  method DoManifest(store: SoundAssetStore, bytes: seq<byte>) returns (a: Answer)
    requires store.Valid() && !store.Rewrites(bytes)
    modifies store, store.storage
    ensures store.Valid() && ManifestWritten(store.h, old(MemoryOf(store)), bytes, a, MemoryOf(store)) && a == Plain(a.r)
    ensures old(store.storage.history) <= store.storage.history
  {
    hide SafeRun, SelectionSound, ReadSound, LeasesSound, UpdateSound, ActiveOf, CommitOf, ManifestDurable, ManifestBytes,
         ManifestAccepted, BlocksKept, Torn, PlanValid, SoundAssetStore.Rewrites, SoundAssetStore.Open;
    NowIsLast(store);
    if store.update.Some? { UpdateFits(store); }
    var r := store.WriteManifest(bytes);
    NowIsLast(store);
    a := Plain(r);
  }

  method DoBlock(store: SoundAssetStore, index: nat, bytes: seq<byte>) returns (a: Answer)
    requires store.Valid()
    modifies store, store.storage
    ensures store.Valid() && BlockWritten(store.h, old(MemoryOf(store)), index, bytes, a, MemoryOf(store)) && a == Plain(a.r)
    ensures old(store.storage.history) <= store.storage.history
  {
    hide SafeRun, SelectionSound, ReadSound, LeasesSound, UpdateSound, ActiveOf, CommitOf, BlockDurable, BlockBytes, ManifestBytes,
         BlocksKept, Torn, PlanValid, BlockFits;
    NowIsLast(store);
    if store.update.Some? { UpdateFits(store); }
    var r := store.WritePayloadBlock(index, bytes);
    NowIsLast(store);
    a := Plain(r);
  }

  method DoCommit(store: SoundAssetStore) returns (a: Answer)
    requires store.Valid()
    modifies store, store.storage
    ensures store.Valid() && CommitTried(store.h, old(MemoryOf(store)), a, MemoryOf(store)) && a == Plain(a.r)
    ensures old(store.storage.history) <= store.storage.history
  {
    hide SafeRun, SelectionSound, ReadSound, LeasesSound, UpdateSound, ActiveOf, CommitOf, CommitVerdict, SameContent, PlanValid;
    NowIsLast(store);
    var r := store.CommitUpdate();
    NowIsLast(store);
    a := Plain(r);
  }

  method DoAbort(store: SoundAssetStore) returns (a: Answer)
    requires store.Valid()
    modifies store, store.storage
    ensures store.Valid() && AbortTried(store.h, old(MemoryOf(store)), a, MemoryOf(store)) && a == Plain(a.r)
    ensures old(store.storage.history) <= store.storage.history
  {
    hide SafeRun, SelectionSound, ReadSound, LeasesSound, UpdateSound, ActiveOf, CommitOf, StagingOf, SameContent, PlanValid;
    NowIsLast(store);
    var r := store.AbortUpdate();
    NowIsLast(store);
    a := Plain(r);
  }

  method DoAcquire(store: SoundAssetStore) returns (a: Answer)
    requires store.Valid()
    modifies store
    ensures store.Valid() && Leased(store.h, old(MemoryOf(store)), a, MemoryOf(store)) && a == Plain(a.r).(lease := a.lease)
    ensures old(store.storage.history) <= store.storage.history
  {
    hide SafeRun, SelectionSound, ReadSound, LeasesSound, UpdateSound, ActiveOf, CommitOf, Visible, UsedId;
    LeasesFit(store);
    var r, lease := store.AcquireActiveRead();
    a := Plain(r).(lease := lease);
  }

  method DoRelease(store: SoundAssetStore, slot: nat) returns (a: Answer)
    requires store.Valid()
    modifies store
    ensures store.Valid() && Released(old(MemoryOf(store)), slot, a, MemoryOf(store)) && a == Plain(a.r)
    ensures old(store.storage.history) <= store.storage.history
  {
    hide SafeRun, SelectionSound, ReadSound, LeasesSound, UpdateSound, ActiveOf, CommitOf, UsedId;
    LeasesFit(store);
    a := Plain(StoreResult.InvalidArgument);
    if slot < |store.leases| {
      var r := store.ReleaseRead(store.leases[slot]);
      a := Plain(r);
    }
  }

  /** An update in memory without a record is built on the bundle being served. */
  lemma OnBase(store: SoundAssetStore)
    requires store.Valid() && store.update.Some?
    requires CommitOf(store.h, store.update.value.bank, store.storage.image.At(store.update.value.bank)).None?
    ensures Follows(ActiveOf(store.h, store.storage.image), store.update.value)
  {
    hide SafeRun, SelectionSound, ReadSound, LeasesSound, ProgressSound, Live, CommitOf, ActiveOf;
    LiveBase(store.h, store.storage.image, store.update.value);
  }

  lemma NowIsLast(store: SoundAssetStore)
    requires store.Valid()
    ensures |store.storage.history| > 0 && store.storage.history[|store.storage.history| - 1] == store.storage.image
  {
    hide SafeRun;
  }

  lemma LeasesFit(store: SoundAssetStore)
    requires store.Valid()
    ensures |store.leases| == MAX_LEASES
  {
    hide SafeRun, SelectionSound, ReadSound, UpdateSound, LeaseLive;
  }

  lemma UpdateFits(store: SoundAssetStore)
    requires store.Valid() && store.update.Some?
    ensures PlanValid(store.update.value.plan) && store.update.value.plan.manifestBytes <= SECTOR && |store.payloadComplete| == 128
  {
    hide SafeRun, SelectionSound, ReadSound, LeasesSound, Live, PlanValid;
    UpdatePlan(store);
    PlanFits(store.update.value.plan);
    FlagsTrue(store.h, store.storage.image.At(store.update.value.bank), store.update.value, store.manifestComplete, store.payloadComplete);
  }

  lemma UpdatePlan(store: SoundAssetStore)
    requires store.Valid() && store.update.Some?
    ensures PlanValid(store.update.value.plan)
  {
    hide SafeRun, SelectionSound, ReadSound, LeasesSound, ProgressSound;
    LivePlan(store.h, store.storage.image, store.update.value);
  }

  lemma NextHasPlan(h: Hashes, image: Image, plan: Plan, leases: seq<Option<Lease>>)
    requires BeginVerdict(h, image, plan, leases).Ok?
    ensures GenerationOf(ActiveOf(h, image)) < MAX_GENERATION && NextOf(h, image, plan).plan == plan
  {
    BeginsBelowMaximum(h, image, plan, leases);
    hide BeginVerdict, ActiveOf, DeriveTransaction;
  }

  lemma BeginsBelowMaximum(h: Hashes, image: Image, plan: Plan, leases: seq<Option<Lease>>)
    requires BeginVerdict(h, image, plan, leases).Ok?
    ensures GenerationOf(ActiveOf(h, image)) < MAX_GENERATION
  {
    hide CommitOf, StagingOf, ActiveOf, DeriveTransaction;
  }

  /** The flash starts or stops failing. */
  method ChangeFaults(store: SoundAssetStore, faults: Faults)
    requires store.Valid()
    modifies store.storage`faults
    ensures store.Valid() && store.storage.faults == faults && MemoryOf(store) == old(MemoryOf(store)).(faults := faults)
  {
    hide SafeRun, SelectionSound, ReadSound, LeasesSound, UpdateSound, ActiveOf;
    store.storage.faults := faults;
  }

  method Reset(store: SoundAssetStore) returns (next: SoundAssetStore)
    requires store.Valid()
    ensures next.Valid() && next.h == store.h && next.storage == store.storage && fresh(next) && next.update.None?
    ensures forall id :: !Pinned(next.leases, id)
  {
    hide SafeRun, SelectionSound, ReadSound, LeasesSound, UpdateSound, ActiveOf;
    next := new SoundAssetStore(store.h, store.storage);
  }

  /** One request. The planned manifest sent again in the exposed state is the only one that
      can do harm. */
  method Serve(store: SoundAssetStore, request: Request) returns (next: SoundAssetStore, a: Answer)
    requires store.Valid() && !(request.Manifest? && store.Rewrites(request.bytes))
    modifies store, store.storage
    ensures next.Valid() && next.h == store.h && next.storage == store.storage
    ensures next == store || fresh(next)
    ensures old(store.storage.history) <= store.storage.history
    ensures Answers(store.h, old(MemoryOf(store)), request, a, MemoryOf(next))
  {
    hide SoundAssetStore.Valid, SoundAssetStore.Rewrites, ActiveOf, CommitOf, Scanned, ActiveQueried, OutcomeQueried, Begun, Resumed,
         Discarded, ManifestWritten, BlockWritten, CommitTried, AbortTried, Leased, Released;
    next, a := store, Plain(StoreResult.Ok);
    match request
    case Reboot => next := Reset(store);
    case FlashTurns(faults) => ChangeFaults(store, faults);
    case Scan => a := DoScan(store);
    case QueryActive => a := DoQueryActive(store);
    case QueryOutcome(transaction) => a := DoQueryOutcome(store, transaction);
    case Begin(plan) => a := DoBegin(store, plan);
    case Resume(transaction) => a := DoResume(store, transaction);
    case Discard(plan) => a := DoDiscard(store, plan);
    case Manifest(bytes) => a := DoManifest(store, bytes);
    case Block(index, bytes) => a := DoBlock(store, index, bytes);
    case Commit => a := DoCommit(store);
    case Abort => a := DoAbort(store);
    case Acquire => a := DoAcquire(store);
    case Release(slot) => a := DoRelease(store, slot);
  }
}
