/** From an action of the protocol to calls of the store, and back to a completion. */
module StoreExecutor {
  import opened Bytes
  import opened Flash
  import opened SoundFormat
  import opened SoundBanks
  import opened CrashInvariant
  import opened BankChecks
  import opened StoreView
  import opened SoundStore
  import opened StoreAnswers
  import opened StoreRuns
  import S = Session

  // ---------- Progress ----------

  function ProgressOf(u: Update, manifestComplete: bool, blocks: seq<bool>): S.Progress {
    S.Progress(IdentityOf(u), u.plan.manifestBytes, u.plan.payloadBytes, BlockCount(u.plan.payloadBytes),
               manifestComplete, blocks, u.plan.bundleSha)
  }

  /** What the store says now of its update. */
  function ProgressNow(store: SoundAssetStore): S.Progress
    requires store.update.Some?
    reads store
  {
    ProgressOf(store.update.value, store.manifestComplete, store.payloadComplete)
  }

  /** A report about the store's update that claims no more than the store knows. */
  predicate Tracks(store: SoundAssetStore, p: S.Progress)
    reads store
  {
    && store.update.Some?
    && p == ProgressOf(store.update.value, p.manifestComplete, p.blocks)
    && (p.manifestComplete ==> store.manifestComplete)
    && FlagsKept(p.blocks, store.payloadComplete)
  }

  /** What a tracked report calls complete is durable in flash. */
  lemma TrackedIsDurable(store: SoundAssetStore, p: S.Progress)
    requires store.Valid() && Tracks(store, p)
    ensures PlanValid(store.update.value.plan)
    ensures p.manifestComplete ==> ManifestDurable(store.h, store.storage.image.At(p.identity.bank), store.update.value.plan)
    ensures forall i | 0 <= i < |p.blocks| && p.blocks[i] ::
              && i < BlockCount(store.update.value.plan.payloadBytes)
              && BlockDurable(store.h, store.storage.image.At(p.identity.bank), store.update.value.plan, i)
  {
    hide SafeRun, SelectionSound, ReadSound, LeasesSound, Live, ProgressSound, BlockDurable, ManifestDurable, ManifestVerdictOf;
    var u := store.update.value;
    UpdateHasPlan(store);
    FlagsTrue(store.h, store.storage.image.At(u.bank), u, store.manifestComplete, store.payloadComplete);
  }

  lemma UpdateHasPlan(store: SoundAssetStore)
    requires store.Valid() && store.update.Some?
    ensures PlanValid(store.update.value.plan)
  {
    hide SafeRun, SelectionSound, ReadSound, LeasesSound, ProgressSound;
    LiveJournal(store.h, store.storage.image, store.update.value);
  }

  /** A report of the current state is well formed. */
  lemma NowIsWellFormed(store: SoundAssetStore)
    requires store.Valid() && store.update.Some?
    ensures S.ProgressWellFormed(ProgressNow(store)) && Tracks(store, ProgressNow(store))
    ensures |store.payloadComplete| == 128
  {
    hide SafeRun, SelectionSound, ReadSound, LeasesSound, Live, ProgressSound, BlockDurable, ManifestDurable, PlanValid,
         ManifestVerdictOf;
    var u := store.update.value;
    UpdateHasPlan(store);
    FlagsTrue(store.h, store.storage.image.At(u.bank), u, store.manifestComplete, store.payloadComplete);
    LiveIsWellFormed(store.h, store.storage.image, u);
  }

  lemma LiveIsWellFormed(h: Hashes, image: Image, u: Update)
    requires Live(h, image, u)
    ensures u.generation != 0 && !AllAre(0, u.transaction)
    ensures 32 <= u.plan.manifestBytes <= SECTOR && u.plan.payloadBytes <= PAYLOAD_MAX && !AllAre(0, u.plan.bundleSha)
  {
    hide Live, PlanValid;
    LiveShape(h, image, u);
  }

  /** capture_progress: memory only. */
  method CaptureProgress(store: SoundAssetStore) returns (r: StoreResult, progress: Option<S.Progress>)
    requires store.Valid()
    ensures r == if store.update.Some? then StoreResult.Ok else TransactionMismatch
    ensures progress == if r.Ok? then Some(ProgressNow(store)) else None
  {
    hide SafeRun, SelectionSound, ReadSound, LeasesSound, UpdateSound;
    var manifestDone, blocksDone;
    r, manifestDone, blocksDone := store.UpdateProgress();
    if !r.Ok? { return r, None; }
    var u := store.update.value;
    TailClear(store);
    assert |blocksDone| <= |store.payloadComplete|;
    assert blocksDone + seq(|store.payloadComplete| - |blocksDone|, _ => false) == store.payloadComplete;
    progress := Some(ProgressOf(u, manifestDone, blocksDone + seq(128 - |blocksDone|, _ => false)));
  }

  lemma TailClear(store: SoundAssetStore)
    requires store.Valid() && store.update.Some?
    ensures |store.payloadComplete| == 128
    ensures forall i | BlockCount(store.update.value.plan.payloadBytes) <= i < 128 :: !store.payloadComplete[i]
  {
    NowIsWellFormed(store);
  }

  // ---------- Completions ----------

  function CompletionOf(action: S.Action, r: StoreResult): S.Completion {
    S.Completion(action.token, action.kind, r, None, None, None, 0, 0, None)
  }

  predicate Owned(store: SoundAssetStore, expected: Identity)
    reads store
  {
    store.update.Some? && IdentityOf(store.update.value) == expected
  }

  /** What a success reports, and that it is true of the store. */
  predicate Reports(store: SoundAssetStore, action: S.Action, c: S.Completion)
    reads store, store.storage
  {
    match action.kind
    case DoBegin =>
      && store.update.Some? && action.plan == Some(store.update.value.plan)
      && c.progress == Some(ProgressNow(store)) && c.identity == Some(IdentityOf(store.update.value))
    case DoQueryActive =>
      c.currentActive == Some(ActiveOf(store.h, store.storage.image)) && c.identity.None? && c.progress.None? && c.outcome.None?
    case DoResumeQuery =>
      && c.identity.Some? && c.identity.value.transaction == action.expected.transaction
      && (c.outcome == Some(S.Active) ==>
            && store.update.Some? && c.progress == Some(ProgressNow(store)) && c.identity == Some(IdentityOf(store.update.value))
            && (action.mode.CurrentProgress? ==> c.identity.value == action.expected))
      && (c.outcome != Some(S.Active) ==> action.mode.ResumeOrRebind? && c.progress.None? && Finished(store, c))
    case DoWriteManifest =>
      Owned(store, action.expected) && c.progress == Some(ProgressNow(store)) && store.manifestComplete
    case DoWriteBlock =>
      && Owned(store, action.expected) && c.progress == Some(ProgressNow(store))
      && action.blockIndex < BlockCount(store.update.value.plan.payloadBytes)
      && action.blockIndex < |store.payloadComplete| && store.payloadComplete[action.blockIndex]
    case DoDiscard => true
    case DoCommit => store.update.None?
    case DoAbort => store.update.None?
  }

  /** A transaction that is over: committed in one of the banks, or not to be found there. */
  predicate Finished(store: SoundAssetStore, c: S.Completion)
    requires c.identity.Some?
    reads store, store.storage
  {
    var committed := CommitOf(store.h, c.identity.value.bank, store.storage.image.At(c.identity.value.bank));
    if c.outcome == Some(S.Committed) then
      && committed.Some? && c.identity.value == Identity(committed.value.generation, committed.value.bank, committed.value.transaction)
      && c.outcomeManifestBytes == committed.value.manifestBytes && c.outcomePayloadBytes == committed.value.payloadBytes
    else
      && c.outcome == Some(S.NotRetained) && c.identity.value.generation == 0
      && c.outcomeManifestBytes == 0 && c.outcomePayloadBytes == 0
  }

  /** The session believes every success the store reports, whatever it was told before. */
  lemma Believed(store: SoundAssetStore, action: S.Action, c: S.Completion, p: S.Pending, plan: Option<Plan>, binding: Option<S.Binding>)
    requires store.Valid() && Reports(store, action, c)
    requires action.kind == p.kind && S.Carries(action, p, binding, plan)
    requires binding.Some? && S.NeedsBinding(p) && !p.kind.DoCommit? && !p.kind.DoAbort? ==> Tracks(store, binding.value.progress)
    ensures S.ContractMet(c, p, plan, if binding.Some? then Some(binding.value.progress) else None)
  {
    hide SafeRun, SelectionSound, ReadSound, LeasesSound, UpdateSound, CommitOf, ActiveOf, S.ProgressWellFormed, AllAre, SnapshotShape;
    if store.update.Some? { NowIsWellFormed(store); }
    match p.kind
    case DoBegin =>
    case DoQueryActive => ActiveShape(store);
    case DoResumeQuery =>
      if c.outcome == Some(S.Active) {
        if p.request.cookie != 0 { NowContinues(store, binding.value.progress); }
      } else if c.outcome == Some(S.Committed) {
        FinishedShape(store, c);
      }
    case DoWriteManifest => NowContinues(store, binding.value.progress);
    case DoWriteBlock => NowContinues(store, binding.value.progress);
    case DoDiscard =>
    case DoCommit =>
    case DoAbort =>
  }

  lemma NowContinues(store: SoundAssetStore, p: S.Progress)
    requires store.Valid() && Tracks(store, p)
    ensures S.Continues(ProgressNow(store), p)
  {
    hide SafeRun, SelectionSound, ReadSound, LeasesSound, UpdateSound, S.ProgressWellFormed;
    NowIsWellFormed(store);
  }

  lemma ActiveShape(store: SoundAssetStore)
    requires store.Valid()
    ensures var active := ActiveOf(store.h, store.storage.image); active.Some? ==> SnapshotShape(active.value)
  {
    hide SafeRun, SelectionSound, ReadSound, LeasesSound, UpdateSound, ParseCommit;
  }

  lemma FinishedShape(store: SoundAssetStore, c: S.Completion)
    requires c.identity.Some? && Finished(store, c) && c.outcome == Some(S.Committed)
    ensures c.identity.value.generation != 0 && 32 <= c.outcomeManifestBytes <= SECTOR && c.outcomePayloadBytes <= PAYLOAD_MAX
  {
    hide ParseCommit;
  }

  // ---------- Execution ----------

  /** Which successes end the update. */
  predicate Ends(c: S.Completion) { c.result.Ok? && (c.kind.DoCommit? || c.kind.DoAbort?) }

  // ---------- The same between values ----------

  predicate OwnedIn(m: Memory, expected: Identity) { m.update.Some? && IdentityOf(m.update.value) == expected }

  /** Reported progress is the sizes and the digest of the plan, and the flags as they are. */
  lemma ProgressMeans(u: Update, manifestComplete: bool, blocks: seq<bool>)
    ensures var p := ProgressOf(u, manifestComplete, blocks);
            && p.identity.generation == u.generation && p.identity.bank == u.bank && p.identity.transaction == u.transaction
            && p.manifestBytes == u.plan.manifestBytes && p.payloadBytes == u.plan.payloadBytes && p.bundleSha == u.plan.bundleSha
            && p.blockCount == (u.plan.payloadBytes + 4095) / 4096 && p.manifestComplete == manifestComplete && p.blocks == blocks
  {
  }

  function ProgressIn(m: Memory): S.Progress
    requires m.update.Some?
  {
    ProgressOf(m.update.value, m.manifestComplete, m.blocks)
  }

  /** The completion tells this outcome. */
  predicate Tells(c: S.Completion, outcome: SoundStore.Outcome) {
    match outcome
    case Active(_) => false
    case Committed(found) =>
      && c.outcome == Some(S.Committed) && c.identity == Some(Identity(found.generation, found.bank, found.transaction))
      && c.outcomeManifestBytes == found.manifestBytes && c.outcomePayloadBytes == found.payloadBytes
    case Unknown => c.outcome == Some(S.NotRetained)
  }

  ghost predicate OutcomeTold(h: Hashes, s: Memory, transaction: TransactionId, c: S.Completion, t: Memory) {
    exists outcome: SoundStore.Outcome ::
      OutcomeQueried(h, s, transaction, Plain(c.result).(outcome := Some(outcome)), t) && (c.result.Ok? ==> Tells(c, outcome))
  }

  /** Rebinding to the update in memory, resuming a durable one, or telling how it ended. */
  ghost predicate ResumeWorked(h: Hashes, s: Memory, transaction: TransactionId, c: S.Completion, t: Memory) {
    if AllAre(0, transaction) then c.result.InvalidArgument? && t == s
    else if s.update.Some? then
      if s.update.value.transaction == transaction
      then t == s && c.result.Ok? && c.outcome == Some(S.Active) && c.progress == Some(ProgressIn(s))
      else OutcomeTold(h, s, transaction, c, t)
    else
      || (!c.result.TransactionMismatch? && Resumed(h, s, transaction, Plain(c.result).(identity := c.identity), t))
      || (Resumed(h, s, transaction, Plain(TransactionMismatch), s) && OutcomeTold(h, s, transaction, c, t))
  }

  /** The store request behind each action, and whose transaction it may touch. */
  ghost predicate Worked(h: Hashes, s: Memory, action: S.Action, c: S.Completion, t: Memory) {
    && c.token == action.token && c.kind == action.kind
    && (Guarded(action) && !OwnedIn(s, action.expected) ==> c.result.TransactionMismatch? && t == s)
    && match action.kind
       case DoBegin =>
         if action.plan.None? then c.result.InvalidArgument? && t == s
         else Begun(h, s, action.plan.value, Plain(c.result).(identity := c.identity), t)
       case DoDiscard =>
         if action.plan.None? then c.result.InvalidArgument? && t == s
         else Discarded(h, s, action.plan.value, Plain(c.result), t)
       case DoQueryActive =>
         ActiveQueried(h, s, Plain(c.result).(active := if c.currentActive.Some? then c.currentActive.value else None), t)
       case DoResumeQuery =>
         if action.mode.CurrentProgress? then
           t == s && (OwnedIn(s, action.expected) ==> c.result.Ok? && c.progress == Some(ProgressIn(s)))
         else ResumeWorked(h, s, action.expected.transaction, c, t)
       case DoWriteManifest =>
         OwnedIn(s, action.expected) ==>
           if action.bytes == [] then c.result.InvalidArgument? && t == s
           else ManifestWritten(h, s, action.bytes, Plain(c.result), t)
       case DoWriteBlock =>
         OwnedIn(s, action.expected) ==>
           if action.bytes == [] then c.result.InvalidArgument? && t == s
           else BlockWritten(h, s, action.blockIndex, action.bytes, Plain(c.result), t)
       case DoCommit => OwnedIn(s, action.expected) ==> CommitTried(h, s, Plain(c.result), t)
       case DoAbort => OwnedIn(s, action.expected) ==> AbortTried(h, s, Plain(c.result), t)
  }

  /** Every action answers under its own token, tells the truth when it succeeds, and loses
      an update in progress only by ending it. */
  twostate predicate Executed(store: SoundAssetStore, action: S.Action, c: S.Completion)
    reads store, store.storage
  {
    && store.Valid()
    && c.token == action.token && c.kind == action.kind
    && Worked(store.h, old(MemoryOf(store)), action, c, MemoryOf(store))
    && (c.result.Ok? ==> Reports(store, action, c))
    && (old(store.update).Some? && !Ends(c) && !action.kind.DoQueryActive? ==> UpdateKept(store))
    && old(store.storage.history) <= store.storage.history
  }

  /** Its truthful part alone. */
  ghost predicate Reported(store: SoundAssetStore, action: S.Action, c: S.Completion)
    reads store, store.storage
  {
    store.Valid() && c.token == action.token && c.kind == action.kind && (c.result.Ok? ==> Reports(store, action, c))
  }

  /** The one action that can damage a committed bundle. */
  predicate Damaging(store: SoundAssetStore, action: S.Action)
    reads store, store.storage
  {
    action.kind.DoWriteManifest? && Owned(store, action.expected) && store.Rewrites(action.bytes)
  }

  /** Actions of an open session name the transaction they mean. */
  predicate Guarded(action: S.Action) {
    || S.IsWrite(action.kind) || action.kind.DoCommit? || action.kind.DoAbort?
    || (action.kind.DoResumeQuery? && action.mode.CurrentProgress?)
  }

  /** A write, commit, abort or progress query that names another transaction than the one in
      progress is refused and touches nothing. */
  lemma ForeignRefused(h: Hashes, s: Memory, action: S.Action, c: S.Completion, t: Memory)
    requires Worked(h, s, action, c, t)
    requires || action.kind.DoWriteManifest? || action.kind.DoWriteBlock? || action.kind.DoCommit? || action.kind.DoAbort?
             || (action.kind.DoResumeQuery? && action.mode.CurrentProgress?)
    requires s.update.Some? ==>
               || s.update.value.generation != action.expected.generation || s.update.value.bank != action.expected.bank
               || s.update.value.transaction != action.expected.transaction
    ensures c.result.TransactionMismatch? && t == s && S.StatusOf(c.result).TransactionMismatch?
  {
    hide Begun, Discarded, ActiveQueried, ResumeWorked, ManifestWritten, BlockWritten, CommitTried, AbortTried;
  }

  /** execute_speaker_assets_store_action. A transaction that is not the store's own is
      refused before anything is touched. */
  method Execute(store: SoundAssetStore, action: S.Action) returns (done: bool, c: S.Completion)
    requires store.Valid()
    requires !Damaging(store, action)
    modifies store, store.storage
    ensures done <==> action.token != 0 && action.requestId != 0
    ensures !done ==> store.Valid() && MemoryOf(store) == old(MemoryOf(store))
    ensures done ==> Executed(store, action, c)
    ensures done && action.kind.DoCommit? && c.result.Ok? ==>
              && old(store.update).Some? && IdentityOf(old(store.update).value) == action.expected
              && ActiveOf(store.h, store.storage.image) == Some(SnapshotOf(old(store.update).value))
  {
    hide Reports, ActiveOf, SoundAssetStore.Valid, Worked;
    c := CompletionOf(action, StoreResult.InvalidArgument);
    if action.token == 0 || action.requestId == 0 { return false, c; }
    done := true;
    match action.kind
    case DoBegin => c := ExecuteBegin(store, action);
    case DoDiscard => c := ExecuteDiscard(store, action);
    case DoQueryActive => c := ExecuteQueryActive(store, action);
    case DoResumeQuery =>
      if action.mode.CurrentProgress? { c := ExecuteProgress(store, action); } else { c := ExecuteResume(store, action); }
    case DoWriteManifest => c := ExecuteWrite(store, action);
    case DoWriteBlock => c := ExecuteWrite(store, action);
    case DoCommit => c := ExecuteEnd(store, action);
    case DoAbort => c := ExecuteEnd(store, action);
  }

  method ExecuteBegin(store: SoundAssetStore, action: S.Action) returns (c: S.Completion)
    requires store.Valid() && action.kind.DoBegin?
    modifies store, store.storage
    ensures Executed(store, action, c)
  {
    hide SafeRun, SelectionSound, ReadSound, LeasesSound, UpdateSound, ActiveOf, PlanValid;
    c := CompletionOf(action, StoreResult.InvalidArgument);
    if action.plan.None? { return; }
    var a := StoreAnswers.DoBegin(store, action.plan.value);
    if !a.r.Ok? { return CompletionOf(action, a.r); }
    var r, progress := CaptureProgress(store);
    c := CompletionOf(action, r).(identity := a.identity, progress := progress);
  }

  method ExecuteDiscard(store: SoundAssetStore, action: S.Action) returns (c: S.Completion)
    requires store.Valid() && action.kind.DoDiscard?
    modifies store, store.storage
    ensures Executed(store, action, c)
  {
    hide SafeRun, SelectionSound, ReadSound, LeasesSound, UpdateSound, ActiveOf, PlanValid, DiscardVerdict, BeginVerdict, CommitOf;
    c := CompletionOf(action, StoreResult.InvalidArgument);
    if action.plan.None? { return; }
    var a := StoreAnswers.DoDiscard(store, action.plan.value);
    c := CompletionOf(action, a.r);
  }

  method ExecuteQueryActive(store: SoundAssetStore, action: S.Action) returns (c: S.Completion)
    requires store.Valid() && action.kind.DoQueryActive?
    modifies store, store.storage
    ensures Executed(store, action, c)
  {
    hide SafeRun, SelectionSound, ReadSound, LeasesSound, UpdateSound, ActiveOf, CommitOf;
    var a := StoreAnswers.DoQueryActive(store);
    c := CompletionOf(action, a.r);
    if a.r.Ok? { c := c.(currentActive := Some(a.active)); }
  }

  /** read_expected_progress */
  method ExpectedProgress(store: SoundAssetStore, expected: Identity) returns (r: StoreResult, progress: Option<S.Progress>)
    requires store.Valid()
    ensures r == if Owned(store, expected) then StoreResult.Ok else TransactionMismatch
    ensures progress == if r.Ok? then Some(ProgressNow(store)) else None
  {
    hide SoundAssetStore.Valid;
    r, progress := CaptureProgress(store);
    if r.Ok? && progress.value.identity != expected { return TransactionMismatch, None; }
  }

  method ExecuteProgress(store: SoundAssetStore, action: S.Action) returns (c: S.Completion)
    requires store.Valid() && action.kind.DoResumeQuery? && action.mode.CurrentProgress?
    ensures Executed(store, action, c)
  {
    hide SoundAssetStore.Valid, ActiveOf;
    var r, progress := ExpectedProgress(store, action.expected);
    c := CompletionOf(action, r);
    if r.Ok? { c := c.(progress := progress, identity := Some(progress.value.identity), outcome := Some(S.Active)); }
  }

  /** Rebinding to the update in memory, resuming a durable one, or telling how it ended. */
  method ExecuteResume(store: SoundAssetStore, action: S.Action) returns (c: S.Completion)
    requires store.Valid() && action.kind.DoResumeQuery? && action.mode.ResumeOrRebind?
    modifies store
    ensures Executed(store, action, c)
  {
    hide SafeRun, SelectionSound, ReadSound, LeasesSound, UpdateSound, ActiveOf, PlanValid, CommitOf, AllAre;
    var transaction := action.expected.transaction;
    c := CompletionOf(action, StoreResult.InvalidArgument);
    if AllAre(0, transaction) { return; }
    if store.update.Some? && store.update.value.transaction != transaction {
      c := ExecuteOutcome(store, action);
      return;
    }
    if store.update.None? {
      var a := StoreAnswers.DoResume(store, transaction);
      if a.r.TransactionMismatch? {
        c := ExecuteOutcome(store, action);
        return;
      }
      if !a.r.Ok? { return CompletionOf(action, a.r); }
    }
    var r, progress := CaptureProgress(store);
    c := CompletionOf(action, r).(progress := progress, identity := Some(progress.value.identity), outcome := Some(S.Active));
  }

  /** capture_transaction_outcome, for a transaction that is not the one in memory. */
  method ExecuteOutcome(store: SoundAssetStore, action: S.Action) returns (c: S.Completion)
    requires store.Valid() && action.kind.DoResumeQuery? && action.mode.ResumeOrRebind?
    requires store.update.Some? ==> store.update.value.transaction != action.expected.transaction
    modifies store
    ensures Reported(store, action, c)
    ensures OutcomeTold(store.h, old(MemoryOf(store)), action.expected.transaction, c, MemoryOf(store))
    ensures MemoryOf(store) == old(MemoryOf(store))
  {
    hide SafeRun, SelectionSound, ReadSound, LeasesSound, UpdateSound, ActiveOf, PlanValid, CommitOf, AllAre, BankView;
    var a := StoreAnswers.DoQueryOutcome(store, action.expected.transaction);
    c := CompletionOf(action, a.r);
    assert OutcomeQueried(store.h, old(MemoryOf(store)), action.expected.transaction,
                          Plain(c.result).(outcome := Some(a.outcome.value)), MemoryOf(store));
    if !a.r.Ok? { return; }
    match a.outcome.value
    case Active(_) =>
    case Committed(s) =>
      CommittedBank(store.h, s.bank, store.storage.image.At(s.bank));
      c := c.(identity := Some(Identity(s.generation, s.bank, s.transaction)), outcome := Some(S.Committed),
              outcomeManifestBytes := s.manifestBytes, outcomePayloadBytes := s.payloadBytes);
    case Unknown => c := c.(identity := Some(Identity(0, A, action.expected.transaction)), outcome := Some(S.NotRetained));
  }

  lemma CommittedBank(h: Hashes, id: BankId, bank: Bank)
    requires CommitOf(h, id, bank).Some?
    ensures CommitOf(h, id, bank).value.manifestBytes < 0x1_0000_0000 && CommitOf(h, id, bank).value.bank == id
  {
    hide ParseCommit;
  }

  method ExecuteWrite(store: SoundAssetStore, action: S.Action) returns (c: S.Completion)
    requires store.Valid() && S.IsWrite(action.kind) && !Damaging(store, action)
    modifies store, store.storage
    ensures Executed(store, action, c)
  {
    hide SafeRun, SelectionSound, ReadSound, LeasesSound, UpdateSound, ActiveOf, CommitOf, ManifestAccepted, BlockFits,
         BlockDurable, ManifestDurable, PlanValid;
    var r, _ := ExpectedProgress(store, action.expected);
    assert r.Ok? <==> OwnedIn(MemoryOf(store), action.expected);
    if !r.Ok? { return CompletionOf(action, r); }
    if action.bytes == [] { return CompletionOf(action, StoreResult.InvalidArgument); }
    NowIsWellFormed(store);
    if action.kind.DoWriteManifest? {
      var a := StoreAnswers.DoManifest(store, action.bytes);
      r := a.r;
    } else {
      var a := StoreAnswers.DoBlock(store, action.blockIndex, action.bytes);
      r := a.r;
    }
    if !r.Ok? { return CompletionOf(action, r); }
    var progress;
    r, progress := CaptureProgress(store);
    c := CompletionOf(action, r).(progress := progress);
  }

  method ExecuteEnd(store: SoundAssetStore, action: S.Action) returns (c: S.Completion)
    requires store.Valid() && (action.kind.DoCommit? || action.kind.DoAbort?)
    modifies store, store.storage
    ensures Executed(store, action, c)
    ensures action.kind.DoCommit? && c.result.Ok? ==>
              && old(store.update).Some? && IdentityOf(old(store.update).value) == action.expected
              && ActiveOf(store.h, store.storage.image) == Some(SnapshotOf(old(store.update).value))
  {
    hide SafeRun, SelectionSound, ReadSound, LeasesSound, UpdateSound, ActiveOf, CommitOf, StagingOf;
    var r, _ := ExpectedProgress(store, action.expected);
    if !r.Ok? { return CompletionOf(action, r); }
    var a;
    if action.kind.DoCommit? { a := StoreAnswers.DoCommit(store); } else { a := StoreAnswers.DoAbort(store); }
    c := CompletionOf(action, a.r);
  }
}
