# Verified models of the Easy Input firmware logic

Dafny models of the host-testable logic of a keyboard firmware, with proofs. Each module
follows one source file (or one part of it): objects with mutable fields are classes, loops
are loops, and pure computations are functions. Outcomes of foreign calls (flash, radio, USB
stack, worker scheduling) are nondeterministic.

## What is modelled

1. **Crash-safe two-bank sound store** — `Flash`, `SoundFormat`, `RecordLayout` (where every
   byte of a record is), `SoundBanks`, `CrashInvariant`, `BankChecks`, `StoreView`, `UpdateSteps`, `UnitShapes`, `SoundStore`,
   `StoreAnswers`, `StoreRuns`, `StoreRecovery`.
   Programming only clears bits, and any write or erase may stop after any prefix and may
   report a fault or not. `FlashStorage.history` records the image after every attempt.
   `SoundAssetStore.Valid` ties memory (selection, leases, progress flags) to the image and
   says that the whole history is a safe run. `StoreAnswers` states what each request answers
   and leaves behind. `StoreRuns.Lifetime` draws the conclusion: from a blank device, through any requests,
   faults, torn mutations and reboots, every request gets its answer, the strict scan and the
   fast boot read agree, split brain never occurs, and generations only grow, up to
   the first request of one exactly described kind. `StoreRecovery.Recover`: an upload that
   is interrupted anywhere and retried publishes exactly the planned update with exactly the
   client's bytes, if the plan's hashes tell each of its units from what a cut erase or write
   leaves of it, which the client can check.
2. **Upload protocol** — `Crc32`, `PlanWire`, `Assemblers` (codecs and reassembly), `Session`
   (tokens, cookies, replay), `SessionAnswers` (what each answer tells the client),
   `SessionMemory` (at most once over whole runs),
   `SessionUploads` (a client's fragments end to end), `StoreExecutor`, `UploadService`
   and `EarnedAnswers` (session and store joined by the executor, over whole lifetimes: a
   client never hears of a success that did not happen), `Runtime` and
   `Supervisor` (admission leases), `ChunkedStorage` and `PermitExchange` (bounded units
   under permits).
3. **Keyboard delivery** — `HidQueue`, `HidReservation`, `HeldKeyboard`, `SnapshotDelivery`,
   `BleScheduler`, `SchedulerRuns` (polls over whole runs), `KeyboardPipeline` (the chain put
   together), `InputReservation` and `ReservationWitness` (keys and hotkeys on one queue),
   `Transport`, `FixedText`, `FixedTextRuns`, `Generations`.
4. **Decoder and push-to-talk** — `Eiad` (batch and streaming IMA ADPCM decoders),
   `EiadWriter` (the resources they invert),
   `CodexSlots` (slot machine and device simulator).

A lemma named `…Means` or `…Layout` states in plain numbers and equations what a function
that both a method and its contract use stands for.

`Bytes` holds bytes, little-endian numbers, records and bits.

## Where the code does not do what one would expect

Each of these is a proved statement about the code as it is.

- **A resent manifest can take a committed bundle away.** `commit_update` verifies the
  manifest itself and never raises `manifest_complete_`. After a read fault in
  `write_manifest` (flag stays down) and another one after the marker is programmed (update
  stays active), the update is committed in flash and its manifest is not flagged: the state
  `Exposed`. `StoreRuns.Expose` drives every upload there whose plan describes its bytes.
  `write_manifest` then starts by erasing the committed manifest, and the strict scan falls back to an older generation
  (`StoreRuns.RewriteRegresses`; `UnsafeLifetime` is a whole run). That is the only way:
  `Lifetime` and `UploadService.Life` are crash safe up to the first manifest sent again in
  that state, and commits need no condition.
- **A key pressed while the report queue is fully spoken for can make a later key release
  fail.** The slots kept free for releases suffice exactly as long as no key press is applied
  while the slots in use, the keys held and the hotkeys down add up to the capacity
  (`InputReservation.Run`); such a press never gets a slot of its own, stays in the held
  state, and rides on the next release, which is why the queue can then grow without a key
  coming up. `ReservationWitness.PressAtFullLoadStarves` is such a run;
  `InputReservation.ReservationIsExact` says that the sum is the right measure. A hotkey
  release, which may not take the last slot, can also wait inside the reservation, but only as
  the last thing held (`HotkeyUpRefused`, `LoneHotkeyWaits`). Letting go of everything is never
  refused within one endpoint lifetime (`HidReservation.AllReleasedAlwaysAccepted`).
- **An oversized wheel movement is cut without being reported as saturated** exactly when it
  does not join the tail (`HidQueue.MouseWheelQueue.Push`, `LossShown`).
- **A reservation can outlive its frame.** A lease is lost exactly when the owner applies a
  close of its route while the frame or its reply is queued there
  (`Supervisor.ResourceSupervisor.Step`). That can only happen to a frame admitted while that
  close was under way, out of the mailbox and not yet applied
  (`Supervisor.ResourceSupervisor.NoStuckReservation`); the reservation then stays until the
  route is closed once more (`Supervisor.LeaseLost`).
- **A retry may come sooner than the delivery period**, exactly when the period is longer than
  the maximum backoff (`BleScheduler.BackoffKeepsPeriod`). With the default settings it cannot
  (`DefaultsKeepPeriod`).

Some answers turn out to be unreachable: under the invariant the store never reports split
brain, a mismatching commit, or staging that decodes without being self-authentic, and the
executor never meets an identity different from the one it just read.

## Model

| member | source | states |
|---|---|---|
| `Flash.FlashStorage.Read` | `firmware/host_test/sound_asset_store_tests.cpp:399-472` | A read in range returns exactly the bytes of the image or a fault; it cannot fail while the medium is readable and cannot succeed once it is deaf. |
| `Flash.FlashStorage.Write` | `firmware/host_test/sound_asset_store_tests.cpp:399-472` | Programming leaves some prefix of the source, all of it on Ok; bits are never set; every attempt, torn or not, is added to the history. |
| `Flash.FlashStorage.Erase` | `firmware/host_test/sound_asset_store_tests.cpp:399-472` | Erasing is sector aligned and leaves some prefix erased, all of it on Ok. |
| `Flash.RetryIsProgrammable` | `firmware/host_test/sound_asset_store_tests.cpp:399-472` | A range that is erased or already holds the wanted bytes can be programmed again: a torn write can be repeated. |
| `SoundFormat.StagingRoundTrip` | `firmware/features/speaker_assets/sound_asset_store.cpp:516-643` | A staging header decodes back to the update it was made from, and starts with its magic. |
| `SoundFormat.StagingNeedsMagic` | `firmware/features/speaker_assets/sound_asset_store.cpp:571-643` | Without all four magic bytes nothing decodes as a staging header, whatever the CRC says. |
| `SoundFormat.CommitRoundTrip` | `firmware/features/speaker_assets/sound_asset_store.cpp:645-799` | Body plus marker decode back to the snapshot they were made from. |
| `SoundFormat.CommitNeedsVersion` | `firmware/features/speaker_assets/sound_asset_store.cpp:698-799` | A record whose first byte is gone never decodes, so erasing the commit sector takes effect with its first byte. |
| `SoundFormat.DeriveTransaction` | `firmware/features/speaker_assets/sound_asset_store.cpp:424-514` | A transaction id is never all zero, even when both halves of the digest are. |
| `SoundFormat.TransactionBinds` | `firmware/features/speaker_assets/sound_asset_store.cpp:424-476` | What is hashed for a transaction id determines bank, generation, base, sizes and digests: two updates share an id only if these agree or the hash collides. |
| `SoundFormat.TransactionIsDigest` | `firmware/features/speaker_assets/sound_asset_store.cpp:484-514` | The id is the first half of that digest, or its second half where the first is all zero, or one last bit where both are. |
| `SoundFormat.SnapshotMeans` | `firmware/features/speaker_assets/sound_asset_store.cpp:645-696` | A commit record names bank, generation, base, transaction, sizes and digests of exactly its update. |
| `RecordLayout.StagingLayout` | `firmware/features/speaker_assets/sound_asset_store.cpp:516-569` | Where every field of a staging header is, byte by byte and little-endian, with its CRC last. |
| `RecordLayout.StagingIsCanonical` | `firmware/features/speaker_assets/sound_asset_store.cpp:571-643` | Only the encoding of an update decodes as it: no second header means the same. |
| `RecordLayout.CommitLayout` | `firmware/features/speaker_assets/sound_asset_store.cpp:645-696` | Where every field of a commit record is, its CRC, and the marker with the CRC and its inverse. |
| `RecordLayout.CommitIsCanonical` | `firmware/features/speaker_assets/sound_asset_store.cpp:698-799` | Only the encoding of a snapshot decodes as it. |
| `RecordLayout.PlanLimits` | `firmware/features/speaker_assets/sound_asset_store.cpp:374-410` | Exactly which plans are valid, number by number. |
| `RecordLayout.PlanLayout` | `firmware/features/speaker_assets/speaker_assets_protocol.cpp:326-363` | Where every field of an encoded plan is, and what its CRC covers. |
| `RecordLayout.PlanRefusals` | `firmware/features/speaker_assets/speaker_assets_protocol.cpp:365-414` | Each way an encoding can be wrong (length, magic, version, length field, CRC, limits) is refused. |
| `SoundBanks.Validate` | `firmware/features/speaker_assets/sound_asset_store.cpp:946-999` | Strict validation answers Ok only for a bank whose commit record decodes and whose bytes hash to both digests of that record, and otherwise with one of the non-fatal verdicts. |
| `SoundBanks.ValidMeansAuthentic` | `firmware/features/speaker_assets/sound_asset_store.cpp:946-999` | A bank that validates holds a canonical manifest with the digest in its record, a bundle with the digest in its record, and erased bytes behind both. |
| `SoundBanks.WrongDigestIsMismatch` | `firmware/features/speaker_assets/sound_asset_store.cpp:840-858` | A grammatical bank whose manifest or bundle hashes to anything else is a hash mismatch and is not served. |
| `SoundBanks.ServedIsAuthentic` | `firmware/features/speaker_assets/sound_asset_store.cpp:1043-1089` | Whatever the strict scan serves hashes to both digests it is announced with. |
| `SoundBanks.DispositionMeans` | `firmware/features/speaker_assets/sound_asset_store.cpp:927-945` | A split refuses reading, a bundle allows it, and a device without one says whether both records are blank. |
| `SoundBanks.BundleInputInjective` | `firmware/features/speaker_assets/sound_asset_format.cpp:700-800` | What is hashed for the bundle digest determines manifest and payload, so the digest binds both and where one ends. |
| `SoundBanks.SelectPicksNewest` | `firmware/features/speaker_assets/sound_asset_store.cpp:1001-1041` | Of two banks the newer one is served exactly when their generations are consecutive or they hold the same bundle; otherwise it is split brain, in either order of the banks. |
| `CrashInvariant.ScansAgree` | `firmware/features/speaker_assets/sound_asset_store.cpp:1046-1089` | In every image that satisfies the invariant the strict scan and the fast boot read select the same complete bundle, and split brain is impossible. |
| `CrashInvariant.GenerationsNeverDecrease` | `firmware/host_test/sound_asset_store_tests.cpp:1664-1703` | Over a whole history the selected generation never decreases, and one generation is only ever served by one bundle. |
| `CrashInvariant.EraseRecordStep` | `firmware/features/speaker_assets/sound_asset_store.cpp:1225-1244` | Erasing the old commit sector, cut anywhere, keeps the invariant and the served bundle. |
| `CrashInvariant.EraseBankStep` | `firmware/features/speaker_assets/sound_asset_store.cpp:1245-1257` | Erasing the rest of the target, cut anywhere, keeps them too, and destroys the staging header with the first byte. |
| `CrashInvariant.HeaderStep` | `firmware/features/speaker_assets/sound_asset_store.cpp:1273-1301` | Programming the header without its magic, cut anywhere, leaves no staging. |
| `CrashInvariant.MagicStep` | `firmware/features/speaker_assets/sound_asset_store.cpp:1302-1317` | The header counts exactly when the fourth magic byte is in flash. |
| `CrashInvariant.ManifestOverwrite` | `firmware/features/speaker_assets/sound_asset_store.cpp:1786-1804` | Writing or erasing manifest bytes keeps a prepared bank prepared as long as the manifest is not marked. |
| `CrashInvariant.BlockOverwrite` | `firmware/features/speaker_assets/sound_asset_store.cpp:1851-1869` | Writing one unmarked block keeps the bank prepared and changes no other block. |
| `CrashInvariant.JournalOverwrite` | `firmware/features/speaker_assets/sound_asset_store.cpp:2304-2332` | A journal byte may be programmed exactly because each newly cleared bit stands for a durable unit. |
| `CrashInvariant.ContentStep` | `firmware/features/speaker_assets/sound_asset_store.cpp:1736-1870` | Content mutations of a live update keep the invariant and the served bundle. |
| `CrashInvariant.TornRecordCommits` | `firmware/features/speaker_assets/sound_asset_store.cpp:698-799` | A torn commit record decodes only when every one of its 144 bytes is there, and then to exactly that update. |
| `CrashInvariant.RecordStep` | `firmware/features/speaker_assets/sound_asset_store.cpp:1914-1957` | Programming body or marker, cut anywhere: the base is served until the record is complete, and then the verified successor. |
| `CrashInvariant.AbortStep` | `firmware/features/speaker_assets/sound_asset_store.cpp:1978-2014` | Withdrawing an update, cut anywhere, keeps the served bundle and the journal. |
| `BankChecks.ReadRegion` | `firmware/features/speaker_assets/sound_asset_store.cpp:172-200` | Reading a region in buffers of at most 256 bytes returns exactly its bytes, or a fault. |
| `BankChecks.VerifyErased` | `firmware/features/speaker_assets/sound_asset_store.cpp:172-200` | Ok means every byte of the region is erased, InvalidBank that some byte is not. |
| `BankChecks.ReadCommit` | `firmware/features/speaker_assets/sound_asset_store.cpp:698-799` | Reading body and marker separately gives the verdict of the whole record, and a snapshot only on Ok. |
| `BankChecks.CheckContent` | `firmware/features/speaker_assets/sound_asset_store.cpp:813-858` | Manifest grammar and digests are judged on the bytes in flash, by the verdict of strict validation (`SoundBanks.WrongDigestIsMismatch`), or a fault is reported. |
| `BankChecks.CheckTails` | `firmware/features/speaker_assets/sound_asset_store.cpp:946-999` | The unused rest of every region must be erased; a fault outranks programmed bytes. |
| `BankChecks.ValidateBank` | `firmware/features/speaker_assets/sound_asset_store.cpp:946-999` | The stepwise check refines strict validation of the image; it is Ok exactly when it returns a snapshot. |
| `BankChecks.CheckReadCandidate` | `firmware/features/speaker_assets/sound_asset_store.cpp:860-917` | The cold-start check looks at the manifest digest only. |
| `BankChecks.VerifyManifest` | `firmware/features/speaker_assets/sound_asset_store.cpp:2240-2262` | Ok means CRC and digest of the manifest in flash are those of the plan. |
| `BankChecks.VerifyBlock` | `firmware/features/speaker_assets/sound_asset_store.cpp:2264-2286` | A block is reported complete exactly when it could be read and its CRC is the planned one. |
| `StoreView.BusyMeansForeign` | `firmware/features/speaker_assets/sound_asset_store.cpp:1325-1479` | Begin is refused as busy exactly when another valid pending transaction owns the target. |
| `StoreView.AdmissionMeans` | `firmware/features/speaker_assets/sound_asset_store.cpp:1355-1386` | A plan is admitted exactly on the bundle it names, generation and digest, or on none when it names none; otherwise it is a stale base, before exhaustion and leases are looked at. |
| `StoreView.NextMeans` | `firmware/features/speaker_assets/sound_asset_store.cpp:1355-1398` | The one update a plan may become: the next generation, in the bank that is not served, under the derived id. |
| `StoreView.LiveBase` | `firmware/features/speaker_assets/sound_asset_store.cpp:1196-1219` | While no record is written, an update under way is built on exactly the bundle being served, generation and digest. |
| `StoreView.BeginMeans` | `firmware/features/speaker_assets/sound_asset_store.cpp:1325-1479` | What the staging area says to an admitted plan: begin meets unreadable staging exactly when it is neither blank nor an authentic header; discard is refused exactly where there is something to lose. |
| `CrashInvariant.DurableMeans` | `firmware/features/speaker_assets/sound_asset_store.cpp:2240-2286` | Durable means the planned CRC and digest of exactly the bytes of that unit in flash. |
| `CrashInvariant.JournalLayout` | `firmware/features/speaker_assets/sound_asset_store.cpp:2304-2332` | One byte marks the manifest, then one bit a block, eight to a byte from the lowest on, cleared when complete. |
| `StoreView.DiscardUnblocks` | `firmware/features/speaker_assets/sound_asset_store.cpp:1580-1734` | Where begin meets unreadable staging, discard is allowed and the same begin succeeds on the erased bank: one discard is always enough. |
| `StoreView.OthersKept` | `firmware/features/speaker_assets/sound_asset_store.cpp:1736-1870` | Mutating the bank under update leaves the selection, the read selection and every lease true. |
| `StoreView.LeasesKept` | `firmware/features/speaker_assets/sound_asset_store.cpp:2498-2506` | Mutating a bank without leases leaves every lease live. |
| `UpdateSteps.ManifestMutation` | `firmware/features/speaker_assets/sound_asset_store.cpp:1786-1804` | Any prefix of a manifest write keeps the update live and its progress flags true. |
| `UpdateSteps.BlockMutation` | `firmware/features/speaker_assets/sound_asset_store.cpp:1851-1869` | Any prefix of a block write keeps the update live and every flag of another block true. |
| `UpdateSteps.MarkManifestMutation` | `firmware/features/speaker_assets/sound_asset_store.cpp:2304-2311` | Marking the manifest changes no content and stays justified. |
| `UpdateSteps.MarkBlockMutation` | `firmware/features/speaker_assets/sound_asset_store.cpp:2313-2332` | The read-modify-write of a journal byte clears one bit and no other, changes no content and stays justified. |
| `UpdateSteps.RecordMutation` | `firmware/features/speaker_assets/sound_asset_store.cpp:1914-1957` | Any prefix of the commit record over verified content commits exactly when the record is complete. |
| `UpdateSteps.RecordIsProgrammable` | `firmware/features/speaker_assets/sound_asset_store.cpp:1914-1957` | A commit that was cut can always be programmed again. |
| `UpdateSteps.AbortMutation` | `firmware/features/speaker_assets/sound_asset_store.cpp:1978-2014` | A cut abort leaves the update live; a finished one leaves no staging. |
| `UpdateSteps.StagedIsLive` | `firmware/features/speaker_assets/sound_asset_store.cpp:2150-2238` | Whatever staging a crash left behind with the right base and generation is a live update. |
| `SoundStore.SoundAssetStore.constructor` | `firmware/features/speaker_assets/sound_asset_store.cpp:1046-1089` | A reboot over any safe history yields a sound store without update and without leases. |
| `SoundStore.SoundAssetStore.Scan` | `firmware/features/speaker_assets/sound_asset_store.cpp:1046-1089` | A scan publishes the strict selection of the image, is refused during an update, and fails only on faults. |
| `SoundStore.SoundAssetStore.QueryCurrentActive` | `firmware/features/speaker_assets/sound_asset_store.cpp:1095-1172` | The reconciliation query answers with the active bundle of the flash, never from memory, and ends an update exactly when its record turns out complete. |
| `SoundStore.SoundAssetStore.QueryTransactionOutcome` | `firmware/features/speaker_assets/sound_asset_store.cpp:1527-1578` | Active names the update in memory, Committed a bank that holds the transaction, Unknown that no visible bank does. |
| `SoundStore.SoundAssetStore.UpdateProgress` | `firmware/features/speaker_assets/sound_asset_store.cpp:2118-2148` | Every unit reported complete is durable in flash. |
| `SoundStore.SoundAssetStore.ScanCommittedContent` | `firmware/features/speaker_assets/sound_asset_store.cpp:1046-1089` | The cold-start scan answers Ok exactly when it found an active bundle, and is refused during an update. |
| `SoundStore.SoundAssetStore.AcquireActiveRead` | `firmware/features/speaker_assets/sound_asset_store.cpp:2016-2085` | A lease pins the bundle that is served, under an id no live lease has, in one free slot. |
| `SoundStore.SoundAssetStore.ReleaseRead` | `firmware/features/speaker_assets/sound_asset_store.cpp:2087-2104` | Exactly the lease that was handed out is released, once: a released one is not accepted again until its 64-bit id is reissued. |
| `SoundStore.SoundAssetStore.LoadStaging` | `firmware/features/speaker_assets/sound_asset_store.cpp:2150-2238` | Adopting staging gives the update in flash, and flags that are true exactly for the durable units. |
| `SoundStore.SoundAssetStore.ResumeUpdate` | `firmware/features/speaker_assets/sound_asset_store.cpp:1481-1525` | Resume adopts exactly the transaction asked for, reports exactly the durable units and does not touch flash. |
| `SoundStore.SoundAssetStore.EraseRecord` | `firmware/features/speaker_assets/sound_asset_store.cpp:1225-1244` | Reclaiming the target starts with its commit sector and keeps the served bundle. |
| `SoundStore.SoundAssetStore.EraseRest` | `firmware/features/speaker_assets/sound_asset_store.cpp:1245-1257` | Ok means the whole target was read back erased. |
| `SoundStore.SoundAssetStore.WriteHeaderBody` | `firmware/features/speaker_assets/sound_asset_store.cpp:1273-1301` | Ok means all of the header but its magic was read back. |
| `SoundStore.SoundAssetStore.WriteMagic` | `firmware/features/speaker_assets/sound_asset_store.cpp:1302-1323` | The update becomes active in memory exactly when its magic is in flash. |
| `SoundStore.SoundAssetStore.Reclaim` | `firmware/features/speaker_assets/sound_asset_store.cpp:1225-1257` | Both erases of the target: Ok says the whole bank reads back erased, and no other bank and no active bundle is touched at any cut. |
| `SoundStore.SoundAssetStore.WriteHeader` | `firmware/features/speaker_assets/sound_asset_store.cpp:1273-1323` | Header body, read-back, magic: the update exists exactly when the answer is Ok, and whatever was cut, a staged bank holds nothing but its header. |
| `SoundStore.SoundAssetStore.BeginNew` | `firmware/features/speaker_assets/sound_asset_store.cpp:1174-1323` | With all checks of its own: the answer is the verdict of the image, a start yields the one successor of the active bundle, on a plan that names exactly that bundle as its base, with nothing complete, and never touches the other bank; a plan on any other base is StaleBase and changes nothing. |
| `SoundStore.SoundAssetStore.BeginOrResume` | `firmware/features/speaker_assets/sound_asset_store.cpp:1325-1479` | The result is the verdict of the image; a success has the plan's base generation and base digest equal to those of the active bundle, and any other base is StaleBase with no mutation; a pending transaction is resumed without a mutation, an active one is only confirmed, leased banks keep every byte, and a begin that is cut never leaves a transaction that is busy for its own plan. |
| `SoundStore.SoundAssetStore.DiscardInvalidStaging` | `firmware/features/speaker_assets/sound_asset_store.cpp:1580-1734` | Only unreadable staging is ever erased, and after a successful discard begin succeeds. |
| `SoundStore.SoundAssetStore.WriteManifest` | `firmware/features/speaker_assets/sound_asset_store.cpp:1736-1805` | A complete manifest is never rewritten; a written one is the client's bytes; the served bundle stays, except when the planned manifest is sent again in the exposed state, where the first mutation erases the committed manifest; a failed read-back leaves it durable and unreported. |
| `SoundStore.SoundAssetStore.WritePayloadBlock` | `firmware/features/speaker_assets/sound_asset_store.cpp:1807-1870` | A complete block is never rewritten, a written one is the client's bytes and durable, and no other flag changes. |
| `SoundStore.SoundAssetStore.ProgramRecord` | `firmware/features/speaker_assets/sound_asset_store.cpp:1914-1957` | Ok means this part of the record was read back, whatever the write reported. |
| `SoundStore.SoundAssetStore.RefreshAfterCommit` | `firmware/features/speaker_assets/sound_asset_store.cpp:2345-2382` | The new selection is strict, and ends the update. |
| `SoundStore.SoundAssetStore.VerifyAllBlocks` | `firmware/features/speaker_assets/sound_asset_store.cpp:2288-2302` | Ok exactly when every planned block is durable; no complete block is forgotten. |
| `SoundStore.SoundAssetStore.VerifyUpdate` | `firmware/features/speaker_assets/sound_asset_store.cpp:1876-1912` | What a commit checks first is the verdict of the flash, and changes nothing in it. |
| `SoundStore.SoundAssetStore.Publish` | `firmware/features/speaker_assets/sound_asset_store.cpp:1939-1976` | The served bundle is either the old one or exactly the committed one. |
| `SoundStore.SoundAssetStore.CommitUpdate` | `firmware/features/speaker_assets/sound_asset_store.cpp:1872-1976` | The verdict is Ok exactly when flash holds what the plan says: manifest CRC and digest, every block CRC, the grammar, and the bundle digest over manifest and payload; a success keeps and serves exactly that, a refused commit mutates nothing, and a failed one keeps every flag, even when its record is complete and only the read-back failed. |
| `SoundStore.CommitMeans` | `firmware/features/speaker_assets/sound_asset_store.cpp:1872-1912` | The verdict of a commit equation by equation: checksums of manifest and blocks, grammar, manifest digest, bundle digest; a bundle digest that differs is a hash mismatch. |
| `SoundStore.PlannedKept` | `firmware/features/speaker_assets/sound_asset_store.cpp:1914-1957` | Writing the commit record changes none of the bytes those equations are about. |
| `SoundStore.SoundAssetStore.AbortUpdate` | `firmware/features/speaker_assets/sound_asset_store.cpp:1978-2014` | An uncommitted update is withdrawn, a committed one is recognised; the served bundle stays. |
| `SoundStore.VerifyProgress` | `firmware/features/speaker_assets/sound_asset_store.cpp:2150-2238` | Reading everything back gives flags that are true exactly for the durable units. |
| `SoundStore.FastScan` | `firmware/features/speaker_assets/sound_asset_store.cpp:2384-2496` | The cold-start selection computed with faults is the fast selection of the image. |
| `SoundStore.UpdateFound` | `firmware/features/speaker_assets/sound_asset_store.cpp:2345-2382` | The update is found active exactly when its record is complete. |
| `SoundStore.SomeCandidateFree` | `firmware/features/speaker_assets/sound_asset_store.cpp:2036-2084` | Eight lease slots with one free cannot use up all ids that are tried. |
| `SoundStore.FreshId` | `firmware/features/speaker_assets/sound_asset_store.cpp:2036-2084` | The next lease id is not zero and is used by no live lease. |
| `StoreAnswers.DoBegin` | `firmware/features/speaker_assets/sound_asset_store.cpp:1325-1479` | The answer of begin and the state it leaves, as a relation: idempotent in memory, the verdict of the image otherwise. |
| `StoreAnswers.DoResume` | `firmware/features/speaker_assets/sound_asset_store.cpp:1481-1525` | Resume adopts exactly the durable transaction it names and writes nothing. |
| `StoreAnswers.DoDiscard` | `firmware/features/speaker_assets/sound_asset_store.cpp:1580-1662` | Discard erases unreadable staging alone, and the begin that was refused is then admitted. |
| `StoreAnswers.DoManifest` | `firmware/features/speaker_assets/sound_asset_store.cpp:1736-1805` | Refused, kept or written: a success has the sent bytes or an already complete manifest in flash. |
| `StoreAnswers.DoBlock` | `firmware/features/speaker_assets/sound_asset_store.cpp:1807-1870` | The same for a block, with the flags of all other blocks unchanged. |
| `StoreAnswers.DoCommit` | `firmware/features/speaker_assets/sound_asset_store.cpp:1872-1976` | The answer is the verdict of flash; a success serves the update and a refusal writes nothing. |
| `StoreAnswers.DoAbort` | `firmware/features/speaker_assets/sound_asset_store.cpp:1978-2014` | A finished abort leaves no staging of an uncommitted update and nothing of a committed one is touched. |
| `StoreAnswers.Serve` | `firmware/features/speaker_assets/sound_asset_store.cpp:1046-2104` | Every request has its answer and leaves the store sound, whatever the flash does, except the planned manifest sent again in the exposed state. |
| `StoreRuns.Lifetime` | `firmware/host_test/sound_asset_store_tests.cpp:1664-1703` | From a factory-blank device through any requests, commits at any time, faults, cuts and reboots: each request gets its answer in the state the one before left, and the whole history is crash safe, with both digests of the served bundle true of its bytes at every instant, up to the first rewrite in the exposed state. |
| `StoreRuns.SafeRunsAreCrashSafe` | `firmware/host_test/sound_asset_store_tests.cpp:1733-1798` | Safe histories have agreeing scans, no split brain and growing generations at every instant. |
| `StoreRuns.ExposedRewriteRegresses` | `firmware/features/speaker_assets/sound_asset_store.cpp:1736-1805` | From the exposed state a resent manifest takes the served bundle away: the strict scan falls back to an older generation. |
| `StoreRuns.RewriteRegresses` | `firmware/features/speaker_assets/sound_asset_store.cpp:1736-1805` | The guard is exact: on flash that erases, the planned manifest sent again in any exposed state ends crash safety. |
| `StoreRuns.Expose` | `firmware/features/speaker_assets/sound_asset_store.cpp:1872-1976` | Two failed read-backs, one of the manifest and one of the commit marker, lead any upload whose plan describes its bytes into the exposed state, whatever its hashes. |
| `StoreRuns.UnsafeLifetime` | `firmware/features/speaker_assets/sound_asset_store.cpp:1736-1976` | A whole lifetime from a blank device, with its faults spelled out, that is not crash safe. |
| `StoreRuns.SomePlan` | `firmware/features/speaker_assets/sound_asset_store.cpp:387-410` | With the CRC-32 of the firmware every payload has a plan that describes it. |
| `StoreRuns.Upload` | `firmware/host_test/sound_asset_store_tests.cpp:693-863` | Retrying one plan on healthy flash from whatever a crash left behind ends, with at most one discard, with the planned bundle active and exactly the client's bytes in flash; only units that were durable before are taken on trust. |
| `StoreRuns.UploadContent` | `firmware/host_test/sound_asset_store_tests.cpp:1307-1412` | Sending every unit leaves exactly the client's manifest and payload in flash, rewriting no unit that is already complete. |
| `StoreRuns.DurableIsContent` | `firmware/host_test/sound_asset_store_tests.cpp:1431-1508` | A bank whose durable units are the client's own, all of them durable, holds the client's manifest and payload. |
| `StoreRuns.CommitAccepts` | `firmware/features/speaker_assets/sound_asset_store.cpp:1872-1976` | A bank that holds what the plan describes passes every check of a commit. |
| `UnitShapes.ErasedFurther` | `firmware/features/speaker_assets/sound_asset_store.cpp:1786-1790` | A cut erase of a torn unit leaves a torn unit: erased, then bytes of the unit, then erased. |
| `UnitShapes.ProgrammedPart` | `firmware/features/speaker_assets/sound_asset_store.cpp:1791-1798` | A cut write of an erased unit leaves a torn unit. |
| `UnitShapes.OneSector` | `firmware/features/speaker_assets/sound_asset_store.cpp:1851-1870` | Nothing in one payload sector touches another block. |
| `StoreRecovery.TornIsGenuine` | `firmware/features/speaker_assets/sound_asset_store.cpp:2150-2238` | When no torn unit passes its hashes, the units found durable after any cut are the client's own. |
| `StoreRecovery.SomeUploadIsNoticed` | `firmware/features/speaker_assets/sound_asset_store.cpp:331-370` | With the CRC-32 of the firmware uploads of every size meet that condition. |
| `StoreRecovery.AdoptedIsOwn` | `firmware/features/speaker_assets/sound_asset_store.cpp:1481-1525` | Named by its transaction, only the client's own update can be adopted. |
| `StoreRecovery.VerifiedIsContent` | `firmware/features/speaker_assets/sound_asset_store.cpp:1872-1912` | A commit that passes its checks has the client's bytes in flash. |
| `StoreRecovery.LiveIsHalfway` | `firmware/features/speaker_assets/sound_asset_store.cpp:2150-2238` | While an update is under way nothing foreign is on its bank. |
| `StoreRecovery.HalfwayAdmits` | `firmware/features/speaker_assets/sound_asset_store.cpp:1325-1479` | On the unchanged base, without leases and without anything foreign, begin answers Ok or InvalidStaging, never Busy. |
| `StoreRecovery.OwnServe` | `firmware/features/speaker_assets/sound_asset_store.cpp:1046-2104` | Each request of the plan's own client, resumes by transaction included, cut anywhere, is answered as the store answers and leaves the plan published, or its base served with nothing foreign in the way; every unit is erased, written or cut in between, and once published all bytes are there. |
| `StoreRecovery.Interrupted` | `firmware/host_test/sound_asset_store_tests.cpp:693-863` | After any run of the plan's own client, request by request, cut anywhere, and a reboot: begin answers Ok or InvalidStaging, or the outcome query answers that its transaction is committed; units then found durable are the client's own. |
| `StoreRecovery.Recover` | `firmware/host_test/sound_asset_store_tests.cpp:693-863` | An upload interrupted anywhere and then retried ends, with at most one discard, with exactly the planned update active and exactly the client's bytes in flash, when no torn unit passes for a whole one. |
| `StoreExecutor.CaptureProgress` | `firmware/features/speaker_assets/speaker_assets_store_executor.cpp:37-48` | Progress is read from memory and is exactly the store's flags. |
| `StoreExecutor.ExpectedProgress` | `firmware/features/speaker_assets/speaker_assets_store_executor.cpp:24-35` | Ok exactly when the store's update is the transaction the action names. |
| `StoreExecutor.Execute` | `firmware/features/speaker_assets/speaker_assets_store_executor.cpp:97-268` | Each action is one request of the store with that request's answer; a transaction that is not the store's own is refused with nothing touched; every completion carries the token and kind of its action; successes report what is true of the store; a successful commit serves that transaction; an update is lost only by ending it. Only a rewrite in the exposed state is excluded. |
| `StoreExecutor.ExecuteBegin` | `firmware/features/speaker_assets/speaker_assets_store_executor.cpp:112-135` | A successful begin reports the identity and progress of an update with the requested plan. |
| `StoreExecutor.ExecuteResume` | `firmware/features/speaker_assets/speaker_assets_store_executor.cpp:166-226` | Resume rebinds to the update in memory, adopts a durable one, or tells how the transaction ended. |
| `StoreExecutor.ExecuteOutcome` | `firmware/features/speaker_assets/speaker_assets_store_executor.cpp:50-93` | Committed is reported only for a transaction that a bank holds. |
| `StoreExecutor.ExecuteWrite` | `firmware/features/speaker_assets/speaker_assets_store_executor.cpp:227-251` | A successful write reports its unit complete. |
| `StoreExecutor.ExecuteEnd` | `firmware/features/speaker_assets/speaker_assets_store_executor.cpp:252-266` | Commit and abort end exactly the transaction they name. |
| `StoreExecutor.Believed` | `firmware/features/speaker_assets/speaker_assets_store_executor.cpp:97-268` | The session accepts every success the executor reports: no honest completion breaks its contract. |
| `StoreExecutor.ForeignRefused` | `firmware/features/speaker_assets/speaker_assets_store_executor.cpp:24-35` | A write, commit, abort or progress query that names another transaction than the one in progress is a transaction mismatch and touches nothing. |
| `StoreExecutor.ProgressMeans` | `firmware/features/speaker_assets/speaker_assets_store_executor.cpp:37-48` | Reported progress is identity, sizes and digest of the update and its flags as they are. |
| `StoreExecutor.TrackedIsDurable` | `firmware/features/speaker_assets/sound_asset_store.cpp:2118-2148` | What a tracked progress report calls complete is durable in flash. |
| `UploadService.UploadService.FrameArrives` | `firmware/features/speaker_assets/speaker_assets_session.cpp:275-350` | Any frame at any time: at most one action is outstanding. |
| `UploadService.UploadService.RunAction` | `firmware/features/speaker_assets/speaker_assets_store_executor.cpp:97-268` | Whatever the flash does, the finished execution can be answered truthfully. |
| `UploadService.UploadService.Finish` | `firmware/features/speaker_assets/speaker_assets_session.cpp:1064-1327` | The client never hears an internal error, the status is the store's, reported progress is in flash, and a successful commit is what is served; an orphaned action is silent. |
| `UploadService.UploadService.RouteCloses` | `firmware/features/speaker_assets/speaker_assets_session.cpp:1329-1362` | Closing a route at any moment keeps session and store in step. |
| `UploadService.Happens` | `firmware/features/speaker_assets/speaker_assets_session.cpp:275-1405` | Every event but that action has its effect on session, worker and store, and what the client hears of it is true. |
| `UploadService.Life` | `firmware/features/speaker_assets/speaker_assets_session.cpp:275-1405` | Through any frames, worker runs, route closes, faults, cuts and reboots: every event has its effect on the device the one before left, every answer carries the result of its execution and is true of the flash, none is an internal error, and the flash is crash safe, up to the first action that sends the planned manifest again in the exposed state. |
| `EarnedAnswers.FineIsEarned` | `firmware/features/speaker_assets/speaker_assets_session.cpp:275-1405` | Over every lifetime a frame is answered Fine only if it asks for the capabilities, brings bytes that are taken, or repeats a request whose completed action was answered with this very reply before. |
| `EarnedAnswers.CommitIsEarned` | `firmware/features/speaker_assets/speaker_assets_session.cpp:942-1062` | Over every lifetime a client that hears Fine to a commit hears of a commit that had been performed by then and whose transaction was served. |
| `EarnedAnswers.MemoryIsEarned` | `firmware/features/speaker_assets/speaker_assets_session.cpp:1775-1791` | Every success the session remembers was answered once, by a completed action, since the last boot. |
| `Session.LookupReplay` | `firmware/features/speaker_assets/speaker_assets_session.cpp:1730-1762` | A key that is not retained is a miss, an exact hit returns a stored reply of exactly that request. |
| `Session.ExactReplyIsUnique` | `firmware/features/speaker_assets/speaker_assets_session.cpp:1730-1762` | An exact retransmission gets the reply that was stored for it, wherever it is stored. |
| `Session.ChangedRequestConflicts` | `firmware/features/speaker_assets/speaker_assets_session.cpp:1730-1762` | A changed request under a retained key is a conflict, never a miss. |
| `Session.StaleTokenNeverMatches` | `firmware/features/speaker_assets/speaker_assets_session.cpp:1712-1728` | An earlier token never equals the outstanding one within a range of 2^32 - 1. |
| `Session.SpeakerAssetsSession.Consume` | `firmware/features/speaker_assets/speaker_assets_session.cpp:275-350` | Malformed input changes nothing; while an action is outstanding everything but capabilities is busy; otherwise each opcode is served as specified, every refusal with its own status, with at most one fresh action under a key no success has. |
| `Session.SpeakerAssetsSession.ConsumeCurrentActive` | `firmware/features/speaker_assets/speaker_assets_session.cpp:389-441` | Acts exactly when the request is well formed, not retained and the session idle; otherwise BadRequest, the retained reply or IntegrityError, or Busy. |
| `Session.SpeakerAssetsSession.ConsumeResume` | `firmware/features/speaker_assets/speaker_assets_session.cpp:646-710` | Acts exactly when well formed, not retained and idle, and asks for exactly the transaction sent; otherwise BadRequest, the retained reply or IntegrityError, or Busy. |
| `Session.SpeakerAssetsSession.ConsumeBound` | `firmware/features/speaker_assets/speaker_assets_session.cpp:942-1062` | Query, commit and abort act exactly for the open session's own route and cookie, after retained answers; otherwise BadRequest for the shape and TransactionMismatch for any other session. |
| `SessionAnswers.FineMeans` | `firmware/features/speaker_assets/speaker_assets_session.cpp:275-350` | A Fine answer to a frame is the capabilities, the retained reply of the same request, or the acknowledgement of bytes that are now in the open assembly; nothing is answered Fine before its action ran. |
| `SessionAnswers.BoundAnswer` | `firmware/features/speaker_assets/speaker_assets_session.cpp:942-1062` | A new commit, abort or query: BadRequest for its shape, an action on the bound transaction in the session of its own route and cookie, TransactionMismatch otherwise. |
| `SessionAnswers.UnboundAnswer` | `firmware/features/speaker_assets/speaker_assets_session.cpp:389-710` | A new question for the active bundle or a transaction: BadRequest for its shape, Busy unless the session is idle, otherwise exactly that question. |
| `SessionAnswers.BusyWhilePending` | `firmware/features/speaker_assets/speaker_assets_session.cpp:275-387` | While an action runs every request but the capabilities is told Busy and changes nothing. |
| `SessionAnswers.MalformedAnswer` | `firmware/features/speaker_assets/speaker_assets_session.cpp:275-298` | What is no request of a live route gets no answer, one with flags of an answer is a bad request, and neither changes anything. |
| `SessionAnswers.PlanAnswer` | `firmware/features/speaker_assets/speaker_assets_session.cpp:443-560` | What the client of a plan fragment that is not taken hears: BadRequest for its shape, its request or its route, Busy for a session or an assembly of another kind. |
| `SessionAnswers.DataAnswer` | `firmware/features/speaker_assets/speaker_assets_session.cpp:712-848` | What the client of a data fragment that is not taken hears: TransactionMismatch outside its own session, BadRequest for its shape or place, Busy for another unit. |
| `Session.SpeakerAssetsSession.ConsumePlan` | `firmware/features/speaker_assets/speaker_assets_session.cpp:443-644` | A plan frame is refused, or adds its bytes and reports the first missing one; a whole plan is decoded and acted upon exactly when it is new and the session was not open. |
| `Session.SpeakerAssetsSession.FinishPlan` | `firmware/features/speaker_assets/speaker_assets_session.cpp:596-644` | A retained plan gets its retained answer, an undecodable or changed one an integrity error, a new one an action with exactly that plan. |
| `Session.SpeakerAssetsSession.ConsumeData` | `firmware/features/speaker_assets/speaker_assets_session.cpp:712-940` | A data frame is refused, or adds its bytes and reports the first missing one; a whole unit is answered from memory or written with exactly its bytes. |
| `SessionAnswers.PlaceMeans` | `firmware/features/speaker_assets/speaker_assets_session.cpp:738-775` | A data frame addresses the manifest or the block of 4096 bytes its offset lies in, at the right place of that unit. |
| `SessionAnswers.MissingMeans` | `firmware/features/speaker_assets/speaker_assets_session.cpp:850-889` | Before the acknowledged bitmap everything was received, its bits are the bytes received from there on, and the first missing one is among its first eight. |
| `Session.SpeakerAssetsSession.FinishUnit` | `firmware/features/speaker_assets/speaker_assets_session.cpp:891-940` | The unit handed out has the bytes, the index and the transaction of the open session. |
| `Session.SpeakerAssetsSession.Complete` | `firmware/features/speaker_assets/speaker_assets_session.cpp:1064-1327` | Only the outstanding token and kind complete; a success is remembered and answered, opens, continues or ends the session; errors keep a bound session, broken contracts end it, orphans are silent. |
| `Session.SpeakerAssetsSession.Succeed` | `firmware/features/speaker_assets/speaker_assets_session.cpp:1242-1327` | The answer and the session after each kind of success. |
| `Session.SpeakerAssetsSession.Refuse` | `firmware/features/speaker_assets/speaker_assets_session.cpp:1093-1126` | A store error is answered, and ends only a session that was not yet open. |
| `SessionAnswers.StatusMeans` | `firmware/features/speaker_assets/speaker_assets_session.cpp:1793-1828` | Fine exactly for Ok; which store results a client hears as integrity, storage, recovery and each other class. |
| `SessionAnswers.SuccessMeans` | `firmware/features/speaker_assets/speaker_assets_session.cpp:1242-1327` | What each success tells: progress that describes the plan, the same transaction with nothing lost and its unit complete, the outcome, or the active bundle, and the session that follows. |
| `SessionAnswers.FailureMeans` | `firmware/features/speaker_assets/speaker_assets_session.cpp:1093-1126` | A failed action is answered with the class of its error under its own request, and nothing is remembered. |
| `Session.SpeakerAssetsSession.Remember` | `firmware/features/speaker_assets/speaker_assets_session.cpp:1775-1791` | One slot is overwritten, keys stay distinct, and the request is answered exactly from then on. |
| `Session.SpeakerAssetsSession.RouteClosed` | `firmware/features/speaker_assets/speaker_assets_session.cpp:1329-1362` | A closed route loses its answers, its session and its assembly; its action is orphaned; other routes keep everything. |
| `Session.SpeakerAssetsSession.AllRoutesClosed` | `firmware/features/speaker_assets/speaker_assets_session.cpp:1364-1382` | Everything is forgotten but an orphaned action. |
| `Session.SpeakerAssetsSession.ExpirePartial` | `firmware/features/speaker_assets/speaker_assets_session.cpp:1384-1405` | Only the incomplete assembly of exactly this route is dropped. |
| `SessionMemory.RememberedAnswers` | `firmware/features/speaker_assets/speaker_assets_session.cpp:1730-1773` | A remembered success answers its exact request with its reply and every changed request under its key with a conflict. |
| `SessionMemory.AnswerAges` | `firmware/features/speaker_assets/speaker_assets_session.cpp:1775-1791` | A success stays through seven further ones. |
| `SessionMemory.FrameAnswered` | `firmware/features/speaker_assets/speaker_assets_session.cpp:275-350` | While a success is remembered no frame under its key gets an action: the exact one gets the identical reply, whole plans and units included, a changed one an integrity error. |
| `SessionMemory.StepAges` | `firmware/features/speaker_assets/speaker_assets_session.cpp:1775-1791` | Only an answered success ages the memory, and only the close of its own route takes it away. |
| `SessionMemory.AtMostOnceOverRuns` | `firmware/features/speaker_assets/speaker_assets_session.cpp:275-1405` | Over every run from a success on: until eight further successes were answered or its route was closed, every exact retransmission gets the identical reply, every changed request under its key an error, and the key never an action again. |
| `SessionMemory.Serve` | `firmware/features/speaker_assets/speaker_assets_session.cpp:275-1405` | Each event is one step of the session as specified, with its actions counted. |
| `SessionMemory.Run` | `firmware/features/speaker_assets/speaker_assets_session.cpp:275-1405` | Any run of the session is such a chain of steps, event by event, so the statement above holds of it. |
| `SessionMemory.SuccessIsRemembered` | `firmware/features/speaker_assets/speaker_assets_session.cpp:1064-1327` | Every success answered to a live route begins such a run. |
| `SessionUploads.SendPlan` | `firmware/features/speaker_assets/speaker_assets_session.cpp:443-644` | However a valid plan is cut, ordered, repeated or overlapped, once its frames cover it the store is asked to begin exactly that plan. |
| `SessionUploads.SendUnit` | `firmware/features/speaker_assets/speaker_assets_session.cpp:712-940` | The same for a manifest or block: exactly the client's bytes for exactly that unit. |
| `Runtime.RuntimeMailbox.EnqueueOpened` | `firmware/features/speaker_assets/speaker_assets_runtime.cpp:71-92` | When an open is refused, coalesced, queued, or kept as a close because everything is being revoked. |
| `Runtime.RuntimeMailbox.EnqueueClosed` | `firmware/features/speaker_assets/speaker_assets_runtime.cpp:94-125` | A close is never refused, ends the reservation and the queued frames of its route, and is pending afterwards unless the mailbox has failed closed. |
| `Runtime.RuntimeMailbox.RetainTombstone` | `firmware/features/speaker_assets/speaker_assets_runtime.cpp:401-421` | A route that opens or closes during a revocation ends as a pending close. |
| `Runtime.RuntimeMailbox.FailClose` | `firmware/features/speaker_assets/speaker_assets_runtime.cpp:423-452` | Too many closes revoke everything and free the reservation. |
| `Runtime.RuntimeMailbox.EnqueueFrame` | `firmware/features/speaker_assets/speaker_assets_runtime.cpp:127-234` | A frame is admitted exactly when no other request is in flight, its route is not closing and there is room, under an id never used before. |
| `Runtime.LengthMeans` | `firmware/features/speaker_assets/speaker_assets_runtime.cpp:127-160` | A USB frame has 63 bytes, a Wi-Fi frame 24 to 125, and nothing else is a frame. |
| `Runtime.RuntimeMailbox.TakeNext` | `firmware/features/speaker_assets/speaker_assets_runtime.cpp:236-273` | The global close first, then closes, then records in order; leases are conserved. |
| `Runtime.RuntimeMailbox.Release` | `firmware/features/speaker_assets/speaker_assets_runtime.cpp:288-300` | Exactly the reserved lease is released; a stale one changes nothing. |
| `Runtime.RuntimeCore.EnqueueLifecycle` | `firmware/features/speaker_assets/speaker_assets_runtime.cpp:618-676` | A close dominates an open of the same route; four slots are kept for closes. |
| `Runtime.RuntimeCore.Import` | `firmware/features/speaker_assets/speaker_assets_runtime.cpp:571-616` | A record moves into its queue with its lease, or stays with the caller when the queue is full. |
| `Runtime.RuntimeCore.RevokeAll` | `firmware/features/speaker_assets/speaker_assets_runtime.cpp:940-994` | Nothing survives a global close but a pending action. |
| `Runtime.RuntimeCore.Step` | `firmware/features/speaker_assets/speaker_assets_runtime.cpp:709-768` | Closes first; otherwise leases are conserved or handed back; a frame leads to exactly the reply or action the session gave to it, and a completion to exactly the reply the session gave to it, queued under its lease; without either only a timer changes the session. |
| `Runtime.RuntimeCore.ActivateRoute` | `firmware/features/speaker_assets/speaker_assets_runtime.cpp:893-938` | A route is activated exactly when the filter does not know it as closed and it is active already or a slot is free; a closed lifetime never comes back. |
| `Runtime.RuntimeCore.CloseRoute` | `firmware/features/speaker_assets/speaker_assets_runtime.cpp:1022-1044` | A closed route is inactive for good, loses its frames and replies and no other lease, and its action is orphaned. |
| `Runtime.RuntimeCore.ProcessLifecycle` | `firmware/features/speaker_assets/speaker_assets_runtime.cpp:1100-1115` | One event is applied; only a close loses leases, and only those of its route. |
| `Runtime.RuntimeCore.ExpirePartials` | `firmware/features/speaker_assets/speaker_assets_runtime.cpp:1363-1378` | An assembly expires exactly when its time is up and none of its frames is waiting, and is gone then. |
| `Runtime.RuntimeCore.ExpireSessionLease` | `firmware/features/speaker_assets/speaker_assets_runtime.cpp:1380-1421` | The binding expires exactly when it is idle for the lease, and nothing else does. |
| `Runtime.RuntimeCore.ProcessPendingAction` | `firmware/features/speaker_assets/speaker_assets_runtime.cpp:1288-1361` | An action completes exactly when allowed, with room for its answer and the matching completion; a live request then gets exactly the session's reply, under its lease, an orphaned one gives the lease back; a rejected execution is an unavailable store. |
| `Runtime.QueuedMeans` | `firmware/features/speaker_assets/speaker_assets_runtime.cpp:1306-1361` | A reply queued for a completion is Fine exactly when the store succeeded and the success was believed, and otherwise the class of the error, under the request the client had sent. |
| `Runtime.RuntimeCore.CompleteInSession` | `firmware/features/speaker_assets/speaker_assets_runtime.cpp:1306-1338` | The reply handed on is the one with which the session completed. |
| `Runtime.RuntimeCore.ConsumeFrame` | `firmware/features/speaker_assets/speaker_assets_runtime.cpp:1178-1286` | A frame is answered as paused, retired as unacceptable, or ends with its lease in exactly the reply or the action with which the session took it. |
| `Runtime.RuntimeCore.ConsumeTwice` | `firmware/features/speaker_assets/speaker_assets_runtime.cpp:1178-1286` | The session takes the frame, or takes it once more from the state after an overdue assembly expired. |
| `Runtime.PausedMeans` | `firmware/features/speaker_assets/speaker_assets_runtime.cpp:1191-1218` | While resource work is paused every query and mutation is answered PausedForInput and reaches nothing; a permitted frame is taken by the session. |
| `Runtime.ElapsedAcrossWrap` | `firmware/features/speaker_assets/speaker_assets_runtime.cpp:1363-1421` | Timeouts count elapsed milliseconds across a wrap of the clock. |
| `Runtime.RuntimeCore.PopReplyIfSequence` | `firmware/features/speaker_assets/speaker_assets_runtime.cpp:797-807` | A reply leaves only for the transport that was looking at exactly it. |
| `Runtime.RuntimeCore.Retire` | `firmware/features/speaker_assets/speaker_assets_runtime.cpp:1462-1476` | A lease without answer leaves with everything of its admission. |
| `Supervisor.ResourceSupervisor.OneLeaseInOnePlace` | `firmware/features/speaker_assets/include/speaker_assets/speaker_assets_runtime.h:118-190` | At most one request is in flight; its lease is in exactly one place unless it was lost, and it can only have been lost if a close of its route was under way to the owner when it was admitted. |
| `Supervisor.ResourceSupervisor.NoStuckReservation` | `firmware/features/speaker_assets/include/speaker_assets/speaker_assets_runtime.h:118-190` | The reserved lease is nowhere exactly when it was lost; a frame admitted without a close of its route under way never ends like that. |
| `Supervisor.LeaseLost` | `firmware/features/speaker_assets/speaker_assets_runtime.cpp:95-273` | Such a run: a frame admitted after the close of its route has left the mailbox loses its lease and leaves the reservation behind. |
| `Supervisor.ResourceSupervisor.FrameArrives` | `firmware/features/speaker_assets/speaker_assets_runtime.cpp:127-234` | An admitted frame brings a lease that was nowhere before; whether a close of its route is under way is noted with it. |
| `Supervisor.ResourceSupervisor.RouteOpens` | `firmware/features/speaker_assets/speaker_assets_runtime.cpp:71-92` | Opening a route touches no lease. |
| `Supervisor.ResourceSupervisor.SendReply` | `firmware/features/speaker_assets/speaker_assets_runtime.cpp:797-807` | A sent reply moves its lease to the ones to be handed back. |
| `Supervisor.ResourceSupervisor.RouteCloses` | `firmware/features/speaker_assets/speaker_assets_runtime.cpp:94-125` | Closing a route frees its reservation whatever the owner is doing. |
| `Supervisor.ResourceSupervisor.Take` | `firmware/features/speaker_assets/speaker_assets_runtime.cpp:236-273` | Taking a record moves its lease and loses none. |
| `Supervisor.ResourceSupervisor.Import` | `firmware/features/speaker_assets/speaker_assets_runtime.cpp:571-616` | Importing moves a lease; the global close loses leases, never the reserved one. |
| `Supervisor.ResourceSupervisor.Step` | `firmware/features/speaker_assets/speaker_assets_runtime.cpp:709-768` | A step creates no lease, and a lease is gone after it if and only if the close at the head of the queue finds it among the queued frames and replies; a reservation is lost exactly so. |
| `Supervisor.ResourceSupervisor.HandBack` | `firmware/features/speaker_assets/speaker_assets_runtime.cpp:288-300` | Exactly the reserved lease is released. |
| `Supervisor.OwnerStepped` | `firmware/features/speaker_assets/speaker_assets_runtime.cpp:709-768` | Moving, retiring and closing keep the accounting of leases sound. |
| `Supervisor.HandedBack` | `firmware/features/speaker_assets/speaker_assets_runtime.cpp:1462-1476` | A retired lease is the only one that leaves. |
| `ChunkedStorage.ChunkedSoundBankStorage.Read` | `firmware/features/speaker_assets/speaker_assets_flash_runner.cpp:84-120` | The split read returns what the plain one does, with exactly the consecutive units of the range claimed, each of at most 256 bytes, and none for a bad range. |
| `ChunkedStorage.ChunkedSoundBankStorage.Write` | `firmware/features/speaker_assets/speaker_assets_flash_runner.cpp:122-158` | The split write has the effect of one plain write, every image on the way is one a single torn write could leave, the claims are the units of the range, and flash is mutated once for each claim and nowhere outside it. |
| `ChunkedStorage.ChunkedSoundBankStorage.Erase` | `firmware/features/speaker_assets/speaker_assets_flash_runner.cpp:160-195` | The same for erasing, one sector a unit. |
| `ChunkedStorage.ChunkedSoundBankStorage.Checkpoint` | `firmware/features/speaker_assets/speaker_assets_flash_runner.cpp:197-220` | A bounded hash unit is claimed exactly when its range is good and not empty. |
| `ChunkedStorage.UnitsMean` | `firmware/features/speaker_assets/speaker_assets_flash_runner.cpp:84-195` | Unit i of a range starts i units into it, and only the last one may be shorter. |
| `ChunkedStorage.ChunkedSoundBankStorage.CheckpointComplete` | `firmware/features/speaker_assets/speaker_assets_flash_runner.cpp:222-227` | The claim ends and nothing else is claimed. |
| `PermitExchange.RunIsSound` | `firmware/features/speaker_assets/speaker_assets_flash_runner.cpp:648-844` | Every interleaving of publisher, supervisor and worker keeps the exchange sound. |
| `PermitExchange.RequestKept` | `firmware/features/speaker_assets/speaker_assets_flash_runner.cpp:746-831` | A request made in an allowed epoch is honoured only in the same unbroken spell of permission. |
| `PermitExchange.UnitsRunUnderTheirOwnFreshGrant` | `firmware/features/speaker_assets/speaker_assets_flash_runner.cpp:746-831` | Every executed unit had a grant of its own, and priority was on at its claim and had not changed since its request; no two share a grant. |
| `PermitExchange.StalePermitExecutesNothing` | `firmware/features/speaker_assets/speaker_assets_flash_runner.cpp:746-831` | A grant of another epoch, or one that priority has left, executes nothing and is asked for anew, at the first check as at the claim. |
| `PermitExchange.ClaimOutlivesPriorityChange` | `firmware/features/speaker_assets/speaker_assets_flash_runner.cpp:351-383` | A change of priority never aborts a claimed unit and admits no second one. |
| `PermitExchange.AUnitCanRun` | `firmware/features/speaker_assets/speaker_assets_flash_runner.cpp:648-844` | With priority on, a unit does run. |
| `Crc32.OneByteChangeIsDetected` | `firmware/features/speaker_assets/sound_asset_crypto.cpp:207-223` | Messages of any length that differ in one byte have different CRCs (the CRC of section 8 of RFC 1952). |
| `Crc32.CheckValue` | `firmware/features/speaker_assets/sound_asset_crypto.cpp:207-223` | The nine digits "123456789" have the CRC 0xCBF43926. |
| `Crc32.StatesDiffer` | `firmware/features/speaker_assets/sound_asset_crypto.cpp:207-223` | The difference survives every later byte. |
| `Crc32.RoundInjective` | `firmware/features/speaker_assets/sound_asset_crypto.cpp:207-223` | One round of the register loses nothing. |
| `Crc32.Update` | `firmware/features/speaker_assets/sound_asset_crypto.cpp:207-223` | The bitwise loop computes the fold of the step over the buffer. |
| `Crc32.FeedInPieces` | `firmware/features/speaker_assets/sound_asset_store.cpp:243-254` | Feeding a message in pieces is feeding it at once. |
| `PlanWire.PlanRoundTrip` | `firmware/features/speaker_assets/speaker_assets_protocol.cpp:326-414` | A plan is encoded exactly when it is valid, in 640 bytes that decode back to it. |
| `PlanWire.DecodedIsCanonical` | `firmware/features/speaker_assets/speaker_assets_protocol.cpp:365-414` | What decodes is the encoding of a valid plan and nothing else. |
| `PlanWire.OneByteChangeIsRejected` | `firmware/features/speaker_assets/speaker_assets_protocol.cpp:365-414` | No change of a single byte, so no flipped bit, of a valid encoding is accepted. |
| `Assemblers.RebuiltMeaning` | `firmware/features/speaker_assets/speaker_assets_protocol.cpp:443-479` | A byte is known exactly when an accepted fragment covers it, and is what every one of them says. |
| `Assemblers.OrderDoesNotMatter` | `firmware/features/speaker_assets/speaker_assets_protocol.cpp:584-621` | The same accepted fragments in any order, with any repetition, rebuild the same unit. |
| `Assemblers.PartsRebuildMessage` | `firmware/features/speaker_assets/speaker_assets_protocol.cpp:584-621` | Fragments of one message are always accepted and, once they cover it, are it. |
| `Assemblers.FragmentBuffer.Accept` | `firmware/features/speaker_assets/speaker_assets_protocol.cpp:584-621` | All or nothing: a refused fragment changes nothing even when part of it was new. |
| `Assemblers.FragmentBuffer.Reset` | `firmware/features/speaker_assets/speaker_assets_protocol.cpp:554-572` | A new unit starts with nothing known. |
| `Assemblers.FragmentBuffer.FirstMissingOffset` | `firmware/features/speaker_assets/speaker_assets_protocol.cpp:647-657` | The least byte not yet received, the length exactly when the count says complete. |
| `Assemblers.FragmentBuffer.Data` | `firmware/features/speaker_assets/speaker_assets_protocol.cpp:512-519` | A complete buffer returns the unit. |
| `HidQueue.HidReportQueue.PushClassified` | `firmware/components/keyboard/src/hid_report_queue.cpp:83-111` | Queued, coalesced, refused or invalid as the class, the room and the tail decide; the queue grows by exactly the report or not at all. |
| `HidQueue.HidReportQueue.Push` | `firmware/components/keyboard/src/hid_report_queue.cpp:113-138` | Accepted exactly when it fits and leaves the reserved slots free. |
| `HidQueue.HidReportQueue.PushWithLimit` | `firmware/components/keyboard/src/hid_report_queue.cpp:140-214` | The ring keeps order; a report equal to the snapshot at the tail takes no slot. |
| `HidQueue.HidReportQueue.Front` | `firmware/components/keyboard/src/hid_report_queue.cpp:216-222` | The oldest report, if there is one. |
| `HidQueue.HidReportQueue.PopIfSequence` | `firmware/components/keyboard/src/hid_report_queue.cpp:224-232` | Only the report that was looked at is removed. |
| `HidQueue.HidReportQueue.Clear` | `firmware/components/keyboard/src/hid_report_queue.cpp:234-238` | Clearing keeps the sequence counter going. |
| `HidQueue.SequencesDistinct` | `firmware/components/keyboard/src/hid_report_queue.cpp:140-188` | No two queued reports share a sequence number. |
| `HidQueue.CapacityMeans` | `firmware/components/keyboard/src/hid_report_queue.cpp:10-30` | How many of the 32 slots each class may fill: 21, 10, 31, or all of them for the all-released report. |
| `HidQueue.OutcomeMeans` | `firmware/components/keyboard/src/hid_report_queue.cpp:83-188` | When a push is malformed, repeats the tail, finds its class full, or is queued. |
| `HidQueue.JoinMeans` | `firmware/components/keyboard/src/hid_report_queue.cpp:248-290` | Movement joins the tail exactly when owner and lifetime agree and neither axis turns round, and is cut at 32767. |
| `HidQueue.MouseWheelQueue.Push` | `firmware/components/keyboard/src/hid_report_queue.cpp:248-309` | On both axes what was queued plus what came in is what is queued plus what is lost; an accepted push loses movement without the saturated flag exactly when it does not join the tail and an axis of it alone is beyond the limit. |
| `HidQueue.MouseWheelQueue.Front` | `firmware/components/keyboard/src/hid_report_queue.cpp:311-317` | The oldest movement, if there is one. |
| `HidQueue.MouseWheelQueue.ConsumeIfSequence` | `firmware/components/keyboard/src/hid_report_queue.cpp:319-336` | Exactly the delivered amount leaves the head; a spent head leaves the queue. |
| `HidQueue.MouseWheelQueue.PopIfSequence` | `firmware/components/keyboard/src/hid_report_queue.cpp:338-346` | Only the movement that was looked at is removed. |
| `HidQueue.ConsumptionConserves` | `firmware/components/keyboard/src/hid_report_queue.cpp:319-336` | Consumption takes the delivered amount off the total and nothing else. |
| `HidQueue.LossShown` | `firmware/components/keyboard/src/hid_report_queue.cpp:248-309` | The same for every queue, axis and sign. |
| `InputReservation.PressGrows` | `firmware/components/keyboard/src/held_keyboard_state.cpp:56-102` | A press takes nothing off the report. |
| `InputReservation.KeyDownKeeps` | `firmware/components/keyboard/include/keyboard/hid_report_queue.h:18-46` | A press spoils the reservation exactly when it is applied while every slot is in use or owed to a release. |
| `InputReservation.KeyUpKeeps` | `firmware/components/keyboard/include/keyboard/hid_report_queue.h:18-46` | Within the reservation the release of a key is never refused, whatever refused presses ride on it, and keeps it. |
| `InputReservation.ClearKeeps` | `firmware/main/app_main.cpp:1633-1648` | Letting everything go takes one slot at most and is never refused. |
| `InputReservation.HotkeyFlushKeeps` | `firmware/main/app_main.cpp:1435-1493` | A hotkey edge keeps the reservation. |
| `InputReservation.HotkeyUpRefused` | `firmware/main/app_main.cpp:1435-1493` | Within the reservation a hotkey release waits exactly when one slot is left, and then nothing else is held. |
| `InputReservation.EveryOrderFits` | `firmware/components/keyboard/include/keyboard/hid_report_queue.h:18-46` | Within the reservation every order of letting go finds its slots even if nothing leaves the queue. |
| `InputReservation.SomeOrderStarves` | `firmware/components/keyboard/include/keyboard/hid_report_queue.h:18-46` | With one release too many some order is refused. |
| `InputReservation.ReservationIsExact` | `firmware/components/keyboard/include/keyboard/hid_report_queue.h:18-46` | For keys with codes of their own every order of letting go finds its slots if and only if slots in use and releases owed are within the capacity. |
| `InputReservation.Inputs.KeyDown` | `firmware/main/app_main.cpp:1399-1433` | A key press does to queue and held keys exactly what the specification says. |
| `InputReservation.Inputs.KeyUp` | `firmware/main/app_main.cpp:1399-1433` | So does a key release; it is reported refused exactly when its report takes something away and has no slot. |
| `InputReservation.Inputs.FlushHotkey` | `firmware/main/app_main.cpp:1435-1493` | One attempt moves a hotkey by exactly its pending transition, or leaves it when its class has no slot. |
| `InputReservation.HotkeyLayout` | `firmware/main/app_main.cpp:1435-1493` | The report of a hotkey edge: kind, one chunk, length, press or release, the name, zeros. |
| `InputReservation.Inputs.SetHotkey` | `firmware/main/app_main.cpp:1504-1517` | A hotkey edge is the new wish and one attempt. |
| `InputReservation.Inputs.FlushKeyboard` | `firmware/main/app_main.cpp:1370-1397` | A retry offers the latest union. |
| `InputReservation.Inputs.Tick` | `firmware/main/app_main.cpp:3255-3261` | A radio slot and the retries after it restore the reservation. |
| `InputReservation.Inputs.LetAllGo` | `firmware/main/app_main.cpp:1633-1648` | Every key and every hotkey is let go, within the reservation without a refusal. |
| `InputReservation.Inputs.Edge` | `firmware/main/app_main.cpp:1504-1517` | A hotkey release waits while something else is held exactly when it had no slot, which the reservation excludes. |
| `InputReservation.Inputs.Press` | `firmware/main/app_main.cpp:1399-1433` | The reservation survives a press exactly when a slot was left for its release. |
| `InputReservation.Inputs.Release` | `firmware/main/app_main.cpp:1399-1433` | Within the reservation no key release is refused. |
| `InputReservation.Serve` | `firmware/main/app_main.cpp:1519-1551` | Every event moves the queue, the held keys and the hotkeys as specified; the reservation is kept exactly unless a key is pressed at full load, and nothing is refused within it. |
| `InputReservation.Run` | `firmware/main/app_main.cpp:1519-1551` | From power-up over any events, each view following from the one before by its event: every view is within the reservation if and only if no event is a key press at full load, and then none is a key release that is refused or a hotkey release that waits while anything else is held. |
| `ReservationWitness.PressAtFullLoadStarves` | `firmware/components/keyboard/src/hid_report_queue.cpp:10-28` | A run from power-up whose one press at full load is followed by a refused release of a shown key: refused presses ride on releases and fill the queue while two keys stay held. |
| `ReservationWitness.LoneHotkeyWaits` | `firmware/components/keyboard/src/hid_report_queue.cpp:10-28` | A run within the reservation after which the release of the only input held, a hotkey, has no slot. |
| `HidReservation.LastSlotKept` | `firmware/components/keyboard/src/hid_report_queue.cpp:83-111` | Only the all-released report of the endpoint ever takes the last slot. |
| `HidReservation.AllReleasedAlwaysAccepted` | `firmware/components/keyboard/src/hid_report_queue.cpp:83-111` | Within one endpoint lifetime letting go of everything is never refused. |
| `HeldKeyboard.SnapshotIsUnion` | `firmware/components/keyboard/src/held_keyboard_state.cpp:199-238` | The report shows exactly the keys, modifiers and Fn of the held sources. |
| `HeldKeyboard.ReportKeysMean` | `firmware/components/keyboard/src/held_keyboard_state.cpp:199-238` | A source with a list of keys holds those, one without holds its single key. |
| `HeldKeyboard.UsableMeans` | `firmware/components/keyboard/src/held_keyboard_state.cpp:188-197` | A report can be held exactly when it is valid and says something. |
| `HeldKeyboard.Compose` | `firmware/components/keyboard/src/held_keyboard_state.cpp:199-238` | The loop over the sources succeeds exactly when at most six keys are held, with their union. |
| `HeldKeyboard.ReleaseComposes` | `firmware/components/keyboard/src/held_keyboard_state.cpp:104-144` | Letting go never overflows the six-key report. |
| `HeldKeyboard.HeldKeyboardState.Press` | `firmware/components/keyboard/src/held_keyboard_state.cpp:56-102` | A source keeps the report of its first press; a seventh key changes nothing. |
| `HeldKeyboard.HeldKeyboardState.Release` | `firmware/components/keyboard/src/held_keyboard_state.cpp:104-144` | Exactly this source is let go, never refused for rollover. |
| `HeldKeyboard.HeldKeyboardState.Clear` | `firmware/components/keyboard/src/held_keyboard_state.cpp:146-166` | Nothing is held afterwards. |
| `SnapshotDelivery.PressOnlyAdds` | `firmware/components/keyboard/src/keyboard_snapshot_delivery.cpp:17-102` | A report classified as a press takes nothing away. |
| `SnapshotDelivery.ClassMeans` | `firmware/components/keyboard/src/keyboard_snapshot_delivery.cpp:9-33` | The class of a report says whether it takes everything, something or nothing away. |
| `SnapshotDelivery.KeyboardSnapshotDelivery.SetDesired` | `firmware/components/keyboard/src/keyboard_snapshot_delivery.cpp:39-51` | A new desired state is a new attempt; an unchanged one keeps its attempt. |
| `SnapshotDelivery.KeyboardSnapshotDelivery.PendingSnapshot` | `firmware/components/keyboard/src/keyboard_snapshot_delivery.cpp:53-62` | Something is pending exactly when desired and accepted differ. |
| `SnapshotDelivery.KeyboardSnapshotDelivery.MarkAccepted` | `firmware/components/keyboard/src/keyboard_snapshot_delivery.cpp:64-72` | Only the current attempt commits. |
| `SnapshotDelivery.KeyboardSnapshotDelivery.Reset` | `firmware/components/keyboard/src/keyboard_snapshot_delivery.cpp:74-79` | Desired and accepted both become the baseline. |
| `Generations.GenerationReuse` | `firmware/components/keyboard/src/keyboard_snapshot_delivery.cpp:104-114` | A generation comes back exactly after 2^32 - 1 steps. |
| `Generations.NumbersDistinct` | `firmware/features/speaker_assets/speaker_assets_session.cpp:1712-1728` | Two numbers of one counter are equal exactly when whole ranges lie between them. |
| `BleScheduler.RetryDelay` | `firmware/components/keyboard/src/ble_input_scheduler.cpp:253-264` | The delay is the period doubled per failure up to the shift limit, cut at the maximum backoff, for every streak and without overflow. |
| `BleScheduler.BackoffKeepsPeriod` | `firmware/components/keyboard/src/ble_input_scheduler.cpp:253-264` | A retry is at least a period away exactly when the period is at most the maximum backoff. |
| `BleScheduler.BackoffGrows` | `firmware/components/keyboard/src/ble_input_scheduler.cpp:253-264` | The delay never shrinks while failures continue. |
| `BleScheduler.DefaultsKeepPeriod` | `firmware/components/keyboard/include/keyboard/ble_input_scheduler.h:47-57` | With the default settings no retry comes sooner than the delivery period. |
| `SchedulerRuns.FairExtends` | `firmware/components/keyboard/src/ble_input_scheduler.cpp:213-223` | One more attempt keeps the bound on how long a wheel is passed over. |
| `SchedulerRuns.Attempted` | `firmware/components/keyboard/src/ble_input_scheduler.cpp:98-207` | One attempt keeps all accounts: fairness, the order of settled reports, and both wheel totals. |
| `SchedulerRuns.Delivery.Report` | `firmware/components/keyboard/src/hid_report_queue.cpp:83-138` | A report enters by its class, and exactly then counts as taken. |
| `SchedulerRuns.Delivery.Turn` | `firmware/components/keyboard/src/hid_report_queue.cpp:248-309` | Wheel movement joins the tail, takes a slot or is refused; only an oversized fresh movement can be lost without a word. |
| `SchedulerRuns.Delivery.Poll` | `firmware/components/keyboard/src/ble_input_scheduler.cpp:98-207` | A poll does nothing before its time or without anything waiting; otherwise it attempts the report the rules pick, and both queues, the clock and the streak follow from the radio result. |
| `SchedulerRuns.Delivery.TakeResync` | `firmware/components/keyboard/src/ble_input_scheduler.cpp:92-96` | An owed resynchronisation is told once. |
| `SchedulerRuns.EveryRun` | `firmware/components/keyboard/src/ble_input_scheduler.cpp:98-223` | On every sequence of events: while a wheel waits on one clock, at most the configured number of non-release reports settle before it is attempted; reports settle in the order they were taken and none is lost; all wheel movement asked for is delivered, dropped as unsupported, lost at the push, or still queued. |
| `SchedulerRuns.Run` | `firmware/components/keyboard/src/ble_input_scheduler.cpp:98-223` | The queues and the scheduler, through any reports, movement, polls, resets, interval changes and resynchronisations, end exactly where the events say, so all of that holds of them. |
| `BleScheduler.ChunkConserves` | `firmware/components/keyboard/src/ble_input_scheduler.cpp:238-251` | Every chunk can be consumed, and deltas are delivered, queued or dropped. |
| `BleScheduler.ReleaseFirst` | `firmware/components/keyboard/src/ble_input_scheduler.cpp:215-251` | A release at the head of the report queue is never passed by a wheel. |
| `BleScheduler.TurnMeans` | `firmware/components/keyboard/src/ble_input_scheduler.cpp:215-251` | Who goes otherwise, and how much of a movement one chunk takes. |
| `BleScheduler.SettledMeans` | `firmware/components/keyboard/src/ble_input_scheduler.cpp:90-215` | What is left of both queues and of the run of reports after each radio result. |
| `BleScheduler.BackoffMeans` | `firmware/components/keyboard/src/ble_input_scheduler.cpp:253-264` | The first failure costs one period, each further one doubles the pause, up to the largest shift and the ceiling. |
| `BleScheduler.RepairMeans` | `firmware/components/keyboard/src/ble_input_scheduler.cpp:28-50` | A usable setting is kept, an unusable one becomes the nearest usable one. |
| `BleScheduler.BleInputScheduler.constructor` | `firmware/components/keyboard/src/ble_input_scheduler.cpp:26-48` | Unusable settings are repaired, usable ones kept. |
| `BleScheduler.BleInputScheduler.SetConnectionInterval` | `firmware/components/keyboard/src/ble_input_scheduler.cpp:50-73` | A new interval moves the deadline of the last delivery but never shortens a retry. |
| `BleScheduler.BleInputScheduler.Poll` | `firmware/components/keyboard/src/ble_input_scheduler.cpp:98-207` | At most one attempt, never early, always the report the rules pick; only a settled report leaves its queue; the next deadline and streak are exact. |
| `BleScheduler.BleInputScheduler.ResetDeliveryClock` | `firmware/components/keyboard/src/ble_input_scheduler.cpp:79-85` | The next attempt may come at once; the period stays. |
| `BleScheduler.BleInputScheduler.MarkDisconnected` | `firmware/components/keyboard/src/ble_input_scheduler.cpp:87-90` | The clock is reset and a resynchronisation is owed. |
| `BleScheduler.BleInputScheduler.Settle` | `firmware/components/keyboard/src/ble_input_scheduler.cpp:98-207` | The settled report, and only it, is taken off. |
| `KeyboardPipeline.EncodeInjective` | `firmware/main/platform/ble_hid.cpp:1323-1340` | Two states have the same report only if they are the same. |
| `KeyboardPipeline.EncodeLayout` | `firmware/main/platform/ble_hid.cpp:1323-1340` | Modifiers in byte 0, Fn in byte 1, the six keys behind them. |
| `KeyboardPipeline.Keyboard.Flush` | `firmware/main/app_main.cpp:1370-1397` | The latest state is queued exactly when its class has a slot left, and stays pending otherwise; with nothing held it is always queued. |
| `KeyboardPipeline.Keyboard.KeyDown` | `firmware/main/app_main.cpp:1399-1433` | A press changes exactly its source, and what is queued is the new union. |
| `KeyboardPipeline.Keyboard.KeyUp` | `firmware/main/app_main.cpp:1399-1433` | Letting go of the last key queues the all-released report however full the queue is. |
| `KeyboardPipeline.Keyboard.LetAllGo` | `firmware/main/app_main.cpp:1633-1641` | Letting everything go is always accepted. |
| `KeyboardPipeline.Keyboard.PushApp` | `firmware/main/app_main.cpp:1324-1366` | App traffic takes only the slots of its class and disturbs no accepted state. |
| `KeyboardPipeline.Keyboard.Poll` | `firmware/components/keyboard/src/ble_input_scheduler.cpp:98-207` | The host sees the accepted states in order, one by one. |
| `KeyboardPipeline.Keyboard.DrainedMeansUnion` | `firmware/host_test/keyboard_snapshot_delivery_tests.cpp:37-162` | Once the queue is drained and nothing is pending, the host shows exactly the union of the held sources. |
| `KeyboardPipeline.Keyboard.HostIsPrefix` | `firmware/host_test/keyboard_snapshot_delivery_tests.cpp:37-162` | The host has a prefix of what was accepted, which ends at the delivery's accepted state. |
| `Transport.ChordNeverMigrates` | `firmware/components/keyboard/src/transport_routing.cpp:106-202` | All reports of a chord that reach a host reach one living connection lifetime; after the first silent one none is delivered. |
| `Transport.LatchedForGood` | `firmware/components/keyboard/src/transport_routing.cpp:106-202` | A latched chord stays with its lifetime or is suppressed. |
| `Transport.SelectedMeans` | `firmware/components/keyboard/src/transport_routing.cpp:138-195` | A free latch takes USB before BLE and suppresses a chord that finds neither; a taken one stays with its own lifetime or is suppressed. |
| `Transport.KeyboardTransportLatch.Observe` | `firmware/components/keyboard/src/transport_routing.cpp:106-195` | The latch is lost exactly when its lifetime is gone. |
| `Transport.KeyboardTransportLatch.Select` | `firmware/components/keyboard/src/transport_routing.cpp:138-169` | A chord gets the preferred host once, then only its own. |
| `Transport.KeyboardTransportLatch.Commit` | `firmware/components/keyboard/src/transport_routing.cpp:197-202` | Only the all-released report frees the latch. |
| `Transport.UsbEndpointLifetime.OnMount` | `firmware/components/keyboard/src/transport_routing.cpp:70-78` | A mount without power is not accepted; an accepted one is a new epoch. |
| `Transport.UsbEndpointLifetime.OnMountWithPresence` | `firmware/components/keyboard/src/transport_routing.cpp:80-88` | The sample taken with the callback decides. |
| `Transport.UsbEndpointLifetime.OnUnmount` | `firmware/components/keyboard/src/transport_routing.cpp:90-97` | An unmount ends the lifetime. |
| `Transport.UsbEndpointLifetime.EnableMonitor` | `firmware/components/keyboard/src/transport_routing.cpp:99-104` | With the monitor a mount counts only while power is present. |
| `Transport.UsbEndpointLifetime.ObservePresence` | `firmware/components/keyboard/src/transport_routing.cpp:106-119` | Losing power unmounts at once; getting it back never revives a mount. |
| `Transport.PowerLossMeans` | `firmware/components/keyboard/src/transport_routing.cpp:67-137` | With monitored power, losing it unmounts at once, its return mounts nothing, and only a mount callback while it is there does, under a new epoch. |
| `Transport.SameEpochSameLifetime` | `firmware/components/keyboard/src/transport_routing.cpp:70-119` | Over any sequence of mount, unmount and presence calls within one counter range: mounted twice under one epoch means mounted all the time between. |
| `Transport.OnlyCallbacksMount` | `firmware/components/keyboard/src/transport_routing.cpp:106-119` | Without an accepted callback nothing becomes mounted. |
| `Transport.BridgedHotkeyDelivery.SetDesired` | `firmware/components/keyboard/src/transport_routing.cpp:217-230` | A changed wish is a new generation. |
| `Transport.BridgedHotkeyDelivery.MarkAccepted` | `firmware/components/keyboard/src/transport_routing.cpp:255-271` | Only the transition now pending commits, and the host follows exactly. |
| `Transport.BridgedHotkeyDelivery.ResetToDesired` | `firmware/components/keyboard/src/transport_routing.cpp:273-279` | A reset starts from the desired state. |
| `Transport.BridgedHotkeyDelivery.SettledMeansDesired` | `firmware/components/keyboard/src/transport_routing.cpp:232-253` | With nothing pending the host has exactly what is desired. |
| `Transport.SettlesInTwo` | `firmware/components/keyboard/src/transport_routing.cpp:232-253` | A changed hotkey takes two transitions, anything else at most one. |
| `FixedText.ReceivedIsPrefix` | `firmware/components/keyboard/src/ble_fixed_text_stream.cpp:33-92` | Any number of chunks is received as a prefix of the text, all of them as the text. |
| `FixedText.ChunkLayout` | `firmware/components/keyboard/src/ble_fixed_text_stream.cpp:33-92` | Kind, index, count and length in front of at most 59 bytes of the text, zeros behind them. |
| `FixedText.BleFixedTextStream.Start` | `firmware/components/keyboard/src/ble_fixed_text_stream.cpp:9-31` | A text starts exactly when idle, not empty, owned and not too long. |
| `FixedText.BleFixedTextStream.Pump` | `firmware/components/keyboard/src/ble_fixed_text_stream.cpp:33-92` | The next chunks are queued in order up to the window, at least one when there is room; exactly an owner change ends the stream with nothing queued; a pump without a stream does nothing; completion means the whole text. |
| `FixedTextRuns.SharedLink.Pump` | `firmware/components/keyboard/src/ble_fixed_text_stream.cpp:33-92` | The rest of the current text goes into the log as far as the window has room, in order; its end, by completion or for another owner, is recorded, and no chunk of it follows. |
| `FixedTextRuns.SharedLink.Push` | `firmware/components/keyboard/src/ble_fixed_text_stream.cpp:51-55` | Traffic of other producers follows its class, and at most the window's worth of chunks is ahead of it. |
| `FixedTextRuns.FewChunksWait` | `firmware/components/keyboard/src/ble_fixed_text_stream.cpp:51-55` | Chunks wait only within the window, so no more than its size. |
| `FixedTextRuns.SharedLink.HostReads` | `firmware/components/keyboard/src/ble_fixed_text_stream.cpp:33-92` | What the host has of any text is a prefix of it, whatever came between. |
| `FixedTextRuns.EveryRun` | `firmware/components/keyboard/src/ble_fixed_text_stream.cpp:33-92` | On every sequence of events chunks wait only within the window. |
| `FixedTextRuns.Run` | `firmware/components/keyboard/src/ble_fixed_text_stream.cpp:9-92` | Any interleaving of starts, pumps for any owner, foreign traffic and deliveries ends exactly where the events say, with a prefix of every started text at the host. |
| `CodexSlots.CaptureRoundTrip` | `firmware/components/keyboard/src/codex_slot_state.cpp:7-44` | Exactly the valid identities survive packing and unpacking. |
| `CodexSlots.CaptureLayout` | `firmware/components/keyboard/src/codex_slot_state.cpp:7-44` | Magic, slot, connection and capture number each in its own bits. |
| `CodexSlots.SlotMeans` | `firmware/components/keyboard/src/codex_slot_state.cpp:366-392` | Key n talks in slot n, key n + 4 plays it, and nothing else does either. |
| `CodexSlots.CaptureUnique` | `firmware/components/keyboard/src/codex_slot_state.cpp:7-44` | Every accepted session number is the packing of a valid identity. |
| `CodexSlots.CodexSlotState.HandleInput` | `firmware/components/keyboard/src/codex_slot_state.cpp:76-164` | Exactly what each key edge starts, ends, preempts or rejects. |
| `CodexSlots.CodexSlotState.BeginPlayback` | `firmware/components/keyboard/src/codex_slot_state.cpp:166-201` | Playback begins exactly for the pending request of the same slot and connection. |
| `CodexSlots.CodexSlotState.SeedCaptureCounter` | `firmware/components/keyboard/src/codex_slot_state.cpp:63-67` | The counter is seeded only while it is unused. |
| `CodexSlots.CodexSlotState.MarkStarted` | `firmware/components/keyboard/src/codex_slot_state.cpp:203-211` | Only the live buffering playback starts. |
| `CodexSlots.CodexSlotState.AcceptFrame` | `firmware/components/keyboard/src/codex_slot_state.cpp:213-235` | Frames are accepted in order, each once. |
| `CodexSlots.CodexSlotState.MarkTransferComplete` | `firmware/components/keyboard/src/codex_slot_state.cpp:237-249` | Only after the last planned frame. |
| `CodexSlots.CodexSlotState.MarkDrained` | `firmware/components/keyboard/src/codex_slot_state.cpp:251-261` | A request finishes at most once, after every frame and the exact sample count. |
| `CodexSlots.CodexSlotState.AcknowledgeFinished` | `firmware/components/keyboard/src/codex_slot_state.cpp:274-282` | Only the finished playback is acknowledged. |
| `CodexSlots.CodexSlotState.AbortPlayback` | `firmware/components/keyboard/src/codex_slot_state.cpp:284-291` | Only the live playback is aborted. |
| `CodexSlots.CodexSlotState.Disconnect` | `firmware/components/keyboard/src/codex_slot_state.cpp:293-320` | Everything of that connection ends, nothing else. |
| `CodexSlots.CodexDeviceSimulator.Connect` | `firmware/simulator/codex_device_simulator.cpp:5-12` | A new generation ends whatever is live, and says so once. |
| `CodexSlots.CodexDeviceSimulator.Disconnect` | `firmware/simulator/codex_device_simulator.cpp:14-18` | Nothing is live afterwards, and what was open will never finish. |
| `CodexSlots.CodexDeviceSimulator.HandleInput` | `firmware/simulator/codex_device_simulator.cpp:20-23` | At most two actions, none of them a finished one; a talk key starts a capture of the current connection, and playback changes only by being preempted. |
| `CodexSlots.CodexDeviceSimulator.BeginPlayback` | `firmware/simulator/codex_device_simulator.cpp:25-46` | A begun playback is the active identity of the current connection. |
| `CodexSlots.CodexDeviceSimulator.StartPlayback` | `firmware/simulator/codex_device_simulator.cpp:48-50` | Playing starts exactly from buffering. |
| `CodexSlots.CodexDeviceSimulator.DeliverFrame` | `firmware/simulator/codex_device_simulator.cpp:52-59` | A dropped frame changes nothing, an accepted one is the next in order. |
| `CodexSlots.CodexDeviceSimulator.EndTransfer` | `firmware/simulator/codex_device_simulator.cpp:61-63` | The transfer ends only with every frame delivered. |
| `CodexSlots.CodexDeviceSimulator.NeverBoth` | `firmware/simulator/codex_device_simulator.cpp:5-87` | Capture and playback are never both live. |
| `CodexSlots.CodexDeviceSimulator.Drain` | `firmware/simulator/codex_device_simulator.cpp:65-74` | The only place a finished action comes from, once per request and after every frame. |
| `CodexSlots.CodexDeviceSimulator.AcknowledgeFinished` | `firmware/simulator/codex_device_simulator.cpp:80-87` | Exactly the finished active playback is acknowledged. |
| `CodexSlots.CodexDeviceSimulator.FinishedOnce` | `firmware/simulator/codex_device_simulator.cpp:5-87` | No request finishes twice, and none that was preempted, dropped or disconnected ever finishes. |
| `Eiad.DifferenceIsClose` | `firmware/features/speaker_assets/sound_asset_reader.cpp:220-248` | The shifts lose less than three against the exact step (the sample step of section 4.5.1 of RFC 3551). |
| `Eiad.SignMirrors` | `firmware/features/speaker_assets/sound_asset_reader.cpp:220-248` | The sign bit only chooses the direction. |
| `Eiad.DifferenceBits` | `firmware/features/speaker_assets/sound_asset_reader.cpp:220-235` | An eighth of the step always, and a quarter, a half and all of it for the three magnitude bits. |
| `Eiad.ValueMoves` | `firmware/features/speaker_assets/sound_asset_reader.cpp:220-242` | Codes below eight move up, the others down, by that difference, within 16 bits. |
| `Eiad.IndexMoves` | `firmware/features/speaker_assets/sound_asset_reader.cpp:243-247` | Magnitudes 0 to 3 move the index by -1, larger ones m by 2(m - 3), within the table. |
| `Eiad.StepsGrow` | `firmware/features/speaker_assets/sound_asset_reader.cpp:34-46` | Each step is a tenth larger, to the next integer or the one after it, from 7 up to 32767. |
| `EiadWriter.ReadCodesPack` | `firmware/features/speaker_assets/sound_asset_reader.cpp:728-740` | Packing two codes a byte, the earlier one in the low nibble, inverts reading them, for every payload. |
| `EiadWriter.FrameRoundTrip` | `firmware/diagnostics/speaker_ima_adpcm_probe/ima_adpcm_decoder.cpp:172-230` | A written frame is valid and both decoders hear exactly its track, sample by sample. |
| `EiadWriter.ResourceRoundTrip` | `firmware/diagnostics/speaker_ima_adpcm_probe/ima_adpcm_decoder.cpp:90-160` | Every regular sound can be written byte by byte, its resource is valid and its samples are the batch result. |
| `EiadWriter.ValidIsWritten` | `firmware/diagnostics/speaker_ima_adpcm_probe/ima_adpcm_decoder.cpp:90-160` | The batch decoder accepts exactly the resources that can be written like that. |
| `Eiad.FrameCount` | `firmware/diagnostics/speaker_ima_adpcm_probe/ima_adpcm_decoder.cpp:90-160` | A valid resource has exactly the frames its sample count needs. |
| `Eiad.AcceptableStep` | `firmware/diagnostics/speaker_ima_adpcm_probe/ima_adpcm_decoder.cpp:90-160` | Checking one frame and going on decides the whole resource. |
| `Eiad.UnacceptableIsInvalid` | `firmware/diagnostics/speaker_ima_adpcm_probe/ima_adpcm_decoder.cpp:90-160` | A frame that fails a check makes the resource invalid. |
| `Eiad.ValidOpens` | `firmware/features/speaker_assets/sound_asset_reader.cpp:504-546` | Inside its limits the streaming decoder opens what the batch decoder accepts. |
| `Eiad.DecodeInto` | `firmware/features/speaker_assets/sound_asset_reader.cpp:220-248` | The loop computes the samples of the frame, code by code, and touches nothing behind them. |
| `Eiad.ImaAdpcmDecoder.Open` | `firmware/diagnostics/speaker_ima_adpcm_probe/ima_adpcm_decoder.cpp:90-160` | Open accepts exactly the valid resources. |
| `Eiad.ImaAdpcmDecoder.DecodeNext` | `firmware/diagnostics/speaker_ima_adpcm_probe/ima_adpcm_decoder.cpp:172-230` | The next frame, whole, or nothing; the frames in order are the batch result, which is the sound that was written (`EiadWriter.ResourceRoundTrip`). |
| `Eiad.SoundAssetStreamDecoder.Reset` | `firmware/features/speaker_assets/sound_asset_reader.cpp:566-574` | Decoding starts over. |
| `Eiad.SoundAssetStreamDecoder.DecodeNext` | `firmware/features/speaker_assets/sound_asset_reader.cpp:623-746` | One frame in order or no change at all, under any availability; End means everything was played, and everything is the sound that was written (`EiadWriter.ResourceRoundTrip`). |
| `Eiad.SoundAssetStreamDecoder.PlayedIsPrefix` | `firmware/features/speaker_assets/sound_asset_reader.cpp:623-746` | What was played is a prefix of the batch result, all of it at the end. |

## Left out

- SHA-256, CRC-32 and the manifest grammar inside the store: parameters (`Hashes`); every store result holds for any deterministic choice. CRC-32 is concrete in `Crc32` and `PlanWire`.
- StoreRuns.Upload: takes units that were durable before it started on trust; a colliding unit already in flash is kept by the store, and the commit answers with a hash mismatch.
- StoreRecovery.Recover: assumes that no cut unit of this upload passes its own CRC or digest (`TornIsNoticed`); one that does is kept by the store, and the commit answers with a hash mismatch. A resume by transaction id is part of the run unless the other bank bears the same id.
- SoundStore.SoundAssetStore.BeginNew: the hash permits of one start are one claim that may fail; refused permits inside decoding and bank validation appear as failed reads.
- ChunkedStorage.ChunkedSoundBankStorage.Read: the claims are recorded, the backend reads under them leave no trace of their own; how a claim comes to be granted is the subject of `PermitExchange`.
- SoundStore.SoundAssetStore.AcquireActiveRead: lease ids are fresh among live leases; across a wrap of the 64-bit counter an id may come back.
- Runtime.RuntimeCore.Import: the rings are sequences with the capacities of the source, so slot reuse inside a ring is not modelled.
- Session.SpeakerAssetsSession.Complete: replies are datatypes; their byte layout is not modelled.
- Session.SpeakerAssetsSession.Consume: request fingerprints are an arbitrary function of the request's content, so a colliding digest counts as the same request, as in the source.
- Assemblers.FragmentBuffer.Accept: owner and unit checks that precede it are made by the session model.
- PermitExchange.RequestKept: the two looks at the priority word inside one claim are the steps WorkerCheck and WorkerClaim; the work of a permit is an opaque number.
- StoreExecutor.Execute: null pointers and unknown action kinds, and the comparisons of an identity with itself.
- UploadService.Life: the runtime between frames and session is the subject of `Runtime`; here frames reach the session directly.
- KeyboardPipeline.Keyboard.Poll: a disconnect or a fatal radio result that ends the endpoint lifetime is outside the pipeline; reports the radio may drop are only wheel movements and app commands.
- Eiad.SoundAssetStreamDecoder.DecodeNext: bank-backed and embedded sources differ only in where bytes come from; both are the published source.
- Eiad.StepsGrow: bounds each step by its predecessor up to one; which of the two it is comes from the table.
- FixedText.BleFixedTextStream.Pump: the radio side that empties the queue is any caller.
- FixedTextRuns.Run: the queue is never cleared as a whole; that happens with the loss of the connection, after which the owner is another one.
- InputReservation.Run: one endpoint lifetime of the BLE queue; an input that is down does not go down again, and a key and a hotkey of one input take turns. The two latches that choose the endpoint are the subject of `Transport`.
- SessionMemory.Run: the close of all routes ends the memory by design and is not part of the run.
- Frame codecs of USB and Wi-Fi: the decoder is a parameter of `RuntimeCore`, as are the hash functions of the closed-route filter.
- Diagnostics counters, watermarks, advertised credit, and removal of a reply by sequence for another transport.
- Boot-time read and release jobs of the cooperative runner, and resource lookup inside a bank.
- Debouncing of the USB presence signal; sockets, NimBLE, TinyUSB, FreeRTOS, I2S, NVS.
- JSON configuration, status strings, keycode and LED tables, battery and power policies: single-branch facts.
