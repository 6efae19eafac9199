/** The store's checks of one bank. They change nothing, and a failed read is reported as
    such, never as a verdict about the content. */
module BankChecks {
  import opened Bytes
  import opened Flash
  import opened SoundFormat
  import opened SoundBanks
  import opened CrashInvariant

  const IO_BUFFER: nat := 256

  function MapIo(r: IoResult): StoreResult {
    match r
    case Ok => StoreResult.Ok
    case Unavailable => StoreResult.Unavailable
    case IoError => StoreResult.IoError
    case _ => StoreResult.InvalidArgument
  }

  predicate Faulted(r: StoreResult) { r.Unavailable? || r.IoError? }

  /** Reads a region in buffers of at most 256 bytes. */
  method ReadRegion(storage: FlashStorage, id: BankId, offset: nat, length: nat)
    returns (r: StoreResult, data: seq<byte>)
    requires offset + length <= BANK_SIZE
    ensures r.Ok? || Faulted(r)
    ensures storage.Readable() ==> r.Ok?
    ensures storage.Deaf() && length > 0 ==> !r.Ok?
    ensures r.Ok? ==> data == storage.image.At(id)[offset..offset + length]
  {
    data := [];
    while |data| < length
      invariant |data| <= length && (storage.Deaf() ==> data == [])
      invariant data == storage.image.At(id)[offset..offset + |data|]
    {
      var amount := Min(IO_BUFFER, length - |data|);
      var io, bytes := storage.Read(id, offset + |data|, amount);
      if !io.Ok? { return MapIo(io), []; }
      data := data + bytes;
    }
    r := StoreResult.Ok;
  }

  /** verify_region_erased */
  method VerifyErased(storage: FlashStorage, id: BankId, offset: nat, length: nat)
    returns (r: StoreResult)
    requires offset + length <= BANK_SIZE
    ensures r.Ok? || r.InvalidBank? || Faulted(r)
    ensures r.Ok? ==> Erased(storage.image.At(id), offset, offset + length)
    ensures r.InvalidBank? ==> !Erased(storage.image.At(id), offset, offset + length)
    ensures storage.Readable() ==> !Faulted(r)
  {
    var consumed := 0;
    while consumed < length
      invariant consumed <= length
      invariant Erased(storage.image.At(id), offset, offset + consumed)
    {
      var amount := Min(IO_BUFFER, length - consumed);
      var io, bytes := storage.Read(id, offset + consumed, amount);
      if !io.Ok? { return MapIo(io); }
      if !AllAre(255, bytes) {
        var i :| 0 <= i < |bytes| && bytes[i] != 255;
        assert storage.image.At(id)[offset + consumed + i] == bytes[i];
        return InvalidBank;
      }
      forall i | offset + consumed <= i < offset + consumed + amount
        ensures storage.image.At(id)[i] == 255
      {
        assert storage.image.At(id)[i] == bytes[i - offset - consumed];
      }
      consumed := consumed + amount;
    }
    r := StoreResult.Ok;
  }

  function RecordVerdict(h: Hashes, id: BankId, bank: Bank): StoreResult {
    if RecordBlank(bank) then FactoryBlank
    else if CommitOf(h, id, bank).None? then InvalidBank
    else StoreResult.Ok
  }

  /** decode_commit: body and marker are read separately. */
  method ReadCommit(h: Hashes, storage: FlashStorage, id: BankId)
    returns (r: StoreResult, s: Option<Snapshot>)
    ensures Faulted(r) || r == RecordVerdict(h, id, storage.image.At(id))
    ensures s == if r.Ok? then CommitOf(h, id, storage.image.At(id)) else None
    ensures storage.Readable() ==> !Faulted(r)
  {
    hide DecodeCommitRecord;
    s := None;
    var body, marker: seq<byte>;
    r, body := ReadRegion(storage, id, COMMIT, COMMIT_BODY);
    if !r.Ok? { return; }
    r, marker := ReadRegion(storage, id, COMMIT + COMMIT_BODY, COMMIT_RECORD - COMMIT_BODY);
    if !r.Ok? { return; }
    ghost var bank := storage.image.At(id);
    assert body + marker == Record(bank);
    if AllAre(255, body + marker) {
      r := FactoryBlank;
    } else {
      s := DecodeCommitRecord(h, id, body + marker);
      r := if s.Some? then StoreResult.Ok else InvalidBank;
    }
  }

  /** Manifest grammar and digests of the content a commit record describes. */
  method CheckContent(h: Hashes, storage: FlashStorage, s: Snapshot) returns (r: StoreResult)
    requires s.manifestBytes <= SECTOR && s.payloadBytes <= PAYLOAD_MAX
    ensures Faulted(r) || r == ContentVerdict(h, storage.image.At(s.bank), s)
    ensures storage.Readable() ==> !Faulted(r)
  {
    hide BundleDigest;
    var manifest, payload: seq<byte>;
    r, manifest := ReadRegion(storage, s.bank, MANIFEST, s.manifestBytes);
    if !r.Ok? { return; }
    r, payload := ReadRegion(storage, s.bank, PAYLOAD, s.payloadBytes);
    if !r.Ok? { return; }
    match h.manifest(manifest, payload)
    case NotCanonical => r := InvalidManifest;
    case ResourceHashMismatch => r := HashMismatch;
    case Canonical =>
      if h.sha256(manifest) != s.manifestSha || BundleDigest(h, manifest, payload) != s.bundleSha {
        r := HashMismatch;
      }
  }

  /** The unused rest of every region; a fault anywhere outranks programmed bytes. */
  method CheckTails(storage: FlashStorage, id: BankId, manifestBytes: nat, payloadBytes: nat)
    returns (r: StoreResult)
    requires manifestBytes <= SECTOR && payloadBytes <= PAYLOAD_MAX
    ensures Faulted(r) || r == if TailsErased(storage.image.At(id), manifestBytes, payloadBytes)
                               then StoreResult.Ok else InvalidBank
    ensures storage.Readable() ==> !Faulted(r)
  {
    hide Erased;
    var manifest := VerifyErased(storage, id, MANIFEST + manifestBytes, SECTOR - manifestBytes);
    var payload := VerifyErased(storage, id, PAYLOAD + payloadBytes, PAYLOAD_MAX - payloadBytes);
    var reserved := VerifyErased(storage, id, RESERVED, COMMIT - RESERVED);
    var record := VerifyErased(storage, id, COMMIT + COMMIT_RECORD, SECTOR - COMMIT_RECORD);
    r := if Faulted(manifest) then manifest
         else if Faulted(payload) then payload
         else if Faulted(reserved) then reserved
         else if Faulted(record) then record
         else if manifest.Ok? && payload.Ok? && reserved.Ok? && record.Ok? then StoreResult.Ok
         else InvalidBank;
  }

  /** validate_sound_bank */
  method ValidateBank(h: Hashes, storage: FlashStorage, id: BankId)
    returns (r: StoreResult, s: Option<Snapshot>)
    ensures Faulted(r) || r == Validate(h, id, storage.image.At(id))
    ensures s == if r.Ok? then CommitOf(h, id, storage.image.At(id)) else None
    ensures r.Ok? <==> s.Some?
    ensures storage.Readable() ==> !Faulted(r)
  {
    hide DecodeCommitRecord, ContentVerdict, TailsErased, SnapshotShape;
    var found: Option<Snapshot>;
    s := None;
    r, found := ReadCommit(h, storage, id);
    if !r.Ok? { return; }
    assert SnapshotShape(found.value);
    CommittedSizes(found.value);
    r := CheckContent(h, storage, found.value);
    if !r.Ok? { return; }
    r := CheckTails(storage, id, found.value.manifestBytes, found.value.payloadBytes);
    if r.Ok? { s := found; }
  }

  lemma CommittedSizes(s: Snapshot)
    requires SnapshotShape(s)
    ensures s.manifestBytes <= SECTOR && s.payloadBytes <= PAYLOAD_MAX
  {
  }

  /** validate_sound_bank_read_candidate: only the manifest. */
  method CheckReadCandidate(h: Hashes, storage: FlashStorage, s: Snapshot) returns (r: StoreResult)
    requires SnapshotShape(s)
    ensures Faulted(r) || r == if ManifestAuthentic(h, storage.image, s) then StoreResult.Ok else HashMismatch
    ensures storage.Readable() ==> !Faulted(r)
  {
    var manifest: seq<byte>;
    r, manifest := ReadRegion(storage, s.bank, MANIFEST, s.manifestBytes);
    if r.Ok? && h.sha256(manifest) != s.manifestSha { r := HashMismatch; }
  }

  function ManifestVerdictOf(h: Hashes, bank: Bank, plan: Plan): StoreResult
    requires PlanValid(plan)
  {
    var manifest := ManifestBytes(bank, plan.manifestBytes);
    if h.crc32(manifest) != plan.manifestCrc then CrcMismatch
    else if h.sha256(manifest) != plan.manifestSha then HashMismatch
    else StoreResult.Ok
  }

  /** verify_manifest: the region is read once for each hash. */
  method VerifyManifest(h: Hashes, storage: FlashStorage, u: Update) returns (r: StoreResult)
    requires PlanValid(u.plan)
    ensures r.IoError? || r == ManifestVerdictOf(h, storage.image.At(u.bank), u.plan)
    ensures storage.Readable() ==> !r.IoError?
    ensures storage.Deaf() ==> !r.Ok?
    ensures r.Ok? ==> ManifestDurable(h, storage.image.At(u.bank), u.plan)
  {
    var read1, forCrc := ReadRegion(storage, u.bank, MANIFEST, u.plan.manifestBytes);
    if !read1.Ok? { return StoreResult.IoError; }
    var read2, forSha := ReadRegion(storage, u.bank, MANIFEST, u.plan.manifestBytes);
    if !read2.Ok? { return StoreResult.IoError; }
    r := if h.crc32(forCrc) != u.plan.manifestCrc then CrcMismatch
         else if h.sha256(forSha) != u.plan.manifestSha then HashMismatch
         else StoreResult.Ok;
  }

  /** verify_payload_block */
  method VerifyBlock(h: Hashes, storage: FlashStorage, u: Update, index: nat)
    returns (r: StoreResult, complete: bool)
    requires PlanValid(u.plan) && index < BlockCount(u.plan.payloadBytes)
    ensures r.Ok? || r.IoError?
    ensures storage.Readable() ==> r.Ok?
    ensures complete <==> r.Ok? && BlockDurable(h, storage.image.At(u.bank), u.plan, index)
  {
    complete := false;
    var data: seq<byte>;
    r, data := ReadRegion(storage, u.bank, PAYLOAD + index * SECTOR,
                          BlockLength(u.plan.payloadBytes, index));
    if !r.Ok? { return StoreResult.IoError, false; }
    complete := h.crc32(data) == u.plan.blockCrcs[index];
  }
}
