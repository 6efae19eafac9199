/** Which bundle a flash image holds: strict validation, the fast boot read, and the
    two-bank selection. All of it is read off the image alone. */
module SoundBanks {
  import opened Bytes
  import opened Flash
  import opened SoundFormat

  function Record(bank: Bank): (r: seq<byte>)
    ensures |r| == COMMIT_RECORD
  {
    bank[COMMIT..COMMIT + COMMIT_RECORD]
  }

  function CommitOf(h: Hashes, id: BankId, bank: Bank): Option<Snapshot> {
    DecodeCommitRecord(h, id, Record(bank))
  }

  function StagingOf(h: Hashes, id: BankId, bank: Bank): Option<Update> {
    DecodeStaging(h, id, bank[..STAGING_BYTES])
  }

  predicate RecordBlank(bank: Bank) { AllAre(255, Record(bank)) }

  predicate Erased(bank: Bank, from: nat, to: nat)
    requires to <= BANK_SIZE
  {
    forall i | from <= i < to :: bank[i] == 255
  }

  predicate TailsErased(bank: Bank, manifestBytes: nat, payloadBytes: nat) {
    && Erased(bank, MANIFEST + manifestBytes, JOURNAL)
    && (payloadBytes <= PAYLOAD_MAX ==> Erased(bank, PAYLOAD + payloadBytes, RESERVED))
    && Erased(bank, RESERVED, COMMIT)
    && Erased(bank, COMMIT + COMMIT_RECORD, BANK_SIZE)
  }

  function ManifestBytes(bank: Bank, length: nat): seq<byte>
    requires length <= SECTOR
  {
    bank[MANIFEST..MANIFEST + length]
  }

  function PayloadBytes(bank: Bank, length: nat): seq<byte>
    requires length <= PAYLOAD_MAX
  {
    bank[PAYLOAD..PAYLOAD + length]
  }

  /** "EASYINPUT-SND-V1" */
  const BUNDLE_DOMAIN: seq<byte> :=
    [69, 65, 83, 89, 73, 78, 80, 85, 84, 45, 83, 78, 68, 45, 86, 49]

  /** What the bundle digest is taken of. */
  function BundleInput(manifest: seq<byte>, payload: seq<byte>): seq<byte> {
    BUNDLE_DOMAIN + Le(|manifest|, 4) + manifest + Le(|payload|, 4) + payload
  }

  function BundleDigest(h: Hashes, manifest: seq<byte>, payload: seq<byte>): Digest {
    h.sha256(BundleInput(manifest, payload))
  }

  /** No two contents are hashed alike. */
  lemma BundleInputInjective(m: seq<byte>, p: seq<byte>, m2: seq<byte>, p2: seq<byte>)
    requires |m| < 0x1_0000_0000 && |m2| < 0x1_0000_0000 && |p| < 0x1_0000_0000 && |p2| < 0x1_0000_0000
    requires BundleInput(m, p) == BundleInput(m2, p2)
    ensures m == m2 && p == p2
  {
    hide Le, FromLe, Pow256;
    var x, y := BundleInput(m, p), BundleInput(m2, p2);
    Pow256Values();
    LeRoundTrip(|m|, 4);
    LeRoundTrip(|m2|, 4);
    assert x[16..20] == Le(|m|, 4) && y[16..20] == Le(|m2|, 4);
    assert x[20..20 + |m|] == m && y[20..20 + |m2|] == m2;
    assert x[24 + |m|..] == p && y[24 + |m2|..] == p2;
  }

  /** Manifest grammar and both digests, in the order the store checks them. */
  function ContentVerdict(h: Hashes, bank: Bank, s: Snapshot): (r: StoreResult)
    requires s.manifestBytes <= SECTOR && s.payloadBytes <= PAYLOAD_MAX
    ensures r.Ok? || r.InvalidManifest? || r.HashMismatch?
  {
    var manifest := ManifestBytes(bank, s.manifestBytes);
    var payload := PayloadBytes(bank, s.payloadBytes);
    match h.manifest(manifest, payload)
    case NotCanonical => InvalidManifest
    case ResourceHashMismatch => HashMismatch
    case Canonical =>
      if h.sha256(manifest) != s.manifestSha || BundleDigest(h, manifest, payload) != s.bundleSha
      then HashMismatch
      else StoreResult.Ok
  }

  /** validate_sound_bank: the strict check of a whole bank. */
  function Validate(h: Hashes, id: BankId, bank: Bank): (r: StoreResult)
    ensures r.Ok? || NonFatal(r)
    ensures r.Ok? ==> CommitOf(h, id, bank).Some?
  {
    if RecordBlank(bank) then FactoryBlank
    else match CommitOf(h, id, bank)
      case None => InvalidBank
      case Some(s) =>
        var content := ContentVerdict(h, bank, s);
        if !content.Ok? then content
        else if !TailsErased(bank, s.manifestBytes, s.payloadBytes) then InvalidBank
        else StoreResult.Ok
  }

  /** What a valid bank contains, byte by byte what its record promises. */
  lemma ValidMeansAuthentic(h: Hashes, id: BankId, bank: Bank, s: Snapshot)
    requires Validate(h, id, bank).Ok? && CommitOf(h, id, bank) == Some(s)
    ensures 32 <= s.manifestBytes <= SECTOR && s.payloadBytes <= PAYLOAD_MAX
    ensures h.manifest(ManifestBytes(bank, s.manifestBytes), PayloadBytes(bank, s.payloadBytes)).Canonical?
    ensures h.sha256(ManifestBytes(bank, s.manifestBytes)) == s.manifestSha
    ensures h.sha256(BundleInput(ManifestBytes(bank, s.manifestBytes), PayloadBytes(bank, s.payloadBytes))) == s.bundleSha
    ensures Erased(bank, MANIFEST + s.manifestBytes, JOURNAL) && Erased(bank, PAYLOAD + s.payloadBytes, COMMIT)
  {
    hide DecodeCommitRecord, BundleInput;
  }

  /** A grammatical bank whose bytes do not hash to what its record says is a mismatch. */
  lemma WrongDigestIsMismatch(h: Hashes, id: BankId, bank: Bank, s: Snapshot)
    requires CommitOf(h, id, bank) == Some(s) && !RecordBlank(bank) && SnapshotShape(s)
    requires h.manifest(ManifestBytes(bank, s.manifestBytes), PayloadBytes(bank, s.payloadBytes)).Canonical?
    requires h.sha256(ManifestBytes(bank, s.manifestBytes)) != s.manifestSha
          || h.sha256(BundleInput(ManifestBytes(bank, s.manifestBytes), PayloadBytes(bank, s.payloadBytes))) != s.bundleSha
    ensures Validate(h, id, bank).HashMismatch? && Strict(h, id, bank).None?
  {
    hide DecodeCommitRecord, BundleInput;
  }

  predicate NonFatal(r: StoreResult) {
    r.FactoryBlank? || r.InvalidBank? || r.InvalidManifest? || r.HashMismatch?
  }

  /** The snapshot a strict scan publishes for one bank. */
  function Strict(h: Hashes, id: BankId, bank: Bank): (r: Option<Snapshot>)
    ensures r.Some? ==> r.value.bank == id && SnapshotShape(r.value)
  {
    if Validate(h, id, bank).Ok? then CommitOf(h, id, bank) else None
  }

  // ---------- Selection ----------

  datatype Selection = Selection(
    bankA: Option<Snapshot>, bankB: Option<Snapshot>, active: Option<Snapshot>, splitBrain: bool)
  {
    function At(id: BankId): Option<Snapshot> { if id == A then bankA else bankB }
  }

  const NO_SELECTION := Selection(None, None, None, false)

  function Select(a: Option<Snapshot>, b: Option<Snapshot>): Selection {
    if a.None? then Selection(a, b, b, false)
    else if b.None? then Selection(a, b, a, false)
    else
      var ga, gb := a.value.generation, b.value.generation;
      if ga > gb then
        if ga - gb != 1 then Selection(a, b, None, true) else Selection(a, b, a, false)
      else if gb > ga then
        if gb - ga != 1 then Selection(a, b, None, true) else Selection(a, b, b, false)
      else if a.value.bundleSha == b.value.bundleSha then Selection(a, b, a, false)
      else Selection(a, b, None, true)
  }

  /** The newer of two consecutive bundles, in either order; anything else is a split. */
  lemma SelectPicksNewest(a: Option<Snapshot>, b: Option<Snapshot>)
    ensures Select(a, b).splitBrain <==>
              && a.Some? && b.Some?
              && a.value.generation != b.value.generation + 1 && b.value.generation != a.value.generation + 1
              && (a.value.generation == b.value.generation ==> a.value.bundleSha != b.value.bundleSha)
    ensures Select(a, b).active.Some? <==> !Select(a, b).splitBrain && (a.Some? || b.Some?)
    ensures forall s | s in {a, b} && s.Some? && Select(a, b).active.Some? ::
              s.value.generation <= Select(a, b).active.value.generation
    ensures Select(a, b).active in {a, b, None}
    ensures Select(b, a).splitBrain == Select(a, b).splitBrain
    ensures a.None? || b.None? || a.value.generation != b.value.generation ==> Select(b, a).active == Select(a, b).active
  {
  }

  /** What the strict scan serves hashes to both digests it is announced with. */
  lemma ServedIsAuthentic(h: Hashes, image: Image, s: Snapshot)
    requires StrictSelection(h, image).active == Some(s)
    ensures 32 <= s.manifestBytes <= SECTOR && s.payloadBytes <= PAYLOAD_MAX
    ensures var bank := image.At(s.bank);
            && CommitOf(h, s.bank, bank) == Some(s)
            && h.sha256(ManifestBytes(bank, s.manifestBytes)) == s.manifestSha
            && h.sha256(BundleInput(ManifestBytes(bank, s.manifestBytes), PayloadBytes(bank, s.payloadBytes))) == s.bundleSha
  {
    hide Validate, DecodeCommitRecord, BundleInput;
    ValidMeansAuthentic(h, s.bank, image.At(s.bank), s);
  }

  function StrictSelection(h: Hashes, image: Image): Selection {
    Select(Strict(h, A, image.a), Strict(h, B, image.b))
  }

  predicate ManifestAuthentic(h: Hashes, image: Image, s: Snapshot)
    requires SnapshotShape(s)
  {
    h.sha256(ManifestBytes(image.At(s.bank), s.manifestBytes)) == s.manifestSha
  }

  function Authenticated(h: Hashes, image: Image, s: Option<Snapshot>): Option<Snapshot>
    requires s.Some? ==> SnapshotShape(s.value)
  {
    if s.Some? && ManifestAuthentic(h, image, s.value) then s else None
  }

  /** scan_committed_content: commit records first, then only the manifest of the candidate. */
  function FastSelection(h: Hashes, image: Image): Selection {
    var a, b := CommitOf(h, A, image.a), CommitOf(h, B, image.b);
    if RecordBlank(image.a) && RecordBlank(image.b) then NO_SELECTION
    else
      var candidates := Select(a, b);
      if candidates.splitBrain then
        Select(Authenticated(h, image, a), Authenticated(h, image, b))
      else if candidates.active.None? then candidates
      else if candidates.active.value.bank == A then
        if ManifestAuthentic(h, image, candidates.active.value) then Select(a, None)
        else Select(None, Authenticated(h, image, b))
      else
        if ManifestAuthentic(h, image, candidates.active.value) then Select(None, b)
        else Select(Authenticated(h, image, a), None)
  }

  /** Reading is refused for a split, and a device without a bundle says whether it ever had
      one. */
  lemma DispositionMeans(selection: Selection, blank: bool)
    ensures Disposition(selection, blank).Ok? <==> !selection.splitBrain && selection.active.Some?
    ensures Disposition(selection, blank).SplitBrain? <==> selection.splitBrain
    ensures Disposition(selection, blank).FactoryBlank? <==> !selection.splitBrain && selection.active.None? && blank
    ensures Disposition(selection, blank).Unavailable? <==> !selection.splitBrain && selection.active.None? && !blank
  {
  }

  /** read_selection_disposition */
  function Disposition(selection: Selection, blank: bool): StoreResult {
    if selection.splitBrain then SplitBrain
    else if selection.active.Some? then StoreResult.Ok
    else if blank then FactoryBlank
    else StoreResult.Unavailable
  }
}
