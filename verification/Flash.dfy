/** Two banks of NOR flash: programming only clears bits, erasing sets them,
    and any mutation may stop after an arbitrary prefix. */
module Flash {
  import opened Bytes

  const SECTOR: nat := 0x1000
  const BANK_SIZE: nat := 0x90000
  const STAGING: nat := 0
  const MANIFEST: nat := 0x1000
  const JOURNAL: nat := 0x2000
  const PAYLOAD: nat := 0x3000
  const PAYLOAD_MAX: nat := 0x80000
  const RESERVED: nat := 0x83000
  const COMMIT: nat := 0x8F000

  datatype BankId = A | B {
    function Other(): BankId { if this == A then B else A }
  }

  datatype IoResult = Ok | InvalidArgument | OutOfBounds | NotAligned | Unavailable | IoError

  type Bank = b: seq<byte> | |b| == BANK_SIZE witness Fill(255, BANK_SIZE)

  datatype Image = Image(a: Bank, b: Bank) {
    function At(id: BankId): Bank { if id == A then a else b }

    function With(id: BankId, bank: Bank): (image: Image)
      ensures image.At(id) == bank && image.At(id.Other()) == At(id.Other())
    {
      if id == A then this.(a := bank) else this.(b := bank)
    }
  }

  /** `bank` with the bytes from `offset` on replaced by `bytes`. */
  function Overwrite(bank: Bank, offset: nat, bytes: seq<byte>): (r: Bank)
    requires offset + |bytes| <= BANK_SIZE
    ensures forall i | 0 <= i < BANK_SIZE ::
              r[i] == if offset <= i < offset + |bytes| then bytes[i - offset] else bank[i]
  {
    bank[..offset] + bytes + bank[offset + |bytes|..]
  }

  /** Programming `source` over `target` only clears bits. */
  predicate ByteProgrammable(target: byte, source: byte) {
    forall i | 0 <= i < 8 :: Bit(source, i) ==> Bit(target, i)
  }

  predicate Programmable(bank: Bank, offset: nat, source: seq<byte>)
    requires offset + |source| <= BANK_SIZE
  {
    forall i | 0 <= i < |source| :: ByteProgrammable(bank[offset + i], source[i])
  }

  lemma ErasedIsProgrammable(source: byte)
    ensures ByteProgrammable(255, source)
  {
    forall i | 0 <= i < 8 ensures Bit(255, i) { ErasedByteHasEveryBit(i); }
  }

  /** Equal or erased bytes can always be programmed: a torn write can be repeated. */
  lemma RetryIsProgrammable(bank: Bank, offset: nat, source: seq<byte>)
    requires offset + |source| <= BANK_SIZE
    requires forall i | 0 <= i < |source| :: bank[offset + i] == 255 || bank[offset + i] == source[i]
    ensures Programmable(bank, offset, source)
  {
    forall i | 0 <= i < |source| ensures ByteProgrammable(bank[offset + i], source[i]) {
      ErasedIsProgrammable(source[i]);
    }
  }

  /** Without `steady` every call may fail. Reads certainly fail once `deafFrom` images are
      in the history. */
  datatype Faults = Faults(steady: bool, deafFrom: Option<nat>)

  const NO_FAULTS := Faults(true, None)

  /** The storage below the store. A failing write or erase may already have changed any
      prefix of its range. `history` holds the image after every mutation attempt. */
  class FlashStorage {
    var image: Image
    var faults: Faults
    var history: seq<Image>

    predicate Healthy()
      reads this`faults
    {
      faults.steady && faults.deafFrom.None?
    }

    predicate Deaf()
      reads this`faults, this`history
    {
      faults.deafFrom.Some? && |history| >= faults.deafFrom.value
    }

    /** No read can fail now. */
    predicate Readable()
      reads this`faults, this`history
    {
      faults.steady && !Deaf()
    }

    /** Reads work until `n` more mutations have been tried, and fail from then on. */
    predicate DeafAfter(n: nat)
      reads this`faults, this`history
    {
      faults == Faults(true, Some(|history| + n))
    }

    constructor ()
      ensures image == Image(Fill(255, BANK_SIZE), Fill(255, BANK_SIZE))
      ensures faults == NO_FAULTS && history == [image]
    {
      image := Image(Fill(255, BANK_SIZE), Fill(255, BANK_SIZE));
      faults := NO_FAULTS;
      history := [Image(Fill(255, BANK_SIZE), Fill(255, BANK_SIZE))];
    }

    method Fails() returns (r: IoResult)
      ensures r.Ok? || r.Unavailable? || r.IoError?
      ensures faults.steady ==> r.Ok?
    {
      var fault: bool, unavailable: bool := *, *;
      r := if faults.steady || !fault then Ok else if unavailable then Unavailable else IoError;
    }

    /** Permission to hash the next piece; a claim may be refused like any other access. */
    method Checkpoint() returns (r: IoResult)
      ensures r.Ok? || r.Unavailable? || r.IoError?
      ensures faults.steady ==> r.Ok?
    {
      r := Fails();
    }

    method Read(id: BankId, offset: nat, length: nat) returns (r: IoResult, data: seq<byte>)
      ensures offset + length > BANK_SIZE ==> r.OutOfBounds?
      ensures offset + length <= BANK_SIZE ==> r.Ok? || r.Unavailable? || r.IoError?
      ensures offset + length <= BANK_SIZE && Readable() ==> r.Ok?
      ensures Deaf() ==> !r.Ok?
      ensures r.Ok? ==> data == image.At(id)[offset..offset + length]
    {
      data := [];
      if offset + length > BANK_SIZE {
        return OutOfBounds, data;
      }
      if Deaf() { return Unavailable, data; }
      r := Fails();
      if r.Ok? { data := image.At(id)[offset..offset + length]; }
    }

    method Write(id: BankId, offset: nat, source: seq<byte>) returns (r: IoResult, ghost done: nat)
      modifies this
      ensures faults == old(faults)
      ensures done <= |source|
      ensures offset + |source| > BANK_SIZE ==> r.OutOfBounds? && done == 0 && image == old(image)
      ensures offset + |source| <= BANK_SIZE ==>
                image == old(image).With(id, Overwrite(old(image).At(id), offset, source[..done]))
      ensures offset + |source| <= BANK_SIZE ==> r.Ok? || r.Unavailable? || r.IoError?
      ensures r.Ok? ==> done == |source|
      ensures offset + |source| <= BANK_SIZE && faults.steady && Programmable(old(image).At(id), offset, source)
              ==> r.Ok?
      ensures history == old(history) + [image]
    {
      done := 0;
      if offset + |source| > BANK_SIZE {
        r := OutOfBounds;
      } else {
        r := Fails();
        var cut: nat :| cut <= |source|;
        var programmed := if r.Ok? then |source| else cut;
        if Programmable(image.At(id), offset, source[..programmed]) {
          done := programmed;
          image := image.With(id, Overwrite(image.At(id), offset, source[..programmed]));
        } else {
          r := IoError;
        }
        assert source[..|source|] == source;
        assert Overwrite(old(image).At(id), offset, source[..0]) == old(image).At(id);
      }
      history := history + [image];
    }

    method Erase(id: BankId, offset: nat, length: nat) returns (r: IoResult, ghost done: nat)
      modifies this
      ensures faults == old(faults)
      ensures done <= length
      ensures offset % SECTOR != 0 || length % SECTOR != 0 ==>
                r.NotAligned? && done == 0 && image == old(image)
      ensures offset % SECTOR == 0 && length % SECTOR == 0 && offset + length > BANK_SIZE ==>
                r.OutOfBounds? && done == 0 && image == old(image)
      ensures offset % SECTOR == 0 && length % SECTOR == 0 && offset + length <= BANK_SIZE ==>
                && (r.Ok? || r.Unavailable? || r.IoError?)
                && (r.Ok? ==> done == length)
                && (faults.steady ==> r.Ok?)
                && image == old(image).With(id, Overwrite(old(image).At(id), offset, Fill(255, done)))
      ensures history == old(history) + [image]
    {
      done := 0;
      if offset % SECTOR != 0 || length % SECTOR != 0 {
        r := NotAligned;
      } else if offset + length > BANK_SIZE {
        r := OutOfBounds;
      } else {
        r := Fails();
        var cut: nat :| cut <= length;
        var erased := if r.Ok? then length else cut;
        done := erased;
        image := image.With(id, Overwrite(image.At(id), offset, Fill(255, erased)));
      }
      history := history + [image];
    }
  }
}
