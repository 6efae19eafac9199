/** Storage split into bounded units, each under its own permit. To the store it is the
    plain storage: same results, same effects, same torn states. */
module ChunkedStorage {
  import opened Bytes
  import opened Flash

  const UNIT: nat := 256

  datatype WorkKind = ReadUnit | WriteUnit | EraseUnit | HashUnit

  /** One unit of work that was executed under a permit. */
  datatype Unit = Unit(kind: WorkKind, bank: BankId, offset: nat, bytes: nat)

  predicate UnitBounded(u: Unit) {
    0 < u.bytes && u.offset + u.bytes <= BANK_SIZE && (if u.kind.EraseUnit? then u.bytes == SECTOR else u.bytes <= UNIT)
  }

  /** The units of a range: consecutive, full but for the last. */
  function UnitsOf(kind: WorkKind, bank: BankId, offset: nat, length: nat, size: nat): seq<Unit>
    requires size > 0
    decreases length
  {
    if length == 0 then []
    else
      LastStart(length, size);
      var last := (length - 1) / size * size;
      UnitsOf(kind, bank, offset, last, size) + [Unit(kind, bank, offset + last, length - last)]
  }

  lemma LastStart(length: nat, size: nat)
    requires size > 0 && length > 0
    ensures 0 <= (length - 1) / size * size < length
    ensures length - (length - 1) / size * size <= size
  {
  }

  /** The unit after `consumed` whole ones. */
  lemma NextUnit(kind: WorkKind, bank: BankId, offset: nat, consumed: nat, amount: nat, size: nat)
    requires 0 < amount <= size && consumed % size == 0
    ensures UnitsOf(kind, bank, offset, consumed + amount, size)
         == UnitsOf(kind, bank, offset, consumed, size) + [Unit(kind, bank, offset + consumed, amount)]
  {
    WholeUnits(consumed, amount, size);
  }

  /** Whole units: as many as fit, one after the other. */
  lemma {:induction false} WholeUnitsMean(kind: WorkKind, bank: BankId, offset: nat, n: nat, size: nat, i: nat)
    requires size > 0 && i < n
    ensures var units := UnitsOf(kind, bank, offset, n * size, size);
            |units| == n && units[i] == Unit(kind, bank, offset + i * size, size)
    decreases n
  {
    hide UnitsOf;
    var before := (n - 1) * size;
    OneMoreUnit(n - 1, size);
    TimesSize(n - 1, size);
    NextUnit(kind, bank, offset, before, size, size);
    if n > 1 { WholeUnitsMean(kind, bank, offset, n - 1, size, if i < n - 1 then i else 0); }
    else { NoUnit(kind, bank, offset, size); }
  }

  lemma OneMoreUnit(n: nat, size: nat)
    ensures n * size + size == (n + 1) * size
  {
  }

  lemma NoUnit(kind: WorkKind, bank: BankId, offset: nat, size: nat)
    requires size > 0
    ensures UnitsOf(kind, bank, offset, 0, size) == []
  {
  }

  lemma TimesSize(n: nat, size: nat)
    requires size > 0
    ensures n * size % size == 0
  {
    Quotient(n * size, n, size);
  }

  /** Unit `i` starts `i` units into the range, and only the last one may be shorter. */
  lemma UnitsMean(kind: WorkKind, bank: BankId, offset: nat, whole: nat, rest: nat, size: nat, i: nat)
    requires 0 < rest <= size && i <= whole
    ensures var units := UnitsOf(kind, bank, offset, whole * size + rest, size);
            |units| == whole + 1 && units[i] == Unit(kind, bank, offset + i * size, if i < whole then size else rest)
  {
    TimesSize(whole, size);
    NextUnit(kind, bank, offset, whole * size, rest, size);
    if whole > 0 { WholeUnitsMean(kind, bank, offset, whole, size, if i < whole then i else 0); }
  }

  lemma WholeUnits(consumed: nat, amount: nat, size: nat)
    requires 0 < amount <= size && consumed % size == 0
    ensures (consumed + amount - 1) / size * size == consumed
  {
    var k := consumed / size;
    assert consumed == k * size;
    assert k * size <= consumed + amount - 1 < (k + 1) * size;
    Quotient(consumed + amount - 1, k, size);
  }

  lemma Quotient(x: nat, k: nat, size: nat)
    requires size > 0 && k * size <= x < (k + 1) * size
    ensures x / size == k
  {
    var q := x / size;
    if q > k { Scaled(k + 1, q, size); }
    if q < k { Scaled(q + 1, k, size); }
  }

  lemma Scaled(a: nat, b: nat, size: nat)
    requires a <= b
    ensures a * size <= b * size
  {
  }

  lemma {:induction false} UnitsArePrefix(kind: WorkKind, bank: BankId, offset: nat, m: nat, n: nat, size: nat)
    requires size > 0 && m % size == 0 && m <= n
    ensures UnitsOf(kind, bank, offset, m, size) <= UnitsOf(kind, bank, offset, n, size)
    decreases n
  {
    if m != n {
      LastStart(n, size);
      var last := (n - 1) / size * size;
      StartsAfter(m, n, size);
      UnitsArePrefix(kind, bank, offset, m, last, size);
    }
  }

  /** The claims after `consumed` bytes of a range. */
  predicate Claimed(before: seq<Unit>, after: seq<Unit>, kind: WorkKind, bank: BankId, offset: nat, consumed: nat, size: nat)
    requires size > 0
  {
    after == before + UnitsOf(kind, bank, offset, consumed, size)
  }

  /** No claim beyond the units of a range. */
  predicate Within(before: seq<Unit>, after: seq<Unit>, kind: WorkKind, bank: BankId, offset: nat, length: nat, size: nat)
    requires size > 0
  {
    before <= after <= before + UnitsOf(kind, bank, offset, length, size)
  }

  lemma NothingClaimed(before: seq<Unit>, kind: WorkKind, bank: BankId, offset: nat, length: nat, size: nat)
    requires size > 0
    ensures Claimed(before, before, kind, bank, offset, 0, size) && Within(before, before, kind, bank, offset, length, size)
  {
  }

  /** One unit further, or refused: still within the units of the whole range. */
  lemma ClaimedMore(before: seq<Unit>, middle: seq<Unit>, after: seq<Unit>, kind: WorkKind, bank: BankId, offset: nat, length: nat,
                    consumed: nat, amount: nat, size: nat)
    requires size > 0 && consumed % size == 0 && consumed < length && amount == Min(size, length - consumed)
    requires Claimed(before, middle, kind, bank, offset, consumed, size)
    requires after == middle || after == middle + [Unit(kind, bank, offset + consumed, amount)]
    ensures Within(before, after, kind, bank, offset, length, size)
    ensures after != middle ==> Claimed(before, after, kind, bank, offset, consumed + amount, size)
    ensures (consumed + amount) % size == 0 || consumed + amount == length
  {
    hide UnitsOf;
    NextUnit(kind, bank, offset, consumed, amount, size);
    UnitsArePrefix(kind, bank, offset, consumed, length, size);
    if amount == size {
      Multiple(consumed, size);
      UnitsArePrefix(kind, bank, offset, consumed + amount, length, size);
    }
  }

  lemma Multiple(consumed: nat, size: nat)
    requires size > 0 && consumed % size == 0
    ensures (consumed + size) % size == 0
  {
    var k := consumed / size;
    Quotient(consumed + size, k + 1, size);
  }

  lemma StartsAfter(m: nat, n: nat, size: nat)
    requires size > 0 && m % size == 0 && m < n
    ensures m <= (n - 1) / size * size
  {
    var k, q := m / size, (n - 1) / size;
    assert m == k * size;
    if q < k { Scaled(q + 1, k, size); } else { Scaled(k, q, size); }
  }

  /** The supervisor's side: it may refuse any claim; an accepted one is held until the
      unit is complete. */
  class PermitGate {
    var held: bool
    ghost var claims: seq<Unit>
    ghost var completed: nat

    predicate Idle()
      reads this
    {
      !held
    }

    ghost predicate Valid()
      reads this
    {
      && |claims| == completed + (if held then 1 else 0)
      && forall i | 0 <= i < |claims| :: UnitBounded(claims[i])
    }

    constructor ()
      ensures Valid() && Idle() && claims == []
    {
      held, claims, completed := false, [], 0;
    }

    method Claim(u: Unit) returns (ok: bool)
      requires Valid() && Idle() && UnitBounded(u)
      modifies this
      ensures Valid() && held == ok
      ensures claims == if ok then old(claims) + [u] else old(claims)
    {
      var granted: bool := *;
      ok := granted;
      if ok { held, claims := true, claims + [u]; }
    }

    method Complete()
      requires Valid() && held
      modifies this
      ensures Valid() && Idle() && claims == old(claims)
    {
      held, completed := false, completed + 1;
    }
  }

  /** Every image from `from` on is the start image with some prefix of `source` written. */
  ghost predicate Prefixes(history: seq<Image>, from: nat, start: Image, id: BankId, offset: nat, source: seq<byte>)
    requires offset + |source| <= BANK_SIZE
  {
    from <= |history| && forall k | from <= k < |history| :: TornBy(history[k], start, id, offset, source)
  }

  predicate TornBy(image: Image, start: Image, id: BankId, offset: nat, source: seq<byte>)
    requires offset + |source| <= BANK_SIZE
  {
    exists done | 0 <= done <= |source| :: image == start.With(id, Overwrite(start.At(id), offset, source[..done]))
  }

  /** The first `done` bytes are written, and every image on the way was a torn state. */
  ghost predicate Done(image: Image, history: seq<Image>, from: nat, start: Image, id: BankId, offset: nat, source: seq<byte>, done: nat) {
    && offset + |source| <= BANK_SIZE && done <= |source|
    && image == start.With(id, Overwrite(start.At(id), offset, source[..done]))
    && Prefixes(history, from, start, id, offset, source)
  }

  lemma NothingDone(image: Image, history: seq<Image>, id: BankId, offset: nat, source: seq<byte>)
    requires offset + |source| <= BANK_SIZE
    ensures Done(image, history, |history|, image, id, offset, source, 0)
  {
    assert Overwrite(image.At(id), offset, source[..0]) == image.At(id);
    assert image.With(id, image.At(id)) == image;
  }

  lemma DoneMeans(image: Image, history: seq<Image>, from: nat, start: Image, id: BankId, offset: nat, source: seq<byte>, done: nat)
    requires Done(image, history, from, start, id, offset, source, done)
    ensures offset + |source| <= BANK_SIZE && done <= |source|
    ensures image == start.With(id, Overwrite(start.At(id), offset, source[..done]))
    ensures Prefixes(history, from, start, id, offset, source)
  {
  }

  lemma DoneImage(image: Image, history: seq<Image>, from: nat, start: Image, id: BankId, offset: nat, source: seq<byte>, done: nat)
    requires Done(image, history, from, start, id, offset, source, done)
    ensures offset + |source| <= BANK_SIZE && done <= |source|
    ensures image.At(id) == Overwrite(start.At(id), offset, source[..done])
  {
  }

  lemma DoneMore(before: Image, history: seq<Image>, from: nat, start: Image, id: BankId, offset: nat, source: seq<byte>,
                 done: nat, more: nat, image: Image)
    requires Done(before, history, from, start, id, offset, source, done) && done + more <= |source|
    requires image == before.With(id, Overwrite(before.At(id), offset + done, source[done..][..more]))
    ensures Done(image, history + [image], from, start, id, offset, source, done + more)
  {
    OverwriteMore(start.At(id), offset, source, done, more);
    hide Overwrite;
    WithTwice(start, id, Overwrite(start.At(id), offset, source[..done]), Overwrite(start.At(id), offset, source[..done + more]));
    assert TornBy(image, start, id, offset, source);
  }

  lemma OverwriteMore(bank: Bank, offset: nat, source: seq<byte>, consumed: nat, more: nat)
    requires offset + |source| <= BANK_SIZE && consumed + more <= |source|
    ensures Overwrite(Overwrite(bank, offset, source[..consumed]), offset + consumed, source[consumed..][..more])
         == Overwrite(bank, offset, source[..consumed + more])
  {
  }

  lemma AppendSlice(bank: Bank, offset: nat, m: nat, n: nat)
    requires offset + m + n <= BANK_SIZE
    ensures bank[offset..offset + m] + bank[offset + m..offset + m + n] == bank[offset..offset + (m + n)]
  {
  }

  lemma WithTwice(image: Image, id: BankId, first: Bank, second: Bank)
    ensures image.With(id, first).With(id, second) == image.With(id, second)
  {
  }

  lemma StillProgrammable(bank: Bank, offset: nat, source: seq<byte>, consumed: nat, amount: nat)
    requires offset + |source| <= BANK_SIZE && consumed + amount <= |source|
    requires Programmable(bank, offset, source)
    ensures Programmable(Overwrite(bank, offset, source[..consumed]), offset + consumed, source[consumed..][..amount])
  {
    var after := Overwrite(bank, offset, source[..consumed]);
    forall i | 0 <= i < amount
      ensures ByteProgrammable(after[offset + consumed + i], source[consumed..][..amount][i])
    {
      assert ByteProgrammable(bank[offset + (consumed + i)], source[consumed + i]);
    }
  }

  /** The mutation changed nothing outside this unit. */
  predicate InUnit(before: Image, after: Image, unit: Unit) {
    && after.At(unit.bank.Other()) == before.At(unit.bank.Other())
    && forall i | 0 <= i < BANK_SIZE :: unit.offset <= i < unit.offset + unit.bytes || after.At(unit.bank)[i] == before.At(unit.bank)[i]
  }

  lemma OverwriteInUnit(before: Image, id: BankId, offset: nat, bytes: seq<byte>, unit: Unit)
    requires unit.bank == id && unit.offset == offset && |bytes| <= unit.bytes && offset + |bytes| <= BANK_SIZE
    ensures InUnit(before, before.With(id, Overwrite(before.At(id), offset, bytes)), unit)
  {
  }

  function ImageAt(start: Image, images: seq<Image>, k: nat): Image
    requires k <= |images|
  {
    if k == 0 then start else images[k - 1]
  }

  /** The backend was called once for each claimed unit, in order, and changed nothing outside it. */
  predicate UnitByUnit(start: Image, images: seq<Image>, units: seq<Unit>) {
    |images| == |units| && forall k | 0 <= k < |units| :: InUnit(ImageAt(start, images, k), images[k], units[k])
  }

  lemma NoUnitYet(start: Image, history: seq<Image>, claims: seq<Unit>)
    ensures UnitByUnit(start, history[|history|..], claims[|claims|..]) && ImageAt(start, history[|history|..], 0) == start
  {
  }

  lemma UnitFollows(start: Image, images: seq<Image>, units: seq<Unit>, after: Image, unit: Unit)
    requires UnitByUnit(start, images, units) && InUnit(ImageAt(start, images, |images|), after, unit)
    ensures UnitByUnit(start, images + [after], units + [unit])
    ensures ImageAt(start, images + [after], |images| + 1) == after
  {
    hide InUnit;
    forall k | 0 <= k < |units| + 1 ensures InUnit(ImageAt(start, images + [after], k), (images + [after])[k], (units + [unit])[k]) {
      if k < |units| { assert ImageAt(start, images + [after], k) == ImageAt(start, images, k); }
    }
  }

  /** One claim and one call within it, or neither. */
  predicate OneOrNone(before: Image, after: Image, history: seq<Image>, later: seq<Image>, claims: seq<Unit>, more: seq<Unit>) {
    || (after == before && later == history && more == claims)
    || (later == history + [after] && |more| == |claims| + 1 && more[..|claims|] == claims && InUnit(before, after, more[|claims|]))
  }

  /** What one more call adds to the record of all of them. */
  lemma OneCall(start: Image, history: seq<Image>, claims: seq<Unit>, from: nat, first: nat, after: Image, unit: Unit)
    requires from <= |history| && first <= |claims|
    requires UnitByUnit(start, history[from..], claims[first..])
    requires InUnit(ImageAt(start, history[from..], |history| - from), after, unit)
    ensures UnitByUnit(start, (history + [after])[from..], (claims + [unit])[first..])
    ensures ImageAt(start, (history + [after])[from..], |history| + 1 - from) == after
  {
    UnitFollows(start, history[from..], claims[first..], after, unit);
    assert (history + [after])[from..] == history[from..] + [after];
    assert (claims + [unit])[first..] == claims[first..] + [unit];
  }

  lemma CallRecorded(start: Image, before: Image, after: Image, history: seq<Image>, later: seq<Image>, claims: seq<Unit>, more: seq<Unit>,
                     from: nat, first: nat)
    requires from <= |history| && first <= |claims|
    requires UnitByUnit(start, history[from..], claims[first..]) && before == ImageAt(start, history[from..], |history| - from)
    requires OneOrNone(before, after, history, later, claims, more)
    ensures |later| >= from && |more| >= first
    ensures UnitByUnit(start, later[from..], more[first..]) && after == ImageAt(start, later[from..], |later| - from)
  {
    hide UnitByUnit, InUnit, ImageAt;
    if later != history || more != claims {
      OneCall(start, history, claims, from, first, after, more[|claims|]);
      assert more == claims + [more[|claims|]];
    }
  }

  class ChunkedSoundBankStorage {
    const backend: FlashStorage
    const gate: PermitGate
    var cpuActive: bool

    ghost predicate Valid()
      reads this, gate
    {
      gate.Valid() && (cpuActive <==> gate.held)
    }

    constructor (backend: FlashStorage, gate: PermitGate)
      requires gate.Valid() && gate.Idle()
      ensures Valid() && this.backend == backend && this.gate == gate && !cpuActive
    {
      this.backend, this.gate := backend, gate;
      cpuActive := false;
    }

    /** Reads like the plain storage; without a permit the answer is unavailable. */
    method Read(id: BankId, offset: nat, length: nat) returns (r: IoResult, data: seq<byte>)
      requires Valid() && !cpuActive
      modifies gate
      ensures Valid() && old(gate.claims) <= gate.claims
      ensures offset + length > BANK_SIZE ==> r.OutOfBounds? && gate.claims == old(gate.claims)
      ensures offset + length <= BANK_SIZE ==> r.Ok? || r.Unavailable? || r.IoError?
      ensures offset + length <= BANK_SIZE && r.IoError? ==> !backend.Healthy()
      ensures r.Ok? ==> data == backend.image.At(id)[offset..offset + length]
      ensures Within(old(gate.claims), gate.claims, ReadUnit, id, offset, length, UNIT)
      ensures r.Ok? ==> Claimed(old(gate.claims), gate.claims, ReadUnit, id, offset, length, UNIT)
    {
      hide Claimed, Within, UnitsOf;
      data := [];
      NothingClaimed(gate.claims, ReadUnit, id, offset, length, UNIT);
      if offset + length > BANK_SIZE { return OutOfBounds, data; }
      while |data| < length
        invariant Valid() && !cpuActive && old(gate.claims) <= gate.claims
        invariant |data| <= length && (|data| % UNIT == 0 || |data| == length)
        invariant Claimed(old(gate.claims), gate.claims, ReadUnit, id, offset, |data|, UNIT)
        invariant Within(old(gate.claims), gate.claims, ReadUnit, id, offset, length, UNIT)
        invariant data == backend.image.At(id)[offset..offset + |data|]
        decreases length - |data|
      {
        var amount := Min(UNIT, length - |data|);
        var bytes;
        ghost var middle := gate.claims;
        r, bytes := ReadOne(id, offset + |data|, amount);
        ClaimedMore(old(gate.claims), middle, gate.claims, ReadUnit, id, offset, length, |data|, amount, UNIT);
        if !r.Ok? { return r, []; }
        AppendSlice(backend.image.At(id), offset, |data|, amount);
        data := data + bytes;
      }
      r := IoResult.Ok;
    }

    /** One claimed unit of a read. */
    method ReadOne(id: BankId, offset: nat, amount: nat) returns (r: IoResult, bytes: seq<byte>)
      requires Valid() && !cpuActive && offset + amount <= BANK_SIZE && 0 < amount <= UNIT
      modifies gate
      ensures Valid()
      ensures gate.claims == old(gate.claims) || gate.claims == old(gate.claims) + [Unit(ReadUnit, id, offset, amount)]
      ensures r.Ok? || r.Unavailable? || r.IoError?
      ensures r.IoError? ==> !backend.Healthy()
      ensures r.Ok? ==> gate.claims != old(gate.claims) && bytes == backend.image.At(id)[offset..offset + amount]
    {
      var permitted := gate.Claim(Unit(ReadUnit, id, offset, amount));
      if !permitted { return IoResult.Unavailable, []; }
      r, bytes := backend.Read(id, offset, amount);
      gate.Complete();
    }

    /** Writes like the plain storage: some prefix, all of it when the answer is Ok, and no
        image on the way that a single torn write could not have left. */
    method Write(id: BankId, offset: nat, source: seq<byte>) returns (r: IoResult, ghost done: nat)
      requires Valid() && !cpuActive && |backend.history| > 0
      modifies gate, backend
      ensures Valid() && old(gate.claims) <= gate.claims && backend.faults == old(backend.faults)
      ensures done <= |source|
      ensures offset + |source| > BANK_SIZE ==>
                r.OutOfBounds? && backend.image == old(backend.image) && backend.history == old(backend.history)
                && gate.claims == old(gate.claims)
      ensures offset + |source| <= BANK_SIZE ==>
                && (r.Ok? || r.Unavailable? || r.IoError?)
                && backend.image == old(backend.image).With(id, Overwrite(old(backend.image).At(id), offset, source[..done]))
                && Prefixes(backend.history, |old(backend.history)|, old(backend.image), id, offset, source)
      ensures r.Ok? ==> done == |source|
      ensures Within(old(gate.claims), gate.claims, WorkKind.WriteUnit, id, offset, |source|, UNIT)
      ensures UnitByUnit(old(backend.image), backend.history[|old(backend.history)|..], gate.claims[|old(gate.claims)|..])
      ensures r.Ok? ==> Claimed(old(gate.claims), gate.claims, WorkKind.WriteUnit, id, offset, |source|, UNIT)
      ensures offset + |source| <= BANK_SIZE && r.IoError? && Programmable(old(backend.image).At(id), offset, source)
              ==> !backend.Healthy()
      ensures old(backend.history) <= backend.history
    {
      hide Programmable, ByteProgrammable, Done, Overwrite, Claimed, Within, UnitsOf, OneOrNone, UnitByUnit, ImageAt, Prefixes;
      done := 0;
      NothingClaimed(gate.claims, WorkKind.WriteUnit, id, offset, |source|, UNIT);
      NoUnitYet(backend.image, backend.history, gate.claims);
      if offset + |source| > BANK_SIZE { return OutOfBounds, 0; }
      ghost var start := backend.image;
      ghost var from := |backend.history|;
      NothingDone(start, backend.history, id, offset, source);
      NoUnitYet(start, backend.history, gate.claims);
      var consumed := 0;
      while consumed < |source|
        invariant Valid() && !cpuActive && old(gate.claims) <= gate.claims && backend.faults == old(backend.faults)
        invariant done == consumed <= |source| && (consumed % UNIT == 0 || consumed == |source|)
        invariant Claimed(old(gate.claims), gate.claims, WorkKind.WriteUnit, id, offset, consumed, UNIT)
        invariant Within(old(gate.claims), gate.claims, WorkKind.WriteUnit, id, offset, |source|, UNIT)
        invariant Done(backend.image, backend.history, from, start, id, offset, source, consumed)
        invariant old(backend.history) <= backend.history
        invariant UnitByUnit(start, backend.history[from..], gate.claims[|old(gate.claims)|..])
        invariant backend.image == ImageAt(start, backend.history[from..], |backend.history| - from)
      {
        var amount := Min(UNIT, |source| - consumed);
        ghost var middle, image, history := gate.claims, backend.image, backend.history;
        r, done := WriteUnit(id, offset, source, consumed, amount, start, from);
        CallRecorded(start, image, backend.image, history, backend.history, middle, gate.claims, from, |old(gate.claims)|);
        ClaimedMore(old(gate.claims), middle, gate.claims, WorkKind.WriteUnit, id, offset, |source|, consumed, amount, UNIT);
        if !r.Ok? {
          DoneMeans(backend.image, backend.history, from, start, id, offset, source, done);
          return;
        }
        consumed := consumed + amount;
      }
      DoneMeans(backend.image, backend.history, from, start, id, offset, source, done);
      r := IoResult.Ok;
    }

    /** The backend call of a claimed write. */
    method WriteClaimed(id: BankId, offset: nat, chunk: seq<byte>) returns (r: IoResult, ghost part: nat)
      requires gate.Valid() && gate.held && !cpuActive && offset + |chunk| <= BANK_SIZE
      modifies gate, backend
      ensures Valid() && gate.claims == old(gate.claims) && backend.faults == old(backend.faults)
      ensures (r.Ok? || r.Unavailable? || r.IoError?) && part <= |chunk| && (r.Ok? ==> part == |chunk|)
      ensures backend.image == old(backend.image).With(id, Overwrite(old(backend.image).At(id), offset, chunk[..part]))
      ensures backend.history == old(backend.history) + [backend.image]
      ensures InUnit(old(backend.image), backend.image, Unit(WorkKind.WriteUnit, id, offset, |chunk|))
      ensures r.IoError? && Programmable(old(backend.image).At(id), offset, chunk) ==> !backend.Healthy()
    {
      hide Programmable, Overwrite, InUnit;
      ghost var before := backend.image;
      r, part := backend.Write(id, offset, chunk);
      OverwriteInUnit(before, id, offset, chunk[..part], Unit(WorkKind.WriteUnit, id, offset, |chunk|));
      gate.Complete();
    }

    /** One claimed unit of a write. */
    method WriteUnit(id: BankId, offset: nat, source: seq<byte>, consumed: nat, amount: nat, ghost start: Image, ghost from: nat)
      returns (r: IoResult, ghost done: nat)
      requires Valid() && !cpuActive && offset + |source| <= BANK_SIZE
      requires 0 < amount <= UNIT && consumed + amount <= |source|
      requires Done(backend.image, backend.history, from, start, id, offset, source, consumed)
      modifies gate, backend
      ensures Valid() && old(gate.claims) <= gate.claims && backend.faults == old(backend.faults)
      ensures r.Ok? || r.Unavailable? || r.IoError?
      ensures consumed <= done <= consumed + amount && (r.Ok? ==> done == consumed + amount)
      ensures gate.claims == old(gate.claims) || gate.claims == old(gate.claims) + [Unit(WorkKind.WriteUnit, id, offset + consumed, amount)]
      ensures OneOrNone(old(backend.image), backend.image, old(backend.history), backend.history, old(gate.claims), gate.claims)
      ensures r.Ok? ==> gate.claims != old(gate.claims)
      ensures Done(backend.image, backend.history, from, start, id, offset, source, done)
      ensures r.IoError? && Programmable(start.At(id), offset, source) ==> !backend.Healthy()
      ensures old(backend.history) <= backend.history
    {
      hide Programmable, ByteProgrammable, InUnit, Overwrite, Done;
      DoneImage(backend.image, backend.history, from, start, id, offset, source, consumed);
      var permitted := gate.Claim(Unit(WorkKind.WriteUnit, id, offset + consumed, amount));
      if !permitted { return IoResult.Unavailable, consumed; }
      var chunk := source[consumed..][..amount];
      if Programmable(start.At(id), offset, source) { StillProgrammable(start.At(id), offset, source, consumed, amount); }
      ghost var part;
      r, part := WriteClaimed(id, offset + consumed, chunk);
      assert chunk[..part] == source[consumed..][..part];
      done := consumed + part;
      DoneMore(old(backend.image), old(backend.history), from, start, id, offset, source, consumed, part, backend.image);
    }

    /** Erases sector by sector, never half a range check late. */
    method Erase(id: BankId, offset: nat, length: nat) returns (r: IoResult, ghost done: nat)
      requires Valid() && !cpuActive && |backend.history| > 0
      modifies gate, backend
      ensures Valid() && old(gate.claims) <= gate.claims && backend.faults == old(backend.faults)
      ensures done <= length
      ensures offset % SECTOR != 0 || length % SECTOR != 0 ==> r.NotAligned?
      ensures offset % SECTOR == 0 && length % SECTOR == 0 && offset + length > BANK_SIZE ==> r.OutOfBounds?
      ensures r.NotAligned? || r.OutOfBounds? ==>
                backend.image == old(backend.image) && backend.history == old(backend.history) && gate.claims == old(gate.claims)
      ensures offset % SECTOR == 0 && length % SECTOR == 0 && offset + length <= BANK_SIZE ==>
                && (r.Ok? || r.Unavailable? || r.IoError?)
                && backend.image == old(backend.image).With(id, Overwrite(old(backend.image).At(id), offset, Fill(255, done)))
                && Prefixes(backend.history, |old(backend.history)|, old(backend.image), id, offset, Fill(255, length))
                && (r.IoError? ==> !backend.Healthy())
                && (r.Ok? ==> done == length && Claimed(old(gate.claims), gate.claims, WorkKind.EraseUnit, id, offset, length, SECTOR))
      ensures Within(old(gate.claims), gate.claims, WorkKind.EraseUnit, id, offset, length, SECTOR)
      ensures UnitByUnit(old(backend.image), backend.history[|old(backend.history)|..], gate.claims[|old(gate.claims)|..])
      ensures old(backend.history) <= backend.history
    {
      hide Done, Overwrite, Claimed, Within, UnitsOf, OneOrNone, UnitByUnit, ImageAt, Prefixes;
      done := 0;
      NothingClaimed(gate.claims, WorkKind.EraseUnit, id, offset, length, SECTOR);
      NoUnitYet(backend.image, backend.history, gate.claims);
      if offset % SECTOR != 0 || length % SECTOR != 0 { return NotAligned, 0; }
      if offset + length > BANK_SIZE { return OutOfBounds, 0; }
      ghost var start := backend.image;
      ghost var from := |backend.history|;
      ghost var source := Fill(255, length);
      NothingDone(start, backend.history, id, offset, source);
      NoUnitYet(start, backend.history, gate.claims);
      var consumed := 0;
      while consumed < length
        invariant Valid() && !cpuActive && old(gate.claims) <= gate.claims && backend.faults == old(backend.faults)
        invariant done == consumed <= length && consumed % SECTOR == 0
        invariant Claimed(old(gate.claims), gate.claims, WorkKind.EraseUnit, id, offset, consumed, SECTOR)
        invariant Within(old(gate.claims), gate.claims, WorkKind.EraseUnit, id, offset, length, SECTOR)
        invariant Done(backend.image, backend.history, from, start, id, offset, source, consumed)
        invariant old(backend.history) <= backend.history
        invariant UnitByUnit(start, backend.history[from..], gate.claims[|old(gate.claims)|..])
        invariant backend.image == ImageAt(start, backend.history[from..], |backend.history| - from)
      {
        ghost var middle, image, history := gate.claims, backend.image, backend.history;
        r, done := EraseSector(id, offset, length, consumed, start, from);
        CallRecorded(start, image, backend.image, history, backend.history, middle, gate.claims, from, |old(gate.claims)|);
        ClaimedMore(old(gate.claims), middle, gate.claims, WorkKind.EraseUnit, id, offset, length, consumed, SECTOR, SECTOR);
        if !r.Ok? {
          DoneMeans(backend.image, backend.history, from, start, id, offset, source, done);
          assert source[..done] == Fill(255, done);
          return;
        }
        consumed := consumed + SECTOR;
      }
      DoneMeans(backend.image, backend.history, from, start, id, offset, source, done);
      assert source[..length] == Fill(255, length);
      r := IoResult.Ok;
    }

    /** One claimed sector of an erase. */
    method EraseSector(id: BankId, offset: nat, length: nat, consumed: nat, ghost start: Image, ghost from: nat)
      returns (r: IoResult, ghost done: nat)
      requires Valid() && !cpuActive && offset + length <= BANK_SIZE
      requires offset % SECTOR == 0 && consumed % SECTOR == 0 && consumed + SECTOR <= length
      requires Done(backend.image, backend.history, from, start, id, offset, Fill(255, length), consumed)
      modifies gate, backend
      ensures Valid() && old(gate.claims) <= gate.claims && backend.faults == old(backend.faults)
      ensures r.Ok? || r.Unavailable? || r.IoError?
      ensures consumed <= done <= consumed + SECTOR
      ensures r.Ok? ==> done == consumed + SECTOR && gate.claims != old(gate.claims)
      ensures gate.claims == old(gate.claims) || gate.claims == old(gate.claims) + [Unit(WorkKind.EraseUnit, id, offset + consumed, SECTOR)]
      ensures OneOrNone(old(backend.image), backend.image, old(backend.history), backend.history, old(gate.claims), gate.claims)
      ensures Done(backend.image, backend.history, from, start, id, offset, Fill(255, length), done)
      ensures r.IoError? ==> !backend.Healthy()
      ensures old(backend.history) <= backend.history
    {
      var permitted := gate.Claim(Unit(EraseUnit, id, offset + consumed, SECTOR));
      if !permitted { return IoResult.Unavailable, consumed; }
      ghost var part;
      assert (offset + consumed) % SECTOR == 0;
      r, part := backend.Erase(id, offset + consumed, SECTOR);
      assert Fill(255, part) == Fill(255, length)[consumed..][..part];
      gate.Complete();
      done := consumed + part;
      DoneMore(old(backend.image), old(backend.history), from, start, id, offset, Fill(255, length), consumed, part, backend.image);
    }

    /** Opens one bounded hash unit; it stays claimed until it is completed. */
    method Checkpoint(id: BankId, offset: nat, length: nat) returns (r: IoResult)
      requires Valid()
      modifies this, gate
      ensures Valid()
      ensures length > UNIT ==> r.InvalidArgument? && cpuActive == old(cpuActive)
      ensures length <= UNIT && offset + length > BANK_SIZE ==> r.OutOfBounds? && cpuActive == old(cpuActive)
      ensures length == 0 && offset <= BANK_SIZE ==> r.Ok? && cpuActive == old(cpuActive)
      ensures r.Ok? && length > 0 ==> cpuActive && !old(cpuActive) && |gate.claims| == |old(gate.claims)| + 1
      ensures !r.Ok? || length == 0 ==> gate.claims == old(gate.claims)
    {
      if length > UNIT { return IoResult.InvalidArgument; }
      if offset + length > BANK_SIZE { return OutOfBounds; }
      if length == 0 { return IoResult.Ok; }
      if cpuActive { return IoResult.Unavailable; }
      var permitted := gate.Claim(Unit(HashUnit, id, offset, length));
      if !permitted { return IoResult.Unavailable; }
      cpuActive := true;
      r := IoResult.Ok;
    }

    method CheckpointComplete()
      requires Valid()
      modifies this, gate
      ensures Valid() && !cpuActive && gate.claims == old(gate.claims)
    {
      if cpuActive {
        cpuActive := false;
        gate.Complete();
      }
    }
  }
}
