/** What a unit of an upload looks like in flash while it is being written. */
module UnitShapes {
  import opened Bytes
  import opened Flash
  import opened SoundFormat
  import opened SoundBanks
  import opened CrashInvariant

  /** Bytes `j..k` of the unit are programmed, the rest of its region is erased. */
  predicate TornAt(found: seq<byte>, data: seq<byte>, j: nat, k: nat) {
    && |found| == |data| && j <= k <= |data|
    && forall i | 0 <= i < |data| :: found[i] == if j <= i < k then data[i] else 255
  }

  /** All that cut erases and cut programmings of one unit can leave in its region. */
  predicate Torn(found: seq<byte>, data: seq<byte>) {
    exists j: nat, k: nat | j <= k <= |data| :: TornAt(found, data, j, k)
  }

  lemma ErasedIsTorn(found: seq<byte>, data: seq<byte>)
    requires |found| == |data| && AllAre(255, found)
    ensures Torn(found, data)
  {
    assert TornAt(found, data, 0, 0);
  }

  /** A cut erase of a torn region leaves a torn region. */
  lemma ErasedFurther(bank: Bank, offset: nat, data: seq<byte>, done: nat)
    requires offset + |data| <= BANK_SIZE && offset + done <= BANK_SIZE
    requires Torn(bank[offset..offset + |data|], data)
    ensures Torn(Overwrite(bank, offset, Fill(255, done))[offset..offset + |data|], data)
  {
    var before := bank[offset..offset + |data|];
    var after := Overwrite(bank, offset, Fill(255, done))[offset..offset + |data|];
    var j: nat, k: nat :| j <= k <= |data| && TornAt(before, data, j, k);
    assert TornAt(before, data, j, k);
    var from := if done <= j then j else if done <= k then done else k;
    forall i | 0 <= i < |data| ensures after[i] == if from <= i < k then data[i] else 255 {
      assert before[i] == bank[offset + i];
    }
    assert TornAt(after, data, from, k);
  }

  /** A cut programming of an erased region leaves a torn region. */
  lemma ProgrammedPart(bank: Bank, offset: nat, data: seq<byte>, done: nat)
    requires offset + |data| <= BANK_SIZE && done <= |data|
    requires Erased(bank, offset, offset + |data|)
    ensures Torn(Overwrite(bank, offset, data[..done])[offset..offset + |data|], data)
  {
    assert TornAt(Overwrite(bank, offset, data[..done])[offset..offset + |data|], data, 0, done);
  }

  /** The planned blocks of two banks are the same, `except` one. */
  predicate BlocksKept(before: Bank, after: Bank, plan: Plan, except: int) {
    PlanValid(plan) &&
    forall i | 0 <= i < BlockCount(plan.payloadBytes) && i != except ::
      BlockBytes(after, plan.payloadBytes, i) == BlockBytes(before, plan.payloadBytes, i)
  }

  const NO_BLOCK: int := -1

  lemma KeptTwice(a: Bank, b: Bank, c: Bank, plan: Plan, except: int)
    requires BlocksKept(a, b, plan, except) && (BlocksKept(b, c, plan, except) || BlocksKept(b, c, plan, NO_BLOCK))
    ensures BlocksKept(a, c, plan, except)
  {
    hide BlockBytes, PlanValid;
  }

  /** Nothing below the payload touches a block. */
  lemma BelowPayload(bank: Bank, plan: Plan, offset: nat, bytes: seq<byte>)
    requires PlanValid(plan) && offset + |bytes| <= PAYLOAD
    ensures BlocksKept(bank, Overwrite(bank, offset, bytes), plan, NO_BLOCK)
  {
  }

  /** Nothing in one payload sector touches another block. */
  lemma OneSector(bank: Bank, plan: Plan, index: nat, bytes: seq<byte>)
    requires PlanValid(plan) && index < BlockCount(plan.payloadBytes) && |bytes| <= SECTOR
    ensures BlocksKept(bank, Overwrite(bank, PAYLOAD + index * SECTOR, bytes), plan, index)
  {
    var after := Overwrite(bank, PAYLOAD + index * SECTOR, bytes);
    forall i | 0 <= i < BlockCount(plan.payloadBytes) && i != index
      ensures BlockBytes(after, plan.payloadBytes, i) == BlockBytes(bank, plan.payloadBytes, i)
    {
      assert i * SECTOR + SECTOR <= index * SECTOR || index * SECTOR + SECTOR <= i * SECTOR;
    }
  }
}
