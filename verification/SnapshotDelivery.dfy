/** The latest keyboard state and what a transport has taken of it. */
module SnapshotDelivery {
  import opened Bytes
  import opened Generations
  import opened HidQueue
  import opened HeldKeyboard

  datatype Pending = Pending(snapshot: Snapshot, cls: ReportClass, generation: u32)

  const NOTHING_PENDING := Pending(RELEASED, KeyboardPress, 0)

  /** Some key, modifier or Fn of `accepted` is up in `desired`. */
  predicate Removes(accepted: Snapshot, desired: Snapshot) {
    || accepted.modifier & !desired.modifier != 0
    || (accepted.appleFn && !desired.appleFn)
    || exists i | 0 <= i < ROLLOVER :: accepted.keycodes[i] != 0 && accepted.keycodes[i] !in desired.keycodes
  }

  function Classify(accepted: Snapshot, desired: Snapshot): ReportClass {
    if desired.Empty() then KeyboardAllReleased
    else if Removes(accepted, desired) then KeyboardRelease
    else KeyboardPress
  }

  /** A press never takes anything away. */
  lemma PressOnlyAdds(accepted: Snapshot, desired: Snapshot, code: byte, bit: bv8)
    requires Classify(accepted, desired).KeyboardPress? && code != 0
    ensures code in accepted.keycodes ==> code in desired.keycodes
    ensures accepted.modifier & bit != 0 ==> desired.modifier & bit != 0
    ensures accepted.appleFn ==> desired.appleFn
  {
    if code in accepted.keycodes {
      var i :| 0 <= i < ROLLOVER && accepted.keycodes[i] == code;
    }
    NoBitLost(accepted.modifier, desired.modifier, bit);
  }

  /** The class says what a report takes away: everything, something, or nothing. */
  lemma ClassMeans(accepted: Snapshot, desired: Snapshot)
    ensures var none := desired.modifier == 0 && !desired.appleFn && forall i | 0 <= i < 6 :: desired.keycodes[i] == 0;
            var lost := || (exists i | 0 <= i < 6 :: accepted.keycodes[i] != 0 && accepted.keycodes[i] !in desired.keycodes)
                        || (accepted.appleFn && !desired.appleFn) || accepted.modifier & !desired.modifier != 0;
            && (Classify(accepted, desired).KeyboardAllReleased? <==> none)
            && (Classify(accepted, desired).KeyboardRelease? <==> !none && lost)
            && (Classify(accepted, desired).KeyboardPress? <==> !none && !lost)
  {
  }

  lemma NoBitLost(a: bv8, d: bv8, bit: bv8)
    requires a & !d == 0
    ensures a & bit != 0 ==> d & bit != 0
  {
    assert a & d == a;
    assert (a & bit) & (d & bit) == a & bit;
  }

  class KeyboardSnapshotDelivery {
    var desired: Snapshot
    var accepted: Snapshot
    var generationCounter: u32
    var pendingGeneration: u32

    /** Something is pending exactly when the transport is behind. */
    predicate Valid()
      reads this
    {
      && (pendingGeneration != 0 <==> desired != accepted)
      && (pendingGeneration != 0 ==> pendingGeneration == generationCounter)
    }

    constructor ()
      ensures Valid() && desired == RELEASED && accepted == RELEASED
    {
      desired, accepted, generationCounter, pendingGeneration := RELEASED, RELEASED, 0, 0;
    }

    method SetDesired(snapshot: Snapshot)
      requires Valid()
      modifies this
      ensures Valid()
      ensures desired == snapshot && accepted == old(accepted)
      ensures snapshot == old(desired) ==>
                generationCounter == old(generationCounter) && pendingGeneration == old(pendingGeneration)
      ensures snapshot != old(desired) && snapshot != accepted ==> generationCounter == Advance(old(generationCounter))
    {
      if snapshot == desired { return; }
      desired := snapshot;
      if desired == accepted {
        pendingGeneration := 0;
        return;
      }
      generationCounter := Advance(generationCounter);
      pendingGeneration := generationCounter;
    }

    function PendingSnapshot(): (pending: Pending)
      reads this
      requires Valid()
      ensures pending.generation != 0 <==> desired != accepted
      ensures pending.generation != 0 ==> pending.snapshot == desired
      ensures pending.generation != 0 ==> (pending.cls.KeyboardAllReleased? <==> desired.Empty())
    {
      if pendingGeneration == 0 then NOTHING_PENDING
      else Pending(desired, Classify(accepted, desired), pendingGeneration)
    }

    /** Only the current attempt commits; a stale one changes nothing. */
    method MarkAccepted(generation: u32) returns (committed: bool)
      requires Valid()
      modifies this
      ensures Valid()
      ensures committed <==> old(desired != accepted) && generation == old(pendingGeneration)
      ensures desired == old(desired)
      ensures accepted == if committed then old(desired) else old(accepted)
      ensures !committed ==> pendingGeneration == old(pendingGeneration) && generationCounter == old(generationCounter)
    {
      if pendingGeneration == 0 || generation == 0 || generation != pendingGeneration { return false; }
      accepted := desired;
      pendingGeneration := 0;
      committed := true;
    }

    method Reset(baseline: Snapshot)
      modifies this
      ensures Valid() && desired == baseline && accepted == baseline
    {
      desired, accepted, pendingGeneration := baseline, baseline, 0;
    }
  }
}
