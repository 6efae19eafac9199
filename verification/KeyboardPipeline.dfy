/** From physical keys to the host, within one endpoint lifetime. */
module KeyboardPipeline {
  import opened Bytes
  import opened HidQueue
  import opened HidReservation
  import opened HeldKeyboard
  import opened SnapshotDelivery
  import opened BleScheduler

  const KEYBOARD_ID: byte := 1

  /** The wire form of a snapshot. */
  function Encode(s: Snapshot): (data: seq<byte>)
    ensures |data| == SNAPSHOT_BYTES
  {
    [s.modifier as int, if s.appleFn then 1 else 0] + s.keycodes
  }

  /** Modifiers, then Fn, then the six keys. */
  lemma EncodeLayout(s: Snapshot)
    ensures var data := Encode(s);
            && |data| == 8 && data[0] == s.modifier as int && (data[1] == 1 <==> s.appleFn) && (data[1] == 0 <==> !s.appleFn)
            && forall i | 0 <= i < 6 :: data[2 + i] == s.keycodes[i]
  {
  }

  lemma EncodeInjective(a: Snapshot, b: Snapshot)
    ensures Encode(a) == Encode(b) <==> a == b
  {
    if Encode(a) == Encode(b) {
      assert a.modifier as int == Encode(a)[0] == Encode(b)[0] == b.modifier as int;
      assert Encode(a)[1] == Encode(b)[1];
      assert a.keycodes == Encode(a)[2..] == Encode(b)[2..] == b.keycodes;
    }
  }

  lemma EncodeEmpty(s: Snapshot)
    ensures s.Empty() <==> s == RELEASED
    ensures s.Empty() <==> AllAre(0, Encode(s))
    ensures Encode(RELEASED) == Fill(0, SNAPSHOT_BYTES)
  {
    if s.Empty() {
      assert s.keycodes == RELEASED.keycodes;
    }
    if AllAre(0, Encode(s)) {
      assert Encode(s)[0] == 0 && Encode(s)[1] == 0;
      assert forall i | 0 <= i < ROLLOVER :: s.keycodes[i] == Encode(s)[i + 2];
    }
  }

  /** The keyboard snapshots in a queue, oldest first. */
  function KeyboardData(queue: seq<QueuedReport>): seq<seq<byte>> {
    if queue == [] then []
    else (if IsSnapshot(queue[0].report.cls) then [queue[0].report.data] else []) + KeyboardData(queue[1..])
  }

  lemma {:induction false} KeyboardDataAppend(queue: seq<QueuedReport>, last: QueuedReport)
    ensures KeyboardData(queue + [last]) ==
              KeyboardData(queue) + (if IsSnapshot(last.report.cls) then [last.report.data] else [])
  {
    if queue == [] {
      assert [last][1..] == [];
    } else {
      KeyboardDataAppend(queue[1..], last);
      assert (queue + [last])[1..] == queue[1..] + [last];
    }
  }

  /** A snapshot at the tail of the queue is its last keyboard report. */
  lemma TailIsLast(queue: seq<QueuedReport>)
    requires queue != [] && IsSnapshot(queue[|queue| - 1].report.cls)
    ensures KeyboardData(queue) != []
    ensures KeyboardData(queue)[|KeyboardData(queue)| - 1] == queue[|queue| - 1].report.data
  {
    KeyboardDataAppend(queue[..|queue| - 1], queue[|queue| - 1]);
    assert queue == queue[..|queue| - 1] + [queue[|queue| - 1]];
  }

  /** What the host shows after these reports; before the first one every key is up. */
  function LastState(reports: seq<seq<byte>>): seq<byte> {
    if reports == [] then Fill(0, SNAPSHOT_BYTES) else reports[|reports| - 1]
  }

  /** Only reports the protocol does not require may be dropped. */
  ghost predicate KeepsRequired(radio: Outgoing -> TxResult) {
    forall out: Outgoing :: radio(out).DroppedUnsupported? ==> out.WheelChunk? || out.report.cls.AppCommand?
  }

  /** The queue takes a new state exactly when its class has a slot left; a state it has
      already taken needs none. */
  predicate Admits(size: nat, accepted: Snapshot, desired: Snapshot) {
    desired == accepted || size < ClassCapacity(Classify(accepted, desired))
  }

  function SizeAfter(size: nat, accepted: Snapshot, desired: Snapshot): nat {
    if desired != accepted && Admits(size, accepted, desired) then size + 1 else size
  }

  class Keyboard {
    const held: HeldKeyboardState
    const delivery: KeyboardSnapshotDelivery
    const queue: HidReportQueue
    const wheel: MouseWheelQueue
    const scheduler: BleInputScheduler
    const owner: BleOwner
    /** Keyboard snapshots the queue took, and those the host received. */
    ghost var taken: seq<seq<byte>>
    ghost var host: seq<seq<byte>>

    ghost predicate Valid()
      reads this, held, delivery, queue, queue.reports, wheel, wheel.reports, scheduler
    {
      && held.Valid() && delivery.Valid() && queue.Valid() && wheel.Valid() && scheduler.Valid()
      && delivery.desired == held.current
      && taken == host + KeyboardData(queue.Contents())
      && LastState(taken) == Encode(delivery.accepted)
      && LastSlotRule(queue.Contents(), KEYBOARD_ID, owner, 0)
      && forall i | 0 <= i < queue.size :: SameEndpoint(queue.Contents()[i].report, KEYBOARD_ID, owner, 0)
    }

    constructor (config: Config, owner: BleOwner)
      ensures Valid() && fresh(held) && fresh(delivery) && fresh(queue) && fresh(queue.reports)
      ensures fresh(wheel) && fresh(wheel.reports) && fresh(scheduler)
      ensures host == [] && held.State() == NONE_HELD && delivery.accepted == RELEASED && queue.size == 0
    {
      held := new HeldKeyboardState();
      delivery := new KeyboardSnapshotDelivery();
      queue := new HidReportQueue();
      wheel := new MouseWheelQueue();
      scheduler := new BleInputScheduler(config);
      this.owner := owner;
      taken, host := [], [];
      new;
      EncodeEmpty(RELEASED);
    }

    /** Offers the latest state; it stays pending when the queue has no room. */
    method Flush() returns (accepted: bool)
      requires Valid()
      modifies this`taken, delivery, queue, queue.reports
      ensures Valid()
      ensures accepted <==> delivery.desired == delivery.accepted
      ensures accepted ==> LastState(taken) == Encode(held.current)
      ensures !accepted ==> taken == old(taken) && delivery.accepted == old(delivery.accepted)
      ensures taken == old(taken) || taken == old(taken) + [Encode(held.current)]
      ensures held.current == RELEASED ==> accepted
      ensures delivery.desired == old(delivery.desired)
      ensures accepted <==> Admits(old(queue.size), old(delivery.accepted), delivery.desired)
      ensures queue.size == SizeAfter(old(queue.size), old(delivery.accepted), delivery.desired)
    {
      hide Window, SnapshotDelivery.Classify, Encode, KeyboardData, LastState, SequenceBefore, ClassifiedOutcome, SnapshotOf, Composable,
           RetryDelay;
      var pending := delivery.PendingSnapshot();
      if pending.generation == 0 { return true; }
      var report := Report(KEYBOARD_ID, Encode(pending.snapshot), 0, pending.cls, owner, 0);
      PendingIsSnapshot(delivery.accepted, delivery.desired);
      EncodeEmpty(pending.snapshot);
      ghost var before := queue.Contents();
      NewStateNeedsSlot(before, host, delivery.accepted, report, pending.snapshot);
      if pending.snapshot == RELEASED { AllReleasedAlwaysAccepted(before, report, KEYBOARD_ID, owner, 0); }
      var status, sequence := queue.PushClassified(report);
      if !status.Queued? { return false; }
      KeyboardDataAppend(before, QueuedReport(sequence, report));
      LastSlotKept(before, sequence, report, KEYBOARD_ID, owner, 0);
      LastAppended(taken, report.data);
      taken := taken + [report.data];
      accepted := delivery.MarkAccepted(pending.generation);
    }

    /** What offering the state now held to the queue does. */
    twostate predicate Offered(accepted: bool)
      reads held, delivery, queue
    {
      && (accepted <==> Admits(old(queue.size), old(delivery.accepted), held.current))
      && queue.size == SizeAfter(old(queue.size), old(delivery.accepted), held.current)
      && delivery.accepted == if accepted then held.current else old(delivery.accepted)
    }

    /** A key event: the union of the held sources becomes the desired state. */
    method KeyDown(source: nat, report: KeyReport) returns (update: Update, accepted: bool)
      requires Valid()
      modifies this`taken, held, delivery, queue, queue.reports
      ensures Valid()
      ensures update.status.Applied? ==> source < |old(held.active)| && held.active == old(held.active)[source := true]
      ensures !update.status.Applied? ==> held.State() == old(held.State())
      ensures update.reportChanged && accepted ==> LastState(taken) == Encode(held.current)
      ensures taken == old(taken) || taken == old(taken) + [Encode(held.current)]
      ensures update.status ==
                if source >= SOURCES then InvalidSource
                else if !Usable(report) then InvalidReport
                else if old(held.active)[source] then NoChange
                else if !Composable(Held(old(held.reports)[source := report], old(held.active)[source := true])) then Rollover
                else Applied
      ensures update.status.Applied? ==> held.reports == old(held.reports)[source := report]
      ensures update.reportChanged <==> held.current != old(held.current)
      ensures if update.reportChanged then Offered(accepted) else queue.size == old(queue.size) && delivery.accepted == old(delivery.accepted)
    {
      hide Window, Encode, KeyboardData, LastState, SequenceBefore, SnapshotOf, Composable, LastSlotRule, Classify;
      update := held.Press(source, report);
      accepted := update.status.Applied? || update.status.NoChange?;
      if update.reportChanged {
        delivery.SetDesired(held.current);
        accepted := Flush();
      }
    }

    /** Letting go: when nothing is held any more, the all-released report is queued at once,
        however full the queue is. */
    method KeyUp(source: nat) returns (update: Update, accepted: bool)
      requires Valid()
      modifies this`taken, held, delivery, queue, queue.reports
      ensures Valid()
      ensures update.status.Applied? ==> source < |old(held.active)| && held.active == old(held.active)[source := false]
      ensures !update.status.Applied? ==> held.State() == old(held.State())
      ensures update.reportChanged && held.current == RELEASED ==> accepted && LastState(taken) == Encode(RELEASED)
      ensures taken == old(taken) || taken == old(taken) + [Encode(held.current)]
      ensures update.status ==
                if source >= SOURCES then InvalidSource else if !old(held.active)[source] then NoChange else Applied
      ensures update.status.Applied? ==> held.reports == old(held.reports)[source := NOT_HELD]
      ensures update.reportChanged <==> held.current != old(held.current)
      ensures if update.reportChanged then Offered(accepted) else queue.size == old(queue.size) && delivery.accepted == old(delivery.accepted)
    {
      hide Window, Encode, KeyboardData, LastState, SequenceBefore, SnapshotOf, Composable, LastSlotRule, Classify;
      update := held.Release(source);
      accepted := update.status.Applied? || update.status.NoChange?;
      if update.reportChanged {
        delivery.SetDesired(held.current);
        accepted := Flush();
      }
    }

    /** release_keyboard_reports, its keyboard half: nothing is held any more. */
    method LetAllGo() returns (accepted: bool)
      requires Valid()
      modifies this`taken, held, delivery, queue, queue.reports
      ensures Valid() && held.activeCount == 0 && held.current == RELEASED && forall i | 0 <= i < SOURCES :: !held.active[i]
      ensures accepted && Offered(accepted) && LastState(taken) == Encode(RELEASED)
    {
      hide Window, Encode, KeyboardData, LastState, SequenceBefore, SnapshotOf, Composable, LastSlotRule, Classify;
      var _ := held.Clear();
      delivery.SetDesired(RELEASED);
      accepted := Flush();
    }

    /** App traffic of the same owner shares the queue. */
    method PushApp(report: Report) returns (status: PushStatus)
      requires Valid() && report.owner == owner && report.usbEpoch == 0 && !IsSnapshot(report.cls)
      modifies queue, queue.reports
      ensures Valid() && delivery.accepted == old(delivery.accepted)
      ensures status == ClassifiedOutcome(old(queue.Contents()), report)
      ensures queue.size == old(queue.size) + (if status.Queued? then 1 else 0)
    {
      hide Window, Encode, KeyboardData, LastState, SequenceBefore, SnapshotOf, Composable;
      ghost var before := queue.Contents();
      var sequence;
      status, sequence := queue.PushClassified(report);
      if status.Queued? {
        KeyboardDataAppend(before, QueuedReport(sequence, report));
        LastSlotKept(before, sequence, report, KEYBOARD_ID, owner, 0);
        assert KeyboardData(queue.Contents()) == KeyboardData(before);
      }
    }

    /** One radio slot: the host sees snapshots in the order the queue took them. */
    method Poll(now: u64, radio: Outgoing -> TxResult) returns (r: PollResult)
      requires Valid() && KeepsRequired(radio)
      modifies this`host, queue, queue.reports, wheel, wheel.reports, scheduler
      ensures Valid()
      ensures taken == old(taken) && delivery.accepted == old(delivery.accepted)
      ensures host == old(host) || exists data :: host == old(host) + [data] && host <= taken
      ensures old(queue.size) - 1 <= queue.size <= old(queue.size)
    {
      hide Window, Encode, LastState, SequenceBefore, SnapshotOf, Composable, VerticalTotal, HorizontalTotal, RetryDelay, WheelAfter;
      ghost var before := queue.Contents();
      var out;
      r, out := scheduler.Poll(now, queue, wheel, radio);
      if out.Some? && out.value.Hid? && radio(out.value).Settles() {
        assert KeyboardData(before) ==
          (if IsSnapshot(before[0].report.cls) then [before[0].report.data] else []) + KeyboardData(before[1..]);
        if IsSnapshot(before[0].report.cls) {
          host := host + [before[0].report.data];
        }
        assert forall i | 0 <= i < queue.size :: queue.Contents()[i] == before[i + 1];
      }
    }

    /** No stuck keys: once the queue is drained and nothing is pending, the host shows
        exactly the union of the sources that are held. */
    lemma DrainedMeansUnion()
      requires Valid()
      requires KeyboardData(queue.Contents()) == [] && delivery.pendingGeneration == 0
      ensures LastState(host) == Encode(SnapshotOf(held.State()))
      ensures (forall i | 0 <= i < SOURCES :: !held.active[i]) ==> LastState(host) == Fill(0, SNAPSHOT_BYTES)
    {
      hide Window, SequenceBefore;
      assert taken == host;
      if forall i | 0 <= i < SOURCES :: !held.active[i] {
        EmptyWhenNothingHeld(held.State());
        EncodeEmpty(RELEASED);
      }
    }

    /** No loss and no reordering: what the host has is what was taken first. */
    lemma HostIsPrefix()
      requires Valid()
      ensures host <= taken && LastState(taken) == Encode(delivery.accepted)
    {
      hide Window, SequenceBefore, Encode, LastState;
    }
  }

  /** A state other than the accepted one never merges with the tail, so it is taken exactly
      when its class has a slot left. */
  lemma NewStateNeedsSlot(queue: seq<QueuedReport>, host: seq<seq<byte>>, accepted: Snapshot, report: Report, desired: Snapshot)
    requires LastState(host + KeyboardData(queue)) == Encode(accepted) && accepted != desired
    requires report.data == Encode(desired) && IsSnapshot(report.cls) && (report.cls.KeyboardAllReleased? ==> desired.Empty())
    ensures ClassifiedOutcome(queue, report) == if |queue| < ClassCapacity(report.cls) then Queued else Full
  {
    hide KeyboardData, LastState, Encode;
    EncodeEmpty(desired);
    EncodeInjective(accepted, desired);
    if queue != [] && IsSnapshot(queue[|queue| - 1].report.cls) {
      TailIsLast(queue);
      LastOfBoth(host, KeyboardData(queue));
    }
  }

  lemma PendingIsSnapshot(accepted: Snapshot, desired: Snapshot)
    ensures IsSnapshot(Classify(accepted, desired))
    ensures Classify(accepted, desired).KeyboardAllReleased? <==> desired.Empty()
  {
  }

  lemma LastAppended(reports: seq<seq<byte>>, data: seq<byte>)
    ensures LastState(reports + [data]) == data
  {
  }

  lemma LastOfBoth(host: seq<seq<byte>>, queued: seq<seq<byte>>)
    requires queued != []
    ensures LastState(host + queued) == queued[|queued| - 1]
  {
  }
}
