/** The bounded queues in front of a HID transport: classified reports and wheel movement. */
module HidQueue {
  import opened Bytes
  import opened Generations

  const CAPACITY: nat := 32
  const MAX_PAYLOAD: nat := 63
  const SOURCES: nat := 11
  const SNAPSHOT_BYTES: nat := 8

  /** The occupied part of a ring of `CAPACITY` slots, oldest first. */
  function Window<T>(slots: seq<T>, head: nat, size: nat): (queue: seq<T>)
    requires |slots| == CAPACITY && head < CAPACITY && size <= CAPACITY
    ensures |queue| == size
    ensures forall i | 0 <= i < size :: queue[i] == slots[(head + i) % CAPACITY]
  {
    seq(size, i requires 0 <= i < size => slots[(head + i) % CAPACITY])
  }

  lemma WindowPush<T>(slots: seq<T>, head: nat, size: nat, value: T)
    requires |slots| == CAPACITY && head < CAPACITY && size < CAPACITY
    ensures Window(slots[(head + size) % CAPACITY := value], head, size + 1) == Window(slots, head, size) + [value]
  {
  }

  lemma WindowPop<T>(slots: seq<T>, head: nat, size: nat, value: T)
    requires |slots| == CAPACITY && head < CAPACITY && 0 < size <= CAPACITY
    ensures Window(slots[head := value], (head + 1) % CAPACITY, size - 1) == Window(slots, head, size)[1..]
  {
  }

  lemma WindowSet<T>(slots: seq<T>, head: nat, size: nat, i: nat, value: T)
    requires |slots| == CAPACITY && head < CAPACITY && i < size <= CAPACITY
    ensures Window(slots[(head + i) % CAPACITY := value], head, size) == Window(slots, head, size)[i := value]
  {
  }

  datatype BleOwner = BleOwner(handle: nat, generation: u32)

  datatype ReportClass =
    | KeyboardPress | KeyboardRelease | KeyboardAllReleased
    | AppCommand | AppPress | AppRelease

  datatype PushStatus = Queued | Coalesced | Full | Invalid {
    predicate Accepted() { Queued? || Coalesced? }
  }

  /** What a producer hands over; the queue adds the sequence number. */
  datatype Report = Report(
    reportId: byte, data: seq<byte>, queuedMs: u32, cls: ReportClass, owner: BleOwner, usbEpoch: u32)

  datatype QueuedReport = QueuedReport(sequence: u32, report: Report)

  const NO_REPORT := QueuedReport(0, Report(0, [], 0, AppCommand, BleOwner(0xFFFF, 0), 0))

  /** Slots a class may use: the rest is reserved for the releases still owed. */
  function ClassCapacity(cls: ReportClass): nat {
    match cls
    case KeyboardPress => CAPACITY - SOURCES
    case AppCommand => CAPACITY - 2 * SOURCES
    case AppPress => CAPACITY - 2 * SOURCES
    case KeyboardRelease => CAPACITY - 1
    case AppRelease => CAPACITY - 1
    case KeyboardAllReleased => CAPACITY
  }

  predicate IsSnapshot(cls: ReportClass) {
    cls.KeyboardPress? || cls.KeyboardRelease? || cls.KeyboardAllReleased?
  }

  /** `k` sequence numbers before `next`; zero is never used. */
  function SequenceBefore(next: u32, k: nat): int
    requires next != 0 && k <= CAPACITY
  {
    if next - k >= 1 then next - k else next - k + MAX_U32
  }

  /** A snapshot equal to the last report, which is no app command, needs no slot. */
  predicate TailMatches(queue: seq<QueuedReport>, report: Report) {
    && queue != []
    && var tail := queue[|queue| - 1].report;
    && IsSnapshot(tail.cls)
    && tail.reportId == report.reportId && tail.data == report.data
    && tail.owner == report.owner && tail.usbEpoch == report.usbEpoch
  }

  /** Shape checks of a classified push. */
  predicate WellFormed(report: Report) {
    && |report.data| <= MAX_PAYLOAD
    && (IsSnapshot(report.cls) ==> |report.data| == SNAPSHOT_BYTES)
    && (report.cls.KeyboardAllReleased? ==> AllAre(0, report.data))
  }

  /** Of 32 slots a key press may fill 21, so that eleven sources can still be released; app
      traffic leaves those of the hotkeys free as well; a release leaves the last slot to the
      report that says everything is up. */
  lemma CapacityMeans(cls: ReportClass)
    ensures ClassCapacity(cls) == match cls
                                  case KeyboardPress => 32 - 11
                                  case AppCommand => 32 - 11 - 11
                                  case AppPress => 32 - 11 - 11
                                  case KeyboardRelease => 32 - 1
                                  case AppRelease => 32 - 1
                                  case KeyboardAllReleased => 32
  {
  }

  function PushOutcome(queue: seq<QueuedReport>, report: Report, limit: nat, coalesce: bool): PushStatus {
    if |report.data| > MAX_PAYLOAD || limit == 0 then Invalid
    else if coalesce && TailMatches(queue, report) then Coalesced
    else if |queue| >= limit then Full
    else Queued
  }

  function ClassifiedOutcome(queue: seq<QueuedReport>, report: Report): PushStatus {
    if !WellFormed(report) then Invalid
    else PushOutcome(queue, report, ClassCapacity(report.cls), IsSnapshot(report.cls))
  }

  /** A report is malformed, or says what the tail already says, or finds its class full, or is
      queued. */
  lemma OutcomeMeans(queue: seq<QueuedReport>, report: Report)
    ensures var keyboard := report.cls.KeyboardPress? || report.cls.KeyboardRelease? || report.cls.KeyboardAllReleased?;
            var malformed := || |report.data| > 63 || (keyboard && |report.data| != 8)
                             || (report.cls.KeyboardAllReleased? && exists i | 0 <= i < |report.data| :: report.data[i] != 0);
            var repeated := keyboard && queue != [] && var tail := queue[|queue| - 1].report;
                                && (tail.cls.KeyboardPress? || tail.cls.KeyboardRelease? || tail.cls.KeyboardAllReleased?)
                                && tail == report.(cls := tail.cls, queuedMs := tail.queuedMs);
            ClassifiedOutcome(queue, report) ==
              if malformed then Invalid else if repeated then Coalesced else if |queue| >= ClassCapacity(report.cls) then Full else Queued
  {
  }

  class HidReportQueue {
    const reports: array<QueuedReport>
    var head: nat
    var size: nat
    var nextSequence: u32

    ghost predicate Valid()
      reads this, reports
    {
      && reports.Length == CAPACITY
      && head < CAPACITY && size <= CAPACITY
      && nextSequence != 0
      && forall i | 0 <= i < size :: Contents()[i].sequence == SequenceBefore(nextSequence, size - i)
    }

    /** The queued reports, oldest first. */
    ghost function Contents(): (queue: seq<QueuedReport>)
      reads this, reports
      requires reports.Length == CAPACITY && head < CAPACITY && size <= CAPACITY
      ensures |queue| == size
    {
      Window(reports[..], head, size)
    }

    constructor ()
      ensures Valid() && fresh(reports) && Contents() == [] && nextSequence == 1
    {
      reports := new QueuedReport[CAPACITY](_ => NO_REPORT);
      head, size, nextSequence := 0, 0, 1;
    }

    method PushClassified(report: Report) returns (status: PushStatus, sequence: u32)
      requires Valid()
      modifies this, reports
      ensures Valid()
      ensures status == ClassifiedOutcome(old(Contents()), report)
      ensures Contents() == if status.Queued? then old(Contents()) + [QueuedReport(sequence, report)] else old(Contents())
      ensures status.Queued? ==> sequence == old(nextSequence)
      ensures nextSequence == if status.Queued? then Advance(old(nextSequence)) else old(nextSequence)
      ensures status.Coalesced? ==> size > 0 && sequence == Contents()[size - 1].sequence
    {
      if !WellFormed(report) { return Invalid, 0; }
      status, sequence := PushWithLimit(report, ClassCapacity(report.cls), IsSnapshot(report.cls));
    }

    /** Entry point of producers without classes; some slots may be kept free. */
    method Push(reportId: byte, data: seq<byte>, queuedMs: u32, reserved: nat, owner: BleOwner, usbEpoch: u32)
      returns (accepted: bool, sequence: u32)
      requires Valid()
      modifies this, reports
      ensures Valid()
      ensures accepted <==> |data| <= MAX_PAYLOAD && reserved + |old(Contents())| < CAPACITY
      ensures Contents() == if accepted
                            then old(Contents()) + [QueuedReport(sequence, Report(reportId, data, queuedMs, AppCommand, owner, usbEpoch))]
                            else old(Contents())
    {
      var limit := if reserved >= CAPACITY then 0 else CAPACITY - reserved;
      var status;
      status, sequence := PushWithLimit(Report(reportId, data, queuedMs, AppCommand, owner, usbEpoch), limit, false);
      accepted := status.Accepted();
    }

    method PushWithLimit(report: Report, limit: nat, coalesce: bool) returns (status: PushStatus, sequence: u32)
      requires Valid() && limit <= CAPACITY
      modifies this, reports
      ensures Valid()
      ensures status == PushOutcome(old(Contents()), report, limit, coalesce)
      ensures Contents() == if status.Queued? then old(Contents()) + [QueuedReport(sequence, report)] else old(Contents())
      ensures status.Queued? ==> sequence == old(nextSequence)
      ensures nextSequence == if status.Queued? then Advance(old(nextSequence)) else old(nextSequence)
      ensures status.Coalesced? ==> size > 0 && sequence == Contents()[size - 1].sequence
    {
      if |report.data| > MAX_PAYLOAD || limit == 0 { return Invalid, 0; }
      if coalesce && size > 0 {
        var tail := reports[(head + size - 1) % CAPACITY];
        assert tail == Contents()[size - 1];
        if IsSnapshot(tail.report.cls) && tail.report.reportId == report.reportId && tail.report.data == report.data
           && tail.report.owner == report.owner && tail.report.usbEpoch == report.usbEpoch {
          return Coalesced, tail.sequence;
        }
      }
      if size >= limit { return Full, 0; }
      sequence := nextSequence;
      Append(QueuedReport(sequence, report));
      status := Queued;
    }

    method Append(entry: QueuedReport)
      requires Valid() && size < CAPACITY && entry.sequence == nextSequence
      modifies this, reports
      ensures Valid() && Contents() == old(Contents()) + [entry] && nextSequence == Advance(old(nextSequence))
    {
      ghost var before := Contents();
      WindowPush(reports[..], head, size, entry);
      reports[(head + size) % CAPACITY] := entry;
      nextSequence := Advance(nextSequence);
      size := size + 1;
      assert Contents() == before + [entry];
      assert forall i | 0 <= i < size - 1 :: Contents()[i] == before[i];
    }

    method Front() returns (found: bool, report: QueuedReport)
      requires Valid()
      ensures found <==> Contents() != []
      ensures found ==> report == Contents()[0]
    {
      report := NO_REPORT;
      found := size > 0;
      if found { report := reports[head]; }
    }

    /** Removes the head, and only if it still is the report that was looked at. */
    method PopIfSequence(sequence: u32) returns (popped: bool)
      requires Valid()
      modifies this, reports
      ensures Valid()
      ensures popped <==> old(Contents()) != [] && old(Contents())[0].sequence == sequence
      ensures Contents() == if popped then old(Contents())[1..] else old(Contents())
      ensures nextSequence == old(nextSequence)
    {
      if size == 0 || reports[head].sequence != sequence { return false; }
      ghost var before := Contents();
      WindowPop(reports[..], head, size, NO_REPORT);
      reports[head] := NO_REPORT;
      head := (head + 1) % CAPACITY;
      size := size - 1;
      assert Contents() == before[1..];
      assert forall i | 0 <= i < size :: Contents()[i] == before[i + 1];
      popped := true;
    }

    method Clear()
      requires Valid()
      modifies this, reports
      ensures Valid() && Contents() == []
      ensures nextSequence == old(nextSequence)
    {
      forall i | 0 <= i < reports.Length { reports[i] := NO_REPORT; }
      head, size := 0, 0;
    }
  }

  /** No two queued reports share a sequence number, so a pop never hits the wrong one. */
  lemma SequencesDistinct(queue: seq<QueuedReport>, next: u32, i: nat, j: nat)
    requires next != 0 && |queue| <= CAPACITY && i < j < |queue|
    requires forall k | 0 <= k < |queue| :: queue[k].sequence == SequenceBefore(next, |queue| - k)
    ensures queue[i].sequence != queue[j].sequence
  {
  }

  // ---------- Wheel movement ----------

  const WHEEL_LIMIT: int := 32767

  datatype Wheel = Wheel(sequence: u32, vertical: int, horizontal: int, queuedMs: u32, owner: BleOwner, usbEpoch: u32)

  const NO_WHEEL := Wheel(0, 0, 0, 0, BleOwner(0xFFFF, 0), 0)

  function Clamp(value: int, limit: int): (r: int)
    requires limit >= 0
    ensures -limit <= r <= limit
    ensures -limit <= value <= limit ==> r == value
    ensures value > 0 ==> 0 <= r <= value
    ensures value < 0 ==> value <= r <= 0
    ensures limit != 0 && value != 0 ==> r != 0
  {
    if value > limit then limit else if value < -limit then -limit else value
  }

  predicate SameDirection(current: int, incoming: int) {
    current == 0 || incoming == 0 || (current > 0 <==> incoming > 0)
  }

  /** An amount that may be taken off a pending movement. */
  predicate Consumable(pending: int, consumed: int) {
    consumed == 0 || 0 < consumed <= pending || pending <= consumed < 0
  }

  function VerticalTotal(queue: seq<Wheel>): int {
    if queue == [] then 0 else VerticalTotal(queue[..|queue| - 1]) + queue[|queue| - 1].vertical
  }

  function HorizontalTotal(queue: seq<Wheel>): int {
    if queue == [] then 0 else HorizontalTotal(queue[..|queue| - 1]) + queue[|queue| - 1].horizontal
  }

  lemma {:induction false} TotalsOfTail(first: Wheel, rest: seq<Wheel>)
    ensures VerticalTotal([first] + rest) == first.vertical + VerticalTotal(rest)
    ensures HorizontalTotal([first] + rest) == first.horizontal + HorizontalTotal(rest)
  {
    if rest != [] {
      TotalsOfTail(first, rest[..|rest| - 1]);
      assert ([first] + rest)[..|rest|] == [first] + rest[..|rest| - 1];
    } else {
      assert VerticalTotal([first]) == VerticalTotal([]) + first.vertical;
      assert [first] + rest == [first];
      assert [first][..0] == [];
    }
  }

  lemma TotalsOfAppend(queue: seq<Wheel>, last: Wheel)
    ensures VerticalTotal(queue + [last]) == VerticalTotal(queue) + last.vertical
    ensures HorizontalTotal(queue + [last]) == HorizontalTotal(queue) + last.horizontal
  {
    assert (queue + [last])[..|queue|] == queue;
  }

  lemma TotalsOfChange(queue: seq<Wheel>, last: Wheel)
    requires queue != []
    ensures VerticalTotal(queue[|queue| - 1 := last]) == VerticalTotal(queue) - queue[|queue| - 1].vertical + last.vertical
    ensures HorizontalTotal(queue[|queue| - 1 := last]) == HorizontalTotal(queue) - queue[|queue| - 1].horizontal + last.horizontal
  {
    assert queue[|queue| - 1 := last][..|queue| - 1] == queue[..|queue| - 1];
  }

  predicate WheelShaped(w: Wheel) {
    && -WHEEL_LIMIT <= w.vertical <= WHEEL_LIMIT && -WHEEL_LIMIT <= w.horizontal <= WHEEL_LIMIT
    && (w.vertical != 0 || w.horizontal != 0)
  }

  class MouseWheelQueue {
    const reports: array<Wheel>
    var head: nat
    var size: nat
    var nextSequence: u32

    ghost predicate Valid()
      reads this, reports
    {
      && reports.Length == CAPACITY
      && head < CAPACITY && size <= CAPACITY
      && nextSequence != 0
      && forall i | 0 <= i < size :: WheelShaped(Contents()[i])
    }

    ghost function Contents(): (queue: seq<Wheel>)
      reads this, reports
      requires reports.Length == CAPACITY && head < CAPACITY && size <= CAPACITY
      ensures |queue| == size
    {
      Window(reports[..], head, size)
    }

    constructor ()
      ensures Valid() && fresh(reports) && Contents() == [] && nextSequence == 1
    {
      reports := new Wheel[CAPACITY](_ => NO_WHEEL);
      head, size, nextSequence := 0, 0, 1;
    }

    /** Conservation on both axes: what was queued plus what came in is what is queued now
        plus what is lost. An accepted push loses movement without saying so exactly when it
        does not join the tail and one axis of it alone is beyond the limit. */
    method Push(vertical: int, horizontal: int, queuedMs: u32, owner: BleOwner, usbEpoch: u32)
      returns (accepted: bool, sequence: u32, coalesced: bool, saturated: bool)
      requires Valid()
      modifies this, reports
      ensures Valid()
      ensures coalesced <==> Joins(old(Contents()), vertical, horizontal, owner, usbEpoch)
      ensures accepted <==> (vertical != 0 || horizontal != 0) && (coalesced || |old(Contents())| < CAPACITY)
      ensures !accepted ==> Contents() == old(Contents())
      ensures nextSequence == if accepted && !coalesced then Advance(old(nextSequence)) else old(nextSequence)
      ensures accepted && !coalesced ==> sequence == old(nextSequence)
      ensures coalesced ==>
                && var last := |old(Contents())| - 1;
                && var tail := old(Contents())[last];
                && Contents() == old(Contents())[last := Joined(tail, vertical, horizontal)]
                && (saturated <==> Excess(tail.vertical + vertical) != 0 || Excess(tail.horizontal + horizontal) != 0)
      ensures accepted && !coalesced ==>
                Contents() == old(Contents()) +
                  [Wheel(sequence, Clamp(vertical, WHEEL_LIMIT), Clamp(horizontal, WHEEL_LIMIT), queuedMs, owner, usbEpoch)]
      ensures !coalesced ==> !saturated
      ensures VerticalTotal(Contents()) ==
                VerticalTotal(old(Contents())) + vertical - LostVertical(old(Contents()), vertical, accepted, coalesced)
      ensures HorizontalTotal(Contents()) ==
                HorizontalTotal(old(Contents())) + horizontal - LostHorizontal(old(Contents()), horizontal, accepted, coalesced)
      ensures accepted ==>
                (saturated <==> coalesced && Loses(old(Contents()), vertical, horizontal, accepted, coalesced))
      ensures accepted ==>
                (Loses(old(Contents()), vertical, horizontal, accepted, coalesced) && !saturated
                 <==> !Joins(old(Contents()), vertical, horizontal, owner, usbEpoch) && (Oversized(vertical) || Oversized(horizontal)))
    {
      hide VerticalTotal, HorizontalTotal, Clamp, Window, Oversized, Loses, Excess;
      ghost var before := Contents();
      accepted, sequence, coalesced, saturated := Offer(vertical, horizontal, queuedMs, owner, usbEpoch);
      if accepted { LossShown(before, vertical, horizontal, coalesced, saturated); }
    }

    /** Joins the tail, takes a slot of its own, or is refused. */
    method Offer(vertical: int, horizontal: int, queuedMs: u32, owner: BleOwner, usbEpoch: u32)
      returns (accepted: bool, sequence: u32, coalesced: bool, saturated: bool)
      requires Valid()
      modifies this, reports
      ensures Valid()
      ensures coalesced <==> Joins(old(Contents()), vertical, horizontal, owner, usbEpoch)
      ensures accepted <==> (vertical != 0 || horizontal != 0) && (coalesced || |old(Contents())| < CAPACITY)
      ensures !accepted ==> Contents() == old(Contents())
      ensures nextSequence == if accepted && !coalesced then Advance(old(nextSequence)) else old(nextSequence)
      ensures accepted && !coalesced ==> sequence == old(nextSequence)
      ensures coalesced ==>
                && var last := |old(Contents())| - 1;
                && var tail := old(Contents())[last];
                && Contents() == old(Contents())[last := Joined(tail, vertical, horizontal)]
                && (saturated <==> Excess(tail.vertical + vertical) != 0 || Excess(tail.horizontal + horizontal) != 0)
      ensures accepted && !coalesced ==>
                Contents() == old(Contents()) +
                  [Wheel(sequence, Clamp(vertical, WHEEL_LIMIT), Clamp(horizontal, WHEEL_LIMIT), queuedMs, owner, usbEpoch)]
      ensures !coalesced ==> !saturated
      ensures VerticalTotal(Contents()) ==
                VerticalTotal(old(Contents())) + vertical - LostVertical(old(Contents()), vertical, accepted, coalesced)
      ensures HorizontalTotal(Contents()) ==
                HorizontalTotal(old(Contents())) + horizontal - LostHorizontal(old(Contents()), horizontal, accepted, coalesced)
    {
      hide VerticalTotal, HorizontalTotal, Clamp, Window;
      accepted, sequence, coalesced, saturated := false, 0, false, false;
      if vertical == 0 && horizontal == 0 { return; }
      if size > 0 {
        var tail := Tail();
        if tail.owner == owner && tail.usbEpoch == usbEpoch
           && SameDirection(tail.vertical, vertical) && SameDirection(tail.horizontal, horizontal) {
          TotalsOfChange(Contents(), Joined(tail, vertical, horizontal));
          saturated := Excess(tail.vertical + vertical) != 0 || Excess(tail.horizontal + horizontal) != 0;
          JoinedShape(tail, vertical, horizontal);
          SetTail(Joined(tail, vertical, horizontal));
          return true, tail.sequence, true, saturated;
        }
      }
      if size >= CAPACITY { return; }
      sequence := nextSequence;
      var wheel := Wheel(sequence, Clamp(vertical, WHEEL_LIMIT), Clamp(horizontal, WHEEL_LIMIT), queuedMs, owner, usbEpoch);
      TotalsOfAppend(Contents(), wheel);
      Append(wheel);
      accepted := true;
    }

    method Tail() returns (tail: Wheel)
      requires Valid() && size > 0
      ensures tail == Contents()[size - 1] && WheelShaped(tail)
    {
      tail := reports[(head + size - 1) % CAPACITY];
    }

    method SetTail(tail: Wheel)
      requires Valid() && size > 0 && WheelShaped(tail)
      modifies reports
      ensures Valid() && Contents() == old(Contents())[size - 1 := tail]
    {
      ghost var before := Contents();
      WindowSet(reports[..], head, size, size - 1, tail);
      reports[(head + size - 1) % CAPACITY] := tail;
      assert Contents() == before[size - 1 := tail];
    }

    method Append(wheel: Wheel)
      requires Valid() && size < CAPACITY && WheelShaped(wheel)
      modifies this, reports
      ensures Valid() && Contents() == old(Contents()) + [wheel] && nextSequence == Advance(old(nextSequence))
    {
      ghost var before := Contents();
      WindowPush(reports[..], head, size, wheel);
      reports[(head + size) % CAPACITY] := wheel;
      nextSequence := Advance(nextSequence);
      size := size + 1;
      assert Contents() == before + [wheel];
    }

    method Front() returns (found: bool, report: Wheel)
      requires Valid()
      ensures found <==> Contents() != []
      ensures found ==> report == Contents()[0]
    {
      report := NO_WHEEL;
      found := size > 0;
      if found { report := reports[head]; }
    }

    /** Takes a delivered amount off the head; a spent head leaves the queue. */
    method ConsumeIfSequence(sequence: u32, vertical: int, horizontal: int) returns (consumed: bool)
      requires Valid()
      modifies this, reports
      ensures Valid()
      ensures consumed <==>
                && old(Contents()) != [] && old(Contents())[0].sequence == sequence
                && Consumable(old(Contents())[0].vertical, vertical) && Consumable(old(Contents())[0].horizontal, horizontal)
      ensures consumed ==> Contents() == AfterConsumption(old(Contents()), vertical, horizontal)
      ensures !consumed ==> Contents() == old(Contents())
      ensures nextSequence == old(nextSequence)
    {
      if size == 0 || reports[head].sequence != sequence { return false; }
      var first := reports[head];
      if !Consumable(first.vertical, vertical) || !Consumable(first.horizontal, horizontal) { return false; }
      ghost var before := Contents();
      var rest := first.(vertical := first.vertical - vertical, horizontal := first.horizontal - horizontal);
      WindowSet(reports[..], head, size, 0, rest);
      reports[head] := rest;
      assert Contents() == before[0 := rest];
      consumed := true;
      if rest.vertical == 0 && rest.horizontal == 0 {
        Drop();
        assert before[0 := rest][1..] == before[1..];
      }
    }

    method PopIfSequence(sequence: u32) returns (popped: bool)
      requires Valid()
      modifies this, reports
      ensures Valid()
      ensures popped <==> old(Contents()) != [] && old(Contents())[0].sequence == sequence
      ensures Contents() == if popped then old(Contents())[1..] else old(Contents())
      ensures nextSequence == old(nextSequence)
    {
      popped := size > 0 && reports[head].sequence == sequence;
      if popped { Drop(); }
    }

    method Drop()
      requires reports.Length == CAPACITY && head < CAPACITY && 0 < size <= CAPACITY && nextSequence != 0
      requires forall i | 1 <= i < size :: WheelShaped(Contents()[i])
      modifies this, reports
      ensures Valid() && nextSequence == old(nextSequence)
      ensures Contents() == old(Contents())[1..]
    {
      ghost var before := Contents();
      WindowPop(reports[..], head, size, NO_WHEEL);
      reports[head] := NO_WHEEL;
      head := (head + 1) % CAPACITY;
      size := size - 1;
      assert Contents() == before[1..];
      assert forall i | 0 <= i < size :: Contents()[i] == before[i + 1];
    }

    method Clear()
      requires Valid()
      modifies this, reports
      ensures Valid() && Contents() == []
    {
      forall i | 0 <= i < reports.Length { reports[i] := NO_WHEEL; }
      head, size := 0, 0;
    }
  }

  /** Movement joins the last entry when owner and direction on both axes agree. */
  predicate Joins(queue: seq<Wheel>, vertical: int, horizontal: int, owner: BleOwner, usbEpoch: u32) {
    && (vertical != 0 || horizontal != 0) && queue != []
    && var tail := queue[|queue| - 1];
    && tail.owner == owner && tail.usbEpoch == usbEpoch
    && SameDirection(tail.vertical, vertical) && SameDirection(tail.horizontal, horizontal)
  }

  /** When that is, and what the entry is then. */
  lemma JoinMeans(queue: seq<Wheel>, vertical: int, horizontal: int, owner: BleOwner, usbEpoch: u32)
    ensures Joins(queue, vertical, horizontal, owner, usbEpoch) <==>
              && (vertical != 0 || horizontal != 0) && |queue| > 0
              && var tail := queue[|queue| - 1];
              && tail.owner == owner && tail.usbEpoch == usbEpoch
              && !(tail.vertical > 0 && vertical < 0) && !(tail.vertical < 0 && vertical > 0)
              && !(tail.horizontal > 0 && horizontal < 0) && !(tail.horizontal < 0 && horizontal > 0)
    ensures |queue| > 0 ==>
              var tail := queue[|queue| - 1];
              var sum := tail.vertical + vertical;
              Joined(tail, vertical, 0).vertical == if sum > 32767 then 32767 else if sum < -32767 then -32767 else sum
  {
  }

  function Joined(tail: Wheel, vertical: int, horizontal: int): Wheel {
    tail.(vertical := Clamp(tail.vertical + vertical, WHEEL_LIMIT),
          horizontal := Clamp(tail.horizontal + horizontal, WHEEL_LIMIT))
  }

  lemma JoinedShape(tail: Wheel, vertical: int, horizontal: int)
    requires WheelShaped(tail)
    requires SameDirection(tail.vertical, vertical) && SameDirection(tail.horizontal, horizontal)
    ensures WheelShaped(Joined(tail, vertical, horizontal))
  {
  }

  /** What a clamp cuts off. */
  function Excess(value: int): int { value - Clamp(value, WHEEL_LIMIT) }

  function LostVertical(queue: seq<Wheel>, vertical: int, accepted: bool, coalesced: bool): int
    requires coalesced ==> queue != []
  {
    if coalesced then Excess(queue[|queue| - 1].vertical + vertical)
    else if accepted then Excess(vertical)
    else vertical
  }

  function LostHorizontal(queue: seq<Wheel>, horizontal: int, accepted: bool, coalesced: bool): int
    requires coalesced ==> queue != []
  {
    if coalesced then Excess(queue[|queue| - 1].horizontal + horizontal)
    else if accepted then Excess(horizontal)
    else horizontal
  }

  predicate Loses(queue: seq<Wheel>, vertical: int, horizontal: int, accepted: bool, coalesced: bool)
    requires coalesced ==> queue != []
  {
    LostVertical(queue, vertical, accepted, coalesced) != 0 || LostHorizontal(queue, horizontal, accepted, coalesced) != 0
  }

  predicate Oversized(value: int) { value > WHEEL_LIMIT || value < -WHEEL_LIMIT }

  /** What an accepted push loses, and what it says about it. */
  lemma LossShown(queue: seq<Wheel>, vertical: int, horizontal: int, coalesced: bool, saturated: bool)
    requires coalesced ==>
               && queue != []
               && var tail := queue[|queue| - 1];
               && (saturated <==> Excess(tail.vertical + vertical) != 0 || Excess(tail.horizontal + horizontal) != 0)
    requires !coalesced ==> !saturated
    ensures saturated <==> coalesced && Loses(queue, vertical, horizontal, true, coalesced)
    ensures Loses(queue, vertical, horizontal, true, coalesced) && !saturated <==>
              !coalesced && (Oversized(vertical) || Oversized(horizontal))
  {
  }

  function AfterConsumption(queue: seq<Wheel>, vertical: int, horizontal: int): seq<Wheel>
    requires queue != []
  {
    var rest := queue[0].(vertical := queue[0].vertical - vertical, horizontal := queue[0].horizontal - horizontal);
    if rest.vertical == 0 && rest.horizontal == 0 then queue[1..] else [rest] + queue[1..]
  }

  /** A delivered chunk leaves the queue, and nothing else does. */
  lemma ConsumptionConserves(queue: seq<Wheel>, vertical: int, horizontal: int)
    requires queue != []
    ensures VerticalTotal(AfterConsumption(queue, vertical, horizontal)) == VerticalTotal(queue) - vertical
    ensures HorizontalTotal(AfterConsumption(queue, vertical, horizontal)) == HorizontalTotal(queue) - horizontal
  {
    var rest := queue[0].(vertical := queue[0].vertical - vertical, horizontal := queue[0].horizontal - horizontal);
    assert queue == [queue[0]] + queue[1..];
    TotalsOfTail(queue[0], queue[1..]);
    TotalsOfTail(rest, queue[1..]);
  }
}
