/** The scheduler over whole runs: how long a wheel waits, in what order reports settle, and
    where all wheel movement goes. */
module SchedulerRuns {
  import opened Bytes
  import opened Generations
  import opened HidQueue
  import opened BleScheduler

  /** One attempt: what was sent with which result, the wheel queue it was chosen from, and
      how often the delivery clock had been reset. */
  datatype Attempt = Attempt(out: Outgoing, tx: TxResult, wheel: seq<Wheel>, resets: nat)

  // ---------- A waiting wheel ----------

  /** A wheel waits all the time, on one clock, and only other reports are attempted. */
  predicate PassedOver(trace: seq<Attempt>) {
    forall k | 0 <= k < |trace| :: trace[k].wheel != [] && trace[k].out.Hid? && trace[k].resets == trace[0].resets
  }

  /** Reports other than releases that settled. */
  function Overtakes(trace: seq<Attempt>): nat {
    if trace == [] then 0
    else
      var last := trace[|trace| - 1];
      Overtakes(trace[..|trace| - 1]) + (if last.out.Hid? && last.tx.Settles() && !KeepsOrder(last.out.report.cls) then 1 else 0)
  }

  ghost predicate Fair(trace: seq<Attempt>, resets: nat, consecutive: nat, maximum: nat) {
    && (forall k | 0 <= k < |trace| :: trace[k].resets <= resets)
    && (forall i, j | 0 <= i <= j <= |trace| :: PassedOver(trace[i..j]) ==> Overtakes(trace[i..j]) <= maximum)
    && forall i | 0 <= i <= |trace| ::
         PassedOver(trace[i..]) && (i < |trace| ==> trace[i].resets == resets) ==> Overtakes(trace[i..]) <= consecutive
  }

  lemma FairExtends(trace: seq<Attempt>, resets: nat, consecutive: byte, c: Config, hid: seq<QueuedReport>, wheel: seq<Wheel>, tx: TxResult)
    requires Normal(c) && (hid != [] || wheel != [])
    requires Fair(trace, resets, consecutive, c.maximumConsecutiveHid)
    ensures var out := Next(hid, wheel, consecutive, c);
            Fair(trace + [Attempt(out, tx, wheel, resets)], resets, ConsecutiveAfter(consecutive, out, tx), c.maximumConsecutiveHid)
  {
    hide Overtakes;
    var out := Next(hid, wheel, consecutive, c);
    var last := Attempt(out, tx, wheel, resets);
    var longer, after := trace + [last], ConsecutiveAfter(consecutive, out, tx);
    forall i | 0 <= i <= |longer|
      ensures PassedOver(longer[i..]) && (i < |longer| ==> longer[i].resets == resets)
              ==> Overtakes(longer[i..]) <= after && Overtakes(longer[i..]) <= c.maximumConsecutiveHid
    {
      if i < |longer| && PassedOver(longer[i..]) && longer[i].resets == resets {
        OneMore(trace, last, i);
        assert trace[i..] == trace[i..|trace|];
      }
      if i == |longer| { NothingOvertakes(longer[i..]); }
    }
    forall i, j | 0 <= i <= j <= |longer| && PassedOver(longer[i..j])
      ensures Overtakes(longer[i..j]) <= c.maximumConsecutiveHid
    {
      if j <= |trace| {
        assert longer[i..j] == trace[i..j];
      } else {
        assert j == |longer|;
        assert longer[i..j] == longer[i..];
        if i < |longer| { assert longer[i..][|longer| - 1 - i] == last; }
      }
    }
  }

  lemma NothingOvertakes(trace: seq<Attempt>)
    requires trace == []
    ensures Overtakes(trace) == 0
  {
  }

  lemma OneMore(trace: seq<Attempt>, last: Attempt, i: nat)
    requires i <= |trace| && PassedOver((trace + [last])[i..])
    ensures PassedOver(trace[i..]) && last.wheel != [] && last.out.Hid?
    ensures (i < |trace| ==> trace[i].resets == last.resets)
    ensures Overtakes((trace + [last])[i..]) == Overtakes(trace[i..]) + (if last.tx.Settles() && !KeepsOrder(last.out.report.cls) then 1 else 0)
  {
    var part := (trace + [last])[i..];
    assert part[..|part| - 1] == trace[i..] && part[|part| - 1] == last;
    assert forall k | 0 <= k < |trace[i..]| :: trace[i..][k] == part[k];
  }

  /** A reset of the clock starts the count anew. */
  lemma FairResets(trace: seq<Attempt>, resets: nat, consecutive: nat, maximum: nat)
    requires Fair(trace, resets, consecutive, maximum)
    ensures Fair(trace, resets + 1, 0, maximum)
  {
    hide Overtakes;
    NothingOvertakes(trace[|trace|..]);
  }

  // ---------- What became of everything ----------

  /** The reports that settled, in order. */
  function Settled(trace: seq<Attempt>): seq<QueuedReport> {
    if trace == [] then []
    else
      var last := trace[|trace| - 1];
      Settled(trace[..|trace| - 1]) + (if last.out.Hid? && last.tx.Settles() then [QueuedReport(last.out.sequence, last.out.report)] else [])
  }

  /** Movement one attempt took off the queue: delivered, or dropped as unsupported. */
  function TakenVertical(attempt: Attempt): int {
    if attempt.out.Hid? || attempt.wheel == [] || !attempt.tx.Settles() then 0
    else if attempt.tx.Accepted? then attempt.out.vertical
    else attempt.wheel[0].vertical
  }

  function TakenHorizontal(attempt: Attempt): int {
    if attempt.out.Hid? || attempt.wheel == [] || !attempt.tx.Settles() then 0
    else if attempt.tx.Accepted? then attempt.out.horizontal
    else attempt.wheel[0].horizontal
  }

  function AllVertical(trace: seq<Attempt>): int {
    if trace == [] then 0 else AllVertical(trace[..|trace| - 1]) + TakenVertical(trace[|trace| - 1])
  }

  function AllHorizontal(trace: seq<Attempt>): int {
    if trace == [] then 0 else AllHorizontal(trace[..|trace| - 1]) + TakenHorizontal(trace[|trace| - 1])
  }

  lemma Appended(trace: seq<Attempt>, last: Attempt)
    ensures Settled(trace + [last]) ==
              Settled(trace) + (if last.out.Hid? && last.tx.Settles() then [QueuedReport(last.out.sequence, last.out.report)] else [])
    ensures AllVertical(trace + [last]) == AllVertical(trace) + TakenVertical(last)
    ensures AllHorizontal(trace + [last]) == AllHorizontal(trace) + TakenHorizontal(last)
  {
    assert (trace + [last])[..|trace|] == trace;
  }

  lemma JoinsTail(wheel: seq<Wheel>, vertical: int, horizontal: int, owner: BleOwner, usbEpoch: u32)
    ensures Joins(wheel, vertical, horizontal, owner, usbEpoch) ==> wheel != [] && (vertical != 0 || horizontal != 0)
  {
  }

  lemma ChunkHasWheel(hid: seq<QueuedReport>, wheel: seq<Wheel>, consecutive: nat, c: Config)
    requires Normal(c) && (hid != [] || wheel != [])
    ensures Next(hid, wheel, consecutive, c).WheelChunk? ==> wheel != []
  {
  }

  lemma HeadSettles(hid: seq<QueuedReport>, wheel: seq<Wheel>, consecutive: nat, c: Config, tx: TxResult)
    requires Normal(c) && (hid != [] || wheel != [])
    ensures var out := Next(hid, wheel, consecutive, c);
            hid == (if out.Hid? && tx.Settles() then [QueuedReport(out.sequence, out.report)] else []) + HidAfter(hid, out, tx)
  {
  }

  /** One attempt on all accounts. */
  lemma Attempted(trace: seq<Attempt>, resets: nat, consecutive: byte, c: Config, hid: seq<QueuedReport>, wheel: seq<Wheel>, tx: TxResult)
    requires Normal(c) && (hid != [] || wheel != [])
    requires Fair(trace, resets, consecutive, c.maximumConsecutiveHid)
    ensures var out := Next(hid, wheel, consecutive, c);
            var longer := trace + [Attempt(out, tx, wheel, resets)];
            && Fair(longer, resets, ConsecutiveAfter(consecutive, out, tx), c.maximumConsecutiveHid)
            && Settled(longer) + HidAfter(hid, out, tx) == Settled(trace) + hid
            && AllVertical(longer) + VerticalTotal(WheelAfter(wheel, out, tx)) == AllVertical(trace) + VerticalTotal(wheel)
            && AllHorizontal(longer) + HorizontalTotal(WheelAfter(wheel, out, tx)) == AllHorizontal(trace) + HorizontalTotal(wheel)
  {
    hide Fair, Settled, AllVertical, AllHorizontal, VerticalTotal, HorizontalTotal, Next, HidAfter, WheelAfter,
         ConsecutiveAfter, Clamp, Consumable;
    ChunkHasWheel(hid, wheel, consecutive, c);
    var out := Next(hid, wheel, consecutive, c);
    FairExtends(trace, resets, consecutive, c, hid, wheel, tx);
    Appended(trace, Attempt(out, tx, wheel, resets));
    HeadSettles(hid, wheel, consecutive, c, tx);
    ChunkConserves(hid, wheel, consecutive, c, tx);
  }

  // ---------- The queues and their scheduler as a value ----------

  datatype Clock = Clock(
    period: u64, nextAttempt: u64, lastAttempt: u64, streak: u32, consecutive: byte, attempted: bool, resync: bool)

  /** Both queues with their counters, the clock, every attempt so far, how often the clock was
      reset, the reports the queue took, and the movement the wheel queue lost. */
  datatype Picture = Picture(
    hid: seq<QueuedReport>, nextHid: u32, wheel: seq<Wheel>, nextWheel: u32, clock: Clock,
    trace: seq<Attempt>, resets: nat, taken: seq<QueuedReport>, lostVertical: int, lostHorizontal: int)

  datatype Event =
    | Reports(report: HidQueue.Report)
    | Turns(vertical: int, horizontal: int, queuedMs: u32, owner: BleOwner, usbEpoch: u32)
    | Polls(now: u64, radio: Outgoing -> TxResult)
    | Resets(disconnected: bool)
    | Intervals(units: nat, valid: bool)
    | ResyncTaken

  function Start(c: Config): Picture
    requires Normal(c)
  {
    Picture([], 1, [], 1, Clock(c.fallbackPeriod, 0, 0, 0, 0, false, false), [], 0, [], 0, 0)
  }

  function AfterReport(p: Picture, report: HidQueue.Report): Picture {
    if !ClassifiedOutcome(p.hid, report).Queued? then p
    else
      var entry := QueuedReport(p.nextHid, report);
      p.(hid := p.hid + [entry], nextHid := Advance(p.nextHid), taken := p.taken + [entry])
  }

  function AfterTurn(p: Picture, vertical: int, horizontal: int, queuedMs: u32, owner: BleOwner, usbEpoch: u32): Picture {
    var joins := Joins(p.wheel, vertical, horizontal, owner, usbEpoch);
    var accepted := (vertical != 0 || horizontal != 0) && (joins || |p.wheel| < CAPACITY);
    var last := |p.wheel| - 1;
    p.(wheel := if joins then p.wheel[last := Joined(p.wheel[last], vertical, horizontal)]
                else if accepted then
                  p.wheel + [Wheel(p.nextWheel, Clamp(vertical, WHEEL_LIMIT), Clamp(horizontal, WHEEL_LIMIT), queuedMs, owner, usbEpoch)]
                else p.wheel,
       nextWheel := if accepted && !joins then Advance(p.nextWheel) else p.nextWheel,
       lostVertical := p.lostVertical + LostVertical(p.wheel, vertical, accepted, joins),
       lostHorizontal := p.lostHorizontal + LostHorizontal(p.wheel, horizontal, accepted, joins))
  }

  /** One attempt when its time has come and anything waits. */
  function AfterPoll(c: Config, p: Picture, now: u64, radio: Outgoing -> TxResult): Picture
    requires Normal(c)
  {
    if (p.hid == [] && p.wheel == []) || (p.clock.attempted && now < p.clock.nextAttempt) then p
    else
      var out := Next(p.hid, p.wheel, p.clock.consecutive, c);
      var tx := radio(out);
      var streak := if tx.Settles() then 0 else Min(p.clock.streak + 1, MAX_U32);
      p.(hid := HidAfter(p.hid, out, tx), wheel := WheelAfter(p.wheel, out, tx),
         clock := Clock(p.clock.period, SatAdd(now, Pause(c, p.clock.period, streak)), now, streak,
                        ConsecutiveAfter(p.clock.consecutive, out, tx), true, p.clock.resync || tx.Disconnected?),
         trace := p.trace + [Attempt(out, tx, p.wheel, p.resets)])
  }

  function Pause(c: Config, period: u64, streak: u32): u64
    requires Normal(c)
  {
    if streak == 0 then period else RetryDelay(c, period, streak)
  }

  function AfterInterval(c: Config, p: Picture, units: nat, valid: bool): Picture
    requires Normal(c) && units < 0x1_0000
  {
    var period: u64 := if valid && units != 0 then Between(units * INTERVAL_UNIT_US, c.minimumPeriod, c.maximumPeriod) else c.fallbackPeriod;
    var rebased: u64 := SatAdd(p.clock.lastAttempt, Pause(c, period, p.clock.streak));
    p.(clock := p.clock.(
         period := period,
         nextAttempt := if !p.clock.attempted || period == p.clock.period then p.clock.nextAttempt
                        else if p.clock.streak == 0 then rebased else Max(p.clock.nextAttempt, rebased)))
  }

  function AfterEvent(c: Config, p: Picture, event: Event): Picture
    requires Normal(c)
  {
    match event
    case Reports(report) => AfterReport(p, report)
    case Turns(vertical, horizontal, queuedMs, owner, usbEpoch) => AfterTurn(p, vertical, horizontal, queuedMs, owner, usbEpoch)
    case Polls(now, radio) => AfterPoll(c, p, now, radio)
    case Resets(disconnected) =>
      p.(clock := Clock(p.clock.period, 0, 0, 0, 0, false, p.clock.resync || disconnected), resets := p.resets + 1)
    case Intervals(units, valid) => if units < 0x1_0000 then AfterInterval(c, p, units, valid) else p
    case ResyncTaken => p.(clock := p.clock.(resync := false))
  }

  /** Where a run of events ends. */
  function After(c: Config, events: seq<Event>): Picture
    requires Normal(c)
  {
    if events == [] then Start(c) else AfterEvent(c, After(c, events[..|events| - 1]), events[|events| - 1])
  }

  /** All movement that was asked for. */
  function VerticalAsked(events: seq<Event>): int {
    if events == [] then 0
    else
      var last := events[|events| - 1];
      VerticalAsked(events[..|events| - 1]) + (if last.Turns? then last.vertical else 0)
  }

  function HorizontalAsked(events: seq<Event>): int {
    if events == [] then 0
    else
      var last := events[|events| - 1];
      HorizontalAsked(events[..|events| - 1]) + (if last.Turns? then last.horizontal else 0)
  }

  // ---------- Every run ----------

  /** A waiting wheel is passed over only so often, every report the queue took has settled in
      order or still waits, and all movement asked for was sent, dropped, lost, or still waits. */
  ghost predicate Accounted(c: Config, p: Picture, vertical: int, horizontal: int) {
    && Fair(p.trace, p.resets, p.clock.consecutive, c.maximumConsecutiveHid)
    && p.taken == Settled(p.trace) + p.hid
    && vertical == p.lostVertical + AllVertical(p.trace) + VerticalTotal(p.wheel)
    && horizontal == p.lostHorizontal + AllHorizontal(p.trace) + HorizontalTotal(p.wheel)
  }

  lemma StartAccounted(c: Config)
    requires Normal(c)
    ensures Accounted(c, Start(c), 0, 0)
  {
    assert forall i, j | 0 <= i <= j <= 0 :: Start(c).trace[i..j] == [];
  }

  lemma ReportAccounted(c: Config, p: Picture, report: HidQueue.Report, vertical: int, horizontal: int)
    requires Accounted(c, p, vertical, horizontal)
    ensures Accounted(c, AfterReport(p, report), vertical, horizontal)
  {
    hide Fair, Settled, AllVertical, AllHorizontal, VerticalTotal, HorizontalTotal, ClassifiedOutcome;
  }

  lemma TurnAccounted(c: Config, p: Picture, v: int, h: int, queuedMs: u32, owner: BleOwner, usbEpoch: u32, vertical: int, horizontal: int)
    requires Accounted(c, p, vertical, horizontal)
    ensures Accounted(c, AfterTurn(p, v, h, queuedMs, owner, usbEpoch), vertical + v, horizontal + h)
  {
    hide Fair, Settled, AllVertical, AllHorizontal, VerticalTotal, HorizontalTotal, Clamp, SameDirection;
    if Joins(p.wheel, v, h, owner, usbEpoch) {
      TotalsOfChange(p.wheel, Joined(p.wheel[|p.wheel| - 1], v, h));
    } else {
      TotalsOfAppend(p.wheel, Wheel(p.nextWheel, Clamp(v, WHEEL_LIMIT), Clamp(h, WHEEL_LIMIT), queuedMs, owner, usbEpoch));
    }
  }

  lemma PollAccounted(c: Config, p: Picture, now: u64, radio: Outgoing -> TxResult, vertical: int, horizontal: int)
    requires Normal(c) && Accounted(c, p, vertical, horizontal)
    ensures Accounted(c, AfterPoll(c, p, now, radio), vertical, horizontal)
  {
    hide Fair, Settled, AllVertical, AllHorizontal, VerticalTotal, HorizontalTotal, RetryDelay, SatAdd, Next, HidAfter, WheelAfter,
         ConsecutiveAfter;
    if p.hid != [] || p.wheel != [] {
      var out := Next(p.hid, p.wheel, p.clock.consecutive, c);
      Attempted(p.trace, p.resets, p.clock.consecutive, c, p.hid, p.wheel, radio(out));
    }
  }

  lemma ResetAccounted(c: Config, p: Picture, disconnected: bool, vertical: int, horizontal: int)
    requires Normal(c) && Accounted(c, p, vertical, horizontal)
    ensures Accounted(c, AfterEvent(c, p, Resets(disconnected)), vertical, horizontal)
  {
    hide Fair, Settled, AllVertical, AllHorizontal, VerticalTotal, HorizontalTotal;
    FairResets(p.trace, p.resets, p.clock.consecutive, c.maximumConsecutiveHid);
  }

  /** So on every run. */
  lemma {:induction false} EveryRun(c: Config, events: seq<Event>)
    requires Normal(c)
    ensures Accounted(c, After(c, events), VerticalAsked(events), HorizontalAsked(events))
  {
    hide Accounted, AfterReport, AfterTurn, AfterPoll, Start;
    if events == [] {
      StartAccounted(c);
    } else {
      var before := events[..|events| - 1];
      EveryRun(c, before);
      var p, vertical, horizontal := After(c, before), VerticalAsked(before), HorizontalAsked(before);
      match events[|events| - 1]
      case Reports(report) => ReportAccounted(c, p, report, vertical, horizontal);
      case Turns(v, h, queuedMs, owner, usbEpoch) => TurnAccounted(c, p, v, h, queuedMs, owner, usbEpoch, vertical, horizontal);
      case Polls(now, radio) => PollAccounted(c, p, now, radio, vertical, horizontal);
      case Resets(disconnected) => ResetAccounted(c, p, disconnected, vertical, horizontal);
      case Intervals(units, valid) =>
        if units < 0x1_0000 { ClockAccounted(c, p, AfterInterval(c, p, units, valid), vertical, horizontal); }
      case ResyncTaken => ClockAccounted(c, p, AfterEvent(c, p, ResyncTaken), vertical, horizontal);
    }
  }

  lemma ClockAccounted(c: Config, p: Picture, q: Picture, vertical: int, horizontal: int)
    requires Accounted(c, p, vertical, horizontal) && q == p.(clock := q.clock) && q.clock.consecutive == p.clock.consecutive
    ensures Accounted(c, q, vertical, horizontal)
  {
    hide Fair, Settled, AllVertical, AllHorizontal, VerticalTotal, HorizontalTotal;
  }

  // ---------- The objects ----------

  class Delivery {
    const scheduler: BleInputScheduler
    const hid: HidReportQueue
    const wheel: MouseWheelQueue
    ghost var trace: seq<Attempt>
    ghost var resets: nat
    ghost var taken: seq<QueuedReport>
    ghost var lostVertical: int
    ghost var lostHorizontal: int

    ghost function Now(): Picture
      reads this, scheduler, hid, hid.reports, wheel, wheel.reports
      requires hid.Valid() && wheel.Valid()
    {
      Picture(hid.Contents(), hid.nextSequence, wheel.Contents(), wheel.nextSequence,
              Clock(scheduler.deliveryPeriod, scheduler.nextAttempt, scheduler.lastAttempt, scheduler.retryStreak,
                    scheduler.consecutiveHid, scheduler.hasAttempted, scheduler.resyncRequired),
              trace, resets, taken, lostVertical, lostHorizontal)
    }

    ghost predicate Valid()
      reads this, scheduler, hid, hid.reports, wheel, wheel.reports
    {
      scheduler.Valid() && hid.Valid() && wheel.Valid()
    }

    constructor (config: Config)
      ensures Valid() && scheduler.config == Normalized(config) && Now() == Start(scheduler.config)
      ensures fresh(scheduler) && fresh(hid) && fresh(hid.reports) && fresh(wheel) && fresh(wheel.reports)
    {
      scheduler := new BleInputScheduler(config);
      hid := new HidReportQueue();
      wheel := new MouseWheelQueue();
      trace, resets, taken, lostVertical, lostHorizontal := [], 0, [], 0, 0;
    }

    method Report(report: HidQueue.Report) returns (status: PushStatus)
      requires Valid()
      modifies this`taken, hid, hid.reports
      ensures Valid() && Now() == AfterReport(old(Now()), report)
      ensures status == ClassifiedOutcome(old(Now()).hid, report)
    {
      hide Window, SequenceBefore, ClassifiedOutcome;
      var sequence;
      status, sequence := hid.PushClassified(report);
      if status.Queued? { taken := taken + [QueuedReport(sequence, report)]; }
    }

    method Turn(vertical: int, horizontal: int, queuedMs: u32, owner: BleOwner, usbEpoch: u32) returns (accepted: bool, saturated: bool)
      requires Valid()
      modifies this`lostVertical, this`lostHorizontal, wheel, wheel.reports
      ensures Valid() && Now() == AfterTurn(old(Now()), vertical, horizontal, queuedMs, owner, usbEpoch)
      ensures accepted && !saturated && !Oversized(vertical) && !Oversized(horizontal) ==>
                Now().lostVertical == old(Now()).lostVertical && Now().lostHorizontal == old(Now()).lostHorizontal
    {
      hide Window, SequenceBefore, VerticalTotal, HorizontalTotal, Clamp, Joins, Joined, LostVertical, LostHorizontal, Oversized, Excess;
      ghost var before := wheel.Contents();
      JoinsTail(before, vertical, horizontal, owner, usbEpoch);
      var sequence, coalesced;
      accepted, sequence, coalesced, saturated := wheel.Push(vertical, horizontal, queuedMs, owner, usbEpoch);
      lostVertical := lostVertical + LostVertical(before, vertical, accepted, coalesced);
      lostHorizontal := lostHorizontal + LostHorizontal(before, horizontal, accepted, coalesced);
    }

    method Poll(now: u64, radio: Outgoing -> TxResult) returns (r: PollResult)
      requires Valid()
      modifies this`trace, scheduler, hid, hid.reports, wheel, wheel.reports
      ensures Valid() && Now() == AfterPoll(scheduler.config, old(Now()), now, radio)
    {
      hide Window, SequenceBefore, RetryDelay, SatAdd, Next, HidAfter, WheelAfter, ConsecutiveAfter;
      ghost var movement := wheel.Contents();
      var out;
      r, out := scheduler.Poll(now, hid, wheel, radio);
      if out.Some? { trace := trace + [Attempt(out.value, radio(out.value), movement, resets)]; }
    }

    /** The clock is reset, with or without a lost connection. */
    method Reset(disconnected: bool)
      requires Valid()
      modifies this`resets, scheduler
      ensures Valid() && Now() == AfterEvent(scheduler.config, old(Now()), Resets(disconnected))
    {
      hide Window, SequenceBefore, RetryDelay, SatAdd;
      resets := resets + 1;
      if disconnected { scheduler.MarkDisconnected(); } else { scheduler.ResetDeliveryClock(); }
    }

    method Interval(units: nat, valid: bool)
      requires Valid() && units < 0x1_0000
      modifies scheduler`deliveryPeriod, scheduler`nextAttempt
      ensures Valid() && Now() == AfterInterval(scheduler.config, old(Now()), units, valid)
    {
      hide Window, SequenceBefore, RetryDelay, SatAdd;
      scheduler.SetConnectionInterval(units, valid);
    }

    method TakeResync() returns (required: bool)
      requires Valid()
      modifies scheduler`resyncRequired
      ensures Valid() && required == old(Now()).clock.resync
      ensures Now() == AfterEvent(scheduler.config, old(Now()), ResyncTaken)
    {
      hide Window, SequenceBefore, RetryDelay, SatAdd;
      required := scheduler.TakeResyncRequired();
    }
  }

  /** Any interleaving of reports, wheel movement, polls, resets, interval changes and resyncs
      ends where the events say, so every account above holds of it. */
  method Run(config: Config, events: seq<Event>) returns (d: Delivery)
    ensures fresh(d) && d.Valid() && d.scheduler.config == Normalized(config)
    ensures d.Now() == After(Normalized(config), events)
    ensures Accounted(Normalized(config), d.Now(), VerticalAsked(events), HorizontalAsked(events))
  {
    hide Window, SequenceBefore, Settled, AllVertical, AllHorizontal, VerticalTotal, HorizontalTotal, RetryDelay, SatAdd,
         Accounted, AfterReport, AfterTurn, AfterPoll, AfterInterval, Normalized;
    d := new Delivery(config);
    for k := 0 to |events|
      invariant fresh(d) && fresh(d.scheduler) && fresh(d.hid) && fresh(d.hid.reports) && fresh(d.wheel) && fresh(d.wheel.reports)
      invariant d.Valid() && d.scheduler.config == Normalized(config) && d.Now() == After(Normalized(config), events[..k])
    {
      match events[k] {
        case Reports(report) => var _ := d.Report(report);
        case Turns(vertical, horizontal, queuedMs, owner, usbEpoch) => var _, _ := d.Turn(vertical, horizontal, queuedMs, owner, usbEpoch);
        case Polls(now, radio) => var _ := d.Poll(now, radio);
        case Resets(disconnected) => d.Reset(disconnected);
        case Intervals(units, valid) => if units < 0x1_0000 { d.Interval(units, valid); }
        case ResyncTaken => var _ := d.TakeResync();
      }
      assert events[..k + 1][..k] == events[..k];
    }
    assert events[..|events|] == events;
    EveryRun(Normalized(config), events);
  }
}
