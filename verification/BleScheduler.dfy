/** One notification per connection interval: who goes next, when, and what a radio result
    does to the queues. */
module BleScheduler {
  import opened Bytes
  import opened Generations
  import opened HidQueue

  const MAX_U64: nat := 0xFFFF_FFFF_FFFF_FFFF
  const INTERVAL_UNIT_US: nat := 1250

  datatype TxResult = Accepted | DroppedUnsupported | RetryableNoBuffer | RetryableBusy | Disconnected | Fatal {
    /** The report is off the queue for good. */
    predicate Settles() { Accepted? || DroppedUnsupported? }
  }

  datatype PollResult = Idle | Throttled | Sent | Dropped | Retryable | Lost | Failed

  datatype Outgoing =
    | Hid(sequence: u32, report: Report)
    | WheelChunk(sequence: u32, vertical: int, horizontal: int, owner: BleOwner)

  datatype Config = Config(
    fallbackPeriod: u64, minimumPeriod: u64, maximumPeriod: u64, maximumBackoff: u64,
    maximumShift: byte, maximumConsecutiveHid: byte, wheelChunk: int)

  const DEFAULT_CONFIG := Config(30000, 7500, 200000, 200000, 2, 3, 127)

  predicate Normal(c: Config) {
    && 0 < c.minimumPeriod <= c.fallbackPeriod <= c.maximumPeriod
    && c.minimumPeriod <= c.maximumBackoff
    && c.maximumShift <= 20 && 0 < c.maximumConsecutiveHid && 1 <= c.wheelChunk <= 127
  }

  function Between(value: int, low: int, high: int): int {
    if value < low then low else if value > high then high else value
  }

  /** The constructor's repairs of an unusable configuration. */
  function Normalized(c: Config): (r: Config)
    ensures Normal(r)
    ensures Normal(c) ==> r == c
  {
    var minimum := if c.minimumPeriod == 0 then 1 else c.minimumPeriod;
    var maximum := Max(c.maximumPeriod, minimum);
    Config(Between(c.fallbackPeriod, minimum, maximum), minimum, maximum, Max(c.maximumBackoff, minimum),
           Min(c.maximumShift, 20), Max(c.maximumConsecutiveHid, 1), Between(c.wheelChunk, 1, 127))
  }

  /** A setting that is usable is kept, one that is not becomes the nearest usable one. */
  lemma RepairMeans(c: Config)
    ensures var r := Normalized(c);
            && (if c.minimumPeriod > 0 then r.minimumPeriod == c.minimumPeriod else r.minimumPeriod == 1)
            && (if c.maximumPeriod >= r.minimumPeriod then r.maximumPeriod == c.maximumPeriod else r.maximumPeriod == r.minimumPeriod)
            && (if c.fallbackPeriod < r.minimumPeriod then r.fallbackPeriod == r.minimumPeriod
                else if c.fallbackPeriod > r.maximumPeriod then r.fallbackPeriod == r.maximumPeriod
                else r.fallbackPeriod == c.fallbackPeriod)
            && (if c.maximumBackoff >= r.minimumPeriod then r.maximumBackoff == c.maximumBackoff else r.maximumBackoff == r.minimumPeriod)
            && (if c.maximumShift <= 20 then r.maximumShift == c.maximumShift else r.maximumShift == 20)
            && (if c.maximumConsecutiveHid > 0 then r.maximumConsecutiveHid == c.maximumConsecutiveHid else r.maximumConsecutiveHid == 1)
            && (if c.wheelChunk < 1 then r.wheelChunk == 1 else if c.wheelChunk > 127 then r.wheelChunk == 127 else r.wheelChunk == c.wheelChunk)
  {
  }

  function SatAdd(a: u64, b: u64): (r: u64)
    ensures r == Min(a + b, MAX_U64)
  {
    if b > MAX_U64 - a then MAX_U64 else a + b
  }

  function Pow2(n: nat): (p: nat)
    ensures p > 0
  {
    if n == 0 then 1 else 2 * Pow2(n - 1)
  }

  function Shift(c: Config, streak: u32): nat {
    if streak == 0 then 0 else Min(streak - 1, c.maximumShift)
  }

  /** retry_delay_us, with its shifts written as divisions and products. */
  function RetryDelay(c: Config, period: u64, streak: u32): (delay: u64)
    requires Normal(c)
    ensures delay == Min(period * Pow2(Shift(c, streak)), c.maximumBackoff)
  {
    var scale := Pow2(Shift(c, streak));
    ShiftBound(period, scale, c.maximumBackoff);
    if period > c.maximumBackoff / scale then c.maximumBackoff else Min(period * scale, c.maximumBackoff)
  }

  lemma ShiftBound(period: nat, scale: nat, maximum: nat)
    requires scale > 0
    ensures period > maximum / scale <==> period * scale > maximum
  {
    var q := maximum / scale;
    assert maximum == q * scale + maximum % scale;
    if period > q {
      assert period * scale >= (q + 1) * scale == q * scale + scale;
    } else {
      assert period * scale <= q * scale;
    }
  }

  /** Backing off never retries faster than the delivery period, exactly as long as the
      period fits under the backoff ceiling. */
  lemma BackoffKeepsPeriod(c: Config, period: u64, streak: u32)
    requires Normal(c)
    ensures RetryDelay(c, period, streak) >= period <==> period <= c.maximumBackoff
  {
    hide RetryDelay;
    var scale := Pow2(Shift(c, streak));
    hide Pow2, Shift;
    AtLeastOnce(period, scale);
  }

  /** With the default settings every period fits. */
  lemma DefaultsKeepPeriod(period: u64, streak: u32)
    requires period <= DEFAULT_CONFIG.maximumPeriod
    ensures Normalized(DEFAULT_CONFIG) == DEFAULT_CONFIG
    ensures RetryDelay(DEFAULT_CONFIG, period, streak) >= period
  {
    BackoffKeepsPeriod(DEFAULT_CONFIG, period, streak);
  }

  lemma AtLeastOnce(period: nat, scale: nat)
    requires scale > 0
    ensures period * scale >= period
  {
  }

  /** The delay never shrinks while failures continue. */
  lemma BackoffGrows(c: Config, period: u64, streak: u32)
    requires Normal(c) && streak < MAX_U32
    ensures RetryDelay(c, period, streak) <= RetryDelay(c, period, streak + 1)
  {
    var s, t := Shift(c, streak), Shift(c, streak + 1);
    assert t == s || t == s + 1;
    if t == s + 1 { assert period * Pow2(t) == 2 * (period * Pow2(s)); }
  }

  // ---------- Who goes next ----------

  predicate KeepsOrder(cls: ReportClass) {
    cls.KeyboardRelease? || cls.KeyboardAllReleased? || cls.AppRelease?
  }

  predicate HidGoes(hid: seq<QueuedReport>, wheel: seq<Wheel>, consecutive: nat, c: Config) {
    hid != [] && (wheel == [] || KeepsOrder(hid[0].report.cls) || consecutive < c.maximumConsecutiveHid)
  }

  function Next(hid: seq<QueuedReport>, wheel: seq<Wheel>, consecutive: nat, c: Config): Outgoing
    requires hid != [] || wheel != []
    requires Normal(c)
  {
    if HidGoes(hid, wheel, consecutive, c) then Hid(hid[0].sequence, hid[0].report)
    else WheelChunk(wheel[0].sequence, Clamp(wheel[0].vertical, c.wheelChunk), Clamp(wheel[0].horizontal, c.wheelChunk),
                    wheel[0].owner)
  }

  function HidAfter(hid: seq<QueuedReport>, out: Outgoing, tx: TxResult): seq<QueuedReport> {
    if out.Hid? && tx.Settles() && hid != [] then hid[1..] else hid
  }

  function WheelAfter(wheel: seq<Wheel>, out: Outgoing, tx: TxResult): seq<Wheel> {
    if out.Hid? || wheel == [] then wheel
    else if tx.Accepted? then AfterConsumption(wheel, out.vertical, out.horizontal)
    else if tx.DroppedUnsupported? then wheel[1..]
    else wheel
  }

  function ConsecutiveAfter(consecutive: byte, out: Outgoing, tx: TxResult): byte {
    if !tx.Settles() then consecutive
    else if out.Hid? then Min(consecutive + 1, 255)
    else 0
  }

  function ResultOf(tx: TxResult): PollResult {
    match tx
    case Accepted => Sent
    case DroppedUnsupported => Dropped
    case RetryableNoBuffer => Retryable
    case RetryableBusy => Retryable
    case Disconnected => Lost
    case Fatal => Failed
  }

  /** A release at the head of the queue is never passed by a wheel. */
  lemma ReleaseFirst(hid: seq<QueuedReport>, wheel: seq<Wheel>, consecutive: nat, c: Config)
    requires Normal(c) && hid != []
    requires var cls := hid[0].report.cls; cls.KeyboardRelease? || cls.KeyboardAllReleased? || cls.AppRelease?
    ensures Next(hid, wheel, consecutive, c) == Hid(hid[0].sequence, hid[0].report)
  {
  }

  /** Who goes otherwise: whoever waits alone; and when both wait, reports up to the agreed
      number in a row, then the wheel, with as much of its movement as one chunk takes. */
  lemma TurnMeans(hid: seq<QueuedReport>, wheel: seq<Wheel>, consecutive: nat, c: Config)
    requires Normal(c) && (hid != [] || wheel != [])
    ensures var out := Next(hid, wheel, consecutive, c);
            && (wheel == [] ==> out == Hid(hid[0].sequence, hid[0].report))
            && (hid == [] ==> out.WheelChunk?)
            && (hid != [] && wheel != [] && (hid[0].report.cls.KeyboardPress? || hid[0].report.cls.AppPress? || hid[0].report.cls.AppCommand?) ==>
                  (out.Hid? <==> consecutive < c.maximumConsecutiveHid) && (out.Hid? ==> out == Hid(hid[0].sequence, hid[0].report)))
            && (out.WheelChunk? ==>
                  && out.sequence == wheel[0].sequence && out.owner == wheel[0].owner
                  && out.vertical == (if wheel[0].vertical > c.wheelChunk then c.wheelChunk
                                      else if wheel[0].vertical < -c.wheelChunk then -c.wheelChunk else wheel[0].vertical)
                  && out.horizontal == (if wheel[0].horizontal > c.wheelChunk then c.wheelChunk
                                        else if wheel[0].horizontal < -c.wheelChunk then -c.wheelChunk else wheel[0].horizontal))
  {
  }

  /** What the radio did decides what is left: a report or a chunk leaves when it was taken,
      an unsupported one leaves untaken, and anything else stays for the next attempt. */
  lemma SettledMeans(hid: seq<QueuedReport>, wheel: seq<Wheel>, consecutive: byte, c: Config, tx: TxResult)
    requires Normal(c) && (hid != [] || wheel != [])
    ensures var out := Next(hid, wheel, consecutive, c);
            var left, moved, run := HidAfter(hid, out, tx), WheelAfter(wheel, out, tx), ConsecutiveAfter(consecutive, out, tx);
            match tx
            case Accepted =>
              if out.Hid? then left == hid[1..] && moved == wheel && run == Min(consecutive + 1, 255)
              else
                && left == hid && run == 0
                && if out.vertical == wheel[0].vertical && out.horizontal == wheel[0].horizontal then moved == wheel[1..]
                   else |moved| == |wheel| && moved[1..] == wheel[1..]
                        && moved[0] == wheel[0].(vertical := wheel[0].vertical - out.vertical, horizontal := wheel[0].horizontal - out.horizontal)
            case DroppedUnsupported =>
              if out.Hid? then left == hid[1..] && moved == wheel && run == Min(consecutive + 1, 255)
              else left == hid && moved == wheel[1..] && run == 0
            case _ => left == hid && moved == wheel && run == consecutive
    ensures ResultOf(tx) == match tx
                            case Accepted => Sent
                            case DroppedUnsupported => Dropped
                            case Disconnected => Lost
                            case Fatal => Failed
                            case _ => Retryable
  {
  }

  /** The first failure costs one period, each further one doubles the pause, up to the
      largest shift and never beyond the ceiling. */
  lemma BackoffMeans(c: Config, period: u64, streak: u32)
    requires Normal(c) && streak < MAX_U32
    ensures RetryDelay(c, period, 1) == if period > c.maximumBackoff then c.maximumBackoff else period
    ensures 1 <= streak <= c.maximumShift ==>
              RetryDelay(c, period, streak + 1) == Min(2 * RetryDelay(c, period, streak), c.maximumBackoff)
    ensures streak > c.maximumShift ==> RetryDelay(c, period, streak + 1) == RetryDelay(c, period, streak)
  {
    var shift := Shift(c, streak);
    if 1 <= streak <= c.maximumShift { assert Shift(c, streak + 1) == shift + 1; }
    assert Pow2(0) == 1 && Shift(c, 1) == 0 && Pow2(shift + 1) == 2 * Pow2(shift);
    hide RetryDelay, Pow2, Shift;
    Twice(period, Pow2(shift));
  }

  lemma Twice(period: nat, scale: nat)
    ensures period * (2 * scale) == 2 * (period * scale)
  {
  }

  /** Every chunk can be taken off the queue, and an accepted one is exactly what is taken. */
  lemma ChunkConserves(hid: seq<QueuedReport>, wheel: seq<Wheel>, consecutive: nat, c: Config, tx: TxResult)
    requires Normal(c) && (hid != [] || wheel != [])
    ensures var out := Next(hid, wheel, consecutive, c);
            var after := WheelAfter(wheel, out, tx);
            && (out.WheelChunk? ==> Consumable(wheel[0].vertical, out.vertical) && Consumable(wheel[0].horizontal, out.horizontal))
            && VerticalTotal(wheel) == VerticalTotal(after)
                 + (if out.Hid? || !tx.Settles() then 0 else if tx.Accepted? then out.vertical else wheel[0].vertical)
            && HorizontalTotal(wheel) == HorizontalTotal(after)
                 + (if out.Hid? || !tx.Settles() then 0 else if tx.Accepted? then out.horizontal else wheel[0].horizontal)
  {
    var out := Next(hid, wheel, consecutive, c);
    if out.WheelChunk? {
      ConsumptionConserves(wheel, out.vertical, out.horizontal);
      TotalsOfTail(wheel[0], wheel[1..]);
      assert wheel == [wheel[0]] + wheel[1..];
    }
  }

  class BleInputScheduler {
    const config: Config
    var deliveryPeriod: u64
    var nextAttempt: u64
    var lastAttempt: u64
    var retryStreak: u32
    var consecutiveHid: byte
    var hasAttempted: bool
    var resyncRequired: bool

    /** The pause owed after the last attempt. */
    function Spacing(): u64
      reads this
      requires Normal(config)
    {
      if retryStreak == 0 then deliveryPeriod else RetryDelay(config, deliveryPeriod, retryStreak)
    }

    predicate Valid()
      reads this
    {
      && Normal(config)
      && config.minimumPeriod <= deliveryPeriod <= config.maximumPeriod
      && (hasAttempted ==> nextAttempt >= SatAdd(lastAttempt, Spacing()))
    }

    constructor (requested: Config)
      ensures Valid() && config == Normalized(requested)
      ensures deliveryPeriod == config.fallbackPeriod && !hasAttempted && retryStreak == 0 && consecutiveHid == 0
      ensures nextAttempt == 0 && lastAttempt == 0 && !resyncRequired
    {
      config := Normalized(requested);
      deliveryPeriod := Normalized(requested).fallbackPeriod;
      nextAttempt, lastAttempt, retryStreak, consecutiveHid := 0, 0, 0, 0;
      hasAttempted, resyncRequired := false, false;
    }

    /** A new interval moves the deadline of the last delivery, but never shortens a retry. */
    method SetConnectionInterval(units: nat, valid: bool)
      requires Valid() && units < 0x1_0000
      modifies this`deliveryPeriod, this`nextAttempt
      ensures Valid()
      ensures deliveryPeriod == if valid && units != 0
                                then Between(units * INTERVAL_UNIT_US, config.minimumPeriod, config.maximumPeriod)
                                else config.fallbackPeriod
      ensures retryStreak != 0 ==> nextAttempt >= old(nextAttempt)
      ensures nextAttempt == if !hasAttempted || deliveryPeriod == old(deliveryPeriod) then old(nextAttempt)
                             else if retryStreak == 0 then SatAdd(lastAttempt, deliveryPeriod)
                             else Max(old(nextAttempt), SatAdd(lastAttempt, Spacing()))
    {
      var period: u64 := config.fallbackPeriod;
      if valid && units != 0 {
        period := Between(units * INTERVAL_UNIT_US, config.minimumPeriod, config.maximumPeriod);
      }
      if period == deliveryPeriod { return; }
      deliveryPeriod := period;
      if hasAttempted {
        var rebased := SatAdd(lastAttempt, Spacing());
        nextAttempt := if retryStreak == 0 then rebased else Max(nextAttempt, rebased);
      }
    }

    method ResetDeliveryClock()
      requires Valid()
      modifies this
      ensures Valid() && !hasAttempted && retryStreak == 0 && consecutiveHid == 0 && nextAttempt == 0 && lastAttempt == 0
      ensures deliveryPeriod == old(deliveryPeriod) && resyncRequired == old(resyncRequired)
    {
      nextAttempt, lastAttempt, retryStreak, consecutiveHid := 0, 0, 0, 0;
      hasAttempted := false;
    }

    method MarkDisconnected()
      requires Valid()
      modifies this
      ensures Valid() && !hasAttempted && retryStreak == 0 && consecutiveHid == 0 && nextAttempt == 0 && lastAttempt == 0
      ensures resyncRequired && deliveryPeriod == old(deliveryPeriod)
    {
      resyncRequired := true;
      ResetDeliveryClock();
    }

    method TakeResyncRequired() returns (required: bool)
      requires Valid()
      modifies this`resyncRequired
      ensures Valid() && required == old(resyncRequired) && !resyncRequired
    {
      required := resyncRequired;
      resyncRequired := false;
    }

    /** At most one attempt, never early, always the report the rules pick; only a settled
        report leaves its queue. */
    method Poll(now: u64, hid: HidReportQueue, wheel: MouseWheelQueue, radio: Outgoing -> TxResult)
      returns (r: PollResult, out: Option<Outgoing>)
      requires Valid() && hid.Valid() && wheel.Valid()
      modifies this, hid, hid.reports, wheel, wheel.reports
      ensures Valid() && hid.Valid() && wheel.Valid()
      ensures r.Idle? <==> old(hid.Contents()) == [] && old(wheel.Contents()) == []
      ensures r.Throttled? <==> !r.Idle? && old(hasAttempted) && now < old(nextAttempt)
      ensures out.None? <==> r.Idle? || r.Throttled?
      ensures out.None? ==>
                && hid.Contents() == old(hid.Contents()) && wheel.Contents() == old(wheel.Contents())
                && nextAttempt == old(nextAttempt) && lastAttempt == old(lastAttempt) && retryStreak == old(retryStreak)
                && consecutiveHid == old(consecutiveHid) && hasAttempted == old(hasAttempted) && resyncRequired == old(resyncRequired)
      ensures out.Some? ==>
                && out.value == Next(old(hid.Contents()), old(wheel.Contents()), old(consecutiveHid), config)
                && var tx := radio(out.value);
                && r == ResultOf(tx)
                && hid.Contents() == HidAfter(old(hid.Contents()), out.value, tx)
                && wheel.Contents() == WheelAfter(old(wheel.Contents()), out.value, tx)
                && consecutiveHid == ConsecutiveAfter(old(consecutiveHid), out.value, tx)
                && retryStreak == (if tx.Settles() then 0 else Min(old(retryStreak) + 1, MAX_U32))
                && hasAttempted && lastAttempt == now && nextAttempt == SatAdd(now, Spacing())
                && resyncRequired == (old(resyncRequired) || tx.Disconnected?)
      ensures out.Some? && old(hasAttempted) ==> now >= SatAdd(old(lastAttempt), old(Spacing()))
      ensures deliveryPeriod == old(deliveryPeriod)
      ensures hid.nextSequence == old(hid.nextSequence) && wheel.nextSequence == old(wheel.nextSequence)
    {
      hide Window, VerticalTotal, HorizontalTotal, SequenceBefore, RetryDelay, SatAdd, HidAfter, WheelAfter, ConsecutiveAfter, AfterConsumption,
           Clamp, WheelShaped, Next;
      var next := Pick(hid, wheel);
      if next.None? { return Idle, None; }
      if hasAttempted && now < nextAttempt { return Throttled, None; }
      out := next;
      hasAttempted := true;
      lastAttempt := now;
      var tx := radio(next.value);
      r := ResultOf(tx);
      Settle(next.value, tx, hid, wheel);
      if tx.Settles() {
        retryStreak := 0;
      } else {
        if tx.Disconnected? { resyncRequired := true; }
        retryStreak := Min(retryStreak + 1, MAX_U32);
      }
      nextAttempt := SatAdd(now, Spacing());
    }

    /** should_send_hid and the report that goes. */
    method Pick(hid: HidReportQueue, wheel: MouseWheelQueue) returns (next: Option<Outgoing>)
      requires Normal(config) && hid.Valid() && wheel.Valid()
      ensures next.None? <==> hid.Contents() == [] && wheel.Contents() == []
      ensures next.Some? ==> next.value == Next(hid.Contents(), wheel.Contents(), consecutiveHid, config)
    {
      hide Window, SequenceBefore, Clamp, WheelShaped;
      var hasHid, hidHead := hid.Front();
      var hasWheel, wheelHead := wheel.Front();
      if !hasHid && !hasWheel { return None; }
      if hasHid && (!hasWheel || KeepsOrder(hidHead.report.cls) || consecutiveHid < config.maximumConsecutiveHid) {
        return Some(Hid(hidHead.sequence, hidHead.report));
      }
      next := Some(WheelChunk(wheelHead.sequence, Clamp(wheelHead.vertical, config.wheelChunk),
                              Clamp(wheelHead.horizontal, config.wheelChunk), wheelHead.owner));
    }

    /** Takes a settled report off its queue and counts it. */
    method Settle(out: Outgoing, tx: TxResult, hid: HidReportQueue, wheel: MouseWheelQueue)
      requires hid.Valid() && wheel.Valid() && Normal(config)
      requires hid.Contents() != [] || wheel.Contents() != []
      requires out == Next(hid.Contents(), wheel.Contents(), consecutiveHid, config)
      modifies this`consecutiveHid, hid, hid.reports, wheel, wheel.reports
      ensures hid.Valid() && wheel.Valid()
      ensures hid.Contents() == HidAfter(old(hid.Contents()), out, tx)
      ensures wheel.Contents() == WheelAfter(old(wheel.Contents()), out, tx)
      ensures consecutiveHid == ConsecutiveAfter(old(consecutiveHid), out, tx)
      ensures hid.nextSequence == old(hid.nextSequence) && wheel.nextSequence == old(wheel.nextSequence)
    {
      hide Window, VerticalTotal, HorizontalTotal, SequenceBefore, AfterConsumption;
      if !tx.Settles() { return; }
      if out.Hid? {
        var popped := hid.PopIfSequence(out.sequence);
        if popped { consecutiveHid := Min(consecutiveHid + 1, 255); }
      } else {
        var taken;
        if tx.Accepted? {
          taken := wheel.ConsumeIfSequence(out.sequence, out.vertical, out.horizontal);
        } else {
          taken := wheel.PopIfSequence(out.sequence);
        }
        if taken { consecutiveHid := 0; }
      }
    }
  }
}
