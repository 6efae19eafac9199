/** The slots the report queue keeps free for releases, shared by the keys and the stateful
    hotkeys of the eleven inputs: when they suffice, and exactly what spoils them. */
module InputReservation {
  import opened Bytes
  import opened Generations
  import opened HidQueue
  import opened HidReservation
  import opened HeldKeyboard
  import opened SnapshotDelivery
  import opened BleScheduler
  import opened KeyboardPipeline
  import opened Transport

  const APP_REPORT: byte := 0x11
  const HOTKEY_KIND: byte := 2
  const CHUNK_DATA: nat := 59

  // ---------- Counting inputs ----------

  /** Which hotkeys are down. */
  function Downs(hotkeys: seq<Hotkey>): (flags: seq<bool>)
    ensures |flags| == |hotkeys| && forall i | 0 <= i < |hotkeys| :: flags[i] == hotkeys[i].pressed
  {
    seq(|hotkeys|, i requires 0 <= i < |hotkeys| => hotkeys[i].pressed)
  }

  lemma DownsChange(hotkeys: seq<Hotkey>, i: nat, next: Hotkey)
    requires i < |hotkeys|
    ensures Count(Downs(hotkeys[i := next])) ==
              Count(Downs(hotkeys)) - (if hotkeys[i].pressed then 1 else 0) + (if next.pressed then 1 else 0)
  {
    assert Downs(hotkeys[i := next]) == Downs(hotkeys)[i := next.pressed];
    CountChange(Downs(hotkeys), i, next.pressed);
  }

  /** Inputs used once are no more than there are. */
  lemma {:induction false} Shared(keys: seq<bool>, hotkeys: seq<bool>)
    requires |keys| == |hotkeys| && forall i | 0 <= i < |keys| :: !(keys[i] && hotkeys[i])
    ensures Count(keys) + Count(hotkeys) <= |keys|
  {
    if keys != [] { Shared(keys[..|keys| - 1], hotkeys[..|hotkeys| - 1]); }
  }

  lemma CountedTwice(flags: seq<bool>, i: nat, j: nat)
    requires i < |flags| && j < |flags| && i != j && flags[i] && flags[j]
    ensures Count(flags) >= 2
  {
    CountChange(flags, i, false);
    ActiveCounted(flags[i := false], j);
  }

  // ---------- What a press and a release do to the report ----------

  lemma ModifiersGrow(held: Held, source: nat, report: KeyReport)
    requires held.Shaped() && source < SOURCES && !held.active[source]
    ensures Modifiers(held, SOURCES) & !Modifiers(With(held, source, report), SOURCES) == 0
  {
    hide Modifiers;
    var after := With(held, source, report);
    assert forall i | 0 <= i < SOURCES && held.active[i] :: after.active[i] && after.reports[i] == held.reports[i];
    var lost := Lost(Modifiers(held, SOURCES), Modifiers(after, SOURCES));
    ModifiersMeaning(held, SOURCES, lost);
    ModifiersMeaning(after, SOURCES, lost);
    LostIsLost(Modifiers(held, SOURCES), Modifiers(after, SOURCES));
  }

  function Lost(a: bv8, b: bv8): bv8 { a & !b }

  lemma LostIsLost(a: bv8, b: bv8)
    ensures Lost(a, b) != 0 ==> a & Lost(a, b) != 0 && b & Lost(a, b) == 0
  {
    assert a & (a & !b) == a & !b;
    assert b & (a & !b) == 0;
  }

  /** A press takes nothing off the report. */
  lemma PressGrows(held: Held, source: nat, report: KeyReport)
    requires held.Shaped() && source < SOURCES && !held.active[source] && Composable(held)
    requires Composable(Held(held.reports[source := report], held.active[source := true]))
    ensures !Removes(SnapshotOf(held), SnapshotOf(Held(held.reports[source := report], held.active[source := true])))
  {
    var after := Held(held.reports[source := report], held.active[source := true]);
    ModifiersGrow(held, source, report);
    forall code: byte | code != 0 && code in SnapshotOf(held).keycodes ensures code in SnapshotOf(after).keycodes {
      SnapshotIsUnion(held, code, 0);
      SnapshotIsUnion(after, code, 0);
      var i :| 0 <= i < SOURCES && held.active[i] && code in ReportKeys(held.reports[i]);
      assert after.active[i] && after.reports[i] == held.reports[i];
    }
    SnapshotIsUnion(held, 1, 0);
    SnapshotIsUnion(after, 1, 0);
    if SnapshotOf(held).appleFn {
      var i :| 0 <= i < SOURCES && held.active[i] && held.reports[i].appleFn;
      assert after.active[i] && after.reports[i] == held.reports[i];
    }
  }

  lemma RemovesNothing(a: Snapshot, b: Snapshot, c: Snapshot)
    requires !Removes(a, b) && !Removes(b, c)
    ensures !Removes(a, c)
  {
    BitsCompose(a.modifier, b.modifier, c.modifier);
    forall i | 0 <= i < ROLLOVER && a.keycodes[i] != 0 ensures a.keycodes[i] in c.keycodes {
      var j :| 0 <= j < ROLLOVER && b.keycodes[j] == a.keycodes[i];
    }
  }

  lemma BitsCompose(a: bv8, b: bv8, c: bv8)
    requires a & !b == 0 && b & !c == 0
    ensures a & !c == 0
  {
  }

  lemma RemovesNothingOfItself(a: Snapshot)
    ensures !Removes(a, a)
  {
    assert a.modifier & !a.modifier == 0;
  }

  /** What grows and ends empty was empty. */
  lemma GrownIsNotEmpty(a: Snapshot, b: Snapshot)
    requires !Removes(a, b) && a != b
    ensures !b.Empty()
  {
    if b.Empty() {
      NoBitLost(a.modifier, b.modifier, 0xFF);
      assert a.modifier & 0xFF == a.modifier;
      assert forall i | 0 <= i < ROLLOVER :: a.keycodes[i] == 0;
      EncodeEmpty(a);
      EncodeEmpty(b);
    }
  }

  /** A report that shows something has a held source. */
  lemma SomethingHeld(held: Held)
    requires held.Shaped() && Composable(held) && SnapshotOf(held) != RELEASED
    ensures Count(held.active) > 0
  {
    if Count(held.active) == 0 {
      CountZero(held.active);
      EmptyWhenNothingHeld(held);
    }
  }

  // ---------- Keys and hotkeys on one queue ----------

  predicate NameFits(name: string) { 0 < |name| < CHUNK_DATA }

  /** The one report of a hotkey edge. */
  function HotkeyReport(t: Transition, owner: BleOwner): (report: Report)
    requires NameFits(t.name)
    ensures WellFormed(report) && !IsSnapshot(report.cls) && report.owner == owner && report.usbEpoch == 0
    ensures report.cls == HotkeyClass(t)
  {
    var text := seq(|t.name|, i requires 0 <= i < |t.name| => t.name[i] as int % 256);
    Report(APP_REPORT,
           [HOTKEY_KIND, 0, 1, |t.name| + 1, if t.pressed then 1 else 2] + text + Fill(0, CHUNK_DATA - 1 - |t.name|),
           0, HotkeyClass(t), owner, 0)
  }

  /** Kind, index, count and length in front, then press or release, then the name, then
      zeros. */
  lemma HotkeyLayout(t: Transition, owner: BleOwner)
    requires NameFits(t.name)
    ensures var report := HotkeyReport(t, owner);
            && report.reportId == 0x11 && |report.data| == 63 && report.data[0] == 2 && report.data[1] == 0 && report.data[2] == 1
            && report.data[3] == |t.name| + 1 && report.data[4] == (if t.pressed then 1 else 2)
            && (forall k | 0 <= k < |t.name| :: report.data[5 + k] == t.name[k] as int % 256)
            && (forall k | 5 + |t.name| <= k < 63 :: report.data[k] == 0)
            && (report.cls.AppPress? <==> t.pressed) && (report.cls.AppRelease? <==> !t.pressed)
  {
  }

  function HotkeyClass(t: Transition): ReportClass { if t.pressed then AppPress else AppRelease }

  /** How full the queue is, what is held, the last keyboard state the queue has taken, and
      for every input the hotkey it should be and the one the queue has taken. */
  datatype View = View(size: nat, held: Held, delivered: Snapshot, desired: seq<Hotkey>, accepted: seq<Hotkey>) {
    ghost predicate Shaped() {
      && held.Shaped() && Composable(held) && |desired| == SOURCES && |accepted| == SOURCES
      && (forall i | 0 <= i < SOURCES :: HotkeyShape(desired[i]) && HotkeyShape(accepted[i]))
      && (forall i | 0 <= i < SOURCES :: accepted[i].pressed ==> NameFits(accepted[i].name))
      && forall i | 0 <= i < SOURCES :: !(held.active[i] && desired[i].pressed)
    }

    /** Slots in use plus the releases still owed: of held keys and of hotkeys the host was
        told are down. */
    function Load(): nat { size + Count(held.active) + Count(Downs(accepted)) }

    /** A hotkey that is up again while the queue had no slot for its release. */
    predicate Stuck(i: nat)
      requires i < |accepted| == |desired|
    {
      accepted[i].pressed && !desired[i].pressed
    }

    predicate AnyStuck()
      requires |desired| == SOURCES && |accepted| == SOURCES
    {
      exists i | 0 <= i < SOURCES :: Stuck(i)
    }

    /** Every owed release has a slot, and of the keyboard only a press may be waiting. */
    ghost predicate Fits()
      requires Shaped()
    {
      && Load() <= CAPACITY
      && !Removes(delivered, SnapshotOf(held))
      && forall i | 0 <= i < SOURCES :: !(held.active[i] && accepted[i].pressed)
    }

    ghost predicate Reserved()
      requires Shaped()
    {
      Fits() && (AnyStuck() ==> size >= CAPACITY - 1)
    }
  }

  /** Offers the union of `held` to the queue. */
  function Offered(v: View, held: Held): View
    requires held.Shaped() && Composable(held)
  {
    var wanted := SnapshotOf(held);
    v.(held := held, size := SizeAfter(v.size, v.delivered, wanted),
       delivered := if Admits(v.size, v.delivered, wanted) then wanted else v.delivered)
  }

  /** A changed set of held sources is offered when the report changes. */
  function Changed(v: View, held: Held): View
    requires v.held.Shaped() && Composable(v.held) && held.Shaped() && Composable(held)
  {
    if SnapshotOf(held) == SnapshotOf(v.held) then v.(held := held) else Offered(v, held)
  }

  function With(held: Held, source: nat, report: KeyReport): Held
    requires held.Shaped() && source < SOURCES
  {
    Held(held.reports[source := report], held.active[source := true])
  }

  function Without(held: Held, source: nat): (r: Held)
    requires held.Shaped() && source < SOURCES
    ensures r.Shaped()
  {
    Held(held.reports[source := NOT_HELD], held.active[source := false])
  }

  /** The press is taken into the held state. */
  predicate Applies(held: Held, source: nat, report: KeyReport)
    requires held.Shaped()
  {
    source < SOURCES && Usable(report) && !held.active[source] && Composable(With(held, source, report))
  }

  ghost function AfterKeyDown(v: View, source: nat, report: KeyReport): View
    requires v.Shaped()
  {
    if Applies(v.held, source, report) then Changed(v, With(v.held, source, report)) else v
  }

  ghost function AfterKeyUp(v: View, source: nat): View
    requires v.Shaped()
  {
    if source < SOURCES && v.held.active[source] then
      ReleaseComposes(v.held, source, NOT_HELD);
      Changed(v, Without(v.held, source))
    else v
  }

  /** A hotkey moves one pending transition, if the queue takes its report. */
  function AfterHotkeyFlush(v: View, source: nat): View
    requires source < |v.desired| == |v.accepted|
  {
    var pending := PendingOf(v.desired[source], v.accepted[source], 0);
    if pending.None? || !NameFits(pending.value.name) || v.size >= ClassCapacity(HotkeyClass(pending.value)) then v
    else v.(size := v.size + 1,
            accepted := v.accepted[source := if pending.value.pressed then Hotkey(true, pending.value.name) else UP])
  }

  function AfterHotkey(v: View, source: nat, next: Hotkey): View
    requires source < |v.desired| == |v.accepted|
  {
    AfterHotkeyFlush(v.(desired := v.desired[source := next]), source)
  }

  // ---------- What keeps the reservation ----------

  lemma NothingElse(v: View, i: nat)
    requires v.Shaped() && v.Fits() && i < SOURCES && v.accepted[i].pressed && v.size >= CAPACITY - 1
    ensures v.size == CAPACITY - 1 && v.Load() == CAPACITY
    ensures forall j | 0 <= j < SOURCES :: !v.held.active[j] && (j != i ==> !v.accepted[j].pressed)
  {
    ActiveCounted(Downs(v.accepted), i);
    CountZero(v.held.active);
    forall j | 0 <= j < SOURCES && j != i ensures !v.accepted[j].pressed {
      if v.accepted[j].pressed { CountedTwice(Downs(v.accepted), i, j); }
    }
  }

  /** What a grown state does to the queue: it uses a press slot or waits. */
  lemma GrownOffered(v: View, held: Held)
    requires v.Shaped() && v.Fits() && held.Shaped() && Composable(held) && !Removes(SnapshotOf(v.held), SnapshotOf(held))
    ensures var after := Changed(v, held);
            && (after.size == v.size || (after.size == v.size + 1 && v.size < ClassCapacity(KeyboardPress)))
            && !Removes(after.delivered, SnapshotOf(held))
  {
    RemovesNothing(v.delivered, SnapshotOf(v.held), SnapshotOf(held));
    RemovesNothingOfItself(SnapshotOf(held));
    if SnapshotOf(held) != SnapshotOf(v.held) { GrownIsNotEmpty(SnapshotOf(v.held), SnapshotOf(held)); }
    hide SnapshotOf, Removes, Composable, Count, Downs;
  }

  lemma PressCounts(v: View, source: nat, held: Held)
    requires v.Shaped() && v.Fits() && source < SOURCES && !v.held.active[source] && !v.desired[source].pressed
    requires held.Shaped() && held.active == v.held.active[source := true]
    requires v.AnyStuck() ==> v.size >= CAPACITY - 1
    ensures Count(held.active) == Count(v.held.active) + 1
    ensures v.accepted[source].pressed ==> v.Load() == CAPACITY && v.size >= CAPACITY - 1
    ensures !v.accepted[source].pressed ==>
              Count(held.active) + Count(Downs(v.accepted)) <= SOURCES
              && forall i | 0 <= i < SOURCES :: !(held.active[i] && v.accepted[i].pressed)
  {
    hide Count, Downs, Removes, SnapshotOf, Composable;
    CountChange(v.held.active, source, true);
    if v.accepted[source].pressed {
      assert v.Stuck(source);
      NothingElse(v, source);
    } else {
      Shared(held.active, Downs(v.accepted));
    }
  }

  /** A press spoils the reservation exactly when no slot is left for its release. */
  lemma KeyDownKeeps(v: View, source: nat, report: KeyReport)
    requires v.Shaped() && v.Reserved() && (source < SOURCES ==> !v.desired[source].pressed)
    ensures var after := AfterKeyDown(v, source, report);
            && after.Shaped()
            && (after.Reserved() <==> !(Applies(v.held, source, report) && v.Load() == CAPACITY))
            && (after.size != v.size ==> !v.AnyStuck() && after.Reserved())
            && after.desired == v.desired && after.accepted == v.accepted
  {
    if Applies(v.held, source, report) {
      var held := With(v.held, source, report);
      PressGrows(v.held, source, report);
      GrownOffered(v, held);
      PressCounts(v, source, held);
      hide SnapshotOf, Removes, Composable, Count, Downs;
      var after := AfterKeyDown(v, source, report);
      assert after == Changed(v, held);
      assert after.held == held && after.accepted == v.accepted && after.desired == v.desired;
      hide Changed;
      assert after.Load() == v.Load() + 1 + after.size - v.size;
      assert after.AnyStuck() ==> v.AnyStuck() by {
        if after.AnyStuck() { var i :| 0 <= i < SOURCES && after.Stuck(i); assert v.Stuck(i); }
      }
    }
  }

  /** Letting a key go is refused: its report takes something away and has no slot. */
  predicate ReleaseRefused(v: View, held: Held)
    requires v.held.Shaped() && Composable(v.held) && held.Shaped() && Composable(held)
  {
    && SnapshotOf(held) != SnapshotOf(v.held)
    && !Admits(v.size, v.delivered, SnapshotOf(held))
    && !Classify(v.delivered, SnapshotOf(held)).KeyboardPress?
  }

  lemma SameStuck(v: View, after: View)
    requires |v.desired| == SOURCES && |v.accepted| == SOURCES && after.desired == v.desired && after.accepted == v.accepted
    ensures after.AnyStuck() <==> v.AnyStuck()
  {
    if after.AnyStuck() { var i :| 0 <= i < SOURCES && after.Stuck(i); assert v.Stuck(i); }
    if v.AnyStuck() { var i :| 0 <= i < SOURCES && v.Stuck(i); assert after.Stuck(i); }
  }

  /** With a free slot, or two for a report that shows something, no release is refused. */
  lemma ReleaseOffered(v: View, held: Held)
    requires v.Shaped() && v.Fits() && held.Shaped() && Composable(held)
    requires v.size < CAPACITY && (Count(held.active) > 0 ==> v.size < CAPACITY - 1)
    ensures !ReleaseRefused(v, held)
    ensures !Removes(Changed(v, held).delivered, SnapshotOf(held))
  {
    RemovesNothingOfItself(SnapshotOf(held));
    if SnapshotOf(held) != RELEASED { SomethingHeld(held); }
    EncodeEmpty(SnapshotOf(held));
    hide SnapshotOf, Removes, Composable, Count, Downs;
  }

  lemma KeyUpFits(v: View, source: nat)
    requires v.Shaped() && v.Fits() && source < SOURCES && v.held.active[source]
    ensures var after := AfterKeyUp(v, source);
            && after.Shaped() && after.Fits()
            && Composable(Without(v.held, source)) && !ReleaseRefused(v, Without(v.held, source))
  {
    var held := Without(v.held, source);
    ReleaseComposes(v.held, source, NOT_HELD);
    CountChange(v.held.active, source, false);
    hide SnapshotOf, Removes, Composable, Count, Downs;
    ReleaseOffered(v, held);
    var after := AfterKeyUp(v, source);
    assert after == Changed(v, held);
    assert after.held == held && after.accepted == v.accepted && after.desired == v.desired && after.size <= v.size + 1;
    hide Changed, ReleaseRefused;
    assert after.Load() == v.Load() - 1 + after.size - v.size;
  }

  /** Letting go of a reserved key always finds a slot. */
  lemma KeyUpKeeps(v: View, source: nat)
    requires v.Shaped() && v.Reserved() && source < SOURCES && v.held.active[source]
    ensures var after := AfterKeyUp(v, source);
            && after.Shaped() && after.Reserved() && !v.AnyStuck()
            && Composable(Without(v.held, source)) && !ReleaseRefused(v, Without(v.held, source))
  {
    if v.AnyStuck() {
      var i :| 0 <= i < SOURCES && v.Stuck(i);
      NothingElse(v, i);
    }
    KeyUpFits(v, source);
    hide SnapshotOf, Removes, Composable, Count, Downs, ReleaseRefused;
    SameStuck(v, AfterKeyUp(v, source));
  }

  /** Letting go of everything: one all-released report at most, never refused. */
  lemma ClearKeeps(v: View, held: Held)
    requires v.Shaped() && v.Reserved() && held.Shaped() && forall i | 0 <= i < SOURCES :: !held.active[i]
    ensures Composable(held) && SnapshotOf(held) == RELEASED
    ensures var after := Offered(v, held);
            && after.Shaped() && after.Reserved() && after.delivered == RELEASED
            && (after.size != v.size ==> !v.AnyStuck())
  {
    EmptyWhenNothingHeld(held);
    CountZero(held.active);
    RemovesNothingOfItself(RELEASED);
    CountZero(v.held.active);
    if Count(v.held.active) == 0 {
      EmptyWhenNothingHeld(v.held);
      if v.delivered != RELEASED { GrownIsNotEmpty(v.delivered, RELEASED); }
    }
    if v.AnyStuck() {
      var i :| 0 <= i < SOURCES && v.Stuck(i);
      NothingElse(v, i);
    }
    hide SnapshotOf, Removes, Composable, Count, Downs;
    SameStuck(v, Offered(v, held));
    assert Offered(v, held).Load() == Count(Downs(v.accepted)) + Offered(v, held).size;
  }

  /** Retrying a waiting press. */
  lemma RetryKeeps(v: View)
    requires v.Shaped() && v.Fits()
    ensures var after := Offered(v, v.held); after.Shaped() && after.Fits()
  {
    RemovesNothingOfItself(SnapshotOf(v.held));
    Shared(v.held.active, Downs(v.accepted));
    if SnapshotOf(v.held) != v.delivered { GrownIsNotEmpty(v.delivered, SnapshotOf(v.held)); }
    hide SnapshotOf, Removes, Composable, Count, Downs;
    assert Offered(v, v.held).Load() == v.Load() + Offered(v, v.held).size - v.size;
  }

  /** No hotkey of these waits for its release while a slot is free for it. */
  predicate Settled(v: View, inputs: set<nat>)
    requires |v.desired| == SOURCES && |v.accepted| == SOURCES
  {
    forall i | i in inputs && i < SOURCES :: v.Stuck(i) ==> v.size >= CAPACITY - 1
  }

  /** A hotkey edge keeps the reservation; a push finds no hotkey stuck. */
  lemma HotkeyFlushKeeps(v: View, source: nat, inputs: set<nat>)
    requires v.Shaped() && v.Fits() && source < SOURCES && Settled(v, inputs)
    ensures var after := AfterHotkeyFlush(v, source);
            && after.Shaped() && after.Fits() && Settled(after, inputs + {source})
            && (after.size != v.size ==> forall i | i in inputs + {source} && i < SOURCES :: !after.Stuck(i))
  {
    hide SnapshotOf, Removes, Composable, Count, Downs;
    var after := AfterHotkeyFlush(v, source);
    Shared(v.held.active, Downs(v.accepted));
    DownsChange(v.accepted, source, after.accepted[source]);
    assert after.accepted == v.accepted[source := after.accepted[source]];
    forall i | i in inputs && i < SOURCES && v.Stuck(i) && after.size != v.size && i != source ensures false {
      NothingElse(v, i);
    }
  }

  /** The release of a hotkey is refused exactly when one slot is left; then nothing else
      is held. */
  lemma HotkeyUpRefused(v: View, source: nat)
    requires v.Shaped() && v.Reserved() && source < SOURCES && v.accepted[source].pressed
    ensures AfterHotkey(v, source, UP).accepted == v.accepted <==> v.size == CAPACITY - 1
    ensures v.size == CAPACITY - 1 ==>
              forall i | 0 <= i < SOURCES :: !v.held.active[i] && (i != source ==> !v.accepted[i].pressed)
  {
    if v.size >= CAPACITY - 1 { NothingElse(v, source); }
    assert AfterHotkey(v, source, UP).accepted == v.accepted ==>
      AfterHotkey(v, source, UP).accepted[source] == v.accepted[source];
  }

  /** Traffic that owes no release stays below the reserved slots. */
  lemma AppKeeps(v: View)
    requires v.Shaped() && v.Reserved() && v.size < ClassCapacity(AppCommand)
    ensures v.(size := v.size + 1).Shaped() && v.(size := v.size + 1).Reserved() && !v.AnyStuck()
  {
    hide SnapshotOf, Removes, Composable, Count, Downs;
    Shared(v.held.active, Downs(v.accepted));
    var after := v.(size := v.size + 1);
    assert after.Load() == v.Load() + 1;
    assert forall i | 0 <= i < SOURCES :: after.Stuck(i) ==> v.Stuck(i);
  }

  // ---------- The reservation is exact ----------

  datatype LetGo = Key(source: nat) | App(source: nat)

  ghost function AfterLetGo(v: View, out: LetGo): View
    requires v.Shaped()
  {
    if out.source >= SOURCES then v
    else if out.Key? then AfterKeyUp(v, out.source)
    else if v.accepted[out.source].pressed then AfterHotkey(v, out.source, UP)
    else v
  }

  /** A key release without a slot, or a hotkey release without a slot while something else
      is still held. */
  ghost predicate Refused(v: View, out: LetGo)
    requires v.Shaped()
  {
    && out.source < SOURCES
    && if out.Key? then
         && v.held.active[out.source] && Composable(Without(v.held, out.source))
         && ReleaseRefused(v, Without(v.held, out.source))
       else
         && v.accepted[out.source].pressed && v.size >= ClassCapacity(AppRelease)
         && exists i | 0 <= i < SOURCES :: v.held.active[i] || (i != out.source && v.accepted[i].pressed)
  }

  lemma LetGoShaped(v: View, out: LetGo)
    requires v.Shaped()
    ensures AfterLetGo(v, out).Shaped()
  {
    if out.source < SOURCES && out.Key? && v.held.active[out.source] { ReleaseComposes(v.held, out.source, NOT_HELD); }
    hide Composable, SnapshotOf;
  }

  /** Some release in this order of letting go is refused. */
  ghost predicate SomeRefused(v: View, order: seq<LetGo>)
    requires v.Shaped()
    decreases |order|
  {
    LetGoShaped(v, if order == [] then Key(SOURCES) else order[0]);
    order != [] && (Refused(v, order[0]) || SomeRefused(AfterLetGo(v, order[0]), order[1..]))
  }

  /** Whatever is let go, in any order and with nothing leaving the queue meanwhile. */
  lemma {:induction false} EveryOrderFits(v: View, order: seq<LetGo>)
    requires v.Shaped() && v.Fits()
    ensures !SomeRefused(v, order)
    decreases |order|
  {
    if order != [] {
      var out := order[0];
      hide Composable, SnapshotOf, Removes, Count, Downs, ReleaseRefused;
      LetGoShaped(v, out);
      if out.source < SOURCES {
        if out.Key? {
          if v.held.active[out.source] { KeyUpFits(v, out.source); }
        } else if v.accepted[out.source].pressed {
          if v.size >= CAPACITY - 1 { NothingElse(v, out.source); }
          HotkeyUpFits(v, out.source);
        }
      }
      EveryOrderFits(AfterLetGo(v, out), order[1..]);
    }
  }

  lemma HotkeyUpFits(v: View, source: nat)
    requires v.Shaped() && v.Fits() && source < SOURCES && v.accepted[source].pressed
    ensures AfterHotkey(v, source, UP).Shaped() && AfterHotkey(v, source, UP).Fits()
  {
    var wished := v.(desired := v.desired[source := UP]);
    hide Composable, SnapshotOf, Removes, Count, Downs;
    assert wished.Load() == v.Load();
    HotkeyFlushKeeps(wished, source, {});
  }

  /** A key code only this source shows. */
  predicate Own(held: Held, source: nat, code: byte)
    requires held.Shaped() && source < SOURCES
  {
    && code != 0 && held.active[source] && code in ReportKeys(held.reports[source])
    && forall j | 0 <= j < SOURCES && j != source && held.active[j] :: code !in ReportKeys(held.reports[j])
  }

  ghost predicate OwnKeys(held: Held)
    requires held.Shaped()
  {
    forall i | 0 <= i < SOURCES && held.active[i] :: exists code :: Own(held, i, code)
  }

  lemma OwnKeyGoes(held: Held, source: nat, code: byte)
    requires held.Shaped() && Composable(held) && source < SOURCES && Own(held, source, code)
    ensures Composable(Without(held, source)) && code !in SnapshotOf(Without(held, source)).keycodes
    ensures code in SnapshotOf(held).keycodes
  {
    ReleaseComposes(held, source, NOT_HELD);
    SnapshotIsUnion(held, code, 0);
    SnapshotIsUnion(Without(held, source), code, 0);
    assert KeyHeld(held, SOURCES, code);
  }

  lemma OwnKeysStay(held: Held, source: nat)
    requires held.Shaped() && source < SOURCES && OwnKeys(held)
    ensures OwnKeys(Without(held, source))
  {
    var after := Without(held, source);
    forall i | 0 <= i < SOURCES && after.active[i] ensures exists code :: Own(after, i, code) {
      var code :| Own(held, i, code);
      assert Own(after, i, code);
    }
  }

  /** While another source has a key of its own, letting go of a shown key is a release that
      takes a slot below the last one. */
  lemma OwnKeyRelease(v: View, source: nat, code: byte, other: nat)
    requires v.Shaped() && source < SOURCES && Own(v.held, source, code) && code in v.delivered.keycodes
    requires other < SOURCES && other != source && v.held.active[other] && OwnKeys(v.held)
    ensures Composable(Without(v.held, source))
    ensures v.size >= CAPACITY - 1 ==> ReleaseRefused(v, Without(v.held, source))
    ensures v.size < CAPACITY - 1 ==>
              AfterKeyUp(v, source) == v.(size := v.size + 1, held := Without(v.held, source), delivered := SnapshotOf(Without(v.held, source)))
  {
    var held := Without(v.held, source);
    OwnKeyGoes(v.held, source, code);
    OwnKeysStay(v.held, source);
    var own :| Own(held, other, own);
    OwnKeyGoes(held, other, own);
    assert !SnapshotOf(held).Empty();
    assert Removes(v.delivered, SnapshotOf(held));
    hide SnapshotOf, Removes, Composable, Own, OwnKeys;
  }

  lemma HotkeyGoes(v: View, source: nat)
    requires v.Shaped() && source < SOURCES && v.accepted[source].pressed && v.size < CAPACITY - 1
    ensures var after := AfterLetGo(v, App(source));
            && after.Shaped() && after.held == v.held && after.delivered == v.delivered && after.size == v.size + 1
            && Count(Downs(after.accepted)) == Count(Downs(v.accepted)) - 1
  {
    hide Composable, SnapshotOf, Count, Downs;
    LetGoShaped(v, App(source));
    DownsChange(v.accepted, source, UP);
  }

  /** The next key of its own is shown once the first one is gone. */
  lemma KeyGoes(v: View, first: nat, code: byte, other: nat) returns (own: byte)
    requires v.Shaped() && OwnKeys(v.held) && v.size < CAPACITY - 1
    requires first < SOURCES && Own(v.held, first, code) && code in v.delivered.keycodes
    requires other < SOURCES && other != first && v.held.active[other]
    ensures var after := AfterLetGo(v, Key(first));
            && after.Shaped() && OwnKeys(after.held) && after.size == v.size + 1 && after.accepted == v.accepted
            && Count(after.held.active) == Count(v.held.active) - 1
            && Own(after.held, other, own) && own in after.delivered.keycodes
  {
    hide Composable, SnapshotOf, Count, Downs;
    LetGoShaped(v, Key(first));
    OwnKeyRelease(v, first, code, other);
    CountChange(v.held.active, first, false);
    OwnKeysStay(v.held, first);
    own :| Own(Without(v.held, first), other, own);
    OwnKeyGoes(Without(v.held, first), other, own);
  }

  lemma AnotherKey(held: Held, first: nat) returns (other: nat)
    requires held.Shaped() && first < SOURCES && Count(held.active) >= 2
    ensures other < SOURCES && other != first && held.active[other]
  {
    CountZero(held.active[first := false]);
    CountChange(held.active, first, false);
    other :| 0 <= other < SOURCES && held.active[first := false][other];
  }

  /** With one release too many, some order of letting go is refused. */
  lemma {:induction false} SomeOrderStarves(v: View, first: nat, code: byte) returns (order: seq<LetGo>)
    requires v.Shaped() && v.Load() > CAPACITY && v.size < CAPACITY && OwnKeys(v.held)
    requires first < SOURCES && Own(v.held, first, code) && code in v.delivered.keycodes
    ensures SomeRefused(v, order)
    decreases Count(v.held.active) + Count(Downs(v.accepted))
  {
    hide Composable, SnapshotOf, Removes, ReleaseRefused, Count, Downs, OwnKeys, SomeRefused, AfterLetGo, HotkeyShape, NameFits;
    CountZero(Downs(v.accepted));
    var rest := [];
    if hotkey :| 0 <= hotkey < SOURCES && v.accepted[hotkey].pressed {
      if v.size < CAPACITY - 1 {
        HotkeyGoes(v, hotkey);
        rest := SomeOrderStarves(AfterLetGo(v, App(hotkey)), first, code);
      }
      order := Then(v, App(hotkey), rest);
    } else {
      var other := AnotherKey(v.held, first);
      OwnKeyRelease(v, first, code, other);
      if v.size < CAPACITY - 1 {
        var own := KeyGoes(v, first, code, other);
        rest := SomeOrderStarves(AfterLetGo(v, Key(first)), other, own);
      }
      order := Then(v, Key(first), rest);
    }
  }

  lemma Then(v: View, out: LetGo, rest: seq<LetGo>) returns (order: seq<LetGo>)
    requires v.Shaped()
    requires Refused(v, out) || (AfterLetGo(v, out).Shaped() && SomeRefused(AfterLetGo(v, out), rest))
    ensures SomeRefused(v, order)
  {
    order := [out] + rest;
    LetGoShaped(v, out);
    assert order[0] == out && order[1..] == rest;
  }

  /** So for keys that each show a code of their own the reservation is exact: every order of
      letting go finds its slots if and only if the load is within the capacity. */
  lemma ReservationIsExact(v: View, first: nat, code: byte)
    requires v.Shaped() && v.size < CAPACITY && OwnKeys(v.held)
    requires !Removes(v.delivered, SnapshotOf(v.held)) && forall i | 0 <= i < SOURCES :: !(v.held.active[i] && v.accepted[i].pressed)
    requires first < SOURCES && Own(v.held, first, code) && code in v.delivered.keycodes
    ensures v.Load() <= CAPACITY <==> forall order :: !SomeRefused(v, order)
  {
    hide Composable, SnapshotOf, Removes, ReleaseRefused, Count, Downs, Own, OwnKeys, SomeRefused;
    if v.Load() <= CAPACITY {
      forall order ensures !SomeRefused(v, order) { EveryOrderFits(v, order); }
    } else {
      var order := SomeOrderStarves(v, first, code);
      assert SomeRefused(v, order);
    }
  }

  // ---------- What happens to the view ----------

  /** A radio slot takes one report, or none. */
  predicate MaybeSent(v: View, w: View) { w == v || (v.size > 0 && w == v.(size := v.size - 1)) }

  /** `next` is what an input makes of `v`; the radio is given a slot after a push only. */
  predicate Pushed(v: View, next: View, w: View) { if next.size > v.size then MaybeSent(next, w) else w == next }

  /** One hotkey is let go, or what it still waits for is tried again. */
  function HotkeyStep(v: View, source: nat, release: bool): View
    requires source < |v.desired| == |v.accepted|
  {
    if release then AfterHotkey(v, source, UP) else AfterHotkeyFlush(v, source)
  }

  /** The first `n` hotkeys in order. */
  ghost predicate Hotkeys(v: View, n: nat, release: bool, w: View) {
    if n == 0 then w == v
    else exists mid: View ::
      n <= |mid.desired| == |mid.accepted| && Hotkeys(v, n - 1, release, mid) && Pushed(mid, HotkeyStep(mid, n - 1, release), w)
  }

  lemma HotkeysOn(v: View, n: nat, release: bool, mid: View, w: View)
    requires n < |mid.desired| == |mid.accepted| && Hotkeys(v, n, release, mid) && Pushed(mid, HotkeyStep(mid, n, release), w)
    ensures Hotkeys(v, n + 1, release, w)
  {
    hide Pushed, HotkeyStep;
  }

  /** The end of a pass: a radio slot, the keyboard state again, every hotkey again. */
  ghost predicate PassEnded(v: View, w: View)
    requires v.Shaped()
  {
    exists sent: View, offered: View ::
      && MaybeSent(v, sent) && Pushed(sent, Offered(sent, v.held), offered) && Hotkeys(offered, SOURCES, false, w)
  }

  /** Everything let go: the keys at once, then hotkey by hotkey. */
  ghost predicate LetGoOfAll(v: View, w: View) {
    exists held: Held, up: View ::
      held.Shaped() && Composable(held) && NoKey(held) && Pushed(v, Offered(v, held), up) && Hotkeys(up, SOURCES, true, w)
  }

  predicate NoKey(held: Held)
    requires held.Shaped()
  {
    forall i | 0 <= i < SOURCES :: !held.active[i]
  }

  /** What an event may make of the view. */
  ghost predicate Happens(v: View, input: Input, w: View)
    requires v.Shaped()
  {
    match input
    case KeyPressed(source, report) =>
      if source < SOURCES && v.desired[source].pressed then w == v else Pushed(v, AfterKeyDown(v, source, report), w)
    case KeyReleased(source) => Pushed(v, AfterKeyUp(v, source), w)
    case HotkeyPressed(source, name) =>
      if source < SOURCES && !v.held.active[source] then Pushed(v, AfterHotkey(v, source, Hotkey(true, name)), w) else w == v
    case HotkeyReleased(source) => if source < SOURCES then Pushed(v, AfterHotkey(v, source, UP), w) else w == v
    case Command(_, data) =>
      Pushed(v, if |data| <= MAX_PAYLOAD && v.size < ClassCapacity(AppCommand) then v.(size := v.size + 1) else v, w)
    case ReleaseAll => LetGoOfAll(v, w)
    case PassEnds => PassEnded(v, w)
  }

  // ---------- The inputs and their queue ----------

  /** Nothing queued, nothing held. */
  function AllUp(): View { View(0, NONE_HELD, RELEASED, seq(SOURCES, _ => UP), seq(SOURCES, _ => UP)) }

  lemma AllUpIsReserved()
    ensures AllUp().Shaped() && AllUp().Reserved()
  {
    EmptyWhenNothingHeld(NONE_HELD);
    RemovesNothingOfItself(RELEASED);
    CountZero(NONE_HELD.active);
    CountZero(Downs(AllUp().accepted));
  }

  /** Every input is either a key of the held keyboard or a hotkey with a delivery of its own. */
  class Inputs {
    const keyboard: Keyboard
    var desired: seq<Hotkey>
    var accepted: seq<Hotkey>

    ghost function Now(): View
      reads this, keyboard.held, keyboard.delivery, keyboard.queue
    {
      View(keyboard.queue.size, keyboard.held.State(), keyboard.delivery.accepted, desired, accepted)
    }

    ghost predicate Valid()
      reads this, keyboard, keyboard.held, keyboard.delivery, keyboard.queue, keyboard.queue.reports, keyboard.wheel,
            keyboard.wheel.reports, keyboard.scheduler
    {
      keyboard.Valid() && Now().Shaped()
    }

    constructor (config: Config, owner: BleOwner)
      ensures Valid() && fresh(keyboard) && fresh(keyboard.held) && fresh(keyboard.delivery) && fresh(keyboard.queue)
      ensures fresh(keyboard.queue.reports) && fresh(keyboard.wheel) && fresh(keyboard.wheel.reports) && fresh(keyboard.scheduler)
      ensures Now() == AllUp()
    {
      keyboard := new Keyboard(config, owner);
      desired, accepted := AllUp().desired, AllUp().accepted;
      new;
      AllUpIsReserved();
    }

    /** The press of a key; an input that is down does not go down again. */
    method KeyDown(source: nat, report: KeyReport) returns (update: Update, queued: bool)
      requires Valid() && (source < SOURCES ==> !desired[source].pressed)
      modifies keyboard`taken, keyboard.held, keyboard.delivery, keyboard.queue, keyboard.queue.reports
      ensures Valid() && Now() == AfterKeyDown(old(Now()), source, report)
      ensures update.status.Applied? <==> Applies(old(Now()).held, source, report)
      ensures queued <==> Now().size > old(Now()).size
      ensures desired == old(desired) && this.accepted == old(this.accepted)
    {
      hide SnapshotOf, Composable, Removes, Encode, KeyboardData, LastState, Window, LastSlotRule, SameEndpoint, SequenceBefore;
      var size := keyboard.queue.size;
      var accepted;
      update, accepted := keyboard.KeyDown(source, report);
      queued := keyboard.queue.size > size;
    }

    /** The release of a key; refused when its report takes something away and has no slot. */
    method KeyUp(source: nat) returns (refused: bool, queued: bool)
      requires Valid()
      modifies keyboard`taken, keyboard.held, keyboard.delivery, keyboard.queue, keyboard.queue.reports
      ensures Valid() && Now() == AfterKeyUp(old(Now()), source)
      ensures refused <==> Refused(old(Now()), Key(source))
      ensures queued <==> Now().size > old(Now()).size
    {
      hide SnapshotOf, Composable, Removes, Encode, KeyboardData, LastState, Window, LastSlotRule, SameEndpoint, SequenceBefore;
      var size := keyboard.queue.size;
      if source < SOURCES && keyboard.held.active[source] { ReleaseComposes(keyboard.held.State(), source, NOT_HELD); }
      var update, accepted := keyboard.KeyUp(source);
      refused := update.reportChanged && !accepted && !Classify(keyboard.delivery.accepted, keyboard.held.current).KeyboardPress?;
      queued := keyboard.queue.size > size;
    }

    /** One attempt to move a hotkey towards what it should be. */
    method FlushHotkey(source: nat) returns (queued: bool)
      requires Valid() && source < SOURCES
      modifies this`accepted, keyboard.queue, keyboard.queue.reports
      ensures Valid() && Now() == AfterHotkeyFlush(old(Now()), source)
      ensures queued <==> Now().size > old(Now()).size
    {
      hide SnapshotOf, Composable, Removes, Encode, KeyboardData, LastState, Window, LastSlotRule, SequenceBefore, HotkeyReport,
           Keyboard.Valid;
      var pending := PendingOf(desired[source], accepted[source], 0);
      if pending.None? || !NameFits(pending.value.name) { return false; }
      var status := keyboard.PushApp(HotkeyReport(pending.value, keyboard.owner));
      queued := status.Queued?;
      if queued {
        accepted := accepted[source := if pending.value.pressed then Hotkey(true, pending.value.name) else UP];
      }
    }

    /** A hotkey edge; an input that is down as a key is no hotkey. */
    method SetHotkey(source: nat, next: Hotkey) returns (queued: bool)
      requires Valid() && source < SOURCES && HotkeyShape(next) && (next.pressed ==> !keyboard.held.active[source])
      modifies this, keyboard.queue, keyboard.queue.reports
      ensures Valid() && Now() == AfterHotkey(old(Now()), source, next)
      ensures queued <==> Now().size > old(Now()).size
    {
      hide SnapshotOf, Composable, Removes, Keyboard.Valid;
      desired := desired[source := next];
      queued := FlushHotkey(source);
    }

    /** Traffic that owes no release. */
    method PushCommand(report: Report) returns (queued: bool)
      requires Valid() && report.owner == keyboard.owner && report.usbEpoch == 0 && report.cls.AppCommand?
      modifies keyboard.queue, keyboard.queue.reports
      ensures Valid()
      ensures queued <==> WellFormed(report) && old(Now()).size < ClassCapacity(AppCommand)
      ensures Now() == if queued then old(Now()).(size := old(Now()).size + 1) else old(Now())
    {
      hide SnapshotOf, Composable, Removes, Keyboard.Valid;
      var status := keyboard.PushApp(report);
      queued := status.Queued?;
    }

    /** App traffic and the radio slot after a push. */
    method CommandArrives(reportId: byte, data: seq<byte>, now: u64, radio: Outgoing -> TxResult)
      requires Valid() && KeepsRequired(radio)
      modifies keyboard`host, keyboard.queue, keyboard.queue.reports, keyboard.wheel, keyboard.wheel.reports, keyboard.scheduler
      ensures Valid() && Happens(old(Now()), Command(reportId, data), Now())
      ensures old(Now()).Reserved() ==> Now().Reserved()
    {
      hide SnapshotOf, Composable, Removes, Keyboard.Valid, Count, Downs;
      if Now().Reserved() && Now().size < ClassCapacity(AppCommand) { AppKeeps(Now()); }
      var queued := PushCommand(Report(reportId, data, 0, AppCommand, keyboard.owner, 0));
      if queued { Poll(now, radio); }
    }

    /** One radio slot. */
    method Poll(now: u64, radio: Outgoing -> TxResult)
      requires Valid() && KeepsRequired(radio)
      modifies keyboard`host, keyboard.queue, keyboard.queue.reports, keyboard.wheel, keyboard.wheel.reports, keyboard.scheduler
      ensures Valid() && MaybeSent(old(Now()), Now())
      ensures old(Now()).Fits() ==> Now().Fits()
      ensures old(Now()).Reserved() && !old(Now()).AnyStuck() ==> Now().Reserved()
    {
      hide SnapshotOf, Composable, Removes, Keyboard.Valid, Count, Downs;
      ghost var v := Now();
      var _ := keyboard.Poll(now, radio);
      SameStuck(v, Now());
    }

    /** Offers a waiting keyboard state again. */
    method FlushKeyboard() returns (queued: bool)
      requires Valid()
      modifies keyboard`taken, keyboard.delivery, keyboard.queue, keyboard.queue.reports
      ensures Valid() && Now() == Offered(old(Now()), old(Now()).held)
      ensures queued <==> Now().size > old(Now()).size
    {
      hide SnapshotOf, Composable, Removes, Encode, KeyboardData, LastState, Window, LastSlotRule, SameEndpoint, SequenceBefore;
      var size := keyboard.queue.size;
      var _ := keyboard.Flush();
      queued := keyboard.queue.size > size;
    }

    /** Retries one hotkey; a report that got in may leave at once. */
    method RetryHotkey(source: nat, now: u64, radio: Outgoing -> TxResult, ghost done: set<nat>)
      requires Valid() && KeepsRequired(radio) && source < SOURCES
      modifies this`accepted, keyboard`host, keyboard.queue, keyboard.queue.reports, keyboard.wheel, keyboard.wheel.reports,
               keyboard.scheduler
      ensures Valid() && Pushed(old(Now()), AfterHotkeyFlush(old(Now()), source), Now())
      ensures old(Now()).Fits() && Settled(old(Now()), done) ==> Now().Fits() && Settled(Now(), done + {source})
    {
      hide SnapshotOf, Composable, Removes, Keyboard.Valid, Count, Downs, AfterHotkeyFlush;
      if Now().Fits() && Settled(Now(), done) { HotkeyFlushKeeps(Now(), source, done); }
      var queued := FlushHotkey(source);
      if queued { Poll(now, radio); }
    }

    /** The end of one main-loop pass: a radio slot, then everything waiting is retried. */
    method Tick(now: u64, radio: Outgoing -> TxResult)
      requires Valid() && KeepsRequired(radio)
      modifies this`accepted, keyboard`taken, keyboard`host, keyboard.delivery, keyboard.queue, keyboard.queue.reports,
               keyboard.wheel, keyboard.wheel.reports, keyboard.scheduler
      ensures Valid() && PassEnded(old(Now()), Now())
      ensures old(Now()).Fits() ==> Now().Reserved()
    {
      hide SnapshotOf, Composable, Removes, Keyboard.Valid, Count, Downs, Offered;
      ghost var v, fits := Now(), Now().Fits();
      Poll(now, radio);
      ghost var sent := Now();
      if fits { RetryKeeps(Now()); }
      var queued := FlushKeyboard();
      if queued { Poll(now, radio); }
      ghost var offered := Now();
      RetryHotkeys(now, radio);
      assert MaybeSent(v, sent) && Pushed(sent, Offered(sent, v.held), offered) && Hotkeys(offered, SOURCES, false, Now());
    }

    method RetryHotkeys(now: u64, radio: Outgoing -> TxResult)
      requires Valid() && KeepsRequired(radio)
      modifies this`accepted, keyboard`host, keyboard.queue, keyboard.queue.reports, keyboard.wheel, keyboard.wheel.reports,
               keyboard.scheduler
      ensures Valid() && Hotkeys(old(Now()), SOURCES, false, Now())
      ensures old(Now()).Fits() ==> Now().Reserved()
    {
      hide SnapshotOf, Composable, Removes, Keyboard.Valid, Count, Downs, AfterHotkeyFlush, Hotkeys, Pushed, Settled, View.Fits;
      ghost var v, fits := Now(), Now().Fits();
      ghost var done: set<nat> := {};
      NoneTried(v);
      for source := 0 to SOURCES
        invariant Valid() && Hotkeys(v, source, false, Now())
        invariant fits ==> Now().Fits() && Settled(Now(), done)
        invariant forall i: nat | i < source :: i in done
      {
        ghost var mid := Now();
        RetryHotkey(source, now, radio, done);
        HotkeysOn(v, source, false, mid, Now());
        done := done + {source};
      }
      if fits { AllTried(Now(), done); }
    }

    /** release_keyboard_reports: every key and every hotkey is let go. */
    method LetAllGo(now: u64, radio: Outgoing -> TxResult)
      requires Valid() && KeepsRequired(radio)
      modifies this, keyboard`taken, keyboard`host, keyboard.held, keyboard.delivery, keyboard.queue, keyboard.queue.reports,
               keyboard.wheel, keyboard.wheel.reports, keyboard.scheduler
      ensures LetGoOfAll(old(Now()), Now())
      ensures Valid() && keyboard.held.current == RELEASED && forall i | 0 <= i < SOURCES :: desired[i] == UP
      ensures old(Now()).Reserved() ==> Now().Reserved() && Now().delivered == RELEASED
    {
      hide SnapshotOf, Composable, Removes, Keyboard.Valid, Count, Downs, Hotkeys, AfterHotkey;
      ghost var v, reserved := Now(), Now().Reserved();
      var queued := LetKeysGo();
      ghost var held := keyboard.held.State();
      if queued { Poll(now, radio); }
      ghost var up := Now();
      assert Hotkeys(up, 0, true, up) by { NoneTried(up); }
      for source := 0 to SOURCES
        invariant Hotkeys(up, source, true, Now())
        invariant Valid() && forall i | 0 <= i < SOURCES :: !keyboard.held.active[i]
        invariant forall i | 0 <= i < source :: desired[i] == UP
        invariant reserved ==> Now().Reserved() && Now().delivered == RELEASED
      {
        ghost var mid := Now();
        var _ := Edge(source, UP, now, radio);
        HotkeysOn(up, source, true, mid, Now());
      }
      assert Pushed(v, Offered(v, held), up) && Hotkeys(up, SOURCES, true, Now());
      NothingShown();
    }

    lemma NothingShown()
      requires Valid() && forall i | 0 <= i < SOURCES :: !keyboard.held.active[i]
      ensures keyboard.held.current == RELEASED
    {
      EmptyWhenNothingHeld(keyboard.held.State());
    }

    method LetKeysGo() returns (queued: bool)
      requires Valid()
      modifies keyboard`taken, keyboard.held, keyboard.delivery, keyboard.queue, keyboard.queue.reports
      ensures Valid() && forall i | 0 <= i < SOURCES :: !keyboard.held.active[i]
      ensures NoKey(Now().held) && Now() == Offered(old(Now()), Now().held)
      ensures queued <==> Now().size > old(Now()).size
      ensures old(Now()).Reserved() ==> Now().Reserved() && Now().delivered == RELEASED && (queued ==> !Now().AnyStuck())
    {
      hide SnapshotOf, Composable, Removes, Encode, KeyboardData, LastState, Window, LastSlotRule, SameEndpoint,
           SequenceBefore, Count, Downs;
      ghost var v := Now();
      var size := keyboard.queue.size;
      var _ := keyboard.LetAllGo();
      queued := keyboard.queue.size > size;
      assert Now().Shaped() by { EmptyWhenNothingHeld(keyboard.held.State()); }
      assert Now() == Offered(v, keyboard.held.State()) by { EmptyWhenNothingHeld(keyboard.held.State()); }
      if v.Reserved() {
        ClearKeeps(v, keyboard.held.State());
        assert Now() == Offered(v, keyboard.held.State());
        SameStuck(v, Now());
      }
    }

    /** A hotkey edge and the radio slot after a push; `starved` is a release that waits
        although something else is still held. */
    method Edge(source: nat, next: Hotkey, now: u64, radio: Outgoing -> TxResult) returns (starved: bool)
      requires Valid() && KeepsRequired(radio)
      requires source < SOURCES && HotkeyShape(next) && (next.pressed ==> !keyboard.held.active[source])
      modifies this, keyboard`host, keyboard.queue, keyboard.queue.reports, keyboard.wheel, keyboard.wheel.reports, keyboard.scheduler
      ensures Pushed(old(Now()), AfterHotkey(old(Now()), source, next), Now())
      ensures Valid() && desired == old(desired)[source := next]
      ensures old(Now()).Reserved() ==> Now().Reserved() && !starved
      ensures starved <==> Refused(old(Now()), App(source)) && !next.pressed
      ensures Now().delivered == old(Now()).delivered
    {
      hide SnapshotOf, Composable, Removes, Keyboard.Valid, Count, Downs;
      ghost var v := Now();
      var others := exists i | 0 <= i < SOURCES :: keyboard.held.active[i] || (i != source && accepted[i].pressed);
      starved := accepted[source].pressed && !next.pressed && keyboard.queue.size >= ClassCapacity(AppRelease) && others;
      if v.Reserved() { EdgeKeeps(v, source, next); }
      var queued := SetHotkey(source, next);
      if queued { Poll(now, radio); }
    }

    /** A key press and the radio slot after a push; `overloaded` is a press that leaves no
        slot for its release. */
    method Press(source: nat, report: KeyReport, now: u64, radio: Outgoing -> TxResult) returns (overloaded: bool)
      requires Valid() && KeepsRequired(radio) && (source < SOURCES ==> !desired[source].pressed)
      modifies keyboard`taken, keyboard`host, keyboard.held, keyboard.delivery, keyboard.queue, keyboard.queue.reports,
               keyboard.wheel, keyboard.wheel.reports, keyboard.scheduler
      ensures Valid() && Pushed(old(Now()), AfterKeyDown(old(Now()), source, report), Now())
      ensures overloaded <==> Applies(old(Now()).held, source, report) && old(Now()).Load() == CAPACITY
      ensures old(Now()).Reserved() ==> (Now().Reserved() <==> !overloaded)
    {
      hide SnapshotOf, Composable, Removes, Keyboard.Valid, Count, Downs, Applies, AfterKeyDown;
      ghost var v := Now();
      ActiveIsCounted();
      var load := keyboard.queue.size + keyboard.held.activeCount + Count(Downs(accepted));
      if v.Reserved() { KeyDownKeeps(v, source, report); }
      var update, queued := KeyDown(source, report);
      overloaded := update.status.Applied? && load == CAPACITY;
      SameStuck(v, Now());
      if queued { Poll(now, radio); }
    }

    lemma ActiveIsCounted()
      requires Valid()
      ensures keyboard.held.activeCount == Count(keyboard.held.active)
    {
    }

    /** A key release and the radio slot after a push. */
    method Release(source: nat, now: u64, radio: Outgoing -> TxResult) returns (refused: bool)
      requires Valid() && KeepsRequired(radio)
      modifies keyboard`taken, keyboard`host, keyboard.held, keyboard.delivery, keyboard.queue, keyboard.queue.reports,
               keyboard.wheel, keyboard.wheel.reports, keyboard.scheduler
      ensures Valid() && Pushed(old(Now()), AfterKeyUp(old(Now()), source), Now())
      ensures refused <==> Refused(old(Now()), Key(source))
      ensures old(Now()).Reserved() ==> Now().Reserved() && !refused
    {
      hide SnapshotOf, Composable, Removes, Keyboard.Valid, Count, Downs, ReleaseRefused;
      ghost var v := Now();
      if v.Reserved() && source < SOURCES && v.held.active[source] {
        KeyUpKeeps(v, source);
        SameStuck(v, AfterKeyUp(v, source));
      }
      var queued;
      refused, queued := KeyUp(source);
      if queued { Poll(now, radio); }
    }
  }

  lemma NoneTried(v: View)
    ensures Hotkeys(v, 0, true, v) && Hotkeys(v, 0, false, v)
    ensures |v.desired| == SOURCES && |v.accepted| == SOURCES ==> Settled(v, {})
  {
  }

  lemma AllTried(v: View, done: set<nat>)
    requires v.Shaped() && v.Fits() && Settled(v, done) && forall i: nat | i < SOURCES :: i in done
    ensures v.Reserved()
  {
    hide View.Shaped, View.Fits;
  }

  function Below(n: nat): (r: set<nat>)
    ensures forall i: nat :: i in r <==> i < n
  {
    if n == 0 then {} else Below(n - 1) + {n - 1}
  }

  lemma EdgeKeeps(v: View, source: nat, next: Hotkey)
    requires v.Shaped() && v.Reserved() && source < SOURCES && HotkeyShape(next) && (next.pressed ==> !v.held.active[source])
    ensures var after := AfterHotkey(v, source, next);
            && after.Shaped() && after.Reserved() && (after.size != v.size ==> !after.AnyStuck())
    ensures v.accepted[source].pressed && v.size >= CAPACITY - 1 ==>
              forall i | 0 <= i < SOURCES :: !v.held.active[i] && (i != source ==> !v.accepted[i].pressed)
  {
    hide SnapshotOf, Composable, Removes, Count, Downs;
    var wished := v.(desired := v.desired[source := next]);
    assert wished.Load() == v.Load();
    var others := Below(SOURCES) - {source};
    forall i | i in others && wished.Stuck(i) ensures v.AnyStuck() { assert v.Stuck(i); }
    HotkeyFlushKeeps(wished, source, others);
    assert forall i: nat | i < SOURCES :: i in others + {source};
    if v.accepted[source].pressed && v.size >= CAPACITY - 1 { NothingElse(v, source); }
  }

  // ---------- Every run ----------

  datatype Input =
    | KeyPressed(source: nat, report: KeyReport)
    | KeyReleased(source: nat)
    | HotkeyPressed(source: nat, name: string)
    | HotkeyReleased(source: nat)
    | Command(reportId: byte, data: seq<byte>)
    | ReleaseAll
    | PassEnds

  datatype Event = Event(input: Input, now: u64, radio: Outgoing -> TxResult)

  /** A key goes down and is taken into the held state although every slot is in use or owed. */
  ghost predicate AtFullLoad(v: View, input: Input)
    requires v.Shaped()
  {
    && input.KeyPressed? && Applies(v.held, input.source, input.report) && !v.desired[input.source].pressed
    && v.Load() == CAPACITY
  }

  /** The release of a key, or of a hotkey while something else is held, finds no slot. */
  ghost predicate NoSlot(v: View, input: Input)
    requires v.Shaped()
  {
    || (input.KeyReleased? && Refused(v, Key(input.source)))
    || (input.HotkeyReleased? && Refused(v, App(input.source)))
  }

  method Serve(inputs: Inputs, event: Event) returns (overloaded: bool, refused: bool)
    requires inputs.Valid() && KeepsRequired(event.radio)
    modifies inputs, inputs.keyboard`taken, inputs.keyboard`host, inputs.keyboard.held, inputs.keyboard.delivery,
             inputs.keyboard.queue, inputs.keyboard.queue.reports, inputs.keyboard.wheel, inputs.keyboard.wheel.reports,
             inputs.keyboard.scheduler
    ensures inputs.Valid() && Happens(old(inputs.Now()), event.input, inputs.Now())
    ensures overloaded <==> AtFullLoad(old(inputs.Now()), event.input)
    ensures refused <==> NoSlot(old(inputs.Now()), event.input)
    ensures old(inputs.Now()).Reserved() ==> (inputs.Now().Reserved() <==> !overloaded) && !refused
  {
    hide SnapshotOf, Composable, Removes, Keyboard.Valid, Count, Downs, ReleaseRefused, LetGoOfAll, PassEnded, Pushed,
         AfterKeyDown, AfterKeyUp, AfterHotkey;
    overloaded, refused := false, false;
    var now, radio := event.now, event.radio;
    match event.input
    case KeyPressed(source, report) =>
      if source >= SOURCES || !inputs.desired[source].pressed { overloaded := inputs.Press(source, report, now, radio); }
    case KeyReleased(source) => refused := inputs.Release(source, now, radio);
    case HotkeyPressed(source, name) =>
      if source < SOURCES && !inputs.keyboard.held.active[source] {
        refused := inputs.Edge(source, Hotkey(true, name), now, radio);
      }
    case HotkeyReleased(source) =>
      if source < SOURCES { refused := inputs.Edge(source, UP, now, radio); }
    case Command(reportId, data) =>
      inputs.CommandArrives(reportId, data, now, radio);
    case ReleaseAll => inputs.LetAllGo(now, radio);
    case PassEnds => inputs.Tick(now, radio);
  }

  /** Every view follows from the one before by its event. */
  ghost predicate Linked(views: seq<View>, events: seq<Event>) {
    && |views| == |events| + 1 && views[0] == AllUp()
    && (forall i | 0 <= i < |views| :: views[i].Shaped())
    && forall i | 0 <= i < |events| :: Happens(views[i], events[i].input, views[i + 1])
  }

  lemma LinkedOn(views: seq<View>, events: seq<Event>, n: nat, w: View)
    requires n < |events| && Linked(views, events[..n]) && w.Shaped() && Happens(views[n], events[n].input, w)
    ensures Linked(views + [w], events[..n + 1])
  {
    hide Happens, View.Shaped, AllUp;
    var longer := views + [w];
    forall i | 0 <= i < n + 1 ensures Happens(longer[i], events[..n + 1][i].input, longer[i + 1]) {
      if i < n { assert Happens(views[i], events[..n][i].input, views[i + 1]); }
    }
  }

  /** From power-up, through any inputs, app traffic, radio results and retries: the
      reservation holds throughout if and only if no key is pressed while every slot is in
      use or owed, and then no key release is ever refused and no hotkey release waits while
      anything else is held. */
  method Run(config: Config, owner: BleOwner, events: seq<Event>) returns (inputs: Inputs, ghost views: seq<View>)
    requires forall i | 0 <= i < |events| :: KeepsRequired(events[i].radio)
    ensures inputs.Valid() && Linked(views, events) && views[|events|] == inputs.Now()
    ensures (forall i | 0 <= i < |views| :: views[i].Reserved()) <==> (forall i | 0 <= i < |events| :: !AtFullLoad(views[i], events[i].input))
    ensures (forall i | 0 <= i < |views| :: views[i].Reserved()) ==> forall i | 0 <= i < |events| :: !NoSlot(views[i], events[i].input)
  {
    hide SnapshotOf, Composable, Removes, Keyboard.Valid, Count, Downs, View.Shaped, Happens, NoSlot, AtFullLoad, View.Reserved;
    inputs := new Inputs(config, owner);
    AllUpIsReserved();
    views := [inputs.Now()];
    assert Linked(views, events[..0]) && AllKept(views, events[..0]);
    for i := 0 to |events|
      invariant inputs.Valid() && fresh(inputs) && fresh(inputs.keyboard) && fresh(inputs.keyboard.held)
      invariant fresh(inputs.keyboard.delivery) && fresh(inputs.keyboard.queue) && fresh(inputs.keyboard.queue.reports)
      invariant fresh(inputs.keyboard.wheel) && fresh(inputs.keyboard.wheel.reports) && fresh(inputs.keyboard.scheduler)
      invariant Linked(views, events[..i]) && views[i] == inputs.Now() && views[0].Reserved()
      invariant AllKept(views, events[..i])
    {
      ghost var v := inputs.Now();
      var overloaded, refused := Serve(inputs, events[i]);
      LinkedOn(views, events, i, inputs.Now());
      assert Kept(v, events[i].input, inputs.Now());
      KeptOn(views, events, i, inputs.Now());
      views := views + [inputs.Now()];
    }
    assert events[..|events|] == events;
    ReservedThroughout(views, events);
  }

  /** One event keeps the reservation exactly when it is no press at full load. */
  ghost predicate Kept(v: View, input: Input, w: View)
    requires v.Shaped() && w.Shaped()
  {
    v.Reserved() ==> (w.Reserved() <==> !AtFullLoad(v, input)) && !NoSlot(v, input)
  }

  ghost predicate AllKept(views: seq<View>, events: seq<Event>) {
    && |views| == |events| + 1 && (forall i | 0 <= i < |views| :: views[i].Shaped())
    && forall i | 0 <= i < |events| :: Kept(views[i], events[i].input, views[i + 1])
  }

  lemma KeptOn(views: seq<View>, events: seq<Event>, n: nat, w: View)
    requires n < |events| && AllKept(views, events[..n]) && w.Shaped() && Kept(views[n], events[n].input, w)
    ensures AllKept(views + [w], events[..n + 1])
  {
    hide Kept, View.Shaped;
    var longer := views + [w];
    forall i | 0 <= i < n + 1 ensures Kept(longer[i], events[..n + 1][i].input, longer[i + 1]) {
      if i < n { assert Kept(views[i], events[..n][i].input, views[i + 1]); }
    }
  }

  lemma {:induction false} ReservedThroughout(views: seq<View>, events: seq<Event>)
    requires AllKept(views, events) && views[0].Reserved()
    ensures (forall i | 0 <= i < |views| :: views[i].Reserved()) <==> (forall i | 0 <= i < |events| :: !AtFullLoad(views[i], events[i].input))
    ensures (forall i | 0 <= i < |views| :: views[i].Reserved()) ==> forall i | 0 <= i < |events| :: !NoSlot(views[i], events[i].input)
  {
    hide View.Shaped, View.Reserved, NoSlot, AtFullLoad;
    if events != [] {
      var n := |events| - 1;
      ReservedThroughout(views[..n + 1], events[..n]);
      assert Kept(views[n], events[n].input, views[n + 1]);
    }
  }
}
