/** Runs in which a release finds no slot, input by input from power-up. */
module ReservationWitness {
  import opened Bytes
  import opened HidQueue
  import opened HeldKeyboard
  import opened SnapshotDelivery
  import opened KeyboardPipeline
  import opened Transport
  import opened InputReservation

  /** An input that can happen: what is down does not go down again. */
  ghost predicate Possible(v: View, input: Input)
    requires v.Shaped()
  {
    if input.KeyPressed? || input.HotkeyPressed? then
      input.source < SOURCES && !v.held.active[input.source] && !v.desired[input.source].pressed
    else if input.KeyReleased? then input.source < SOURCES && v.held.active[input.source]
    else if input.HotkeyReleased? then input.source < SOURCES && v.desired[input.source].pressed
    else input.Command? && |input.data| <= MAX_PAYLOAD
  }

  /** Its effect while the radio takes nothing. */
  ghost function AfterInput(v: View, input: Input): View
    requires v.Shaped() && Possible(v, input)
  {
    if input.KeyPressed? then AfterKeyDown(v, input.source, input.report)
    else if input.KeyReleased? then AfterKeyUp(v, input.source)
    else if input.HotkeyPressed? then AfterHotkey(v, input.source, Hotkey(true, input.name))
    else if input.HotkeyReleased? then AfterHotkey(v, input.source, UP)
    else if v.size < ClassCapacity(AppCommand) then v.(size := v.size + 1)
    else v
  }

  ghost predicate Follows(v: View, input: Input, next: View) {
    v.Shaped() && Possible(v, input) && next == AfterInput(v, input)
  }

  /** A run of inputs from power-up and the views it passes through. */
  datatype Play = Play(views: seq<View>, inputs: seq<Input>)

  ghost predicate Plays(play: Play) {
    && |play.views| == |play.inputs| + 1 && play.views[0] == AllUp()
    && Last(play).Shaped()
    && forall i | 0 <= i < |play.inputs| :: Follows(play.views[i], play.inputs[i], play.views[i + 1])
  }

  function Last(play: Play): View {
    if play.views == [] then AllUp() else play.views[|play.views| - 1]
  }

  lemma Extended(play: Play, input: Input, next: View) returns (longer: Play)
    requires Plays(play) && Follows(Last(play), input, next) && next.Shaped()
    ensures Plays(longer) && Last(longer) == next
    ensures longer.inputs == play.inputs + [input] && longer.views == play.views + [next]
  {
    hide View.Shaped, Follows;
    longer := Play(play.views + [next], play.inputs + [input]);
    forall i | 0 <= i < |longer.inputs| ensures Follows(longer.views[i], longer.inputs[i], longer.views[i + 1]) {
      if i < |play.inputs| { assert longer.views[i] == play.views[i] && longer.views[i + 1] == play.views[i + 1]; }
    }
  }

  // Three keys with codes of their own.

  function Plain(code: byte): KeyReport { KeyReport(true, 0, false, code, Fill(0, ROLLOVER)) }

  function Holding(keys: set<nat>): (held: Held)
    ensures held.Shaped() && forall i | 0 <= i < SOURCES :: held.active[i] == (i in keys)
  {
    Held(seq(SOURCES, i requires 0 <= i < SOURCES => if i in keys then Plain(i + 4) else NOT_HELD), seq(SOURCES, i => i in keys))
  }

  lemma {:induction false} FewKeys(keys: set<nat>, n: nat)
    requires keys <= {0, 1, 2} && n <= SOURCES
    ensures |Keys(Holding(keys), n)| <= Min(n, 3)
  {
    if n > 0 {
      FewKeys(keys, n - 1);
      if n - 1 in keys {
        assert ReportKeys(Plain(n + 3)) == [n + 3];
        assert [n + 3][..0] == [];
        assert AddKeys(Keys(Holding(keys), n - 1), [n + 3]) == AddKey(Keys(Holding(keys), n - 1), n + 3);
      }
    }
  }

  lemma HoldingShows(keys: set<nat>, i: nat)
    requires keys <= {0, 1, 2} && i < 3
    ensures Composable(Holding(keys))
    ensures i + 4 in SnapshotOf(Holding(keys)).keycodes <==> i in keys
    ensures SnapshotOf(Holding(keys)) == RELEASED <==> keys == {}
    ensures SnapshotOf(Holding(keys)).Empty() <==> keys == {}
    ensures SnapshotOf(Holding(keys)).modifier == 0 && !SnapshotOf(Holding(keys)).appleFn
  {
    FewKeys(keys, SOURCES);
    forall j: nat | j < 3 ensures j + 4 in SnapshotOf(Holding(keys)).keycodes <==> j in keys { OnlyCode(keys, j); }
    SnapshotIsUnion(Holding(keys), 1, 0xFF);
    assert SnapshotOf(Holding(keys)).modifier & 0xFF == SnapshotOf(Holding(keys)).modifier;
    if keys == {} { EmptyWhenNothingHeld(Holding(keys)); }
    if j :| j in keys { assert j + 4 in SnapshotOf(Holding(keys)).keycodes; }
    EncodeEmpty(SnapshotOf(Holding(keys)));
  }

  lemma OnlyCode(keys: set<nat>, i: nat)
    requires keys <= {0, 1, 2} && i < 3 && Composable(Holding(keys))
    ensures i + 4 in SnapshotOf(Holding(keys)).keycodes <==> i in keys
  {
    SnapshotIsUnion(Holding(keys), i + 4, 0);
    if i in keys { assert Holding(keys).active[i] && i + 4 in ReportKeys(Plain(i + 4)); }
  }

  /** A held key, by its code. */
  lemma CodeHolds(keys: set<nat>, code: byte)
    requires keys <= {0, 1, 2} && code != 0 && Composable(Holding(keys))
    ensures code in SnapshotOf(Holding(keys)).keycodes <==> code - 4 in keys
  {
    SnapshotIsUnion(Holding(keys), code, 0);
    if code in SnapshotOf(Holding(keys)).keycodes {
      var i :| 0 <= i < SOURCES && Holding(keys).active[i] && code in ReportKeys(Holding(keys).reports[i]);
      assert code == i + 4;
    }
    if code - 4 in keys { HoldingShows(keys, code - 4); }
  }

  lemma RemovesHolding(shown: set<nat>, keys: set<nat>)
    requires shown <= {0, 1, 2} && keys <= {0, 1, 2}
    ensures Composable(Holding(shown)) && Composable(Holding(keys))
    ensures Removes(SnapshotOf(Holding(shown)), SnapshotOf(Holding(keys))) <==> !(shown <= keys)
    ensures SnapshotOf(Holding(shown)) == SnapshotOf(Holding(keys)) <==> shown == keys
  {
    hide Composable, SnapshotOf, Holding;
    HoldingShows(shown, 0);
    HoldingShows(keys, 0);
    var before, after := SnapshotOf(Holding(shown)), SnapshotOf(Holding(keys));
    assert before.modifier & !after.modifier == 0;
    if i :| i in shown && i !in keys {
      CodeHolds(shown, i + 4);
      CodeHolds(keys, i + 4);
      var k :| 0 <= k < ROLLOVER && before.keycodes[k] == i + 4;
      assert before.keycodes[k] !in after.keycodes;
    } else {
      assert shown <= keys;
      forall k | 0 <= k < ROLLOVER && before.keycodes[k] != 0 ensures before.keycodes[k] in after.keycodes {
        CodeHolds(shown, before.keycodes[k]);
        CodeHolds(keys, before.keycodes[k]);
      }
    }
    if i :| i in keys && i !in shown {
      CodeHolds(shown, i + 4);
      CodeHolds(keys, i + 4);
    }
  }

  /** These keys are held and those are what the queue has taken. */
  ghost predicate On(v: View, keys: set<nat>, shown: set<nat>) {
    && v.Shaped() && keys <= {0, 1, 2} && shown <= {0, 1, 2}
    && v.held == Holding(keys) && Composable(Holding(shown)) && v.delivered == SnapshotOf(Holding(shown))
    && forall i | 0 <= i < 3 :: !v.desired[i].pressed
  }

  /** Below the reserved slots a press is taken, above them it waits. */
  lemma PressMoves(play: Play, keys: set<nat>, shown: set<nat>, source: nat) returns (longer: Play)
    requires Plays(play) && On(Last(play), keys, shown) && shown <= keys && source < 3 && source !in keys
    ensures Plays(longer) && play.views <= longer.views
    ensures longer.inputs == play.inputs + [KeyPressed(source, Plain(source + 4))]
    ensures var v, next := Last(play), Last(longer);
            && next.desired == v.desired && next.accepted == v.accepted
            && if v.size < ClassCapacity(KeyboardPress)
               then next.size == v.size + 1 && On(next, keys + {source}, keys + {source})
               else next.size == v.size && On(next, keys + {source}, shown)
  {
    var v := Last(play);
    PressedView(v, keys, shown, source);
    hide SnapshotOf, Removes, Composable, Holding, AfterKeyDown;
    longer := Extended(play, KeyPressed(source, Plain(source + 4)), AfterKeyDown(v, source, Plain(source + 4)));
  }

  lemma PressedView(v: View, keys: set<nat>, shown: set<nat>, source: nat)
    requires On(v, keys, shown) && shown <= keys && source < 3 && source !in keys
    ensures var next := AfterKeyDown(v, source, Plain(source + 4));
            && next.desired == v.desired && next.accepted == v.accepted
            && if v.size < ClassCapacity(KeyboardPress)
               then next.size == v.size + 1 && On(next, keys + {source}, keys + {source})
               else next.size == v.size && On(next, keys + {source}, shown)
  {
    assert With(v.held, source, Plain(source + 4)) == Holding(keys + {source});
    RemovesHolding(shown, keys + {source});
    RemovesHolding(keys, keys + {source});
    HoldingShows(keys + {source}, source);
    hide SnapshotOf, Removes, Composable, Holding;
  }

  /** Letting go of a shown key takes a slot, the last one only for the all-released report. */
  lemma ReleaseMoves(play: Play, keys: set<nat>, shown: set<nat>, source: nat) returns (longer: Play)
    requires Plays(play) && On(Last(play), keys, shown) && source in keys && source in shown
    requires Last(play).size < CAPACITY - 1
    ensures Plays(longer) && play.views <= longer.views && longer.inputs == play.inputs + [KeyReleased(source)]
    ensures var v, next := Last(play), Last(longer);
            && next.desired == v.desired && next.accepted == v.accepted
            && next.size == v.size + 1 && On(next, keys - {source}, keys - {source})
  {
    var v := Last(play);
    assert Without(v.held, source) == Holding(keys - {source});
    RemovesHolding(shown, keys - {source});
    RemovesHolding(keys, keys - {source});
    HoldingShows(keys - {source}, source);
    hide SnapshotOf, Removes, Composable, Holding;
    longer := Extended(play, KeyReleased(source), AfterKeyUp(v, source));
  }

  lemma HoldingCounts(keys: set<nat>)
    requires keys == {0, 1} || keys == {0, 2}
    ensures Count(Holding(keys).active) == 2
  {
    var none := seq(SOURCES, _ => false);
    var x := if 1 in keys then 1 else 2;
    CountZero(none);
    CountChange(none, 0, true);
    CountChange(none[0 := true], x, true);
    assert Holding(keys).active == none[0 := true][x := true];
  }

  lemma UpHolds()
    ensures On(AllUp(), {}, {})
  {
    AllUpIsReserved();
    HoldingShows({}, 0);
    assert Holding({}) == NONE_HELD;
  }

  /** Up to the reserved slots: one key held, another pressed and released again and again. */
  lemma FillsUp(play: Play) returns (longer: Play)
    requires Plays(play) && On(Last(play), {}, {}) && Last(play).size == 1
    ensures Plays(longer) && On(Last(longer), {0, 1}, {0, 1}) && Last(longer).size == ClassCapacity(KeyboardPress)
    ensures Last(longer).desired == Last(play).desired && Last(longer).accepted == Last(play).accepted
  {
    hide On, Plays;
    longer := PressMoves(play, {}, {}, 0);
    longer := PressMoves(longer, {} + {0}, {} + {0}, 1);
    assert {} + {0} + {1} == {0, 1};
    for k := 0 to 9
      invariant Plays(longer) && On(Last(longer), {0, 1}, {0, 1}) && Last(longer).size == 3 + 2 * k
      invariant Last(longer).desired == Last(play).desired && Last(longer).accepted == Last(play).accepted
    {
      longer := ReleaseMoves(longer, {0, 1}, {0, 1}, 1);
      assert {0, 1} - {1} == {0};
      longer := PressMoves(longer, {0}, {0}, 1);
      assert {0} + {1} == {0, 1};
    }
  }

  /** From there a press always waits and rides on the release of another key: the queue
      grows by one report with each exchange although two keys stay held. */
  lemma Exchanges(play: Play, target: nat) returns (longer: Play, x: nat)
    requires Plays(play) && On(Last(play), {0, 1}, {0, 1}) && Last(play).size == ClassCapacity(KeyboardPress) <= target < CAPACITY
    ensures Plays(longer) && (x == 1 || x == 2) && On(Last(longer), {0, x}, {0, x}) && Last(longer).size == target
    ensures Last(longer).desired == Last(play).desired && Last(longer).accepted == Last(play).accepted
  {
    hide On, Plays;
    longer, x := play, 1;
    for size := ClassCapacity(KeyboardPress) to target
      invariant Plays(longer) && (x == 1 || x == 2)
      invariant On(Last(longer), {0, x}, {0, x}) && Last(longer).size == size
      invariant Last(longer).desired == Last(play).desired && Last(longer).accepted == Last(play).accepted
    {
      var y := 3 - x;
      longer := PressMoves(longer, {0, x}, {0, x}, y);
      longer := ReleaseMoves(longer, {0, x} + {y}, {0, x}, x);
      assert {0, x} + {y} - {x} == {0, y};
      x := y;
    }
  }

  /** One key press at full load is enough: after it two keys are held, both shown, and
      letting go of one is refused. */
  lemma PressAtFullLoadStarves() returns (play: Play)
    ensures Plays(play) && |play.inputs| >= 2
    ensures var n := |play.inputs|;
            && play.views[n - 2].Shaped() && play.views[n - 2].Reserved() && play.views[n - 2].Load() == CAPACITY
            && play.inputs[n - 2].KeyPressed?
    ensures Last(play).size == CAPACITY - 1 && Refused(Last(play), Key(0))
  {
    hide Plays, SnapshotOf, Composable, Removes, Holding, Count, Downs, ReleaseRefused;
    UpHolds();
    play := Commanded();
    play := FillsUp(play);
    var x;
    play, x := Exchanges(play, CAPACITY - 2);
    var v := Last(play);
    HoldingCounts({0, x});
    CountZero(Downs(v.accepted));
    RemovesHolding({0, x}, {0, x});
    assert v.Load() == CAPACITY;
    assert v.Reserved();
    ghost var n := |play.inputs|;
    Lengths(play);
    assert v == play.views[n];
    play := PressMoves(play, {0, x}, {0, x}, 3 - x);
    play := ReleaseMoves(play, {0, x} + {3 - x}, {0, x}, x);
    assert {0, x} + {3 - x} - {x} == {0, 3 - x};
    Lengths(play);
    RefusedHolding(Last(play), 3 - x);
  }

  lemma Lengths(play: Play)
    requires Plays(play)
    ensures |play.views| == |play.inputs| + 1
  {
  }

  lemma Commanded() returns (play: Play)
    ensures Plays(play) && On(Last(play), {}, {}) && Last(play).size == 1
    ensures forall i | 0 <= i < SOURCES :: !Last(play).accepted[i].pressed
  {
    UpHolds();
    var start := Play([AllUp()], []);
    hide SnapshotOf, Composable, Removes, Holding;
    play := Extended(start, Command(APP_REPORT, []), AllUp().(size := 1));
  }

  /** With the last reserved slot left and another key shown, letting go of a key is refused. */
  lemma RefusedHolding(v: View, x: nat)
    requires (x == 1 || x == 2) && On(v, {0, x}, {0, x}) && v.size == CAPACITY - 1
    ensures Refused(v, Key(0))
  {
    assert Without(v.held, 0) == Holding({x});
    RemovesHolding({0, x}, {x});
    HoldingShows({x}, x);
    hide SnapshotOf, Composable, Removes, Holding;
  }

  lemma HotkeyIsDown() returns (play: Play)
    ensures Plays(play) && On(Last(play), {}, {}) && Last(play).size == 1
    ensures Last(play).desired[3] == Last(play).accepted[3] == Hotkey(true, "x")
    ensures forall i | 0 <= i < SOURCES && i != 3 :: !Last(play).accepted[i].pressed
  {
    UpHolds();
    var start := Play([AllUp()], []);
    hide SnapshotOf, Composable, Removes, Holding;
    var next := AfterHotkey(AllUp(), 3, Hotkey(true, "x"));
    assert next.Shaped();
    play := Extended(start, HotkeyPressed(3, "x"), next);
  }

  /** A hotkey release has no slot of its own: within the reservation, with every other input
      up, it can find the last slot taken. */
  lemma LoneHotkeyWaits() returns (play: Play)
    ensures Plays(play) && Last(play).Shaped() && Last(play).Reserved()
    ensures forall i | 0 <= i < SOURCES :: !Last(play).held.active[i]
    ensures Possible(Last(play), HotkeyReleased(3)) && AfterInput(Last(play), HotkeyReleased(3)).Stuck(3)
  {
    hide Plays, SnapshotOf, Composable, Removes, Holding, Count, Downs;
    play := HotkeyIsDown();
    var hotkeys := Last(play).accepted;
    play := FillsUp(play);
    var x;
    play, x := Exchanges(play, CAPACITY - 3);
    play := ReleaseMoves(play, {0, x}, {0, x}, x);
    assert {0, x} - {x} == {0};
    play := ReleaseMoves(play, {0}, {0}, 0);
    assert {0} - {0} == {};
    RemovesHolding({}, {});
    DownsChange(hotkeys, 3, UP);
    CountZero(Downs(hotkeys[3 := UP]));
    CountZero(Holding({}).active);
    assert Last(play).Load() == CAPACITY;
  }
}
