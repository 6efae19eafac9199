/** Which keys are down, by physical source, and the one report that says so. */
module HeldKeyboard {
  import opened Bytes
  import opened HidQueue

  const ROLLOVER: nat := 6

  type Codes = c: seq<byte> | |c| == ROLLOVER witness Fill(0, ROLLOVER)

  /** What one source contributes while it is held. */
  datatype KeyReport = KeyReport(valid: bool, modifier: bv8, appleFn: bool, keycode: byte, keycodes: Codes)

  /** The full state of the keyboard as a host sees it. */
  datatype Snapshot = Snapshot(modifier: bv8, appleFn: bool, keycodes: Codes) {
    predicate Empty() { modifier == 0 && !appleFn && AllAre(0, keycodes) }
  }

  const RELEASED := Snapshot(0, false, Fill(0, ROLLOVER))
  const NOT_HELD := KeyReport(false, 0, false, 0, Fill(0, ROLLOVER))

  datatype UpdateStatus = Applied | NoChange | InvalidSource | InvalidReport | Rollover

  datatype Update = Update(status: UpdateStatus, snapshot: Snapshot, stateChanged: bool, reportChanged: bool, becameEmpty: bool)

  predicate Usable(report: KeyReport) {
    report.valid && (report.modifier != 0 || report.appleFn || report.keycode != 0 || !AllAre(0, report.keycodes))
  }

  /** A report that says nothing cannot be held. */
  lemma UsableMeans(report: KeyReport)
    ensures Usable(report) <==>
              report.valid && (report.modifier != 0 || report.appleFn || report.keycode != 0 || exists i | 0 <= i < 6 :: report.keycodes[i] != 0)
  {
  }

  // ---------- The union of the held sources ----------

  function ReportKeys(report: KeyReport): seq<byte> {
    if AllAre(0, report.keycodes) then [report.keycode] else report.keycodes
  }

  /** A source with a list of keys holds those; one without holds its single key. */
  lemma ReportKeysMean(report: KeyReport, code: byte)
    requires code != 0
    ensures code in ReportKeys(report) <==>
              if exists i | 0 <= i < 6 :: report.keycodes[i] != 0 then code in report.keycodes else code == report.keycode
  {
  }

  function AddKey(list: seq<byte>, code: byte): seq<byte> {
    if code == 0 || code in list then list else list + [code]
  }

  function AddKeys(list: seq<byte>, codes: seq<byte>): seq<byte> {
    if codes == [] then list else AddKey(AddKeys(list, codes[..|codes| - 1]), codes[|codes| - 1])
  }

  datatype Held = Held(reports: seq<KeyReport>, active: seq<bool>) {
    predicate Shaped() { |reports| == SOURCES && |active| == SOURCES }
  }

  const NONE_HELD := Held(seq(SOURCES, _ => NOT_HELD), seq(SOURCES, _ => false))

  /** The key codes of the first `n` sources, each once, in source order. */
  function Keys(held: Held, n: nat): seq<byte>
    requires held.Shaped() && n <= SOURCES
  {
    if n == 0 then []
    else if held.active[n - 1] then AddKeys(Keys(held, n - 1), ReportKeys(held.reports[n - 1]))
    else Keys(held, n - 1)
  }

  function Modifiers(held: Held, n: nat): bv8
    requires held.Shaped() && n <= SOURCES
  {
    if n == 0 then 0
    else if held.active[n - 1] then Modifiers(held, n - 1) | held.reports[n - 1].modifier
    else Modifiers(held, n - 1)
  }

  function AppleFn(held: Held, n: nat): bool
    requires held.Shaped() && n <= SOURCES
  {
    n > 0 && (AppleFn(held, n - 1) || (held.active[n - 1] && held.reports[n - 1].appleFn))
  }

  function Pad(list: seq<byte>): (codes: Codes)
    requires |list| <= ROLLOVER
  {
    list + Fill(0, ROLLOVER - |list|)
  }

  predicate Composable(held: Held)
    requires held.Shaped()
  {
    |Keys(held, SOURCES)| <= ROLLOVER
  }

  function SnapshotOf(held: Held): Snapshot
    requires held.Shaped() && Composable(held)
  {
    Snapshot(Modifiers(held, SOURCES), AppleFn(held, SOURCES), Pad(Keys(held, SOURCES)))
  }

  // ---------- What the union means ----------

  predicate Distinct(list: seq<byte>) {
    (forall i, j | 0 <= i < j < |list| :: list[i] != list[j]) && 0 !in list
  }

  lemma {:induction false} AddKeysMeaning(list: seq<byte>, codes: seq<byte>)
    requires Distinct(list)
    ensures Distinct(AddKeys(list, codes))
    ensures list <= AddKeys(list, codes)
    ensures forall code :: code in AddKeys(list, codes) <==> code in list || (code != 0 && code in codes)
  {
    if codes != [] {
      AddKeysMeaning(list, codes[..|codes| - 1]);
      assert codes == codes[..|codes| - 1] + [codes[|codes| - 1]];
    }
  }

  /** `code` is held by one of the first `n` sources. */
  predicate KeyHeld(held: Held, n: nat, code: byte)
    requires held.Shaped() && n <= SOURCES
  {
    code != 0 && exists i | 0 <= i < n :: held.active[i] && code in ReportKeys(held.reports[i])
  }

  lemma {:induction false} KeysMeaning(held: Held, n: nat)
    requires held.Shaped() && n <= SOURCES
    ensures Distinct(Keys(held, n))
    ensures forall code :: code in Keys(held, n) <==> KeyHeld(held, n, code)
  {
    if n > 0 {
      KeysMeaning(held, n - 1);
      AddKeysMeaning(Keys(held, n - 1), ReportKeys(held.reports[n - 1]));
      forall code ensures code in Keys(held, n) <==> KeyHeld(held, n, code) {
        assert KeyHeld(held, n, code) <==>
          KeyHeld(held, n - 1, code) || (code != 0 && held.active[n - 1] && code in ReportKeys(held.reports[n - 1]));
      }
    }
  }

  lemma {:induction false} ModifiersMeaning(held: Held, n: nat, mask: bv8)
    requires held.Shaped() && n <= SOURCES
    ensures Modifiers(held, n) & mask != 0 <==>
              exists i | 0 <= i < n :: held.active[i] && held.reports[i].modifier & mask != 0
  {
    if n > 0 {
      ModifiersMeaning(held, n - 1, mask);
      OrMask(Modifiers(held, n - 1), held.reports[n - 1].modifier, mask);
    }
  }

  lemma OrMask(a: bv8, b: bv8, mask: bv8)
    ensures (a | b) & mask != 0 <==> a & mask != 0 || b & mask != 0
  {
    assert (a | b) & mask == (a & mask) | (b & mask);
  }

  /** The report shows exactly the keys, modifiers and Fn of the held sources. */
  lemma SnapshotIsUnion(held: Held, code: byte, mask: bv8)
    requires held.Shaped() && Composable(held) && code != 0
    ensures code in SnapshotOf(held).keycodes <==> KeyHeld(held, SOURCES, code)
    ensures SnapshotOf(held).modifier & mask != 0 <==>
              exists i | 0 <= i < SOURCES :: held.active[i] && held.reports[i].modifier & mask != 0
    ensures SnapshotOf(held).appleFn <==> exists i | 0 <= i < SOURCES :: held.active[i] && held.reports[i].appleFn
  {
    KeysMeaning(held, SOURCES);
    ModifiersMeaning(held, SOURCES, mask);
    FnMeaning(held, SOURCES);
  }

  lemma {:induction false} FnMeaning(held: Held, n: nat)
    requires held.Shaped() && n <= SOURCES
    ensures AppleFn(held, n) <==> exists i | 0 <= i < n :: held.active[i] && held.reports[i].appleFn
  {
    if n > 0 { FnMeaning(held, n - 1); }
  }

  function ToSet(list: seq<byte>): set<byte> { set code | code in list }

  lemma {:induction false} DistinctCount(list: seq<byte>)
    requires Distinct(list)
    ensures |ToSet(list)| == |list|
  {
    if list != [] {
      var front := list[..|list| - 1];
      DistinctCount(front);
      assert ToSet(list) == ToSet(front) + {list[|list| - 1]};
    }
  }

  /** Letting go of a source never overflows the six-key report. */
  lemma ReleaseComposes(held: Held, source: nat, report: KeyReport)
    requires held.Shaped() && source < SOURCES && Composable(held)
    ensures Composable(Held(held.reports[source := report], held.active[source := false]))
  {
    var after := Held(held.reports[source := report], held.active[source := false]);
    KeysMeaning(held, SOURCES);
    KeysMeaning(after, SOURCES);
    forall code | code in Keys(after, SOURCES) ensures code in Keys(held, SOURCES) {
      assert KeyHeld(after, SOURCES, code);
    }
    DistinctCount(Keys(held, SOURCES));
    DistinctCount(Keys(after, SOURCES));
    Fewer(ToSet(Keys(after, SOURCES)), ToSet(Keys(held, SOURCES)));
  }

  lemma {:induction false} NothingHeld(held: Held, n: nat)
    requires held.Shaped() && n <= SOURCES
    requires forall i | 0 <= i < n :: !held.active[i]
    ensures Keys(held, n) == [] && Modifiers(held, n) == 0 && !AppleFn(held, n)
  {
    if n > 0 { NothingHeld(held, n - 1); }
  }

  lemma {:induction false} KeysGrow(held: Held, n: nat, m: nat)
    requires held.Shaped() && n <= m <= SOURCES
    ensures |Keys(held, n)| <= |Keys(held, m)|
  {
    if n < m {
      KeysGrow(held, n, m - 1);
      KeysMeaning(held, m - 1);
      AddKeysMeaning(Keys(held, m - 1), ReportKeys(held.reports[m - 1]));
    }
  }

  function Count(active: seq<bool>): nat {
    if active == [] then 0 else Count(active[..|active| - 1]) + (if active[|active| - 1] then 1 else 0)
  }

  lemma {:induction false} CountChange(active: seq<bool>, i: nat, value: bool)
    requires i < |active|
    ensures Count(active[i := value]) ==
              Count(active) - (if active[i] then 1 else 0) + (if value then 1 else 0)
  {
    var after := active[i := value];
    if i == |active| - 1 {
      assert after[..|after| - 1] == active[..|active| - 1];
    } else {
      CountChange(active[..|active| - 1], i, value);
      assert after[..|after| - 1] == active[..|active| - 1][i := value];
    }
  }

  lemma {:induction false} CountZero(active: seq<bool>)
    ensures Count(active) == 0 <==> forall i | 0 <= i < |active| :: !active[i]
  {
    if active != [] { CountZero(active[..|active| - 1]); }
  }

  // ---------- Composition, code by code ----------

  /** add_keycode */
  method AddKeycode(keycodes: Codes, count: nat, code: byte, ghost list: seq<byte>)
    returns (ok: bool, codes: Codes, next: nat)
    requires |list| == count <= ROLLOVER && keycodes == Pad(list) && Distinct(list)
    ensures ok <==> |AddKey(list, code)| <= ROLLOVER
    ensures ok ==> next == |AddKey(list, code)| && codes == Pad(AddKey(list, code))
  {
    if code == 0 || code in keycodes { return true, keycodes, count; }
    if count >= ROLLOVER { return false, keycodes, count; }
    codes := keycodes[count := code];
    assert codes == Pad(list + [code]);
    return true, codes, count + 1;
  }

  /** Adds the codes of one report. */
  method AddReport(keycodes: Codes, count: nat, report: KeyReport, ghost list: seq<byte>)
    returns (ok: bool, codes: Codes, next: nat)
    requires |list| == count <= ROLLOVER && keycodes == Pad(list) && Distinct(list)
    ensures ok <==> |AddKeys(list, ReportKeys(report))| <= ROLLOVER
    ensures ok ==> next == |AddKeys(list, ReportKeys(report))| && codes == Pad(AddKeys(list, ReportKeys(report)))
  {
    codes, next := keycodes, count;
    var keys := ReportKeys(report);
    assert AddKeys(list, keys[..0]) == list;
    for i := 0 to |keys|
      invariant |AddKeys(list, keys[..i])| == next <= ROLLOVER && codes == Pad(AddKeys(list, keys[..i]))
    {
      AddKeysMeaning(list, keys[..i]);
      assert keys[..i + 1][..i] == keys[..i];
      ok, codes, next := AddKeycode(codes, next, keys[i], AddKeys(list, keys[..i]));
      if !ok {
        AddedOverflow(list, keys, i + 1);
        return;
      }
    }
    assert keys[..|keys|] == keys;
    ok := true;
  }

  lemma {:induction false} AddedOverflow(list: seq<byte>, keys: seq<byte>, i: nat)
    requires Distinct(list) && i <= |keys|
    ensures |AddKeys(list, keys)| >= |AddKeys(list, keys[..i])|
    decreases |keys| - i
  {
    if i < |keys| {
      AddedOverflow(list, keys, i + 1);
      assert keys[..i + 1][..i] == keys[..i];
    } else {
      assert keys[..i] == keys;
    }
  }

  /** compose: all sources, in order, or nothing. */
  method Compose(held: Held) returns (ok: bool, snapshot: Snapshot)
    requires held.Shaped()
    ensures ok <==> Composable(held)
    ensures ok ==> snapshot == SnapshotOf(held)
  {
    snapshot := RELEASED;
    var count := 0;
    for index := 0 to SOURCES
      invariant |Keys(held, index)| == count <= ROLLOVER && snapshot.keycodes == Pad(Keys(held, index))
      invariant snapshot.modifier == Modifiers(held, index) && snapshot.appleFn == AppleFn(held, index)
    {
      if held.active[index] {
        var report := held.reports[index];
        KeysMeaning(held, index);
        var codes;
        ok, codes, count := AddReport(snapshot.keycodes, count, report, Keys(held, index));
        if !ok {
          KeysGrow(held, index + 1, SOURCES);
          return;
        }
        snapshot := Snapshot(snapshot.modifier | report.modifier, snapshot.appleFn || report.appleFn, codes);
      }
    }
    ok := true;
  }

  class HeldKeyboardState {
    var reports: seq<KeyReport>
    var active: seq<bool>
    var current: Snapshot
    var activeCount: nat

    function State(): Held
      reads this
    {
      Held(reports, active)
    }

    /** The published snapshot is the union of the held sources. */
    ghost predicate Valid()
      reads this
    {
      && State().Shaped() && Composable(State())
      && current == SnapshotOf(State())
      && activeCount == Count(active)
    }

    constructor ()
      ensures Valid() && current == RELEASED && activeCount == 0
      ensures State() == NONE_HELD
    {
      reports := seq(SOURCES, _ => NOT_HELD);
      active := seq(SOURCES, _ => false);
      current := RELEASED;
      activeCount := 0;
      new;
      NothingHeld(State(), SOURCES);
      CountZero(active);
    }

    /** A source keeps the report of its first press; a seventh key changes nothing. */
    method Press(source: nat, report: KeyReport) returns (update: Update)
      requires Valid()
      modifies this
      ensures Valid()
      ensures update.status ==
                if source >= SOURCES then InvalidSource
                else if !Usable(report) then InvalidReport
                else if old(active)[source] then NoChange
                else if !Composable(Held(old(reports)[source := report], old(active)[source := true])) then Rollover
                else Applied
      ensures update.status.Applied? ==> reports == old(reports)[source := report] && active == old(active)[source := true]
      ensures !update.status.Applied? ==> reports == old(reports) && active == old(active)
      ensures update.snapshot == current
      ensures update.stateChanged <==> update.status.Applied?
      ensures update.reportChanged <==> current != old(current)
      ensures !update.becameEmpty
    {
      update := Update(NoChange, current, false, false, false);
      if source >= SOURCES { return update.(status := InvalidSource); }
      if !Usable(report) { return update.(status := InvalidReport); }
      if active[source] { return; }
      var candidate := Held(reports[source := report], active[source := true]);
      var ok, snapshot := Compose(candidate);
      if !ok { return update.(status := Rollover); }
      var previous := current;
      CountChange(active, source, true);
      reports, active, current := candidate.reports, candidate.active, snapshot;
      activeCount := activeCount + 1;
      update := Update(Applied, current, true, current != previous, false);
    }

    /** Never refused for rollover. */
    method Release(source: nat) returns (update: Update)
      requires Valid()
      modifies this
      ensures Valid()
      ensures update.status ==
                if source >= SOURCES then InvalidSource else if !old(active)[source] then NoChange else Applied
      ensures update.status.Applied? ==> reports == old(reports)[source := NOT_HELD] && active == old(active)[source := false]
      ensures !update.status.Applied? ==> reports == old(reports) && active == old(active)
      ensures update.snapshot == current
      ensures update.stateChanged <==> update.status.Applied?
      ensures update.reportChanged <==> current != old(current)
      ensures update.becameEmpty <==> update.status.Applied? && current.Empty()
    {
      update := Update(NoChange, current, false, false, false);
      if source >= SOURCES { return update.(status := InvalidSource); }
      if !active[source] { return; }
      var previous := current;
      var candidate := Held(reports[source := NOT_HELD], active[source := false]);
      ReleaseComposes(State(), source, NOT_HELD);
      var ok, snapshot := Compose(candidate);
      assert ok;
      CountChange(active, source, false);
      ActiveCounted(active, source);
      reports, active, current := candidate.reports, candidate.active, snapshot;
      activeCount := activeCount - 1;
      update := Update(Applied, current, true, current != previous, current.Empty());
    }

    method Clear() returns (update: Update)
      requires Valid()
      modifies this
      ensures Valid() && activeCount == 0 && current == RELEASED
      ensures forall i | 0 <= i < SOURCES :: !active[i]
      ensures update.status == if old(activeCount) == 0 then NoChange else Applied
      ensures update.snapshot == current
      ensures update.stateChanged <==> update.status.Applied?
      ensures update.reportChanged <==> current != old(current)
    {
      update := Update(NoChange, current, false, false, false);
      CountZero(active);
      if activeCount == 0 {
        NothingHeld(State(), SOURCES);
        return;
      }
      var previous := current;
      reports := seq(SOURCES, _ => NOT_HELD);
      active := seq(SOURCES, _ => false);
      current := RELEASED;
      activeCount := 0;
      NothingHeld(State(), SOURCES);
      CountZero(active);
      update := Update(Applied, current, true, current != previous, true);
    }
  }

  lemma {:induction false} ActiveCounted(active: seq<bool>, i: nat)
    requires i < |active| && active[i]
    ensures Count(active) > 0
  {
    if i != |active| - 1 { ActiveCounted(active[..|active| - 1], i); }
  }

  /** With no source down the report is the all-released one. */
  lemma EmptyWhenNothingHeld(held: Held)
    requires held.Shaped() && forall i | 0 <= i < SOURCES :: !held.active[i]
    ensures Composable(held) && SnapshotOf(held) == RELEASED && RELEASED.Empty()
  {
    NothingHeld(held, SOURCES);
  }
}
