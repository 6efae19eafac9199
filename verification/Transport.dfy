/** Which endpoint a chord belongs to, and why it never moves to another one. */
module Transport {
  import opened Bytes
  import opened Generations

  datatype Owner = Nobody | Usb | Ble | Suppressed

  /** One sample of the endpoints; an epoch identifies one connection lifetime. */
  datatype Env = Env(usbMounted: bool, usbEpoch: u32, bleConnected: bool, bleEpoch: u32)

  datatype Latch = Latch(owner: Owner, epoch: u32)

  const FREE := Latch(Nobody, 0)

  predicate UsbAvailable(env: Env) { env.usbMounted && env.usbEpoch != 0 }
  predicate BleAvailable(env: Env) { env.bleConnected && env.bleEpoch != 0 }

  /** The latched endpoint still is the one the chord started on. */
  predicate Intact(latch: Latch, env: Env) {
    && (latch.owner.Usb? ==> UsbAvailable(env) && latch.epoch == env.usbEpoch)
    && (latch.owner.Ble? ==> BleAvailable(env) && latch.epoch == env.bleEpoch)
  }

  function Observed(latch: Latch, env: Env): Latch {
    if Intact(latch, env) then latch else Latch(Suppressed, 0)
  }

  function Selected(latch: Latch, released: bool, env: Env): Latch {
    var now := Observed(latch, env);
    if released || !now.owner.Nobody? then now
    else if UsbAvailable(env) then Latch(Usb, env.usbEpoch)
    else if BleAvailable(env) then Latch(Ble, env.bleEpoch)
    else Latch(Suppressed, 0)
  }

  /** Where a report goes, with the lifetime it goes to. */
  datatype Target = NoHost | Host(owner: Owner, epoch: u32)

  function TargetOf(latch: Latch): Target {
    if latch.owner.Usb? || latch.owner.Ble? then Host(latch.owner, latch.epoch) else NoHost
  }

  /** A free latch takes USB before BLE, and neither silently: a chord that finds no host has
      none until it ends. A latch that is taken is never given to another host. */
  lemma SelectedMeans(latch: Latch, released: bool, env: Env)
    ensures latch.owner.Nobody? ==>
              Selected(latch, released, env) ==
                if released then latch
                else if env.usbMounted && env.usbEpoch != 0 then Latch(Usb, env.usbEpoch)
                else if env.bleConnected && env.bleEpoch != 0 then Latch(Ble, env.bleEpoch)
                else Latch(Suppressed, 0)
    ensures latch.owner.Usb? ==>
              Selected(latch, released, env) ==
                if env.usbMounted && env.usbEpoch != 0 && env.usbEpoch == latch.epoch then latch else Latch(Suppressed, 0)
    ensures latch.owner.Ble? ==>
              Selected(latch, released, env) ==
                if env.bleConnected && env.bleEpoch != 0 && env.bleEpoch == latch.epoch then latch else Latch(Suppressed, 0)
    ensures latch.owner.Suppressed? ==> Selected(latch, released, env) == latch
    ensures TargetOf(latch).Host? <==> latch.owner.Usb? || latch.owner.Ble?
    ensures TargetOf(latch).Host? ==> TargetOf(latch) == Host(latch.owner, latch.epoch)
  {
  }

  class KeyboardTransportLatch {
    var owner: Owner
    var ownerEpoch: u32

    function State(): Latch
      reads this
    {
      Latch(owner, ownerEpoch)
    }

    constructor ()
      ensures State() == FREE
    {
      owner, ownerEpoch := Nobody, 0;
    }

    method Observe(env: Env) returns (lost: bool)
      modifies this
      ensures State() == Observed(old(State()), env)
      ensures lost <==> !Intact(old(State()), env)
    {
      var usbLost := owner.Usb? && (!UsbAvailable(env) || ownerEpoch != env.usbEpoch);
      var bleLost := owner.Ble? && (!BleAvailable(env) || ownerEpoch != env.bleEpoch);
      if !usbLost && !bleLost { return false; }
      owner, ownerEpoch := Suppressed, 0;
      lost := true;
    }

    /** An all-released report keeps the latch, so a full queue cannot lose its owner. */
    method Select(released: bool, env: Env) returns (selected: Owner)
      modifies this
      ensures State() == Selected(old(State()), released, env)
      ensures selected == if released && TargetOf(State()).NoHost? then Nobody else owner
      ensures TargetOf(State()) == if selected.Usb? || selected.Ble? then Host(selected, ownerEpoch) else NoHost
    {
      var _ := Observe(env);
      if released {
        selected := if (owner.Usb? && UsbAvailable(env)) || (owner.Ble? && BleAvailable(env)) then owner else Nobody;
        return;
      }
      if owner.Nobody? {
        if UsbAvailable(env) {
          owner, ownerEpoch := Usb, env.usbEpoch;
        } else if BleAvailable(env) {
          owner, ownerEpoch := Ble, env.bleEpoch;
        } else {
          owner, ownerEpoch := Suppressed, 0;
        }
      }
      selected := owner;
    }

    method Commit(released: bool)
      modifies this
      ensures State() == if released then FREE else old(State())
    {
      if released { owner, ownerEpoch := Nobody, 0; }
    }
  }

  // ---------- A whole chord ----------

  /** What happens between leaving and re-committing the all-released state. */
  datatype ChordEvent = Observe(env: Env) | Select(released: bool, env: Env) | Retry

  function After(latch: Latch, event: ChordEvent): Latch {
    match event
    case Observe(env) => Observed(latch, env)
    case Select(released, env) => Selected(latch, released, env)
    case Retry => latch
  }

  function AfterAll(latch: Latch, events: seq<ChordEvent>): Latch {
    if events == [] then latch else After(AfterAll(latch, events[..|events| - 1]), events[|events| - 1])
  }

  /** Where the report of event `i` of the chord goes. */
  function Delivered(events: seq<ChordEvent>, i: nat): Target
    requires i < |events|
  {
    if events[i].Select? then TargetOf(AfterAll(FREE, events[..i + 1])) else NoHost
  }

  /** A chord latched to a host is latched to the same lifetime as long as it has one. */
  lemma {:induction false} LatchedForGood(events: seq<ChordEvent>, i: nat, j: nat)
    requires i <= j <= |events| && !AfterAll(FREE, events[..i]).owner.Nobody?
    ensures var early, late := AfterAll(FREE, events[..i]), AfterAll(FREE, events[..j]);
            late == early || late == Latch(Suppressed, 0)
  {
    if i < j {
      LatchedForGood(events, i, j - 1);
      assert events[..j][..j - 1] == events[..j - 1];
    }
  }

  /** Chords never migrate: all reports of a chord that reach a host reach one connection
      lifetime, which is alive at each of them, and after the first silent one none does. */
  lemma ChordNeverMigrates(events: seq<ChordEvent>, i: nat, j: nat)
    requires i <= j < |events|
    ensures Delivered(events, i).Host? && Delivered(events, j).Host? ==> Delivered(events, i) == Delivered(events, j)
    ensures Delivered(events, j).Host? ==> Intact(AfterAll(FREE, events[..j + 1]), events[j].env)
    ensures events[i].Select? && !events[i].released && Delivered(events, i).NoHost? ==> Delivered(events, j).NoHost?
  {
    assert events[..i + 1][..i] == events[..i];
    assert events[..j + 1][..j] == events[..j];
    if !AfterAll(FREE, events[..i + 1]).owner.Nobody? {
      LatchedForGood(events, i + 1, j + 1);
    }
  }

  // ---------- USB lifetimes ----------

  /** What the endpoint knows of its host. */
  datatype UsbState = UsbState(tinyMounted: bool, monitored: bool, present: bool, freshMountRequired: bool, epoch: u32) {
    predicate Mounted() { tinyMounted && (!monitored || (present && !freshMountRequired)) }

    /** Power loss can only be undone by a fresh mount, and no mount is without an epoch. */
    predicate Sound() { (monitored && !present ==> freshMountRequired) && (tinyMounted ==> epoch != 0) }
  }

  datatype UsbCall = Mount | MountWith(sample: bool) | Unmount | Sample(sample: bool)

  /** Where one call leads. */
  function UsbNext(s: UsbState, call: UsbCall): UsbState {
    match call
    case Mount =>
      if s.monitored && !s.present then s
      else s.(tinyMounted := true, freshMountRequired := false, epoch := Advance(s.epoch))
    case MountWith(sample) =>
      if s.monitored && !sample then s
      else s.(tinyMounted := true, freshMountRequired := false, epoch := Advance(s.epoch), present := s.monitored || s.present)
    case Unmount => if s.tinyMounted then s.(tinyMounted := false, epoch := Advance(s.epoch)) else s
    case Sample(sample) =>
      if s.monitored then s.(present := sample, freshMountRequired := s.freshMountRequired || !sample) else s
  }

  /** With monitored power, losing it unmounts at once, its return mounts nothing, and only a
      mount callback while it is there does, under a new epoch. */
  lemma PowerLossMeans(s: UsbState)
    requires s.monitored && s.epoch != 0
    ensures var lost := UsbNext(s, Sample(false));
            var back := UsbNext(lost, Sample(true));
            && !lost.Mounted() && !back.Mounted() && UsbNext(lost, Mount) == lost
            && UsbNext(back, Mount).Mounted() && UsbNext(back, Mount).epoch == Advance(s.epoch)
            && UsbNext(lost, MountWith(true)).Mounted() && UsbNext(lost, MountWith(false)) == lost
    ensures s.tinyMounted ==> !UsbNext(s, Unmount).Mounted() && UsbNext(s, Unmount).epoch == Advance(s.epoch)
  {
  }

  function UsbAfter(start: UsbState, calls: seq<UsbCall>, n: nat): UsbState
    requires n <= |calls|
  {
    if n == 0 then start else UsbNext(UsbAfter(start, calls, n - 1), calls[n - 1])
  }

  /** Accepted mounts and unmounts among calls `i..n`. */
  function Callbacks(start: UsbState, calls: seq<UsbCall>, i: nat, n: nat): nat
    requires i <= n <= |calls|
  {
    if n == i then 0
    else Callbacks(start, calls, i, n - 1) + (if UsbAfter(start, calls, n).epoch != UsbAfter(start, calls, n - 1).epoch then 1 else 0)
  }

  /** A call keeps the epoch or moves it on by one. */
  lemma EpochMoves(s: UsbState, call: UsbCall)
    ensures UsbNext(s, call).epoch == s.epoch || UsbNext(s, call).epoch == Advance(s.epoch)
  {
  }

  lemma {:induction false} CallbacksCount(start: UsbState, calls: seq<UsbCall>, i: nat, n: nat)
    requires i <= n <= |calls| && UsbAfter(start, calls, i).epoch != 0
    ensures UsbAfter(start, calls, n).epoch == AdvanceBy(UsbAfter(start, calls, i).epoch, Callbacks(start, calls, i, n))
    ensures Callbacks(start, calls, i, n) <= n - i
  {
    if i < n {
      hide UsbNext, Advance;
      CallbacksCount(start, calls, i, n - 1);
      EpochMoves(UsbAfter(start, calls, n - 1), calls[n - 1]);
    }
  }

  lemma {:induction false} FewerCallbacks(start: UsbState, calls: seq<UsbCall>, i: nat, k: nat, n: nat)
    requires i <= k <= n <= |calls|
    ensures Callbacks(start, calls, i, k) <= Callbacks(start, calls, i, n)
  {
    if k < n { FewerCallbacks(start, calls, i, k, n - 1); }
  }

  lemma {:induction false} StaysSound(start: UsbState, calls: seq<UsbCall>, n: nat)
    requires n <= |calls| && start.Sound()
    ensures UsbAfter(start, calls, n).Sound()
  {
    if n > 0 { StaysSound(start, calls, n - 1); }
  }

  /** Without an accepted callback nothing becomes mounted. */
  lemma OnlyCallbacksMount(s: UsbState, call: UsbCall)
    requires s.Sound() && UsbNext(s, call).epoch == s.epoch && UsbNext(s, call).Mounted()
    ensures s.Mounted()
  {
  }

  lemma {:induction false} MountedBefore(start: UsbState, calls: seq<UsbCall>, i: nat, k: nat, n: nat)
    requires i <= k <= n <= |calls| && start.Sound()
    requires Callbacks(start, calls, i, n) == 0 && UsbAfter(start, calls, n).Mounted()
    ensures UsbAfter(start, calls, k).Mounted()
  {
    if k < n {
      StaysSound(start, calls, n - 1);
      OnlyCallbacksMount(UsbAfter(start, calls, n - 1), calls[n - 1]);
      hide UsbNext, UsbState.Mounted;
      MountedBefore(start, calls, i, k, n - 1);
    }
  }

  /** Mounted twice under one epoch means mounted all the time between, under that epoch,
      through any calls within one counter range. */
  lemma SameEpochSameLifetime(start: UsbState, calls: seq<UsbCall>, i: nat, k: nat, j: nat)
    requires i <= k <= j <= |calls| && j - i < MAX_U32 && start.Sound()
    requires UsbAfter(start, calls, i).Mounted() && UsbAfter(start, calls, j).Mounted()
    requires UsbAfter(start, calls, i).epoch == UsbAfter(start, calls, j).epoch
    ensures UsbAfter(start, calls, k).Mounted() && UsbAfter(start, calls, k).epoch == UsbAfter(start, calls, i).epoch
  {
    StaysSound(start, calls, i);
    CallbacksCount(start, calls, i, j);
    GenerationReuse(UsbAfter(start, calls, i).epoch, Callbacks(start, calls, i, j));
    FewerCallbacks(start, calls, i, k, j);
    CallbacksCount(start, calls, i, k);
    MountedBefore(start, calls, i, k, j);
  }

  class UsbEndpointLifetime {
    var tinyMounted: bool
    var monitored: bool
    var present: bool
    var freshMountRequired: bool
    var epoch: u32

    predicate Valid()
      reads this
    {
      Now().Sound()
    }

    constructor (initialEpoch: u32)
      ensures Valid()
      ensures Now() == UsbState(false, false, true, false, initialEpoch)
    {
      tinyMounted, monitored, present, freshMountRequired, epoch := false, false, true, false, initialEpoch;
    }

    function Now(): UsbState
      reads this
    {
      UsbState(tinyMounted, monitored, present, freshMountRequired, epoch)
    }

    predicate Mounted()
      reads this
    {
      Now().Mounted()
    }

    method OnMount() returns (accepted: bool)
      requires Valid()
      modifies this
      ensures Valid() && Now() == UsbNext(old(Now()), Mount)
      ensures accepted <==> !old(monitored) || old(present)
      ensures accepted ==> Mounted() && epoch == Advance(old(epoch))
      ensures !accepted ==> Mounted() == old(Mounted()) && epoch == old(epoch) && freshMountRequired == old(freshMountRequired)
      ensures monitored == old(monitored) && present == old(present)
      ensures !accepted ==> tinyMounted == old(tinyMounted)
    {
      if monitored && !present { return false; }
      tinyMounted, freshMountRequired := true, false;
      epoch := Advance(epoch);
      accepted := true;
    }

    /** The raw sample taken with the callback decides, however late the debounced one is. */
    method OnMountWithPresence(sample: bool) returns (accepted: bool)
      requires Valid()
      modifies this
      ensures Valid() && Now() == UsbNext(old(Now()), MountWith(sample))
      ensures accepted <==> !old(monitored) || sample
      ensures accepted ==> Mounted() && epoch == Advance(old(epoch))
      ensures !accepted ==> Mounted() == old(Mounted()) && epoch == old(epoch) && freshMountRequired == old(freshMountRequired)
      ensures monitored == old(monitored)
    {
      if monitored {
        if !sample { return false; }
        present := true;
      }
      accepted := OnMount();
    }

    method OnUnmount() returns (changed: bool)
      requires Valid()
      modifies this
      ensures Valid() && Now() == UsbNext(old(Now()), Unmount)
      ensures changed == old(tinyMounted)
      ensures !Mounted() && !tinyMounted
      ensures epoch == if changed then Advance(old(epoch)) else old(epoch)
      ensures freshMountRequired == old(freshMountRequired) && monitored == old(monitored) && present == old(present)
    {
      if !tinyMounted { return false; }
      tinyMounted := false;
      epoch := Advance(epoch);
      changed := true;
    }

    /** Only before the driver starts; boards without the signal never call it. */
    method EnableMonitor(initiallyPresent: bool)
      requires Valid()
      modifies this
      ensures Valid() && monitored && tinyMounted == old(tinyMounted) && epoch == old(epoch)
      ensures Mounted() <==> tinyMounted && initiallyPresent
    {
      monitored, present, freshMountRequired := true, initiallyPresent, !initiallyPresent;
    }

    /** Losing power is noticed at once; getting it back never makes a stale mount routable. */
    method ObservePresence(sample: bool) returns (lost: bool)
      requires Valid()
      modifies this
      ensures Valid() && Now() == UsbNext(old(Now()), Sample(sample))
      ensures lost <==> old(Mounted()) && monitored && !sample
      ensures monitored == old(monitored) && epoch == old(epoch) && tinyMounted == old(tinyMounted)
      ensures Mounted() ==> old(Mounted())
      ensures monitored && !sample ==> freshMountRequired && !Mounted()
      ensures old(freshMountRequired) ==> freshMountRequired
    {
      if !monitored { return false; }
      var was := Mounted();
      present := sample;
      if !sample { freshMountRequired := true; }
      lost := was && !Mounted();
    }
  }

  // ---------- Stateful hotkeys ----------

  datatype Hotkey = Hotkey(pressed: bool, name: string)
  datatype Transition = Transition(pressed: bool, name: string, generation: u32)

  const UP := Hotkey(false, "")

  predicate HotkeyShape(k: Hotkey) { !k.pressed ==> k.name == "" }

  /** The one transition that moves the accepted state towards the desired one. */
  function PendingOf(desired: Hotkey, accepted: Hotkey, generation: u32): Option<Transition> {
    if accepted.pressed && (!desired.pressed || accepted.name != desired.name)
    then Some(Transition(false, accepted.name, generation))
    else if !accepted.pressed && desired.pressed then Some(Transition(true, desired.name, generation))
    else None
  }

  /** What a host makes of accepted transitions: a release must match the press before it. */
  function HostAfter(baseline: Hotkey, accepted: seq<Transition>): Option<Hotkey> {
    if accepted == [] then Some(baseline)
    else
      var before := HostAfter(baseline, accepted[..|accepted| - 1]);
      var t := accepted[|accepted| - 1];
      if before.None? || before.value.pressed == t.pressed then None
      else if !t.pressed && before.value.name != t.name then None
      else Some(if t.pressed then Hotkey(true, t.name) else UP)
  }

  class BridgedHotkeyDelivery {
    var desired: Hotkey
    var accepted: Hotkey
    var generation: u32
    /** Since the last baseline: what the transport took. */
    ghost var baseline: Hotkey
    ghost var history: seq<Transition>

    /** The host understands every transition it was given and is left in `accepted`. */
    ghost predicate Valid()
      reads this
    {
      && HotkeyShape(desired) && HotkeyShape(accepted) && HotkeyShape(baseline)
      && generation != 0
      && HostAfter(baseline, history) == Some(accepted)
    }

    constructor ()
      ensures Valid() && desired == UP && accepted == UP && history == []
    {
      desired, accepted, generation := UP, UP, 1;
      baseline, history := UP, [];
    }

    method SetDesired(pressed: bool, name: string) returns (changed: bool)
      requires Valid()
      modifies this
      ensures Valid() && history == old(history) && accepted == old(accepted)
      ensures desired == Hotkey(pressed, if pressed then name else "")
      ensures changed <==> desired != old(desired)
      ensures generation == if changed then Advance(old(generation)) else old(generation)
    {
      var next := Hotkey(pressed, if pressed then name else "");
      if desired == next { return false; }
      desired := next;
      generation := Advance(generation);
      changed := true;
    }

    function PendingTransition(): Option<Transition>
      reads this
    {
      PendingOf(desired, accepted, generation)
    }

    /** Only the transition now pending commits; a stale attempt changes nothing. */
    method MarkAccepted(transition: Option<Transition>) returns (committed: bool)
      requires Valid()
      modifies this
      ensures Valid() && desired == old(desired) && generation == old(generation)
      ensures committed <==> transition.Some? && transition == old(PendingTransition())
      ensures history == if committed then old(history) + [transition.value] else old(history)
      ensures !committed ==> accepted == old(accepted)
    {
      if transition.None? || transition.value.generation != generation { return false; }
      var current := PendingTransition();
      if current.None? || current.value.pressed != transition.value.pressed || current.value.name != transition.value.name {
        return false;
      }
      accepted := if transition.value.pressed then Hotkey(true, transition.value.name) else UP;
      assert (history + [transition.value])[..|history|] == history;
      history := history + [transition.value];
      committed := true;
    }

    method ResetToDesired()
      requires Valid()
      modifies this
      ensures Valid() && desired == old(desired) && accepted == desired && baseline == desired && history == []
    {
      accepted := desired;
      generation := Advance(generation);
      baseline, history := desired, [];
    }

    /** No latched hotkey: with nothing pending the host has exactly what is desired. */
    lemma SettledMeansDesired()
      requires Valid() && PendingTransition().None?
      ensures HostAfter(baseline, history) == Some(desired)
    {
    }
  }

  /** A changed hotkey takes two accepted transitions, anything else at most one. */
  lemma SettlesInTwo(desired: Hotkey, accepted: Hotkey, generation: u32)
    requires HotkeyShape(desired) && HotkeyShape(accepted) && desired != accepted
    ensures PendingOf(desired, accepted, generation).Some?
    ensures var t := PendingOf(desired, accepted, generation).value;
            var next := if t.pressed then Hotkey(true, t.name) else UP;
            next == desired || (next == UP && accepted.pressed && desired.pressed && accepted.name != desired.name)
  {
  }
}
