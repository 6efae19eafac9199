/** Push-to-talk and playback slots of the device, and the simulator that couples them to
    one connection. */
module CodexSlots {
  import opened Bytes
  import opened Generations

  datatype Input = Key(number: nat) | Encoder

  /** Keys 1 to 4 talk, keys 5 to 8 play; the slot is 1 to 4 either way. */
  predicate Talks(input: Input) { input.Key? && 1 <= input.number <= 4 }
  predicate Plays(input: Input) { input.Key? && 5 <= input.number <= 8 }
  function SlotOf(input: Input): nat { if input.Key? && input.number >= 1 then (input.number - 1) % 4 + 1 else 0 }

  /** Key n talks in slot n, the key four places on plays it, and nothing else does either. */
  lemma SlotMeans(n: nat)
    ensures 1 <= n <= 4 ==> SlotOf(Key(n)) == n && SlotOf(Key(n + 4)) == n
    ensures Talks(Key(n)) <==> n == 1 || n == 2 || n == 3 || n == 4
    ensures Plays(Key(n)) <==> n == 5 || n == 6 || n == 7 || n == 8
    ensures !Talks(Encoder) && !Plays(Encoder)
  {
  }

  // ---------- Capture session identity ----------

  datatype CaptureId = CaptureId(slot: nat, capture: u32, connection: u32)

  const CAPTURE_MAGIC: nat := 0xEC
  const MAX_CONNECTION: nat := 0xFFFFF

  predicate CaptureIdValid(id: CaptureId) {
    1 <= id.slot <= 4 && id.capture != 0 && 0 < id.connection <= MAX_CONNECTION
  }

  /** Magic in the top byte, four bits of slot, twenty of connection, 32 of capture. */
  function EncodeCapture(id: CaptureId): u64 {
    if !CaptureIdValid(id) then 0
    else ((CAPTURE_MAGIC * 0x10 + id.slot) * 0x10_0000 + id.connection) * 0x1_0000_0000 + id.capture
  }

  /** Where the parts of a session number are. */
  lemma CaptureLayout(id: CaptureId)
    requires 1 <= id.slot <= 4 && id.capture != 0 && 0 < id.connection < 0x10_0000
    ensures EncodeCapture(id) == 0xEC00_0000_0000_0000 + id.slot * 0x10_0000_0000_0000 + id.connection * 0x1_0000_0000 + id.capture
  {
  }

  function DecodeCapture(session: u64): Option<CaptureId> {
    var capture := session % 0x1_0000_0000;
    var connection := session / 0x1_0000_0000 % 0x10_0000;
    var slot := session / 0x10_0000_0000_0000 % 0x10;
    if session / 0x100_0000_0000_0000 != CAPTURE_MAGIC || slot < 1 || slot > 4 || capture == 0 || connection == 0
    then None
    else Some(CaptureId(slot, capture, connection))
  }

  /** Packing is a bijection between valid identities and accepted session numbers. */
  lemma CaptureRoundTrip(id: CaptureId)
    ensures CaptureIdValid(id) ==> DecodeCapture(EncodeCapture(id)) == Some(id)
    ensures !CaptureIdValid(id) ==> DecodeCapture(EncodeCapture(id)).None?
  {
    if CaptureIdValid(id) {
      var high := (CAPTURE_MAGIC * 0x10 + id.slot) * 0x10_0000 + id.connection;
      var session := high * 0x1_0000_0000 + id.capture;
      assert session / 0x1_0000_0000 == high && session % 0x1_0000_0000 == id.capture;
      assert high / 0x10_0000 == CAPTURE_MAGIC * 0x10 + id.slot;
      assert session / 0x10_0000_0000_0000 == high / 0x10_0000;
      assert session / 0x100_0000_0000_0000 == high / 0x100_0000;
    }
  }

  lemma CaptureUnique(session: u64)
    requires DecodeCapture(session).Some?
    ensures CaptureIdValid(DecodeCapture(session).value)
    ensures EncodeCapture(DecodeCapture(session).value) == session
  {
    var high := session / 0x1_0000_0000;
    assert session == high * 0x1_0000_0000 + session % 0x1_0000_0000;
    assert session / 0x10_0000_0000_0000 == high / 0x10_0000;
    assert session / 0x100_0000_0000_0000 == high / 0x10_0000 / 0x10;
    assert high == high / 0x10_0000 * 0x10_0000 + high % 0x10_0000;
  }

  // ---------- Playback ----------

  datatype PlaybackId = PlaybackId(slot: nat, summary: u64, lease: u64, connection: u32)

  const NO_PLAYBACK := PlaybackId(0, 0, 0, 0)

  predicate PlaybackIdValid(id: PlaybackId) {
    1 <= id.slot <= 4 && id.summary != 0 && id.lease != 0 && id.connection != 0
  }

  datatype Action =
    | PttStarted(slot: nat, capture: u32, connection: u32)
    | PttEnded(slot: nat, capture: u32, connection: u32)
    | PlayRequested(slot: nat, request: u32, connection: u32)
    | PlaybackPreempted(playback: PlaybackId)
    | PlaybackFinished(playback: PlaybackId)
    | RejectedBusy(slot: nat)

  datatype BeginResult = Began | Duplicate | Busy | BadBegin
  datatype FrameResult = FrameAccepted | FrameDuplicate | OutOfOrder | Stale | BadFrame
  datatype Phase = Idle | Buffering | Playing | TransferComplete | FinishedPendingAck

  datatype Begin = Begin(id: PlaybackId, request: u32, frames: u32, samples: u64)

  /** Nothing is playing or about to be. */
  datatype Playback = Playback(
    phase: Phase, id: PlaybackId, request: u32, frames: u32, next: u32, samples: u64)

  datatype PendingPlay = PendingPlay(slot: nat, request: u32, connection: u32)
  datatype Capture = Capture(slot: nat, generation: u32, connection: u32)

  const NOT_PLAYING := Playback(Idle, NO_PLAYBACK, 0, 0, 0, 0)
  const NO_PENDING := PendingPlay(0, 0, 0)
  const NO_CAPTURE := Capture(0, 0, 0)

  class CodexSlotState {
    var captureCounter: u32
    var requestCounter: u32
    var pending: PendingPlay
    var capture: Capture
    var playback: Playback
    /** Play requests are numbered as they are made; a number is over once its playback
        finished, was preempted or aborted, or the request was dropped. */
    ghost var requests: nat
    ghost var pendingNumber: nat
    ghost var activeNumber: nat
    /** Requests preempted, aborted, dropped or disconnected before they finished. */
    ghost var ended: set<nat>
    ghost var finished: seq<nat>
    /** Frames accepted for the active playback. */
    ghost var frames: seq<nat>

    ghost predicate Valid()
      reads this
    {
      && (playback.phase.Idle? ==> playback == NOT_PLAYING)
      && (!playback.phase.Idle? ==>
            && PlaybackIdValid(playback.id) && playback.request != 0 && playback.frames != 0 && playback.samples != 0
            && frames == Iota(playback.next) && playback.next <= playback.frames)
      && (playback.phase.TransferComplete? || playback.phase.FinishedPendingAck? ==> playback.next == playback.frames)
      && (capture.generation == 0 ==> capture == NO_CAPTURE) && (pending.request == 0 ==> pending == NO_PENDING)
      && (capture.generation != 0 ==> playback.phase.Idle? && 1 <= capture.slot <= 4)
      && (pending.request != 0 ==> 1 <= pending.slot <= 4)
      && NumbersSound()
    }

    /** Finished requests are in order, and a live one comes after all of them. */
    ghost predicate NumbersSound()
      reads this
    {
      && activeNumber <= requests && pendingNumber <= requests
      && (pending.request != 0 ==> activeNumber < pendingNumber)
      && (forall i, j | 0 <= i < j < |finished| :: finished[i] < finished[j])
      && (forall i | 0 <= i < |finished| :: finished[i] <= activeNumber)
      && (Unfinished(playback) ==> activeNumber !in ended && forall i | 0 <= i < |finished| :: finished[i] < activeNumber)
      && (pending.request != 0 ==> pendingNumber !in ended)
      && forall x | x in ended :: x <= requests && x !in finished
    }

    constructor ()
      ensures Valid() && playback == NOT_PLAYING && capture == NO_CAPTURE && pending == NO_PENDING && finished == []
    {
      captureCounter, requestCounter := 0, 0;
      pending, capture, playback := NO_PENDING, NO_CAPTURE, NOT_PLAYING;
      requests, pendingNumber, activeNumber, finished, frames, ended := 0, 0, 0, [], [], {};
    }

    method SeedCaptureCounter(seed: u32)
      requires Valid()
      modifies this`captureCounter
      ensures Valid()
      ensures captureCounter == if capture.generation == 0 && old(captureCounter) == 0 then seed else old(captureCounter)
    {
      if capture.generation == 0 && captureCounter == 0 { captureCounter := seed; }
    }

    method ClearPlayback()
      requires Valid()
      modifies this`playback
      ensures Valid() && playback == NOT_PLAYING
    {
      playback := NOT_PLAYING;
    }

    twostate predicate Unchanged()
      reads this
    {
      playback == old(playback) && capture == old(capture) && pending == old(pending)
    }

    /** The device transition of one key edge: at most two actions. */
    method HandleInput(input: Input, pressed: bool, connection: u32) returns (actions: seq<Action>)
      requires Valid()
      modifies this
      ensures Valid() && |actions| <= 2
      ensures finished == old(finished) && old(requests) <= requests && old(ended) <= ended
      ensures playback != old(playback) && Unfinished(old(playback)) ==> old(activeNumber) in ended
      ensures pending != old(pending) && old(pending).request != 0 ==> old(pendingNumber) in ended
      ensures forall i | 0 <= i < |actions| :: !actions[i].PlaybackFinished?
      ensures requests > old(requests) <==> actions != [] && actions[|actions| - 1].PlayRequested?
      ensures playback == old(playback) || (playback == NOT_PLAYING && !old(playback).phase.Idle?)
      ensures playback != old(playback) <==> actions != [] && actions[0] == PlaybackPreempted(old(playback).id)
      ensures capture == old(capture) || capture == NO_CAPTURE || (capture.connection == connection && connection != 0)
      ensures pending == old(pending) || pending == NO_PENDING || (pending.connection == connection && connection != 0)
      ensures Talks(input) && pressed && connection != 0 && old(capture).generation == 0 ==>
                && capture == Capture(SlotOf(input), Advance(old(captureCounter)), connection)
                && pending == NO_PENDING && playback == NOT_PLAYING
                && actions != [] && actions[|actions| - 1] == PttStarted(capture.slot, capture.generation, connection)
      ensures Talks(input) && !pressed && connection != 0 && old(capture).generation != 0 && old(capture).slot == SlotOf(input) ==>
                && capture == NO_CAPTURE
                && actions == [PttEnded(old(capture).slot, old(capture).generation, old(capture).connection)]
      ensures Plays(input) && pressed && connection != 0 && old(capture).generation == 0 ==>
                if old(playback).id.slot == SlotOf(input) && !old(playback).phase.Idle? then actions == [] && Unchanged()
                else
                  && playback == NOT_PLAYING && capture == old(capture)
                  && pending == PendingPlay(SlotOf(input), Advance(old(requestCounter)), connection)
                  && actions != [] && actions[|actions| - 1] == PlayRequested(SlotOf(input), pending.request, connection)
      ensures Talks(input) && pressed && connection != 0 && old(capture).generation != 0 ==>
                Unchanged() && actions == if old(capture).slot == SlotOf(input) then [] else [RejectedBusy(SlotOf(input))]
      ensures Plays(input) && pressed && old(capture).generation != 0 ==> Unchanged() && actions == [RejectedBusy(SlotOf(input))]
      ensures connection == 0 && pressed && (Talks(input) || Plays(input)) ==>
                && capture == old(capture) && pending == old(pending)
                && actions == (if Talks(input) && !old(playback).phase.Idle? then [PlaybackPreempted(old(playback).id)] else [])
                              + [RejectedBusy(SlotOf(input))]
      ensures !pressed && !(Talks(input) && connection != 0 && old(capture).generation != 0 && old(capture).slot == SlotOf(input)) ==>
                actions == [] && Unchanged()
      ensures !Talks(input) && !Plays(input) ==> actions == [] && Unchanged()
    {
      hide NumbersSound, Iota, PlaybackIdValid;
      actions := [];
      var slot := SlotOf(input);
      if connection == 0 && (Talks(input) || Plays(input)) {
        if !pressed { return; }
        if Talks(input) && !playback.phase.Idle? { actions := Preempt(); }
        return actions + [RejectedBusy(slot)];
      }
      if Talks(input) {
        if pressed {
          if capture.generation != 0 {
            if capture.slot != slot { actions := [RejectedBusy(slot)]; }
            return;
          }
          if !playback.phase.Idle? { actions := Preempt(); }
          DropPending();
          StartCapture(slot, connection);
          return actions + [PttStarted(slot, captureCounter, connection)];
        }
        if capture.generation != 0 && capture.slot == slot {
          actions := [PttEnded(slot, capture.generation, capture.connection)];
          EndCapture();
        }
        return;
      }
      if !Plays(input) || !pressed { return; }
      if capture.generation != 0 { return [RejectedBusy(slot)]; }
      if !playback.phase.Idle? {
        if playback.id.slot == slot { return; }
        actions := Preempt();
      }
      DropPending();
      RequestPlay(slot, connection);
      actions := actions + [PlayRequested(slot, requestCounter, connection)];
    }

    method StartCapture(slot: nat, connection: u32)
      requires Valid() && capture.generation == 0 && playback.phase.Idle? && 1 <= slot <= 4
      modifies this`captureCounter, this`capture
      ensures Valid() && captureCounter == Advance(old(captureCounter)) && capture == Capture(slot, captureCounter, connection)
    {
      captureCounter := Advance(captureCounter);
      capture := Capture(slot, captureCounter, connection);
    }

    method EndCapture()
      requires Valid()
      modifies this`capture
      ensures Valid() && capture == NO_CAPTURE
    {
      capture := NO_CAPTURE;
    }

    method RequestPlay(slot: nat, connection: u32)
      requires Valid() && pending == NO_PENDING && 1 <= slot <= 4
      modifies this`requestCounter, this`pending, this`requests, this`pendingNumber
      ensures Valid() && requestCounter == Advance(old(requestCounter)) && pending == PendingPlay(slot, requestCounter, connection)
      ensures requests == old(requests) + 1 == pendingNumber
    {
      requestCounter := Advance(requestCounter);
      pending := PendingPlay(slot, requestCounter, connection);
      requests := requests + 1;
      pendingNumber := requests;
    }

    method Preempt() returns (actions: seq<Action>)
      requires Valid() && !playback.phase.Idle?
      modifies this`playback, this`ended
      ensures Valid() && playback == NOT_PLAYING
      ensures actions == [PlaybackPreempted(old(playback).id)]
      ensures ended == old(ended) + (if Unfinished(old(playback)) then {activeNumber} else {})
    {
      actions := [PlaybackPreempted(playback.id)];
      EndPlayback();
    }

    /** A playback that ends before it finished never will. */
    method EndPlayback()
      requires Valid()
      modifies this`playback, this`ended
      ensures Valid() && playback == NOT_PLAYING
      ensures ended == old(ended) + (if Unfinished(old(playback)) then {activeNumber} else {})
    {
      if Unfinished(playback) { ended := ended + {activeNumber}; }
      playback := NOT_PLAYING;
    }

    /** Nor will a request that is dropped before it began. */
    method DropPending()
      requires Valid()
      modifies this`pending, this`ended
      ensures Valid() && pending == NO_PENDING
      ensures ended == old(ended) + (if old(pending).request != 0 then {pendingNumber} else {})
    {
      if pending.request != 0 { ended := ended + {pendingNumber}; }
      pending := NO_PENDING;
    }

    /** Playback begins only for the pending request of the same connection. */
    method BeginPlayback(begin: Begin) returns (r: BeginResult)
      requires Valid()
      modifies this
      ensures Valid() && finished == old(finished) && requests == old(requests) && capture == old(capture)
      ensures r.Began? <==>
                && PlaybackIdValid(begin.id) && begin.request != 0 && begin.frames != 0 && begin.samples != 0
                && capture.generation == 0 && old(playback).phase.Idle?
                && old(pending) == PendingPlay(begin.id.slot, begin.request, begin.id.connection)
      ensures r.Began? ==>
                && playback == Playback(Buffering, begin.id, begin.request, begin.frames, 0, begin.samples)
                && pending == NO_PENDING && activeNumber == old(pendingNumber) && frames == []
      ensures !r.Began? ==> playback == old(playback) && pending == old(pending) && activeNumber == old(activeNumber)
      ensures r.Duplicate? ==>
                !playback.phase.Idle? && playback.id == begin.id && playback.request == begin.request
                && playback.frames == begin.frames && playback.samples == begin.samples
    {
      if !PlaybackIdValid(begin.id) || begin.request == 0 || begin.frames == 0 || begin.samples == 0 { return BadBegin; }
      if capture.generation != 0 { return Busy; }
      if !playback.phase.Idle? {
        if playback.id == begin.id && playback.request == begin.request && playback.frames == begin.frames
           && playback.samples == begin.samples {
          return Duplicate;
        }
        return Busy;
      }
      if pending != PendingPlay(begin.id.slot, begin.request, begin.id.connection) { return BadBegin; }
      playback := Playback(Buffering, begin.id, begin.request, begin.frames, 0, begin.samples);
      activeNumber := pendingNumber;
      pending := NO_PENDING;
      frames := [];
      r := Began;
    }

    predicate Matches(id: PlaybackId)
      reads this
    {
      !playback.phase.Idle? && PlaybackIdValid(id) && playback.id == id
    }

    method MarkStarted(id: PlaybackId) returns (ok: bool)
      requires Valid()
      modifies this`playback
      ensures Valid()
      ensures ok <==> old(Matches(id)) && old(playback).phase.Buffering?
      ensures playback == if ok then old(playback).(phase := Playing) else old(playback)
    {
      if !Matches(id) || !playback.phase.Buffering? { return false; }
      playback := playback.(phase := Playing);
      ok := true;
    }

    /** Frames are accepted one by one, in order, each once. */
    method AcceptFrame(id: PlaybackId, sequence: u32) returns (r: FrameResult)
      requires Valid()
      modifies this`playback, this`frames
      ensures Valid()
      ensures r.FrameAccepted? <==>
                && old(Matches(id)) && (old(playback).phase.Buffering? || old(playback).phase.Playing?)
                && sequence == old(playback).next < old(playback).frames
      ensures r.FrameAccepted? ==> playback == old(playback).(next := sequence + 1) && frames == old(frames) + [sequence]
      ensures !r.FrameAccepted? ==> playback == old(playback) && frames == old(frames)
    {
      if !PlaybackIdValid(id) { return BadFrame; }
      if !Matches(id) || (!playback.phase.Buffering? && !playback.phase.Playing?) { return Stale; }
      if sequence >= playback.frames { return BadFrame; }
      if sequence < playback.next { return FrameDuplicate; }
      if sequence > playback.next { return OutOfOrder; }
      playback := playback.(next := playback.next + 1);
      frames := frames + [sequence];
      r := FrameAccepted;
    }

    method MarkTransferComplete(id: PlaybackId, last: u32) returns (ok: bool)
      requires Valid()
      modifies this`playback
      ensures Valid()
      ensures ok <==>
                && old(Matches(id)) && (old(playback).phase.Buffering? || old(playback).phase.Playing?)
                && old(playback).next == old(playback).frames && last == old(playback).frames - 1
      ensures playback == if ok then old(playback).(phase := TransferComplete) else old(playback)
    {
      if !Matches(id) || (!playback.phase.Buffering? && !playback.phase.Playing?)
         || playback.next != playback.frames || last != playback.frames - 1 {
        return false;
      }
      playback := playback.(phase := TransferComplete);
      ok := true;
    }

    /** A request finishes once, with every frame in order and the exact sample count. */
    method MarkDrained(id: PlaybackId, played: u64) returns (ok: bool)
      requires Valid()
      modifies this`playback, this`finished
      ensures Valid()
      ensures ok <==> old(Matches(id)) && old(playback).phase.TransferComplete? && played == old(playback).samples
      ensures playback == if ok then old(playback).(phase := FinishedPendingAck) else old(playback)
      ensures finished == if ok then old(finished) + [activeNumber] else old(finished)
      ensures ok ==> activeNumber !in old(finished) && frames == Iota(playback.frames)
    {
      if !Matches(id) || !playback.phase.TransferComplete? || played != playback.samples { return false; }
      playback := playback.(phase := FinishedPendingAck);
      finished := finished + [activeNumber];
      ok := true;
    }

    method AcknowledgeFinished(id: PlaybackId) returns (ok: bool)
      requires Valid()
      modifies this`playback
      ensures Valid()
      ensures ok <==> old(Matches(id)) && old(playback).phase.FinishedPendingAck?
      ensures playback == if ok then NOT_PLAYING else old(playback)
    {
      if !Matches(id) || !playback.phase.FinishedPendingAck? { return false; }
      ClearPlayback();
      ok := true;
    }

    method AbortPlayback(id: PlaybackId) returns (ok: bool)
      requires Valid()
      modifies this`playback, this`ended
      ensures Valid()
      ensures ok <==> old(Matches(id))
      ensures playback == if ok then NOT_PLAYING else old(playback)
      ensures ended == old(ended) + (if ok && Unfinished(old(playback)) then {activeNumber} else {})
    {
      if !Matches(id) { return false; }
      EndPlayback();
      ok := true;
    }

    /** Everything of that connection ends; connection zero means every connection. */
    method Disconnect(connection: u32) returns (actions: seq<Action>)
      requires Valid()
      modifies this
      ensures Valid() && finished == old(finished) && requests == old(requests) && old(ended) <= ended
      ensures playback != old(playback) && Unfinished(old(playback)) ==> old(activeNumber) in ended
      ensures pending != old(pending) && old(pending).request != 0 ==> old(pendingNumber) in ended
      ensures capture == if Ends(connection, old(capture).connection) then NO_CAPTURE else old(capture)
      ensures pending == if Ends(connection, old(pending).connection) then NO_PENDING else old(pending)
      ensures playback == if Ends(connection, old(playback).id.connection) then NOT_PLAYING else old(playback)
      ensures actions == DisconnectActions(old(capture), old(playback), connection)
      ensures |actions| <= 1
    {
      actions := [];
      if capture.generation != 0 && Ends(connection, capture.connection) {
        actions := [PttEnded(capture.slot, capture.generation, capture.connection)];
        capture := NO_CAPTURE;
      }
      if Ends(connection, pending.connection) { DropPending(); }
      if !playback.phase.Idle? && Ends(connection, playback.id.connection) {
        var preempted := Preempt();
        actions := actions + preempted;
      }
    }
  }

  /** Begun and not yet drained. */
  predicate Unfinished(playback: Playback) {
    playback.phase.Buffering? || playback.phase.Playing? || playback.phase.TransferComplete?
  }

  /** What a lost connection is told about: the capture, then the playback. */
  function DisconnectActions(capture: Capture, playback: Playback, connection: u32): seq<Action> {
    (if capture.generation != 0 && Ends(connection, capture.connection)
     then [PttEnded(capture.slot, capture.generation, capture.connection)] else [])
    + (if !playback.phase.Idle? && Ends(connection, playback.id.connection) then [PlaybackPreempted(playback.id)] else [])
  }

  predicate Ends(connection: u32, of: u32) { connection == 0 || of == connection }

  function Iota(n: nat): seq<nat> { seq(n, i => i) }

  // ---------- The simulator ----------

  class CodexDeviceSimulator {
    const state: CodexSlotState
    var emitted: seq<Action>
    var connectionGeneration: u32
    var activeId: PlaybackId
    /** Everything ever emitted, and the request numbers behind the finished actions. */
    ghost var log: seq<Action>
    ghost var finishedLog: seq<nat>

    /** Whatever is live belongs to the current connection, and a live playback is the one
        the simulator drives. */
    ghost predicate Valid()
      reads this, state
    {
      && state.Valid()
      && (!state.playback.phase.Idle? ==>
            && state.playback.id == activeId && state.playback.id.connection == connectionGeneration && connectionGeneration != 0)
      && (state.capture.generation != 0 ==> state.capture.connection == connectionGeneration && connectionGeneration != 0)
      && (state.pending.request != 0 ==> state.pending.connection == connectionGeneration && connectionGeneration != 0)
      && FinishedIn(log) == |finishedLog| && finishedLog == state.finished
    }

    /** Capture and playback never overlap. */
    lemma NeverBoth()
      requires Valid()
      ensures state.capture.generation == 0 || state.playback.phase.Idle?
    {
    }

    /** No request finishes twice, and none that was preempted, dropped or disconnected. */
    lemma FinishedOnce(i: nat, j: nat)
      requires Valid() && i < j < |finishedLog|
      ensures finishedLog[i] < finishedLog[j] <= state.requests
      ensures finishedLog[i] !in state.ended && finishedLog[j] !in state.ended
    {
    }

    constructor ()
      ensures Valid() && fresh(state) && emitted == [] && connectionGeneration == 0
    {
      state := new CodexSlotState();
      emitted, connectionGeneration, activeId := [], 0, NO_PLAYBACK;
      log, finishedLog := [], [];
    }

    method Append(actions: seq<Action>)
      requires FinishedIn(actions) == 0
      modifies this`emitted, this`log
      ensures emitted == old(emitted) + actions && log == old(log) + actions
      ensures FinishedIn(log) == FinishedIn(old(log))
    {
      FinishedInBoth(log, actions);
      for i := 0 to |actions|
        invariant emitted == old(emitted) + actions[..i] && log == old(log)
      {
        emitted := emitted + [actions[i]];
      }
      assert actions[..|actions|] == actions;
      log := log + actions;
    }

    /** Requests that could still finish. */
    ghost function OpenNumbers(): set<nat>
      reads state
    {
      (if Unfinished(state.playback) then {state.activeNumber} else {})
      + (if state.pending.request != 0 then {state.pendingNumber} else {})
    }

    /** Something of the current connection is under way. */
    predicate Live()
      reads this, state
    {
      connectionGeneration != 0 && (state.capture.generation != 0 || !state.playback.phase.Idle?)
    }

    method Connect(generation: u32)
      requires Valid()
      modifies this, state
      ensures Valid() && connectionGeneration == generation
      ensures generation != old(connectionGeneration) && old(connectionGeneration) != 0 ==>
                state.playback == NOT_PLAYING && state.capture == NO_CAPTURE && state.pending == NO_PENDING
      ensures old(state.ended) <= state.ended
      ensures generation != old(connectionGeneration) && old(connectionGeneration) != 0 ==> old(OpenNumbers()) <= state.ended
      ensures generation == old(connectionGeneration) || old(connectionGeneration) == 0 ==>
                && state.playback == old(state.playback) && state.capture == old(state.capture) && state.pending == old(state.pending)
                && log == old(log) && activeId == old(activeId)
      ensures old(log) <= log && |log| <= |old(log)| + 1
      ensures |log| > |old(log)| <==> generation != old(connectionGeneration) && old(Live())
    {
      hide CodexSlotState.NumbersSound, Iota, PlaybackIdValid, FinishedIn;
      NoneFinishedOnDisconnect(state.capture, state.playback, connectionGeneration);
      if connectionGeneration != 0 && connectionGeneration != generation {
        var actions := state.Disconnect(connectionGeneration);
        Append(actions);
        activeId := NO_PLAYBACK;
      }
      connectionGeneration := generation;
    }

    method Disconnect()
      requires Valid()
      modifies this, state
      ensures Valid() && connectionGeneration == 0
      ensures state.playback == NOT_PLAYING && state.capture == NO_CAPTURE && state.pending == NO_PENDING
      ensures old(state.ended) + old(OpenNumbers()) <= state.ended
    {
      hide CodexSlotState.NumbersSound, Iota, PlaybackIdValid, FinishedIn;
      NoneFinishedOnDisconnect(state.capture, state.playback, connectionGeneration);
      var actions := state.Disconnect(connectionGeneration);
      Append(actions);
      connectionGeneration := 0;
      activeId := NO_PLAYBACK;
    }

    method HandleInput(input: Input, pressed: bool)
      requires Valid()
      modifies this, state
      ensures Valid() && connectionGeneration == old(connectionGeneration) && activeId == old(activeId)
      ensures FinishedIn(log) == FinishedIn(old(log))
      ensures old(log) <= log && |log| <= |old(log)| + 2 && emitted == old(emitted) + log[|old(log)|..]
      ensures Talks(input) && pressed && connectionGeneration != 0 && old(state.capture).generation == 0 ==>
                && state.playback == NOT_PLAYING && state.capture.slot == SlotOf(input)
                && log != [] && log[|log| - 1] == PttStarted(SlotOf(input), state.capture.generation, connectionGeneration)
      ensures state.playback != old(state.playback) ==>
                state.playback == NOT_PLAYING && |log| > |old(log)| && log[|old(log)|] == PlaybackPreempted(old(activeId))
      ensures old(state.ended) <= state.ended
      ensures state.playback != old(state.playback) && Unfinished(old(state.playback)) ==> old(state.activeNumber) in state.ended
      ensures connectionGeneration == 0 ==> state.capture == old(state.capture) && state.pending == old(state.pending)
    {
      var actions := state.HandleInput(input, pressed, connectionGeneration);
      NoneFinished(actions);
      Append(actions);
    }

    method BeginPlayback(slot: nat, summary: u64, lease: u64, request: u32, frames: u32, samples: u64) returns (r: BeginResult)
      requires Valid()
      modifies this, state
      ensures Valid() && log == old(log)
      ensures r.Began? || r.Duplicate? ==> activeId == PlaybackId(slot, summary, lease, connectionGeneration) && !state.playback.phase.Idle?
    {
      var begin := Begin(PlaybackId(slot, summary, lease, connectionGeneration), request, frames, samples);
      r := state.BeginPlayback(begin);
      if r.Began? || r.Duplicate? { activeId := begin.id; }
    }

    method StartPlayback() returns (ok: bool)
      requires Valid()
      modifies state
      ensures Valid()
      ensures ok <==> old(state.playback).phase.Buffering?
    {
      ok := state.MarkStarted(activeId);
    }

    method DeliverFrame(sequence: u32, drop: bool) returns (r: FrameResult)
      requires Valid()
      modifies state
      ensures Valid()
      ensures drop ==> r.OutOfOrder? && state.playback == old(state.playback)
      ensures r.FrameAccepted? ==> sequence == old(state.playback).next == state.playback.next - 1
    {
      if drop { return OutOfOrder; }
      r := state.AcceptFrame(activeId, sequence);
    }

    method EndTransfer(last: u32) returns (ok: bool)
      requires Valid()
      modifies state
      ensures Valid()
      ensures ok ==> state.playback.next == state.playback.frames == last + 1
    {
      ok := state.MarkTransferComplete(activeId, last);
    }

    /** The only place a finished action comes from. */
    method Drain(played: u64) returns (ok: bool)
      requires Valid()
      modifies this, state
      ensures Valid()
      ensures ok <==> old(state.playback).phase.TransferComplete? && played == old(state.playback).samples
      ensures log == if ok then old(log) + [PlaybackFinished(activeId)] else old(log)
      ensures ok ==>
                && finishedLog == old(finishedLog) + [state.activeNumber] && state.activeNumber !in old(finishedLog)
                && state.frames == Iota(state.playback.frames) && activeId.connection == connectionGeneration
    {
      ok := state.MarkDrained(activeId, played);
      if !ok { return; }
      FinishedInBoth(log, [PlaybackFinished(activeId)]);
      emitted := emitted + [PlaybackFinished(activeId)];
      log := log + [PlaybackFinished(activeId)];
      finishedLog := state.finished;
    }

    method AcknowledgeFinished(id: PlaybackId) returns (ok: bool)
      requires Valid()
      modifies this, state
      ensures Valid() && log == old(log)
      ensures ok <==> old(state.playback).phase.FinishedPendingAck? && id == old(activeId)
      ensures ok ==> state.playback == NOT_PLAYING
    {
      ok := state.AcknowledgeFinished(id);
      if ok { activeId := NO_PLAYBACK; }
    }
  }

  function FinishedIn(actions: seq<Action>): nat {
    if actions == [] then 0
    else FinishedIn(actions[..|actions| - 1]) + (if actions[|actions| - 1].PlaybackFinished? then 1 else 0)
  }

  lemma {:induction false} FinishedInBoth(a: seq<Action>, b: seq<Action>)
    ensures FinishedIn(a + b) == FinishedIn(a) + FinishedIn(b)
  {
    if b == [] {
      assert a + b == a;
    } else {
      FinishedInBoth(a, b[..|b| - 1]);
      assert (a + b)[..|a + b| - 1] == a + b[..|b| - 1];
    }
  }

  lemma NoneFinishedOnDisconnect(capture: Capture, playback: Playback, connection: u32)
    ensures FinishedIn(DisconnectActions(capture, playback, connection)) == 0
  {
    NoneFinished(DisconnectActions(capture, playback, connection));
  }

  lemma {:induction false} NoneFinished(actions: seq<Action>)
    requires forall i | 0 <= i < |actions| :: !actions[i].PlaybackFinished?
    ensures FinishedIn(actions) == 0
  {
    if actions != [] { NoneFinished(actions[..|actions| - 1]); }
  }
}
