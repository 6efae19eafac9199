/** The last slot of the report queue belongs to the all-released report. */
module HidReservation {
  import opened Bytes
  import opened HidQueue

  /** Only an all-released report can take the last slot, and then it is the tail. */
  predicate LastSlotRule(queue: seq<QueuedReport>, keyboardId: byte, owner: BleOwner, usbEpoch: u32) {
    |queue| >= CAPACITY ==>
      && |queue| == CAPACITY
      && var tail := queue[CAPACITY - 1].report;
      && tail.cls.KeyboardAllReleased? && tail.data == Fill(0, SNAPSHOT_BYTES)
      && tail.reportId == keyboardId && tail.owner == owner && tail.usbEpoch == usbEpoch
  }

  predicate SameEndpoint(report: Report, keyboardId: byte, owner: BleOwner, usbEpoch: u32) {
    report.owner == owner && report.usbEpoch == usbEpoch && (IsSnapshot(report.cls) ==> report.reportId == keyboardId)
  }

  lemma LastSlotKept(queue: seq<QueuedReport>, sequence: u32, report: Report, keyboardId: byte, owner: BleOwner, usbEpoch: u32)
    requires LastSlotRule(queue, keyboardId, owner, usbEpoch)
    requires SameEndpoint(report, keyboardId, owner, usbEpoch)
    requires ClassifiedOutcome(queue, report).Queued?
    ensures LastSlotRule(queue + [QueuedReport(sequence, report)], keyboardId, owner, usbEpoch)
  {
    if |queue| == CAPACITY - 1 { assert report.data == Fill(0, SNAPSHOT_BYTES); }
  }

  /** So within one endpoint lifetime letting go of everything is never refused. */
  lemma AllReleasedAlwaysAccepted(queue: seq<QueuedReport>, report: Report, keyboardId: byte, owner: BleOwner, usbEpoch: u32)
    requires LastSlotRule(queue, keyboardId, owner, usbEpoch)
    requires report.cls.KeyboardAllReleased? && report.data == Fill(0, SNAPSHOT_BYTES)
    requires SameEndpoint(report, keyboardId, owner, usbEpoch)
    ensures ClassifiedOutcome(queue, report).Accepted()
  {
  }
}
