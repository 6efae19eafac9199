/** A text streamed in numbered chunks through the shared report queue. */
module FixedText {
  import opened Bytes
  import opened HidQueue

  const MAX_TEXT: nat := 960
  const CHUNK: nat := 59
  const HEADER: nat := 4
  const PAYLOAD: nat := 63
  const WINDOW: nat := 2
  const TEXT_REPORT: byte := 0x11
  const TEXT_KIND: byte := 1

  datatype StartStatus = Started | Empty | InvalidOwner | TooLarge | Busy
  datatype PumpResult = PumpResult(queued: nat, blocked: bool, completed: bool, ownerChanged: bool)

  const NO_OWNER := BleOwner(0xFFFF, 0)

  predicate OwnerValid(owner: BleOwner) { owner.handle != 0xFFFF && owner.generation != 0 }

  /** The owner of no connection is none. */
  lemma OwnerMeans(owner: BleOwner)
    ensures OwnerValid(owner) <==> owner.generation != 0 && owner.handle != 65535
  {
  }

  function ChunkCount(length: nat): (n: byte)
    ensures n == 0 <==> length == 0 || length > MAX_TEXT
    ensures n != 0 ==> (n - 1) * CHUNK < length <= n * CHUNK
  {
    if length == 0 || length > MAX_TEXT then 0 else (length + CHUNK - 1) / CHUNK
  }

  /** The report that carries chunk `i`: kind, index, count, length, data, zero padding. */
  function ChunkData(text: seq<byte>, i: nat): (data: seq<byte>)
    requires i < ChunkCount(|text|)
    ensures |data| == PAYLOAD
  {
    var length := Min(CHUNK, |text| - i * CHUNK);
    [TEXT_KIND, i, ChunkCount(|text|), length] + text[i * CHUNK..i * CHUNK + length] + Fill(0, CHUNK - length)
  }

  /** Kind, index, count and length in front, then at most 59 bytes of the text, then zeros. */
  lemma ChunkLayout(text: seq<byte>, i: nat)
    requires 0 < |text| <= 960 && 59 * i < |text|
    ensures i < ChunkCount(|text|) && 59 * (ChunkCount(|text|) - 1) < |text| <= 59 * ChunkCount(|text|)
    ensures var data := ChunkData(text, i);
            var length := if 59 * i + 59 <= |text| then 59 else |text| - 59 * i;
            && |data| == 63 && data[0] == 1 && data[1] == i && data[2] == ChunkCount(|text|) && data[3] == length
            && data[4..4 + length] == text[59 * i..59 * i + length]
            && forall k | 4 + length <= k < 63 :: data[k] == 0
  {
  }

  function ChunksOf(text: seq<byte>, n: nat): (chunks: seq<seq<byte>>)
    requires n <= ChunkCount(|text|)
    ensures |chunks| == n
  {
    seq(n, i requires 0 <= i < n => ChunkData(text, i))
  }

  // ---------- The receiving side ----------

  predicate ChunkShaped(data: seq<byte>) { |data| == PAYLOAD && data[0] == TEXT_KIND && data[3] <= CHUNK }

  /** A receiver takes chunks in order from index 0, all announcing the same count. */
  function Receive(chunks: seq<seq<byte>>): Option<seq<byte>> {
    if chunks == [] then Some([])
    else
      var before := Receive(chunks[..|chunks| - 1]);
      var last := chunks[|chunks| - 1];
      if before.None? || !ChunkShaped(last) || last[1] != |chunks| - 1 then None
      else if |chunks| > 1 && (!ChunkShaped(chunks[|chunks| - 2]) || chunks[|chunks| - 2][2] != last[2]) then None
      else Some(before.value + last[HEADER..HEADER + last[3]])
  }

  lemma ChunkReads(text: seq<byte>, i: nat)
    requires i < ChunkCount(|text|)
    ensures var data := ChunkData(text, i);
            && ChunkShaped(data) && data[1] == i && data[2] == ChunkCount(|text|)
            && data[3] == Min(CHUNK, |text| - i * CHUNK)
            && data[HEADER..HEADER + data[3]] == text[i * CHUNK..i * CHUNK + data[3]]
  {
  }

  /** Any number of chunks is received as a prefix of the text, all of them as the text. */
  lemma {:induction false} ReceivedIsPrefix(text: seq<byte>, n: nat)
    requires n <= ChunkCount(|text|)
    ensures Receive(ChunksOf(text, n)) == Some(text[..Min(n * CHUNK, |text|)])
    ensures n == ChunkCount(|text|) && n != 0 ==> Receive(ChunksOf(text, n)) == Some(text)
  {
    hide ChunkData, ChunksOf, ChunkShaped, ChunkCount;
    if n > 0 {
      ReceivedIsPrefix(text, n - 1);
      LastChunks(text, n);
      var chunks, last := ChunksOf(text, n), ChunkData(text, n - 1);
      ChunkReads(text, n - 1);
      if n > 1 { ChunkReads(text, n - 2); }
      PiecesJoin(text, n);
    }
    CountCovers(text);
    if n == ChunkCount(|text|) && n != 0 { assert text[..|text|] == text; }
  }

  lemma LastChunks(text: seq<byte>, n: nat)
    requires 0 < n <= ChunkCount(|text|)
    ensures ChunksOf(text, n)[..n - 1] == ChunksOf(text, n - 1)
    ensures ChunksOf(text, n)[n - 1] == ChunkData(text, n - 1)
    ensures n > 1 ==> ChunksOf(text, n)[n - 2] == ChunkData(text, n - 2)
  {
    hide ChunkData, ChunkCount;
  }

  /** What the first chunks carry, and what the next one adds. */
  lemma PiecesJoin(text: seq<byte>, n: nat)
    requires 0 < n <= ChunkCount(|text|)
    ensures (n - 1) * CHUNK < |text|
    ensures var length := Min(CHUNK, |text| - (n - 1) * CHUNK);
            text[..Min((n - 1) * CHUNK, |text|)] + text[(n - 1) * CHUNK..(n - 1) * CHUNK + length] == text[..Min(n * CHUNK, |text|)]
  {
  }

  lemma CountCovers(text: seq<byte>)
    ensures ChunkCount(|text|) != 0 ==> |text| <= ChunkCount(|text|) * CHUNK
  {
  }

  class BleFixedTextStream {
    var text: seq<byte>
    var owner: BleOwner
    var nextChunk: byte
    var totalChunks: byte
    /** The last text started, its owner, and the chunks the queue took for it. */
    ghost var source: seq<byte>
    ghost var sourceOwner: BleOwner
    ghost var sent: seq<seq<byte>>

    predicate Pending()
      reads this
    {
      totalChunks != 0
    }

    ghost predicate Valid()
      reads this
    {
      && (Pending() ==>
            && text == source && owner == sourceOwner && OwnerValid(owner)
            && totalChunks == ChunkCount(|text|) && nextChunk < totalChunks
            && |sent| == nextChunk)
      && |sent| <= ChunkCount(|source|)
      && sent == ChunksOf(source, |sent|)
    }

    constructor ()
      ensures Valid() && !Pending()
    {
      text, owner, nextChunk, totalChunks := [], NO_OWNER, 0, 0;
      source, sourceOwner, sent := [], NO_OWNER, [];
    }

    method Start(next: seq<byte>, nextOwner: BleOwner) returns (status: StartStatus)
      requires Valid()
      modifies this
      ensures Valid()
      ensures status == if old(Pending()) then Busy
                        else if next == [] then Empty
                        else if !OwnerValid(nextOwner) then InvalidOwner
                        else if |next| > MAX_TEXT then TooLarge
                        else Started
      ensures status.Started? ==> Pending() && source == next && owner == sourceOwner == nextOwner && sent == []
      ensures !status.Started? ==>
                && Pending() == old(Pending()) && source == old(source) && sent == old(sent) && owner == old(owner)
                && sourceOwner == old(sourceOwner)
    {
      if Pending() { return Busy; }
      if next == [] { return Empty; }
      if !OwnerValid(nextOwner) { return InvalidOwner; }
      if ChunkCount(|next|) == 0 { return TooLarge; }
      text, owner, nextChunk, totalChunks := next, nextOwner, 0, ChunkCount(|next|);
      source, sourceOwner, sent := next, nextOwner, [];
      status := Started;
    }

    method Reset()
      requires |sent| <= ChunkCount(|source|) && sent == ChunksOf(source, |sent|)
      modifies this`text, this`owner, this`nextChunk, this`totalChunks
      ensures Valid() && !Pending()
    {
      text, owner, nextChunk, totalChunks := [], NO_OWNER, 0, 0;
    }

    /** Offers one chunk; only an admitted one advances the stream. */
    method SendNext(queue: HidReportQueue, queuedMs: u32) returns (ok: bool)
      requires Valid() && queue.Valid() && Pending()
      modifies this`sent, this`nextChunk, queue, queue.reports
      ensures queue.Valid() && Source() == old(Source())
      ensures ok ==>
                && |old(sent)| < ChunkCount(|source|)
                && sent == old(sent) + [ChunkData(source, |old(sent)|)] == ChunksOf(source, |old(sent)| + 1)
                && nextChunk == old(nextChunk) + 1
                && |queue.Contents()| == |old(queue.Contents())| + 1 && old(queue.Contents()) <= queue.Contents()
                && queue.Contents()[|old(queue.Contents())|].report == TextReport(sent[|sent| - 1], queuedMs, owner)
      ensures ok <==> |old(queue.Contents())| < ClassCapacity(AppCommand)
      ensures !ok ==> sent == old(sent) && nextChunk == old(nextChunk) && queue.Contents() == old(queue.Contents())
    {
      hide Window, SequenceBefore, ChunkData;
      var data := ChunkData(text, nextChunk);
      var status, sequence := queue.PushClassified(TextReport(data, queuedMs, owner));
      if !status.Accepted() { return false; }
      ghost var n := |sent|;
      sent := sent + [data];
      assert sent == ChunksOf(source, n + 1);
      nextChunk := nextChunk + 1;
      ok := true;
    }

    ghost function Source(): (seq<byte>, BleOwner, seq<byte>, BleOwner, byte)
      reads this
    {
      (source, sourceOwner, text, owner, totalChunks)
    }

    /** Queues the next chunks while fewer than a window of reports is waiting. */
    method Pump(current: BleOwner, queue: HidReportQueue, queuedMs: u32) returns (r: PumpResult)
      requires Valid() && queue.Valid()
      modifies this, queue, queue.reports
      ensures Valid() && queue.Valid()
      ensures source == old(source) && sourceOwner == old(sourceOwner)
      ensures !old(Pending()) ==>
                r == PumpResult(0, false, false, false) && !Pending() && sent == old(sent) && queue.Contents() == old(queue.Contents())
      ensures r.ownerChanged <==> old(Pending()) && (!OwnerValid(current) || current != old(owner))
      ensures r.ownerChanged ==> !Pending() && sent == old(sent) && queue.Contents() == old(queue.Contents())
      ensures Grown(old(queue.Contents()), queue.Contents(), old(sent), sent, r.queued, queuedMs, old(owner))
      ensures r.completed ==> !Pending() && |sent| == ChunkCount(|source|) && Receive(sent) == Some(source)
      ensures r.blocked ==> Pending() && Receive(sent) == Some(source[..Min(nextChunk * CHUNK, |source|)])
      ensures old(Pending()) ==> r.blocked || r.completed || r.ownerChanged
      ensures r.blocked ==> |queue.Contents()| >= WINDOW
      ensures old(Pending()) && !r.ownerChanged && |old(queue.Contents())| < WINDOW ==> r.queued > 0
    {
      hide Window, SequenceBefore, ChunkData, Receive, ChunksOf;
      r := PumpResult(0, false, false, false);
      if !Pending() { return; }
      if !OwnerValid(current) || current != owner {
        Reset();
        return r.(ownerChanged := true);
      }
      r := FillWindow(queue, queuedMs);
      if r.completed { Reset(); }
    }

    /** The loop of one pump; a finished stream is not yet reset. */
    method FillWindow(queue: HidReportQueue, queuedMs: u32) returns (r: PumpResult)
      requires Valid() && queue.Valid() && Pending()
      modifies this`sent, this`nextChunk, queue, queue.reports
      ensures queue.Valid() && Source() == old(Source())
      ensures r.blocked != r.completed && !r.ownerChanged
      ensures r.blocked ==> |queue.Contents()| >= WINDOW
      ensures r.completed ==> r.queued > 0
      ensures r.blocked ==> Valid() && Receive(sent) == Some(source[..Min(nextChunk * CHUNK, |source|)])
      ensures r.completed ==> |sent| == ChunkCount(|source|) && sent == ChunksOf(source, |sent|) && Receive(sent) == Some(source)
      ensures Grown(old(queue.Contents()), queue.Contents(), old(sent), sent, r.queued, queuedMs, owner)
    {
      hide Window, SequenceBefore, ChunkData, Receive, ChunksOf;
      ghost var before, earlier := queue.Contents(), sent;
      r := PumpResult(0, false, false, false);
      while true
        invariant Valid() && queue.Valid() && Pending() && Source() == old(Source())
        invariant r == PumpResult(r.queued, false, false, false)
        invariant Grown(before, queue.Contents(), earlier, sent, r.queued, queuedMs, owner)
        decreases totalChunks - nextChunk
      {
        ReceivedIsPrefix(source, nextChunk);
        if queue.size >= WINDOW { return r.(blocked := true); }
        var ok := SendNext(queue, queuedMs);
        if !ok { return r.(blocked := true); }
        r := r.(queued := r.queued + 1);
        if nextChunk == totalChunks {
          ReceivedIsPrefix(source, nextChunk);
          return r.(completed := true);
        }
      }
    }
  }

  /** A pump appends `n` chunks to the queue and the same ones to the sent chunks, and never
      beyond the window. */
  predicate Grown(before: seq<QueuedReport>, after: seq<QueuedReport>, earlier: seq<seq<byte>>, sent: seq<seq<byte>>,
                  n: nat, queuedMs: u32, owner: BleOwner) {
    && |after| == |before| + n && before <= after && |after| <= Max(|before|, WINDOW)
    && |sent| == |earlier| + n && earlier <= sent
    && forall k | |before| <= k < |after| ::
         after[k].report == TextReport(sent[k - |before| + |earlier|], queuedMs, owner)
  }

  function TextReport(data: seq<byte>, queuedMs: u32, owner: BleOwner): Report {
    Report(TEXT_REPORT, data, queuedMs, AppCommand, owner, 0)
  }
}
