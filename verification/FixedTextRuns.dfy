/** Texts streamed one after another through a queue that other traffic uses too. */
module FixedTextRuns {
  import opened Bytes
  import opened HidQueue
  import opened FixedText

  datatype Text = Text(bytes: seq<byte>, owner: BleOwner)

  /** A report the queue took: a chunk of the `text`-th started text, or other traffic. */
  datatype Entry = Chunk(text: nat, report: Report) | Other(report: Report)

  predicate IsChunkOf(entry: Entry, text: nat) { entry.Chunk? && entry.text == text }

  /** The chunks of one text, in the order the queue took them. */
  function Chunks(log: seq<Entry>, text: nat): seq<seq<byte>> {
    if log == [] then []
    else
      Chunks(log[..|log| - 1], text) +
      (if IsChunkOf(log[|log| - 1], text) then [log[|log| - 1].report.data] else [])
  }

  lemma {:induction false} PrefixChunks(log: seq<Entry>, n: nat, text: nat)
    requires n <= |log|
    ensures Chunks(log[..n], text) <= Chunks(log, text)
  {
    if n < |log| {
      PrefixChunks(log[..|log| - 1], n, text);
      assert log[..|log| - 1][..n] == log[..n];
    } else {
      assert log[..n] == log;
    }
  }

  lemma ChunksOfLast(log: seq<Entry>, entry: Entry, text: nat)
    ensures Chunks(log + [entry], text) == Chunks(log, text) + (if IsChunkOf(entry, text) then [entry.report.data] else [])
  {
    assert (log + [entry])[..|log|] == log;
  }

  /** New reports of the queue as chunks of one text. */
  function AsChunks(text: nat, reports: seq<QueuedReport>): (entries: seq<Entry>)
    ensures |entries| == |reports| && forall i | 0 <= i < |reports| :: entries[i] == Chunk(text, reports[i].report)
  {
    seq(|reports|, i requires 0 <= i < |reports| => Chunk(text, reports[i].report))
  }

  lemma {:induction false} ChunksOfAll(log: seq<Entry>, reports: seq<QueuedReport>, text: nat, data: seq<seq<byte>>, k: nat)
    requires |data| == |reports| && forall i | 0 <= i < |reports| :: reports[i].report.data == data[i]
    ensures Chunks(log + AsChunks(text, reports), k) == Chunks(log, k) + (if k == text then data else [])
  {
    hide Chunks;
    if reports == [] {
      assert log + AsChunks(text, reports) == log;
    } else {
      var n := |reports| - 1;
      ChunksOfAll(log, reports[..n], text, data[..n], k);
      assert log + AsChunks(text, reports) == (log + AsChunks(text, reports[..n])) + [Chunk(text, reports[n].report)];
      ChunksOfLast(log + AsChunks(text, reports[..n]), Chunk(text, reports[n].report), k);
      assert data == data[..n] + [data[n]];
    }
  }

  /** The first chunks of a text are received as a prefix of it. */
  lemma FewerChunks(bytes: seq<byte>, n: nat, chunks: seq<seq<byte>>)
    requires n <= ChunkCount(|bytes|) && chunks <= ChunksOf(bytes, n)
    ensures Receive(chunks) == Some(bytes[..Min(|chunks| * CHUNK, |bytes|)])
  {
    hide ChunkData, ChunkCount, Receive;
    assert chunks == ChunksOf(bytes, |chunks|);
    ReceivedIsPrefix(bytes, |chunks|);
  }

  /** What has not left for the host yet is what the queue holds, in order. */
  predicate Waiting(log: seq<Entry>, sent: nat, queue: seq<QueuedReport>) {
    sent + |queue| == |log| && forall i | 0 <= i < |queue| :: queue[i].report == log[sent + i].report
  }

  lemma WaitingGrows(log: seq<Entry>, sent: nat, before: seq<QueuedReport>, after: seq<QueuedReport>, text: nat)
    requires Waiting(log, sent, before) && before <= after
    ensures Waiting(log + AsChunks(text, after[|before|..]), sent, after)
  {
  }

  lemma WaitingPops(log: seq<Entry>, sent: nat, queue: seq<QueuedReport>)
    requires Waiting(log, sent, queue)
    ensures queue != [] <==> sent < |log|
    ensures queue != [] ==> Waiting(log, sent + 1, queue[1..])
  {
  }

  lemma WaitingOther(log: seq<Entry>, sent: nat, queue: seq<QueuedReport>, added: QueuedReport)
    requires Waiting(log, sent, queue)
    ensures Waiting(log + [Other(added.report)], sent, queue + [added])
  {
  }

  lemma NewReports(before: seq<QueuedReport>, after: seq<QueuedReport>, earlier: seq<seq<byte>>, chunks: seq<seq<byte>>,
                   n: nat, queuedMs: u32, owner: BleOwner)
    requires Grown(before, after, earlier, chunks, n, queuedMs, owner)
    ensures before <= after && earlier <= chunks && |chunks| == |earlier| + |after[|before|..]|
    ensures forall i | 0 <= i < |after[|before|..]| ::
              after[|before|..][i].report.data == chunks[|earlier| + i] && after[|before|..][i].report.owner == owner
  {
  }

  // ---------- What an event does ----------

  /** Every text started, and how long the log was when it ended; everything the queue took,
      and how much of it has left for the host. */
  datatype Picture = Picture(texts: seq<Text>, ended: seq<nat>, log: seq<Entry>, sent: nat) {
    predicate Pending() { |ended| < |texts| }
    function Waiting(): int { |log| - sent }
  }

  datatype Event =
    | Starts(bytes: seq<byte>, owner: BleOwner)
    | Pumps(current: BleOwner, queuedMs: u32)
    | Pushes(report: Report)
    | Sends

  /** The queue as the log has it; sequence numbers play no part in admission. */
  function QueueOf(log: seq<Entry>, sent: nat): (queue: seq<QueuedReport>)
    ensures |queue| == if sent <= |log| then |log| - sent else 0
  {
    if sent > |log| then []
    else seq(|log| - sent, i requires 0 <= i < |log| - sent => QueuedReport(0, log[sent + i].report))
  }

  /** One pump: the rest of the text as far as the window has room, or its end when the
      connection has another owner. */
  function Pumped(p: Picture, current: BleOwner, queuedMs: u32): Picture {
    if !p.Pending() then p
    else
      var last := |p.texts| - 1;
      var text := p.texts[last];
      var done := |Chunks(p.log, last)|;
      if !OwnerValid(current) || current != text.owner then p.(ended := p.ended + [|p.log|])
      else
        var n := Max(0, Min(ChunkCount(|text.bytes|) - done, WINDOW - p.Waiting()));
        var log := p.log + NewChunks(last, text, done, n, queuedMs);
        p.(log := log, ended := if done + n >= ChunkCount(|text.bytes|) then p.ended + [|log|] else p.ended)
  }

  /** Chunks `done..done + n` of the text, as the queue takes them. */
  function NewChunks(last: nat, text: Text, done: nat, n: nat, queuedMs: u32): (entries: seq<Entry>)
    ensures |entries| == n
  {
    seq(n, i requires 0 <= i < n =>
      Chunk(last, TextReport(if done + i < ChunkCount(|text.bytes|) then ChunkData(text.bytes, done + i) else [], queuedMs, text.owner)))
  }

  function Next(p: Picture, event: Event): Picture {
    match event
    case Starts(bytes, owner) =>
      if p.Pending() || bytes == [] || !OwnerValid(owner) || |bytes| > MAX_TEXT then p
      else p.(texts := p.texts + [Text(bytes, owner)])
    case Pumps(current, queuedMs) => Pumped(p, current, queuedMs)
    case Pushes(report) =>
      if ClassifiedOutcome(QueueOf(p.log, p.sent), report).Queued? then p.(log := p.log + [Other(report)]) else p
    case Sends => if p.sent < |p.log| then p.(sent := p.sent + 1) else p
  }

  /** Where a run of events ends. */
  function After(events: seq<Event>): Picture {
    if events == [] then Picture([], [], [], 0)
    else Next(After(events[..|events| - 1]), events[|events| - 1])
  }

  /** Admission looks at the reports only. */
  lemma SameOutcome(log: seq<Entry>, sent: nat, queue: seq<QueuedReport>, report: Report)
    requires Waiting(log, sent, queue)
    ensures ClassifiedOutcome(QueueOf(log, sent), report) == ClassifiedOutcome(queue, report)
  {
  }

  /** Chunks wait only among the first reports of the queue. */
  predicate Windowed(log: seq<Entry>, sent: nat) { forall i | sent + WINDOW <= i < |log| :: !log[i].Chunk? }

  lemma StaysWindowed(log: seq<Entry>, sent: nat, text: nat, reports: seq<QueuedReport>)
    requires Windowed(log, sent) && (reports != [] ==> |log| + |reports| <= sent + WINDOW)
    ensures Windowed(log + AsChunks(text, reports), sent)
  {
  }

  /** Where chunks are waiting. */
  function WaitingChunks(log: seq<Entry>, sent: nat): set<nat> { set i: nat | sent <= i < |log| && log[i].Chunk? }

  lemma FewChunksWait(log: seq<Entry>, sent: nat)
    requires Windowed(log, sent)
    ensures |WaitingChunks(log, sent)| <= WINDOW
  {
    assert WaitingChunks(log, sent) <= {sent, sent + 1};
    Fewer(WaitingChunks(log, sent), {sent, sent + 1});
  }

  /** What a pump of the stream says is what `Pumped` says. */
  lemma PumpIsNext(p: Picture, before: seq<QueuedReport>, after: seq<QueuedReport>, chunks: seq<seq<byte>>, r: PumpResult,
                   current: BleOwner, queuedMs: u32)
    requires p.Pending() && Waiting(p.log, p.sent, before)
    requires r.ownerChanged <==> (!OwnerValid(current) || current != p.texts[|p.texts| - 1].owner)
    requires var text := p.texts[|p.texts| - 1];
             && |chunks| <= ChunkCount(|text.bytes|) && chunks == ChunksOf(text.bytes, |chunks|)
             && Grown(before, after, Chunks(p.log, |p.texts| - 1), chunks, r.queued, queuedMs, text.owner)
             && (r.ownerChanged ==> r.queued == 0)
             && (!r.ownerChanged ==> r.blocked || r.completed)
             && (r.blocked ==> |after| >= WINDOW && |chunks| < ChunkCount(|text.bytes|))
             && (r.completed ==> |chunks| == ChunkCount(|text.bytes|))
    ensures var log := p.log + AsChunks(|p.texts| - 1, after[|before|..]);
            Pumped(p, current, queuedMs) == p.(log := log, ended := if r.ownerChanged || r.completed then p.ended + [|log|] else p.ended)
  {
    hide Chunks, ChunkData, ChunkCount;
    var last := |p.texts| - 1;
    var text, done := p.texts[last], |Chunks(p.log, last)|;
    assert AsChunks(last, after[|before|..]) == NewChunks(last, text, done, r.queued, queuedMs) by {
      forall i | 0 <= i < r.queued
        ensures AsChunks(last, after[|before|..])[i] == NewChunks(last, text, done, r.queued, queuedMs)[i]
      {
        assert after[|before|..][i] == after[|before| + i];
      }
    }
    if r.ownerChanged { assert p.log + AsChunks(last, after[|before|..]) == p.log; }
  }

  class SharedLink {
    const stream: BleFixedTextStream
    const queue: HidReportQueue
    ghost var now: Picture

    ghost predicate Valid()
      reads this, stream, queue, queue.reports
    {
      && stream.Valid() && queue.Valid()
      && Waiting(now.log, now.sent, queue.Contents()) && Windowed(now.log, now.sent)
      && Recorded(now.log, now.texts, now.ended)
      && |now.ended| == (if stream.Pending() then |now.texts| - 1 else |now.texts|)
      && (now.texts != [] ==>
            && var last := |now.texts| - 1;
            && stream.source == now.texts[last].bytes && stream.sourceOwner == now.texts[last].owner
            && stream.sent == Chunks(now.log, last))
      && (now.texts == [] ==> !stream.Pending())
    }

    constructor ()
      ensures Valid() && fresh(stream) && fresh(queue) && fresh(queue.reports)
      ensures now == After([])
    {
      stream := new BleFixedTextStream();
      queue := new HidReportQueue();
      now := After([]);
    }

    method Start(bytes: seq<byte>, owner: BleOwner) returns (status: StartStatus)
      requires Valid()
      modifies this`now, stream
      ensures Valid() && now == Next(old(now), Starts(bytes, owner))
      ensures status.Started? <==> |now.texts| > |old(now).texts|
    {
      hide Chunks, ChunksOf, ChunkCount, Window, SequenceBefore;
      status := stream.Start(bytes, owner);
      if status.Started? {
        NoChunksYet(now.log, |now.texts|);
        now := now.(texts := now.texts + [Text(bytes, owner)]);
      }
    }

    /** Chunks of the current text may follow; a pump for another owner ends it. */
    method Pump(current: BleOwner, queuedMs: u32) returns (r: PumpResult)
      requires Valid()
      modifies this`now, stream, queue, queue.reports
      ensures Valid() && now == Next(old(now), Pumps(current, queuedMs))
      ensures |now.log| == |old(now).log| + r.queued
    {
      hide Chunks, ChunksOf, ChunkCount, Window, SequenceBefore, Receive, Recorded, Waiting, Pumped;
      ghost var before, earlier, p := queue.Contents(), stream.sent, now;
      ghost var pending := stream.Pending();
      r := stream.Pump(current, queue, queuedMs);
      if pending {
        NewReports(before, queue.Contents(), earlier, stream.sent, r.queued, queuedMs, stream.sourceOwner);
        ghost var last, reports := |p.texts| - 1, queue.Contents()[|before|..];
        PumpIsNext(p, before, queue.Contents(), stream.sent, r, current, queuedMs);
        WaitingGrows(p.log, p.sent, before, queue.Contents(), last);
        WaitingLength(p.log, p.sent, before);
        StaysWindowed(p.log, p.sent, last, reports);
        TextGrows(p.log, reports, p.texts, p.ended, earlier, stream.sent);
        now := p.(log := p.log + AsChunks(last, reports));
        if !stream.Pending() {
          Ends(now.log, now.texts, now.ended);
          now := now.(ended := now.ended + [|now.log|]);
        }
      } else {
        IdlePump(p, current, queuedMs);
      }
    }

    /** Traffic of other producers: at most the window's worth of chunks is ahead of it. */
    method Push(report: Report) returns (status: PushStatus)
      requires Valid()
      modifies this`now, queue, queue.reports
      ensures Valid() && now == Next(old(now), Pushes(report))
      ensures status.Queued? <==> |now.log| > |old(now).log|
      ensures |WaitingChunks(old(now).log, now.sent)| <= WINDOW
    {
      hide Chunks, ChunksOf, ChunkCount, Window, SequenceBefore, ClassifiedOutcome, Recorded, Waiting, WaitingChunks;
      ghost var before := queue.Contents();
      FewChunksWait(now.log, now.sent);
      SameOutcome(now.log, now.sent, before, report);
      var sequence;
      status, sequence := queue.PushClassified(report);
      if status.Queued? {
        OtherTraffic(now.log, now.texts, now.ended, report);
        WaitingOther(now.log, now.sent, before, QueuedReport(sequence, report));
        now := now.(log := now.log + [Other(report)]);
      }
    }

    /** The oldest report leaves for the host. */
    method Send() returns (popped: bool)
      requires Valid()
      modifies this`now, queue, queue.reports
      ensures Valid() && now == Next(old(now), Sends)
      ensures popped <==> old(now).sent < |now.log|
    {
      hide Chunks, ChunksOf, ChunkCount, Window, SequenceBefore, Recorded, Waiting;
      ghost var before := queue.Contents();
      WaitingPops(now.log, now.sent, before);
      var found, report := queue.Front();
      if !found { return false; }
      popped := queue.PopIfSequence(report.sequence);
      now := now.(sent := now.sent + 1);
    }

    /** What the host has of any text is a prefix of it, received in order from the first
        chunk whatever else came between. */
    lemma HostReads(text: nat)
      requires Valid() && text < |now.texts|
      ensures now.sent <= |now.log| && HostHasPrefix(now, text)
    {
      hide Chunks, ChunksOf, ChunkCount, Window, SequenceBefore, Receive;
      PrefixChunks(now.log, now.sent, text);
      FewerChunks(now.texts[text].bytes, |Chunks(now.log, text)|, Chunks(now.log[..now.sent], text));
    }
  }

  /** The host has received a prefix of this text. */
  predicate HostHasPrefix(p: Picture, text: nat)
    requires text < |p.texts| && p.sent <= |p.log|
  {
    var chunks := Chunks(p.log[..p.sent], text);
    Receive(chunks) == Some(p.texts[text].bytes[..Min(|chunks| * CHUNK, |p.texts[text].bytes|)])
  }

  lemma WaitingLength(log: seq<Entry>, sent: nat, queue: seq<QueuedReport>)
    requires Waiting(log, sent, queue)
    ensures sent + |queue| == |log|
  {
  }

  lemma IdlePump(p: Picture, current: BleOwner, queuedMs: u32)
    requires !p.Pending()
    ensures Pumped(p, current, queuedMs) == p
  {
  }

  /** Each text has its first chunks in the log, for its own owner, and none once it ended. */
  ghost predicate Recorded(log: seq<Entry>, texts: seq<Text>, ended: seq<nat>) {
    && |ended| <= |texts|
    && (forall i | 0 <= i < |log| && log[i].Chunk? :: log[i].text < |texts| && log[i].report.owner == texts[log[i].text].owner)
    && (forall k | 0 <= k < |texts| ::
          |Chunks(log, k)| <= ChunkCount(|texts[k].bytes|) && Chunks(log, k) == ChunksOf(texts[k].bytes, |Chunks(log, k)|))
    && (forall k | 0 <= k < |ended| :: ended[k] <= |log| && forall i | ended[k] <= i < |log| :: !IsChunkOf(log[i], k))
  }

  lemma {:induction false} NoChunksYet(log: seq<Entry>, text: nat)
    requires forall i | 0 <= i < |log| :: !IsChunkOf(log[i], text)
    ensures Chunks(log, text) == []
  {
    if log != [] { NoChunksYet(log[..|log| - 1], text); }
  }

  /** The current text gains the chunks the queue just took. */
  lemma TextGrows(log: seq<Entry>, reports: seq<QueuedReport>, texts: seq<Text>, ended: seq<nat>,
                  earlier: seq<seq<byte>>, chunks: seq<seq<byte>>)
    requires Recorded(log, texts, ended) && texts != [] && |ended| == |texts| - 1
    requires earlier <= chunks && |chunks| == |earlier| + |reports| && earlier == Chunks(log, |texts| - 1)
    requires forall i | 0 <= i < |reports| ::
               reports[i].report.data == chunks[|earlier| + i] && reports[i].report.owner == texts[|texts| - 1].owner
    requires |chunks| <= ChunkCount(|texts[|texts| - 1].bytes|) && chunks == ChunksOf(texts[|texts| - 1].bytes, |chunks|)
    ensures Recorded(log + AsChunks(|texts| - 1, reports), texts, ended)
    ensures Chunks(log + AsChunks(|texts| - 1, reports), |texts| - 1) == chunks
  {
    hide Chunks, ChunksOf, ChunkCount;
    var last := |texts| - 1;
    forall k: nat ensures Chunks(log + AsChunks(last, reports), k) == if k == last then chunks else Chunks(log, k) {
      ChunksOfAll(log, reports, last, chunks[|earlier|..], k);
    }
  }

  lemma Ends(log: seq<Entry>, texts: seq<Text>, ended: seq<nat>)
    requires Recorded(log, texts, ended) && |ended| < |texts|
    ensures Recorded(log, texts, ended + [|log|])
  {
    hide Chunks, ChunksOf, ChunkCount;
  }

  lemma OtherTraffic(log: seq<Entry>, texts: seq<Text>, ended: seq<nat>, report: Report)
    requires Recorded(log, texts, ended)
    ensures Recorded(log + [Other(report)], texts, ended)
    ensures forall k :: Chunks(log + [Other(report)], k) == Chunks(log, k)
  {
    hide Chunks, ChunksOf, ChunkCount;
    forall k ensures Chunks(log + [Other(report)], k) == Chunks(log, k) { ChunksOfLast(log, Other(report), k); }
  }

  // ---------- Every run ----------

  /** Any interleaving of starts, pumps for any owner, foreign traffic and deliveries ends
      where the events say, with a prefix of each started text at the host and chunks waiting
      within the window only. */
  method Run(events: seq<Event>) returns (link: SharedLink)
    ensures fresh(link) && link.Valid() && link.now == After(events)
    ensures link.now.sent <= |link.now.log| && Windowed(link.now.log, link.now.sent)
    ensures forall k | 0 <= k < |link.now.texts| :: HostHasPrefix(link.now, k)
  {
    hide Chunks, ChunksOf, ChunkCount, Window, SequenceBefore, Receive, Recorded, Next, HostHasPrefix, Windowed;
    link := new SharedLink();
    for i := 0 to |events|
      invariant fresh(link) && fresh(link.stream) && fresh(link.queue) && fresh(link.queue.reports)
      invariant link.Valid() && link.now == After(events[..i])
    {
      match events[i] {
        case Starts(bytes, owner) => var _ := link.Start(bytes, owner);
        case Pumps(current, queuedMs) => var _ := link.Pump(current, queuedMs);
        case Pushes(report) => var _ := link.Push(report);
        case Sends => var _ := link.Send();
      }
      assert events[..i + 1][..i] == events[..i];
    }
    assert events[..|events|] == events;
    forall k | 0 <= k < |link.now.texts| ensures HostHasPrefix(link.now, k) { link.HostReads(k); }
  }

  /** So on every run of events, without reference to the objects. */
  lemma {:induction false} EveryRun(events: seq<Event>)
    ensures var p := After(events); p.sent <= |p.log| && Windowed(p.log, p.sent)
  {
    hide Chunks, ChunksOf, ChunkCount, Window, Receive, ClassifiedOutcome;
    if events != [] { EveryRun(events[..|events| - 1]); }
  }
}
