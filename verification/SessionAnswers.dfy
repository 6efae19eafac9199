/** What an answer of the session tells its client, in the terms of what the client sent. */
module SessionAnswers {
  import opened Bytes
  import opened SoundFormat
  import opened PlanWire
  import opened Assemblers
  import opened Session

  // ---------- Answers to frames ----------

  predicate SameRequest(request: Session.Request, route: Route, frame: Frame) {
    && request.route == route && request.requestId == frame.requestId
    && request.opcode == frame.opcode && request.cookie == frame.cookie
  }

  /** A retained success of exactly this request key. */
  predicate Retained(s: State, route: Route, frame: Frame, reply: Reply) {
    exists i | 0 <= i < |s.replay| ::
      s.replay[i].Some? && s.replay[i].value.reply == reply && SameRequest(s.replay[i].value.request, route, frame)
  }

  /** The open assembly now holds the bytes of the frame, at the place the frame gives them. */
  predicate Holds(partial: Partial, offset: nat, body: seq<byte>) {
    offset + |body| <= |partial| && forall i | 0 <= i < |body| :: partial[offset + i] == Some(body[i])
  }

  /** A client that hears Fine asked for the capabilities, hears an earlier success again, or
      sent bytes that were taken. Nothing else is ever answered Fine before its action ran. */
  lemma FineMeans(digest: Fingerprint, s: State, route: Route, frame: Frame, out: Emission, t: State)
    requires TakesFrame(digest, s, route, frame, out, t) && out.Replied? && out.reply.status.Fine?
    ensures !frame.flags.unknown && !frame.flags.response && !frame.flags.error
    ensures match frame.opcode
            case Capabilities => out.reply == Reply(Capabilities, Fine, frame.requestId, 0, 0, CapabilityBody)
            case Begin => Retained(s, route, frame, out.reply) || TookPlan(frame, out, t)
            case Recover => Retained(s, route, frame, out.reply) || TookPlan(frame, out, t)
            case Data => Retained(s, route, frame, out.reply) || TookUnit(s, frame, out, t)
            case UnknownOpcode => false
            case _ => Retained(s, route, frame, out.reply) && s.pending.None? && frame.flags == SINGLE_FRAME
  {
    hide DecodePlan, Verdict, Step, LookupReplay, MissingBody, FirstMissing, PlaceOf, Whole;
    match frame.opcode
    case Begin => PlanFine(digest, s, route, frame, DoBegin, out, t);
    case Recover => PlanFine(digest, s, route, frame, DoDiscard, out, t);
    case Data => DataFine(digest, s, route, frame, out, t);
    case Capabilities =>
    case UnknownOpcode =>
    case _ =>
      assert Serves(digest, s, route, frame, out, t);
      ExactIsRetained(s, route, frame, FrameRequest(digest, route, frame));
  }

  predicate TookPlan(frame: Frame, out: Emission, t: State) {
    t.phase.BeginAssembly? && t.plan.Some? && Holds(t.plan.value.partial, frame.offset, frame.body)
    && out.Replied? && out.reply.body.Missing? && out.reply.cookie == 0
  }

  predicate TookUnit(s: State, frame: Frame, out: Emission, t: State) {
    && t.phase.UnitAssembly? && t.unit.Some? && s.PlaceNow(frame).Some?
    && Holds(t.unit.value.partial, s.PlaceNow(frame).value.offset, frame.body)
    && out.Replied? && out.reply.body.Missing? && out.reply.cookie == frame.cookie
  }

  lemma ExactIsRetained(s: State, route: Route, frame: Frame, request: Session.Request)
    requires SameRequest(request, route, frame)
    ensures var found := LookupReplay(s.replay, request);
            found.Exact? ==> Retained(s, route, frame, found.reply)
  {
    hide LookupReplay;
    var found := LookupReplay(s.replay, request);
    if found.Exact? {
      var i :| 0 <= i < |s.replay| && s.replay[i] == Some(ReplayEntry(request, found.reply));
      assert s.replay[i].Some? && s.replay[i].value.reply == found.reply;
    }
  }

  lemma AcceptedHolds(partial: Partial, f: Fragment)
    requires Verdict(partial, f).Accepted?
    ensures Holds(Assemblers.Step(partial, f), f.offset, f.data)
  {
    forall i | 0 <= i < |f.data| ensures Assemblers.Step(partial, f)[f.offset + i] == Some(f.data[i]) {
      assert Covers(f, f.offset + i);
    }
  }

  lemma PlanFine(digest: Fingerprint, s: State, route: Route, frame: Frame, kind: ActionKind, out: Emission, t: State)
    requires TakesPlan(digest, s, route, frame, kind, out, t) && out.Replied? && out.reply.status.Fine?
    ensures Retained(s, route, frame, out.reply) || TookPlan(frame, out, t)
  {
    hide DecodePlan, Verdict, Assemblers.Step, LookupReplay, MissingBody, Whole, Holds;
    if s.PlanJoins(route, frame, kind) {
      var parts := s.PlanAfter(route, frame);
      AcceptedHolds(s.PlanBefore(route, frame).partial, Fragment(frame.offset, frame.body));
      if PlanWhole(parts) {
        var decoded := DecodePlan(Known(parts.partial));
        if decoded.Decoded? { ExactIsRetained(s, route, frame, PlanRequest(digest, route, frame, decoded.plan)); }
      } else {
        MissingIsMissing(parts.partial);
      }
    }
  }

  lemma DataFine(digest: Fingerprint, s: State, route: Route, frame: Frame, out: Emission, t: State)
    requires TakesData(digest, s, route, frame, out, t) && out.Replied? && out.reply.status.Fine?
    ensures Retained(s, route, frame, out.reply) || TookUnit(s, frame, out, t)
  {
    hide DecodePlan, Verdict, Assemblers.Step, LookupReplay, MissingBody, Whole, Holds, PlaceOf;
    if s.DataJoins(route, frame) {
      var place := s.PlaceNow(frame).value;
      var parts := s.UnitAfter(place, frame);
      AcceptedHolds(s.UnitBefore(place, frame).partial, Fragment(place.offset, frame.body));
      if UnitWhole(parts) {
        ExactIsRetained(s, route, frame, UnitRequest(digest, route, frame, parts));
      } else {
        MissingIsMissing(parts.partial);
      }
    }
  }

  lemma MissingIsMissing(partial: Partial)
    ensures MissingBody(partial).Missing?
  {
  }

  /** No retained success has the key of this request. */
  predicate NewRequest(s: State, route: Route, frame: Frame) {
    forall i | 0 <= i < |s.replay| && s.replay[i].Some? ::
      || s.replay[i].value.request.route != route || s.replay[i].value.request.requestId != frame.requestId
      || s.replay[i].value.request.cookie != frame.cookie
  }

  /** A frame of a real route that claims to be a request. */
  predicate Genuine(route: Route, frame: Frame) {
    && route.generation != 0 && (route.transport.Wifi? || (route.transport.Usb? && route.routeId == 0))
    && frame.requestId != 0 && |frame.body| <= 101
    && !frame.flags.unknown && !frame.flags.response && !frame.flags.error
  }

  predicate Alone(frame: Frame) { frame.flags == Flags(false, false, true, true, true, false, false) && frame.offset == 0 }

  function Refusal(frame: Frame, status: Status, cookie: u32): Emission {
    Replied(Reply(frame.opcode, status, frame.requestId, cookie, frame.offset, NoBody))
  }

  /** A new commit, abort or query acts exactly in the session of its own route and cookie, on
      the transaction of that session; otherwise it is told why not, and nothing happens. */
  lemma BoundAnswer(digest: Fingerprint, s: State, route: Route, frame: Frame, out: Emission, t: State)
    requires TakesFrame(digest, s, route, frame, out, t) && s.pending.None? && Genuine(route, frame) && NewRequest(s, route, frame)
    requires frame.opcode.Commit? || frame.opcode.Abort? || frame.opcode.Query?
    ensures if !Alone(frame) || frame.body != [] then out == Refusal(frame, BadRequest, frame.cookie)
            else if s.phase.Ready? && s.binding.Some? && s.binding.value.route == route && s.binding.value.cookie == frame.cookie then
              && out.Acted? && out.action.expected == s.binding.value.progress.identity
              && out.action.kind == match frame.opcode case Commit => DoCommit case Abort => DoAbort case _ => DoResumeQuery
            else out == Refusal(frame, Status.TransactionMismatch, frame.cookie)
    ensures !out.Acted? ==> t.pending.None? && t.phase == s.phase && t.binding == s.binding
  {
    hide LookupReplay;
    assert LookupReplay(s.replay, FrameRequest(digest, route, frame)).Miss?;
  }

  /** The two questions that need no session are asked of the store exactly while nothing
      else is going on. */
  lemma UnboundAnswer(digest: Fingerprint, s: State, route: Route, frame: Frame, out: Emission, t: State)
    requires TakesFrame(digest, s, route, frame, out, t) && s.pending.None? && Genuine(route, frame) && NewRequest(s, route, frame)
    requires frame.opcode.CurrentActive? || frame.opcode.Resume?
    ensures var shaped := Alone(frame) && frame.cookie == 0
                          && if frame.opcode.Resume? then |frame.body| == 16 && exists i | 0 <= i < 16 :: frame.body[i] != 0
                             else frame.body == [];
            if !shaped then out == Refusal(frame, BadRequest, 0)
            else if !s.phase.Idle? then out == Refusal(frame, Status.Busy, 0)
            else
              && out.Acted?
              && (frame.opcode.CurrentActive? ==> out.action.kind.DoQueryActive?)
              && (frame.opcode.Resume? ==> out.action.kind.DoResumeQuery? && out.action.expected.transaction == frame.body)
    ensures !out.Acted? ==> t.pending.None? && t.phase == s.phase && t.binding == s.binding
  {
    hide LookupReplay;
    assert LookupReplay(s.replay, FrameRequest(digest, route, frame)).Miss?;
  }

  /** What is not a request at all: without a live route or a request id, or too long, it gets
      no answer; with flags of an answer or unknown ones it is a bad request. Neither changes
      anything. */
  lemma MalformedAnswer(digest: Fingerprint, s: State, route: Route, frame: Frame, out: Emission, t: State)
    requires TakesFrame(digest, s, route, frame, out, t) && !Genuine(route, frame)
    ensures t == s
    ensures (|| route.generation == 0 || route.transport.Legacy? || (route.transport.Usb? && route.routeId != 0)
             || frame.requestId == 0 || |frame.body| > 101) ==> out.Nothing?
    ensures out.Nothing? || out == Refusal(frame, BadRequest, frame.cookie)
    ensures out.Replied? ==> frame.flags.unknown || frame.flags.response || frame.flags.error
  {
    hide Serves, Consumes;
  }

  /** While an action runs every other request is told Busy, whoever sends it; only the
      capabilities are still told. */
  lemma BusyWhilePending(digest: Fingerprint, s: State, route: Route, frame: Frame, out: Emission, t: State)
    requires TakesFrame(digest, s, route, frame, out, t) && s.pending.Some? && Genuine(route, frame)
    ensures t == s
    ensures !frame.opcode.Capabilities? ==> out == Refusal(frame, Status.Busy, frame.cookie)
    ensures frame.opcode.Capabilities? ==>
              out == if Alone(frame) && frame.cookie == 0 && frame.body == []
                     then Replied(Reply(Capabilities, Fine, frame.requestId, 0, 0, CapabilityBody))
                     else Refusal(frame, BadRequest, 0)
  {
    hide LookupReplay;
  }

  /** A fragment of a plan that is not taken: what its client hears, by what is wrong. */
  lemma PlanAnswer(digest: Fingerprint, s: State, route: Route, frame: Frame, out: Emission, t: State)
    requires TakesFrame(digest, s, route, frame, out, t) && s.pending.None? && Genuine(route, frame)
    requires frame.opcode.Begin? || frame.opcode.Recover?
    ensures frame.flags.payload || !frame.flags.ack || frame.cookie != 0 || frame.body == [] || frame.offset + |frame.body| > 640
            || (frame.flags.first <==> frame.offset != 0) || (frame.flags.last <==> frame.offset + |frame.body| != 640)
            ==> out == Refusal(frame, BadRequest, 0) && t.phase == s.phase
    ensures PlanFrameShaped(frame) ==>
              match s.phase
              case UnitAssembly => out == Refusal(frame, Status.Busy, 0)
              case Ready =>
                frame.opcode.Recover? || s.binding.None? || s.binding.value.route != route || !frame.flags.first ==>
                  out == Refusal(frame, Status.Busy, 0)
              case Idle => !frame.flags.first ==> out == Refusal(frame, BadRequest, 0)
              case BeginAssembly =>
                && ((s.planKind.DoBegin? && frame.opcode.Recover?) || (s.planKind.DoDiscard? && frame.opcode.Begin?) ==>
                      out == Refusal(frame, Status.Busy, 0))
                && (s.plan.Some? && (s.plan.value.owner != route || s.plan.value.beginId != frame.requestId)
                    && ((s.planKind.DoBegin? && frame.opcode.Begin?) || (s.planKind.DoDiscard? && frame.opcode.Recover?)) ==>
                      out == Refusal(frame, BadRequest, 0))
              case ActionPending => true
  {
    hide DecodePlan, Verdict, Assemblers.Step, LookupReplay, MissingBody, FirstMissing, Whole, FinishesPlan;
  }

  /** A fragment of a unit that is not taken. */
  lemma DataAnswer(digest: Fingerprint, s: State, route: Route, frame: Frame, out: Emission, t: State)
    requires TakesFrame(digest, s, route, frame, out, t) && s.pending.None? && Genuine(route, frame) && frame.opcode.Data?
    ensures s.binding.None? || s.binding.value.route != route || s.binding.value.cookie != frame.cookie ==>
              out == Refusal(frame, Status.TransactionMismatch, frame.cookie)
    ensures s.binding.Some? && s.binding.value.route == route && s.binding.value.cookie == frame.cookie ==>
              var place := PlaceOf(s.binding.value.progress, frame.flags.payload, frame.offset);
              if !frame.flags.ack || frame.body == [] || (!s.phase.Ready? && !s.phase.UnitAssembly?) || place.None?
                 || place.value.offset + |frame.body| > place.value.expected || place.value.expected == 0
                 || (frame.flags.first <==> place.value.offset != 0)
                 || (frame.flags.last <==> place.value.offset + |frame.body| != place.value.expected)
              then out == Refusal(frame, BadRequest, frame.cookie)
              else
                && (s.phase.Ready? && !frame.flags.first ==> out == Refusal(frame, BadRequest, frame.cookie))
                && (s.phase.UnitAssembly? && s.unit.Some?
                    && (s.unit.value.requestId != frame.requestId || s.unit.value.region != place.value.region
                        || s.unit.value.unitIndex != place.value.unitIndex) ==>
                      out == Refusal(frame, Status.Busy, frame.cookie))
  {
    hide Verdict, Assemblers.Step, LookupReplay, MissingBody, FirstMissing, Whole, FinishesUnit, PlaceOf;
  }

  // ---------- Where data goes, and what is still missing ----------

  /** The unit of a data frame is the manifest, or the block of 4096 bytes its offset lies in;
      the byte at `offset` of the object is the byte at `place.offset` of the unit. */
  lemma PlaceMeans(progress: Progress, payload: bool, offset: nat)
    requires ProgressWellFormed(progress)
    ensures var size := if payload then progress.payloadBytes else progress.manifestBytes;
            var place := PlaceOf(progress, payload, offset);
            && (place.Some? <==> offset < size)
            && (place.Some? ==>
                  && (place.value.region.PayloadRegion? <==> payload)
                  && place.value.base + place.value.offset == offset && place.value.offset < place.value.expected <= 4096
                  && place.value.base == 4096 * place.value.unitIndex && place.value.base + place.value.expected <= size
                  && (place.value.expected < 4096 ==> place.value.base + place.value.expected == size)
                  && (!payload ==> place.value.unitIndex == 0 && place.value.expected == size))
  {
  }

  /** The acknowledgement: everything before its first byte was received, its bits say which
      bytes after that were, and the first missing one is among the first eight. */
  lemma MissingMeans(partial: Partial)
    requires |partial| <= 4096
    ensures var body := MissingBody(partial);
            && body.Missing? && 8 * body.bitmapOffset <= |partial| && |body.bitmap| <= 280
            && (forall i | 0 <= i < 8 * body.bitmapOffset :: partial[i].Some?)
            && (forall i | 0 <= i < |body.bitmap| ::
                  body.bitmap[i] <==> 8 * body.bitmapOffset + i < |partial| && partial[8 * body.bitmapOffset + i].Some?)
            && (!Whole(partial) ==> exists i | 0 <= i < 8 :: i < |body.bitmap| && !body.bitmap[i] && 8 * body.bitmapOffset + i < |partial|)
  {
    var first := FirstMissing(partial, 0);
    var body := MissingBody(partial);
    assert 8 * body.bitmapOffset <= first;
    if !Whole(partial) {
      var i := first - 8 * body.bitmapOffset;
      assert i < 8 && i < |body.bitmap| && !body.bitmap[i];
    }
  }

  // ---------- Answers to completions ----------

  /** Nine classes of store results keep a status of their own; the rest are told apart by
      what a client can do about them. */
  lemma StatusMeans(r: StoreResult)
    ensures StatusOf(r).Fine? <==> r.Ok?
    ensures StatusOf(r).IntegrityError? <==> r.InvalidBank? || r.InvalidManifest? || r.CrcMismatch? || r.HashMismatch?
    ensures StatusOf(r).StorageUnavailable? <==> r.Unavailable? || r.IoError? || r.FactoryBlank?
    ensures StatusOf(r).RecoveryRequired? <==> r.InvalidStaging?
    ensures StatusOf(r).BadRequest? <==> r.InvalidArgument?
    ensures StatusOf(r).Incomplete? <==> r.Incomplete?
    ensures StatusOf(r).Busy? <==> r.Busy?
    ensures StatusOf(r).BankPinned? <==> r.BankPinned?
    ensures StatusOf(r).StaleBase? <==> r.StaleBase?
    ensures StatusOf(r).GenerationExhausted? <==> r.GenerationExhausted?
    ensures StatusOf(r).TransactionMismatch? <==> r.TransactionMismatch?
    ensures StatusOf(r).SplitBrain? <==> r.SplitBrain?
    ensures !StatusOf(r).InternalError? && !StatusOf(r).PausedForInput?
  {
  }

  /** What the client of a successful action hears, and the session it then has. */
  lemma SuccessMeans(s: State, c: Completion, out: Emission, t: State)
    requires Completes(s, c, out, t) && out.Replied? && out.reply.status.Fine?
    ensures c.result.Ok? && s.pending.Some? && s.pending.value.token == c.token && s.pending.value.kind == c.kind
    ensures var p, reply := s.pending.value, out.reply;
            && reply.requestId == p.request.requestId && reply.opcode == p.request.opcode
            && match c.kind
               case DoBegin =>
                 && s.decodedPlan.Some? && reply.body.IdentityBody? && DescribesPlan(reply.body.progress, s.decodedPlan.value)
                 && t.binding == Some(Binding(p.request.route, reply.cookie, reply.body.progress)) && reply.cookie == s.nextCookie
               case DoWriteManifest =>
                 && s.binding.Some? && reply.body.ProgressBody? && Further(s.binding.value.progress, reply.body.progress)
                 && reply.body.progress.manifestComplete && reply.cookie == p.request.cookie
                 && t.binding == Some(Binding(s.binding.value.route, s.binding.value.cookie, reply.body.progress))
               case DoWriteBlock =>
                 && s.binding.Some? && reply.body.ProgressBody? && Further(s.binding.value.progress, reply.body.progress)
                 && p.request.unitIndex < |reply.body.progress.blocks| && reply.body.progress.blocks[p.request.unitIndex]
                 && reply.cookie == p.request.cookie
                 && t.binding == Some(Binding(s.binding.value.route, s.binding.value.cookie, reply.body.progress))
               case DoResumeQuery =>
                 && c.identity.Some? && c.outcome.Some? && c.identity.value.transaction == p.expected.transaction
                 && (c.outcome.value.Active? && p.request.cookie == 0 ==>
                       && reply.body == IdentityBody(reply.body.progress) && reply.body.progress.identity == c.identity.value
                       && t.binding == Some(Binding(p.request.route, reply.cookie, reply.body.progress)) && reply.cookie == s.nextCookie)
                 && (c.outcome.value.Active? && p.request.cookie != 0 ==>
                       s.binding.Some? && reply.body.ProgressBody? && Further(s.binding.value.progress, reply.body.progress))
                 && (!c.outcome.value.Active? ==>
                       && p.request.cookie == 0 && t.binding.None? && reply.body.OutcomeBody? && reply.body.outcome == c.outcome.value
                       && reply.body.identity == c.identity.value
                       && (c.outcome.value.Committed? <==> reply.body.identity.generation != 0))
               case DoQueryActive => c.currentActive.Some? && reply.body == ActiveBody(c.currentActive.value) && t.binding.None?
               case _ => reply.body.NoBody? && t.binding.None?
  {
  }

  predicate DescribesPlan(told: Progress, plan: Plan) {
    && told.manifestBytes == plan.manifestBytes && told.payloadBytes == plan.payloadBytes && told.bundleSha == plan.bundleSha
    && told.identity.generation != 0 && (exists i | 0 <= i < |told.identity.transaction| :: told.identity.transaction[i] != 0)
    && told.blockCount == (plan.payloadBytes + 4095) / 4096 && |told.blocks| == 128
    && forall i | told.blockCount <= i < 128 :: !told.blocks[i]
  }

  /** The same transaction, sizes and digest, and nothing complete is incomplete again. */
  predicate Further(before: Progress, told: Progress) {
    && told.identity == before.identity && told.manifestBytes == before.manifestBytes && told.payloadBytes == before.payloadBytes
    && told.bundleSha == before.bundleSha && (before.manifestComplete ==> told.manifestComplete)
    && |told.blocks| == |before.blocks| == 128 && forall i | 0 <= i < 128 && before.blocks[i] :: told.blocks[i]
  }

  /** What the client of a failed action hears: the class of the error, for its own request. */
  lemma FailureMeans(s: State, c: Completion, out: Emission, t: State)
    requires Completes(s, c, out, t) && s.pending.Some? && s.pending.value.token == c.token && s.pending.value.kind == c.kind
    requires !s.pending.value.orphaned && !c.result.Ok?
    ensures var p := s.pending.value;
            out == Replied(Reply(p.request.opcode, StatusOf(c.result), p.request.requestId, p.request.cookie, p.offset, NoBody))
    ensures !StatusOf(c.result).Fine? && t.replay == s.replay && t.pending.None?
    ensures t.binding == match c.kind
                         case DoWriteManifest => s.binding
                         case DoWriteBlock => s.binding
                         case DoCommit => s.binding
                         case DoAbort => s.binding
                         case DoResumeQuery => if s.pending.value.request.cookie != 0 then s.binding else None
                         case _ => None
  {
  }

  // ---------- What is remembered ----------

  /** A commit is always answered as a commit. */
  predicate KindFits(s: State) {
    s.pending.Some? ==> (s.pending.value.kind.DoCommit? <==> s.pending.value.request.opcode.Commit?)
  }

  lemma FrameKeeps(digest: Fingerprint, s: State, route: Route, frame: Frame, out: Emission, t: State)
    requires TakesFrame(digest, s, route, frame, out, t) && KindFits(s)
    ensures t.replay == s.replay && KindFits(t)
  {
    hide TakesPlan, TakesData, FinishesPlan, FinishesUnit, LookupReplay, Carries, SingleShaped, KeyRetained, SameAssemblies;
    if out.Acted? {
      match frame.opcode
      case Begin => PlanKind(digest, s, route, frame, DoBegin, out, t);
      case Recover => PlanKind(digest, s, route, frame, DoDiscard, out, t);
      case Data => UnitKind(digest, s, route, frame, out, t);
      case _ =>
    }
  }

  lemma PlanKind(digest: Fingerprint, s: State, route: Route, frame: Frame, kind: ActionKind, out: Emission, t: State)
    requires TakesPlan(digest, s, route, frame, kind, out, t) && out.Acted? && !frame.opcode.Commit?
    ensures out.action.kind == kind && t.pending.Some? && !t.pending.value.request.opcode.Commit?
  {
    hide DecodePlan, LookupReplay, Verdict, Assemblers.Step, MissingBody, Whole;
  }

  lemma UnitKind(digest: Fingerprint, s: State, route: Route, frame: Frame, out: Emission, t: State)
    requires TakesData(digest, s, route, frame, out, t) && out.Acted? && !frame.opcode.Commit?
    ensures IsWrite(out.action.kind) && t.pending.Some? && !t.pending.value.request.opcode.Commit?
  {
    hide LookupReplay, Verdict, Assemblers.Step, MissingBody, Whole, PlaceOf;
  }

  lemma CompletionAdds(s: State, c: Completion, out: Emission, t: State)
    requires Completes(s, c, out, t) && KindFits(s)
    ensures KindFits(t)
    ensures t.replay == s.replay
         || (out.Replied? && out.reply.status.Fine? && s.pending.Some? && s.nextSlot < |s.replay|
             && t.replay == s.replay[s.nextSlot := Some(ReplayEntry(s.pending.value.request, out.reply))])
  {
    hide ContractMet, Session.Succeeds;
  }

  /** What is remembered only shrinks when a route goes. */
  lemma RouteKeeps(s: State, route: Route, t: State)
    requires LosesRoute(s, route, t) && KindFits(s)
    ensures KindFits(t) && |t.replay| == |s.replay| && forall i | 0 <= i < |t.replay| && t.replay[i].Some? :: t.replay[i] == s.replay[i]
  {
  }
}
