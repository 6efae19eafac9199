/** The upload protocol above the store: one logical request at a time, one borrowed action
    at a time, and a short memory of what already succeeded. */
module Session {
  import opened Bytes
  import opened Generations
  import opened Flash
  import opened SoundFormat
  import opened PlanWire
  import opened Assemblers
  import SoundStore

  type Identity = SoundStore.Identity

  const REPLAY_ENTRIES: nat := 8
  const USB_BODY: nat := 39
  const WIFI_BODY: nat := 101
  const BITMAP_MAX: nat := USB_BODY - 4

  datatype Transport = Usb | Legacy | Wifi
  datatype Route = Route(transport: Transport, routeId: u32, generation: u32)

  predicate RouteValid(route: Route) {
    route.generation != 0 && (route.transport.Wifi? || (route.transport.Usb? && route.routeId == 0))
  }

  datatype Opcode = Capabilities | Begin | Resume | Data | Query | Commit | Abort | Recover | CurrentActive | UnknownOpcode

  datatype Flags = Flags(response: bool, error: bool, ack: bool, first: bool, last: bool, payload: bool, unknown: bool)

  const SINGLE_FRAME := Flags(false, false, true, true, true, false, false)

  datatype Frame = Frame(opcode: Opcode, flags: Flags, requestId: u32, cookie: u32, offset: u32, body: seq<byte>)

  datatype Status =
    | Fine | BadRequest | IntegrityError | Busy | StaleBase | TransactionMismatch | Incomplete | StorageUnavailable
    | BankPinned | GenerationExhausted | SplitBrain | PausedForInput | InternalError | RecoveryRequired

  datatype Region = ManifestRegion | PayloadRegion

  datatype Progress = Progress(
    identity: Identity, manifestBytes: u32, payloadBytes: u32, blockCount: nat, manifestComplete: bool,
    blocks: seq<bool>, bundleSha: Digest)

  datatype Outcome = Active | Committed | NotRetained

  datatype Body =
    | NoBody
    | Missing(bitmapOffset: nat, bitmap: seq<bool>)
    | CapabilityBody
    | ActiveBody(active: Option<Snapshot>)
    | IdentityBody(progress: Progress)
    | ProgressBody(progress: Progress)
    | OutcomeBody(outcome: Outcome, identity: Identity, manifestBytes: u32, payloadBytes: u32)

  datatype Reply = Reply(opcode: Opcode, status: Status, requestId: u32, cookie: u32, offset: nat, body: Body)

  datatype ActionKind = DoBegin | DoDiscard | DoQueryActive | DoResumeQuery | DoWriteManifest | DoWriteBlock | DoCommit | DoAbort

  datatype QueryMode = ResumeOrRebind | CurrentProgress

  datatype Action = Action(
    token: u32, kind: ActionKind, route: Route, requestId: u32, cookie: u32,
    plan: Option<Plan>, expected: Identity, mode: QueryMode, bytes: seq<byte>, blockIndex: nat)

  datatype Emission = Nothing | Replied(reply: Reply) | Acted(action: Action)

  datatype SessionResult = Ok | InvalidArgument | NoPendingAction | StaleCompletion

  datatype Phase = Idle | BeginAssembly | Ready | UnitAssembly | ActionPending

  /** What a request fingerprint is taken of. */
  datatype Content = FrameContent(frame: Frame) | PlanContent(plan: Plan) | UnitContent(region: Region, index: nat, bytes: seq<byte>)

  /** The exact request an action answers. */
  datatype Request = Request(
    route: Route, cookie: u32, requestId: u32, opcode: Opcode, region: Region, unitIndex: nat, fingerprint: Digest)

  datatype Pending = Pending(orphaned: bool, kind: ActionKind, token: u32, request: Request, offset: u32, expected: Identity)

  datatype ReplayEntry = ReplayEntry(request: Request, reply: Reply)

  datatype Completion = Completion(
    token: u32, kind: ActionKind, result: StoreResult, identity: Option<Identity>, progress: Option<Progress>,
    outcome: Option<Outcome>, outcomeManifestBytes: u32, outcomePayloadBytes: u32, currentActive: Option<Option<Snapshot>>)

  const NO_IDENTITY := SoundStore.Identity(0, A, Fill(0, 16))

  // ---------- Replay memory ----------

  datatype Lookup = Miss | Exact(reply: Reply) | Conflicting

  predicate SameKey(a: Request, b: Request) { a.route == b.route && a.cookie == b.cookie && a.requestId == b.requestId }

  predicate KeyRetained(replay: seq<Option<ReplayEntry>>, request: Request) {
    exists i | 0 <= i < |replay| :: replay[i].Some? && SameKey(replay[i].value.request, request)
  }

  /** A retained success answers its exact retransmission; a changed one is a conflict. */
  function LookupReplay(replay: seq<Option<ReplayEntry>>, request: Request): (r: Lookup)
    ensures r.Miss? <==> !KeyRetained(replay, request)
    ensures r.Exact? ==> exists i | 0 <= i < |replay| :: replay[i] == Some(ReplayEntry(request, r.reply))
  {
    if exists i | 0 <= i < |replay| :: replay[i].Some? && replay[i].value.request == request
    then Exact(FirstReply(replay, request, 0))
    else if KeyRetained(replay, request) then Conflicting
    else Miss
  }

  function FirstReply(replay: seq<Option<ReplayEntry>>, request: Request, from: nat): (reply: Reply)
    requires exists i | from <= i < |replay| :: replay[i].Some? && replay[i].value.request == request
    ensures exists i | from <= i < |replay| :: replay[i] == Some(ReplayEntry(request, reply))
    decreases |replay| - from
  {
    if replay[from].Some? && replay[from].value.request == request
    then assert replay[from] == Some(ReplayEntry(request, replay[from].value.reply)); replay[from].value.reply
    else FirstReply(replay, request, from + 1)
  }

  predicate KeysDistinct(replay: seq<Option<ReplayEntry>>) {
    forall i, j | 0 <= i < j < |replay| && replay[i].Some? && replay[j].Some? ::
      !SameKey(replay[i].value.request, replay[j].value.request)
  }

  /** Which reply an exact retransmission gets does not depend on where it is stored. */
  lemma ExactReplyIsUnique(replay: seq<Option<ReplayEntry>>, i: nat)
    requires KeysDistinct(replay) && i < |replay| && replay[i].Some?
    ensures LookupReplay(replay, replay[i].value.request) == Exact(replay[i].value.reply)
  {
    var found := LookupReplay(replay, replay[i].value.request);
    var j :| 0 <= j < |replay| && replay[j] == Some(ReplayEntry(replay[i].value.request, found.reply));
    if j != i { assert SameKey(replay[i].value.request, replay[j].value.request); }
  }

  /** A changed request under a retained key never reads as a miss. */
  lemma ChangedRequestConflicts(replay: seq<Option<ReplayEntry>>, i: nat, request: Request)
    requires KeysDistinct(replay) && i < |replay| && replay[i].Some?
    requires SameKey(replay[i].value.request, request) && replay[i].value.request != request
    ensures LookupReplay(replay, request).Conflicting?
  {
    assert KeyRetained(replay, request);
  }

  function WithoutRoute(replay: seq<Option<ReplayEntry>>, route: Route): (r: seq<Option<ReplayEntry>>)
    ensures |r| == |replay|
    ensures forall i | 0 <= i < |r| ::
              r[i] == if replay[i].Some? && replay[i].value.request.route == route then None else replay[i]
  {
    seq(|replay|, i requires 0 <= i < |replay| =>
      if replay[i].Some? && replay[i].value.request.route == route then None else replay[i])
  }

  // ---------- Completions ----------

  function StatusOf(r: StoreResult): Status {
    match r
    case Ok => Fine
    case InvalidArgument => BadRequest
    case Unavailable => StorageUnavailable
    case IoError => StorageUnavailable
    case InvalidBank => IntegrityError
    case InvalidStaging => RecoveryRequired
    case InvalidManifest => IntegrityError
    case CrcMismatch => IntegrityError
    case HashMismatch => IntegrityError
    case Incomplete => Status.Incomplete
    case Busy => Status.Busy
    case BankPinned => Status.BankPinned
    case StaleBase => Status.StaleBase
    case GenerationExhausted => Status.GenerationExhausted
    case TransactionMismatch => Status.TransactionMismatch
    case SplitBrain => Status.SplitBrain
    case FactoryBlank => StorageUnavailable
  }

  predicate ProgressWellFormed(p: Progress) {
    && p.identity.generation != 0 && !AllAre(0, p.identity.transaction)
    && 32 <= p.manifestBytes <= SECTOR && p.payloadBytes <= PAYLOAD_MAX
    && p.blockCount == BlockCount(p.payloadBytes) && !AllAre(0, p.bundleSha)
    && |p.blocks| == 128 && forall i | p.blockCount <= i < 128 :: !p.blocks[i]
  }

  predicate MatchesPlan(p: Progress, plan: Plan) {
    ProgressWellFormed(p) && p.manifestBytes == plan.manifestBytes && p.payloadBytes == plan.payloadBytes
    && p.bundleSha == plan.bundleSha
  }

  /** The same transaction, and nothing that was complete is lost. */
  predicate Continues(p: Progress, current: Progress) {
    && ProgressWellFormed(p)
    && p.identity == current.identity && p.manifestBytes == current.manifestBytes && p.payloadBytes == current.payloadBytes
    && p.blockCount == current.blockCount && p.bundleSha == current.bundleSha
    && (current.manifestComplete ==> p.manifestComplete)
    && |current.blocks| == 128 && forall i | 0 <= i < 128 :: current.blocks[i] ==> p.blocks[i]
  }

  predicate ActiveWellFormed(s: Snapshot) { SnapshotShape(s) }

  predicate ResumeContract(c: Completion, pending: Pending, progress: Option<Progress>) {
    && c.outcome.Some? && c.identity.Some? && c.identity.value.transaction == pending.expected.transaction
    && match c.outcome.value
       case Active =>
         && c.progress.Some? && c.identity.value == c.progress.value.identity
         && (if pending.request.cookie == 0 then ProgressWellFormed(c.progress.value)
             else progress.Some? && Continues(c.progress.value, progress.value))
       case Committed =>
         && pending.request.cookie == 0 && c.progress.None? && c.identity.value.generation != 0
         && 32 <= c.outcomeManifestBytes <= SECTOR && c.outcomePayloadBytes <= PAYLOAD_MAX
       case NotRetained =>
         && pending.request.cookie == 0 && c.progress.None? && c.identity.value.generation == 0
         && c.outcomeManifestBytes == 0 && c.outcomePayloadBytes == 0
  }

  /** What a successful completion must carry to be believed. */
  predicate ContractMet(c: Completion, pending: Pending, plan: Option<Plan>, progress: Option<Progress>) {
    match pending.kind
    case DoBegin =>
      c.identity.Some? && c.progress.Some? && c.identity.value == c.progress.value.identity
      && plan.Some? && MatchesPlan(c.progress.value, plan.value)
    case DoQueryActive =>
      c.currentActive.Some? && (c.currentActive.value.Some? ==> ActiveWellFormed(c.currentActive.value.value))
      && c.identity.None? && c.progress.None? && c.outcome.None?
    case DoResumeQuery => ResumeContract(c, pending, progress)
    case DoWriteManifest =>
      c.progress.Some? && progress.Some? && Continues(c.progress.value, progress.value) && c.progress.value.manifestComplete
    case DoWriteBlock =>
      c.progress.Some? && progress.Some? && Continues(c.progress.value, progress.value)
      && pending.request.unitIndex < c.progress.value.blockCount && c.progress.value.blocks[pending.request.unitIndex]
    case DoDiscard => true
    case DoCommit => true
    case DoAbort => true
  }

  function StatusReply(opcode: Opcode, requestId: u32, offset: nat, status: Status, cookie: u32): Reply {
    Reply(opcode, status, requestId, cookie, offset, NoBody)
  }

  // ---------- Assemblies in progress ----------

  datatype PlanParts = PlanParts(owner: Route, beginId: u32, partial: Partial, sawFirst: bool, sawLast: bool)
  datatype UnitParts = UnitParts(region: Region, unitIndex: nat, requestId: u32, base: nat, partial: Partial,
                                 sawFirst: bool, sawLast: bool)

  predicate PlanWhole(parts: PlanParts) { Whole(parts.partial) && parts.sawFirst && parts.sawLast }

  predicate UnitWhole(parts: UnitParts) { Whole(parts.partial) && parts.sawFirst && parts.sawLast }

  /** The acknowledgement window: received bits from the byte of the first missing one on. */
  function MissingBody(partial: Partial): Body {
    var first := FirstMissing(partial, 0);
    var window := Min(BITMAP_MAX * 8, Max(0, (|partial| + 7) / 8 * 8 - first / 8 * 8));
    Missing(first / 8, seq(window, i requires 0 <= i < window =>
      first / 8 * 8 + i < |partial| && partial[first / 8 * 8 + i].Some?))
  }

  /** The unit a data frame addresses, with its first byte's place in the object. */
  datatype UnitPlace = UnitPlace(region: Region, unitIndex: nat, base: nat, expected: nat, offset: nat)

  function PlaceOf(progress: Progress, payload: bool, offset: nat): Option<UnitPlace> {
    if !payload then
      if offset >= progress.manifestBytes then None
      else Some(UnitPlace(ManifestRegion, 0, 0, progress.manifestBytes, offset))
    else
      if offset >= progress.payloadBytes then None
      else
        var index := offset / SECTOR;
        Some(UnitPlace(PayloadRegion, index, index * SECTOR, BlockLength(progress.payloadBytes, index), offset - index * SECTOR))
  }

  /** Route, cookie and progress of an open session. */
  datatype Binding = Binding(route: Route, cookie: u32, progress: Progress)

  /** Actions that only an open session can ask for. */
  predicate NeedsBinding(p: Pending) {
    || p.kind.DoWriteManifest? || p.kind.DoWriteBlock? || p.kind.DoCommit? || p.kind.DoAbort?
    || (p.kind.DoResumeQuery? && p.request.cookie != 0)
  }

  /** Which successes start a session, and which carry one on. */
  predicate Opens(c: Completion, p: Pending) {
    p.kind.DoBegin? || (p.kind.DoResumeQuery? && p.request.cookie == 0 && c.outcome == Some(Active))
  }

  predicate Keeps(p: Pending) { IsWrite(p.kind) || (p.kind.DoResumeQuery? && p.request.cookie != 0) }

  /** What an action tells the store is what its completion will be measured against. */
  predicate Carries(action: Action, p: Pending, binding: Option<Binding>, decodedPlan: Option<Plan>) {
    && (action.kind.DoBegin? || action.kind.DoDiscard? ==> action.plan.Some? && action.plan == decodedPlan)
    && (NeedsBinding(p) ==> binding.Some? && action.expected == binding.value.progress.identity)
    && action.expected == p.expected
    && (action.kind.DoResumeQuery? ==> (action.mode.ResumeOrRebind? <==> p.request.cookie == 0) && !AllAre(0, action.expected.transaction))
    && (action.kind.DoWriteBlock? ==> p.request.unitIndex == action.blockIndex)
    && (IsWrite(action.kind) ==> action.bytes != [])
  }

  predicate IsWrite(kind: ActionKind) { kind.DoWriteManifest? || kind.DoWriteBlock? }

  predicate PhaseSound(phase: Phase, binding: Option<Binding>, plan: Option<PlanParts>, unit: Option<UnitParts>,
                       fromReady: bool, pending: Option<Pending>) {
    && (phase.ActionPending? <==> pending.Some?)
    && (binding.Some? ==> binding.value.cookie != 0 && ProgressWellFormed(binding.value.progress))
    && (plan.Some? <==> phase.BeginAssembly?)
    && (plan.Some? ==> |plan.value.partial| == PLAN_BYTES && (fromReady <==> binding.Some?)
                       && (binding.Some? ==> plan.value.owner == binding.value.route))
    && (phase.Idle? ==> binding.None?)
    && (phase.Ready? || phase.UnitAssembly? ==> binding.Some?)
    && (phase.UnitAssembly? ==> unit.Some?)
    && (unit.Some? ==> unit.value.partial != [] && (phase.UnitAssembly? || (pending.Some? && IsWrite(pending.value.kind))))
  }

  predicate PendingSound(binding: Option<Binding>, pending: Option<Pending>, decodedPlan: Option<Plan>) {
    pending.Some? ==>
      var p := pending.value;
      && (p.orphaned ==> binding.None?)
      && (!p.orphaned && NeedsBinding(p) ==>
            binding.Some? && binding.value.route == p.request.route && binding.value.cookie == p.request.cookie)
      && (!p.orphaned && !NeedsBinding(p) ==> binding.None?)
      && (p.kind.DoBegin? ==> decodedPlan.Some?)
  }

  predicate ReplaySound(replay: seq<Option<ReplayEntry>>, nextSlot: nat, pending: Option<Pending>) {
    && |replay| == REPLAY_ENTRIES && nextSlot < REPLAY_ENTRIES
    && KeysDistinct(replay) && AnswersMatch(replay)
    && (pending.Some? && !pending.value.orphaned ==> !KeyRetained(replay, pending.value.request))
  }

  /** A retained reply answers its own request. */
  predicate AnswersMatch(replay: seq<Option<ReplayEntry>>) {
    forall i | 0 <= i < |replay| && replay[i].Some? :: replay[i].value.reply.requestId == replay[i].value.request.requestId
  }

  lemma ExactMatches(replay: seq<Option<ReplayEntry>>, nextSlot: nat, pending: Option<Pending>, request: Request)
    requires ReplaySound(replay, nextSlot, pending)
    ensures LookupReplay(replay, request).Exact? ==> LookupReplay(replay, request).reply.requestId == request.requestId
  {
    hide LookupReplay;
  }

  /** Nothing that could still answer belongs to a route that was closed. */
  ghost predicate RoutesSound(binding: Option<Binding>, plan: Option<PlanParts>, pending: Option<Pending>,
                              replay: seq<Option<ReplayEntry>>, closed: set<Route>) {
    && (binding.Some? ==> binding.value.route !in closed)
    && (plan.Some? ==> plan.value.owner !in closed)
    && (pending.Some? && !pending.value.orphaned ==> pending.value.request.route !in closed)
    && forall i | 0 <= i < |replay| && replay[i].Some? :: replay[i].value.request.route !in closed
  }

  // ---------- The session as a value ----------

  datatype State = State(
    phase: Phase, binding: Option<Binding>, nextCookie: u32, nextToken: u32, decodedPlan: Option<Plan>,
    plan: Option<PlanParts>, fromReady: bool, planKind: ActionKind, unit: Option<UnitParts>, activity: u32,
    pending: Option<Pending>, replay: seq<Option<ReplayEntry>>, nextSlot: nat)
  {
    /** The frame speaks for the open session. */
    predicate Owns(route: Route, frame: Frame) {
      binding.Some? && binding.value.route == route && binding.value.cookie == frame.cookie
    }

    /** The transaction of the open session. */
    function Transaction(): Option<Identity> { if binding.Some? then Some(binding.value.progress.identity) else None }

    /** When a request of one frame may start its action. */
    predicate SingleReady(route: Route, frame: Frame) {
      if frame.opcode.CurrentActive? || frame.opcode.Resume? then phase.Idle? else phase.Ready? && Owns(route, frame)
    }

    /** The assembly a plan frame would join: the open one, or a new one. */
    function PlanBefore(route: Route, frame: Frame): PlanParts {
      if plan.Some? then plan.value else PlanParts(route, frame.requestId, Unknown(PLAN_BYTES), false, false)
    }

    function PlanAfter(route: Route, frame: Frame): PlanParts { PlanPlus(PlanBefore(route, frame), frame) }

    /** A second begin of an open session is only ever answered from memory. */
    predicate Reopening() { phase.Ready? || (phase.BeginAssembly? && fromReady) }

    predicate PlanOpens(route: Route, frame: Frame, kind: ActionKind) {
      match phase
      case Idle => frame.flags.first
      case Ready => kind.DoBegin? && binding.Some? && binding.value.route == route && frame.flags.first
      case BeginAssembly => planKind == kind
      case UnitAssembly => false
      case ActionPending => false
    }

    predicate PlanJoins(route: Route, frame: Frame, kind: ActionKind) {
      PlanFrameShaped(frame) && PlanOpens(route, frame, kind) && PlanFits(PlanBefore(route, frame), route, frame)
    }

    function PlaceNow(frame: Frame): Option<UnitPlace> {
      if binding.None? then None else PlaceOf(binding.value.progress, frame.flags.payload, frame.offset)
    }

    function UnitBefore(place: UnitPlace, frame: Frame): UnitParts {
      if phase.UnitAssembly? && unit.Some? then unit.value
      else UnitParts(place.region, place.unitIndex, frame.requestId, place.base, Unknown(place.expected), false, false)
    }

    function UnitAfter(place: UnitPlace, frame: Frame): UnitParts { UnitPlus(UnitBefore(place, frame), place.offset, frame) }

    predicate UnitOpens(place: UnitPlace, frame: Frame) {
      if phase.Ready? then frame.flags.first && place.expected <= SECTOR && place.unitIndex < 128
      else
        && phase.UnitAssembly? && UnitBefore(place, frame).requestId == frame.requestId
        && UnitBefore(place, frame).region == place.region && UnitBefore(place, frame).unitIndex == place.unitIndex
    }

    predicate DataJoins(route: Route, frame: Frame) {
      && DataFlagsFit(frame) && Owns(route, frame) && PlaceNow(frame).Some?
      && var place := PlaceNow(frame).value;
      && UnitFrameShaped(place, frame) && UnitOpens(place, frame)
      && Verdict(UnitBefore(place, frame).partial, Fragment(place.offset, frame.body)).Accepted?
    }

    function ProgressNow(): Option<Progress> { if binding.Some? then Some(binding.value.progress) else None }

    predicate Involves(route: Route) {
      || (binding.Some? && binding.value.route == route)
      || (plan.Some? && plan.value.owner == route)
      || (pending.Some? && pending.value.request.route == route)
    }
  }

  function PlanPlus(parts: PlanParts, frame: Frame): PlanParts {
    parts.(partial := Step(parts.partial, Fragment(frame.offset, frame.body)),
           sawFirst := parts.sawFirst || frame.flags.first, sawLast := parts.sawLast || frame.flags.last)
  }

  predicate PlanFits(parts: PlanParts, route: Route, frame: Frame) {
    && parts.owner == route && parts.beginId == frame.requestId
    && Verdict(parts.partial, Fragment(frame.offset, frame.body)).Accepted?
  }

  function UnitPlus(parts: UnitParts, offset: nat, frame: Frame): UnitParts {
    parts.(partial := Step(parts.partial, Fragment(offset, frame.body)),
           sawFirst := parts.sawFirst || frame.flags.first, sawLast := parts.sawLast || frame.flags.last)
  }

  predicate SameAssemblies(s: State, t: State) {
    t.phase == s.phase && t.plan == s.plan && t.unit == s.unit && t.fromReady == s.fromReady && t.activity == s.activity
  }

  predicate PlanFrameShaped(frame: Frame) {
    && !frame.flags.payload && frame.flags.ack && frame.cookie == 0 && frame.body != []
    && frame.offset + |frame.body| <= PLAN_BYTES
    && (frame.flags.first <==> frame.offset == 0)
    && (frame.flags.last <==> frame.offset + |frame.body| == PLAN_BYTES)
  }

  predicate DataFlagsFit(frame: Frame) { frame.flags.ack && frame.body != [] }

  predicate ActiveQuery(frame: Frame) { frame.flags == SINGLE_FRAME && frame.cookie == 0 && frame.offset == 0 && frame.body == [] }

  predicate ResumeQuery(frame: Frame) {
    && frame.flags == SINGLE_FRAME && frame.cookie == 0 && frame.offset == 0
    && |frame.body| == 16 && !AllAre(0, frame.body)
  }

  predicate BoundQuery(frame: Frame) { frame.flags == SINGLE_FRAME && frame.offset == 0 && frame.body == [] }

  predicate SingleShaped(frame: Frame) {
    match frame.opcode
    case CurrentActive => ActiveQuery(frame)
    case Resume => ResumeQuery(frame)
    case _ => BoundQuery(frame)
  }

  type Fingerprint = Content -> Digest

  function RequestOf(route: Route, cookie: u32, frame: Frame, region: Region, unitIndex: nat, fingerprint: Digest): Request {
    Request(route, cookie, frame.requestId, frame.opcode, region, unitIndex, fingerprint)
  }

  function FrameRequest(digest: Fingerprint, route: Route, frame: Frame): Request {
    RequestOf(route, frame.cookie, frame, ManifestRegion, 0, digest(FrameContent(frame)))
  }

  function PlanRequest(digest: Fingerprint, route: Route, frame: Frame, p: Plan): Request {
    RequestOf(route, 0, frame, ManifestRegion, 0, digest(PlanContent(p)))
  }

  function UnitRequest(digest: Fingerprint, route: Route, frame: Frame, parts: UnitParts): Request
    requires Whole(parts.partial)
  {
    RequestOf(route, frame.cookie, frame, parts.region, parts.unitIndex,
              digest(UnitContent(parts.region, parts.unitIndex, Known(parts.partial))))
  }

  /** What consuming one frame may do: answer it, or hand out one fresh action under a key
      that no retained success has. */
  predicate Consumes(s: State, route: Route, frame: Frame, out: Emission, t: State) {
    && t.binding == s.binding && t.replay == s.replay && t.nextSlot == s.nextSlot && t.nextCookie == s.nextCookie
    && !out.Nothing?
    && (s.pending.Some? ==> out.Replied? && t.decodedPlan == s.decodedPlan)
    && (out.Replied? ==> t.pending == s.pending && t.nextToken == s.nextToken && out.reply.requestId == frame.requestId)
    && (out.Acted? ==>
          && t.nextToken == Advance(s.nextToken)
          && t.pending.Some? && out.action.token == s.nextToken == t.pending.value.token
          && out.action.kind == t.pending.value.kind && out.action.route == route == t.pending.value.request.route
          && out.action.requestId == frame.requestId == t.pending.value.request.requestId
          && out.action.cookie == frame.cookie && t.pending.value.offset == frame.offset
          && !t.pending.value.orphaned && !KeyRetained(t.replay, t.pending.value.request)
          && Carries(out.action, t.pending.value, t.binding, t.decodedPlan))
  }

  predicate FrameAdmissible(route: Route, frame: Frame) {
    RouteValid(route) && frame.requestId != 0 && |frame.body| <= WIFI_BODY
  }

  /** A reply that carries this status and nothing else. */
  predicate Says(out: Emission, frame: Frame, status: Status, cookie: u32) {
    out == Replied(Reply(frame.opcode, status, frame.requestId, cookie, frame.offset, NoBody))
  }

  /** The capability query needs no session and has no effect on one. */
  predicate TellsCapabilities(frame: Frame, out: Emission) {
    if frame.flags != SINGLE_FRAME || frame.cookie != 0 || frame.offset != 0 || frame.body != [] then Says(out, frame, BadRequest, 0)
    else out == Replied(Reply(frame.opcode, Fine, frame.requestId, 0, 0, CapabilityBody))
  }

  /** Any frame at any time. */
  predicate TakesFrame(digest: Fingerprint, s: State, route: Route, frame: Frame, out: Emission, t: State) {
    if !FrameAdmissible(route, frame) then out.Nothing? && t == s
    else
      && Consumes(s, route, frame, out, t)
      && (Rejected(frame) ==> Says(out, frame, BadRequest, frame.cookie) && t == s)
      && (!Rejected(frame) && frame.opcode.Capabilities? ==> TellsCapabilities(frame, out) && t == s)
      && (!Rejected(frame) && !frame.opcode.Capabilities? && s.pending.Some? ==> Says(out, frame, Status.Busy, frame.cookie) && t == s)
      && (!Rejected(frame) && s.pending.None? ==> Serves(digest, s, route, frame, out, t))
  }

  /** The transaction an action means. */
  function Means(out: Emission): Option<Identity> { if out.Acted? then Some(out.action.expected) else None }

  /** The transaction a request without a session names: resume one, the other none. */
  function Requested(frame: Frame): Option<Identity> {
    if frame.opcode.Resume? && |frame.body| == 16 then Some(SoundStore.Identity(0, A, frame.body)) else Some(NO_IDENTITY)
  }

  /** Answers outside a session carry no cookie. */
  function AnswerCookie(frame: Frame): u32 { if frame.opcode.CurrentActive? || frame.opcode.Resume? then 0 else frame.cookie }

  /** What one frame leads to while no action is outstanding. */
  predicate Serves(digest: Fingerprint, s: State, route: Route, frame: Frame, out: Emission, t: State) {
    match frame.opcode
    case Begin => TakesPlan(digest, s, route, frame, DoBegin, out, t)
    case Recover => TakesPlan(digest, s, route, frame, DoDiscard, out, t)
    case Data => TakesData(digest, s, route, frame, out, t)
    case Capabilities => TellsCapabilities(frame, out) && t == s
    case UnknownOpcode => Says(out, frame, BadRequest, frame.cookie) && t == s
    case _ =>
      var found := LookupReplay(s.replay, FrameRequest(digest, route, frame));
      var unbound := frame.opcode.CurrentActive? || frame.opcode.Resume?;
      var cookie := AnswerCookie(frame);
      && (SingleShaped(frame) ==> LookupAnswers(found, out))
      && (!SingleShaped(frame) ==> Says(out, frame, BadRequest, cookie))
      && (SingleShaped(frame) && found.Conflicting? ==> Says(out, frame, Status.IntegrityError, cookie))
      && (SingleShaped(frame) && found.Miss? && !s.SingleReady(route, frame) ==>
            Says(out, frame, if unbound then Status.Busy else Status.TransactionMismatch, cookie))
      && (out.Acted? <==> SingleShaped(frame) && found.Miss? && s.SingleReady(route, frame))
      && (out.Acted? ==> out.action.kind == KindOf(frame.opcode) && t.pending.Some? && t.pending.value.request == FrameRequest(digest, route, frame))
      && (out.Acted? ==> Means(out) == if unbound then Requested(frame) else s.Transaction())
      && (out.Replied? ==> SameAssemblies(s, t))
  }

  /** A plan frame is refused, or adds its bytes; the whole plan is decoded, answered from
      memory, refused, or acted upon. */
  predicate TakesPlan(digest: Fingerprint, s: State, route: Route, frame: Frame, kind: ActionKind, out: Emission, t: State) {
    var joins, parts := s.PlanJoins(route, frame, kind), s.PlanAfter(route, frame);
    && (!joins ==> PlanRefused(s, route, frame, kind, out) && (|frame.body| <= FRAGMENT_MAX ==> SameAssemblies(s, t)))
    && (joins && !PlanWhole(parts) ==>
          && t.plan == Some(parts) && t.phase.BeginAssembly? && t.fromReady == s.Reopening() && t.planKind == kind
          && out == Replied(Reply(frame.opcode, Fine, frame.requestId, 0, FirstMissing(parts.partial, 0), MissingBody(parts.partial))))
    && (joins && PlanWhole(parts) ==> FinishesPlan(digest, s, route, frame, kind, parts, s.Reopening(), out, t))
  }

  /** Why a plan frame does not join: its shape, a session that is busy with something else,
      the wrong request, or bytes that contradict the ones received. */
  predicate PlanRefused(s: State, route: Route, frame: Frame, kind: ActionKind, out: Emission) {
    var end := frame.offset + |frame.body|;
    if frame.flags.payload || !frame.flags.ack || frame.cookie != 0 || frame.body == [] || end > 640
       || frame.flags.first != (frame.offset == 0) || frame.flags.last != (end == 640)
    then Says(out, frame, BadRequest, 0)
    else if !s.PlanOpens(route, frame, kind) then Says(out, frame, if s.phase.Idle? then BadRequest else Status.Busy, 0)
    else if s.PlanBefore(route, frame).owner != route || s.PlanBefore(route, frame).beginId != frame.requestId
    then Says(out, frame, BadRequest, 0)
    else
      var verdict := Verdict(s.PlanBefore(route, frame).partial, Fragment(frame.offset, frame.body));
      Says(out, frame, if verdict.Conflict? then Status.IntegrityError else BadRequest, 0)
  }

  predicate FinishesPlan(digest: Fingerprint, s: State, route: Route, frame: Frame, kind: ActionKind, parts: PlanParts, reopening: bool,
                         out: Emission, t: State)
    requires PlanWhole(parts)
  {
    var decoded := DecodePlan(Known(parts.partial));
    && (!decoded.Decoded? ==> Says(out, frame, Status.IntegrityError, 0))
    && (decoded.Decoded? ==> AnswersPlan(digest, s.replay, route, frame, kind, decoded.plan, reopening, out, t))
    && (out.Replied? ==> t.plan.None? && t.phase == if reopening then Ready else Idle)
  }

  /** A decoded plan: its retained answer, a conflict, or the action it asks for. */
  predicate AnswersPlan(digest: Fingerprint, replay: seq<Option<ReplayEntry>>, route: Route, frame: Frame, kind: ActionKind, plan: Plan, reopening: bool,
                        out: Emission, t: State) {
    var request := PlanRequest(digest, route, frame, plan);
    var found := LookupReplay(replay, request);
    && LookupAnswers(found, out)
    && (found.Conflicting? || (found.Miss? && reopening) ==> Says(out, frame, Status.IntegrityError, 0))
    && (found.Miss? && !reopening ==>
          && out.Acted? && out.action.kind == kind && out.action.plan == Some(plan) == t.decodedPlan
          && t.pending.Some? && t.pending.value.request == request)
  }

  /** A data frame is refused, or adds its bytes; the whole unit is answered from memory or
      written. */
  predicate TakesData(digest: Fingerprint, s: State, route: Route, frame: Frame, out: Emission, t: State) {
    && (!s.DataJoins(route, frame) ==>
          DataRefused(s, route, frame, out) && (|frame.body| <= FRAGMENT_MAX ==> SameAssemblies(s, t)))
    && (s.DataJoins(route, frame) ==>
          var parts := s.UnitAfter(s.PlaceNow(frame).value, frame);
          if UnitWhole(parts) then FinishesUnit(digest, s, route, frame, parts, out, t)
          else
            && t.unit == Some(parts) && t.phase.UnitAssembly?
            && out == Replied(Reply(frame.opcode, Fine, frame.requestId, frame.cookie,
                                    parts.base + FirstMissing(parts.partial, 0), MissingBody(parts.partial))))
  }

  /** Why a data frame does not join: somebody else's session, its shape, a unit other than
      the open one, or bytes that contradict the ones received. */
  predicate DataRefused(s: State, route: Route, frame: Frame, out: Emission) {
    var owns := s.binding.Some? && s.binding.value.route == route && s.binding.value.cookie == frame.cookie;
    if !owns then Says(out, frame, Status.TransactionMismatch, frame.cookie)
    else if !frame.flags.ack || frame.body == [] || (!s.phase.Ready? && !s.phase.UnitAssembly?)
            || s.PlaceNow(frame).None? || !UnitFrameShaped(s.PlaceNow(frame).value, frame)
    then Says(out, frame, BadRequest, frame.cookie)
    else
      var place := s.PlaceNow(frame).value;
      if !s.UnitOpens(place, frame) then Says(out, frame, if s.phase.Ready? then BadRequest else Status.Busy, frame.cookie)
      else
        var verdict := Verdict(s.UnitBefore(place, frame).partial, Fragment(place.offset, frame.body));
        Says(out, frame, if verdict.Conflict? then Status.IntegrityError else BadRequest, frame.cookie)
  }

  predicate FinishesUnit(digest: Fingerprint, s: State, route: Route, frame: Frame, parts: UnitParts, out: Emission, t: State)
    requires UnitWhole(parts)
  {
    var found := LookupReplay(s.replay, UnitRequest(digest, route, frame, parts));
    && LookupAnswers(found, out)
    && (found.Conflicting? ==> Says(out, frame, Status.IntegrityError, frame.cookie))
    && (out.Replied? ==> t.unit.None? && t.phase.Ready?)
    && (found.Miss? ==>
          && out.Acted? && out.action.kind == (if parts.region.ManifestRegion? then DoWriteManifest else DoWriteBlock)
          && out.action.bytes == Known(parts.partial) && out.action.blockIndex == parts.unitIndex
          && t.binding.Some? && out.action.expected == t.binding.value.progress.identity
          && t.pending.Some? && t.pending.value.request == UnitRequest(digest, route, frame, parts) && t.pending.value.expected == out.action.expected)
  }

  /** A begun or resumed transaction opens a session under a new cookie, a write or a query
      continues the open one, and everything else ends it. */
  predicate Succeeds(s: State, c: Completion, p: Pending, reply: Reply, t: State) {
    && (Opens(c, p) ==>
          && c.progress.Some? && t.binding == Some(Binding(p.request.route, s.nextCookie, c.progress.value))
          && t.nextCookie == Advance(s.nextCookie)
          && reply.cookie == s.nextCookie && reply.offset == 0 && reply.body == IdentityBody(c.progress.value))
    && (Keeps(p) ==>
          && c.progress.Some? && s.binding.Some? && t.binding == Some(s.binding.value.(progress := c.progress.value))
          && reply.cookie == p.request.cookie && reply.offset == 0 && reply.body == ProgressBody(c.progress.value))
    && (!Opens(c, p) ==> t.nextCookie == s.nextCookie)
    && (!Opens(c, p) && !Keeps(p) ==> t.binding.None?)
    && (p.kind.DoQueryActive? ==>
          && c.currentActive.Some? && reply.cookie == 0 && reply.body == ActiveBody(c.currentActive.value)
          && reply.offset == if c.currentActive.value.Some? then c.currentActive.value.value.generation % 0x1_0000_0000 else 0)
    && (p.kind.DoResumeQuery? && !Opens(c, p) && !Keeps(p) ==>
          && c.identity.Some? && c.outcome.Some? && reply.cookie == 0 && reply.offset == 0
          && reply.body == OutcomeBody(c.outcome.value, c.identity.value, c.outcomeManifestBytes, c.outcomePayloadBytes))
    && (p.kind.DoDiscard? || p.kind.DoCommit? || p.kind.DoAbort? ==>
          reply.body.NoBody? && reply.offset == p.offset && reply.cookie == if p.kind.DoDiscard? then 0 else p.request.cookie)
  }

  /** Only the matching completion of the outstanding action has any effect. */
  predicate Completes(s: State, c: Completion, out: Emission, t: State) {
    if s.pending.None? || c.token != s.pending.value.token || c.kind != s.pending.value.kind then t == s && out.Nothing?
    else
      && var p := s.pending.value;
      && t.pending.None? && t.nextToken == s.nextToken
      && if p.orphaned then
           out.Nothing? && t.binding.None? && t.phase.Idle? && t.replay == s.replay && t.nextSlot == s.nextSlot && t.nextCookie == s.nextCookie
         else
           && out.Replied? && out.reply.requestId == p.request.requestId && out.reply.opcode == p.request.opcode
           && var good := c.result.Ok? && ContractMet(c, p, s.decodedPlan, s.ProgressNow());
           && (out.reply.status.Fine? <==> good)
           && (good ==> s.nextSlot < |s.replay| && t.replay == s.replay[s.nextSlot := Some(ReplayEntry(p.request, out.reply))]
                        && t.nextSlot == (s.nextSlot + 1) % REPLAY_ENTRIES && Succeeds(s, c, p, out.reply, t))
           && (!good ==> t.replay == s.replay && t.nextSlot == s.nextSlot && t.nextCookie == s.nextCookie)
           && (!good ==> out.reply == Reply(p.request.opcode, if c.result.Ok? then InternalError else StatusOf(c.result),
                                            p.request.requestId, p.request.cookie, p.offset, NoBody))
           && (!c.result.Ok? ==> t.binding == if NeedsBinding(p) then s.binding else None)
           && (c.result.Ok? && !good ==> t.binding.None?)
           && t.phase == (if t.binding.Some? then Ready else Idle)
  }

  /** A closed route loses its binding, its assembly and its answers; an action of it may
      finish, but silently. */
  predicate LosesRoute(s: State, route: Route, t: State) {
    && t.replay == WithoutRoute(s.replay, route) && t.nextSlot == s.nextSlot && t.nextToken == s.nextToken && t.decodedPlan == s.decodedPlan
    && (s.Involves(route) ==> t.binding.None? && t.plan.None? && (t.pending.None? ==> t.phase.Idle? && t.unit.None?))
    && (!s.Involves(route) ==> t == s.(replay := t.replay))
    && t.pending == (if s.pending.Some? && s.pending.value.request.route == route then Some(s.pending.value.(orphaned := true)) else s.pending)
  }

  /** Fail-closed teardown: everything is forgotten but an action that still runs. */
  predicate LosesAllRoutes(s: State, t: State) {
    && t.binding.None? && t.plan.None? && t.decodedPlan == s.decodedPlan && t.nextToken == s.nextToken && t.nextCookie == s.nextCookie
    && (forall i | 0 <= i < |t.replay| :: t.replay[i].None?)
    && t.pending == (if s.pending.Some? then Some(s.pending.value.(orphaned := true)) else None)
    && (t.pending.None? ==> t.phase.Idle? && t.unit.None?)
  }

  /** Nothing open, nothing outstanding, nothing remembered. */
  predicate Fresh(s: State) {
    s.phase.Idle? && s.binding.None? && s.pending.None? && s.plan.None? && forall i | 0 <= i < |s.replay| :: s.replay[i].None?
  }

  /** Only the incomplete assembly of exactly this route is dropped. */
  predicate Expires(s: State, route: Route, t: State) {
    var overdue := (s.phase.BeginAssembly? && s.plan.Some? && s.plan.value.owner == route)
                || (s.phase.UnitAssembly? && s.binding.Some? && s.binding.value.route == route);
    if !overdue then t == s
    else
      && t.plan.None? && t.unit.None? && t.phase == (if s.phase.UnitAssembly? || (s.fromReady && s.binding.Some?) then Ready else Idle)
      && t.pending == s.pending && t.replay == s.replay && t.binding == s.binding && t.decodedPlan == s.decodedPlan
      && t.nextSlot == s.nextSlot && t.nextToken == s.nextToken && t.nextCookie == s.nextCookie
  }

  class SpeakerAssetsSession {
    const digest: Content -> Digest
    var phase: Phase
    var binding: Option<Binding>
    var nextCookie: u32
    var nextToken: u32
    var decodedPlan: Option<Plan>
    var plan: Option<PlanParts>
    var fromReady: bool
    var planKind: ActionKind
    var unit: Option<UnitParts>
    var activity: u32
    var pending: Option<Pending>
    var replay: seq<Option<ReplayEntry>>
    var nextSlot: nat
    /** Routes closed and silent since, and actions handed out so far. */
    ghost var closed: set<Route>
    ghost var issued: nat
    ghost const firstToken: u32

    ghost predicate Valid()
      reads this
    {
      && nextCookie != 0 && nextToken != 0 && firstToken != 0
      && nextToken == AdvanceBy(firstToken, issued)
      && (pending.Some? ==> issued > 0 && pending.value.token == AdvanceBy(firstToken, issued - 1))
      && PhaseSound(phase, binding, plan, unit, fromReady, pending)
      && PendingSound(binding, pending, decodedPlan)
      && ReplaySound(replay, nextSlot, pending)
      && RoutesSound(binding, plan, pending, replay, closed)
    }

    constructor (digest: Content -> Digest, cookieSeed: u32, tokenSeed: u32)
      ensures Valid() && Fresh(Now()) && closed == {} && issued == 0 && this.digest == digest
    {
      this.digest := digest;
      phase, binding, decodedPlan, plan, fromReady, planKind, unit := Idle, None, None, None, false, DoBegin, None;
      nextCookie := if cookieSeed == 0 then 1 else cookieSeed;
      nextToken := if tokenSeed == 0 then 1 else tokenSeed;
      firstToken := if tokenSeed == 0 then 1 else tokenSeed;
      activity, pending, replay, nextSlot := 0, None, seq(REPLAY_ENTRIES, _ => None), 0;
      closed, issued := {}, 0;
    }

    function Now(): State
      reads this
    {
      State(phase, binding, nextCookie, nextToken, decodedPlan, plan, fromReady, planKind, unit, activity, pending, replay, nextSlot)
    }

    lemma PhaseTellsPending()
      requires Valid()
      ensures phase.ActionPending? <==> pending.Some?
    {
      hide AdvanceBy, ProgressWellFormed, PendingSound, ReplaySound, RoutesSound;
    }

    /** The step of one frame. */
    twostate predicate Consumed(route: Route, frame: Frame, out: Emission)
      reads this
    {
      && Valid() && closed - {route} == old(closed) - {route}
      && issued == old(issued) + (if out.Acted? then 1 else 0)
      && Consumes(old(Now()), route, frame, out, Now())
    }

    /** begin_pending_action */
    method BeginPending(kind: ActionKind, frame: Frame, request: Request, expected: Identity) returns (token: u32)
      requires nextToken != 0 && firstToken != 0 && nextToken == AdvanceBy(firstToken, issued)
      modifies this`pending, this`phase, this`nextToken, this`issued, this`closed
      ensures closed == old(closed) - {request.route}
      ensures nextToken != 0 && nextToken == AdvanceBy(firstToken, issued) && issued == old(issued) + 1
      ensures nextToken == Advance(old(nextToken))
      ensures token == old(nextToken)
      ensures phase.ActionPending?
      ensures pending == Some(Pending(false, kind, token, request, frame.offset, expected))
    {
      token := nextToken;
      nextToken := Advance(nextToken);
      closed := closed - {request.route};
      issued := issued + 1;
      pending := Some(Pending(false, kind, token, request, frame.offset, expected));
      phase := ActionPending;
    }

    method Consume(route: Route, frame: Frame) returns (r: SessionResult, out: Emission)
      requires Valid()
      modifies this
      ensures Valid() && TakesFrame(digest, old(Now()), route, frame, out, Now())
      ensures r == if FrameAdmissible(route, frame) then SessionResult.Ok else SessionResult.InvalidArgument
      ensures if r.Ok? then Consumed(route, frame, out) else issued == old(issued)
    {
      hide PhaseSound, PendingSound, ReplaySound, AdvanceBy;
      if !RouteValid(route) || frame.requestId == 0 || |frame.body| > WIFI_BODY { return SessionResult.InvalidArgument, Nothing; }
      r := SessionResult.Ok;
      if Rejected(frame) {
        return r, Replied(StatusReply(frame.opcode, frame.requestId, frame.offset, BadRequest, frame.cookie));
      }
      PendingWhen(phase, binding, plan, unit, fromReady, pending);
      if phase.ActionPending? && !frame.opcode.Capabilities? {
        return r, Replied(StatusReply(frame.opcode, frame.requestId, frame.offset, Status.Busy, frame.cookie));
      }
      out := Dispatch(route, frame);
    }

    method Dispatch(route: Route, frame: Frame) returns (out: Emission)
      requires Valid() && (pending.None? || frame.opcode.Capabilities?)
      modifies this
      ensures Consumed(route, frame, out)
      ensures if old(pending).Some? then Now() == old(Now()) && TellsCapabilities(frame, out)
              else Serves(digest, old(Now()), route, frame, out, Now())
    {
      hide PhaseSound, PendingSound, ReplaySound, RoutesSound, AdvanceBy, TakesPlan, TakesData, LookupReplay;
      match frame.opcode
      case Begin => out := ConsumePlan(route, frame, DoBegin);
      case Recover => out := ConsumePlan(route, frame, DoDiscard);
      case CurrentActive => out := ConsumeCurrentActive(route, frame);
      case Resume => out := ConsumeResume(route, frame);
      case Data => out := ConsumeData(route, frame);
      case Query => out := ConsumeBound(route, frame, DoResumeQuery);
      case Commit => out := ConsumeBound(route, frame, DoCommit);
      case Abort => out := ConsumeBound(route, frame, DoAbort);
      case UnknownOpcode => out := Replied(StatusReply(frame.opcode, frame.requestId, frame.offset, BadRequest, frame.cookie));
      case Capabilities =>
        out := if frame.flags != SINGLE_FRAME || frame.cookie != 0 || frame.offset != 0 || frame.body != []
               then Replied(StatusReply(frame.opcode, frame.requestId, frame.offset, BadRequest, 0))
               else Replied(Reply(frame.opcode, Fine, frame.requestId, 0, frame.offset, CapabilityBody));
    }

    /** The action of a request of one frame. */
    method ActOnFrame(route: Route, frame: Frame, kind: ActionKind, request: Request, expected: Identity, mode: QueryMode)
      returns (out: Emission)
      requires Valid() && pending.None? && !KeyRetained(replay, request) && request == FrameRequest(digest, route, frame)
      requires kind.DoQueryActive? || kind.DoResumeQuery? || kind.DoCommit? || kind.DoAbort?
      requires var p := Pending(false, kind, nextToken, request, frame.offset, expected);
               if NeedsBinding(p) then phase.Ready? && Owns(route, frame) && expected == binding.value.progress.identity else phase.Idle?
      requires kind.DoResumeQuery? ==> (mode.ResumeOrRebind? <==> frame.cookie == 0) && !AllAre(0, expected.transaction)
      modifies this
      ensures Consumed(route, frame, out) && out.Acted?
      ensures out.action.kind == kind && out.action.mode == mode && out.action.expected == expected
      ensures pending.value.request == request && pending.value.expected == expected
    {
      hide AdvanceBy, ProgressWellFormed, KeysDistinct, AnswersMatch, KeyRetained;
      var token := BeginPending(kind, frame, request, expected);
      out := Acted(Action(token, kind, route, frame.requestId, frame.cookie, None, expected, mode, [], 0));
    }

    predicate Owns(route: Route, frame: Frame)
      reads this
    {
      Now().Owns(route, frame)
    }

    twostate predicate Untouched()
      reads this
    {
      SameAssemblies(old(Now()), Now())
    }

    method ConsumeCurrentActive(route: Route, frame: Frame) returns (out: Emission)
      requires Valid() && pending.None?
      modifies this
      ensures Consumed(route, frame, out)
      ensures ActiveQuery(frame) ==> LookupAnswers(old(LookupReplay(replay, FrameRequest(digest, route, frame))), out)
      ensures out.Acted? <==> ActiveQuery(frame) && old(LookupReplay(replay, FrameRequest(digest, route, frame))).Miss? && old(phase).Idle?
      ensures out.Acted? ==>
                && out.action.kind.DoQueryActive? && pending.value.request == FrameRequest(digest, route, frame)
                && out.action.expected == NO_IDENTITY
      ensures out.Replied? ==> Untouched()
      ensures !ActiveQuery(frame) ==> Says(out, frame, BadRequest, 0)
      ensures ActiveQuery(frame) && old(LookupReplay(replay, FrameRequest(digest, route, frame))).Conflicting? ==>
                Says(out, frame, Status.IntegrityError, 0)
      ensures ActiveQuery(frame) && old(LookupReplay(replay, FrameRequest(digest, route, frame))).Miss? && !(old(phase).Idle?) ==>
                Says(out, frame, Status.Busy, 0)
    {
      hide AdvanceBy, ProgressWellFormed, KeysDistinct;
      if frame.flags != SINGLE_FRAME || frame.cookie != 0 || frame.offset != 0 || frame.body != [] {
        return Replied(StatusReply(frame.opcode, frame.requestId, frame.offset, BadRequest, 0));
      }
      var request := FrameRequest(digest, route, frame);
      var found := LookupReplay(replay, request);
      ExactMatches(replay, nextSlot, pending, request);
      if found.Exact? { return Replied(found.reply); }
      if found.Conflicting? { return Replied(StatusReply(frame.opcode, frame.requestId, frame.offset, Status.IntegrityError, 0)); }
      if !phase.Idle? { return Replied(StatusReply(frame.opcode, frame.requestId, frame.offset, Status.Busy, 0)); }
      out := ActOnFrame(route, frame, DoQueryActive, request, NO_IDENTITY, CurrentProgress);
    }

    /** Resume carries only the transaction it asks for. */
    method ConsumeResume(route: Route, frame: Frame) returns (out: Emission)
      requires Valid() && pending.None?
      modifies this
      ensures Consumed(route, frame, out)
      ensures ResumeQuery(frame) ==> LookupAnswers(old(LookupReplay(replay, FrameRequest(digest, route, frame))), out)
      ensures out.Acted? <==> ResumeQuery(frame) && old(LookupReplay(replay, FrameRequest(digest, route, frame))).Miss? && old(phase).Idle?
      ensures out.Acted? ==>
                && out.action.kind.DoResumeQuery? && out.action.mode.ResumeOrRebind? && pending.value.request == FrameRequest(digest, route, frame)
                && out.action.expected == SoundStore.Identity(0, A, frame.body) == pending.value.expected
      ensures out.Replied? ==> Untouched()
      ensures !ResumeQuery(frame) ==> Says(out, frame, BadRequest, 0)
      ensures ResumeQuery(frame) && old(LookupReplay(replay, FrameRequest(digest, route, frame))).Conflicting? ==>
                Says(out, frame, Status.IntegrityError, 0)
      ensures ResumeQuery(frame) && old(LookupReplay(replay, FrameRequest(digest, route, frame))).Miss? && !(old(phase).Idle?) ==>
                Says(out, frame, Status.Busy, 0)
    {
      hide AdvanceBy, ProgressWellFormed, KeysDistinct;
      if frame.flags != SINGLE_FRAME || frame.cookie != 0 || frame.offset != 0 || |frame.body| != 16 || AllAre(0, frame.body) {
        return Replied(StatusReply(frame.opcode, frame.requestId, frame.offset, BadRequest, 0));
      }
      var expected := SoundStore.Identity(0, A, frame.body);
      var request := FrameRequest(digest, route, frame);
      var found := LookupReplay(replay, request);
      ExactMatches(replay, nextSlot, pending, request);
      if found.Exact? { return Replied(found.reply); }
      if found.Conflicting? { return Replied(StatusReply(frame.opcode, frame.requestId, frame.offset, Status.IntegrityError, 0)); }
      if !phase.Idle? { return Replied(StatusReply(frame.opcode, frame.requestId, frame.offset, Status.Busy, 0)); }
      out := ActOnFrame(route, frame, DoResumeQuery, request, expected, ResumeOrRebind);
    }

    /** Query, commit and abort: retained answers first, then only the open session itself. */
    method ConsumeBound(route: Route, frame: Frame, kind: ActionKind) returns (out: Emission)
      requires Valid() && pending.None?
      requires kind.DoResumeQuery? || kind.DoCommit? || kind.DoAbort?
      modifies this
      ensures Consumed(route, frame, out)
      ensures BoundQuery(frame) ==> LookupAnswers(old(LookupReplay(replay, FrameRequest(digest, route, frame))), out)
      ensures out.Acted? <==>
                && BoundQuery(frame) && old(LookupReplay(replay, FrameRequest(digest, route, frame))).Miss?
                && old(phase).Ready? && Owns(route, frame)
      ensures out.Acted? ==>
                && out.action.kind == kind && out.action.mode.CurrentProgress? && pending.value.request == FrameRequest(digest, route, frame)
                && out.action.expected == binding.value.progress.identity == pending.value.expected
      ensures out.Replied? ==> Untouched()
      ensures !BoundQuery(frame) ==> Says(out, frame, BadRequest, frame.cookie)
      ensures BoundQuery(frame) && old(LookupReplay(replay, FrameRequest(digest, route, frame))).Conflicting? ==>
                Says(out, frame, Status.IntegrityError, frame.cookie)
      ensures BoundQuery(frame) && old(LookupReplay(replay, FrameRequest(digest, route, frame))).Miss? && !(old(phase).Ready? && Owns(route, frame)) ==>
                Says(out, frame, Status.TransactionMismatch, frame.cookie)
    {
      hide AdvanceBy, KeysDistinct;
      if frame.flags != SINGLE_FRAME || frame.offset != 0 || frame.body != [] {
        return Replied(StatusReply(frame.opcode, frame.requestId, frame.offset, BadRequest, frame.cookie));
      }
      var request := FrameRequest(digest, route, frame);
      var found := LookupReplay(replay, request);
      ExactMatches(replay, nextSlot, pending, request);
      if found.Exact? { return Replied(found.reply); }
      if found.Conflicting? { return Replied(StatusReply(frame.opcode, frame.requestId, frame.offset, Status.IntegrityError, frame.cookie)); }
      if !phase.Ready? || binding.None? || binding.value.route != route || frame.cookie != binding.value.cookie {
        return Replied(StatusReply(frame.opcode, frame.requestId, frame.offset, Status.TransactionMismatch, frame.cookie));
      }
      var expected := binding.value.progress.identity;
      out := ActOnFrame(route, frame, kind, request, expected, CurrentProgress);
    }

    /** Opens or continues the assembly of a plan; the error status says why not. */
    method OpenPlan(route: Route, frame: Frame, kind: ActionKind) returns (refused: Option<Status>)
      requires Valid() && pending.None? && (kind.DoBegin? || kind.DoDiscard?)
      modifies this`plan, this`phase, this`fromReady, this`planKind, this`closed
      ensures Valid() && closed - {route} == old(closed) - {route}
      ensures refused.None? <==> old(Now().PlanOpens(route, frame, kind))
      ensures refused.None? ==>
                && plan == Some(old(Now().PlanBefore(route, frame))) && |plan.value.partial| == PLAN_BYTES
                && planKind == kind && phase.BeginAssembly? && fromReady == old(Now().Reopening())
      ensures refused.Some? ==> Now() == old(Now()) && refused.value == if phase.Idle? then BadRequest else Status.Busy
      ensures refused.None? ==>
                if old(phase).BeginAssembly? then Now() == old(Now())
                else plan == Some(PlanParts(route, frame.requestId, Unknown(PLAN_BYTES), false, false))
    {
      hide AdvanceBy, ProgressWellFormed, KeysDistinct, ReplaySound, PendingSound;
      match phase
      case Idle =>
        if !frame.flags.first { return Some(BadRequest); }
        plan := Some(PlanParts(route, frame.requestId, Unknown(PLAN_BYTES), false, false));
        phase, fromReady, planKind := BeginAssembly, false, kind;
        closed := closed - {route};
        refused := None;
      case Ready =>
        if !kind.DoBegin? || binding.value.route != route || !frame.flags.first { return Some(Status.Busy); }
        plan := Some(PlanParts(route, frame.requestId, Unknown(PLAN_BYTES), false, false));
        phase, fromReady, planKind := BeginAssembly, true, kind;
        refused := None;
      case BeginAssembly =>
        refused := if planKind != kind then Some(Status.Busy) else None;
      case UnitAssembly => refused := Some(Status.Busy);
      case ActionPending => refused := Some(Status.Busy);
    }

    /** restore_after_begin_assembly */
    method RestoreAfterPlan()
      requires Valid() && plan.Some?
      modifies this`plan, this`phase, this`fromReady, this`planKind
      ensures Valid() && plan.None? && pending.None?
      ensures phase == if old(fromReady) then Ready else Idle
    {
      hide AdvanceBy, ProgressWellFormed, KeysDistinct, ReplaySound;
      phase := if fromReady && binding.Some? then Ready else Idle;
      plan, fromReady, planKind := None, false, DoBegin;
    }

    /** A plan arrives in fragments; only a whole, valid and new one becomes an action. */
    method ConsumePlan(route: Route, frame: Frame, kind: ActionKind) returns (out: Emission)
      requires Valid() && pending.None? && (kind.DoBegin? || kind.DoDiscard?)
      modifies this
      ensures Consumed(route, frame, out)
      ensures TakesPlan(digest, old(Now()), route, frame, kind, out, Now())
    {
      hide AdvanceBy, ProgressWellFormed, KeysDistinct, ReplaySound, PendingSound, PhaseSound, RoutesSound, LookupReplay,
           DecodePlan, RequestOf;
      if !PlanFrameShaped(frame) {
        return Replied(StatusReply(frame.opcode, frame.requestId, frame.offset, BadRequest, 0));
      }
      var refused := OpenPlan(route, frame, kind);
      if refused.Some? { return Replied(StatusReply(frame.opcode, frame.requestId, frame.offset, refused.value, 0)); }
      FreshAccepts(PLAN_BYTES, Fragment(frame.offset, frame.body));
      hide Verdict;
      out := JoinPlan(route, frame, kind);
    }

    /** The fragment joins the open assembly or is refused. */
    method JoinPlan(route: Route, frame: Frame, kind: ActionKind) returns (out: Emission)
      requires Valid() && pending.None? && (kind.DoBegin? || kind.DoDiscard?) && PlanFrameShaped(frame)
      requires plan.Some? && |plan.value.partial| == PLAN_BYTES && phase.BeginAssembly? && planKind == kind
      modifies this
      ensures Consumed(route, frame, out)
      ensures var joins, parts := PlanFits(old(plan).value, route, frame), PlanPlus(old(plan).value, frame);
              && (!joins ==>
                    && Now() == old(Now())
                    && Says(out, frame, if old(plan).value.owner == route && old(plan).value.beginId == frame.requestId
                                           && Verdict(old(plan).value.partial, Fragment(frame.offset, frame.body)).Conflict?
                                        then Status.IntegrityError else BadRequest, 0))
              && (joins && !PlanWhole(parts) ==>
                    && plan == Some(parts) && phase.BeginAssembly? && fromReady == old(fromReady) && planKind == kind
                    && out == Replied(Reply(frame.opcode, Fine, frame.requestId, 0, FirstMissing(parts.partial, 0), MissingBody(parts.partial))))
              && (joins && PlanWhole(parts) ==> FinishesPlan(digest, old(Now()), route, frame, kind, parts, old(fromReady), out, Now()))
    {
      hide AdvanceBy, ProgressWellFormed, KeysDistinct, ReplaySound, PendingSound, PhaseSound, RoutesSound, LookupReplay,
           DecodePlan, RequestOf, Step;
      var f := Fragment(frame.offset, frame.body);
      if plan.value.owner != route || plan.value.beginId != frame.requestId {
        return Replied(StatusReply(frame.opcode, frame.requestId, frame.offset, BadRequest, 0));
      }
      var verdict := Verdict(plan.value.partial, f);
      if !verdict.Accepted? {
        return Replied(StatusReply(frame.opcode, frame.requestId, frame.offset,
                                   if verdict.Conflict? then Status.IntegrityError else BadRequest, 0));
      }
      AddPlanFragment(frame, f);
      var parts := plan.value;
      ReceivedBounds(parts.partial);
      if Received(parts.partial) != PLAN_BYTES || !parts.sawFirst || !parts.sawLast {
        return Replied(Reply(frame.opcode, Fine, frame.requestId, 0, FirstMissing(parts.partial, 0), MissingBody(parts.partial)));
      }
      out := FinishPlan(route, frame, kind);
    }

    method AddPlanFragment(frame: Frame, f: Fragment)
      requires Valid() && plan.Some? && f.offset + |f.data| <= PLAN_BYTES && |plan.value.partial| == PLAN_BYTES
      modifies this`plan, this`activity
      ensures Valid() && plan.Some? && |plan.value.partial| == PLAN_BYTES
      ensures plan.value == old(plan).value.(partial := Step(old(plan).value.partial, f),
                sawFirst := old(plan).value.sawFirst || frame.flags.first, sawLast := old(plan).value.sawLast || frame.flags.last)
    {
      hide AdvanceBy, ProgressWellFormed, KeysDistinct, ReplaySound, PendingSound;
      var parts := plan.value;
      var partial := Step(parts.partial, f);
      if Received(partial) > Received(parts.partial) || (frame.flags.first && !parts.sawFirst) || (frame.flags.last && !parts.sawLast) {
        activity := Advance(activity);
      }
      plan := Some(parts.(partial := partial, sawFirst := parts.sawFirst || frame.flags.first, sawLast := parts.sawLast || frame.flags.last));
    }

    method Decoded(p: Plan)
      requires Valid() && pending.None?
      modifies this`decodedPlan
      ensures Valid() && decodedPlan == Some(p)
    {
      hide AdvanceBy, ProgressWellFormed, KeysDistinct, PhaseSound, ReplaySound, RoutesSound;
      decodedPlan := Some(p);
    }

    /** All bytes are there: decode, look for a retained answer, act. */
    method FinishPlan(route: Route, frame: Frame, kind: ActionKind) returns (out: Emission)
      requires Valid() && pending.None? && plan.Some? && (kind.DoBegin? || kind.DoDiscard?)
      requires frame.cookie == 0 && PlanWhole(plan.value)
      modifies this
      ensures Consumed(route, frame, out)
      ensures FinishesPlan(digest, old(Now()), route, frame, kind, old(plan).value, old(fromReady), out, Now())
    {
      hide AdvanceBy, ProgressWellFormed, KeysDistinct, DecodePlan, KeyRetained, SameKey, ReplaySound, RoutesSound, LookupReplay,
           PhaseSound, PendingSound, AnswersPlan;
      var decoded := DecodePlan(Known(plan.value.partial));
      if !decoded.Decoded? {
        RestoreAfterPlan();
        return Replied(StatusReply(frame.opcode, frame.requestId, frame.offset, Status.IntegrityError, 0));
      }
      Decoded(decoded.plan);
      out := AnswerPlan(route, frame, kind, decoded.plan);
    }

    method AnswerPlan(route: Route, frame: Frame, kind: ActionKind, p: Plan) returns (out: Emission)
      requires Valid() && pending.None? && plan.Some? && (kind.DoBegin? || kind.DoDiscard?) && frame.cookie == 0 && decodedPlan == Some(p)
      modifies this
      ensures Consumed(route, frame, out)
      ensures AnswersPlan(digest, old(replay), route, frame, kind, p, old(fromReady), out, Now())
      ensures out.Replied? ==> plan.None? && phase == if old(fromReady) then Ready else Idle
    {
      hide AdvanceBy, ProgressWellFormed, KeysDistinct, KeyRetained, SameKey, ReplaySound, RoutesSound, LookupReplay, PhaseSound,
           PendingSound;
      var request := PlanRequest(digest, route, frame, p);
      var found := LookupReplay(replay, request);
      ExactMatches(replay, nextSlot, pending, request);
      if found.Exact? {
        RestoreAfterPlan();
        return Replied(found.reply);
      }
      if found.Conflicting? || fromReady {
        RestoreAfterPlan();
        return Replied(StatusReply(frame.opcode, frame.requestId, frame.offset, Status.IntegrityError, 0));
      }
      out := ActOnPlan(route, frame, kind, request);
    }

    method ActOnPlan(route: Route, frame: Frame, kind: ActionKind, request: Request) returns (out: Emission)
      requires Valid() && plan.Some? && !fromReady && decodedPlan.Some?
      requires !KeyRetained(replay, request) && request.route == route && request.cookie == 0 && (kind.DoBegin? || kind.DoDiscard?)
      modifies this`plan, this`planKind, this`pending, this`phase, this`nextToken, this`issued, this`closed
      ensures Valid() && issued == old(issued) + 1 && nextToken == Advance(old(nextToken)) && closed == old(closed) - {route}
      ensures out == Acted(Action(old(nextToken), kind, route, frame.requestId, frame.cookie, decodedPlan, NO_IDENTITY, CurrentProgress, [], 0))
      ensures pending == Some(Pending(false, kind, old(nextToken), request, frame.offset, NO_IDENTITY))
    {
      hide AdvanceBy, ProgressWellFormed, KeysDistinct;
      plan, planKind := None, DoBegin;
      var token := BeginPending(kind, frame, request, NO_IDENTITY);
      out := Acted(Action(token, kind, route, frame.requestId, frame.cookie, decodedPlan, NO_IDENTITY, CurrentProgress, [], 0));
    }

    /** Manifest and payload units arrive in fragments of the open session. */
    method ConsumeData(route: Route, frame: Frame) returns (out: Emission)
      requires Valid() && pending.None?
      modifies this
      ensures Consumed(route, frame, out)
      ensures TakesData(digest, old(Now()), route, frame, out, Now())
    {
      hide AdvanceBy, ProgressWellFormed, KeysDistinct, ReplaySound, PendingSound, RoutesSound, LookupReplay, RequestOf,
           PhaseSound, PlaceOf, BlockLength;
      var refused, place := OpenData(route, frame);
      if refused.Some? { return Replied(StatusReply(frame.opcode, frame.requestId, frame.offset, refused.value, frame.cookie)); }
      FreshAccepts(place.expected, Fragment(place.offset, frame.body));
      hide Verdict;
      out := JoinUnit(route, frame, place.offset);
    }

    /** The fragment joins the open unit or is refused. */
    method JoinUnit(route: Route, frame: Frame, offset: nat) returns (out: Emission)
      requires Valid() && pending.None? && Owns(route, frame) && unit.Some? && phase.UnitAssembly?
      modifies this
      ensures Consumed(route, frame, out)
      ensures var joins, parts := Verdict(old(unit).value.partial, Fragment(offset, frame.body)).Accepted?, UnitPlus(old(unit).value, offset, frame);
              && (!joins ==>
                    && Now() == old(Now())
                    && Says(out, frame, if Verdict(old(unit).value.partial, Fragment(offset, frame.body)).Conflict?
                                        then Status.IntegrityError else BadRequest, frame.cookie))
              && (joins && !UnitWhole(parts) ==>
                    && unit == Some(parts) && phase.UnitAssembly?
                    && out == Replied(Reply(frame.opcode, Fine, frame.requestId, frame.cookie,
                                            parts.base + FirstMissing(parts.partial, 0), MissingBody(parts.partial))))
              && (joins && UnitWhole(parts) ==> FinishesUnit(digest, old(Now()), route, frame, parts, out, Now()))
    {
      hide AdvanceBy, ProgressWellFormed, KeysDistinct, ReplaySound, PendingSound, RoutesSound, LookupReplay, RequestOf,
           PhaseSound, PlaceOf, BlockLength, Step;
      var f := Fragment(offset, frame.body);
      var verdict := Verdict(unit.value.partial, f);
      if !verdict.Accepted? {
        return Replied(StatusReply(frame.opcode, frame.requestId, frame.offset,
                                   if verdict.Conflict? then Status.IntegrityError else BadRequest, frame.cookie));
      }
      AddUnitFragment(frame, f);
      var parts := unit.value;
      ReceivedBounds(parts.partial);
      if Received(parts.partial) != |parts.partial| || !parts.sawFirst || !parts.sawLast {
        return Replied(Reply(frame.opcode, Fine, frame.requestId, frame.cookie,
                             parts.base + FirstMissing(parts.partial, 0), MissingBody(parts.partial)));
      }
      out := FinishUnit(route, frame);
    }

    /** Everything that is checked before the assembler sees the bytes. */
    method OpenData(route: Route, frame: Frame) returns (refused: Option<Status>, place: UnitPlace)
      requires Valid() && pending.None?
      modifies this`unit, this`phase
      ensures Valid()
      ensures refused.None? <==>
                && DataFlagsFit(frame) && Owns(route, frame) && old(Now().PlaceNow(frame)).Some?
                && UnitFrameShaped(old(Now().PlaceNow(frame)).value, frame) && old(Now().UnitOpens(Now().PlaceNow(frame).value, frame))
      ensures refused.None? ==>
                && Some(place) == old(Now().PlaceNow(frame)) && phase.UnitAssembly?
                && unit == Some(old(Now().UnitBefore(Now().PlaceNow(frame).value, frame)))
      ensures refused.Some? ==>
                && Now() == old(Now())
                && refused.value == (
                     if !Owns(route, frame) then Status.TransactionMismatch
                     else if !DataFlagsFit(frame) || (!phase.Ready? && !phase.UnitAssembly?) || Now().PlaceNow(frame).None?
                             || !UnitFrameShaped(Now().PlaceNow(frame).value, frame) || phase.Ready?
                     then BadRequest else Status.Busy)
      ensures refused.None? ==>
                if old(phase).UnitAssembly? then Now() == old(Now()) else unit.value.partial == Unknown(place.expected)
    {
      hide AdvanceBy, ProgressWellFormed, KeysDistinct, ReplaySound, PendingSound, RoutesSound;
      place := UnitPlace(ManifestRegion, 0, 0, 0, 0);
      if !DataFlagsFit(frame) || !Owns(route, frame) || (!phase.Ready? && !phase.UnitAssembly?) {
        return Some(if Owns(route, frame) then BadRequest else Status.TransactionMismatch), place;
      }
      var found := Now().PlaceNow(frame);
      if found.None? || !UnitFrameShaped(found.value, frame) { return Some(BadRequest), place; }
      place := found.value;
      refused := OpenUnit(place, frame);
    }

    method OpenUnit(place: UnitPlace, frame: Frame) returns (refused: Option<Status>)
      requires Valid() && pending.None? && (phase.Ready? || phase.UnitAssembly?) && place.expected != 0
      modifies this`unit, this`phase
      ensures Valid()
      ensures refused.None? <==> old(Now().UnitOpens(place, frame))
      ensures refused.None? ==> phase.UnitAssembly? && unit == Some(old(Now().UnitBefore(place, frame)))
      ensures refused.Some? ==> Now() == old(Now()) && refused.value == if phase.Ready? then BadRequest else Status.Busy
      ensures refused.None? ==>
                if old(phase).UnitAssembly? then Now() == old(Now()) else unit.value.partial == Unknown(place.expected)
    {
      hide AdvanceBy, ProgressWellFormed, KeysDistinct, ReplaySound, PendingSound, RoutesSound;
      if phase.Ready? {
        if !frame.flags.first || place.expected > SECTOR || place.unitIndex >= 128 { return Some(BadRequest); }
        unit := Some(UnitParts(place.region, place.unitIndex, frame.requestId, place.base, Unknown(place.expected), false, false));
        phase := UnitAssembly;
        return None;
      }
      if unit.value.requestId != frame.requestId || unit.value.region != place.region || unit.value.unitIndex != place.unitIndex {
        return Some(Status.Busy);
      }
      refused := None;
    }

    method AddUnitFragment(frame: Frame, f: Fragment)
      requires Valid() && unit.Some? && phase.UnitAssembly?
      modifies this`unit, this`activity
      ensures Valid() && unit.Some?
      ensures unit.value == old(unit).value.(partial := Step(old(unit).value.partial, f),
                sawFirst := old(unit).value.sawFirst || frame.flags.first, sawLast := old(unit).value.sawLast || frame.flags.last)
    {
      hide AdvanceBy, ProgressWellFormed, KeysDistinct, ReplaySound, PendingSound, RoutesSound;
      var parts := unit.value;
      var partial := Step(parts.partial, f);
      if Received(partial) > Received(parts.partial) || (frame.flags.first && !parts.sawFirst) || (frame.flags.last && !parts.sawLast) {
        activity := Advance(activity);
      }
      unit := Some(parts.(partial := partial, sawFirst := parts.sawFirst || frame.flags.first, sawLast := parts.sawLast || frame.flags.last));
    }

    /** The unit is whole: look for a retained answer, otherwise lend its bytes to an action. */
    method FinishUnit(route: Route, frame: Frame) returns (out: Emission)
      requires Valid() && phase.UnitAssembly? && unit.Some? && UnitWhole(unit.value)
      requires Owns(route, frame)
      modifies this
      ensures Consumed(route, frame, out)
      ensures FinishesUnit(digest, old(Now()), route, frame, old(unit).value, out, Now())
    {
      hide AdvanceBy, ProgressWellFormed, KeysDistinct;
      var parts := unit.value;
      var bytes := Known(parts.partial);
      var request := UnitRequest(digest, route, frame, parts);
      var found := LookupReplay(replay, request);
      ExactMatches(replay, nextSlot, pending, request);
      if !found.Miss? {
        unit, phase := None, Ready;
        return Replied(if found.Exact? then found.reply
                       else StatusReply(frame.opcode, frame.requestId, frame.offset, Status.IntegrityError, frame.cookie));
      }
      var kind := if parts.region.ManifestRegion? then DoWriteManifest else DoWriteBlock;
      var expected := binding.value.progress.identity;
      var token := BeginPending(kind, frame, request, expected);
      out := Acted(Action(token, kind, route, frame.requestId, frame.cookie, None, expected, CurrentProgress, bytes, parts.unitIndex));
    }

    // ---------- Completions ----------

    method ClearAssemblies()
      modifies this`plan, this`unit, this`fromReady, this`planKind
      ensures plan.None? && unit.None? && !fromReady
    {
      plan, unit, fromReady, planKind := None, None, false, DoBegin;
    }

    /** remember_replay: one slot, the oldest one. */
    method Remember(request: Request, reply: Reply)
      requires |replay| == REPLAY_ENTRIES && nextSlot < REPLAY_ENTRIES && KeysDistinct(replay) && !KeyRetained(replay, request)
      requires AnswersMatch(replay) && reply.requestId == request.requestId
      modifies this`replay, this`nextSlot
      ensures replay == old(replay)[old(nextSlot) := Some(ReplayEntry(request, reply))]
      ensures nextSlot == (old(nextSlot) + 1) % REPLAY_ENTRIES
      ensures KeysDistinct(replay) && AnswersMatch(replay)
      ensures LookupReplay(replay, request) == Exact(reply)
    {
      RememberedKeys(replay, nextSlot, request, reply);
      ExactReplyIsUnique(replay[nextSlot := Some(ReplayEntry(request, reply))], nextSlot);
      replay := replay[nextSlot := Some(ReplayEntry(request, reply))];
      nextSlot := (nextSlot + 1) % REPLAY_ENTRIES;
    }

    /** Only the matching completion of the outstanding action has any effect. */
    method Complete(completion: Completion) returns (r: SessionResult, out: Emission)
      requires Valid()
      modifies this
      ensures Valid() && closed == old(closed) && issued == old(issued)
      ensures r == if old(pending).None? then NoPendingAction
                   else if completion.token != old(pending).value.token || completion.kind != old(pending).value.kind then StaleCompletion
                   else SessionResult.Ok
      ensures Completes(old(Now()), completion, out, Now())
      ensures out.Replied? && out.reply.status.Fine? ==> LookupReplay(replay, old(pending).value.request) == Exact(out.reply)
    {
      hide AdvanceBy, ProgressWellFormed, KeysDistinct, ContractMet, Succeeds, LookupReplay, SameKey, AnswersMatch;
      if pending.None? { return NoPendingAction, Nothing; }
      if completion.token != pending.value.token || completion.kind != pending.value.kind { return StaleCompletion, Nothing; }
      var finished := pending.value;
      if finished.orphaned {
        EndSession();
        return SessionResult.Ok, Nothing;
      }
      r := SessionResult.Ok;
      if !completion.result.Ok? {
        out := Refuse(finished, StatusOf(completion.result));
      } else if !ContractMet(completion, finished, decodedPlan, Now().ProgressNow()) {
        out := Replied(StatusReply(finished.request.opcode, finished.request.requestId, finished.offset, InternalError, finished.request.cookie));
        EndSession();
      } else {
        out := Succeed(completion, finished);
      }
    }

    /** The session is over, and so is its action. */
    method EndSession()
      requires Valid()
      modifies this`pending, this`binding, this`phase, this`plan, this`unit, this`fromReady, this`planKind
      ensures Valid() && pending.None? && binding.None? && phase.Idle?
    {
      hide AdvanceBy, ProgressWellFormed, KeysDistinct, KeyRetained, AnswersMatch;
      pending, binding, phase := None, None, Idle;
      ClearAssemblies();
    }

    /** An error from the store ends the request; an open session survives it. */
    method Refuse(finished: Pending, status: Status) returns (out: Emission)
      requires Valid() && pending == Some(finished) && !finished.orphaned && !status.Fine?
      modifies this`pending, this`phase, this`unit, this`binding
      ensures Valid() && pending.None?
      ensures out == Replied(StatusReply(finished.request.opcode, finished.request.requestId, finished.offset, status, finished.request.cookie))
      ensures binding == if NeedsBinding(finished) then old(binding) else None
      ensures phase == if binding.Some? then Ready else Idle
    {
      hide AdvanceBy, ProgressWellFormed, KeysDistinct;
      out := Replied(StatusReply(finished.request.opcode, finished.request.requestId, finished.offset, status, finished.request.cookie));
      if NeedsBinding(finished) {
        phase := Ready;
      } else {
        binding, phase := None, Idle;
      }
      if IsWrite(finished.kind) { unit := None; }
      pending := None;
    }

    method NewCookie() returns (cookie: u32)
      requires nextCookie != 0
      modifies this`nextCookie
      ensures cookie == old(nextCookie) && nextCookie == Advance(cookie)
    {
      cookie := nextCookie;
      nextCookie := Advance(nextCookie);
    }

    /** The answer of a believed success, and what the session is afterwards. */
    method Succeed(c: Completion, finished: Pending) returns (out: Emission)
      requires Valid() && pending == Some(finished) && !finished.orphaned && c.kind == finished.kind
      requires ContractMet(c, finished, decodedPlan, Now().ProgressNow())
      modifies this`pending, this`phase, this`unit, this`plan, this`fromReady, this`planKind, this`binding, this`replay,
               this`nextSlot, this`nextCookie
      ensures Valid() && pending.None?
      ensures out.Replied? && out.reply.status.Fine?
      ensures out.reply.requestId == finished.request.requestId && out.reply.opcode == finished.request.opcode
      ensures LookupReplay(replay, finished.request) == Exact(out.reply)
      ensures replay == old(replay)[old(nextSlot) := Some(ReplayEntry(finished.request, out.reply))]
      ensures nextSlot == (old(nextSlot) + 1) % REPLAY_ENTRIES
      ensures Succeeds(old(Now()), c, finished, out.reply, Now())
      ensures phase == if binding.Some? then Ready else Idle
    {
      hide AdvanceBy, ProgressWellFormed, KeysDistinct, LookupReplay;
      var request := finished.request;
      var reply := StatusReply(request.opcode, request.requestId, finished.offset, Fine, 0);
      var next: Option<Binding>;
      match finished.kind {
        case DoBegin =>
          var cookie := NewCookie();
          next := Some(Binding(request.route, cookie, c.progress.value));
          reply := Reply(request.opcode, Fine, request.requestId, cookie, 0, IdentityBody(c.progress.value));
        case DoDiscard => next := None;
        case DoQueryActive =>
          next := None;
          reply := Reply(request.opcode, Fine, request.requestId, 0,
                         if c.currentActive.value.Some? then c.currentActive.value.value.generation % 0x1_0000_0000 else 0,
                         ActiveBody(c.currentActive.value));
        case DoResumeQuery =>
          if !c.outcome.value.Active? {
            next := None;
            reply := Reply(request.opcode, Fine, request.requestId, 0, 0,
                           OutcomeBody(c.outcome.value, c.identity.value, c.outcomeManifestBytes, c.outcomePayloadBytes));
          } else if request.cookie == 0 {
            var cookie := NewCookie();
            next := Some(Binding(request.route, cookie, c.progress.value));
            reply := Reply(request.opcode, Fine, request.requestId, cookie, 0, IdentityBody(c.progress.value));
          } else {
            next := Some(binding.value.(progress := c.progress.value));
            reply := Reply(request.opcode, Fine, request.requestId, request.cookie, 0, ProgressBody(c.progress.value));
          }
        case DoWriteManifest =>
          next := Some(binding.value.(progress := c.progress.value));
          reply := Reply(request.opcode, Fine, request.requestId, request.cookie, 0, ProgressBody(c.progress.value));
        case DoWriteBlock =>
          next := Some(binding.value.(progress := c.progress.value));
          reply := Reply(request.opcode, Fine, request.requestId, request.cookie, 0, ProgressBody(c.progress.value));
        case DoCommit =>
          next := None;
          reply := reply.(cookie := request.cookie);
        case DoAbort =>
          next := None;
          reply := reply.(cookie := request.cookie);
      }
      Settle(request, reply, next);
      out := Replied(reply);
    }

    /** Remembers the answer and moves to the session that follows it. */
    method Settle(request: Request, reply: Reply, next: Option<Binding>)
      requires ReplaySound(replay, nextSlot, pending) && RoutesSound(binding, plan, pending, replay, closed)
      requires nextCookie != 0 && nextToken != 0 && firstToken != 0 && nextToken == AdvanceBy(firstToken, issued)
      requires pending.Some? && !pending.value.orphaned && request == pending.value.request && reply.requestId == request.requestId
      requires next.Some? ==> next.value.route == request.route && next.value.cookie != 0 && ProgressWellFormed(next.value.progress)
      modifies this`pending, this`phase, this`unit, this`plan, this`fromReady, this`planKind, this`binding, this`replay, this`nextSlot
      ensures Valid() && pending.None? && binding == next
      ensures phase == if next.Some? then Ready else Idle
      ensures LookupReplay(replay, request) == Exact(reply)
      ensures replay == old(replay)[old(nextSlot) := Some(ReplayEntry(request, reply))]
      ensures nextSlot == (old(nextSlot) + 1) % REPLAY_ENTRIES
    {
      hide AdvanceBy, ProgressWellFormed, KeysDistinct, LookupReplay;
      Remember(request, reply);
      binding, pending := next, None;
      phase := if next.Some? then Ready else Idle;
      ClearAssemblies();
    }

    // ---------- Routes ----------

    /** A closed route loses its binding, its assembly and its answers; an action of it may
        finish, but silently. */
    method RouteClosed(route: Route)
      requires Valid()
      modifies this
      ensures Valid() && closed == old(closed) + {route} && issued == old(issued)
      ensures LosesRoute(old(Now()), route, Now())
    {
      hide AdvanceBy, ProgressWellFormed, PhaseSound, PendingSound, ReplaySound, RoutesSound, NeedsBinding;
      if Now().Involves(route) { LeaveRoute(route); }
      RouteForgotten(Now(), route, closed);
      replay := WithoutRoute(replay, route);
      closed := closed + {route};
    }

    /** Whatever of this route is under way ends, or goes on for nobody. */
    method LeaveRoute(route: Route)
      requires Valid() && Now().Involves(route)
      modifies this`binding, this`pending, this`phase, this`plan, this`unit, this`fromReady, this`planKind
      ensures Valid() && binding.None? && plan.None? && (pending.None? ==> phase.Idle? && unit.None?)
      ensures pending == (if old(pending).Some? && old(pending).value.request.route == route then Some(old(pending).value.(orphaned := true))
                          else old(pending))
    {
      hide AdvanceBy, ProgressWellFormed, NeedsBinding, KeysDistinct, AnswersMatch, KeyRetained;
      binding := None;
      if pending.Some? && pending.value.request.route == route {
        pending := Some(pending.value.(orphaned := true));
        if !IsWrite(pending.value.kind) { plan := None; }
        return;
      }
      ClearAssemblies();
      phase := Idle;
    }

    /** Fail-closed teardown of every transport. */
    method AllRoutesClosed()
      requires Valid()
      modifies this
      ensures Valid() && LosesAllRoutes(old(Now()), Now())
    {
      hide AdvanceBy, ProgressWellFormed, NeedsBinding, PhaseSound, PendingSound, ReplaySound, RoutesSound;
      LeaveAll();
      NothingRemembered(pending, closed);
      replay, nextSlot := seq(REPLAY_ENTRIES, _ => None), 0;
      closed := closed + (if pending.Some? then {pending.value.request.route} else {});
    }

    /** No session and no assembly is left, and a running action answers nobody. */
    method LeaveAll()
      requires Valid()
      modifies this`binding, this`pending, this`phase, this`plan, this`unit, this`fromReady, this`planKind
      ensures Valid() && binding.None? && plan.None? && (pending.None? ==> phase.Idle? && unit.None?)
      ensures pending == (if old(pending).Some? then Some(old(pending).value.(orphaned := true)) else None)
    {
      hide AdvanceBy, ProgressWellFormed, NeedsBinding, KeysDistinct, AnswersMatch, KeyRetained;
      binding := None;
      if pending.Some? {
        pending := Some(pending.value.(orphaned := true));
        if !IsWrite(pending.value.kind) { ClearAssemblies(); }
        return;
      }
      ClearAssemblies();
      phase := Idle;
    }

    /** Only the incomplete assembly of exactly this route is dropped. */
    method ExpirePartial(route: Route) returns (expired: bool)
      requires Valid()
      modifies this
      ensures Valid() && issued == old(issued) && Expires(old(Now()), route, Now())
      ensures expired <==> old(phase.BeginAssembly? && plan.value.owner == route) || old(phase.UnitAssembly? && binding.value.route == route)
    {
      hide AdvanceBy, ProgressWellFormed, KeysDistinct;
      if phase.BeginAssembly? && plan.value.owner == route {
        RestoreAfterPlan();
        return true;
      }
      if phase.UnitAssembly? && binding.value.route == route {
        unit, phase := None, Ready;
        return true;
      }
      expired := false;
    }
  }

  lemma RememberedKeys(replay: seq<Option<ReplayEntry>>, slot: nat, request: Request, reply: Reply)
    requires KeysDistinct(replay) && slot < |replay| && !KeyRetained(replay, request)
    ensures KeysDistinct(replay[slot := Some(ReplayEntry(request, reply))])
  {
  }

  /** Without the answers of a route that has nothing else left, the rest is as sound as
      before. */
  lemma RouteForgotten(s: State, route: Route, closed: set<Route>)
    requires ReplaySound(s.replay, s.nextSlot, s.pending) && RoutesSound(s.binding, s.plan, s.pending, s.replay, closed)
    requires s.binding.Some? ==> s.binding.value.route != route
    requires s.plan.Some? ==> s.plan.value.owner != route
    requires s.pending.Some? && s.pending.value.request.route == route ==> s.pending.value.orphaned
    ensures ReplaySound(WithoutRoute(s.replay, route), s.nextSlot, s.pending)
    ensures RoutesSound(s.binding, s.plan, s.pending, WithoutRoute(s.replay, route), closed + {route})
  {
  }

  /** An empty memory is sound for whatever still runs. */
  lemma NothingRemembered(pending: Option<Pending>, closed: set<Route>)
    ensures var replay := seq(REPLAY_ENTRIES, _ => None);
            var more := closed + (if pending.Some? then {pending.value.request.route} else {});
            && (pending.Some? ==> pending.value.orphaned) ==> ReplaySound(replay, 0, pending) && RoutesSound(None, None, pending, replay, more)
  {
  }

  /** A first fragment within bounds is never refused. */
  lemma FreshAccepts(n: nat, f: Fragment)
    ensures f.data != [] && |f.data| <= FRAGMENT_MAX && f.offset + |f.data| <= n ==> Verdict(Unknown(n), f).Accepted?
  {
  }

  predicate UnitFrameShaped(place: UnitPlace, frame: Frame) {
    && place.expected != 0 && place.offset + |frame.body| <= place.expected
    && (frame.flags.first <==> place.offset == 0)
    && (frame.flags.last <==> place.offset + |frame.body| == place.expected)
  }

  lemma PendingWhen(phase: Phase, binding: Option<Binding>, plan: Option<PlanParts>, unit: Option<UnitParts>,
                    fromReady: bool, pending: Option<Pending>)
    requires PhaseSound(phase, binding, plan, unit, fromReady, pending)
    ensures phase.ActionPending? <==> pending.Some?
  {
  }

  predicate Rejected(frame: Frame) { frame.flags.unknown || frame.flags.response || frame.flags.error }

  /** The action a request of one frame asks for. */
  function KindOf(opcode: Opcode): ActionKind {
    match opcode
    case CurrentActive => DoQueryActive
    case Commit => DoCommit
    case Abort => DoAbort
    case _ => DoResumeQuery
  }

  /** Exactly the retained reply, an integrity error, or neither. */
  predicate LookupAnswers(found: Lookup, out: Emission) {
    && (found.Exact? ==> out == Replied(found.reply))
    && (found.Conflicting? ==> out.Replied? && out.reply.status.IntegrityError?)
  }

  /** A completion with the token of an earlier action is never taken for the outstanding
      one, unless the whole token range lies between them. */
  lemma StaleTokenNeverMatches(firstToken: u32, earlier: nat, outstanding: nat)
    requires firstToken != 0 && earlier < outstanding < earlier + MAX_U32
    ensures AdvanceBy(firstToken, earlier) != AdvanceBy(firstToken, outstanding)
  {
    NumbersDistinct(firstToken, earlier, outstanding);
  }
}
