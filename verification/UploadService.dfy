/** Session and store together: what the client is told is what the flash holds. */
module UploadService {
  import opened Bytes
  import opened Flash
  import opened SoundFormat
  import opened SoundBanks
  import opened CrashInvariant
  import opened StoreView
  import opened SoundStore
  import opened StoreAnswers
  import opened StoreRuns
  import opened StoreExecutor
  import opened Generations
  import S = Session

  /** What the open session was told about the update still holds. */
  predicate Told(store: SoundAssetStore, binding: Option<S.Binding>)
    reads store
  {
    binding.Some? ==> Tracks(store, binding.value.progress)
  }

  /** The transaction an action meant is the bundle that is served. */
  predicate Published(h: Hashes, image: Image, expected: Identity) {
    var active := ActiveOf(h, image);
    active.Some? && Identity(active.value.generation, active.value.bank, active.value.transaction) == expected
  }

  /** A finished execution that nobody has been told about yet. */
  predicate Answerable(store: SoundAssetStore, action: S.Action, c: S.Completion, p: S.Pending, plan: Option<Plan>, binding: Option<S.Binding>)
    reads store, store.storage
  {
    && c.token == p.token && c.kind == p.kind
    && (!p.orphaned ==>
          if c.result.Ok? then
            && S.ContractMet(c, p, plan, if binding.Some? then Some(binding.value.progress) else None)
            && (S.Opens(c, p) || S.Keeps(p) ==> c.progress.Some? && Tracks(store, c.progress.value))
            && (c.kind.DoCommit? ==> Published(store.h, store.storage.image, action.expected))
            && (c.kind.DoQueryActive? ==> c.currentActive == Some(ActiveOf(store.h, store.storage.image)))
          else S.NeedsBinding(p) ==> Told(store, binding))
  }

  /** Session and store as values, the action handed out, and its result. */
  datatype Device = Device(session: S.State, memory: Memory, action: Option<S.Action>, executed: Option<S.Completion>)

  predicate TracksIn(m: Memory, p: S.Progress) {
    && m.update.Some? && p == ProgressOf(m.update.value, p.manifestComplete, p.blocks)
    && (p.manifestComplete ==> m.manifestComplete) && FlagsKept(p.blocks, m.blocks)
  }

  class UploadService {
    const session: S.SpeakerAssetsSession
    const store: SoundAssetStore
    /** The action handed out, and its result once the worker is done. */
    var action: Option<S.Action>
    var executed: Option<S.Completion>

    ghost predicate Valid()
      reads this, session, store, store.storage
    {
      && session.Valid() && store.Valid()
      && (action.Some? <==> session.pending.Some?) && (executed.Some? ==> action.Some?)
      && (action.Some? ==>
            && action.value.token == session.pending.value.token != 0 && action.value.requestId != 0
            && action.value.kind == session.pending.value.kind)
      && (action.Some? && executed.None? ==>
            && (!session.pending.value.orphaned ==> S.Carries(action.value, session.pending.value, session.binding, session.decodedPlan)))
      && (executed.None? ==> Told(store, session.binding))
      && (executed.Some? ==>
            Answerable(store, action.value, executed.value, session.pending.value, session.decodedPlan, session.binding))
    }

    function Now(): Device
      reads this, session, store, store.storage
    {
      Device(session.Now(), MemoryOf(store), action, executed)
    }

    /** Power up over whatever the flash holds. */
    constructor (h: Hashes, storage: FlashStorage, digest: S.Content -> Digest, cookieSeed: u32, tokenSeed: u32)
      requires SafeRun(h, storage.history) && storage.history[|storage.history| - 1] == storage.image
      ensures Valid() && fresh(session) && fresh(store) && store.h == h && store.storage == storage && session.digest == digest
      ensures action.None? && executed.None? && S.Fresh(session.Now())
      ensures store.update.None? && forall id :: !Pinned(store.leases, id)
    {
      hide SafeRun, ActiveOf, AdvanceBy, S.PendingSound, S.ReplaySound, S.RoutesSound;
      session := new S.SpeakerAssetsSession(digest, cookieSeed, tokenSeed);
      store := new SoundAssetStore(h, storage);
      action, executed := None, None;
    }

    method FrameArrives(route: S.Route, frame: S.Frame) returns (r: S.SessionResult, out: S.Emission)
      requires Valid()
      modifies this`action, session
      ensures Valid() && executed == old(executed)
      ensures action == if out.Acted? then Some(out.action) else old(action)
      ensures old(action).Some? ==> !out.Acted?
      ensures S.TakesFrame(session.digest, old(session.Now()), route, frame, out, session.Now())
    {
      hide SoundAssetStore.Valid, SoundAssetStore.Rewrites, ActiveOf, AdvanceBy, S.PhaseSound, S.PendingSound, S.ReplaySound,
           S.RoutesSound, S.ContractMet, S.Carries;
      TokenIsNumbered(session);
      r, out := session.Consume(route, frame);
      if out.Acted? {
        action := Some(out.action);
      }
    }

    /** The worker is about to send the planned manifest again in the exposed state. */
    predicate AboutToDamage()
      reads this, store, store.storage
    {
      action.Some? && executed.None? && Damaging(store, action.value)
    }

    /** The worker runs the borrowed action, whatever the flash does meanwhile. */
    method RunAction()
      requires Valid() && action.Some? && executed.None? && !Damaging(store, action.value)
      modifies this`executed, store, store.storage
      ensures Valid() && executed.Some? && action == old(action)
      ensures Worked(store.h, old(MemoryOf(store)), action.value, executed.value, MemoryOf(store))
      ensures old(store.storage.history) <= store.storage.history
    {
      hide SoundAssetStore.Valid, SoundAssetStore.Rewrites, Reports, ActiveOf, AdvanceBy, S.PhaseSound, S.PendingSound,
           S.ReplaySound, S.RoutesSound, S.ContractMet, S.Carries, ProgressNow, Worked;
      ghost var p, binding, plan := session.pending.value, session.binding, session.decodedPlan;
      var done, c := StoreExecutor.Execute(store, action.value);
      if c.result.Ok? && !p.orphaned { SuccessIsAnswerable(store, action.value, c, p, plan, binding); }
      executed := Some(c);
    }

    /** The client hears from the session, never that the device contradicts itself; progress
        it hears of is in flash, and a commit it hears of is what is served. */
    method Finish() returns (out: S.Emission)
      requires Valid() && executed.Some?
      modifies this`action, this`executed, session
      ensures Valid() && action.None? && executed.None?
      ensures S.Completes(old(session.Now()), old(executed).value, out, session.Now())
      ensures old(session.pending).value.orphaned <==> out.Nothing?
      ensures out.Nothing? || out.Replied?
      ensures out.Replied? ==> out.reply.status == S.StatusOf(old(executed).value.result)
      ensures out.Replied? ==> !out.reply.status.InternalError?
      ensures out.Replied? && out.reply.status.Fine? ==>
                && (out.reply.body.IdentityBody? ==> Tracks(store, out.reply.body.progress))
                && (out.reply.body.ProgressBody? ==> Tracks(store, out.reply.body.progress))
                && (out.reply.body.ActiveBody? && old(executed).value.kind.DoQueryActive? ==> out.reply.body.active == ActiveOf(store.h, store.storage.image))
                && (old(executed).value.kind.DoCommit? ==> Published(store.h, store.storage.image, old(action).value.expected))
    {
      hide SoundAssetStore.Valid, SoundAssetStore.Rewrites, Reports, ActiveOf, AdvanceBy, S.PhaseSound, S.PendingSound,
           S.ReplaySound, S.RoutesSound, S.ContractMet, Tracks, S.LookupReplay;
      var r;
      r, out := session.Complete(executed.value);
      action, executed := None, None;
    }

    method RouteCloses(route: S.Route)
      requires Valid()
      modifies session
      ensures Valid() && S.LosesRoute(old(session.Now()), route, session.Now())
    {
      hide SoundAssetStore.Valid, SoundAssetStore.Rewrites, ActiveOf, AdvanceBy, S.ReplaySound, S.RoutesSound, S.ContractMet,
           S.Carries, Tracks, S.WithoutRoute;
      session.RouteClosed(route);
    }

    method AllRoutesClose()
      requires Valid()
      modifies session
      ensures Valid() && S.LosesAllRoutes(old(session.Now()), session.Now())
    {
      hide SoundAssetStore.Valid, SoundAssetStore.Rewrites, ActiveOf, AdvanceBy, S.PhaseSound, S.PendingSound, S.ReplaySound,
           S.RoutesSound, S.ContractMet, S.Carries, Tracks;
      session.AllRoutesClosed();
    }

    method Expire(route: S.Route) returns (expired: bool)
      requires Valid()
      modifies session
      ensures Valid() && S.Expires(old(session.Now()), route, session.Now())
    {
      hide SoundAssetStore.Valid, SoundAssetStore.Rewrites, ActiveOf, AdvanceBy, S.PhaseSound, S.PendingSound, S.ReplaySound,
           S.RoutesSound, S.ContractMet, S.Carries, Tracks;
      expired := session.ExpirePartial(route);
    }

    /** The flash starts or stops failing. */
    method FlashTurns(faults: Faults)
      requires Valid()
      modifies store.storage`faults
      ensures Valid() && MemoryOf(store) == old(MemoryOf(store)).(faults := faults)
    {
      hide SafeRun, ActiveOf, S.SpeakerAssetsSession.Valid, S.ContractMet, S.Carries, Tracks;
      ChangeFaults(store, faults);
    }
  }

  lemma SuccessIsAnswerable(store: SoundAssetStore, action: S.Action, c: S.Completion, p: S.Pending, plan: Option<Plan>, binding: Option<S.Binding>)
    requires store.Valid() && Reports(store, action, c) && c.result.Ok? && !p.orphaned
    requires c.token == p.token && c.kind == p.kind == action.kind && S.Carries(action, p, binding, plan)
    requires S.NeedsBinding(p) && !Ends(c) ==> Told(store, binding)
    requires c.kind.DoCommit? ==> Published(store.h, store.storage.image, action.expected)
    ensures Answerable(store, action, c, p, plan, binding)
  {
    hide SoundAssetStore.Valid, ActiveOf;
    Believed(store, action, c, p, plan, binding);
    if store.update.Some? { NowIsWellFormed(store); }
  }

  lemma TokenIsNumbered(session: S.SpeakerAssetsSession)
    requires session.Valid()
    ensures session.nextToken != 0
  {
    hide S.PhaseSound, S.PendingSound, S.ReplaySound, S.RoutesSound;
  }

  // ---------- Every lifetime ----------

  datatype Event =
    | FrameIn(route: S.Route, frame: S.Frame)
    | WorkerRuns
    | WorkerReports
    | Closes(route: S.Route)
    | ClosesAll
    | Expires(route: S.Route)
    | Flash(faults: Faults)
    | Reboots(cookieSeed: u32, tokenSeed: u32)

  /** One event with what the session said, and the device before and after. */
  datatype Moment = Moment(event: Event, out: S.Emission, before: Device, after: Device)

  /** The moment is what session, worker and store do at this event. */
  ghost predicate Lawful(h: Hashes, digest: S.Fingerprint, moment: Moment) {
    var s, t, out := moment.before, moment.after, moment.out;
    match moment.event
    case FrameIn(route, frame) =>
      && S.TakesFrame(digest, s.session, route, frame, out, t.session)
      && t == s.(session := t.session, action := if out.Acted? then Some(out.action) else s.action)
    case WorkerRuns =>
      && out.Nothing?
      && if s.action.Some? && s.executed.None? then
           && t == s.(executed := t.executed, memory := t.memory)
           && t.executed.Some? && Worked(h, s.memory, s.action.value, t.executed.value, t.memory)
         else t == s
    case WorkerReports =>
      if s.action.Some? && s.executed.Some? then
        && t == Device(t.session, s.memory, None, None)
        && S.Completes(s.session, s.executed.value, out, t.session) && Truthful(h, s, out)
      else t == s && out.Nothing?
    case Closes(route) => out.Nothing? && t == s.(session := t.session) && S.LosesRoute(s.session, route, t.session)
    case ClosesAll => out.Nothing? && t == s.(session := t.session) && S.LosesAllRoutes(s.session, t.session)
    case Expires(route) => out.Nothing? && t == s.(session := t.session) && S.Expires(s.session, route, t.session)
    case Flash(faults) => out.Nothing? && t == s.(memory := s.memory.(faults := faults))
    case Reboots(_, _) =>
      out.Nothing? && S.Fresh(t.session) && t.action.None? && t.executed.None? && Rebooted(s.memory, Plain(StoreResult.Ok), t.memory)
  }

  /** What the client hears is the result of the execution, progress in it is known to the
      store, a bundle in it is the one served, and so is a transaction it hears committed. */
  predicate Truthful(h: Hashes, s: Device, out: S.Emission)
    requires s.executed.Some? && s.action.Some?
  {
    out.Replied? ==>
      && out.reply.status == S.StatusOf(s.executed.value.result) && !out.reply.status.InternalError?
      && (out.reply.status.Fine? ==>
            && (out.reply.body.IdentityBody? ==> TracksIn(s.memory, out.reply.body.progress))
            && (out.reply.body.ProgressBody? ==> TracksIn(s.memory, out.reply.body.progress))
            && (out.reply.body.ActiveBody? && s.executed.value.kind.DoQueryActive? ==> out.reply.body.active == ActiveOf(h, s.memory.image))
            && (s.executed.value.kind.DoCommit? ==> Published(h, s.memory.image, s.action.value.expected)))
  }

  function StateAt(moments: seq<Moment>, first: Device, i: nat): Device
    requires i <= |moments|
  {
    if i == 0 then first else moments[i - 1].after
  }

  /** The events in order, each on the device the one before left. */
  ghost predicate Linked(h: Hashes, digest: S.Fingerprint, moments: seq<Moment>, events: seq<Event>, first: Device) {
    && |moments| == |events|
    && forall i | 0 <= i < |moments| ::
         moments[i].event == events[i] && moments[i].before == StateAt(moments, first, i) && Lawful(h, digest, moments[i])
  }

  lemma LinkedOn(h: Hashes, digest: S.Fingerprint, moments: seq<Moment>, events: seq<Event>, first: Device, moment: Moment)
    requires |moments| < |events| && Linked(h, digest, moments, events[..|moments|], first)
    requires moment.event == events[|moments|] && moment.before == StateAt(moments, first, |moments|) && Lawful(h, digest, moment)
    ensures Linked(h, digest, moments + [moment], events[..|moments| + 1], first)
  {
    hide Lawful;
  }

  /** From a factory-blank device, through any frames, worker runs, route closes, faults,
      torn mutations and reboots, up to the first action that sends the planned manifest
      again in the exposed state: every event has its effect and its truthful answer, and the
      flash is crash safe at every instant. */
  method Life(h: Hashes, digest: S.Content -> Digest, events: seq<Event>)
    returns (service: UploadService, served: nat, ghost moments: seq<Moment>, ghost first: Device)
    ensures service.Valid() && service.store.h == h && CrashSafe(h, service.store.storage.history)
    ensures FactoryNew(first.memory) && S.Fresh(first.session) && first.action.None? && first.executed.None?
    ensures served <= |events| && |moments| == served && Linked(h, digest, moments, events[..served], first)
    ensures service.Now() == StateAt(moments, first, served)
    ensures served < |events| ==> events[served].WorkerRuns? && service.AboutToDamage()
  {
    hide SafeRun, ActiveOf, Inv, CrashSafe, S.SpeakerAssetsSession.Valid, Answerable, Told, S.Carries, Owned, StrictSelection,
         Damaging, Lawful, S.Fresh;
    var storage := new FlashStorage();
    FactoryImageIsInv(h, storage.image);
    OneImageRun(h, storage.image);
    service := new UploadService(h, storage, digest, 1, 1);
    served, moments, first := 0, [], service.Now();
    while served < |events| && !(events[served].WorkerRuns? && service.AboutToDamage())
      invariant service.Valid() && service.store.h == h && service.store.storage == storage && service.session.digest == digest
      invariant fresh(service) && fresh(service.session) && fresh(service.store) && fresh(storage)
      invariant served <= |events| && |moments| == served
      invariant Linked(h, digest, moments, events[..served], first) && service.Now() == StateAt(moments, first, served)
    {
      ghost var before := service.Now();
      var out;
      service, out := Happens(service, events[served]);
      ghost var moment := Moment(events[served], out, before, service.Now());
      LinkedOn(h, digest, moments, events, first, moment);
      moments := moments + [moment];
      served := served + 1;
    }
    ValidMeansRun(service.store);
    SafeRunsAreCrashSafe(h, storage.history);
  }

  /** One event of the device. */
  method Happens(service: UploadService, event: Event) returns (next: UploadService, out: S.Emission)
    requires service.Valid() && !(event.WorkerRuns? && service.AboutToDamage())
    modifies service, service.session, service.store, service.store.storage
    ensures next.Valid() && next.store.h == service.store.h && next.store.storage == service.store.storage
    ensures next.session.digest == service.session.digest
    ensures next == service || (fresh(next) && fresh(next.session) && fresh(next.store))
    ensures Lawful(service.store.h, service.session.digest, Moment(event, out, old(service.Now()), next.Now()))
  {
    hide SafeRun, ActiveOf, Inv, S.SpeakerAssetsSession.Valid, Answerable, Told, S.Carries, Owned, Damaging, S.TakesFrame, S.Completes,
         S.LosesRoute, S.LosesAllRoutes, S.Expires, S.Fresh, Worked, Truthful;
    next, out := service, S.Nothing;
    match event
    case FrameIn(route, frame) =>
      var r;
      r, out := service.FrameArrives(route, frame);
    case WorkerRuns =>
      if service.action.Some? && service.executed.None? { service.RunAction(); }
    case WorkerReports =>
      if service.executed.Some? { out := ReportBack(service); }
    case Closes(route) => service.RouteCloses(route);
    case ClosesAll => service.AllRoutesClose();
    case Expires(route) => var _ := service.Expire(route);
    case Flash(faults) => service.FlashTurns(faults);
    case Reboots(cookieSeed, tokenSeed) =>
      ValidMeansRun(service.store);
      next := new UploadService(service.store.h, service.store.storage, service.session.digest, cookieSeed, tokenSeed);
  }

  method ReportBack(service: UploadService) returns (out: S.Emission)
    requires service.Valid() && service.executed.Some?
    modifies service`action, service`executed, service.session
    ensures service.Valid() && service.action.None? && service.executed.None?
    ensures S.Completes(old(service.session.Now()), old(service.executed).value, out, service.session.Now())
    ensures old(service.action).Some? && Truthful(service.store.h, old(service.Now()), out)
  {
    hide SafeRun, ActiveOf, S.SpeakerAssetsSession.Valid, Answerable, Told, S.Carries, S.Completes;
    out := service.Finish();
  }

  lemma ValidMeansRun(store: SoundAssetStore)
    requires store.Valid()
    ensures |store.storage.history| > 0 && SafeRun(store.h, store.storage.history)
    ensures store.storage.history[|store.storage.history| - 1] == store.storage.image
  {
    hide SafeRun;
  }
}
