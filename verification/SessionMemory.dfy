/** At most once: over any run a success that is still remembered is never executed again. */
module SessionMemory {
  import opened Bytes
  import opened Generations
  import opened PlanWire
  import opened Assemblers
  import opened Session

  /** The request that this frame completes, if it completes one. */
  function Asked(digest: Fingerprint, s: State, route: Route, frame: Frame): Option<Session.Request> {
    if !FrameAdmissible(route, frame) || Rejected(frame) || s.pending.Some? then None
    else
      match frame.opcode
      case Begin => PlanAsked(digest, s, route, frame, DoBegin)
      case Recover => PlanAsked(digest, s, route, frame, DoDiscard)
      case Data =>
        if s.DataJoins(route, frame) && UnitWhole(s.UnitAfter(s.PlaceNow(frame).value, frame)) then
          Some(UnitRequest(digest, route, frame, s.UnitAfter(s.PlaceNow(frame).value, frame)))
        else None
      case Capabilities => None
      case UnknownOpcode => None
      case _ => if SingleShaped(frame) then Some(FrameRequest(digest, route, frame)) else None
  }

  function PlanAsked(digest: Fingerprint, s: State, route: Route, frame: Frame, kind: ActionKind): Option<Session.Request> {
    var parts := s.PlanAfter(route, frame);
    if !s.PlanJoins(route, frame, kind) || !PlanWhole(parts) || !DecodePlan(Known(parts.partial)).Decoded? then None
    else Some(PlanRequest(digest, route, frame, DecodePlan(Known(parts.partial)).plan))
  }

  /** The success is in the slot that was written `later` answers ago. */
  predicate Remembers(replay: seq<Option<ReplayEntry>>, nextSlot: nat, request: Session.Request, reply: Reply, later: nat) {
    && |replay| == REPLAY_ENTRIES && nextSlot < REPLAY_ENTRIES && later < REPLAY_ENTRIES
    && replay[(nextSlot + 2 * REPLAY_ENTRIES - 1 - later) % REPLAY_ENTRIES] == Some(ReplayEntry(request, reply))
  }

  lemma AnswerIsNewest(replay: seq<Option<ReplayEntry>>, slot: nat, request: Session.Request, reply: Reply)
    requires |replay| == REPLAY_ENTRIES && slot < REPLAY_ENTRIES
    ensures Remembers(replay[slot := Some(ReplayEntry(request, reply))], (slot + 1) % REPLAY_ENTRIES, request, reply, 0)
  {
  }

  /** A further answer ages the success by one, and it stays for seven. */
  lemma AnswerAges(replay: seq<Option<ReplayEntry>>, slot: nat, request: Session.Request, reply: Reply, later: nat, other: ReplayEntry)
    requires Remembers(replay, slot, request, reply, later) && later + 1 < REPLAY_ENTRIES
    ensures Remembers(replay[slot := Some(other)], (slot + 1) % REPLAY_ENTRIES, request, reply, later + 1)
  {
  }

  lemma OtherRouteCloses(replay: seq<Option<ReplayEntry>>, slot: nat, request: Session.Request, reply: Reply, later: nat, route: Route)
    requires Remembers(replay, slot, request, reply, later) && route != request.route
    ensures Remembers(WithoutRoute(replay, route), slot, request, reply, later)
  {
  }

  /** What remembering means for a request under the same key. */
  lemma RememberedAnswers(replay: seq<Option<ReplayEntry>>, slot: nat, request: Session.Request, reply: Reply, later: nat, asked: Session.Request)
    requires Remembers(replay, slot, request, reply, later) && KeysDistinct(replay) && SameKey(request, asked)
    ensures LookupReplay(replay, asked) == if asked == request then Exact(reply) else Conflicting
    ensures KeyRetained(replay, asked)
  {
    var i := (slot + 2 * REPLAY_ENTRIES - 1 - later) % REPLAY_ENTRIES;
    hide LookupReplay, KeysDistinct;
    if asked == request { ExactReplyIsUnique(replay, i); } else { ChangedRequestConflicts(replay, i, asked); }
    assert replay[i].Some? && SameKey(replay[i].value.request, asked);
  }

  datatype Event =
    | FrameIn(route: Route, frame: Frame)
    | Finishes(completion: Completion)
    | Closes(route: Route)
    | Overdue(route: Route)

  /** One event, the answer or action it led to, and the session before and after. */
  datatype Step = Step(event: Event, out: Emission, before: State, after: State)

  /** The step is what the session does at this event. */
  predicate Happens(digest: Fingerprint, step: Step) {
    match step.event
    case FrameIn(route, frame) => TakesFrame(digest, step.before, route, frame, step.out, step.after)
    case Finishes(completion) => Completes(step.before, completion, step.out, step.after)
    case Closes(route) => step.out.Nothing? && LosesRoute(step.before, route, step.after)
    case Overdue(route) => step.out.Nothing? && Expires(step.before, route, step.after)
  }

  /** A retransmission gets the identical reply, a changed request under its key an error, and
      neither gets an action. */
  predicate AtMostOnce(digest: Fingerprint, step: Step, request: Session.Request, reply: Reply) {
    step.event.FrameIn? ==>
      var asked := Asked(digest, step.before, step.event.route, step.event.frame);
      && (step.out.Acted? ==> step.after.pending.Some? && !SameKey(request, step.after.pending.value.request))
      && (asked == Some(request) ==> step.out == Replied(reply))
      && (asked.Some? && SameKey(request, asked.value) && asked.value != request ==>
            step.out.Replied? && step.out.reply.status.IntegrityError?)
  }

  /** One frame while a success is remembered. */
  lemma FrameAnswered(digest: Fingerprint, step: Step, request: Session.Request, reply: Reply, later: nat)
    requires Happens(digest, step) && step.event.FrameIn?
    requires KeysDistinct(step.before.replay) && Remembers(step.before.replay, step.before.nextSlot, request, reply, later)
    ensures AtMostOnce(digest, step, request, reply)
    ensures step.after.replay == step.before.replay && step.after.nextSlot == step.before.nextSlot
  {
    hide DecodePlan, KeysDistinct, LookupReplay, RequestOf, KeyRetained, Remembers, Carries;
    var s, t := step.before, step.after;
    var asked := Asked(digest, s, step.event.route, step.event.frame);
    if asked.Some? && SameKey(request, asked.value) {
      RememberedAnswers(s.replay, s.nextSlot, request, reply, later, asked.value);
    }
    if step.out.Acted? && SameKey(request, t.pending.value.request) {
      RememberedAnswers(s.replay, s.nextSlot, request, reply, later, t.pending.value.request);
    }
  }

  // ---------- Runs ----------

  /** Every step is what the session does at its event, and starts where the one before ended. */
  predicate Linked(digest: Fingerprint, steps: seq<Step>, events: seq<Event>, first: State) {
    && |steps| == |events|
    && (forall i | 0 <= i < |steps| ::
          && steps[i].event == events[i] && Happens(digest, steps[i]) && KeysDistinct(steps[i].before.replay)
          && steps[i].before == StateAt(steps, first, i))
  }

  function StateAt(steps: seq<Step>, first: State, i: nat): State
    requires i <= |steps|
  {
    if i == 0 then first else steps[i - 1].after
  }

  lemma LinkedOn(digest: Fingerprint, steps: seq<Step>, events: seq<Event>, first: State, step: Step)
    requires |steps| < |events| && Linked(digest, steps, events[..|steps|], first)
    requires step.event == events[|steps|] && Happens(digest, step) && KeysDistinct(step.before.replay)
    requires step.before == StateAt(steps, first, |steps|)
    ensures Linked(digest, steps + [step], events[..|steps| + 1], first)
  {
    hide Happens, KeysDistinct;
  }

  predicate AnswersSuccess(step: Step) { step.event.Finishes? && step.out.Replied? && step.out.reply.status.Fine? }

  /** Successes answered by the first `n` steps, and actions handed out. */
  function Successes(steps: seq<Step>, n: nat): nat
    requires n <= |steps|
  {
    if n == 0 then 0 else Successes(steps, n - 1) + (if AnswersSuccess(steps[n - 1]) then 1 else 0)
  }

  function Actions(steps: seq<Step>): nat {
    if steps == [] then 0 else Actions(steps[..|steps| - 1]) + (if steps[|steps| - 1].out.Acted? then 1 else 0)
  }

  lemma OneMoreStep(steps: seq<Step>, step: Step)
    ensures Actions(steps + [step]) == Actions(steps) + (if step.out.Acted? then 1 else 0)
  {
    assert (steps + [step])[..|steps|] == steps;
  }

  /** Only a success that is answered moves the memory on, and only its own close takes the
      success away. */
  lemma StepAges(digest: Fingerprint, step: Step, request: Session.Request, reply: Reply, later: nat)
    requires Happens(digest, step) && KeysDistinct(step.before.replay)
    requires Remembers(step.before.replay, step.before.nextSlot, request, reply, later) && step.event != Closes(request.route)
    requires AnswersSuccess(step) ==> later + 1 < REPLAY_ENTRIES
    ensures Remembers(step.after.replay, step.after.nextSlot, request, reply, later + (if AnswersSuccess(step) then 1 else 0))
  {
    var s, t := step.before, step.after;
    match step.event
    case FrameIn(route, frame) => FrameAnswered(digest, step, request, reply, later);
    case Finishes(completion) =>
      hide Remembers, ContractMet, Session.Succeeds, LookupReplay, KeysDistinct;
      if AnswersSuccess(step) {
        AnswerAges(s.replay, s.nextSlot, request, reply, later, ReplayEntry(s.pending.value.request, step.out.reply));
      }
    case Closes(route) => OtherRouteCloses(s.replay, s.nextSlot, request, reply, later, route);
    case Overdue(route) =>
  }

  lemma {:induction false} StillRemembered(digest: Fingerprint, steps: seq<Step>, events: seq<Event>, first: State, n: nat,
                                           request: Session.Request, reply: Reply)
    requires Linked(digest, steps, events, first) && n <= |steps|
    requires Remembers(first.replay, first.nextSlot, request, reply, 0)
    requires Successes(steps, n) < REPLAY_ENTRIES && forall i | 0 <= i < n :: events[i] != Closes(request.route)
    ensures Remembers(StateAt(steps, first, n).replay, StateAt(steps, first, n).nextSlot, request, reply, Successes(steps, n))
  {
    hide Happens, KeysDistinct, Remembers, AnswersSuccess;
    if n > 0 {
      StillRemembered(digest, steps, events, first, n - 1, request, reply);
      StepAges(digest, steps[n - 1], request, reply, Successes(steps, n - 1));
    }
  }

  /** Over every run from the moment of a success: until eight further successes were answered
      or its route was closed, every exact retransmission gets the identical reply, every
      changed request under its key an error, and no action is issued for that key again. */
  lemma AtMostOnceOverRuns(digest: Fingerprint, steps: seq<Step>, events: seq<Event>, first: State, request: Session.Request, reply: Reply)
    requires Linked(digest, steps, events, first) && Remembers(first.replay, first.nextSlot, request, reply, 0)
    ensures forall n | 0 <= n < |steps| && Successes(steps, n) < REPLAY_ENTRIES && StillOpen(events, n, request.route) ::
              AtMostOnce(digest, steps[n], request, reply)
  {
    hide Happens, KeysDistinct, Remembers, AtMostOnce, Successes;
    forall n | 0 <= n < |steps| && Successes(steps, n) < REPLAY_ENTRIES && StillOpen(events, n, request.route)
      ensures AtMostOnce(digest, steps[n], request, reply)
    {
      StillRemembered(digest, steps, events, first, n, request, reply);
      if steps[n].event.FrameIn? { FrameAnswered(digest, steps[n], request, reply, Successes(steps, n)); }
      else { OnlyFrames(digest, steps[n], request, reply); }
    }
  }

  predicate StillOpen(events: seq<Event>, n: nat, route: Route)
    requires n <= |events|
  {
    forall i | 0 <= i < n :: events[i] != Closes(route)
  }

  lemma OnlyFrames(digest: Fingerprint, step: Step, request: Session.Request, reply: Reply)
    requires !step.event.FrameIn?
    ensures AtMostOnce(digest, step, request, reply)
  {
  }

  /** One event at the session. */
  method Serve(session: SpeakerAssetsSession, event: Event) returns (out: Emission)
    requires session.Valid()
    modifies session
    ensures session.Valid() && Happens(session.digest, Step(event, out, old(session.Now()), session.Now()))
    ensures KeysDistinct(old(session.replay))
    ensures session.issued == old(session.issued) + (if out.Acted? then 1 else 0)
  {
    hide AdvanceBy, PhaseSound, PendingSound, RoutesSound, KeysDistinct, TakesFrame, Completes, LosesRoute, Expires, LookupReplay;
    assert KeysDistinct(session.replay);
    out := Nothing;
    match event
    case FrameIn(route, frame) =>
      var r;
      r, out := session.Consume(route, frame);
      OnlyAdmissible(session.digest, old(session.Now()), route, frame, out, session.Now());
    case Finishes(completion) =>
      var r;
      r, out := session.Complete(completion);
      NeverActs(old(session.Now()), completion, out, session.Now());
    case Closes(route) => session.RouteClosed(route);
    case Overdue(route) => var _ := session.ExpirePartial(route);
  }

  lemma OnlyAdmissible(digest: Fingerprint, s: State, route: Route, frame: Frame, out: Emission, t: State)
    requires TakesFrame(digest, s, route, frame, out, t)
    ensures !FrameAdmissible(route, frame) ==> out.Nothing?
  {
  }

  lemma NeverActs(s: State, c: Completion, out: Emission, t: State)
    requires Completes(s, c, out, t)
    ensures !out.Acted?
  {
  }

  /** Any run of the session is such a chain of steps, so the above holds of it. */
  method Run(session: SpeakerAssetsSession, events: seq<Event>) returns (ghost steps: seq<Step>)
    requires session.Valid()
    modifies session
    ensures session.Valid() && Linked(session.digest, steps, events, old(session.Now()))
    ensures session.Now() == StateAt(steps, old(session.Now()), |steps|) && session.issued == old(session.issued) + Actions(steps)
    ensures forall request, reply | Remembers(old(session.replay), old(session.nextSlot), request, reply, 0) ::
              forall n | 0 <= n < |steps| && Successes(steps, n) < REPLAY_ENTRIES && StillOpen(events, n, request.route) ::
                AtMostOnce(session.digest, steps[n], request, reply)
  {
    hide SpeakerAssetsSession.Valid, KeysDistinct, Happens, Remembers, AtMostOnce, Successes, Actions;
    ghost var first, issued := session.Now(), session.issued;
    steps := [];
    assert Actions(steps) == 0 by { NoActionYet(); }
    for k := 0 to |events|
      invariant session.Valid() && |steps| == k && Linked(session.digest, steps, events[..k], first)
      invariant session.Now() == StateAt(steps, first, k) && session.issued == issued + Actions(steps)
    {
      ghost var before := session.Now();
      var out := Serve(session, events[k]);
      ghost var step := Step(events[k], out, before, session.Now());
      LinkedOn(session.digest, steps, events, first, step);
      OneMoreStep(steps, step);
      steps := steps + [step];
    }
    assert events[..|events|] == events;
    forall request, reply | Remembers(first.replay, first.nextSlot, request, reply, 0)
      ensures forall n | 0 <= n < |steps| && Successes(steps, n) < REPLAY_ENTRIES && StillOpen(events, n, request.route) ::
                AtMostOnce(session.digest, steps[n], request, reply)
    {
      AtMostOnceOverRuns(session.digest, steps, events, first, request, reply);
    }
  }

  lemma NoActionYet()
    ensures Actions([]) == 0
  {
  }

  /** A success begins such a run. */
  lemma SuccessIsRemembered(s: State, c: Completion, out: Emission, t: State)
    requires Completes(s, c, out, t) && out.Replied? && out.reply.status.Fine? && |s.replay| == REPLAY_ENTRIES
    ensures s.pending.Some? && Remembers(t.replay, t.nextSlot, s.pending.value.request, out.reply, 0)
  {
    hide ContractMet, Session.Succeeds;
    AnswerIsNewest(s.replay, s.nextSlot, s.pending.value.request, out.reply);
  }
}
