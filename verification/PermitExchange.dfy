/** The worker, the supervisor and the priority publisher, one atomic step at a time: a
    bounded unit of store work runs only under its own grant, in an unbroken spell of
    allowed priority. */
module PermitExchange {
  import opened Bytes

  const MAX_EPOCH: nat := 0x3FFF_FFFF_FFFF_FFFF
  const MAX_JOB: nat := 0xFFFF_FFFF_FFFF_FFFF
  const MAX_SEQUENCE: nat := 0xFFFF_FFFF

  /** The packed atomic word: epoch, one claimed unit, allowed. */
  datatype Priority = Priority(epoch: nat, claimed: bool, allowed: bool)

  /** The permit of one unit; `work` stands for kind, bank, offset and bytes. */
  datatype Permit = Permit(job: nat, sequence: nat, work: nat)

  datatype Phase = Idle | Accepted | Running | Requested | Granted | Completed

  /** Where the worker is inside worker_claim_permit and the unit that follows it. */
  datatype Worker =
    | Parked
    | Between
    | Sampling(work: nat)
    | Sampled(work: nat, epoch: nat)
    | Asking(permit: Permit, epoch: nat)
    | Awaiting(permit: Permit)
    | Taken(permit: Permit, epoch: nat)
    | Checked(permit: Permit, epoch: nat)
    | Executing(permit: Permit)
    | Releasing

  /** A unit that ran, with the grant it used, how often priority had changed when it was
      requested and when it was claimed, and whether it was on at the claim. */
  datatype Execution = Execution(permit: Permit, grantEpoch: nat, changesAtRequest: nat, changesAtClaim: nat, allowed: bool)

  datatype State = State(
    priority: Priority, phase: Phase, job: nat, nextJob: nat,
    requested: Option<Permit>, requestedEpoch: nat, granted: Option<Permit>, grantedEpoch: nat,
    supervisorSawAllowed: bool,
    worker: Worker, workerJob: nat, nextSequence: nat,
    // Bookkeeping only: priority changes so far, changes at the last request, what ran.
    changes: nat, requestChanges: nat, executions: seq<Execution>, grants: seq<Permit>)

  const START := State(Priority(1, false, false), Idle, 0, 1, None, 0, None, 0, false, Parked, 0, 1, 0, 0, [], [])

  datatype Step =
    | Publish(allowed: bool)
    | Accept
    | WorkerStart
    | WorkerWants(work: nat)
    | WorkerSample
    | WorkerCheckSample
    | WorkerAsk
    | SupervisorLook
    | SupervisorGrant
    | WorkerTake
    | WorkerCheck
    | WorkerClaim
    | WorkerExecute
    | WorkerRelease
    | WorkerFinish
    | Consume

  /** Allowed, unclaimed and still in that epoch. */
  predicate ExactPriority(p: Priority, epoch: nat) { p.allowed && !p.claimed && p.epoch == epoch }

  /** Every change of permission starts a new epoch; at the last one permission stays off. */
  function Published(p: Priority, allowed: bool): Priority {
    if p.allowed == allowed then p
    else if p.epoch == MAX_EPOCH then Priority(MAX_EPOCH, p.claimed, false)
    else Priority(p.epoch + 1, p.claimed, allowed)
  }

  /** The exchange lock is held by a supervisor between looking at priority and granting. */
  predicate LockFree(s: State) { !s.supervisorSawAllowed }

  function Enabled(s: State, step: Step): bool {
    match step
    case Publish(_) => true
    case Accept => LockFree(s) && s.phase.Idle? && s.nextJob != 0
    case WorkerStart => LockFree(s) && s.phase.Accepted? && s.worker.Parked?
    case WorkerWants(_) => s.worker.Between?
    case WorkerSample => s.worker.Sampling?
    case WorkerCheckSample => s.worker.Sampled?
    case WorkerAsk => LockFree(s) && s.worker.Asking?
    case SupervisorLook => LockFree(s) && s.phase.Requested? && s.priority.allowed
    case SupervisorGrant => s.supervisorSawAllowed
    case WorkerTake => LockFree(s) && s.worker.Awaiting? && s.phase.Granted?
    case WorkerCheck => s.worker.Taken?
    case WorkerClaim => s.worker.Checked?
    case WorkerExecute => s.worker.Executing?
    case WorkerRelease => s.worker.Releasing?
    case WorkerFinish => LockFree(s) && s.worker.Between?
    case Consume => LockFree(s) && s.phase.Completed?
  }

  function Apply(s: State, step: Step): State
    requires Enabled(s, step)
  {
    match step
    case Publish(allowed) =>
      s.(priority := Published(s.priority, allowed),
         changes := if Published(s.priority, allowed) == s.priority then s.changes else s.changes + 1)
    case Accept =>
      s.(phase := Accepted, job := s.nextJob, nextJob := if s.nextJob == MAX_JOB then 0 else s.nextJob + 1,
         requested := None, requestedEpoch := 0, granted := None, grantedEpoch := 0)
    case WorkerStart => s.(phase := Running, worker := Between, workerJob := s.job, nextSequence := 1)
    case WorkerWants(work) => s.(worker := Sampling(work))
    case WorkerSample => s.(worker := Sampled(s.worker.work, s.priority.epoch))
    case WorkerCheckSample =>
      if !ExactPriority(s.priority, s.worker.epoch) then s.(worker := Sampling(s.worker.work))
      else if s.nextSequence == 0 then s.(worker := Between)
      else
        s.(worker := Asking(Permit(s.workerJob, s.nextSequence, s.worker.work), s.worker.epoch),
           nextSequence := if s.nextSequence == MAX_SEQUENCE then 0 else s.nextSequence + 1,
           requestChanges := s.changes)
    case WorkerAsk =>
      if s.phase.Running? && s.job == s.workerJob then
        s.(phase := Requested, requested := Some(s.worker.permit), requestedEpoch := s.worker.epoch,
           granted := None, grantedEpoch := 0, worker := Awaiting(s.worker.permit))
      else s.(worker := Between)
    case SupervisorLook => s.(supervisorSawAllowed := true)
    case SupervisorGrant =>
      s.(phase := Granted, granted := s.requested, grantedEpoch := s.priority.epoch, supervisorSawAllowed := false,
         grants := if s.requested.Some? then s.grants + [s.requested.value] else s.grants)
    case WorkerTake =>
      if s.job == s.workerJob && s.granted == Some(s.worker.permit)
      then s.(phase := Running, worker := Taken(s.worker.permit, s.grantedEpoch))
      else s
    case WorkerCheck =>
      if s.worker.epoch == s.requestedEpoch && ExactPriority(s.priority, s.worker.epoch)
      then s.(worker := Checked(s.worker.permit, s.worker.epoch))
      else s.(worker := Sampling(s.worker.permit.work))
    case WorkerClaim =>
      if ExactPriority(s.priority, s.worker.epoch) then
        s.(priority := s.priority.(claimed := true), worker := Executing(s.worker.permit),
           executions := s.executions + [Execution(s.worker.permit, s.worker.epoch, s.requestChanges, s.changes, s.priority.allowed)])
      else s.(worker := Sampling(s.worker.permit.work))
    case WorkerExecute => s.(worker := Releasing)
    case WorkerRelease => s.(priority := s.priority.(claimed := false), worker := Between)
    case WorkerFinish =>
      s.(phase := if s.phase.Running? && s.job == s.workerJob then Completed else s.phase,
         worker := Parked, workerJob := 0, nextSequence := 1)
    case Consume =>
      s.(phase := Idle, job := 0, requested := None, requestedEpoch := 0, granted := None, grantedEpoch := 0)
  }

  /** Any interleaving; a step that is not enabled does nothing. */
  function Run(steps: seq<Step>): State {
    if steps == [] then START
    else
      var s := Run(steps[..|steps| - 1]);
      var step := steps[|steps| - 1];
      if Enabled(s, step) then Apply(s, step) else s
  }

  // ---------- The invariant ----------

  /** Epochs count changes, up to the last one, which is left for good when it is blocked. */
  predicate EpochSound(s: State) {
    && 1 <= s.priority.epoch <= MAX_EPOCH
    && (s.priority.allowed ==> s.priority.epoch == s.changes + 1)
    && s.priority.epoch <= s.changes + 1
    && (s.priority.epoch == s.changes + 1 || s.priority.epoch == MAX_EPOCH)
  }

  /** Permits are used in strictly increasing order of job and sequence number. */
  predicate Before(a: Permit, b: Permit) { a.job < b.job || (a.job == b.job && a.sequence < b.sequence) }

  predicate Ordered(executions: seq<Execution>) {
    forall i, j | 0 <= i < j < |executions| :: Before(executions[i].permit, executions[j].permit)
  }

  /** The permit the worker is busy with before its unit runs. */
  function PermitOf(w: Worker): Option<Permit> {
    match w
    case Asking(permit, _) => Some(permit)
    case Awaiting(permit) => Some(permit)
    case Taken(permit, _) => Some(permit)
    case Checked(permit, _) => Some(permit)
    case _ => None
  }

  predicate Active(s: State) { s.phase.Running? || s.phase.Requested? || s.phase.Granted? }

  predicate WorkerSound(s: State) {
    && (s.worker.Parked? <==> !Active(s))
    && (Active(s) ==> s.workerJob == s.job)
    && ((s.phase.Requested? || s.phase.Granted?) <==> s.worker.Awaiting?)
    && (s.supervisorSawAllowed ==> s.phase.Requested?)
    && (s.worker.Awaiting? ==> s.requested == Some(s.worker.permit))
    && (s.phase.Granted? ==> s.granted == s.requested)
    && (s.priority.claimed <==> s.worker.Executing? || s.worker.Releasing?)
  }

  /** A request remembers the change count of the epoch it was made in. */
  predicate RequestSound(s: State) {
    && (s.worker.Asking? ==> s.worker.epoch == s.requestChanges + 1)
    && (s.worker.Awaiting? || s.worker.Taken? || s.worker.Checked? ==> s.requestedEpoch == s.requestChanges + 1)
    && (s.worker.Checked? ==> s.worker.epoch == s.requestedEpoch)
    && s.requestChanges <= s.changes
  }

  predicate NumbersSound(s: State) {
    && s.nextJob <= MAX_JOB && s.nextSequence <= MAX_SEQUENCE
    && (!s.phase.Idle? ==> s.job != 0 && (s.nextJob == 0 || s.job < s.nextJob))
    && (PermitOf(s.worker).Some? ==>
          var permit := PermitOf(s.worker).value;
          permit.job == s.workerJob && (s.nextSequence == 0 || permit.sequence < s.nextSequence))
    && Ordered(s.executions)
    && forall i | 0 <= i < |s.executions| ::
         var permit := s.executions[i].permit;
         && (s.nextJob == 0 || permit.job < s.nextJob)
         && (s.nextJob == 0 ==> s.phase.Idle? || permit.job <= s.job)
         && (!s.phase.Idle? ==> permit.job <= s.job)
         && (s.phase.Accepted? ==> permit.job < s.job)
         && (!s.worker.Parked? && permit.job == s.workerJob && s.nextSequence != 0 ==> permit.sequence < s.nextSequence)
         && (PermitOf(s.worker).Some? ==> Before(permit, PermitOf(s.worker).value))
  }

  predicate GrantSound(s: State) {
    && (s.phase.Granted? || s.worker.Taken? || s.worker.Checked? ==>
          s.grants != [] && (s.phase.Granted? ==> s.granted == Some(s.grants[|s.grants| - 1]))
          && (s.worker.Taken? || s.worker.Checked? ==> PermitOf(s.worker) == Some(s.grants[|s.grants| - 1])))
    && forall i | 0 <= i < |s.executions| :: s.executions[i].permit in s.grants
  }

  /** What each executed unit proves about itself. */
  predicate ExecutionsSound(s: State) {
    forall i | 0 <= i < |s.executions| ::
      && s.executions[i].changesAtRequest == s.executions[i].changesAtClaim
      && s.executions[i].grantEpoch == s.executions[i].changesAtClaim + 1 && s.executions[i].allowed
  }

  predicate Inv(s: State) {
    EpochSound(s) && WorkerSound(s) && RequestSound(s) && NumbersSound(s) && GrantSound(s) && ExecutionsSound(s)
  }

  lemma EpochKept(s: State, step: Step)
    requires Inv(s) && Enabled(s, step)
    ensures EpochSound(Apply(s, step))
  {
    hide NumbersSound, GrantSound, ExecutionsSound, RequestSound;
  }

  lemma WorkerKept(s: State, step: Step)
    requires Inv(s) && Enabled(s, step)
    ensures WorkerSound(Apply(s, step))
  {
    hide NumbersSound, GrantSound, ExecutionsSound, EpochSound;
  }

  /** The heart: a request made in an allowed epoch is honoured only in the same spell. */
  lemma RequestKept(s: State, step: Step)
    requires Inv(s) && Enabled(s, step)
    ensures RequestSound(Apply(s, step))
    ensures ExecutionsSound(Apply(s, step))
  {
    hide NumbersSound, GrantSound;
  }

  lemma GrantKept(s: State, step: Step)
    requires Inv(s) && Enabled(s, step)
    ensures GrantSound(Apply(s, step))
  {
    hide NumbersSound, ExecutionsSound, EpochSound;
  }

  lemma NumbersKept(s: State, step: Step)
    requires Inv(s) && Enabled(s, step)
    ensures NumbersSound(Apply(s, step))
  {
    hide GrantSound, ExecutionsSound, EpochSound, RequestSound;
  }

  lemma {:induction false} RunIsSound(steps: seq<Step>)
    ensures Inv(Run(steps))
  {
    if steps != [] {
      RunIsSound(steps[..|steps| - 1]);
      var s := Run(steps[..|steps| - 1]);
      var step := steps[|steps| - 1];
      if Enabled(s, step) {
        EpochKept(s, step);
        WorkerKept(s, step);
        RequestKept(s, step);
        GrantKept(s, step);
        NumbersKept(s, step);
      }
    }
  }

  /** Over every interleaving: each executed unit had a grant of its own, no two units share
      one, and priority was on at the claim and had not changed even once since the request. */
  lemma UnitsRunUnderTheirOwnFreshGrant(steps: seq<Step>)
    ensures var e := Run(steps).executions;
            && (forall i | 0 <= i < |e| ::
                  && e[i].permit in Run(steps).grants
                  && e[i].changesAtRequest == e[i].changesAtClaim && e[i].grantEpoch == e[i].changesAtClaim + 1 && e[i].allowed)
            && forall i, j | 0 <= i < j < |e| :: e[i].permit != e[j].permit
  {
    RunIsSound(steps);
    var e := Run(steps).executions;
    forall i, j | 0 <= i < j < |e| ensures e[i].permit != e[j].permit { assert Before(e[i].permit, e[j].permit); }
  }

  /** A grant of another epoch than the request's, or one that priority has left, executes
      nothing, whether the first look finds that out or the claim itself. */
  lemma StalePermitExecutesNothing(s: State)
    requires Inv(s)
    ensures s.worker.Taken? ==>
              && Apply(s, WorkerCheck).executions == s.executions
              && (s.worker.epoch != s.requestedEpoch || s.changes != s.requestChanges ==>
                    Apply(s, WorkerCheck).worker == Sampling(s.worker.permit.work))
    ensures s.worker.Checked? && s.changes != s.requestChanges ==>
              && Apply(s, WorkerClaim).executions == s.executions
              && Apply(s, WorkerClaim).worker == Sampling(s.worker.permit.work)
  {
    hide NumbersSound, GrantSound, ExecutionsSound;
  }

  /** At most one unit is claimed, and a change of priority never aborts it half way. */
  lemma ClaimOutlivesPriorityChange(s: State, allowed: bool)
    requires Inv(s) && s.worker.Executing?
    ensures Apply(s, Publish(allowed)).priority.claimed
    ensures Apply(s, Publish(allowed)).worker == s.worker
    ensures !ExactPriority(Apply(s, Publish(allowed)).priority, Apply(s, Publish(allowed)).priority.epoch)
  {
  }

  lemma RunOneMore(steps: seq<Step>, step: Step)
    requires Enabled(Run(steps), step)
    ensures Run(steps + [step]) == Apply(Run(steps), step)
  {
    assert (steps + [step])[..|steps|] == steps;
  }

  lemma RequestedRun() returns (steps: seq<Step>)
    ensures Run(steps) == State(Priority(2, false, true), Requested, 1, 2, Some(Permit(1, 1, 7)), 2, None, 0, false,
                                Awaiting(Permit(1, 1, 7)), 1, 2, 1, 1, [], [])
  {
    steps := [];
    RunOneMore(steps, Publish(true));
    steps := steps + [Publish(true)];
    RunOneMore(steps, Accept);
    steps := steps + [Accept];
    RunOneMore(steps, WorkerStart);
    steps := steps + [WorkerStart];
    RunOneMore(steps, WorkerWants(7));
    steps := steps + [WorkerWants(7)];
    RunOneMore(steps, WorkerSample);
    steps := steps + [WorkerSample];
    RunOneMore(steps, WorkerCheckSample);
    steps := steps + [WorkerCheckSample];
    RunOneMore(steps, WorkerAsk);
    steps := steps + [WorkerAsk];
  }

  /** The exchange is not safe by doing nothing: with priority on, a unit does run. */
  lemma AUnitCanRun() returns (steps: seq<Step>)
    ensures Run(steps).executions == [Execution(Permit(1, 1, 7), 2, 1, 1, true)]
  {
    steps := RequestedRun();
    RunOneMore(steps, SupervisorLook);
    steps := steps + [SupervisorLook];
    RunOneMore(steps, SupervisorGrant);
    steps := steps + [SupervisorGrant];
    RunOneMore(steps, WorkerTake);
    steps := steps + [WorkerTake];
    RunOneMore(steps, WorkerCheck);
    steps := steps + [WorkerCheck];
    RunOneMore(steps, WorkerClaim);
    steps := steps + [WorkerClaim];
  }
}
