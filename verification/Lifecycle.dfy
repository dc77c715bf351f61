/** The lifecycle controller as values: every lock-atomic call is a function on snapshots. */
module Lifecycle {
  import opened Prelude
  import opened Labels
  import opened Identity
  import opened Evidence

  datatype LifecycleState =
    | UNINITIALIZED | READY | DRAINING | QUIESCED | UPDATING | INVALIDATING | VALIDATING | RESUMING | TAINTED

  datatype Event =
    | INITIALIZE | BEGIN_DRAIN | CONFIRM_DRAINED | BEGIN_UPDATE | CONFIRM_UPDATED | CONFIRM_INVALIDATED
    | CONFIRM_VALIDATED | CONFIRM_RESUMED | TAINT

  /** LEGAL_TRANSITIONS; TAINT is not in the table. */
  function NextState(s: LifecycleState, e: Event): Option<LifecycleState> {
    match (s, e)
    case (UNINITIALIZED, INITIALIZE) => Some(READY)
    case (READY, BEGIN_DRAIN) => Some(DRAINING)
    case (DRAINING, CONFIRM_DRAINED) => Some(QUIESCED)
    case (QUIESCED, BEGIN_UPDATE) => Some(UPDATING)
    case (UPDATING, CONFIRM_UPDATED) => Some(INVALIDATING)
    case (INVALIDATING, CONFIRM_INVALIDATED) => Some(VALIDATING)
    case (VALIDATING, CONFIRM_VALIDATED) => Some(RESUMING)
    case (RESUMING, CONFIRM_RESUMED) => Some(READY)
    case _ => None
  }

  const ADMITTING_STATES := {READY}
  const ROLLOUT_COMPLETION_STATES := {READY, DRAINING}

  datatype RolloutBinding = RolloutBinding(
    requestId: string, version: WeightVersion, weightIdentity: WeightIdentity, cacheSalt: string, admittedSeq: nat)
  {
    function Target(): UpdateTarget {
      UpdateTarget(version, weightIdentity)
    }
  }

  /** What a journal record says happened; rollout records carry the request id. */
  datatype Happening =
    | Moved(event: Event)
    | Admitted(requestId: string)
    | Finished(requestId: string)
    | Aborted(requestId: string)

  /** `target` holds the record's version and identity columns, which are set together. */
  datatype TransitionRecord = TransitionRecord(
    seqNo: nat, from: LifecycleState, to: LifecycleState, what: Happening, target: Option<UpdateTarget>)

  datatype Reason =
    | Told(text: string)                        // operator or foreign failure
    | BadEvidence(fault: Fault)
    | DrainDisagreed(outstanding: set<string>)
    | OtherTarget(reported: UpdateTarget)
    | UnmanagedLabel(written: string)
    | NotInitialVersion(observed: WeightVersion)

  datatype OrphanedRollout = OrphanedRollout(
    binding: RolloutBinding, orphanedInState: LifecycleState, reason: Reason, seqNo: nat)

  datatype Invariant = I1_ATOMICITY | I1_MONOTONIC | I2_BINDING

  datatype Error =
    // recoverable
    | IllegalTransition
    | InvariantViolation(broken: Invariant)
    | EvidenceNotReady
    | NotServing
    | UnknownRollout
    // taints
    | EngineTainted
    | VersionMismatch
    | DrainDisagreement
    // a failed Python assert
    | AssertionFailed
  {
    predicate Taints() {
      EngineTainted? || VersionMismatch? || DrainDisagreement?
    }
  }

  datatype Outcome = Done | Bound(binding: RolloutBinding) | Raised(error: Error)

  /** Every field of the controller; `active` is the dict in insertion order. */
  datatype Snapshot = Snapshot(
    state: LifecycleState,
    current: Option<UpdateTarget>,
    pending: Option<UpdateTarget>,
    active: seq<RolloutBinding>,
    orphaned: seq<OrphanedRollout>,
    journal: seq<TransitionRecord>,
    seqNo: nat,
    taintReason: Option<Reason>,
    taintedIn: Option<LifecycleState>)

  const FRESH := Snapshot(UNINITIALIZED, None, None, [], [], [], 0, None, None)

  // --------------------------------------------------------- recording and moving

  function Effective(c: Snapshot, target: Option<UpdateTarget>): Option<UpdateTarget> {
    if target.Some? then target else if c.pending.Some? then c.pending else c.current
  }

  function Recorded(c: Snapshot, to: LifecycleState, what: Happening, target: Option<UpdateTarget>): Snapshot {
    c.(seqNo := c.seqNo + 1,
       journal := c.journal + [TransitionRecord(c.seqNo + 1, c.state, to, what, target)])
  }

  /** `_advance` from a state where the table has an entry. */
  function Advanced(c: Snapshot, e: Event, target: Option<UpdateTarget>): Snapshot
    requires NextState(c.state, e).Some?
  {
    var to := NextState(c.state, e).value;
    Recorded(c, to, Moved(e), Effective(c, target)).(state := to)
  }

  function Orphans(active: seq<RolloutBinding>, from: LifecycleState, reason: Reason, base: nat): seq<OrphanedRollout> {
    seq(|active|, i requires 0 <= i < |active| => OrphanedRollout(active[i], from, reason, base + 1 + i))
  }

  /** Idempotent: only the first taint has an effect. */
  function Tainted(c: Snapshot, reason: Reason): Snapshot {
    if c.state == TAINTED then c else
      var orphaned := c.(
        orphaned := c.orphaned + Orphans(c.active, c.state, reason, c.seqNo),
        active := [],
        seqNo := c.seqNo + |c.active|,
        taintReason := Some(reason),
        taintedIn := Some(c.state));
      Recorded(orphaned, TAINTED, Moved(TAINT), Effective(c, None)).(state := TAINTED, pending := None)
  }

  // ------------------------------------------------------------------ transitions

  type Result = (Snapshot, Outcome)

  function Refuse(c: Snapshot, error: Error): Result {
    (c, Raised(error))
  }

  function Taint(c: Snapshot, reason: Reason, error: Error): Result {
    (Tainted(c, reason), Raised(error))
  }

  function Initialize(c: Snapshot, ev: BootstrapEvidence): Result {
    if NextState(c.state, INITIALIZE).None? then Refuse(c, IllegalTransition)
    else if ev.FailureReason().Some? then Taint(c, BadEvidence(ev.FailureReason().value), EngineTainted)
    else
      match ParseLabel(ev.observedEngineLabel)
      case None => Taint(c, UnmanagedLabel(ev.observedEngineLabel), EngineTainted)
      case Some(observed) =>
        if observed != INITIAL_VERSION then Taint(c, NotInitialVersion(observed), EngineTainted)
        else
          (Advanced(c, INITIALIZE, None).(current := Some(UpdateTarget(observed, ev.weightIdentity))), Done)
  }

  function BeginDrain(c: Snapshot): Result {
    if NextState(c.state, BEGIN_DRAIN).None? then Refuse(c, IllegalTransition)
    else (Advanced(c, BEGIN_DRAIN, None), if c.current.Some? then Done else Raised(AssertionFailed))
  }

  function RequestIds(active: seq<RolloutBinding>): seq<string> {
    seq(|active|, i requires 0 <= i < |active| => active[i].requestId)
  }

  function ConfirmDrained(c: Snapshot, ev: DrainEvidence): Result {
    if NextState(c.state, CONFIRM_DRAINED).None? then Refuse(c, IllegalTransition)
    else if !ev.engineDrainCompleted then Refuse(c, EvidenceNotReady)
    else if c.active != [] then Taint(c, DrainDisagreed(set b | b in c.active :: b.requestId), DrainDisagreement)
    else if ev.FailureReason().Some? then Taint(c, BadEvidence(ev.FailureReason().value), EngineTainted)
    else (Advanced(c, CONFIRM_DRAINED, None), Done)
  }

  function BeginUpdate(c: Snapshot, target: UpdateTarget): Result {
    if NextState(c.state, BEGIN_UPDATE).None? then Refuse(c, IllegalTransition)
    else if c.current.None? then Refuse(c, InvariantViolation(I1_ATOMICITY))
    else if target.version.value <= c.current.value.version.value then Refuse(c, InvariantViolation(I1_MONOTONIC))
    else (Advanced(c, BEGIN_UPDATE, Some(target)).(pending := Some(target)), Done)
  }

  function ConfirmUpdated(c: Snapshot, ev: UpdateEvidence): Result {
    if NextState(c.state, CONFIRM_UPDATED).None? then Refuse(c, IllegalTransition)
    else if c.pending.None? then Refuse(c, InvariantViolation(I1_ATOMICITY))
    else if ev.target != c.pending.value then Taint(c, OtherTarget(ev.target), EngineTainted)
    else if ev.FailureReason().Some? then Taint(c, BadEvidence(ev.FailureReason().value), EngineTainted)
    else (Advanced(c, CONFIRM_UPDATED, c.pending), Done)
  }

  function ConfirmInvalidated(c: Snapshot, ev: InvalidateEvidence): Result {
    if NextState(c.state, CONFIRM_INVALIDATED).None? then Refuse(c, IllegalTransition)
    else if c.pending.None? then Refuse(c, InvariantViolation(I1_ATOMICITY))
    else if ev.FailureReason().Some? then Taint(c, BadEvidence(ev.FailureReason().value), EngineTainted)
    else (Advanced(c, CONFIRM_INVALIDATED, c.pending), Done)
  }

  function ConfirmValidated(c: Snapshot, ev: ValidateEvidence): Result {
    if NextState(c.state, CONFIRM_VALIDATED).None? then Refuse(c, IllegalTransition)
    else if c.pending.None? then Refuse(c, InvariantViolation(I1_ATOMICITY))
    else if ev.target != c.pending.value then Taint(c, OtherTarget(ev.target), EngineTainted)
    else
      match ev.FailureReason()
      case Some(fault) =>
        Taint(c, BadEvidence(fault),
              if ev.observedEngineLabel != c.pending.value.Label() then VersionMismatch else EngineTainted)
      case None => (Advanced(c, CONFIRM_VALIDATED, c.pending), Done)
  }

  /** The commit point. */
  function ConfirmResumed(c: Snapshot, ev: ResumeEvidence): Result {
    if NextState(c.state, CONFIRM_RESUMED).None? then Refuse(c, IllegalTransition)
    else if c.pending.None? then Refuse(c, InvariantViolation(I1_ATOMICITY))
    else if ev.target != c.pending.value then Taint(c, OtherTarget(ev.target), EngineTainted)
    else
      match ev.FailureReason()
      case Some(fault) =>
        Taint(c, BadEvidence(fault),
              if ev.observedEngineLabel.Some? && ev.observedEngineLabel.value != c.pending.value.Label()
              then VersionMismatch else EngineTainted)
      case None =>
        (Advanced(c, CONFIRM_RESUMED, c.pending).(current := c.pending, pending := None), Done)
  }

  /** The next generation; None stands for InvariantViolation(I1_ATOMICITY). */
  function NextTarget(c: Snapshot, identity: Option<WeightIdentity>): Option<UpdateTarget> {
    if c.current.None? then None
    else
      Some(UpdateTarget(
        c.current.value.version.Next(), if identity.Some? then identity.value else c.current.value.identity))
  }

  // --------------------------------------------------------------------- rollouts

  function Position(active: seq<RolloutBinding>, id: string): (i: nat)
    ensures i <= |active|
    ensures i < |active| ==> active[i].requestId == id
    ensures forall k :: 0 <= k < i ==> active[k].requestId != id
  {
    if active == [] || active[0].requestId == id then 0 else 1 + Position(active[1..], id)
  }

  predicate IsActive(c: Snapshot, id: string) {
    Position(c.active, id) < |c.active|
  }

  function Admit(c: Snapshot, id: string): Result {
    if c.state !in ADMITTING_STATES then Refuse(c, NotServing)
    else if c.current.None? || IsActive(c, id) then Refuse(c, InvariantViolation(I2_BINDING))
    else
      var now := c.current.value;
      var binding := RolloutBinding(id, now.version, now.identity, now.version.CacheSalt(), c.seqNo + 1);
      (Recorded(c, c.state, Admitted(id), c.current).(active := c.active + [binding]), Bound(binding))
  }

  function Release(c: Snapshot, id: string, what: Happening): Result {
    if c.state !in ROLLOUT_COMPLETION_STATES then Refuse(c, IllegalTransition)
    else if !IsActive(c, id) then Refuse(c, UnknownRollout)
    else
      var i := Position(c.active, id);
      var binding := c.active[i];
      (Recorded(c, c.state, what, Some(binding.Target())).(active := c.active[..i] + c.active[i + 1..]), Bound(binding))
  }

  // ------------------------------------------------------------------------- runs

  datatype Command =
    | DoInitialize(boot: BootstrapEvidence)
    | DoBeginDrain
    | DoConfirmDrained(drain: DrainEvidence)
    | DoBeginUpdate(target: UpdateTarget)
    | DoConfirmUpdated(update: UpdateEvidence)
    | DoConfirmInvalidated(invalidate: InvalidateEvidence)
    | DoConfirmValidated(validate: ValidateEvidence)
    | DoConfirmResumed(resume: ResumeEvidence)
    | DoTaint(reason: Reason)
    | DoAdmit(id: string)
    | DoFinish(id: string)
    | DoAbort(id: string)

  function Apply(c: Snapshot, cmd: Command): Result {
    match cmd
    case DoInitialize(ev) => Initialize(c, ev)
    case DoBeginDrain => BeginDrain(c)
    case DoConfirmDrained(ev) => ConfirmDrained(c, ev)
    case DoBeginUpdate(target) => BeginUpdate(c, target)
    case DoConfirmUpdated(ev) => ConfirmUpdated(c, ev)
    case DoConfirmInvalidated(ev) => ConfirmInvalidated(c, ev)
    case DoConfirmValidated(ev) => ConfirmValidated(c, ev)
    case DoConfirmResumed(ev) => ConfirmResumed(c, ev)
    case DoTaint(reason) => Taint(c, reason, EngineTainted)
    case DoAdmit(id) => Admit(c, id)
    case DoFinish(id) => Release(c, id, Finished(id))
    case DoAbort(id) => Release(c, id, Aborted(id))
  }

  function Run(c: Snapshot, cmds: seq<Command>): Snapshot
    decreases |cmds|
  {
    if cmds == [] then c else Apply(Run(c, cmds[..|cmds| - 1]), cmds[|cmds| - 1]).0
  }
}
