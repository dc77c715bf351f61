/** The mutable controller: each method is one lock-atomic call of the lifecycle writer. */
module Controller {
  import opened Prelude
  import opened Labels
  import opened Identity
  import opened Evidence
  import opened Lifecycle

  class LifecycleController {
    var state: LifecycleState
    var currentTarget: Option<UpdateTarget>
    var pendingTarget: Option<UpdateTarget>
    var active: seq<RolloutBinding>
    var orphaned: seq<OrphanedRollout>
    var journal: seq<TransitionRecord>
    var seqNo: nat
    var taintReason: Option<Reason>
    var taintedInState: Option<LifecycleState>

    ghost function View(): Snapshot
      reads this
    {
      Snapshot(state, currentTarget, pendingTarget, active, orphaned, journal, seqNo, taintReason, taintedInState)
    }

    constructor ()
      ensures View() == FRESH
    {
      state := UNINITIALIZED;
      currentTarget, pendingTarget := None, None;
      active, orphaned, journal := [], [], [];
      seqNo := 0;
      taintReason, taintedInState := None, None;
    }

    // ------------------------------------------------------------ transition core

    method Record(from: LifecycleState, to: LifecycleState, event: Event, target: Option<UpdateTarget>)
      modifies this`seqNo, this`journal
      ensures seqNo == old(seqNo) + 1
      ensures journal == old(journal)
        + [TransitionRecord(old(seqNo) + 1, from, to, Moved(event), Effective(old(View()), target))]
    {
      seqNo := seqNo + 1;
      var effective := if target.Some? then target else if pendingTarget.Some? then pendingTarget else currentTarget;
      journal := journal + [TransitionRecord(seqNo, from, to, Moved(event), effective)];
    }

    method Advance(event: Event, target: Option<UpdateTarget>)
      requires NextState(state, event).Some?
      modifies this`state, this`seqNo, this`journal
      ensures View() == Advanced(old(View()), event, target)
    {
      var next := NextState(state, event).value;
      Record(state, next, event, target);
      state := next;
    }

    /** Active bindings are kept for forensics, each under its own sequence number. */
    method OrphanActive(from: LifecycleState, reason: Reason)
      modifies this`active, this`orphaned, this`seqNo
      ensures orphaned == old(orphaned) + Orphans(old(active), from, reason, old(seqNo))
      ensures active == [] && seqNo == old(seqNo) + |old(active)|
    {
      for i := 0 to |active|
        invariant active == old(active)
        invariant seqNo == old(seqNo) + i
        invariant orphaned == old(orphaned) + Orphans(active[..i], from, reason, old(seqNo))
      {
        seqNo := seqNo + 1;
        orphaned := orphaned + [OrphanedRollout(active[i], from, reason, seqNo)];
      }
      assert active[..|active|] == active;
      active := [];
    }

    method TaintWith(reason: Reason, error: Error) returns (out: Outcome)
      modifies this
      ensures (View(), out) == Lifecycle.Taint(old(View()), reason, error)
    {
      out := Raised(error);
      if state == TAINTED {
        return;
      }
      var from := state;
      taintReason := Some(reason);
      taintedInState := Some(from);
      OrphanActive(from, reason);
      Record(from, TAINTED, TAINT, None);
      state := TAINTED;
      pendingTarget := None;
    }

    // ---------------------------------------------------------------- transitions

    method Initialize(ev: BootstrapEvidence) returns (out: Outcome)
      modifies this
      ensures (View(), out) == Lifecycle.Initialize(old(View()), ev)
    {
      if NextState(state, INITIALIZE).None? {
        return Raised(IllegalTransition);
      }
      if ev.FailureReason().Some? {
        out := TaintWith(BadEvidence(ev.FailureReason().value), EngineTainted);
        return;
      }
      var observed := ParseLabel(ev.observedEngineLabel);
      if observed.None? {
        out := TaintWith(UnmanagedLabel(ev.observedEngineLabel), EngineTainted);
        return;
      }
      if observed.value != INITIAL_VERSION {
        out := TaintWith(NotInitialVersion(observed.value), EngineTainted);
        return;
      }
      Advance(INITIALIZE, None);
      currentTarget := Some(UpdateTarget(observed.value, ev.weightIdentity));
      out := Done;
    }

    method BeginDrain() returns (out: Outcome)
      modifies this
      ensures (View(), out) == Lifecycle.BeginDrain(old(View()))
    {
      if NextState(state, BEGIN_DRAIN).None? {
        return Raised(IllegalTransition);
      }
      Advance(BEGIN_DRAIN, None);
      out := if currentTarget.Some? then Done else Raised(AssertionFailed);
    }

    method ConfirmDrained(ev: DrainEvidence) returns (out: Outcome)
      modifies this
      ensures (View(), out) == Lifecycle.ConfirmDrained(old(View()), ev)
    {
      if NextState(state, CONFIRM_DRAINED).None? {
        return Raised(IllegalTransition);
      }
      if !ev.engineDrainCompleted {
        return Raised(EvidenceNotReady);
      }
      if active != [] {
        out := TaintWith(DrainDisagreed(set b | b in active :: b.requestId), DrainDisagreement);
        return;
      }
      if ev.FailureReason().Some? {
        out := TaintWith(BadEvidence(ev.FailureReason().value), EngineTainted);
        return;
      }
      Advance(CONFIRM_DRAINED, None);
      out := Done;
    }

    method BeginUpdate(target: UpdateTarget) returns (out: Outcome)
      modifies this
      ensures (View(), out) == Lifecycle.BeginUpdate(old(View()), target)
    {
      if NextState(state, BEGIN_UPDATE).None? {
        return Raised(IllegalTransition);
      }
      if currentTarget.None? {
        return Raised(InvariantViolation(I1_ATOMICITY));
      }
      if target.version.value <= currentTarget.value.version.value {
        return Raised(InvariantViolation(I1_MONOTONIC));
      }
      Advance(BEGIN_UPDATE, Some(target));
      pendingTarget := Some(target);
      out := Done;
    }

    method ConfirmUpdated(ev: UpdateEvidence) returns (out: Outcome)
      modifies this
      ensures (View(), out) == Lifecycle.ConfirmUpdated(old(View()), ev)
    {
      if NextState(state, CONFIRM_UPDATED).None? {
        return Raised(IllegalTransition);
      }
      if pendingTarget.None? {
        return Raised(InvariantViolation(I1_ATOMICITY));
      }
      if ev.target != pendingTarget.value {
        out := TaintWith(OtherTarget(ev.target), EngineTainted);
        return;
      }
      if ev.FailureReason().Some? {
        out := TaintWith(BadEvidence(ev.FailureReason().value), EngineTainted);
        return;
      }
      Advance(CONFIRM_UPDATED, pendingTarget);
      out := Done;
    }

    method ConfirmInvalidated(ev: InvalidateEvidence) returns (out: Outcome)
      modifies this
      ensures (View(), out) == Lifecycle.ConfirmInvalidated(old(View()), ev)
    {
      if NextState(state, CONFIRM_INVALIDATED).None? {
        return Raised(IllegalTransition);
      }
      if pendingTarget.None? {
        return Raised(InvariantViolation(I1_ATOMICITY));
      }
      if ev.FailureReason().Some? {
        out := TaintWith(BadEvidence(ev.FailureReason().value), EngineTainted);
        return;
      }
      Advance(CONFIRM_INVALIDATED, pendingTarget);
      out := Done;
    }

    method ConfirmValidated(ev: ValidateEvidence) returns (out: Outcome)
      modifies this
      ensures (View(), out) == Lifecycle.ConfirmValidated(old(View()), ev)
    {
      if NextState(state, CONFIRM_VALIDATED).None? {
        return Raised(IllegalTransition);
      }
      if pendingTarget.None? {
        return Raised(InvariantViolation(I1_ATOMICITY));
      }
      if ev.target != pendingTarget.value {
        out := TaintWith(OtherTarget(ev.target), EngineTainted);
        return;
      }
      var fault := ev.FailureReason();
      if fault.Some? {
        var mismatch := ev.observedEngineLabel != pendingTarget.value.Label();
        out := TaintWith(BadEvidence(fault.value), if mismatch then VersionMismatch else EngineTainted);
        return;
      }
      Advance(CONFIRM_VALIDATED, pendingTarget);
      out := Done;
    }

    method ConfirmResumed(ev: ResumeEvidence) returns (out: Outcome)
      modifies this
      ensures (View(), out) == Lifecycle.ConfirmResumed(old(View()), ev)
    {
      if NextState(state, CONFIRM_RESUMED).None? {
        return Raised(IllegalTransition);
      }
      if pendingTarget.None? {
        return Raised(InvariantViolation(I1_ATOMICITY));
      }
      if ev.target != pendingTarget.value {
        out := TaintWith(OtherTarget(ev.target), EngineTainted);
        return;
      }
      var fault := ev.FailureReason();
      if fault.Some? {
        var mismatch := ev.observedEngineLabel.Some?
          && ev.observedEngineLabel.value != pendingTarget.value.Label();
        out := TaintWith(BadEvidence(fault.value), if mismatch then VersionMismatch else EngineTainted);
        return;
      }
      Advance(CONFIRM_RESUMED, pendingTarget);
      currentTarget := pendingTarget;
      pendingTarget := None;
      out := Done;
    }

    method Taint(reason: Reason) returns (out: Outcome)
      modifies this
      ensures (View(), out) == Lifecycle.Taint(old(View()), reason, EngineTainted)
    {
      out := TaintWith(reason, EngineTainted);
    }

    method NextGeneration(identity: Option<WeightIdentity>) returns (target: Option<UpdateTarget>)
      ensures target == NextTarget(View(), identity)
    {
      if currentTarget.None? {
        return None;
      }
      var now := currentTarget.value;
      target := Some(UpdateTarget(now.version.Next(), if identity.Some? then identity.value else now.identity));
    }

    // ------------------------------------------------------------------- rollouts

    method AdmitRollout(id: string) returns (out: Outcome)
      modifies this
      ensures (View(), out) == Admit(old(View()), id)
    {
      if state !in ADMITTING_STATES {
        return Raised(NotServing);
      }
      if currentTarget.None? || Position(active, id) < |active| {
        return Raised(InvariantViolation(I2_BINDING));
      }
      var current := currentTarget.value;
      seqNo := seqNo + 1;
      var binding := RolloutBinding(id, current.version, current.identity, current.version.CacheSalt(), seqNo);
      active := active + [binding];
      journal := journal + [TransitionRecord(seqNo, state, state, Admitted(id), Some(binding.Target()))];
      out := Bound(binding);
    }

    method ReleaseRollout(id: string, what: Happening) returns (out: Outcome)
      modifies this
      ensures (View(), out) == Release(old(View()), id, what)
    {
      if state !in ROLLOUT_COMPLETION_STATES {
        return Raised(IllegalTransition);
      }
      var i := Position(active, id);
      if i == |active| {
        return Raised(UnknownRollout);
      }
      var binding := active[i];
      active := active[..i] + active[i + 1..];
      seqNo := seqNo + 1;
      journal := journal + [TransitionRecord(seqNo, state, state, what, Some(binding.Target()))];
      out := Bound(binding);
    }

    method FinishRollout(id: string) returns (out: Outcome)
      modifies this
      ensures (View(), out) == Apply(old(View()), DoFinish(id))
    {
      out := ReleaseRollout(id, Finished(id));
    }

    method AbortRollout(id: string) returns (out: Outcome)
      modifies this
      ensures (View(), out) == Apply(old(View()), DoAbort(id))
    {
      out := ReleaseRollout(id, Aborted(id));
    }
  }
}
