/** Which evidence opens each gate, which taints, and with what error, in terms of the evidence's own fields. */
module Gates {
  import opened Prelude
  import opened Labels
  import opened Identity
  import opened Evidence
  import opened Lifecycle
  import opened Journal

  /** A recoverable error that left everything as it was. */
  predicate Refuses(c: Snapshot, r: Result, error: Error) {
    r == (c, Raised(error))
  }

  /** A taint: the commit stands, nothing is pending or in flight any more. */
  predicate TaintsFor(c: Snapshot, r: Result, reason: Reason, error: Error) {
    && r.1 == Raised(error) && r.0.state == TAINTED && r.0.current == c.current && r.0.pending.None? && r.0.active == []
    && r.0.taintedIn == Some(c.state) && r.0.taintReason == Some(reason)
  }

  /** Some check of the evidence failed, and is the reason. */
  predicate TaintsOver(c: Snapshot, r: Result, fault: Option<Fault>, error: Error) {
    fault.Some? && TaintsFor(c, r, BadEvidence(fault.value), error)
  }

  /** The call went through: one more record, and nothing changed but state, commit and pending target. */
  predicate MovesTo(c: Snapshot, r: Result, state: LifecycleState, current: Option<UpdateTarget>, pending: Option<UpdateTarget>) {
    && r.1 == Done && Went(c, r, state, current, pending)
  }

  predicate Went(c: Snapshot, r: Result, state: LifecycleState, current: Option<UpdateTarget>, pending: Option<UpdateTarget>) {
    && r.0.state == state && r.0.current == current && r.0.pending == pending
    && r.0.active == c.active && r.0.orphaned == c.orphaned && r.0.seqNo == c.seqNo + 1
    && r.0.taintReason == c.taintReason && r.0.taintedIn == c.taintedIn
    && |r.0.journal| == |c.journal| + 1 && r.0.journal[..|c.journal|] == c.journal
    && r.0.journal[|c.journal|].from == c.state && r.0.journal[|c.journal|].to == state
    && r.0.journal[|c.journal|].seqNo == r.0.seqNo
  }

  /** The latest record names this event and this target. */
  predicate Records(r: Result, event: Event, target: Option<UpdateTarget>) {
    r.0.journal != [] && r.0.journal[|r.0.journal| - 1].what == Moved(event) && r.0.journal[|r.0.journal| - 1].target == target
  }

  // ------------------------------------------------------------------------- bootstrap

  /** The engine was nobody's, and has a driver exactly if its transfer engine is up. */
  predicate Adoptable(ev: BootstrapEvidence) {
    && (ev.weightTransferInitialised <==> ev.weightTransferDriver.Some?)
    && ev.preSeedLabel.Some? && ParseLabel(ev.preSeedLabel.value).None?
  }

  lemma InitializeGate(c: Snapshot, ev: BootstrapEvidence)
    ensures var r := Initialize(c, ev);
      if c.state != UNINITIALIZED then Refuses(c, r, IllegalTransition)
      else if !Adoptable(ev) then TaintsOver(c, r, ev.FailureReason(), EngineTainted)
      else
        match ParseLabel(ev.observedEngineLabel)
        case None => TaintsFor(c, r, UnmanagedLabel(ev.observedEngineLabel), EngineTainted)
        case Some(v) =>
          if v.value != 0 then TaintsFor(c, r, NotInitialVersion(v), EngineTainted)
          else
            && MovesTo(c, r, READY, Some(UpdateTarget(WeightVersion(0), ev.weightIdentity)), c.pending)
            && Records(r, INITIALIZE, if c.pending.Some? then c.pending else c.current)
  {
  }

  // ----------------------------------------------------------------------------- drain

  /** Without a commit the move has been made when the assertion fails. */
  lemma BeginDrainGate(c: Snapshot)
    ensures var r := BeginDrain(c);
      if c.state != READY then Refuses(c, r, IllegalTransition)
      else
        && r.1 == (if c.current.Some? then Done else Raised(AssertionFailed))
        && Went(c, r, DRAINING, c.current, c.pending)
        && Records(r, BEGIN_DRAIN, if c.pending.Some? then c.pending else c.current)
  {
  }

  lemma ConfirmDrainedGate(c: Snapshot, ev: DrainEvidence)
    ensures var r := ConfirmDrained(c, ev);
      if c.state != DRAINING then Refuses(c, r, IllegalTransition)
      else if !ev.engineDrainCompleted then Refuses(c, r, EvidenceNotReady)
      else if c.active != [] then
        TaintsFor(c, r, DrainDisagreed(set b <- c.active :: b.requestId), DrainDisagreement)
      else if ev.engineActiveRequests !in {None, Some(0)} then
        TaintsFor(c, r, BadEvidence(DrainSelfContradictory(ev.engineActiveRequests.value)), EngineTainted)
      else
        && MovesTo(c, r, QUIESCED, c.current, c.pending)
        && Records(r, CONFIRM_DRAINED, if c.pending.Some? then c.pending else c.current)
  {
  }

  // ---------------------------------------------------------------------------- update

  lemma BeginUpdateGate(c: Snapshot, target: UpdateTarget)
    ensures var r := BeginUpdate(c, target);
      if c.state != QUIESCED then Refuses(c, r, IllegalTransition)
      else if c.current.None? then Refuses(c, r, InvariantViolation(I1_ATOMICITY))
      else if target.version.value <= c.current.value.version.value then Refuses(c, r, InvariantViolation(I1_MONOTONIC))
      else MovesTo(c, r, UPDATING, c.current, Some(target)) && Records(r, BEGIN_UPDATE, Some(target))
  {
  }

  /** Everything loaded and acknowledged, and nothing else staged than the target. */
  predicate Installed(ev: UpdateEvidence) {
    && ev.weightsLoaded && ev.dataPlaneComplete && ev.finishAcknowledged
    && ev.observedIdentity in {None, Some(ev.target.identity)}
  }

  lemma ConfirmUpdatedGate(c: Snapshot, ev: UpdateEvidence)
    requires c.pending.Some?
    ensures var r := ConfirmUpdated(c, ev);
      if c.state != UPDATING then Refuses(c, r, IllegalTransition)
      else if c.pending != Some(ev.target) then TaintsFor(c, r, OtherTarget(ev.target), EngineTainted)
      else if !Installed(ev) then TaintsOver(c, r, ev.FailureReason(), EngineTainted)
      else MovesTo(c, r, INVALIDATING, c.current, c.pending) && Records(r, CONFIRM_UPDATED, c.pending)
  {
  }

  lemma ConfirmInvalidatedGate(c: Snapshot, ev: InvalidateEvidence)
    requires c.pending.Some?
    ensures var r := ConfirmInvalidated(c, ev);
      if c.state != INVALIDATING then Refuses(c, r, IllegalTransition)
      else if !(ev.prefixCacheReset && ev.encoderCacheReset && ev.mmCacheReset) then
        TaintsOver(c, r, ev.FailureReason(), EngineTainted)
      else MovesTo(c, r, VALIDATING, c.current, c.pending) && Records(r, CONFIRM_INVALIDATED, c.pending)
  {
  }

  /** A wrong label on the right target is a version mismatch; every other failure taints plainly. */
  lemma ConfirmValidatedGate(c: Snapshot, ev: ValidateEvidence)
    requires c.pending.Some?
    ensures var r := ConfirmValidated(c, ev);
      if c.state != VALIDATING then Refuses(c, r, IllegalTransition)
      else if c.pending != Some(ev.target) then TaintsFor(c, r, OtherTarget(ev.target), EngineTainted)
      else if ev.observedEngineLabel != ev.target.Label() then TaintsOver(c, r, ev.FailureReason(), VersionMismatch)
      else if !ev.isPaused || !ev.cachesStillClean then TaintsOver(c, r, ev.FailureReason(), EngineTainted)
      else MovesTo(c, r, RESUMING, c.current, c.pending) && Records(r, CONFIRM_VALIDATED, c.pending)
  {
  }

  /** A label read back wrong is a version mismatch even if the resume failed too. */
  lemma ConfirmResumedGate(c: Snapshot, ev: ResumeEvidence)
    requires c.pending.Some?
    ensures var r := ConfirmResumed(c, ev);
      if c.state != RESUMING then Refuses(c, r, IllegalTransition)
      else if c.pending != Some(ev.target) then TaintsFor(c, r, OtherTarget(ev.target), EngineTainted)
      else if ev.observedEngineLabel.Some? && ev.observedEngineLabel.value != ev.target.Label()
      then TaintsOver(c, r, ev.FailureReason(), VersionMismatch)
      else if !ev.resumeAcknowledged || ev.isPaused then TaintsOver(c, r, ev.FailureReason(), EngineTainted)
      else MovesTo(c, r, READY, Some(ev.target), None) && Records(r, CONFIRM_RESUMED, Some(ev.target))
  {
  }

  /** Without a pending target no confirmation changes anything. */
  lemma NothingPending(c: Snapshot, cmd: Command)
    requires c.pending.None?
    requires cmd.DoConfirmUpdated? || cmd.DoConfirmInvalidated? || cmd.DoConfirmValidated? || cmd.DoConfirmResumed?
    ensures Refuses(c, Apply(c, cmd), IllegalTransition) || Refuses(c, Apply(c, cmd), InvariantViolation(I1_ATOMICITY))
  {
  }

  /** An operator's taint works from every state but TAINTED itself, and always raises. */
  lemma TaintGate(c: Snapshot, reason: Reason)
    ensures var r := Apply(c, DoTaint(reason));
      if c.state == TAINTED then Refuses(c, r, EngineTainted)
      else
        && TaintsFor(c, r, reason, EngineTainted)
        && Records(r, TAINT, if c.pending.Some? then c.pending else c.current)
  {
  }

  /** Who was in flight when the controller was tainted is kept, in order, numbered next, with the state and the reason. */
  lemma TaintsOrphan(c: Snapshot, reason: Reason)
    requires c.state != TAINTED
    ensures var d := Tainted(c, reason);
      && d.seqNo == c.seqNo + |c.active| + 1
      && |d.orphaned| == |c.orphaned| + |c.active| && d.orphaned[..|c.orphaned|] == c.orphaned
      && forall i :: 0 <= i < |c.active| ==>
           d.orphaned[|c.orphaned| + i] == OrphanedRollout(c.active[i], c.state, reason, c.seqNo + 1 + i)
  {
  }

  // -------------------------------------------------------------------------- rollouts

  /** The ids in flight, oldest first. */
  lemma ListedIds(c: Snapshot, id: string)
    ensures id in RequestIds(c.active) <==> exists b :: b in c.active && b.requestId == id
  {
    if id in RequestIds(c.active) {
      var i :| 0 <= i < |RequestIds(c.active)| && RequestIds(c.active)[i] == id;
      assert c.active[i] in c.active;
    }
    if b :| b in c.active && b.requestId == id {
      var i :| 0 <= i < |c.active| && c.active[i] == b;
      assert RequestIds(c.active)[i] == id;
    }
  }

  /** Everything of the controller but its rollouts, its journal and its counter. */
  predicate SameProtocol(c: Snapshot, d: Snapshot) {
    d == c.(active := d.active, journal := d.journal, seqNo := d.seqNo)
  }

  /** One record more, about a rollout. */
  predicate RecordsRollout(c: Snapshot, d: Snapshot, what: Happening, target: UpdateTarget) {
    && d.seqNo == c.seqNo + 1
    && d.journal == c.journal + [TransitionRecord(d.seqNo, c.state, c.state, what, Some(target))]
  }

  /** A rollout is admitted exactly in READY, with a commit, under an id that is not in flight. */
  lemma AdmitGate(c: Snapshot, id: string)
    ensures var (d, out) := Admit(c, id);
      if c.state != READY then Refuses(c, (d, out), NotServing)
      else if c.current.None? || id in RequestIds(c.active) then Refuses(c, (d, out), InvariantViolation(I2_BINDING))
      else
        var now := c.current.value;
        var b := RolloutBinding(id, now.version, now.identity, now.version.CacheSalt(), c.seqNo + 1);
        && out == Bound(b) && d.active == c.active + [b]
        && SameProtocol(c, d) && RecordsRollout(c, d, Admitted(id), now)
  {
    IsActiveIsListed(c, id);
  }

  /** The binding listed under an id, the first if there were several. */
  predicate ListedUnder(active: seq<RolloutBinding>, id: string, b: RolloutBinding) {
    exists i :: 0 <= i < |active| && active[i] == b && b.requestId == id && id !in RequestIds(active[..i])
  }

  /** A rollout is released exactly in READY or DRAINING under an id in flight; it alone leaves. */
  lemma ReleaseGate(c: Snapshot, id: string, what: Happening)
    ensures var (d, out) := Release(c, id, what);
      if c.state != READY && c.state != DRAINING then Refuses(c, (d, out), IllegalTransition)
      else if id !in RequestIds(c.active) then Refuses(c, (d, out), UnknownRollout)
      else
        && out.Bound? && ListedUnder(c.active, id, out.binding)
        && multiset(c.active) == multiset(d.active) + multiset{out.binding}
        && RequestIds(d.active) == Without(RequestIds(c.active), id)
        && SameProtocol(c, d) && RecordsRollout(c, d, what, out.binding.Target())
  {
    IsActiveIsListed(c, id);
    var i := Position(c.active, id);
    if i < |c.active| {
      RequestIdsAfterRelease(c.active, id);
      assert c.active == c.active[..i] + [c.active[i]] + c.active[i + 1..];
      assert forall k :: 0 <= k < i ==> RequestIds(c.active[..i])[k] == c.active[k].requestId;
    }
  }

  /** Finishing and aborting release alike, and the journal says which it was. */
  lemma ReleasesAreNamed(c: Snapshot, id: string)
    requires c.state in {READY, DRAINING} && id in RequestIds(c.active)
    ensures var (d, out) := Apply(c, DoFinish(id)); out.Bound? && RecordsRollout(c, d, Finished(id), out.binding.Target())
    ensures var (d, out) := Apply(c, DoAbort(id)); out.Bound? && RecordsRollout(c, d, Aborted(id), out.binding.Target())
    ensures SameProtocol(c, Apply(c, DoFinish(id)).0)
            && Apply(c, DoAbort(id)).0.active == Apply(c, DoFinish(id)).0.active
  {
    ReleaseGate(c, id, Finished(id));
    ReleaseGate(c, id, Aborted(id));
  }

  // ------------------------------------------------------------------- draining to empty

  predicate Releases(cmds: seq<Command>) {
    forall i :: 0 <= i < |cmds| ==> cmds[i].DoFinish? || cmds[i].DoAbort?
  }

  function ReleasedId(cmd: Command): string {
    match cmd
    case DoFinish(id) => id
    case DoAbort(id) => id
    case _ => ""
  }

  function ReleasedIds(cmds: seq<Command>): seq<string> {
    seq(|cmds|, i requires 0 <= i < |cmds| => ReleasedId(cmds[i]))
  }

  lemma {:induction false} WithoutRemovesOne(ids: seq<string>, id: string)
    requires id in ids
    ensures multiset(ids) == multiset(Without(ids, id)) + multiset{id}
  {
    assert ids == [ids[0]] + ids[1..];
    if ids[0] != id {
      WithoutRemovesOne(ids[1..], id);
    }
  }

  lemma ReleasingOne(c: Snapshot, cmd: Command)
    requires c.state == DRAINING && (cmd.DoFinish? || cmd.DoAbort?) && ReleasedId(cmd) in RequestIds(c.active)
    ensures var (d, out) := Apply(c, cmd);
      && out.Bound? && SameProtocol(c, d)
      && multiset(RequestIds(c.active)) == multiset(RequestIds(d.active)) + multiset{ReleasedId(cmd)}
  {
    ReleaseGate(c, ReleasedId(cmd), if cmd.DoFinish? then Finished(cmd.id) else Aborted(cmd.id));
    WithoutRemovesOne(RequestIds(c.active), ReleasedId(cmd));
  }

  /** Draining on from `c`: `gone` has been released. */
  predicate Drained(c: Snapshot, d: Snapshot, gone: multiset<string>) {
    SameProtocol(c, d) && multiset(RequestIds(c.active)) == multiset(RequestIds(d.active)) + gone
  }

  lemma ReleasingNext(c: Snapshot, d: Snapshot, gone: multiset<string>, cmd: Command)
    requires c.state == DRAINING && Drained(c, d, gone) && (cmd.DoFinish? || cmd.DoAbort?)
    requires gone + multiset{ReleasedId(cmd)} <= multiset(RequestIds(c.active))
    ensures Apply(d, cmd).1.Bound? && Drained(c, Apply(d, cmd).0, gone + multiset{ReleasedId(cmd)})
  {
    var id := ReleasedId(cmd);
    var all, rest := multiset(RequestIds(c.active)), multiset(RequestIds(d.active));
    assert all[id] == rest[id] + gone[id] && (gone + multiset{id})[id] == gone[id] + 1 <= all[id];
    assert id in rest;
    ReleasingOne(d, cmd);
  }

  /** After any of the releases, what is in flight is what is left to release. */
  lemma {:induction false} ReleasingSome(c: Snapshot, cmds: seq<Command>)
    requires c.state == DRAINING && Releases(cmds) && multiset(ReleasedIds(cmds)) <= multiset(RequestIds(c.active))
    ensures Drained(c, Run(c, cmds), multiset(ReleasedIds(cmds)))
    decreases |cmds|
  {
    if cmds != [] {
      var front, last := cmds[..|cmds| - 1], cmds[|cmds| - 1];
      assert ReleasedIds(cmds) == ReleasedIds(front) + [ReleasedId(last)];
      ReleasingSome(c, front);
      ReleasingNext(c, Run(c, front), multiset(ReleasedIds(front)), last);
    }
  }

  /**
    * From any reachable DRAINING state, finishing or aborting everything in flight, in any order,
    * is accepted each time and leaves nothing; the engine's completed drain then confirms.
    */
  lemma DrainingEmpties(before: seq<Command>, cmds: seq<Command>, active: Option<int>)
    requires var c := Run(FRESH, before);
      c.state == DRAINING && Releases(cmds) && multiset(ReleasedIds(cmds)) == multiset(RequestIds(c.active))
    requires active in {None, Some(0)}
    ensures var c := Run(FRESH, before);
      var d := Run(c, cmds);
      && (forall i :: 0 <= i < |cmds| ==> Apply(Run(c, cmds[..i]), cmds[i]).1.Bound?)
      && d.active == [] && SameProtocol(c, d)
      && MovesTo(d, ConfirmDrained(d, DrainEvidence(true, active)), QUIESCED, c.current, c.pending)
  {
    var c := Run(FRESH, before);
    ReleasingSome(c, cmds);
    var d := Run(c, cmds);
    assert |multiset(RequestIds(d.active))| == 0;
    ConfirmDrainedGate(d, DrainEvidence(true, active));
    forall i | 0 <= i < |cmds| ensures Apply(Run(c, cmds[..i]), cmds[i]).1.Bound? {
      EachReleaseIsAccepted(c, cmds, i);
    }
  }

  lemma EachReleaseIsAccepted(c: Snapshot, cmds: seq<Command>, i: nat)
    requires c.state == DRAINING && Releases(cmds) && multiset(ReleasedIds(cmds)) <= multiset(RequestIds(c.active))
    requires i < |cmds|
    ensures Apply(Run(c, cmds[..i]), cmds[i]).1.Bound?
  {
    var ids, gone := ReleasedIds(cmds), multiset(ReleasedIds(cmds[..i]));
    assert ReleasedIds(cmds[..i]) == ids[..i] && ids == ids[..i] + [ids[i]] + ids[i + 1..];
    ReleasingSome(c, cmds[..i]);
    ReleasingNext(c, Run(c, cmds[..i]), gone, cmds[i]);
  }

  /** The next target: one generation on, with the identity given or the committed one. */
  lemma NextTargetByInputs(c: Snapshot, identity: Option<WeightIdentity>)
    ensures c.current.None? <==> NextTarget(c, identity).None?
    ensures forall now, given :: c.current == Some(now) && identity == Some(given) ==>
      NextTarget(c, identity) == Some(UpdateTarget(WeightVersion(now.version.value + 1), given))
    ensures forall now :: c.current == Some(now) && identity == None ==>
      NextTarget(c, identity) == Some(UpdateTarget(WeightVersion(now.version.value + 1), now.identity))
  {
  }
}
