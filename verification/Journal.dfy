/** The journal as event source: what every run of controller calls keeps. */
module Journal {
  import opened Prelude
  import opened Labels
  import opened Identity
  import opened Evidence
  import opened Lifecycle

  // ------------------------------------------------------------ folding a journal

  datatype Folded = Folded(
    state: LifecycleState, active: seq<string>, pending: Option<UpdateTarget>,
    committed: Option<WeightVersion>, identity: Option<WeightIdentity>)

  const NOTHING := Folded(UNINITIALIZED, [], None, None, None)

  function Without(ids: seq<string>, id: string): seq<string> {
    if ids == [] then [] else if ids[0] == id then ids[1..] else [ids[0]] + Without(ids[1..], id)
  }

  function TargetVersion(t: Option<UpdateTarget>): Option<WeightVersion> {
    if t.Some? then Some(t.value.version) else None
  }

  function TargetIdentity(t: Option<UpdateTarget>): Option<WeightIdentity> {
    if t.Some? then Some(t.value.identity) else None
  }

  /** Reads one record. The initialize record names no target, so the identity is learnt later. */
  function FoldOne(f: Folded, r: TransitionRecord): Folded {
    var g := f.(state := r.to);
    match r.what
    case Moved(INITIALIZE) => g.(committed := Some(INITIAL_VERSION))
    case Moved(BEGIN_UPDATE) => g.(pending := r.target)
    case Moved(CONFIRM_RESUMED) =>
      g.(pending := None, committed := TargetVersion(r.target), identity := TargetIdentity(r.target))
    case Moved(TAINT) =>
      g.(pending := None, active := [], identity := if f.pending.None? then TargetIdentity(r.target) else f.identity)
    case Moved(_) => if f.pending.None? then g.(identity := TargetIdentity(r.target)) else g
    case Admitted(id) => g.(active := f.active + [id], identity := TargetIdentity(r.target))
    case Finished(id) => g.(active := Without(f.active, id))
    case Aborted(id) => g.(active := Without(f.active, id))
  }

  function Fold(j: seq<TransitionRecord>): Folded {
    if j == [] then NOTHING else FoldOne(Fold(j[..|j| - 1]), j[|j| - 1])
  }

  /** What a record may say, given only what the journal said before it. */
  predicate MayFollow(f: Folded, r: TransitionRecord) {
    && r.from == f.state
    && match r.what
       case Moved(TAINT) => r.from != TAINTED && r.to == TAINTED
       case Moved(CONFIRM_DRAINED) => NextState(r.from, CONFIRM_DRAINED) == Some(r.to) && f.active == []
       case Moved(BEGIN_UPDATE) =>
         && NextState(r.from, BEGIN_UPDATE) == Some(r.to)
         && r.target.Some? && f.committed.Some? && r.target.value.version.value > f.committed.value.value
       case Moved(CONFIRM_RESUMED) =>
         NextState(r.from, CONFIRM_RESUMED) == Some(r.to) && r.target.Some? && r.target == f.pending
       case Moved(e) => NextState(r.from, e) == Some(r.to)
       case Admitted(id) => r.from == r.to == READY && id !in f.active
       case Finished(id) => r.from == r.to && r.to in ROLLOUT_COMPLETION_STATES && id in f.active
       case Aborted(id) => r.from == r.to && r.to in ROLLOUT_COMPLETION_STATES && id in f.active
  }

  predicate Replayable(j: seq<TransitionRecord>) {
    j == [] || (Replayable(j[..|j| - 1]) && MayFollow(Fold(j[..|j| - 1]), j[|j| - 1]))
  }

  predicate MidUpdate(s: LifecycleState) {
    s in {UPDATING, INVALIDATING, VALIDATING, RESUMING}
  }

  // ------------------------------------------------------------------- invariants

  function Learnt(c: Snapshot): Option<WeightIdentity> {
    if |c.journal| <= 1 then None else TargetIdentity(c.current)
  }

  /** What the fold of the journal should be, read off the controller's fields. */
  function Now(c: Snapshot): Folded {
    Folded(c.state, RequestIds(c.active), c.pending, TargetVersion(c.current), Learnt(c))
  }

  /** The journal alone gives back state, active requests in order, pending target and commit. */
  predicate JournalExplains(c: Snapshot) {
    Replayable(c.journal) && Fold(c.journal) == Now(c)
  }

  predicate FieldsAgree(c: Snapshot) {
    && (c.state == UNINITIALIZED ==> c.current.None? && c.journal == [])
    && (c.state !in {UNINITIALIZED, TAINTED} ==> c.current.Some? && c.journal != [])
    && (c.state !in {UNINITIALIZED, READY} && c.current.Some? ==> |c.journal| >= 2)
    && (c.state == TAINTED && c.current.None? ==> |c.journal| == 1)
    && (c.pending.Some? <==> MidUpdate(c.state))
    && (c.pending.Some? ==> c.pending.value.version.value > c.current.value.version.value)
    && (c.active != [] ==> c.state in ROLLOUT_COMPLETION_STATES && |c.journal| >= 2)
    && (c.taintReason.Some? <==> c.state == TAINTED)
    && (c.taintedIn.Some? <==> c.state == TAINTED)
    && (c.taintedIn.Some? ==> c.taintedIn.value != TAINTED)
    && forall i, k :: 0 <= i < k < |c.active| ==> c.active[i].requestId != c.active[k].requestId
  }

  /** Before a taint the journal alone is numbered; a taint numbers the orphans, then itself. */
  predicate Numbered(c: Snapshot) {
    var n := if c.state == TAINTED then |c.journal| - 1 else |c.journal|;
    && n >= 0
    && (forall i :: 0 <= i < n ==> c.journal[i].seqNo == i + 1)
    && (forall i :: 0 <= i < |c.orphaned| ==> c.orphaned[i].seqNo == n + 1 + i)
    && (c.state != TAINTED ==> c.orphaned == [] && c.seqNo == n)
    && (c.state == TAINTED ==> c.seqNo == n + |c.orphaned| + 1 && c.journal[n].seqNo == c.seqNo)
  }

  /** Active bindings carry the committed target and its salt. */
  predicate BoundToCurrent(c: Snapshot) {
    forall i :: 0 <= i < |c.active| ==>
      && c.current == Some(c.active[i].Target())
      && c.active[i].cacheSalt == c.active[i].version.CacheSalt()
      && c.active[i].admittedSeq <= c.seqNo
  }

  predicate Books(c: Snapshot) {
    FieldsAgree(c) && Numbered(c) && BoundToCurrent(c)
  }

  predicate Inv(c: Snapshot) {
    Books(c) && JournalExplains(c)
  }

  // ----------------------------------------------------------------- preservation

  /** `d` is `c` with one more record, and that record accounts for the difference. */
  predicate Explains(c: Snapshot, d: Snapshot) {
    && |d.journal| == |c.journal| + 1
    && d.journal[..|c.journal|] == c.journal
    && MayFollow(Now(c), d.journal[|c.journal|])
    && FoldOne(Now(c), d.journal[|c.journal|]) == Now(d)
  }

  lemma ExplainedStep(c: Snapshot, d: Snapshot)
    requires JournalExplains(c) && Explains(c, d)
    ensures JournalExplains(d)
  {
  }

  lemma RequestIdsAfterAdmit(active: seq<RolloutBinding>, b: RolloutBinding)
    ensures RequestIds(active + [b]) == RequestIds(active) + [b.requestId]
  {
  }

  lemma IsActiveIsListed(c: Snapshot, id: string)
    ensures IsActive(c, id) <==> id in RequestIds(c.active)
  {
    var ids := RequestIds(c.active);
    assert forall k :: 0 <= k < |ids| ==> ids[k] == c.active[k].requestId;
    assert IsActive(c, id) ==> ids[Position(c.active, id)] == id;
  }

  lemma {:induction false} WithoutDropsTheFirst(ids: seq<string>, id: string, i: nat)
    requires i < |ids| && ids[i] == id && forall k :: 0 <= k < i ==> ids[k] != id
    ensures Without(ids, id) == ids[..i] + ids[i + 1..]
  {
    if i > 0 {
      WithoutDropsTheFirst(ids[1..], id, i - 1);
      assert ids[..i] == [ids[0]] + ids[1..][..i - 1];
    }
  }

  lemma RequestIdsAfterRelease(active: seq<RolloutBinding>, id: string)
    requires Position(active, id) < |active|
    ensures var i := Position(active, id);
      RequestIds(active[..i] + active[i + 1..]) == Without(RequestIds(active), id)
  {
    WithoutDropsTheFirst(RequestIds(active), id, Position(active, id));
  }

  lemma TaintingKeepsBooks(c: Snapshot, reason: Reason)
    requires Books(c) && c.state != TAINTED
    ensures Books(Tainted(c, reason))
  {
  }

  lemma TaintingIsExplained(c: Snapshot, reason: Reason)
    requires Books(c) && c.state != TAINTED
    ensures Explains(c, Tainted(c, reason))
  {
  }

  lemma TaintStep(c: Snapshot, reason: Reason)
    requires Books(c) && c.state != TAINTED
    ensures Books(Tainted(c, reason)) && Explains(c, Tainted(c, reason))
  {
    TaintingKeepsBooks(c, reason);
    TaintingIsExplained(c, reason);
  }

  lemma AdmitStep(c: Snapshot, id: string)
    requires Books(c) && Admit(c, id).1.Bound?
    ensures Books(Admit(c, id).0) && Explains(c, Admit(c, id).0)
  {
    IsActiveIsListed(c, id);
    RequestIdsAfterAdmit(c.active, Admit(c, id).1.binding);
  }

  lemma ReleaseKeepsTheRest(c: Snapshot, id: string, what: Happening)
    requires Books(c) && Release(c, id, what).1.Bound?
    ensures var d := Release(c, id, what).0;
      && (forall k :: 0 <= k < |d.active| ==> d.active[k] in c.active)
      && (forall i, k :: 0 <= i < k < |d.active| ==> d.active[i].requestId != d.active[k].requestId)
  {
    var i := Position(c.active, id);
    var rest := c.active[..i] + c.active[i + 1..];
    assert forall k :: 0 <= k < |rest| ==> rest[k] == c.active[if k < i then k else k + 1];
  }

  lemma ReleaseKeepsNumbers(c: Snapshot, id: string, what: Happening)
    requires Books(c) && Release(c, id, what).1.Bound?
    ensures Numbered(Release(c, id, what).0)
  {
  }

  lemma ReleaseKeepsBooks(c: Snapshot, id: string, what: Happening)
    requires Books(c) && Release(c, id, what).1.Bound?
    ensures Books(Release(c, id, what).0)
  {
    ReleaseKeepsTheRest(c, id, what);
    ReleaseKeepsNumbers(c, id, what);
  }

  lemma ReleaseIsExplained(c: Snapshot, id: string, what: Happening)
    requires (what == Finished(id) || what == Aborted(id)) && Release(c, id, what).1.Bound?
    requires c.current.Some? && |c.journal| >= 1
    requires |c.journal| == 1 ==> c.active == []
    ensures Explains(c, Release(c, id, what).0)
  {
    IsActiveIsListed(c, id);
    RequestIdsAfterRelease(c.active, id);
  }

  lemma InitializingKeepsBooks(c: Snapshot, ev: BootstrapEvidence)
    requires Books(c) && Initialize(c, ev).1.Done?
    ensures Books(Initialize(c, ev).0)
  {
  }

  lemma InitializingIsExplained(c: Snapshot, ev: BootstrapEvidence)
    requires Books(c) && Initialize(c, ev).1.Done?
    ensures Explains(c, Initialize(c, ev).0)
  {
  }

  lemma InitializeStep(c: Snapshot, ev: BootstrapEvidence)
    requires Books(c) && Initialize(c, ev).1.Done?
    ensures Books(Initialize(c, ev).0) && Explains(c, Initialize(c, ev).0)
  {
    InitializingKeepsBooks(c, ev);
    InitializingIsExplained(c, ev);
  }

  lemma BeginDrainStep(c: Snapshot)
    requires Books(c) && BeginDrain(c).1.Done?
    ensures Books(BeginDrain(c).0) && Explains(c, BeginDrain(c).0)
  {
  }

  lemma ConfirmDrainedStep(c: Snapshot, ev: DrainEvidence)
    requires Books(c) && ConfirmDrained(c, ev).1.Done?
    ensures Books(ConfirmDrained(c, ev).0) && Explains(c, ConfirmDrained(c, ev).0)
  {
  }

  lemma UpdatingKeepsBooks(c: Snapshot, target: UpdateTarget)
    requires Books(c) && BeginUpdate(c, target).1.Done?
    ensures Books(BeginUpdate(c, target).0)
  {
  }

  lemma UpdatingIsExplained(c: Snapshot, target: UpdateTarget)
    requires Books(c) && BeginUpdate(c, target).1.Done?
    ensures Explains(c, BeginUpdate(c, target).0)
  {
  }

  lemma BeginUpdateStep(c: Snapshot, target: UpdateTarget)
    requires Books(c) && BeginUpdate(c, target).1.Done?
    ensures Books(BeginUpdate(c, target).0) && Explains(c, BeginUpdate(c, target).0)
  {
    UpdatingKeepsBooks(c, target);
    UpdatingIsExplained(c, target);
  }

  /** The three confirmations between update and resume only move on. */
  lemma ConfirmStep(c: Snapshot, e: Event)
    requires Books(c) && e in {CONFIRM_UPDATED, CONFIRM_INVALIDATED, CONFIRM_VALIDATED} && NextState(c.state, e).Some?
    ensures Books(Advanced(c, e, c.pending)) && Explains(c, Advanced(c, e, c.pending))
  {
  }

  lemma ConfirmResumedStep(c: Snapshot, ev: ResumeEvidence)
    requires Books(c) && ConfirmResumed(c, ev).1.Done?
    ensures Books(ConfirmResumed(c, ev).0) && Explains(c, ConfirmResumed(c, ev).0)
  {
  }

  /** What a raising call leaves: either nothing changed, or the controller is tainted. */
  predicate RaisedShape(c: Snapshot, d: Snapshot, error: Error) {
    && (!error.Taints() ==> d == c)
    && error != AssertionFailed && error != InvariantViolation(I1_ATOMICITY)
    && (error.Taints() && c.state != TAINTED ==> d.taintReason.Some? && d == Tainted(c, d.taintReason.value))
    && (c.state == TAINTED ==> d == c)
  }

  predicate ShapelyIfRaised(c: Snapshot, r: Result) {
    r.1.Raised? ==> RaisedShape(c, r.0, r.1.error)
  }

  lemma InitializationRaises(c: Snapshot, ev: BootstrapEvidence)
    requires Books(c)
    ensures ShapelyIfRaised(c, Initialize(c, ev))
  {
  }

  lemma DrainRaises(c: Snapshot, ev: DrainEvidence)
    requires Books(c)
    ensures ShapelyIfRaised(c, ConfirmDrained(c, ev))
  {
  }

  lemma UpdateRaises(c: Snapshot, ev: UpdateEvidence)
    requires Books(c)
    ensures ShapelyIfRaised(c, ConfirmUpdated(c, ev))
  {
  }

  lemma ValidationRaises(c: Snapshot, ev: ValidateEvidence)
    requires Books(c)
    ensures ShapelyIfRaised(c, ConfirmValidated(c, ev))
  {
  }

  lemma ResumptionRaises(c: Snapshot, ev: ResumeEvidence)
    requires Books(c)
    ensures ShapelyIfRaised(c, ConfirmResumed(c, ev))
  {
  }

  lemma RolloutsRaise(c: Snapshot, id: string, what: Happening)
    requires Books(c)
    ensures ShapelyIfRaised(c, Admit(c, id)) && ShapelyIfRaised(c, Release(c, id, what))
  {
  }

  /** A call that raises a taint has tainted; any other error changed nothing, and no assert fires. */
  lemma RaisingShapes(c: Snapshot, cmd: Command)
    requires Books(c) && Apply(c, cmd).1.Raised?
    ensures RaisedShape(c, Apply(c, cmd).0, Apply(c, cmd).1.error)
  {
    match cmd {
      case DoInitialize(ev) => InitializationRaises(c, ev);
      case DoConfirmDrained(ev) => DrainRaises(c, ev);
      case DoConfirmUpdated(ev) => UpdateRaises(c, ev);
      case DoConfirmValidated(ev) => ValidationRaises(c, ev);
      case DoConfirmResumed(ev) => ResumptionRaises(c, ev);
      case DoAdmit(id) => RolloutsRaise(c, id, Admitted(id));
      case DoFinish(id) => RolloutsRaise(c, id, Finished(id));
      case DoAbort(id) => RolloutsRaise(c, id, Aborted(id));
      case _ =>
    }
  }

  /** One record more, which explains the change, or no change at all. */
  predicate Journaled(c: Snapshot, d: Snapshot) {
    Books(d) && (d == c || Explains(c, d))
  }

  lemma RolloutCallsAreJournaled(c: Snapshot, cmd: Command)
    requires Books(c) && Apply(c, cmd).1.Bound?
    ensures Journaled(c, Apply(c, cmd).0)
  {
    match cmd {
      case DoAdmit(id) => AdmitStep(c, id);
      case DoFinish(id) =>
        ReleaseKeepsBooks(c, id, Finished(id));
        ReleaseIsExplained(c, id, Finished(id));
      case DoAbort(id) =>
        ReleaseKeepsBooks(c, id, Aborted(id));
        ReleaseIsExplained(c, id, Aborted(id));
    }
  }

  lemma EntriesAreJournaled(c: Snapshot, cmd: Command)
    requires Books(c) && Apply(c, cmd).1.Done?
    requires cmd.DoInitialize? || cmd.DoBeginDrain? || cmd.DoConfirmDrained? || cmd.DoBeginUpdate?
    ensures Journaled(c, Apply(c, cmd).0)
  {
    match cmd {
      case DoInitialize(ev) => InitializeStep(c, ev);
      case DoBeginDrain => BeginDrainStep(c);
      case DoConfirmDrained(ev) => ConfirmDrainedStep(c, ev);
      case DoBeginUpdate(target) => BeginUpdateStep(c, target);
    }
  }

  lemma ConfirmationsAreJournaled(c: Snapshot, cmd: Command)
    requires Books(c) && Apply(c, cmd).1.Done?
    requires !cmd.DoInitialize? && !cmd.DoBeginDrain? && !cmd.DoConfirmDrained? && !cmd.DoBeginUpdate?
    ensures Journaled(c, Apply(c, cmd).0)
  {
    match cmd {
      case DoConfirmUpdated(_) => ConfirmStep(c, CONFIRM_UPDATED);
      case DoConfirmInvalidated(_) => ConfirmStep(c, CONFIRM_INVALIDATED);
      case DoConfirmValidated(_) => ConfirmStep(c, CONFIRM_VALIDATED);
      case DoConfirmResumed(ev) => ConfirmResumedStep(c, ev);
    }
  }

  lemma MovesAreJournaled(c: Snapshot, cmd: Command)
    requires Books(c) && Apply(c, cmd).1.Done?
    ensures Journaled(c, Apply(c, cmd).0)
  {
    if cmd.DoInitialize? || cmd.DoBeginDrain? || cmd.DoConfirmDrained? || cmd.DoBeginUpdate? {
      EntriesAreJournaled(c, cmd);
    } else {
      ConfirmationsAreJournaled(c, cmd);
    }
  }

  /** Every call that changes the controller adds exactly one record, and the record explains it. */
  lemma EveryChangeIsJournaled(c: Snapshot, cmd: Command)
    requires Books(c)
    ensures Journaled(c, Apply(c, cmd).0)
  {
    var (d, out) := Apply(c, cmd);
    if out.Raised? {
      RaisingShapes(c, cmd);
      if d != c {
        TaintStep(c, d.taintReason.value);
      }
    } else if out.Bound? {
      RolloutCallsAreJournaled(c, cmd);
    } else {
      MovesAreJournaled(c, cmd);
    }
  }

  lemma ApplyKeepsInv(c: Snapshot, cmd: Command)
    requires Inv(c)
    ensures Inv(Apply(c, cmd).0)
  {
    EveryChangeIsJournaled(c, cmd);
    if Apply(c, cmd).0 != c {
      ExplainedStep(c, Apply(c, cmd).0);
    }
  }

  /** Folding the journal rebuilds the controller, after any sequence of calls. */
  lemma {:induction false} JournalIsEventSource(cmds: seq<Command>)
    ensures Inv(Run(FRESH, cmds)) && JournalExplains(Run(FRESH, cmds))
  {
    if cmds != [] {
      var front := cmds[..|cmds| - 1];
      JournalIsEventSource(front);
      ApplyKeepsInv(Run(FRESH, front), cmds[|cmds| - 1]);
    }
  }
}
