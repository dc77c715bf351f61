/** The HTTP adapter's own state: its drain attempts, and the update it has open with a driver. */
module HttpAdapter {
  import opened Prelude
  import opened Labels
  import opened Identity
  import opened Evidence
  import Lifecycle
  import opened HttpDrain
  import opened Nccl
  import opened NcclDriver

  // ------------------------------------------------------------------- the update path

  /** `driver` is None for the lifecycle-only driver, which moves no tensors. */
  datatype Channel = Channel(inflight: Option<UpdateTarget>, driver: Option<Driver>) {
    ghost predicate Inv(hash: Hash) {
      && (driver.Some? ==> DriverInv(driver.value, hash))
      && (driver.None? ==> inflight.None?)
    }
  }

  /** False stands for WeightTransferNotConfiguredError. */
  function OpenUpdate(ch: Channel, target: UpdateTarget): (Channel, bool) {
    if ch.driver.None? then (ch, false) else (ch.(inflight := Some(target)), true)
  }

  /** None stands for whatever was raised. */
  function CompleteUpdate(
    ch: Channel, target: UpdateTarget, on: Option<int>, metadata: Option<seq<ParamSpec>>, script: seq<TrainerStep>,
    hash: Hash): (Channel, Option<UpdateEvidence>)
    requires ch.driver.Some? ==> ch.driver.value.Valid()
  {
    if ch.inflight != Some(target) || ch.driver.None? then (ch, None)
    else
      var (d, out) := DoTransfer(ch.driver.value, target, on, metadata, script, hash);
      match out
      case Staged(identity) =>
        (Channel(None, Some(d)), Some(UpdateEvidence(target, true, true, true, Some(identity))))
      case _ => (ch.(driver := Some(d)), None)
  }

  datatype PortOp =
    | Opening(target: UpdateTarget)
    | Completing(target: UpdateTarget, on: Option<int>, metadata: Option<seq<ParamSpec>>, script: seq<TrainerStep>)
    | Driving(op: Op)

  function Perform(ch: Channel, op: PortOp, hash: Hash): (r: Channel)
    requires ch.driver.Some? ==> ch.driver.value.Valid()
    ensures r.driver.Some? ==> r.driver.value.Valid()
  {
    match op
    case Opening(target) => OpenUpdate(ch, target).0
    case Completing(target, on, metadata, script) => CompleteUpdate(ch, target, on, metadata, script, hash).0
    case Driving(driverOp) =>
      if ch.driver.None? then ch else ch.(driver := Some(Do(ch.driver.value, driverOp, hash).0))
  }

  function PerformAll(ch: Channel, ops: seq<PortOp>, hash: Hash): (r: Channel)
    requires ch.driver.Some? ==> ch.driver.value.Valid()
    ensures r.driver.Some? ==> r.driver.value.Valid()
    decreases |ops|
  {
    if ops == [] then ch else Perform(PerformAll(ch, ops[..|ops| - 1], hash), ops[|ops| - 1], hash)
  }

  lemma PerformKeeps(ch: Channel, op: PortOp, hash: Hash)
    requires ch.Inv(hash)
    ensures Perform(ch, op, hash).Inv(hash)
  {
    if ch.driver.Some? {
      match op {
        case Opening(_) =>
        case Completing(target, on, metadata, script) =>
          DoKeeps(ch.driver.value, Transfer(target, on, metadata, script), hash);
        case Driving(driverOp) => DoKeeps(ch.driver.value, driverOp, hash);
      }
    }
  }

  lemma {:induction false} ChannelInvariant(ch: Channel, ops: seq<PortOp>, hash: Hash)
    requires ch.Inv(hash)
    ensures PerformAll(ch, ops, hash).Inv(hash)
  {
    if ops != [] {
      ChannelInvariant(ch, ops[..|ops| - 1], hash);
      PerformKeeps(PerformAll(ch, ops[..|ops| - 1], hash), ops[|ops| - 1], hash);
    }
  }

  /** What evidence says, and when it is returned at all. */
  predicate Truthful(ch: Channel, after: Channel, ev: UpdateEvidence, target: UpdateTarget, hash: Hash) {
    && ch.inflight == Some(target) && after.inflight == None && after.driver.Some?
    && ev.target == target && ev.FailureReason().None?
    && ev.observedIdentity == Some(target.identity) == after.driver.value.Read(hash)
  }

  lemma CompletionIsTruthful(
    ch: Channel, target: UpdateTarget, on: Option<int>, metadata: Option<seq<ParamSpec>>, script: seq<TrainerStep>,
    hash: Hash)
    requires ch.Inv(hash)
    ensures var (after, ev) := CompleteUpdate(ch, target, on, metadata, script, hash);
      ev.Some? ==> ch.driver.Some? && Truthful(ch, after, ev.value, target, hash)
  {
    if ch.inflight == Some(target) {
      TransfersSendExactly(ch.driver.value, target, on, metadata, script, hash);
      DoKeeps(ch.driver.value, Transfer(target, on, metadata, script), hash);
    }
  }

  lemma CompletionLabels(
    ch: Channel, target: UpdateTarget, on: Option<int>, metadata: Option<seq<ParamSpec>>, script: seq<TrainerStep>,
    hash: Hash)
    requires ch.Inv(hash) && ch.driver.Some? && ch.driver.value.InStep()
    ensures var (after, ev) := CompleteUpdate(ch, target, on, metadata, script, hash);
      ev.Some? ==> after.driver.Some? && WellLabelled(after.driver.value.log[|ch.driver.value.log|..])
  {
    var d := ch.driver.value;
    TransfersSendExactly(d, target, on, metadata, script, hash);
    if Sends(d, target, on, metadata, hash) {
      LabelsItsTargetExactly(d, target, on, metadata, hash);
    }
  }

  lemma TruthIsAccepted(c: Lifecycle.Snapshot, ev: UpdateEvidence)
    requires c.state == Lifecycle.UPDATING && c.pending == Some(ev.target) && ev.FailureReason().None?
    ensures Lifecycle.ConfirmUpdated(c, ev).1.Done?
  {
  }

  /**
    * After any use of the adapter and its driver: evidence is only ever returned for the target that
    * was opened, its observed identity is the target's and that of the manifest last read, and the
    * controller waiting for that target accepts it. A second completion is refused. The label the
    * transfer committed is the target's unless a failed re-initialization left the driver parted.
    */
  lemma EvidenceIsTrue(
    declared: Option<WeightProvenance>, ops: seq<PortOp>, hash: Hash, target: UpdateTarget, on: Option<int>,
    metadata: Option<seq<ParamSpec>>, script: seq<TrainerStep>, c: Lifecycle.Snapshot)
    ensures
      var ch := PerformAll(Channel(None, Some(NewDriver(declared))), ops, hash);
      var (after, ev) := CompleteUpdate(ch, target, on, metadata, script, hash);
      ev.Some? ==>
        && Truthful(ch, after, ev.value, target, hash) && ch.driver.Some?
        && (c.state == Lifecycle.UPDATING && c.pending == Some(target) ==>
              Lifecycle.ConfirmUpdated(c, ev.value).1.Done?)
        && CompleteUpdate(after, target, on, metadata, script, hash) == (after, None)
        && (ch.driver.value.InStep() ==> WellLabelled(after.driver.value.log[|ch.driver.value.log|..]))
  {
    var start := Channel(None, Some(NewDriver(declared)));
    ChannelInvariant(start, ops, hash);
    var ch := PerformAll(start, ops, hash);
    var (after, ev) := CompleteUpdate(ch, target, on, metadata, script, hash);
    CompletionIsTruthful(ch, target, on, metadata, script, hash);
    if ev.Some? {
      if ch.driver.value.InStep() {
        CompletionLabels(ch, target, on, metadata, script, hash);
      }
      if c.state == Lifecycle.UPDATING && c.pending == Some(target) {
        TruthIsAccepted(c, ev.value);
      }
    }
  }

  // ------------------------------------------------------- when evidence is returned at all

  /** The operation is a completion that returned evidence. */
  predicate Completes(ch: Channel, op: PortOp, hash: Hash)
    requires ch.driver.Some? ==> ch.driver.value.Valid()
  {
    op.Completing? && CompleteUpdate(ch, op.target, op.on, op.metadata, op.script, hash).1.Some?
  }

  /** Position k is the latest opening, with no successful completion after it. */
  ghost predicate IsLatestOpening(start: Channel, ops: seq<PortOp>, hash: Hash, k: nat, target: UpdateTarget)
    requires start.driver.Some? ==> start.driver.value.Valid()
  {
    && k < |ops| && ops[k] == Opening(target)
    && forall j :: k < j < |ops| ==> !ops[j].Opening? && !Completes(PerformAll(start, ops[..j], hash), ops[j], hash)
  }

  ghost predicate LatestOpening(start: Channel, ops: seq<PortOp>, hash: Hash, target: UpdateTarget)
    requires start.driver.Some? ==> start.driver.value.Valid()
  {
    exists k: nat :: IsLatestOpening(start, ops, hash, k, target)
  }

  lemma OneMoreOp(start: Channel, ops: seq<PortOp>, op: PortOp, hash: Hash, target: UpdateTarget)
    requires start.driver.Some? ==> start.driver.value.Valid()
    ensures LatestOpening(start, ops + [op], hash, target)
       <==> op == Opening(target)
            || (!op.Opening? && !Completes(PerformAll(start, ops, hash), op, hash) && LatestOpening(start, ops, hash, target))
  {
    var all := ops + [op];
    assert all[..|ops|] == ops && all[|ops|] == op;
    assert forall j :: 0 <= j < |ops| ==> all[..j] == ops[..j] && all[j] == ops[j];
    if op == Opening(target) {
      assert IsLatestOpening(start, all, hash, |ops|, target);
    } else if LatestOpening(start, all, hash, target) {
      var k: nat :| IsLatestOpening(start, all, hash, k, target);
      assert k < |ops|;
      assert IsLatestOpening(start, ops, hash, k, target);
    } else if LatestOpening(start, ops, hash, target) {
      var k: nat :| IsLatestOpening(start, ops, hash, k, target);
      assert !op.Opening? && !Completes(PerformAll(start, ops, hash), op, hash) ==> IsLatestOpening(start, all, hash, k, target);
    }
  }

  /** What the adapter remembers is the latest opening. */
  lemma {:induction false} OpeningsAreRemembered(start: Channel, ops: seq<PortOp>, hash: Hash, target: UpdateTarget)
    requires start.inflight.None? && start.driver.Some? && start.driver.value.Valid()
    ensures var ch := PerformAll(start, ops, hash);
      ch.driver.Some? && (ch.inflight == Some(target) <==> LatestOpening(start, ops, hash, target))
  {
    if ops != [] {
      var front, op := ops[..|ops| - 1], ops[|ops| - 1];
      assert ops == front + [op];
      OpeningsAreRemembered(start, front, hash, target);
      OneMoreOp(start, front, op, hash, target);
    }
  }

  /** The driver is live on its device and what it has read, or now reads, is the target's. */
  predicate CanStage(d: Driver, target: UpdateTarget, on: Option<int>, metadata: Option<seq<ParamSpec>>, hash: Hash) {
    && d.engine.Some?
    && (d.device.Some? && on.Some? ==> d.device.value == on.value)
    && (if d.identity.Some? then d.identity == Some(target.identity)
        else metadata.Some? && IdentityOf(metadata.value, d.provenance, hash) == Some(target.identity))
  }

  /** The label an unversioned finalize finds: the target's, or what a parted engine's own client was left with. */
  function LabelAtHand(d: Driver, target: UpdateTarget): Option<string>
    requires d.Valid() && d.engine.Some?
  {
    if d.engine == d.sync then Some(target.Label()) else d.clients[d.engine.value]
  }

  lemma TransfersReportExactly(
    d: Driver, target: UpdateTarget, on: Option<int>, metadata: Option<seq<ParamSpec>>, script: seq<TrainerStep>,
    hash: Hash)
    requires DriverInv(d, hash)
    ensures DoTransfer(d, target, on, metadata, script, hash).1.Staged?
       <==> CanStage(d, target, on, metadata, hash) && ScriptEnds(LabelAtHand(d, target), script)
  {
    if CanStage(d, target, on, metadata, hash) {
      ScriptsEndExactly(LabelAtHand(d, target), script);
    }
  }

  /**
    * After any use of the adapter and its driver, a completion returns evidence exactly when the
    * latest opening since the last successful completion was for its target, the driver can stage
    * that target here, and upstream's script ends without an exception.
    */
  lemma EvidenceExactly(
    declared: Option<WeightProvenance>, ops: seq<PortOp>, hash: Hash, target: UpdateTarget, on: Option<int>,
    metadata: Option<seq<ParamSpec>>, script: seq<TrainerStep>)
    ensures
      var start := Channel(None, Some(NewDriver(declared)));
      var ch := PerformAll(start, ops, hash);
      && ch.driver.Some? && ch.Inv(hash)
      && (CompleteUpdate(ch, target, on, metadata, script, hash).1.Some? <==>
            && LatestOpening(start, ops, hash, target)
            && CanStage(ch.driver.value, target, on, metadata, hash)
            && ScriptEnds(LabelAtHand(ch.driver.value, target), script))
  {
    var start := Channel(None, Some(NewDriver(declared)));
    ChannelInvariant(start, ops, hash);
    OpeningsAreRemembered(start, ops, hash, target);
    TransfersReportExactly(PerformAll(start, ops, hash).driver.value, target, on, metadata, script, hash);
  }

  /**
    * An update with nothing in its way: live, declared, opened, upstream's ordinary script. It is
    * evidenced, its finalize carried the target's label, and the adapter has nothing open any more.
    */
  lemma UpdatesGoThrough(
    declared: Option<WeightProvenance>, p: WeightProvenance, manifest: seq<ParamSpec>, version: WeightVersion,
    on: Option<int>, hash: Hash)
    requires DistinctNames(SortByName(manifest))
    ensures IdentityOf(manifest, Some(p), hash).Some?
    ensures var identity := IdentityOf(manifest, Some(p), hash).value;
      var target := UpdateTarget(version, identity);
      var ops := [Driving(Initialize(on, Builds)), Driving(Declare(p, Some(manifest))), Opening(target)];
      var ch := PerformAll(Channel(None, Some(NewDriver(declared))), ops, hash);
      var (after, ev) := CompleteUpdate(ch, target, on, None, [Opens, Updates, Finishes(None)], hash);
      && ev == Some(UpdateEvidence(target, true, true, true, Some(identity)))
      && after.inflight == None && after.driver.Some?
      && after.driver.value.log
         == [Entry(Opened, target, Some(identity)), Entry(Updated, target, Some(identity)),
             Entry(Finished(version.Label(), false), target, Some(identity))]
  {
    var identity := IdentityOf(manifest, Some(p), hash).value;
    var target := UpdateTarget(version, identity);
    DeclaredChannel(declared, p, manifest, target, on, hash);
    DeclaredDriversSend(Declared(p, manifest, identity, on), target, on, hash);
  }

  lemma DeclaredChannel(
    declared: Option<WeightProvenance>, p: WeightProvenance, manifest: seq<ParamSpec>, target: UpdateTarget,
    on: Option<int>, hash: Hash)
    requires IdentityOf(manifest, Some(p), hash) == Some(target.identity)
    ensures var ops := [Driving(Initialize(on, Builds)), Driving(Declare(p, Some(manifest))), Opening(target)];
      PerformAll(Channel(None, Some(NewDriver(declared))), ops, hash)
      == Channel(Some(target), Some(Declared(p, manifest, target.identity, on)))
  {
    var start := Channel(None, Some(NewDriver(declared)));
    var ops := [Driving(Initialize(on, Builds)), Driving(Declare(p, Some(manifest))), Opening(target)];
    assert ops[..2] == [ops[0], ops[1]] && ops[..2][..1] == [ops[0]] && ops[..2][..1][..0] == [];
    var live := DoInitialize(NewDriver(declared), on, Builds).0;
    assert live.clients == [None];
    assert PerformAll(start, ops[..2][..1], hash) == Channel(None, Some(live));
    assert PerformAll(start, ops[..2], hash) == Channel(None, Some(DoDeclare(live, p, Some(manifest), hash).0));
  }

  /** A new driver, initialized here and with this manifest declared. */
  function Declared(
    p: WeightProvenance, manifest: seq<ParamSpec>, identity: WeightIdentity, on: Option<int>): Driver
  {
    Driver(Some(p), [None], Some(0), Some(0), Some(identity), on, Some(manifest), [])
  }

  lemma DeclaredDriversSend(d: Driver, target: UpdateTarget, on: Option<int>, hash: Hash)
    requires d.Valid() && d.engine.Some? && d.InStep() && d.device == on && d.log == []
    requires d.identity == Some(target.identity) == d.Read(hash)
    ensures var (e, out) := DoTransfer(d, target, on, None, [Opens, Updates, Finishes(None)], hash);
      && out == Staged(target.identity)
      && e.log
         == [Entry(Opened, target, Some(target.identity)), Entry(Updated, target, Some(target.identity)),
             Entry(Finished(target.Label(), false), target, Some(target.identity))]
  {
    OrdinaryScript(Some(target.Label()));
  }

  lemma OrdinaryScript(pending: Option<string>)
    requires pending.Some?
    ensures Sent(pending, [Opens, Updates, Finishes(None)]).0 == [Opened, Updated, Finished(pending.value, false)]
    ensures Sent(pending, [Opens, Updates, Finishes(None)]).1
  {
    var script := [Opens, Updates, Finishes(None)];
    assert script[1..] == [Updates, Finishes(None)] && script[1..][1..] == [Finishes(None)] && script[1..][1..][1..] == [];
    assert Sent(pending, script[1..][1..]).0 == [Finished(pending.value, false)];
    assert Sent(pending, script[1..]).0 == [Updated, Finished(pending.value, false)];
  }

  /** A completion for anything but what is open does nothing; one that fails leaves it open, and the driver where the transfer left it. */
  lemma FailedCompletions(
    ch: Channel, target: UpdateTarget, on: Option<int>, metadata: Option<seq<ParamSpec>>, script: seq<TrainerStep>,
    hash: Hash)
    requires ch.driver.Some? && ch.driver.value.Valid()
    ensures var (after, ev) := CompleteUpdate(ch, target, on, metadata, script, hash);
      if ch.inflight != Some(target) then after == ch && ev.None?
      else
        && after.driver == Some(DoTransfer(ch.driver.value, target, on, metadata, script, hash).0)
        && after.inflight == if ev.Some? then None else ch.inflight
  {
  }

  /** With a driver that moves tensors every opening is accepted, whatever is open already: the latest one counts. */
  lemma OpeningsAreAccepted(declared: Option<WeightProvenance>, ops: seq<PortOp>, hash: Hash, target: UpdateTarget)
    ensures var ch := PerformAll(Channel(None, Some(NewDriver(declared))), ops, hash);
      OpenUpdate(ch, target) == (Channel(Some(target), ch.driver), true)
  {
    OpeningsAreRemembered(Channel(None, Some(NewDriver(declared))), ops, hash, target);
  }

  /** Without a driver that moves tensors nothing opens and nothing completes. */
  lemma LifecycleOnlyNeverOpens(ops: seq<PortOp>, hash: Hash, target: UpdateTarget)
    ensures var ch := PerformAll(Channel(None, None), ops, hash); ch == Channel(None, None) && !OpenUpdate(ch, target).1
  {
    if ops != [] {
      LifecycleOnlyNeverOpens(ops[..|ops| - 1], hash, target);
    }
  }

  // ----------------------------------------------------------------------------- object

  class HttpVLLMAdapter {
    const limits: Limits
    const driver: NCCLWeightTransferDriver?
    /** What `/abort_requests` answers, call by call. */
    const abortReplies: nat -> AbortReply
    var abortsMade: nat
    var inflight: Option<UpdateTarget>
    var drainState: DrainState
    var drainError: Option<string>
    var drainAttempts: nat
    /** History, as in HttpDrain.Drain. */
    ghost var session: nat
    ghost var running: set<Thread>
    ghost var ended: map<Thread, Option<string>>

    ghost function View(): Drain
      reads this
    {
      Drain(drainState, drainError, drainAttempts, session, running, ended)
    }

    constructor (limits: Limits, driver: NCCLWeightTransferDriver?, abortReplies: nat -> AbortReply)
      ensures this.limits == limits && this.driver == driver && this.abortReplies == abortReplies
      ensures View() == UNUSED && inflight == None
    {
      this.limits, this.driver, this.abortReplies := limits, driver, abortReplies;
      abortsMade, inflight := 0, None;
      drainState, drainError, drainAttempts := IDLE, None, 0;
      session, running, ended := 0, {}, map[];
    }

    method StartAttempt()
      modifies this`drainAttempts, this`drainState, this`running
      ensures View() == Launch(old(View()))
    {
      drainAttempts := drainAttempts + 1;
      drainState := IN_FLIGHT;
      running := running + {Thread(session, drainAttempts)};
    }

    /** The first section of a drain's beginning. */
    method RestartNumbering()
      modifies this`drainAttempts, this`session
      ensures View() == Reset(old(View()))
    {
      drainAttempts := 0;
      session := session + 1;
    }

    /** Both sections, nobody between them. */
    method BeginDrain()
      modifies this`drainAttempts, this`drainState, this`session, this`running
      ensures View() == Open(old(View()))
    {
      RestartNumbering();
      StartAttempt();
    }

    /** What a pause thread does once its request is over; `error` is None when it returned. */
    method PauseAttempt(ghost of: nat, attempt: nat, error: Option<string>)
      requires Thread(of, attempt) in running
      modifies this`drainState, this`drainError, this`running, this`ended
      ensures View() == End(old(View()), Thread(of, attempt), error)
    {
      running := running - {Thread(of, attempt)};
      ended := ended[Thread(of, attempt) := error];
      if attempt != drainAttempts {
        return;
      }
      drainState := if error.None? then COMPLETED else FAILED;
      drainError := error;
    }

    /** Up to `retries` requests, stopping at the first success; false for a foreign exception. */
    method AbortAll(ghost w: World) returns (survived: bool, ghost ms: seq<Move>)
      requires |w.pollers| == 1 && w.d.state == FAILED && w.pollers[0] == Look(limits, w.d)
      modifies this`abortsMade
      ensures After(limits, w, ms)
           == World(w.d, [if survived then Deciding(w.d.attempts, w.d.error) else Broke])
    {
      ms := [];
      var left := limits.retries;
      while left > 0
        invariant After(limits, w, ms) == World(w.d, [
          if left > 0 then Aborting(w.d.attempts, w.d.error, left) else Deciding(w.d.attempts, w.d.error)])
      {
        var reply := abortReplies(abortsMade);
        abortsMade := abortsMade + 1;
        AfterOneMore(limits, w, ms, Aborts(0, reply));
        ms := ms + [Aborts(0, reply)];
        if reply.Accepted? {
          return true, ms;
        } else if reply.Exploded? {
          return false, ms;
        }
        left := left - 1;
      }
      survived := true;
    }

    /** One poll that no pause thread interrupts: the steps of one poller, to its end. */
    method AwaitDrain() returns (r: Poller, ghost ms: seq<Move>)
      modifies this`abortsMade, this`drainAttempts, this`drainState, this`running
      ensures After(limits, World(old(View()), [Fresh]), ms) == World(View(), [r]) && !Busy(r)
    {
      ghost var w := World(View(), [Fresh]);
      AfterOneMore(limits, w, [], Looks(0));
      ms := [Looks(0)];
      assert [] + ms == ms;
      var state, error, attempts := drainState, drainError, drainAttempts;
      if state != FAILED {
        r := Reported(DrainEvidence(state == COMPLETED, None));
        return;
      }
      ghost var seen := After(limits, w, ms);
      var survived, aborts := AbortAll(seen);
      AfterAppend(limits, w, ms, aborts);
      ms := ms + aborts;
      if !survived {
        return Broke, ms;
      }
      AfterOneMore(limits, w, ms, Decides(0));
      ms := ms + [Decides(0)];
      if attempts > limits.reissues {
        return GaveUp(attempts, error), ms;
      }
      StartAttempt();
      r := Reported(DrainEvidence(false, None));
    }

    ghost function Updates(): Channel
      requires driver != null ==> driver.Valid()
      reads this, if driver == null then {} else {driver, driver.inner}, if driver == null then [] else driver.clients
    {
      Channel(inflight, if driver == null then None else Some(driver.View()))
    }

    method StartWeightUpdate(target: UpdateTarget) returns (ok: bool)
      requires driver != null ==> driver.Valid()
      modifies this`inflight
      ensures driver != null ==> driver.Valid()
      ensures (Updates(), ok) == OpenUpdate(old(Updates()), target)
    {
      if driver == null {
        return false;
      }
      inflight := Some(target);
      ok := true;
    }

    method CompleteWeightUpdate(
      target: UpdateTarget, on: Option<int>, metadata: Option<seq<ParamSpec>>, script: seq<TrainerStep>)
      returns (ev: Option<UpdateEvidence>)
      requires driver != null ==> driver.Valid()
      modifies this`inflight, if driver == null then {} else {driver, driver.inner}, if driver == null then [] else driver.clients
      ensures driver != null ==> driver.Valid()
      ensures driver == null ==> (Updates(), ev) == (old(Updates()), None)
      ensures driver != null ==>
        (Updates(), ev) == CompleteUpdate(old(Updates()), target, on, metadata, script, driver.hash)
    {
      if inflight != Some(target) || driver == null {
        return None;
      }
      var out := driver.Transfer(target, on, metadata, script);
      if !out.Staged? {
        return None;
      }
      inflight := None;
      ev := Some(UpdateEvidence(target, true, true, true, Some(out.identity)));
    }
  }
}
