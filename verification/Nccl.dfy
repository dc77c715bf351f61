/** The trainer-side driver: what it stages, what it calls itself, and which label a finalize carries. */
module Nccl {
  import opened Prelude
  import opened Labels
  import opened Identity

  // --------------------------------------------------------- what upstream's engine does

  /** One step of `send_weights`, as the sync client sees it; `Dies` is any exception. */
  datatype TrainerStep = Opens | Updates | Finishes(version: Option<string>) | Dies

  /** What reaches the wrapped client. */
  datatype InnerCall = Opened | Updated | Finished(written: string, explicit: bool)

  /** The version a finalize commits: an explicit one wins, an empty one is none at all. */
  function Finalize(pending: Option<string>, version: Option<string>): Option<string> {
    if version.Some? && version.value != "" then version else pending
  }

  predicate Explicit(version: Option<string>) {
    version.Some? && version.value != ""
  }

  /** The calls a script makes through a wrapper, and whether it ends without an exception. */
  function Sent(pending: Option<string>, script: seq<TrainerStep>): (seq<InnerCall>, bool) {
    if script == [] then ([], true)
    else
      var (rest, ok) := Sent(pending, script[1..]);
      match script[0]
      case Opens => ([Opened] + rest, ok)
      case Updates => ([Updated] + rest, ok)
      case Dies => ([], false)
      case Finishes(version) =>
        match Finalize(pending, version)
        case None => ([], false)
        case Some(written) => ([Finished(written, Explicit(version))] + rest, ok)
  }

  // ----------------------------------------------------------------------------- driver

  /** History: a call that reached the inner client, for which target, and what the driver had read. */
  datatype Entry = Entry(call: InnerCall, target: UpdateTarget, read: Option<WeightIdentity>)

  /**
    * The driver's fields. Sync clients are numbered in the order they were made and known by their
    * pending labels; the trainer engine is known by the client it was built with. `lastRead` and
    * `log` are history.
    */
  datatype Driver = Driver(
    provenance: Option<WeightProvenance>,
    clients: seq<Option<string>>,
    sync: Option<nat>,
    engine: Option<nat>,
    identity: Option<WeightIdentity>,
    device: Option<int>,
    lastRead: Option<seq<ParamSpec>>,
    log: seq<Entry>)
  {
    predicate Valid() {
      (sync.Some? ==> sync.value < |clients|) && (engine.Some? ==> engine.value < |clients| && sync.Some?)
    }

    /** The identity of the manifest last read, under the provenance declared now. */
    function Read(hash: Hash): Option<WeightIdentity> {
      if lastRead.None? then None else IdentityOf(lastRead.value, provenance, hash)
    }

    /** The engine writes through the client the driver sets targets on. */
    predicate InStep() {
      engine.Some? ==> engine == sync
    }
  }

  function NewDriver(provenance: Option<WeightProvenance>): Driver {
    Driver(provenance, [], None, None, None, None, None, [])
  }

  predicate DeviceMismatch(initializedOn: Option<int>, current: Option<int>) {
    initializedOn.Some? && current.Some? && initializedOn != current
  }

  datatype Build = FactoryFails | BuilderFails | Builds

  /** What the environment contributes: the device, the source's manifest (None: reading it raises). */
  datatype Op =
    | Initialize(on: Option<int>, build: Build)
    | Declare(provenance: WeightProvenance, metadata: Option<seq<ParamSpec>>)
    | Transfer(target: UpdateTarget, on: Option<int>, metadata: Option<seq<ParamSpec>>, script: seq<TrainerStep>)
    | Shutdown(raises: bool)

  datatype Outcome =
    | Fine
    | Staged(identity: WeightIdentity)   // declare's new identity, or a transfer's report
    | NotConfigured                      // WeightTransferNotConfiguredError
    | Mismatched                         // WeightIdentityMismatchError, before any request
    | Unreadable                         // the manifest could not be read or has duplicate names
    | Failed                             // anything the factory, the builder or upstream raised

  function Identify(d: Driver, metadata: Option<seq<ParamSpec>>, hash: Hash): Driver {
    if d.identity.Some? || metadata.None? then d
    else d.(lastRead := metadata, identity := IdentityOf(metadata.value, d.provenance, hash))
  }

  function Tag(calls: seq<InnerCall>, target: UpdateTarget, read: Option<WeightIdentity>): seq<Entry> {
    seq(|calls|, i requires 0 <= i < |calls| => Entry(calls[i], target, read))
  }

  function DoInitialize(d: Driver, on: Option<int>, build: Build): (Driver, Outcome) {
    var here := d.(device := on);
    match build
    case FactoryFails => (here, Failed)
    case BuilderFails => (here.(clients := d.clients + [None], sync := Some(|d.clients|)), Failed)
    case Builds => (here.(clients := d.clients + [None], sync := Some(|d.clients|), engine := Some(|d.clients|)), Fine)
  }

  function DoDeclare(d: Driver, p: WeightProvenance, metadata: Option<seq<ParamSpec>>, hash: Hash): (Driver, Outcome) {
    var e := Identify(d.(provenance := Some(p), identity := None), metadata, hash);
    (e, if e.identity.Some? then Staged(e.identity.value) else Unreadable)
  }

  function DoTransfer(
    d: Driver, target: UpdateTarget, on: Option<int>, metadata: Option<seq<ParamSpec>>, script: seq<TrainerStep>,
    hash: Hash): (r: (Driver, Outcome))
    requires d.Valid()
    ensures r.0.Valid()
  {
    if d.engine.None? || d.sync.None? || DeviceMismatch(d.device, on) then (d, NotConfigured)
    else
      var e := Identify(d, metadata, hash);
      if e.identity.None? then (e, Unreadable)
      else if e.identity.value != target.identity then (e, Mismatched)
      else
        var aimed := e.(clients := e.clients[e.sync.value := Some(target.Label())]);
        var (calls, ok) := Sent(aimed.clients[e.engine.value], script);
        (aimed.(log := e.log + Tag(calls, target, e.Read(hash))), if ok then Staged(e.identity.value) else Failed)
  }

  function Do(d: Driver, op: Op, hash: Hash): (r: (Driver, Outcome))
    requires d.Valid()
    ensures r.0.Valid()
  {
    match op
    case Initialize(on, build) => DoInitialize(d, on, build)
    case Declare(p, metadata) => DoDeclare(d, p, metadata, hash)
    case Transfer(target, on, metadata, script) => DoTransfer(d, target, on, metadata, script, hash)
    case Shutdown(raises) => if d.engine.Some? && raises then (d, Failed) else (d.(engine := None), Fine)
  }

  // --------------------------------------------------------------------------- invariant

  /** The cache holds the identity of the manifest last read under the provenance now declared. */
  predicate CacheFollows(d: Driver, hash: Hash) {
    d.identity.Some? ==> d.Read(hash) == d.identity
  }

  /** Every call was made for a target whose identity is that of the manifest last read. */
  predicate Vetted(log: seq<Entry>) {
    forall i :: 0 <= i < |log| ==> log[i].read == Some(log[i].target.identity)
  }

  /** Every unversioned finalize carries the label of the transfer in progress. */
  predicate WellLabelled(log: seq<Entry>) {
    forall i :: 0 <= i < |log| && log[i].call.Finished? && !log[i].call.explicit
      ==> log[i].call.written == log[i].target.Label()
  }

  predicate DriverInv(d: Driver, hash: Hash) {
    d.Valid() && CacheFollows(d, hash) && Vetted(d.log)
  }

  lemma DoKeeps(d: Driver, op: Op, hash: Hash)
    requires DriverInv(d, hash)
    ensures DriverInv(Do(d, op, hash).0, hash)
  {
  }

  function Run(d: Driver, ops: seq<Op>, hash: Hash): Driver
    requires d.Valid()
    ensures Run(d, ops, hash).Valid()
    decreases |ops|
  {
    if ops == [] then d
    else
      var e := Run(d, ops[..|ops| - 1], hash);
      Do(e, ops[|ops| - 1], hash).0
  }

  // ---------------------------------------------------------------------- main results

  /**
    * Over any sequence of operations: the cache follows the manifest last read, and no call reaches
    * the inner client for a target with another identity than that manifest's.
    */
  lemma {:induction false} EveryCallIsVetted(provenance: Option<WeightProvenance>, ops: seq<Op>, hash: Hash)
    ensures DriverInv(Run(NewDriver(provenance), ops, hash), hash)
  {
    if ops != [] {
      EveryCallIsVetted(provenance, ops[..|ops| - 1], hash);
      DoKeeps(Run(NewDriver(provenance), ops[..|ops| - 1], hash), ops[|ops| - 1], hash);
    }
  }

  /** Upstream's script ends without an exception: nothing dies, and every finalize knows a version. */
  predicate ScriptEnds(pending: Option<string>, script: seq<TrainerStep>) {
    forall i :: 0 <= i < |script| ==>
      && script[i] != Dies
      && (script[i].Finishes? && !Explicit(script[i].version) ==> pending.Some?)
  }

  /** What a step that goes through makes the inner client see. */
  function Seen(pending: Option<string>, step: TrainerStep): InnerCall
    requires ScriptEnds(pending, [step])
  {
    assert [step][0] == step;
    match step
    case Opens => Opened
    case Updates => Updated
    case Finishes(version) =>
      if Explicit(version) then Finished(version.value, true) else Finished(pending.value, false)
  }

  lemma {:induction false} ScriptsEndExactly(pending: Option<string>, script: seq<TrainerStep>)
    ensures Sent(pending, script).1 <==> ScriptEnds(pending, script)
  {
    if script != [] {
      ScriptsEndExactly(pending, script[1..]);
      assert script == [script[0]] + script[1..];
      assert forall i :: 0 <= i < |script[1..]| ==> script[1..][i] == script[i + 1];
    }
  }

  /** A script that ends has made its calls one for one, in order. */
  lemma {:induction false} EndedScriptsCallOneForOne(pending: Option<string>, script: seq<TrainerStep>)
    requires ScriptEnds(pending, script)
    ensures |Sent(pending, script).0| == |script|
    ensures forall i :: 0 <= i < |script| ==>
      ScriptEnds(pending, [script[i]]) && Sent(pending, script).0[i] == Seen(pending, script[i])
  {
    if script != [] {
      assert forall i :: 0 <= i < |script[1..]| ==> script[1..][i] == script[i + 1];
      EndedScriptsCallOneForOne(pending, script[1..]);
    }
  }

  /** A script that dies has made exactly the calls before the step that died. */
  lemma {:induction false} DyingScriptsStop(pending: Option<string>, script: seq<TrainerStep>, k: nat)
    requires k < |script| && ScriptEnds(pending, script[..k]) && !ScriptEnds(pending, [script[k]])
    ensures Sent(pending, script) == (Sent(pending, script[..k]).0, false)
  {
    if k > 0 {
      var before := script[..k];
      assert before[0] == script[0] && before[1..] == script[1..][..k - 1];
      assert forall i :: 0 <= i < |before[1..]| ==> before[1..][i] == before[i + 1];
      DyingScriptsStop(pending, script[1..], k - 1);
    }
  }

  /** Two devices clash exactly when both are known and differ. */
  lemma DevicesByInputs(on: int, other: int)
    ensures DeviceMismatch(Some(on), Some(other)) <==> on != other
    ensures forall d :: !DeviceMismatch(None, d) && !DeviceMismatch(d, None)
  {
  }

  /** The conditions under which a transfer goes out at all. */
  predicate Sends(d: Driver, target: UpdateTarget, on: Option<int>, metadata: Option<seq<ParamSpec>>, hash: Hash) {
    && d.engine.Some? && !DeviceMismatch(d.device, on)
    && (d.identity.Some? || metadata.Some?)
    && Identify(d, metadata, hash).Read(hash) == Some(target.identity)
  }

  /** A transfer goes out exactly when live, on its device, and for what was read; else nothing is called. */
  lemma TransfersSendExactly(
    d: Driver, target: UpdateTarget, on: Option<int>, metadata: Option<seq<ParamSpec>>, script: seq<TrainerStep>,
    hash: Hash)
    requires DriverInv(d, hash)
    ensures var (e, out) := DoTransfer(d, target, on, metadata, script, hash);
      && (out.Staged? || out.Failed? <==> Sends(d, target, on, metadata, hash))
      && (out.Staged? ==> out.identity == target.identity)
      && (!out.Staged? && !out.Failed? ==> e.log == d.log && e.clients == d.clients)
  {
  }

  /** The identity a transfer goes by: the one cached, else that of the manifest it reads now. */
  function Known(d: Driver, metadata: Option<seq<ParamSpec>>, hash: Hash): Option<WeightIdentity> {
    if d.identity.Some? then d.identity
    else if metadata.Some? then IdentityOf(metadata.value, d.provenance, hash)
    else None
  }

  /** Which of its outcomes a transfer has, its refusals in order. */
  lemma TransferOutcomes(
    d: Driver, target: UpdateTarget, on: Option<int>, metadata: Option<seq<ParamSpec>>, script: seq<TrainerStep>,
    hash: Hash)
    requires d.Valid()
    ensures var out, known := DoTransfer(d, target, on, metadata, script, hash).1, Known(d, metadata, hash);
      if d.engine.None? || (d.device.Some? && on.Some? && d.device.value != on.value) then out == NotConfigured
      else if known.None? then out == Unreadable
      else if known.value != target.identity then out == Mismatched
      else
        var pending := if d.engine == d.sync then Some(target.Label()) else d.clients[d.engine.value];
        out == if ScriptEnds(pending, script) then Staged(target.identity) else Failed
  {
    if d.engine.Some? {
      ScriptsEndExactly(if d.engine == d.sync then Some(target.Label()) else d.clients[d.engine.value], script);
    }
  }

  /** What a refused transfer leaves: what it has read, if it got that far, and nothing else. */
  lemma RefusedTransfersOnlyRead(
    d: Driver, target: UpdateTarget, on: Option<int>, metadata: Option<seq<ParamSpec>>, script: seq<TrainerStep>,
    hash: Hash)
    requires d.Valid()
    ensures var (e, out) := DoTransfer(d, target, on, metadata, script, hash);
      && (out == NotConfigured ==> e == d)
      && (out in {Unreadable, Mismatched} ==>
            && e == d.(identity := Known(d, metadata, hash), lastRead := e.lastRead)
            && e.lastRead == if d.identity.None? && metadata.Some? then metadata else d.lastRead)
  {
  }

  // -------------------------------------------------- the driver, read off its operations

  function Front(ops: seq<Op>): seq<Op>
    requires ops != []
  {
    ops[..|ops| - 1]
  }

  /** Since the latest initialization that went through, no shutdown has. */
  predicate Live(ops: seq<Op>) {
    if ops == [] then false
    else
      match ops[|ops| - 1]
      case Initialize(_, build) => build.Builds? || Live(Front(ops))
      case Shutdown(raises) => raises && Live(Front(ops))
      case _ => Live(Front(ops))
  }

  /** Where it was last initialized, however that ended. */
  function LastDevice(ops: seq<Op>): Option<int> {
    if ops == [] then None
    else if ops[|ops| - 1].Initialize? then ops[|ops| - 1].on
    else LastDevice(Front(ops))
  }

  function LastDeclared(provenance: Option<WeightProvenance>, ops: seq<Op>): Option<WeightProvenance> {
    if ops == [] then provenance
    else if ops[|ops| - 1].Declare? then Some(ops[|ops| - 1].provenance)
    else LastDeclared(provenance, Front(ops))
  }

  /** How many initializations got as far as a client of their own. */
  function ClientsMade(ops: seq<Op>): nat {
    if ops == [] then 0
    else ClientsMade(Front(ops)) + if ops[|ops| - 1].Initialize? && !ops[|ops| - 1].build.FactoryFails? then 1 else 0
  }

  /** The latest initialization that made a client could not build an engine on it. */
  predicate LeftBehind(ops: seq<Op>) {
    if ops == [] then false
    else if ops[|ops| - 1].Initialize? && !ops[|ops| - 1].build.FactoryFails? then ops[|ops| - 1].build.BuilderFails?
    else LeftBehind(Front(ops))
  }

  /** Whether the driver is live, where, for which declaration and through which client, is as the operations say. */
  predicate IsAsOperated(d: Driver, provenance: Option<WeightProvenance>, ops: seq<Op>) {
    && (d.engine.Some? <==> Live(ops))
    && d.device == LastDevice(ops) && d.provenance == LastDeclared(provenance, ops)
    && |d.clients| == ClientsMade(ops)
    && d.sync == (if ClientsMade(ops) == 0 then None else Some(ClientsMade(ops) - 1))
    && (Live(ops) ==> (d.engine == d.sync <==> !LeftBehind(ops)))
  }

  lemma TransfersKeepTheDriver(
    d: Driver, target: UpdateTarget, on: Option<int>, metadata: Option<seq<ParamSpec>>, script: seq<TrainerStep>,
    hash: Hash)
    requires d.Valid()
    ensures var e := DoTransfer(d, target, on, metadata, script, hash).0;
      && e.engine == d.engine && e.sync == d.sync && e.device == d.device && e.provenance == d.provenance
      && |e.clients| == |d.clients|
  {
  }

  lemma OperationDecides(d: Driver, provenance: Option<WeightProvenance>, ops: seq<Op>, hash: Hash)
    requires d.Valid() && ops != [] && IsAsOperated(d, provenance, Front(ops))
    ensures IsAsOperated(Do(d, ops[|ops| - 1], hash).0, provenance, ops)
  {
    match ops[|ops| - 1] {
      case Initialize(on, build) =>
      case Declare(p, metadata) =>
      case Transfer(target, on, metadata, script) => TransfersKeepTheDriver(d, target, on, metadata, script, hash);
      case Shutdown(raises) =>
    }
  }

  lemma {:induction false} OperationsDecide(provenance: Option<WeightProvenance>, ops: seq<Op>, hash: Hash)
    ensures IsAsOperated(Run(NewDriver(provenance), ops, hash), provenance, ops)
  {
    if ops != [] {
      OperationsDecide(provenance, Front(ops), hash);
      OperationDecides(Run(NewDriver(provenance), Front(ops), hash), provenance, ops, hash);
    }
  }

  /** What the operations answer: only a live driver can fail to shut down. */
  lemma OperationsAnswer(provenance: Option<WeightProvenance>, ops: seq<Op>, on: Option<int>, build: Build, raises: bool, hash: Hash)
    ensures var d := Run(NewDriver(provenance), ops, hash);
      && Do(d, Initialize(on, build), hash).1 == (if build.Builds? then Fine else Failed)
      && Do(d, Shutdown(raises), hash).1 == (if raises && Live(ops) then Failed else Fine)
  {
    OperationsDecide(provenance, ops, hash);
  }

  /** Only declarations and transfers touch what was read; initializing and shutting down keep it. */
  lemma ReadingsAreKept(d: Driver, op: Op, hash: Hash)
    requires d.Valid() && (op.Initialize? || op.Shutdown?)
    ensures var e := Do(d, op, hash).0;
      e.identity == d.identity && e.lastRead == d.lastRead && e.provenance == d.provenance && e.log == d.log
  {
  }

  lemma {:induction false} UnversionedFinalizes(pending: Option<string>, script: seq<TrainerStep>)
    ensures forall call :: call in Sent(pending, script).0 && call.Finished? && !call.explicit ==> Some(call.written) == pending
  {
    if script != [] {
      UnversionedFinalizes(pending, script[1..]);
    }
  }

  /** Whatever upstream does in this transfer, its unversioned finalizes are labelled for the target. */
  ghost predicate LabelsItsTarget(
    d: Driver, target: UpdateTarget, on: Option<int>, metadata: Option<seq<ParamSpec>>, hash: Hash)
    requires d.Valid()
  {
    forall script :: WellLabelled(DoTransfer(d, target, on, metadata, script, hash).0.log[|d.log|..])
  }

  lemma TransferTags(
    d: Driver, target: UpdateTarget, on: Option<int>, metadata: Option<seq<ParamSpec>>, script: seq<TrainerStep>,
    hash: Hash)
    requires DriverInv(d, hash) && Sends(d, target, on, metadata, hash)
    ensures DoTransfer(d, target, on, metadata, script, hash).0.log[|d.log|..]
      == Tag(Sent(if d.engine == d.sync then Some(target.Label()) else d.clients[d.engine.value], script).0,
             target, Some(target.identity))
  {
  }

  /** A transfer labels its own target exactly when it writes through the client it aimed, or nothing differs. */
  lemma LabelsItsTargetExactly(
    d: Driver, target: UpdateTarget, on: Option<int>, metadata: Option<seq<ParamSpec>>, hash: Hash)
    requires DriverInv(d, hash) && Sends(d, target, on, metadata, hash)
    ensures LabelsItsTarget(d, target, on, metadata, hash)
      <==> d.engine == d.sync || d.clients[d.engine.value] in {None, Some(target.Label())}
  {
    var pending := if d.engine == d.sync then Some(target.Label()) else d.clients[d.engine.value];
    if pending in {None, Some(target.Label())} {
      forall script ensures WellLabelled(DoTransfer(d, target, on, metadata, script, hash).0.log[|d.log|..]) {
        TransferTags(d, target, on, metadata, script, hash);
        UnversionedFinalizes(pending, script);
        var calls := Sent(pending, script).0;
        assert forall i :: 0 <= i < |calls| ==> calls[i] in calls;
      }
    } else {
      var script := [Finishes(None)];
      TransferTags(d, target, on, metadata, script, hash);
      assert Sent(pending, script).0 == [Finished(pending.value, false)] by {
        assert Sent(pending, script[1..]).0 == [];
      }
      var tagged := DoTransfer(d, target, on, metadata, script, hash).0.log[|d.log|..];
      assert tagged[0].call.written != tagged[0].target.Label();
    }
  }

  /** A failed re-initialization of a live driver: new client, old engine. */
  predicate Parts(d: Driver, op: Op) {
    op.Initialize? && op.build.BuilderFails? && d.engine.Some?
  }

  ghost predicate NeverParts(d: Driver, ops: seq<Op>, hash: Hash)
    requires d.Valid()
  {
    forall i :: 0 <= i < |ops| ==> !Parts(Run(d, ops[..i], hash), ops[i])
  }

  lemma StepKeepsLabels(d: Driver, op: Op, hash: Hash)
    requires DriverInv(d, hash) && d.InStep() && WellLabelled(d.log) && !Parts(d, op)
    ensures var e := Do(d, op, hash).0; e.InStep() && WellLabelled(e.log)
  {
    if op.Transfer? {
      TransfersSendExactly(d, op.target, op.on, op.metadata, op.script, hash);
      if Sends(d, op.target, op.on, op.metadata, hash) {
        LabelsItsTargetExactly(d, op.target, op.on, op.metadata, hash);
        var e := DoTransfer(d, op.target, op.on, op.metadata, op.script, hash).0;
        var tail := e.log[|d.log|..];
        assert WellLabelled(tail);
        assert e.log == d.log + tail;
      }
    }
  }

  /** While no live driver fails to re-initialize, every finalize carries the label of its own transfer. */
  lemma {:induction false} FinalizesCarryTheirTarget(provenance: Option<WeightProvenance>, ops: seq<Op>, hash: Hash)
    requires NeverParts(NewDriver(provenance), ops, hash)
    ensures var d := Run(NewDriver(provenance), ops, hash); d.InStep() && WellLabelled(d.log)
  {
    if ops != [] {
      var front := ops[..|ops| - 1];
      assert forall i :: 0 <= i < |front| ==> ops[..i] == front[..i] && ops[i] == front[i];
      FinalizesCarryTheirTarget(provenance, front, hash);
      EveryCallIsVetted(provenance, front, hash);
      assert !Parts(Run(NewDriver(provenance), ops[..|ops| - 1], hash), ops[|ops| - 1]);
      StepKeepsLabels(Run(NewDriver(provenance), front, hash), ops[|ops| - 1], hash);
    }
  }

  lemma PartingLeavesTheOldLabel(d: Driver, first: UpdateTarget, on: Option<int>, hash: Hash)
    requires DriverInv(d, hash) && d.engine.Some? && d.engine == d.sync && d.device == on && d.identity == Some(first.identity)
    ensures var parted := DoInitialize(DoTransfer(d, first, on, None, [], hash).0, on, BuilderFails).0;
      && DriverInv(parted, hash) && parted.engine == d.engine && parted.engine != parted.sync && parted.device == on
      && parted.clients[parted.engine.value] == Some(first.Label())
      && parted.identity == d.identity && parted.Read(hash) == d.identity && parted.log == d.log
  {
  }

  /** And one that does mislabels: transfer, failed re-initialization, another transfer. */
  lemma PartedDriverMislabels(d: Driver, first: UpdateTarget, second: UpdateTarget, on: Option<int>, hash: Hash)
    requires DriverInv(d, hash) && d.engine.Some? && d.engine == d.sync && d.device == on
    requires d.identity == Some(first.identity) && first.identity == second.identity && first.version != second.version
    ensures
      var sent := DoTransfer(d, first, on, None, [], hash).0;
      var parted := DoInitialize(sent, on, BuilderFails).0;
      var (e, out) := DoTransfer(parted, second, on, None, [Finishes(None)], hash);
      && out == Staged(second.identity)
      && |e.log| == |d.log| + 1
      && e.log[|d.log|] == Entry(Finished(first.Label(), false), second, Some(second.identity))
      && first.Label() != second.Label()
  {
    LabelInjective(first.version, second.version);
    PartingLeavesTheOldLabel(d, first, on, hash);
    var parted := DoInitialize(DoTransfer(d, first, on, None, [], hash).0, on, BuilderFails).0;
    TransferTags(parted, second, on, None, [Finishes(None)], hash);
    assert Sent(Some(first.Label()), [Finishes(None)][1..]) == ([], true);
    TransfersSendExactly(parted, second, on, None, [Finishes(None)], hash);
  }

  /** Two manifests whose identities can be told apart, under the provenance the driver declares. */
  ghost predicate Comparable(
    d: Driver, a: seq<ParamSpec>, b: seq<ParamSpec>, hash: Hash)
  {
    && Encodable(a, d.provenance) && Encodable(b, d.provenance)
    && CollisionFree(hash, Preimages(a, d.provenance, hash) + Preimages(b, d.provenance, hash))
  }

  /**
    * A report made from a cached identity names the source's present manifest exactly when that
    * manifest has the specs, in any order, of the one last read.
    */
  lemma ReportsFollowTheSourceExactly(
    d: Driver, target: UpdateTarget, on: Option<int>, now: seq<ParamSpec>, script: seq<TrainerStep>, hash: Hash)
    requires DriverInv(d, hash) && d.identity.Some? && Comparable(d, d.lastRead.value, now, hash)
    requires DoTransfer(d, target, on, Some(now), script, hash).1.Staged?
    ensures DoTransfer(d, target, on, Some(now), script, hash).1.identity == target.identity
    ensures Some(target.identity) == IdentityOf(now, d.provenance, hash) <==> multiset(now) == multiset(d.lastRead.value)
  {
    DigestsIdentifyDeclarations(d.lastRead.value, d.provenance, now, d.provenance, hash);
  }

  /** The driver and its report after initialization, a declaration, and a transfer for what was declared. */
  function DeclareThenTransfer(
    p: WeightProvenance, before: seq<ParamSpec>, now: seq<ParamSpec>, version: WeightVersion, hash: Hash): (Driver, Outcome)
    requires IdentityOf(before, Some(p), hash).Some?
  {
    var live := DoInitialize(NewDriver(None), None, Builds).0;
    var declared := DoDeclare(live, p, Some(before), hash).0;
    DoTransfer(declared, UpdateTarget(version, IdentityOf(before, Some(p), hash).value), None, Some(now), [], hash)
  }

  /**
    * And it happens: whenever the source has changed since the declaration, the transfer still goes
    * through and reports the identity of what the source no longer holds.
    */
  lemma StaleTransfersAreStaged(
    p: WeightProvenance, before: seq<ParamSpec>, now: seq<ParamSpec>, version: WeightVersion, hash: Hash)
    requires Encodable(before, Some(p)) && Encodable(now, Some(p)) && multiset(before) != multiset(now)
    requires CollisionFree(hash, Preimages(before, Some(p), hash) + Preimages(now, Some(p), hash))
    ensures IdentityOf(before, Some(p), hash).Some?
    ensures var out := DeclareThenTransfer(p, before, now, version, hash).1;
      out.Staged? && Some(out.identity) == IdentityOf(before, Some(p), hash) != IdentityOf(now, Some(p), hash)
  {
    DigestsIdentifyDeclarations(before, Some(p), now, Some(p), hash);
    assert Sent(Some(version.Label()), []) == ([], true);
  }

  /** Declaring anew is enough: what is declared is what the source holds at that moment. */
  lemma DeclaringReadsTheSource(d: Driver, p: WeightProvenance, now: seq<ParamSpec>, hash: Hash)
    ensures var (e, out) := DoDeclare(d, p, Some(now), hash);
      && e.lastRead == Some(now) && e.provenance == Some(p)
      && (out.Staged? <==> DistinctNames(SortByName(now)))
      && (out.Staged? ==> Some(out.identity) == e.identity == IdentityOf(now, Some(p), hash))
  {
  }
}
