/** Undisturbed updates of a healthy engine: adoption and cycle after cycle go through. */
module Cycles {
  import opened Prelude
  import opened Labels
  import opened Identity
  import opened Evidence
  import opened Lifecycle
  import opened Gates
  import opened Runner
  import opened Engine
  import opened Adapter
  import opened Replies
  import opened Fleet
  import opened Trajectories
  import opened Ownership
  import opened Safety

  // ------------------------------------------------------------- calls within the fleet

  lemma CallAlone(w: World, i: nat, call: Call, faults: seq<bool>, f: EngineState, b: AdapterState, reply: Reply)
    requires i < |w.nodes| && w.nodes[i].cycle.pc == Waiting(call)
    requires Ends(w.e, w.nodes[i].adapter, call, w.nodes[i].cycle.target, faults, f, b, reply)
    ensures Fits(call, reply)
    ensures var v := After(w, Accesses(i, faults));
      SameButLog(f, v.e) && v.nodes == w.nodes[i := Node(Answer(w.nodes[i].cycle, reply), b)]
  {
    UninterruptedCall(w, i, call, faults);
  }

  lemma ControllerAlone(w: World, i: nat)
    requires i < |w.nodes|
    ensures Next(w, CallController(i, false))
      == World(w.e, w.nodes[i := w.nodes[i].(cycle := Step(w.nodes[i].cycle, Going(false)))])
  {
  }

  function CallThenGo(i: nat, faults: seq<bool>): seq<Move> {
    Accesses(i, faults) + [CallController(i, false)]
  }

  /** A call and the controller call that follows it: two steps of the node's cycle. */
  lemma CallThenGoes(w: World, i: nat, call: Call, faults: seq<bool>, f: EngineState, b: AdapterState, reply: Reply)
    requires i < |w.nodes| && w.nodes[i].cycle.pc == Waiting(call)
    requires Ends(w.e, w.nodes[i].adapter, call, w.nodes[i].cycle.target, faults, f, b, reply)
    ensures var v := After(w, CallThenGo(i, faults));
      SameButLog(f, v.e) && v.nodes == w.nodes[i := Node(Steps(w.nodes[i].cycle, Round(reply)), b)]
  {
    CallAlone(w, i, call, faults, f, b, reply);
    var u := After(w, Accesses(i, faults));
    ControllerAlone(u, i);
    OneMore(w, Accesses(i, faults), CallController(i, false));
    TwoSteps(w.nodes[i].cycle, Answering(reply), Going(false));
  }

  // ------------------------------------------------------------------------- one cycle

  /** Serving and at rest: nothing running, no session, no blocks held. */
  predicate Resting(e: EngineState) {
    e.pauseState == UNPAUSED && e.activeRequests == 0 && !e.updateSessionOpen && e.prefixResetSucceeds
  }

  /** The node can start a cycle. */
  predicate Prepared(n: Node) {
    && Idle(n.cycle.pc) && n.adapter.at == Entry
    && n.cycle.c.state == READY && n.cycle.c.current.Some? && n.cycle.c.active == []
  }

  predicate Healthy(w: World, i: nat) {
    i < |w.nodes| && Resting(w.e) && Prepared(w.nodes[i])
  }

  /** Between two phases of node i's cycle: where it waits, and what the engine is like, log aside. */
  predicate Phase(w: World, v: World, i: nat, call: Call, target: UpdateTarget, f: EngineState, drained: bool) {
    && i < |w.nodes| && |v.nodes| == |w.nodes| && v.nodes == w.nodes[i := v.nodes[i]]
    && SameButLog(f, v.e) && OnCourse(v.nodes[i].cycle, call, target)
    && v.nodes[i].adapter == w.nodes[i].adapter.(drainCompleted := drained, at := Entry)
  }

  function Paused(e: EngineState): EngineState {
    e.(pauseState := PAUSED_NEW, pauseMode := Some(Wait))
  }

  function DrainMoves(i: nat, target: UpdateTarget, budget: int): seq<Move> {
    [StartCycle(i, target, budget), CallController(i, false)] + Accesses(i, NoFaults(1))
  }

  lemma DrainPhase(w: World, i: nat, target: UpdateTarget, budget: int)
    requires Healthy(w, i) && budget >= 1
    ensures var v := After(w, DrainMoves(i, target, budget));
      && Phase(w, v, i, AwaitDrainCall, target, Paused(w.e), true)
      && v.nodes[i].cycle.c.current == w.nodes[i].cycle.c.current
  {
    var n, start := w.nodes[i], [StartCycle(i, target, budget), CallController(i, false)];
    var x := Begin(n.cycle.c, target, budget);
    var u1 := Next(w, StartCycle(i, target, budget));
    assert u1 == World(w.e, w.nodes[i := n.(cycle := x)]);
    ControllerAlone(u1, i);
    var u2 := World(w.e, w.nodes[i := n.(cycle := Step(x, Going(false)))]);
    OneMore(w, [], StartCycle(i, target, budget));
    OneMore(w, [] + [StartCycle(i, target, budget)], CallController(i, false));
    assert [] + [StartCycle(i, target, budget)] + [CallController(i, false)] == start;
    assert After(w, start) == u2;
    DrainAdvances(n.cycle.c, target, budget);
    TwoSteps(x, Going(false), Answering(Acked));
    BeginsByDraining(n.cycle.c, target, budget);
    DrainCallEnds(w.e, n.adapter, target);
    CallAlone(u2, i, BeginDrainCall, NoFaults(1), Paused(w.e), n.adapter.(drainCompleted := true, at := Entry), Acked);
    AfterAppends(w, start, Accesses(i, NoFaults(1)));
  }

  lemma BeginsByDraining(c: Snapshot, target: UpdateTarget, budget: int)
    requires c.state == READY && c.current.Some?
    ensures var y := Step(Begin(c, target, budget), Going(false));
      y.pc == Waiting(BeginDrainCall) && y.target == target
  {
  }

  /** Quiesced, the update not yet begun. */
  predicate Quiesced(w: World, v: World, i: nat, target: UpdateTarget, f: EngineState) {
    && i < |w.nodes| && |v.nodes| == |w.nodes| && v.nodes == w.nodes[i := v.nodes[i]] && SameButLog(f, v.e)
    && v.nodes[i].adapter == w.nodes[i].adapter.(drainCompleted := true, at := Entry)
    && var y := v.nodes[i].cycle;
       y.pc.AtBeginUpdate? && y.c.state == QUIESCED && y.c.active == [] && y.target == target
  }

  lemma QuiescePhase(w: World, v: World, i: nat, target: UpdateTarget)
    requires Healthy(w, i) && Phase(w, v, i, AwaitDrainCall, target, Paused(w.e), true)
    ensures var u := After(v, CallThenGo(i, NoFaults(2)));
      Quiesced(w, u, i, target, Paused(w.e)) && u.nodes[i].cycle.c.current == v.nodes[i].cycle.c.current
  {
    var x, a, reply := v.nodes[i].cycle, v.nodes[i].adapter, GotDrain(DrainEvidence(true, Some(0)));
    AwaitCallEnds(v.e, a, target);
    CallThenGoes(v, i, AwaitDrainCall, NoFaults(2), v.e, a, reply);
    QuiescenceAdvances(x, target, reply);
  }

  function StartMoves(i: nat): seq<Move> {
    [CallController(i, false)] + Accesses(i, NoFaults(1))
  }

  lemma StartPhase(w: World, v: World, i: nat, target: UpdateTarget)
    requires Quiesced(w, v, i, target, Paused(w.e)) && !w.e.updateSessionOpen
    requires v.nodes[i].cycle.c.current.Some?
    requires target.version.value > v.nodes[i].cycle.c.current.value.version.value
    ensures Phase(w, After(v, StartMoves(i)), i, CompleteCall, target, Paused(w.e).(updateSessionOpen := true), true)
  {
    var y, a := v.nodes[i].cycle, v.nodes[i].adapter;
    OpeningAdvances(y, target);
    TwoSteps(y, Going(false), Answering(Acked));
    OpensByStarting(y, target);
    ControllerAlone(v, i);
    var u := Next(v, CallController(i, false));
    OneMore(v, [], CallController(i, false));
    assert [] + [CallController(i, false)] == [CallController(i, false)];
    StartCallEnds(u.e, a, target);
    CallAlone(u, i, StartCall, NoFaults(1), u.e.(updateSessionOpen := true), a, Acked);
    AfterAppends(v, [CallController(i, false)], Accesses(i, NoFaults(1)));
  }

  lemma OpensByStarting(y: Cycle, target: UpdateTarget)
    requires y.pc.AtBeginUpdate? && y.c.state == QUIESCED && y.target == target && y.c.current.Some?
    requires target.version.value > y.c.current.value.version.value
    ensures Step(y, Going(false)).pc == Waiting(StartCall) && Step(y, Going(false)).target == target
  {
  }

  lemma EffectPhase(
    w: World, v: World, i: nat, call: Call, target: UpdateTarget, e: EngineState, n: nat, f: EngineState, reply: Reply)
    requires Phase(w, v, i, call, target, e, true) && call in {CompleteCall, InvalidateCall, ValidateCall, ResumeCall}
    requires Ends(v.e, v.nodes[i].adapter, call, target, NoFaults(n), f, v.nodes[i].adapter, reply)
    requires Passes(target, StageOf(call), reply)
    ensures var u := After(v, CallThenGo(i, NoFaults(n)));
      && SameButLog(f, u.e) && |u.nodes| == |w.nodes| && u.nodes == w.nodes[i := u.nodes[i]]
      && u.nodes[i].adapter == v.nodes[i].adapter && Reaches(u.nodes[i].cycle, call, target)
  {
    CallThenGoes(v, i, call, NoFaults(n), f, v.nodes[i].adapter, reply);
    EffectAdvances(v.nodes[i].cycle, call, target, reply);
  }

  /** The engine after a whole cycle: the target's weights and label, serving again, nothing cached, no session. */
  function Updated(e: EngineState, target: UpdateTarget, chunks: nat): EngineState {
    Emptied(Loaded(e, target, chunks)).(pauseState := UNPAUSED, pauseMode := None)
  }

  function UpToUpdating(i: nat, target: UpdateTarget, budget: int): seq<Move> {
    DrainMoves(i, target, budget) + CallThenGo(i, NoFaults(2)) + StartMoves(i)
  }

  function UpToValidating(i: nat, chunks: nat): seq<Move> {
    CallThenGo(i, NoFaults(chunks + 2)) + CallThenGo(i, NoFaults(4))
  }

  function UpToReady(i: nat): seq<Move> {
    CallThenGo(i, NoFaults(3)) + CallThenGo(i, NoFaults(3))
  }

  function CycleMoves(i: nat, target: UpdateTarget, budget: int, chunks: nat): seq<Move> {
    UpToUpdating(i, target, budget) + UpToValidating(i, chunks) + UpToReady(i)
  }

  lemma LoadPhase(w: World, v: World, i: nat, target: UpdateTarget)
    requires Healthy(w, i) && Phase(w, v, i, CompleteCall, target, Paused(w.e).(updateSessionOpen := true), true)
    ensures var u := After(v, CallThenGo(i, NoFaults(w.nodes[i].adapter.chunks + 2)));
      Phase(w, u, i, InvalidateCall, target, Loaded(Paused(w.e), target, w.nodes[i].adapter.chunks), true)
  {
    var n := w.nodes[i].adapter.chunks;
    CompleteCallEnds(v.e, v.nodes[i].adapter, target);
    EffectPhase(w, v, i, CompleteCall, target, Paused(w.e).(updateSessionOpen := true), n + 2, Loaded(v.e, target, n),
                GotUpdate(UpdateEvidence(target, true, true, true, Some(target.identity))));
  }

  lemma InvalidatePhase(w: World, v: World, i: nat, target: UpdateTarget, e: EngineState)
    requires Phase(w, v, i, InvalidateCall, target, e, true) && e.prefixResetSucceeds
    ensures Phase(w, After(v, CallThenGo(i, NoFaults(4))), i, ValidateCall, target, Emptied(e), true)
  {
    InvalidateCallEnds(v.e, v.nodes[i].adapter, target);
    EffectPhase(w, v, i, InvalidateCall, target, e, 4, Emptied(v.e), GotInvalidate(InvalidateEvidence(true, true, true)));
  }

  lemma ValidatePhase(w: World, v: World, i: nat, target: UpdateTarget, e: EngineState)
    requires Phase(w, v, i, ValidateCall, target, Emptied(e), true)
    requires e.Paused() && e.weightVersion == target.Label()
    ensures Phase(w, After(v, CallThenGo(i, NoFaults(3))), i, ResumeCall, target, Emptied(e), true)
  {
    ValidateCallEnds(v.e, v.nodes[i].adapter, target);
    EffectPhase(w, v, i, ValidateCall, target, Emptied(e), 3, v.e,
                GotValidate(ValidateEvidence(target, v.e.weightVersion, true, true)));
  }

  lemma ResumePhase(w: World, v: World, i: nat, target: UpdateTarget, e: EngineState)
    requires Phase(w, v, i, ResumeCall, target, e, true) && e.weightVersion == target.Label()
    ensures var u := After(v, CallThenGo(i, NoFaults(3)));
      && SameButLog(e.(pauseState := UNPAUSED, pauseMode := None), u.e)
      && |u.nodes| == |w.nodes| && u.nodes == w.nodes[i := u.nodes[i]]
      && u.nodes[i].adapter == v.nodes[i].adapter && Reaches(u.nodes[i].cycle, ResumeCall, target)
  {
    ResumeCallEnds(v.e, v.nodes[i].adapter, target);
    EffectPhase(w, v, i, ResumeCall, target, e, 3, v.e.(pauseState := UNPAUSED, pauseMode := None),
                GotResume(ResumeEvidence(target, true, false, Some(v.e.weightVersion))));
  }

  /** What a cycle leaves: the target committed and held, and everything ready for the next. */
  predicate Advanced(w: World, v: World, i: nat, target: UpdateTarget) {
    && Healthy(w, i) && Healthy(v, i) && |v.nodes| == |w.nodes| && v.nodes == w.nodes[i := v.nodes[i]]
    && SameButLog(Updated(w.e, target, w.nodes[i].adapter.chunks), v.e)
    && v.nodes[i].cycle.pc == Returned && v.nodes[i].cycle.c.current == Some(target)
    && v.nodes[i].adapter == w.nodes[i].adapter.(drainCompleted := true)
  }

  lemma ReachesUpdating(w: World, i: nat, target: UpdateTarget, budget: int)
    requires Healthy(w, i) && budget >= 1
    requires target.version.value > w.nodes[i].cycle.c.current.value.version.value
    ensures Phase(w, After(w, UpToUpdating(i, target, budget)), i, CompleteCall, target,
                  Paused(w.e).(updateSessionOpen := true), true)
  {
    var drain, quiesce := DrainMoves(i, target, budget), CallThenGo(i, NoFaults(2));
    DrainPhase(w, i, target, budget);
    QuiescePhase(w, After(w, drain), i, target);
    AfterAppends(w, drain, quiesce);
    StartPhase(w, After(w, drain + quiesce), i, target);
    AfterAppends(w, drain + quiesce, StartMoves(i));
  }

  lemma ReachesValidating(w: World, v: World, i: nat, target: UpdateTarget)
    requires Healthy(w, i) && Phase(w, v, i, CompleteCall, target, Paused(w.e).(updateSessionOpen := true), true)
    ensures var n := w.nodes[i].adapter.chunks;
      Phase(w, After(v, UpToValidating(i, n)), i, ValidateCall, target, Emptied(Loaded(Paused(w.e), target, n)), true)
  {
    var n := w.nodes[i].adapter.chunks;
    var load, drop := CallThenGo(i, NoFaults(n + 2)), CallThenGo(i, NoFaults(4));
    LoadPhase(w, v, i, target);
    InvalidatePhase(w, After(v, load), i, target, Loaded(Paused(w.e), target, n));
    AfterAppends(v, load, drop);
  }

  lemma ReachesReady(w: World, v: World, i: nat, target: UpdateTarget)
    requires Healthy(w, i)
    requires Phase(w, v, i, ValidateCall, target, Emptied(Loaded(Paused(w.e), target, w.nodes[i].adapter.chunks)), true)
    ensures Advanced(w, After(v, UpToReady(i)), i, target)
  {
    var e, ask := Loaded(Paused(w.e), target, w.nodes[i].adapter.chunks), CallThenGo(i, NoFaults(3));
    ValidatePhase(w, v, i, target, e);
    ResumePhase(w, After(v, ask), i, target, Emptied(e));
    AfterAppends(v, ask, ask);
  }

  /**
    * One update on an engine that obeys, nobody in flight and nobody else moving: it ends serving the
    * target, label, weights and commit, all caches dropped and reported clean, and as ready as before.
    */
  lemma OneCycle(w: World, i: nat, target: UpdateTarget, budget: int)
    requires Healthy(w, i) && budget >= 1
    requires target.version.value > w.nodes[i].cycle.c.current.value.version.value
    ensures Advanced(w, After(w, CycleMoves(i, target, budget, w.nodes[i].adapter.chunks)), i, target)
  {
    var first, second := UpToUpdating(i, target, budget), UpToValidating(i, w.nodes[i].adapter.chunks);
    ReachesUpdating(w, i, target, budget);
    ReachesValidating(w, After(w, first), i, target);
    AfterAppends(w, first, second);
    ReachesReady(w, After(w, first + second), i, target);
    AfterAppends(w, first + second, UpToReady(i));
  }

  // ------------------------------------------------------------------------ many cycles

  function VersionBefore(from: nat, targets: seq<UpdateTarget>, k: nat): nat
    requires k <= |targets|
  {
    if k == 0 then from else targets[k - 1].version.value
  }

  /** Each version above the one before it. */
  predicate Rising(from: nat, targets: seq<UpdateTarget>) {
    forall k :: 0 <= k < |targets| ==> targets[k].version.value > VersionBefore(from, targets, k)
  }

  lemma RisingPrefix(from: nat, targets: seq<UpdateTarget>)
    requires Rising(from, targets) && targets != []
    ensures var n := |targets| - 1;
      Rising(from, targets[..n]) && targets[n].version.value > VersionBefore(from, targets[..n], n)
  {
    var n := |targets| - 1;
    assert targets[n].version.value > VersionBefore(from, targets, n);
    forall k | 0 <= k < n ensures targets[..n][k].version.value > VersionBefore(from, targets[..n], k) {
      assert targets[k].version.value > VersionBefore(from, targets, k);
    }
  }

  function AllMoves(i: nat, targets: seq<UpdateTarget>, budget: int, chunks: nat): seq<Move> {
    if targets == [] then []
    else AllMoves(i, targets[..|targets| - 1], budget, chunks) + CycleMoves(i, targets[|targets| - 1], budget, chunks)
  }

  /** Serving exactly what was last installed. */
  predicate Serves(v: World, i: nat, target: UpdateTarget) {
    && i < |v.nodes| && v.e.pauseState == UNPAUSED && !v.e.updateSessionOpen && v.e.activeRequests == 0
    && v.e.weightVersion == target.Label() && v.e.weightIdentity == Some(target.identity)
    && !v.e.prefixDirty && !v.e.encoderDirty && !v.e.mmDirty
    && v.nodes[i].cycle.c.state == READY && v.nodes[i].cycle.c.current == Some(target)
  }

  /** Any number of rising targets, one undisturbed cycle each: all of them go through. */
  lemma {:induction false} EveryCycleGoesThrough(w: World, i: nat, targets: seq<UpdateTarget>, budget: int)
    requires Healthy(w, i) && budget >= 1 && Rising(w.nodes[i].cycle.c.current.value.version.value, targets)
    ensures var v := After(w, AllMoves(i, targets, budget, w.nodes[i].adapter.chunks));
      && Healthy(v, i) && |v.nodes| == |w.nodes| && v.nodes == w.nodes[i := v.nodes[i]]
      && v.nodes[i].adapter.chunks == w.nodes[i].adapter.chunks
      && (targets == [] ==> v.nodes[i].cycle.c.current == w.nodes[i].cycle.c.current)
      && (targets != [] ==> Serves(v, i, targets[|targets| - 1]))
  {
    var n := w.nodes[i].adapter.chunks;
    if targets != [] {
      var front, last := targets[..|targets| - 1], targets[|targets| - 1];
      RisingPrefix(w.nodes[i].cycle.c.current.value.version.value, targets);
      EveryCycleGoesThrough(w, i, front, budget);
      var v := After(w, AllMoves(i, front, budget, n));
      OneCycle(v, i, last, budget);
      AfterAppends(w, AllMoves(i, front, budget, n), CycleMoves(i, last, budget, n));
    }
  }

  // --------------------------------------------------------------------------- adoption

  function SeedTarget(identity: WeightIdentity): UpdateTarget {
    UpdateTarget(INITIAL_VERSION, identity)
  }

  function AdoptionMoves(i: nat): seq<Move> {
    [StartBootstrap(i)] + CallThenGo(i, NoFaults(5))
  }

  lemma EvidenceAdopts(seen: string, identity: WeightIdentity)
    requires !IsManaged(seen)
    ensures var reply := GotBoot(BootstrapEvidence(INITIAL_VERSION.Label(), true, Some(seen), identity, Some(DRIVER_NAME)));
      var y := Steps(BeginBootstrap(FRESH), Round(reply));
      && y.pc == Returned && y.c.state == READY && y.c.current == Some(SeedTarget(identity)) && y.c.active == []
  {
    var reply := GotBoot(BootstrapEvidence(INITIAL_VERSION.Label(), true, Some(seen), identity, Some(DRIVER_NAME)));
    LabelRoundTrip(INITIAL_VERSION);
    TwoSteps(BeginBootstrap(FRESH), Answering(reply), Going(false));
  }

  lemma BootstrapStarts(w: World, i: nat)
    requires i < |w.nodes| && w.nodes[i].cycle.c == FRESH && Idle(w.nodes[i].cycle.pc) && w.nodes[i].adapter.at == Entry
    ensures After(w, [StartBootstrap(i)]) == World(w.e, w.nodes[i := w.nodes[i].(cycle := BeginBootstrap(FRESH))])
  {
    OneMore(w, [], StartBootstrap(i));
    assert [] + [StartBootstrap(i)] == [StartBootstrap(i)];
  }

  /** A fresh controller adopts an unmanaged engine that obeys: rc-0, for the weights it finds. */
  lemma OneAdoption(w: World, i: nat)
    requires i < |w.nodes| && Resting(w.e) && w.e.weightIdentity.Some? && !IsManaged(w.e.weightVersion)
    requires w.nodes[i].cycle.c == FRESH && Idle(w.nodes[i].cycle.pc) && w.nodes[i].adapter.at == Entry
    ensures var v := After(w, AdoptionMoves(i));
      && Healthy(v, i) && |v.nodes| == |w.nodes| && v.nodes == w.nodes[i := v.nodes[i]]
      && SameButLog(w.e.(weightTransferInitialised := true, weightVersion := INITIAL_VERSION.Label()), v.e)
      && v.nodes[i].cycle.c.current == Some(SeedTarget(w.e.weightIdentity.value))
      && v.nodes[i].adapter == w.nodes[i].adapter
  {
    var a, identity := w.nodes[i].adapter, w.e.weightIdentity.value;
    var f := w.e.(weightTransferInitialised := true, weightVersion := INITIAL_VERSION.Label());
    var reply := GotBoot(BootstrapEvidence(INITIAL_VERSION.Label(), true, Some(w.e.weightVersion), identity, Some(DRIVER_NAME)));
    BootstrapStarts(w, i);
    BootstrapCallEnds(w.e, a);
    CallThenGoes(After(w, [StartBootstrap(i)]), i, BootstrapCall, NoFaults(5), f, a, reply);
    EvidenceAdopts(w.e.weightVersion, identity);
    AfterAppends(w, [StartBootstrap(i)], CallThenGo(i, NoFaults(5)));
  }

  /** From a server that has just loaded its weights: adoption, then every rising target in turn. */
  lemma FreshEnginesServe(w: World, i: nat, targets: seq<UpdateTarget>, budget: int)
    requires Initial(w) && i < |w.nodes| && budget >= 1
    requires Resting(w.e) && w.e.weightIdentity.Some? && !IsManaged(w.e.weightVersion)
    requires targets != [] && Rising(0, targets)
    ensures Serves(
      After(w, AdoptionMoves(i) + AllMoves(i, targets, budget, w.nodes[i].adapter.chunks)), i, targets[|targets| - 1])
  {
    var n := w.nodes[i].adapter.chunks;
    OneAdoption(w, i);
    EveryCycleGoesThrough(After(w, AdoptionMoves(i)), i, targets, budget);
    AfterAppends(w, AdoptionMoves(i), AllMoves(i, targets, budget, n));
  }

  // ------------------------------------------------------ a rollout that spans an update

  /** A world in which node 0 is about to seed although its controller was tainted, and node 1 serves `target`. */
  predicate Haunted(w: World, target: UpdateTarget) {
    && |w.nodes| >= 2 && SoundWorld(w) && Unwritten(w.nodes[0]) && w.nodes[0].cycle.c.state == TAINTED
    && Healthy(w, 1) && w.nodes[1].cycle.c.current == Some(target) && w.e.Holds(target)
  }

  lemma FreshLook(w: World) returns (ms: seq<Move>)
    requires Initial(w) && |w.nodes| >= 2 && w.e.weightIdentity.Some? && !IsManaged(w.e.weightVersion)
    ensures var v := After(w, ms);
      && SameButLog(w.e, v.e) && |v.nodes| == |w.nodes| && v.nodes == w.nodes[0 := v.nodes[0]]
      && Unwritten(v.nodes[0]) && v.nodes[0].cycle.c.state == UNINITIALIZED
  {
    ms := [StartBootstrap(0)] + [AccessEngine(0, false)];
    BootstrapStarts(w, 0);
    OneMore(w, [StartBootstrap(0)], AccessEngine(0, false));
    FreshControllerLooks(w, 0);
    LooksOnlyLook(w.e, w.nodes[0].adapter, false);
    AccessMoves(After(w, [StartBootstrap(0)]), 0, false);
  }

  lemma LookThenTaint(w: World) returns (ms: seq<Move>)
    requires Initial(w) && |w.nodes| >= 2 && w.e.weightIdentity.Some? && !IsManaged(w.e.weightVersion)
    ensures var v := After(w, ms);
      && SameButLog(w.e, v.e) && |v.nodes| == |w.nodes| && v.nodes == w.nodes[0 := v.nodes[0]]
      && Unwritten(v.nodes[0]) && v.nodes[0].cycle.c.state == TAINTED
  {
    var look := FreshLook(w);
    ClientMoves(After(w, look), 0, DoTaint(UNKNOWN_OUTCOME));
    OneMore(w, look, Client(0, DoTaint(UNKNOWN_OUTCOME)));
    ms := look + [Client(0, DoTaint(UNKNOWN_OUTCOME))];
  }

  lemma HauntedWorldsAreReachable(w: World, target: UpdateTarget) returns (ms: seq<Move>)
    requires Initial(w) && |w.nodes| >= 2 && Resting(w.e)
    requires w.e.weightIdentity.Some? && !IsManaged(w.e.weightVersion) && target.version.value > 0
    ensures Haunted(After(w, ms), target)
  {
    var look := LookThenTaint(w);
    var adopt := AdoptionMoves(1);
    var cycle := CycleMoves(1, target, 1, w.nodes[1].adapter.chunks);
    OneAdoption(After(w, look), 1);
    AfterAppends(w, look, adopt);
    OneCycle(After(w, look + adopt), 1, target, 1);
    AfterAppends(w, look + adopt, cycle);
    ms := look + adopt + cycle;
    AlwaysSound(w, ms);
  }

  /** Node 1 admits, node 0 seeds: the binding is still there, the label is not. */
  lemma HauntedAdmission(w: World, target: UpdateTarget, id: string) returns (b: RolloutBinding, more: seq<Move>)
    requires Haunted(w, target) && target.version.value > 0
    ensures Admit(w.nodes[1].cycle.c, id).1 == Bound(b) && b.requestId == id && b.version == target.version
    ensures var v := After(Next(w, Client(1, DoAdmit(id))), more);
      && |v.nodes| == |w.nodes| && Release(v.nodes[1].cycle.c, id, Finished(id)).1 == Bound(b)
      && v.e.weightVersion == INITIAL_VERSION.Label()
  {
    var c := w.nodes[1].cycle.c;
    b := AdmitsOne(c, target, id);
    ClientMoves(w, 1, DoAdmit(id));
    NextIsSound(w, Client(1, DoAdmit(id)));
    var u := Next(w, Client(1, DoAdmit(id)));
    more := SomebodyCanWrite(u, 0);
    ReleasesTheOnlyOne(After(u, more).nodes[1].cycle.c, b);
  }

  lemma AdmitsOne(c: Snapshot, target: UpdateTarget, id: string) returns (b: RolloutBinding)
    requires c.state == READY && c.current == Some(target) && c.active == []
    ensures Admit(c, id).1 == Bound(b) && b.requestId == id && b.version == target.version
    ensures var d := Apply(c, DoAdmit(id)).0; d.active == [b] && d.state == READY
  {
    AdmitGate(c, id);
    b := Admit(c, id).1.binding;
  }

  lemma ReleasesTheOnlyOne(c: Snapshot, b: RolloutBinding)
    requires c.state == READY && c.active == [b]
    ensures Release(c, b.requestId, Finished(b.requestId)).1 == Bound(b)
  {
  }

  /** A run in which rollout b, admitted by the p-th move, can be released under another label than its own. */
  predicate SpanningRun(w: World, ms: seq<Move>, p: nat, b: RolloutBinding, prompt: string, text: string) {
    && p < |ms| && InFlight(w, ms, p, |ms|, 1, b, Finished(b.requestId))
    && var r := RecordOf(b, prompt, text, At(w, ms, p).e.weightVersion, At(w, ms, |ms|).e.weightVersion);
       r.AdmissionAgrees() == Some(true) && r.SpansAnUpdate()
  }

  lemma SpanningIsNotExclusive(w: World, ms: seq<Move>, p: nat, b: RolloutBinding, prompt: string, text: string)
    requires Initial(w) && SpanningRun(w, ms, p, b, prompt, text)
    ensures !Exclusive(w, ms)
  {
    if Exclusive(w, ms) {
      ReleasedRolloutsArePure(w, ms, p, |ms|, 1, b, Finished(b.requestId), prompt, text);
    }
  }

  /** Admitted under its own label, released under rc-0: the record spans. */
  lemma RecordSpans(b: RolloutBinding, prompt: string, text: string)
    requires b.version.value > 0
    ensures var r := RecordOf(b, prompt, text, b.version.Label(), INITIAL_VERSION.Label());
      r.AdmissionAgrees() == Some(true) && r.SpansAnUpdate()
  {
    var r := RecordOf(b, prompt, text, b.version.Label(), INITIAL_VERSION.Label());
    SpansByVersion(r, INITIAL_VERSION);
    AdmissionAgreesByVersion(r, b.version);
  }

  lemma ItSpans(w: World, before: seq<Move>, target: UpdateTarget, id: string, prompt: string, text: string)
    returns (b: RolloutBinding, ms: seq<Move>)
    requires Haunted(After(w, before), target) && |After(w, before).nodes| == |w.nodes| && target.version.value > 0
    ensures SpanningRun(w, ms, |before|, b, prompt, text)
  {
    var more;
    b, more := HauntedAdmission(After(w, before), target, id);
    var admit, p := Client(1, DoAdmit(id)), |before|;
    ms := before + [admit] + more;
    OneMore(w, before, admit);
    AfterAppends(w, before + [admit], more);
    assert ms[..p] == before && ms[p] == admit && ms[..|ms|] == ms;
    RecordSpans(b, prompt, text);
  }

  /**
    * The detector fires on a real run: a bootstrap that had looked before its controller was tainted
    * seeds under a rollout of the owner. Such runs are not exclusive.
    */
  lemma ARolloutCanSpan(w: World, target: UpdateTarget, id: string, prompt: string, text: string)
    requires Initial(w) && |w.nodes| >= 2 && Resting(w.e)
    requires w.e.weightIdentity.Some? && !IsManaged(w.e.weightVersion) && target.version.value > 0
    ensures exists ms, p, b :: SpanningRun(w, ms, p, b, prompt, text) && !Exclusive(w, ms)
  {
    var before := HauntedWorldsAreReachable(w, target);
    NodesPersist(w, before);
    var b, ms := ItSpans(w, before, target, id, prompt, text);
    SpanningIsNotExclusive(w, ms, |before|, b, prompt, text);
  }
}
