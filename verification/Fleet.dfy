/** Any number of controllers, their runners and clients, and one engine, interleaved. */
module Fleet {
  import opened Prelude
  import opened Labels
  import opened Identity
  import opened Lifecycle
  import opened Journal
  import opened Runner
  import opened Engine
  import opened Adapter

  /** One controller with its runner and adapter. */
  datatype Node = Node(cycle: Cycle, adapter: AdapterState)

  datatype World = World(e: EngineState, nodes: seq<Node>)

  function FreshNode(chunks: nat): Node {
    Node(Cycle(FRESH, Returned, NO_TARGET, 0, 0, 0, [], []), AdapterState(chunks, false, Entry))
  }

  /** One atomic step of somebody. */
  datatype Move =
    | StartCycle(node: nat, target: UpdateTarget, budget: int)
    | StartBootstrap(node: nat)
    | AccessEngine(node: nat, fault: bool)
    | CallController(node: nat, early: bool)
    | Client(node: nat, cmd: Command)
    | Requests(work: Work)

  predicate Idle(pc: Pc) {
    pc.Returned? || pc.Failed?
  }

  function Deliver(n: Node, t: Turn): Node
    requires n.cycle.pc.Waiting? && (t.reply.Some? ==> Fits(n.cycle.pc.call, t.reply.value))
  {
    Node(if t.reply.Some? then Answer(n.cycle, t.reply.value) else n.cycle, t.a)
  }

  /** What a controller call or a client's call is to the cycle. */
  function Calling(m: Move): Label
    requires m.CallController? || m.Client?
  {
    if m.CallController? then Going(m.early) else Meddling(m.cmd)
  }

  function NodeMove(e: EngineState, n: Node, m: Move): (EngineState, Node) {
    match m
    case StartCycle(_, target, budget) =>
      (e, if Idle(n.cycle.pc) then n.(cycle := Begin(n.cycle.c, target, budget)) else n)
    case StartBootstrap(_) => (e, if Idle(n.cycle.pc) then n.(cycle := BeginBootstrap(n.cycle.c)) else n)
    case AccessEngine(_, fault) =>
      if n.cycle.pc.Waiting? then
        TurnsFitThePort(e, n.adapter, n.cycle.pc.call, n.cycle.target, fault);
        var t := TakeTurn(e, n.adapter, n.cycle.pc.call, n.cycle.target, fault);
        (t.e, Deliver(n, t))
      else (e, n)
    case Requests(_) => (e, n)
    case _ => (e, n.(cycle := Step(n.cycle, Calling(m))))
  }

  function Next(w: World, m: Move): World {
    if m.Requests? then w.(e := Progress(w.e, m.work))
    else if m.node >= |w.nodes| then w
    else
      var (e, n) := NodeMove(w.e, w.nodes[m.node], m);
      World(e, w.nodes[m.node := n])
  }

  function After(w: World, ms: seq<Move>): World {
    if ms == [] then w else Next(After(w, ms[..|ms| - 1]), ms[|ms| - 1])
  }

  /** A server that loaded its weights, and controllers that have done nothing yet. */
  predicate Initial(w: World) {
    && w.e.Coherent() && w.e.FlagsHonest()
    && forall i :: 0 <= i < |w.nodes| ==> w.nodes[i] == FreshNode(w.nodes[i].adapter.chunks)
  }

  lemma {:induction false} NodesPersist(w: World, ms: seq<Move>)
    ensures |After(w, ms).nodes| == |w.nodes|
  {
    if ms != [] {
      NodesPersist(w, ms[..|ms| - 1]);
    }
  }

  // ------------------------------------------------------------ looking before seeding

  /** The node has found the engine unmanaged and has not finished claiming it. */
  predicate Bootstrapping(n: Node) {
    && n.cycle.pc == Waiting(BootstrapCall)
    && (n.adapter.at.Looked? || n.adapter.at.Seeding? || n.adapter.at.Written? || n.adapter.at.Observed?)
  }

  /** Between its look and its seed: the engine does not show the claim yet. */
  predicate Unwritten(n: Node) {
    n.cycle.pc == Waiting(BootstrapCall) && (n.adapter.at.Looked? || n.adapter.at.Seeding?)
  }

  /** The move is the node's look at the engine's label. */
  predicate Looks(n: Node, m: Move) {
    m.AccessEngine? && n.cycle.pc == Waiting(BootstrapCall) && !Bootstrapping(n)
  }

  predicate IsLook(w: World, m: Move) {
    !m.Requests? && m.node < |w.nodes| && Looks(w.nodes[m.node], m)
  }

  /** The move is a look that lets its node go on to seed. */
  predicate Enters(w: World, m: Move) {
    IsLook(w, m) && Unwritten(NodeMove(w.e, w.nodes[m.node], m).1)
  }

  /** A node is let in while another is between its look and its seed; refused looks do not count. */
  predicate Intrudes(w: World, m: Move) {
    Enters(w, m) && exists k :: 0 <= k < |w.nodes| && k != m.node && Unwritten(w.nodes[k])
  }

  /** No node is let in while another is between its look and its seed; nothing else is excluded. */
  predicate Exclusive(w: World, ms: seq<Move>) {
    ms == [] || (Exclusive(w, ms[..|ms| - 1]) && !Intrudes(After(w, ms[..|ms| - 1]), ms[|ms| - 1]))
  }

  // --------------------------------------------------------------------- invariant

  /** A controller at rest vouches for what the engine holds. */
  predicate Settled(e: EngineState, c: Snapshot) {
    c.state in {READY, DRAINING, QUIESCED} ==> c.current.Some? && e.Holds(c.current.value)
  }

  predicate Engaged(x: Cycle, state: LifecycleState) {
    x.c.current.Some? && x.c.state in {state, TAINTED} && (x.c.pending.Some? ==> x.c.pending == Some(x.target))
  }

  predicate InCall(e: EngineState, x: Cycle, a: AdapterState, call: Call)
    requires x.c.current.Some?
  {
    match call
    case BootstrapCall => false
    case BeginDrainCall => e.Holds(x.c.current.value)
    case AwaitDrainCall =>
      e.Holds(x.c.current.value) && (a.drainCompleted || (a.at.ReadActive? && a.at.completed) ==> e.Quiet())
    case StartCall => e.Quiet()
    case CompleteCall => e.Quiet() && (a.at.Finish? ==> e.weightIdentity == Some(x.target.identity))
    case InvalidateCall =>
      && e.Quiet() && e.Holds(x.target)
      && ((a.at.Encoder? || a.at.Mm? || a.at.ReadDirty?) && a.at.prefixOk ==> e.prefixFrom == {})
      && (a.at.Mm? || a.at.ReadDirty? ==> e.encoderFrom == {})
      && (a.at.ReadDirty? ==> e.mmFrom == {})
    case ValidateCall => e.Quiet() && e.Holds(x.target) && e.Clean()
    case ResumeCall =>
      e.Holds(x.target) && (a.at.ResumedAskPaused? || a.at.ResumedAskLabel? || (e.Quiet() && e.Clean()))
  }

  /** A bootstrap under way: what it has seen and written so far still stands. */
  predicate Adopting(e: EngineState, c: Snapshot, at: Place) {
    match at
    case Looked(_, identity) => c.current.None? && e.weightIdentity == Some(identity)
    case Seeding(_, identity) => c.current.None? && e.weightIdentity == Some(identity)
    case Written(_, identity) =>
      c.current.None? && e.weightIdentity == Some(identity) && e.weightVersion == INITIAL_VERSION.Label()
    case Observed(_, identity, written) =>
      && c.current.None? && e.weightIdentity == Some(identity)
      && e.weightVersion == INITIAL_VERSION.Label() == written
    case _ => Settled(e, c)
  }

  predicate Local(e: EngineState, n: Node) {
    var x, c := n.cycle, n.cycle.c;
    match x.pc
    case AtBeginDrain => Settled(e, c)
    case Returned => Settled(e, c)
    case Failed(_) => Settled(e, c)
    case AtBeginUpdate => Engaged(x, QUIESCED) && e.Quiet() && e.Holds(c.current.value)
    case Waiting(call) =>
      if call.BootstrapCall? then Adopting(e, c, n.adapter.at) else Engaged(x, StateFor(call)) && InCall(e, x, n.adapter, call)
    case Tainting(call) =>
      if call.BootstrapCall? then Settled(e, c)
      else Engaged(x, StateFor(call)) && (call.BeginDrainCall? ==> e.Holds(c.current.value)) && !Observes(call)
    case Confirming(GotBoot(ev)) =>
      && c.current.None? && e.weightVersion == INITIAL_VERSION.Label() == ev.observedEngineLabel
      && e.weightIdentity == Some(ev.weightIdentity)
    case Confirming(GotDrain(ev)) =>
      Engaged(x, DRAINING) && e.Holds(c.current.value) && (ev.engineDrainCompleted || n.adapter.drainCompleted ==> e.Quiet())
    case Confirming(GotUpdate(ev)) =>
      Engaged(x, UPDATING) && e.Quiet() && ev.target == x.target && (ev.FailureReason().None? ==> e.Holds(x.target))
    case Confirming(GotInvalidate(ev)) =>
      Engaged(x, INVALIDATING) && e.Quiet() && e.Holds(x.target) && (ev.FailureReason().None? ==> e.Clean())
    case Confirming(GotValidate(_)) => Engaged(x, VALIDATING) && e.Quiet() && e.Holds(x.target) && e.Clean()
    case Confirming(GotResume(_)) => Engaged(x, RESUMING) && e.Holds(x.target)
    case Confirming(_) => false
  }

  /** Outside an adapter call the adapter is not in the middle of one. */
  predicate BetweenCalls(n: Node) {
    n.adapter.at == Entry || n.cycle.pc.Waiting?
  }

  /** The node has claimed the engine, or is about to. */
  predicate Claims(n: Node) {
    n.cycle.c.current.Some? || Bootstrapping(n) || (n.cycle.pc.Confirming? && n.cycle.pc.reply.GotBoot?)
  }

  /** Stale entries exist only while nothing can run. */
  predicate EngineInv(e: EngineState) {
    (e.Quiet() || e.Coherent()) && e.FlagsHonest()
  }

  predicate NodeInv(e: EngineState, n: Node) {
    && Books(n.cycle.c) && Local(e, n) && BetweenCalls(n)
    && (Claims(n) && !Unwritten(n) ==> IsManaged(e.weightVersion))
  }

  predicate WorldInv(w: World) {
    && EngineInv(w.e)
    && (forall i :: 0 <= i < |w.nodes| ==> NodeInv(w.e, w.nodes[i]))
    && (forall i, k :: 0 <= i < k < |w.nodes| ==> !(Claims(w.nodes[i]) && Claims(w.nodes[k])))
  }

  // ------------------------------------------------------------------ preservation

  /** A node without a claim is indifferent to the engine. */
  lemma BystandersDoNotCare(e: EngineState, f: EngineState, n: Node)
    requires NodeInv(e, n) && !Claims(n)
    ensures NodeInv(f, n)
  {
  }

  /** Label and weights stand, and nothing at all happens to a quiet engine's pause and caches. */
  predicate Undisturbing(e: EngineState, f: EngineState) {
    && f.weightVersion == e.weightVersion && f.weightIdentity == e.weightIdentity
    && (e.Quiet() ==> f == e.(prefixResetSucceeds := f.prefixResetSucceeds))
  }

  /** What requests do: they never disturb a quiet engine, nor its label. */
  lemma RequestsKeep(e: EngineState, w: Work)
    requires EngineInv(e)
    ensures EngineInv(Progress(e, w)) && Undisturbing(e, Progress(e, w))
  {
  }

  lemma UndisturbedNode(e: EngineState, f: EngineState, n: Node)
    requires NodeInv(e, n) && Undisturbing(e, f)
    ensures NodeInv(f, n)
  {
  }

  lemma RequestsKeepNode(e: EngineState, n: Node, w: Work)
    requires EngineInv(e) && NodeInv(e, n)
    ensures NodeInv(Progress(e, w), n)
  {
    RequestsKeep(e, w);
    UndisturbedNode(e, Progress(e, w), n);
  }

  predicate SameButLog(e: EngineState, f: EngineState) {
    f == e.(calls := f.calls)
  }

  lemma LogsDoNotMatter(e: EngineState, f: EngineState, n: Node)
    requires NodeInv(e, n) && SameButLog(e, f)
    ensures NodeInv(f, n)
  {
  }

  // The seven adapter calls, one access at a time.

  /** What a finished call has earned, before the controller hears of it. */
  predicate Earned(e: EngineState, x: Cycle, a: AdapterState, call: Call, reply: Reply)
    requires x.c.current.Some?
  {
    match reply
    case Acked =>
      if call.BeginDrainCall? then e.Holds(x.c.current.value) && (a.drainCompleted ==> e.Quiet()) else e.Quiet()
    case GotDrain(ev) => e.Holds(x.c.current.value) && (ev.engineDrainCompleted || a.drainCompleted ==> e.Quiet())
    case GotUpdate(ev) => e.Quiet() && ev.target == x.target && (ev.FailureReason().None? ==> e.Holds(x.target))
    case GotInvalidate(ev) => e.Quiet() && e.Holds(x.target) && (ev.FailureReason().None? ==> e.Clean())
    case GotValidate(_) => e.Quiet() && e.Holds(x.target) && e.Clean()
    case GotResume(_) => e.Holds(x.target)
    case ForeignError => !call.BeginDrainCall? && !call.AwaitDrainCall?
    case _ => false
  }

  /** An access keeps the engine invariant and the label, or writes the target's label. */
  predicate Kept(e: EngineState, f: EngineState, x: Cycle) {
    EngineInv(f) && (f.weightVersion == e.weightVersion || f.weightVersion == x.target.Label())
  }

  predicate Progressed(x: Cycle, call: Call, t: Turn)
    requires x.c.current.Some?
  {
    match t.reply
    case None => InCall(t.e, x, t.a, call)
    case Some(reply) => Fits(call, reply) && t.a.at == Entry && Earned(t.e, x, t.a, call, reply)
  }

  predicate InTheMiddle(e: EngineState, x: Cycle, a: AdapterState, call: Call) {
    EngineInv(e) && x.c.current.Some? && InCall(e, x, a, call)
  }

  predicate AccessFine(e: EngineState, x: Cycle, call: Call, t: Turn)
    requires x.c.current.Some?
  {
    Kept(e, t.e, x) && Progressed(x, call, t)
  }

  lemma BeginDrain(e: EngineState, x: Cycle, a: AdapterState, fault: bool)
    requires InTheMiddle(e, x, a, BeginDrainCall)
    ensures AccessFine(e, x, BeginDrainCall, BeginDrainTurn(e, a, fault))
  {
  }

  lemma AwaitDrainReads(e: EngineState, x: Cycle, a: AdapterState, fault: bool)
    requires InTheMiddle(e, x, a, AwaitDrainCall) && a.at.ReadActive?
    ensures AccessFine(e, x, AwaitDrainCall, AwaitDrainTurn(e, a, fault))
  {
  }

  lemma AwaitDrainPauses(e: EngineState, x: Cycle, a: AdapterState, fault: bool)
    requires InTheMiddle(e, x, a, AwaitDrainCall) && !a.at.ReadActive?
    ensures AccessFine(e, x, AwaitDrainCall, AwaitDrainTurn(e, a, fault))
  {
    if !a.drainCompleted && !fault {
      assert Pause(e, Wait, false, fault).0.Quiet() || e.activeRequests > 0;
    }
  }

  lemma Start(e: EngineState, x: Cycle, a: AdapterState, fault: bool)
    requires InTheMiddle(e, x, a, StartCall)
    ensures AccessFine(e, x, StartCall, StartTurn(e, a, fault))
  {
  }

  lemma CompleteFinishes(e: EngineState, x: Cycle, a: AdapterState, fault: bool)
    requires InTheMiddle(e, x, a, CompleteCall) && a.at.Finish?
    ensures AccessFine(e, x, CompleteCall, CompleteTurn(e, a, x.target, fault))
  {
    LabelRoundTrip(x.target.version);
    assert x.target.Label() != "";
  }

  lemma CompleteSendsChunk(e: EngineState, x: Cycle, a: AdapterState, fault: bool)
    requires InTheMiddle(e, x, a, CompleteCall) && !a.at.Finish? && ChunksDone(a.at) < a.chunks
    ensures AccessFine(e, x, CompleteCall, CompleteTurn(e, a, x.target, fault))
  {
    if fault || !e.updateSessionOpen {
    } else {
    }
  }

  lemma CompleteAssigns(e: EngineState, x: Cycle, a: AdapterState, fault: bool)
    requires InTheMiddle(e, x, a, CompleteCall) && !a.at.Finish? && ChunksDone(a.at) >= a.chunks
    ensures AccessFine(e, x, CompleteCall, CompleteTurn(e, a, x.target, fault))
  {
  }

  lemma InvalidateResetsPrefix(e: EngineState, x: Cycle, a: AdapterState, fault: bool)
    requires InTheMiddle(e, x, a, InvalidateCall) && !a.at.Encoder? && !a.at.Mm? && !a.at.ReadDirty?
    ensures AccessFine(e, x, InvalidateCall, InvalidateTurn(e, a, fault))
  {
  }

  lemma InvalidateResetsEncoder(e: EngineState, x: Cycle, a: AdapterState, fault: bool)
    requires InTheMiddle(e, x, a, InvalidateCall) && a.at.Encoder?
    ensures AccessFine(e, x, InvalidateCall, InvalidateTurn(e, a, fault))
  {
  }

  lemma InvalidateResetsMm(e: EngineState, x: Cycle, a: AdapterState, fault: bool)
    requires InTheMiddle(e, x, a, InvalidateCall) && a.at.Mm?
    ensures AccessFine(e, x, InvalidateCall, InvalidateTurn(e, a, fault))
  {
  }

  lemma InvalidateReads(e: EngineState, x: Cycle, a: AdapterState, fault: bool)
    requires InTheMiddle(e, x, a, InvalidateCall) && a.at.ReadDirty?
    ensures AccessFine(e, x, InvalidateCall, InvalidateTurn(e, a, fault))
  {
  }

  lemma ValidateReadsLabel(e: EngineState, x: Cycle, a: AdapterState, fault: bool)
    requires InTheMiddle(e, x, a, ValidateCall) && !a.at.AskPaused? && !a.at.ReadClean?
    ensures AccessFine(e, x, ValidateCall, ValidateTurn(e, a, x.target, fault))
  {
  }

  lemma ValidateAsks(e: EngineState, x: Cycle, a: AdapterState, fault: bool)
    requires InTheMiddle(e, x, a, ValidateCall) && a.at.AskPaused?
    ensures AccessFine(e, x, ValidateCall, ValidateTurn(e, a, x.target, fault))
  {
  }

  lemma ValidateReads(e: EngineState, x: Cycle, a: AdapterState, fault: bool)
    requires InTheMiddle(e, x, a, ValidateCall) && a.at.ReadClean?
    ensures AccessFine(e, x, ValidateCall, ValidateTurn(e, a, x.target, fault))
  {
  }

  lemma ResumePosts(e: EngineState, x: Cycle, a: AdapterState, fault: bool)
    requires InTheMiddle(e, x, a, ResumeCall) && !a.at.ResumedAskPaused? && !a.at.ResumedAskLabel?
    ensures AccessFine(e, x, ResumeCall, ResumeTurn(e, a, x.target, fault))
  {
  }

  lemma ResumeAsks(e: EngineState, x: Cycle, a: AdapterState, fault: bool)
    requires InTheMiddle(e, x, a, ResumeCall) && a.at.ResumedAskPaused?
    ensures AccessFine(e, x, ResumeCall, ResumeTurn(e, a, x.target, fault))
  {
  }

  lemma ResumeReadsLabel(e: EngineState, x: Cycle, a: AdapterState, fault: bool)
    requires InTheMiddle(e, x, a, ResumeCall) && a.at.ResumedAskLabel?
    ensures AccessFine(e, x, ResumeCall, ResumeTurn(e, a, x.target, fault))
  {
  }

  lemma EveryAccess(e: EngineState, x: Cycle, a: AdapterState, call: Call, fault: bool)
    requires InTheMiddle(e, x, a, call) && !call.BootstrapCall?
    ensures AccessFine(e, x, call, TakeTurn(e, a, call, x.target, fault))
  {
    match (call, a.at) {
      case (BeginDrainCall, _) => BeginDrain(e, x, a, fault);
      case (AwaitDrainCall, ReadActive(_)) => AwaitDrainReads(e, x, a, fault);
      case (AwaitDrainCall, _) => AwaitDrainPauses(e, x, a, fault);
      case (StartCall, _) => Start(e, x, a, fault);
      case (CompleteCall, Finish) => CompleteFinishes(e, x, a, fault);
      case (CompleteCall, _) =>
        if ChunksDone(a.at) < a.chunks {
          CompleteSendsChunk(e, x, a, fault);
        } else {
          CompleteAssigns(e, x, a, fault);
        }
      case (InvalidateCall, Encoder(_)) => InvalidateResetsEncoder(e, x, a, fault);
      case (InvalidateCall, Mm(_)) => InvalidateResetsMm(e, x, a, fault);
      case (InvalidateCall, ReadDirty(_)) => InvalidateReads(e, x, a, fault);
      case (InvalidateCall, _) => InvalidateResetsPrefix(e, x, a, fault);
      case (ValidateCall, AskPaused(_)) => ValidateAsks(e, x, a, fault);
      case (ValidateCall, ReadClean(_, _)) => ValidateReads(e, x, a, fault);
      case (ValidateCall, _) => ValidateReadsLabel(e, x, a, fault);
      case (ResumeCall, ResumedAskPaused(_)) => ResumeAsks(e, x, a, fault);
      case (ResumeCall, ResumedAskLabel(_, _)) => ResumeReadsLabel(e, x, a, fault);
      case (ResumeCall, _) => ResumePosts(e, x, a, fault);
    }
  }

  lemma DeliveryKeeps(e: EngineState, n: Node, t: Turn)
    requires Local(e, n) && n.cycle.pc.Waiting? && !n.cycle.pc.call.BootstrapCall?
    requires Progressed(n.cycle, n.cycle.pc.call, t)
    ensures Local(t.e, Deliver(n, t)) && BetweenCalls(Deliver(n, t)) && Deliver(n, t).cycle.c == n.cycle.c
  {
  }

  lemma AccessKeeps(e: EngineState, n: Node, fault: bool)
    requires EngineInv(e) && NodeInv(e, n)
    requires n.cycle.pc.Waiting? && !n.cycle.pc.call.BootstrapCall?
    ensures var t := TakeTurn(e, n.adapter, n.cycle.pc.call, n.cycle.target, fault);
      && (t.reply.Some? ==> Fits(n.cycle.pc.call, t.reply.value))
      && EngineInv(t.e) && NodeInv(t.e, Deliver(n, t)) && Claims(n) && Claims(Deliver(n, t))
  {
    LabelRoundTrip(n.cycle.target.version);
    EveryAccess(e, n.cycle, n.adapter, n.cycle.pc.call, fault);
    DeliveryKeeps(e, n, TakeTurn(e, n.adapter, n.cycle.pc.call, n.cycle.target, fault));
  }

  // Controller calls and clients leave the engine alone.

  lemma RaisingKeepsLocal(e: EngineState, n: Node, r: Result, early: bool)
    requires Local(e, n) && BetweenCalls(n) && Books(n.cycle.c)
    requires CallsController(n.cycle.pc) && (n.cycle.pc.Tainting? || r.1.Raised?)
    requires Summary(n.cycle.c, CommandAt(n.cycle), r) && (n.cycle.pc.Tainting? ==> r.0.state == TAINTED)
    ensures Local(e, n.(cycle := Heed(n.cycle, r, early)))
  {
  }

  lemma AcceptingEvidenceKeepsLocal(e: EngineState, n: Node, r: Result, early: bool)
    requires Local(e, n) && BetweenCalls(n) && Books(n.cycle.c) && CallsController(n.cycle.pc)
    requires n.cycle.pc.Confirming? && !r.1.Raised? && Summary(n.cycle.c, CommandAt(n.cycle), r)
    ensures Local(e, n.(cycle := Heed(n.cycle, r, early)))
  {
  }

  lemma BeginningKeepsLocal(e: EngineState, n: Node, r: Result, early: bool)
    requires Local(e, n) && BetweenCalls(n) && Books(n.cycle.c)
    requires (n.cycle.pc.AtBeginDrain? || n.cycle.pc.AtBeginUpdate?) && !r.1.Raised?
    requires Summary(n.cycle.c, CommandAt(n.cycle), r)
    ensures Local(e, n.(cycle := Heed(n.cycle, r, early)))
  {
  }

  lemma AcceptingKeepsLocal(e: EngineState, n: Node, r: Result, early: bool)
    requires Local(e, n) && BetweenCalls(n) && Books(n.cycle.c) && CallsController(n.cycle.pc)
    requires !n.cycle.pc.Tainting? && !r.1.Raised? && Summary(n.cycle.c, CommandAt(n.cycle), r)
    ensures Local(e, n.(cycle := Heed(n.cycle, r, early)))
  {
    if n.cycle.pc.Confirming? {
      AcceptingEvidenceKeepsLocal(e, n, r, early);
    } else {
      BeginningKeepsLocal(e, n, r, early);
    }
  }

  lemma HeedingKeepsLocal(e: EngineState, n: Node, r: Result, early: bool)
    requires Local(e, n) && BetweenCalls(n) && Books(n.cycle.c) && CallsController(n.cycle.pc)
    requires Summary(n.cycle.c, CommandAt(n.cycle), r) && (n.cycle.pc.Tainting? ==> r.0.state == TAINTED)
    ensures var m := n.(cycle := Heed(n.cycle, r, early)); Local(e, m) && BetweenCalls(m)
  {
    if n.cycle.pc.Tainting? || r.1.Raised? {
      RaisingKeepsLocal(e, n, r, early);
    } else {
      AcceptingKeepsLocal(e, n, r, early);
    }
  }

  lemma HeedingKeepsClaim(n: Node, r: Result, early: bool)
    requires Books(n.cycle.c) && CallsController(n.cycle.pc) && Summary(n.cycle.c, CommandAt(n.cycle), r)
    ensures Claims(n.(cycle := Heed(n.cycle, r, early))) ==> Claims(n)
    ensures n.cycle.c.current.Some? ==> r.0.current.Some?
  {
  }

  lemma GoingHeeds(x: Cycle, early: bool)
    ensures Step(x, Going(early)) == if CallsController(x.pc) then Heed(x, Apply(x.c, CommandAt(x)), early) else x
  {
  }

  lemma HeedingKeeps(e: EngineState, n: Node, r: Result, early: bool)
    requires NodeInv(e, n) && CallsController(n.cycle.pc) && Books(r.0)
    requires Summary(n.cycle.c, CommandAt(n.cycle), r) && (n.cycle.pc.Tainting? ==> r.0.state == TAINTED)
    ensures var m := n.(cycle := Heed(n.cycle, r, early)); NodeInv(e, m) && (Claims(m) ==> Claims(n))
  {
    HeedingKeepsLocal(e, n, r, early);
    HeedingKeepsClaim(n, r, early);
  }

  lemma ControllerCallKeeps(e: EngineState, n: Node, early: bool)
    requires NodeInv(e, n)
    ensures var m := n.(cycle := Step(n.cycle, Going(early)));
      NodeInv(e, m) && (Claims(m) ==> Claims(n))
  {
    GoingHeeds(n.cycle, early);
    if CallsController(n.cycle.pc) {
      CallsAreSummarised(n.cycle.c, CommandAt(n.cycle));
      HeedingKeeps(e, n, Apply(n.cycle.c, CommandAt(n.cycle)), early);
    }
  }

  lemma MeddlingKeepsLocal(e: EngineState, n: Node, cmd: Command, r: Result)
    requires Local(e, n) && Interferes(cmd) && Summary(n.cycle.c, cmd, r)
    ensures Local(e, n.(cycle := n.cycle.(c := r.0)))
  {
  }

  lemma ClientKeeps(e: EngineState, n: Node, cmd: Command)
    requires NodeInv(e, n)
    ensures var m := n.(cycle := Step(n.cycle, Meddling(cmd)));
      NodeInv(e, m) && (Claims(m) ==> Claims(n))
  {
    if Interferes(cmd) {
      CallsAreSummarised(n.cycle.c, cmd);
      MeddlingKeepsLocal(e, n, cmd, Apply(n.cycle.c, cmd));
    }
  }

  // Bootstraps.

  /** An access of a bootstrap, seen from its node. */
  predicate BootFine(e: EngineState, n: Node, t: Turn)
    requires n.cycle.pc == Waiting(BootstrapCall)
  {
    && (t.reply.Some? ==> Fits(BootstrapCall, t.reply.value))
    && EngineInv(t.e) && NodeInv(t.e, Deliver(n, t))
  }

  /** All a look can do: log, and refuse or remember what it saw. */
  predicate OnlyLooked(e: EngineState, a: AdapterState, t: Turn) {
    && SameButLog(e, t.e)
    && match t.reply
       case None =>
         && !IsManaged(e.weightVersion) && e.weightIdentity.Some?
         && t.a == a.(at := Looked(e.weightVersion, e.weightIdentity.value))
       case Some(reply) =>
         t.a == a.(at := Entry) && reply in {CoreError, ForeignError}
  }

  lemma LooksOnlyLook(e: EngineState, a: AdapterState, fault: bool)
    ensures OnlyLooked(e, a, LookTurn(e, a, fault))
  {
  }

  lemma LookedKeeps(e: EngineState, n: Node, t: Turn)
    requires EngineInv(e) && NodeInv(e, n) && n.cycle.pc == Waiting(BootstrapCall) && !Bootstrapping(n)
    requires OnlyLooked(e, n.adapter, t)
    ensures BootFine(e, n, t)
  {
    LogsDoNotMatter(e, t.e, n);
  }

  lemma LookKeeps(e: EngineState, n: Node, fault: bool)
    requires EngineInv(e) && NodeInv(e, n) && n.cycle.pc == Waiting(BootstrapCall) && !Bootstrapping(n)
    ensures BootFine(e, n, LookTurn(e, n.adapter, fault)) && OnlyLooked(e, n.adapter, LookTurn(e, n.adapter, fault))
  {
    LooksOnlyLook(e, n.adapter, fault);
    LookedKeeps(e, n, LookTurn(e, n.adapter, fault));
  }

  lemma InitialisingKeeps(e: EngineState, n: Node, fault: bool)
    requires EngineInv(e) && NodeInv(e, n) && n.cycle.pc == Waiting(BootstrapCall) && n.adapter.at.Looked?
    ensures BootFine(e, n, BootstrapTurn(e, n.adapter, fault))
  {
  }

  lemma SeedingKeeps(e: EngineState, n: Node, fault: bool)
    requires EngineInv(e) && NodeInv(e, n) && n.cycle.pc == Waiting(BootstrapCall) && n.adapter.at.Seeding?
    ensures BootFine(e, n, BootstrapTurn(e, n.adapter, fault))
  {
    LabelRoundTrip(INITIAL_VERSION);
  }

  lemma ReadingBackKeeps(e: EngineState, n: Node, fault: bool)
    requires EngineInv(e) && NodeInv(e, n) && n.cycle.pc == Waiting(BootstrapCall) && n.adapter.at.Written?
    ensures BootFine(e, n, BootstrapTurn(e, n.adapter, fault))
  {
  }

  lemma ReportingKeeps(e: EngineState, n: Node, fault: bool)
    requires EngineInv(e) && NodeInv(e, n) && n.cycle.pc == Waiting(BootstrapCall) && n.adapter.at.Observed?
    ensures BootFine(e, n, BootstrapTurn(e, n.adapter, fault))
  {
  }

  /** What a move of one node may do: keep the node, and without a claim only be let in. */
  predicate MoveFine(e: EngineState, n: Node, m: Move, f: EngineState, k: Node) {
    && EngineInv(f) && NodeInv(f, k)
    && (!Claims(n) ==> SameButLog(e, f) && (Claims(k) ==> Looks(n, m) && Unwritten(k) && !IsManaged(e.weightVersion)))
  }

  lemma BootstrapMoveKeeps(e: EngineState, n: Node, m: Move)
    requires EngineInv(e) && NodeInv(e, n) && m.AccessEngine? && n.cycle.pc == Waiting(BootstrapCall)
    ensures MoveFine(e, n, m, NodeMove(e, n, m).0, NodeMove(e, n, m).1)
  {
    if n.adapter.at.Looked? {
      InitialisingKeeps(e, n, m.fault);
    } else if n.adapter.at.Seeding? {
      SeedingKeeps(e, n, m.fault);
    } else if n.adapter.at.Written? {
      ReadingBackKeeps(e, n, m.fault);
    } else if n.adapter.at.Observed? {
      ReportingKeeps(e, n, m.fault);
    } else {
      LookKeeps(e, n, m.fault);
    }
  }

  lemma AccessMoveKeeps(e: EngineState, n: Node, m: Move)
    requires EngineInv(e) && NodeInv(e, n) && m.AccessEngine?
    requires n.cycle.pc.Waiting? && !n.cycle.pc.call.BootstrapCall?
    ensures MoveFine(e, n, m, NodeMove(e, n, m).0, NodeMove(e, n, m).1)
  {
    AccessKeeps(e, n, m.fault);
  }

  lemma StartingKeeps(e: EngineState, n: Node, m: Move, x: Cycle)
    requires EngineInv(e) && NodeInv(e, n) && Idle(n.cycle.pc) && x.c == n.cycle.c
    requires x.pc == AtBeginDrain || x.pc == Waiting(BootstrapCall)
    ensures MoveFine(e, n, m, e, n.(cycle := x))
  {
  }

  lemma StartMoveKeeps(e: EngineState, n: Node, m: Move)
    requires EngineInv(e) && NodeInv(e, n) && (m.StartCycle? || m.StartBootstrap?)
    ensures MoveFine(e, n, m, NodeMove(e, n, m).0, NodeMove(e, n, m).1)
  {
    if Idle(n.cycle.pc) {
      StartingKeeps(e, n, m, NodeMove(e, n, m).1.cycle);
    }
  }

  lemma ControllerMoveKeeps(e: EngineState, n: Node, m: Move)
    requires EngineInv(e) && NodeInv(e, n) && (m.CallController? || m.Client?)
    ensures MoveFine(e, n, m, NodeMove(e, n, m).0, NodeMove(e, n, m).1)
  {
    if m.CallController? {
      ControllerCallKeeps(e, n, m.early);
    } else {
      ClientKeeps(e, n, m.cmd);
    }
  }

  /** Every move of one node keeps that node, and cannot touch an engine another node has claimed. */
  lemma NodeMoveKeeps(e: EngineState, n: Node, m: Move)
    requires EngineInv(e) && NodeInv(e, n)
    ensures MoveFine(e, n, m, NodeMove(e, n, m).0, NodeMove(e, n, m).1)
  {
    if m.CallController? || m.Client? {
      ControllerMoveKeeps(e, n, m);
    } else if m.StartCycle? || m.StartBootstrap? {
      StartMoveKeeps(e, n, m);
    } else if m.AccessEngine? && n.cycle.pc.Waiting? {
      if n.cycle.pc.call.BootstrapCall? {
        BootstrapMoveKeeps(e, n, m);
      } else {
        AccessMoveKeeps(e, n, m);
      }
    }
  }

  lemma RequestsKeepWorld(w: World, work: Work)
    requires WorldInv(w)
    ensures WorldInv(w.(e := Progress(w.e, work)))
  {
    RequestsKeep(w.e, work);
    forall i | 0 <= i < |w.nodes| ensures NodeInv(Progress(w.e, work), w.nodes[i]) {
      RequestsKeepNode(w.e, w.nodes[i], work);
    }
  }

  /** The others do not mind what one node did, and still at most one of them all has a claim. */
  lemma OthersKeep(e: EngineState, n: Node, m: Move, f: EngineState, k: Node, other: Node)
    requires NodeInv(e, n) && NodeInv(e, other) && !(Claims(n) && Claims(other))
    requires MoveFine(e, n, m, f, k) && !(Looks(n, m) && Unwritten(k) && Unwritten(other))
    ensures NodeInv(f, other) && !(Claims(other) && Claims(k))
  {
    if Claims(other) {
      LogsDoNotMatter(e, f, other);
    } else {
      BystandersDoNotCare(e, f, other);
    }
  }

  lemma ReplacingKeeps(w: World, at: nat, m: Move, f: EngineState, k: Node)
    requires WorldInv(w) && at < |w.nodes| && MoveFine(w.e, w.nodes[at], m, f, k)
    requires Looks(w.nodes[at], m) && Unwritten(k) ==> forall i :: 0 <= i < |w.nodes| && i != at ==> !Unwritten(w.nodes[i])
    ensures WorldInv(World(f, w.nodes[at := k]))
  {
    forall i | 0 <= i < |w.nodes| && i != at ensures NodeInv(f, w.nodes[i]) && !(Claims(w.nodes[i]) && Claims(k)) {
      OthersKeep(w.e, w.nodes[at], m, f, k, w.nodes[i]);
    }
  }

  lemma NodeMovesKeep(w: World, m: Move)
    requires WorldInv(w) && !m.Requests? && m.node < |w.nodes| && !Intrudes(w, m)
    ensures var (f, k) := NodeMove(w.e, w.nodes[m.node], m);
      WorldInv(World(f, w.nodes[m.node := k]))
  {
    var (f, k) := NodeMove(w.e, w.nodes[m.node], m);
    NodeMoveKeeps(w.e, w.nodes[m.node], m);
    ReplacingKeeps(w, m.node, m, f, k);
  }

  lemma NextKeeps(w: World, m: Move)
    requires WorldInv(w) && !Intrudes(w, m)
    ensures WorldInv(Next(w, m))
  {
    if m.Requests? {
      RequestsKeepWorld(w, m.work);
    } else if m.node < |w.nodes| {
      NodeMovesKeep(w, m);
    }
  }

  lemma {:induction false} WorldInvariant(w: World, ms: seq<Move>)
    requires Initial(w) && Exclusive(w, ms)
    ensures WorldInv(After(w, ms))
  {
    if ms == [] {
      forall i | 0 <= i < |w.nodes| ensures NodeInv(w.e, w.nodes[i]) && !Claims(w.nodes[i]) {
        assert w.nodes[i].cycle.c == FRESH;
      }
    } else {
      WorldInvariant(w, ms[..|ms| - 1]);
      NextKeeps(After(w, ms[..|ms| - 1]), ms[|ms| - 1]);
    }
  }
}
