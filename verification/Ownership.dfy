/** Exactly when two controllers can come to own one engine. */
module Ownership {
  import opened Prelude
  import opened Labels
  import opened Identity
  import opened Evidence
  import opened Lifecycle
  import opened Journal
  import opened History
  import opened Runner
  import opened Engine
  import opened Adapter
  import opened Fleet

  /** A label that adoption takes for rc-0. */
  predicate ReadsAsSeed(written: string) {
    ParseLabel(written) == Some(INITIAL_VERSION)
  }

  /** The controller has committed weights to this engine. */
  predicate Owns(n: Node) {
    n.cycle.c.current.Some?
  }

  /** A bootstrap that nobody's help is needed to finish. */
  predicate Able(e: EngineState, n: Node) {
    && n.cycle.c.state == UNINITIALIZED
    && match n.cycle.pc
       case Waiting(BootstrapCall) =>
         || n.adapter.at.Looked? || n.adapter.at.Seeding?
         || (n.adapter.at.Written? && ReadsAsSeed(e.weightVersion))
         || (n.adapter.at.Observed? && ReadsAsSeed(n.adapter.at.written))
       case Confirming(GotBoot(ev)) => ReadsAsSeed(ev.observedEngineLabel)
       case _ => false
  }

  predicate SomebodyWrites(w: World) {
    exists k :: 0 <= k < |w.nodes| && Unwritten(w.nodes[k])
  }

  /** About to read back a label that another node's seed can still make right. */
  predicate Waits(n: Node) {
    n.cycle.c.state == UNINITIALIZED && n.cycle.pc == Waiting(BootstrapCall) && n.adapter.at.Written?
  }

  /** An owner, or in a bootstrap that has looked and can still succeed. */
  predicate Contends(w: World, i: nat)
    requires i < |w.nodes|
  {
    Owns(w.nodes[i]) || Able(w.e, w.nodes[i]) || (Waits(w.nodes[i]) && SomebodyWrites(w))
  }

  predicate TwoContend(w: World) {
    exists i, k :: 0 <= i < k < |w.nodes| && Contends(w, i) && Contends(w, k)
  }

  predicate TwoOwn(w: World) {
    exists i, k :: 0 <= i < k < |w.nodes| && Owns(w.nodes[i]) && Owns(w.nodes[k])
  }

  /** A continuation in which nobody looks any more. */
  predicate Lookless(w: World, ms: seq<Move>) {
    ms == [] || (Lookless(w, ms[..|ms| - 1]) && !IsLook(After(w, ms[..|ms| - 1]), ms[|ms| - 1]))
  }

  lemma OneMore(w: World, ms: seq<Move>, m: Move)
    ensures After(w, ms + [m]) == Next(After(w, ms), m)
    ensures Lookless(w, ms + [m]) <==> Lookless(w, ms) && !IsLook(After(w, ms), m)
  {
    assert (ms + [m])[..|ms|] == ms;
  }

  // ------------------------------------------- what holds whoever interleaves with whom

  /** A bootstrap's own facts, true whatever the other nodes do. */
  predicate Informed(e: EngineState, n: Node) {
    match n.cycle.pc
    case Waiting(BootstrapCall) =>
      && (n.adapter.at.Looked? ==> ParseLabel(n.adapter.at.seen).None?)
      && (n.adapter.at.Seeding? || n.adapter.at.Written? || n.adapter.at.Observed? ==>
            ParseLabel(n.adapter.at.seen).None? && e.weightTransferInitialised)
    case Waiting(call) => (call.StartCall? || call.CompleteCall?) ==> n.cycle.target.version.value > 0
    case Confirming(GotBoot(ev)) => ev.FailureReason().None?
    case _ => true
  }

  predicate Sound(e: EngineState, n: Node) {
    Books(n.cycle.c) && BetweenCalls(n) && Informed(e, n)
  }

  predicate SoundWorld(w: World) {
    forall i :: 0 <= i < |w.nodes| ==> Sound(w.e, w.nodes[i])
  }

  lemma OthersStaySound(e: EngineState, f: EngineState, n: Node)
    requires Sound(e, n) && (e.weightTransferInitialised ==> f.weightTransferInitialised)
    ensures Sound(f, n)
  {
  }

  predicate SoundTurn(n: Node, t: Turn)
    requires n.cycle.pc == Waiting(BootstrapCall)
  {
    (t.reply.Some? ==> Fits(BootstrapCall, t.reply.value)) && Sound(t.e, Deliver(n, t))
  }

  lemma InitialisingIsSound(e: EngineState, n: Node, fault: bool)
    requires Sound(e, n) && n.cycle.pc == Waiting(BootstrapCall) && n.adapter.at.Looked?
    ensures SoundTurn(n, BootstrapTurn(e, n.adapter, fault))
  {
  }

  lemma SeedingIsSound(e: EngineState, n: Node, fault: bool)
    requires Sound(e, n) && n.cycle.pc == Waiting(BootstrapCall) && n.adapter.at.Seeding?
    ensures SoundTurn(n, BootstrapTurn(e, n.adapter, fault))
  {
  }

  lemma ReadingBackIsSound(e: EngineState, n: Node, fault: bool)
    requires Sound(e, n) && n.cycle.pc == Waiting(BootstrapCall) && (n.adapter.at.Written? || n.adapter.at.Observed?)
    ensures SoundTurn(n, BootstrapTurn(e, n.adapter, fault))
  {
  }

  lemma LookingIsSound(e: EngineState, n: Node, t: Turn)
    requires Sound(e, n) && n.cycle.pc == Waiting(BootstrapCall) && OnlyLooked(e, n.adapter, t)
    ensures SoundTurn(n, t)
  {
  }

  lemma BootstrapAccessIsSound(e: EngineState, n: Node, fault: bool)
    requires Sound(e, n) && n.cycle.pc == Waiting(BootstrapCall)
    ensures SoundTurn(n, BootstrapTurn(e, n.adapter, fault))
  {
    if n.adapter.at.Looked? {
      InitialisingIsSound(e, n, fault);
    } else if n.adapter.at.Seeding? {
      SeedingIsSound(e, n, fault);
    } else if n.adapter.at.Written? || n.adapter.at.Observed? {
      ReadingBackIsSound(e, n, fault);
    } else {
      LooksOnlyLook(e, n.adapter, fault);
      LookingIsSound(e, n, LookTurn(e, n.adapter, fault));
    }
  }

  lemma AnswersAreSound(e: EngineState, n: Node, t: Turn)
    requires Sound(e, n) && n.cycle.pc.Waiting? && !n.cycle.pc.call.BootstrapCall?
    requires t.reply.Some? ==> Fits(n.cycle.pc.call, t.reply.value) && t.a.at == Entry
    requires e.weightTransferInitialised ==> t.e.weightTransferInitialised
    ensures Sound(t.e, Deliver(n, t))
  {
  }

  lemma RaisingIsSound(e: EngineState, n: Node, r: Result, early: bool)
    requires Sound(e, n) && CallsController(n.cycle.pc) && Books(r.0) && (n.cycle.pc.Tainting? || r.1.Raised?)
    ensures Sound(e, n.(cycle := Heed(n.cycle, r, early)))
  {
  }

  /** A transfer is only ever started for a version above the committed one, so never for rc-0. */
  lemma AcceptingIsSound(e: EngineState, n: Node, r: Result, early: bool)
    requires Sound(e, n) && CallsController(n.cycle.pc) && Books(r.0) && !n.cycle.pc.Tainting? && !r.1.Raised?
    requires Summary(n.cycle.c, CommandAt(n.cycle), r)
    ensures Sound(e, n.(cycle := Heed(n.cycle, r, early)))
  {
  }

  lemma HeedingIsSound(e: EngineState, n: Node, r: Result, early: bool)
    requires Sound(e, n) && CallsController(n.cycle.pc) && Books(r.0)
    requires Summary(n.cycle.c, CommandAt(n.cycle), r)
    ensures Sound(e, n.(cycle := Heed(n.cycle, r, early)))
  {
    if n.cycle.pc.Tainting? || r.1.Raised? {
      RaisingIsSound(e, n, r, early);
    } else {
      AcceptingIsSound(e, n, r, early);
    }
  }

  lemma ControllerMovesAreSound(e: EngineState, n: Node, m: Move)
    requires Sound(e, n) && (m.CallController? || m.Client?)
    ensures Sound(NodeMove(e, n, m).0, NodeMove(e, n, m).1)
  {
    if m.CallController? {
      if CallsController(n.cycle.pc) {
        CallsAreSummarised(n.cycle.c, CommandAt(n.cycle));
        HeedingIsSound(e, n, Apply(n.cycle.c, CommandAt(n.cycle)), m.early);
      }
    } else if Interferes(m.cmd) {
      CallsAreSummarised(n.cycle.c, m.cmd);
    }
  }

  /** The node's own move keeps it sound, and leaves the engine as sound for the others. */
  lemma MovesAreSound(e: EngineState, n: Node, m: Move)
    requires Sound(e, n)
    ensures Sound(NodeMove(e, n, m).0, NodeMove(e, n, m).1)
    ensures e.weightTransferInitialised ==> NodeMove(e, n, m).0.weightTransferInitialised
  {
    if m.CallController? || m.Client? {
      ControllerMovesAreSound(e, n, m);
    } else if m.AccessEngine? && n.cycle.pc.Waiting? {
      AccessesWriteLittle(e, n.adapter, n.cycle.pc.call, n.cycle.target, m.fault);
      TurnsFitThePort(e, n.adapter, n.cycle.pc.call, n.cycle.target, m.fault);
      if n.cycle.pc.call.BootstrapCall? {
        BootstrapAccessIsSound(e, n, m.fault);
      } else {
        AnswersAreSound(e, n, TakeTurn(e, n.adapter, n.cycle.pc.call, n.cycle.target, m.fault));
      }
    }
  }

  lemma ReplacingIsSound(w: World, at: nat, f: EngineState, k: Node)
    requires SoundWorld(w) && at < |w.nodes| && Sound(f, k)
    requires w.e.weightTransferInitialised ==> f.weightTransferInitialised
    ensures SoundWorld(World(f, w.nodes[at := k]))
  {
    forall i | 0 <= i < |w.nodes| && i != at ensures Sound(f, w.nodes[i]) {
      OthersStaySound(w.e, f, w.nodes[i]);
    }
  }

  lemma RequestsAreSound(w: World, work: Work)
    requires SoundWorld(w)
    ensures SoundWorld(w.(e := Progress(w.e, work)))
  {
    forall i | 0 <= i < |w.nodes| ensures Sound(Progress(w.e, work), w.nodes[i]) {
      OthersStaySound(w.e, Progress(w.e, work), w.nodes[i]);
    }
  }

  lemma NextIsSound(w: World, m: Move)
    requires SoundWorld(w)
    ensures SoundWorld(Next(w, m)) && |Next(w, m).nodes| == |w.nodes|
  {
    if m.Requests? {
      RequestsAreSound(w, m.work);
    } else if m.node < |w.nodes| {
      var (f, k) := NodeMove(w.e, w.nodes[m.node], m);
      MovesAreSound(w.e, w.nodes[m.node], m);
      ReplacingIsSound(w, m.node, f, k);
    }
  }

  /** Sound in every reachable world, however the bootstraps interleave. */
  lemma {:induction false} AlwaysSound(w: World, ms: seq<Move>)
    requires Initial(w)
    ensures SoundWorld(After(w, ms)) && |After(w, ms).nodes| == |w.nodes|
  {
    if ms == [] {
      forall i | 0 <= i < |w.nodes| ensures Sound(w.e, w.nodes[i]) {
        assert w.nodes[i].cycle.c == FRESH;
      }
    } else {
      AlwaysSound(w, ms[..|ms| - 1]);
      NextIsSound(After(w, ms[..|ms| - 1]), ms[|ms| - 1]);
    }
  }

  // ------------------------------------------------------- without a look nobody joins

  /** The node's part of contending, given whether some other node is about to write the seed. */
  predicate Contending(e: EngineState, n: Node, help: bool) {
    Owns(n) || Able(e, n) || (Waits(n) && help)
  }

  lemma FinalizesAreNoSeeds(t: UpdateTarget)
    requires t.version.value > 0
    ensures !ReadsAsSeed(t.Label())
  {
    LabelRoundTrip(t.version);
  }

  /** Only an adoption makes an owner, and it needs a bootstrap that read rc-0. */
  lemma CallsDoNotMakeContenders(e: EngineState, n: Node, early: bool, help: bool)
    requires Sound(e, n) && Contending(e, n.(cycle := Step(n.cycle, Going(early))), help)
    ensures Contending(e, n, help)
  {
    var x := n.cycle;
    if CallsController(x.pc) {
      CallsAreSummarised(x.c, CommandAt(x));
      CommitPoint(x.c, CommandAt(x));
      CallsLeaveBootstraps(x, Apply(x.c, CommandAt(x)), early);
    }
  }

  lemma CallsLeaveBootstraps(x: Cycle, r: Result, early: bool)
    requires CallsController(x.pc)
    ensures var y := Heed(x, r, early);
      && y.c == r.0 && y.pc != Waiting(BootstrapCall) && !(y.pc.Confirming? && y.pc.reply.GotBoot?)
  {
  }

  lemma ClientsDoNotMakeContenders(e: EngineState, n: Node, cmd: Command, help: bool)
    requires Sound(e, n) && Contending(e, n.(cycle := Step(n.cycle, Meddling(cmd))), help)
    ensures Contending(e, n, help)
  {
    if Interferes(cmd) {
      CallsAreSummarised(n.cycle.c, cmd);
      CommitPoint(n.cycle.c, cmd);
    }
  }

  lemma BootstrapAccessesKeepContending(e: EngineState, n: Node, fault: bool, help: bool)
    requires Sound(e, n) && n.cycle.pc == Waiting(BootstrapCall) && Bootstrapping(n)
    ensures var t := BootstrapTurn(e, n.adapter, fault);
      (t.reply.Some? ==> Fits(BootstrapCall, t.reply.value)) && (Contending(t.e, Deliver(n, t), help) ==> Contending(e, n, help))
  {
    if n.adapter.at.Looked? {
    } else if n.adapter.at.Seeding? {
    } else if n.adapter.at.Written? {
    } else {
    }
  }

  lemma StartsDoNotMakeContenders(e: EngineState, n: Node, m: Move, help: bool)
    requires Sound(e, n) && (m.StartCycle? || m.StartBootstrap?) && Contending(e, NodeMove(e, n, m).1, help)
    ensures Contending(e, n, help)
  {
  }

  lemma OtherAccessesDoNotMakeContenders(e: EngineState, n: Node, t: Turn, help: bool)
    requires n.cycle.pc.Waiting? && !n.cycle.pc.call.BootstrapCall?
    requires t.reply.Some? ==> Fits(n.cycle.pc.call, t.reply.value)
    ensures Contending(t.e, Deliver(n, t), help) ==> Owns(n)
  {
  }

  /** A node that contends after its own move did so before. */
  lemma OwnMovesDoNotMakeContenders(e: EngineState, n: Node, m: Move, help: bool)
    requires Sound(e, n) && !Looks(n, m)
    requires Contending(NodeMove(e, n, m).0, NodeMove(e, n, m).1, help)
    ensures Contending(e, n, help)
  {
    if m.CallController? {
      CallsDoNotMakeContenders(e, n, m.early, help);
    } else if m.Client? {
      ClientsDoNotMakeContenders(e, n, m.cmd, help);
    } else if m.StartCycle? || m.StartBootstrap? {
      StartsDoNotMakeContenders(e, n, m, help);
    } else if m.AccessEngine? && n.cycle.pc.Waiting? {
      TurnsFitThePort(e, n.adapter, n.cycle.pc.call, n.cycle.target, m.fault);
      if n.cycle.pc.call.BootstrapCall? {
        BootstrapAccessesKeepContending(e, n, m.fault, help);
      } else {
        OtherAccessesDoNotMakeContenders(e, n, TakeTurn(e, n.adapter, n.cycle.pc.call, n.cycle.target, m.fault), help);
      }
    }
  }

  /** What a move of one node can do to the label, and to its standing as a writer. */
  lemma OnlyWritersSeed(e: EngineState, n: Node, m: Move)
    requires Sound(e, n) && !Looks(n, m)
    ensures var f := NodeMove(e, n, m).0;
      ReadsAsSeed(f.weightVersion) ==> ReadsAsSeed(e.weightVersion) || Unwritten(n)
    ensures Unwritten(NodeMove(e, n, m).1) ==> Unwritten(n)
  {
    if m.AccessEngine? && n.cycle.pc.Waiting? {
      TurnsFitThePort(e, n.adapter, n.cycle.pc.call, n.cycle.target, m.fault);
      AccessesWriteLittle(e, n.adapter, n.cycle.pc.call, n.cycle.target, m.fault);
      if n.cycle.pc.call.CompleteCall? {
        FinalizesAreNoSeeds(n.cycle.target);
      }
    }
  }

  /** Another node's move can only help a waiting one if that other node was a writer already. */
  lemma OthersDoNotMakeContenders(e: EngineState, f: EngineState, n: Node, help: bool, helped: bool)
    requires Contending(f, n, helped) && (helped ==> help)
    requires ReadsAsSeed(f.weightVersion) ==> ReadsAsSeed(e.weightVersion) || help
    ensures Contending(e, n, help)
  {
  }

  lemma NobodyStartsWriting(w: World, at: nat, f: EngineState, k: Node)
    requires at < |w.nodes| && (Unwritten(k) ==> Unwritten(w.nodes[at]))
    ensures SomebodyWrites(World(f, w.nodes[at := k])) ==> SomebodyWrites(w)
    ensures Unwritten(w.nodes[at]) ==> SomebodyWrites(w)
  {
  }

  lemma RequestsMakeNoContenders(w: World, work: Work, i: nat)
    requires i < |w.nodes| && Contends(w.(e := Progress(w.e, work)), i)
    ensures Contends(w, i)
  {
    OthersDoNotMakeContenders(
      w.e, Progress(w.e, work), w.nodes[i], SomebodyWrites(w), SomebodyWrites(w.(e := Progress(w.e, work))));
  }

  lemma WithoutALookNobodyJoins(w: World, m: Move, i: nat)
    requires SoundWorld(w) && !IsLook(w, m) && i < |w.nodes|
    requires |Next(w, m).nodes| == |w.nodes| && Contends(Next(w, m), i)
    ensures Contends(w, i)
  {
    if m.Requests? {
      RequestsMakeNoContenders(w, m.work, i);
    } else if m.node < |w.nodes| {
      var n := w.nodes[m.node];
      var (f, k) := NodeMove(w.e, n, m);
      var help, helped := SomebodyWrites(w), SomebodyWrites(World(f, w.nodes[m.node := k]));
      OnlyWritersSeed(w.e, n, m);
      NobodyStartsWriting(w, m.node, f, k);
      if m.node == i {
        OwnMovesDoNotMakeContenders(w.e, n, m, helped);
      } else {
        OthersDoNotMakeContenders(w.e, f, w.nodes[i], help, helped);
      }
    }
  }

  lemma {:induction false} NobodyJoins(w: World, ms: seq<Move>, i: nat)
    requires SoundWorld(w) && Lookless(w, ms) && i < |w.nodes|
    ensures |After(w, ms).nodes| == |w.nodes| && SoundWorld(After(w, ms))
    ensures Contends(After(w, ms), i) ==> Contends(w, i)
  {
    if ms != [] {
      var v := After(w, ms[..|ms| - 1]);
      NobodyJoins(w, ms[..|ms| - 1], i);
      NextIsSound(v, ms[|ms| - 1]);
      if Contends(After(w, ms), i) {
        WithoutALookNobodyJoins(v, ms[|ms| - 1], i);
      }
    }
  }

  // ------------------------------------------------------------ every contender can win

  /** Accesses and controller calls left until an able node owns the engine. */
  function Remaining(n: Node): nat {
    if Owns(n) then 0
    else if n.cycle.pc.Confirming? then 1
    else if n.adapter.at.Observed? then 2
    else if n.adapter.at.Written? then 3
    else if n.adapter.at.Seeding? then 4
    else 5
  }

  function Push(n: Node, i: nat): Move {
    if n.cycle.pc.Confirming? then CallController(i, false) else AccessEngine(i, false)
  }

  /** As far as the other nodes can tell: the label is as it was, or rc-0 has been written. */
  predicate AtMostSeeded(e: EngineState, f: EngineState) {
    f.weightVersion == e.weightVersion || f.weightVersion == INITIAL_VERSION.Label()
  }

  lemma SeededStaysAble(e: EngineState, f: EngineState, n: Node)
    requires Able(e, n) && AtMostSeeded(e, f)
    ensures Able(f, n)
  {
    LabelRoundTrip(INITIAL_VERSION);
  }

  lemma AccessAdvances(e: EngineState, n: Node)
    requires Sound(e, n) && Able(e, n) && n.cycle.pc == Waiting(BootstrapCall)
    ensures var t := BootstrapTurn(e, n.adapter, false);
      && (t.reply.Some? ==> Fits(BootstrapCall, t.reply.value))
      && AtMostSeeded(e, t.e) && Able(t.e, Deliver(n, t))
      && (Owns(n) || Remaining(Deliver(n, t)) < Remaining(n))
  {
    LabelRoundTrip(INITIAL_VERSION);
    if n.adapter.at.Looked? {
    } else if n.adapter.at.Seeding? {
    } else if n.adapter.at.Written? {
    } else {
    }
  }

  lemma AdoptionSucceeds(n: Node, ev: BootstrapEvidence)
    requires n.cycle.pc == Confirming(GotBoot(ev)) && n.cycle.c.state == UNINITIALIZED
    requires ev.FailureReason().None? && ReadsAsSeed(ev.observedEngineLabel)
    ensures Owns(n.(cycle := Step(n.cycle, Going(false))))
  {
  }

  lemma PushAdvances(e: EngineState, n: Node, i: nat)
    requires Sound(e, n) && Able(e, n) && !Owns(n)
    ensures var (f, k) := NodeMove(e, n, Push(n, i));
      && AtMostSeeded(e, f) && !Looks(n, Push(n, i))
      && (Owns(k) || Able(f, k)) && Remaining(k) < Remaining(n)
  {
    if n.cycle.pc.Confirming? {
      AdoptionSucceeds(n, n.cycle.pc.reply.boot);
    } else {
      AccessAdvances(e, n);
    }
  }

  lemma WorldAdvances(w: World, i: nat) returns (m: Move)
    requires SoundWorld(w) && i < |w.nodes| && Able(w.e, w.nodes[i]) && !Owns(w.nodes[i])
    ensures var v := Next(w, m);
      && !IsLook(w, m) && SoundWorld(v) && AtMostSeeded(w.e, v.e)
      && |v.nodes| == |w.nodes| && v.nodes == w.nodes[i := v.nodes[i]]
      && (Owns(v.nodes[i]) || Able(v.e, v.nodes[i])) && Remaining(v.nodes[i]) < Remaining(w.nodes[i])
  {
    m := Push(w.nodes[i], i);
    PushAdvances(w.e, w.nodes[i], i);
    NextIsSound(w, m);
  }

  lemma WinsAlone(w: World, i: nat) returns (ms: seq<Move>)
    requires SoundWorld(w) && i < |w.nodes| && (Owns(w.nodes[i]) || Able(w.e, w.nodes[i]))
    ensures var v := After(w, ms);
      && Lookless(w, ms) && SoundWorld(v) && AtMostSeeded(w.e, v.e)
      && |v.nodes| == |w.nodes| && v.nodes == w.nodes[i := v.nodes[i]] && Owns(v.nodes[i])
  {
    ms := [];
    var v := w;
    while !Owns(v.nodes[i])
      invariant v == After(w, ms) && Lookless(w, ms) && SoundWorld(v) && AtMostSeeded(w.e, v.e)
      invariant |v.nodes| == |w.nodes| && v.nodes == w.nodes[i := v.nodes[i]]
      invariant Owns(v.nodes[i]) || Able(v.e, v.nodes[i])
      decreases Remaining(v.nodes[i])
    {
      var m := WorldAdvances(v, i);
      OneMore(w, ms, m);
      ms, v := ms + [m], Next(v, m);
    }
  }

  /** A writer goes as far as its write, whatever its controller. */
  lemma WriteAdvances(e: EngineState, n: Node, j: nat)
    requires Unwritten(n)
    ensures var (f, k) := NodeMove(e, n, AccessEngine(j, false));
      && !Looks(n, AccessEngine(j, false)) && k.cycle == n.cycle
      && (if n.adapter.at.Looked? then k.adapter.at.Seeding? && f.weightVersion == e.weightVersion
          else k.adapter.at.Written? && f.weightVersion == INITIAL_VERSION.Label())
  {
    if n.adapter.at.Looked? {
    } else {
    }
  }

  lemma SomebodyCanWrite(w: World, j: nat) returns (ms: seq<Move>)
    requires SoundWorld(w) && j < |w.nodes| && Unwritten(w.nodes[j])
    ensures var v := After(w, ms);
      && Lookless(w, ms) && SoundWorld(v) && v.e.weightVersion == INITIAL_VERSION.Label()
      && |v.nodes| == |w.nodes| && v.nodes == w.nodes[j := v.nodes[j]]
      && v.nodes[j].cycle == w.nodes[j].cycle && v.nodes[j].adapter.at.Written?
  {
    var m := AccessEngine(j, false);
    WriteAdvances(w.e, w.nodes[j], j);
    NextIsSound(w, m);
    OneMore(w, [], m);
    ms := [] + [m];
    if w.nodes[j].adapter.at.Looked? {
      var v := Next(w, m);
      WriteAdvances(v.e, v.nodes[j], j);
      NextIsSound(v, m);
      OneMore(w, ms, m);
      ms := ms + [m];
    }
  }

  lemma {:induction false} Continue(w: World, ms: seq<Move>, more: seq<Move>)
    requires Lookless(w, ms) && Lookless(After(w, ms), more)
    ensures Lookless(w, ms + more)
  {
    if more == [] {
      assert ms + more == ms;
    } else {
      var front := more[..|more| - 1];
      Continue(w, ms, front);
      AfterAppends(w, ms, front);
      assert ms + more == (ms + front) + [more[|more| - 1]];
      OneMore(w, ms + front, more[|more| - 1]);
    }
  }

  lemma {:induction false} AfterAppends(w: World, ms: seq<Move>, more: seq<Move>)
    ensures After(w, ms + more) == After(After(w, ms), more)
  {
    if more == [] {
      assert ms + more == ms;
    } else {
      var front := more[..|more| - 1];
      AfterAppends(w, ms, front);
      assert ms + more == (ms + front) + [more[|more| - 1]];
      OneMore(w, ms + front, more[|more| - 1]);
    }
  }

  /** Once every contender can finish alone, two of them do. */
  lemma TwoWin(w: World, i: nat, k: nat) returns (ms: seq<Move>)
    requires SoundWorld(w) && i < k < |w.nodes|
    requires Owns(w.nodes[i]) || Able(w.e, w.nodes[i])
    requires Owns(w.nodes[k]) || Able(w.e, w.nodes[k])
    ensures Lookless(w, ms) && TwoOwn(After(w, ms))
  {
    var first := WinsAlone(w, i);
    var v := After(w, first);
    if Able(w.e, w.nodes[k]) {
      SeededStaysAble(w.e, v.e, w.nodes[k]);
    }
    var second := WinsAlone(v, k);
    Continue(w, first, second);
    AfterAppends(w, first, second);
    ms := first + second;
    assert Owns(After(v, second).nodes[i]) && Owns(After(v, second).nodes[k]);
  }

  lemma ContendersAreAble(w: World, v: World, j: nat, i: nat)
    requires j < |w.nodes| && |v.nodes| == |w.nodes| && v.nodes == w.nodes[j := v.nodes[j]] && i < |w.nodes|
    requires Unwritten(w.nodes[j]) && v.nodes[j].cycle == w.nodes[j].cycle && v.nodes[j].adapter.at.Written?
    requires v.e.weightVersion == INITIAL_VERSION.Label() && Contends(w, i)
    ensures Owns(v.nodes[i]) || Able(v.e, v.nodes[i])
  {
    LabelRoundTrip(INITIAL_VERSION);
  }

  lemma ContendersWin(w: World, i: nat, k: nat) returns (ms: seq<Move>)
    requires SoundWorld(w) && i < k < |w.nodes| && Contends(w, i) && Contends(w, k)
    ensures Lookless(w, ms) && TwoOwn(After(w, ms))
  {
    if SomebodyWrites(w) {
      var j :| 0 <= j < |w.nodes| && Unwritten(w.nodes[j]);
      var first := SomebodyCanWrite(w, j);
      ContendersAreAble(w, After(w, first), j, i);
      ContendersAreAble(w, After(w, first), j, k);
      var second := TwoWin(After(w, first), i, k);
      Continue(w, first, second);
      AfterAppends(w, first, second);
      ms := first + second;
    } else {
      ms := TwoWin(w, i, k);
    }
  }

  // ---------------------------------------------------------------------- main results

  /** Some continuation without a further look ends with two owners. */
  ghost predicate TwoCanOwn(w: World) {
    exists ms :: Lookless(w, ms) && TwoOwn(After(w, ms))
  }

  /**
    * From any reachable world, however the bootstraps have interleaved so far: without a further
    * look two controllers can come to own the engine exactly when two contend for it now.
    */
  lemma TwoOwnExactly(w: World, ms: seq<Move>)
    requires Initial(w)
    ensures TwoCanOwn(After(w, ms)) <==> TwoContend(After(w, ms))
  {
    AlwaysSound(w, ms);
    var v := After(w, ms);
    if TwoContend(v) {
      var i, k :| 0 <= i < k < |v.nodes| && Contends(v, i) && Contends(v, k);
      var more := ContendersWin(v, i, k);
      assert TwoCanOwn(v);
    }
    if TwoCanOwn(v) {
      var more :| Lookless(v, more) && TwoOwn(After(v, more));
      var i, k :| 0 <= i < k < |After(v, more).nodes| && Owns(After(v, more).nodes[i]) && Owns(After(v, more).nodes[k]);
      NodesPersist(v, more);
      NobodyJoins(v, more, i);
      NobodyJoins(v, more, k);
    }
  }

  lemma FreshControllerLooks(w: World, i: nat)
    requires i < |w.nodes| && w.nodes[i].cycle.c == FRESH && Idle(w.nodes[i].cycle.pc) && w.nodes[i].adapter.at == Entry
    requires !IsManaged(w.e.weightVersion) && w.e.weightIdentity.Some?
    ensures var v := Next(Next(w, StartBootstrap(i)), AccessEngine(i, false));
      && SameButLog(w.e, v.e) && |v.nodes| == |w.nodes| && v.nodes == w.nodes[i := v.nodes[i]]
      && Able(v.e, v.nodes[i])
  {
    LooksOnlyLook(w.e, w.nodes[i].adapter, false);
  }

  lemma FreshControllerLooksIn(w: World, ms: seq<Move>, i: nat) returns (more: seq<Move>)
    requires var v := After(w, ms);
      && i < |v.nodes| && v.nodes[i].cycle.c == FRESH && Idle(v.nodes[i].cycle.pc) && v.nodes[i].adapter.at == Entry
      && !IsManaged(v.e.weightVersion) && v.e.weightIdentity.Some?
    ensures var v, u := After(w, ms), After(w, more);
      && SameButLog(v.e, u.e) && |u.nodes| == |v.nodes| && u.nodes == v.nodes[i := u.nodes[i]]
      && Able(u.e, u.nodes[i])
  {
    FreshControllerLooks(After(w, ms), i);
    OneMore(w, ms, StartBootstrap(i));
    OneMore(w, ms + [StartBootstrap(i)], AccessEngine(i, false));
    more := ms + [StartBootstrap(i)] + [AccessEngine(i, false)];
  }

  lemma LooksStayAble(e: EngineState, f: EngineState, n: Node)
    requires Able(e, n) && SameButLog(e, f)
    ensures Able(f, n)
  {
  }

  /** And it happens: two fresh controllers that both look before either writes. */
  lemma TwoFreshControllersCanOwn(w: World)
    requires Initial(w) && |w.nodes| >= 2 && !IsManaged(w.e.weightVersion) && w.e.weightIdentity.Some?
    ensures exists ms :: TwoOwn(After(w, ms))
  {
    var one := FreshControllerLooksIn(w, [], 0);
    var two := FreshControllerLooksIn(w, one, 1);
    var v := After(w, two);
    LooksStayAble(After(w, one).e, v.e, v.nodes[0]);
    assert Contends(v, 0) && Contends(v, 1);
    TwoOwnExactly(w, two);
    var more :| Lookless(v, more) && TwoOwn(After(v, more));
    AfterAppends(w, two, more);
  }
}
