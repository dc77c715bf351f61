/** What the fleet guarantees in every reachable state, and what it takes. */
module Safety {
  import opened Prelude
  import opened Labels
  import opened Identity
  import opened Lifecycle
  import opened Journal
  import opened Runner
  import opened Engine
  import opened Adapter
  import opened FakeAdapter
  import opened Fleet
  import opened History
  import opened Ownership
  import opened Trajectories

  // Everything about several controllers assumes an Exclusive schedule: exactly one in which no two
  // nodes ever claim the engine at once. One controller alone is always exclusive. Ownership says
  // what happens without.

  lemma {:induction false} LoneControllersAreExclusive(w: World, ms: seq<Move>)
    requires |w.nodes| <= 1
    ensures Exclusive(w, ms) && |After(w, ms).nodes| == |w.nodes|
  {
    if ms != [] {
      LoneControllersAreExclusive(w, ms[..|ms| - 1]);
    }
  }

  lemma {:induction false} ExclusivePrefix(w: World, ms: seq<Move>, t: nat)
    requires Exclusive(w, ms) && t <= |ms|
    ensures Exclusive(w, ms[..t])
  {
    if t == |ms| {
      assert ms[..t] == ms;
    } else {
      ExclusivePrefix(w, ms[..|ms| - 1], t);
      assert ms[..|ms| - 1][..t] == ms[..t];
    }
  }

  /** The world after the first t moves. */
  function At(w: World, ms: seq<Move>, t: nat): World
    requires t <= |ms|
  {
    After(w, ms[..t])
  }

  lemma AtNext(w: World, ms: seq<Move>, t: nat)
    requires Initial(w) && Exclusive(w, ms) && t < |ms|
    ensures WorldInv(At(w, ms, t)) && |At(w, ms, t).nodes| == |w.nodes|
    ensures At(w, ms, t + 1) == Next(At(w, ms, t), ms[t]) && !Intrudes(At(w, ms, t), ms[t])
  {
    ExclusivePrefix(w, ms, t);
    ExclusivePrefix(w, ms, t + 1);
    assert ms[..t + 1][..t] == ms[..t];
    WorldInvariant(w, ms[..t]);
    NodesPersist(w, ms[..t]);
  }

  lemma AtHolds(w: World, ms: seq<Move>, t: nat)
    requires Initial(w) && Exclusive(w, ms) && t <= |ms|
    ensures WorldInv(At(w, ms, t)) && |At(w, ms, t).nodes| == |w.nodes|
  {
    ExclusivePrefix(w, ms, t);
    WorldInvariant(w, ms[..t]);
    NodesPersist(w, ms[..t]);
  }

  predicate TwoClaim(w: World) {
    exists i, k :: 0 <= i < k < |w.nodes| && Claims(w.nodes[i]) && Claims(w.nodes[k])
  }

  predicate NeverTwoClaim(w: World, ms: seq<Move>) {
    forall t :: 0 <= t <= |ms| ==> !TwoClaim(At(w, ms, t))
  }

  lemma IntrudersBothClaim(w: World, m: Move)
    requires Intrudes(w, m)
    ensures TwoClaim(Next(w, m))
  {
    var k :| 0 <= k < |w.nodes| && k != m.node && Unwritten(w.nodes[k]);
    var v := Next(w, m);
    assert Claims(v.nodes[m.node]) && v.nodes[k] == w.nodes[k] && Claims(v.nodes[k]);
  }

  lemma {:induction false} UniqueClaimsAreExclusive(w: World, ms: seq<Move>)
    requires NeverTwoClaim(w, ms)
    ensures Exclusive(w, ms)
  {
    if ms != [] {
      var front := ms[..|ms| - 1];
      assert forall t :: 0 <= t <= |front| ==> ms[..t] == front[..t];
      assert forall t :: 0 <= t <= |front| ==> At(w, front, t) == At(w, ms, t);
      UniqueClaimsAreExclusive(w, front);
      assert ms[..|ms|] == ms && !TwoClaim(At(w, ms, |ms|));
      if Intrudes(After(w, front), ms[|ms| - 1]) {
        IntrudersBothClaim(After(w, front), ms[|ms| - 1]);
      }
    }
  }

  /** The hypothesis draws the line exactly: a schedule is exclusive when no two nodes ever claim at once. */
  lemma ExclusiveExactly(w: World, ms: seq<Move>)
    requires Initial(w)
    ensures Exclusive(w, ms) <==> NeverTwoClaim(w, ms)
  {
    if Exclusive(w, ms) {
      forall t | 0 <= t <= |ms| ensures !TwoClaim(At(w, ms, t)) {
        AtHolds(w, ms, t);
      }
    }
    if NeverTwoClaim(w, ms) {
      UniqueClaimsAreExclusive(w, ms);
    }
  }

  /**
    * Never two contenders would not do: a bootstrap whose controller has been tainted since it looked
    * can own nothing and so contends for nothing, but its seed still overwrites the owner's label.
    */
  lemma TaintedBootstrapSpoilsTheLabel(w: World, i: nat, k: nat)
    requires i < |w.nodes| && k < |w.nodes| && SoundWorld(w)
    requires w.nodes[i].cycle.pc == Waiting(BootstrapCall) && w.nodes[i].adapter.at.Seeding?
    requires w.nodes[i].cycle.c.state == TAINTED && w.nodes[i].cycle.c.current.None?
    requires w.nodes[k].cycle.c.state == READY && Vouches(w.e, w.nodes[k].cycle.c)
    requires w.nodes[k].cycle.c.current.value.version != INITIAL_VERSION
    ensures var v := Next(w, AccessEngine(i, false));
      && |v.nodes| == |w.nodes| && !Contends(w, i) && !Contends(v, i)
      && (forall j :: 0 <= j < |w.nodes| && Contends(v, j) ==> Contends(w, j))
      && v.nodes[k] == w.nodes[k] && !Vouches(v.e, v.nodes[k].cycle.c)
  {
    var m := AccessEngine(i, false);
    AccessMoves(w, i, false);
    LabelInjective(w.nodes[k].cycle.c.current.value.version, INITIAL_VERSION);
    forall j | 0 <= j < |w.nodes| && Contends(Next(w, m), j) ensures Contends(w, j) {
      WithoutALookNobodyJoins(w, m, j);
    }
  }

  // ------------------------------------------------------------- no stale cache

  predicate NeverStale(e: EngineState) {
    e.CanStep() ==> e.Coherent()
  }

  /** Whenever some request can run, every cache entry comes from the weights it will run on. */
  lemma NoCrossVersionCache(w: World, ms: seq<Move>)
    requires Initial(w) && Exclusive(w, ms)
    ensures NeverStale(After(w, ms).e)
  {
    WorldInvariant(w, ms);
  }

  /** Drain, start, one chunk, finalize, resume: an update whose caches nobody resets. */
  function WithoutInvalidation(e: EngineState, target: UpdateTarget): EngineState {
    var paused := Pause(e, Wait, false, false).0;
    var session := StartUpdate(paused, false).0;
    var loaded := AssignIdentity(UpdateWeights(session, false).0, target.identity);
    Resume(FinishUpdate(loaded, Some(target.Label()), false).0, false).0
  }

  /** Skipping the invalidation serves stale entries exactly when there was anything cached. */
  lemma SkippingInvalidationGoesStale(e: EngineState, target: UpdateTarget)
    requires e.Coherent() && e.pauseState == UNPAUSED && e.activeRequests == 0 && !e.updateSessionOpen
    ensures var f := WithoutInvalidation(e, target);
      f.CanStep() && (f.Coherent() <==> e.Clean())
  {
    var f := WithoutInvalidation(e, target);
    assert f.prefixFrom == e.prefixFrom && f.encoderFrom == e.encoderFrom && f.mmFrom == e.mmFrom;
    assert f.epoch > e.epoch;
    if !e.Clean() {
      var k :| k in e.prefixFrom || k in e.encoderFrom || k in e.mmFrom;
      assert k == e.epoch;
    }
  }

  // -------------------------------------------------------- version-pure rollouts

  predicate Vouches(e: EngineState, c: Snapshot) {
    c.state in {READY, DRAINING} ==> c.current.Some? && e.Holds(c.current.value)
  }

  /** A controller that serves or drains vouches for exactly what the engine holds. */
  lemma ServingMeansCommitted(w: World, ms: seq<Move>, i: nat)
    requires Initial(w) && Exclusive(w, ms) && i < |w.nodes|
    ensures |After(w, ms).nodes| == |w.nodes|
    ensures Vouches(After(w, ms).e, After(w, ms).nodes[i].cycle.c)
  {
    WorldInvariant(w, ms);
    NodesPersist(w, ms);
    ServingHolds(After(w, ms), i);
  }

  /** The record of a rollout whose engine labels were read at admission and at release. */
  function RecordOf(b: RolloutBinding, prompt: string, text: string, admission: string, completion: string): Trajectory {
    Trajectory(b, prompt, text, [], [], None, None, Some(admission), Some(completion))
  }

  lemma OnlyCompletionsLoad(e: EngineState, n: Node, m: Move)
    requires n.cycle.pc != Waiting(CompleteCall)
    ensures NodeMove(e, n, m).0.epoch == e.epoch
  {
    if m.AccessEngine? && n.cycle.pc.Waiting? {
      TurnsFitThePort(e, n.adapter, n.cycle.pc.call, n.cycle.target, m.fault);
      AccessesWriteLittle(e, n.adapter, n.cycle.pc.call, n.cycle.target, m.fault);
    }
  }

  lemma NobodyCompletesWhileServing(w: World, i: nat, k: nat)
    requires WorldInv(w) && i < |w.nodes| && k < |w.nodes| && w.nodes[i].cycle.c.active != []
    ensures w.nodes[k].cycle.pc != Waiting(CompleteCall)
  {
    assert NodeInv(w.e, w.nodes[i]) && NodeInv(w.e, w.nodes[k]);
    assert Claims(w.nodes[i]);
  }

  lemma RequestsLoadNothing(e: EngineState, work: Work)
    ensures Progress(e, work).epoch == e.epoch
  {
  }

  lemma NextLoadsOnlyInCompletion(w: World, m: Move)
    requires !m.Requests? && m.node < |w.nodes| ==> w.nodes[m.node].cycle.pc != Waiting(CompleteCall)
    ensures Next(w, m).e.epoch == w.e.epoch
  {
    if m.Requests? {
      RequestsLoadNothing(w.e, m.work);
    } else if m.node < |w.nodes| {
      OnlyCompletionsLoad(w.e, w.nodes[m.node], m);
    }
  }

  /** While anything is in flight, no move changes the weights. */
  lemma WeightsRestWhileServing(w: World, m: Move, i: nat)
    requires WorldInv(w) && i < |w.nodes| && w.nodes[i].cycle.c.active != []
    ensures Next(w, m).e.epoch == w.e.epoch
  {
    if !m.Requests? && m.node < |w.nodes| {
      NobodyCompletesWhileServing(w, i, m.node);
    }
    NextLoadsOnlyInCompletion(w, m);
  }

  lemma AdmissionsBindOne(c: Snapshot, id: string, b: RolloutBinding)
    requires b in Admit(c, id).0.active && b.admittedSeq <= c.seqNo
    ensures b in c.active
  {
    if Admit(c, id).1.Bound? {
      AdmittedBinding(c, id);
    }
  }

  lemma ReleasesBindNone(c: Snapshot, id: string, what: Happening, b: RolloutBinding)
    requires b in Release(c, id, what).0.active
    ensures b in c.active
  {
  }

  lemma MovesBindNone(c: Snapshot, cmd: Command, b: RolloutBinding)
    requires b in Apply(c, cmd).0.active && !cmd.DoAdmit? && !cmd.DoFinish? && !cmd.DoAbort?
    ensures b in c.active
  {
  }

  /** A call adds no binding but the one it admits, whose number is new. */
  lemma OnlyAdmissionsBind(c: Snapshot, cmd: Command, b: RolloutBinding)
    requires b in Apply(c, cmd).0.active && b.admittedSeq <= c.seqNo
    ensures b in c.active
  {
    match cmd {
      case DoAdmit(id) => AdmissionsBindOne(c, id, b);
      case DoFinish(id) => ReleasesBindNone(c, id, Finished(id), b);
      case DoAbort(id) => ReleasesBindNone(c, id, Aborted(id), b);
      case _ => MovesBindNone(c, cmd, b);
    }
  }

  /** A node's controller changes by calls only. */
  predicate ByACall(c: Snapshot, d: Snapshot, b: RolloutBinding) {
    && c.seqNo <= d.seqNo
    && (b in d.active && b.admittedSeq <= c.seqNo ==> b in c.active)
  }

  lemma CallsAreCalls(c: Snapshot, cmd: Command, b: RolloutBinding)
    ensures ByACall(c, Apply(c, cmd).0, b)
  {
    SequenceNeverDecreases(c, cmd);
    if b in Apply(c, cmd).0.active && b.admittedSeq <= c.seqNo {
      OnlyAdmissionsBind(c, cmd, b);
    }
  }

  lemma BindingsAreNotBackdated(w: World, m: Move, i: nat, b: RolloutBinding)
    requires i < |w.nodes|
    ensures |Next(w, m).nodes| == |w.nodes| && ByACall(w.nodes[i].cycle.c, Next(w, m).nodes[i].cycle.c, b)
  {
    if !m.Requests? && m.node == i {
      var x := w.nodes[i].cycle;
      if m.CallController? && CallsController(x.pc) {
        CallsAreCalls(x.c, CommandAt(x), b);
        HeedingAdopts(x, Apply(x.c, CommandAt(x)), m.early);
      } else if m.Client? && Interferes(m.cmd) {
        CallsAreCalls(x.c, m.cmd, b);
      } else if m.AccessEngine? && x.pc.Waiting? {
        TurnsFitThePort(w.e, w.nodes[i].adapter, x.pc.call, x.target, m.fault);
      }
    }
  }

  /** From its admission to its release a binding is active throughout. */
  lemma {:induction false} ActiveThroughout(w: World, ms: seq<Move>, t: nat, q: nat, i: nat, b: RolloutBinding)
    requires Initial(w) && Exclusive(w, ms) && t <= q <= |ms| && i < |w.nodes|
    requires |At(w, ms, t).nodes| == |At(w, ms, q).nodes| == |w.nodes|
    requires b.admittedSeq <= At(w, ms, t).nodes[i].cycle.c.seqNo && b in At(w, ms, q).nodes[i].cycle.c.active
    ensures b in At(w, ms, t).nodes[i].cycle.c.active
    ensures At(w, ms, q).e.epoch == At(w, ms, t).e.epoch
    decreases q - t
  {
    if t < q {
      AtNext(w, ms, t);
      AtHolds(w, ms, t + 1);
      BindingsAreNotBackdated(At(w, ms, t), ms[t], i, b);
      ActiveThroughout(w, ms, t + 1, q, i, b);
      WeightsRestWhileServing(At(w, ms, t), ms[t], i);
    }
  }

  /** The rollout b is admitted by the p-th move and can be released after the first q. */
  predicate InFlight(w: World, ms: seq<Move>, p: nat, q: nat, i: nat, b: RolloutBinding, what: Happening) {
    && p < q <= |ms| && i < |w.nodes| && ms[p] == Client(i, DoAdmit(b.requestId))
    && |At(w, ms, p).nodes| == |At(w, ms, q).nodes| == |w.nodes|
    && Admit(At(w, ms, p).nodes[i].cycle.c, b.requestId).1 == Bound(b)
    && Release(At(w, ms, q).nodes[i].cycle.c, b.requestId, what).1 == Bound(b)
  }

  /** Admission binds to what the engine holds, release finds it. */
  lemma EndsSeeTheEngine(w: World, ms: seq<Move>, p: nat, q: nat, i: nat, b: RolloutBinding, what: Happening)
    requires Initial(w) && Exclusive(w, ms) && InFlight(w, ms, p, q, i, b, what)
    ensures At(w, ms, p).e.Holds(b.Target()) && At(w, ms, q).e.Holds(b.Target())
  {
    AtHolds(w, ms, p);
    AtHolds(w, ms, q);
    ServingHolds(At(w, ms, p), i);
    ServingHolds(At(w, ms, q), i);
    AdmittedBinding(At(w, ms, p).nodes[i].cycle.c, b.requestId);
    ReleasedWasActive(At(w, ms, q).nodes[i].cycle.c, b, what);
  }

  /** A serving node's commit, and whatever is bound to it, is what the engine holds. */
  lemma ServingHolds(w: World, i: nat)
    requires WorldInv(w) && i < |w.nodes|
    ensures Vouches(w.e, w.nodes[i].cycle.c)
    ensures forall b :: b in w.nodes[i].cycle.c.active ==> w.nodes[i].cycle.c.current == Some(b.Target())
  {
    assert NodeInv(w.e, w.nodes[i]);
  }

  lemma {:induction false} SequenceGrows(w: World, ms: seq<Move>, t: nat, u: nat, i: nat, b: RolloutBinding)
    requires Initial(w) && Exclusive(w, ms) && t <= u <= |ms| && i < |w.nodes|
    requires |At(w, ms, t).nodes| == |At(w, ms, u).nodes| == |w.nodes|
    ensures At(w, ms, t).nodes[i].cycle.c.seqNo <= At(w, ms, u).nodes[i].cycle.c.seqNo
    decreases u - t
  {
    if t < u {
      AtNext(w, ms, t);
      AtHolds(w, ms, t + 1);
      BindingsAreNotBackdated(At(w, ms, t), ms[t], i, b);
      SequenceGrows(w, ms, t + 1, u, i, b);
    }
  }

  lemma ClientMoves(w: World, i: nat, cmd: Command)
    requires i < |w.nodes| && Interferes(cmd)
    ensures var v, n := Next(w, Client(i, cmd)), w.nodes[i];
      v == World(w.e, w.nodes[i := n.(cycle := n.cycle.(c := Apply(n.cycle.c, cmd).0))])
  {
  }

  lemma AdmissionStarts(w: World, ms: seq<Move>, p: nat, q: nat, i: nat, b: RolloutBinding, what: Happening)
    requires Initial(w) && Exclusive(w, ms) && InFlight(w, ms, p, q, i, b, what)
    ensures |At(w, ms, p + 1).nodes| == |w.nodes| && At(w, ms, p + 1).e == At(w, ms, p).e
    ensures At(w, ms, p + 1).nodes[i].cycle.c.seqNo == b.admittedSeq
    ensures b in At(w, ms, q).nodes[i].cycle.c.active
  {
    AtNext(w, ms, p);
    ClientMoves(At(w, ms, p), i, ms[p].cmd);
    AdmittedBinding(At(w, ms, p).nodes[i].cycle.c, b.requestId);
    ReleasedWasActive(At(w, ms, q).nodes[i].cycle.c, b, what);
  }

  lemma ReleasedWasActive(c: Snapshot, b: RolloutBinding, what: Happening)
    requires Release(c, b.requestId, what).1 == Bound(b)
    ensures b in c.active && c.state in ROLLOUT_COMPLETION_STATES
  {
    assert c.active[Position(c.active, b.requestId)] == b;
  }

  lemma WeightsRestInFlight(
    w: World, ms: seq<Move>, p: nat, t: nat, q: nat, i: nat, b: RolloutBinding, what: Happening)
    requires Initial(w) && Exclusive(w, ms) && InFlight(w, ms, p, q, i, b, what) && p <= t <= q
    ensures At(w, ms, t).e.epoch == At(w, ms, p).e.epoch
  {
    if p < t {
      AdmissionStarts(w, ms, p, q, i, b, what);
      AtHolds(w, ms, t);
      SequenceGrows(w, ms, p + 1, t, i, b);
      ActiveThroughout(w, ms, t, q, i, b);
      ActiveThroughout(w, ms, p + 1, q, i, b);
    }
  }

  /**
    * Version purity, end to end: between its admission and its release a rollout sees one set of
    * weights and one label, those it is bound to; its record agrees with the engine at both ends.
    */
  lemma ReleasedRolloutsArePure(
    w: World, ms: seq<Move>, p: nat, q: nat, i: nat, b: RolloutBinding, what: Happening, prompt: string, text: string)
    requires Initial(w) && Exclusive(w, ms) && InFlight(w, ms, p, q, i, b, what)
    ensures At(w, ms, p).e.Holds(b.Target()) && At(w, ms, q).e.Holds(b.Target())
    ensures forall t :: p <= t <= q ==> At(w, ms, t).e.epoch == At(w, ms, p).e.epoch
    ensures var r := RecordOf(b, prompt, text, At(w, ms, p).e.weightVersion, At(w, ms, q).e.weightVersion);
      r.AdmissionAgrees() == Some(true) && !r.SpansAnUpdate()
  {
    EndsSeeTheEngine(w, ms, p, q, i, b, what);
    forall t | p <= t <= q ensures At(w, ms, t).e.epoch == At(w, ms, p).e.epoch {
      WeightsRestInFlight(w, ms, p, t, q, i, b, what);
    }
  }

  // ----------------------------------------------------------------- single owner

  lemma CallsKeepCommits(n: Node, early: bool)
    requires Books(n.cycle.c) && CallsController(n.cycle.pc) && n.cycle.c.current.Some?
    ensures Go(n.cycle, early).c.current.Some?
  {
    var r := Apply(n.cycle.c, CommandAt(n.cycle));
    CallsAreSummarised(n.cycle.c, CommandAt(n.cycle));
    HeedingKeepsClaim(n, r, early);
    HeedingAdopts(n.cycle, r, early);
  }

  lemma HeedingAdopts(x: Cycle, r: Result, early: bool)
    requires CallsController(x.pc)
    ensures Heed(x, r, early).c == r.0
  {
  }

  lemma ClientsKeepCommits(c: Snapshot, cmd: Command)
    requires Books(c) && c.current.Some? && Interferes(cmd)
    ensures Apply(c, cmd).0.current.Some?
  {
    CallsAreSummarised(c, cmd);
  }

  lemma NodesKeepCommits(e: EngineState, n: Node, m: Move)
    requires Books(n.cycle.c) && n.cycle.c.current.Some?
    ensures NodeMove(e, n, m).1.cycle.c.current.Some?
  {
    if m.CallController? {
      if CallsController(n.cycle.pc) {
        CallsKeepCommits(n, m.early);
      }
    } else if m.Client? {
      if Interferes(m.cmd) {
        ClientsKeepCommits(n.cycle.c, m.cmd);
      }
    } else if m.AccessEngine? && n.cycle.pc.Waiting? {
      TurnsFitThePort(e, n.adapter, n.cycle.pc.call, n.cycle.target, m.fault);
    }
  }

  lemma CommitsPersist(w: World, m: Move, i: nat)
    requires i < |w.nodes| && Books(w.nodes[i].cycle.c) && w.nodes[i].cycle.c.current.Some?
    ensures |Next(w, m).nodes| == |w.nodes| && Next(w, m).nodes[i].cycle.c.current.Some?
  {
    if !m.Requests? && m.node == i {
      NodesKeepCommits(w.e, w.nodes[i], m);
    }
  }

  lemma OwnerAt(w: World, i: nat)
    requires WorldInv(w) && i < |w.nodes|
    ensures Books(w.nodes[i].cycle.c) && (w.nodes[i].cycle.c.state == READY ==> w.nodes[i].cycle.c.current.Some?)
  {
    assert NodeInv(w.e, w.nodes[i]);
  }

  lemma OwnersStay(w: World, ms: seq<Move>, t: nat, i: nat)
    requires Initial(w) && Exclusive(w, ms) && t < |ms| && i < |w.nodes| && |At(w, ms, t).nodes| == |w.nodes|
    requires At(w, ms, t).nodes[i].cycle.c.current.Some?
    ensures |At(w, ms, t + 1).nodes| == |w.nodes| && At(w, ms, t + 1).nodes[i].cycle.c.current.Some?
  {
    AtNext(w, ms, t);
    OwnerAt(At(w, ms, t), i);
    CommitsPersist(At(w, ms, t), ms[t], i);
  }

  lemma {:induction false} OwnersStayOwners(w: World, ms: seq<Move>, p: nat, q: nat, i: nat)
    requires Initial(w) && Exclusive(w, ms) && p <= q <= |ms| && i < |w.nodes| && |At(w, ms, p).nodes| == |w.nodes|
    requires At(w, ms, p).nodes[i].cycle.c.current.Some?
    ensures |At(w, ms, q).nodes| == |w.nodes| && At(w, ms, q).nodes[i].cycle.c.current.Some?
    decreases q
  {
    if p < q {
      OwnersStayOwners(w, ms, p, q - 1, i);
      OwnersStay(w, ms, q - 1, i);
    }
  }

  /** Over the whole life of an engine at most one controller ever reaches READY. */
  lemma SingleOwner(w: World, ms: seq<Move>, p: nat, q: nat, i: nat, k: nat)
    requires Initial(w) && Exclusive(w, ms) && p <= q <= |ms| && i < |w.nodes| && k < |w.nodes|
    ensures |At(w, ms, p).nodes| == |At(w, ms, q).nodes| == |w.nodes|
    ensures At(w, ms, p).nodes[i].cycle.c.state == READY && At(w, ms, q).nodes[k].cycle.c.state == READY ==> i == k
  {
    AtHolds(w, ms, p);
    AtHolds(w, ms, q);
    var early, late := At(w, ms, p), At(w, ms, q);
    if early.nodes[i].cycle.c.state == READY && late.nodes[k].cycle.c.state == READY {
      OwnerAt(early, i);
      OwnersStayOwners(w, ms, p, q, i);
      OwnerAt(late, k);
      assert Claims(late.nodes[i]) && Claims(late.nodes[k]);
    }
  }

  lemma NextKeepsManaged(w: World, m: Move)
    requires IsManaged(w.e.weightVersion)
    ensures IsManaged(Next(w, m).e.weightVersion)
  {
    if !m.Requests? && m.node < |w.nodes| && m.AccessEngine? {
      var n := w.nodes[m.node];
      if n.cycle.pc.Waiting? {
        LabelRoundTrip(n.cycle.target.version);
        LabelRoundTrip(INITIAL_VERSION);
        TurnsFitThePort(w.e, n.adapter, n.cycle.pc.call, n.cycle.target, m.fault);
        AccessesWriteLittle(w.e, n.adapter, n.cycle.pc.call, n.cycle.target, m.fault);
      }
    }
  }

  /** A managed engine never becomes unmanaged, whatever interleaves. */
  lemma {:induction false} ManagedStaysManaged(w: World, ms: seq<Move>)
    requires IsManaged(w.e.weightVersion)
    ensures IsManaged(After(w, ms).e.weightVersion)
  {
    if ms != [] {
      ManagedStaysManaged(w, ms[..|ms| - 1]);
      NextKeepsManaged(After(w, ms[..|ms| - 1]), ms[|ms| - 1]);
    }
  }

  /** A look at a managed engine ends the bootstrap: only the call log moves, and the controller stays. */
  lemma RefusalLeavesEverything(w: World, i: nat)
    requires i < |w.nodes| && Looks(w.nodes[i], AccessEngine(i, false))
    requires IsManaged(w.e.weightVersion) && w.e.weightIdentity.Some?
    ensures var v := Next(w, AccessEngine(i, false));
      && SameButLog(w.e, v.e)
      && v.nodes == w.nodes[i := v.nodes[i]]
      && v.nodes[i].cycle.c == w.nodes[i].cycle.c
      && v.nodes[i].cycle.pc == Failed(AdapterRaised(BootstrapCall))
  {
    LooksOnlyLook(w.e, w.nodes[i].adapter, false);
  }

  // -------------------------------------------------- the adapter object in the fleet

  lemma AccessMoves(w: World, i: nat, fault: bool)
    requires i < |w.nodes| && w.nodes[i].cycle.pc.Waiting?
    ensures var n := w.nodes[i];
      var t := TakeTurn(w.e, n.adapter, n.cycle.pc.call, n.cycle.target, fault);
      && (t.reply.Some? ==> Fits(n.cycle.pc.call, t.reply.value))
      && Next(w, AccessEngine(i, fault)) == World(t.e, w.nodes[i := Deliver(n, t)])
  {
    TurnsFitThePort(w.e, w.nodes[i].adapter, w.nodes[i].cycle.pc.call, w.nodes[i].cycle.target, fault);
  }

  function Accesses(i: nat, faults: seq<bool>): seq<Move> {
    seq(|faults|, k requires 0 <= k < |faults| => AccessEngine(i, faults[k]))
  }

  /** A call nobody interrupts does in the fleet what the adapter object does alone. */
  lemma {:induction false} UninterruptedCall(w: World, i: nat, call: Call, faults: seq<bool>)
    requires i < |w.nodes| && w.nodes[i].cycle.pc == Waiting(call)
    requires faults != [] ==>
      Turns(w.e, w.nodes[i].adapter, call, w.nodes[i].cycle.target, faults[..|faults| - 1]).reply.None?
    ensures var t := Turns(w.e, w.nodes[i].adapter, call, w.nodes[i].cycle.target, faults);
      && (t.reply.Some? ==> Fits(call, t.reply.value))
      && After(w, Accesses(i, faults)) == World(t.e, w.nodes[i := Deliver(w.nodes[i], t)])
  {
    var n, ms := w.nodes[i], Accesses(i, faults);
    if faults == [] {
      assert ms == [];
      assert w.nodes[i := n] == w.nodes;
    } else {
      var front := faults[..|faults| - 1];
      UninterruptedCall(w, i, call, front);
      var t := Turns(w.e, n.adapter, call, n.cycle.target, front);
      assert ms[..|ms| - 1] == Accesses(i, front);
      var v := World(t.e, w.nodes[i := Deliver(n, t)]);
      AccessMoves(v, i, faults[|faults| - 1]);
    }
  }
}
