/** The fake adapter as an object over the engine object. */
module FakeAdapter {
  import opened Prelude
  import opened Labels
  import opened Identity
  import opened Evidence
  import opened Runner
  import opened Engine
  import opened Adapter

  /** Consecutive accesses of one call, nobody else interleaved, up to its result. */
  function Turns(e: EngineState, a: AdapterState, call: Call, target: UpdateTarget, faults: seq<bool>): Turn {
    if faults == [] then Turn(e, a, None) else
      var t := Turns(e, a, call, target, faults[..|faults| - 1]);
      if t.reply.Some? then t else TakeTurn(t.e, t.a, call, target, faults[|faults| - 1])
  }

  lemma TurnsExtend(e: EngineState, a: AdapterState, call: Call, target: UpdateTarget, faults: seq<bool>, fault: bool)
    ensures var t := Turns(e, a, call, target, faults);
      Turns(e, a, call, target, faults + [fault])
        == if t.reply.Some? then t else TakeTurn(t.e, t.a, call, target, fault)
  {
    assert (faults + [fault])[..|faults|] == faults;
  }

  class FakeVLLMAdapter {
    const engine: FakeVLLMEngine
    const chunks: nat
    var drainCompleted: bool

    constructor (engine: FakeVLLMEngine, chunksPerUpdate: nat)
      ensures this.engine == engine && chunks == chunksPerUpdate && !drainCompleted
    {
      this.engine, chunks, drainCompleted := engine, chunksPerUpdate, false;
    }

    ghost function State(at: Place): AdapterState
      reads this
    {
      AdapterState(chunks, drainCompleted, at)
    }

    /** One pause(wait) attempt that clears no cache. */
    method TryPause() returns (ok: bool)
      modifies this, engine
      ensures (engine.View(), ok) == Pause(old(engine.View()), Wait, false, PausePost in old(engine.faults))
      ensures drainCompleted == (old(drainCompleted) || ok) && engine.faults == old(engine.faults)
    {
      ok := engine.PauseEngine(Wait, false);
      if ok {
        drainCompleted := true;
      }
    }

    method BeginDrain(ghost target: UpdateTarget) returns (reply: Reply, ghost faults: seq<bool>)
      modifies this, engine
      ensures Turns(old(engine.View()), old(State(Entry)), BeginDrainCall, target, faults)
        == Turn(engine.View(), State(Entry), Some(reply))
    {
      drainCompleted := false;
      var _ := TryPause();
      reply, faults := Acked, [PausePost in old(engine.faults)];
      TurnsExtend(old(engine.View()), old(State(Entry)), BeginDrainCall, target, [], PausePost in old(engine.faults));
    }

    method AwaitDrain(ghost target: UpdateTarget) returns (reply: Reply, ghost faults: seq<bool>)
      modifies this, engine
      ensures Turns(old(engine.View()), old(State(Entry)), AwaitDrainCall, target, faults)
        == Turn(engine.View(), State(Entry), Some(reply))
    {
      var completed := drainCompleted;
      if !completed {
        completed := TryPause();
      }
      reply := GotDrain(DrainEvidence(completed, Some(engine.activeRequests)));
      ghost var f := PausePost in old(engine.faults);
      TurnsExtend(old(engine.View()), old(State(Entry)), AwaitDrainCall, target, [], f);
      TurnsExtend(old(engine.View()), old(State(Entry)), AwaitDrainCall, target, [f], false);
      faults := [f] + [false];
    }

    method StartWeightUpdate(target: UpdateTarget) returns (reply: Reply, ghost faults: seq<bool>)
      modifies engine
      ensures Turns(old(engine.View()), old(State(Entry)), StartCall, target, faults)
        == Turn(engine.View(), State(Entry), Some(reply))
    {
      var ok := engine.StartWeightUpdate();
      reply := if ok then Acked else ForeignError;
      ghost var f := StartPost in old(engine.faults);
      TurnsExtend(old(engine.View()), old(State(Entry)), StartCall, target, [], f);
      faults := [] + [f];
    }

    /** The chunk loop: false when the data plane failed. */
    method SendChunks(target: UpdateTarget) returns (ok: bool, ghost faults: seq<bool>)
      modifies engine
      ensures engine.faults == old(engine.faults)
      ensures var t := Turns(old(engine.View()), State(Entry), CompleteCall, target, faults);
        && t.e == engine.View() && t.a.chunks == chunks && t.a.drainCompleted == drainCompleted
        && (if ok then t.reply.None? && !t.a.at.Finish? && ChunksDone(t.a.at) == chunks
            else t.a.at == Entry && t.reply == Some(GotUpdate(UpdateEvidence(target, false, false, false, None))))
    {
      faults, ok := [], true;
      var sent := 0;
      while sent < chunks
        invariant sent <= chunks && engine.faults == old(engine.faults)
        invariant var t := Turns(old(engine.View()), State(Entry), CompleteCall, target, faults);
          && t.e == engine.View() && t.a.chunks == chunks && t.a.drainCompleted == drainCompleted
          && t.reply.None? && !t.a.at.Finish? && ChunksDone(t.a.at) == sent
      {
        TurnsExtend(old(engine.View()), State(Entry), CompleteCall, target, faults, UpdatePost in engine.faults);
        faults := faults + [UpdatePost in engine.faults];
        ok := engine.UpdateWeightsChunk();
        if !ok {
          return;
        }
        sent := sent + 1;
      }
    }

    /** The chunks, then the finalize, reporting precisely which stage failed. */
    method CompleteWeightUpdate(target: UpdateTarget) returns (reply: Reply, ghost faults: seq<bool>)
      modifies engine
      ensures Turns(old(engine.View()), old(State(Entry)), CompleteCall, target, faults)
        == Turn(engine.View(), State(Entry), Some(reply))
    {
      ghost var e, a := engine.View(), State(Entry);
      var ok;
      ok, faults := SendChunks(target);
      if !ok {
        reply := GotUpdate(UpdateEvidence(target, false, false, false, None));
        return;
      }
      TurnsExtend(e, a, CompleteCall, target, faults, false);
      faults := faults + [false];
      engine.SetIdentity(target.identity);
      ghost var t := Turns(e, a, CompleteCall, target, faults);
      assert t == Turn(engine.View(), State(Finish), None);
      TurnsExtend(e, a, CompleteCall, target, faults, FinishPost in engine.faults);
      faults := faults + [FinishPost in engine.faults];
      var finished := engine.FinishWeightUpdate(Some(target.Label()));
      reply := GotUpdate(UpdateEvidence(target, true, finished, true, engine.weightIdentity));
    }

    method InvalidateCaches(target: UpdateTarget) returns (reply: Reply, ghost faults: seq<bool>)
      modifies engine
      ensures Turns(old(engine.View()), old(State(Entry)), InvalidateCall, target, faults)
        == Turn(engine.View(), State(Entry), Some(reply))
    {
      ghost var e, a := engine.View(), State(Entry);
      TurnsExtend(e, a, InvalidateCall, target, [], ResetPrefixPost in engine.faults);
      faults := [] + [ResetPrefixPost in engine.faults];
      var prefixOk := engine.ResetPrefixCache();
      if prefixOk.None? {
        reply := ForeignError;
        return;
      }
      assert Turns(e, a, InvalidateCall, target, faults) == Turn(engine.View(), State(Encoder(prefixOk.value)), None);
      TurnsExtend(e, a, InvalidateCall, target, faults, ResetEncoderPost in engine.faults);
      faults := faults + [ResetEncoderPost in engine.faults];
      var ok := engine.ResetEncoderCache();
      if !ok {
        reply := ForeignError;
        return;
      }
      reply, faults := DropMultimodal(target, e, a, faults, prefixOk.value);
    }

    method DropMultimodal(
      target: UpdateTarget, ghost e: EngineState, ghost a: AdapterState, ghost before: seq<bool>, prefixOk: bool)
      returns (reply: Reply, ghost faults: seq<bool>)
      requires Turns(e, a, InvalidateCall, target, before) == Turn(engine.View(), State(Mm(prefixOk)), None)
      modifies engine
      ensures Turns(e, a, InvalidateCall, target, faults) == Turn(engine.View(), State(Entry), Some(reply))
    {
      TurnsExtend(e, a, InvalidateCall, target, before, ResetMmPost in engine.faults);
      faults := before + [ResetMmPost in engine.faults];
      var ok := engine.ResetMmCache();
      if !ok {
        reply := ForeignError;
        return;
      }
      TurnsExtend(e, a, InvalidateCall, target, faults, false);
      faults := faults + [false];
      reply := GotInvalidate(InvalidateEvidence(prefixOk, !engine.encoderDirty, !engine.mmDirty));
    }

    /** Reads back label, pause state and cache flags; deliberately does not resume. */
    method ValidatePreResume(target: UpdateTarget) returns (reply: Reply, ghost faults: seq<bool>)
      modifies engine
      ensures Turns(old(engine.View()), old(State(Entry)), ValidateCall, target, faults)
        == Turn(engine.View(), State(Entry), Some(reply))
    {
      ghost var e, a := engine.View(), State(Entry);
      TurnsExtend(e, a, ValidateCall, target, [], ReadVersion in engine.faults);
      faults := [] + [ReadVersion in engine.faults];
      var written := engine.GetWeightInfo();
      if written.None? {
        reply := ForeignError;
        return;
      }
      TurnsExtend(e, a, ValidateCall, target, faults, ReadPaused in engine.faults);
      faults := faults + [ReadPaused in engine.faults];
      var paused := engine.IsPaused();
      if paused.None? {
        reply := ForeignError;
        return;
      }
      TurnsExtend(e, a, ValidateCall, target, faults, false);
      faults := faults + [false];
      var dirty := engine.prefixDirty || engine.encoderDirty || engine.mmDirty;
      reply := GotValidate(ValidateEvidence(target, written.value, paused.value, !dirty));
    }

    method ResumeServing(target: UpdateTarget) returns (reply: Reply, ghost faults: seq<bool>)
      modifies engine
      ensures Turns(old(engine.View()), old(State(Entry)), ResumeCall, target, faults)
        == Turn(engine.View(), State(Entry), Some(reply))
    {
      ghost var e, a := engine.View(), State(Entry);
      TurnsExtend(e, a, ResumeCall, target, [], ResumePost in engine.faults);
      faults := [] + [ResumePost in engine.faults];
      var acknowledged := engine.ResumeEngine();
      assert Turns(e, a, ResumeCall, target, faults) == Turn(engine.View(), State(ResumedAskPaused(acknowledged)), None);
      reply, faults := ReportResume(target, e, a, faults, acknowledged);
    }

    method ReportResume(
      target: UpdateTarget, ghost e: EngineState, ghost a: AdapterState, ghost before: seq<bool>, acknowledged: bool)
      returns (reply: Reply, ghost faults: seq<bool>)
      requires Turns(e, a, ResumeCall, target, before) == Turn(engine.View(), State(ResumedAskPaused(acknowledged)), None)
      modifies engine
      ensures Turns(e, a, ResumeCall, target, faults) == Turn(engine.View(), State(Entry), Some(reply))
    {
      TurnsExtend(e, a, ResumeCall, target, before, ReadPaused in engine.faults);
      faults := before + [ReadPaused in engine.faults];
      var paused := engine.IsPaused();
      if paused.None? {
        reply := ForeignError;
        return;
      }
      TurnsExtend(e, a, ResumeCall, target, faults, ReadVersion in engine.faults);
      faults := faults + [ReadVersion in engine.faults];
      var written := engine.GetWeightInfo();
      if written.None? {
        reply := ForeignError;
        return;
      }
      reply := GotResume(ResumeEvidence(target, acknowledged, paused.value, Some(written.value)));
    }

    /** Refuses before writing anything; otherwise seeds rc-0 and reports what it saw. */
    method BootstrapEngine() returns (reply: Reply, ghost faults: seq<bool>)
      modifies engine
      ensures Turns(old(engine.View()), old(State(Entry)), BootstrapCall, NO_TARGET, faults)
        == Turn(engine.View(), State(Entry), Some(reply))
    {
      ghost var e, a := engine.View(), State(Entry);
      TurnsExtend(e, a, BootstrapCall, NO_TARGET, [], ReadVersion in engine.faults);
      faults := [] + [ReadVersion in engine.faults];
      var identity := engine.weightIdentity;
      if identity.None? {
        reply := ForeignError;
        return;
      }
      var preSeed := engine.GetWeightInfo();
      if preSeed.None? {
        reply := ForeignError;
        return;
      }
      if IsManaged(engine.weightVersion) {
        reply := CoreError;
        return;
      }
      assert Turns(e, a, BootstrapCall, NO_TARGET, faults)
          == Turn(engine.View(), State(Looked(preSeed.value, identity.value)), None);
      reply, faults := Seed(e, a, faults, preSeed.value, identity.value);
    }

    /** The one sanctioned label write, and the read-back. */
    method Seed(
      ghost e: EngineState, ghost a: AdapterState, ghost before: seq<bool>, preSeed: string, identity: WeightIdentity)
      returns (reply: Reply, ghost faults: seq<bool>)
      requires Turns(e, a, BootstrapCall, NO_TARGET, before) == Turn(engine.View(), State(Looked(preSeed, identity)), None)
      modifies engine
      ensures Turns(e, a, BootstrapCall, NO_TARGET, faults) == Turn(engine.View(), State(Entry), Some(reply))
    {
      TurnsExtend(e, a, BootstrapCall, NO_TARGET, before, InitWeightTransfer in engine.faults);
      faults := before + [InitWeightTransfer in engine.faults];
      var ok := engine.InitWeightTransferEngine();
      if !ok {
        reply := ForeignError;
        return;
      }
      TurnsExtend(e, a, BootstrapCall, NO_TARGET, faults, WriteVersion in engine.faults);
      faults := faults + [WriteVersion in engine.faults];
      ok := engine.UpdateWeightVersion(INITIAL_VERSION.Label());
      if !ok {
        reply := ForeignError;
        return;
      }
      assert Turns(e, a, BootstrapCall, NO_TARGET, faults) == Turn(engine.View(), State(Written(preSeed, identity)), None);
      reply, faults := ReportSeed(e, a, faults, preSeed, identity);
    }

    method ReportSeed(
      ghost e: EngineState, ghost a: AdapterState, ghost before: seq<bool>, preSeed: string, identity: WeightIdentity)
      returns (reply: Reply, ghost faults: seq<bool>)
      requires Turns(e, a, BootstrapCall, NO_TARGET, before) == Turn(engine.View(), State(Written(preSeed, identity)), None)
      modifies engine
      ensures Turns(e, a, BootstrapCall, NO_TARGET, faults) == Turn(engine.View(), State(Entry), Some(reply))
    {
      TurnsExtend(e, a, BootstrapCall, NO_TARGET, before, ReadVersion in engine.faults);
      faults := before + [ReadVersion in engine.faults];
      var observed := engine.GetWeightInfo();
      if observed.None? {
        reply := ForeignError;
        return;
      }
      TurnsExtend(e, a, BootstrapCall, NO_TARGET, faults, ReadWorldSize in engine.faults);
      faults := faults + [ReadWorldSize in engine.faults];
      var ok := engine.GetWorldSize();
      if !ok {
        reply := ForeignError;
        return;
      }
      reply := GotBoot(BootstrapEvidence(
        observed.value, engine.weightTransferInitialised, Some(preSeed), identity, Some(DRIVER_NAME)));
    }
  }
}
