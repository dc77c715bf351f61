/** Whole calls of the fake adapter that nobody interrupts: what they leave and what they answer. */
module Replies {
  import opened Prelude
  import opened Labels
  import opened Identity
  import opened Evidence
  import opened Runner
  import opened Engine
  import opened Adapter
  import opened FakeAdapter
  import opened Fleet

  // ------------------------------------------------- whole calls on an engine that obeys

  /** The call ends with its last access, and this is what it ends with, the call log aside. */
  predicate Ends(
    e: EngineState, a: AdapterState, call: Call, target: UpdateTarget, faults: seq<bool>,
    f: EngineState, b: AdapterState, reply: Reply)
  {
    && faults != [] && Turns(e, a, call, target, faults[..|faults| - 1]).reply.None?
    && var t := Turns(e, a, call, target, faults);
       SameButLog(f, t.e) && t.a == b && t.reply == Some(reply)
  }

  function NoFaults(n: nat): seq<bool> {
    seq(n, _ => false)
  }

  lemma NoFaultsGrow(n: nat)
    ensures NoFaults(n) + [false] == NoFaults(n + 1) && NoFaults(n + 1)[..n] == NoFaults(n)
  {
  }

  /** Turns, one access longer. */
  lemma OneMoreTurn(e: EngineState, a: AdapterState, call: Call, target: UpdateTarget, n: nat)
    ensures var t := Turns(e, a, call, target, NoFaults(n));
      Turns(e, a, call, target, NoFaults(n + 1)) == if t.reply.Some? then t else TakeTurn(t.e, t.a, call, target, false)
  {
    NoFaultsGrow(n);
  }

  lemma DrainCallEnds(e: EngineState, a: AdapterState, target: UpdateTarget)
    requires e.activeRequests == 0
    ensures Ends(e, a, BeginDrainCall, target, NoFaults(1),
                 e.(pauseState := PAUSED_NEW, pauseMode := Some(Wait)), a.(drainCompleted := true, at := Entry), Acked)
  {
    OneMoreTurn(e, a, BeginDrainCall, target, 0);
    NoFaultsGrow(0);
  }

  lemma AwaitCallEnds(e: EngineState, a: AdapterState, target: UpdateTarget)
    requires e.activeRequests == 0 && a.drainCompleted && a.at == Entry
    ensures Ends(e, a, AwaitDrainCall, target, NoFaults(2), e, a, GotDrain(DrainEvidence(true, Some(0))))
  {
    OneMoreTurn(e, a, AwaitDrainCall, target, 0);
    OneMoreTurn(e, a, AwaitDrainCall, target, 1);
    NoFaultsGrow(1);
  }

  lemma StartCallEnds(e: EngineState, a: AdapterState, target: UpdateTarget)
    requires !e.updateSessionOpen && a.at == Entry
    ensures Ends(e, a, StartCall, target, NoFaults(1), e.(updateSessionOpen := true), a, Acked)
  {
    OneMoreTurn(e, a, StartCall, target, 0);
    NoFaultsGrow(0);
  }

  /** After n chunks: n mutations of the weights, and the next chunk or the finalize to come. */
  lemma {:induction false} ChunksSent(e: EngineState, a: AdapterState, target: UpdateTarget, n: nat)
    requires e.updateSessionOpen && a.at == Entry && n <= a.chunks
    ensures var t := Turns(e, a, CompleteCall, target, NoFaults(n));
      && SameButLog(e.(epoch := e.epoch + n), t.e) && t.reply.None?
      && t.a == a.(at := if n == 0 then Entry else Chunk(n))
  {
    if n > 0 {
      ChunksSent(e, a, target, n - 1);
      OneMoreTurn(e, a, CompleteCall, target, n - 1);
    }
  }

  /** The engine once a transfer is complete: new weights under the new label, and no session. */
  function Loaded(e: EngineState, target: UpdateTarget, chunks: nat): EngineState {
    e.(weightVersion := target.Label(), weightIdentity := Some(target.identity), updateSessionOpen := false,
       epoch := e.epoch + chunks + 1)
  }

  lemma LastChunkAssigns(e: EngineState, a: AdapterState, target: UpdateTarget)
    requires !a.at.Finish? && ChunksDone(a.at) == a.chunks
    ensures CompleteTurn(e, a, target, false)
      == Turn(e.(weightIdentity := Some(target.identity), epoch := e.epoch + 1), a.(at := Finish), None)
  {
  }

  lemma FinishEnds(e: EngineState, a: AdapterState, target: UpdateTarget)
    requires a.at.Finish? && e.updateSessionOpen && e.weightIdentity == Some(target.identity)
    ensures var t := CompleteTurn(e, a, target, false);
      && SameButLog(e.(weightVersion := target.Label(), updateSessionOpen := false), t.e) && t.a == a.(at := Entry)
      && t.reply == Some(GotUpdate(UpdateEvidence(target, true, true, true, Some(target.identity))))
  {
    LabelRoundTrip(target.version);
    assert target.Label() != "";
  }

  lemma CompleteCallEnds(e: EngineState, a: AdapterState, target: UpdateTarget)
    requires e.updateSessionOpen && a.at == Entry
    ensures Ends(e, a, CompleteCall, target, NoFaults(a.chunks + 2), Loaded(e, target, a.chunks), a,
                 GotUpdate(UpdateEvidence(target, true, true, true, Some(target.identity))))
  {
    var n := a.chunks;
    ChunksSent(e, a, target, n);
    var t := Turns(e, a, CompleteCall, target, NoFaults(n));
    OneMoreTurn(e, a, CompleteCall, target, n);
    LastChunkAssigns(t.e, t.a, target);
    var u := Turns(e, a, CompleteCall, target, NoFaults(n + 1));
    assert u.a == a.(at := Finish) && u.reply.None?;
    OneMoreTurn(e, a, CompleteCall, target, n + 1);
    FinishEnds(u.e, u.a, target);
    NoFaultsGrow(n + 1);
  }

  /** All three caches gone, flags and contents. */
  function Emptied(e: EngineState): EngineState {
    e.(prefixDirty := false, encoderDirty := false, mmDirty := false, prefixFrom := {}, encoderFrom := {}, mmFrom := {})
  }

  lemma ResetsInOrder(e: EngineState, a: AdapterState, target: UpdateTarget)
    requires e.prefixResetSucceeds && a.at == Entry
    ensures var t := Turns(e, a, InvalidateCall, target, NoFaults(2));
      && SameButLog(e.(prefixDirty := false, encoderDirty := false, prefixFrom := {}, encoderFrom := {}), t.e)
      && t.a == a.(at := Mm(true)) && t.reply.None?
  {
    OneMoreTurn(e, a, InvalidateCall, target, 0);
    OneMoreTurn(e, a, InvalidateCall, target, 1);
  }

  lemma InvalidateCallEnds(e: EngineState, a: AdapterState, target: UpdateTarget)
    requires e.prefixResetSucceeds && a.at == Entry
    ensures Ends(e, a, InvalidateCall, target, NoFaults(4), Emptied(e), a,
                 GotInvalidate(InvalidateEvidence(true, true, true)))
  {
    ResetsInOrder(e, a, target);
    OneMoreTurn(e, a, InvalidateCall, target, 2);
    OneMoreTurn(e, a, InvalidateCall, target, 3);
    NoFaultsGrow(3);
  }

  lemma ValidateCallEnds(e: EngineState, a: AdapterState, target: UpdateTarget)
    requires e.Paused() && !e.prefixDirty && !e.encoderDirty && !e.mmDirty && a.at == Entry
    ensures Ends(e, a, ValidateCall, target, NoFaults(3), e, a,
                 GotValidate(ValidateEvidence(target, e.weightVersion, true, true)))
  {
    OneMoreTurn(e, a, ValidateCall, target, 0);
    OneMoreTurn(e, a, ValidateCall, target, 1);
    OneMoreTurn(e, a, ValidateCall, target, 2);
    NoFaultsGrow(2);
  }

  lemma ResumeCallEnds(e: EngineState, a: AdapterState, target: UpdateTarget)
    requires a.at == Entry
    ensures Ends(e, a, ResumeCall, target, NoFaults(3), e.(pauseState := UNPAUSED, pauseMode := None), a,
                 GotResume(ResumeEvidence(target, true, false, Some(e.weightVersion))))
  {
    OneMoreTurn(e, a, ResumeCall, target, 0);
    OneMoreTurn(e, a, ResumeCall, target, 1);
    OneMoreTurn(e, a, ResumeCall, target, 2);
    NoFaultsGrow(2);
  }

  /** A bootstrap's accesses that go through, one by one. */
  lemma BootstrapLooks(e: EngineState, a: AdapterState)
    requires e.weightIdentity.Some? && !IsManaged(e.weightVersion) && a.at == Entry
    ensures var t := BootstrapTurn(e, a, false);
      SameButLog(e, t.e) && t.a == a.(at := Looked(e.weightVersion, e.weightIdentity.value)) && t.reply.None?
  {
  }

  lemma BootstrapWrites(e: EngineState, a: AdapterState)
    ensures var t := BootstrapTurn(e, a, false);
      a.at.Looked? ==>
        && SameButLog(e.(weightTransferInitialised := true), t.e) && t.a == a.(at := Seeding(a.at.seen, a.at.identity))
        && t.reply.None?
    ensures var t := BootstrapTurn(e, a, false);
      a.at.Seeding? ==>
        && SameButLog(e.(weightVersion := INITIAL_VERSION.Label()), t.e) && t.a == a.(at := Written(a.at.seen, a.at.identity))
        && t.reply.None?
  {
  }

  lemma BootstrapReadsBack(e: EngineState, a: AdapterState)
    requires a.at.Written?
    ensures var t := BootstrapTurn(e, a, false);
      SameButLog(e, t.e) && t.a == a.(at := Observed(a.at.seen, a.at.identity, e.weightVersion)) && t.reply.None?
  {
  }

  lemma BootstrapReports(e: EngineState, a: AdapterState)
    requires a.at.Observed?
    ensures var t := BootstrapTurn(e, a, false);
      && SameButLog(e, t.e) && t.a == a.(at := Entry)
      && t.reply == Some(GotBoot(BootstrapEvidence(
           a.at.written, e.weightTransferInitialised, Some(a.at.seen), a.at.identity, Some("fake-in-process"))))
  {
  }

  /** The first three accesses of a bootstrap: the label is written. */
  lemma BootstrapSeeds(e: EngineState, a: AdapterState)
    requires e.weightIdentity.Some? && !IsManaged(e.weightVersion) && a.at == Entry
    ensures var t := Turns(e, a, BootstrapCall, NO_TARGET, NoFaults(3));
      && SameButLog(e.(weightTransferInitialised := true, weightVersion := INITIAL_VERSION.Label()), t.e)
      && t.a == a.(at := Written(e.weightVersion, e.weightIdentity.value)) && t.reply.None?
  {
    BootstrapLooks(e, a);
    OneMoreTurn(e, a, BootstrapCall, NO_TARGET, 0);
    var t := Turns(e, a, BootstrapCall, NO_TARGET, NoFaults(1));
    BootstrapWrites(t.e, t.a);
    OneMoreTurn(e, a, BootstrapCall, NO_TARGET, 1);
    var u := Turns(e, a, BootstrapCall, NO_TARGET, NoFaults(2));
    BootstrapWrites(u.e, u.a);
    OneMoreTurn(e, a, BootstrapCall, NO_TARGET, 2);
  }

  lemma BootstrapCallEnds(e: EngineState, a: AdapterState)
    requires e.weightIdentity.Some? && !IsManaged(e.weightVersion) && a.at == Entry
    ensures Ends(e, a, BootstrapCall, NO_TARGET, NoFaults(5),
                 e.(weightTransferInitialised := true, weightVersion := INITIAL_VERSION.Label()), a,
                 GotBoot(BootstrapEvidence(
                   INITIAL_VERSION.Label(), true, Some(e.weightVersion), e.weightIdentity.value, Some(DRIVER_NAME))))
  {
    BootstrapSeeds(e, a);
    var t := Turns(e, a, BootstrapCall, NO_TARGET, NoFaults(3));
    BootstrapReadsBack(t.e, t.a);
    OneMoreTurn(e, a, BootstrapCall, NO_TARGET, 3);
    var u := Turns(e, a, BootstrapCall, NO_TARGET, NoFaults(4));
    BootstrapReports(u.e, u.a);
    OneMoreTurn(e, a, BootstrapCall, NO_TARGET, 4);
    NoFaultsGrow(4);
  }

  // -------------------------------------------------------- calls that meet a difficulty

  /** The k-th access is the first one rejected. */
  function FaultAt(k: nat): seq<bool> {
    NoFaults(k) + [true]
  }

  /** A call whose last access is the first rejected one. */
  lemma FaultTurn(e: EngineState, a: AdapterState, call: Call, target: UpdateTarget, k: nat)
    ensures FaultAt(k) != [] && FaultAt(k)[..|FaultAt(k)| - 1] == NoFaults(k)
    ensures var t := Turns(e, a, call, target, NoFaults(k));
      Turns(e, a, call, target, FaultAt(k)) == if t.reply.Some? then t else TakeTurn(t.e, t.a, call, target, true)
  {
    TurnsExtend(e, a, call, target, NoFaults(k), true);
  }

  // Draining.

  /** With work in flight the drain is begun, not completed; a rejected pause is not even that. Neither is an error. */
  lemma BusyDrainBegins(e: EngineState, a: AdapterState, target: UpdateTarget)
    ensures e.activeRequests > 0 ==>
      Ends(e, a, BeginDrainCall, target, NoFaults(1),
           e.(pauseState := PAUSED_NEW, pauseMode := Some(Wait)), a.(drainCompleted := false, at := Entry), Acked)
    ensures Ends(e, a, BeginDrainCall, target, FaultAt(0), e, a.(drainCompleted := false, at := Entry), Acked)
  {
    OneMoreTurn(e, a, BeginDrainCall, target, 0);
    NoFaultsGrow(0);
    FaultTurn(e, a, BeginDrainCall, target, 0);
  }

  /** A poll of a drain not yet completed pauses again, and completes exactly if nothing runs any more. */
  lemma PollPausesAgain(e: EngineState, a: AdapterState, target: UpdateTarget)
    requires !a.drainCompleted && a.at == Entry
    ensures var done := e.activeRequests == 0;
      Ends(e, a, AwaitDrainCall, target, NoFaults(2), e.(pauseState := PAUSED_NEW, pauseMode := Some(Wait)),
           a.(drainCompleted := done), GotDrain(DrainEvidence(done, Some(e.activeRequests))))
  {
    OneMoreTurn(e, a, AwaitDrainCall, target, 0);
    OneMoreTurn(e, a, AwaitDrainCall, target, 1);
    NoFaultsGrow(1);
  }

  /** A poll whose pause is rejected reports an incomplete drain. */
  lemma PollSurvivesRejection(e: EngineState, a: AdapterState, target: UpdateTarget)
    requires !a.drainCompleted && a.at == Entry
    ensures Ends(e, a, AwaitDrainCall, target, [true, false], e, a, GotDrain(DrainEvidence(false, Some(e.activeRequests))))
  {
    FaultTurn(e, a, AwaitDrainCall, target, 0);
    assert FaultAt(0) == [true] && [true, false][..1] == [true] && FaultAt(0) + [false] == [true, false];
    TurnsExtend(e, a, AwaitDrainCall, target, FaultAt(0), false);
  }

  /** Once completed a drain stays so, and the poll reports whatever count it reads. */
  lemma PollRemembers(e: EngineState, a: AdapterState, target: UpdateTarget)
    requires a.drainCompleted && a.at == Entry
    ensures Ends(e, a, AwaitDrainCall, target, NoFaults(2), e, a, GotDrain(DrainEvidence(true, Some(e.activeRequests))))
  {
    OneMoreTurn(e, a, AwaitDrainCall, target, 0);
    OneMoreTurn(e, a, AwaitDrainCall, target, 1);
    NoFaultsGrow(1);
  }

  // Updating.

  lemma StartFails(e: EngineState, a: AdapterState, target: UpdateTarget)
    requires a.at == Entry
    ensures Ends(e, a, StartCall, target, FaultAt(0), e, a, ForeignError)
    ensures e.updateSessionOpen ==> Ends(e, a, StartCall, target, NoFaults(1), e, a, ForeignError)
  {
    FaultTurn(e, a, StartCall, target, 0);
    OneMoreTurn(e, a, StartCall, target, 0);
    NoFaultsGrow(0);
  }

  /** The j-th chunk is rejected: nothing counts as loaded. */
  lemma ChunkFails(e: EngineState, a: AdapterState, target: UpdateTarget, j: nat)
    requires e.updateSessionOpen && a.at == Entry && j < a.chunks
    ensures Ends(e, a, CompleteCall, target, FaultAt(j), e.(epoch := e.epoch + j), a,
                 GotUpdate(UpdateEvidence(target, false, false, false, None)))
  {
    ChunksSent(e, a, target, j);
    FaultTurn(e, a, CompleteCall, target, j);
  }

  /** Without a session the first chunk fails. */
  lemma ChunkNeedsASession(e: EngineState, a: AdapterState, target: UpdateTarget)
    requires !e.updateSessionOpen && a.at == Entry && a.chunks > 0
    ensures Ends(e, a, CompleteCall, target, NoFaults(1), e, a, GotUpdate(UpdateEvidence(target, false, false, false, None)))
  {
    OneMoreTurn(e, a, CompleteCall, target, 0);
    NoFaultsGrow(0);
  }

  lemma FinishFails(e: EngineState, a: AdapterState, target: UpdateTarget, fault: bool)
    requires a.at.Finish? && (fault || !e.updateSessionOpen) && e.weightIdentity == Some(target.identity)
    ensures var t := CompleteTurn(e, a, target, fault);
      && SameButLog(e, t.e) && t.a == a.(at := Entry)
      && t.reply == Some(GotUpdate(UpdateEvidence(target, true, false, true, Some(target.identity))))
  {
  }

  /** The finalize is rejected: the weights are the target's, the label is not, and the session stays open. */
  lemma FinalizeFails(e: EngineState, a: AdapterState, target: UpdateTarget)
    requires e.updateSessionOpen && a.at == Entry
    ensures Ends(e, a, CompleteCall, target, FaultAt(a.chunks + 1),
                 e.(weightIdentity := Some(target.identity), epoch := e.epoch + a.chunks + 1), a,
                 GotUpdate(UpdateEvidence(target, true, false, true, Some(target.identity))))
  {
    var n := a.chunks;
    ChunksSent(e, a, target, n);
    var t := Turns(e, a, CompleteCall, target, NoFaults(n));
    OneMoreTurn(e, a, CompleteCall, target, n);
    LastChunkAssigns(t.e, t.a, target);
    var u := Turns(e, a, CompleteCall, target, NoFaults(n + 1));
    FaultTurn(e, a, CompleteCall, target, n + 1);
    FinishFails(u.e, u.a, target, true);
  }

  /** Whoever staged what the engine holds by then: the report names that, and whether the finalize took. */
  lemma FinishReportsTheEngine(e: EngineState, a: AdapterState, target: UpdateTarget, fault: bool)
    requires a.at.Finish?
    ensures CompleteTurn(e, a, target, fault).reply
      == Some(GotUpdate(UpdateEvidence(target, true, !fault && e.updateSessionOpen, true, e.weightIdentity)))
  {
  }

  // Invalidating.

  /** A cache that was filled again after its reset is not reported as reset. */
  lemma InvalidationReportsTheEngine(e: EngineState, a: AdapterState, fault: bool)
    requires a.at.ReadDirty?
    ensures InvalidateTurn(e, a, fault).reply
      == Some(GotInvalidate(InvalidateEvidence(a.at.prefixOk, !e.encoderDirty, !e.mmDirty)))
  {
  }

  /** Blocks are held: the prefix cache stays and is reported, the others are dropped all the same. */
  lemma HeldBlocksAreReported(e: EngineState, a: AdapterState, target: UpdateTarget)
    requires !e.prefixResetSucceeds && a.at == Entry
    ensures Ends(e, a, InvalidateCall, target, NoFaults(4),
                 e.(encoderDirty := false, mmDirty := false, encoderFrom := {}, mmFrom := {}), a,
                 GotInvalidate(InvalidateEvidence(false, true, true)))
  {
    OneMoreTurn(e, a, InvalidateCall, target, 0);
    OneMoreTurn(e, a, InvalidateCall, target, 1);
    var t := Turns(e, a, InvalidateCall, target, NoFaults(2));
    assert SameButLog(e.(encoderDirty := false, encoderFrom := {}), t.e) && t.a == a.(at := Mm(false)) && t.reply.None?;
    OneMoreTurn(e, a, InvalidateCall, target, 2);
    OneMoreTurn(e, a, InvalidateCall, target, 3);
    NoFaultsGrow(3);
  }

  /** A rejected reset ends the call with an error, the caches before it dropped. */
  lemma ResetsFail(e: EngineState, a: AdapterState, target: UpdateTarget)
    requires e.prefixResetSucceeds && a.at == Entry
    ensures Ends(e, a, InvalidateCall, target, FaultAt(0), e, a, ForeignError)
    ensures Ends(e, a, InvalidateCall, target, FaultAt(1), e.(prefixDirty := false, prefixFrom := {}), a, ForeignError)
    ensures Ends(e, a, InvalidateCall, target, FaultAt(2),
                 e.(prefixDirty := false, encoderDirty := false, prefixFrom := {}, encoderFrom := {}), a, ForeignError)
  {
    FaultTurn(e, a, InvalidateCall, target, 0);
    OneMoreTurn(e, a, InvalidateCall, target, 0);
    FaultTurn(e, a, InvalidateCall, target, 1);
    ResetsInOrder(e, a, target);
    FaultTurn(e, a, InvalidateCall, target, 2);
  }

  // Validating and resuming.

  /** Validation reports what the engine shows, whatever that is. */
  lemma ValidationReportsWhatItSees(e: EngineState, a: AdapterState, target: UpdateTarget)
    requires a.at == Entry
    ensures Ends(e, a, ValidateCall, target, NoFaults(3), e, a,
                 GotValidate(ValidateEvidence(
                   target, e.weightVersion, e.pauseState != UNPAUSED, !e.prefixDirty && !e.encoderDirty && !e.mmDirty)))
  {
    OneMoreTurn(e, a, ValidateCall, target, 0);
    OneMoreTurn(e, a, ValidateCall, target, 1);
    OneMoreTurn(e, a, ValidateCall, target, 2);
    NoFaultsGrow(2);
  }

  lemma ValidationReadsFail(e: EngineState, a: AdapterState, target: UpdateTarget)
    requires a.at == Entry
    ensures Ends(e, a, ValidateCall, target, FaultAt(0), e, a, ForeignError)
    ensures Ends(e, a, ValidateCall, target, FaultAt(1), e, a, ForeignError)
  {
    FaultTurn(e, a, ValidateCall, target, 0);
    OneMoreTurn(e, a, ValidateCall, target, 0);
    FaultTurn(e, a, ValidateCall, target, 1);
  }

  /** A rejected resume is reported with what the engine then shows. */
  lemma ResumeIsRejected(e: EngineState, a: AdapterState, target: UpdateTarget)
    requires a.at == Entry
    ensures Ends(e, a, ResumeCall, target, [true, false, false], e, a,
                 GotResume(ResumeEvidence(target, false, e.pauseState != UNPAUSED, Some(e.weightVersion))))
  {
    FaultTurn(e, a, ResumeCall, target, 0);
    assert FaultAt(0) == [true] && [true] + [false] == [true, false] && [true, false] + [false] == [true, false, false];
    TurnsExtend(e, a, ResumeCall, target, [true], false);
    TurnsExtend(e, a, ResumeCall, target, [true, false], false);
    assert [true, false, false][..2] == [true, false];
  }

  /** A read that fails after a resume that went through is an error on an engine that serves. */
  lemma ReadsAfterResumeFail(e: EngineState, a: AdapterState, target: UpdateTarget)
    requires a.at == Entry
    ensures Ends(e, a, ResumeCall, target, FaultAt(1), e.(pauseState := UNPAUSED, pauseMode := None), a, ForeignError)
    ensures Ends(e, a, ResumeCall, target, FaultAt(2), e.(pauseState := UNPAUSED, pauseMode := None), a, ForeignError)
  {
    OneMoreTurn(e, a, ResumeCall, target, 0);
    FaultTurn(e, a, ResumeCall, target, 1);
    OneMoreTurn(e, a, ResumeCall, target, 1);
    FaultTurn(e, a, ResumeCall, target, 2);
  }

  // Bootstrapping.

  /** No weights to name, or somebody else's label: refused before anything is written. */
  lemma LooksRefuse(e: EngineState, a: AdapterState)
    requires a.at == Entry
    ensures e.weightIdentity.None? ==> Ends(e, a, BootstrapCall, NO_TARGET, NoFaults(1), e, a, ForeignError)
    ensures e.weightIdentity.Some? && IsManaged(e.weightVersion) ==>
      Ends(e, a, BootstrapCall, NO_TARGET, NoFaults(1), e, a, CoreError)
    ensures Ends(e, a, BootstrapCall, NO_TARGET, FaultAt(0), e, a, ForeignError)
  {
    OneMoreTurn(e, a, BootstrapCall, NO_TARGET, 0);
    FaultTurn(e, a, BootstrapCall, NO_TARGET, 0);
    NoFaultsGrow(0);
  }

  /** A bootstrap rejected before the seed leaves the label alone, one rejected after it does not take it back. */
  lemma BootstrapFails(e: EngineState, a: AdapterState)
    requires e.weightIdentity.Some? && !IsManaged(e.weightVersion) && a.at == Entry
    ensures Ends(e, a, BootstrapCall, NO_TARGET, FaultAt(1), e, a, ForeignError)
    ensures Ends(e, a, BootstrapCall, NO_TARGET, FaultAt(2), e.(weightTransferInitialised := true), a, ForeignError)
  {
    OneMoreTurn(e, a, BootstrapCall, NO_TARGET, 0);
    FaultTurn(e, a, BootstrapCall, NO_TARGET, 1);
    OneMoreTurn(e, a, BootstrapCall, NO_TARGET, 1);
    FaultTurn(e, a, BootstrapCall, NO_TARGET, 2);
  }

  lemma SeededBootstrapFails(e: EngineState, a: AdapterState)
    requires e.weightIdentity.Some? && !IsManaged(e.weightVersion) && a.at == Entry
    ensures var f := e.(weightTransferInitialised := true, weightVersion := INITIAL_VERSION.Label());
      && Ends(e, a, BootstrapCall, NO_TARGET, FaultAt(3), f, a, ForeignError)
      && Ends(e, a, BootstrapCall, NO_TARGET, FaultAt(4), f, a, ForeignError)
  {
    BootstrapSeeds(e, a);
    FaultTurn(e, a, BootstrapCall, NO_TARGET, 3);
    OneMoreTurn(e, a, BootstrapCall, NO_TARGET, 3);
    FaultTurn(e, a, BootstrapCall, NO_TARGET, 4);
  }

  // ------------------------------------------------------------ the order of the accesses

  /** The call, nobody rejecting anything, has reached the engine through exactly these endpoints by its n-th access. */
  predicate Reached(e: EngineState, a: AdapterState, call: Call, target: UpdateTarget, n: nat, names: seq<Endpoint>) {
    Turns(e, a, call, target, NoFaults(n)).e.calls == e.calls + names
  }

  /** Look, initialise, seed, read back, count workers. */
  lemma BootstrapAccesses(e: EngineState, a: AdapterState)
    requires e.weightIdentity.Some? && !IsManaged(e.weightVersion) && a.at == Entry
    ensures Reached(e, a, BootstrapCall, NO_TARGET, 5, [ReadVersion, InitWeightTransfer, WriteVersion, ReadVersion, ReadWorldSize])
  {
    OneMoreTurn(e, a, BootstrapCall, NO_TARGET, 0);
    OneMoreTurn(e, a, BootstrapCall, NO_TARGET, 1);
    OneMoreTurn(e, a, BootstrapCall, NO_TARGET, 2);
    OneMoreTurn(e, a, BootstrapCall, NO_TARGET, 3);
    OneMoreTurn(e, a, BootstrapCall, NO_TARGET, 4);
  }

  lemma DrainAccesses(e: EngineState, a: AdapterState, target: UpdateTarget)
    requires a.at == Entry
    ensures Reached(e, a, BeginDrainCall, target, 1, [PausePost])
    ensures Reached(e, a, AwaitDrainCall, target, 2, if a.drainCompleted then [] else [PausePost])
    ensures Reached(e, a, StartCall, target, 1, [StartPost])
  {
    OneMoreTurn(e, a, BeginDrainCall, target, 0);
    OneMoreTurn(e, a, AwaitDrainCall, target, 0);
    OneMoreTurn(e, a, AwaitDrainCall, target, 1);
    OneMoreTurn(e, a, StartCall, target, 0);
  }

  lemma ChunkPosts(e: EngineState, a: AdapterState, target: UpdateTarget)
    requires !a.at.Finish? && ChunksDone(a.at) < a.chunks
    ensures CompleteTurn(e, a, target, false).e.calls == e.calls + [UpdatePost]
  {
  }

  /** One post a chunk. */
  lemma {:induction false} ChunkAccesses(e: EngineState, a: AdapterState, target: UpdateTarget, n: nat)
    requires e.updateSessionOpen && a.at == Entry && n <= a.chunks
    ensures Reached(e, a, CompleteCall, target, n, seq(n, _ => UpdatePost))
  {
    if n > 0 {
      ChunkAccesses(e, a, target, n - 1);
      ChunksSent(e, a, target, n - 1);
      var t := Turns(e, a, CompleteCall, target, NoFaults(n - 1));
      ChunkPosts(t.e, t.a, target);
      OneMoreTurn(e, a, CompleteCall, target, n - 1);
      assert seq(n, _ => UpdatePost) == seq(n - 1, _ => UpdatePost) + [UpdatePost];
    }
  }

  lemma AssigningPostsNothing(e: EngineState, a: AdapterState, target: UpdateTarget)
    requires !a.at.Finish? && ChunksDone(a.at) == a.chunks
    ensures var t := CompleteTurn(e, a, target, false);
      t.e.calls == e.calls && t.a.at.Finish? && t.reply.None?
  {
  }

  lemma FinishPosts(e: EngineState, a: AdapterState, target: UpdateTarget)
    requires a.at.Finish?
    ensures CompleteTurn(e, a, target, false).e.calls == e.calls + [FinishPost]
  {
  }

  /** Then the finalize; the identity is assigned without a call. */
  lemma CompletionAccesses(e: EngineState, a: AdapterState, target: UpdateTarget)
    requires e.updateSessionOpen && a.at == Entry
    ensures Reached(e, a, CompleteCall, target, a.chunks + 2, seq(a.chunks, _ => UpdatePost) + [FinishPost])
  {
    var n := a.chunks;
    ChunkAccesses(e, a, target, n);
    ChunksSent(e, a, target, n);
    var t := Turns(e, a, CompleteCall, target, NoFaults(n));
    OneMoreTurn(e, a, CompleteCall, target, n);
    AssigningPostsNothing(t.e, t.a, target);
    var u := Turns(e, a, CompleteCall, target, NoFaults(n + 1));
    OneMoreTurn(e, a, CompleteCall, target, n + 1);
    FinishPosts(u.e, u.a, target);
  }

  lemma InvalidationAccesses(e: EngineState, a: AdapterState, target: UpdateTarget)
    requires a.at == Entry
    ensures Reached(e, a, InvalidateCall, target, 3, [ResetPrefixPost, ResetEncoderPost, ResetMmPost])
  {
    OneMoreTurn(e, a, InvalidateCall, target, 0);
    OneMoreTurn(e, a, InvalidateCall, target, 1);
    OneMoreTurn(e, a, InvalidateCall, target, 2);
  }

  lemma ReadingAccesses(e: EngineState, a: AdapterState, target: UpdateTarget)
    requires a.at == Entry
    ensures Reached(e, a, ValidateCall, target, 3, [ReadVersion, ReadPaused])
    ensures Reached(e, a, ResumeCall, target, 3, [ResumePost, ReadPaused, ReadVersion])
  {
    OneMoreTurn(e, a, ValidateCall, target, 0);
    OneMoreTurn(e, a, ValidateCall, target, 1);
    OneMoreTurn(e, a, ValidateCall, target, 2);
    OneMoreTurn(e, a, ResumeCall, target, 0);
    OneMoreTurn(e, a, ResumeCall, target, 1);
    OneMoreTurn(e, a, ResumeCall, target, 2);
  }
}
