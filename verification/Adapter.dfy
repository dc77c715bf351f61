/** The fake adapter: each port method as a sequence of single engine accesses. */
module Adapter {
  import opened Prelude
  import opened Labels
  import opened Identity
  import opened Evidence
  import opened Engine
  import opened Runner

  /** Where an adapter method stands between two engine accesses. */
  datatype Place =
    | Entry
    | Looked(seen: string, identity: WeightIdentity)
    | Seeding(seen: string, identity: WeightIdentity)
    | Written(seen: string, identity: WeightIdentity)
    | Observed(seen: string, identity: WeightIdentity, written: string)
    | ReadActive(completed: bool)
    | Chunk(done: nat)
    | Finish
    | Encoder(prefixOk: bool)
    | Mm(prefixOk: bool)
    | ReadDirty(prefixOk: bool)
    | AskPaused(reported: string)
    | ReadClean(reported: string, paused: bool)
    | ResumedAskPaused(acknowledged: bool)
    | ResumedAskLabel(acknowledged: bool, paused: bool)

  datatype AdapterState = AdapterState(chunks: nat, drainCompleted: bool, at: Place)

  /** One access: the engine and adapter after it, and the method's result if it is over. */
  datatype Turn = Turn(e: EngineState, a: AdapterState, reply: Option<Reply>)

  function Onward(e: EngineState, a: AdapterState, at: Place): Turn {
    Turn(e, a.(at := at), None)
  }

  function Over(e: EngineState, a: AdapterState, reply: Reply): Turn {
    Turn(e, a.(at := Entry), Some(reply))
  }

  const DRIVER_NAME := "fake-in-process"

  /** Look before writing, then initialise, seed rc-0, read it back, report. */
  function BootstrapTurn(e: EngineState, a: AdapterState, fault: bool): Turn {
    if a.at.Looked? then
      var (f, ok) := InitTransfer(e, fault);
      if ok then Onward(f, a, Seeding(a.at.seen, a.at.identity)) else Over(f, a, ForeignError)
    else if a.at.Seeding? then
      var (f, ok) := UpdateVersion(e, INITIAL_VERSION.Label(), fault);
      if ok then Onward(f, a, Written(a.at.seen, a.at.identity)) else Over(f, a, ForeignError)
    else if a.at.Written? then
      var f := Logged(e, ReadVersion);
      if fault then Over(f, a, ForeignError) else Onward(f, a, Observed(a.at.seen, a.at.identity, e.weightVersion))
    else if a.at.Observed? then
      var f := Logged(e, ReadWorldSize);
      if fault then Over(f, a, ForeignError)
      else
        Over(f, a, GotBoot(BootstrapEvidence(
          a.at.written, e.weightTransferInitialised, Some(a.at.seen), a.at.identity, Some(DRIVER_NAME))))
    else LookTurn(e, a, fault)
  }

  /** Nothing has been written yet, and nothing will be if the engine is another controller's. */
  function LookTurn(e: EngineState, a: AdapterState, fault: bool): Turn {
    if e.weightIdentity.None? then Over(e, a, ForeignError)
    else
      var f := Logged(e, ReadVersion);
      if fault then Over(f, a, ForeignError)
      else if IsManaged(e.weightVersion) then Over(f, a, CoreError)
      else Onward(f, a, Looked(e.weightVersion, e.weightIdentity.value))
  }

  function BeginDrainTurn(e: EngineState, a: AdapterState, fault: bool): Turn {
    var (f, ok) := Pause(e, Wait, false, fault);
    Over(f, a.(drainCompleted := ok), Acked)
  }

  function AwaitDrainTurn(e: EngineState, a: AdapterState, fault: bool): Turn {
    if a.at.ReadActive? then Over(e, a, GotDrain(DrainEvidence(a.at.completed, Some(e.activeRequests))))
    else if a.drainCompleted then Onward(e, a, ReadActive(true))
    else
      var (f, ok) := Pause(e, Wait, false, fault);
      Onward(f, a.(drainCompleted := ok), ReadActive(ok))
  }

  function StartTurn(e: EngineState, a: AdapterState, fault: bool): Turn {
    var (f, ok) := StartUpdate(e, fault);
    Over(f, a, if ok then Acked else ForeignError)
  }

  function ChunksDone(at: Place): nat {
    if at.Chunk? then at.done else 0
  }

  function CompleteTurn(e: EngineState, a: AdapterState, target: UpdateTarget, fault: bool): Turn {
    if a.at.Finish? then
      var (f, ok) := FinishUpdate(e, Some(target.Label()), fault);
      Over(f, a, GotUpdate(UpdateEvidence(target, true, ok, true, f.weightIdentity)))
    else if ChunksDone(a.at) < a.chunks then
      var (f, ok) := UpdateWeights(e, fault);
      if ok then Onward(f, a, Chunk(ChunksDone(a.at) + 1))
      else Over(f, a, GotUpdate(UpdateEvidence(target, false, false, false, None)))
    else Onward(AssignIdentity(e, target.identity), a, Finish)
  }

  function InvalidateTurn(e: EngineState, a: AdapterState, fault: bool): Turn {
    if a.at.Encoder? then
      var (f, ok) := ResetEncoder(e, fault);
      if ok then Onward(f, a, Mm(a.at.prefixOk)) else Over(f, a, ForeignError)
    else if a.at.Mm? then
      var (f, ok) := ResetMm(e, fault);
      if ok then Onward(f, a, ReadDirty(a.at.prefixOk)) else Over(f, a, ForeignError)
    else if a.at.ReadDirty? then
      Over(e, a, GotInvalidate(InvalidateEvidence(a.at.prefixOk, !e.encoderDirty, !e.mmDirty)))
    else
      var (f, reset) := ResetPrefix(e, fault);
      if reset.Some? then Onward(f, a, Encoder(reset.value)) else Over(f, a, ForeignError)
  }

  function ValidateTurn(e: EngineState, a: AdapterState, target: UpdateTarget, fault: bool): Turn {
    if a.at.AskPaused? then
      var f := Logged(e, ReadPaused);
      if fault then Over(f, a, ForeignError) else Onward(f, a, ReadClean(a.at.reported, e.Paused()))
    else if a.at.ReadClean? then
      Over(e, a, GotValidate(
        ValidateEvidence(target, a.at.reported, a.at.paused, !(e.prefixDirty || e.encoderDirty || e.mmDirty))))
    else
      var f := Logged(e, ReadVersion);
      if fault then Over(f, a, ForeignError) else Onward(f, a, AskPaused(e.weightVersion))
  }

  function ResumeTurn(e: EngineState, a: AdapterState, target: UpdateTarget, fault: bool): Turn {
    if a.at.ResumedAskPaused? then
      var f := Logged(e, ReadPaused);
      if fault then Over(f, a, ForeignError) else Onward(f, a, ResumedAskLabel(a.at.acknowledged, e.Paused()))
    else if a.at.ResumedAskLabel? then
      var f := Logged(e, ReadVersion);
      if fault then Over(f, a, ForeignError)
      else Over(f, a, GotResume(ResumeEvidence(target, a.at.acknowledged, a.at.paused, Some(e.weightVersion))))
    else
      var (f, ok) := Resume(e, fault);
      Onward(f, a, ResumedAskPaused(ok))
  }

  function TakeTurn(e: EngineState, a: AdapterState, call: Call, target: UpdateTarget, fault: bool): Turn {
    match call
    case BootstrapCall => BootstrapTurn(e, a, fault)
    case BeginDrainCall => BeginDrainTurn(e, a, fault)
    case AwaitDrainCall => AwaitDrainTurn(e, a, fault)
    case StartCall => StartTurn(e, a, fault)
    case CompleteCall => CompleteTurn(e, a, target, fault)
    case InvalidateCall => InvalidateTurn(e, a, fault)
    case ValidateCall => ValidateTurn(e, a, target, fault)
    case ResumeCall => ResumeTurn(e, a, target, fault)
  }

  lemma TurnsFitThePort(e: EngineState, a: AdapterState, call: Call, target: UpdateTarget, fault: bool)
    ensures var t := TakeTurn(e, a, call, target, fault);
      && (t.reply.Some? ==> Fits(call, t.reply.value) && t.a.at == Entry)
      && t.a.chunks == a.chunks
  {
    if call.BootstrapCall? {
    } else if call.InvalidateCall? {
    } else if call.ResumeCall? || call.ValidateCall? {
    } else {
    }
  }

  // ------------------------------------------------------- what accesses leave alone

  /** Neither the weights, nor their label, nor the transfer engine. */
  predicate KeepsWeights(e: EngineState, f: EngineState) {
    && f.weightVersion == e.weightVersion && f.epoch == e.epoch
    && f.weightTransferInitialised == e.weightTransferInitialised
  }

  lemma DrainKeepsWeights(e: EngineState, a: AdapterState, fault: bool)
    ensures KeepsWeights(e, BeginDrainTurn(e, a, fault).e)
    ensures KeepsWeights(e, AwaitDrainTurn(e, a, fault).e)
  {
  }

  lemma ResetsKeepWeights(e: EngineState, fault: bool)
    ensures KeepsWeights(e, ResetPrefix(e, fault).0)
    ensures KeepsWeights(e, ResetEncoder(e, fault).0)
    ensures KeepsWeights(e, ResetMm(e, fault).0)
  {
  }

  lemma InvalidationKeepsWeights(e: EngineState, a: AdapterState, fault: bool)
    ensures KeepsWeights(e, InvalidateTurn(e, a, fault).e)
  {
    ResetsKeepWeights(e, fault);
    var f := InvalidateTurn(e, a, fault).e;
    assert f == e || f == ResetPrefix(e, fault).0 || f == ResetEncoder(e, fault).0 || f == ResetMm(e, fault).0;
  }

  lemma ValidationKeepsWeights(e: EngineState, a: AdapterState, target: UpdateTarget, fault: bool)
    ensures KeepsWeights(e, ValidateTurn(e, a, target, fault).e)
  {
    var f := ValidateTurn(e, a, target, fault).e;
    assert f == e || f == Logged(e, ReadVersion) || f == Logged(e, ReadPaused);
  }

  lemma ResumeKeepsWeights(e: EngineState, a: AdapterState, target: UpdateTarget, fault: bool)
    ensures KeepsWeights(e, ResumeTurn(e, a, target, fault).e)
  {
    var f := ResumeTurn(e, a, target, fault).e;
    assert f == Resume(e, fault).0 || f == Logged(e, ReadVersion) || f == Logged(e, ReadPaused);
  }

  lemma FinalizeWrites(e: EngineState, written: string, fault: bool)
    requires written != ""
    ensures var f := FinishUpdate(e, Some(written), fault).0;
      && f.weightTransferInitialised == e.weightTransferInitialised
      && f.weightVersion in {e.weightVersion, written}
  {
  }

  lemma LoadingKeepsTheLabel(e: EngineState, identity: WeightIdentity, fault: bool)
    ensures var f := UpdateWeights(e, fault).0;
      f.weightTransferInitialised == e.weightTransferInitialised && f.weightVersion == e.weightVersion
    ensures var f := AssignIdentity(e, identity);
      f.weightTransferInitialised == e.weightTransferInitialised && f.weightVersion == e.weightVersion
  {
  }

  lemma CompletionWritesTheTarget(e: EngineState, a: AdapterState, target: UpdateTarget, fault: bool)
    ensures var f := CompleteTurn(e, a, target, fault).e;
      && f.weightTransferInitialised == e.weightTransferInitialised
      && (f.weightVersion != e.weightVersion ==> a.at.Finish? && f.weightVersion == target.Label())
  {
    var f := CompleteTurn(e, a, target, fault).e;
    if a.at.Finish? {
      LabelRoundTrip(target.version);
      FinalizeWrites(e, target.Label(), fault);
      assert f == FinishUpdate(e, Some(target.Label()), fault).0;
    } else {
      LoadingKeepsTheLabel(e, target.identity, fault);
      assert f == UpdateWeights(e, fault).0 || f == AssignIdentity(e, target.identity);
    }
  }

  lemma SeedWrites(e: EngineState, written: string, fault: bool)
    ensures var f := UpdateVersion(e, written, fault).0;
      && f.epoch == e.epoch && f.weightTransferInitialised == e.weightTransferInitialised
      && f.weightVersion in {e.weightVersion, written}
    ensures var f := InitTransfer(e, fault).0;
      && f.epoch == e.epoch && (e.weightTransferInitialised ==> f.weightTransferInitialised)
      && f.weightVersion == e.weightVersion
  {
  }

  lemma BootstrapWritesTheSeed(e: EngineState, a: AdapterState, fault: bool)
    ensures var f := BootstrapTurn(e, a, fault).e;
      && f.epoch == e.epoch && (e.weightTransferInitialised ==> f.weightTransferInitialised)
      && (f.weightVersion != e.weightVersion ==> a.at.Seeding? && f.weightVersion == INITIAL_VERSION.Label())
  {
    SeedWrites(e, INITIAL_VERSION.Label(), fault);
    var f := BootstrapTurn(e, a, fault).e;
    if a.at.Looked? {
      assert f == InitTransfer(e, fault).0;
    } else if a.at.Seeding? {
      assert f == UpdateVersion(e, INITIAL_VERSION.Label(), fault).0;
    } else {
      assert f == e || f == Logged(e, ReadVersion) || f == Logged(e, ReadWorldSize);
    }
  }

  /**
    * Labels are written by a finalize, which writes its target's, and by a seed; weights change
    * only while a transfer is being completed; an initialised transfer engine stays so.
    */
  lemma AccessesWriteLittle(e: EngineState, a: AdapterState, call: Call, target: UpdateTarget, fault: bool)
    ensures var f := TakeTurn(e, a, call, target, fault).e;
      && (e.weightTransferInitialised ==> f.weightTransferInitialised)
      && (f.epoch != e.epoch ==> call.CompleteCall?)
      && (f.weightVersion != e.weightVersion ==>
            || (call.CompleteCall? && a.at.Finish? && f.weightVersion == target.Label())
            || (call.BootstrapCall? && a.at.Seeding? && f.weightVersion == INITIAL_VERSION.Label()))
  {
    match call {
      case BootstrapCall => BootstrapWritesTheSeed(e, a, fault);
      case BeginDrainCall => DrainKeepsWeights(e, a, fault);
      case AwaitDrainCall => DrainKeepsWeights(e, a, fault);
      case StartCall =>
      case CompleteCall => CompletionWritesTheTarget(e, a, target, fault);
      case InvalidateCall => InvalidationKeepsWeights(e, a, fault);
      case ValidateCall => ValidationKeepsWeights(e, a, target, fault);
      case ResumeCall => ResumeKeepsWeights(e, a, target, fault);
    }
  }
}
