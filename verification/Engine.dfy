/** The in-memory engine: endpoint semantics as functions, and the object that runs them. */
module Engine {
  import opened Prelude
  import opened Identity

  /** The development endpoints, by which calls are logged and faults injected. */
  datatype Endpoint =
    | InitWeightTransfer | WriteVersion | PausePost | ResumePost | StartPost | UpdatePost | FinishPost
    | ResetPrefixPost | ResetEncoderPost | ResetMmPost | ReadVersion | ReadWorldSize | ReadPaused

  datatype PauseState = UNPAUSED | PAUSED_NEW | PAUSED_ALL
  datatype PauseMode = Abort | Wait | Keep

  /**
    * The engine's observable state plus its history: `epoch` counts the mutations of the weights,
    * and each cache remembers the epochs that produced its entries.
    */
  datatype EngineState = EngineState(
    weightVersion: string,
    weightIdentity: Option<WeightIdentity>,
    pauseState: PauseState,
    pauseMode: Option<PauseMode>,
    activeRequests: nat,
    prefixDirty: bool,
    encoderDirty: bool,
    mmDirty: bool,
    prefixResetSucceeds: bool,
    weightTransferInitialised: bool,
    updateSessionOpen: bool,
    calls: seq<Endpoint>,
    epoch: nat,
    prefixFrom: set<nat>,
    encoderFrom: set<nat>,
    mmFrom: set<nat>)
  {
    predicate Paused() {
      pauseState != UNPAUSED
    }

    /** Nothing runs and nothing new is admitted. */
    predicate Quiet() {
      pauseState == PAUSED_NEW && activeRequests == 0
    }

    /** Some request can be stepped: new work is admitted, or a drain still has work to finish. */
    predicate CanStep() {
      pauseState == UNPAUSED || (pauseState == PAUSED_NEW && activeRequests > 0)
    }

    /** Every cache entry was produced by the weights the engine holds now. */
    predicate Coherent() {
      OnlyFrom(prefixFrom, epoch) && OnlyFrom(encoderFrom, epoch) && OnlyFrom(mmFrom, epoch)
    }

    predicate Clean() {
      prefixFrom == {} && encoderFrom == {} && mmFrom == {}
    }

    /** The dirty flags never under-report. */
    predicate FlagsHonest() {
      && (prefixFrom != {} ==> prefixDirty)
      && (encoderFrom != {} ==> encoderDirty)
      && (mmFrom != {} ==> mmDirty)
    }

    predicate Holds(t: UpdateTarget) {
      weightVersion == t.Label() && weightIdentity == Some(t.identity)
    }
  }

  predicate OnlyFrom(sources: set<nat>, epoch: nat) {
    forall k :: k in sources ==> k == epoch
  }

  // ------------------------------------------------------------------- endpoints

  /** Every endpoint logs its name first; `fault` says whether the call is then rejected. */
  function Logged(e: EngineState, name: Endpoint): EngineState {
    e.(calls := e.calls + [name])
  }

  /** The second component is false when the engine raised. */
  function InitTransfer(e: EngineState, fault: bool): (EngineState, bool) {
    var f := Logged(e, InitWeightTransfer);
    if fault then (f, false) else (f.(weightTransferInitialised := true), true)
  }

  function UpdateVersion(e: EngineState, written: string, fault: bool): (EngineState, bool) {
    var f := Logged(e, WriteVersion);
    if fault then (f, false) else (f.(weightVersion := written), true)
  }

  /** All three caches dropped at once. */
  function Cleared(e: EngineState): EngineState {
    e.(prefixDirty := false, encoderDirty := false, mmDirty := false, prefixFrom := {}, encoderFrom := {}, mmFrom := {})
  }

  /** The pause is set first; only then does the caller learn whether running work is done. */
  function Pause(e: EngineState, mode: PauseMode, clearCache: bool, fault: bool): (EngineState, bool) {
    var f := Logged(e, PausePost);
    if fault then (f, false)
    else
      match mode
      case Keep => (f.(pauseMode := Some(Keep), pauseState := PAUSED_ALL), true)
      case Wait =>
        var g := f.(pauseMode := Some(Wait), pauseState := PAUSED_NEW);
        if e.activeRequests > 0 then (g, false) else (if clearCache then Cleared(g) else g, true)
      case Abort =>
        var g := f.(pauseMode := Some(Abort), pauseState := PAUSED_NEW, activeRequests := 0);
        (if clearCache then Cleared(g) else g, true)
  }

  function Resume(e: EngineState, fault: bool): (EngineState, bool) {
    var f := Logged(e, ResumePost);
    if fault then (f, false) else (f.(pauseState := UNPAUSED, pauseMode := None), true)
  }

  function StartUpdate(e: EngineState, fault: bool): (EngineState, bool) {
    var f := Logged(e, StartPost);
    if fault || e.updateSessionOpen then (f, false) else (f.(updateSessionOpen := true), true)
  }

  /** One chunk of weights lands. */
  function UpdateWeights(e: EngineState, fault: bool): (EngineState, bool) {
    var f := Logged(e, UpdatePost);
    if fault || !e.updateSessionOpen then (f, false) else (f.(epoch := e.epoch + 1), true)
  }

  /** All chunks are in: the engine's memory now is the target's. */
  function AssignIdentity(e: EngineState, identity: WeightIdentity): EngineState {
    e.(weightIdentity := Some(identity), epoch := e.epoch + 1)
  }

  /** Commits the label and invalidates no cache. */
  function FinishUpdate(e: EngineState, written: Option<string>, fault: bool): (EngineState, bool) {
    var f := Logged(e, FinishPost);
    if fault || !e.updateSessionOpen then (f, false)
    else
      (f.(updateSessionOpen := false,
          weightVersion := if written.Some? && written.value != "" then written.value else e.weightVersion), true)
  }

  /** None when the engine raised; otherwise whether the reset took effect. */
  function ResetPrefix(e: EngineState, fault: bool): (EngineState, Option<bool>) {
    var f := Logged(e, ResetPrefixPost);
    if fault then (f, None)
    else if !e.prefixResetSucceeds then (f, Some(false))
    else (f.(prefixDirty := false, prefixFrom := {}), Some(true))
  }

  function ResetEncoder(e: EngineState, fault: bool): (EngineState, bool) {
    var f := Logged(e, ResetEncoderPost);
    if fault then (f, false) else (f.(encoderDirty := false, encoderFrom := {}), true)
  }

  function ResetMm(e: EngineState, fault: bool): (EngineState, bool) {
    var f := Logged(e, ResetMmPost);
    if fault then (f, false) else (f.(mmDirty := false, mmFrom := {}), true)
  }

  // ---------------------------------------------------------------- request progress

  /** Requests arrive, run and leave on their own; running one may fill any cache. */
  datatype Work =
    | Arrive
    | Run(fillPrefix: bool, fillEncoder: bool, fillMm: bool)
    | Leave
    | BlocksHeld(held: bool)

  function Progress(e: EngineState, w: Work): EngineState {
    match w
    case Arrive => if e.pauseState == UNPAUSED then e.(activeRequests := e.activeRequests + 1) else e
    case Run(p, n, m) =>
      if e.CanStep() && e.activeRequests > 0 then
        e.(prefixDirty := e.prefixDirty || p, prefixFrom := e.prefixFrom + (if p then {e.epoch} else {}),
           encoderDirty := e.encoderDirty || n, encoderFrom := e.encoderFrom + (if n then {e.epoch} else {}),
           mmDirty := e.mmDirty || m, mmFrom := e.mmFrom + (if m then {e.epoch} else {}))
      else e
    case Leave => if e.activeRequests > 0 && e.pauseState != PAUSED_ALL then e.(activeRequests := e.activeRequests - 1) else e
    case BlocksHeld(held) => e.(prefixResetSucceeds := !held)
  }

  // ------------------------------------------------------------------------ object

  class FakeVLLMEngine {
    var weightVersion: string
    var weightIdentity: Option<WeightIdentity>
    var pauseState: PauseState
    var pauseMode: Option<PauseMode>
    var activeRequests: nat
    var prefixDirty: bool
    var encoderDirty: bool
    var mmDirty: bool
    var prefixResetSucceeds: bool
    var weightTransferInitialised: bool
    var updateSessionOpen: bool
    var faults: set<Endpoint>
    var calls: seq<Endpoint>
    ghost var epoch: nat
    ghost var prefixFrom: set<nat>
    ghost var encoderFrom: set<nat>
    ghost var mmFrom: set<nat>

    ghost function View(): EngineState
      reads this
    {
      EngineState(
        weightVersion, weightIdentity, pauseState, pauseMode, activeRequests, prefixDirty, encoderDirty, mmDirty,
        prefixResetSucceeds, weightTransferInitialised, updateSessionOpen, calls, epoch, prefixFrom, encoderFrom, mmFrom)
    }

    /** A server that has just loaded its weights. */
    constructor SeedFreshWith(identity: WeightIdentity)
      ensures weightVersion == "default" && weightIdentity == Some(identity)
      ensures View().Coherent() && View().FlagsHonest() && pauseState == UNPAUSED && activeRequests == 0
      ensures faults == {} && calls == [] && !updateSessionOpen
    {
      weightVersion, weightIdentity := "default", Some(identity);
      pauseState, pauseMode, activeRequests := UNPAUSED, None, 0;
      prefixDirty, encoderDirty, mmDirty := true, true, true;
      prefixResetSucceeds, weightTransferInitialised, updateSessionOpen := true, false, false;
      faults, calls := {}, [];
      epoch, prefixFrom, encoderFrom, mmFrom := 0, {0}, {0}, {0};
    }

    method Call(name: Endpoint) returns (ok: bool)
      modifies this`calls
      ensures ok == (name !in faults) && View() == Logged(old(View()), name)
    {
      calls := calls + [name];
      ok := name !in faults;
    }

    method InitWeightTransferEngine() returns (ok: bool)
      modifies this
      ensures (View(), ok) == InitTransfer(old(View()), InitWeightTransfer in old(faults)) && faults == old(faults)
    {
      ok := Call(InitWeightTransfer);
      if ok && !weightTransferInitialised {
        weightTransferInitialised := true;
      }
    }

    method UpdateWeightVersion(newVersion: string) returns (ok: bool)
      modifies this
      ensures (View(), ok) == UpdateVersion(old(View()), newVersion, WriteVersion in old(faults)) && faults == old(faults)
    {
      ok := Call(WriteVersion);
      if ok {
        weightVersion := newVersion;
      }
    }

    method GetWeightInfo() returns (written: Option<string>)
      modifies this`calls
      ensures View() == Logged(old(View()), ReadVersion)
      ensures written == if ReadVersion in faults then None else Some(weightVersion)
    {
      var ok := Call(ReadVersion);
      written := if ok then Some(weightVersion) else None;
    }

    method GetWorldSize() returns (ok: bool)
      modifies this`calls
      ensures View() == Logged(old(View()), ReadWorldSize) && ok == (ReadWorldSize !in faults)
    {
      ok := Call(ReadWorldSize);
    }

    method IsPaused() returns (paused: Option<bool>)
      modifies this`calls
      ensures View() == Logged(old(View()), ReadPaused)
      ensures paused == if ReadPaused in faults then None else Some(View().Paused())
    {
      var ok := Call(ReadPaused);
      paused := if ok then Some(pauseState != UNPAUSED) else None;
    }

    method DropPrefix()
      modifies this`prefixDirty, this`prefixFrom
      ensures View() == old(View()).(prefixDirty := false, prefixFrom := {})
    {
      prefixDirty, prefixFrom := false, {};
    }

    method DropEncoder()
      modifies this`encoderDirty, this`encoderFrom
      ensures View() == old(View()).(encoderDirty := false, encoderFrom := {})
    {
      encoderDirty, encoderFrom := false, {};
    }

    method DropMm()
      modifies this`mmDirty, this`mmFrom
      ensures View() == old(View()).(mmDirty := false, mmFrom := {})
    {
      mmDirty, mmFrom := false, {};
    }

    method ClearCaches()
      modifies this
      ensures View() == Cleared(old(View())) && faults == old(faults)
    {
      DropPrefix();
      DropEncoder();
      DropMm();
    }

    method PauseEngine(mode: PauseMode, clearCache: bool) returns (ok: bool)
      modifies this
      ensures (View(), ok) == Pause(old(View()), mode, clearCache, PausePost in old(faults)) && faults == old(faults)
    {
      ok := Call(PausePost);
      if !ok {
        return;
      }
      pauseMode := Some(mode);
      if mode == Keep {
        pauseState := PAUSED_ALL;
        return;
      }
      pauseState := PAUSED_NEW;
      if mode == Abort {
        activeRequests := 0;
      } else if activeRequests > 0 {
        return false;
      }
      if clearCache {
        ClearCaches();
      }
    }

    method ResumeEngine() returns (ok: bool)
      modifies this
      ensures (View(), ok) == Resume(old(View()), ResumePost in old(faults)) && faults == old(faults)
    {
      ok := Call(ResumePost);
      if ok {
        pauseState := UNPAUSED;
        pauseMode := None;
      }
    }

    method StartWeightUpdate() returns (ok: bool)
      modifies this
      ensures (View(), ok) == StartUpdate(old(View()), StartPost in old(faults)) && faults == old(faults)
    {
      ok := Call(StartPost);
      if ok {
        if updateSessionOpen {
          return false;
        }
        updateSessionOpen := true;
      }
    }

    method UpdateWeightsChunk() returns (ok: bool)
      modifies this
      ensures (View(), ok) == UpdateWeights(old(View()), UpdatePost in old(faults)) && faults == old(faults)
    {
      ok := Call(UpdatePost);
      if ok {
        if !updateSessionOpen {
          return false;
        }
        epoch := epoch + 1;
      }
    }

    method SetIdentity(identity: WeightIdentity)
      modifies this
      ensures View() == AssignIdentity(old(View()), identity) && faults == old(faults)
    {
      weightIdentity := Some(identity);
      epoch := epoch + 1;
    }

    method FinishWeightUpdate(newVersion: Option<string>) returns (ok: bool)
      modifies this
      ensures (View(), ok) == FinishUpdate(old(View()), newVersion, FinishPost in old(faults)) && faults == old(faults)
    {
      ok := Call(FinishPost);
      if ok {
        if !updateSessionOpen {
          return false;
        }
        updateSessionOpen := false;
        if newVersion.Some? && newVersion.value != "" {
          weightVersion := newVersion.value;
        }
      }
    }

    method ResetPrefixCache() returns (reset: Option<bool>)
      modifies this
      ensures (View(), reset) == ResetPrefix(old(View()), ResetPrefixPost in old(faults)) && faults == old(faults)
    {
      var ok := Call(ResetPrefixPost);
      if !ok {
        return None;
      }
      if !prefixResetSucceeds {
        return Some(false);
      }
      prefixDirty := false;
      prefixFrom := {};
      reset := Some(true);
    }

    method ResetEncoderCache() returns (ok: bool)
      modifies this
      ensures (View(), ok) == ResetEncoder(old(View()), ResetEncoderPost in old(faults)) && faults == old(faults)
    {
      ok := Call(ResetEncoderPost);
      if ok {
        encoderDirty := false;
        encoderFrom := {};
      }
    }

    method ResetMmCache() returns (ok: bool)
      modifies this
      ensures (View(), ok) == ResetMm(old(View()), ResetMmPost in old(faults)) && faults == old(faults)
    {
      ok := Call(ResetMmPost);
      if ok {
        mmDirty := false;
        mmFrom := {};
      }
    }
  }
}
