/** The engine's endpoints by their inputs: what each accepts, what it refuses, what a rejected call leaves. */
module Endpoints {
  import opened Prelude
  import opened Engine

  /** The call was logged under this name, last. */
  predicate LoggedAs(e: EngineState, f: EngineState, name: Endpoint) {
    f.calls == e.calls + [name]
  }

  /** Every call is logged under its own name, whether it is rejected or not. */
  lemma PauseCallsAreLogged(e: EngineState, mode: PauseMode, clear: bool, fault: bool)
    ensures LoggedAs(e, Pause(e, mode, clear, fault).0, PausePost) && LoggedAs(e, Resume(e, fault).0, ResumePost)
  {
  }

  lemma UpdateCallsAreLogged(e: EngineState, written: string, fault: bool)
    ensures LoggedAs(e, InitTransfer(e, fault).0, InitWeightTransfer)
    ensures LoggedAs(e, UpdateVersion(e, written, fault).0, WriteVersion)
    ensures LoggedAs(e, StartUpdate(e, fault).0, StartPost) && LoggedAs(e, UpdateWeights(e, fault).0, UpdatePost)
    ensures LoggedAs(e, FinishUpdate(e, Some(written), fault).0, FinishPost)
  {
  }

  lemma ResetCallsAreLogged(e: EngineState, fault: bool)
    ensures LoggedAs(e, ResetPrefix(e, fault).0, ResetPrefixPost)
    ensures LoggedAs(e, ResetEncoder(e, fault).0, ResetEncoderPost)
    ensures LoggedAs(e, ResetMm(e, fault).0, ResetMmPost)
  {
  }

  /** A rejected call raises and leaves nothing but its trace in the log. */
  predicate OnlyLogs(e: EngineState, f: EngineState) {
    f == e.(calls := f.calls)
  }

  lemma RejectedCallsOnlyLog(e: EngineState, mode: PauseMode, clear: bool, written: Option<string>, name: string)
    ensures OnlyLogs(e, InitTransfer(e, true).0) && !InitTransfer(e, true).1
    ensures OnlyLogs(e, UpdateVersion(e, name, true).0) && !UpdateVersion(e, name, true).1
    ensures OnlyLogs(e, Pause(e, mode, clear, true).0) && !Pause(e, mode, clear, true).1
    ensures OnlyLogs(e, Resume(e, true).0) && !Resume(e, true).1
    ensures OnlyLogs(e, StartUpdate(e, true).0) && !StartUpdate(e, true).1
    ensures OnlyLogs(e, UpdateWeights(e, true).0) && !UpdateWeights(e, true).1
    ensures OnlyLogs(e, FinishUpdate(e, written, true).0) && !FinishUpdate(e, written, true).1
    ensures OnlyLogs(e, ResetPrefix(e, true).0) && ResetPrefix(e, true).1 == None
    ensures OnlyLogs(e, ResetEncoder(e, true).0) && !ResetEncoder(e, true).1
    ensures OnlyLogs(e, ResetMm(e, true).0) && !ResetMm(e, true).1
  {
  }

  /** The pause's own fields, and the caches, aside. */
  predicate OnlyPauses(e: EngineState, f: EngineState) {
    f == e.(calls := f.calls, pauseState := f.pauseState, pauseMode := f.pauseMode, activeRequests := f.activeRequests,
            prefixDirty := f.prefixDirty, encoderDirty := f.encoderDirty, mmDirty := f.mmDirty,
            prefixFrom := f.prefixFrom, encoderFrom := f.encoderFrom, mmFrom := f.mmFrom)
  }

  predicate SameCaches(e: EngineState, f: EngineState) {
    && f.prefixDirty == e.prefixDirty && f.encoderDirty == e.encoderDirty && f.mmDirty == e.mmDirty
    && f.prefixFrom == e.prefixFrom && f.encoderFrom == e.encoderFrom && f.mmFrom == e.mmFrom
  }

  predicate ReportsClean(e: EngineState) {
    !e.prefixDirty && !e.encoderDirty && !e.mmDirty && e.Clean()
  }

  /** Waiting raises while anything runs, yet admits nothing any more; it clears only when through, and only if asked. */
  lemma WaitingPause(e: EngineState, clear: bool)
    ensures var (f, ok) := Pause(e, Wait, clear, false);
      && OnlyPauses(e, f) && f.pauseState == PAUSED_NEW && f.pauseMode == Some(Wait)
      && f.activeRequests == e.activeRequests && ok == (e.activeRequests == 0)
      && (if ok && clear then ReportsClean(f) else SameCaches(e, f))
  {
  }

  /** Aborting ends what runs. */
  lemma AbortingPause(e: EngineState, clear: bool)
    ensures var (f, ok) := Pause(e, Abort, clear, false);
      && OnlyPauses(e, f) && f.pauseState == PAUSED_NEW && f.pauseMode == Some(Abort) && f.activeRequests == 0 && ok
      && (if clear then ReportsClean(f) else SameCaches(e, f))
  {
  }

  /** Keeping freezes it, and never clears. */
  lemma KeepingPause(e: EngineState, clear: bool)
    ensures var (f, ok) := Pause(e, Keep, clear, false);
      && OnlyPauses(e, f) && f.pauseState == PAUSED_ALL && f.pauseMode == Some(Keep)
      && f.activeRequests == e.activeRequests && ok && SameCaches(e, f) && !f.CanStep()
  {
  }

  /** Sessions: opened once, needed by chunks and finalize, closed by the finalize that commits the label. */
  lemma SessionsByInputs(e: EngineState, written: Option<string>)
    ensures var (f, ok) := StartUpdate(e, false);
      ok == !e.updateSessionOpen && f == e.(calls := f.calls, updateSessionOpen := true)
    ensures var (f, ok) := UpdateWeights(e, false);
      ok == e.updateSessionOpen && f == e.(calls := f.calls, epoch := if ok then e.epoch + 1 else e.epoch)
    ensures var (f, ok) := FinishUpdate(e, written, false);
      && ok == e.updateSessionOpen
      && f == e.(calls := f.calls, updateSessionOpen := false, weightVersion := f.weightVersion)
      && (ok && written.Some? && written.value != "" ==> f.weightVersion == written.value)
      && (!ok || written.None? || written.value == "" ==> f.weightVersion == e.weightVersion)
  {
  }

  /** A reset of the prefix cache that finds blocks held says so and drops nothing; the others always drop. */
  lemma ResetsByInputs(e: EngineState)
    ensures var (f, reset) := ResetPrefix(e, false);
      && reset == Some(e.prefixResetSucceeds) && f == e.(calls := f.calls, prefixDirty := f.prefixDirty, prefixFrom := f.prefixFrom)
      && (if e.prefixResetSucceeds then !f.prefixDirty && f.prefixFrom == {} else OnlyLogs(e, f))
    ensures var (f, ok) := ResetEncoder(e, false);
      ok && f == e.(calls := f.calls, encoderDirty := false, encoderFrom := {})
    ensures var (f, ok) := ResetMm(e, false);
      ok && f == e.(calls := f.calls, mmDirty := false, mmFrom := {})
  {
  }

  lemma OtherEndpointsByInputs(e: EngineState, written: string)
    ensures var (f, ok) := InitTransfer(e, false); ok && f == e.(calls := f.calls, weightTransferInitialised := true)
    ensures var (f, ok) := UpdateVersion(e, written, false); ok && f == e.(calls := f.calls, weightVersion := written)
    ensures var (f, ok) := Resume(e, false);
      ok && f == e.(calls := f.calls, pauseState := UNPAUSED, pauseMode := None)
  {
  }

  // ---------------------------------------------------------------- requests by themselves

  /** A pause that admits nothing new still lets running requests finish; a frozen engine does neither. */
  lemma StepsByInputs(e: EngineState)
    ensures e.activeRequests > 0 ==> (e.CanStep() <==> e.pauseState != PAUSED_ALL)
    ensures e.activeRequests == 0 ==> (e.CanStep() <==> e.pauseState == UNPAUSED)
  {
  }

  lemma RequestsComeAndGo(e: EngineState, held: bool)
    ensures Progress(e, Arrive) == e.(activeRequests := e.activeRequests + if e.pauseState == UNPAUSED then 1 else 0)
    ensures e.activeRequests > 0 && e.pauseState != PAUSED_ALL ==>
      Progress(e, Leave) == e.(activeRequests := e.activeRequests - 1)
    ensures e.activeRequests == 0 || e.pauseState == PAUSED_ALL ==> Progress(e, Leave) == e
    ensures Progress(e, BlocksHeld(held)) == e.(prefixResetSucceeds := !held)
  {
  }

  /** A running request fills caches with entries of the weights held now, and marks them dirty; otherwise nothing runs. */
  lemma RequestsFillCaches(e: EngineState, p: bool, n: bool, m: bool)
    ensures var f := Progress(e, Run(p, n, m));
      if e.activeRequests == 0 || e.pauseState == PAUSED_ALL then f == e
      else
        && f == e.(prefixDirty := f.prefixDirty, encoderDirty := f.encoderDirty, mmDirty := f.mmDirty,
                   prefixFrom := f.prefixFrom, encoderFrom := f.encoderFrom, mmFrom := f.mmFrom)
        && (if p then f.prefixDirty && f.prefixFrom == e.prefixFrom + {e.epoch}
            else f.prefixDirty == e.prefixDirty && f.prefixFrom == e.prefixFrom)
        && (if n then f.encoderDirty && f.encoderFrom == e.encoderFrom + {e.epoch}
            else f.encoderDirty == e.encoderDirty && f.encoderFrom == e.encoderFrom)
        && (if m then f.mmDirty && f.mmFrom == e.mmFrom + {e.epoch}
            else f.mmDirty == e.mmDirty && f.mmFrom == e.mmFrom)
  {
  }
}
