/** What an adapter reports, and the postconditions that gate each transition. */
module Evidence {
  import opened Prelude
  import opened Labels
  import opened Identity

  datatype Cache = PrefixCache | EncoderCache | MultimodalCache

  /** Why a piece of evidence fails its postcondition. */
  datatype Fault =
    | TransferEngineUninitialised
    | TransferEngineWithoutDriver
    | NoPreSeedLabel
    | AlreadyLabelled(written: string)
    | DrainNotConfirmed
    | DrainSelfContradictory(active: int)
    | WeightsNotLoaded
    | DataPlaneIncomplete
    | FinishNotAcknowledged
    | StagedOtherWeights(staged: WeightIdentity)
    | CachesNotReset(missing: seq<Cache>)
    | WrongLabel(observed: string)
    | NotPausedDuringValidation
    | CachesRepopulated
    | ResumeNotAcknowledged
    | StillPaused

  datatype BootstrapEvidence = BootstrapEvidence(
    observedEngineLabel: string, weightTransferInitialised: bool, preSeedLabel: Option<string>,
    weightIdentity: WeightIdentity, weightTransferDriver: Option<string>)
  {
    function FailureReason(): Option<Fault> {
      if !weightTransferInitialised && weightTransferDriver.Some? then Some(TransferEngineUninitialised)
      else if weightTransferInitialised && weightTransferDriver.None? then Some(TransferEngineWithoutDriver)
      else if preSeedLabel.None? then Some(NoPreSeedLabel)
      else if ParseLabel(preSeedLabel.value).None? then None
      else Some(AlreadyLabelled(preSeedLabel.value))
    }
  }

  datatype DrainEvidence = DrainEvidence(engineDrainCompleted: bool, engineActiveRequests: Option<int>) {
    function FailureReason(): Option<Fault> {
      if !engineDrainCompleted then Some(DrainNotConfirmed)
      else if engineActiveRequests.Some? && engineActiveRequests.value != 0
      then Some(DrainSelfContradictory(engineActiveRequests.value))
      else None
    }
  }

  datatype UpdateEvidence = UpdateEvidence(
    target: UpdateTarget, weightsLoaded: bool, finishAcknowledged: bool, dataPlaneComplete: bool,
    observedIdentity: Option<WeightIdentity>)
  {
    function FailureReason(): Option<Fault> {
      if !weightsLoaded then Some(WeightsNotLoaded)
      else if !dataPlaneComplete then Some(DataPlaneIncomplete)
      else if !finishAcknowledged then Some(FinishNotAcknowledged)
      else if observedIdentity.Some? && observedIdentity.value != target.identity
      then Some(StagedOtherWeights(observedIdentity.value))
      else None
    }
  }

  datatype InvalidateEvidence = InvalidateEvidence(
    prefixCacheReset: bool, encoderCacheReset: bool, mmCacheReset: bool)
  {
    function Missing(): seq<Cache> {
      (if prefixCacheReset then [] else [PrefixCache])
      + (if encoderCacheReset then [] else [EncoderCache])
      + (if mmCacheReset then [] else [MultimodalCache])
    }

    function FailureReason(): Option<Fault> {
      if Missing() != [] then Some(CachesNotReset(Missing())) else None
    }
  }

  datatype ValidateEvidence = ValidateEvidence(
    target: UpdateTarget, observedEngineLabel: string, isPaused: bool, cachesStillClean: bool)
  {
    function FailureReason(): Option<Fault> {
      if observedEngineLabel != target.Label() then Some(WrongLabel(observedEngineLabel))
      else if !isPaused then Some(NotPausedDuringValidation)
      else if !cachesStillClean then Some(CachesRepopulated)
      else None
    }
  }

  datatype ResumeEvidence = ResumeEvidence(
    target: UpdateTarget, resumeAcknowledged: bool, isPaused: bool, observedEngineLabel: Option<string>)
  {
    function FailureReason(): Option<Fault> {
      if !resumeAcknowledged then Some(ResumeNotAcknowledged)
      else if isPaused then Some(StillPaused)
      else if observedEngineLabel.Some? && observedEngineLabel.value != target.Label()
      then Some(WrongLabel(observedEngineLabel.value))
      else None
    }
  }
}
