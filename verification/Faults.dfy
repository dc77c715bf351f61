/** Which failed check a piece of evidence is blamed for: of all that fail, the first one made. */
module Faults {
  import opened Prelude
  import opened Labels
  import opened Evidence

  /** The order in which the checks of one kind of evidence are made. */
  function CheckNo(f: Fault): nat {
    match f
    case TransferEngineUninitialised => 0
    case TransferEngineWithoutDriver => 1
    case NoPreSeedLabel => 2
    case AlreadyLabelled(_) => 3
    case DrainNotConfirmed => 0
    case DrainSelfContradictory(_) => 1
    case WeightsNotLoaded => 0
    case DataPlaneIncomplete => 1
    case FinishNotAcknowledged => 2
    case StagedOtherWeights(_) => 3
    case CachesNotReset(_) => 0
    case ResumeNotAcknowledged => 0
    case StillPaused => 1
    case WrongLabel(_) => 2
    case NotPausedDuringValidation => 3
    case CachesRepopulated => 4
  }

  /** None if no check fails, otherwise the first that does, with what it saw. */
  ghost predicate FirstFault(reason: Option<Fault>, fails: Fault -> bool) {
    && (reason.None? ==> forall f :: !fails(f))
    && (reason.Some? ==> fails(reason.value) && forall f :: fails(f) ==> CheckNo(reason.value) <= CheckNo(f))
  }

  /** The engine's transfer side and its driver come together, and nobody's label was there before. */
  predicate BootFails(ev: BootstrapEvidence, f: Fault) {
    match f
    case TransferEngineUninitialised => !ev.weightTransferInitialised && ev.weightTransferDriver.Some?
    case TransferEngineWithoutDriver => ev.weightTransferInitialised && ev.weightTransferDriver.None?
    case NoPreSeedLabel => ev.preSeedLabel.None?
    case AlreadyLabelled(written) => ev.preSeedLabel == Some(written) && ParseLabel(written).Some?
    case _ => false
  }

  lemma BootBlames(ev: BootstrapEvidence)
    ensures FirstFault(ev.FailureReason(), f => BootFails(ev, f))
  {
  }

  predicate DrainFails(ev: DrainEvidence, f: Fault) {
    match f
    case DrainNotConfirmed => !ev.engineDrainCompleted
    case DrainSelfContradictory(n) => ev.engineActiveRequests == Some(n) && n != 0
    case _ => false
  }

  lemma DrainBlames(ev: DrainEvidence)
    ensures FirstFault(ev.FailureReason(), f => DrainFails(ev, f))
  {
  }

  predicate UpdateFails(ev: UpdateEvidence, f: Fault) {
    match f
    case WeightsNotLoaded => !ev.weightsLoaded
    case DataPlaneIncomplete => !ev.dataPlaneComplete
    case FinishNotAcknowledged => !ev.finishAcknowledged
    case StagedOtherWeights(staged) => ev.observedIdentity == Some(staged) && staged != ev.target.identity
    case _ => false
  }

  lemma UpdateBlames(ev: UpdateEvidence)
    ensures FirstFault(ev.FailureReason(), f => UpdateFails(ev, f))
  {
  }

  predicate WasReset(ev: InvalidateEvidence, cache: Cache) {
    match cache
    case PrefixCache => ev.prefixCacheReset
    case EncoderCache => ev.encoderCacheReset
    case MultimodalCache => ev.mmCacheReset
  }

  function CacheNo(cache: Cache): nat {
    match cache
    case PrefixCache => 0
    case EncoderCache => 1
    case MultimodalCache => 2
  }

  /** Exactly the caches not reset, in order. */
  predicate AreMissing(ev: InvalidateEvidence, missing: seq<Cache>) {
    && (forall cache :: cache in missing <==> !WasReset(ev, cache))
    && (forall i, k :: 0 <= i < k < |missing| ==> CacheNo(missing[i]) < CacheNo(missing[k]))
  }

  lemma MissingCaches(ev: InvalidateEvidence)
    ensures AreMissing(ev, ev.Missing())
  {
  }

  /** All caches not reset are blamed at once. */
  lemma InvalidateBlames(ev: InvalidateEvidence)
    ensures match ev.FailureReason()
      case None => forall cache :: WasReset(ev, cache)
      case Some(fault) => fault.CachesNotReset? && fault.missing != [] && AreMissing(ev, fault.missing)
  {
    MissingCaches(ev);
  }

  predicate ValidateFails(ev: ValidateEvidence, f: Fault) {
    match f
    case WrongLabel(observed) => ev.observedEngineLabel == observed != ev.target.Label()
    case NotPausedDuringValidation => !ev.isPaused
    case CachesRepopulated => !ev.cachesStillClean
    case _ => false
  }

  lemma ValidateBlames(ev: ValidateEvidence)
    ensures FirstFault(ev.FailureReason(), f => ValidateFails(ev, f))
  {
  }

  predicate ResumeFails(ev: ResumeEvidence, f: Fault) {
    match f
    case ResumeNotAcknowledged => !ev.resumeAcknowledged
    case StillPaused => ev.isPaused
    case WrongLabel(observed) => ev.observedEngineLabel == Some(observed) && observed != ev.target.Label()
    case _ => false
  }

  lemma ResumeBlames(ev: ResumeEvidence)
    ensures FirstFault(ev.FailureReason(), f => ResumeFails(ev, f))
  {
  }
}
