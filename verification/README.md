# RolloutCore, modelled and proved in Dafny

RolloutCore moves a serving engine from one set of weights to the next without ever mixing them: a locked
lifecycle controller with a journal, a runner that orders the effects of an update cycle, adapters that answer with
evidence, and records of rollouts that can be replayed. This project models that protocol and proves its safety
over every run. Verify it with `dafny verify dfyconfig.toml`.

How the layers fit:

* `Labels`, `Text`, `Identity`, `Encodings`, `Literals` — generation labels; the canonical manifest and provenance
  encodings, with parsers that undo them, exactly which encodings stand for one thing only, and the texts written out. The hash is a parameter `Hash`; where
  digests must tell texts apart, the hypothesis is that it has no collision among exactly the texts hashed.
* `Evidence`, `Lifecycle`, `Controller` — the evidence postconditions; the controller's calls as functions on
  snapshots (each call is one step, as the lock makes it); and the `LifecycleController` object, whose every method
  is proved equal to its function.
* `Faults`, `Gates` — every call's outcome by its inputs: which check evidence is blamed for, what opens each gate,
  what refuses, what taints and with which error and reason.
* `Journal`, `History` — laws of arbitrary call sequences: the journal is an event source, drain precedes mutation,
  failures are atomic, bindings and sequence numbers are conserved, salts identify weights.
* `Runner`, `RunCycle` — a cycle as a machine whose adapter may answer anything and whose controller is shared with
  clients and operators; and the `LifecycleRunner` object, proved to follow it, calls to the adapter included.
* `Engine`, `Adapter`, `FakeAdapter` — the fake engine with ghost history (an epoch per weight mutation, and for each
  cache the epochs that filled it); the fake adapter one engine access at a time, every access may be rejected; both
  as objects. `Endpoints`, `Replies` — what each endpoint, and each whole adapter call, leaves and answers, with and
  without rejected accesses.
* `Fleet`, `Safety`, `Ownership` — any number of controllers, runners, adapters and clients on one engine whose requests
  progress by themselves, one engine access at a time, bootstraps included. Nothing in the code keeps two bootstraps
  from interleaving, so the guarantees of `Safety` about several controllers carry the hypothesis `Exclusive`: no node's
  look lets it in while another is between its look and its seed, which holds exactly when no two nodes ever claim the
  engine at once. `Ownership` drops it and says exactly when two controllers can come to own the engine; that line is a
  different one, since a node that can own nothing any more can still overwrite the owner's label. `Cycles` adds that something does happen:
  on an engine that obeys, adoption and any number of rising targets go through, one undisturbed cycle each.
* `HttpDrain` — numbered pause attempts on threads and any number of pollers; `Nccl`, `NcclDriver` — the driver's
  identity cache and version-substituting client; `HttpAdapter` — the HTTP adapter's drain and update state.
* `Trajectory`, `Statistics`, `Replay` — the record and its JSON form; order statistics; the replay validator.

Some plausible statements are false of the code. They are stated here as exact conditions or witnesses:
`Labels.PrintUndoesParseExactly` (parsing has no left inverse); `Encodings.SpecsStandAloneExactly`,
`Encodings.ValidSpecsStandAloneExactly`, `Encodings.ManifestsStandAloneExactly`,
`Encodings.ProvenancesStandAloneExactly` and `Encodings.QualifiedTextsStandAloneExactly` (encodings are not injective on
all strings), with `Identity.SeparatorsBreakTheEncoding`; `Safety.SkippingInvalidationGoesStale`; `Replies.ReadsAfterResumeFail` (a failed call can leave a serving engine);
`Ownership.TwoOwnExactly` and `Safety.ExclusiveExactly` (bootstraps may interleave), with
`Ownership.TwoFreshControllersCanOwn`, `Safety.TaintedBootstrapSpoilsTheLabel` and `Cycles.ARolloutCanSpan`; `HttpDrain.VerdictsAreOwnExactly`,
`HttpDrain.CompletedIsStableExactly` and `HttpDrain.GapMisleadsExactly`, with `HttpDrain.TwoPollersUndoCompletion`;
`Nccl.LabelsItsTargetExactly`, with `Nccl.PartedDriverMislabels`; and `Nccl.ReportsFollowTheSourceExactly`, with
`Nccl.StaleTransfersAreStaged`.

Where code and prose disagree, the code is followed: the label parser's comment promises a refusal of anything the
label printer did not produce, yet redundant leading zeros are accepted (`src/rolloutcore/versions.py:121-136`); the
sync client's comment says the label written is always the pending target's, which fails after a failed
re-initialization of a live driver (`src/rolloutcore/adapters/nccl.py:95-103`); and the drain's numbering is said to
silence superseded threads, but it restarts with every drain (`src/rolloutcore/adapters/http.py:425-430`).

## Model

| member | source | states |
|---|---|---|
| Labels.LabelRoundTrip | src/rolloutcore/versions.py:98-136 | parsing a printed label gives the version back, and the label is managed, for every generation |
| Labels.LabelRoundTripWith | src/rolloutcore/versions.py:98-136 | the round trip for an interpreter that reads further digits |
| Labels.LabelInjective | src/rolloutcore/versions.py:98-102 | two generations have equal labels only if they are equal |
| Labels.PrintUndoesParseExactly | src/rolloutcore/versions.py:120-136 | for any set of digits the interpreter reads beyond the plain ten: printing a parsed label gives it back exactly when its digits are plain and carry no redundant leading zero |
| Labels.ParseLabelNotInjective | src/rolloutcore/versions.py:133-136 | witness: two different labels parse to the same generation |
| Literals.LabelsAreWritten | src/rolloutcore/versions.py:98-118 | the label is the prefix and the decimal number, and the cache salt is the label |
| Literals.LabelsAreReadExactly | src/rolloutcore/versions.py:120-136 | a text reads as a generation exactly if it is the prefix and at least one digit of that value |
| Literals.ManifestsAreWritten | src/rolloutcore/versions.py:165-167 | the hashed manifest written out: one line a parameter, unit separators between name, dtype and shape |
| Literals.ProvenancesAreWritten | src/rolloutcore/versions.py:210-219 | the provenance written out: keyed parts in order, absent ones omitted, unit separators between |
| Literals.IdentitiesAreWritten | src/rolloutcore/versions.py:302-330 | what is hashed and what becomes of the hash, with and without a provenance |
| Literals.NamesAreOrdered | src/rolloutcore/versions.py:302-305 | the order of names is by characters' numbers, a prefix first |
| Identity.SpecRoundTrip | src/rolloutcore/versions.py:165-167 | a parser recovers name, dtype and shape from a spec's encoding when neither text holds the field separator; newlines do no harm |
| Identity.ManifestRoundTrip | src/rolloutcore/versions.py:308-311 | a parser recovers every manifest whose names and dtypes hold no field separator from its hashed text |
| Encodings.SpecsStandAloneExactly | src/rolloutcore/versions.py:165-167 | no other spec shares a spec's encoding exactly when neither of its texts holds the field separator |
| Encodings.ValidSpecsStandAloneExactly | src/rolloutcore/versions.py:152-167 | the same among specs the constructor admits: exactly when no separator could end the name earlier or start the dtype later without leaving one empty |
| Identity.SeparatorsBreakTheEncoding | src/rolloutcore/versions.py:152-167 | witness for the exact condition below: with field separators and a newline in a name, a manifest of one spec and one of two hash the same text |
| Encodings.ManifestsStandAloneExactly | src/rolloutcore/versions.py:302-311 | among sorted, distinctly named manifests of admissible specs, no other shares a manifest's hashed text exactly when it is empty or a single spec that stands alone: an earlier line can always be part of a later name |
| Identity.ProvenanceRoundTrip | src/rolloutcore/versions.py:210-219 | omitted fields do not make the encoding ambiguous: a parser recovers all three when no text holds the field separator |
| Encodings.ProvenancesStandAloneExactly | src/rolloutcore/versions.py:196-219 | no other admissible provenance shares an encoding exactly when it gives a single field whose text does not itself read as several fields |
| Encodings.QualifiedTextsStandAloneExactly | src/rolloutcore/versions.py:319-323 | no other provenance and digest hash the same qualified text exactly when the provenance stands alone |
| Identity.ProvenanceTextInjective | src/rolloutcore/versions.py:319-323 | a provenance-qualified text determines the digest in it and, without field separators in its texts, the provenance; newlines do no harm |
| Identity.TiersAreDisjoint | src/rolloutcore/versions.py:307-323 | no manifest-only text equals a provenance-qualified one, whatever the names and provenance |
| Identity.SortedDistinctUnique | src/rolloutcore/versions.py:302-305 | a set of specs with distinct names has one order by name |
| Identity.OrderIndependent | src/rolloutcore/versions.py:293-305 | the identity, or the refusal of duplicates, does not depend on the order specs are enumerated in |
| Identity.DigestsIdentifyDeclarations | src/rolloutcore/versions.py:287-330 | without collisions among the hashed texts and without field separators in names, dtypes and provenance: digests are equal exactly when manifest and provenance are, manifest digests exactly when the manifests are |
| Identity.FeedManifest | src/rolloutcore/versions.py:307-311 | the hasher loop feeds the canonical manifest text, one line per spec |
| Identity.FromParamSpecs | src/rolloutcore/versions.py:287-330 | the method computes the specified identity and refuses exactly duplicate names |
| Controller.LifecycleController.Initialize | src/rolloutcore/lifecycle.py:398-424 | the object's whole new state and outcome are those of the adoption function, refusals and taints included |
| Controller.LifecycleController.BeginDrain | src/rolloutcore/lifecycle.py:426-444 | new state and outcome of stopping admission |
| Controller.LifecycleController.ConfirmDrained | src/rolloutcore/lifecycle.py:446-478 | not-ready leaves everything; outstanding bindings or bad evidence taint; else quiesced |
| Controller.LifecycleController.BeginUpdate | src/rolloutcore/lifecycle.py:480-511 | refuses stale targets unchanged, otherwise the target is pending |
| Controller.LifecycleController.ConfirmUpdated | src/rolloutcore/lifecycle.py:513-551 | evidence for another target or a failed postcondition taints |
| Controller.LifecycleController.ConfirmInvalidated | src/rolloutcore/lifecycle.py:553-581 | any cache not reset taints |
| Controller.LifecycleController.ConfirmValidated | src/rolloutcore/lifecycle.py:583-630 | a wrong label is a version mismatch, other failures taint plainly |
| Controller.LifecycleController.ConfirmResumed | src/rolloutcore/lifecycle.py:632-672 | the commit: the pending target becomes current, or a taint |
| Controller.LifecycleController.OrphanActive | src/rolloutcore/lifecycle.py:365-380 | the loop moves every active binding to the orphans, numbered in order |
| Controller.LifecycleController.TaintWith | src/rolloutcore/lifecycle.py:349-384 | the first taint orphans and records; later ones change nothing |
| Controller.LifecycleController.AdmitRollout | src/rolloutcore/lifecycle.py:709-752 | binds to the committed target, or refuses unchanged |
| Controller.LifecycleController.ReleaseRollout | src/rolloutcore/lifecycle.py:764-787 | removes exactly the named binding and returns it |
| Controller.LifecycleController.NextGeneration | src/rolloutcore/lifecycle.py:689-707 | the next target: version plus one, identity given or kept |
| Faults.BootBlames | src/rolloutcore/evidence.py:80-110 | bootstrap evidence fails exactly if a check does, and is blamed for the first that does, with what it saw |
| Faults.DrainBlames | src/rolloutcore/evidence.py:141-150 | the same for drain evidence: unconfirmed before self-contradictory |
| Faults.UpdateBlames | src/rolloutcore/evidence.py:188-200 | the same for update evidence: weights, data plane, acknowledgement, other weights staged |
| Faults.InvalidateBlames | src/rolloutcore/evidence.py:233-245 | the blame lists exactly the caches not reset, each once, in order |
| Faults.ValidateBlames | src/rolloutcore/evidence.py:282-298 | the same for validation evidence: wrong label, not paused, caches repopulated |
| Faults.ResumeBlames | src/rolloutcore/evidence.py:315-330 | the same for resume evidence: unacknowledged, still paused, wrong label |
| Gates.InitializeGate | src/rolloutcore/lifecycle.py:398-424 | from UNINITIALIZED, evidence of an unmanaged engine with driver and transfer engine together, now at rc-0, commits rc-0; any other taints, the reason being the first thing wrong |
| Gates.BeginDrainGate | src/rolloutcore/lifecycle.py:426-444 | only READY drains; without a commit the move is made and the assertion fails |
| Gates.ConfirmDrainedGate | src/rolloutcore/lifecycle.py:446-478 | refused unchanged while not completed; bindings still active are a drain disagreement naming them; a completed drain with requests running taints; else QUIESCED |
| Gates.BeginUpdateGate | src/rolloutcore/lifecycle.py:480-511 | from QUIESCED exactly a higher version becomes pending |
| Gates.ConfirmUpdatedGate | src/rolloutcore/lifecycle.py:513-551 | INVALIDATING exactly for the pending target with everything loaded, transferred and acknowledged and nothing else staged; any other evidence taints |
| Gates.ConfirmInvalidatedGate | src/rolloutcore/lifecycle.py:553-581 | VALIDATING exactly when prefix, encoder and multimodal cache were all reset; any other evidence taints |
| Gates.ConfirmValidatedGate | src/rolloutcore/lifecycle.py:583-630 | RESUMING exactly for the pending target with its label, paused and caches clean; a wrong label on the right target is a version mismatch, anything else taints plainly |
| Gates.ConfirmResumedGate | src/rolloutcore/lifecycle.py:632-672 | the target is committed exactly when the resume was acknowledged, nothing is paused and the label, if read, is its own; a wrong label is a version mismatch even if the resume failed too |
| Gates.TaintGate | src/rolloutcore/lifecycle.py:349-384 | an operator's taint works from every state but TAINTED, keeps the commit, records itself and always raises |
| Gates.TaintsOrphan | src/rolloutcore/lifecycle.py:365-380 | whoever was in flight is kept as an orphan, in order, numbered next, with state and reason |
| Gates.AdmitGate | src/rolloutcore/lifecycle.py:709-752 | admitted exactly in READY, with a commit, under an id not in flight; bound to the commit under the next number |
| Gates.ReleaseGate | src/rolloutcore/lifecycle.py:764-787 | released exactly in READY or DRAINING under an id in flight; the binding listed under it, and it alone, leaves |
| Gates.ReleasesAreNamed | src/rolloutcore/lifecycle.py:754-787 | finishing and aborting release alike, and the journal names which it was |
| Gates.DrainingEmpties | src/rolloutcore/lifecycle.py:446-478 | from any reachable DRAINING state, finishing or aborting all that is in flight, in any order, is accepted each time, empties the list, and a completed drain then confirms |
| Gates.NextTargetByInputs | src/rolloutcore/lifecycle.py:689-707 | none before a commit; else one version on, with the identity given or the committed one |
| Journal.RaisingShapes | src/rolloutcore/lifecycle.py:294-304 | a raising call either changed nothing or is a taint; internal asserts never fire |
| Journal.EveryChangeIsJournaled | src/rolloutcore/lifecycle.py:306-343 | a call that changes the controller appends exactly one record, which explains the whole change |
| Journal.JournalIsEventSource | src/rolloutcore/lifecycle.py:306-343 | after any calls, folding the journal gives state, active ids in order, pending target and committed version |
| History.DrainBeforeMutation | src/rolloutcore/lifecycle.py:446-511 | in any journal, between an admission and a later begin_update or confirm_resumed lies that rollout's end or a taint |
| History.RecordsChain | src/rolloutcore/lifecycle.py:127-137 | each record starts where the last ended; moves are table edges; rollout records move nothing |
| History.FailuresAreAtomic | src/rolloutcore/lifecycle.py:349-394 | recoverable errors change no field; taints keep the commit, drop the pending target, append the active bindings to the orphans in order |
| History.TaintedIsAbsorbing | src/rolloutcore/lifecycle.py:355-357 | from TAINTED no sequence of calls changes anything, the first reason included |
| History.BindingsAreConserved | src/rolloutcore/lifecycle.py:365-380 | every binding ever admitted is in exactly one of active, released, orphaned, once; sequence numbers are unique |
| History.SequenceNumbersAreConserved | src/rolloutcore/lifecycle.py:331-384 | journal and orphan numbers are disjoint, increasing, and together exactly 1 to the counter, through any taint |
| History.SaltIdentifiesWeights | src/rolloutcore/lifecycle.py:733-739 | two bindings of one controller have equal salts exactly when their versions are equal, and then their identities are |
| History.CommitsAreMonotonic | src/rolloutcore/lifecycle.py:495-503 | committed versions strictly increase, and only adoption and resume confirmation commit |
| Runner.AllOrNothing | src/rolloutcore/runner.py:116-214 | for any replies and interference: returned means exactly the target is committed; otherwise the old one stands and nothing serves; without foreign taints each failure leaves its stated controller state |
| Runner.FailClosedTrace | src/rolloutcore/runner.py:116-173 | adapter calls form a prefix of drain, polls, five effects, each in its state; resume only after four passed gates for this target |
| Runner.CompletedPollIsTheLast | src/rolloutcore/runner.py:216-239 | once a poll has answered completed, no continuation polls or sleeps again, and the drain is only confirmed with no active rollout |
| Runner.CyclesTerminate | src/rolloutcore/runner.py:216-239 | whatever the schedule, the runner makes at most a fixed number of moves |
| Runner.PassingCyclesCommit | src/rolloutcore/runner.py:116-173 | nobody in flight, a newer target, one poll, and any evidence that says what the gates ask for: the cycle commits the target |
| Runner.UnreadyPollsGoOn | src/rolloutcore/runner.py:216-239 | after fewer unready polls than the budget the controller still drains, the next poll is out, and the runner slept after exactly the polls it had time after |
| Runner.BudgetRunsOut | src/rolloutcore/runner.py:216-239 | after as many unready polls as the budget it is spent, the controller still drains, and nobody slept after the last |
| Runner.FailuresByCall | src/rolloutcore/runner.py:187-214 | a foreign failure of a poll or a validation leaves the controller alone, of any other call it taints; a failure of the protocol's own kind is passed on |
| Runner.NextGenerationIsNeverStale | src/rolloutcore/runner.py:175-185 | advancing one generation is never refused as stale: the controller fails only by tainting |
| RunCycle.LifecycleRunner.Effect | src/rolloutcore/runner.py:187-202 | core errors pass through, foreign ones taint, evidence goes on |
| RunCycle.LifecycleRunner.Observe | src/rolloutcore/runner.py:204-214 | failures of observing calls propagate and leave the controller alone |
| RunCycle.LifecycleRunner.DrainUntilQuiesced | src/rolloutcore/runner.py:216-239 | the polling loop ends quiesced, failed, or out of budget, as the machine does |
| RunCycle.LifecycleRunner.RunOneCycle | src/rolloutcore/runner.py:116-173 | the object runs a schedule of the machine, made exactly its adapter calls, and is all-or-nothing from READY |
| RunCycle.LifecycleRunner.InstallNext | src/rolloutcore/runner.py:175-185 | from any state: refused before anything is committed, else a schedule of the machine for the next generation; from READY all-or-nothing and never refused as stale |
| RunCycle.LifecycleRunner.Bootstrap | src/rolloutcore/runner.py:96-112 | one adapter call; a refusal passes through, a foreign failure taints, evidence is adopted |
| Engine.FakeVLLMEngine.PauseEngine | src/rolloutcore/adapters/fake_engine.py:113-146 | the pause is set before waiting work is reported; whole new state per mode and fault |
| Engine.FakeVLLMEngine.FinishWeightUpdate | src/rolloutcore/adapters/fake_engine.py:165-171 | only a finalize in an open session writes the label, and no cache changes |
| Engine.FakeVLLMEngine.ResetPrefixCache | src/rolloutcore/adapters/fake_engine.py:173-178 | a reset that does not take leaves the cache and its history |
| FakeAdapter.FakeVLLMAdapter.BeginDrain | src/rolloutcore/adapters/fake.py:83-86 | the method is the adapter machine's accesses, one after another |
| FakeAdapter.FakeVLLMAdapter.AwaitDrain | src/rolloutcore/adapters/fake.py:88-100 | pauses again unless completed, and reports what it found |
| FakeAdapter.FakeVLLMAdapter.SendChunks | src/rolloutcore/adapters/fake.py:107-123 | the chunk loop: all chunks, or evidence of none loaded at the first rejection |
| FakeAdapter.FakeVLLMAdapter.CompleteWeightUpdate | src/rolloutcore/adapters/fake.py:105-149 | chunks, identity, finalize, and evidence naming the stage that failed |
| FakeAdapter.FakeVLLMAdapter.InvalidateCaches | src/rolloutcore/adapters/fake.py:151-159 | the three resets in order, and evidence read from the engine afterwards |
| FakeAdapter.FakeVLLMAdapter.ValidatePreResume | src/rolloutcore/adapters/fake.py:161-172 | reads label, pause and caches without resuming |
| FakeAdapter.FakeVLLMAdapter.ResumeServing | src/rolloutcore/adapters/fake.py:174-185 | posts the resume, then reads; a failed read is a foreign failure |
| FakeAdapter.FakeVLLMAdapter.BootstrapEngine | src/rolloutcore/adapters/fake.py:51-81 | looks before it writes, initialises, seeds rc-0, reads it back and reports, access by access |
| Endpoints.WaitingPause | src/rolloutcore/adapters/fake_engine.py:113-146 | a waiting pause stops admission at once, raises exactly while requests run, and clears caches only when through and asked to |
| Endpoints.AbortingPause | src/rolloutcore/adapters/fake_engine.py:113-146 | an aborting pause ends what runs |
| Endpoints.KeepingPause | src/rolloutcore/adapters/fake_engine.py:113-146 | a keeping pause freezes what runs and never clears |
| Endpoints.SessionsByInputs | src/rolloutcore/adapters/fake_engine.py:153-171 | a session opens once, chunks and finalize need it, the finalize closes it and writes a non-empty label |
| Endpoints.ResetsByInputs | src/rolloutcore/adapters/fake_engine.py:173-186 | a prefix reset that finds blocks held drops nothing and says so; the others always drop their own cache only |
| Endpoints.RejectedCallsOnlyLog | src/rolloutcore/adapters/fake_engine.py:86-186 | a rejected endpoint raises and leaves only its trace in the log |
| Replies.CompleteCallEnds | src/rolloutcore/adapters/fake.py:105-149 | an undisturbed completion leaves the target's weights and label, closes the session and reports everything done |
| Replies.ChunkFails | src/rolloutcore/adapters/fake.py:105-149 | whichever chunk is rejected, nothing counts as loaded and nothing is labelled |
| Replies.FinalizeFails | src/rolloutcore/adapters/fake.py:105-149 | a rejected finalize leaves the target's weights under the old label with the session open, and says so |
| Replies.InvalidateCallEnds | src/rolloutcore/adapters/fake.py:151-159 | an undisturbed invalidation empties all three caches and reports them reset |
| Replies.HeldBlocksAreReported | src/rolloutcore/adapters/fake.py:151-159 | with blocks held the prefix cache stays and is reported, the others are dropped all the same |
| Replies.PollPausesAgain | src/rolloutcore/adapters/fake.py:88-100 | a poll of an incomplete drain pauses again and completes exactly if nothing runs any more |
| Replies.PollSurvivesRejection | src/rolloutcore/adapters/fake.py:88-100 | a rejected pause during a poll is an incomplete drain, not an error |
| Replies.ReadsAfterResumeFail | src/rolloutcore/adapters/fake.py:174-185 | a read that fails after an accepted resume leaves a serving engine behind a foreign failure |
| Replies.BootstrapCallEnds | src/rolloutcore/adapters/fake.py:51-81 | an undisturbed bootstrap of an unmanaged engine initialises it, labels it rc-0 and reports what it saw before and after |
| Replies.FinishReportsTheEngine | src/rolloutcore/adapters/fake.py:122-149 | whoever staged what the engine holds by the finalize: the evidence names that, and whether the finalize took |
| Replies.CompletionAccesses | src/rolloutcore/adapters/fake.py:105-149 | one post a chunk, then the finalize, and nothing else reaches the engine |
| Replies.BootstrapAccesses | src/rolloutcore/adapters/fake.py:51-81 | look, initialise, seed, read back, count workers, in this order |
| Replies.InvalidationAccesses | src/rolloutcore/adapters/fake.py:151-159 | the three resets reach the engine in order |
| Replies.LooksRefuse | src/rolloutcore/adapters/fake.py:51-67 | a bootstrap stops before writing anything at an engine without weights, an unreadable label or a managed one |
| Fleet.WorldInvariant | src/rolloutcore/runner.py:116-173 | the inductive invariant of controllers, runners, adapters and engine holds after any interleaving of single accesses in which no node is let in by its look while another is between its look and its seed |
| Safety.ExclusiveExactly | src/rolloutcore/adapters/fake.py:51-81 | such runs are exactly those in which no two nodes ever claim the engine at once |
| Safety.TaintedBootstrapSpoilsTheLabel | src/rolloutcore/adapters/fake.py:63-67 | witness that excluding two contenders is not enough: the seed of a bootstrap whose controller was tainted overwrites the label of the owner |
| Safety.NoCrossVersionCache | src/rolloutcore/adapters/fake_engine.py:113-186 | in any such run, whenever a request can run, all three caches hold only entries of the weights the engine holds now |
| Safety.SkippingInvalidationGoesStale | src/rolloutcore/evidence.py:203-245 | without the invalidation an update serves stale entries exactly when anything was cached |
| Safety.ServingMeansCommitted | src/rolloutcore/lifecycle.py:632-672 | in any such run, in READY or DRAINING the engine's label and identity are the committed target's |
| Safety.ReleasedRolloutsArePure | src/rolloutcore/trajectory.py:181-194 | from the move that admits a rollout to the state that releases it: the binding is the same, the weights do not change at any step, the engine shows the bound label and weights at both ends, and the record agrees at admission and spans no update |
| Safety.WeightsRestWhileServing | src/rolloutcore/lifecycle.py:446-511 | while any rollout is active, no move of anybody changes the weights |
| Safety.SingleOwner | src/rolloutcore/adapters/fake.py:51-81 | in any such run at most one controller ever reaches READY |
| Safety.LoneControllersAreExclusive | src/rolloutcore/adapters/fake.py:51-81 | with a single controller every schedule is such a run |
| Ownership.AlwaysSound | src/rolloutcore/adapters/fake.py:51-81 | in every run, however bootstraps interleave: what a bootstrap has seen was unmanaged, what it reports passes its checks, no transfer is for rc-0 |
| Ownership.TwoOwnExactly | src/rolloutcore/adapters/fake.py:51-81 | from any reachable world: two controllers can come to own the engine without a further look exactly when two contend now, as owners or in bootstraps that have looked and can still read rc-0 |
| Ownership.TwoFreshControllersCanOwn | src/rolloutcore/adapters/fake.py:59-67 | witness: on any fresh engine two controllers that both look before either writes can both come to own it |
| Safety.ManagedStaysManaged | src/rolloutcore/adapters/fake_engine.py:165-171 | a managed label never becomes unmanaged, whatever interleaves |
| Safety.RefusalLeavesEverything | src/rolloutcore/runner.py:96-112 | a look at a managed engine changes the call log only, and not the controller |
| Safety.UninterruptedCall | src/rolloutcore/adapters/fake.py:51-200 | a call nobody interrupts, bootstrap included, does in the fleet what the adapter object does alone |
| Cycles.OneCycle | src/rolloutcore/runner.py:116-173 | an update of a healthy fake engine by an undisturbed node ends READY with the target committed, held and labelled, unpaused, every cache dropped and reported clean, the session closed, and as ready as before |
| Cycles.EveryCycleGoesThrough | src/rolloutcore/runner.py:116-173 | so any sequence of rising targets goes through, one cycle each |
| Cycles.FreshEnginesServe | src/rolloutcore/runner.py:96-173 | from a server that has just loaded its weights: adoption as rc-0, then every rising target |
| Cycles.ARolloutCanSpan | src/rolloutcore/trajectory.py:181-194 | on any fresh engine with two nodes there is a run, not an exclusive one, in which a rollout is admitted under its own label and released under another, and its record says so |
| HttpDrain.VerdictsAreTheNewestAttempts | src/rolloutcore/adapters/http.py:425-465 | any pollers, any order of endings: the recorded verdict is the newest attempt's, each attempt is accounted for once, n pollers start at most reissues + n |
| HttpDrain.OnePoller | src/rolloutcore/adapters/http.py:268-312 | one poller: at most one attempt in flight, at most reissues + 1 in all, COMPLETED final, DrainFailedError exactly when all failed |
| HttpDrain.PollOfAFailure | src/rolloutcore/adapters/http.py:285-312 | one uninterrupted poll of a failed drain: aborts are retried up to their number until one is accepted; one that explodes escapes with nothing reissued; else the pause is reissued while reissues are left, and the failure raised when not |
| HttpDrain.DecisionsGoByWhatWasRead | src/rolloutcore/adapters/http.py:303-312 | whatever others did since, a poll raises or reissues by the failure it read |
| HttpDrain.PollOfOthers | src/rolloutcore/adapters/http.py:268-284 | any other poll reports completion exactly if it is recorded, and does nothing |
| HttpDrain.CompletedIsStableExactly | src/rolloutcore/adapters/http.py:285-305 | COMPLETED stays exactly when no poller is still acting on an earlier failure with reissues left |
| HttpDrain.TwoPollersUndoCompletion | src/rolloutcore/adapters/http.py:302-305 | witness: a second poller's reissue undoes a recorded completion |
| HttpDrain.VerdictsAreOwnExactly | src/rolloutcore/adapters/http.py:256-266 | for any number of pollers: the verdict is always the session's own exactly when no leftover thread carries a number the session can reach |
| HttpDrain.GapMisleadsExactly | src/rolloutcore/adapters/http.py:264-266 | a poll between begin_drain's two locked sections can report a completion that is not the new drain's exactly when the previous drain is recorded completed, or failed with a leftover thread whose number reissues there can reach |
| HttpDrain.GapsKeepVerdicts | src/rolloutcore/adapters/http.py:264-266 | whatever polls and threads do between the sections, from the second section on the verdict is the newest attempt's, unless a leftover thread carries a number in reach; one attempt more is possible |
| HttpAdapter.HttpVLLMAdapter.RestartNumbering | src/rolloutcore/adapters/http.py:264-265 | the first section restarts the numbering and touches nothing else |
| HttpAdapter.HttpVLLMAdapter.StartAttempt | src/rolloutcore/adapters/http.py:425-438 | numbers and launches the next attempt, which supersedes every earlier one |
| HttpAdapter.HttpVLLMAdapter.PauseAttempt | src/rolloutcore/adapters/http.py:440-465 | records a verdict unless superseded |
| HttpAdapter.HttpVLLMAdapter.AbortAll | src/rolloutcore/adapters/http.py:467-474 | the retry loop: stops at the first success, ignores HTTP errors, lets others out |
| HttpAdapter.HttpVLLMAdapter.AwaitDrain | src/rolloutcore/adapters/http.py:268-312 | one uninterrupted poll is one poller's steps, to its end |
| HttpAdapter.HttpVLLMAdapter.StartWeightUpdate | src/rolloutcore/adapters/http.py:314-331 | refused without a driver that moves tensors, else the target is open |
| HttpAdapter.HttpVLLMAdapter.CompleteWeightUpdate | src/rolloutcore/adapters/http.py:333-356 | with the lifecycle-only driver nothing is returned and nothing changes; otherwise new state and evidence are those of the completion function |
| HttpAdapter.EvidenceIsTrue | src/rolloutcore/adapters/http.py:333-356 | evidence only for the opened target, with the identity of the manifest read, accepted by a controller waiting for it, and never twice |
| HttpAdapter.EvidenceExactly | src/rolloutcore/adapters/http.py:314-356 | over any operations: evidence is returned exactly when the latest opening since the last successful completion was for the target, the driver is live on its device, what it has read or reads now is the target's, and upstream's script ends |
| HttpAdapter.OpeningsAreAccepted | src/rolloutcore/adapters/http.py:314-331 | with a driver that moves tensors every opening is accepted, over any operations, and replaces what was open |
| HttpAdapter.FailedCompletions | src/rolloutcore/adapters/http.py:333-356 | a completion for anything but what is open does nothing; a failed one leaves it open |
| HttpAdapter.LifecycleOnlyNeverOpens | src/rolloutcore/adapters/http.py:314-331 | without a driver that moves tensors nothing ever opens |
| HttpAdapter.UpdatesGoThrough | src/rolloutcore/adapters/http.py:314-356 | initialized, declared, opened, with upstream's ordinary script: evidence for the target, and exactly its three calls, the finalize under its label |
| Nccl.EveryCallIsVetted | src/rolloutcore/adapters/nccl.py:286-312 | over any operations the cache follows the manifest last read, and no call is made for a target with another identity |
| Nccl.TransfersSendExactly | src/rolloutcore/adapters/nccl.py:286-312 | a transfer goes out exactly when live, on its device, and for what was read; otherwise nothing is called |
| Nccl.TransferOutcomes | src/rolloutcore/adapters/nccl.py:286-312 | which outcome a transfer has, for any driver, manifest and script, refusals in order |
| Nccl.RefusedTransfersOnlyRead | src/rolloutcore/adapters/nccl.py:286-300 | a refused transfer leaves what it has read, if it got that far, and nothing else |
| Nccl.OperationsDecide | src/rolloutcore/adapters/nccl.py:220-317 | whether the driver is live, on which device, for which declaration and through which client follows from the operations alone: latest build against latest shutdown, latest initialization, latest declaration |
| Nccl.OperationsAnswer | src/rolloutcore/adapters/nccl.py:255-317 | initializing fails unless something is built; only a live driver can fail to shut down |
| Nccl.DevicesByInputs | src/rolloutcore/adapters/nccl.py:69-83 | two devices clash exactly when both are known and differ |
| Nccl.ScriptsEndExactly | src/rolloutcore/adapters/nccl.py:105-133 | a round trip ends without an exception exactly when nothing dies and every finalize knows a version |
| Nccl.EndedScriptsCallOneForOne | src/rolloutcore/adapters/nccl.py:105-133 | then it has made its calls one for one in order, a finalize under its explicit version, else the pending label |
| Nccl.DyingScriptsStop | src/rolloutcore/adapters/nccl.py:105-133 | else exactly those before the step that died |
| Nccl.LabelsItsTargetExactly | src/rolloutcore/adapters/nccl.py:113-133 | a transfer's unversioned finalizes carry its own label exactly when engine and driver share a client, or the old client's label is absent or equal |
| Nccl.FinalizesCarryTheirTarget | src/rolloutcore/adapters/nccl.py:95-133 | while no live driver fails to re-initialize, every unversioned finalize carries the label of its own transfer |
| Nccl.PartedDriverMislabels | src/rolloutcore/adapters/nccl.py:255-269 | witness for any live driver: after a failed re-initialization the next transfer commits the previous label |
| Nccl.ReportsFollowTheSourceExactly | src/rolloutcore/adapters/nccl.py:220-251 | a report from a cached identity names the source's present manifest exactly when that has the same specs, in any order, as the one last read |
| Nccl.StaleTransfersAreStaged | src/rolloutcore/adapters/nccl.py:286-312 | witness for any two distinguishable manifests: after the source changed, a transfer for what was declared still goes through and reports what the source no longer holds |
| Nccl.DeclaringReadsTheSource | src/rolloutcore/adapters/nccl.py:232-251 | a declaration's identity is that of the manifest the source holds then |
| NcclDriver.RolloutCoreWeightSyncClient.FinishWeightUpdate | src/rolloutcore/adapters/nccl.py:125-133 | explicit version, else pending label, else refused |
| NcclDriver.TrainerEngine.SendWeights | src/rolloutcore/adapters/nccl.py:302-306 | the round trip makes exactly the calls of its script, substituted, up to the first failure |
| NcclDriver.NCCLWeightTransferDriver.Declare | src/rolloutcore/adapters/nccl.py:232-251 | new provenance, manifest re-read |
| NcclDriver.NCCLWeightTransferDriver.Initialize | src/rolloutcore/adapters/nccl.py:255-275 | a failing builder leaves a new client and the old engine |
| NcclDriver.NCCLWeightTransferDriver.Transfer | src/rolloutcore/adapters/nccl.py:286-312 | the checks in order, then the target is set and the engine sends |
| NcclDriver.NCCLWeightTransferDriver.Shutdown | src/rolloutcore/adapters/nccl.py:314-317 | drops the engine unless its own shutdown raises |
| Trajectories.JsonRoundTrip | src/rolloutcore/trajectory.py:204-244 | a record is read back, provenance and replay claim included, exactly if it may be constructed; reading any other raises |
| Trajectories.ValidIsConstructible | src/rolloutcore/trajectory.py:111-136 | what may be constructed, written out, its identity's digest included |
| Trajectories.OldRecordsLoad | src/rolloutcore/trajectory.py:224-244 | with any of the optional keys left out, logprobs among them, the record reads back with their defaults, exactly if the result may be constructed |
| Trajectories.ReplayClaimsAreWritten | src/rolloutcore/trajectory.py:204-222 | every record says whether its identity declares a source |
| Trajectories.SpansByVersion | src/rolloutcore/trajectory.py:181-194 | read at completion as generation v, a record spans an update exactly if v is not its own; unread, never; the admission label plays no part |
| Trajectories.AdmissionAgreesByVersion | src/rolloutcore/trajectory.py:171-179 | agreement at admission is unknown unread, else whether the label read then is the bound generation's |
| Trajectories.ForeignLabelsSpan | src/rolloutcore/trajectory.py:171-194 | a label that is no generation's spans, and does not agree |
| Statistics.P99IsTheNearestRank | src/rolloutcore/replay.py:331-342 | the index is in range; the figure is a delta with enough deltas at or below it and too few strictly below; the maximum below a hundred |
| Statistics.RankIsLeast | src/rolloutcore/replay.py:338-342 | the rank is the least that 99 hundredths of the count do not exceed |
| Statistics.NearestRankIsUnique | src/rolloutcore/replay.py:338-342 | no other value meets the definition |
| Statistics.MeanIsWithin | src/rolloutcore/replay.py:335 | the mean times the count is the sum, and it lies between zero and any bound on the deltas |
| Replay.CompareTokens | src/rolloutcore/replay.py:265-281 | number of differing positions, longest common prefix, divergence absent exactly for equal sequences |
| Replay.CheckProtocol | src/rolloutcore/replay.py:240-301 | a violation is reported exactly when its condition holds, each once and in the order of the checks; echo faults only for forced tokens |
| Replay.CompareLogprobs | src/rolloutcore/replay.py:311-342 | the lane tells which side covers; the figures describe the deltas, worst index the first maximum |
| Replay.ValidateReplay | src/rolloutcore/replay.py:213-377 | agrees exactly when source and tokens are the same and no compared delta exceeds the tolerance; every other field as stated, violations and notes in order |
| Replay.PlannedAgreement | src/rolloutcore/replay.py:97-123 | for a plan made from a valid record: agreement spelled out, logprobs compared exactly when both sides cover |
| Replay.PlansByInputs | src/rolloutcore/replay.py:97-123 | a record can be planned exactly if its identity declares a source; the plan then carries what the record says |
| Replay.CleanReplays | src/rolloutcore/replay.py:240-301 | nothing is violated exactly when version, identity and prompt agree as far as observed, no token is missing, and forced tokens came back to the last one |
| Replay.DifferencesAreFiledOnce | src/rolloutcore/replay.py:283-301 | a differing token is a violation exactly if tokens were forced, and a note exactly if not |
| Replay.NotesByInputs | src/rolloutcore/replay.py:295-355 | which notes there are, from the token and logprob lists themselves |
| Replay.CommonPrefixIsLongest | src/rolloutcore/replay.py:272-281 | the reported prefix is the longest common one, and the only value that fits |
| Replay.RecordReplaysItself | src/rolloutcore/replay.py:213-377 | a record agrees with its own echo, unless it has logprobs and the tolerance is negative |

## Left out

- Locks and threads: each locked call, each engine access and each locked section of the drain is one atomic step, and runs are interleavings of such steps.
- A bootstrap's look: reading the identity, reading the label and testing it for ownership are one step; a label written between them would only turn an acceptance into a refusal.
- HttpAdapter.HttpVLLMAdapter.BeginDrain: the method runs its two sections one after the other; what polls and pause threads do between them is stated on the drain machine, by HttpDrain.GapMisleadsExactly and HttpDrain.GapsKeepVerdicts. Pollers are new with each drain there.
- Clocks: the drain deadline is an arbitrary yes or no before each sleep; durations, timeouts and intervals are not modelled.
- Messages: reasons are tags, and `describe()`, `CyclePlan`, `notes` of adapters and the cycle result's visited states and duration are left out.
- Weights, tensors and requests of a real engine: an epoch counter and four kinds of request progress stand for them; negative chunk counts and negative request counts are not modelled.
- `backend`, `world_size` and the chunk count of evidence: nothing is decided by them.
- SHA-256: a function from texts to 64 hex digits, given from outside.
- Unicode: strings are sequences of characters hashed as they stand. The controller and the adapters parse labels of plain digits; of other scripts' digits only the round trips are stated, by the lemmas of Labels that take the digits as a parameter. The interpreter's limit on the length of a number is not modelled.
- Identity.WeightIdentity.Valid: the empty-string and type checks of the constructors that Dafny's types already give are not repeated.
- Trajectories.FromJson: values are read at their own JSON kind; the code's coercions of other kinds by `str`, `int` and `float`, and negative sequence numbers, are not modelled.
- Trajectory recorder: file reading and writing.
- Floating point: logprobs and deltas are reals, and `0.99 * n` is read as 99n/100.
- HTTP transport: URLs, status codes, JSON bodies and the adapter's bootstrap, invalidation, validation and resume over HTTP; the fake adapter stands for those calls.
- Upstream's trainer engine: any script of start, update and finish calls that may raise at any point, a superset of what it does; the calls its builder makes while initializing are not logged.
- `dtype_name`, `param_spec`: reading the source's manifest is one step that gives specs or raises.
- `diagnostics/`, `scripts/`, `demo.py`, ports, error types and the lifecycle-only driver's messages: harnesses and interfaces with no state of their own.
- Liveness of a blocked collective or a dead engine: the code does not bound them.
