# Verified model of the execution safety core

This project models, in Dafny, the parts of the trading system whose correctness is a matter of proof:
the executor's crash-safe submission protocol, its hash-chained journal and fencing, its exposure ledger
and deployment caps, the risk-authorizer's ledger and projection acceptance, the Base58 codec, news
clustering, and the CSV export.

## How it is built

- `Records`, `Intents`, `ExposureLedger`, `Protocol`: the journal's records, the idempotency registry, the
  ledger, and each segment of the pipeline as a list of outputs. An output appends at most one journal line
  and makes its in-memory change in the same step.
- `Journal`, `Fencing`: the file, the lock, the holders, and any number of processes sharing them.
- `Pipeline`: the pipeline object with its fields and methods, each proved against `Protocol`.
- `Runs`: the step system. A step is what happens between two awaits of a submission, an emergency close, a
  recovery or a tick; a crash with its restart; an operator command; or a move of the chain (advance, land,
  promote, drop). `Invariants`, `Preservation` and `Steps` prove one invariant of every reachable world.
- `Outcomes`: what a recorded outcome, a tracker's visit and a recovered attempt leave, without the outputs.
- `Lawful`, `JournalFacts`, `Results`, `Releases`, `Landing`, `Coverage`, `CapRuns`, `Rebuild`, `ReorgPause`,
  `PauseRuns`, `Audit`: the properties of whole runs.
- `Scenarios`, `Witnesses`: concrete runs from the start for the ways in which the code departs from what one
  would expect.
- `Recovery`, `Exits`, `Refinement`: recovery as a whole call, its crashes, the exit loop, and their
  agreement with the step system.
- `Caps`, `Authority`, `Projection`, `Authorizer`: admission, verification and issuing.
- `Radix`, `Base58`, `Base58Laws`, `Dedupe`, `Csv`: the self-contained cores. `Sums`, `Numbers`: helpers.

`dafny verify dfyconfig.toml` checks everything.

## What is assumed

- Intents are immutable: an id stands for one intent with one key, and an emergency close reduces risk.
- A transaction lands only if it was sent and its last valid height has not passed; what is finalized stays.
  An observer's FINALIZED, FAILED and proof of death are true of the chain when they are acted upon, and a
  signature seen at all was sent. A proof of death is one observation of status and height
  (`libs/execution/src/chain/observer.ts:93-100`, `libs/execution/src/chain/quorum.ts:78-86`).
- The adapter journals the signature before it asks to submit, and sends only after it was allowed
  (`libs/execution/src/adapter/live-adapter.ts:198-210`).
- Reading the gate and appending the SUBMITTED line are one step; so are a journal append and the in-memory
  change made with it (`apps/execution-service/src/pipeline/pipeline.ts:222-225`).
- A recovery or a tick leaves an attempt alone while its own submission is in flight, and the two do not overlap.
  The code does not guarantee this: `POST /v1/recover` (`apps/execution-service/src/api/internal.ts:98-99`) runs
  `recover()` whenever it is asked to, also beside a submission that is still unsigned past its expiry, which it
  would then release and conclude (`apps/execution-service/src/pipeline/pipeline.ts:509-516`).
- The canonical hash is injective and signatures are valid or not.
- `attemptTransition` accepts every transition the tracker asks for, as its prior states are landable ones.

## Where the code differs from what one would expect

For each, the theorem that says exactly when the expected property holds; the runs of `Witnesses` reach the
failures from the start.

- An entry is released on a failure that is neither finalized nor expired
  (`pipeline.ts:542-544`, `pipeline.ts:645`); such a transaction may still be dropped and land
  (`Releases.ReleaseSafeExactly`, `Witnesses.EarlyReleaseRun`).
- An emergency close that is recorded reduces every open entry of its mint, entries that have still to be signed,
  sent or landed among them; those then land uncounted
  (`Coverage.ExposureFallsExactly`, `Coverage.LandableIsCounted`, `Coverage.CountedExactly`, `Coverage.SignedWhole`,
  `Witnesses.SoldWhileOnItsWay`, `Witnesses.SignedWithNothingReserved`).
- A crash between REORG_PENDING and its PAUSE_APPLIED leaves an attempt in doubt with no pause
  (`ReorgPause.TornDoubt`, `Witnesses.DoubtTornByCrash`).
- The pause is documented as cleared only by an operator command. An emergency pause arriving under a tracker
  pause is not journaled and is lifted by the tracker, and so is one arriving while the tracker is on its way to
  lift a pause (`PauseRuns.EmergencyPauseHoldsExactly`, `Witnesses.EmergencyPauseSwallowed`).
- The tracker reads the reason of the pause before it awaits custody, and lifts whatever pause it finds
  afterwards: after an operator clear in between, possibly not its own
  (`PauseRuns.TrackerLiftsItsOwn`, `PauseRuns.ClearDuringRelease`, `Witnesses.ForeignPauseLifted`).
- After a restart that found only the SIGNED line, the tracker's NOT_LANDED leaves the live registry at CREATED
  while the journal says FAILED (`Rebuild.BurialBreaksSimulation`, `Witnesses.BurialRun`).
- The caps look only at exposure-increasing intents although every intent reserves, and a tracker's confirmation
  at the full notional can undo a partial exit that came before an entry's result
  (`CapRuns.CapExactly`, `Caps.OtherEffectsBypassTheCap`, `Witnesses.AggregateCapPassed`).
- The signer-outage cap is asked only about LIVE_AUTO entries, while the authorizer binds every entry to
  MONITORED_EXIT (`CapRuns.OutageCapExactly`, `Caps.OutageCapIgnoresApproval`, `Witnesses.OutageCapPassed`).
- An exit whose confirmed basis undercuts the notional leaves less than its share
  (`ExposureLedger.SaleLeavesExactShare`).
- A holder that releases a second time after being superseded can append to a file it has not kept up with
  (`Fencing.LoadsExactly`, `Fencing.SecondReleaseRun`).
- Recovery of a finalized emergency exit releases none of the exposure it sold
  (`Exits.RecoveryOverCounts`, `Exits.OverCountBounds`, `Witnesses.SaleNotRecovered`).

## Model

| member | source | states |
|---|---|---|
| Lawful.EveryJournalIsLawful | apps/execution-service/src/pipeline/pipeline.ts:227-304 | in every reachable world, crashes and restarts included, each journal line was allowed by the lines before it (one claim, one reservation before the signature, signature before submission, one result), and the journal only grows |
| Lawful.ReservedBeforeSigned | apps/execution-service/src/pipeline/pipeline.ts:263-286 | when an entry is signed the journal holds exactly one reservation of it and no ENTRY_RELEASED, earlier signature or submission (an exit may have reached it: next row) |
| JournalFacts.ReservedOnceBeforeSigned | apps/execution-service/src/pipeline/pipeline.ts:263-286 | before an entry's SIGNED line exactly one line reserves it, for its output mint, its whole authorised input and its protection, and none releases it; the line carries its key, its nonce and a signature |
| Coverage.SignedWhole | apps/execution-service/src/pipeline/pipeline.ts:263-286 | when an entry is signed the ledger counts it for exactly its authorised input if and only if no exit has taken it below that since it was reserved |
| Witnesses.SignedWithNothingReserved | apps/execution-service/src/pipeline/pipeline.ts:471-477 | a run from the start: a close of its mint is recorded while the entry is still being built; it is then signed, sent and landed with nothing reserved |
| Coverage.ExposureFallsExactly | apps/execution-service/src/pipeline/pipeline.ts:471-494 | at any step of any run after which an open entry is gone or counts for less, some continuation lands a transaction of it if and only if its flow has still to sign or a transaction of it that was sent, or is about to be, is neither final nor expired; the step wrote an exit, a release or a lower confirmation that leaves what is authorised; and a release in that state had been decided on an early failure |
| Coverage.LandableIsCounted | apps/execution-service/src/pipeline/pipeline.ts:257-270 | attempt by attempt, in any run: up to any point a reserved entry that may still land has been counted for its whole authorised input at every moment if and only if no exit or release took it below that while it was in that state |
| Witnesses.SoldWhileOnItsWay | apps/execution-service/src/pipeline/pipeline.ts:471-477 | a run from the start: an entry is sent, a close of its mint sells all that is held and removes its reservation, and the entry lands uncounted |
| Landing.MayLandExactly | apps/execution-service/src/pipeline/pipeline.ts:257-304 | from a reachable world, an entry past admission may land in some continuation if and only if its flow has still to sign or a transaction of it that was sent, or is about to be, is neither final nor expired |
| Coverage.CountedExactly | apps/execution-service/src/pipeline/pipeline.ts:257-270 | attempt by attempt, in any run: up to any point the entry has counted for at least its whole authorised input from its reservation to its release or its result, whatever crashes fall between, if and only if no exit took it below that in between |
| Coverage.CountedUntilSettled | apps/execution-service/src/pipeline/pipeline.ts:257-270 | and for exactly that, if its own fills stay within it |
| Releases.ReleasedNeverLands | apps/execution-service/src/pipeline/pipeline.ts:468-494 | once an entry's ENTRY_RELEASED is journaled, no transaction of it is landed successfully then or at any later point of the run, whatever other attempts do, provided this entry's own release was not decided while a transaction of it had failed without being finalized or expired |
| Releases.ReleaseSafeExactly | apps/execution-service/src/pipeline/pipeline.ts:542-544 | the proviso is exact: at the point of any run where an entry's release is decided, some continuation journals the release and lands the entry if and only if a transaction of it had failed without being finalized or expired |
| Witnesses.EarlyReleaseRun | apps/execution-service/src/pipeline/pipeline.ts:542-544 | a run from the start: an entry fails on chain, a restart releases it, the chain drops the failure and lands it |
| CapRuns.CapsHoldThroughout | apps/execution-service/src/pipeline/pipeline.ts:257-263 | total exposure stays under the aggregate cap in every interleaving of segments, crashes and restarts, whatever the entries' authority and protection (entries increase exposure, exits only after the result, fills within the authorised input) |
| CapRuns.CapExactly | apps/execution-service/src/caps/check.ts:34-46 | with no such hypothesis: up to any point of any run the aggregate cap is kept if and only if every admission of an intent that does not increase exposure, and every confirmation above what its entry counts for, found room under it |
| Witnesses.AggregateCapPassed | apps/execution-service/src/pipeline/pipeline.ts:471-477 | a run from the start in which entries increase exposure and fills stay within their input, and an exit before an entry's own result leads to a total of 150 under a cap of 100 |
| CapRuns.OutageCapExactly | apps/execution-service/src/caps/check.ts:47-56 | under the same hypotheses signer-dependent exposure stays under its cap up to any point if and only if every MONITORED_EXIT entry admitted before it that was not LIVE_AUTO found room under that cap |
| CapRuns.OutageCapUnderLiveAuto | apps/execution-service/src/caps/check.ts:47-56 | in particular it always does where only LIVE_AUTO entries are MONITORED_EXIT |
| Caps.OutageCapIgnoresApproval | apps/execution-service/src/caps/check.ts:50 | a MONITORED_EXIT entry that is not LIVE_AUTO is admitted or refused whatever the signer-outage cap is, and leaves it kept if and only if there was room |
| Witnesses.OutageCapPassed | apps/execution-service/src/caps/check.ts:50 | two steps from the start pass the signer-outage cap with a LIVE_APPROVAL entry |
| CapRuns.NoEntryAboveTheCap | apps/execution-service/src/caps/check.ts:38-46 | an open entry whose own fills stay within its input bound never counts for more than that, nor, if its intent increases exposure, for more than the per-entry cap |
| CapRuns.EntryCapExactly | apps/execution-service/src/caps/check.ts:38-46 | with no hypothesis: up to any point of any run every open entry is kept under the per-entry cap if and only if every admission of an intent that does not increase exposure, and every confirmation above what its entry counts for, stayed within it |
| CapRuns.ConfirmationRaises | apps/execution-service/src/caps/exposure-ledger.ts:41-46 | a confirmation raises the total if and only if its basis exceeds what the entry already counts for, and then by the difference |
| Rebuild.RestartFindsLedgerAndPause | apps/execution-service/src/pipeline/pipeline.ts:182-188 | at every point of every run the replay of the journaled events succeeds and equals the live ledger, and the last journaled pause equals the live pause |
| Rebuild.RestartRegistrySimulated | apps/execution-service/src/idempotency/intents.ts:13-38 | the registry rebuilt from the journal has the same keys, intents and terminal states as the live one and is never further along, unless the tracker buried an attempt the live registry calls CREATED |
| Rebuild.BurialBreaksSimulation | apps/execution-service/src/pipeline/pipeline.ts:657-660 | the exclusion is exact: when any visit of a run with no earlier such burial has written its lines, the simulation holds if and only if the visit was no such burial; after one the rebuilt registry says FAILED, the live one CREATED |
| Witnesses.BurialRun | apps/execution-service/src/pipeline/pipeline.ts:657-660 | a run from the start with such a burial: signed, restarted, expired, buried |
| Lawful.OncePerKey | apps/execution-service/src/pipeline/pipeline.ts:244-254 | a key belongs to one attempt, which reserves, submits and concludes at most once and, for an entry, signs at most once, whatever is redelivered |
| JournalFacts.NoSecondLine | apps/execution-service/src/pipeline/pipeline.ts:244-254 | no two lines of a journal reserve, submit, conclude or, for entries, prepare or sign under one key |
| JournalFacts.SignedSpendsNonce | apps/execution-service/src/journal/journal.ts:108-115 | from the moment a SIGNED or SUBMITTED line is written the authorization's nonce is spent |
| Lawful.NoSubmissionWhilePaused | apps/execution-service/src/pipeline/pipeline.ts:289-296 | no submission of an attempt that does not reduce risk lies between a PAUSE_APPLIED and the next PAUSE_CLEARED |
| JournalFacts.ClearedBeforeSubmission | apps/execution-service/src/pipeline/pipeline.ts:289-296 | between a PAUSE_APPLIED line and a later submission of an attempt that does not reduce risk stands a PAUSE_CLEARED line |
| Lawful.SubmittedExactly | apps/execution-service/src/authority/mode-gate.ts:22-30 | in any run the gate before sending appends SUBMITTED exactly for a risk-reducing attempt, or with no pause, local or global, an activity that enters, a live authority and the capability |
| Lawful.TrackerDoubtsFirst | apps/execution-service/src/pipeline/pipeline.ts:624-663 | a NOT_LANDED written by the tracker never follows a confirmation that was not first put in REORG_PENDING |
| JournalFacts.DoubtedBeforeBuried | apps/execution-service/src/pipeline/pipeline.ts:624-663 | between an attempt's confirmation and a NOT_LANDED the tracker writes for it stands a REORG_PENDING line of it |
| Lawful.SubmissionsNeverOutrunSignatures | apps/execution-service/src/pipeline/pipeline.ts:284-296 | in a lawful journal an attempt submits at most once and never more often than it signed |
| Lawful.ShadowsIncrease | apps/execution-service/src/pipeline/pipeline.ts:708-714 | journaled shadow sequences strictly increase |
| JournalFacts.ShadowsAscend | apps/execution-service/src/pipeline/pipeline.ts:708-714 | of any two journaled shadow sequences the later is the larger |
| ReorgPause.DoubtMeansPause | apps/execution-service/src/pipeline/pipeline.ts:624-681 | attempt by attempt: outside a tick, an attempt that is REORG_PENDING implies an active local pause, unless an operator cleared a pause while it was in doubt or a crash fell between its doubt and its pause |
| ReorgPause.ClearLeavesDoubt | apps/execution-service/src/pipeline/pipeline.ts:202-206 | an operator's clear leaves the attempt in doubt with no pause exactly when it was in doubt |
| ReorgPause.TornDoubt | apps/execution-service/src/pipeline/pipeline.ts:630-631 | a crash leaves the attempt in doubt with no pause exactly when it falls between its two lines with no pause in force |
| Witnesses.DoubtTornByCrash | apps/execution-service/src/pipeline/pipeline.ts:630-631 | a run from the start, with no operator clear, that ends so |
| ReorgPause.TrackerLiftsInCertainty | apps/execution-service/src/pipeline/pipeline.ts:671-681 | when the tracker lifts a pause, in any run at all, no attempt is REORG_PENDING |
| PauseRuns.TrackerLiftsItsOwn | apps/execution-service/src/pipeline/pipeline.ts:671-681 | the tracker lifts a pause only when its reason is one of the tracker's own, torn crashes included, provided no operator clears a pause while the tracker is on its way to lift one |
| PauseRuns.ClearDuringRelease | apps/execution-service/src/pipeline/pipeline.ts:671-681 | that proviso is needed: from any reachable world on the way to a release, an operator clear and an emergency pause have the tracker lift the emergency pause |
| Witnesses.ForeignPauseLifted | apps/execution-service/src/pipeline/pipeline.ts:671-681 | a run from the start in which it does |
| PauseRuns.EmergencyPauseStays | apps/execution-service/src/pipeline/pipeline.ts:195-206 | an emergency pause that arrives with no pause in force and no release under way stays, with its reason, until an operator clears it, through ticks, doubts, crashes and restarts |
| PauseRuns.EmergencyPauseHoldsExactly | apps/execution-service/src/pipeline/pipeline.ts:195-206 | wherever an emergency pause arrives in a run: without an operator the executor may come to be unpaused again if and only if a tracker's pause was in force, which swallows it without a line, or a release was under way |
| PauseRuns.TrackerMayLift | apps/execution-service/src/pipeline/pipeline.ts:671-681 | from every reachable world under a tracker's pause some continuation without an operator lifts it: a restart and a tick that settles every doubt |
| PauseRuns.RunShown | apps/execution-service/src/pipeline/pipeline.ts:604-622 | an attempt that was ever observed confirmed had been sent, in every world of every run |
| Witnesses.EmergencyPauseSwallowed | apps/execution-service/src/pipeline/pipeline.ts:195-199 | a run from the start in which an emergency pause is swallowed and the executor is unpaused with no operator clear |
| Steps.RunSound | apps/execution-service/src/pipeline/pipeline.ts:176-304 | the invariant tying, for every attempt, its lines, its flow, both registry states and its transactions, in every world of every run |
| Steps.StepFramed | apps/execution-service/src/pipeline/pipeline.ts:176-304 | a step changes at most one attempt, in the way its segment prescribes, and no other attempt's lines, flow or registry states |
| Invariants.EmitSound | apps/execution-service/src/pipeline/pipeline.ts:222-225 | one output of one flow keeps the whole invariant if it keeps its own attempt's |
| Preservation.SeenWasSubmitted | apps/execution-service/src/pipeline/pipeline.ts:496-554 | what the chain shows under an attempt's journaled signature was sent by that attempt after its SUBMITTED line |
| Refinement.RecordIsARun | apps/execution-service/src/pipeline/pipeline.ts:468-494 | the one-call result of recording an outcome is reached by the step system, output by output |
| Results.SettleReaches | apps/execution-service/src/pipeline/pipeline.ts:468-494 | from every reachable world the adapter's answer, once its outputs are written, is recorded at the fill, or without one at the authorised input |
| Results.VisitReaches | apps/execution-service/src/pipeline/pipeline.ts:571-669 | from every reachable world a tracker's visit, once its outputs are written, leaves what its verdict asks for, with the amounts and the mint of the intent itself |
| Results.FailedIsNotOpen | apps/execution-service/src/pipeline/pipeline.ts:643-657 | in every world of every run an entry with a journaled result other than COMPLETED, whoever wrote it, is not open |
| Results.CompletedIsFinal | apps/execution-service/src/pipeline/pipeline.ts:528-541 | in every world of every run a COMPLETED result, whoever wrote it, means that the attempt's last journaled signature is final on chain and succeeded |
| Outcomes.RecordMeaning | apps/execution-service/src/pipeline/pipeline.ts:468-494 | what each outcome leaves, for any core |
| Outcomes.VisitMeaning | apps/execution-service/src/pipeline/pipeline.ts:571-669 | what each verdict of a visit leaves, for any core |
| Outcomes.ResolveMeaning | apps/execution-service/src/pipeline/pipeline.ts:517-551 | what recovery leaves of one signed attempt, for any core |
| Refinement.RecoverIsARun | apps/execution-service/src/pipeline/pipeline.ts:497-554 | from every reachable quiet world the step system reaches exactly the core the whole-call recovery function computes |
| Recovery.RecoverMeaning | apps/execution-service/src/pipeline/pipeline.ts:497-554 | attempt by attempt: the ledger entry recovery leaves, and which attempts it concludes; other attempts are untouched (a finalized emergency exit therefore releases nothing) |
| Recovery.FateExactly | apps/execution-service/src/pipeline/pipeline.ts:509-548 | which attempts expire, are final, are dead or are left, on their lines, the clock, the height and the status the chain shows |
| Recovery.RecoveredEntry | apps/execution-service/src/pipeline/pipeline.ts:509-548 | the entry left: confirmed at the prepared input when final, none when expired or dead, untouched otherwise |
| Recovery.UnresolvedAfterRecovery | apps/execution-service/src/pipeline/pipeline.ts:517-552 | afterwards the unresolved list holds exactly the unresolved attempts that are neither expired unsigned, nor finalized, nor failed, nor proven dead |
| Recovery.RecoverIdempotent | apps/execution-service/src/pipeline/pipeline.ts:497-554 | with the same chain and clock a second recovery changes nothing, journal included |
| Recovery.RecoverAfterCrash | apps/execution-service/src/pipeline/pipeline.ts:512-547 | cut off after any number of its lines, restarted from the journal and repeated, recovery ends with the same ledger and the same unresolved attempts |
| Exits.ExitsSellTheMint | apps/execution-service/src/pipeline/pipeline.ts:471-477 | in whatever order the exit loop visits them, every open entry of the mint is reduced by its own share of its exposure at the start, and nothing else changes |
| Exits.MintExposureAfterSale | apps/execution-service/src/pipeline/pipeline.ts:471-477 | the mint's exposure afterwards is the exact proportion kept plus less than one base unit per entry |
| Exits.FullSaleClearsMint | apps/execution-service/src/pipeline/pipeline.ts:471-477 | selling at least what is held leaves no open entry of the mint |
| Exits.RecoveryOverCounts | apps/execution-service/src/pipeline/pipeline.ts:528-537 | a recovery that finds an emergency exit final leaves the ledger as it was, and so above the tracker's by exactly what the sale takes out of the mint |
| Exits.OverCountBounds | apps/execution-service/src/pipeline/pipeline.ts:528-537 | in figures: by the sold proportion of the mint's exposure, up to one base unit an entry below it |
| Witnesses.SaleNotRecovered | apps/execution-service/src/pipeline/pipeline.ts:528-537 | a run from the start in which a final sale of half the holding is recovered and the entry still counts in full |
| ExposureLedger.SaleLeavesExactShare | apps/execution-service/src/caps/exposure-ledger.ts:50-60 | an exit leaves exactly the rounded-up share if and only if the confirmed basis is absent or not below the authorised notional, or everything is sold; otherwise it leaves less |
| ExposureLedger.FullSaleClears | apps/execution-service/src/caps/exposure-ledger.ts:50-60 | selling at least the held quantity, or a zero holding, removes the entry |
| ExposureLedger.SaleOfMint | apps/execution-service/src/pipeline/pipeline.ts:474-477 | over n entries the kept exposure is at least the exact share and exceeds it by less than n base units |
| ExposureLedger.RepeatedExits | apps/execution-service/src/pipeline/pipeline.ts:471-477 | any number of partial exits never falls below the exact proportion of what is still held and exceeds it by less than one base unit each |
| ExposureLedger.ShareComplement | libs/contracts/src/money/base-units.ts:55-57 | floor division of the sold share and ceiling of the kept share add up to the exposure |
| ExposureLedger.TotalAfter | apps/execution-service/src/caps/exposure-ledger.ts:35-80 | how each event moves the aggregate: only a reservation or a larger confirmed basis can raise it |
| ExposureLedger.AfterExactly | apps/execution-service/src/caps/exposure-ledger.ts:35-69 | what each event does to its own entry, and that it touches no other |
| ExposureLedger.AdmitsExactly | apps/execution-service/src/caps/exposure-ledger.ts:35-48 | an event throws exactly when it authorises an open entry or confirms one that is not |
| ExposureLedger.ExecutorExposureLedger.Apply | apps/execution-service/src/caps/exposure-ledger.ts:35-69 | the open entries after an event, and the two cases in which it throws and changes nothing |
| ExposureLedger.ExecutorExposureLedger.FromEvents | apps/execution-service/src/caps/exposure-ledger.ts:29-33 | a replay succeeds exactly when no event throws, and holds the folded entries |
| ExposureLedger.ExecutorExposureLedger.AggregateNonSettlementExposure | apps/execution-service/src/caps/exposure-ledger.ts:76-80 | the accumulator loop computes the sum of the exposures |
| ExposureLedger.ExecutorExposureLedger.SignerDependentExposure | apps/execution-service/src/caps/exposure-ledger.ts:82-86 | the sum over MONITORED_EXIT entries |
| ExposureLedger.ExecutorExposureLedger.OpenByMint | apps/execution-service/src/caps/exposure-ledger.ts:93-95 | exactly the open entries of the mint, each once, with their exposures |
| Pipeline.ExecutorPipeline.Start | apps/execution-service/src/pipeline/pipeline.ts:182-188 | the constructor: ledger, registry and pause are functions of the journal; it fails exactly when the replay throws |
| Pipeline.ExecutorPipeline.Deliver | apps/execution-service/src/pipeline/pipeline.ts:227-254 | a submission is claimed exactly when its authority is genuine, against the journaled nonces and the local pause, and its key is free; a redelivery, or an envelope refused only for its own spent nonce, is answered with the attempt the key holds and writes nothing |
| Pipeline.ExecutorPipeline.ClaimKey | apps/execution-service/src/pipeline/pipeline.ts:252-254 | a fresh key is claimed and journaled, a held key is left alone |
| Pipeline.ExecutorPipeline.Admit | apps/execution-service/src/pipeline/pipeline.ts:257-264 | caps and reservation as one segment: the open entry and the AUTHORIZED state, or FAILED and its line |
| Pipeline.ExecutorPipeline.JournalSigned | apps/execution-service/src/pipeline/pipeline.ts:284-288 | the SIGNED line, written before anything leaves the process |
| Pipeline.ExecutorPipeline.BeforeSubmit | apps/execution-service/src/pipeline/pipeline.ts:289-296 | the SUBMITTED line is written exactly for a risk-reducing intent, or with neither pause set, an activity that enters, a live authority and the capability |
| Pipeline.ExecutorPipeline.Record | apps/execution-service/src/pipeline/pipeline.ts:468-494 | the ledger, the registry and the line each outcome leaves: an entry confirmed at its fill or else its authorised input, a mint sold by that amount, a failure released; ending early only where an event throws |
| Pipeline.ExecutorPipeline.ExitMint | apps/execution-service/src/pipeline/pipeline.ts:471-477 | the loop over the open entries of the mint |
| Pipeline.ExecutorPipeline.PrepareClose | apps/execution-service/src/pipeline/pipeline.ts:376-382 | a free key is claimed with a PREPARED line that names the mint sold, and AUTHORIZED |
| Pipeline.ExecutorPipeline.SeenAttempts | apps/execution-service/src/pipeline/pipeline.ts:501-508 | the Map the first recovery loop fills says, for every prepared attempt in order, whether it was signed or concluded since its latest preparation |
| Pipeline.ExecutorPipeline.RecoverAttempts | apps/execution-service/src/pipeline/pipeline.ts:497-554 | both recovery loops compute the recovery function |
| Pipeline.ExecutorPipeline.ResolveAttempt | apps/execution-service/src/pipeline/pipeline.ts:517-551 | one signed attempt settled from what the chain shows: its ledger entry, its registry state and its line |
| Pipeline.ExecutorPipeline.ExpireAttempt | apps/execution-service/src/pipeline/pipeline.ts:509-516 | one unsigned attempt expired |
| Pipeline.ExecutorPipeline.Visit | apps/execution-service/src/pipeline/pipeline.ts:571-669 | for every quorum verdict the ledger, the registry, the pause and the line the visit leaves: final and confirmed at the prepared input, dead not open, doubt and divergence with their pause |
| Pipeline.ExecutorPipeline.TrackFinality | apps/execution-service/src/pipeline/pipeline.ts:565-683 | the visits in order, and the release of the tracker's own pause when nothing is uncertain and custody was read |
| Pipeline.ExecutorPipeline.ApplyLocalPause | apps/execution-service/src/pipeline/pipeline.ts:195-199 | an active pause is left as it is |
| Pipeline.ExecutorPipeline.ClearLocalPause | apps/execution-service/src/pipeline/pipeline.ts:202-206 | clearing an inactive pause writes nothing |
| Pipeline.ExecutorPipeline.LedgerEvent | apps/execution-service/src/pipeline/pipeline.ts:222-225 | an event that throws is not journaled |
| Pipeline.ExecutorPipeline.SyncShadow | apps/execution-service/src/pipeline/pipeline.ts:708-714 | a lower sequence is refused, an equal one is in sync, a higher one is journaled |
| Journal.Load | apps/execution-service/src/journal/journal.ts:59-78 | a file loads exactly when it is the chain of some sequence of appends, and then to those entries |
| Journal.LastHashDetermines | apps/execution-service/src/journal/journal.ts:86-96 | two chains with the same last hash are the same chain |
| Journal.TamperingRejected | apps/execution-service/src/journal/journal.ts:58-76 | any other file ending in the same line is refused: an edit, a swap or a dropped earlier line |
| Journal.TruncationAccepted | apps/execution-service/src/journal/journal.ts:58-76 | dropping lines off the end is the one edit the chain alone accepts |
| Journal.ExecutorJournal.OpenJournal | apps/execution-service/src/journal/journal.ts:45-56 | the fence is taken before the file is read; open is refused exactly under another holder's unreleased lock |
| Journal.ExecutorJournal.Append | apps/execution-service/src/journal/journal.ts:80-96 | one line on disk and in memory, or nothing when the lock names another token |
| Journal.ExecutorJournal.Release | apps/execution-service/src/journal/journal.ts:98-101 | the lock is rewritten whoever holds it |
| Journal.ExecutorJournal.NoncesUsed | apps/execution-service/src/journal/journal.ts:108-115 | the nonces of SIGNED and SUBMITTED lines |
| Journal.ExecutorJournal.UnresolvedAttempts | apps/execution-service/src/journal/journal.ts:118-124 | the attempts whose latest SIGNED, SUBMITTED or RESULT line is not a RESULT, in order of first appearance |
| JournalFacts.UnresolvedExactly | apps/execution-service/src/journal/journal.ts:118-124 | the unresolved attempts are those with a SIGNED or SUBMITTED line and no RESULT line after it |
| JournalFacts.SpentExactly | apps/execution-service/src/journal/journal.ts:108-115 | a nonce is spent exactly when a SIGNED or a SUBMITTED line carries it |
| Fencing.EveryRunLoads | apps/execution-service/src/journal/journal.ts:45-101 | with distinct tokens and one release per holder, every interleaving of opens, appends and releases leaves a file that loads and only grows |
| Fencing.LoadsExactly | apps/execution-service/src/journal/journal.ts:80-101 | however often holders release: at any point the file loads if and only if every holder the lock let append had missed no line |
| Fencing.SupersededNeverWrites | apps/execution-service/src/journal/journal.ts:80-88 | a superseded holder stays superseded and none of its appends changes anything |
| Fencing.StaleReleaseCorrupts | apps/execution-service/src/journal/journal.ts:98-101 | from any reachable fleet whose file loads, any holder may release, again or not, and append; the file then loads if and only if that holder had missed no line |
| Fencing.SecondReleaseRun | apps/execution-service/src/journal/journal.ts:98-101 | a history from the empty file: a superseded holder releases a second time, appends, and the file no longer loads |
| Intents.ClaimsArePermanent | libs/execution/src/state/intent.ts:38-45 | a claimed key keeps its intent and a terminal state never moves, whatever lines follow |
| Intents.AllowedExactly | libs/execution/src/state/intent.ts:47-56 | never back and never out of a terminal state; COMPLETED from EXECUTING alone, EXPIRED and CANCELLED before it alone, FAILED from anywhere |
| Intents.IdempotencyRegistry.ClaimKey | apps/execution-service/src/idempotency/intents.ts:41-45 | a fresh key is created, a held key is returned untouched |
| Intents.IdempotencyRegistry.AdvanceKey | apps/execution-service/src/idempotency/intents.ts:47-52 | only allowed transitions move the state |
| Intents.IdempotencyRegistry.Rebuild | apps/execution-service/src/idempotency/intents.ts:13-38 | the loop over the journal computes the rebuilt registry |
| Caps.CheckCaps | apps/execution-service/src/caps/check.ts:23-59 | granted exactly within the limits of slippage, cluster, settlement mint, capability and entry size and with room under the caps; every violated rule is reported, in order |
| Caps.AdmittedExactly | apps/execution-service/src/caps/check.ts:23-59 | the static limits and the room that admission means |
| Caps.ViolatesExactly | apps/execution-service/src/caps/check.ts:28-56 | when each rule is violated |
| Coverage.ReservedWithinLimits | apps/execution-service/src/caps/check.ts:28-46 | in every run an attempt that was ever reserved, whatever its effect, is within slippage, cluster, settlement mint, capability and, if it increases exposure, entry size |
| Caps.AdmissionKeepsCaps | apps/execution-service/src/caps/check.ts:34-55 | an admitted exposure-increasing entry leaves aggregate, per-entry and (LIVE_AUTO) signer-outage caps kept |
| Caps.MarkOnlyTightens | apps/execution-service/src/caps/check.ts:34-36 | a secondary mark can only turn a grant into a refusal |
| Caps.OtherEffectsBypassTheCap | apps/execution-service/src/caps/check.ts:37-38 | an intent that does not increase exposure is admitted whatever is open, and leaves the aggregate cap kept if and only if there was room |
| Authority.GateOnlyTightens | apps/execution-service/src/authority/mode-gate.ts:22-30 | fresher facts that lift no restriction (pauses, capability, activity, authority) never open a shut gate; risk reduction always passes; under a local pause nothing else does |
| Authority.GateExactly | apps/execution-service/src/authority/mode-gate.ts:22-30 | when the gate is open, and the first reason that applies otherwise |
| Authority.GenuineExactly | apps/execution-service/src/authority/verify.ts:72-121 | acceptance down to the clock, the stored row field by field, the grant and the mode |
| Authority.FailsExactly | apps/execution-service/src/authority/verify.ts:72-121 | when each defect is reported |
| Authority.BindingExactly | libs/contracts/src/envelopes/approval.ts:54-70 | when a grant binds, and the first reason that applies otherwise |
| Authority.TamperingDetected | apps/execution-service/src/authority/verify.ts:46-70 | no tampered field exactly when the stored row is the row of the signed terms |
| Authority.GrantBindsOnePayload | libs/contracts/src/envelopes/approval.ts:54-70 | a grant binds at most one authorization payload |
| Authority.VerifyAuthority | apps/execution-service/src/authority/verify.ts:72-121 | accepted exactly when genuine; otherwise exactly the failing checks are reported, and only the nonce exactly when it is the only defect |
| Authority.RedeliveryDiffersByNonce | apps/execution-service/src/pipeline/pipeline.ts:244-249 | the same envelope after its nonce was spent fails on nothing else |
| Audit.Drill | apps/execution-service/src/api/internal.ts:163-184 | the two passes report no violation exactly when every submission of every attempt has its own earlier signature; each violation is classified |
| Audit.EveryRunIsClean | apps/execution-service/src/api/internal.ts:152-184 | every journal a run can write is clean |
| Base58.Encode | libs/solana-hard-state/src/base58.ts:5-24 | the nested loops compute the base-58 digits of the bytes, one leading 1 per leading zero |
| Base58.Decode | libs/solana-hard-state/src/base58.ts:26-47 | the nested loops compute the bytes, or report the first character outside the alphabet |
| Base58.Absorb | libs/solana-hard-state/src/base58.ts:10-18 | one inner pass: the digit list keeps the value of the prefix read and has no leading zero |
| Radix.AccumulateMeaning | libs/solana-hard-state/src/base58.ts:9-19 | the digit list always denotes the number read so far, in range and without a leading zero |
| Radix.RepresentationUnique | libs/solana-hard-state/src/base58.ts:5-24 | a number has one such digit list |
| Radix.ConvertRoundTrip | libs/solana-hard-state/src/base58.ts:5-47 | converting to another base and back is the identity |
| Base58Laws.DecodeEncode | libs/solana-hard-state/src/base58.ts:5-47 | decoding an encoded byte array gives the array back, leading zeros included |
| Base58Laws.EncodeDecode | libs/solana-hard-state/src/base58.ts:26-47 | a string decodes exactly when all its characters are in the alphabet, and then re-encodes to itself |
| Base58Laws.EncodingDenotes | libs/solana-hard-state/src/base58.ts:5-24 | the text denotes the number the bytes denote, most significant first, and starts with as many 1s as they start with zeros |
| Base58Laws.AlphabetExactly | libs/solana-hard-state/src/base58.ts:2-3 | the alphabet is the letters and digits without 0, O, I and l, in ascending order |
| Base58Laws.AddressLength | libs/contracts/src/primitives.ts:30 | every 32-byte array encodes to between 32 and 44 characters |
| Base58.DigitOfIsIndex | libs/solana-hard-state/src/base58.ts:2-3 | the digit of a character is its index in the alphabet |
| Projection.VerifyProjection | apps/risk-authorizer/src/projection/verify.ts:52-104 | accepted exactly when nothing is objected to; every objection is reported |
| Projection.AcceptableExactly | apps/risk-authorizer/src/projection/verify.ts:52-104 | accepted exactly when signed, no older than the last accepted, within both clock bounds, for this release and policy, and nowhere above the chain by more than the tolerance |
| Projection.ObjectsExactly | apps/risk-authorizer/src/projection/verify.ts:58-102 | when each objection is raised |
| Projection.OnChainIsLastReading | apps/risk-authorizer/src/projection/verify.ts:89-91 | of several readings of an account and mint the last counts |
| Projection.CustodyHolds | apps/risk-authorizer/src/projection/verify.ts:89-97 | the custody loop with its break: every projected holding is backed by the last reading of its account and mint |
| Projection.WithinAboveIsExact | apps/risk-authorizer/src/projection/verify.ts:46-50 | the truncating integer test is the exact tolerance |
| Projection.AcceptedCustodyWithinTolerance | apps/risk-authorizer/src/projection/verify.ts:89-97 | an accepted projection claims no holding the chain does not show, up to the tolerance |
| Authorizer.AuthorizationLedger.Issue | apps/risk-authorizer/src/authorize/ledger.ts:26-30 | a nonce is issued once; the cycle then names it |
| Authorizer.AuthorizationLedger.Consume | apps/risk-authorizer/src/authorize/ledger.ts:41-46 | an entry is consumed once |
| Authorizer.AuthorizationLedger.PendingExposure | apps/risk-authorizer/src/authorize/ledger.ts:54-58 | the sum over open exposure-increasing entries, of one sleeve or all |
| Authorizer.IssueAddsItsAmount | apps/risk-authorizer/src/authorize/ledger.ts:26-58 | issuing adds exactly the amount to the totals the entry counts in |
| Authorizer.IssuedCountsExactly | apps/risk-authorizer/src/authorize/ledger.ts:26-58 | an issued entry counts until it is consumed or expires, for its own sleeve and for the total, if it increases exposure |
| Authorizer.ConsumedCountsNoMore | apps/risk-authorizer/src/authorize/ledger.ts:41-58 | consuming an entry takes out exactly what it counted for |
| Authorizer.PendingOnlyExpires | apps/risk-authorizer/src/authorize/ledger.ts:48-58 | time alone never raises pending exposure |
| Authorizer.PendingSplitsOverSleeves | apps/risk-authorizer/src/authorize/ledger.ts:53-58 | the total is the sum over sleeves plus the entries of no sleeve |
| Authorizer.NoDenialMeansProvenance | apps/risk-authorizer/src/authorize/authorize.ts:79-135 | the clearance, audit and capital checks pass together exactly when the entry has its full provenance |
| Authorizer.AuthorizeEntry | apps/risk-authorizer/src/authorize/authorize.ts:63-240 | an envelope is signed exactly when every check passes, for the amount evaluated on the authorizer's own pending exposure, for the query's own cycle, nonce, intent and sleeve, from now until the earlier of the two expiries; a refusal names the first failing check and leaves the ledger alone |
| Authorizer.SignableExactly | apps/risk-authorizer/src/authorize/authorize.ts:63-240 | an entry is signed exactly when release, projection, cycle, audit clearance, capital, size and nonce are in order, spelled out on their fields |
| Authorizer.DenialIsFirstCause | apps/risk-authorizer/src/authorize/authorize.ts:63-238 | a refusal names a check that fails, and every check made before it passes |
| Authorizer.NoEnvelopeOutlivesItsProposal | apps/risk-authorizer/src/authorize/authorize.ts:196-226 | over any run of calls, while a signed envelope is open its proposal and its intent have not run out |
| Authorizer.LatestCutoffIsLargest | apps/risk-authorizer/src/authorize/authorize.ts:80-82 | the cutoff a cycle must be cleared at is the largest version |
| Authorizer.AuthorizerService.Create | apps/risk-authorizer/src/service/authorizer.ts:65-72 | a restored ledger holds every stored authorization and knows its cycle; it fails exactly when two share a nonce |
| Authorizer.AuthorizerService.Authorize | apps/risk-authorizer/src/service/authorizer.ts:74-151 | a signed entry and its projection sequence are remembered; a denial changes nothing |
| Authorizer.OneEnvelopePerCycle | apps/risk-authorizer/src/authorize/authorize.ts:87-88 | over any run of serialised calls each cycle gets at most one envelope, and none if it was restored |
| Authorizer.ProjectionsNeverRollBack | apps/risk-authorizer/src/projection/verify.ts:62-66 | accepted projection sequences never decrease over a run |
| Authorizer.SignedCustodyWithinTolerance | apps/risk-authorizer/src/projection/verify.ts:89-97 | every custody row behind a signed envelope is within tolerance of the chain |
| Authorizer.SigningRaisesPending | apps/risk-authorizer/src/authorize/authorize.ts:238 | signing raises pending exposure by exactly the signed amount while the envelope is valid |
| Dedupe.Shingles | libs/intelligence/src/dedupe.ts:31-41 | the set of runs of consecutive tokens |
| Dedupe.WindowsAreRuns | libs/intelligence/src/dedupe.ts:40 | a shingle is exactly a run of that many consecutive tokens |
| Dedupe.Jaccard | libs/intelligence/src/dedupe.ts:43-48 | shared over total |
| Dedupe.SimilarityMeaning | libs/intelligence/src/dedupe.ts:43-48 | in [0,1] and symmetric; one exactly for equal non-empty sets, zero exactly for disjoint ones |
| Dedupe.AssignCluster | libs/intelligence/src/dedupe.ts:50-71 | the event joined is a qualifying one of greatest similarity, the oldest among equals; NEW exactly when none qualifies |
| Dedupe.AnswersMean | libs/intelligence/src/dedupe.ts:50-71 | spelled out: the window, the three ways of being alike, the cluster joined, the relation, and the oldest of the nearest |
| Dedupe.OrderDoesNotMatter | libs/intelligence/src/dedupe.ts:56-68 | the answer is the same for every permutation of the recent events |
| Dedupe.NoveltyIsComplement | libs/intelligence/src/dedupe.ts:69-70 | similarity is in [0,1] and novelty is its complement |
| Csv.ExportReadsBack | apps/web/src/lib/history.ts:440-449 | an RFC 4180 section 2 reader gets back the header and one record per row, cell for cell |
| Csv.NoFormulaSurvives | apps/web/src/lib/history.ts:440-445 | no field read back begins with a formula character |
| Csv.HarmlessCellsUnchanged | apps/web/src/lib/history.ts:440-445 | a cell comes back unchanged exactly when it did not begin with one |
| Csv.PlainExactly | apps/web/src/lib/history.ts:440-445 | a cell is written as it is exactly when it begins with no formula character and holds nothing that needs quoting |

## Left out

- Fence loss while a pipeline runs: an append that throws is modelled as a crash of that process (`Pipeline` holds the fence), while `Journal` and `Fencing` model the refusal itself.
- Overlapping appends: the await on the hash between reading the head and writing the line is not split.
- A tick racing a submission or close of the same attempt, and a tick overlapping a recovery.
- The gate at verification time in `Runs`: a delivery there is claimed whenever its key is free, which allows more runs than the code; `Pipeline.ExecutorPipeline.Deliver` has the exact condition.
- `LiveExecutionAdapter`, the direct-pool adapter, emergency planning and command verification, the RPC views and the quorum arithmetic: their answers are parameters with the contracts above.
- A provider that reports another signature than the one journaled, and a signature or last valid height missing from a SIGNED line's attempt in `Runs` (the journal functions handle both).
- Instants inside records, detail strings, database annotations, logging, and the 64-bit ceiling of amounts.
- PROTECTION_CHANGED in whole runs: the pipeline never emits it.
- Journal.ExecutorJournal.Append: the line is durable when written; a torn write is not modelled.
- ReorgPause.DoubtMeansPause: says nothing about the middle of a tick, when the pause may be the next line.
- Dedupe.AssignCluster: requires recent events with distinct ids; the titles are given as their normalised tokens, and similarities are exact rationals instead of doubles.
- Projection.WithinAboveIsExact: the tolerance is a non-negative whole number of basis points.
- Authorizer.AuthorizeEntry: release verification, the emergency-route verdict, the sleeve lookup and the risk evaluation are parameters; the codes of one check group that differ only in their text are one code.
- Authorizer.OneEnvelopePerCycle: calls are serialised; two concurrent calls for one cycle are not modelled.
- Csv.ExportReadsBack: the column names are a parameter without separators, quotes or formula starts, and a number arrives already printed.
- HTTP surfaces, schema parsing, the signer, the order and quote clients, SQL, the web components and the test doubles.
