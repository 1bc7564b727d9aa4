# FAAR: authority, permits and settlement, proved

FAAR lets an agent move money through venues under grants that an operator can stop at any moment. This
project models its durable core and proves what that core promises: one external effect per intent,
budgets that are released only when nothing can happen any more, limits that hold in every window,
stops that stick, and settlement that only moves forward.

`dafny verify dfyconfig.toml` verifies everything.

## How the model is built

**One transaction, one step.** `StoreOps` gives every store transaction as a function on the whole durable
state (`World`: the database tables and the marks of the external anchor). A transaction that raises
leaves the state as it was. `Store` gives the same transactions as methods of `SQLiteIntentStore` and
`AuthorityAnchor` that update tables in place; each method's postcondition says that the new state and
the answer are those of its function. What holds for every sequence of transactions, whoever issues them,
is proved in `Ledger`, `RiskClaims` and `Authority`. `Restore` adds that the datastore may be restored to
any earlier copy while the anchor may not; `Closure` says exactly when a grant version that is behind its
mark stays closed then. `Laws` says for every transaction, over the tables themselves, exactly when it is
granted and all it leaves behind.

**The protocol is a state machine.** `Protocol` cuts the runtime's `process`, `_submit`, `reconcile` and
`_stop_execution_state`, with permit issuance, at every transaction. A worker is a program counter (`Pc`)
plus the durable state; `PlanFor` computes its next transaction, `Continue` where the answer leads. A run
interleaves the steps of any number of workers on any number of intents with late consumption by venues,
operator transactions, new intents, orphan repair, workers that stop between two transactions, owners
that die, and leases cleared from dead owners. Gate verdicts, clocks, adapters and verifiers are free
inputs at every step.

**Proofs go through one intent.** `LocalView` projects the world to what one intent sees and states what
a transaction may do to that. `LocalInv` holds the invariant of row, reservation, permits and worker, and
shows each step keeps it. `Runs` lifts it to the system, the lease giving mutual exclusion. `Guarantees`,
`Attempts` and `Minting` draw the conclusions for every run. `Steps` and `Outcomes` say what each step of a
worker does: under which gates it acts, and where an answer, a rejection or a stop leaves row, budget and
permits for good. `RestoredRuns` runs the same machine on a
datastore that is restored now and then. `LeaseNeeded` shows that the machine without its two lease rules
has a run with two effects of one intent.

**Refinement.** `PermitModel` is the authors' abstract machine with its bounds on permits and depth
removed, and with re-activation and further epoch advances added. It is safe exactly with both of its
rules. `PermitCore` and `Refinement` show that every run of the concrete protocol from a store without
intents is, for each intent, a run of that machine under both rules, provided the verifier claims an effect
or a cancelled order only for an intent one of whose permits the venue admitted.

**Around the core.** `Settlement` is the decision on one verifier record, `Quorum` the vote among sources,
`Evidence` the hash chain with its signed head (the hash is a constructor, so injective),
`IntentGuard` the reference-counted lock map, `Hyperliquid` order sizing and fill aggregation, `PaperBook`
the paper venue, `MockVenue` the reference venue and its reconciliation. `PaperLaws` and `HyperliquidLaws`
say in numbers what the two venues' operations decide.

Amounts are integers in units of 10^-8, instants integer microseconds, ledger stamps whole seconds;
quantities computed by division are reals.

## Findings

- A grant version behind its mark does not stay closed: docs/INVARIANTS.md, I-33, says only
  revoke_after_restore changes its lifecycle, but a halt advances the epoch of every row in its scope without
  comparing it with the mark, and so does a pause that cannot read the anchor. One halt and its resumption
  bring a restored version back to issuing (`Closure.HaltReinstates`), even one that was closed with the
  anchor (`Closure.HaltUndoesClosure`; faar/store.py:1118-1171, faar/store.py:1518-1525), and let the store
  consume a second permit of one intent (`Closure.HaltLetsOneIntentActTwice`). It stays closed exactly as long
  as no such halt or pause takes its row up to the mark and no copy is restored in which it is open
  (`Closure.ClosedUntilReinstated`); while halts and pauses reach the anchor and take none up, an intent has
  one effect at most across all restores (`RestoredRuns.ExactlyOnceAcrossRestores`).
- The lease is load-bearing. A second worker that has passed the ledger check may begin a submission after
  another worker's permit was consumed; the live-permit test ignores consumed permits, also unexpired ones
  (`LeaseNeeded.TwoWorkersTwoEffects`, faar/store.py:1692-1703, faar/runtime.py:1168).
- A recorded fill can shrink, exactly for a non-monetary order reported partially filled without an amount,
  which is written as zero (`Settlement.FillShrinksIff`, faar/runtime.py:1055-1061).
- The two risk ledgers may name different owners for one state version, exactly when a retry claims a
  version another intent reserved and has not minted a permit from
  (`RiskClaims.LedgersMayNameDifferentOwners`, faar/store.py:1643-1674).
- A pause committed while the anchor refuses the write is undone by restoring the copy taken just before
  it; with the write it is not (`Restore.StopSurvivesRestoreIffAnchored`, faar/store.py:1546-1556).
- Tightening an exposure cap does not commit through an anchor that refuses to be read, as I-33 has it: the
  read at faar/store.py:1243 is outside the handler that tolerates a failed write
  (`Ledger.UnreadableAnchorRefusesTightening`). A change of cap commits exactly when the anchor answers the
  read and, unless it tightens, takes the write (`Ledger.CapCommitsIff`).
- Reconciling an order against the reference venue stops in two cases and no other: a payment that is open
  or was cancelled part-filled, and any order the venue admitted without keeping a record, once its window
  is closed (`MockVenue.HonestHistoryStopsIff`, `MockVenue.AdmittedWithoutRecord`,
  faar/adapters.py:159-160, faar/runtime.py:1166-1173).

## Model

| member | source | states |
|---|---|---|
| Guarantees.ExactlyOnce | faar/runtime.py:1144-1226 | Over any run from a store without intents, with retries, takeovers, crashes, late venues and operator stops, an intent has at most one external effect |
| Guarantees.AtMostOneConsumed | faar/store.py:1753-1860 | In every reachable ledger at most one permit of an intent is consumed |
| Guarantees.ReleasedIsFinal | faar/store.py:2117-2203 | Once a reservation is released, in every continuation it stays released, the row is frozen, no permit of the intent is live, issued or consumed, and none was consumed before except under an authoritative cancellation with nothing filled |
| Guarantees.BudgetFollowsState | faar/runtime.py:302-322 | Every in-flight state has held usage, FINALIZED has committed usage, released usage means a terminal state other than FINALIZED |
| Guarantees.WindowAnnouncesLivePermit | faar/store.py:1692-1751 | A live permit is the only live permit of its intent, all others are voided, and ambiguity_until equals its expiry |
| Guarantees.AttemptNeedsDeadPermits | faar/store.py:2279-2284 | A submission begins, resetting the window, only when every earlier permit is voided and none consumed, no effect is recorded, the budget is held and no durable block was ever persisted |
| Guarantees.DurableBlock | faar/runtime.py:859-868 | Once EXECUTION_DETERMINISTIC_FAILURE, verified or not, stands on a row, no later step of any run begins a submission or records a permit for the intent |
| Guarantees.BlockLeavesABarrier | faar/runtime.py:1037-1073 | Wherever either code is dropped later, a recorded effect or a terminal state stands in for it |
| Outcomes.RejectionIsFinal | faar/runtime.py:736-752 | After an adapter rejection nothing is submitted or issued for the intent in any continuation, whoever crashes or takes over |
| Guarantees.AbsenceWaitsForExpiry | faar/runtime.py:1144-1160 | In every run a worker sets out to void for absence only when every permit a venue may still honour expired at least the clock skew ago |
| Steps.UnacceptedRecordHoldsBudget | faar/runtime.py:302-322 | A settlement record that is not accepted stops the intent with its permits dead, and its budget is held in every continuation, also when nothing was submitted |
| Steps.SettlementStopKeepsBudget | faar/runtime.py:302-322 | Budget behind a stop with a settlement code is never released or committed by any later step |
| Steps.ClosedGatesAttemptNothing | faar/runtime.py:598-655 | While no gate lets an intent through, nothing is submitted or issued for it in any continuation |
| Steps.AttemptNeedsGates | faar/runtime.py:598-655 | Only the intent's own worker, its gates open at that moment and the permit's expiry ahead, begins a submission or records a permit |
| Steps.EntryDecides | faar/runtime.py:324-476 | Where process() takes an intent: ended with its budget released, on to reservation or submission, or into reconciliation with or without the right to retry |
| Steps.UnprovisionedLeavesRow | faar/runtime.py:345-350 | Without its provisioned grant a fresh intent is stopped and any other is left untouched |
| Steps.ReservingDecides | faar/runtime.py:478-482 | An intent is authorized exactly when its reservation is granted, and deferred otherwise |
| Steps.SubmittingDecides | faar/runtime.py:598-655 | A submission begins exactly with open gates and room under the attempt and action limits; otherwise the intent is stopped with its budget given back |
| Steps.IssuingDecides | faar/permits.py:309-380 | Issuing claims the risk state, allocates the fence and records the permit under it, and any failure ends the attempt |
| Steps.AnswerDecides | faar/runtime.py:712-802 | After any adapter answer the row is UNKNOWN until the permit expires, with the budget held; only a rejection forbids a retry |
| Steps.ReconcilingDecides | faar/runtime.py:838-904 | Exactly the failure codes go with the row into RECONCILING and forbid a retry; without an adapter the intent stops, its budget released only if nothing was submitted |
| Steps.UnansweredDecides | faar/runtime.py:906-934 | A verifier that raises leaves the intent open with its block, one that answers nonsense stops it, both with the budget held |
| Steps.OrphanSettles | faar/runtime.py:302-322 | Exactly which holds are repaired without the lease, and how |
| Outcomes.AcceptedEffectIsRecorded | faar/runtime.py:1024-1073 | An accepted effect settles row and budget in one transaction, unless another intent of the venue owns it |
| Outcomes.StopEnds | faar/runtime.py:1325-1355 | A stop kills the permits first, then ends the intent, and releases the budget only if it says so |
| Outcomes.AbsenceChecksLedger | faar/runtime.py:1161-1173 | Absence voids the permits first, and a permit consumed before that turns it into a stop with the budget held |
| Outcomes.AbsenceReleases | faar/runtime.py:1174-1212 | Absence that may not be retried ends the intent and releases its budget, FAILED_SAFE after a deterministic failure |
| Outcomes.CancellationEnds | faar/runtime.py:1104-1131 | An order cancelled without a fill ends FAILED_SAFE with its identity claimed, its permits dead and its budget released |
| Outcomes.FailedIssuanceReleases | faar/runtime.py:672-697 | An attempt for which no permit was issued ends FAILED_SAFE with its budget released |
| Guarantees.SettlementHistory | faar/runtime.py:980-1022 | Over any continuation the effect id is write-once, the fill of a monetary intent never shrinks, terminal rows never change |
| Guarantees.SettledWithinAuthority | faar/runtime.py:1243-1287 | Recorded fills stay within the authorised amount and a FINALIZED payment settled it exactly |
| Guarantees.EffectsUniqueAlways | faar/store.py:2168-2200 | After any sequence of transactions no two intents of one venue share an effect id |
| Guarantees.OnlyTheHolderWrites | faar/store.py:859-918 | Only a living worker that owns the lease changes an intent row, so what a worker read stays true between its transactions |
| Guarantees.RunContinues | faar/runtime.py:1024-1131 | What a whole continuation may change of an intent: dead permits, settled budget, effect and fill persist, and nothing begins after a block or a consumption |
| Runs.RunKeepsInv | faar/runtime.py:565-802 | The invariant of all intents and workers, with mutual exclusion by lease, holds in every run |
| LocalInv.WorkKeeps | faar/runtime.py:838-1226 | Every step of an intent's worker, whatever its inputs and the answer of its transaction, keeps the intent's invariant and changes no more than allowed |
| LocalInv.RepairKeeps | faar/runtime.py:302-322 | Repairing an orphaned hold without the lease keeps the invariant |
| Attempts.AdapterCallsBounded | faar/store.py:2232-2239 | Over an intent's whole life adapter calls never exceed begun submissions, and those never exceed max_submission_attempts of its grant |
| Attempts.MeasureFalls | faar/runtime.py:565-802 | The measure of the submit/reconcile recursion falls at every transaction of the worker and nothing but another entry raises it |
| Attempts.CallsEnd | faar/runtime.py:838-1226 | Between two entries the worker makes a bounded number of transactions, whatever everybody else does |
| Minting.NoTwoIntentsShareRiskState | faar/permits.py:309-314 | Over every run each permit has the risk state it was minted from, and permits of one grant version, scope and state version belong to one intent |
| LeaseNeeded.TwoWorkersTwoEffects | faar/store.py:1692-1703 | Without its two lease rules the machine has a run from a store without intents in which one intent has two external effects, the first permit unexpired when the second is recorded |
| Refinement.ProtocolRefinesModel | evals/model_check_permit_protocol.py:61-120 | From a store without intents every run is, for each intent the verifier is honest about, a run of the abstract protocol under both rules from a state without permits; none of its failures occurs, and a finalized intent has no live permit |
| Refinement.StepRefines | evals/model_check_permit_protocol.py:61-104 | Each concrete step amounts to abstract actions that are allowed under both rules |
| Refinement.OperatorFences | faar/store.py:1118-1189 | Every change of status and every new halt advances the epoch of the grants it concerns |
| PermitCore.CoreIssue | faar/store.py:1566-1603 | Allocating a fence is the abstract issue: quiescent and clean ledger |
| PermitCore.CoreConsume | faar/store.py:1753-1860 | Consuming a handed-over live permit at the current epoch is the abstract consumption |
| PermitModel.SafeIffBothRules | evals/model_check_permit_protocol.py:147-198 | Over runs of any length with any number of permits the abstract protocol is free of failures exactly with quiescence and the ledger check |
| PermitModel.SafeWithBothRules | evals/model_check_permit_protocol.py:107-120 | With both rules every run ends without any of the four failures |
| PermitModel.DeadStaysUnconsumed | evals/model_check_permit_protocol.py:152-164 | A voided permit or one of a past epoch is never consumed in any continuation, whatever the rules |
| PermitModel.StoppedStandsStill | evals/model_check_permit_protocol.py:61-104 | From a revoked grant or under a stop nothing is issued or consumed until it is lifted, whatever the rules |
| PermitModel.NoFailureMeans | evals/model_check_permit_protocol.py:110-120 | The four failures in terms of effects, consumed permits and what the verifier saw |
| Ledger.GrantTurnoverBound | faar/store.py:1946-1960 | Under a common cap, held and committed amounts stamped in any inclusive 86,400 s window sum to at most the cap, across grant versions and out-of-order stamps, after any transactions |
| Ledger.ScopeExposureBound | faar/store.py:1962-1981 | The same bound for operator exposure caps of a scope |
| Ledger.AdmissionBoundsEveryWindow | faar/store.py:1291-1302 | A reservation admitted against its trailing window keeps every window within the cap, however stamps are ordered |
| Ledger.OverspendRefused | faar/store.py:1946-1981 | A new reservation is refused whenever the held and committed amounts of the last 86,400 s, legacy rows included, and its own exceed the turnover limit or a cap |
| Ledger.CapCommitsIff | faar/store.py:1198-1263 | A cap change commits exactly when the anchor answers the read and, unless it tightens, the write; committed, the new cap is in force at once, refused, nothing moved |
| Ledger.UnreadableAnchorRefusesTightening | faar/store.py:1243 | Through an anchor that cannot be read a tightening is refused while a pause commits |
| Ledger.VelocityBound | faar/store.py:1304-1335 | Recorded venue attempts in any trailing action window never exceed the cap, retries counted separately and releases irrelevant |
| Ledger.AttemptsMatchCounter | faar/store.py:2205-2293 | The attempt rows of an intent always number its submission_count |
| RiskClaims.PermitRiskHasOneOwner | faar/store.py:1619-1682 | No two intents ever both obtain a permit claim on one state version |
| RiskClaims.ReservedRiskHasOneOwner | faar/store.py:1912-1945 | A version reserved by one intent, or minted from by another, is never reserved again |
| RiskClaims.ClaimStep | faar/store.py:1619-1682 | Each newly inserted claim is at or above every version already claimed in either ledger |
| RiskClaims.StaleIsRefused | faar/store.py:1619-1682 | A state version older than one claimed in either ledger is refused by both |
| RiskClaims.LedgersMayNameDifferentOwners | faar/store.py:1643-1674 | Exactly when the two ledgers come to name different owners |
| Authority.GrantAdvances | faar/store.py:1500-1564 | Over any transactions epochs and fences never decrease, REVOKED absorbs, and ACTIVE is left only with a new epoch |
| Authority.IssuedBeforeStopIsDead | faar/store.py:1118-1189 | No permit whose fence was allocated before a pause, revocation, halt or closure commits is consumed after it, in any interleaving |
| Authority.ConsumedAtMostOnce | faar/store.py:1753-1860 | A permit is consumed at most once |
| Authority.VoidedNeverConsumed | faar/store.py:1417-1437 | A voided permit is never consumed |
| Laws.Transitions | faar/store.py:2117-2203 | Exactly which transitions are granted, and the whole row and reservation they leave |
| Laws.TransitionTable | faar/store.py:2117-2203 | The 25 transitions of the state machine |
| Laws.Registration | faar/store.py:2068-2115 | An intent id is bound to one payload: the same one registers again without a trace, another is refused |
| Laws.Submissions | faar/store.py:2205-2293 | Exactly when a submission begins, over the attempt rows and pending reservations of the action window |
| Laws.Reservations | faar/store.py:1878-2022 | Exactly when a reservation is granted, over turnover, caps, slots and claims, and what it books |
| Laws.PermitClaims | faar/store.py:1619-1682 | Exactly when a permit may be minted from a risk state |
| Laws.Recordings | faar/store.py:1705-1751 | Exactly when a permit is recorded, and the window it opens |
| Laws.Voidings | faar/store.py:1417-1437 | Voiding touches exactly the unconsumed permits of the intent |
| Laws.Allocations | faar/store.py:1566-1603 | A fence is allocated exactly for a version in force, one higher, with its mark |
| Laws.Consumptions | faar/store.py:1753-1860 | A permit is consumed exactly when it is the newest of its intent, unused, of the current epoch, and its version in force |
| Laws.StatusChanges | faar/store.py:1500-1564 | Exactly which lifecycle changes commit, each with a new epoch |
| Laws.Halts | faar/store.py:1118-1171 | A halt advances the epoch of exactly the versions in its scope |
| Laws.Resumptions | faar/store.py:1173-1189 | Resuming one scope leaves every other halt in force |
| Laws.StoppedIssuesNothing | faar/store.py:1566-1603 | A version that is not ACTIVE or is under a halt allocates and consumes nothing |
| Laws.Closures | faar/store.py:1045-1090 | A closure revokes one epoch past row and mark with no fence below either |
| Laws.CapChanges | faar/store.py:1198-1263 | Exactly which cap changes commit, with a version past row and mark |
| Restore.ConsumedOnceAcrossRestores | faar/store.py:1826-1856 | From a freshly bound datastore on, no permit is consumed twice over any history of commits, crashes before the commit, backups and restores |
| Restore.AllocatedOnceAcrossRestores | faar/store.py:1589-1599 | No fence is allocated twice over such a history |
| Closure.ClosedUntilReinstated | faar/anchor.py:88-89 | From the moment a version is revoked or behind its mark it issues and consumes nothing in any continuation, restores included, exactly as long as no halt and no pause without the anchor takes its row up to the mark and no copy is restored in which it is open |
| Closure.ClosureIsFinal | faar/store.py:1045-1090 | A version closed after a restore stays closed exactly as long as nothing reinstates it; closed with the anchor, no copy whose epoch had not passed row and mark does, so that only a halt or an unanchored pause can |
| Closure.RevokedIsNeverReinstated | faar/store.py:1532-1533 | Without a restore a revoked version stays closed whatever is halted or paused |
| Closure.UsableIffOpen | faar/store.py:1566-1603 | In an anchored datastore some sequence of transactions without a halt or a pause leads to an issue or a consumption exactly when the version is neither revoked nor behind its mark |
| Closure.CommitShut | faar/store.py:1516-1564 | One transaction opens a closed version exactly when it is a halt in scope or a pause that cannot read the anchor, and takes the row up to the mark |
| Closure.CrashFailsClosed | faar/store.py:1589-1599 | A worker that dies between the anchor write and the commit leaves the version closed |
| Closure.ReopeningRaises | faar/store.py:484-505 | An anchored open raises marks that fell behind, lowers none, and opens no closed version |
| Closure.HaltReinstates | faar/store.py:1118-1171 | After an issue, the restore of the copy before it, one halt and its resumption the version issues again |
| Closure.HaltUndoesClosure | faar/store.py:1118-1171 | After an anchored closure, the restore of the copy before it, one halt and its resumption the closed version issues again |
| Closure.HaltLetsOneIntentActTwice | faar/store.py:1118-1171 | The same halt lets two permits of one intent be consumed, one before the restore and one after |
| RestoredRuns.ExactlyOnceAcrossRestores | faar/store.py:1826-1856 | Over any history of workers, venues, operator, crashes and restores an intent has at most one external effect, lost histories included, as long as halts and pauses of its version reach the anchor and none lifts it from behind its mark |
| Restore.AnchoredStopSurvivesRestores | faar/anchor.py:99-110 | Once the anchor saw an epoch, no permit of an earlier epoch is consumed from whatever backup |
| Restore.StopSurvivesRestoreIffAnchored | faar/store.py:1546-1556 | A stop survives restoring the copy before it exactly when the anchor took the write |
| Settlement.AbsenceIsActedOnIff | faar/runtime.py:1144-1173 | Absence is acted on exactly for an authoritative, bound NONE with no recorded effect, at or after the announced expiry plus the clock skew |
| Settlement.NoEffectIff | faar/runtime.py:1132-1173 | What authoritative absence, contradiction and ignorance lead to, before and after the announced expiry |
| Settlement.SettledIff | faar/runtime.py:953-1047 | A final or confirmed effect is recorded exactly when it is vouched for, its amount fits and it takes nothing back |
| Settlement.OpenOrderIff | faar/runtime.py:1048-1073 | An open order is recorded with its fill so far exactly under the same conditions; a payment is never open |
| Settlement.CancelledIff | faar/runtime.py:1074-1131 | When a cancelled order is final with its fill, ends safely, or contradicts what was recorded |
| Settlement.WithoutAuthority | faar/runtime.py:946-978 | A record without authority changes nothing, except that a contradiction stops |
| Settlement.StopNames | faar/runtime.py:980-1042 | Which contradiction of a record is named, in order |
| Settlement.AmountNames | faar/runtime.py:1243-1287 | Which objection to an amount is named, in order |
| Settlement.PositiveIsEarned | faar/runtime.py:953-1131 | Only an authoritative, bound, identity-preserving record within the authorised amount advances an intent |
| Settlement.FillShrinksIff | faar/runtime.py:1055-1061 | Exactly when a recorded fill would shrink |
| Settlement.BlockIsCarried | faar/runtime.py:1236-1241 | Every non-terminal outcome carries the durable block |
| Quorum.Verify | faar/settlement.py:133-256 | The verdict over the replies: a torn ballot is CONTRADICTORY, otherwise the verdict is the one fact that is backed, and without one no answer |
| Quorum.VerdictMeans | faar/settlement.py:169-256 | CONTRADICTORY exactly when a record is about another request or two cannot both be true; otherwise a fact is the verdict exactly when quorum many back it, final votes backing the confirmation they imply; otherwise UNKNOWN without authority |
| Quorum.AttestedByHonestSource | faar/settlement.py:133-256 | With fewer than quorum faulty sources every authoritative verdict but a contradiction is attested by an honest source |
| Quorum.FinalIff | faar/settlement.py:169-225 | FINALIZED is the verdict exactly with quorum final votes, no mismatch and no vote for anything else |
| Quorum.VerdictIgnoresOrder | faar/settlement.py:144-191 | The verdict does not depend on the order of the sources |
| Quorum.WeightlessSource | faar/settlement.py:150-168 | Raising or non-authoritative sources do not change the verdict |
| Evidence.EvidenceLog.VerifyRows | faar/store.py:2512-2538 | The walk accepts exactly valid chains and stops at the first broken row |
| Evidence.EvidenceLog.EvidenceStatus | faar/store.py:2543-2594 | The exact condition of every status over rows, head and birth of the log: intact exactly when every row links and, under a key, the head names the last one |
| Evidence.EvidenceLog.Append | faar/store.py:2335-2376 | An append is refused exactly when the head does not name the last row, else adds one row that links and a head that names it |
| Evidence.EvidenceLog.RebuildHead | faar/store.py:2413-2460 | A head is committed exactly over a linked chain that predates heads, or over an empty one that is adopted |
| Evidence.HeadHashBindsChain | faar/store.py:2512-2538 | Two valid chains with the same last hash are the same chain, length included |
| Evidence.GenuineHeadProtectsLog | faar/store.py:2570-2594 | While the genuine head survives, the log is intact exactly for the genuine rows |
| Evidence.AppendKeepsVerdict | faar/store.py:2304-2333 | An accepted append leaves an intact log exactly when it was intact, or when rows and head were both absent |
| Evidence.HeadNeverLaunders | faar/store.py:2304-2333 | With a head present an append never turns an invalid log valid |
| IntentGuard.MutualExclusion | faar/store.py:835-947 | At most one thread is inside an intent's guarded section in any interleaving |
| IntentGuard.OneLockPerIntent | faar/store.py:835-857 | Two lock objects are never in use for one intent, and an entry exists exactly while a thread needs it |
| IntentGuard.LockMap.Acquire | faar/store.py:835-844 | Taking or creating the entry counts one more user |
| IntentGuard.LockMap.Release | faar/store.py:846-857 | The last user removes the entry |
| Hyperliquid.LotValueIsWhole | faar/hyperliquid.py:197-218 | At a valid price one lot is worth whole units, so no notional is ever rounded |
| Hyperliquid.LargestSize | faar/hyperliquid.py:268-287 | The size chosen is the largest whose notional fits the authorisation |
| Hyperliquid.RequestOrder | faar/hyperliquid.py:221-300 | The order is the largest fitting size, and each refusal has its exact condition, also when division overshot by one lot |
| Hyperliquid.RoundedQuotient | faar/hyperliquid.py:268-273 | Any monotone rounding that keeps whole lots overshoots by at most one lot |
| Hyperliquid.ReadFills | faar/hyperliquid.py:674-713 | Consistent fills are totalled once per trade id, or refused when the amount does not fit; others are rejected for the first offending fill |
| Hyperliquid.FillOrderIrrelevant | faar/hyperliquid.py:674-713 | Neither the order of fills nor repetitions of a trade matter |
| Hyperliquid.FillsStayAuthorized | faar/hyperliquid.py:592-622 | Any consistent fill list of a valid order settles at most the authorised notional |
| Hyperliquid.FilledOrderFinalizes | faar/hyperliquid.py:598-622 | The verdict is final exactly for a filled order whose trades make up its size, and the overdraft objection never fires |
| HyperliquidLaws.Verdicts | faar/hyperliquid.py:546-622 | For every report of fills: settled or cancelled at exactly the trades' cost rounded up to a unit, undecided exactly while more may be learned |
| HyperliquidLaws.SpotPrices | faar/hyperliquid.py:212-218 | A price is valid exactly when it is whole or has at most five significant digits and few enough decimals |
| HyperliquidLaws.CeilingIsLeast | faar/hyperliquid.py:197-209 | The notional of a size is the least amount not below its exact worth |
| HyperliquidLaws.FirstFailedCheck | faar/hyperliquid.py:221-265 | A request is refused by the first of twelve checks it fails |
| HyperliquidLaws.FirstFailedFillCheck | faar/hyperliquid.py:674-713 | A fill of the order is rejected by the first of six checks it fails |
| PaperBook.BalancesAreFilledLegs | faar/paper_gateway.py:633-698 | In every run balances are the initial ones plus the legs of exactly the filled trades, never negative, each fill inside its limit |
| PaperBook.BalancesNearExact | faar/paper_gateway.py:648-649 | With a division accurate to a relative error, every balance is within that error, relative to what moved, of the one exact quotients would give |
| PaperBook.FilledAndCancelledAbsorb | faar/paper_gateway.py:620-674 | FILLED and CANCELLED orders never change again |
| PaperBook.AdmittedIsNeverAbsent | faar/paper_gateway.py:700-752 | A request whose permit was consumed never looks up as NONE or as another request |
| PaperBook.ConsumedAtMostOncePerKey | faar/paper_gateway.py:442-510 | No second permit is consumed for one client order id |
| PaperLaws.RecordOfAdmitted | faar/paper_gateway.py:700-752 | In every run the record of an admitted order is final with its id and whole notional exactly when it traded, open with nothing while it rests, cancelled with nothing otherwise |
| PaperLaws.Admissions | faar/paper_gateway.py:442-510 | Exactly which orders are admitted, and whether each trades at once, rests or is cancelled |
| PaperLaws.Cancellations | faar/paper_gateway.py:523-576 | A cancellation is admitted exactly for an order of the same principal that has neither filled nor been rejected, and moves no balance |
| PaperLaws.Resubmissions | faar/paper_gateway.py:442-460 | A client order id on the book never changes it again, and gives its receipt exactly for the same request |
| PaperLaws.NoneLeftToMatch | faar/paper_gateway.py:420-435 | In every run, after matching no order that still rests would trade, and all that rest are as they were |
| PaperLaws.Fills | faar/paper_gateway.py:633-698 | A crossing order trades exactly when both legs can move, and then both have |
| PaperBook.PaperVenueService.Submit | faar/paper_gateway.py:442-510 | Admission, immediate fill, resting and rejection |
| PaperBook.PaperVenueService.CancelOrder | faar/paper_gateway.py:523-576 | Cancellation by order id or client order id |
| PaperBook.PaperVenueService.MatchPending | faar/paper_gateway.py:420-435 | Resting orders are matched in order of arrival, each filled or cancelled |
| PaperBook.PaperVenueService.Transfer | faar/paper_gateway.py:677-698 | Both legs move or neither |
| MockVenue.HonestHistoryStopsIff | faar/adapters.py:142-209 | Reconciliation against the reference venue stops exactly for a payment that is open or was cancelled part-filled, and for an admitted order without a record from the announced expiry plus the skew on |
| MockVenue.Venue.Execute | faar/adapters.py:142-175 | An effect is recorded once per intent, only when the permit is consumed, as the mode says |
| MockVenue.ModesOf | faar/adapters.py:142-175 | What a first call leaves at the venue, mode by mode |
| MockVenue.Venue.CompleteFill | faar/adapters.py:177-190 | The remainder fills unless the order was cancelled |
| MockVenue.Venue.CancelOrder | faar/adapters.py:192-209 | A resting order is cancelled with its fill so far |
| Store.SQLiteIntentStore.TransitionIntent | faar/store.py:2117-2203 | Compare-and-set of row and reservation in one transaction |
| Store.SQLiteIntentStore.StartSubmission | faar/store.py:2205-2293 | CAS into SUBMITTED with the attempt row, under attempt and velocity limits |
| Store.SQLiteIntentStore.Reserve | faar/store.py:1878-2022 | Turnover, exposure, velocity and risk claim, all or nothing |
| Store.SQLiteIntentStore.ClaimRisk | faar/store.py:1619-1682 | The permit-side risk claim |
| Store.SQLiteIntentStore.RecordExecutionPermit | faar/store.py:1705-1751 | The permit row and the ambiguity window in one transaction |
| Store.SQLiteIntentStore.ConsumeExecutionPermit | faar/store.py:1753-1860 | Single use against the current epoch, the anchor raised before the commit |
| Store.SQLiteIntentStore.VoidUnconsumedPermits | faar/store.py:1417-1437 | Exactly the live permits of the intent are voided |
| Store.SQLiteIntentStore.NextExecutionFence | faar/store.py:1566-1603 | A fence is allocated with its mark |
| Store.SQLiteIntentStore.SetStatus | faar/store.py:1500-1564 | Lifecycle change; stopping commits without the anchor |
| Store.SQLiteIntentStore.HaltScope | faar/store.py:1118-1171 | Every grant in the scope is fenced, whether the anchor takes all, some or none of the rows |
| Store.SQLiteIntentStore.RevokeRestored | faar/store.py:1045-1090 | The version is revoked past its mark |
| Store.SQLiteIntentStore.SetCap | faar/store.py:1198-1263 | The cap and its anchored version |
| Store.AuthorityAnchor.Record | faar/anchor.py:103-106 | Marks only rise |

## Left out

- Cryptography, encodings and attestation: signatures, MACs and hashes are injective or unforgeable by construction, attestation verdicts are inputs; the permit hash is part of the row's identity.
- SQL text, migrations, legacy rows, busy retries, the PostgreSQL dialect and WAL checkpointing: one transaction is one atomic step.
- The runtime's call structure: its methods appear as program counters rather than nested calls, because interleaving between transactions is what matters; result objects returned to callers are not modelled.
- Evidence appends inside protocol steps: `Protocol` does not write the evidence log; a worker may leave at any transaction, which covers an append that refuses.
- Gates, parsing and outcome criteria: their verdicts and codes are free inputs of the steps that use them; the lifetime of a permit is a free input too.
- Adapter deadlines and orphaned threads: a permit handed to an adapter may be consumed by the venue at any later step, or never; the per-process orphan cap is not modelled.
- File locking, HTTP transports, wire decoders and the CLI.
- The breadth-first exploration of the abstract protocol: the unbounded proof takes its place.
- The control_epoch of a halt record, calendar day keys and tumbling buckets: no decision reads them. Resuming a scope with a control record that is not halted is a refusal here and a no-op there.
- Guarantees.SettlementHistory: fill growth is claimed for monetary primitives only, because a partially filled order without an amount writes zero.
- Refinement.ProtocolRefinesModel: needs an honest verifier; without one a FINALIZED intent may hold a live permit. The other guarantees do not need it.
- Restore.ConsumedOnceAcrossRestores: voided permits are not protected across a restore, because voiding does not advance the anchored fence.
- PaperBook.BalancesAreFilledLegs: sums of balances are exact here; the venue's decimal context rounds them to 28 digits.
- RestoredRuns.ExactlyOnceAcrossRestores: an intent id stands for one payload in all histories, as callers promise; registering it with another one after a restore is not covered.
- Hyperliquid.RoundedQuotient: assumes that rounding is monotone and keeps whole lots; `Hyperliquid.SizesFitContext` shows the lots in question fit 28 digits.
