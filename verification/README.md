# Verified model of the accounts-payable agent

The agent reads invoices from a mailbox, decides whether each may be paid
without a person looking, and moves money through a provider. This project
models the parts of it that can go wrong with money and proves what they
guarantee, over every interleaving, run or input.

* **Payments.** `PaymentIntents` has the table and its single-statement reads
  and writes; `PaymentProtocol` interleaves any number of executors, preparing
  and repairing writers, the stale-claim promoter, reconcilers, throwing
  database calls and crashes, one atomic step at a time; `PaymentSafety` holds
  the theorems about all its runs, and `PaymentReopening` when a row can still
  cost another request. `PaymentExecution` has the code in its own
  imperative form, and a proof that one uninterrupted execution is a run of the
  protocol; `ExecutionOutcomes` says field by field what an execution and a
  reconciler pass come to. `PaymentProviders` classifies what one attempt at RazorpayX or at
  the Perflo CLI came to, and `SafeRetry` asks whether a row that invites a
  retry is really safe to pay again at a provider that does not deduplicate.
* **Concurrency around payees.** `PayeeLock` is the keyed promise-chain mutex;
  `GrantApproval` the one-pending-grant lifecycle with late outcomes and sweeps,
  and `GrantOutcomes` which attempt an outcome settles.
* **The decision.** `PaymentMethods` (rail codec), `PayeeResolver`, `Verifier`,
  `Eligibility`, `Policy`, `Duplicates`, `Level1` (pipeline and replay) and `Level1Reasons`,
  `Resume` (the pass that resumes what only the pause held back), `GrantCaps` and
  `ResumeCaps`.
* **Arithmetic, codecs, searches.** `Amounts`, `PaidChecks`, `ActivitySearch`,
  `SyncCoverage`.

A run is any sequence of actions; an action that is not enabled changes nothing,
so theorems quantify over all sequences. Ids, keys and provider references are
numbers, times are numbers, money compared with caps is `real`, policy reasons
and verifier flags are datatypes where the source has fixed texts.

## Where the code does not do what one might expect

Each of these is a lemma that gives the exact condition under which the expected
property holds, or stands next to one that does.

* The claim alone does not keep a second request out: a losing executor writes
  its own failure over the winner's claim and so reopens the row
  (`LoserReopensTheClaim`). A further request is possible exactly until the row
  is closed (`AnotherRequestIff`); requests are bounded by the row's failures
  (`CallsWithinClaims`), and payouts by the fixed key where the provider honours
  it (`AtMostOnePayout`). The Perflo CLI, the default, is not given the key
  (`worker/src/perflo-cli.ts:325-336`, where the row lock is counted on instead):
  there only the bound by failures holds (`PayoutsWithoutKeys`), sharpened to the
  failures recorded over money (`PayoutsWithinReopenings`, `PaysTwiceIff`), and,
  as far as our own side goes, a run can pay twice (`PaidTwice`).
* A claim does not clear an earlier attempt's reference, so after a crash the
  reconciler may judge the wrong attempt (`DeadClaimIsRecoverableIff`,
  `UnwrittenFailureIsRecoverableIff`).
* A verdict is written to any uncertain row, also when the owner has retried since
  it was asked for (`VerdictIsSafeIff`). Attempt 1 is uncertain under reference r
  and came to nothing; two passes read r; one hears and writes failed; the owner
  retries, the CLI is killed and its payout stands; the other pass now writes
  failed, and the row invites a third payment (`LateVerdictReopens`).
* Payable fields are read before the claim (`SentIsClaimedIffUnrepaired`), and
  an automatic payment uses the fields of an intent prepared earlier rather than
  those just judged (`PaidAsJudgedIff`).
* `packages/db/prisma/schema.prisma:149` says unknown_outcome never transitions
  automatically; the reconciler does move it, on a provider's verdict
  (`UnknownLeavesOnlyByProof`).
* A grant outcome settles whichever attempt is pending for the payee, so a
  process may approve terms it was not launched with
  (`ReportApprovesItsOwnTermsIff`, `LateReportSettlesTheNewerAttempt`).
* Usage ignores payments in flight (`AdmissionIsSafeIff`, `PassIsSafeIff`,
  `UnsettledPaymentIsNotCounted`), and the amount judged is not the amount of an
  intent prepared before (`PreparedOnOtherTerms`).
* Only the first history row with the same payee and reference is compared
  (`DuplicateInEveryOrderIff`).
* Normalizing a bank rail twice drops a blank beneficiary name
  (`NormalizeIsIdempotentIff`).
* Re-evaluation does not know that an email was ignored for its kind
  (`ReplayIff`), and a queue entry saying only "paused" is not payable in a
  currency other than INR (`PauseOnlyIff`).
* Mail can be lost in three ways: it is indexed more than 601 seconds late or
  the checkpoint is past it (`CoveredIff`), a sync meets more mail than one fetch
  returns (`TruncationLosesMailIff`), or no checkpoint exists yet
  (`FirstSyncStartsFromThePresent`). Lost is exactly what no continuation can
  store (`RecoverableIffNotLost`).
* A vendor that reports a higher price than it quoted is still recorded
  (`OverchargeIff`).

## Model

| member | source | states |
|---|---|---|
| PaymentProtocol.RunInv | worker/src/payment-execution.ts:20-81 | In every reachable state keys are unique, every executor past its claim refers to a row that exists and holds that row's key, and every request in the provider's log carries its row's key. |
| PaymentProtocol.StepTable | worker/src/payment-claim.ts:26-41 | Every step changes a row only along an edge of the status diagram: key kept, paid kept, payable fields rewritten only while pending or failed. |
| PaymentSafety.ClaimAccount | worker/src/payment-execution.ts:64-72 | Along every run, entries into claimed and entries into failed of one row balance: equal while it is failed, one ahead while it is claimed or unknown. |
| PaymentSafety.CallsWithinClaims | worker/src/payment-claim.ts:27-31 | With no assumption about the provider, requests for an email <= successful claims of its row <= 1 + the times the row entered failed. |
| PaymentSafety.CallsComeFromOwnClaims | worker/src/manual-pay.ts:51-62 | Every request was sent by an executor that had itself moved the row from pending or failed to claimed, and no executor sends two. |
| PaymentSafety.AtMostOnePayout | app/app/actions.ts:54-76 | At a provider that deduplicates by key, every run lands exactly one payout for an email if any of its requests was accepted and none otherwise. |
| PaymentSafety.LandedPerEmail | worker/src/payment-claim.ts:33-40 | The same for any log whose requests carry their rows' unique keys. |
| PaymentSafety.KeyIsForever | worker/src/auto-pay-runner.ts:53-59 | The idempotency key fixed when the row is created is the row's key in every continuation. |
| PaymentSafety.PaidIsFinal | worker/src/payment-execution.ts:46-49 | paid is absorbing and freezes recipient, amount and currency; with no winner in flight no request follows. |
| PaymentSafety.PayableFrozen | app/app/actions.ts:58-76 | While a row stays claimed, paid or unknown_outcome, no step rewrites what it pays. |
| PaymentSafety.UnknownLeavesOnlyByProof | worker/src/payment-reconcile.ts:91-103 | unknown_outcome is left only by a provider verdict for that row or by an executor that was told its payment landed. |
| PaymentSafety.SoloSendsIffRetryable | worker/src/payment-execution.ts:30-49 | From every reachable state an executor running alone sends a request if and only if the row is pending or failed. |
| PaymentSafety.LoserReopensTheClaim | worker/src/payment-execution.ts:64-72 | Whenever a winner is about to send, a losing executor's failure write lets the next executor send a second request, under the same key. |
| PaymentReopening.AnotherRequestIff | worker/src/payment-execution.ts:30-72 | Of any run: some continuation sends another request for an email if and only if a winner has yet to send, or its row is missing, pending, failed, claimed, or uncertain and either reconcilable or read by a pass that is still to answer for it. |
| PaymentReopening.CanCostMoreIff | worker/src/payment-reconcile.ts:27-29 | The same from any state of the protocol, reachable or not. |
| PaymentReopening.PayoutsWithoutKeys | worker/src/perflo-cli.ts:323-348 | At a provider that is not given the key, overlapping executors make at most 1 + the failures of the row many payouts for an email. |
| PaymentReopening.PayoutsWithinReopenings | worker/src/payment-reconcile.ts:91-103 | There, under any overlap of executors, promotions and late verdicts, the payouts that stand for an email, with requests yet to be sent, are at most 1 + the times its row turned failed while one stood or was about to be asked for. |
| PaymentReopening.PaysTwiceIff | worker/src/payment-claim.ts:27-31 | From any row that invites a retry, claims and requests alone can bring two payouts to stand if and only if one stands already or a winner has yet to send. |
| PaymentReopening.PaidTwice | worker/src/payment-execution.ts:69-72 | A run from the empty table in which such a provider pays an email twice. |
| PaymentSafety.SentIsClaimedIffUnrepaired | worker/src/manual-pay.ts:43-65 | From load to claim, with anything in between that is not the executor's own, and while the claim stands: the request carries the claimed row's fields if and only if the last repair to take effect in between, if any, wrote the fields loaded. |
| PaymentSafety.PromotedIffOld | worker/src/payment-reconcile.ts:40-51 | In any run, promotion takes a row that has been claimed ever since some step out of claimed if and only if more than 900000 ms have passed since that step. |
| PaymentExecution.PaymentIntentStore.ClaimPaymentIntent | worker/src/payment-claim.ts:26-41 | Succeeds exactly on a pending or failed row, moves it to claimed, and returns that row's key; any other row is untouched. |
| PaymentExecution.PaymentIntentStore.CatchFailure | worker/src/payment-execution.ts:51-79 | The conditional failure write and its result, for a write that works, throws before or throws after committing. |
| PaymentExecution.PaymentIntentStore.ExecutePreparedPayment | worker/src/payment-execution.ts:20-81 | Load, claim, pay and record give the table and result of the specification, whichever database calls throw. |
| ExecutionOutcomes.ResultMeans | worker/src/payment-execution.ts:30-79 | For every pattern of failing calls: paid is reported, with the provider's reference, exactly when the paid write of a returned payout worked; a recorded failure exactly when a working write found a claimed row; not claimed when it found none; an error when that write threw. |
| ExecutionOutcomes.RowMeans | worker/src/payment-execution.ts:30-79 | The whole row left behind, field by field, and no other row touched. |
| PaymentExecution.PaymentIntentStore.PreparePayment | app/app/actions.ts:57-76 | A pending or failed row has its payable fields repaired, a missing one is created, a locked one is unchanged; no key ever changes. |
| PaymentExecution.PaymentIntentStore.RunAutoPay | worker/src/auto-pay-runner.ts:26-71 | When permitted, creates the intent only if it is missing and then executes it; otherwise changes nothing. |
| PaymentExecution.PaymentIntentStore.Promote | worker/src/payment-reconcile.ts:42-51 | Exactly the claims older than the stale bound become unknown_outcome, and they are counted. |
| ExecutionOutcomes.PromotionMeans | worker/src/payment-reconcile.ts:40-51 | Promotion changes the status of exactly the claims older than fifteen minutes and nothing else. |
| PaymentExecution.PaymentIntentStore.SettleStuck | worker/src/payment-reconcile.ts:67-106 | The loop settles every stuck row by its own reference's verdict, in any order, and counts the rows it changed. |
| PaymentExecution.PaymentIntentStore.ReconcileStuckPayments | worker/src/payment-reconcile.ts:67-110 | Promotion followed by the loop equals a row-by-row function of the table, with the summary counting both. |
| ExecutionOutcomes.PassMeans | worker/src/payment-reconcile.ts:67-110 | Each row after a pass: unchanged, settled as the provider answered for its own reference and under the provider's name for it, or uncertain. |
| ExecutionOutcomes.CountsMean | worker/src/payment-reconcile.ts:70-110 | What a pass counts as checked and as settled. |
| PaymentExecution.ExecutionIsAProtocolRun | worker/src/payment-execution.ts:20-81 | One uninterrupted execution, of a row that exists or not, ends with the table of a run of the interleaved protocol and has sent a request exactly when it passed its own claim, for every pattern of failures. |
| PaymentExecution.ReconciliationIsAProtocolRun | worker/src/payment-reconcile.ts:67-110 | One uninterrupted reconciler pass ends with the table of a protocol run of promotions, snapshots and verdicts only, and sends no payout request. |
| PaymentProviders.ClassificationIsSound | worker/src/payment-executor-adapter.ts:14-25 | Over the phases of RazorpayX and the outputs of the Perflo CLI: success is reported only for a standing payout and failure only for none, and unknown exactly when the answer leaves both possible. |
| ExecutionOutcomes.RazorpayReference | worker/src/payment-executor-razorpay.ts:109-207 | The reference a payout is recorded under is its own id once RazorpayX answered, and the idempotency key in every other case. |
| ExecutionOutcomes.PerfloReference | worker/src/perflo-cli.ts:63-120 | At Perflo it is the first field present, if that names anything, and otherwise the key. |
| ExecutionOutcomes.UncertainPayoutIsSettled | worker/src/payment-executor-razorpay.ts:185-187 | A payout RazorpayX answered for without a final word leaves a row that the next pass settles as the provider then says. |
| ExecutionOutcomes.StatusWordsMean | worker/src/payment-executor-razorpay.ts:12-25 | What each of RazorpayX's status words is to us, and every other word. |
| SafeRetry.RecordedOutcomeIsTrue | worker/src/payment-execution.ts:30-79 | For every pattern of failing database calls, the claim and the loads included, exactly which status is left, and that a paid row written means a standing payout and a failed one none. |
| SafeRetry.ExecutionKeeps | worker/src/payment-execution.ts:51-79 | One execution under any provider behaviour and any failing database calls keeps: at most one payout stands, and none while the row invites a retry. |
| SafeRetry.RetryIsSafe | worker/src/payment-reconcile.ts:67-110 | The same over every history of executions, crashes, promotions, repairs and overlapping reconciler passes, whose look-ups and writes are separate events, that is careful: no execution over a possibly dead claim, no claim left unresolved over an older reference, no verdict written to an uncertain row that no longer carries the reference asked about. |
| SafeRetry.VerdictIsSafeIff | worker/src/payment-reconcile.ts:91-103 | Writing a truthful verdict to an uncertain row is safe, whatever the hidden facts, if and only if the row still carries the reference the verdict answers for. |
| SafeRetry.LateVerdictReopens | worker/src/payment-reconcile.ts:70-103 | A history, careful up to its last event and without overlapping executions, in which a truthful verdict about attempt 1 turns attempt 2's row failed while its payout stands. |
| SafeRetry.DeadClaimIsRecoverableIff | worker/src/payment-claim.ts:27-30 | A crashed claim is recovered soundly by the next reconciler pass, whatever happened and whatever it is told, if and only if the row carried no reference of an earlier attempt. |
| SafeRetry.UnwrittenFailureIsRecoverableIff | worker/src/payment-execution.ts:64-72 | An execution that cannot write its failure down is recovered soundly by the next pass, whatever the provider did and says, if and only if the row carried no earlier reference. |
| SafeRetry.ExecutingOverADeadClaim | worker/src/payment-execution.ts:69-72 | Executing over a claim someone died on sends nothing yet reopens the row, although the dead attempt's payout may stand. |
| PayeeLock.PayeeTails.EnterLock | worker/src/payee-serialization.ts:8-12 | The synchronous prologue chains a new tail to the payee's previous one and stores it. |
| PayeeLock.PayeeTails.BeginWork | worker/src/payee-serialization.ts:14-16 | Work begins once the previous tail has resolved. |
| PayeeLock.PayeeTails.Release | worker/src/payee-serialization.ts:17-20 | Releasing, on return or throw, deletes the Map entry only if it is still this call's. |
| PayeeLock.ResolvedIffClear | worker/src/payee-serialization.ts:11-14 | A tail has resolved exactly when every earlier call for its payee is over. |
| PayeeLock.RunInv | worker/src/payee-serialization.ts:7-21 | The chain invariant holds in every reachable state. |
| PayeeLock.OneAtATimeInOrder | worker/src/payee-serialization.ts:7-21 | In every interleaving, once a call has started, every earlier call for its payee has finished. |
| PayeeLock.MapHoldsUnfinished | worker/src/payee-serialization.ts:12-19 | The Map holds a payee if and only if some call for it is unfinished. |
| PayeeLock.OldestCanProceed | worker/src/payee-serialization.ts:14-20 | The oldest unfinished call is working or can start now; a throwing work has released its successor. |
| PayeeLock.IdlePayeeStartsAtOnce | worker/src/payee-serialization.ts:8-14 | A first call for a payee with nothing unfinished can start immediately, whatever other payees do. |
| PayeeLock.EveryQueueDrains | worker/src/payee-serialization.ts:7-21 | From every reachable state any payee's queue empties by letting its calls proceed, two steps each. |
| GrantApproval.PayeeDesk.ExpireStalePendingGrants | worker/src/reconcile-grant-approvals.ts:27-33 | Exactly the pending rows past their expiry become not_approved and expired, and they are counted. |
| GrantApproval.PayeeDesk.ApplyGrantOutcome | worker/src/payee-approval-deps.ts:85-103 | Settles a pending row one way or the other and leaves every other row alone. |
| GrantApproval.OutcomeMeans | worker/src/payee-approval-deps.ts:85-103 | A success sets status and the loader's flag and clears the last outcome, a denial sets its own, both only on a pending row and with all other fields kept. |
| GrantApproval.LoadableIffApproved | worker/src/payee-store.ts:22-27 | Over every run, a payee is approved if and only if it carries the flag that loads it. |
| GrantApproval.PayeeDesk.StartPendingGrant | worker/src/payee-approval-deps.ts:141-243 | Sweep, then retry of a known sender or creation of a new payee, under the one-pending lock, with the rail stored once. |
| GrantApproval.PayeeDesk.ApprovePayee | worker/src/payee-approval.ts:80-105 | Confirmation, validity and existing approval come first; a process is launched exactly when the result is a pending grant. |
| GrantApproval.ApproveMeans | worker/src/payee-approval.ts:80-105 | Each answer of an approval, if and only if the request and the rows it found are so. |
| GrantApproval.GrantPendingMeans | worker/src/payee-approval-deps.ts:147-243 | What a pending grant has written: row, terms, deadline 660000 ms on, sender, rail, and the overdue grants it swept. |
| GrantApproval.ApprovalIsAProtocolRun | worker/src/payee-approval.ts:80-105 | One uninterrupted approval, whichever call throws, ends with the database and launches of a run of the interleaved protocol. |
| GrantApproval.OnePendingAndApprovedMeansApproved | packages/db/prisma/migrations/20260904142701_payee_pending_grant_approval/migration.sql:16 | In every run at most one payee is pending, and grantApproved implies the approved status. |
| GrantApproval.StartsAndSettlementsAlternate | worker/src/payee-approval-deps.ts:85-103 | Starts equal settlements, plus one while a grant is pending. |
| GrantApproval.LaunchesWithinStarts | worker/src/payee-approval.ts:99-104 | Launches, with those still owed, never exceed starts. |
| GrantApproval.OwnersAreForever | worker/src/payee-approval-deps.ts:206-242 | However approvals race, a sender and a rail belong to the payee they were first stored for. |
| GrantApproval.EndedProcessIsSilent | worker/src/payee-approval-deps.ts:251-277 | A process reports at most once. |
| GrantApproval.ApprovedIsFinal | worker/src/payee-approval-deps.ts:85-103 | An approved payee's row is the same in every continuation. |
| GrantApproval.ApprovalNeedsAReport | worker/src/payee-approval-deps.ts:251-277 | A payee becomes approved only when a running process for that payee reports success while it is pending. |
| GrantApproval.RestartableAfterSweep | worker/src/payee-approval-deps.ts:147-201 | After the inline sweep a payee can be started exactly when it is free or expired and no unexpired grant is pending. |
| GrantApproval.TermsHoldWhilePending | worker/src/payee-approval-deps.ts:153-165 | A payee pending throughout keeps the terms and expiry of the attempt that started it. |
| GrantOutcomes.LaunchHasOrigin | worker/src/payee-approval.ts:99-104 | Every launched process goes back to the start its task made, of its own payee and on its own terms. |
| GrantOutcomes.ReportApprovesTheLatestStart | worker/src/payee-approval-deps.ts:85-103 | A success reported while the payee is pending approves the terms of that payee's latest start, whichever process reports it. |
| GrantOutcomes.ReportApprovesItsOwnTermsIff | worker/src/payee-approval-deps.ts:251-277 | It approves the terms its own process was launched with if and only if no start of that payee came after the one behind the process, or the latest that did asked for the same terms. |
| GrantOutcomes.UninterruptedGrantKeepsItsTerms | worker/src/payee-approval-deps.ts:251-277 | So a grant that nobody restarts is approved on the terms its process was launched with. |
| GrantOutcomes.LateReportSettlesTheNewerAttempt | worker/src/payee-approval-deps.ts:85-103 | Whenever a process outlives its grant and the payee is restarted on other terms, its success approves those terms and not its own. |
| GrantOutcomes.OutlivedLaunchIsReachable | worker/src/payee-approval-deps.ts:147-201 | A run from the empty database in which that happens. |
| PaymentMethods.NormalizeIsIdempotentIff | worker/src/payment-method-validation.ts:31-47 | Normalization is idempotent exactly when the beneficiary name is not blank. |
| PaymentMethods.DecodeRoundTrip | worker/src/payee-store.ts:7-15 | Decoding the stored key of any valid rail gives the rail back, less the beneficiary name. |
| PaymentMethods.KeysAreInjective | worker/src/level1-pipeline.ts:38-44 | Two methods share a key if and only if they normalize to the same rail. |
| PaymentMethods.DecodedIsCanonical | worker/src/payee-store.ts:7-15 | Whatever decodes is a normalized rail whose own key decodes to it. |
| PaymentMethods.NormalizeMeans | worker/src/payment-method-validation.ts:20-47 | What is accepted, character by character, what it is normalized to, and the key printed for it. |
| PaymentMethods.UpiMeans | worker/src/payment-method-validation.ts:20-47 | A UPI address is accepted if and only if it is two word-like parts around one @, the second not an e-mail domain. |
| PaymentMethods.DecodeMeans | worker/src/payee-store.ts:7-15 | Text decodes to a rail if and only if it is one of the two printed forms of something that normalizes to it. |
| PayeeResolver.ResolveMeans | worker/src/payee-resolver.ts:52-76 | The resolver's answer is true of who owns the sender and who owns the rail. |
| PayeeResolver.ResolveIffMeans | worker/src/payee-resolver.ts:52-76 | With single owners it is the only true answer: the resolver equals its relational specification. |
| PayeeResolver.InvalidRailIff | worker/src/payee-resolver.ts:52-55 | A rail is reported invalid if and only if it does not normalize. |
| PayeeResolver.OrderIndependentIffSingleOwners | worker/src/payee-resolver.ts:57-58 | The answer is invariant under every permutation of the list if and only if every sender and every rail has one owner. |
| PayeeResolver.LoadApprovedPayees | worker/src/payee-store.ts:22-53 | The nested loops build the specified list, and fail as a whole on a rail that does not decode. |
| PayeeResolver.LoadedIsTheProduct | worker/src/payee-store.ts:22-53 | The list holds exactly the pairs of an approved payee's identity and one of its active rails. |
| PayeeResolver.LoadedListResolvesUniquely | worker/src/payee-store.ts:22-53 | From tables with one payee per sender and canonical rails stored once, the list loads, has single owners, and resolves independently of row order. |
| Verifier.VerifyEmail | worker/src/verifier.ts:49-75 | The flags pushed one by one, and the score, equal the specification. |
| Verifier.HardFailIff | worker/src/verifier.ts:57-73 | Each hard fail is reported if and only if its condition holds. |
| Verifier.VerifierMeans | worker/src/verifier.ts:49-75 | Authentication passes if and only if DMARC aligns or SPF and DKIM both do; injection, soft flag and score from the message itself. |
| Verifier.LookalikeMeans | worker/src/verifier.ts:57-59 | A look-alike is flagged if and only if no known sender has the domain and one has a domain that compacts to the same. |
| Verifier.MismatchMeans | worker/src/verifier.ts:65-69 | A mismatch is flagged if and only if a known sender writes and some extracted rail is nobody's. |
| Verifier.LinkMeans | worker/src/verifier.ts:70-72 | A link is flagged if and only if its domain does not end in the sender's. |
| Verifier.FlagsInOrder | worker/src/verifier.ts:49-75 | Flags stand in the order of the checks, each once. |
| Policy.DecidePolicy | worker/src/policy-engine.ts:49-114 | The reasons pushed one by one and the decision equal the specification. |
| Policy.CollectEvidence | worker/src/policy-engine.ts:68-98 | The loop over the consulted confidences and the evidence checks give the specified reasons in order. |
| Policy.ReasonsAreTheBlockers | worker/src/policy-engine.ts:54-109 | A reason is listed if and only if it is true of the input. |
| Policy.ReasonsInOrder | worker/src/policy-engine.ts:54-109 | Reasons stand in the order of the checks, each once. |
| Policy.DecisionMeans | worker/src/policy-engine.ts:49-114 | Each of the four decisions if and only if its reasons hold, quarantine before replay before review. |
| Policy.OpenIff | worker/src/policy-engine.ts:49-114 | auto_pay if and only if every gate is open. |
| Policy.PauseAloneIff | worker/src/policy-engine.ts:108-113 | The pause is the sole reason if and only if releasing it alone gives auto_pay. |
| Level1.ProcessLevel1 | worker/src/level1-pipeline.ts:82-176 | The pipeline, with its in-place changes to the verification, equals the specification. |
| Level1.MismatchIffDetailsChanged | worker/src/verifier.ts:66-69 | With one rail, the verifier raises payment_method_mismatch if and only if the resolver says details_changed. |
| Level1.QuarantineIff | worker/src/level1-pipeline.ts:91-130 | For every email: quarantine if and only if it looks forged, or sender and rail conflict, or details changed without authentication. |
| Level1Reasons.UnalignedMailIsHeld | worker/src/level1-pipeline.ts:128-161 | Without aligned DMARC, or aligned SPF and DKIM both, changed details on a bill are quarantined and nothing is paid automatically. |
| Level1.AutoPayIff | worker/src/level1-pipeline.ts:82-176 | For every email: auto_pay if and only if every condition of the pipeline holds, the verifier's score never being the one that decides. |
| Level1Reasons.ReviewReasonsIff | worker/src/level1-pipeline.ts:139-175 | Of a bill held for review, every reason is given if and only if it is true of the email, its payee and the settings. |
| Level1Reasons.QuarantineReasonsAre | worker/src/level1-pipeline.ts:91-130 | Of a quarantined bill, exactly the reasons given. |
| Level1Reasons.IgnoredIff | worker/src/level1-pipeline.ts:132-135 | A bill is ignored if and only if it is not quarantined and its own fingerprint repeats another email's. |
| Level1Reasons.UnpayableMeans | worker/src/level1-pipeline.ts:46-76 | Other mail is ignored for its kind, or quarantined for injection alone. |
| Level1Reasons.SummaryMeans | worker/src/ingest.ts:105-123 | The summary kept of an extraction, field by field. |
| Level1Reasons.StoredAsCompared | worker/src/ingest.ts:105-123 | What is stored of a bill is what it was itself compared by. |
| Level1.AutoPayIsOwned | worker/src/payee-resolver.ts:60-62 | An automatic payment goes to a payee that owns both the sender and the rail, within that payee's grant. |
| Level1.ReplayIff | worker/src/reevaluate-policy.ts:64-139 | Replaying stored evidence under unchanged facts gives the same decision and reasons if and only if the kind was payable or injection was detected. |
| Level1.PauseOnlyIff | worker/src/reevaluate-policy.ts:108-132 | For any stored evidence: paused replay says only the pause, in a payable currency, if and only if the unpaused replay is auto_pay. |
| Level1.QueuedOnlyByPauseIff | worker/src/ingest.ts:242-257 | The same from the original processing: what is queued for the pause alone is what re-evaluation lets through. |
| Level1.ReplayedAutoPayIff | worker/src/reevaluate-policy.ts:44-140 | Whatever changed since, re-evaluation says auto_pay if and only if the stored evidence stands and the payee may be paid now. |
| Level1Reasons.ReplayReasonsIff | worker/src/reevaluate-policy.ts:97-132 | Each reason of a replay, if and only if it is true of what is stored and read now. |
| Resume.ReviewDesk.ReevaluatePolicy | worker/src/reevaluate-policy.ts:44-140 | Refuses a started payment, an unknown or unprocessed email or a failed load, changing nothing; otherwise relabels that one email. |
| Resume.ReviewDesk.ResumeAutoPay | worker/src/resume-auto-pay.ts:33-88 | The loop over candidates gives the mailbox, intents and summary of the specified fold. |
| Resume.PassPartitions | worker/src/resume-auto-pay.ts:45-85 | Every scanned row is in exactly one of paid, stillBlocked and errors, and scanned counts them. |
| Resume.PassFrames | worker/src/resume-auto-pay.ts:47-48 | Emails that are not candidates keep their label and their intent. |
| Resume.OwnTurn | worker/src/resume-auto-pay.ts:47-85 | The other turns of a pass neither feed into an email's turn nor disturb its outcome. |
| Resume.HandedOverIff | worker/src/resume-auto-pay.ts:47-81 | An email is handed over for payment if and only if the pause alone held it, no payment began, and evidence, grant, caps and switches hold at its turn. |
| Resume.SecondPassScansOnlyErrors | worker/src/resume-auto-pay.ts:20-32 | Right after a pass, a further pass scans exactly the emails whose turn failed. |
| Resume.PaidAsJudgedIff | worker/src/auto-pay-runner.ts:53-65 | Intents that had begun are untouched, and a handed-over one is on the terms just judged if and only if none was prepared on other terms. |
| Resume.RefusalMeans | worker/src/reevaluate-policy.ts:44-68 | Which refusal a re-evaluation gives, in order. |
| Resume.AnsweredTurnMeans | worker/src/resume-auto-pay.ts:51-81 | What a turn whose re-evaluation answers writes and lists. |
| Resume.HandedOverIsPaid | worker/src/auto-pay-runner.ts:38-65 | An email handed over with settled paid checks, no intent yet and nothing failing is paid: resolved payee, extracted amount, new key, provider's reference. |
| ResumeCaps.PassStaysWithinGrant | worker/src/resume-auto-pay.ts:47-85 | A pass whose turns read usage from the intents as earlier turns left them keeps what a payee has been paid, when the pass ends, within its total and count caps. |
| ResumeCaps.PassIsSafeIff | worker/src/payment-usage.ts:5-14 | After a pass those caps hold however its and earlier payments in flight are settled later if and only if what was paid or in flight before and what the pass paid or left in flight fit together. |
| GrantCaps.RunStaysWithinCaps | worker/src/auto-pay-eligibility.ts:22-33 | Over every run whose automatic decisions wait for the payee's earlier ones to settle and meet no intent prepared on other terms, automatic payments stay within total, count and per-payment caps, with manual payments in between. |
| GrantCaps.CapsHold | worker/src/level1-pipeline.ts:139-147 | The same from the empty table. |
| GrantCaps.AdmissionIsSafeIff | worker/src/payment-usage.ts:5-14 | An admitted payment keeps the paid total within the cap however everything in flight ends if and only if the amounts in flight fit as well. |
| GrantCaps.UsageMeans | worker/src/payment-usage.ts:5-14 | Usage counts a payee's paid rows and no other, each by its amount. |
| GrantCaps.SafeIffExposureFits | worker/src/payment-usage.ts:5-14 | Every way of settling keeps the paid total within a bound if and only if paid plus in flight is within it. |
| GrantCaps.UnsettledPaymentIsNotCounted | worker/src/payment-usage.ts:6-9 | A concrete payee whose uncertain payment is not counted, so that its total cap can be exceeded. |
| GrantCaps.PreparedOnOtherTerms | worker/src/auto-pay-runner.ts:53-65 | A concrete payee with nothing in flight whose intent, prepared for more than was judged, is claimed over its cap. |
| Duplicates.VerdictNamesARealOriginal | worker/src/duplicate-detector.ts:19-31 | Every verdict names another email of equal payee and reference and is true of it; none is given exactly when there is no reference or no such email. |
| Duplicates.DuplicateInEveryOrderIff | worker/src/duplicate-detector.ts:19-31 | A replay is recognised in every order of the history if and only if a matching row exists and all matching rows match exactly. |
| Duplicates.EmailTable.ProcessInsertedEmails | worker/src/ingest.ts:279-311 | Each row of a batch is judged against a reading of everything processed before it, in source order. |
| Duplicates.OnlyTheFirstIsKept | worker/src/ingest.ts:300-310 | Among explicit rows of one payee, reference and amount, a row is suppressed if and only if an earlier one exists. |
| Duplicates.FingerprintMembers | worker/src/ingest.ts:83-100 | The fingerprints are exactly those of the rows with a resolved payee. |
| Duplicates.DetectMeans | worker/src/level1-pipeline.ts:132-135 | A row is looked up exactly when it has a payee and an amount, and with its own values. |
| Amounts.MinorUnitsRoundTrip | worker/src/payment-executor-perflo.ts:11-16 | Parsing the printed form of any number of minor units gives it back. |
| Amounts.ParseKeepsTheValue | worker/src/payment-amount.ts:8-16 | An accepted string denotes exactly what it parses to, and so does its reprint. |
| Amounts.AcceptedMeans | worker/src/payment-amount.ts:8-16 | Accepted text is figures, or figures, a point and up to so many more. |
| Amounts.PrintParseIffCanonical | worker/src/payment-amount.ts:8-16 | Reprinting gives the same text exactly for canonical amounts. |
| PaidChecks.RunPaidVerifierChecks | worker/src/x402-verifier.ts:138-166 | Requests are made in order with exactly the remaining budget as limit, records sum to the spend, checks are a prefix, and verified means all settled. |
| PaidChecks.LimitIsExact | worker/src/x402-cli-client.ts:60-76 | A price fits the printed limit if and only if its cents, rounded up, fit the limit. |
| PaidChecks.OverchargeIff | worker/src/x402-cli-client.ts:107-131 | A purchase exceeds its limit if and only if the vendor reports a price above it after quoting one within it. |
| PaidChecks.PurchaseMeans | worker/src/x402-cli-client.ts:102-134 | A purchase is made if and only if a quoted price fits the limit and the vendor answers; it costs what was charged, rounded up to a cent, with the settlement reported or shown. |
| PaidChecks.RecordMeans | worker/src/x402-verifier.ts:140-161 | What is recorded of each request, what verifies, and the two budgets. |
| PaidChecks.LimitsKeepTheBudget | worker/src/x402-verifier.ts:138-166 | A client that never charges more than the limit passed to it keeps the whole loop within the email's budget. |
| PaidChecks.CliStaysWithinBudget | worker/src/x402-cli-client.ts:102-134 | Vendors that keep their quotes never cost more than the invoice's budget. |
| ActivitySearch.FindsTheFirstRecord | worker/src/perflo-cli.ts:169-186 | The search returns the first object, in pre-order, with a string status that contains the reference, or none if there is none. |
| ActivitySearch.ContainsMeansHasString | worker/src/perflo-cli.ts:160-167 | A value contains a reference if and only if it is one of the strings anywhere inside. |
| ActivitySearch.QualifiesMeans | worker/src/perflo-cli.ts:169-186 | What qualifies: an object whose first field named status is text, with the reference among its strings. |
| ActivitySearch.FoundIsOutermost | worker/src/perflo-cli.ts:169-186 | No ancestor of the record found qualifies. |
| ActivitySearch.FoundIffExists | worker/src/perflo-cli.ts:160-186 | A record is found if and only if a qualifying object exists at any depth. |
| SyncCoverage.PromptMailIsCovered | worker/src/sync.ts:39-54 | With a checkpoint and no truncated fetch, any sync that fetched after a promptly indexed message became visible and succeeded has stored it, whatever else failed or overlapped. |
| SyncCoverage.CoveredIff | worker/src/sync.ts:5-9 | For a mailbox that one fetch can return: every run is so if and only if the message is indexed within 601 seconds of its timestamp, or was from the start, and the checkpoint is at most 600 seconds past it. |
| SyncCoverage.WindowMeans | worker/src/sync.ts:19-46 | A window starts 600 seconds before the checkpoint, or before the present without one, and holds what is visible from there. |
| SyncCoverage.RecoverableIffNotLost | worker/src/sync.ts:19-54 | From any state, some continuation stores a message if and only if it is not lost: present, checkpoint and all syncs under way more than the overlap past it, and in no row, window or batch. |
| SyncCoverage.OneRowPerMessage | worker/src/ingest.ts:518-521 | Overlapping windows and retries never give a message a second row. |
| SyncCoverage.LostIsForever | worker/src/sync.ts:19-22 | A message behind every window stays without a row in every continuation. |
| SyncCoverage.TruncationLosesMailIff | worker/src/gmail.ts:97-99 | A truncated sync can complete so that a message is lost if and only if the sync began more than the overlap after it. |
| SyncCoverage.FirstSyncStartsFromThePresent | worker/src/sync.ts:19-22 | Without a checkpoint row, mail that no sync under way holds can still be stored if and only if the present is at most the overlap past it. |
| SyncCoverage.MailStore.SyncOnce | worker/src/sync.ts:39-54 | Stores what was fetched, and moves the checkpoint to the start time only when nothing threw. |
| SyncCoverage.SyncOnceIsAProtocolRun | worker/src/sync.ts:39-54 | A sync of the interleaved protocol, left alone, does the same to rows and checkpoint, whether or not storing or processing throws. |

## Left out

- PaymentProviders.ClassificationIsSound: takes a provider's explicit refusal or failure as true; a payout reversed after it was reported paid is not modelled.
- SafeRetry.RetryIsSafe: executions of one email do not overlap; overlapping ones are in PaymentSafety and PaymentReopening, with counts instead of outcomes.
- GrantCaps.CapsHold: excludes decisions about an email whose intent was prepared on other terms; GrantCaps.PreparedOnOtherTerms shows why.
- ResumeCaps.PassStaysWithinGrant: payments made by other processes during the pass are not modelled; every prepared amount reads as a number, and a payee keeps its nickname.
- SyncCoverage.CoveredIff: a mailbox of more than one fetch's size is covered by PromptMailIsCovered as long as no fetch is truncated.
- GrantCaps.RunStaysWithinCaps: grant terms stay fixed during the run, since lowering a cap below what was already paid breaks any bound.
- Resume.ReviewDesk.ResumeAutoPay: the runner's own outcome does not reach the summary in the source either: its "paid" list means handed to the runner, and another process changing the same email between the query and its turn is not modelled.
- Resume.HandedOverIff: amounts are read by an arbitrary function from strings to numbers, standing for the language's own conversion.
- Verifier.VerifyEmail: parsing of authentication headers is an input (passes, aligned); domains are compared as ASCII text.
- PaymentMethods.NormalizeIsIdempotentIff: ASCII case folding and white space only.
- SyncCoverage.PromptMailIsCovered: the mail query's `after:` is taken as inclusive.
- PayeeResolver.LoadedListResolvesUniquely: one payee per case-folded sender is an assumption; the unique index is case-sensitive.
- GrantApproval.PayeeDesk.ApprovePayee: request validation and creating the provider's recipient are inputs.
- Error texts (`lastError`), approval URLs, notifications, timestamps other than those compared, and all user interface.
- Gmail, the language-model extractor, classification, link parsing and PDF reading: their results are arbitrary inputs.
- Encryption and lookup hashes of stored rails: taken as exact and injective.
- Perflo's own per-recipient lock on its server: PaymentReopening.PaidTwice assumes none.
- The demo switch that resolves any sender of a known rail, and the parallel pass over pending emails.
- The REST purchase client with its polling loop: only the CLI client's price arithmetic is modelled.
- Which rail the executor debits for a nickname with several rails: not claimed to be the matched one.
- Floating point: sums of amounts and confidences are exact reals.
