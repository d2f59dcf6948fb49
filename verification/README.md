# BotBond verification

BotBond lets an agent buy access to a merchant's API against a deposit. The deposit (the *bond*)
sits in an escrow on Solana; a gateway serves the session, and when it ends settles the bond on
chain: a *valid close* refunds all of it, an *expired reservation* pays the merchant a penalty
within a signed ceiling. The truth is spread over three stores that fail independently: the bond
program, the gateway's repository, and the memory of the bond adapter. This project models them
and proves what they guarantee together.

Check everything with `dafny verify dfyconfig.toml` (Dafny 4.11).

## What is modelled

| files | subject |
|---|---|
| `BondProgram.dfy`, `Sums.dfy`, `Checks.dfy`, `Primitives.dfy`, `Wrappers.dfy` | the bond program over a ledger of token accounts, stray transfers and changes of account owner included |
| `Settlement.dfy`, `SettlementInvariant.dfy`, `SettlementFrames.dfy`, `SettlementSteps.dfy`, `SettlementSafety.dfy`, `SettlementTruth.dfy`, `SettlementLeases.dfy`, `SettlementDue.dfy` | the settlement protocol as a step system, its invariant, and what follows from it over every run |
| `SettlementProgress.dfy`, `SettlementCalls.dfy`, `SettlementExpiry.dfy`, `SettlementReceipts.dfy` | exactly when an undisturbed settlement call, first or repeated, ends in a receipt; what expiries leave for the other path, for a retry and for the inventory; which sessions never get a receipt |
| `BondAdapter.dfy`, `AdapterContract.dfy`, `SettlementEvidence.dfy`, `SettlementJournal.dfy` | the adapter, its contract, signed evidence, the attempt journal |
| `Sessions.dfy`, `Inventory.dfy`, `Idempotency.dfy`, `Repositories.dfy` | the two repositories, operation by operation |
| `CanonicalJson.dfy` | the two canonical JSON printers, and a reader of JSON to hold them against |
| `SessionEvents.dfy`, `EventRoute.dfy`, `EventStreamClient.dfy`, `EventStreamRoundTrip.dfy`, `EventResume.dfy` | the event stream from the gateway's log to the browser's list, over any number of connections |
| `PolicyModels.dfy`, `PolicyCompiler.dfy`, `PolicyGrants.dfy`, `PolicyValidation.dfy` | the policy compiler, what it grants, and the gateway's independent check |

The settlement protocol is a state machine. Every repository call and every chain instruction is
one atomic step. Between two steps anything may happen: other close routes, expire routes, expiry
workers and session creations run, a process dies, an adapter restarts and loses its memory, a
submitted transaction lands late or never, its response is lost, a lease runs out, any failing
request unlocks a session that is not its own, and agents, merchants, strangers and other settlement
authorities send whatever transactions they like. The one assumption is that the gateway's own
authority settles through its adapters only. Strict exclusion of settlers is *not* assumed and does
not hold: the expire route takes no lease. Agreement rests on the persisted evidence and on the
status gate of the program.

SHA-256 and the derivation of addresses are free constructors, so equal digests come from equal
texts; that evidence hashes identify evidence is then *proved*, by reading the hashed text back as
JSON. HMAC is a tag that only the holder of the secret can form. Amounts are naturals where the
source has decimal strings; the program's integers are bounded, and overflow aborts as `Cargo.toml`
asks. Text is a sequence of Unicode characters.

What is computed is held against something that is written without it: printed JSON against a reader
of RFC 8259, refusals against ordered lists of checks, a built policy against catalogue and proposal,
settlements against what the settling process saw of the reservation before it settled, accepted
requests against the history of accepted requests.

Some laws turned out to be conditional. They are stated with the exact condition and a
counterexample: in-memory and Firestore reservations agree exactly on fresh ids
(`CreateRefinesIffFresh`), a reservation conserves stock exactly when it overwrites no active one
(`CreateConservesIffNothingOverwritten`), the in-memory store conserves its stock exactly while no
blind save of an expired reservation meets a reservation that is active again
(`ConservedIffSavesInTime`; `LostUnitIsReachable` is a whole run that loses a unit, `FirestoreConserves`
shows that Firestore never does), a repeated release of an idempotency claim is harmless exactly
while nobody holds the claim again (`ExclusionIffHarmless`), a retried expiry is confirmed exactly
when it asks for the journalled penalty or is remembered (`LostResponsesAreRecovered`;
`RefusalIsReachable`), a settlement call that nobody disturbs, first or repeated, ends in a receipt
exactly under the condition of `CallCompletesIff` (`UnsavableIsReachable` is a run in which a
stranger's transaction on the bond account makes the retry of a settled expiry unsavable), a session
that has ended gets a receipt exactly if the process that ended it lives to store it
(`ReceiptComesIff`; `BothAreReachable`), a client whose event stream breaks resumes without loss exactly if nothing was
skipped before the last event it received, and every break of a live connection is harmless exactly
if it has written in the order of the log (`ReconnectResumes`, `LiveBreaksHarmlessIff`;
`LiveBreakCanLose`), the canonical
printers agree exactly on finite numbers and a defined root (`PrintersAgree`).

In one place a comment and the code disagree: the adapter's constructor is documented to skip the
signature check without a secret, but the check then refuses every evidence. The model follows the
code.

## Model

| member | source | states |
|---|---|---|
| `SettlementSafety.ReceiptsAgreeWithChain` | apps/gateway/src/app.ts:632-748 | over every run, a stored CLOSED receipt means the bond is CLOSED on chain with penalty 0 and full refund, an EXPIRED one that it is VIOLATED with the receipt's penalty and penalty + refund = bond, and no two sessions hold bond receipts for the same bond |
| `SettlementSafety.ReceiptAgrees` | apps/gateway/src/app.ts:829-845 | the same for one receipt in any state that satisfies the invariant |
| `SettlementSafety.OneReceiptPerBond` | apps/gateway/src/expiry-processor.ts:131-148 | two sessions with receipts for the same bond are the same session |
| `SettlementSafety.GatewayExitsAreJournalled` | apps/gateway/src/settlement-attempt.ts:13-37 | whatever bond the gateway's authority has ended carries the evidence hash and penalty of an attempt persisted in the journal |
| `SettlementSafety.LostResponsesAreRecovered` | packages/payment-client/src/bond-adapter.ts:139-262 | if a journalled settlement landed but its response was lost, a retry through any adapter, restarted or not, never sends again and is confirmed with the amounts on chain, iff the answer is remembered or the penalty asked for is the journalled one |
| `SettlementSafety.RetryIsAnswered` | packages/payment-client/src/bond-adapter.ts:222-258 | the same from any state that satisfies the invariant |
| `SettlementSafety.LostClosesAreRecovered` | packages/payment-client/src/bond-adapter.ts:145-154 | for a close that condition always holds: it is confirmed with penalty 0 and the whole bond |
| `SettlementSafety.LandedIsSettled` | programs/botbond/src/lib.rs:75-153 | on a bond of the gateway's authority the receipt hash identifies the journal entry |
| `SettlementSafety.RouteAndWorkerDiffer` | apps/gateway/src/expiry-processor.ts:44-45 | a policy for which the expire route and the worker ask for different penalties (that a retry is then refused: `OtherPathIsRefused`) |
| `SettlementSafety.NonceClaimIsGranted` | apps/gateway/src/settlement-attempt.ts:39-48 | in every reachable state the nonce claim of a journalled attempt is granted, so SETTLEMENT_EVIDENCE_REPLAY cannot occur |
| `SettlementSafety.SessionsFollowTheGraph` | apps/gateway/src/repository.ts:188-209 | no step of any run moves a session off the transition graph, changes an ended one beyond storing its receipt once, changes a stored receipt, or removes a session that was ever active |
| `SettlementSafety.ActiveIsPaidAndBonded` | apps/gateway/src/app.ts:464-500 | a session that is or was active has been paid for up to its usage cap and, with bonded actions, refers to the bond verified for it, which exists on its terms |
| `SettlementSafety.ReservationsAreCovered` | apps/gateway/src/app.ts:620-624 | on every run, the session of any reservation ever made has bonded actions, and the bond verified for it exists on its terms |
| `SettlementSafety.CreationCanAbort` | apps/gateway/src/repository.ts:174-180 | in every reachable state, a creation that is turned down when paying or for its bond can take the session back and leaves nothing of it |
| `SettlementDue.ViolationsWereDue` | apps/gateway/src/expiry-processor.ts:34-38 | over every run: a bond that the gateway's authority has made VIOLATED carries the evidence of an expiry whose reservation, at an earlier moment, belonged to the session, was ACTIVE and had expired by the clock of the process that looked |
| `SettlementDue.ClosesWereQuiet` | apps/gateway/src/app.ts:774-775 | over every run: a bond that the gateway's authority has CLOSED was closed for a session that had no active reservation when the closing process looked |
| `SettlementDue.EndedSessionsWereDue` | apps/gateway/src/app.ts:782-793 | the same for every ended session, bonded or not; its receipt charges no more than the usage its payment was verified for, and that of a close counts all its calls |
| `SettlementDue.FinalizesIff` | apps/gateway/src/expiry-processor.ts:115-119 | in every reachable state, a settled expiry ends its reservation exactly if it is still active and due, and returns the unit to stock; one that somebody else has ended stops the worker and not the route |
| `SettlementCalls.CallCompletesIff` | packages/payment-client/src/bond-adapter.ts:109-262 | from every reachable state, whatever was tried before, died, was lost or landed late, through any adapter, restarted or not: a close or expiry call that nobody disturbs ends in a receipt iff it asks for the journalled penalty and its bond is open and can be settled, or has ended for this very attempt and the journal takes the reference the adapter reports; the receipt agrees with the chain, and only an open bond is ever settled |
| `SettlementCalls.LandedCallCompletesIff` | packages/payment-client/src/bond-adapter.ts:362-389 | for a settlement that landed unheard: the next undisturbed call sends nothing and completes iff it asks for the journalled penalty and the journal's reference is none or the reported one |
| `SettlementCalls.UndisturbedCloseCompletes` | apps/gateway/src/app.ts:752-848 | from every reachable state, an undisturbed close completes while its bond is open and can be closed, however often it was tried before, and the agent has at least the bond back |
| `SettlementCalls.UndisturbedExpiryCompletesIff` | apps/gateway/src/expiry-processor.ts:43-156 | from every reachable state, an undisturbed expiry of either path whose bond is open and can be settled completes iff it asks for the journalled penalty, so always on a first try |
| `SettlementCalls.SessionLifeCompletes` | apps/gateway/src/app.ts:415-507 | from every reachable state, a new session whose bond is on chain, open and on its terms can be taken through payment, bond verification, activation and close, to a receipt that agrees with the chain and a refund of at least the bond |
| `SettlementCalls.UnbondedCloseCompletes` | apps/gateway/src/app.ts:776-845 | from every reachable state, a session without bonded actions that nobody is settling can be closed undisturbed, to a receipt of its calls and usage; nothing but its record changes |
| `SettlementCalls.CallVerdict` | apps/gateway/src/app.ts:776-845 | the same verdict from any state that satisfies the invariant, with the exact effect on the chain |
| `SettlementCalls.EndedDecides` | packages/payment-client/src/bond-adapter.ts:145-158 | of a bond that has ended, the adapter recovers exactly the settlement made for the attempt and refuses every other |
| `SettlementTruth.JournalNeverLies` | apps/gateway/src/repository.ts:51-91 | on every run, a journal entry that is confirmed or names a transaction is that of a settlement on chain with its evidence hash and penalty |
| `SettlementTruth.StepKeepsJournalTrue` | apps/gateway/src/settlement-attempt.ts:50-66 | no step, concurrent saves included, makes the journal claim more than the chain shows |
| `SettlementProgress.UndisturbedCreationCompletes` | apps/gateway/src/app.ts:440-507 | an undisturbed creation ends with an active session that refers to its verified bond, and touches nothing else |
| `SettlementProgress.CanBegin` | packages/payment-client/src/bond-adapter.ts:116-137 | in every reachable state the adapter, whatever it remembers of other settlements, accepts an unremembered call for the journalled penalty and asks about the session's own bond |
| `SettlementExpiry.OtherPathIsRefused` | apps/gateway/src/app.ts:664-671 | from every reachable state in which the two paths ask for different penalties: once the worker's transaction has landed and its response is lost, no adapter ever confirms the route's retry, and none sends again |
| `SettlementExpiry.RefusalIsReachable` | apps/gateway/src/expiry-processor.ts:44-45 | such a state is reached by a run from the very beginning |
| `SettlementExpiry.ThirdTransactionBlocks` | packages/payment-client/src/bond-adapter.ts:366-389 | from every reachable state with a first expiry to settle: if its process dies after the journal has its signature and the adapter restarts, then while somebody else's transaction is the newest on the bond account no undisturbed retry, through any adapter, ends in a receipt |
| `SettlementExpiry.UnsavableIsReachable` | apps/gateway/src/repository.ts:58-64 | a run from the very beginning that reaches a settled bond whose retry asks for the journalled penalty and is refused by the journal |
| `SettlementExpiry.LateSaveInRun` | apps/gateway/src/expiry-processor.ts:115-121 | in every run: if the session makes the same reservation again between the finalisation and the save of a settled expiry, one unit ends up neither in stock nor reserved nor consumed |
| `SettlementExpiry.LostUnitIsReachable` | apps/gateway/src/app.ts:693-696 | a run from the very beginning, with one unit in stock and nothing consumed, that ends with none in stock and none reserved |
| `SettlementReceipts.ReceiptComesIff` | apps/gateway/src/app.ts:829-845 | on every run, an ended session can still get a receipt iff it has one or the process that ended it is alive and holds it |
| `SettlementReceipts.RunKeepsOrphan` | apps/gateway/src/expiry-processor.ts:146-148 | otherwise it stays without one, whatever happens |
| `SettlementReceipts.StrandedStaysOpen` | apps/gateway/src/expiry-processor.ts:28-38 | from every reachable state in which the bond is settled for a reservation that is not active any more: no undisturbed call for the session ends in a receipt, until the same reservation is made and expires again |
| `SettlementReceipts.BothAreReachable` | apps/gateway/src/expiry-processor.ts:115-148 | runs from the very beginning that end in each of the two |
| `SettlementLeases.LeasesAreApart` | apps/gateway/src/repository.ts:210-226 | on every run of the gateway, blind saves, creations, aborts and expire routes included: two leases granted on one session that nobody unlocked or ended in between are at least the lease apart |
| `SettlementLeases.RunKeepsLease` | apps/gateway/src/app.ts:776-781 | no other step of the gateway shortens a lease |
| `SettlementSafety.RunKeepsInvariant` | apps/gateway/src/expiry-processor.ts:43-156 | every run keeps the invariant |
| `SettlementSteps.StepKeepsInvariant` | apps/gateway/src/app.ts:776-848 | every step keeps the invariant and takes nothing back that it needs |
| `SettlementSteps.KeepCreation` | apps/gateway/src/app.ts:440-507 | so does every step of session creation, blind saves and aborts included |
| `SettlementSteps.VerifyBondEffect` | apps/gateway/src/app.ts:483-489 | a bond is recorded for a session only if its account is OPEN on the session's policy hash, amount and ceiling |
| `SettlementSteps.KeepLock` | apps/gateway/src/app.ts:638-642 | locking, by transition or by lease, keeps the invariant |
| `SettlementSteps.KeepUnlock` | apps/gateway/src/app.ts:709-712 | unlocking by anybody keeps it |
| `SettlementSteps.NewAttemptGood` | apps/gateway/src/app.ts:799-805 | a new journal entry carries evidence that verifies, on the session's terms, with penalty within the ceiling and penalty + refund = bond |
| `SettlementSteps.PenaltyExact` | apps/gateway/src/expiry-processor.ts:43-45 | no penalty to close; on the expire route that of the first bonded action; for the worker that of the first one on reservations, or of the first if there is none |
| `SettlementSteps.NonceDetermines` | apps/gateway/src/repository.ts:265-270 | two journalled attempts never share a nonce, because a reservation has one owner |
| `SettlementSteps.KeepGrantNonce` | apps/gateway/src/repository.ts:265-270 | a nonce, once claimed, stays with the evidence of its attempt |
| `SettlementSteps.BeginGood` | packages/payment-client/src/bond-adapter.ts:116-137 | a call starts with a true cached answer, a refusal, or a question about the bond verified for the session with evidence that authorises it |
| `SettlementSteps.RecoverTrue` | packages/payment-client/src/bond-adapter.ts:145-154 | a recovery is reported only for a bond that ended as the journal entry asked |
| `SettlementSteps.SubmitGood` | packages/payment-client/src/bond-adapter.ts:159-164 | a transaction is sent only for a journalled attempt and asks for exactly what its evidence says |
| `SettlementSteps.KeepLand` | programs/botbond/src/lib.rs:94-153 | a transaction that lands, however late, keeps the invariant |
| `SettlementSteps.ConfirmTrue` | packages/payment-client/src/bond-adapter.ts:165-174 | the amounts of a confirmation are those on chain |
| `SettlementSteps.KeepSaveResult` | apps/gateway/src/settlement-attempt.ts:50-66 | saving a result, also over a concurrent one, keeps the invariant |
| `SettlementSteps.KeepValidate` | apps/gateway/src/adapter-validation.ts:16-36 | only amounts that agree with the chain pass the gateway's validators |
| `SettlementSteps.KeepFinalizeReservation` | apps/gateway/src/commerce.ts:92-101 | finalising the reservation keeps the invariant, whoever came first |
| `SettlementSteps.KeepFinish` | apps/gateway/src/app.ts:740-742 | ending a session puts a true receipt into the hands of its only owner |
| `SettlementSteps.KeepStoreReceipt` | apps/gateway/src/app.ts:844-845 | the blind write of the receipt loses nothing |
| `SettlementSteps.KeepOnchain` | programs/botbond/src/lib.rs:22-191 | no foreign transaction can make a stored receipt false |
| `SettlementSteps.KeepReserve` | apps/gateway/src/commerce.ts:61-80 | a reservation id that is in use belongs to the same session and product |
| `SettlementSteps.KeepRestart` | packages/payment-client/src/bond-adapter.ts:57-60 | an adapter may lose its memory at any time |
| `BondProgram.RunIsSafe` | programs/botbond/src/lib.rs:22-191 | over every instruction sequence: tokens per mint are conserved, bonds stay good (open ones covered by their escrow), terms never change and an exit is final |
| `BondProgram.ExecuteConserves` | programs/botbond/src/lib.rs:204-226 | no instruction creates or destroys tokens, whatever accounts are aliased |
| `BondProgram.ExecuteKeepsGood` | programs/botbond/src/lib.rs:228-246 | an open bond's escrow holds at least the bond after every instruction of anybody |
| `BondProgram.ExecuteExtends` | programs/botbond/src/lib.rs:30-48 | no instruction changes a bond's parties, policy hash, amount, ceiling or expiry, or anything of a bond that has ended |
| `BondProgram.OnlyAuthoritySettles` | programs/botbond/src/lib.rs:282-341 | only the recorded authority can close a bond or settle a violation |
| `BondProgram.OpenBondExact` | programs/botbond/src/lib.rs:22-73 | exactly when a bond opens, and that its escrow then holds exactly the bond, taken from the agent |
| `BondProgram.CloseValidExact` | programs/botbond/src/lib.rs:75-92 | exactly when a valid close succeeds, and that it hands the whole escrow to the agent |
| `BondProgram.SettleViolationEnabled` | programs/botbond/src/lib.rs:94-113 | exactly when a violation settles; the escrow always covers a penalty within the ceiling, so the checked subtraction cannot fail |
| `BondProgram.SettleViolationPays` | programs/botbond/src/lib.rs:114-153 | the merchant gets exactly the penalty, the agent the rest and at least bond minus ceiling, and the escrow is emptied unless it is itself the destination |
| `BondProgram.ReclaimExact` | programs/botbond/src/lib.rs:156-191 | a reclaim succeeds exactly for the agent, to its refund account, on an open bond, when the clock has passed expiry plus 30 s without overflow; it returns the whole escrow |
| `BondProgram.ExitReports` | programs/botbond/src/lib.rs:282-364 | an exit succeeds exactly if signature, accounts, authority, destinations, status, ceiling and time are in order, and the first fault in that order is the error reported |
| `BondProgram.OpenReports` | programs/botbond/src/lib.rs:30-33 | likewise for opening a bond |
| `BondProgram.TransferConserves` | programs/botbond/src/lib.rs:204-226 | a transfer conserves the total of every mint |
| `BondProgram.Ledger.OpenBond` | programs/botbond/src/lib.rs:22-73 | the instruction, field by field, does what `ExecuteOpen` says or leaves the ledger as it was |
| `BondProgram.Ledger.CloseValid` | programs/botbond/src/lib.rs:75-92 | likewise for the valid close |
| `BondProgram.Ledger.SettleViolation` | programs/botbond/src/lib.rs:94-153 | likewise for the violation, with its two transfers |
| `BondProgram.Ledger.ReclaimExpired` | programs/botbond/src/lib.rs:156-191 | likewise for the reclaim |
| `BondProgram.Ledger.MoveTokens` | programs/botbond/src/lib.rs:204-226 | a token transfer moves exactly the amount or nothing |
| `BondAdapter.ConfirmedOnlyWithCause` | packages/payment-client/src/bond-adapter.ts:109-262 | an uncached call is confirmed only if the evidence verifies and authorises the request and the bond already carries its hash with the right outcome, or a transaction for an open matching bond landed; nothing else is remembered |
| `BondAdapter.RequestIsChecked` | packages/payment-client/src/bond-adapter.ts:315-359 | an uncached request is refused with the code of its first fault: no account known, penalty beyond the ceiling, evidence missing, altered or for something else, replayed, wrongly signed; nothing is sent |
| `BondAdapter.AccountIsChecked` | packages/payment-client/src/bond-adapter.ts:391-397 | then with that of the account: missing, unreachable (the only refusal worth a retry), ended otherwise, on another policy or amount |
| `BondAdapter.CheckedCallSettles` | packages/payment-client/src/bond-adapter.ts:139-178 | a call without a fault reports a bond that has ended as asked with its amounts, and sends a transaction for an open one; only a transaction known to have landed uses up the nonce |
| `BondAdapter.SpentNonceIsRefused` | packages/payment-client/src/bond-adapter.ts:170-173 | over any sequence of calls: a nonce used by a transaction that landed is never accepted again for another settlement |
| `BondAdapter.OpenBondAccepted` | packages/payment-client/src/bond-adapter.ts:83-97 | a bond is accepted for a session exactly if it is open on the given terms; otherwise its first fault is reported |
| `BondAdapter.SolanaBondAdapter.RequestValidClose` | packages/payment-client/src/bond-adapter.ts:109-178 | the method equals the specification `Call` on answer, new state and whether a transaction is sent |
| `BondAdapter.SolanaBondAdapter.RequestExpiredReservationSettlement` | packages/payment-client/src/bond-adapter.ts:180-262 | likewise |
| `BondAdapter.SolanaBondAdapter.VerifyOpenBond` | packages/payment-client/src/bond-adapter.ts:73-107 | the account is remembered for the session exactly if it passes the checks |
| `BondAdapter.SolanaBondAdapter.ResolveSession` | packages/payment-client/src/bond-adapter.ts:301-312 | a remembered account wins over the one in the request |
| `BondAdapter.SolanaBondAdapter.Prepare` | packages/payment-client/src/bond-adapter.ts:190-212 | cache, account, ceiling and evidence are checked in that order |
| `BondAdapter.SolanaBondAdapter.RecoverSettled` | packages/payment-client/src/bond-adapter.ts:366-389 | a recovered answer is remembered, the nonce is not |
| `AdapterContract.PollSettlement` | apps/gateway/src/settlement-polling.ts:12-46 | a pending settlement takes the first verdict of the status queries, or stays pending and retryable; amounts and reference never change |
| `SettlementEvidence.EvidenceHashInjective` | packages/payment-client/src/settlement-evidence.ts:17-36 | two payloads have the same evidence hash iff they are the same, down to an absent reservation id |
| `SettlementEvidence.HashedTextDescribes` | packages/payment-client/src/settlement-evidence.ts:17-24 | the hashed text, read as JSON, is an object with exactly the payload's members, each under its name, amounts as decimal numbers |
| `SettlementEvidence.VerifiesIffCreated` | packages/payment-client/src/settlement-evidence.ts:17-36 | evidence verifies under a secret iff it is what creating it with that secret yields |
| `SettlementEvidence.NonceTextInjective` | apps/gateway/src/app.ts:670 | close and expiry nonces never collide as text |
| `SettlementJournal.KeyTextInjective` | apps/gateway/src/settlement-attempt.ts:5-11 | attempt ids never collide, given session ids without a colon |
| `SettlementJournal.SavesOnlyAdvance` | apps/gateway/src/repository.ts:51-91 | under any sequence of concurrent saves identity, evidence and start time stay, a set reference stays, CONFIRMED is absorbing and the rank never falls |
| `SettlementJournal.FinalStatusIsHighest` | apps/gateway/src/repository.ts:70-77 | compatible saves end at the highest status any of them carried |
| `SettlementJournal.OrderOfSavesIsIrrelevant` | apps/gateway/src/repository.ts:271-277 | so their order does not matter to the status |
| `SettlementJournal.FinalReportIsOneSave` | apps/gateway/src/repository.ts:79-90 | status, retryability, failure code and time always come from one and the same save |
| `SettlementJournal.UpdateReports` | apps/gateway/src/settlement-attempt.ts:50-66 | after an update the stored attempt reports the adapter's result, unless a higher outcome is stored, and the first reference ever known; refused exactly for an unknown attempt, other evidence or another reference |
| `SettlementJournal.ReferenceDependsOnOrder` | apps/gateway/src/repository.ts:75-85 | the provider reference does depend on the order: a counterexample |
| `Sessions.LeaseSeparatesClaims` | apps/gateway/src/repository.ts:210-226 | for the table alone: two winning claims are at least the lease apart, whatever else happens and whatever the clocks say, if in between the session is not transitioned or deleted and only saved with a lease as long |
| `Sessions.SaveBreaksLeaseIff` | apps/gateway/src/repository.ts:166-168 | a blind save lets somebody claim early iff the saved record is active or settling without a lease as long |
| `Sessions.ClaimExact` | apps/gateway/src/repository.ts:210-226 | exactly an active session, or a settling one without a running lease, is claimed, until now plus the lease |
| `Sessions.TransitionExact` | apps/gateway/src/repository.ts:188-209 | a transition succeeds exactly along the graph from the expected state, and drops the lease |
| `Sessions.CountersMatchHistory` | apps/gateway/src/repository.ts:227-240 | with a clock that does not go back, pruning loses nothing: the stored timestamps show the same last minute as the full history, and the counters count it |
| `Sessions.LimitsHold` | apps/gateway/src/firestore-repository.ts:106-121 | no minute-long window, wherever it ends, holds more accepted calls than allowed, and the total and per-operation caps hold |
| `Sessions.NextCallAcceptedIff` | apps/gateway/src/repository.ts:232-235 | after any history of calls with a clock that does not go back, the next is accepted iff the operation's accepted calls, all accepted calls and those of the last 60000 ms are below their limits; otherwise the first limit reached is reported |
| `Sessions.RequestIsAnswered` | apps/gateway/src/repository.ts:227-240 | a request is counted exactly on a session in the expected state that the limits let through |
| `Inventory.CreateRefinesIffFresh` | apps/gateway/src/firestore-repository.ts:195-214 | the Firestore store and the in-memory store accept the same reservation and stay related exactly if its id is fresh |
| `Inventory.FinalizeRefines` | apps/gateway/src/firestore-repository.ts:215-241 | they finalise alike; ACTIVE_RESERVATION_INCONSISTENT and PRODUCT_NOT_FOUND are unreachable |
| `Inventory.FinalizeExact` | apps/gateway/src/repository.ts:307-323 | both stores end exactly the session's own active reservations, let them expire only when due, and return the unit unless it is consumed; every other request changes nothing and is answered with its reason |
| `Inventory.CreateExact` | apps/gateway/src/repository.ts:297-306 | a reservation with a new id is made, in both stores, exactly if its session has no active one and there is stock for it; otherwise the reason is reported |
| `Inventory.FirestoreRefinesMemory` | apps/gateway/src/firestore-repository.ts:195-241 | over every run with fresh ids, blind saves of handed-out records included, both give the same answers and end with the same stock, reservations and exact index |
| `Inventory.FirestoreConserves` | apps/gateway/src/firestore-repository.ts:129-131 | over every run, whatever the ids and whenever records are saved: Firestore conserves every product and its index stays exact, because an id in use is never reserved again |
| `Inventory.CreateMoves` | apps/gateway/src/repository.ts:297-306 | an accepted reservation moves its quantity from stock to the reserved amount, per product |
| `Inventory.CreateConservesIffNothingOverwritten` | apps/gateway/src/repository.ts:297-306 | stock plus reservations is conserved exactly when no active reservation is overwritten |
| `Inventory.FinalizeConserves` | apps/gateway/src/repository.ts:307-323 | finalising returns a reservation's quantity to stock or takes it out for good, once |
| `Inventory.FinalizeKeepsGood` | apps/gateway/src/repository.ts:307-323 | the throw in the middle of the mutation never happens |
| `Inventory.SaveConservesIffNotActive` | apps/gateway/src/repository.ts:249-251 | saving an ended record conserves every product iff the record it replaces is not active |
| `Inventory.ConservedIffSavesInTime` | apps/gateway/src/repository.ts:249-251 | on every run with saves of records that finalisations handed out: the in-memory store conserves at every moment iff no save meets a reservation that is active again; it stays good either way |
| `Inventory.TimelySavesAreHarmless` | apps/gateway/src/expiry-processor.ts:115-121 | no save does if no reservation with its id is made between the finalisation and the save |
| `Inventory.GatewayConservesIff` | apps/gateway/src/commerce.ts:61-80 | the same iff for the ids the gateway forms, with no assumption about who owns an id |
| `Inventory.GatewayConservesInventory` | apps/gateway/src/commerce.ts:61-101 | so the gateway conserves its inventory on every run with timely saves |
| `Inventory.LateSaveLosesStock` | apps/gateway/src/app.ts:693-696 | a run in which a late save loses a unit in memory and none in Firestore |
| `Inventory.InventoryConserved` | apps/gateway/src/commerce.ts:61-101 | on every run from any sessions in which no save meets an active reservation: per product, stock plus active reservations plus everything consumed is constant, stock is never negative, a session has at most one active reservation |
| `Inventory.ReservationIdInjective` | apps/gateway/src/commerce.ts:61-80 | a reservation id determines session and product if product ids have no underscore |
| `Inventory.ReservationIdsCollide` | apps/gateway/src/commerce.ts:61-80 | with an underscore it need not |
| `Idempotency.ClaimsAreExclusive` | apps/gateway/src/repository.ts:331-352 | for any interleaving of requests, aborts, crashes, retries and harmless late releases one request at a time holds a claim, a completed value stays, and all answers under one record agree |
| `Idempotency.ExclusionIffHarmless` | apps/gateway/src/app.ts:847-852 | exclusion lasts throughout a run exactly if each release repeated after a lost reply comes while nobody holds the claim again |
| `Idempotency.NextKeepsGood` | apps/gateway/src/app.ts:757-768 | the invariant behind it, step by step; the holder always can complete |
| `Idempotency.FinishedIsAnswered` | apps/gateway/src/repository.ts:338-340 | over every run: once a request has stored its value, whatever follows, each later request with the same key and body ends with that value, and one with another body is turned away as a conflict |
| `Idempotency.StartMeetsHolder` | apps/gateway/src/repository.ts:338-339 | a request that meets a holder with its own body is told that it is in progress, one with another body that it conflicts |
| `Idempotency.StartTakesFreeRecord` | apps/gateway/src/repository.ts:331-337 | a request that meets no record holds the claim |
| `Idempotency.AbortFrees` | apps/gateway/src/app.ts:769-772 | an aborted holder frees the record for the next request |
| `Idempotency.LateReleaseExact` | apps/gateway/src/repository.ts:348-352 | a release repeated after a lost reply is harmless iff no request holds the claim with the same fingerprint by then |
| `Idempotency.LateReleaseBreaksExclusion` | apps/gateway/src/app.ts:424-430 | otherwise two requests end up holding it |
| `Idempotency.ScopesDoNotCollide` | apps/gateway/src/repository.ts:331-332 | the record ids of the scopes in use never collide |
| `Repositories.InMemoryRepository.CreateSession` | apps/gateway/src/repository.ts:169-173 | creates a session exactly if the id is new |
| `Repositories.InMemoryRepository.DeleteSessionIfState` | apps/gateway/src/repository.ts:174-180 | deletes exactly the session in one of the given states |
| `Repositories.InMemoryRepository.TransitionSession` | apps/gateway/src/repository.ts:188-209 | follows the graph, drops the lease, changes nothing else |
| `Repositories.InMemoryRepository.ClaimSettlement` | apps/gateway/src/repository.ts:210-226 | claims exactly an active or unleased settling session |
| `Repositories.InMemoryRepository.ReserveRequest` | apps/gateway/src/repository.ts:227-240 | counts the request within all limits or changes nothing |
| `Repositories.InMemoryRepository.CreateSettlementAttempt` | apps/gateway/src/repository.ts:259-264 | the first attempt under an id stays |
| `Repositories.InMemoryRepository.ClaimSettlementNonce` | apps/gateway/src/repository.ts:265-270 | grants a nonce to one evidence hash |
| `Repositories.InMemoryRepository.SaveSettlementAttempt` | apps/gateway/src/repository.ts:271-277 | stores the merge or reports the conflict |
| `Repositories.InMemoryRepository.CreateReservationWithInventory` | apps/gateway/src/repository.ts:297-306 | the in-memory operation of the refinement |
| `Repositories.InMemoryRepository.FinalizeReservationWithInventory` | apps/gateway/src/repository.ts:307-323 | likewise, with the record changed before the inventory is looked up |
| `Repositories.InMemoryRepository.SaveReservation` | apps/gateway/src/repository.ts:249-251 | the blind write of the runs |
| `Repositories.InMemoryRepository.ClaimIdempotent` | apps/gateway/src/repository.ts:331-341 | the claim of the protocol |
| `Repositories.InMemoryRepository.CompleteIdempotent` | apps/gateway/src/repository.ts:342-347 | its completion |
| `Repositories.InMemoryRepository.ReleaseIdempotent` | apps/gateway/src/repository.ts:348-352 | its release |
| `Repositories.FirestoreRepository.TransitionSession` | apps/gateway/src/firestore-repository.ts:71-84 | the same transition as a transaction |
| `Repositories.FirestoreRepository.CreateReservationWithInventory` | apps/gateway/src/firestore-repository.ts:195-214 | the Firestore operation of the refinement |
| `Repositories.FirestoreRepository.FinalizeReservationWithInventory` | apps/gateway/src/firestore-repository.ts:215-241 | likewise |
| `Repositories.FirestoreRepository.SaveReservation` | apps/gateway/src/firestore-repository.ts:129-131 | likewise; the index is not touched |
| `CanonicalJson.CanonicalizeInjective` | packages/contracts/src/index.ts:262-280 | two values print equal iff they are equal ignoring member order, at every depth, with array order kept |
| `CanonicalJson.CanonicalizeIsSortedStringify` | packages/contracts/src/index.ts:268-277 | canonical text is the plain JSON text of the value with its members sorted at every depth, and there is none for undefined or a non-finite number anywhere |
| `CanonicalJson.StringifyUnique` | packages/contracts/src/index.ts:263-267 | JSON text is prefix-free: it can be read in one way only |
| `CanonicalJson.ReadsBack` | packages/contracts/src/index.ts:263-267 | a reader written from RFC 8259 alone reads the JSON text of every value as that value, and leaves what follows alone |
| `CanonicalJson.CanonicalTextReadsBack` | packages/contracts/src/index.ts:262-286 | canonical text, read as JSON, is the value itself with the members of every object in order |
| `CanonicalJson.ReadsQuote` | packages/contracts/src/index.ts:263 | a quoted string is read back as the string, by the escapes of section 7 of RFC 8259 |
| `CanonicalJson.KeyOrderIsUtf16` | packages/contracts/src/index.ts:271-272 | keys are ordered as the UTF-16 code units of their encodings |
| `CanonicalJson.QuoteUnique` | packages/contracts/src/index.ts:263 | quoting and escaping lose nothing |
| `CanonicalJson.SortMembersSorts` | packages/contracts/src/index.ts:271-272 | sorting by UTF-16 code units yields a strictly sorted permutation |
| `CanonicalJson.SortedUnique` | packages/contracts/src/index.ts:271-272 | the sorted order of a set of members is unique |
| `CanonicalJson.NormalizeDecidesSame` | packages/contracts/src/index.ts:262-280 | sorting at every depth decides equality up to member order |
| `CanonicalJson.PrintersAgree` | packages/payment-client/src/policy-hash.ts:11-24 | the payment client's printer equals canonicalizing after undefined members are dropped and undefined entries made null, exactly on a defined root with finite numbers |
| `CanonicalJson.ClientPrintsNulls` | packages/payment-client/src/policy-hash.ts:11-24 | on every defined root the client prints the canonical text of the value without undefined and with null for every number that is not finite |
| `EventRoute.EveryEventOnce` | apps/gateway/src/app.ts:863-902 | for every interleaving of emits with the phases of a connection, no event id is written twice, nothing but logged events is written, and once live every published event that follows Last-Event-ID has been written |
| `EventRoute.RunKeepsGood` | apps/gateway/src/app.ts:874-894 | the invariant behind it |
| `EventRoute.ReplayWrites` | apps/gateway/src/app.ts:886-889 | the replay loop, which takes each id out of `sent` first, writes the snapshot in order, once |
| `EventRoute.WriteAllConsistent` | apps/gateway/src/app.ts:877-881 | `sent` always equals what has been written |
| `EventRoute.OtherProcessesAreMissed` | apps/gateway/src/event-stream.ts:7-9 | an event appended by another process is not delivered to a live connection |
| `EventRoute.OpenStream.OnEvent` | apps/gateway/src/app.ts:882-885 | an event is buffered while replaying and written afterwards |
| `EventRoute.OpenStream.ReplayEvents` | apps/gateway/src/app.ts:886-889 | the loop equals its specification |
| `EventRoute.OpenStream.CatchUp` | apps/gateway/src/app.ts:890-894 | catch-up, then the sorted buffer, then live |
| `EventRoute.OpenStream.WriteEvent` | apps/gateway/src/app.ts:877-881 | an id is written at most once |
| `SessionEvents.FindEvent` | apps/gateway/src/event-stream.ts:21-25 | the first event with the id, or none |
| `EventStreamClient.ConsumeEventStream` | apps/web/lib/usePlayer.ts:57-87 | whatever the chunks, empty ones and split CRLF included, events and last id depend on the whole text only: those of the complete blocks of the normalised stream without a final lone CR, up to the first unparsable one |
| `EventStreamClient.AppendChunk` | apps/web/lib/usePlayer.ts:63-72 | a withheld carriage return joins the next chunk |
| `EventStreamClient.DeliverBlocks` | apps/web/lib/usePlayer.ts:73-85 | the inner loop delivers exactly the complete blocks |
| `EventStreamClient.ParseSseBlock` | apps/web/lib/usePlayer.ts:27-35 | the last `id:` line and all `data:` lines count |
| `EventStreamClient.TwoPassesNormalize` | apps/web/lib/usePlayer.ts:72 | the two replacements are one pass over CRLF, CR and LF |
| `EventStreamRoundTrip.LineEndsNormalize` | apps/web/lib/usePlayer.ts:72 | every line end, whichever of the three it is, becomes one line feed, and the lines stay |
| `EventStreamRoundTrip.BlockParses` | apps/web/lib/usePlayer.ts:27-35 | a block of any fields in any order is read as its last id and all its data, one line a field |
| `EventStreamRoundTrip.BlockDelivers` | apps/web/lib/usePlayer.ts:77-83 | a block without data delivers nothing; one with data delivers the event and is remembered by its last id, or by the event's if it has none |
| `EventStreamClient.NormalizeAppend` | apps/web/lib/usePlayer.ts:64-72 | text may be cut anywhere but inside a CRLF |
| `EventStreamClient.BlocksExact` | apps/web/lib/usePlayer.ts:73-76 | the blocks and the rest are the only way to cut the text at blank lines |
| `EventStreamClient.ReadOn` | apps/web/lib/usePlayer.ts:57-85 | what has been delivered stays, the rest is read with what follows |
| `EventStreamClient.FirstArrivalsAreUnique` | apps/web/lib/usePlayer.ts:152-159 | the list of live events holds each id that ever arrived exactly once |
| `EventStreamClient.LiveEvents.Append` | apps/web/lib/usePlayer.ts:152-159 | an event is listed on its first arrival only; its id is remembered always |
| `EventStreamClient.LiveEvents.Poll` | apps/web/lib/usePlayer.ts:161-174 | after any mix of streams and polls the list is duplicate-free and holds everything that arrived; the last polled id is remembered |
| `EventStreamClient.LiveEvents.StreamEnded` | apps/web/lib/usePlayer.ts:178-183 | a stream that ends cleanly replaces the remembered id by its own and changes no list |
| `EventStreamRoundTrip.StreamRoundTrip` | apps/gateway/src/event-stream.ts:27-29 | whatever is serialised, with heartbeats anywhere and chunked anyhow, the client reads exactly the events that were sent and the id of the last |
| `EventStreamRoundTrip.BrokenStreamIsPrefix` | apps/web/lib/usePlayer.ts:57-87 | a connection that breaks anywhere has delivered a prefix and remembers its last id |
| `EventResume.ReconnectResumes` | apps/gateway/src/app.ts:866 | from any Last-Event-ID, empty and unknown ones included as long as they stay unknown, any state of the route and any break of the text on the wire: the client resumes without loss iff it has seen every logged event between where the connection started and the last event it received; it does if the connection was not live yet or that event was in the log at the catch-up read |
| `EventResume.LiveBreaksHarmlessIff` | apps/gateway/src/app.ts:882-894 | every break of a live connection is harmless, for a client that has nothing yet of what follows, iff what the connection has written from the catch-up position on is an initial stretch of the log in its order |
| `EventResume.InOrderIsStretch` | apps/gateway/src/app.ts:877-881 | writing every event after its predecessors is writing an initial stretch |
| `EventResume.ReconnectsLoseNothingIff` | apps/web/lib/usePlayer.ts:161-191 | the same over any number of connections, clean ends and failures, polls during and between them, and a growing log |
| `EventResume.PolledVisitSkipsNothing` | apps/web/lib/usePlayer.ts:161-176 | a poll that is answered after a break makes good whatever the connection skipped |
| `EventResume.LiveBreakCanLose` | apps/gateway/src/app.ts:186-190 | a run in which the condition fails: events published out of order, then a break, and one of them is never sent again |
| `EventResume.OrderedRun` | apps/gateway/src/app.ts:874-894 | up to the catch-up read, every connection writes in the order of the log, whatever is emitted meanwhile |
| `EventResume.GrowthIsHarmless` | apps/gateway/src/event-stream.ts:21-25 | what is appended before the client connects again makes no difference |
| `EventResume.PollRestores` | apps/web/lib/usePlayer.ts:161-174 | one full poll makes the client complete and lets it resume without loss |
| `EventResume.InOrderResumesExactly` | apps/gateway/src/event-stream.ts:21-25 | a client that has received the log in order is sent exactly the events it has not seen |
| `EventStreamRoundTrip.ParsesBack` | apps/gateway/src/event-stream.ts:27-29 | the client's block parser undoes the gateway's serialiser |
| `EventStreamRoundTrip.StringifyOneLine` | apps/gateway/src/event-stream.ts:28 | JSON text has no line ends, whatever it holds |
| `EventStreamRoundTrip.EventTextUnique` | apps/gateway/src/event-stream.ts:28 | different events have different text |
| `EventStreamRoundTrip.ParseEventInverts` | apps/gateway/src/event-stream.ts:27-29 | reading an event's text as JSON and taking its members by name gives the event back |
| `EventStreamRoundTrip.HeartbeatIsSilent` | apps/gateway/src/app.ts:895 | a heartbeat delivers nothing |
| `PolicyCompiler.ValidateAndBuildPolicy` | services/intent-agent/app/compiler.py:100-312 | succeeds exactly for proposals within the catalogue with matching bonded actions, returns the clamped policy and an exact list of lowered limits, and otherwise names a true fault |
| `PolicyGrants.BuiltPolicyExactly` | services/intent-agent/app/compiler.py:100-312 | every built policy, from catalogue, budget and proposal alone: per proposed operation the catalogue's verb and path, exactly the proposed fields and the lesser number of calls; then release and expiry exactly where a reservation brings them; every limit the least of its bounds; purpose and wallet as asked |
| `PolicyGrants.BuildableExactly` | services/intent-agent/app/compiler.py:111-264 | a policy is built exactly if operations and fields are the catalogue's and the bonded actions are those of the chosen bonded operations |
| `PolicyCompiler.ClampedListIsExact` | services/intent-agent/app/compiler.py:52-76 | the list has no duplicates and holds a limit's name iff the policy finally holds less than was proposed, chained clamps and the zeroed bond included |
| `PolicyCompiler.FinalNamesDistinct` | services/intent-agent/app/compiler.py:125-243 | no two limits of a proposal share a name |
| `PolicyCompiler.ZeroingIsExact` | services/intent-agent/app/compiler.py:265-279 | recording the zeroing on top of an earlier clamp is exact |
| `PolicyCompiler.ClampLimit` | services/intent-agent/app/compiler.py:58-76 | the least of a value and its caps, recorded if lower |
| `PolicyCompiler.Cap` | services/intent-agent/app/compiler.py:64 | not above the value or any cap, and equal to one of them |
| `PolicyCompiler.SelectOperations` | services/intent-agent/app/compiler.py:111-139 | accepts exactly known operations and fields |
| `PolicyCompiler.AddLifecycle` | services/intent-agent/app/compiler.py:145-163 | a reservation brings its release and expiry operations |
| `PolicyCompiler.ClampSession` | services/intent-agent/app/compiler.py:165-211 | the session limits in their order of dependence |
| `PolicyCompiler.ClampBondedActions` | services/intent-agent/app/compiler.py:213-251 | accepts exactly actions of selected bonded operations |
| `PolicyCompiler.BondedIdsCovered` | services/intent-agent/app/compiler.py:253-264 | the comparison of id sets is the coverage of bonded operations |
| `PolicyCompiler.BuildFrom` | services/intent-agent/app/compiler.py:141-312 | the second half of the build |
| `PolicyCompiler.Compile` | services/intent-agent/app/compiler.py:329-375 | the first attempt that builds wins, after at most the allowed number of repairs, the response's list names exactly the limits it lowered, and a failure lists one true reason for each attempt |
| `PolicyValidation.ValidateAccessPolicy` | packages/contracts/src/index.ts:222-259 | no error is reported iff the policy is within the catalogue and its amounts are in order |
| `PolicyValidation.BuiltPolicyIsAccepted` | packages/contracts/src/index.ts:222-259 | every policy the compiler builds passes the gateway's check and its own model's invariants |
| `PolicyValidation.BuiltPolicyWithinBudget` | services/intent-agent/app/compiler.py:165-211 | and stays within the user's budget and the proposal |
| `PolicyValidation.PartsAccepted` | services/intent-agent/app/models.py:182-195 | the monetary invariants hold, in the zeroed case too |
| `PolicyValidation.CheckOperations` | packages/contracts/src/index.ts:232-244 | operations are checked against their catalogue entries |
| `PolicyValidation.CheckActions` | packages/contracts/src/index.ts:245-250 | bonded actions are checked against catalogue and selection |

## Left out

- Fastify plumbing, schemas, logging and redaction, discovery and catalogue routes, rendering, demo runner, proxies, scripts and deployment.
- Solana RPC, Anchor, SPL and Firestore internals: a transaction is one atomic step that happens or not; freezing and closing of token accounts and other mint extensions are not modelled.
- Lone surrogates and negative zero in JSON text, and the spelling of digests (`normalizeHashHex`): a digest has one spelling here.
- The usage adapter and its token signing: a usage charge is any number that passes the cap check; the charge in the evidence and the one in the receipt are not related, and the source does not relate them across retries.
- The receipt's own hash and its list of transactions.
- `pollSettlement` inside the step system: the modelled adapter never answers PENDING, so the poll returns its argument there; the method itself is proved separately.
- The counting of the expire request itself (`reserveRequest` while settling) is a step of its own that may happen at any time in the step system.
- The expire route's receipt reports the calls the session has when it ends; the source takes the number from the route's own count, which differs only if another expire request is counted in between.
- JSON numbers are opaque texts of number characters, and the JSON reader takes no blanks and no surrogate pairs written as escapes: the printers write neither.
- The routes and the worker are processes of a step system on values rather than methods, since other processes run between any two of their steps; the objects they call are also given as classes.
- The worker's loop over sessions and reservations: each of its rounds is a process that enters at any time.
- Reservations: the quantity is 1 in the step system, as the gateway's route fixes it; the step system runs on the in-memory store.
- Firestore's ordering of listed events by time: the event log is append-only here.
- Fields that JSON.parse finds missing in an event: the client's parser is a partial function from text to events.
- Natural-language matching of forbidden paths, the explanation texts and policy ids of the compiler, and the proposal providers: a proposal is an arbitrary input.
- Policy amounts are naturals, not decimal strings.
- SettlementSafety.LostResponsesAreRecovered: a retry that asks for another penalty than the journalled one is refused, which does happen when a policy has several bonded actions (RefusalIsReachable).
- The newest signature on a bond account is an arbitrary input of a call: which transactions name the account is not part of the ledger here.
- SettlementReceipts.StrandedStaysOpen: speaks of calls that nobody disturbs, not of interleaved ones.
- Inventory.FirestoreRefinesMemory: needs fresh reservation ids, for which CreateRefinesIffFresh gives the exact condition.
- EventRoute.EveryEventOnce: says nothing of events appended by other processes after the catch-up read, which OtherProcessesAreMissed shows are missed.
