# LightningOS Light: verified models

Dafny models of the parts of LightningOS Light whose correctness does not show in any one
function, with proofs of the properties the design relies on.

## Balanced open

Two nodes fund one Lightning channel from both sides. Each keeps a session row (role, peer,
capacity, fee rate, state, a metadata document) that operator calls, peer messages and a
reconcile loop all move. Each side locks coins in a transit output; both derive the same
two-input transaction from the exchanged artifacts; the accepter sends its witness; the
initiator asks LND to open the channel and only then broadcasts. A second exchange of
signatures recovers a 2-of-2 output whose channel never came to be.

- `Prelude`, `Bitcoin`, `Session`, `FundingPlan`, `Lnd`, `OrphanRecovery`: the data, the three
  atomic row updates, the metadata merge, the two transaction plans, and the recovery call as
  a sequence of single reads, writes, messages and LND calls.
- `SessionStore`: the table of all sessions with its four statements, and why sessions can
  be looked at one by one.
- `OpenWorld`: both nodes, the network and LND's history as a state machine. A step is one
  database write, one message or one LND call. A write may be based on any row its node ever
  stored, and any number of recovery calls run side by side, so every interleaving of calls,
  messages and reconcile ticks is covered. `OpenHistory`: what no step undoes.
- `OpenService`: one node's propose, accept, execute, retry, cancel and recovery calls, its
  message handlers and the promotion of a session by the reconcile loop, as methods of a
  class with anything else happening between their steps. Each of these methods extends a
  run of the machine, so what is proved of runs holds of it. The loop around them is left to
  the machine, which takes their steps in any order.
- `OpenSafety`: what holds whatever the peer sends. `OpenAgreement`, `OpenRuns`: the invariant
  of two honest nodes and its preservation. `OpenGuarantees`: what follows for every run.
- `OpenFunding`, `OpenRates`, `OpenCoherence`: three guarantees that hold with any peer under
  a condition, and why the condition is exact: coins locked once, a recovery rate that never
  changes, a funding transaction stored with its id.
- `RecoveryAgreement`, `RecoveryRuns`: recoveries of two honest nodes.
- `OpenExample`, `RecoveryExample`: honest runs that get to the broadcast and to a published
  recovery, and one in which overlapping recovery calls publish a recovery that is rejected.
  `OpenLimits`: runs with a dishonest peer in which coins are locked twice and in which a
  transaction is stored under another id.
- `StuckRetry`: the automatic rebroadcast of a channel stuck in pending open.

What is assumed, beside what the code does:

- One session's read-check-write is one atomic step (the check of a transition at
  balanced_open_service.go:2681-2690 stands outside the transaction opened at 2692).
- The propose and accept calls of one node are serial. Everything else interleaves, recovery
  calls and recovery messages of one node included. Where a guarantee fails when such calls
  overlap, the condition is part of its statement: no recovery call starts while an
  unfinished one of the same node works at another fee rate.
- Database writes succeed. A call to LND that returned an error had no effect. LND returns
  well-formed keys and txids, no sigScript for a P2WPKH input, and a non-empty witness to the accepter.
- Runs start with the default metadata (line 1399). One session between two nodes.
- Hash functions are parameters of which only the width of the result is known; a
  transaction id does not cover witnesses (BIP 141, section "Transaction ID"); the 2-of-2
  script follows BOLT 3, section "Funding Transaction Output". A signature is an event in
  LND's history that names the transaction, the input, the key, and the value and script of
  the output spent.
- An honest peer's messages may be dropped, delayed, repeated and reordered, but not forged.
- Hex text stands for the bytes it decodes to. Money wraps around at 64 bits as in Go.

## Reports, configuration, routes

- `PaymentScan`, `PaymentReports`: the backward paged scans over LND's payments with their
  early exits, and the totals and daily buckets made of them. Timestamps are 64-bit; sums of
  fees are unbounded, which all the bitcoin there is cannot tell from 64 bits.
- `Days`: local days and report windows in zones with a fixed offset.
- `OnchainScan`: on-chain fees in total and per day with the cost of channel closures.
- `Text`, `LndConf`, `LndRestConf`: the two rewriters of lnd.conf.
- `InactiveTracker`: since when channels are inactive. `RouteQuery`: several routes in a row.

## Model

| member | source | states |
|---|---|---|
| Session.EncodeNeverErases | lightningos-light/internal/server/balanced_open_service.go:2910-3004 | Writing a document back erases nothing recorded and keeps all the writer recorded, except a transit key, which is lost if and only if the writer knew the output but not its key |
| Session.EncodeRoundTrips | lightningos-light/internal/server/balanced_open_service.go:2910-3004 | A stored document written to an empty row or over itself reads back the same |
| Session.LastWriteWins | lightningos-light/internal/server/balanced_open_service.go:2703-2711 | Of two writes in turn every field keeps what the last one that names it wrote |
| SessionStore.Table.CreateSession | lightningos-light/internal/server/balanced_open_service.go:1376-1490 | A valid request stores a new row in session_created with the metadata given or the default; any other stores nothing and returns its error; no other session changes |
| SessionStore.Table.TransitionSession | lightningos-light/internal/server/balanced_open_service.go:2676-2746 | The row moves and merges the patch unless its terminal state forbids it; the error says which; no other session changes |
| SessionStore.Table.CancelSession | lightningos-light/internal/server/balanced_open_service.go:1680-1747 | Only an open session is canceled; its metadata stays; no other session changes |
| SessionStore.Table.UpsertSession | lightningos-light/internal/server/balanced_open_service.go:2025-2180 | A valid proposal inserts an accepter row or updates the stored one, keeping its role and a terminal state; no other session changes |
| SessionStore.OneMoreStatement | lightningos-light/internal/server/balanced_open_service.go:2676-2746 | What has become of a session depends only on the statements that name it |
| SessionStore.RowsOnlyMove | lightningos-light/internal/server/balanced_open_service.go:2676-2746 | Whatever statements come, a session keeps its role and leaves a terminal state only from canceled for recovered |
| Bitcoin.MultisigScriptNamesBothKeys | lightningos-light/internal/server/balanced_open_service.go:3346-3368 | The witness script is a 2-of-2 that names each of the two keys once, the one that comes first byte by byte in front |
| Bitcoin.MultisigScriptIgnoresKeyOrder | lightningos-light/internal/server/balanced_open_service.go:3346-3368 | Both sides build the same script whichever key they call local |
| FundingPlan.TransitContributionsCoverCapacityAndFee | lightningos-light/internal/server/balanced_open_service.go:3460-3475 | Two contributions bring exactly capacity plus 190 sat per fee unit, each half of both, if and only if that sum fits an int64 |
| FundingPlan.BeforeIsAStrictTotalOrder | lightningos-light/internal/server/balanced_open_service.go:3378-3387 | The input order is a strict total order on outpoints |
| FundingPlan.DualPlanSpendsBothTransits | lightningos-light/internal/server/balanced_open_service.go:3255-3327 | The plan spends each side's outpoint at that side's index, in order of the reversed txid bytes and then the output index; it pays the capacity to the hash of a 2-of-2 script over the two recorded keys, each once in ascending order; it is unsigned and its id is its own |
| FundingPlan.RolesAreSymmetric | lightningos-light/internal/server/balanced_open_service.go:3255-3327 | With distinct outpoints, swapping the parties gives the same transaction, id and pending channel id with the indexes exchanged |
| FundingPlan.EqualOutpointsKeepTheirIndexes | lightningos-light/internal/server/balanced_open_service.go:3285-3293 | With one outpoint on both sides the stable sort leaves the indexes where they are |
| FundingPlan.WitnessesKeepTheTxid | lightningos-light/internal/server/balanced_open_service.go:594-601 | Adding both witnesses leaves the transaction id alone, puts each on its side's input, and makes the transaction appear signed exactly when both are there |
| FundingPlan.OrphanPlanConservesMoney | lightningos-light/internal/server/balanced_open_service.go:3816-3897 | A recovery spends exactly the recorded funding output and pays out all but its fee, to the two transit scripts, in halves that differ by at most one sat and are at least 330; the fee is 180 sat per unit if and only if the product fits an int64; the value it tells the signer is that of the stored output, else the capacity, and the script is the 2-of-2 over both keys |
| FundingPlan.RecoverableIff | lightningos-light/internal/server/balanced_open_service.go:3816-3868 | There is a recovery if and only if both keys, the funding id and both scripts are on record and at least 660 sat are left after the fee |
| FundingPlan.WitnessPairsSignaturesWithKeys | lightningos-light/internal/server/balanced_open_service.go:3899-3930 | For all key pairs CHECKMULTISIG checks each signature against the key of the party that made it |
| OpenSafety.RecoveryOnlyRecovers | lightningos-light/internal/server/balanced_open_service.go:2437-2572 | Each step of a recovery call or message handler, whatever came since the one before, keeps identity, artifacts and operator calls, moves the session only to a state it has been in, active or recovered, stores no new funding transaction, and logs only recovery signatures and recoveries |
| OpenSafety.RecoveryWritesSafely | lightningos-light/internal/server/balanced_open_service.go:2286-2435 | What a recovery call writes, however old the row it read, fits the role and stores only an unsigned or acknowledged transaction |
| OpenSafety.TerminalStatesAbsorb | lightningos-light/internal/server/balanced_open_service.go:2676-2746 | Over every run with any peer, active, failed and recovered stay for ever and canceled stays or becomes recovered |
| OpenSafety.AssembledTxIsAcked | lightningos-light/internal/server/balanced_open_service.go:594-665 | After an acknowledged open, the assembled transaction has the id LND was asked to open |
| OpenSafety.UpdatesFitTheRole | lightningos-light/internal/server/balanced_open_service.go:419-444 | Every write of a session takes it to a state its role allows |
| OpenSafety.UpdatesStoreSafely | lightningos-light/internal/server/balanced_open_service.go:676-749 | Every write stores a transaction that is unsigned, or stored before, or acknowledged by LND |
| OpenSafety.CallsPublishSafely | lightningos-light/internal/server/balanced_open_service.go:1066-1126 | Every way of publishing a funding transaction publishes an acknowledged one |
| OpenSafety.StepKeepsSafe | lightningos-light/internal/server/balanced_open_service.go:508-755 | Every step of every call keeps the safety invariant, with any peer |
| OpenSafety.RolesFitStates | lightningos-light/internal/server/balanced_open_service.go:2107-2124 | In every run with any peer a session keeps its role and its state fits it; failed and fully signed are unreachable |
| OpenSafety.CommitBeforeBroadcast | lightningos-light/internal/server/balanced_open_service.go:665-704 | In every run with any peer, LND acknowledged an open of T:0 before any funding transaction with id T is published |
| OpenAgreement.GoodMerge | lightningos-light/internal/server/balanced_open_service.go:2910-3004 | Writing back a document of an honest run, however old, keeps the stored one consistent and erases nothing |
| OpenAgreement.GoodMetaPlans | lightningos-light/internal/server/balanced_open_service.go:3255-3327 | Any document of an honest run that knows both parties yields one and the same plan and pending channel id |
| OpenAgreement.GoodMetaRecovers | lightningos-light/internal/server/balanced_open_service.go:3816-3897 | Any document of an honest run yields one and the same recovery at a given rate |
| OpenAgreement.ExecutableMeansAgreed | lightningos-light/internal/server/balanced_open_service.go:508-560 | Whenever the initiator can execute, its plan is the agreed one and its witness is one the accepter's LND made for it |
| OpenRuns.FundingIsFirst | lightningos-light/internal/server/balanced_open_service.go:3061-3121 | A document without artifacts in an open operator call means this node has locked nothing before |
| OpenRuns.CountersignedIsGood | lightningos-light/internal/server/balanced_open_service.go:3123-3253 | What the accepter derives and signs is the agreed transaction, also when the signing fails |
| OpenRuns.ProposalPatchIsGood | lightningos-light/internal/server/balanced_open_service.go:2025-2180 | A proposal, repeated or late, keeps the accepter's document consistent and erases nothing |
| OpenRuns.AcceptIsGood | lightningos-light/internal/server/balanced_open_service.go:2182-2259 | An accept, repeated or late, keeps the initiator's document consistent and erases nothing |
| OpenRuns.SubmitIsGood | lightningos-light/internal/server/balanced_open_service.go:537-560 | The submitted patch records the agreed transaction and id |
| OpenRuns.SignedIsGood | lightningos-light/internal/server/balanced_open_service.go:676-749 | The three writes of the signed transaction keep it together with its id |
| OpenRuns.SaveKeepsHonest | lightningos-light/internal/server/balanced_open_service.go:1186-1242 | An operator call's write-back keeps the invariant of honest nodes |
| OpenRuns.StepKeepsHonest | lightningos-light/internal/server/balanced_open_service.go:1128-1374 | Every step two honest nodes can take keeps their invariant and retracts no fact |
| OpenRuns.RunKeepsHonest | lightningos-light/internal/server/balanced_open_service.go:338-417 | So does every run |
| RecoveryAgreement.LocalSigIsOk | lightningos-light/internal/server/balanced_open_service.go:2463-2490 | The local signature a call uses was made over the agreed recovery at the call's rate |
| RecoveryAgreement.AgreedRecoverySpendsFunding | lightningos-light/internal/server/balanced_open_service.go:3816-3897 | The recovery both sides derive spends output 0 of the funding transaction both sides derive, under the script that output pays to and with its value |
| RecoveryAgreement.AssembledRecoveryIsAccepted | lightningos-light/internal/server/balanced_open_service.go:2521-2535 | A consistent document with both signatures assembles a recovery of output 0 of the agreed funding transaction: its witness script hashes to that output's script, and CHECKMULTISIG accepts both signatures, made over this transaction, this script and the output's value |
| RecoveryAgreement.RecoveryKeepsSigs | lightningos-light/internal/server/balanced_open_service.go:2493-2501 | Whatever a recovery call writes back over a row that may have changed since its read, every signature on record is one for the recorded rate |
| RecoveryAgreement.ContinuedCallIsGood | lightningos-light/internal/server/balanced_open_service.go:2463-2535 | The signature a call asks LND for is over the agreed recovery at its rate, and the recovery it publishes is accepted |
| RecoveryAgreement.SentByCallIsGood | lightningos-light/internal/server/balanced_open_service.go:2574-2600 | Requests and answers carry the sender's own signature over the agreed recovery at the rate they name |
| RecoveryRuns.StepKeepsSigned | lightningos-light/internal/server/balanced_open_service.go:2286-2572 | Every step of two honest nodes that does not start a recovery call in a clash keeps all signatures in rows, calls and messages good and every published recovery accepted |
| OpenGuarantees.InitiatorPlansWhatAccepterSigned | lightningos-light/internal/server/balanced_open_service.go:508-613 | In every honest run the initiator's plan is the one the accepter's LND signed, at the index where the witness goes, with the key the output pays to; both witnesses leave transaction and id unchanged |
| OpenGuarantees.BothDeriveOneTransaction | lightningos-light/internal/server/balanced_open_service.go:3202-3210 | Whatever the accepter derived at any time is the initiator's transaction, id and pending channel id |
| OpenGuarantees.EachSideLocksOnce | lightningos-light/internal/server/balanced_open_service.go:1304-1321 | In every honest run each side locks coins at most once, over repeated proposals and accepts and failed signings |
| OpenGuarantees.EachSideLocksItsShare | lightningos-light/internal/server/balanced_open_service.go:3061-3121 | What either side locks in an honest run is half the capacity and half the fee, if and only if both together fit an int64, in an output to a key hash of its own |
| OpenGuarantees.LockedCoinsAreOnRecord | lightningos-light/internal/server/balanced_open_service.go:1186-1200 | When no operator call is running, locked coins are in the row with the key that spends them, or the session was closed |
| OpenGuarantees.BroadcastsSpendWhatWasLocked | lightningos-light/internal/server/balanced_open_service.go:517-613 | Every funding transaction broadcast in an honest run spends exactly the two locked outputs, pays the capacity to a 2-of-2 over one key of each party and carries on each input a signature by the party that locked the output spent; its fee is 190 sat per unit of the session's rate, or of 1, and each side pays half, if and only if the sum fits an int64 |
| OpenGuarantees.NothingRecordedIsErased | lightningos-light/internal/server/balanced_open_service.go:2703-2711 | What any row of an honest run recorded, the present row records, but for LND's channel point |
| OpenGuarantees.FundingIdMatchesTransaction | lightningos-light/internal/server/balanced_open_service.go:552-557 | In every row of every honest run the funding transaction has the recorded funding id, and neither is there without the other |
| OpenRates.RecordedRateStays | lightningos-light/internal/server/balanced_open_service.go:2445-2456 | With any peer, once a node has recorded a recovery fee rate it never changes, in every run in which no recovery call starts at another rate than an unfinished one of its node |
| OpenRates.FirstClashCanChangeTheRate | lightningos-light/internal/server/balanced_open_service.go:2445-2501 | The condition is exact: from any such run, a call that does start at another rate can be followed by a change of the recorded rate, unless the writes are refused to a closed session |
| OpenGuarantees.PublishedRecoveriesAreAccepted | lightningos-light/internal/server/balanced_open_service.go:2521-2550 | Under the same condition every recovery published in an honest run spends output 0 of the one transaction that funds the deal, which is the one broadcast if any is; its witness script hashes to that output's script, its two signatures, one by each party, are over exactly this transaction and the output's value, and they stand in key order |
| OpenFunding.StepFundsOnce | lightningos-light/internal/server/balanced_open_service.go:3061-3121 | With any peer every step but a dual-mode message about the node's own side keeps what the node locked at one output, on record |
| OpenFunding.LocksOnceUnlessSpokenFor | lightningos-light/internal/server/balanced_open_service.go:1304-1321 | In every run with any peer in which the initiator hears no dual-mode proposal, the initiator locks coins at most once; likewise the accepter if it hears no accept taken as dual-mode |
| OpenFunding.SpokenForForgets | lightningos-light/internal/server/balanced_open_service.go:2060-2093 | A heard proposal or accept takes the node's transit key from its row if and only if it is such a message; a push-mode one does not |
| OpenFunding.InitiatorLocksAgain | lightningos-light/internal/server/balanced_open_service.go:2025-2180 | The condition is exact: from any world in which the initiator has locked coins in an open session, such a proposal can be followed by a second lock |
| OpenFunding.AccepterLocksAgain | lightningos-light/internal/server/balanced_open_service.go:2182-2259 | The same of the accepter and an accept |
| OpenLimits.InitiatorLocksTwice | lightningos-light/internal/server/balanced_open_service.go:3082-3090 | A run from the start in which the initiator locks coins twice |
| OpenLimits.AccepterLocksTwice | lightningos-light/internal/server/balanced_open_service.go:3161-3169 | A run from the start in which the accepter locks coins twice |
| RecoveryExample.OverlappingRecoveriesMismatch | lightningos-light/internal/server/balanced_open_service.go:2445-2550 | A run of two honest nodes, from the start, in which two overlapping recovery calls change the rate of a node and a recovery is published that CHECKMULTISIG rejects |
| OpenCoherence.WritesKeepCoherence | lightningos-light/internal/server/balanced_open_service.go:708-717 | With any peer every write keeps funding transaction and id together, except the one after a failed broadcast, which does if and only if the row still has that id |
| OpenCoherence.StepCoherence | lightningos-light/internal/server/balanced_open_service.go:508-755 | Every step of either node leaves all stored rows and operator documents coherent if and only if it is not that write on a row with another id |
| OpenCoherence.CoherentIffNeverStrays | lightningos-light/internal/server/balanced_open_service.go:708-717 | In every run with any peer every row ever stored is coherent if and only if no write after a failed broadcast landed on a row with another id |
| OpenLimits.BroadcastFailureCanStray | lightningos-light/internal/server/balanced_open_service.go:708-717 | A run with any peer in which one does, between two overlapping executions, for every hash that tells their transactions apart |
| OpenCoherence.DocumentWritesKeepCoherence | lightningos-light/internal/server/balanced_open_service.go:2910-3004 | Writing back a whole coherent document keeps coherence |
| OpenExample.HonestRunsGetThrough | lightningos-light/internal/server/balanced_open_service.go:665-749 | There are honest runs in which the funding transaction is broadcast, whatever the hash functions |
| RecoveryExample.HonestRunsRecover | lightningos-light/internal/server/balanced_open_service.go:2521-2550 | There are honest runs without a clash in which a recovery is published |
| OpenService.BalancedOpenService.ProposeSession | lightningos-light/internal/server/balanced_open_service.go:1128-1248 | Each refusal has its error and changes nothing; a successful call leaves a proposal_sent row with its artifacts and a proposal that tells them; a failure has a reason among the answers of LND and the peer, the terms, or a session closed meanwhile; always a run of the machine |
| OpenService.BalancedOpenService.PrepareInitiator | lightningos-light/internal/server/balanced_open_service.go:1152-1201 | After the preflight the artifacts exist and are stored, or the call fails with nothing unsaved |
| OpenService.BalancedOpenService.AcceptSession | lightningos-light/internal/server/balanced_open_service.go:1250-1374 | Each refusal has its error and changes nothing; a successful call leaves an accepted row and an accept that tells its artifacts and witness; a failure has a reason |
| OpenService.BalancedOpenService.PrepareAccepter | lightningos-light/internal/server/balanced_open_service.go:1279-1321 | Partial artifacts are stored before the error of their creation is returned |
| OpenService.BalancedOpenService.ExecuteSession | lightningos-light/internal/server/balanced_open_service.go:419-444 | Each refusal has its error and changes nothing; a successful dual execution has published the recorded transaction after LND acknowledged its channel and recorded the point; a failure has a reason, and past the checks it leaves the session in recovery_required or closed |
| OpenService.BalancedOpenService.Broadcast | lightningos-light/internal/server/balanced_open_service.go:676-755 | The signed transaction is recorded, then published, then recorded as broadcast |
| OpenService.BalancedOpenService.EnsureBroadcast | lightningos-light/internal/server/balanced_open_service.go:1066-1126 | Only a signed transaction with a channel point is published again; a pending session stays pending, any other becomes broadcast |
| OpenService.BalancedOpenService.RetryBroadcast | lightningos-light/internal/server/balanced_open_service.go:1930-1970 | Each refusal has its error and changes nothing; a successful retry published the recorded transaction and leaves a pending session pending, any other broadcast; a failed one leaves it in recovery_required or closed |
| OpenService.BalancedOpenService.TryPromote | lightningos-light/internal/server/balanced_open_service.go:812-865 | A session becomes active if and only if an active channel matches it, and otherwise pending if and only if one is opening that matches and its own output went into it; the point of the first such channel is recorded; it fails only on a closed session |
| OpenService.FindChannel | lightningos-light/internal/server/balanced_open_service.go:4020-4061 | Finds a channel if and only if one matches, and then the first: the point the session knows, else its peer and capacity |
| OpenService.BalancedOpenService.RecoverSession | lightningos-light/internal/server/balanced_open_service.go:1793-1882 | Refusals and failed plans have their errors and change nothing; a successful call has sent the peer a signed request at its rate, has recorded rate and signature and, with both signatures there, a published recovery by its id or that of the transaction LND found in its place; a failure has a reason |
| OpenService.BalancedOpenService.HearRecovery | lightningos-light/internal/server/balanced_open_service.go:2286-2435 | A refused message changes nothing; a heard one is recorded and worked on at its rate, and a request is answered with the local signature at that rate; a failure has a reason |
| OpenService.BalancedOpenService.HearProposed | lightningos-light/internal/server/balanced_open_service.go:2025-2180 | A proposal is stored if and only if sender, terms and artifacts are valid; it sets the terms and the initiator's side of the document, and keeps role, terminal state and the accepter's side |
| OpenService.BalancedOpenService.HearAccepted | lightningos-light/internal/server/balanced_open_service.go:2182-2259 | Only the session's peer is heard; a closed session is left alone; otherwise the session is accepted with the artifacts and witness the accept brings, or the accept is refused with no change |
| OpenService.BalancedOpenService.HearCanceled | lightningos-light/internal/server/balanced_open_service.go:2261-2284 | Only the session's peer is heard; a closed session keeps its state; an open one is canceled unless closed meanwhile |
| OpenService.BalancedOpenService.CancelOpen | lightningos-light/internal/server/balanced_open_service.go:1680-1747 | An open session is canceled; a closed one is refused with no change |
| StuckRetry.PendingSession.RetriesSpan | lightningos-light/internal/server/balanced_open_service.go:877-884 | In every history of a session k automatic rebroadcasts span at least k - 1 times twenty minutes, in nanoseconds |
| StuckRetry.PendingSession.OneRetryPerWindow | lightningos-light/internal/server/balanced_open_service.go:944-965 | Two automatic rebroadcasts of a session less than twenty minutes apart are one and the same |
| StuckRetry.PendingSession.CheckStuck | lightningos-light/internal/server/balanced_open_service.go:867-989 | Retries if and only if the row listed at the start of the tick is a pending dual session of the initiator with a signed transaction, last written at least twenty minutes ago, whose channel is opening without a confirmation and not seen outside; the retry and the stuck note are recorded unless the session is closed, and retries stay twenty minutes apart whatever others write before and after the check |
| StuckRetry.PendingSession.CooldownNeverDecides | lightningos-light/internal/server/balanced_open_service.go:960-965 | A channel seen as stuck is always past the written ten-minute cooldown, by at least ten minutes more |
| PaymentScan.ReadPage | lightningos-light/internal/reports/payment_scan.go:99-139 | The matches of a page, its smallest index, and the span of its timestamps |
| PaymentScan.SelectedAreThose | lightningos-light/internal/reports/payment_scan.go:113-133 | A payment is reported as often as it is there if it succeeded, lies in range and is of the kind asked for, and not at all otherwise |
| PaymentScan.Scan | lightningos-light/internal/reports/payment_scan.go:56-164 | Ends within 200000 requests for any server; over a store, reports each match among the payments it reads exactly once |
| PaymentScan.CompleteIffNoOldPageHides | lightningos-light/internal/reports/payment_scan.go:141-160 | Over any store within the page limit a scan is complete if and only if no payment to be counted stands before a page, counted in whole pages from the newest payment, on which all are older than the range |
| PaymentScan.ScanIsComplete | lightningos-light/internal/reports/payment_scan.go:141-160 | Over a store in time order of at most 5000 times 200000 payments it is complete |
| PaymentScan.OutOfOrderPaymentsCanBeMissed | lightningos-light/internal/reports/payment_scan.go:141-143 | A store out of time order in which a matching payment is missed |
| PaymentReports.TotalIgnoresOrder | lightningos-light/internal/reports/payment_scan.go:17-23 | Totals do not depend on the order of the reports |
| PaymentReports.TotalIsFigures | lightningos-light/internal/reports/payment_scan.go:15-28 | The running totals are the sum over, and the number of, the places of the store with a payment to be counted |
| PaymentReports.FetchPaymentMetrics | lightningos-light/internal/reports/payment_scan.go:15-28 | The sum of the fees and the number of the succeeded payments of the store in range that are not rebalances |
| PaymentReports.FetchRebalanceMetrics | lightningos-light/internal/reports/rebalance_scan.go:15-25 | The same of those that are rebalances |
| PaymentReports.FetchFeesByDay | lightningos-light/internal/reports/payment_scan.go:30-54 | The same for each local day, for payments and for rebalances |
| PaymentReports.KindsAddUp | lightningos-light/internal/reports/rebalance_scan.go:127-129 | Rebalances and ordinary payments add up to all payments |
| PaymentReports.BackfillEqualsDaily | lightningos-light/cmd/lightningos-manager/main.go:174-199 | One scan of a range bucketed by day gives each day what that day's own scan gives |
| Days.DayWindowHoldsTheDay | lightningos-light/internal/reports/time.go:66-78 | A date's window holds exactly the seconds of that local day |
| Days.BackfillRangeHoldsItsDays | lightningos-light/cmd/lightningos-manager/main.go:174-176 | The backfill range holds exactly the seconds of its days |
| Days.TodayWindowEndsNow | lightningos-light/internal/reports/types.go:89-106 | Today's window runs from the first second of the day to the present one |
| OnchainScan.Tally.AddFee | lightningos-light/internal/reports/onchain_scan.go:226-238 | Adds a fee to totals and to one day, and keeps the totals the sum of the days |
| OnchainScan.Tally.AddCost | lightningos-light/internal/reports/onchain_scan.go:240-264 | Adds a closure cost to one bucket of totals and day, and keeps the totals the sum of the days |
| OnchainScan.FetchFast | lightningos-light/internal/reports/onchain_scan.go:65-86 | Sum and number of the positive wallet fees in the period |
| OnchainScan.ScanWallet | lightningos-light/internal/reports/onchain_scan.go:109-133 | Totals, days and noted transactions are what the wallet's list says |
| OnchainScan.Classify | lightningos-light/internal/reports/onchain_scan.go:140-147 | A transaction is a closure if and only if a closed channel names it, and its bucket goes by the close type of the first that does: cooperative; local force; remote force or breach; none for any other |
| OnchainScan.FirstClassificationWins | lightningos-light/internal/reports/onchain_scan.go:193-202 | A transaction is a closure if and only if a channel names it, with the bucket of the first |
| OnchainScan.FirstChannelWins | lightningos-light/internal/reports/onchain_scan.go:140-217 | The bucket of a transaction goes by the close type of the first closed channel that names it |
| OnchainScan.ClosingFeeIsListed | lightningos-light/internal/reports/onchain_scan.go:109-174 | The fee charged for a closure is the last positive one the wallet lists for it in the period, else the one looked up, else none |
| OnchainScan.AddClosures | lightningos-light/internal/reports/onchain_scan.go:149-188 | The result does not depend on the order the closure map is visited in |
| OnchainScan.FetchOnchainFees | lightningos-light/internal/reports/onchain_scan.go:96-191 | In total and for each day: the fee figures are the positive wallet fees and those only the lookup knows; each of the three closure figures is 1000 times the sum of the fees of the known transactions whose first naming channel was closed that way; totals are the sum of the days field by field; closure costs never exceed the total fee |
| OnchainScan.ReportedFigures | lightningos-light/internal/reports/onchain_scan.go:96-264 | The five figures of the report in terms of the wallet's list, the closed channels and the lookup, whatever order the closure map is visited in |
| OnchainScan.FastOmitsTheSupplements | lightningos-light/internal/reports/onchain_scan.go:149-188 | The full metric is the fast one plus exactly the fees looked up |
| OnchainScan.CostsFit | lightningos-light/internal/reports/onchain_scan.go:240-264 | Coop, local and remote costs together are at most the fees, in total and, with each transaction listed once, per day |
| OnchainScan.BackfillEqualsDaily | lightningos-light/cmd/lightningos-manager/main.go:174-199 | With each transaction listed once, a backfill gives each day what its own run gives |
| OnchainScan.RepeatedTransactionsBreakTheDays | lightningos-light/internal/reports/onchain_scan.go:109-133 | A transaction listed on two days is charged differently by backfill and daily run |
| LndConf.WrittenLineReadsBack | lightningos-light/internal/server/apps_lndg.go:667-672 | A line written for a key reads back as its value |
| LndConf.UpdateLndGrpcOptions | lightningos-light/internal/server/apps_lndg.go:654-738 | Lines it does not own stay in order; the certificate names the given gateways and the host, the listeners are the local one, one on each gateway and the configured ones; changed tells whether anything differs |
| LndConf.UnmanagedLinesAreKept | lightningos-light/internal/server/apps_lndg.go:690-703 | Every unmanaged line is kept in order |
| LndConf.ListenersAreKept | lightningos-light/internal/server/apps_lndg.go:663-724 | The listeners of the result are 127.0.0.1:10009, port 10009 on each gateway and the configured ones, in this order and each once |
| LndConf.CertificateNames | lightningos-light/internal/server/apps_lndg.go:705-709 | The result has one tlsextraip line for each gateway and one tlsextradomain line, for the host, and no others with a value |
| LndConf.BlockStandsTogether | lightningos-light/internal/server/apps_lndg.go:687-728 | All managed lines of the result stand together, right after the first header if there is one and at the top otherwise, as gateways, host and listeners |
| LndConf.GatewaysAreGiven | lightningos-light/internal/server/apps_lndg.go:655-662 | The gateways are the values given, trimmed, that are not blank, each once where it is first given |
| LndConf.GrpcIsIdempotent | lightningos-light/internal/server/apps_lndg.go:654-738 | A second run changes nothing |
| LndRestConf.UpdateLndRestOptions | lightningos-light/internal/server/apps_lnbits.go:285-361 | Missing lines are inserted after the header, and changed tells whether any was |
| LndRestConf.OnlyInserts | lightningos-light/internal/server/apps_lnbits.go:343-360 | One block is inserted right after the first header in any letter case, after a header added at the end if there was none; without it the result is the input |
| LndRestConf.InsertedValues | lightningos-light/internal/server/apps_lnbits.go:318-341 | The block gives each key exactly the values it was missing, no listener if one listens on every address, and has no other line |
| LndRestConf.RestIsIdempotent | lightningos-light/internal/server/apps_lnbits.go:285-361 | A second run inserts nothing |
| InactiveTracker.ReflectionIsUnique | lightningos-light/internal/lndclient/client.go:3291-3329 | A history determines the map |
| InactiveTracker.UpdateReflects | lightningos-light/internal/lndclient/client.go:3291-3329 | One listing takes the map of a history to the map of the longer history |
| InactiveTracker.NotedInTurn | lightningos-light/internal/lndclient/client.go:3291-3329 | Repeated channels included: the last word of a listing on a channel decides, and any mention as active starts its time anew |
| InactiveTracker.ChannelTracker.Snapshot | lightningos-light/internal/lndclient/client.go:3291-3329 | After any listings with distinct channels the map has exactly the channels inactive in the last one, each with the time its unbroken run of inactive listings began |
| RouteQuery.RouteToEdgeLocators | lightningos-light/internal/lndclient/rebalance.go:366-384 | Both directions of every channel of a route |
| RouteQuery.BothDirectionsCoverTheRoute | lightningos-light/internal/lndclient/rebalance.go:366-384 | An edge is among them if and only if the route crosses its channel |
| RouteQuery.EdgesOfAreTheRoutes | lightningos-light/internal/lndclient/rebalance.go:225-262 | The edges avoided are exactly both directions of the channels the routes found so far cross |
| RouteQuery.QueryRoutes | lightningos-light/internal/lndclient/rebalance.go:197-269 | The error cases; on success between one and max(1, n) routes, each LND's answer to a request that ignores the caller's edges and all earlier channels |
| RouteQuery.RoutesAreDisjoint | lightningos-light/internal/lndclient/rebalance.go:225-262 | If LND honours ignored edges, the routes share no channel and cross no edge the caller ignores |

## Left out

- OpenGuarantees.EachSideLocksOnce: stated for honest peers; for any peer it holds under the exact condition of OpenFunding.
- OpenRates.RecordedRateStays: under its condition only; nothing in the source keeps overlapping recovery calls of one node at one rate.
- OpenService.BalancedOpenService.TryPromote: without a channel point or funding id the source takes any channel with the peer of that capacity, so nothing is claimed of whose channel it is; the stuck check that follows is StuckRetry's.
- StuckRetry.PendingSession.CheckStuck: the rows of this class are those of Session by their guarded transitions alone; it is not a step of the two-node machine, which has the retry as a publish and a note.
- Reclaiming the transit outputs themselves, and sweeping a recovered output, beyond their state changes.
- Push mode beyond its state changes, which the machine has.
- The shim registration of LND: a witness may be stored although registering failed, and the next call returns early; nothing is claimed of the shim.
- Delivery of the cancel message: no code of the repository sends one.
- Progress: an accept or a proposal for an open session moves it back, so states are not monotone.
- Keysend buckets, which filter by creation and bucket by settlement.
- Zones with changing offsets, where the source's midnight test can share a boundary second.
- How a payment is told to be a rebalance, and the memo matching that helps; the scans take the answer.
- Aliasing of the slice a caller passes to the REST rewriter.
- HTTP handlers, gRPC plumbing, JSON and SQL text, transaction serialisation, installers and the user interface.
