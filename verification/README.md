# Dead Man's Vault: a Dafny model of its cranks, its registration authority and its watcher

This project models the services around an on-chain vault that distributes an estate when its owner stops
checking in, and proves what their code keeps over whole runs:

- **The distribution crank.** `Ledger` is the vault on the chain: the rules of the program's permissionless
  instructions, what anyone else may do (deposits, accounts, time), the amounts they move, and the solvency that
  all of them keep. `Crank` writes one pass of the keeper (`crankVault`) as functions on the state of the pass;
  `Keeper` is the same pass in its own form, a class whose methods loop and reassign, proved equal to those
  functions. Every await is one tick of an arbitrary script: any number of others act first, then the call succeeds
  or fails, and a failed submission may still have landed. `CrankSafety`, `CrankHalt` and `Measure` hold what every
  script keeps; `CrankFailures` and `CrankPayments` what failed calls do to a pass, and what it pays all the same;
  `Selection`, `CrankCompletes` and `Completion` what a pass without faults or races reaches;
  `Executor` and `Server` the server's variant with its lock; `Cleanup`, `KeeperCleanup` and `Closing` the closing of
  an executed vault; `Mints` and `Bits` the mint selection and the masks.
- **The registration authority.** `AuthMessage` (the text that is signed), `Auth` (what is granted), `Store` (the
  tables and their transactions), `Transition` (the latch of the legacy window), `Limiter`, `Routes` (the two
  handlers) and `RegistrationRuns` (every run of all of them, with clock, prunes and database faults).
- **The watcher.** `Watcher` (one visit to a registration, with flags that may flip at every await), `Fcm` (the
  push transport), `Escalation` (stages and runs of ticks), `PollCycle` (the worker pool) and `Readiness`.
- **Accounts and history.** `Accounts` (the parsers of the two account layouts) and `Sessions` (the grouping of a
  vault's transactions).

`Prelude` and `Sorting` are shared. The state of a pass also keeps a record that the source does not: `trace`, the
submissions so far, `calls`, the calls that could throw with what they threw, and `block`, the try block the pass is in. Where the source updates state step by step, a class or a loop does so here
and its `ensures` names the function that the lemmas are about. `dafny verify dfyconfig.toml` checks everything.

## Assumptions

- The vault is past its deadline. From then on the program freezes the owner's instructions and the heartbeat
  (`VaultFrozen` in `withdraw_from_vault.rs`, `withdraw_sol_from_vault.rs`, `update_vault.rs`, `revoke_vault.rs`,
  `set_asset_plan.rs` and `record_heartbeat.rs`), so only the permissionless instructions, deposits, other wallets'
  token accounts and time are left. `Ledger.Enabled` and `Ledger.Effect` follow those instructions.
- What the program checks when a vault and its plan are set holds: shares of 10000 basis points in all, assignments
  that name a beneficiary, mints under one of the two token programs.
- A transaction is atomic. It may be rejected for reasons of its token (frozen, paused, a hook): that is a fault of the
  script. A permanent delegate that takes tokens out of the vault is not covered.
- SHA-256, Base58 decoding, program-derived addresses and Ed25519 verification (section 5.1.7 of RFC 8032) are
  arbitrary functions.
- One request's authorisation and its database transaction are one instant.
- A remote call is one await: its retries and its timeout are part of its outcome.

## Where the code and its descriptions differ

- The keeper treats a stuck mint as one that is left behind while everything else is paid
  (`keeper-bot/src/crank.js:275-281`), but any stuck mint holds the vault's execution back (everything else is paid:
  `CrankPayments.StuckMintsAreLeftBehind`, `Completion.QuietPassPaysTheRest`). Two ledgers that anyone can
  bring about do so for good: a TokenDist begun while the vault has no associated account of its mint, and an unplanned
  mint held only in another token account. `Completion.OnePassCompletes` gives the exact condition,
  `Completion.UnpayableBlocksForEver`, `BarrenIsReached` and `StrayIsReached` the failing ledgers.
- A beneficiary off the Ed25519 curve stops the pass, as its account address is derived with
  `allowOwnerOffCurve = false`; `Completion.WalletsServe` is the condition under which this does no harm, and
  `Completion.UnpayableBlocksForEver` and `UnsharableStaysOpen` say what never gets done.
- A SOL bequest that fails is skipped, so the next ones are sent out of order and rejected by the program:
  `CrankSafety.SolGoesOutInOrderUnlessOneFailed` and `FailedSolIsOvertaken`.
- The gate before the final close is a scan, and tokens can arrive after it, as its comment says
  (`keeper-bot/src/crank.js:560-561`): `Cleanup.CleanupOrphansOnlyLateDeposits` and `DepositAfterScanIsOrphaned`.
- `docs/BUILD-SPEC-permissionless-execution.md:314` writes the skip of a paid index as a `require!`; the program skips
  it and the transaction lands, so landings that change nothing are not bounded: `Measure.IdleLandingsAreUnbounded`.
- In legacy mode a delete by vault that fails in the database is answered with status 200
  (`notify-server/src/registrationRoutes.js:211-218`); `Routes.LegacyModeHidesDatabaseError` says exactly when.
- The push sender reads the project id before it makes the client that would fill it in
  (`notify-server/src/fcm.js:167-194`), so without a configured project the first send after a reset is lost;
  see `Fcm.FirstSendAfterResetIsLost`.
- `programReady` does not imply `networkVerified`: `Readiness.ProgramReadyIsLastWord` gives the exact condition
  and `Readiness.ProgramOutlivesNetwork` a run.
- A signed deregistration resets the revision; `RegistrationRuns.DeregistrationResetsRevision` shows that from
  then on only the nonce table stands against an old envelope.
- The poller's comment (`notify-server/src/poller.js:328-330`) calls a cycle healthy when fewer than half its reads
  failed; the code's defaults are a ratio of 0.05 and a cap of 2 failures (`PollCycle.HealthyCycles`).
- The limiter lets a key through up to 2 * max - 1 times in an interval as long as its window, not max times.

## Model

| member | source | states |
|---|---|---|
| Bits.BitSetReadsBit | keeper-bot/src/crank.js:140-141 | bit i of the mask number is set exactly when index i is paid on the ledger |
| Bits.MaskIsFull | keeper-bot/src/crank.js:140-142 | the mask equals `fullMask(n)` exactly when every one of the n indices is paid, for any n |
| Sorting.SortByCorrect | keeper-bot/src/crank.js:207-209 | the comparator sort permutes its input into order |
| Sorting.SortByStable | dead-mans-vault/app/src/services/ExecutionHistoryService.ts:225 | elements with equal keys keep their order |
| Mints.ScanSumsPositiveAccounts | keeper-bot/src/crank.js:181-194 | the scan lists a mint once, exactly if an account of it has a positive balance, with the sum of those balances |
| Mints.ChooseCorrect | keeper-bot/src/crank.js:205-212 | every plan mint is chosen, at most max(16, plan mints) in all, and no held mint is left out in favour of a smaller one or while there is room |
| Mints.ChooseDistinct | keeper-bot/src/crank.js:205-212 | no mint is chosen twice |
| Mints.ChooseCounting | notify-server/src/executor.js:251-272 | the server's counting loop returns the list of the keeper's slice, for all inputs, and counts exactly what the cap defers |
| Ledger.EffectKeepsWellFormed | docs/BUILD-SPEC-permissionless-execution.md:417-425 | whatever lands leaves every balance covering what its snapshot still owes and, if the snapshot was not empty, the unpaid bequests and the bounty |
| Ledger.EveryBatchIsCovered | dead-mans-vault/programs/dead-mans-vault/src/instructions/execute_token_shares.rs:77-116 | after any transactions no set of clear indices asks for more than the balance: no share batch fails for want of funds |
| Ledger.SharesFit | docs/BUILD-SPEC-permissionless-execution.md:418-420 | the rounded shares never come to more than the snapshot |
| Ledger.DustIsSmall | docs/BUILD-SPEC-permissionless-execution.md:421-422 | the dust of a snapshot is less than one unit for each beneficiary |
| Ledger.LargestShareIndex | dead-mans-vault/programs/dead-mans-vault/src/util.rs:31-43 | a valid index whose share no other exceeds, the first such |
| Ledger.LandAllGrows | dead-mans-vault/programs/dead-mans-vault/src/instructions/execute_sol_shares.rs:48-81 | under any sequence of transactions paid bits are never cleared, the log and frozen snapshots stay, and execution is never undone |
| Ledger.BequestsPaidInOrder | dead-mans-vault/programs/dead-mans-vault/src/instructions/execute_specific_asset.rs:116-118 | under any sequence of transactions no bequest is paid before an earlier one of its mint |
| Ledger.BequestMoves | dead-mans-vault/programs/dead-mans-vault/src/instructions/execute_specific_asset.rs:131-155 | a token bequest moves its amount or what there is, and its full amount after a snapshot that was not empty |
| Ledger.SolBequestMoves | dead-mans-vault/programs/dead-mans-vault/src/instructions/execute_specific_sol.rs:82-101 | the same for SOL |
| Ledger.ShareMoves | dead-mans-vault/programs/dead-mans-vault/src/instructions/execute_token_shares.rs:77-116 | a share is the snapshot's part of the beneficiary rounded down, and nothing for an index that is paid |
| Ledger.PaymentsSettleDebts | dead-mans-vault/programs/dead-mans-vault/src/instructions/execute_sol_shares.rs:48-81 | a share batch takes from the balance exactly what its snapshot owes no longer, and finalize the bounty, in full after a snapshot that was not empty |
| Crank.UnpaidSpec | keeper-bot/src/crank.js:394-394 | exactly the indices whose bit is clear, each once, in ascending order |
| Crank.ChunkSpec | keeper-bot/src/crank.js:143-147 | the parts are nonempty, hold at most n indices each and join to the whole list |
| Keeper.KeeperPass.LargestShareIndex | keeper-bot/src/crank.js:148-154 | the running best picks the same index as the program |
| CrankSafety.SubmitSteps | keeper-bot/src/crank.js:61-71 | under every script a submission that returns normally has achieved its effect (bits set, log or TokenDist there, account closed), one that the guard let through is on record, and nothing on the ledger was undone |
| Keeper.KeeperPass.Submit | keeper-bot/src/crank.js:61-71 | guard and submission in place equal `Crank.Submit`: anything but a positive answer of the guard halts before the send |
| Keeper.KeeperPass.EnsureAta | keeper-bot/src/crank.js:233-246 | the account is created, behind the guard, exactly when the lookup finds none |
| Keeper.KeeperPass.CollectMints | keeper-bot/src/crank.js:178-212 | the map that is filled in place yields the mints of `Crank.CollectMints` |
| Keeper.KeeperPass.BeginDists | keeper-bot/src/crank.js:314-342 | the loop with its catch block equals the recursive phase |
| Keeper.KeeperPass.Bequests | keeper-bot/src/crank.js:344-390 | the loop over assignments with stale mask, stuck set and catch block equals the recursive phase |
| Keeper.KeeperPass.PaySol | keeper-bot/src/crank.js:392-403 | the batched loop equals the recursive phase |
| Keeper.KeeperPass.FinalizeIfFull | keeper-bot/src/crank.js:405-426 | both masks are read again, then finalize goes out exactly under the gate |
| Keeper.KeeperPass.PayTokens | keeper-bot/src/crank.js:428-457 | the nested batch loops with their catch block equal the recursive phase |
| Keeper.KeeperPass.CloseIfExecuted | keeper-bot/src/crank.js:459-514 | the closing loop equals the recursive phase |
| Keeper.KeeperPass.CrankVault | keeper-bot/src/crank.js:252-520 | for every script of faults, racing crankers and guard answers the imperative pass reaches the state, trace and exit of `Crank.CrankVault` |
| CrankSafety.BequestsSteps | keeper-bot/src/crank.js:344-390 | under every script and with any stale but backed mask, each submission of the bequest loop finds the earlier bequests of its mint paid when it leaves |
| CrankSafety.FinalizeSteps | keeper-bot/src/crank.js:405-426 | the finalize phase submits only with full masks on the ledger and no stuck mint |
| CrankSafety.PhasesSteps | keeper-bot/src/crank.js:290-514 | every submission of a pass fits its rule at the instant it leaves |
| CrankSafety.BequestsGoOutInOrder | keeper-bot/src/crank.js:344-390 | whenever `execute_specific_asset(j)` is submitted, every earlier assignment of the mint is paid on the ledger |
| CrankSafety.SolGoesOutInOrderUnlessOneFailed | keeper-bot/src/crank.js:352-388 | a SOL bequest is submitted in order exactly when every earlier one that this pass submitted has landed |
| CrankSafety.FailedSolIsOvertaken | keeper-bot/src/crank.js:383-388 | a script of failing calls sends the second of two SOL bequests with the first unpaid |
| CrankSafety.FinalizeOnlyWhenFull | keeper-bot/src/crank.js:405-426 | finalize is submitted only with no stuck mint and both masks full, and they are still full after any run of other crankers |
| CrankSafety.CloseOnlyAfterExecution | keeper-bot/src/crank.js:459-514 | a TokenDist is closed only on an executed vault, its dust going to the first largest-share wallet |
| CrankSafety.BatchesAreBounded | keeper-bot/src/crank.js:392-457 | a payout batch names 1 to 8 indices, all of beneficiaries |
| CrankPayments.FailuresReachCallerOrSkipList | keeper-bot/src/crank.js:337-341 | under every script only the last call of a pass can have failed otherwise than operationally in a try block, and the pass throws exactly that failure or the guard's refusal; an operational exception that leaves the pass was thrown outside the try blocks; each earlier failure is one entry of the skipped list, and the stuck mints are those with a failed token step |
| CrankPayments.FatalReachesCaller | keeper-bot/src/crank.js:508-512 | a fatal fault of any call, in a token step or not, is what the pass throws |
| CrankFailures.WalkStopsOnlyAtDeadline | keeper-bot/src/crank.js:196-204 | a mint lookup that finds nothing after its retries does not end the pass |
| CrankFailures.UnreadAccountIsStillClosed | keeper-bot/src/crank.js:470-487 | when the vault's token account cannot be read the close is submitted as for an account without dust |
| CrankPayments.ReturnedPassPaidTheRest | keeper-bot/src/crank.js:344-514 | under every script a pass that returns has all SOL shares paid, every bequest but those of stuck mints and skipped SOL ones, and of every collected mint that is not stuck all shares paid and, if it found the vault executed, the TokenDist closed |
| CrankPayments.StuckMintsAreLeftBehind | keeper-bot/src/crank.js:275-288 | whatever others do, if the only failures are operational ones in token steps of mints in M, the pass returns normally; all SOL shares, every SOL bequest and every bequest and share of a mint outside M are paid; stuck and skipped are exactly the mints of which a step failed |
| CrankHalt.BequestsCut | keeper-bot/src/crank.js:383-388 | the bequest loop under a failing guard is the unguarded loop cut after k submissions; its catch block passes the halt on |
| CrankHalt.HaltCutsThePass | keeper-bot/src/crank.js:61-71 | a guard that fails at call k + 1 leaves exactly the first k submissions of the unguarded pass, and the halt reaches the caller |
| Selection.CollectedSpec | keeper-bot/src/crank.js:178-212 | what a quiet scan collects, read off the ledger: distinct mints under their programs, every bequeathed mint that exists, otherwise held ones |
| CrankCompletes.QuietCollect | keeper-bot/src/crank.js:312-312 | a quiet pass collects exactly these mints |
| CrankCompletes.QuietBequests | keeper-bot/src/crank.js:344-390 | without faults and with wallets able to receive, every bequest is paid or its mint stuck, the mints that get stuck are exactly those with an unpaid bequest and without an open TokenDist or the vault's account, only the chosen mints' accounts are touched, and the dust of every TokenDist stays as it was |
| CrankCompletes.ChunksArePending | keeper-bot/src/crank.js:392-403 | the batches cut from the clear bits stay payable one after another and leave nothing clear |
| Completion.QuietPassPaysTheRest | keeper-bot/src/crank.js:275-288 | a fault-free pass over any ledger with wallets able to receive returns; it executes the vault exactly if no mint is blocked (collected and not to be begun, or with an unpaid bequest and gone or begun without the vault's account); which mints are stuck is read off the starting ledger; all SOL shares, every bequest and share of the others are paid, and their TokenDists closed once the vault is executed |
| Completion.OnePassCompletes | keeper-bot/src/crank.js:290-514 | from any ledger, executed or not, one fault-free pass ends executed, all SOL and bequest bits set, nothing skipped, and of every collected mint neither TokenDist nor vault account left, if and only if the ledger is completable (every open TokenDist has the vault's account, every other collected mint is bequeathed or held in that account, the mint of every unpaid token bequest exists) and the wallets can take what is still to be paid |
| Completion.OnCurveServes | keeper-bot/src/crank.js:366-371 | wallets that are all on the curve can take everything |
| Completion.UnpayableBlocksForEver | keeper-bot/src/crank.js:344-390 | an unpaid bequest whose mint is gone or was begun without the vault's account, or whose wallet is off the curve (for SOL: is the vault), is still unpaid, and the vault not executed, after every quiet pass |
| Completion.UnsharableStaysOpen | keeper-bot/src/crank.js:428-457 | an unpaid share for a wallet off the curve keeps its TokenDist open through every quiet pass |
| Completion.BarrenIsReached | dead-mans-vault/programs/dead-mans-vault/src/instructions/begin_token_dist.rs:77-126 | anyone may begin a bequeathed mint while the vault has no account of it |
| Completion.BarrenStays | keeper-bot/src/crank.js:316-342 | no quiet pass mends such a TokenDist or completes |
| Completion.StrayIsReached | dead-mans-vault/programs/dead-mans-vault/src/instructions/begin_token_dist.rs:110-115 | anyone may give the vault another token account of an unplanned mint, which is then collected but can never be begun |
| Measure.LandingLowersWork | dead-mans-vault/programs/dead-mans-vault/src/instructions/execute_sol_shares.rs:48-81 | a crank's landing before execution strictly lowers the remaining work, and changes the ledger at all, exactly when it is not a share batch without a clear index |
| Measure.LandingsWithinWork | keeper-bot/src/crank.js:290-457 | so no interleaving with others' cranks and deposits lands more that change the ledger than the work there is |
| Measure.FewLandings | keeper-bot/src/crank.js:290-457 | at most 2 + M + A + B + M * B landings change the ledger, for M mints, A assignments and B beneficiaries, from any number of crankers |
| Measure.IdleLandingsAreUnbounded | dead-mans-vault/programs/dead-mans-vault/src/instructions/execute_sol_shares.rs:53-56 | a batch whose indices are all paid lands any number of times and changes nothing |
| Executor.GatesAgree | notify-server/src/executor.js:161-171 | the exported helper and the keeper's inline condition are the same for every input |
| Executor.GateOpensWhenDone | notify-server/src/executor.js:161-171 | on fresh masks the gate opens exactly when nothing is unpaid, nothing is stuck and the log is not completed |
| Executor.AnswerTellsExecution | notify-server/src/executor.js:400-410 | under every script `already_executed` means executed at the configuration read, `not_due` neither executed there nor due, `executed` and `cranked` that it was due, not executed there, and executed or not at the last read |
| Executor.ServerFailuresAreAccounted | notify-server/src/executor.js:430-694 | under every script failures end in the skipped list or are thrown as in the keeper's pass |
| Executor.ServerPaidTheRest | notify-server/src/executor.js:430-694 | under every script a run answered `executed` or `cranked` has paid everything but what its stuck mints and skipped SOL bequests stand for |
| Executor.ServerPassPaysTheRest | notify-server/src/executor.js:388-695 | without faults or races a due vault ends as after the keeper's pass, and the answer is `executed` exactly if no mint is blocked, otherwise `cranked` |
| Executor.ServerPassCompletes | notify-server/src/executor.js:388-695 | without faults or races one call on a due vault answers executed, and leaves what the keeper's pass leaves, when the keeper's condition holds |
| Executor.NothingSentWithoutCause | notify-server/src/executor.js:400-410 | an executed vault and one that is not due get no submission at all |
| Executor.ServerSubmissionsFit | notify-server/src/executor.js:430-688 | every submission of the server fits the same rule as the keeper's |
| Executor.RevocationAborts | notify-server/src/executor.js:362-384 | a guard that fails at call k + 1 leaves the first k submissions and the answer `aborted_readiness_revoked` |
| Executor.OneRunPerVault | notify-server/src/executor.js:360-384 | in every run of overlapping calls a vault is locked exactly while one call cranks it, never by two, and no lock is left behind |
| Server.ExecutorProcess.RunExecutor | notify-server/src/executor.js:362-384 | a busy vault is answered busy; otherwise the inner run's answer, and the lock set is as before whatever happened |
| Cleanup.CleanupOrphansOnlyLateDeposits | keeper-bot/src/crank.js:529-587 | under every script the close is sent at most once, last and for an executed vault; a balance in the vault then was deposited after the scan of its token program; an answer `closed` means no TokenDist was open and the owner's window was over |
| Cleanup.DepositAfterScanIsOrphaned | keeper-bot/src/crank.js:560-570 | a deposit while the guard is awaited is in the vault when it is closed |
| Closing.CleanupClosesWhatFitted | keeper-bot/src/crank.js:529-587 | a quiet cleanup after a completed pass answers `closed` exactly when the window is over, nothing was held outside the associated accounts, and the held unplanned mints fitted under max(0, 16 - plan mints); otherwise it says which failed |
| Closing.CleanupFinishesDists | keeper-bot/src/crank.js:546-552 | a quiet cleanup of an executed vault that was seen with open TokenDists closes all of them but those of mints not collected or without the vault's account, answers `token_dists_open` exactly if there are such, and otherwise decides between its three answers as after a completed pass |
| Closing.UnexecutedIsLeftAlone | keeper-bot/src/crank.js:542-544 | under every script a vault that is not executed when its log is read is neither cranked nor closed by the cleanup |
| KeeperCleanup.ScanForTokens | keeper-bot/src/crank.js:223-231 | finds a balance exactly if some account of the program has one |
| KeeperCleanup.CleanupVault | keeper-bot/src/crank.js:529-587 | the imperative cleanup reaches the state and answer of `Cleanup.CleanupVault`, `window_open` included, for every script |
| AuthMessage.DecimalReadsBack | notify-server/src/authMessage.js:111-114 | a number's decimal text reads back and holds no line break |
| AuthMessage.SplitUndoesJoin | notify-server/src/authMessage.js:131-147 | lines without breaks are recovered from the joined text |
| AuthMessage.RegisterReadsBack | notify-server/src/authMessage.js:128-148 | every field of an accepted registration is recovered from its text |
| AuthMessage.DeregisterReadsBack | notify-server/src/authMessage.js:154-167 | every field of an accepted deregistration is recovered from its text |
| AuthMessage.RegisterUnambiguous | notify-server/src/authMessage.js:128-148 | accepted field sets with the same text are equal |
| AuthMessage.DeregisterUnambiguous | notify-server/src/authMessage.js:154-167 | accepted field sets with the same text are equal |
| AuthMessage.ActionsNeverShareText | notify-server/src/authMessage.js:128-167 | no registration text is a deregistration text |
| Auth.GrantedRegisterIsSigned | notify-server/src/registerAuthV2.js:154-224 | a grant means the owner signed a fresh text from which the whole command can be read back, for this deployment, with the token pinned by its hash and the vault owned |
| Auth.GrantedFieldsAreSigned | notify-server/src/registerAuthV2.js:206-222 | field by field: the lines of the signed text name owner, vault, token hash, the three stages, revision, time and nonce of the command, each under its own name, and each is the body's field of that name |
| Auth.GrantedRemovalIsSigned | notify-server/src/registerAuthV2.js:226-236 | the same for a removal |
| AuthMessage.RegisterWrittenWhenFormed | notify-server/src/authMessage.js:91-148 | a registration has a text exactly if cluster, keys, token hash, nonce and the five numbers have their forms, given in characters and limits |
| AuthMessage.DeregisterWrittenWhenFormed | notify-server/src/authMessage.js:154-167 | the same of a removal |
| Auth.GrantedFormIsChecked | notify-server/src/registerAuthV2.js:67-74 | a granted command holds a token of 32 to 4096 characters without white space, a long nonce and numbers a client holds exactly |
| Auth.HonestRegistrationIsGranted | notify-server/src/registerAuthV2.js:154-224 | a valid, fresh and signed registration of one's own vault is granted with exactly these fields, and refused only for want of ownership |
| Auth.HonestRemovalIsGranted | notify-server/src/registerAuthV2.js:243-305 | a valid, fresh and signed removal is granted with a row of one's own whatever the chain says, without a row if the chain confirms the ownership, over another's row never |
| Auth.OwnershipIsAskedLast | notify-server/src/registerAuthV2.js:187-204 | the answer depends on the ownership of the vault only where the signature verified |
| Auth.GrantedDeregisterIsSigned | notify-server/src/registerAuthV2.js:243-305 | the same for a removal, whose vault is the owner's address and whose stored row, if any, is the owner's |
| Auth.SignedTextFixesCommand | notify-server/src/registerAuthV2.js:167-222 | two granted requests with one signed text carry the same command up to a token of the same hash and the server's time |
| Auth.GrantDependsOnFreshness | notify-server/src/registerAuthV2.js:90-96 | a body granted once is granted at exactly the instants within 600 seconds of its timestamp |
| Auth.GrantedAgain | notify-server/src/registerAuthV2.js:206-223 | two grants of one body differ in the server's time only |
| Store.RegistrationStore.ApplySignedRegistration | notify-server/src/registrationStore.js:113-180 | nonce and row change together or not at all; an owner conflict or a stale revision keeps the nonce and leaves the row |
| Store.RegistrationStore.ApplySignedDeregistration | notify-server/src/registrationStore.js:188-209 | nonce claimed and the owner's row removed together; another owner's row stays |
| Store.RegistrationStore.ApplyLegacyRegistration | notify-server/src/registrationStore.js:242-287 | a signed row is refused, a new row is legacy, an old one keeps its notification state and auth columns |
| Store.RegistrationStore.DeleteLegacyRegistration | notify-server/src/registrationStore.js:295-313 | a signed row is refused, a missing one is removed = 0, an owner pin is respected |
| Store.LegacyDeleteTakesOne | notify-server/src/registrationStore.js:295-313 | the removal takes the named row and no other, exactly if it is there, not signed, and of the pinned owner if one is pinned, and counts it |
| Store.LegacyOwnerDeleteTakes | notify-server/src/registrationStore.js:316-331 | the owner-wide removal takes exactly the owner's rows that are not signed, and counts them |
| Store.EitherMarkProtects | notify-server/src/registrationStore.js:232-234 | a row with the newer version or the signed status, one of them is enough, is refused by every legacy function; without both none refuses it |
| Store.RegistrationStore.DeleteLegacyRegistrationsByOwner | notify-server/src/registrationStore.js:323-332 | removes exactly the owner's rows that are not signed |
| RegistrationRuns.PruneSparesFresh | notify-server/src/registrationStore.js:211-223 | the server's prune forgets no claim whose envelope is still fresh |
| Store.RegistrationStore.MigrationCounts | notify-server/src/registrationStore.js:340-355 | the classes add up to the total, and no anomaly is counted exactly when every row is consistently signed or consistently legacy |
| Store.AnomaliesCounted | notify-server/src/registrationStore.js:340-355 | the anomalous count is zero exactly when every row is consistently signed or consistently legacy |
| RegistrationRuns.EffectClaimsNonce | notify-server/src/registrationStore.js:142-152 | a signed request that claims its nonce is fresh at that instant and its nonce is on record from then |
| RegistrationRuns.NoClaimNoChange | notify-server/src/registrationStore.js:142-152 | a signed request that does not claim its nonce changes nothing |
| RegistrationRuns.EnvelopeSingleUse | notify-server/src/server.js:94-97 | over every run with a nondecreasing clock one signed envelope takes effect at most once, even across a removal of the row, when nonces are kept 1200 seconds |
| RegistrationRuns.ShorterRetentionReplays | notify-server/src/server.js:96-96 | with any shorter retention a body accepted at the early edge of its window is accepted a second time |
| RegistrationRuns.StepKeepsSigned | notify-server/src/registrationStore.js:231-334 | what each operation may do to a signed row: legacy writes nothing, a signed registration only raise its revision, only owner or poller remove it |
| RegistrationRuns.SignedRowOverRun | notify-server/src/registrationStore.js:113-180 | as long as it is not removed a signed row keeps its owner and stays signed, and its revision grows with every successful registration |
| RegistrationRuns.LegacyRunsLeaveSignedRows | notify-server/src/registrationStore.js:231-332 | no run of legacy writes changes a signed row at all |
| RegistrationRuns.RunKeepsConsistent | notify-server/src/registrationStore.js:113-332 | every reachable row is (2, signed, hash of its token) or (1, legacy, no hash) |
| RegistrationRuns.NoAnomalyEver | notify-server/src/registrationStore.js:340-355 | the anomalous count is zero in every run |
| RegistrationRuns.DeregistrationResetsRevision | notify-server/src/registrationStore.js:188-201 | after the owner's removal a lower revision, refused before, is accepted |
| Transition.TransitionController.Get | notify-server/src/transitionState.js:17-46 | one reading of the clock moves the latch and reports the status |
| Transition.LatchRemembersFirstExpiry | notify-server/src/transitionState.js:17-28 | the latch is set exactly when a reading has reached the cutoff; the observer fired once, with the first such reading |
| Transition.AcceptingUntilFirstExpiry | notify-server/src/transitionState.js:29-32 | legacy writes are accepted exactly until that reading, though the clock then runs backwards |
| Transition.StatusTells | notify-server/src/transitionState.js:29-46 | in dual mode exactly one of accepting and expired holds, and the countdown is the time for which the window stays open |
| Routes.RegistrationHandlers.PostRegister | notify-server/src/registrationRoutes.js:113-173 | the handler's state and response are those of `Routes.Register` |
| Routes.RegistrationHandlers.PostDeregister | notify-server/src/registrationRoutes.js:175-237 | the handler's state and response are those of `Routes.Deregister` |
| Routes.SecretCannotRescue | notify-server/src/registrationRoutes.js:113-149 | for a signed attempt, and a legacy one in signed mode or past the cutoff, response and store do not depend on the secret and no legacy store function is called |
| Routes.LegacyStoreNeedsSecret | notify-server/src/registrationRoutes.js:145-173 | a legacy store call needs the secret, a pure legacy body and an open window |
| Routes.ExpiryIsFinal | notify-server/src/registrationRoutes.js:100-111 | once expiry was observed no later request under any clock reaches a legacy store function |
| Routes.ServeIsOneStep | notify-server/src/registrationRoutes.js:113-237 | every request is at most one step of a registration run, signed exactly if it looks signed |
| Routes.LegacyModeHidesDatabaseError | notify-server/src/registrationRoutes.js:211-218 | an answer to a legacy delete by vault is true of the row exactly when the database works, or the mode is not legacy, or limits or secret stopped the request, or there was no row |
| Routes.SignedAttemptSpec | notify-server/src/registrationRoutes.js:14-21 | a request is a signed attempt exactly if its body has one of the nine fields |
| Routes.SignedFieldsShutOutTheSecret | notify-server/src/registrationRoutes.js:113-142 | a body with any of the nine fields gets a response and a state that do not depend on the secret, and makes no legacy store call |
| Routes.PlainRegistrationIsLegacy | notify-server/src/registrationRoutes.js:144-173 | a body with none of them claims no nonce and touches no signed row, and where signatures are required it is answered so |
| Routes.PlainRemovalIsLegacy | notify-server/src/registrationRoutes.js:205-236 | the same for removals |
| Routes.GrantedRegistrationIsServed | notify-server/src/registrationRoutes.js:123-142 | what the authorizer would grant is answered by the signed path: created, updated, a used nonce, another's row or a stale revision, each with its status, unless a limit, the mode or the database refuses |
| Routes.GrantedRemovalIsServed | notify-server/src/registrationRoutes.js:186-203 | the same for removals, which take that row and no other |
| Routes.RegisteredRowIsSigned | notify-server/src/registrationStore.js:154-178 | after `created` or `updated` the row holds, column by column, what the text its owner signed reads back to, and the body's token; notification columns are new or kept; no other row changed |
| Routes.LegacyRowIsBody | notify-server/src/registrationRoutes.js:150-172 | after a legacy registration the row holds the body's fields, over no signed row, with notification and authorisation columns kept |
| Routes.OpenRegistrationIsStored | notify-server/src/registrationRoutes.js:144-173 | while the window is open a plain registration of one's own vault is stored, unless the vault has a signed row |
| Routes.OpenRemovalIsDone | notify-server/src/registrationRoutes.js:205-236 | while the window is open a plain removal takes exactly the named row, unless it is signed |
| Routes.OpenOwnerRemovalIsDone | notify-server/src/registrationRoutes.js:219-232 | a removal by owner takes, in legacy mode only, exactly the owner's rows that are not signed, and counts them |
| Routes.StoredOnlyIfOwned | notify-server/src/registrationRoutes.js:144-173 | and it is stored in no other case: only with the secret, inside the window, of a vault whose ownership was confirmed, with a token of ten characters at least |
| Routes.PlainRequestsTurnedAway | notify-server/src/registrationRoutes.js:100-151 | past the limits a plain request is answered "window expired" exactly if the window is over, whatever its secret, and "unauthorized" exactly if it is open and the secret wrong; neither touches a row |
| Routes.TooManyExactlyWhenUsedUp | notify-server/src/registrationRoutes.js:88-124 | 429 is answered exactly if the address (30), the named owner or vault (10) or, for a registration, the token's hash (6) is used up, and leaves no trace but in the counters |
| Routes.RegisterStatusFits | notify-server/src/registrationRoutes.js:24-48 | success is never a coded refusal, and each status stands for its codes: 400, 401, 403, 409, 502 and 503 as a client tells them apart |
| Routes.DeregisterStatusFits | notify-server/src/registrationRoutes.js:24-48 | the same of a removal |
| Limiter.WriteRateLimiter.PruneMap | notify-server/src/writeRateLimiter.js:41-43 | removes exactly the expired buckets |
| Limiter.WriteRateLimiter.Hit | notify-server/src/writeRateLimiter.js:49-62 | one hit's bucket and verdict |
| Limiter.WriteRateLimiter.CheckFacets | notify-server/src/writeRateLimiter.js:77-91 | owner, vault, token hash in order; the first refusal ends the check and keeps what was charged |
| Limiter.AddressLimit | notify-server/src/writeRateLimiter.js:23-24 | an address is refused exactly when it has 30 hits in its live minute, with the rest of that minute as advice, and is charged one |
| Limiter.FacetLimits | notify-server/src/writeRateLimiter.js:25-28 | a request is let through exactly if its owner and vault have fewer than 10 hits and its token hash fewer than 6 in their live ten minutes; each is charged in this order up to the first refusal, whose remaining time is the advice |
| Limiter.FullMapIsPruned | notify-server/src/writeRateLimiter.js:49-51 | once a map has grown over 50000 keys the next hit leaves only live buckets in it; up to that size it forgets none |
| Limiter.SweepsChangeNoAnswer | notify-server/src/writeRateLimiter.js:44-62 | runs with the same hits and sweeps anywhere give the same answers |
| Limiter.MaxPerBucketWindow | notify-server/src/writeRateLimiter.js:49-62 | at most max acceptances of a key in one bucket's window |
| Limiter.TwiceMaxPerInterval | notify-server/src/writeRateLimiter.js:49-62 | fewer than 2 * max in any interval as long as the window |
| Limiter.TwiceMaxIsReached | notify-server/src/writeRateLimiter.js:49-62 | for every max and window a run reaches 2 * max - 1 |
| Limiter.RetryAfterOutlivesWindow | notify-server/src/writeRateLimiter.js:58-60 | a refused caller that waits the advertised seconds is in a new window and is accepted |
| Watcher.ProcessRegistration | notify-server/src/poller.js:71-240 | with flags flipping at every await: the trace obeys `Watcher.Sound`, the action tells what became of the row, and a visit that could not read the vault under both flags counts as a failed read; the distribution is driven exactly when the grace is over and the executor ready after the read; when nothing goes wrong the row is dropped exactly for gone and finished vaults, cleared for a vault on time, the completion sent exactly where owed, and exactly the alert called for delivered; a due alert to a dead token drops the row |
| Watcher.Push | notify-server/src/fcm.js:215-221 | a request leaves only if both flags hold once the token has arrived |
| Watcher.NothingLeavesUnguarded | notify-server/src/poller.js:106-136 | requests leave, and a missing vault is dropped, only at an instant when both flags hold, the drop right after a positive probe made after the read |
| Watcher.DeliveryIsReported | notify-server/src/poller.js:227-239 | a delivered alert is always recorded with its stage and time, though the flags flip meanwhile |
| Watcher.StepIsNotifyStep | notify-server/src/poller.js:176-239 | a visit that leaves the row in place is a step of the escalation run |
| Watcher.WatchIsBounded | notify-server/src/poller.js:71-240 | over every sequence of visits on one heartbeat, whatever fails, stage k is delivered at most `Room` times, stage 4 once, and stages never step back |
| Fcm.PushTransport.SendPush | notify-server/src/fcm.js:161-303 | result, request and new transport state of one send |
| Fcm.PushTransport.ProbeFcm | notify-server/src/fcm.js:127-149 | new transport state of one probe |
| Fcm.RejectedIsNeverReady | notify-server/src/fcm.js:36-52 | over every run of sends and probes the transport is never ready while marked rejected |
| Fcm.OnlyADeliveryRecovers | notify-server/src/fcm.js:36-52 | after a rejection no run restores readiness unless a send in it is delivered |
| Fcm.DeliveryNeedsTheGuard | notify-server/src/fcm.js:215-221 | a delivered or refused push was requested, so the guard had said yes with the token in hand |
| Fcm.AnswerDecidesResult | notify-server/src/fcm.js:245-300 | only a complete 2xx answer is a delivery; only a complete refusal with status 404 or the code UNREGISTERED tells of a dead token; an answer that was cut off is a failed send |
| Fcm.SendDecidesReadiness | notify-server/src/fcm.js:161-303 | a delivery makes the transport ready; a suppressed send and a refusal of the token alone leave it; everything else takes it down as rejected |
| Fcm.SendDecidesClient | notify-server/src/fcm.js:161-303 | the cached client goes exactly on failed credentials, a failed or missing token and the statuses 401 and 403 |
| Fcm.ProbeDecidesReadiness | notify-server/src/fcm.js:127-149 | a probe makes the transport ready exactly if a token can be had and no send was rejected since the last delivery |
| Fcm.FirstSendAfterResetIsLost | notify-server/src/fcm.js:161-194 | without a configured project the first send after a reset never leaves and marks the transport rejected; the next one leaves exactly when the credentials named a project and token and guard allow it |
| Escalation.StageIsSpan | notify-server/src/escalation.js:14-25 | stages 1 to 3 are adjoining spans of instants with the configured lengths |
| Escalation.StageNeverFalls | notify-server/src/escalation.js:14-25 | the stage does not fall while the clock does not |
| Escalation.HeartbeatResets | notify-server/src/escalation.js:14-21 | a heartbeat puts the stage to 0 exactly until its interval has passed |
| Escalation.AlertsAreBounded | notify-server/src/poller.js:208-239 | from a cleared row stage k in 1..3 is delivered at most 1 + (s_k - 1) / R_k times, stage 4 at most once |
| Escalation.AlertBoundIsReached | notify-server/src/escalation.js:4-25 | for every plan and stage a run delivers exactly `Room` alerts |
| Escalation.AlertsNeverStepBack | notify-server/src/poller.js:208-239 | delivered stages are nondecreasing |
| Escalation.CountdownEndsInExecution | notify-server/src/escalation.js:14-38 | the announced seconds to execution run out exactly when stage 4 begins |
| PollCycle.TurnKeepsConsistent | notify-server/src/poller.js:269-299 | every turn of a worker keeps each taken item in flight with exactly one worker or ended, and the counters the numbers of ended items |
| PollCycle.Cycle.Settle | notify-server/src/poller.js:276-299 | the rest of its body counts a sent alert and a failed read |
| PollCycle.EveryItemEndsOnce | notify-server/src/poller.js:261-308 | under every schedule a finished cycle has ended every registration once, its counters are the numbers of failed and of sent ones, failed being a rejected visit or one whose vault read failed, and at most four were in flight |
| PollCycle.CyclesEnd | notify-server/src/poller.js:269-308 | no schedule gets stuck and each takes exactly two turns per registration |
| PollCycle.HealthyCycles | notify-server/src/readiness.js:209-220 | a cycle that read nothing is unhealthy under any bounds; with the defaults health is at most 2 failures and 20 registrations for each |
| Readiness.ReadinessState.ApplyNet | notify-server/src/readiness.js:288-308 | the new domains after a classification |
| Readiness.ReadinessState.SetProgram | notify-server/src/readiness.js:316-332 | the new domains after a program probe |
| Readiness.CallKeepsSubordinate | notify-server/src/readiness.js:288-362 | every call keeps the executor under network and program and the poller under the network and 3 failures |
| Readiness.ReadinessState.RecordPollResult | notify-server/src/readiness.js:346-362 | the new domains after a cycle |
| Readiness.AlwaysSubordinate | notify-server/src/readiness.js:288-362 | over every call sequence the executor needs network and program, the poller network and fewer than 3 failures |
| Readiness.EscalationIgnoresExecutor | notify-server/src/readiness.js:177-180 | deleting the executor calls changes no other domain and never escalation |
| Readiness.ProgramReadyIsLastWord | notify-server/src/readiness.js:316-332 | the program is ready exactly when the last call about it was a positive probe |
| Readiness.ProgramOutlivesNetwork | notify-server/src/readiness.js:316-332 | a run after which the program is ready on an unverified network |
| Readiness.OneHealthyPollRestores | notify-server/src/readiness.js:193-195 | from any state a verified network and one healthy cycle restore the poller |
| Readiness.ThreeFailuresDemote | notify-server/src/readiness.js:346-362 | after a healthy cycle the poller stays ready exactly as long as fewer than 3 cycles have failed |
| Readiness.ReadyIsEarned | notify-server/src/readiness.js:235-246 | READY means every mandatory domain is up; no waiver covers network, program or poller |
| Readiness.ExecutorReadyIsLastWord | notify-server/src/readiness.js:334-343 | the executor is ready exactly when a usable one was reported while network and program were up and nothing has taken it down since |
| Readiness.EscalationHangsOnThree | notify-server/src/readiness.js:177-180 | a verified network, a healthy cycle and a ready transport bring escalation up in either order, and losing any of them takes it down |
| Readiness.MismatchIsNotReady | notify-server/src/readiness.js:235-237 | from a mismatch until the network is classified anew health is NOT_READY whatever else is reported or waived |
| Accounts.ParseVaultConfig | notify-server/src/solana.js:84-103 | every read is inside the buffer; exactly short buffers and counts above 20 are refused; an accepted buffer is a layout of the value |
| Accounts.AcceptedExactlyWhenComplete | notify-server/src/solana.js:84-103 | a buffer is accepted exactly if its count bytes name at most 20 beneficiaries and it holds 94 bytes and 34 for each of them |
| Accounts.ReadsByByte | notify-server/src/solana.js:84-103 | the 16, 32 and signed 64-bit reads, byte by byte, lowest first |
| Accounts.LayoutParts | notify-server/src/solana.js:75-103 | owner at 8, interval at 72, grace at 80, count at 88, beneficiaries from 92, then the executed and the active flag |
| Accounts.LayoutDeterminesValue | notify-server/src/solana.js:75-83 | every value within the limits has an accepted layout with any trailing bytes, and a buffer is the layout of one value only |
| Accounts.ParseWritten | notify-server/src/solana.js:84-103 | writing a value out in any layout and parsing it gives the value back |
| Accounts.ReadI64Exact | notify-server/src/solana.js:89-90 | the signed little-endian read is the one number whose eight bytes stand there |
| Accounts.ParseHeartbeat | notify-server/src/solana.js:110-116 | exactly buffers under 48 bytes are refused; an accepted one is the layout of the value |
| Accounts.HeartbeatReadsBack | notify-server/src/solana.js:105-116 | a record's layout determines the record |
| Accounts.ReadHeartbeatFromAccount | notify-server/src/solana.js:124-134 | a time comes back exactly when the account is the program's record for the vault, and it is the recorded one |
| Accounts.ReadVaultState | notify-server/src/solana.js:143-162 | a vault is seen exactly when the account is the program's and holds one, with its flags and its recorded heartbeat |
| Sessions.PrimaryType | dead-mans-vault/app/src/services/ExecutionHistoryService.ts:216-219 | the loop finds that kind, and one that is present if any is |
| Sessions.FirstIn | dead-mans-vault/app/src/services/ExecutionHistoryService.ts:60-70 | where the first kind of the order that is present stands, with nothing present before it |
| Sessions.ExecutionShownAsExecution | dead-mans-vault/app/src/services/ExecutionHistoryService.ts:60-70 | a transaction is shown under an execution kind of its own exactly if it is an execution transaction |
| Sessions.PaymentsShownFirst | dead-mans-vault/app/src/services/ExecutionHistoryService.ts:60-70 | a SOL bequest is always shown, then token bequests, shares, the finalize; a begin only when nothing else happened |
| Sessions.OutSol | dead-mans-vault/app/src/services/ExecutionHistoryService.ts:268-270 | not negative, and positive exactly if someone other than the payer sent something |
| Sessions.FirstToken | dead-mans-vault/app/src/services/ExecutionHistoryService.ts:276-276 | a transfer with a positive amount, found exactly if there is one |
| Sessions.OutSolAdds | dead-mans-vault/app/src/services/ExecutionHistoryService.ts:268-270 | the amount of a list of transfers is the sum of the amounts of its parts |
| Sessions.OutSolOfOne | dead-mans-vault/app/src/services/ExecutionHistoryService.ts:268-270 | one transfer counts with its amount, unless the payer sent it or it is not positive; no transfer counts nothing |
| Sessions.StepTells | dead-mans-vault/app/src/services/ExecutionHistoryService.ts:260-286 | a step carries signature, time and an execution kind of its own transaction, all SOL that left and the first token that moved |
| Sessions.SummaryTells | dead-mans-vault/app/src/services/ExecutionHistoryService.ts:228-255 | a session lists the steps of its transactions in order, dated and named after its last finalize or else its first transaction |
| Sessions.GroupIntoSessions | dead-mans-vault/app/src/services/ExecutionHistoryService.ts:224-258 | the loop returns the summaries of the groups of the time-sorted execution transactions, newest first |
| Sessions.SplitCutsAtBegins | dead-mans-vault/app/src/services/ExecutionHistoryService.ts:228-255 | the groups are nonempty, join to the whole list, and a begin stands only at a head, at every head but perhaps the oldest |
| Sessions.OnlyOneCut | dead-mans-vault/app/src/services/ExecutionHistoryService.ts:228-255 | no other grouping has these properties |
| Sessions.TotalsAddUp | dead-mans-vault/app/src/services/ExecutionHistoryService.ts:248-249 | SOL and token counts of the sessions add up to those of all execution transactions |
| Sessions.DatedByLastFinalize | dead-mans-vault/app/src/services/ExecutionHistoryService.ts:236-253 | a session's date is its last finalize's, if it has one |
| Sessions.NewestFirst | dead-mans-vault/app/src/services/ExecutionHistoryService.ts:255-258 | the dates of the answer never increase |

## Left out

- Screens, components, hooks, navigation and web views: user interface.
- Rents, account sizes and fees of the program; amounts that reach a beneficiary after a token's own transfer fee.
- The owner's instructions and the heartbeat: frozen past the deadline.
- RPC, HTTP, SQLite, Anchor and Google client internals: each call is an outcome of a script.
- `isOperationalCrankError`, `isOperationalExecutorError` and `reasonCode`: message matching; what a fault is, the script says.
- Priority fees and compute budgets: they change no decision; the fee lookup is one read that may fail.
- Mint-owner retries: one await that finds the owner, finds nothing, or throws.
- The closing of the vault account: it ends the model, so nobody else closes it during a pass.
- `no_vault` and `executor_disabled`, the answers without a vault or a cranker key: they precede every step.
- Key checks at the routes: `isPubkey` and the positive-number coercion are arbitrary functions, and a key that is not text is not a key.
- `checkAdminIp` of the limiter: the admin routes are not modelled.
- Metrics, logs and response bodies beyond code, status, count and revision.
- Interleavings inside one request: one instant, as stated above; the nonce claim and the row change are one transaction in the source too.
- `upsertRegistration` and `deleteRegistrationsByOwner` of `notify-server/src/db.js`: no route calls them.
- Clocks that run backwards, in registration runs and limiter runs: their clock is nondecreasing; the latch is proved for any clock.
- Watcher.ProcessRegistration: does not model database faults of the poller, which surface as a thrown item in `PollCycle`, nor the steps inside the crank it drives, which are `Executor`'s.
- Overlapping ticks: `MAX_TICK_MS` lets a new tick start beside a stuck one; the alert bounds are for ticks that do not overlap.
- Fcm.PushTransport.SendPush: does not model the text of errors, or another send's reset between this send's first read and its last write; each call writes the readiness state at most once.
- `formatDuration` and the texts of alerts: presentation.
- Float ratios: the failure ratio of a cycle is an exact quotient, and the default 0.05 is exactly one twentieth.
- Accounts.ParseVaultConfig: does not model the rounding of 64-bit numbers beyond 2^53, the Base58 spelling of keys, or the hash behind a discriminator.
- Readiness diagnostics (reasons, balance, times, backoff) and `checkExecutorRuntimeReadiness`: no readiness decision depends on them afterwards.
- Sessions.GroupIntoSessions: does not model the page fetch, the discriminator lookup, descriptions, or float sums; amounts are in the smallest unit.
- `ClaimService.runClaim`: the heirs' own crank in the app, built on transaction builders that are not part of this model.
- `runLoop`, `runKeeperOnce`, `nextBackoff`, configuration parsing, secret gates, and the price and position code: scheduling, settings and estimates that decide nothing about who is paid, registered or alerted.
