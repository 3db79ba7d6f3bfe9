# Verified model of the authorization, job, readiness and venue kernels

A Dafny model of the parts of the repository whose correctness depends on more than one function.

- **The one-time authorization ledger.** A challenge is issued with a fresh nonce, reserved by one
  caller, executed, and consumed together with its result; revocation may cut in at any moment.
  `Ledger` and `ReplayService` hold the calls and the objects that make them; `LedgerAnswers` and
  `AuthorizationAnswers` say what each call answers, of the columns, the challenge and the executor.
  `AuthorizationRuns` is a machine of any number of clients, each calling a service of its own over
  one ledger, in which the read and the guarded UPDATE of `reserve` and `finalize` are separate steps
  and a client may crash between any two; `AuthorizationAlone` proves that a client running alone
  comes to what the call gives. `AuthorizationInvariant` and `AuthorizationPreservation` carry the
  invariant, `AuthorizationFrames` what a step may change, `AuthorizationSafety`,
  `AuthorizationExecution` and `AuthorizationRecovery` the results. `SignerAuthorization` is the
  wrapper that binds a signer request to a challenge.
- **The two-layer job protocol.** A task claims a directory with an atomic `mkdir` and publishes
  `receipt.json` by a rename; a host wraps it in a receipt of its own. `Jobs` is a machine of
  interleaved deliveries and crashes in one directory, down to the inode behind the host's
  temporary file; `JobsInvariant` and `JobsFrames` carry its invariant, and `JobsSafety`,
  `JobsAudits`, `JobsVerdicts`, `JobsRefusals`, `JobsRedelivery`, `JobsStops`, `JobsRaces` and
  `JobsConditions` the results. `JobDirectory` holds the two programs as they run alone, proved to be
  runs of that machine. `Framing` is the length-prefixed message stream in front of the host.
- **Decision kernels.** `AtomicGate` (the sender-free flash-loan evidence gate, with
  `AtomicGateOrder`, `AtomicGateSoundness`, `AtomicGateFields`, `AtomicGateReports` and
  `AtomicGateRanks` on what its verdict and its report mean), `Readiness` (the canonical readiness
  state, with `ReadinessLaws`, `ReadinessMeaning` and `ReadinessOrder`), `TransferFee` and `ClmmQuote`
  (the Token-2022 fee and the concentrated-liquidity quote, with `ClmmQuoteLaws` and
  `ClmmQuoteMeaning`), `LockMerge` (the merge of requirement locks, with `LockMeaning`), `Nonce` and
  `Base64Url` (the nonce filter and its text encoding).

Digests and authority tags are ideal: a digest is named by what was hashed, a tag by its key and
payload. Clocks, random sources, the executor, the audit and the context library are parameters.
Errors are values of `Result`; Python integers are unbounded, and the places where the source bounds
them to 64 bits are written out.

## What the proofs found

- EXPIRED is documented as a ledger state, but no run of the service enters it: `verify` refuses a
  late challenge before `reserve` is called. Only a direct ledger call takes that edge.
- The host's temporary file has a fixed name. With two deliveries between opening and renaming it,
  a torn receipt becomes visible; with one at a time it never does.
- The host looks for an existing receipt before it writes. Two different requests that delegate the
  same task can therefore overwrite each other's receipt, and only they can.
- STOP is tested before the delegated receipt. Placed while no host receipt is visible, it makes every
  later cancelled answer truthful exactly when no audit has run and the claimant, if any, is not about
  to run it; `JobsStops.PublishedThenStopped` is a run in which the audit ran and a delivery was told
  that nothing was dispatched.
- The gate's index check compares roles, not indices: it forces ascending indices exactly when no role
  repeats. Two instructions of one role may exchange their indices, and gaps and repeats in the
  index go unseen. A boolean passes as a slippage, so a ready bundle stays ready with one.
- Two active records of a domain behind an inactive first one are not reported as duplicates, unless
  they name different owners.
- The transfer fee is refused when amount times rate leaves 64 bits, even for a valid 64-bit amount,
  because the shared ceiling division bounds its numerator.
- An empty payload is written as a frame that the reader refuses.

## Model

| member | source | states |
|---|---|---|
| Base64Url.DecodeInvertsEncode | src/authorization_replay_pr201.py:916-923 | Unpadded base64url decoding with restored padding returns every byte string that was encoded |
| Base64Url.PaddingIsRestored | src/authorization_replay_pr201.py:916-923 | The padding stripped at issue is exactly what the length of the text calls for |
| Base64Url.EncodeIsInjective | src/authorization_replay_pr201.py:646-650 | Two nonces with the same text are the same nonce |
| Base64Url.AlphabetIs | src/authorization_replay_pr201.py:646-650 | The alphabet is capitals, small letters, digits, dash and underscore, in that order |
| Base64Url.ValuesAre | src/authorization_replay_pr201.py:916-923 | The decoder reads this alphabet and plus and slash for its last two, and nothing else |
| Base64Url.GroupIsOneNumber | src/authorization_replay_pr201.py:646-650 | Three bytes and their four symbols are one number of 24 bits |
| Nonce.WidthSixteenDecides | src/authorization_replay_pr201.py:904-913 | For every length of at least 32 divisible by 16 the whole nonce filter is its width-16 test alone |
| Nonce.AcceptedIffPrimitive | src/authorization_replay_pr201.py:904-913 | A 32-byte nonce is accepted exactly when it is not a proper power of any block |
| Nonce.AcceptedIffAperiodic | src/authorization_replay_pr201.py:904-913 | Of any length, a nonce is accepted exactly with 32 bytes or more, two of them different, and no period of 2, 4, 8 or 16 that divides the length |
| StringOrder.SortedListingIsUnique | src/authorization_replay_pr201.py:856-889 | A strictly sorted listing is fixed by its elements, whichever order they were collected in |
| StringOrder.SortedIsInjective | src/authorization_replay_pr201.py:856-889 | Hashing the sorted list of program ids loses nothing of the set |
| Issuer.IssuedChallengesVerify | src/authorization_replay_pr201.py:622-720 | A challenge a service issued passes its verify at every time before the expiry and is refused as expired from then on |
| Issuer.ReusedTagIsRefused | src/authorization_replay_pr201.py:677-720 | Any changed unsigned field under an accepted challenge's tag is refused |
| Issuer.AcceptedChallengeFixesTheKey | src/authorization_replay_pr201.py:791-798 | Two services that accept one challenge are configured alike, key included |
| AuthorizationAnswers.ChallengeCarriesRequest | src/authorization_replay_pr201.py:646-672 | A challenge carries its request, service, nonce and times field by field, all under the tag |
| AuthorizationAnswers.IssueIsRefusedUnless | src/authorization_replay_pr201.py:634-648 | A challenge is made exactly for a well-formed request and an accepted nonce, and the error says which fails |
| AuthorizationAnswers.VerifyAnswers | src/authorization_replay_pr201.py:677-720 | What is accepted, and for each refusal of a challenge for this service exactly when it is given |
| AuthorizationAnswers.ForeignChallenges | src/authorization_replay_pr201.py:680-698 | A challenge of another schema, issuer or place is refused before anything else is looked at |
| AuthorizationAnswers.OtherServiceRefuses | src/authorization_replay_pr201.py:677-720 | Any other service refuses an issued challenge: by name, by place, or by key |
| Ledger.ReplayLedger.RecordIssuedRow | src/authorization_replay_pr201.py:280-322 | One transaction inserts an ISSUED row or, if id, nonce digest or envelope hash is taken, changes nothing |
| Ledger.ReplayLedger.ReserveRow | src/authorization_replay_pr201.py:324-407 | One transaction: the committed EXPIRED edge, the reservation, the exact replay, or an error by state with nothing changed |
| Ledger.ReplayLedger.FinalizeRow | src/authorization_replay_pr201.py:409-479 | One transaction: RESERVED by this request becomes CONSUMED with the result, a consumed row answers or refuses |
| Ledger.ReplayLedger.RevokeRow | src/authorization_replay_pr201.py:481-511 | Everything but CONSUMED is revoked, RESERVED to CONFLICTED, the reason cut to 128 characters |
| LedgerAnswers.ChallengeReachesItsRow | src/authorization_replay_pr201.py:549-565 | An issued challenge reaches its row and every changed copy under its id is refused |
| LedgerAnswers.RowsAreChecked | src/authorization_replay_pr201.py:537-565 | A call works on the row of the id exactly when seven columns agree, and says which of the two errors otherwise |
| LedgerAnswers.UncheckedRowsRefuse | src/authorization_replay_pr201.py:336-338 | and refuses with that error, with nothing changed |
| LedgerAnswers.RecordingAnswers | src/authorization_replay_pr201.py:280-322 | Recording succeeds exactly when id, nonce and envelope are new, and adds one open row |
| LedgerAnswers.ReserveOpen | src/authorization_replay_pr201.py:338-404 | An open row is reserved for the request before its expiry and expired from then on; no other column or row changes |
| LedgerAnswers.ReserveClosed | src/authorization_replay_pr201.py:354-382 | A row that is not open answers by its state and is left as it is |
| LedgerAnswers.ReserveReplays | src/authorization_replay_pr201.py:354-361 | A consumed row replays the stored result to the request it was consumed by |
| LedgerAnswers.ConsumedWithoutResult | src/authorization_replay_pr201.py:573-582 | A consumed row without a stored result is reported as a store error |
| LedgerAnswers.FinalizeOwn | src/authorization_replay_pr201.py:447-479 | The own reservation is consumed with the result and the time, and no other row changes |
| LedgerAnswers.FinalizeConsumed | src/authorization_replay_pr201.py:424-439 | A consumed row answers only the same request with the same digest, with what is stored |
| LedgerAnswers.RevokeAnswers | src/authorization_replay_pr201.py:481-511 | What revocation refuses, and the state and reason it leaves otherwise |
| LedgerAnswers.RevocationIsAnswered | src/authorization_replay_pr201.py:366-382 | After a revocation every reserve is refused: as a conflict when a reservation was open, as revoked otherwise |
| LedgerLaws.RaisingCallsAreTransparent | src/authorization_replay_pr201.py:280-511 | A raising call changes the ledger exactly when it is a late reserve of an ISSUED row, and then only to EXPIRED |
| LedgerLaws.CallsFollowTheLifecycle | src/authorization_replay_pr201.py:338-507 | A call touches only its own row, along an edge of the lifecycle; consumed rows never change |
| LedgerLaws.RowChangesAtMostThreeTimes | src/authorization_replay_pr201.py:338-507 | Over any sequence of calls a row's state changes at most three times |
| LedgerLaws.TotalChangesBounded | src/authorization_replay_pr201.py:338-507 | All state changes of a run are at most three times the challenges issued |
| LedgerLaws.ConsumedRowsAreFrozen | src/authorization_replay_pr201.py:440-511 | CONSUMED is absorbing: no later calls alter any column of the row |
| LedgerLaws.LeavingIssuedIsFinal | src/authorization_replay_pr201.py:338-402 | ISSUED is never re-entered and RESERVED is entered only from ISSUED |
| ReplayService.AuthorizationReplayService.IssueChallenge | src/authorization_replay_pr201.py:622-675 | Issuing checks the request and the nonce, signs, and records the row or raises |
| ReplayService.AuthorizationReplayService.ExecuteOnceWith | src/authorization_replay_pr201.py:722-771 | Verify, reserve, run the executor only on a fresh reservation, finalize; the executor ran exactly when reported |
| ReplayService.AuthorizationReplayService.RecoverWith | src/authorization_replay_pr201.py:773-789 | Recovery verifies and then finalizes with the retrieved result |
| AuthorizationAnswers.FreshExecutionConsumes | src/authorization_replay_pr201.py:722-771 | On an open row a valid executor result is returned unreplayed and stored, the row is consumed, and no other row changes |
| AuthorizationAnswers.FreshExecutionFails | src/authorization_replay_pr201.py:751-763 | Whatever else the executor does gives its own error and leaves the reservation standing |
| AuthorizationAnswers.RefusedCallDoesNothing | src/authorization_replay_pr201.py:730-736 | A call refused before the reservation changes nothing and executes nothing |
| AuthorizationAnswers.ClosedCallAnswers | src/authorization_replay_pr201.py:737-750 | On a row that is not open nothing executes and the state decides the answer |
| AuthorizationAnswers.RecoveryAnswers | src/authorization_replay_pr201.py:773-789 | Recovery consumes exactly the reservation of its own request and conflicts on any other open row |
| AuthorizationAnswers.IssuedThenExecuted | src/authorization_replay_pr201.py:622-771 | What is issued executes once for any request before its expiry, and every other row stays |
| AuthorizationAlone.ExecutingClientMakesTheCall | src/authorization_replay_pr201.py:722-771 | A client of the runs machine that executes alone leaves the table, outcome and executor call of the service call |
| AuthorizationAlone.RecoveringClientMakesTheCall | src/authorization_replay_pr201.py:773-789 | and one that recovers alone leaves those of recover_result |
| ReplayService.SuccessHoldsExecution | src/authorization_replay_pr201.py:722-771 | After a success the row is consumed by this request and stores the returned result |
| ReplayService.ExactRetryReplays | src/authorization_replay_pr201.py:722-771 | After a success the same request before expiry gets the same execution, marked replayed, and nothing executes |
| ReplayService.OtherRequestIsReplayed | src/authorization_replay_pr201.py:354-382 | After a success any other request on the challenge is refused as replayed and nothing executes |
| ReplayService.FailedExecutionIsFencedAndRecoverable | src/authorization_replay_pr201.py:751-789 | After an executor failure a retry is refused without executing, and recovery before expiry with any valid result succeeds |
| AuthorizationPreservation.RunsKeepInv | src/authorization_replay_pr201.py:280-853 | Every run, at the granularity of single reads and guarded updates, keeps the invariant on rows, clients, winners and log |
| AuthorizationSafety.ExecutorRunsAtMostOnce | src/authorization_replay_pr201.py:231-771 | In any interleaving with crashes and revocations, two executor calls are for different challenges and different nonce digests |
| AuthorizationSafety.ReturnsAgree | src/authorization_replay_pr201.py:354-475 | All successful returns for a challenge agree on operation id, request hash and result, and at most one is not a replay |
| SignerAuthorization.CheckBinding | src/authorization_replay_pr201.py:808-842 | The loop over the seven checks passes exactly on a request bound to the challenge, and blames the nonce only when all else is bound |
| SignerAuthorization.AuthorizePr141Once | src/authorization_replay_pr201.py:801-855 | The checks, one execution under the request's hash, and the authorization read back from the stored payload |
| SignerAuthorization.BoundRequestAuthorizes | src/authorization_replay_pr201.py:840-853 | A bound request on a fresh challenge is authorized by one execution, as the result reads back |
| SignerAuthorization.UnboundRequestDoesNothing | src/authorization_replay_pr201.py:808-842 | A request for another challenge is refused with the ledger unchanged and no signer run |
| SignerAuthorization.AuthorizedRequestIsFinal | src/authorization_replay_pr201.py:801-889 | After an authorization a later call before expiry succeeds exactly for the same request, field by field, with the same answer and no signer run |
| SignerAuthorization.SignerReturnsAgree | src/authorization_replay_pr201.py:801-889 | In any run two successful returns for a challenge through the wrapper were given the same request, field by field, and read back alike |
| AuthorizationSafety.ReachableRowsAreShaped | src/authorization_replay_pr201.py:280-511 | Every reachable row has exactly the columns its state calls for, the operation id as derived, and a nonce of its own |
| AuthorizationSafety.ExpiredIsNeverEntered | src/authorization_replay_pr201.py:338-353 | No run of the service puts a row in EXPIRED |
| AuthorizationSafety.StoredResultsAreNeverMissing | src/authorization_replay_pr201.py:573-582 | The errors for a consumed row without a valid stored result never occur on a reachable ledger |
| AuthorizationSafety.WholeReserveWinsItsRace | src/authorization_replay_pr201.py:383-403 | With the transaction atomic, the rowcount branch of reserve is unreachable |
| AuthorizationSafety.WholeFinalizeWinsItsRace | src/authorization_replay_pr201.py:448-475 | With the transaction atomic, the rowcount branch of finalize is unreachable |
| AuthorizationSafety.ReserveHalvesMakeTheCall | src/authorization_replay_pr201.py:324-407 | The machine's two reserve steps in sequence are the ledger's one reserve call |
| AuthorizationSafety.FinalizeHalvesMakeTheCall | src/authorization_replay_pr201.py:409-479 | The machine's two finalize steps in sequence are the ledger's one finalize call |
| AuthorizationSafety.ExecutedRowsStayOpen | src/authorization_replay_pr201.py:751-771 | Once the executor was called and absent a revocation, the row is reserved or consumed under that operation id |
| AuthorizationRecovery.RecoveryCompletes | src/authorization_replay_pr201.py:773-789 | From any reachable state with the row still reserved, recovering the executed request through the called service with a valid result before expiry succeeds |
| AuthorizationExecution.SuccessMeansOneExecution | src/authorization_replay_pr201.py:722-771 | Without recovery every successful return is preceded by an executor call with its operation id, the only one of the run |
| JobsInvariant.RunsKeepInv | scripts/run_qualification_task.py:113-174 | Every run of deliveries, crashes and STOP keeps the invariant on claim, files, deliveries and log |
| JobsSafety.AuditRunsAtMostOnce | scripts/run_qualification_task.py:125-138 | Under any interleaving of deliveries and crashes the audit of a task id runs at most once |
| JobsAudits.AnswerMeansOneAudit | scripts/run_qualification_task.py:113-174 | Every task answer and every host answer that reports the task is preceded by an audit, the only one of the run |
| JobsVerdicts.AuditDecides | scripts/run_qualification_task.py:137-156 | A claimant publishes exactly when the audit is fit and the source still clean, with the audit's own verdict and findings |
| JobsVerdicts.AuditRefusals | scripts/run_qualification_task.py:139-156 | and otherwise fails with the first condition that does not hold |
| JobsVerdicts.ReceiptSaysTheAudit | scripts/run_qualification_task.py:156-174 | A published receipt carries the verdict and findings of the one audit of the run, which was fit to publish |
| JobsVerdicts.TaskAnswersSayTheAudit | scripts/run_qualification_task.py:127-174 | So does every task answer, and the audit came before it |
| JobsVerdicts.HostAnswersSayTheAudit | scripts/run_occ_native_host.py:256-302 | A delegated host answer has the audit's verdict and its first finding as the blocker |
| JobsVerdicts.ClaimSettles | scripts/run_qualification_task.py:137-174 | A claim that runs on undisturbed publishes the audit's verdict exactly when it is fit, and else leaves no receipt |
| JobsRefusals.EntryRefusals | scripts/run_occ_native_host.py:168-192 | What stops a host delivery at once: the request, the output root, the context database, the context |
| JobsRefusals.TaskRefusals | scripts/run_qualification_task.py:114-118 | What stops a task before its claim: the request, the output root, the source |
| JobsRefusals.FoundDirectory | scripts/run_qualification_task.py:122-130 | A directory that was there before the claim is replayed when it has a receipt, and refused as half done otherwise, to a host under its own error |
| JobsRefusals.FoundTaskReceipt | scripts/run_qualification_task.py:129-136 | What a task receipt in the directory answers to another delivery |
| JobsRefusals.FoundHostReceipt | scripts/run_occ_native_host.py:137-147 | What a host receipt in the directory answers, at once or after the task |
| JobsRefusals.NoContextNoAnswer | scripts/run_occ_native_host.py:182-238 | In a run that is never granted its context no host delivery is answered and no host receipt written |
| JobsRefusals.NothingIsAudited | scripts/run_qualification_task.py:116-125 | In a run whose source is never clean, or whose receipts would lie in the checkout, nothing is audited, published or reported |
| JobsRefusals.FreshDeliveryAnswers | scripts/run_occ_native_host.py:159-302 | Undisturbed in a fresh directory with a fit audit, a host request ends in the visible receipt that says what the audit said |
| JobsRefusals.HostRequestsAre | scripts/run_occ_native_host.py:56-83 | Exactly which host requests are accepted |
| JobsSafety.TaskAnswersAgree | scripts/run_qualification_task.py:127-174 | All successful task returns carry one request and the one published receipt |
| JobsSafety.ReceiptNeverChanges | scripts/run_qualification_task.py:156-174 | receipt.json appears whole with its digest and never changes afterwards |
| JobsSafety.AbandonedClaimBlocks | scripts/run_qualification_task.py:122-130 | A claim that ended before publishing blocks the directory for ever: no further audit, no answer from it |
| JobsSafety.UnclaimedDirectoryStaysUnclaimed | scripts/run_occ_native_host.py:194-220 | A directory that STOP created without a claim is never claimed and no audit ever runs in it |
| JobsSafety.HostReceiptsAgree | scripts/run_occ_native_host.py:263-302 | For one request and no STOP, every complete host receipt in a file or returned is the one built from the task receipt |
| JobsRedelivery.RedeliverySettles | scripts/run_occ_native_host.py:182-302 | A redelivery into an existing directory runs no audit and ends in the verdict the files call for, whatever a crash left |
| JobsStops.StopIsTruthfulIff | scripts/run_occ_native_host.py:194-220 | Placed while no host receipt is visible, STOP keeps all later cancelled answers truthful exactly when no audit has run and the claimant, if any, is not about to run it |
| JobsStops.PublishedThenStopped | scripts/run_occ_native_host.py:194-220 | A run in which the task receipt was published, STOP was placed, and a delivery was then told that nothing was dispatched |
| JobsRaces.OneWriterNeverTears | scripts/run_occ_native_host.py:131-134 | With at most one delivery writing at a time a visible host receipt is always complete |
| JobsRaces.TwoWritersTear | scripts/run_occ_native_host.py:131-134 | Two valid deliveries of one task can make a torn receipt visible |
| JobsConditions.NeverTornIffOneWriter | scripts/run_occ_native_host.py:131-134 | A visible receipt is complete in all runs with at most n writers at once exactly when n is at most one |
| JobsConditions.NeverOverwrittenIff | scripts/run_occ_native_host.py:294-302 | A visible receipt of one of two valid requests is never replaced exactly when they are equal or delegate different tasks |
| JobDirectory.Directory.ExecuteTask | scripts/run_qualification_task.py:113-174 | A qualification task run alone, path and source checks included, is a run of the machine; a new receipt says what the audit said, and there is one exactly when it is fit and the source stays clean |
| JobDirectory.Directory.AtomicWrite | scripts/run_occ_native_host.py:131-134 | Open, write and rename leave the receipt visible and complete, whatever temporary file was there |
| JobDirectory.Directory.ExecuteHostRequest | scripts/run_occ_native_host.py:159-302 | The host request run alone is a run of the machine; a receipt it returns is the visible one, and a new one reports the audit or the operator's stop |
| Framing.ReadNativeMessage | scripts/run_occ_native_host.py:103-113 | Reading returns the parsed payload or the header, size, truncation or parse error, and leaves the stream just past what it consumed |
| Framing.WriteNativeMessage | scripts/run_occ_native_host.py:116-122 | Writing appends the four length bytes and the rendered value, or refuses an oversized one and appends nothing |
| Framing.UnpackInvertsPack | scripts/run_occ_native_host.py:107-120 | The four little-endian bytes decode to the length |
| Framing.PackInvertsUnpack | scripts/run_occ_native_host.py:107-120 | Every four bytes are the encoding of the length they decode to |
| Framing.PackIsLittleEndian | scripts/run_occ_native_host.py:120 | The four bytes are the digits of the length to the base 256, least first |
| Framing.ReadRefusals | scripts/run_occ_native_host.py:103-113 | Every outcome of the reader by the bytes in front of it, and where it leaves the stream |
| Framing.FrameRoundTrip | scripts/run_occ_native_host.py:103-122 | Reading a written in-bound payload returns it and leaves the suffix untouched |
| Framing.MessageAnswers | scripts/run_occ_native_host.py:103-113 | A framed payload is consumed whether or not it parses, and one that does not is refused |
| Framing.ReadSucceedsIffFramed | scripts/run_occ_native_host.py:103-113 | Reading succeeds with a payload exactly on inputs that start with its frame, and consumes just that |
| Framing.StrictPrefixIsRefused | scripts/run_occ_native_host.py:104-112 | Every strict prefix of a frame is refused, with the error its length calls for |
| Framing.EmptyPayloadDoesNotRoundTrip | scripts/run_occ_native_host.py:108-122 | An empty payload is written and then refused on reading |
| Framing.FramesRoundTrip | scripts/run_occ_native_host.py:103-122 | For every suffix, making as many reads as payloads were written returns exactly the payloads and leaves exactly the suffix |
| Framing.MessagesRoundTrip | scripts/run_occ_native_host.py:103-122 | The same for values whose rendered payloads parse back to them |
| Framing.CutFramesFallShort | scripts/run_occ_native_host.py:103-122 | Cut at any byte, what was written no longer yields all the messages |
| Framing.FramesAreUnambiguous | scripts/run_occ_native_host.py:103-122 | Bytes split into that many frames and a suffix in one way only |
| Framing.UniqueObject | scripts/run_occ_native_host.py:86-92 | Fails exactly on a repeated key; otherwise the object has each pair and nothing else |
| AtomicGate.EvaluateEvidence | src/atomic_sender_free_execution.py:63-98 | The validators over one shared list, in order, deduplicated, give the report with the digest of the bundle; mixed arithmetic raises instead |
| AtomicGate.BlockerList.ValidateInstructions | src/atomic_sender_free_execution.py:188-238 | The list after the instruction checks, blocker by blocker in source order |
| AtomicGate.BlockerList.ValidateEconomics | src/atomic_sender_free_execution.py:278-332 | The list after the economic checks, or a raise where an amount is not a number |
| AtomicGate.NetOf | src/atomic_sender_free_execution.py:316-318 | The loop that takes off one cost at a time computes the folded net, or raises where the fold does |
| AtomicGate.Dedupe | src/atomic_sender_free_execution.py:376-382 | Keeps the first occurrence of each violation, in order |
| AtomicGate.Unique | src/atomic_sender_free_execution.py:376-382 | The kept violations are the same set with no repeats |
| AtomicGateSoundness.BracketIff | src/atomic_sender_free_execution.py:197-208 | The bracket, swap-order and count checks together hold exactly when the roles are borrow, leg A, leg B, repay in place and nowhere else |
| AtomicGateSoundness.FlashOrderByIndex | src/atomic_sender_free_execution.py:193-196 | With the order check passed, the borrow has the least index, the repay the greatest, and leg A no greater than leg B |
| AtomicGateOrder.IndexCheckForcesOrderIff | src/atomic_sender_free_execution.py:193-196 | For a list of roles the order check passes only ascending lists exactly when no role repeats |
| AtomicGateOrder.ExchangePasses | src/atomic_sender_free_execution.py:193-196 | Two instructions of one role with their indices exchanged pass, whatever the other roles are |
| AtomicGateOrder.RepeatsAndGapsPass | src/atomic_sender_free_execution.py:193-196 | Any roles pass with any indices that do not descend, repeats and gaps included |
| AtomicGateOrder.RepeatAndGapExample | src/atomic_sender_free_execution.py:193-196 | The four sensitive roles pass at indices 5, 5, 6 and 900 |
| AtomicGateSoundness.SlippagePassesIff | src/atomic_sender_free_execution.py:140-146 | Exactly the whole numbers from 0 to 1000 and the two booleans pass as a slippage |
| AtomicGateSoundness.BooleanSlippageStaysReady | src/atomic_sender_free_execution.py:140-146 | A ready bundle stays ready when its slippage is replaced by a boolean |
| AtomicGateFields.ReadyIffFieldsHold | src/atomic_sender_free_execution.py:63-98 | A bundle is ready exactly when its fields hold what each validator asks, field by field, loan, surplus and bracket included |
| AtomicGateReports.ReportIsExact | src/atomic_sender_free_execution.py:63-98 | A report lists exactly the faults of the bundle, by code and detail, each once |
| AtomicGateReports.ReportedIffComputes | src/atomic_sender_free_execution.py:149-332 | The evaluation raises exactly when some sum or comparison it makes mixes kinds |
| AtomicGateReports.ReadyIffFaultless | src/atomic_sender_free_execution.py:83-98 | Ready means computable and without fault |
| AtomicGateReports.NothingIsAllowed | src/atomic_sender_free_execution.py:89-98 | No report allows signing, sending or executing, and each has the digest of its bundle |
| AtomicGateRanks.ReportIsInOrder | src/atomic_sender_free_execution.py:76-84 | The violations of a report come in the order in which the gate makes its checks |
| AtomicGateRanks.UniqueKeepsOrder | src/atomic_sender_free_execution.py:376-382 | Dropping repeats keeps the first of each violation, in order |
| AtomicGateSoundness.ReadyIsBracketed | src/atomic_sender_free_execution.py:188-238 | Ready implies one borrow first, one repay last, leg A before leg B once each, in list and in index order |
| AtomicGateSoundness.ReadyHasSurplus | src/atomic_sender_free_execution.py:278-332 | Ready implies leg B's output plus rent refund covers principal, flash fee, all seven costs and the plan's minimum profit |
| AtomicGateSoundness.ReadyRepays | src/atomic_sender_free_execution.py:223-238 | Ready implies the first instruction borrows the principal and the last repays principal plus fee |
| EvidenceValues.SortAscends | src/atomic_sender_free_execution.py:194 | Sorting by index yields an ascending list for any comparable indices |
| EvidenceValues.SortKeepsItems | src/atomic_sender_free_execution.py:194 | and the same instructions with the same multiplicities |
| EvidenceValues.SortOfAscending | src/atomic_sender_free_execution.py:194 | and leaves an ascending list, ties included, as it is |
| EvidenceValues.SortIsStable | src/atomic_sender_free_execution.py:194 | and keeps instructions at one index in their order |
| Readiness.EvaluateBlockers | src/canonical_readiness.py:212-249 | A record's blockers in order without repeats, or an error when a field is malformed |
| Readiness.EvaluateReadiness | src/canonical_readiness.py:348-436 | The loops over records and domains compute the tables, the global blockers and the flags |
| Readiness.SupersessionBlockers | src/canonical_readiness.py:527-538 | Supersession is judged against the last record of each domain |
| ReadinessLaws.RecordIsCleanIff | src/canonical_readiness.py:212-249 | A well-formed record reports nothing exactly when evidence, binding proofs and removal criteria are all in order |
| ReadinessMeaning.RecordReportsExactly | src/canonical_readiness.py:212-249 | A well-formed record reports exactly the codes whose conditions hold on its fields, each once |
| ReadinessMeaning.AcceptedIff | src/canonical_readiness.py:357-376 | The evaluation raises exactly on no records, a blank release, or a malformed record or report |
| ReadinessMeaning.DomainIdIff | src/canonical_readiness.py:541-549 | Exactly which texts name a domain |
| ReadinessMeaning.GlobalBlockersAreExact | src/canonical_readiness.py:360-392 | The state lists exactly the global blockers whose conditions hold on the records and reports |
| ReadinessOrder.StatedComeFirst | src/canonical_readiness.py:212-249 | A record lists its own blockers first, in their order and each once |
| ReadinessOrder.GlobalBlockersAreInOrder | src/canonical_readiness.py:373-392 | The global blockers are listed by kind: duplicates, legacy reports, supersessions |
| ReadinessLaws.DuplicateOwnerIsExact | src/canonical_readiness.py:382-389 | DUPLICATE_ACTIVE_OWNER for a domain is reported exactly when two of its active records name different owners |
| ReadinessLaws.DuplicateRequirementIsExact | src/canonical_readiness.py:365-381 | DUPLICATE_ACTIVE_REQUIREMENT is reported exactly when the first record of the domain and some later one are both active |
| ReadinessLaws.LegacyIsCleanIff | src/canonical_readiness.py:510-524 | Legacy reports block nothing exactly when there is at most one |
| ReadinessMeaning.FlagsByMode | src/canonical_readiness.py:394-416 | For any records each flag holds exactly when nothing global does and no domain that reports has, in its first record, a mode that blocks the use |
| ReadinessMeaning.DistinctFlagsByMode | src/canonical_readiness.py:394-416 | For distinct domains the mode is the reporting record's own, and the conditions do not depend on order |
| ReadinessLaws.OrderDoesNotMatter | src/canonical_readiness.py:348-436 | For distinct domains the three flags, and whether the evaluation raises, are invariant under permutation |
| ReadinessLaws.FlagsAreMonotone | src/canonical_readiness.py:348-436 | Adding blockers to records or legacy reports never turns a false flag true, even with repeated domains |
| ReadinessLaws.FlagsAreNested | src/canonical_readiness.py:410-422 | Production ready implies live ready implies paper ready, and the product state says which |
| ReadinessMeaning.ProductStateIs | src/canonical_readiness.py:414-422 | Each of the four product states is given exactly under the flags it names |
| ReadinessMeaning.RequirementTableIs | src/canonical_readiness.py:368-371 | The table holds, for each domain, the codes of its last reporting record |
| ReadinessMeaning.AuthorityMeans | src/canonical_readiness.py:439-450 | The single-authority assertion passes exactly when nothing global holds and no record reports |
| ReadinessLaws.AuthorityImpliesReady | src/canonical_readiness.py:439-450 | Passing it implies all three flags |
| TransferFee.ApplyTransferFee | src/agg06_solana_venues.py:187-210 | The checks in order, then net and fee, computed with the shared bounded ceiling division |
| TransferFee.SucceedsIff | src/agg06_solana_venues.py:187-210 | Succeeds exactly for an applicable policy, an amount not below zero and a product within 64 bits |
| TransferFee.RefusalsOf | src/agg06_solana_venues.py:189-206 | Each refusal is given exactly when its condition is the first that fails |
| TransferFee.FeeIsConserved | src/agg06_solana_venues.py:207-210 | Net plus fee is the amount, and the fee is the least whole number covering the rate, under the cap |
| TransferFee.NetIsMonotone | src/agg06_solana_venues.py:207-210 | Fee and net both grow with the amount |
| TransferFee.SplittingNeverHelps | src/agg06_solana_venues.py:207-210 | The fees of two parts are together no less than the fee of the whole |
| TransferFee.ManyPartsNeverHelp | src/agg06_solana_venues.py:207-210 | and so for any number of parts |
| ClmmQuote.DecodeInOrder | src/agg06_solana_venues.py:242-249 | Bands are accepted exactly when their arrays are loaded and come in loaded order, a repeated name counting at its last position |
| ClmmQuote.TraverseBands | src/strategies/stable_peg/math.py:36-56 | The traversal loop computes output, fee and bands used, or fails when the bands cannot hold the input |
| ClmmQuote.MakeQuote | src/agg06_solana_venues.py:213-280 | The checks in order, text and hash fields included, the traversal, the transfer fee, the touched arrays and the digests |
| ClmmQuoteLaws.ConsumesInput | src/strategies/stable_peg/math.py:45-53 | What is taken from the bands is exactly the input, up to their capacity |
| ClmmQuoteLaws.TouchedIsLeastPrefix | src/strategies/stable_peg/math.py:45-53 | The bands touched are the shortest prefix that holds the input |
| ClmmQuoteLaws.OutputIsMonotone | src/strategies/stable_peg/math.py:45-53 | More input never pays less and never touches fewer bands, roundings included |
| ClmmQuoteLaws.QuoteIsMonotone | src/agg06_solana_venues.py:213-280 | Any smaller positive amount can be quoted too, pays no more after both fees and touches a prefix of the arrays |
| ClmmQuoteLaws.QuoteConserves | src/agg06_solana_venues.py:250-280 | All input goes to the pool fee or into bands, all output of the bands to the taker or the transfer fee |
| ClmmQuoteLaws.TouchedArraysAreOrdered | src/agg06_solana_venues.py:242-267 | Touched arrays are loaded and come in loaded order |
| ClmmQuoteMeaning.OneBandPays | src/strategies/stable_peg/math.py:49-52 | One band pays the greatest whole output its price covers, as far as its capacity goes |
| ClmmQuoteMeaning.OutputSplits | src/strategies/stable_peg/math.py:46-53 | Cut anywhere, each part of the bands pays for its own share of the input |
| ClmmQuoteMeaning.PoolFeeIsLeast | src/strategies/stable_peg/math.py:10-20 | The pool fee is the least whole fee at the rate, and fails exactly outside 64 bits |
| ClmmQuoteMeaning.QuotePays | src/agg06_solana_venues.py:250-263 | A quote charges the least pool fee and pays all the bands put out for the rest, split between taker and transfer fee |
| ClmmQuoteMeaning.QuoteTouches | src/agg06_solana_venues.py:250-275 | The touched arrays are those of the shortest prefix of bands that holds the input |
| ClmmQuoteMeaning.QuoteCarries | src/agg06_solana_venues.py:262-280 | The market, the digests, and what the independent vector says |
| ClmmQuoteMeaning.QuotedIff | src/agg06_solana_venues.py:228-263 | A quote is given exactly when the request is admissible, the bands cover it and the token's fee can be taken |
| ClmmQuoteMeaning.EvidenceRefusals | src/agg06_solana_venues.py:102-121 | Evidence that is not current is refused by its form first, then by its times |
| ClmmQuoteMeaning.MarketRefusals | src/agg06_solana_venues.py:232-261 | With current evidence a refusal names the first remaining condition that fails |
| LockMerge.ParsePins | scripts/lock_requirements.py:107-118 | The loop over lines keeps the last pin of each canonical name and stops at the first line that is no exact pin |
| LockMerge.DirectVersions | scripts/lock_requirements.py:121-141 | The project's own pins by canonical name, every one of which must be exact |
| LockMerge.MergeLocks | scripts/lock_requirements.py:144-181 | Parse, then merge: the least conflicting name, or one line for each name in ascending order |
| LockMerge.CanonicalIffFixed | scripts/lock_requirements.py:37-38 | Exactly the lower-case names with single dashes are their own canonical form |
| LockMerge.CanonicalNameIsIdempotent | scripts/lock_requirements.py:37-38 | Canonicalising twice is canonicalising once |
| LockMeaning.CanonicalIffRenders | scripts/lock_requirements.py:37-38 | The canonical name is the one in small letters with one dash for every run of separators |
| LockMeaning.SpellingsMeet | scripts/lock_requirements.py:37-38 | Spellings that differ in capitals or in which separators they use have one canonical name |
| LockMeaning.PinNameIff | scripts/lock_requirements.py:28 | A line is read as a pin of a name exactly when it has the form of one |
| LockMeaning.PinLineIff | scripts/lock_requirements.py:107-118 | A raw line is a pin exactly when, stripped, it has the form of one; the name is canonical and the text is cut on the right |
| LockMerge.ParsedNamesAreCanonical | scripts/lock_requirements.py:107-118 | Every parsed name is canonical |
| LockMeaning.ParsesIff | scripts/lock_requirements.py:107-118 | A file parses exactly when no line is refused, and otherwise the first refused line is named |
| LockMeaning.ParsedPinsAre | scripts/lock_requirements.py:107-118 | A parsed file pins exactly the names of its pin lines, each as its last one has it |
| LockMeaning.DirectPinsAre | scripts/lock_requirements.py:121-141 | The direct pins are the last requirement of each name, as it is written |
| LockMeaning.DirectIff | scripts/lock_requirements.py:133-140 | They exist exactly when every requirement is an exact pin, and else the first that is not is named |
| LockMerge.FailsIffDisagreement | scripts/lock_requirements.py:155-172 | The merge fails exactly when some name without a direct pin has two different component pins |
| LockMerge.MergedLines | scripts/lock_requirements.py:155-181 | On success the names are the union, strictly sorted, each with its direct pin or the one pin all components agree on |
| LockMerge.OrderDoesNotMatter | scripts/lock_requirements.py:155-181 | Merging depends on the set of parsed components alone, in its lines and in the conflict it reports |
| LockMerge.LockOrderDoesNotMatter | scripts/lock_requirements.py:144-181 | Reordering the component lock files changes nothing of the merge but which offending line is named when some file does not parse |

## Left out

- SQLite itself, its schema checks, busy timeouts and connection errors: a transaction is one step, or two where the runs split it. `get` and the columns it only displays are not modelled.
- Real SHA-256, HMAC and JSON text: ideal values named by their contents; the size bound on a result is a comparison on its canonical text.
- The signer behind `authorize_pr141_once` (`signer_authorization_pr141` is not part of this model): it is the executor, and reading a stored payload back is a function of the payload.
- JobDirectory.Directory.ExecuteTask: the check of the source checkout is one boolean before the audit and one after, and a project root other than the adapter's own is an audit that fails.
- `OCCDurableLibrary` is not part of this model: a context version is an immutable record, and access to it is granted or refused.
- Symbolic links, unreadable files and the size limit when a receipt is read back.
- The removal of a STOP file, and any file operation by others than deliveries and STOP; the runs concern one job directory at a time.
- JobDirectory.Directory.ExecuteHostRequest: describes an execution without interference, interleaved ones being runs of the machine in `Jobs`; delegates other than the task program, and so the checks on malformed delegated results, are not modelled.
- Framing.ReadNativeMessage: decoding a payload from UTF-8 and JSON is a function of its bytes that may fail; of the JSON text itself only the duplicate-key rule is modelled.
- Framing.WriteNativeMessage: the canonical rendering is a function of the value.
- AtomicGate.EvaluateEvidence: evidence fields that hold floats, lists or nested objects are not modelled, and the digest of the bundle is ideal.
- In the readiness state, the texts of error messages, the serialised form, its hash, and whitespace beyond Latin-1 in the non-empty checks.
- The other venue quotes and qualifications. The digests of a quote are ideal, and a field of the wrong type is not modelled.
- Running the resolver, reading the project file, and the fixed header of the merged lock.
- Gates over fixed constants and files, packaging, the backtest, the emergency tools and the application wiring: they would add only independent field checks.
