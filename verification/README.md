# The after-sales desk, verified

A Dafny model of the money-moving core of an after-sales service, and of five smaller components around
it. The desk assesses a complaint, drafts a refund or a resend, collects signatures, freezes the money,
pays it out once, and gives it back when a request is rejected, superseded or forgotten. Two stores that
no transaction ties together have to agree while it does so: an in-memory ledger that moves money
available -> reserved -> captured, and a table of action records with optimistic versions.

The central result is an invariant of the pair (`Protocol.Sound` and `Agreement.Agreed`): on every order,
frozen money is exactly what the reserved records hold plus what requests in flight have pledged. It holds
in every state reachable by whole requests, and still holds when approvals and creations are cut in two
around their save and interleaved with anything else, under one side condition (`Protocol.Admissible`).
From it follow: an approved refund always finds its money, a request that loses a race leaves no trace, a
sweep returns exactly the overdue amounts, captured money is the sum of the completed refunds, and a swept
record is dead for good. Where the side condition is dropped the invariant fails: `History` and `Stranded` say
exactly when, in terms of the ledger, and exhibit runs from an empty desk that get there.

How the files fit together:

- `MapSums`, `Payloads`, `Wrappers`: sums over maps and shared datatypes.
- `RiskScoring`, `Decision`, `Reverse`: assessment. `AssessRisk` is the accumulating form of the
  source, proved equal to the declarative scorecard that the lemmas are about.
- `Ledger`, `Dispatch`, `Actions`: the two executors (classes with mutable dictionaries, each method tied to
  a function on the ledger's value) and the action record's state machine.
- `Desk`: what each handler does, as a function of the desk's value. `Gateway`: the same handlers as methods
  on a mutable repository and the two executors, in the source's order of reads, guards, reservations, saves
  and roll-backs; each is proved to do what `Desk` says and to keep the invariant (`Agreement.Balanced`).
- `Protocol`, `Agreement`: runs of whole and split requests under a clock that only advances, and the
  invariant. `Guarantees`, `Integrity`, `Settlement`, `CaseTracking`, `History`: what every run therefore
  satisfies. `Stranded`: the failures outside the side condition. Runs may also contain executions whose save
  is lost; conservation, receipts and approval integrity hold over those too, agreement does not.
- `Outcomes`: what each request does, on the facts of the case and the record: when it goes through, exactly what
  it writes, and why it is refused.
- `EventChain`, `AppendLog`: the audit chain and its optimistic appenders.
- `Idempotency`, `SecretMask`, `LoginLimiter`, `EnvFile`: replay of keyed requests, the masked
  configuration lens, the login limiter, the `.env` merge.

Modelling choices. A digest is modelled by what it digests: the payload hash is the payload, an action's
idempotency key is its case and payload, a transaction id is the triple it is computed from. In
`EventChain` and `AppendLog` the hash is an arbitrary function; tamper evidence is stated without assuming
it injective, by naming a row of each chain whose texts differ and have the same digest. The body fingerprint of a keyed request and the test
for sensitive key names are arbitrary functions too. Times are integers (reals in the login limiter), money
is `nat`, the refund rate is a real, and recovery factors are tenths rounded half to even. The store's
unique indexes are modelled as the store's behaviour. A case's stored decision is kept as the facts it was
computed from, and those facts are arbitrary.

Where the code and its own words disagree, the model follows the code:

- `routers/after_sales.py:346-348` says an approval never ends up approved but unfunded. Two administrators
  who read the same half-signed, already funded record break this: the loser's roll-back releases money it
  did not reserve (`History.RivalSecondSignatures`, `History.RivalsCanMeet`). A losing approval is harmless
  exactly when it made its own reservation or nothing is left to release (`History.LosingKeepsAgreementExactly`).
- A supplement that changes a case's order while a creation for it is between its read and its insert
  strands the new record between two orders. A record that landed funded executes if and only if the order did
  not change or the new order happens to hold enough frozen money (`Stranded.MovedThenExecuted`); once it is
  swept, the ledger agrees with the records on the old order if and only if the order did not change
  (`Stranded.MovedThenSwept`, and `Stranded.StrandedInvalidation` for a further supplement). A record that landed
  unfunded breaks agreement when it is signed, under the same condition (`Stranded.MovedThenApproved`). A run of
  five requests gets there (`Stranded.MovedCaseCanStrand`).
- The promise that an approval is funded also fails when a captured execution's save is lost and its case is then supplemented: the release
  pays itself from other reservations on the order (`Guarantees.ReleasingACapturedRecord`), and an approved
  refund of another case can end up unfunded (`Stranded.LostCaptureCanStarve`).
- `repository.py:292-294` says rewriting a `trace_id` or `run_id` always breaks the chain. A rewrite of one of
  them, or of any single field, always shows, colons or not (`EventChain.OneFieldRewriteChangesHead`). A
  rewrite of both can go unnoticed if and only if one of the two ids holds a colon, by moving that colon
  (`EventChain.IdRewriteUnnoticedExactly`, `EventChain.ColonsDefeatTheEncoding`).
- `routers/mcp.py:226-230` says `***` is replaced by the stored secret and only accepted for keys that already
  exist. An accepted `***` is replaced if and only if both trees can be followed to its path
  through dictionaries and lists of equal length, and is otherwise stored as it is
  (`SecretMask.StarsStoredExactly`): under a new parent (`SecretMask.StarsStoredUnderNewParent`), and in a list
  sent back with one entry more, where the stars overwrite every stored secret
  (`SecretMask.GrownListLosesSecrets`). `SecretMask.RejectedExactly` says when a merge is refused.
- The reaper's save does not raise the record's version (`repository.py:43-47`), so "every write raises the
  version" holds for every write but that one (`Protocol.Evolves`).

## Model

| member | source | states |
|---|---|---|
| Guarantees.ReservedIsRecorded | backend/app/gateway/routers/after_sales.py:324-500 | after any history of whole requests, an order's frozen money is exactly the sum of the reserved records on it |
| Guarantees.ReservedIsRecordedOrInFlight | backend/app/gateway/routers/after_sales.py:349-358 | the same for any admissible interleaving of split approvals and creations, counting what requests in flight pledged |
| Agreement.RunKeeps | backend/app/after_sales/operations.py:83-245 | the whole invariant (ledger equals records, one live record per case, live record's order is its case's order, every receipt belongs to one completed record) survives every admissible run |
| Agreement.StepKeeps | backend/app/gateway/routers/after_sales.py:324-500 | one step of any kind keeps that invariant, drops no record and changes records only along the permitted life cycle |
| Agreement.SupplementKeeps | backend/app/after_sales/operations.py:122-146 | a supplement keeps the invariant although it changes the case's order under money keyed by the old one |
| Agreement.ReassessKeeps | backend/app/after_sales/operations.py:131-146 | a case may change its order without disturbing the books once it has no live record and no creation in flight on another order |
| Agreement.ReleaseIsExact | backend/app/after_sales/actions.py:261-267 | while ledger and records agree, the clamp in a release never bites: the ledger holds at least what any reserved record holds |
| Guarantees.LoserLeavesNoTrace | backend/app/gateway/routers/after_sales.py:353-358 | a request that lost the version or uniqueness race changes no record and no case and returns exactly the amount it froze, whatever happened in between |
| Guarantees.ApprovedMeansFunded | backend/app/after_sales/actions.py:296-332 | in a sound desk a refund executes if and only if the request itself is in order; the money is never the reason for a refusal |
| Guarantees.ApprovedMeansFundedAlways | backend/app/after_sales/operations.py:214-245 | over every admissible history an approved, unexpired refund that needs no return completes with its own payload and version, and captures exactly its amount |
| Guarantees.SigningSucceedsExactly | backend/app/gateway/routers/after_sales.py:324-379 | a signature is accepted if and only if the signer's role, the version, the deadline and the distinctness of signers are right, and an unfunded refund fits what is available |
| Guarantees.RefusalsChangeNothing | backend/app/gateway/routers/after_sales.py:324-500 | a refused signature, rejection or execution leaves records, cases, ledger and stock exactly as they were |
| Guarantees.RefusedCreationChangesNothing | backend/app/after_sales/operations.py:192-201 | a refused creation, including one refused after it reserved, leaves every balance as it was |
| Guarantees.LostSavesAreHarmlessToRetry | backend/app/after_sales/actions.py:318-332 | any number of executions whose save was lost, followed by one whose save arrives, equal a single execution: one debit, one shipment, one transaction id |
| Guarantees.ReleasingACapturedRecord | backend/app/after_sales/operations.py:122-130 | a record captured without its save being stored and then superseded is released from other reservations on the order; they stay whole exactly when there are none |
| Guarantees.RecordsAreUnique | backend/packages/harness/deerflow/persistence/after_sales/model.py:50-69 | in every reachable state no case has two live records and no case carries one payload twice |
| Guarantees.SweptExactly | backend/app/after_sales/repository.py:217-235 | a sweep clears the flag of every live reserved record past its deadline, however long past, and leaves every other record and every case alone |
| Guarantees.SweepReturnsTheOverdue | backend/app/after_sales/repository.py:28-49 | after a sweep every reserved record is within its deadline, and exactly the money reserved past a deadline has returned, ledger and records still equal |
| Guarantees.SecondSweepIsIdle | backend/app/after_sales/repository.py:217-235 | a second sweep at the same time finds and moves nothing |
| Guarantees.SweptLapses | backend/app/after_sales/repository.py:41-47 | a swept record lapses: expired, unfunded, and no request in flight can still sign it, although the sweep leaves its version alone |
| Guarantees.SweptStaysDead | backend/app/after_sales/actions.py:200-219 | over every admissible continuation a lapsed record is never signed, approved or captured |
| Integrity.ApprovalIntegrity | backend/app/after_sales/actions.py:86-163 | in every run, split requests and lost saves included, a completed refund pays the lesser of what was asked and what was left on a covered claim of its case that had its evidence and wanted no goods back, and carries at least the signatures that claim needs, pairwise distinct, by administrators, without the requester's; unsigned ones came from the lowest tier below both limits, and a four-eyes decision always has two |
| Integrity.RunConserves | backend/app/after_sales/actions.py:251-286 | no history of requests, however they overlap and whichever saves are lost, creates or loses money on an order |
| Integrity.RunConservesStock | backend/app/after_sales/reverse_execution.py:158-169 | nor a unit of tracked stock |
| Outcomes.DraftedExactly | backend/app/after_sales/operations.py:168-191 | a case can be drafted exactly when it is ready and its plan is a claim that is paid, or a returnless resend of a known item |
| Outcomes.RefundDraft | backend/app/after_sales/actions.py:67-109 | the draft of a claim: amount, return condition, status, signatures and deadline, each from the facts |
| Outcomes.ResendDraft | backend/app/after_sales/actions.py:112-136 | the draft of a resend carries the planned item, order and cost, and waits for one signature |
| Outcomes.CreationSucceedsExactly | backend/app/after_sales/operations.py:168-211 | a creation goes through if and only if the case is the requester's own and can be drafted, the record is its only live one and the only one with its payload, and the money is there if no signature is needed; what is stored is the draft, funded in that case only |
| Outcomes.SignedExactly | backend/app/gateway/routers/after_sales.py:339-358 | an accepted signature writes exactly one signer, the next version, the status by the count, and a reservation of an unfunded refund |
| Outcomes.SigningOnAnyDesk | backend/app/gateway/routers/after_sales.py:324-354 | on any desk, agreed or not, when a signature is accepted: the money must be there on the order the record names and on its case's order |
| Outcomes.RejectionSucceedsExactly | backend/app/after_sales/actions.py:176-219 | a rejection is accepted if and only if an administrator other than the requester, with a comment and the current version, rejects a waiting record before its deadline |
| Outcomes.RejectedExactly | backend/app/gateway/routers/after_sales.py:409-426 | an accepted rejection leaves the record rejected and unfunded and its money back on the case's order |
| Outcomes.ResendSucceedsExactly | backend/app/after_sales/actions.py:335-360 | a resend executes if and only if the request is in order and the item is on the shelf, already sent, or not tracked |
| Outcomes.ResendTakesOneUnit | backend/app/after_sales/actions.py:354-360 | an executed resend takes one unit of its own item, once per key, and carries the reference of a resend of it |
| Outcomes.RefundOnAnyDesk | backend/app/after_sales/actions.py:296-332 | on any desk, agreed or not, when a refund executes |
| Outcomes.RefundPaysExactly | backend/app/after_sales/actions.py:316-332 | an executed refund completes its record with its own receipt, wants no goods back, and takes its amount from its order's reservation once |
| Outcomes.SupplementedExactly | backend/app/after_sales/operations.py:122-146 | a supplement stores exactly the order, status and decision it brings, rejects and unfunds exactly the case's live records, and leaves every other case and record alone |
| Outcomes.SupplementIsDrafted | backend/app/after_sales/operations.py:131-191 | the next draft after a supplement is the one its new decision calls for |
| Outcomes.SupplementIsResent | backend/app/after_sales/operations.py:131-183 | the same for a resend |
| Outcomes.LateSaveMarksCase | backend/app/after_sales/repository.py:107-126 | a split save marks its case if and only if the case is as it was read |
| Outcomes.StepsAreRequests | backend/app/gateway/routers/after_sales.py:273-500 | a step of a run leaves the desk exactly as the request it stands for, so the run theorems speak about the handlers |
| Outcomes.ListingStepsAreRequests | backend/app/gateway/routers/after_sales.py:238-263 | the same for a supplement and a sweep |
| Outcomes.SplitThenFinished | backend/app/gateway/routers/after_sales.py:324-379 | a split signature or creation with nothing in between is the whole request |
| Outcomes.SigningRefusedTruthfully | backend/app/gateway/routers/after_sales.py:310-360 | a refused signature names a reason that holds |
| Outcomes.RejectionRefusedTruthfully | backend/app/after_sales/actions.py:185-219 | so does a refused rejection |
| Outcomes.ExecutionRefusedTruthfully | backend/app/after_sales/actions.py:305-353 | so does a refused execution |
| Outcomes.CreationRefusedTruthfully | backend/app/after_sales/operations.py:168-201 | so does a refused creation, in order: the case, the draft, the money, the record in the way |
| Settlement.CapturedIsRecorded | backend/app/after_sales/actions.py:318-332 | in every reachable state the money captured on an order is the sum of the completed refunds recorded on it |
| Settlement.LostCaptureIsReplayed | backend/app/after_sales/actions.py:277-286 | after an execution whose save was lost and then any history at all, an execution under the same key returns the first reference and moves no money and no stock |
| Settlement.ReceiptsStay | backend/app/after_sales/actions.py:277-286 | over any history, lost saves included, whatever was paid or sent under a key keeps its reference |
| CaseTracking.CasesTrackRecords | backend/app/gateway/routers/after_sales.py:373-446 | after any history of whole requests, a live record's case exists, names the record's order and shows the record's own status |
| History.RecordsOnlyAdvance | backend/app/after_sales/repository.py:237-251 | over any history records keep identity, payload and deadline, gain signatures only, never return to pending, and rejected or completed ones never change |
| History.CompletedWasApproved | backend/app/after_sales/actions.py:306-332 | a record that completes was approved in an earlier state of the same run |
| History.AtMostOneCommit | backend/app/after_sales/repository.py:202-246 | no two steps of an admissible run, whole or split, rewrite the same version of a record: signatures, rejections, executions and invalidations that read it exclude each other |
| History.OneCommitPerVersion | backend/app/after_sales/repository.py:237-246 | once a version has been left behind, every signature, rejection or execution that read it is refused |
| History.CommitMovesVersion | backend/app/after_sales/actions.py:163-197 | every signature, rejection, execution or invalidation that goes through leaves the version it read behind |
| History.SplitCommitMovesVersion | backend/app/gateway/routers/after_sales.py:353-354 | so does the save of a split signature, over exactly the row it read |
| History.RivalSecondSignatures | backend/app/gateway/routers/after_sales.py:355-358 | two overlapping last signatures on an already funded record end with it approved and reserved and the ledger short by exactly its amount |
| History.RivalsCanMeet | backend/app/gateway/routers/after_sales.py:349-358 | the state in which that happens is reachable from an empty desk by three requests |
| History.LosingKeepsAgreementExactly | backend/app/gateway/routers/after_sales.py:353-358 | with any number of rivals in flight, a losing approval keeps the ledger equal to what records hold and requests really froze if and only if it made its own reservation or nothing is left to release |
| History.AccountedIsAgreed | backend/app/gateway/routers/after_sales.py:349-358 | in a sound desk, counting what requests really froze is the same as counting what they pledge |
| Stranded.MovedCaseStrandsCreation | backend/app/after_sales/operations.py:192-210 | a creation landing after a supplement keeps the books in agreement, but holds its money on the order it read, which is its case's order if and only if the supplement kept it |
| Stranded.StrandedSweep | backend/app/after_sales/repository.py:28-49 | releasing an overdue record keeps agreement on its order if and only if that is still its case's order; otherwise its amount stays frozen for no record and the new order is short by what was released |
| Stranded.MovedThenSwept | backend/app/after_sales/repository.py:41-47 | the two together, for a record that landed funded: agreement on the order it froze money on survives if and only if the supplement kept that order |
| Stranded.StrandedInvalidation | backend/app/after_sales/operations.py:122-130 | superseding a funded record keeps agreement on its order if and only if that is still its case's order |
| Stranded.StrandedApproval | backend/app/gateway/routers/after_sales.py:349-354 | signing an unfunded refund keeps agreement on the order it names if and only if that is still its case's order; otherwise one order is short by the amount and the other holds it for nobody |
| Stranded.MovedThenApproved | backend/app/gateway/routers/after_sales.py:349-354 | a record that landed unfunded and is then signed keeps agreement if and only if the supplement kept its order |
| Stranded.MovedThenExecuted | backend/app/after_sales/operations.py:227-233 | a record that landed approved executes if and only if the supplement kept its order or the new order holds enough frozen money |
| Stranded.MovedCaseCanStrand | backend/app/after_sales/operations.py:122-210 | from a desk with only a balance, five requests leave the whole balance frozen for no record and no request in flight |
| Stranded.LostCaptureCanStarve | backend/app/after_sales/operations.py:122-130 | from a desk with only a balance, six requests with one lost save leave an approved, unexpired, reserved refund that is refused for want of money |
| Gateway.Gateway.Approve | backend/app/gateway/routers/after_sales.py:324-379 | the handler's guards, reservation, conditional save and roll-back yield exactly the specified new desk and reply, and keep the invariant |
| Gateway.Gateway.BeginApprove | backend/app/gateway/routers/after_sales.py:326-352 | everything up to the save: refused without any effect, or frozen exactly the specified money |
| Gateway.Gateway.FinishApprove | backend/app/gateway/routers/after_sales.py:353-378 | the conditional save with its roll-back, on whatever the store has become since the read |
| Gateway.Gateway.CreateCaseAction | backend/app/after_sales/operations.py:168-211 | creation does exactly what is specified, including release on a lost insert, and keeps the invariant |
| Gateway.Gateway.BeginCreate | backend/app/after_sales/operations.py:168-195 | drafting and reserving, before the insert |
| Gateway.Gateway.FinishCreate | backend/app/after_sales/operations.py:196-211 | the insert with its roll-back, on whatever the store has become since the read |
| Gateway.Gateway.Reject | backend/app/gateway/routers/after_sales.py:409-447 | rejection does exactly what is specified and keeps the invariant |
| Gateway.Gateway.ExecuteCaseAction | backend/app/after_sales/operations.py:214-245 | execution does exactly what is specified and keeps the invariant |
| Gateway.Gateway.InvalidateActiveActions | backend/app/after_sales/operations.py:122-130 | the loop retires every listed record and gives back every reservation, once each |
| Gateway.Gateway.ContinueIntakeCase | backend/app/after_sales/operations.py:83-165 | a supplement retires exactly the case's live record, replaces the facts, and keeps the invariant |
| Gateway.Gateway.ReleaseExpiredReservations | backend/app/after_sales/repository.py:28-49 | the reaper visits exactly the overdue reservations, once each, and keeps the invariant |
| Gateway.AfterSalesRepository.SaveAction | backend/app/after_sales/repository.py:237-251 | compare-and-swap on the version, and on the case's owner when one is given: all or nothing |
| Gateway.AfterSalesRepository.CreateAction | backend/app/after_sales/repository.py:146-169 | an insert is refused exactly for a foreign case, a second live record or a repeated key |
| Gateway.AfterSalesRepository.UpdateCase | backend/app/after_sales/repository.py:107-126 | compare-and-swap on the case's owner and version |
| Ledger.MockRefundExecutor.TryReserve | backend/app/after_sales/actions.py:251-259 | succeeds exactly when the amount is available, and otherwise changes nothing |
| Ledger.MockRefundExecutor.GiveBack | backend/app/after_sales/actions.py:261-267 | returns at most what is reserved, to the same order |
| Ledger.MockRefundExecutor.Capture | backend/app/after_sales/actions.py:277-286 | debits once per key, replays the receipt afterwards, and changes nothing when refused |
| Ledger.Conservation | backend/app/after_sales/actions.py:251-286 | available, reserved and captured money of an order add up to the same total over any sequence of calls, and captured money never falls |
| Ledger.SingleCapture | backend/app/after_sales/actions.py:277-286 | after one capture, a later refund under the key, for any order and amount and after any calls, returns the first receipt and moves nothing |
| Ledger.ReceiptsAreFinal | backend/app/after_sales/actions.py:277-286 | an issued receipt stays, unchanged, over any sequence of calls |
| Ledger.ReserveThenRelease | backend/app/after_sales/actions.py:251-267 | a release undoes a reservation on every order |
| Ledger.ReserveMoves | backend/app/after_sales/actions.py:251-259 | a reservation moves exactly its amount on its own order, and is refused only for want of it |
| Ledger.ReleaseMoves | backend/app/after_sales/actions.py:261-267 | a release moves its amount back, or all there is if less, on its own order |
| Ledger.RefundMoves | backend/app/after_sales/actions.py:277-286 | a new key takes its amount from its order's reservation or is refused; a known key moves nothing |
| Dispatch.MockReverseExecutor.Dispatch | backend/app/after_sales/reverse_execution.py:158-169 | takes one unit once per key, and refuses without effect when out of stock |
| Dispatch.DispatchMoves | backend/app/after_sales/reverse_execution.py:158-169 | only a resend under a new key needs and takes one tracked unit, of its own item; a known key answers with its first shipment |
| Dispatch.StockConserved | backend/app/after_sales/reverse_execution.py:158-169 | stock plus distinct resends of a SKU is constant over any sequence of dispatches, and references never change |
| EventChain.VerifyEventChain | backend/app/after_sales/repository.py:340-356 | the loop accepts exactly the valid chains and otherwise reports the first broken row |
| EventChain.EncodeInjective | backend/app/after_sales/repository.py:292-298 | the colon-joined text determines every field when the fields before the metadata have no colon, up to an absent run or trace id being the empty one |
| EventChain.OneFieldShows | backend/app/after_sales/repository.py:292-298 | a rewrite of any one field changes the text, whatever the fields contain, unless it hashes as the same event |
| EventChain.IdRewriteUnnoticedExactly | backend/app/after_sales/repository.py:292-298 | some rewrite of an event's run and trace ids has the same text if and only if one of the two holds a colon |
| EventChain.RewriteUnnoticedExactly | backend/app/after_sales/repository.py:292-298 | some rewrite of an event's fields before the metadata has the same text if and only if one of those fields holds a colon |
| EventChain.ColonsDefeatTheEncoding | backend/app/after_sales/repository.py:292-298 | two such events, differing in both ids, with empty metadata |
| EventChain.SameHeadSameHistory | backend/app/after_sales/repository.py:340-356 | two verifying chains with the same head hash have the same length and agree on every hashed field, or a row of each has a different text with the same digest |
| EventChain.RewriteChangesHead | backend/app/after_sales/repository.py:340-356 | any rewrites of colon-free fields of a chain that still verifies change its head hash, or two of its texts clash |
| EventChain.OneFieldRewriteChangesHead | backend/app/after_sales/repository.py:340-356 | rewriting one field of one event and re-hashing changes the head hash, or the texts of some row clash; colons are no obstacle |
| AppendLog.InterleavedAppendsNeverFork | backend/app/after_sales/repository.py:253-356 | however many appenders interleave, each case's rows are numbered 1..n, each links to its predecessor, and the verifier's listing by seq is valid |
| AppendLog.GivingUpTakesEightRivals | backend/app/after_sales/repository.py:280-324 | a call that gives up has seen at least eight distinct rows committed by others on its case since it began |
| AppendLog.CommitExactly | backend/app/after_sales/repository.py:312-336 | a writer commits if and only if its case has gained no row since its claim, with its own event next on the chain; otherwise the attempt is lost and the eighth is the last |
| AppendLog.AloneCommitsAtOnce | backend/app/after_sales/repository.py:280-336 | a writer with nobody in between commits at the first attempt |
| AppendLog.AcceptsExactly | backend/packages/harness/deerflow/persistence/after_sales/model.py:97 | on a chained table the unique index refuses a claimed seq exactly when the case already has that many rows |
| AppendLog.SortedListing | backend/app/after_sales/repository.py:347-348 | ordering a case's rows by seq restores the order they were committed in |
| AppendLog.EventStore.TryAppend | backend/app/after_sales/repository.py:281-319 | one attempt fails exactly when someone touched the case after its read, and otherwise continues the chain as it was read |
| AppendLog.EventStore.AppendEvent | backend/app/after_sales/repository.py:280-338 | the loop commits in the first round nobody else touches the case and fails only when all eight were contested; the table stays chained either way |
| Idempotency.RunOnceThenReplay | backend/app/gateway/routers/after_sales.py:87-117 | over any interleaving, requests of one key follow one another and its successes are a TTL apart; every request while a success is fresh gets exactly that response if its body matches and is refused if not, running nothing; every other request runs, and so does every request without a key |
| Idempotency.ArriveThenFinish | backend/app/gateway/routers/after_sales.py:104-117 | taking the lock and answering, with nothing in between, is exactly the single request the store's method performs |
| Idempotency.InMemoryIdempotencyStore.ReplayOrRun | backend/app/gateway/routers/after_sales.py:87-117 | one request under its lock: runs exactly on a miss, stores exactly a success, and touches no other key |
| Idempotency.InMemoryIdempotencyStore.LookUp | backend/app/after_sales/idempotency.py:133-149 | hit, conflict or miss, forgetting an expired record |
| Idempotency.InMemoryIdempotencyStore.Store | backend/app/after_sales/idempotency.py:151-167 | the first stored response stays |
| Idempotency.FirstStoredStays | backend/app/after_sales/idempotency.py:151-167 | a stored response is never replaced, and storing touches no other key |
| SecretMask.ConfigGetPut | backend/app/gateway/routers/mcp.py:191-295 | reading a configuration and sending it back changes nothing, whether or not routing and tools are sent |
| SecretMask.ConfigPutGet | backend/app/gateway/routers/mcp.py:191-295 | after an update, what is shown is the update masked plus the kept extras masked; no extra is lost and every value sent is the value kept, stars keep the stored one, an OAuth secret is kept, cleared or replaced as sent, and routing and tools change only when sent |
| SecretMask.StringsMergedExactly | backend/app/gateway/routers/mcp.py:237-261 | variables and headers: exactly the keys sent remain, with the values sent or, for stars, the stored ones; refused if and only if stars name an unknown key |
| SecretMask.ConfigHidesSecrets | backend/app/gateway/routers/mcp.py:191-215 | what is shown holds no variable, header or OAuth secret and no secret in the extras, and every other field as it is |
| SecretMask.ConfigRejectedExactly | backend/app/gateway/routers/mcp.py:218-291 | an update is refused if and only if stars stand for something not stored |
| SecretMask.SentStays | backend/app/gateway/routers/mcp.py:113-137 | anything else sent, at any path, is kept as sent |
| SecretMask.GetPut | backend/app/gateway/routers/mcp.py:105-137 | merging a masked tree into its original gives the original back, at any depth |
| SecretMask.PutGet | backend/app/gateway/routers/mcp.py:105-137 | masking the result of a merge is masking what was sent |
| SecretMask.MaskIdempotent | backend/app/gateway/routers/mcp.py:105-110 | masking what is already masked changes nothing |
| SecretMask.NothingLeaks | backend/app/gateway/routers/mcp.py:105-110 | along every path, a value directly under a sensitive key is shown as stars or not at all |
| SecretMask.MergeByPath | backend/app/gateway/routers/mcp.py:113-137 | stars sent at a sensitive path that exists through dictionaries and equal-length lists become the stored value at that path; other scalars stay as sent |
| SecretMask.RejectedExactly | backend/app/gateway/routers/mcp.py:113-120 | a merge is refused if and only if some stars sit under a sensitive key that the stored parent lacks |
| SecretMask.StarsStoredExactly | backend/app/gateway/routers/mcp.py:113-137 | stars under a sensitive key of an accepted merge become the stored value if both trees can be followed to them, and are stored as stars in every other case |
| SecretMask.StarsStoredUnderNewParent | backend/app/gateway/routers/mcp.py:113-137 | under a parent the stored configuration lacks, stars are stored as a value |
| SecretMask.GrownListLosesSecrets | backend/app/gateway/routers/mcp.py:134-137 | a list of entries sent back as shown with one more entry overwrites every secret in it with stars |
| SecretMask.MergeStringsInto | backend/app/gateway/routers/mcp.py:237-261 | the key-by-key loop restores every known starred key, keeps the rest, and refuses on an unknown starred key |
| LoginLimiter.FiveGuessesPerWindow | backend/app/gateway/routers/auth.py:243-312 | whatever happened before and whatever other addresses do, a window of less than 300 seconds without a success holds at most five evaluated failures of one address |
| LoginLimiter.GuessesWithinAllowance | backend/app/gateway/routers/auth.py:243-282 | how many failures a record still allows, as a potential that every evaluated failure spends |
| LoginLimiter.SixthIsBlocked | backend/app/gateway/routers/auth.py:243-282 | five failures of an address without a record, interleaved with anyone else's, are all evaluated, and after them nothing is, right or wrong, until exactly 300 seconds after the fifth |
| LoginLimiter.LockoutStartsOver | backend/app/gateway/routers/auth.py:249-255 | once a lockout has run out, five more failures are evaluated and the address is locked again until 300 seconds after the fifth |
| LoginLimiter.AttemptExactly | backend/app/gateway/routers/auth.py:243-312 | what one attempt answers and what record it leaves |
| LoginLimiter.EvictionExactly | backend/app/gateway/routers/auth.py:264-274 | eviction touches nothing below ten thousand entries, then drops every lockout that has run out, and half of the rest only if ten thousand remain |
| LoginLimiter.LoginAttempts.Login | backend/app/gateway/routers/auth.py:294-312 | the table never outgrows its cap, outcomes depend on the address's own record only, and a blocked attempt changes nothing |
| LoginLimiter.LoginAttempts.EvictHalf | backend/app/gateway/routers/auth.py:271-274 | exactly half goes, and nothing that goes locks later than anything that stays |
| LoginLimiter.LoginAttempts.RecordFailure | backend/app/gateway/routers/auth.py:261-282 | one more failure on what eviction left |
| EnvFile.FileRoundTrip | scripts/wizard/writer.py:21-62 | reading after writing is the old mapping overridden by the pairs, as file text, duplicate keys and a missing file included |
| EnvFile.FileWriteTwice | scripts/wizard/writer.py:36-62 | writing the same pairs again leaves the file's text as it is |
| EnvFile.UntouchedLinesStay | scripts/wizard/writer.py:48-60 | comments, blanks and other settings keep content and place; new settings come last |
| EnvFile.LineRoundTripsExactly | scripts/wizard/writer.py:27-32 | a written setting reads back as itself if and only if key and value are trimmed and the key has no equals sign and no leading hash |
| EnvFile.PaddedSettingReads | scripts/wizard/writer.py:26-32 | a setting reads the same with any spaces around its key, equals sign and value, and its value may hold equals signs |
| EnvFile.IgnoredExactly | scripts/wizard/writer.py:26-30 | a line makes no setting if and only if, without surrounding spaces, it is empty, starts with a hash or has no equals sign |
| EnvFile.BreaksEndLines | scripts/wizard/writer.py:44 | any break character ends a line, and a carriage return with its line feed ends just one |
| EnvFile.SplitJoin | scripts/wizard/writer.py:44-62 | cutting written text into lines gives the lines back; only the empty file becomes one empty line |
| EnvFile.ReadEnvLines | scripts/wizard/writer.py:21-33 | the reading loop computes the mapping the lemmas are about |
| EnvFile.WriteEnvLines | scripts/wizard/writer.py:36-60 | the merging loops compute the lines the lemmas are about |
| RiskScoring.AssessRisk | backend/app/after_sales/risk_scoring.py:68-151 | the accumulating form agrees with the declarative scorecard on score, level, tier and listed contributions |
| RiskScoring.ScoreIsListedPoints | backend/app/after_sales/risk_scoring.py:62-151 | the score is the listed points capped at 100: nothing counts that is not shown |
| RiskScoring.ListedExactly | backend/app/after_sales/risk_scoring.py:75-122 | every raised signal is listed exactly once, at its own worth, and nothing else is |
| RiskScoring.LevelOnSignals | backend/app/after_sales/risk_scoring.py:124-133 | two signals are decisive, two have a medium floor, and the rest go by the points at 60 and 30 |
| RiskScoring.OneSignalAlone | backend/app/after_sales/risk_scoring.py:75-133 | the score and level each signal gives by itself |
| RiskScoring.AssessMonotone | backend/app/after_sales/risk_scoring.py:75-151 | more suspicion or a higher amount never lowers score, level or tier |
| Decision.DecisionMonotone | backend/app/after_sales/decision.py:15-119 | raising any stake or suspicion never lowers the refund, score, level, tier or signatures needed and never removes an approval reason |
| Decision.AutoPaysExactly | backend/app/after_sales/decision.py:94-119 | a decision needs no signature if and only if it is within both limits and in the lowest tier, and two if and only if it is high risk and large |
| Decision.DecidedOnFacts | backend/app/after_sales/decision.py:15-54 | a claim is paid if and only if it is covered, has its evidence and has money left; otherwise nothing is paid and the reason is the first that fails |
| Decision.PaidOnFacts | backend/app/after_sales/decision.py:55-119 | a paid claim pays the lesser of what was asked and what is left, waits for the goods if and only if the policy wants them, and needs approval for exactly the reasons that apply |
| Decision.FlaggedOnFacts | backend/app/after_sales/decision.py:62-91 | the assessment sees the claim's own signals, and exactly the flags that apply are raised |
| Decision.RefundBounded | backend/app/after_sales/decision.py:15-119 | a refund never exceeds what was paid nor what is left to refund |
| Reverse.CheapestRoute | backend/app/after_sales/reverse.py:105-162 | the chosen route costs the lesser of returning and not returning for the remedy the customer gets; a tie returns; a held case commits no money |
| Reverse.HeldExactly | backend/app/after_sales/reverse.py:70-100 | which cases are decided and which of those are held: a serial mismatch holds every issue but a wrong item |
| Reverse.RoutedExactly | backend/app/after_sales/reverse.py:105-162 | the remedy, the grade and the notes of a routed case |
| Reverse.RecoveryExactly | backend/app/after_sales/reverse.py:165-174 | what damaged goods are still worth: all, seven tenths, four tenths or nothing, to the nearest whole |
| Reverse.WorseDamage | backend/app/after_sales/reverse.py:169-174 | worse damage never lowers the cost and never turns a returnless choice back into a return, rounding included |
| Reverse.RoundsToNearestEven | backend/app/after_sales/reverse.py:101-106 | the recovery value is rounded to the nearest whole, a tie to an even number |

## Left out

- Guarantees.LostSavesAreHarmlessToRetry: back-to-back retries only; retries with other requests in between are `Settlement.LostCaptureIsReplayed`, and agreement of ledger and records is not claimed after a lost save.
- Process restart: the ledger lives in memory and the records do not, so agreement is claimed within one process lifetime.
- HTTP, SQL sessions, serialization, status codes, metrics, logging and asynchronous plumbing; only the order of guards, updates and roll-backs is kept.
- Fields that carry no money or permission: comments, `approved_by`, `approved_at`, `next_step`, reply texts, policy references; and `settle`/`is_settled`.
- Audit events written inside the handlers: the chain is modelled on its own, and a failing append after a save is not.
- Interleaving a rejection, supplement, sweep or execution inside another handler: each is one step, because its release is not tied to the outcome of its save. Approvals of already reserved records may not be split either, and `History` shows why.
- Desk.InvalidateAll: the source first rejects every listed action and then releases and saves each reserved one; here the two writes of one record follow each other. A case has at most one live record, so the loop handles one.
- Gateway.AfterSalesRepository.CreateAction: the check for a live record and the unique index are one atomic refusal.
- Gateway.Gateway.ReleaseExpiredReservations: requires every record's case to exist, which the foreign key guarantees.
- AppendLog: the check that the case exists, event ids and timestamps, and the back-off delay between attempts.
- LoginLimiter.FiveGuessesPerWindow: stated below the eviction cap, since an evicted address starts over; attempts are sequential.
- Idempotency: the SQL store, whose lookup and store keep the same contract with a unique row in place of a dictionary key.
- SecretMask: the regular expression that classifies key names, and the validation of commands.
- EnvFile: character encodings; text is a sequence of characters cut at the line breaks Python recognises.
- Reverse: binary floating point in `expected_recovery * factor`; the factors are exact tenths here, so products that binary arithmetic places just beside a tie may round differently.
- Extraction of facts from complaint texts, mock data and the operator limit by role: decisions are taken on arbitrary facts.
- The disposition graph, failure taxonomy, tool policy, knowledge health and the scheduler: finite tables, counters, or machines whose repositories are elsewhere.
- Agents, tools, MCP and retrieval clients, OIDC, CSRF, the frontend and the wizard's screens.
