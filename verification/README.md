# LinkLoom evaluation harness: a verified model

LinkLoom's evaluation harness spends real money on model requests, cuts meetings into windows and carries evidence back
to the original text, keeps sealed run directories honest while a worker thread may come back late, and scores the
answers of a judge. This project models those protocols and algorithms in Dafny and proves what they promise. Run
`dafny verify dfyconfig.toml` to check all of it.

## The parts

- **Paid-request ledgers.** `SharedLedger` gives each operation of the two-stage shared budget as a function of the
  ledger and the receipts on disk; `SharedBudget.dfy` has the classes whose methods do the same step by step.
  `SharedRuns` runs them with writes that raise, deaths and reopenings, `SharedOrphans` is about receipts without a
  row, `SharedAdapter` drives a provider that may do anything while any write may raise, `SharedScope` adds the
  extractor's guard and threads, `SharedThreads` two threads that both pass it.
  `DurableLedger`, `DurableRuns` and `DurableBudget.dfy` are the older budget. `Prices.dfy` has the price list of each,
  one token at a time, `Spending.dfy` what departed and what it cost.
  `AbstractLedger.dfy` shows that both refine one reserve, wire, settle, finish ledger.
- **Windows and evidence.** `Transcript`, `Chunks`, `SpeakerWindows`, `WindowSplitting`, `MeetingWindows`: from rows to
  offsets, to capped chunks, to rewritten lines, to windows under the caps. `Spans` carries evidence back, `Deduplicate`
  keeps one prediction for each piece of work. `TimestampedText` reads lines as the product's parser does, and
  `WindowReading` reads every window back with it.
- **Sealed run.** `SealedRun` gives every statement of the main thread and of the worker as a step of its own;
  `SealedSafety` is the invariant over all interleavings; `SealedTheorems` is what a reader of the directory may rely on,
  `SealedEvidence` what its terminals tell of the replies, `SealedReceipts` that no receipt is lost.
- **Scoring.** `Judging`, `FieldReview`, `Scoring`, `MicroScoring`, `Renaming`; `Evaluation` goes from the judge's answers
  to the report.
- **Runs and costs.** `Closure` (merging two sealed runs), `Recovery` (classification after a crash), `CostGate`
  (retries that never starve base attempts), `LiveRouting`, `DiagnosticLog`, `TemporalFixture`.

## What turned out otherwise

Where the code does not do what its design suggests, the code was kept and the exact condition proved.

- A reservation writes its request receipt before it saves the ledger. When the receipt raises half way, or the process
  ends before the reservation was saved, a receipt is left that no row accounts for (`SharedOrphans.OrphanAppearsIff`).
  If the ledger is idle then, it is not blocked and can never reserve again, in the living process as in any later one
  (`SharedLedger.ReserveDoneIff`, `SharedOrphans.OrphanedForever`, `TornReceiptWitness`, `LostSaveWitness`).
- `BudgetedAdapter.complete` does not check that a metered request is its own; on a reopened blocked ledger it can
  complete an earlier process's request (`SharedAdapter.StaleRequestCompletedIff`, `StaleRequestHappens`). The
  extractor's guard prevents it.
- A response that comes back through the adapter means that the ledger is saved, with one exception: the save of a
  ceiling may raise, the provider may swallow that, and the ledger in memory is blocked while the saved one is not
  (`SharedAdapter.ReturnedIsSaved`, `LostCeilingHappens`). Nothing was sent then.
- The guard on prior results is not held over an extraction. When a thread still has a sample's scope open while a
  result of that sample is saved, it may add a request afterwards, and the result cannot be read back any more
  (`SharedScope.ResultIsFinal`, `LateRequestNeedsOldScope`, `SharedThreads.LateRequestHappens`). The adapter keeps a
  scope for each thread and so allows it; the runner beside it extracts on one thread, where it cannot happen
  (`SharedScope.OneThreadSavesAlone`).
- The older budget's wire hook ignores a recorded failure (`DurableRuns.WireAfterFailureIff`, `WireAfterFailureHappens`).
  The class allows that order of calls; the runner beside it records a failure only in its outermost handler, before the
  SDK is closed (`scripts/eval_task_field_bindings.py` lines 457 to 461), and does not reach it.
- The live routing journal is rewritten in place, so a rewriting that stops half way loses it although requests were
  sent (`LiveRouting.SentIsJournaledIff`, `JournalLost`), exactly until a later rewriting lands
  (`JournalHasSentIff`, `JournalRestored`).
- The diagnostic log can be stopped although its last call is closed with success in both files: its last write raised
  after it had landed (`DiagnosticLog.ClosedButStoppedIff`, `ClosedButStoppedHappens`).
- Windows start where a search for line ends finds the last line of a head. A speaker name with a line end in it passes
  the checks, and then the head's first lines stand at the end of the window before (`WindowSplitting.SectionIsBody`).
- In the canary runner a transport can start after the run was closed, because the lock is released before the SDK is
  called (`SealedTheorems.LateTransportIff`). The request is then on file and its terminal says that the outcome is
  unknown; no request is recorded after closing.

## How the model reads the source

Money is exact (`real`, in dollars or millionths of a dollar), where the source uses floats with tolerances or decimals.
Hashes are injective: a digest stands for what was hashed. Files are maps with exclusive create, and with atomic replace
or rewriting in place as the source has it. What a provider returns, whether it raises or never answers, which writes
raise and what they leave, when a process dies and how threads interleave are arbitrary. A true cost is assumed for each
wire: at most its reservation, and no more than the metered cost once a response is settled.

The prompt-size part of the window test is an arbitrary predicate; `LongestIsLargest` assumes that a prompt still fits
when it ends earlier, and the exact refusal of `SpeakerWindowsOf` that a part of a prompt that fits fits. Word lists and,
but for the claim index of a task, regular expressions are arbitrary predicates, with two facts used: a deadline that
names the next meeting is not an abstention (`FieldReview.RulesAgree`), and a prediction always has a deadline field. The
reference schema that the adapter compares with is taken as read. The product's parser is followed for the pattern of
one line (`src/linkloom/semantic_ingestion/timestamped_text.py` lines 22 to 24), with lines that end in a line feed only;
which characters are white space and which stamps are times is arbitrary, and elsewhere the parser is an arbitrary value.
The session around the canary's provider may return with a timeout at any moment while the worker goes on; any other
return means the worker is done.
What recovery says about crashes is for plans that number their cases distinctly, and the manifest of a fixed run names
its cases by `qa_id`. Loading the gold file makes gold ids distinct over all meetings.

## Model

| member | source | states |
|---|---|---|
| `SharedBudgets.Verify` | scripts/eval_task_field_bindings_v2.py:233-272 | the check of a loaded ledger accepts exactly the verified ones: every row in scope and numbered, its receipts on disk as recorded, keys distinct, both totals and the wire count recomputed, cap kept |
| `SharedBudgets.Open` | scripts/eval_task_field_bindings_v2.py:193-219 | opening refuses exactly a changed protocol or limits or a ledger that fails the check, takes over any other, and blocks one that has an unfinished request |
| `SharedBudgets.SharedBudget.Reserve` | scripts/eval_task_field_bindings_v2.py:278-309 | one reservation changes memory, disk and receipts exactly as the ledger step says, whichever guard fires and whichever write raises; both ledgers stay sound |
| `SharedBudgets.SharedBudget.Wire` | scripts/eval_task_field_bindings_v2.py:316-326 | the wire hook marks the active reserved request once and saves that; refused, it changes nothing |
| `SharedBudgets.SharedBudget.Respond` | scripts/eval_task_field_bindings_v2.py:328-351 | the receipt is written before settling; bad usage or a cost above the reservation leaves the reservation charged, and a null usage record raises before the save |
| `SharedBudgets.SharedBudget.Finish` | scripts/eval_task_field_bindings_v2.py:353-362 | only a metered request completes |
| `SharedBudgets.SharedBudget.FailActive` | scripts/eval_task_field_bindings_v2.py:364-370 | an unfinished request is left unresolved and the ledger blocked |
| `SharedBudgets.SharedBudget.SaveResult` | scripts/eval_task_field_bindings_v2.py:372-386 | a result needs an approved sample with a core request, and every row of the sample then carries it |
| `SharedBudgets.SharedBudget.Prior` | scripts/eval_task_field_bindings_v2.py:388-403 | the stored result, nothing, or the exact error, as the ledger and the result file have it |
| `SharedBudgets.BudgetedAdapter.Complete` | scripts/eval_task_field_bindings_v2.py:423-459 | one provider request is refused by its guards without any effect, or is exactly the composed ledger step whichever write inside it raises; it leaves both ledgers sound and the one in memory idle or blocked, and a response that comes back is saved but for a lost ceiling |
| `SharedAdapter.CompleteAddsForScope` | scripts/eval_task_field_bindings_v2.py:423-459 | whatever the provider makes the transport do and whichever writes raise, an admitted request renames no row and adds at most one, under the key of its scope's sample, its stage and its task |
| `SharedAdapter.HasClaimIndexIff` | scripts/eval_task_field_bindings_v2.py:439-441 | a second-stage request is let through exactly when its task name has `_c` and digits up to its end or a last line end |
| `SharedAdapter.AdmittedIff` | scripts/eval_task_field_bindings_v2.py:423-445 | exactly two requests are let through under a scope: the extractor's with its one tool, the reference schema and the scope's prompt, and the one for task fields with its one tool and a claim index |
| `SharedAdapter.ReturnedIsSaved` | scripts/eval_task_field_bindings_v2.py:423-500 | a response that comes back means that what is in memory is saved, whatever raised and was swallowed on the way, unless a ceiling was met and its save lost |
| `SharedAdapter.LostCeilingHappens` | scripts/eval_task_field_bindings_v2.py:291-296 | a body of a million bytes gets there: the response comes back, the ledger in memory is blocked and the saved one is not |
| `SharedLedger.PerformSound` | scripts/eval_task_field_bindings_v2.py:278-386 | every operation, whatever its outcome, keeps the whole ledger invariant together with the receipts on disk |
| `SharedLedger.MeteredWithinReservation` | scripts/eval_task_field_bindings_v2.py:291-347 | tokens within the byte and output bounds never cost more than the reservation |
| `SharedLedger.ReopenedSound` | scripts/eval_task_field_bindings_v2.py:206-216 | reopening keeps the invariant, changes nothing but the block, and leaves an unfinished request blocked |
| `SharedLedger.AttemptSound` | scripts/eval_task_field_bindings_v2.py:278-386 | whichever receipt or save raises while the process goes on, the ledger in memory is sound beside the receipts, and so stays the saved one |
| `SharedLedger.ReserveDoneIff` | scripts/eval_task_field_bindings_v2.py:278-309 | a reservation succeeds exactly when no guard refuses it, there is room, and its receipt is not on disk yet |
| `SharedLedger.WireDoneIff` | scripts/eval_task_field_bindings_v2.py:316-326 | on a sound ledger the wire hook succeeds exactly for a genuine request, not blocked, with an active row not yet wired: its test of the counters never refuses alone |
| `SharedLedger.PriorResultIff` | scripts/eval_task_field_bindings_v2.py:388-403 | a result is read back exactly when it is the one result of every row of the sample and on disk unchanged; none without a row, an error while a row has none |
| `SharedLedger.SavedIff` | scripts/eval_task_field_bindings_v2.py:278-386 | what an operation does is saved whenever it does anything, but for a response with a null usage record, a receipt or save that raises, and a failure with nothing active |
| `SharedPrices.SettlesAtPrice` | scripts/eval_task_field_bindings_v2.py:328-351 | a response settles exactly when its usage reports tokens whose price, counted token by token, is within the reservation; that price then becomes known and takes the place of the reservation in the charge |
| `SharedPrices.TokenPrices` | scripts/eval_task_field_bindings_v2.py:328-351 | of two settled responses one token apart the second costs 0.75 millionths of a dollar more for a prompt token, 0.075 when it was cached, 3.75 for a token answered or thought; none cost nothing |
| `SharedPrices.ReservesWorstCase` | scripts/eval_task_field_bindings_v2.py:291-309 | a reservation charges the price of every token the request may use, and succeeds exactly while that stays within 60 cents and 256 requests |
| `SharedPrices.WorstCaseSuffices` | scripts/eval_task_field_bindings_v2.py:291-347 | no usage within those bounds costs more than was reserved |
| `SharedPrices.VerifiedIff` | scripts/eval_task_field_bindings_v2.py:233-272 | a ledger passes the check exactly when each row may follow those before it, by number, approved sample, key, price and receipts on disk, and every amount is what the rows add up to, within 60 cents and 256 requests |
| `SharedRuns.EverySavedStateReopens` | scripts/eval_task_field_bindings_v2.py:193-272 | over any run with writes that raise, deaths and reopenings, whatever was saved passes its own check, and an unfinished request is blocked when reopened |
| `SharedRuns.SpendingStaysWithinCharge` | scripts/eval_task_field_bindings_v2.py:278-370 | true spending never exceeds the saved charge nor the charge in memory, and neither exceeds the cap, under bad usage, exceptions, writes that raise, deaths and reopenings |
| `SharedSpending.BillIsSpent` | scripts/eval_task_field_bindings_v2.py:316-326 | that spending is what the steps tell: over any run the requests sent are those whose wire was marked and saved, in that order, and the bill adds up to what each of them cost |
| `SharedRuns.EachKeySentAtMostOnce` | scripts/eval_task_field_bindings_v2.py:283-287 | no run sends two requests for one namespace, sample, stage and task |
| `SharedRuns.BlockedForever` | scripts/eval_task_field_bindings_v2.py:206-216 | once blocked, no later process reserves, wires or sends |
| `SharedRuns.TornForever` | scripts/eval_task_field_bindings_v2.py:193-219 | behind a ledger file torn at its creation nothing is ever opened, saved or sent |
| `SharedOrphans.OrphanAppearsIff` | scripts/eval_task_field_bindings_v2.py:294-309 | a request receipt that no ledger row accounts for appears in a step exactly when the receipt of a reservation raises half way or a process ends whose reservation was never saved |
| `SharedOrphans.OrphanNeedsFailedReservation` | scripts/eval_task_field_bindings_v2.py:294-309 | so none appears in a run in which no write inside a reservation fails |
| `SharedOrphans.OrphanedForever` | scripts/eval_task_field_bindings_v2.py:294-309 | once the next receipt is there the ledger stays idle and, in the living process as in any later one, every reservation finds its receipt already there: nothing is sent any more |
| `SharedOrphans.TornReceiptWitness` | scripts/eval_task_field_bindings.py:43-50 | a full disk is enough: the receipt raises, and the living process is stuck, not blocked |
| `SharedOrphans.LostSaveWitness` | scripts/eval_task_field_bindings_v2.py:294-309 | so are two saves that raise, the reservation's and that of the failure after it, before the process ends |
| `SharedAdapter.IdleIsCompletePrefix` | scripts/eval_task_field_bindings_v2.py:233-272 | with no active request every row is complete, wired and paid, wires equal requests and charge equals metered cost |
| `SharedAdapter.ActiveHasOneUnwired` | scripts/eval_task_field_bindings_v2.py:316-326 | with an active request the wires are the requests or one fewer |
| `SharedAdapter.CompleteLeavesIdleOrBlocked` | scripts/eval_task_field_bindings_v2.py:423-500 | whatever the provider does and whichever writes raise, one request adds at most one reservation and one wire, keeps both ledgers sound, and leaves the one in memory, and the saved one once reopened, idle or blocked |
| `SharedAdapter.StaleRequestCompletedIff` | scripts/eval_task_field_bindings_v2.py:423-459 | on a reopened blocked ledger the adapter alone completes an earlier process's request exactly when a response is returned, that request was metered, no response was stored and storing one does not raise: only the extractor's guard prevents it |
| `SharedAdapter.StaleRequestHappens` | scripts/eval_task_field_bindings_v2.py:423-459 | a run from the empty directory reaches such a ledger, and there any response completes that request |
| `SharedScope.PriorResultCases` | scripts/eval_task_field_bindings_v2.py:388-403 | however threads interleave a prior result is nothing exactly when the sample has no row, and an error exactly when some row has no result; when results are saved outside the sample's scopes, exactly when none has; inconsistent or altered results cannot be met |
| `SharedScope.ResultIsFinal` | scripts/eval_task_field_bindings_v2.py:504-537 | once a sample's result is saved, no thread of this or a later process adds a request for it, and the result stays, when no thread has the sample's scope open while a result of it is saved |
| `SharedScope.OneThreadSavesAlone` | scripts/eval_task_field_bindings_v2.py:372-386 | that condition holds whenever no other thread than the one that saves has the sample's scope open |
| `SharedScope.LateRequestNeedsOldScope` | scripts/eval_task_field_bindings_v2.py:388-421 | however threads interleave: once a row of a sample is saved, a further request for it is made only by a thread that has had the scope open ever since |
| `SharedThreads.LateRequestHappens` | scripts/eval_task_field_bindings_v2.py:504-537 | the class allows it: two threads pass the guard for one sample, the first saves the result, the second makes one more request, and the result can no longer be read back |
| `SharedScope.CompletedRunCounts` | scripts/eval_task_field_bindings_v2.py:615-636 | when nothing is active and every approved sample has a result, core requests number exactly the approved samples: that test of the report is a consequence |
| `SharedScope.ApprovedCount` | scripts/eval_task_field_bindings_v2.py:615-636 | with the two A/B sentences and 210 messages the number is 212 |
| `DurableBudgets.VerifyCompletePrefix` | scripts/eval_task_field_bindings.py:243-260 | the resume check accepts exactly complete, wired, distinct and correctly totalled prefixes |
| `DurableBudgets.Open` | scripts/eval_task_field_bindings.py:219-241 | a saved budget is resumed exactly when it was frozen for the same protocol, limits and prices and is resumable, and is otherwise left alone |
| `DurableBudgets.DurableBudget.Reserve` | scripts/eval_task_field_bindings.py:265-284 | one reservation changes memory and file exactly as the ledger step says |
| `DurableBudgets.DurableBudget.Wire` | scripts/eval_task_field_bindings.py:286-294 | the wire hook as it is, without a look at the failure |
| `DurableBudgets.DurableBudget.Settle` | scripts/eval_task_field_bindings.py:301-320 | settling exactly once, only when wired, only within the reservation |
| `DurableBudgets.DurableBudget.Finish` | scripts/eval_task_field_bindings.py:322-328 | only a metered request completes |
| `DurableBudgets.DurableBudget.Fail` | scripts/eval_task_field_bindings.py:330-335 | the failure is kept and an active request is stopped |
| `DurableLedger.PerformSound` | scripts/eval_task_field_bindings.py:265-335 | every operation keeps the older ledger's invariant |
| `DurableLedger.AttemptIs` | scripts/eval_task_field_bindings.py:262-335 | a refused operation changes nothing and saves nothing; any other happens in memory and is saved unless that raises |
| `DurableLedger.WireDoneIff` | scripts/eval_task_field_bindings.py:286-294 | the wire hook succeeds exactly for a genuine request while the active row is not wired, whether the run failed or not |
| `DurableLedger.CostWithinReservation` | scripts/eval_task_field_bindings.py:271-317 | with any prices, tokens within the bounds cost at most the reservation |
| `DurableLedger.ResumableIff` | scripts/eval_task_field_bindings.py:227-260 | a saved run can be resumed exactly when it neither failed nor stopped inside a request |
| `DurableLedger.ResumableIsReplay` | scripts/eval_task_field_bindings.py:227-260 | any saved file is resumed exactly when it is what some sequence of whole requests leaves, each of one variant and a new sample, paid within its reservation |
| `DurableLedger.ValidLimitsIff` | scripts/eval_task_field_bindings.py:221-226 | a budget opens exactly for at least one request and at prices by which prompt and answer cost something and no request costs less than nothing or more than its reservation |
| `DurablePrices.SettlesAtPrice` | scripts/eval_task_field_bindings.py:301-320 | usage settles exactly when the tokens it reports are worth at most the reservation; their price becomes known and replaces it |
| `DurablePrices.TokenPrices` | scripts/eval_task_field_bindings.py:301-320 | one more token adds the price of its kind to what is known and charged |
| `DurablePrices.ReservesWorstCase` | scripts/eval_task_field_bindings.py:265-284 | a reservation charges the price of every token it may use, exactly while that stays within one dollar and the request limit |
| `DurableRuns.RunIsSafe` | scripts/eval_task_field_bindings.py:219-335 | over any run, with saves that raise, true spending stays within the charge and the charge within the cap |
| `DurableSpending.BillIsSpent` | scripts/eval_task_field_bindings.py:286-294 | over any run as many requests were sent as had their wire marked and saved, and the bill adds up to what each of them cost |
| `DurableRuns.WireAfterFailureIff` | scripts/eval_task_field_bindings.py:286-294 | the wire hook does not look at the failure: after a saved failure one more request can leave exactly when the process still holds a reservation that was never wired |
| `DurableRuns.WireAfterFailureHappens` | scripts/eval_task_field_bindings.py:286-294 | the class allows it: open, reserve, fail, wire, and the request leaves |
| `DurableRuns.FailedForever` | scripts/eval_task_field_bindings.py:265-335 | once a failure is saved a run never reserves again, and never sends again unless it held an unwired reservation |
| `DurableRuns.TornForever` | scripts/eval_task_field_bindings.py:219-241 | behind a budget file torn at its creation nothing is ever opened, saved or sent |
| `AbstractLedger.NextKeepsInv` | scripts/eval_task_field_bindings_v2.py:278-370 | the common reserve, wire, settle, finish ledger: charge under the cap, wires at most one behind requests |
| `AbstractLedger.NextAdds` | scripts/eval_task_field_bindings_v2.py:278-370 | a step adds at most one request, after all before it were wired, or one wire, for a request that lacked it, and takes none back |
| `AbstractLedger.StoppedStep` | scripts/eval_task_field_bindings_v2.py:278-370 | after a stop nothing is reserved, and a ledger that checks the stop before wiring wires nothing either |
| `SharedRefinement.PerformRefines` | scripts/eval_task_field_bindings_v2.py:278-386 | every operation of the shared budget is a step of the common ledger, of the kind that checks the stop before wiring |
| `SharedRefinement.ReopenedRefines` | scripts/eval_task_field_bindings_v2.py:206-216 | reopening is a stop, or invisible |
| `SharedRefinement.AttemptRefines` | scripts/eval_task_field_bindings_v2.py:278-386 | an operation that meets a failing write is, in memory, the whole step or invisible |
| `SharedRefinement.AbstractionCounts` | scripts/eval_task_field_bindings_v2.py:233-272 | the common ledger's charge, requests and wires are those of the shared budget |
| `DurableRefinement.PerformRefines` | scripts/eval_task_field_bindings.py:265-335 | every operation of the older budget is a step of the same ledger, without that check |
| `DurableRefinement.AbstractionCounts` | scripts/eval_task_field_bindings.py:243-294 | charge, requests and wires are those of the older budget, whose wires are its requests or one fewer |
| `Transcript.Assemble` | scripts/eval_tasks.py:414-422 | laying out rows gives offsets at which every line is reproduced exactly; only an empty meeting is refused |
| `Utf8.LengthOfPart` | scripts/eval_tasks.py:474-492 | UTF-8 length (section 3 of RFC 3629) is additive, so a part is never longer than the whole |
| `Utf8.DecodesBack` | scripts/eval_tasks.py:474-492 | the encoding that the length counts, by the bit layout of section 3 of RFC 3629, can be read back octet by octet |
| `Utf8.LengthIsEncoded` | scripts/eval_tasks.py:474-492 | the length is the number of octets of the encoded text |
| `Chunks.Split` | scripts/eval_tasks.py:474-492 | chunks cover the meeting, each cannot take one utterance more, successive ones overlap as asked; cutting is refused exactly when one utterance exceeds the caps, and always ends |
| `Chunks.FitsPart` | scripts/eval_tasks.py:474-492 | a part of a range that fits the caps fits them |
| `Chunks.CutsUnique` | scripts/eval_tasks.py:474-492 | there is only one way to cut a meeting into complete, maximal, overlapping ranges, so the chunks are determined |
| `Chunks.SelectedByOffset` | scripts/eval_tasks.py:640-643 | the utterances that start inside a chunk's offsets are exactly those it was cut from |
| `Ranges.CompleteCovers` | scripts/eval_tasks.py:489-492 | the ranges leave no utterance out |
| `Ranges.CompleteOverlaps` | scripts/eval_tasks.py:489-492 | the next range starts later than the last one, never behind its end, and really overlaps when the last one is long enough |
| `SpeakerWindows.Convert` | scripts/eval_tasks.py:640-658 | a chunk is rewritten exactly when all its utterances pass the line check, into the header and their converted lines with an item for each |
| `SpeakerWindows.LineStarts` | scripts/eval_tasks.py:663 | the searched section starts separate the bodies |
| `SpeakerWindows.SectionStarts` | scripts/eval_tasks.py:663 | each searched start is the start of its converted line, behind what its head has before its own last line: exactly the line start when the head is on one line |
| `WindowSplitting.SectionFaithful` | scripts/eval_tasks.py:664-670 | shifting the items by the distance the section moved keeps each on its own unchanged body |
| `WindowSplitting.SectionIsBody` | scripts/eval_tasks.py:664-670 | a section is the header and exactly the converted lines of its utterances; only a head that spans lines is cut before its last line, in front and behind |
| `WindowSplitting.SectionIsLines` | scripts/eval_tasks.py:664-670 | so with heads on one line it is the header and exactly those lines |
| `WindowSplitting.LongestFit` | scripts/eval_tasks.py:682-691 | the binary search returns a right end that fits and cannot be one longer |
| `WindowSplitting.LongestIsLargest` | scripts/eval_tasks.py:682-691 | if a window that fits still fits when it ends earlier, that is the largest right end that fits |
| `WindowSplitting.SectionTestEndsEarlier` | scripts/eval_tasks.py:671-681 | the header and both caps allow it, so it holds when the prompt size does |
| `WindowSplitting.CoverWithLongest` | scripts/eval_tasks.py:682-697 | overlapping longest ranges cover a chunk; refused only when some utterance does not fit alone; the loop ends although it steps back |
| `WindowSplitting.SplitChunk` | scripts/eval_tasks.py:682-697 | the windows of a chunk are the sections of such ranges |
| `MeetingWindows.SpeakerWindowsOf` | scripts/eval_tasks.py:628-697 | every window holds whole, unchanged utterances and is the header and exactly their lines, within the caps and as many as fit in its chunk; the windows leave no gap; a meeting is refused only for an utterance that is not exactly its line or is too long even alone, and exactly then if a part of a prompt that fits always fits |
| `MeetingWindows.CleanUnfitIff` | scripts/eval_tasks.py:628-697 | with heads on one line whether there is such an utterance depends on each utterance alone and not on how chunks fall |
| `MeetingWindows.EveryUtteranceKept` | scripts/eval_tasks.py:628-697 | every utterance of the meeting stands whole in some window |
| `TimestampedText.ConvertedReads` | src/linkloom/semantic_ingestion/timestamped_text.py:22-24 | converted lines are read by the pattern of the product's parser as exactly the stamps, speakers and bodies of their utterances |
| `TimestampedText.TranscriptReads` | scripts/eval_tasks.py:413-421 | in a transcript laid out from rows every row can be read back, speaker, times and body, where its offsets say |
| `WindowReading.WindowReads` | scripts/eval_tasks.py:628-697 | that parser reads every window of a meeting as the header and then exactly the utterances of its range |
| `WindowReading.ParserAccepts` | scripts/eval_tasks.py:738-741 | so the check on what the parser read accepts every window of a meeting whose utterances the pattern can express |
| `Spans.MappedIffInsideOneBody` | scripts/eval_tasks.py:700-705 | a span is carried back exactly when it is nonempty and inside one body, which is then the only one |
| `Spans.EvidenceRoundTrip` | scripts/eval_tasks.py:700-705 | the original text at the mapped span is the window text at the span, and placing it in the window again gives the span |
| `Spans.OriginalRoundTrip` | scripts/eval_tasks.py:700-705 | an original range placed in a window is carried back to itself |
| `Spans.OriginalSpanInjective` | scripts/eval_tasks.py:700-705 | within a window different spans never share their original |
| `Spans.SameRangeInTwoWindows` | scripts/eval_tasks.py:700-705 | the same original range found in two windows is carried back to the same place |
| `Deduplicate.Predict` | scripts/eval_tasks.py:729-778 | predictions are those of exactly the candidates whose work no earlier one has, in order, and none at all unless every window is read back by the parser as it was built, every extraction succeeds and every evidence range leads back to its text |
| `Deduplicate.CanonicalReadsItself` | scripts/eval_tasks.py:738-741 | a faithful window passes the parser check exactly when every speaker and body read is what stands in the window itself, between the two ends of its item |
| `Deduplicate.OnePredictionPerWork` | scripts/eval_tasks.py:763-768 | one prediction for each distinct set of original work ranges, the first seen |
| `Deduplicate.OverlapPredictsOnce` | scripts/eval_tasks.py:763-768 | with a mapping or without one: the same work found in two overlapping windows, its ranges in the meeting listed in any order, is predicted once; different work is never merged |
| `Deduplicate.QuotesAreOriginal` | scripts/eval_tasks.py:769-778 | every predicted quote is text of the meeting |
| `Deduplicate.ChunksArePieces` | scripts/eval_tasks.py:474-492 | every chunk cut from a meeting is the piece of it that starts at the chunk's offset |
| `Deduplicate.LocatedText` | scripts/eval_tasks.py:763-764 | without a mapping evidence in a chunk is located at the same characters of the meeting, the chunk's offset further on |
| `Deduplicate.PredictionRepeats` | scripts/eval_tasks.py:769-778 | a prediction repeats the quote, task, owner and deadline of its observation, and exactly a missing or empty owner or deadline is unknown |
| `SealedSafety.RunIsSafe` | scripts/run_ami_canary_v2.py:102-253 | in every interleaving of the two threads, at every statement, the whole invariant holds and no exclusive create ever finds its path taken |
| `SealedSafety.ReachableIsSafe` | scripts/run_ami_canary_v2.py:83-253 | and so from the start of any run |
| `SealedTheorems.RecordLasts` | scripts/run_ami_canary_v2.py:83-253 | in any run from the start, at any two moments: every file stays as it was, every terminal stays true about entering and sending the request, and a sealed directory has one terminal for each ticket, a listing of exactly the other files, and never changes |
| `SealedTheorems.RunOnlyAdds` | scripts/run_ami_canary_v2.py:106-148 | of the files the runner and its adapter write none is ever rewritten or removed, and a closed run stays closed; the session's own `provider/budget.json`, which only the main thread rewrites (`src/linkloom/ui/task_provider.py` line 80), is not one of them |
| `SealedTheorems.ClosedToWorker` | scripts/run_ami_canary_v2.py:106-125 | once the run is closed the worker adds nothing to the sealed directory |
| `SealedTheorems.SealHolds` | scripts/run_ami_canary_v2.py:236-253 | after the listing is written the directory holds the listed files and the listing, whatever a late worker does |
| `SealedTheorems.HolderFindsTerminal` | scripts/run_ami_canary_v2.py:106-115 | a worker that holds the lock and sees the run closed finds its ticket's terminal |
| `SealedTheorems.OneTerminalEach` | scripts/run_ami_canary_v2.py:209-253 | a finished run has a terminal for exactly the tickets it reserved |
| `SealedTheorems.TerminalTellsEntry` | scripts/run_ami_canary_v2.py:118-125 | a terminal says that the SDK was entered exactly when the wire request file exists, now and in every continuation |
| `SealedTheorems.TerminalTellsSending` | src/linkloom/evaluation/canary_trust.py:30-49 | an attempt classified as not sent is never sent in any continuation; one classified as sent was answered |
| `SealedTheorems.LateReceiptsMatch` | scripts/run_ami_canary_v2.py:106-115 | there are late receipts only after closing, and each names the terminal its ticket keeps |
| `SealedTheorems.LateTransportIff` | scripts/run_ami_canary_v2.py:118-127 | closing does not stop every transport, because the lock is released before the SDK is called: one can still start exactly when the worker stands between the two |
| `SealedTheorems.LateTransportIsUnknown` | scripts/run_ami_canary_v2.py:209-232 | even then its request is on file and its terminal says that the outcome is unknown |
| `SealedTheorems.LateTransportHappens` | scripts/run_ami_canary_v2.py:118-127 | such an interleaving exists from the start of a run |
| `SealedTheorems.ReservesIff` | scripts/run_ami_canary_v2.py:191-203 | a ticket is reserved exactly between attempts of a run that has not stopped, and never after the 28th |
| `SealedTheorems.AtMostPlanned` | scripts/run_ami_canary_v2.py:191-203 | no interleaving reserves more than 28 |
| `SealedEvidence.TerminalIsReply` | scripts/run_ami_canary_v2.py:209-248 | from the start of any run: unless the main thread gave up on it, an attempt is not sent exactly when the SDK was never entered, failed exactly when an error came back, succeeded exactly when an identified answer without error did, and the terminal holds the whole reply; given up, it is unknown for good |
| `SealedEvidence.SeenReplyIsKept` | scripts/run_ami_canary_v2.py:124-150 | a reply whose worker the main thread saw finish is in the terminal word for word |
| `SealedEvidence.ClassifyIff` | src/linkloom/evaluation/canary_trust.py:30-49 | an error answer is a failed attempt, an identified other answer a success; without an answer only a rejection before the SDK was entered means not sent |
| `SealedReceipts.ReceiptsAreKept` | scripts/run_ami_canary_v2.py:106-170 | no receipt of a reply is lost: when the main thread saw the worker finish all three are in the sealed directory, and after a timeout a finished worker has left each there or beside it |
| `SealedReceipts.MergedIs` | scripts/run_ami_canary_v2.py:157-163 | with its response written an attempt has evidence: what came back, or that its request could not be mapped |
| `SealedReceipts.SessionMayIff` | scripts/run_ami_canary_v2.py:209-211 | the session around an attempt refuses, is never called, or starts; then the worker is done or the time is up |
| `SealedReceipts.OnlyLastFails` | scripts/run_ami_canary_v2.py:191-233 | over any run every ticket but the last ended with its worker done; a refusal or a timeout stops the run |
| `SealedReceipts.FailureStops` | scripts/run_ami_canary_v2.py:191-233 | so does a failure that the session reports |
| `SealedReceipts.CutoffIff` | scripts/run_ami_canary_v2.py:214-232 | what an attempt had when the main thread gave up is put beside the sealed directory, naming its terminal, and nothing otherwise |
| `SealedReceipts.BatchesOnRecord` | scripts/run_ami_canary_v2.py:206-207 | the batches on record are those counted, from the first on |
| `SealedReceipts.FaultIff` | scripts/run_ami_canary_v2.py:106-115 | an exclusive create fails exactly when its path is taken, and otherwise adds that file alone |
| `SealedReceipts.LateFaultIff` | scripts/run_ami_canary_v2.py:106-115 | a late receipt fails exactly when its path is taken or its ticket has no terminal to name |
| `SealedReceipts.AnsweredRunHappens` | scripts/run_ami_canary_v2.py:83-253 | whole runs happen: any reply can come back in a run from the start that is settled and sealed with a terminal that says it |
| `Judging.ValidateJudgments` | scripts/eval_tasks.py:910-940 | an answer is accepted exactly when it judges every prediction once and matches each gold task at most once, with every row's own checks, and no credit where none is due |
| `Judging.RowOkIff` | scripts/eval_tasks.py:910-940 | the demands on one row: a known prediction, a reason and a quote that stands in the meeting, a known gold task exactly for a match, and credit only with a stated field behind it |
| `Judging.AcceptedIsMatching` | scripts/eval_tasks.py:910-940 | accepted rows form a partial injection from predictions to gold tasks that covers every prediction |
| `Judging.MatchingCounts` | scripts/eval_tasks.py:910-940 | as many rows as predictions, and no more matches than gold tasks |
| `FieldReview.ReviewJudgments` | scripts/eval_tasks.py:943-983 | with its review fields an answer is accepted exactly when translations, references of duplicates and the bare answer are |
| `FieldReview.DuplicatesRepeatMatches` | scripts/eval_tasks.py:973-979 | a duplicate that names a gold task names one that an accepted row matches, and the duplicate itself earns nothing |
| `FieldReview.RowsReviewableIff` | scripts/eval_tasks.py:943-983 | the review fields are in order exactly when every row is translated and every task a duplicate names is a known one that some row claims to match |
| `Evaluation.TranslatedIff` | scripts/eval_tasks.py:943-957 | the gold translations are in order exactly when every gold task has an id of its own and is translated, and no more are |
| `FieldReview.ReviewFields` | scripts/eval_tasks.py:996-1026 | the rows are reviewed in place by the field rules, and what changed is noted |
| `FieldReview.ReviewedFields` | scripts/eval_tasks.py:996-1026 | a pronoun loses the owner's credit, a stated owner in the same role gains it; a deadline gains it exactly for a stated duration where the gold task waits for the next meeting, and never loses it |
| `FieldReview.OthersUnchanged` | scripts/eval_tasks.py:996-1026 | rows that are no match stay as they are, and a note with the old credit is made exactly of rows that changed |
| `FieldReview.ReviewKeepsMatching` | scripts/eval_tasks.py:996-1026 | the review keeps the matching and the rule that an open deadline earns no credit |
| `Evaluation.ReviewKeepsScores` | scripts/eval_tasks.py:996-1060 | the review changes credit for owners and deadlines and no other count: true and false positives and misses stay |
| `FieldReview.ReviewIdempotent` | scripts/eval_tasks.py:996-1026 | reviewing twice changes nothing more |
| `Scoring.CountsConserved` | scripts/eval_tasks.py:1029-1038 | true and false positives are all predictions; true positives and misses are all gold tasks |
| `Scoring.NoRows` | scripts/eval_tasks.py:1038-1060 | no rows, no counts but the gold tasks |
| `Scoring.UnmatchedAdds` | scripts/eval_tasks.py:1038-1060 | a row that is no match counts as a row, as a discussion if it is one, and as an abstention if it leaves the deadline open |
| `Scoring.MatchAdds` | scripts/eval_tasks.py:1038-1060 | a match counts toward owner and deadline as its gold task states them and as it earned them |
| `Scoring.GoldAdds` | scripts/eval_tasks.py:1038-1060 | each gold task with a deadline counts as one |
| `Scoring.RatiosAre` | scripts/eval_tasks.py:1029-1035 | precision is the part of the rows that match, recall of the gold tasks, each missing exactly when there are none |
| `Scoring.NumeratorsBounded` | scripts/eval_tasks.py:1029-1060 | every numerator is at most its denominator, and stated and unstated owners divide the matches |
| `Scoring.F1IsHarmonicMean` | scripts/eval_tasks.py:1029-1035 | F1 is the harmonic mean of precision and recall whenever both are defined, and zero exactly when nothing matched |
| `MicroScoring.UnmatchedAreMisses` | scripts/eval_tasks.py:1211-1221 | the gold tasks without a match are as many as the misses counted |
| `MicroScoring.MicroIsSum` | scripts/eval_tasks.py:1177-1225 | with globally distinct gold ids the micro counts are the sums of the meetings' counts |
| `MicroScoring.Evaluate` | scripts/eval_tasks.py:1177-1225 | the loop over the meetings: counts, one line for each judgement, one for exactly each gold task no row of its meeting matches, and micro counts over the judged lines alone |
| `Evaluation.Evaluated` | scripts/eval_tasks.py:1170-1225 | from the judge's answers to the report: it is made exactly when every answer is accepted, and its counts and lines are those of the reviewed rows |
| `Evaluation.AcceptedGoldDistinct` | scripts/eval_tasks.py:943-957 | an answer is accepted only for gold tasks with different ids |
| `Evaluation.ReportConserves` | scripts/eval_tasks.py:1170-1225 | over a whole report, whatever the review did, the true positives are the matches the judge gave, with the false positives all predictions and with the misses all gold tasks |
| `Renaming.Reuse` | scripts/eval_meeting_v3.py:97-104 | ids are replaced exactly when every row names a prediction of the population |
| `Renaming.PositionsRename` | scripts/eval_meeting_v3.py:97-103 | matching ids by position renames the whole population one to one |
| `Renaming.AcceptedRenamed` | scripts/eval_meeting_v3.py:93-105 | an answer is accepted for the old ids exactly when it can be reused and is accepted for the new ones |
| `Renaming.ReviewAcceptedRenamed` | scripts/eval_meeting_v3.py:93-105 | so is an answer with its translations and duplicate references |
| `Renaming.ScoresRenamed` | scripts/eval_meeting_v3.py:93-105 | no count looks at prediction ids |
| `Renaming.ReusedAnswerScoresTheSame` | scripts/eval_meeting_v3.py:93-105 | for identical populations, shuffled independently, the reused answer passes the whole review of judgments and scores as the original, field review included |
| `Closure.DerivePending` | benchmarks/memoryagentbench/g31_closure.py:83-112 | pending cases are those of the manifest without a terminal score, in order, whenever manifest and run are acceptable |
| `Closure.PendingInOrder` | benchmarks/memoryagentbench/g31_closure.py:108-112 | each pending case stands there once, in the order of the manifest |
| `Closure.ManifestOkIff` | benchmarks/memoryagentbench/g31_closure.py:218-229 | a manifest is in order exactly when it has rows and they name as many different cases |
| `Closure.SettledIff` | benchmarks/memoryagentbench/g31_closure.py:104-107 | a case is settled by a run exactly when a row of it passed or failed |
| `Closure.IdentityIs` | benchmarks/memoryagentbench/g31_closure.py:232-241 | a row's identity is its method and its question under either name, which must agree and be there |
| `Closure.AcceptableIff` | benchmarks/memoryagentbench/g31_closure.py:91-106 | a run is acceptable exactly when each of its rows is of a case of the manifest and no case has two |
| `Closure.HeadersOkIff` | benchmarks/memoryagentbench/g31_closure.py:158-174 | two runs can be merged exactly when both are sealed under different names with the same seven fingerprints |
| `Closure.Merge` | benchmarks/memoryagentbench/g31_closure.py:151-215 | the merge succeeds exactly when both headers pass and the terminal outcomes divide the manifest between the runs; one outcome for each case in manifest order |
| `Closure.MergeIffPendingSettled` | benchmarks/memoryagentbench/g31_closure.py:83-215 | for acceptable runs that is exactly when the continuation settled what was pending, and only that |
| `Closure.FromExactlyOneRun` | benchmarks/memoryagentbench/g31_closure.py:177-209 | each merged outcome is a terminal row of exactly one run, under its run id |
| `Closure.MergeSymmetric` | benchmarks/memoryagentbench/g31_closure.py:151-215 | which run is called the original makes no difference |
| `Recovery.ClassifyRecovery` | benchmarks/memoryagentbench/g31_fixed50.py:214-270 | for any plan, one verdict for each planned number, in plan order, unless a file or an event fits no case; a number or identity that is planned again belongs to the later case |
| `Recovery.EntriesOfDistinct` | benchmarks/memoryagentbench/g31_fixed50.py:222-223 | for a plan that numbers its cases distinctly these are the planned cases themselves |
| `Recovery.TakenForIff` | benchmarks/memoryagentbench/g31_fixed50.py:222-239 | an event is taken for a case exactly by its number with no other name, or without a planned number by both names; a number with another name refuses the journal |
| `Recovery.StateTells` | benchmarks/memoryagentbench/g31_fixed50.py:240-264 | sealed means sealed; short of that, corrupt is exactly an output without a start or a completion without an output, and every other answer the furthest step on record |
| `Recovery.CrashIsClassified` | benchmarks/memoryagentbench/g31_fixed50.py:240-264 | after any interleaving of cases and any crash every case is classified by how far it came, and none is corrupt |
| `Recovery.CrashVerdicts` | benchmarks/memoryagentbench/g31_fixed50.py:246-270 | so after a crash the verdicts are, in the plan's order, how far each case came |
| `Recovery.EveryAnswerHappens` | benchmarks/memoryagentbench/g31_fixed50.py:246-264 | each answer but corrupt is that of some crash, also of a case that was started and attempted again |
| `Recovery.SafeHasNoAttempt` | benchmarks/memoryagentbench/g31_fixed50.py:246-264 | a case reported unstarted or safe to resume has no provider attempt on record |
| `Recovery.OrderIrrelevant` | benchmarks/memoryagentbench/g31_fixed50.py:224-245 | the order of the journal's events makes no difference |
| `CostGate.RequestBounded` | benchmarks/memoryagentbench/g32_heldout.py:136-142 | whatever tokens within the bounds are used, an attempt costs at most its bound, and no smaller bound would do |
| `CostGate.Retry` | benchmarks/memoryagentbench/g32_heldout.py:172-194 | admitted retries always leave room for every later base attempt |
| `CostGate.RetryAdmittedIff` | benchmarks/memoryagentbench/g32_heldout.py:172-213 | a retry is admitted exactly when all base attempts left would still be admitted after it had cost its bound |
| `CostGate.RetryPaidIff` | benchmarks/memoryagentbench/g32_heldout.py:172-194 | and is paid for exactly then |
| `CostGate.CasePaid` | benchmarks/memoryagentbench/g32_heldout.py:172-213 | a case pays its base attempt and then its retries against the base attempts still to come |
| `CostGate.Drive` | benchmarks/memoryagentbench/g32_heldout.py:172-213 | if the base bounds fit under the cap every base attempt is admitted, whatever the provider did and whichever retries came first; if not, none is; spending stays below the cap |
| `CostGate.RetryWithoutReserveStarves` | benchmarks/memoryagentbench/g32_heldout.py:172-194 | without the term for later base attempts a retry could starve one |
| `LiveRouting.LiveRoutingProvider.Complete` | scripts/eval_routing.py:222-293 | one request changes charge, calls, failure and journal exactly as the books say, whichever rewriting of the journal raises; if it sent a request, the journal has it exactly unless the last rewriting was torn |
| `LiveRouting.SentIsJournaledIff` | scripts/eval_routing.py:198-205 | the journal is rewritten in place: a request that was sent stands in it exactly unless the rewriting after it was torn |
| `LiveRouting.JournalKnowsSent` | scripts/eval_routing.py:198-205 | over any run in which no rewriting is torn, the journal has every request that was sent, whatever else fails |
| `LiveRouting.JournalHasSentIff` | scripts/eval_routing.py:198-225 | over any run the journal is readable and has its own entry for every request sent exactly unless the last rewriting that opened it was torn; only a stopped run can end so |
| `LiveRouting.JournalRestored` | scripts/eval_routing.py:216-225 | a torn journal comes back: the next request is refused, and writing that down restores every entry |
| `LiveRouting.JournalLost` | scripts/eval_routing.py:198-205 | one torn rewriting loses it: a request was sent and the journal is unreadable |
| `LiveRouting.RunIsAccounted` | scripts/eval_routing.py:183-293 | over any run the charge is the sum of what calls account for, stays within the cap until the first failure, and requests stay within the limit |
| `LiveRouting.GoesOnIff` | scripts/eval_routing.py:216-293 | over any run nothing has failed exactly while every request was well formed and admitted, every rewriting landed, and every reply was good: a response with consistent usage within both bounds and no error |
| `LiveRouting.CompletedIff` | scripts/eval_routing.py:258-293 | over any run a call is on the books as completed exactly for a good reply, and after any other reply nothing more is sent |
| `LiveRouting.NothingAfterBadTurn` | scripts/eval_routing.py:216-225 | after the first turn that was not good nothing is sent or charged |
| `LiveRouting.OutcomeIs` | scripts/eval_routing.py:258-293 | a sent call is exceeded exactly for counts beyond a bound, unknown exactly when it cannot be priced, completed for a good reply and failed otherwise |
| `LiveRouting.StopsBecause` | scripts/eval_routing.py:216-293 | the failure that is kept names the first reason |
| `LiveRouting.AccountedIs` | scripts/eval_routing.py:243-287 | a call accounts for the price of its tokens, counted one by one, once its counts agree, and for its whole reservation till then |
| `LiveRouting.StoppedForGood` | scripts/eval_routing.py:216-225 | after the first failure nothing changes but the journal file |
| `LiveRouting.SentOnlyWhenReserved` | scripts/eval_routing.py:241-256 | a request crosses to the provider exactly on open books, within the limits, after its reservation was written |
| `LiveRouting.CapTestNeverAlone` | scripts/eval_routing.py:276-282 | the test of the charge against the cap never fires without a token bound being exceeded |
| `LiveRouting.ChargedForCall` | scripts/eval_routing.py:243-287 | a call is charged its metered cost when the usage is known and consistent, and its whole reservation otherwise |
| `DiagnosticLog.DiagnosticLedger.Call` | scripts/gemini_transport/ledger.py:31-61 | one call changes both files and the two fields exactly as the books say, whichever write raises and whatever it leaves: nothing, a part of its line, or all of it |
| `DiagnosticLog.RunIsShaped` | scripts/gemini_transport/ledger.py:31-61 | the log is always closed successful pairs in increasing order, followed by at most one more call, open, torn or closed, after which nothing runs |
| `DiagnosticLog.ClosedButStoppedIff` | scripts/gemini_transport/ledger.py:31-61 | a stopped log closes its last call with success exactly when that call's last write raised after it had landed |
| `DiagnosticLog.ClosedButStoppedHappens` | scripts/gemini_transport/ledger.py:31-61 | one call from the start gets there: closed with success in both files, and stopped for good |
| `DiagnosticLog.ExecutedReserved` | scripts/gemini_transport/ledger.py:31-52 | at most the allowed number of operations run, each after its reservation is in both files |
| `DiagnosticLog.StoppedForGood` | scripts/gemini_transport/ledger.py:31-61 | nothing runs after the first call that was not closed successfully |
| `TemporalFixture.TemporalRows` | scripts/bench_scale_data.py:103-121 | rows are generated exactly for a positive multiple of one hundred |
| `TemporalFixture.RowsSay` | scripts/bench_scale_data.py:103-121 | each row says its place, its slot, from when until when it holds, and which row it supersedes |
| `TemporalFixture.ExactlyOneEffective` | scripts/bench_scale_data.py:103-121 | from the start on exactly one row of a slot is effective, before it none, and its index is slot * 100 + min(days, 99) |
| `TemporalFixture.FormulaIsScan` | scripts/bench_scale_data.py:124-133 | the closed formula agrees with a scan of the rows |
| `TemporalFixture.CaseIsScan` | scripts/bench_scale_data.py:124-133 | so does the expected answer of every query case |
| `TemporalFixture.OneChainPerSlot` | scripts/bench_scale_data.py:103-121 | each slot has one current row, whose links lead through all versions, each ending where the next begins |

## Left out

- Protocol freezing, source signatures, provider configuration and the interprocess lock around a run: only what the ledgers themselves read is modelled.
- Closure.DerivePending: assumes manifest rows that carry `qa_id`; a row named only by `question_id` makes the source fail with a missing key.
- The canary's provider session, its limits, shutdown and `provider/budget.json`, which it rewrites in the run directory: the session is only assumed to return as said above.
- The in-memory `Counter` of the evaluation client: two scalars, subsumed by the ledgers.
- Baseline and meeting_v2 prediction, audit sampling, CSV and Markdown reports, archive and XML parsing: no property beyond formatting.
- Routing metrics, retrieval and routing fixtures, cost estimates from a pilot: arithmetic read off the code.
- Network, SDK and clock behaviour, fsync: parameters or assumptions above.
