# Remittance pipeline model

This project models, in Dafny, the deterministic core of a service that turns remittance emails into
payments: it splits an email into the messages of its thread, reads payment lines from tables, checks a
payment against an invoice ledger, approves and posts it, and delivers it to a backend. Each operation of
the service is a method or function with the source's branches, constants and refusals; its contract ties
it to a specification, and the lemmas say what that specification guarantees.

Money is an integer number of paise, because the database columns hold two decimals, and the tolerance of
0.02 is 2 paise. Flags are a datatype: what matters of a flag is whether there is one, whether two are the
same, and whether it is kept on a recheck. Tables whose rows are never deleted are sequences and a row's id
is its position. The database is a class, `Models.Database`, whose methods state its whole new value
through `View()`. Optional texts that are missing are empty strings, but for the kind of a payment reference,
where the checks tell the two apart.

## Files

- Text: `Matching` (number keys, edit distance, payer names), `Numbers` (printing and parsing amounts),
  `Words` (amounts in words).
- Ledger: `Models`, `Balance`, `Adjustments`, `Dates`, `Validators`, `Checks`, `Posting`, `Backfill`, `SecondRun`,
  `CsvImport`, `Overpayment`.
- Concurrency: `LockProtocol` (row and key locks of the ledger check), `NewInvoiceRace` (where they do not help),
  `KeyRace` (advisory locks on payment keys and the unique index), `DecisionRace` (two decisions on one payment).
- Life of a payment: `References`, `Dedupe`, `Recheck`, `Routing`, `Review`, `Normalize`, `Advance`,
  `Deliver`, `ThreadBackfill`.
- What every run keeps: `Invariant` (the invariant and the kinds of change), `Operations` and `Intake`
  (each operation keeps it), `Lifecycle` (runs), `LostRetry`, `Outcomes`, `AutoApproval`, `ReadOnce`,
  `Conservation`.
- Reading: `Splitter`, `Messages` and `LostTables` (threads), `PdfTables`, `LineTables`, `Columns`, `Rows`, `Totals`,
  `Reader` (tables).

## Where the code and its description differ

- The thread splitter says each table goes to the message that contains it. A table that starts inside a
  kept quoted header, or in a blank top, goes to no part: `LostTables.TopTableIsLost` loses
  all payment lines of an advice this way; `Messages.TableGoesToOnePart` says exactly when.
- The ledger check's running totals cover invoices the ledger has. Two spellings of one new invoice, or two
  simultaneous approvals of it, are not compared: `Overpayment.TwoSpellingsOverpay`. The advisory lock on a
  new key makes the second of two checks wait but not look again:
  `NewInvoiceRace.SilentOverpaymentExactly` says exactly when both then pass. Invoices found by the check
  are safe, without exception.
- A message put back to be read can be forgotten when another payment of its email is approved first:
  `LostRetry.RetriedMessageIsLost`, and `LostRetry.RetrySurvivesApproval` for exactly when.
- A second ledger backfill may still post adjustments whose invoice the first one created; a third posts
  nothing: `SecondRun.SecondRunPosts`, `Backfill.BackfillConverges`.
- The status of a payment is checked when it is read and written later without a lock, so "pending only" holds
  of decisions that do not overlap: `DecisionRace.DecisionStandsExactly` and the three races after it.
- Number words are read back only up to 999 crore: `Words.CroreCountBound`.

## Model

| member | source | states |
|---|---|---|
| Checks.CheckAgainstLedger | ar_pipeline/ledger/checks.py:54-187 | the two loops with the dictionaries `earlier` and `stated` give exactly the flags that prefix sums over the lines in checking order define |
| Overpayment.NoSilentOverpayment | ar_pipeline/ledger/checks.py:54-187 | no flag and first posting: every invoice already in the ledger that the payment touches ends outstanding at least -0.02, in whatever mixture of spellings and adjustments, and every other one is unchanged |
| Overpayment.CleanRunsNeverOverpay | ar_pipeline/ledger/posting.py:64-143 | over any run of flag-free approvals no existing invoice becomes overpaid, and one overpaid before is not touched |
| Overpayment.SettledInvoiceIsFlagged | ar_pipeline/ledger/checks.py:132-137 | a payment on an invoice already paid or overpaid never passes unflagged |
| Outcomes.RepeatedPaymentIsFlagged | ar_pipeline/ledger/checks.py:23-36 | once a payment is posted, any payment repeating its reference with a line for the same invoice and amount is flagged |
| Overpayment.NewInvoiceNotOverpaid | ar_pipeline/ledger/checks.py:85-103 | the extension to a new invoice: one line names it, its stated amount is positive and the line check is clean |
| Overpayment.NewInvoiceOutstanding | ar_pipeline/ledger/posting.py:32-61 | exactly what a new invoice is left outstanding: the first stated amount less all the payload settles on it |
| Overpayment.TwoSpellingsOverpay | ar_pipeline/ledger/checks.py:85-103 | where the promise stops: two spellings of one new invoice, each paid in full, raise no flag in either set of checks and overpay it by its amount |
| Overpayment.TwoSpellingsOfA1 | ar_pipeline/ledger/matching.py:19-20 | such spellings exist: "A1" and "A-1" |
| LockProtocol.CleanCommitFits | ar_pipeline/ledger/checks.py:80-83 | in every interleaving of lock, check, post and commit steps, committing a clean transaction leaves each invoice its check found outstanding at least -0.02 |
| LockProtocol.ConcurrentApprovalsNeverOverpay | ar_pipeline/ledger/checks.py:148-187 | under every interleaving in which only clean transactions commit, no invoice that was in the ledger becomes overpaid |
| LockProtocol.EventKeeps | ar_pipeline/ledger/checks.py:80-83 | every event keeps the lock invariant: exclusive locks exclude, keys are inserted once, and what a clean check found stays true |
| LockProtocol.QuietStateIsFine | ar_pipeline/ledger/checks.py:80-83 | that theorem asks nothing of the state approvals begin in: with no open transaction its hypotheses hold of every invoice in the ledger |
| LockProtocol.CreatedInvoiceStaysSafe | ar_pipeline/ledger/checks.py:83-89 | an invoice created during the run stays safe from its commit on, if no other clean open transaction had looked it up before |
| NewInvoiceRace.SilentOverpaymentExactly | ar_pipeline/ledger/checks.py:80-103 | two payments of one new invoice, each for all of it, in every interleaving with any rollbacks: it ends overpaid if and only if both commit, by the second one's amount, and both commit unflagged if and only if neither looked the invoice up after the first commit, whenever the advisory lock was granted |
| NewInvoiceRace.NewInvoiceRaceOverpays | ar_pipeline/ledger/checks.py:80-103 | such an interleaving exists: the second check looks the invoice up, must wait for the advisory lock until the first commit, is then granted it, and commits unflagged |
| Posting.PostExtraction | ar_pipeline/ledger/posting.py:64-143 | the loop over invoice lines, then adjustments, writes the ledger that the line-by-line specification gives, and returns how many rows it added |
| Posting.PostingSettles | ar_pipeline/ledger/posting.py:75-143 | on every invoice the ledger then has, posting settles exactly what the lines sum to there; invoices added are those the invoice lines name |
| Posting.PostingKeepsOneRow | ar_pipeline/ledger/posting.py:86-92 | however often posting runs, a line of an extraction has at most one row |
| Outcomes.PostedExactly | ar_pipeline/ledger/posting.py:75-143 | a first posting gives a row to exactly the lines that name an invoice and, as adjustments, take something off one the ledger has |
| Backfill.LedgerBackfill | ar_pipeline/ledger/posting.py:146-159 | re-posting every approved payment equals folding posting over them, and the row count it returns is what it added |
| Backfill.BackfillConverges | ar_pipeline/ledger/posting.py:146-159 | the first run posts every invoice line, the second only adjustments, a third nothing |
| Backfill.TwoRunsExactly | ar_pipeline/ledger/posting.py:146-159 | after two runs the rows are the old ones and one for every line that can be posted with the final invoices |
| Backfill.BackfillOrderIrrelevant | ar_pipeline/ledger/posting.py:146-159 | the invoice keys and the set of (extraction, line, key, amount) then do not depend on the processing order |
| SecondRun.SecondRunPosts | ar_pipeline/ledger/posting.py:93-101 | a second run can have something to post: of two payments that pass the validator, the adjustment of the one listed before the payment that creates its invoice |
| Balance.Balances | ar_pipeline/ledger/balance.py:64-83 | the grouped pass over payment rows gives each invoice its paid amount, outstanding amount and status |
| Balance.AwaitingByKey | ar_pipeline/ledger/balance.py:90-105 | the dictionary filled from pending payments is, for every key, the sum of what their lines would settle, less what the excluded payment would |
| Conservation.ApprovalConserves | ar_pipeline/ledger/balance.py:90-105 | approving keeps awaiting plus posted on every invoice the ledger then has; what leaves is exactly what goes to a missing invoice |
| Conservation.RecordingConserves | ar_pipeline/review/service.py:436-477 | the same for marking already recorded |
| Conservation.OnlyAdjustmentsLeave | ar_pipeline/ledger/posting.py:93-101 | only adjustments can point at an invoice that is missing afterwards: an invoice line's money is never lost |
| Matching.OneEditApart | ar_pipeline/ledger/matching.py:30-40 | the prefix scan answers exactly whether the edit distance is one |
| Matching.DistanceSymmetric | ar_pipeline/ledger/matching.py:30-40 | edit distance, and so the scan, is symmetric |
| Matching.OneDigitApartIsOneEdit | ar_pipeline/ledger/adjustments.py:35-39 | the deletion test written for adjustments is edit distance one between different lengths, and symmetric |
| Adjustments.Unique | ar_pipeline/ledger/adjustments.py:42-50 | the loop with a `seen` set keeps the first number of each key |
| Adjustments.KeepsOneOfEachKey | ar_pipeline/ledger/adjustments.py:42-50 | it keeps numbers it was given, one per key, and misses no key |
| Adjustments.TargetIsUniqueAndOwn | ar_pipeline/ledger/adjustments.py:53-76 | an adjustment gets a target by itself if and only if its number has four digits or more and one invoice alone has them, among the payment's own or else in the ledger and there of this payer; the target is that one |
| Adjustments.SuggestionsResemble | ar_pipeline/ledger/adjustments.py:53-76 | every suggestion has the same digits or one more or fewer; a same-length different number is never suggested |
| Adjustments.ResolveAdjustments | ar_pipeline/ledger/adjustments.py:109-121 | only targets of adjustments without one change, to an own invoice with the same digits |
| Adjustments.FlagAdjustments | ar_pipeline/ledger/adjustments.py:136-160 | one flag for each adjustment whose target is unknown or missing |
| CsvImport.ImportOpenInvoices | ar_pipeline/ledger/csv_import.py:158-208 | the loops import the file row by row; skipped rows are exactly the repeated and the refused ones |
| CsvImport.ImportPointwise | ar_pipeline/ledger/csv_import.py:158-204 | each invoice is what its only row makes of it; a number the file repeats or lacks is left alone |
| CsvImport.OutstandingAfterImport | ar_pipeline/ledger/csv_import.py:199-203 | with outstanding O and same-currency postings P, outstanding becomes min(O, amount - P); a new invoice gets O; a refused row changes nothing |
| CsvImport.ImportTwice | ar_pipeline/ledger/csv_import.py:126-208 | importing the same file twice leaves the ledger as after once |
| CsvImport.ImportOrderIrrelevant | ar_pipeline/ledger/csv_import.py:158-204 | the order of the rows does not matter |
| Numbers.ParseAmount | ar_pipeline/tables/numbers.py:26-55 | the step-by-step rewriting parses what the composed grammar of signs, brackets, commas and digits says |
| Numbers.IndianGrouping | ar_pipeline/ledger/money.py:9-19 | the loop shrinking `head` gives the recursive grouping |
| Numbers.GroupingLayout | ar_pipeline/ledger/money.py:9-19 | only single commas are inserted, before the last three digits and each pair further left; removing them gives the digits back |
| Numbers.PrintParseRoundTrip | ar_pipeline/ledger/money.py:22-28 | parsing a printed rupee amount gives it back, for every amount in whole paise |
| Numbers.SignedForms | ar_pipeline/tables/numbers.py:34-55 | "(s)", "s-" and "-s" all parse to minus s, "s/-" to s |
| Numbers.BracketsKeepNegative | ar_pipeline/tables/numbers.py:34-44 | a second sign does not undo the first |
| Words.Value | ar_pipeline/tables/words.py:60-78 | the loop over number words computes the fold of the reading automaton |
| Words.SpellingRoundTrip | ar_pipeline/tables/words.py:60-78 | for every n below 10^10 the value of its Indian words is n, with fillers anywhere |
| Words.FillersChangeNothing | ar_pipeline/tables/words.py:73-77 | "and" and "only" anywhere change nothing |
| Words.CroreCountBound | ar_pipeline/tables/words.py:60-78 | a crore count is read back if and only if it is from 1 to 999 |
| Words.ParseRun | ar_pipeline/tables/words.py:99-123 | the parser of one run of words computes the amount its grammar defines |
| Words.RupeesAndPaiseRoundTrip | ar_pipeline/tables/words.py:99-123 | rupees and paise are recovered together from "... rupees ... paise only", with fillers anywhere |
| Words.AndPaiseRoundTrip | ar_pipeline/tables/words.py:99-123 | the same when the last "and" is the cut |
| Words.WholeRupeesRoundTrip | ar_pipeline/tables/words.py:99-123 | whole rupees are recovered |
| Words.FindRuns | ar_pipeline/tables/words.py:81-96 | the loop collects the runs of vocabulary words |
| Words.RunsSplit | ar_pipeline/tables/words.py:81-96 | a word outside the vocabulary, or "only", separates runs |
| Words.AmountInWords | ar_pipeline/tables/words.py:126-138 | the amount of the longest run that names one, the first of them, or none when none does |
| Words.PrintedAmountIsFound | ar_pipeline/tables/words.py:126-138 | an amount spelled out among other words is found with exactly its value |
| Splitter.LinearizeHtml | ar_pipeline/threads/splitter.py:119-159 | the explicit-stack walk gives the text and table offsets of the recursive document-order flattening, and terminates on the size of what is stacked |
| Splitter.RecordedOffsets | ar_pipeline/threads/splitter.py:149-152 | every recorded offset is where the table's own text starts in the linear text |
| Messages.KeepBoundaries | ar_pipeline/threads/splitter.py:272-278 | kept boundaries are matches, sorted and disjoint, and every dropped match starts inside a kept one |
| Messages.SplitText | ar_pipeline/threads/splitter.py:304-334 | one part for each span but a blank top, numbered from 0, with its own text and the tables that start in its body |
| Messages.NothingIsLost | ar_pipeline/threads/splitter.py:304-334 | headers and bodies concatenate to the whole text, apart from a blank top |
| Messages.OneBody | ar_pipeline/threads/splitter.py:305-312 | a position lies in exactly one body, or in a kept header and no body |
| Messages.TableGoesToOnePart | ar_pipeline/threads/splitter.py:315-320 | a table goes to exactly one part if and only if it starts in neither a kept header nor a blank top, and otherwise to none |
| LostTables.TopTableIsLost | ar_pipeline/threads/splitter.py:315-320 | an HTML advice whose one table begins with the rows of a quoted header, whatever payment lines follow: the walk records the table above the header, on the blank top, and no split has it in any part |
| LostTables.SplitTableIsLost | ar_pipeline/threads/splitter.py:315-320 | the same when the sender stands above the table: the table starts inside the quoted header |
| Messages.SplitEmail | ar_pipeline/threads/splitter.py:288-334 | the whole split: no part for a blank body, else parts as above with every table accounted for |
| References.KeyStrength | ar_pipeline/threads/references.py:82-97 | exactly when a payment has a strong, a weak or no key |
| References.BankKeysAgree | ar_pipeline/threads/references.py:86-88 | two bank payments share a key if and only if their references agree up to case and separators |
| References.SeparatorIgnored | ar_pipeline/threads/references.py:36-37 | a separator anywhere in a reference leaves its key alone |
| References.CaseIgnored | ar_pipeline/threads/references.py:36-37 | so does the case of its letters |
| References.NormalizeRefIdempotent | ar_pipeline/threads/references.py:36-37 | a normalised reference is its own normal form |
| References.FinancialYearBounds | ar_pipeline/threads/references.py:73-79 | the financial year runs from 1 April up to the next 1 April |
| Dedupe.AssignPaymentKey | ar_pipeline/threads/dedupe.py:37-110 | the row is set step by step to the specified one; nothing else changes |
| Dedupe.AssignedIs | ar_pipeline/threads/dedupe.py:43-110 | a payment takes only its own payload's key, a strong one only if nobody owns it, and becomes a duplicate exactly when the owner's payment is for the same money |
| Dedupe.AssigningKeepsOneOwner | ar_pipeline/threads/dedupe.py:63-92 | assigning keeps one live owner per strong key |
| KeyRace.ConcurrentClaimsKeepOneOwner | ar_pipeline/threads/dedupe.py:32-72 | however arrivals, re-keyings, rejections and approvals interleave, and however keys share locks, no two committed live payments own one strong key, as long as approvals find their payments still live; the unique index is not used |
| KeyRace.IndexKeepsOneOwner | ar_pipeline/db/models.py:197-205 | with the index as a guard of every commit the same holds whatever approvals land on |
| KeyRace.IndexStopsExactly | ar_pipeline/db/models.py:197-205 | an approval landing on a payment rejected since it was read is stopped by the index if and only if the key has another owner by then |
| KeyRace.IndexIsNeeded | ar_pipeline/review/service.py:591-611 | and it can come to that: a payment read as pending, rejected by another transaction, its key taken by a third, and then approved, gives two live owners unless the index stops it |
| DecisionRace.DecisionStandsExactly | ar_pipeline/review/service.py:578-702 | simultaneous decisions on one payment: once approved or recorded it keeps its status, payload and deliveries in every continuation if and only if no transaction still open read it before and decides otherwise |
| DecisionRace.LoneDecisionStands | ar_pipeline/review/service.py:578-597 | in particular if, at its commit, no other open transaction had read the payment while it could be decided |
| DecisionRace.RacesKeepBacked | ar_pipeline/pipeline/routing.py:21-35 | in every interleaving an approved payment has a delivery, a posted one its rows, and neither is ever taken back |
| DecisionRace.BothGoThrough | ar_pipeline/review/service.py:578-611 | any two decisions that a pending payment allows can both go through when both read it first; the second overwrites the columns it sets |
| DecisionRace.RejectedYetPosted | ar_pipeline/deliver/deliverer.py:106-110 | so approving and rejecting at once can leave a rejected payment with ledger rows and a delivery |
| DecisionRace.ApprovedTwice | ar_pipeline/pipeline/routing.py:21-35 | and two approvals at once two deliveries |
| DecisionRace.EditedAfterApproval | ar_pipeline/review/service.py:656-702 | and an edit at once with an approval an approved payment holding edits that nothing posted |
| KeyRace.CommitOneOwner | ar_pipeline/threads/dedupe.py:63-92 | the lock taken before the lookup makes the lookup good until the commit |
| ThreadBackfill.CreateMessages | ar_pipeline/threads/backfill.py:24-50 | one message for each finished email without any, its sources and payments moved to it |
| ThreadBackfill.AssignKeys | ar_pipeline/threads/backfill.py:51-91 | the loop keys the listed rows in order, and counts the keys and conflicts it adds |
| ThreadBackfill.KeyedRowIs | ar_pipeline/threads/backfill.py:65-90 | a row gets its key, or is linked to the live owner of that strong key and says so |
| ThreadBackfill.BackfillTwice | ar_pipeline/threads/backfill.py:51-91 | running it again, in any order, changes nothing |
| ThreadBackfill.BackfillKeepsOneOwner | ar_pipeline/threads/backfill.py:65-90 | keys assigned without a lock still have one owner each |
| Validators.ValidatePayload | ar_pipeline/normalize/validators.py:33-117 | the series of loops gives the specified flags, in order |
| Validators.NoFlagsExactly | ar_pipeline/normalize/validators.py:33-117 | no flag if and only if every line and the header are clean, numbers are distinct, the total adds up and the dates fit |
| Dates.DaysCountUp | ar_pipeline/normalize/validators.py:80-92 | day numbers, by which dates are subtracted, count calendar days: each day is one more than the day before |
| Dates.DatesInOrder | ar_pipeline/normalize/validators.py:80-92 | dates compare as their day numbers do |
| Recheck.RecheckPayment | ar_pipeline/normalize/recheck.py:47-52 | keeps the sticky flags and adds the fresh ones not among them |
| Recheck.RecheckedAre | ar_pipeline/normalize/recheck.py:27-52 | afterwards a payment carries exactly the flags its payload earns now and the sticky ones it had |
| Recheck.RecheckIsStable | ar_pipeline/normalize/recheck.py:47-52 | rechecking against the same books changes nothing |
| Routing.ApproveAndQueue | ar_pipeline/pipeline/routing.py:21-35 | approves, signs, queues one delivery and posts, as specified |
| Routing.SettleEmail | ar_pipeline/pipeline/routing.py:38-47 | the email is done once nothing of it is pending |
| Review.ApproveExtraction | ar_pipeline/review/service.py:591-597 | the call refines its specification, refusals included |
| Outcomes.ApproveIsExact | ar_pipeline/review/service.py:578-597 | refused with nothing changed unless pending and a payment; otherwise approved and signed, its lines posted, one delivery queued, its email closed if it was the last |
| Review.RejectExtraction | ar_pipeline/review/service.py:600-611 | the call refines its specification, refusals included |
| Outcomes.RejectIsExact | ar_pipeline/review/service.py:600-611 | refused without a reason or when not pending; otherwise only status, reviewer and reason change, nothing is posted or queued |
| Review.MarkAlreadyRecorded | ar_pipeline/review/service.py:436-477 | the loop records payment by payment, stops at a linked one unless told to skip, and counts what it recorded |
| Outcomes.RecordIsExact | ar_pipeline/review/service.py:465-476 | recorded and signed, lines posted, nothing queued |
| Outcomes.BulkRecording | ar_pipeline/review/service.py:447-476 | in bulk exactly the pending, historical, unlinked payments asked for are recorded |
| Review.SaveEdits | ar_pipeline/review/service.py:614-702 | the call refines its specification: refusal before anything is written, or edits stored, re-keyed and perhaps approved |
| Operations.SaveIsExact | ar_pipeline/review/service.py:656-702 | exactly when a save is refused, and that it then changes nothing; otherwise the payload is stored, the key follows it, and it is approved if and only if that was asked for and no flag appeared that was not shown; a save held back by new flags keeps the edits and their flags, and queues and posts nothing |
| Operations.SavedKeeps | ar_pipeline/review/service.py:656-693 | re-keying never produces a duplicate and keeps one owner per key |
| Review.ReprocessEmail | ar_pipeline/review/service.py:759-783 | the loop supersedes exactly the affected payments, or refuses |
| Operations.ReprocessClears | ar_pipeline/review/service.py:759-783 | nothing of the email is left pending, nothing posted is touched, and each message concerned can be read afresh |
| Review.RetryEmail | ar_pipeline/review/service.py:841-861 | an errored email goes back to where its sources allow, its failed messages become new |
| Review.RetryMessage | ar_pipeline/review/service.py:876-889 | a failed message becomes new and its email waits to be read |
| Review.ResendDelivery | ar_pipeline/review/service.py:827-838 | a failed delivery starts over |
| LostRetry.RetrySurvivesApproval | ar_pipeline/pipeline/routing.py:38-47 | an email waiting to be read again is closed by an approval if and only if nothing else of it is pending |
| LostRetry.RetriedMessageIsLost | ar_pipeline/review/service.py:876-889 | a run from the empty system loses a message put back by a reviewer: its email is done while the message is new, and however the run goes on no step, retry or reading takes it up again |
| LostRetry.ClosedForever | ar_pipeline/pipeline/routing.py:38-47 | no operation ever touches a closed email none of whose messages failed |
| Normalize.NormalizeGroup | ar_pipeline/normalize/service.py:92-190 | one row per payment, or one empty row, each envelope naming its own row |
| AutoApproval.HistoryIsNeverUnseen | ar_pipeline/threads/dedupe.py:113-150 | unless it is a duplicate, a payment is historical if and only if it is of an earlier message or from before go-live; it is then never approved unseen, waits where it can be marked already recorded, and says why |
| AutoApproval.HistoryFlagStays | ar_pipeline/normalize/recheck.py:27-52 | no recheck takes that reason away, whatever is edited |
| Normalize.Route | ar_pipeline/normalize/service.py:193-219 | the loop routes the message's payments in order |
| AutoApproval.ApprovedUnseenWhen | ar_pipeline/normalize/service.py:199-219 | exactly when a payment is approved unseen |
| AutoApproval.PipelineNeverOverpays | ar_pipeline/normalize/service.py:193-219 | from any reachable state, however long the pipeline runs on its own, no existing invoice becomes overpaid |
| Normalize.NormalizeOne | ar_pipeline/normalize/service.py:222-272 | the loop over groups refines its specification; when its exception escapes nothing has changed |
| Normalize.GroupsAre | ar_pipeline/normalize/service.py:44-80 | the groups are exactly the messages left to read, the whole-email group first, then older before newer |
| ReadOnce.NothingLeftToRead | ar_pipeline/normalize/service.py:60-77 | after an email is normalized no message of it is left to read |
| Advance.Classify | ar_pipeline/pipeline/advance.py:267-320 | messages are split once, sources added, or the email is done |
| Advance.ClassifiedMeans | ar_pipeline/pipeline/advance.py:291-320 | when classification ends an email, and that otherwise it has a source |
| Advance.Extract | ar_pipeline/pipeline/advance.py:323-366 | the loop reads each waiting source; the fall-through that would leave the email classified is unreachable |
| Advance.ExtractedExactly | ar_pipeline/pipeline/advance.py:339-364 | extracted if and only if every live source has been read; a source read before is not read again |
| Advance.Step | ar_pipeline/pipeline/advance.py:126-143 | one step, or the error status alone when it raises |
| Advance.AdvanceOnce | ar_pipeline/pipeline/advance.py:74-123 | the batch loop steps each email once and counts the outcomes |
| Advance.StepLowersRank | ar_pipeline/pipeline/advance.py:126-143 | every step strictly lowers the rank of its email and leaves the others alone |
| Advance.TicksTerminate | ar_pipeline/pipeline/advance.py:90-123 | however often it is ticked, the pipeline takes at most three steps for each email |
| Deliver.Store.Receive | stub_backend/app.py:134-149 | a repeated key is answered with the first id and stores nothing; otherwise the payload is stored |
| Deliver.FirstRequestWins | stub_backend/store.py:59-66 | of all requests with one key the first is the one stored: its id answers the others, and with ids as keys its payload is never replaced |
| Deliver.SecondRequestStoresNothing | stub_backend/app.py:141-145 | a second request with a key changes nothing, whatever it carries |
| Deliver.Send | ar_pipeline/deliver/backend_client.py:47-61 | what reaches the backend and what the sender learns, for every fate of the request |
| Deliver.DeliverOne | ar_pipeline/deliver/deliverer.py:102-130 | one attempt on a row, undone but for the failure when the client raises |
| Deliver.RetryLadder | ar_pipeline/deliver/deliverer.py:112-130 | retries wait 1, 5, 30, 120 and 360 minutes, the sixth failure is final, answers and refusals are not retried |
| Deliver.RunDeliveries | ar_pipeline/deliver/deliverer.py:49-90 | the batch loop tries each due row once and counts the outcomes |
| Lifecycle.Reachable | ar_pipeline/review/service.py:436-783 | in every state of every run: one owner per key; rows only for approved and already recorded payments, one per line, saying what the line says; exactly one delivery per approved payment; the backend holds only approved payloads and all delivered ones; email status agrees with what is pending; sources are read at most once |
| Lifecycle.PostedIsForever | ar_pipeline/pipeline/routing.py:21-35 | approved and already recorded are absorbing, their payload is frozen, their rows stay, and what the backend received is never replaced |
| Lifecycle.StepKeeps | ar_pipeline/review/service.py:436-889 | every operation keeps the invariant |
| Lifecycle.DeliveredIsApproved | ar_pipeline/deliver/deliverer.py:106-110 | the branch "no longer approved" is unreachable, and the payload names its own id |
| Lifecycle.AtMostSixSends | ar_pipeline/deliver/deliverer.py:125-130 | without a resend a payment is sent at most six times |
| Lifecycle.AttemptsCount | ar_pipeline/deliver/deliverer.py:102-104 | attempts count exactly the sends since the last resend |
| Operations.QueuedKeeps | ar_pipeline/pipeline/routing.py:21-35 | approving and queueing keeps the invariant of the database |
| Intake.NormalizedKeeps | ar_pipeline/normalize/service.py:222-272 | reading an email keeps the invariant and the agreement of email status |
| Columns.KeywordMapping | ar_pipeline/tables/mapping.py:153-174 | the nested loops give each column the first free role that fits |
| Columns.KeywordsUsable | ar_pipeline/tables/mapping.py:153-174 | a keyword mapping gives each role a column of its own in the table, required roles included |
| Columns.ValidateMapping | ar_pipeline/tables/mapping.py:186-196 | the loop builds the mapping or gives up at the first misfit |
| Columns.ValidatedIs | ar_pipeline/tables/mapping.py:186-196 | an answer is taken if and only if it assigns each role and column once, inside the table, with the required roles; the mapping is then what it says |
| Columns.OutputValidates | ar_pipeline/tables/mapping.py:177-196 | validating the output of a usable mapping, in any order, gives the same mapping back |
| Columns.KeywordsValidate | ar_pipeline/tables/mapping.py:153-196 | in particular for the keyword mapper |
| Columns.SignatureInjective | ar_pipeline/tables/mapping.py:47-52 | headers with one signature have the same compacted cells, so the same number of columns |
| Columns.MappingStore.LoadMapping | ar_pipeline/tables/store.py:15-19 | a saved mapping is usable for every later header with its signature |
| Columns.MappingStore.SaveMapping | ar_pipeline/tables/store.py:22-37 | saving keeps the store's invariant and replaces what was there |
| Columns.MappingStore.TouchMapping | ar_pipeline/tables/store.py:40-46 | only the use count changes |
| Columns.MappingStore.DiscardMapping | ar_pipeline/tables/store.py:49-51 | the signature's mapping is gone, the others stay |
| LineTables.FindLineTable | ar_pipeline/tables/mapping.py:82-108 | the line table when there is exactly one candidate |
| LineTables.CandidateIs | ar_pipeline/tables/mapping.py:73-107 | a line table is cut in order: no figure above its header, the last total row below it, and exactly the unlabelled rows between |
| Rows.ReadRow | ar_pipeline/tables/mapping.py:231-283 | the branches of one row give the line `Rows.LineIsItsRow` characterises, or none |
| Rows.LineIsItsRow | ar_pipeline/tables/mapping.py:243-282 | figures are copied; an adjustment invoices nothing and pays back its one deduction; a missing gross or net is made to balance; invoice amounts are not negative |
| Rows.ReadInOrder | ar_pipeline/tables/mapping.py:231-283 | each line comes from one row, rows in order, none left out |
| Rows.ApplyMapping | ar_pipeline/tables/mapping.py:224-296 | fails exactly on differing bank references or no lines; otherwise the kept lines and the figures of the total row, labelled or not |
| Rows.TableReadsAreSound | ar_pipeline/tables/reader.py:64-81 | a payload made of such lines never fails validator checks 2 and 10 |
| Totals.FlagTotals | ar_pipeline/tables/totals.py:50-65 | no flag if and only if every printed total and the amount in words is within 1.00 of what was extracted |
| Totals.NetIsPaid | ar_pipeline/tables/totals.py:45 | the net column is compared with what the payment pays in all |
| Reader.ReadByTable | ar_pipeline/tables/reader.py:84-148 | an accepted read is sound; a saved mapping that misfits or disagrees is discarded; a learned one is saved only when the document's own totals agree; other signatures are untouched |
| Reader.AcceptedReadsAreSound | ar_pipeline/tables/reader.py:119-148 | an accepted read passes checks 2 and 10; every figure of the table's total row, of whichever column, is within 1.00 of what the lines give for it; the payment's total is within 1.00 of the printed net and of the amount in words |
| PdfTables.Merge | ar_pipeline/extract/pdf.py:54-69 | the in-place loop gives the specified tables |
| PdfTables.MergeLosesNothing | ar_pipeline/extract/pdf.py:54-69 | down every column the merged tables read as the pages do, spaces and repeated headers aside |

## Left out

- Mailboxes, HTTP, blob storage, the AI calls and the user interface: their answers are inputs, arbitrary
  unless a `requires` says otherwise.
- Regular-expression matches, date cells and date parsing: inputs. Quoted-header matches are any intervals
  that are not empty and lie in the text.
- HTML and PDF parsing: the splitter starts from a tree, the table code from rows of cells.
- Characters outside ASCII: letters are upper- and lower-cased one at a time, digits are 0 to 9.
- Numbers.ParseAmount: reads ASCII text only, and an amount with more than two decimals is cut to paise before
  line arithmetic.
- Recheck.RecheckPayment: the flags of the printed totals stored with a payment and of the client-name check
  are the input `others`, here and in `Normalize`; the totals check itself is modelled in `Totals` and used by `Reader`.
- Review.SaveEdits: an edit that only rewrites an amount's text counts as no change of the key, and the
  audit rows of the edits are not kept.
- Lifecycle.Reachable: each call and each step is one atomic transaction here, as in `PostedIsForever` and
  `DeliveredIsApproved`; what interleaving changes is in `LockProtocol`, `KeyRace` and `DecisionRace`, each for
  the columns it is about.
- DecisionRace.DecisionStandsExactly: the flags and key columns of the payment are not followed there.
- LostRetry.ClosedForever: selecting an email and stepping it are one operation here. A tick selects up to
  twenty emails first and steps them one by one, so an email selected before it was closed is still read.
- LockProtocol.ConcurrentApprovalsNeverOverpay: of invoices the check found, and by `CreatedInvoiceStaysSafe`
  of created ones nobody had looked up in vain; for the others see `NewInvoiceRace`.
- KeyRace.ConcurrentClaimsKeepOneOwner: of runs whose approvals find their payments still live; for others
  `IndexKeepsOneOwner`, with the index.
- CsvImport.ImportOpenInvoices: starts from parsed rows; decoding, the size limits, the per-row error texts
  and the invoice's note are not modelled.
- Deliver.DeliverOne: the payload is delivered as stored; rewriting rows from before the current schema is not
  modelled. A stored payload that cannot be read at all does not occur.
- Words.FindRuns: starts from words already cut from the text.
- Words.AmountInWords: the same.
- Advance.Classify: what the attachments and the body hold, and so which sources there are, is an input.
- LineTables.FindLineTable: which cells are labels of a total row is an arbitrary predicate.
- Columns.SignatureInjective: the stored signature is a hash, taken to be injective.
- Checks.CheckAgainstLedger: the near matches listed in a flag's text are not part of the flag, only that
  there are some.
- Thread memory (messages already seen), classification of attachments, listing views, bulk rejection and
  use of suggested invoices: rules and wrappers around the operations above, without deep invariants.
- Timestamps other than the delivery clock and the time of review.
