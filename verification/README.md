# Payment ingestion: crawl, crediting and webhooks

A Dafny model of the payment gateway's ingestion pipeline and proofs about it.

- **The crawl.** A daemon per token walks an append-only account ledger in pages of `limit`
  transactions, newest first, remembers each page's cursor on a stack, stops at the first page that holds a
  recorded transaction, and replays the stack so that pages are handled oldest to newest.
- **The crediting transaction.** Four tables (charges, charge transactions, processed transactions,
  webhooks) with unique keys. Reads see whatever others have committed in between; commits are all or
  nothing and may succeed while the caller sees an error.
- **The webhook outbox.** One sender takes a snapshot of the unsent rows, delivers them in order, marks
  each after its acknowledgement, and stops at the first failure.
- **Amounts and memos.** Integer units to a double and back, and comment text to a positive integer.

## How it is modelled

Code that works step by step is imperative: `Iterator.TransactionIterator`, `Charges.ChargeService`,
`Daemons.TONDaemon` and `Webhooks.WebhookService` are classes whose methods follow the source's branches,
loops and early returns. Nested `try`/`catch` blocks appear as result values. Amounts, memo parsing and the
per-transaction classification are functions.

Everything the code does not control is a parameter of `World.World`, indexed by a clock that ticks at every
awaited call: the ledger a call sees (`ledgerAt`, which only grows), whether the call works, is lost, or takes
effect unseen (`fault`), and what others have committed meanwhile (`rival`: charges, other daemons' records and
credits, sent flags; any change that keeps the tables' invariant, deletes nothing and takes back no sent flag).
A contract that holds for every `World` holds for every such environment. `Untouched` is the set of transactions that
nobody else records, `Alone` says that nobody else writes at all, `Calm(a, b)` that no call fails between two ticks,
and `SoleSender` that no other webhook sender is at work.

What becomes of one transaction is told by its fields in `Rules`, which amounts are payments for which memo and which
transactions are recorded with which note, and the daemons are proved to decide exactly so.

What a run did is one relation, `Progress.Left`: in every environment the handled front part of the plan is recorded,
of the untouched transactions nothing else is, and each of them is credited as its own checks decide or not at all, and
recorded as they decide or with the note of a catch around a failed call; without faults the decision is carried out,
and the run breaks off only at a transaction that others record or whose wallet query is not answered; and alone the
tables are exactly those of handling the plan in order.

`System` composes all of it into one transition system on values: ledger arrivals, charge creation, any number of
daemon runs for any token interleaved one awaited call at a time, one webhook sender, faults, lost
acknowledgements, crashes. A run is any list of actions, and the theorems in `Invariants`, `Conservation` and
`Delivery` speak of the state after every list. Four modules connect the two forms. `Tracks`: among all other actions
and faults, every daemon run stays on a plan like that of the `Process` method. `Faults`: what failing calls leave.
`Solo`: a daemon run left to itself in `System` ends in the same tables as the method. `Passes`: among all other
actions, every pass of the sender is one that the webhook service's contract describes. `Witness` shows that the
assumptions can be met: sequences, environments with and without other writers, and runs in which payments are credited
and announced.

| module | content |
|---|---|
| `Base`, `Ledger`, `Memo`, `Amount` | shared types, the paged ledger, comment parsing, amount conversion |
| `Tables`, `Screening` | the four tables and their invariant; what one transaction means to a daemon |
| `Rules` | the same by the fields of the transaction |
| `World`, `Iterator`, `Charges`, `Daemons`, `Webhooks` | the imperative code |
| `Verdicts`, `Progress` | what work on one transaction, and on a list, does to shared tables |
| `Crawl`, `Coverage`, `Recovery` | the exact itinerary of a run, what it covers, and what later runs that get through make up for |
| `Completion`, `Runs` | which runs get through, what is recorded and credited by those that do and those that do not |
| `System`, `Accounts`, `Invariants`, `Conservation`, `Delivery` | the composed system, the ledgers in it, and its reachable states |
| `Tracks`, `Faults`, `Solo`, `Passes`, `Witness` | its daemon runs and sender passes against the imperative code; that the assumptions can be met |

The code does not meet the simple specification "every ledger transaction ends up recorded", for three reasons.

- Transactions that arrive during a run can be passed over (`Recovery.GrowthLoses`).
- So can transactions that arrive between a run that was cut short and the next (`Recovery.MisalignedLoses`).
- The `get_wallet_data` query of a jetton daemon stands outside its `try` blocks, so an unrecorded transfer from an
  address that does not answer it ends every run at that point, without any fault (`Witness.PoisonBlocks`); running again
  on the same ledger changes nothing (`Completion.TryingAgain`), and no run ever records it (`Completion.BlockedForGood`).

Exactly when a faultless run leaves the whole ledger recorded is proved on the tables, all three reasons included, for a
ledger at rest, one that grows during the run, and one after an abort (`Completion.QuietRunComplete`,
`GrowingRunComplete`, `RecoveringRunComplete`, `RunAfterAbort`, `RunsComplete`), and what is recorded otherwise in
`Completion.RecordedIndices`. `Recovery.LostForever` shows that what is passed over is lost for good.

## Documentation and code

- The repository's README promises webhooks "from oldest to newest". The code orders by `createdAt`, which is the
  start of the crediting transaction, not its commit. The model follows the code: full order holds when creation
  times follow the commits (`Delivery.InOrder`); without that assumption it holds pairwise, for a webhook both
  created and committed before another (`Delivery.EarlierFirst`), and fails in general (`Witness.OutOfOrder`).
- The repository's README shows the webhook's amount as a string; the code sends a number, which is what `Amount` models.

## Model

| member | source | states |
|---|---|---|
| Ledger.PageStable | src/gateway/ton/ton-transaction.iterator.ts:25-29 | Every page fetched under a cursor reads the same after any growth of the ledger. |
| Ledger.ScanFrom | src/gateway/ton/ton-transaction.iterator.ts:20-45 | From any page on, the pages of a scan that runs to the end are the rest of the ledger, newest first. |
| Ledger.Partition | src/gateway/ton/ton-transaction.iterator.ts:20-45 | An exhausted scan shows every ledger transaction exactly once, also when the length is a multiple of the limit. |
| Iterator.TransactionIterator.Next | src/gateway/ton/ton-transaction.iterator.ts:20-45 | On a growing ledger `next` returns page m of the grid of the first fetch, m being the stack height, pushes the live cursor, can go on iff m is not the last page, throws "Cannot next" iff it could not go on, and a failed fetch changes nothing. |
| Iterator.TransactionIterator.Record | src/gateway/ton/ton-transaction.iterator.ts:31-42 | After a fetch the stack is the cursors of pages 0 to m and the live cursor that of the next page, or of this one if it is the last; the forward measure falls. |
| Iterator.TransactionIterator.Back | src/gateway/ton/ton-transaction.iterator.ts:55-67 | `back` pops one cursor and returns that page of the original grid whatever arrived since, except page 0, which shows the newest transactions of now; it throws "Cannot back" iff the stack is empty. |
| Iterator.PushKeepsGrid | src/gateway/ton/ton-transaction.iterator.ts:31-42 | Stack and live cursor stay on the page grid: a full page moves the cursor to the next page, a short one is the last page. |
| Iterator.ThereAndBack | src/gateway/ton/ton-transaction.iterator.ts:20-67 | m calls of `next` and m of `back` return the same pages in reverse, whatever arrives in between, except that page 0 comes back as it is by then, the same if nothing arrived. |
| Memo.Validate | src/gateway/ton/ton.daemon.ts:104-106 | An accepted comment denotes a positive integer. |
| Memo.MemoRoundTrip | src/gateway/ton/ton.daemon.ts:104-106 | The decimal form of every positive memo, with any leading zeros and any surrounding white space, is read as that memo. |
| Memo.AcceptedDigits | src/gateway/ton/ton.daemon.ts:104-106 | A comment of plain digits is accepted as m iff it is m's decimal form with leading zeros and m is positive. |
| Memo.AcceptedIff | src/gateway/ton/ton.daemon.ts:104-106 | Any comment is accepted as m iff m is positive and the comment is, within white space, a numeral of positional value m: decimal with or without a plus sign, or hexadecimal, octal or binary with its prefix. |
| Memo.DigitsPositional | src/gateway/ton/ton.daemon.ts:104-106 | The digit loop accepts exactly the numerals of a base and reads them at their positional value. |
| Memo.PrintInjective | src/gateway/charge/charge.service.ts:92-96 | Different memos have different decimal forms, so looking a charge up by its printed memo is unambiguous. |
| Memo.EdgeCases | src/gateway/ton/ton.daemon.ts:104-106 | Blank, zero, negative, fractional and split comments are refused; a plus sign and a hexadecimal form are accepted. |
| Memo.SpaceTable | src/gateway/ton/ton.daemon.ts:104-106 | The trimmed characters are the 25 white space and line terminator code points. |
| Memo.DigitTable | src/gateway/ton/ton.daemon.ts:104-106 | The digits of a numeral count from 0 to f, in either case, and nothing else is a digit. |
| Amount.UnitIsPowerOfTen | src/gateway/utils/token.service.ts:5-34 | The unit used for a token is ten to the power of its decimals. |
| Amount.NearestIsClosest | src/gateway/utils/token.service.ts:36-39 | The double an amount is shown as is nearest: no double is closer to the exact quotient. |
| Amount.FormatIsClosest | src/gateway/utils/token.service.ts:36-39 | No double is closer to the amount over ten to the token's decimals than the one shown. |
| Amount.TiesToEven | src/gateway/utils/token.service.ts:36-39 | Halfway between two mantissas the even one is taken. |
| Amount.RoundTrip | src/gateway/utils/token.service.ts:36-44 | Every amount up to the token's limit is read back exactly after being shown as a double. |
| Amount.RoundTripBelow52 | src/gateway/utils/token.service.ts:36-44 | For every token, every amount below 2^52 is read back exactly. |
| Amount.ParseMeaning | src/gateway/utils/token.service.ts:41-44 | Any double is read as the nearest number of units, the larger one on a tie. |
| Amount.FormatInjective | src/gateway/utils/token.service.ts:36-39 | No two amounts up to the limit are shown as the same number, in whatever mantissa and exponent. |
| Amount.ExactBound | src/gateway/utils/token.service.ts:36-44 | All amounts up to a bound survive the round trip iff the bound is at most the limit, 2^23 * 10^9 for nine decimals and 2^33 * 10^6 for six. |
| Amount.CollisionPastLimit | src/gateway/utils/token.service.ts:36-39 | The two amounts right after the limit are shown as the same double. |
| Tables.MarkCommit | src/gateway/ton/ton.daemon.ts:97-102 | Recording a transaction with a note adds exactly that row, and is refused iff the transaction is recorded already. |
| Tables.CreditCommit | src/gateway/charge/charge.service.ts:131-156 | A crediting commit adds one charge transaction, one note-less processed row and one unsent webhook, or nothing if a unique key or the foreign key is violated. |
| Tables.MarkKeepsInv | src/gateway/ton/ton.daemon.ts:97-102 | Recording with a note keeps the table invariant and every earlier row. |
| Tables.CreditKeepsInv | src/gateway/charge/charge.service.ts:131-156 | A successful crediting commit keeps the table invariant and every earlier row. |
| Tables.MarkSentKeepsInv | src/gateway/webhook/webhook.service.ts:78 | Marking a webhook sent changes the flag of exactly that row and keeps the table invariant. |
| Tables.OneWebhook | src/db/migrations/1771139259564-initial.ts:8-22 | Without a unique key on webhooks, no transaction has two webhooks and no two webhooks share an id. |
| Tables.CreditsStay | src/gateway/charge/charge.service.ts:76-156 | Once a transaction is recorded, credited or not, no commit of anyone adds a credit for it. |
| Tables.CreditedIsProcessed | src/gateway/charge/charge.service.ts:114-129 | In one committed state a transaction with a charge transaction also has a processed row. |
| Tables.OneNote | src/gateway/charge/charge.service.ts:98-141 | A recorded transaction is paid iff its note is null; it never has both a note and none. |
| Tables.FindChargeStable | src/gateway/charge/charge.service.ts:92-96 | The charge found under a memo stays the one found under it for ever. |
| Screening.EnterKeepsInv | src/gateway/charge/charge.service.ts:67-158 | The crediting transaction on one committed state keeps the invariant, and if it does not throw, exactly this transaction is newly recorded. |
| Screening.CreditedIff | src/gateway/ton/toncoin.daemon.ts:24-87 | Undisturbed handling credits a transaction, in its own amount, token and charge, iff it is new, passes the checks, has a positive amount and names an existing charge; otherwise no credit and no webhook appears. |
| Screening.SettleReach | src/gateway/ton/jetton/jetton.daemon.ts:28-126 | Without faults handling a list, in which a transaction may be listed more than once, records exactly what comes before the first unrecorded transaction that makes the wallet query throw, and gets through iff there is none. |
| Screening.SettleAllCompletes | src/gateway/ton/jetton/jetton.daemon.ts:28-126 | So a list is got through iff every transaction on it is recorded or does not make the wallet query throw. |
| Screening.SettleAllKeepsInv | src/gateway/ton/jetton/jetton.daemon.ts:28-126 | Handling a list keeps the invariant and, if it gets through, records exactly the listed transactions. |
| Screening.SettleAllIdempotent | src/gateway/ton/ton.daemon.ts:63-69 | Handling any list of recorded transactions leaves all four tables unchanged. |
| Screening.SettleTwice | src/gateway/ton/ton.daemon.ts:63-69 | Handling a page twice in a row equals handling it once. |
| Rules.ToncoinDecided | src/gateway/ton/toncoin.daemon.ts:24-87 | A TON transaction is handed to crediting, for an amount and a memo, iff it is an internal message to the watched wallet of that amount, with opcode 0 and a text that denotes the memo, and nothing was sent on; otherwise its fields give exactly one note: not interested, incorrect dest, unexpected opcode, no memo or invalid memo. |
| Rules.TransferDecided | src/gateway/ton/jetton/jetton.daemon.ts:75-121 | A jetton transfer is handed to crediting, in its own amount, iff its payload has opcode 0 and a text that denotes the memo; another opcode, no payload or an empty text is noted as no memo, an unreadable field as a parsing error, any other text as an invalid memo. |
| Rules.JettonDecided | src/gateway/ton/jetton/jetton.daemon.ts:28-126 | A jetton transaction gets that far iff it is a notification to the watched wallet whose sender names the right master; every other case has its own note by field conditions, and the wallet query throws iff such a sender does not answer. |
| Rules.OneRule | src/gateway/ton/jetton/jetton.daemon.ts:28-126 | So the fields of a transaction say exactly one thing about it. |
| World.World.CreateCharge | src/gateway/charge/charge.service.ts:23-34 | Creation succeeds iff the call works and the sequences are not used up; the charge carries the payload, a fresh id and a fresh 64-bit memo under which it is found. |
| Verdicts.CreditAttempt | src/gateway/charge/charge.service.ts:131-156 | A crediting commit met by any commits of others: for a new transaction that nobody else records it is never refused and adds no credit but its own; nothing else is recorded. |
| Verdicts.MarkAttempt | src/gateway/ton/ton.daemon.ts:97-102 | The same for recording with a note, which never adds a credit and leaves no other note. |
| Charges.ChargeService.Process | src/gateway/charge/charge.service.ts:67-158 | With any commits of others between its reads and any fault, the invariant holds, earlier rows stay and nothing else is recorded; success means recorded; a new transaction nobody else records is credited in its own amount, token and charge or not at all, and if it is recorded it was credited or had no charge, whatever failed; without faults it succeeds exactly when the input is valid and credits exactly when the charge is there, and succeeds on a recorded transaction; alone, the tables are untouched or as the crediting transaction defines. |
| Charges.ChargeService.Record | src/gateway/charge/charge.service.ts:112-156 | The same for the part after the charge lookup. |
| Verdicts.CreditedUnprocessedRefused | src/gateway/charge/charge.service.ts:114-129 | The insert of the "charge transaction present but not processed" branch is always refused by the unique key. |
| Daemons.TONDaemon.MarkAsProcessed | src/gateway/ton/ton.daemon.ts:97-102 | Success, or a call that does not fail, means recorded; whoever else writes, a new transaction nobody else records gets exactly this note if it is recorded, and is when no call fails, and never a credit; alone, the tables gain exactly the noted row or nothing. |
| Daemons.TONDaemon.CreditOrMark | src/gateway/ton/jetton/jetton.daemon.ts:102-116 | Crediting with its catch: a normal return means recorded, and it throws only if the mark fails or the transaction is recorded; after one fault at most a valid payment is recorded; whoever else writes, one that nobody else records was credited as asked, had no charge, or holds "invalid memo" without a credit, without faults only for an input the crediting transaction refuses. |
| Daemons.TONDaemon.HandleToncoin | src/gateway/ton/toncoin.daemon.ts:24-87 | Whoever else writes, a new TON transaction nobody else records ends as its fields say: credited in its own amount for the memo it carries, or with the exact note of `Rules`, without faults exactly so, and under faults never credited otherwise nor noted otherwise than "invalid memo" for a payment; alone, the tables are untouched, as decided, or hold that note and no credit. |
| Daemons.TONDaemon.HandleJetton | src/gateway/ton/jetton/jetton.daemon.ts:28-126 | The same for a jetton transaction, by its own fields and the master its sender names. |
| Daemons.TONDaemon.HandleNotification | src/gateway/ton/jetton/jetton.daemon.ts:59-121 | From the wallet query on, which throws outside the catches: a transaction whose query is not answered is never recorded, one from a wrong master is noted as scam and never credited, and without faults nothing else ends the run. |
| Daemons.TONDaemon.TryTransfer | src/gateway/ton/jetton/jetton.daemon.ts:76-116 | The inner part of the jetton branch: a normal return carries out what the payload's fields say; it throws without a fault only when a field cannot be read. |
| Daemons.TONDaemon.HandleTransfer | src/gateway/ton/jetton/jetton.daemon.ts:75-121 | The nested try blocks with the outer catch, by the fields of the transfer: whatever fails inside, a normal return means recorded, no catch adds a credit, and besides what the fields say only the catches' own notes are left. |
| Daemons.TONDaemon.HandleTransaction | src/gateway/ton/jetton/jetton.daemon.ts:29-33 | A recorded transaction is skipped and changes nothing; an unrecorded one is handled as above; nothing else is recorded. |
| Daemons.TONDaemon.HandlePage | src/gateway/ton/jetton/jetton.daemon.ts:28-126 | A normal return means every transaction of the page is recorded, with any concurrent commits; in any case a front part is, of the untouched transactions nothing else is, each credited as its own checks decide or not at all; without faults every decision is carried out, and a page of untouched, answered transactions returns normally; alone, the tables are those of handling the page in order. |
| Daemons.TONDaemon.CheckPage | src/gateway/ton/ton.daemon.ts:79-85 | The check answers whether some transaction of the page is recorded. |
| Daemons.TONDaemon.Scan | src/gateway/ton/ton.daemon.ts:41-50 | The forward loop ends however the ledger grows; it stops on a page of the grid with a transaction recorded by then, and no page before it held one recorded at the start; without one it ends on the last page. |
| Daemons.TONDaemon.ReplayPage | src/gateway/ton/ton.daemon.ts:72-77 | One turn of the replay handles the page below, page 0 as it is now. |
| Daemons.TONDaemon.HandleBackward | src/gateway/ton/ton.daemon.ts:72-77 | The replay handles pages m-1 down to 0 of the original grid, the newest refetched; it ends, and a run cut short has recorded a front part of that list. |
| Daemons.TONDaemon.AfterScan | src/gateway/ton/ton.daemon.ts:52-70 | After the forward loop: the stop page as first fetched, then the replay; the null-page fallback is never entered. |
| Daemons.TONDaemon.Process | src/gateway/ton/ton.daemon.ts:36-70 | A run ends under any ledger growth, faults and concurrent commits, for every limit, never with "Cannot next" or "Cannot back". Its plan is the stop page, the pages below it and the newest page refetched; a front part of it is recorded, all of it on a normal return; without faults it returns normally if nobody else records what is on the plan and its wallet queries are answered, and otherwise breaks off at such a transaction; the stop page is the first with a recorded transaction if nobody else records from this ledger; alone, the processed set and, without faults, the tables are known exactly. |
| Progress.LeftThen | src/gateway/ton/ton.daemon.ts:63-77 | Two stretches of work, each on shared tables, add up: what is recorded, what is not, and how each transaction was credited or noted. |
| Progress.LeftRecords | src/gateway/ton/ton.daemon.ts:36-77 | Of the transactions nobody else records, exactly the handled front part of the plan is newly recorded. |
| Progress.LeftReaches | src/gateway/ton/ton.daemon.ts:63-77 | Without faults, on transactions nobody else records, a run handles exactly those before the first that blocks, and returns normally iff none does. |
| Crawl.StopExact | src/gateway/ton/ton.daemon.ts:41-50 | A scan during which others record transactions stops where it would have on the database of its start, if none of them is on this ledger. |
| Coverage.PlanCovers | src/gateway/ton/ton.daemon.ts:36-77 | On a growing ledger a run that stopped on page k handles exactly the newest `limit` transactions of its last fetch and, of the ledger of its first fetch, indices limit to (k+1)*limit-1 for k > 0, page 0 for k = 0, and all from `limit` on without a stop page. |
| Coverage.ExactCoverage | src/gateway/ton/ton.daemon.ts:36-77 | The same with the stop page of the processed set the run started from. |
| Coverage.LimitZero | src/gateway/ton/ton.daemon.ts:36-77 | With limit 0 a run handles nothing. |
| Coverage.StopIsNewest | src/gateway/ton/ton.daemon.ts:41-50 | The stop page is the page of the newest recorded transaction. |
| Coverage.NoStop | src/gateway/ton/ton.daemon.ts:41-50 | There is no stop page iff nothing on the ledger is recorded. |
| Recovery.SecondRun | src/gateway/ton/ton.daemon.ts:63-69 | A run after one that got through, on a ledger at rest, sets out to handle recorded transactions only. |
| Recovery.LostForever | src/gateway/ton/ton.daemon.ts:41-69 | An unrecorded transaction with a recorded one at least `limit` places newer is never handled by any later run, whole or cut short, under any growth. |
| Recovery.AbortShape | src/gateway/ton/ton.daemon.ts:63-77 | A quiet run from a state without holes, cut short anywhere, adds everything older than some page j and a newest-first block of page j. |
| Recovery.MisalignedLoses | src/gateway/ton/ton.daemon.ts:63-77 | For every limit above 1, one arrival after an abort can lose a transaction: a full page of new ones, one commit, one arrival. |
| Recovery.GrowthLoses | src/gateway/ton/ton.daemon.ts:36-77 | For every limit, one arrival during a run of several pages can lose one: a full page of new ones at the first fetch and one more at the last. |
| Completion.RunReaches | src/gateway/ton/jetton/jetton.daemon.ts:59-64 | Without faults a run gets through iff nothing on its plan blocks, that is, is unrecorded and makes the wallet query throw; otherwise it records exactly what comes before the first that does. |
| Completion.CompleteIff | src/gateway/ton/ton.daemon.ts:36-77 | A faultless run leaves the whole ledger recorded iff nothing unrecorded on it blocks and the run, getting through, covers it. |
| Completion.QuietRunComplete | src/gateway/ton/ton.daemon.ts:41-69 | On a quiet ledger, iff nothing blocks and every unrecorded transaction lies on a page no older than the stop page. |
| Completion.HolelessRunComplete | src/gateway/ton/ton.daemon.ts:41-69 | If everything older than a recorded transaction is recorded, a quiet run leaves the whole ledger recorded iff nothing blocks. |
| Completion.GrowingRunComplete | src/gateway/ton/ton.daemon.ts:36-77 | With arrivals during the run, iff nothing blocks and it stopped on page 0 with at most `limit` arrivals, or otherwise none arrived or one page holds the whole ledger. |
| Completion.RecoveringRunComplete | src/gateway/ton/ton.daemon.ts:41-69 | From any tables, iff nothing blocks and the oldest unrecorded transaction lies on no older page than the newest recorded one. |
| Completion.RunAfterAbort | src/gateway/ton/ton.daemon.ts:63-77 | After an abort anywhere and any arrivals, iff nothing blocks and the abort left no hole in page j, or the arrivals modulo the limit still leave the recorded block and the hole on one page. |
| Completion.AlignedRunComplete | src/gateway/ton/ton.daemon.ts:63-77 | After an abort anywhere and arrivals in whole pages, iff nothing blocks. |
| Completion.RunsComplete | src/gateway/ton/ton.daemon.ts:36-70 | When transactions arrive only between runs, any run of any sequence leaves the whole ledger recorded iff nothing on it blocks. |
| Completion.BlockedForGood | src/gateway/ton/jetton/jetton.daemon.ts:59-64 | A transaction that blocks is never recorded by any sequence of runs. |
| Completion.RecordedIndices | src/gateway/ton/ton.daemon.ts:63-77 | From a state without holes a quiet run records, besides what was recorded, exactly the transactions on an older page than all that block, or newer on the same page. |
| Completion.TryingAgain | src/gateway/ton/ton.daemon.ts:36-70 | If a quiet run from a state without holes breaks off, running again on the same ledger breaks off and leaves all four tables unchanged. |
| Runs.SecondRunChangesNothing | src/gateway/ton/ton.daemon.ts:36-70 | A run on a ledger at rest after one that got through leaves all four tables unchanged. |
| Runs.StopPageOnceIsEnough | src/gateway/ton/ton.daemon.ts:63-69 | On a quiet ledger handling the stop page twice, cached and refetched, equals handling it once. |
| Runs.RunCredits | src/gateway/charge/charge.service.ts:131-156 | A creditable payment on a list that an undisturbed, faultless run gets through is credited in its own amount to its charge. |
| Runs.QuietRunCredits | src/gateway/ton/ton.daemon.ts:36-70 | From a state without holes, a quiet faultless run credits a creditable payment iff nothing that blocks is handled before it. |
| Runs.CreditableByFields | src/gateway/ton/toncoin.daemon.ts:67-75 | A transaction is creditable iff it is new and its fields make it a payment of a positive amount for the memo of an existing charge, and this amount, token and charge is what it is due. |
| Runs.QuietRunPays | src/gateway/ton/ton.daemon.ts:36-70 | So such a payment gets exactly this credit iff nothing that blocks is handled before it. |
| Runs.BlocksByFields | src/gateway/ton/jetton/jetton.daemon.ts:59-64 | What blocks is an unrecorded notification to a jetton's wallet from a sender that does not answer the wallet query. |
| Runs.SharedCoverage | src/gateway/ton/ton.daemon.ts:36-77 | Exact coverage of a run that returned normally while others write: what it covers is recorded, and a transaction nobody else records is recorded at the end iff it was at the start or the run covers it. |
| Runs.SharedVerdict | src/gateway/charge/charge.service.ts:92-156 | Then a new transaction the run covers and nobody else records is credited in its own amount and token to the charge its comment names or not at all, and without faults as its checks decide. |
| Runs.JudgedCredits | src/gateway/charge/charge.service.ts:131-141 | By its fields: each credit of such a transaction is one of a payment it is, in amount, token and charge. |
| Runs.JudgedByFields | src/gateway/charge/charge.service.ts:92-141 | And without faults a payment is credited to its charge if that was there at the start, noted as having none if there is none at the end, and any other transaction gets the note its fields call for. |
| Runs.SharedRunEnds | src/gateway/ton/ton.daemon.ts:36-70 | While others write anything but records of this ledger, a faultless run on a ledger at rest, from a state without holes, returns normally iff nothing blocks, leaves the whole ledger recorded iff nothing blocks, and in any case records exactly what is handled before all that block. |
| Runs.SharedQuietRun | src/gateway/ton/ton.daemon.ts:36-70 | It then credits a payment whose charge existed at its start iff nothing that blocks is handled before it. |
| Runs.SharedQuietRunPays | src/gateway/ton/ton.daemon.ts:36-70 | The same by the fields of the payment, while others write. |
| Webhooks.SnapshotExists | src/gateway/webhook/webhook.service.ts:61-68 | Every table has a snapshot: its unsent rows, each once, by creation time. |
| Webhooks.WebhookService.SendMessage | src/gateway/webhook/webhook.service.ts:98-115 | Every attempt is traced; it is logged as acknowledged unless refused and reported as done only when the sender learns of it. |
| Webhooks.WebhookService.SendRow | src/gateway/webhook/webhook.service.ts:71-93 | The try block for a row, with any number of senders at work: done means acknowledged and marked; otherwise some call failed, and the row was attempted. |
| Webhooks.WebhookService.Update | src/gateway/webhook/webhook.service.ts:78 | Marks the row just acknowledged, and no other unless other senders are at work, or reports failure, marked or not. |
| Webhooks.WebhookService.Process | src/gateway/webhook/webhook.service.ts:60-96 | With any number of senders: the traced attempts of a pass are a front part of its snapshot, a row is attempted only when all rows before it were acknowledged and marked in this pass, the pass stops only at a failure and does everything when no call fails. With no other sender the rows marked are exactly those newly sent, and every sent row has been acknowledged. |
| Webhooks.PassKeepsSentAcked | src/gateway/webhook/webhook.service.ts:70-95 | A pass of the only sender keeps it that every row marked sent has been acknowledged at least once. |
| Invariants.Reachable | src/gateway/charge/charge.service.ts:76-157 | The invariant of the composed system holds after every list of actions. |
| Invariants.OnlyAccumulates | src/gateway/charge/charge.service.ts:76-157 | Over any run no row, transaction or acknowledgement is removed or changed, except sent flags, which only rise. |
| Conservation.CoupledTables | src/gateway/charge/charge.service.ts:114-156 | In every reachable state a transaction is recorded with a null note iff it has a charge transaction iff it has a webhook, and has at most one row of each kind. |
| Conservation.RowsAgree | src/gateway/charge/charge.service.ts:131-156 | The three rows of a payment name the same existing charge, which no other charge shares its id or memo with. |
| Conservation.SeenBranchChangesNothing | src/gateway/charge/charge.service.ts:123-129 | In every run, a transaction credited by others after it was found unprocessed leads to that branch, and its commit leaves the tables as they are. |
| Conservation.AmountsConserved | src/gateway/charge/charge.service.ts:131-141 | In every reachable state, per charge and token, the charge transactions add up to the on-chain amounts of the null-note transactions that name the charge's memo. |
| Conservation.AskedFields | src/gateway/ton/toncoin.daemon.ts:67-75 | The amount and memo counted for a transaction are those of the payment its fields make it. |
| Conservation.CreditsArePayments | src/gateway/charge/charge.service.ts:131-141 | In every reachable state each charge transaction stands for exactly one ledger transaction whose fields make it a payment of that amount for the charge's memo: for TON a comment to the watched wallet, for a jetton a notification whose sender names the right master. |
| Conservation.RowsExplained | src/gateway/ton/ton.daemon.ts:97-102 | In every reachable state each recorded transaction is one of the ledger and is recorded as its fields say, as having no charge, or with the note of a catch that encloses its handling. |
| Conservation.AcknowledgedIsPaid | src/gateway/charge/charge.service.ts:92-156 | Every acknowledged webhook comes from exactly one ledger transaction that by its fields is a payment for the memo of an existing charge, with its own amount; no transaction yields two webhook ids. |
| Delivery.InOrder | src/gateway/webhook/webhook.service.ts:60-96 | With one sender and creation times that follow commits, the sent webhooks are the first n, and the acknowledged deliveries without immediate repeats are the first n or n + 1. |
| Delivery.EarlierFirst | src/gateway/webhook/webhook.service.ts:60-96 | With any creation times, of two webhooks the one both created and committed first is acknowledged and sent first. |
| Passes.PassGoesOn | src/gateway/webhook/webhook.service.ts:60-96 | From every reachable state with a resting sender, for every snapshot and any actions of others in between: after n rows acknowledged and marked the log has gained the ids of the first n rows in order, exactly these are newly sent, and the pass is at the next row or over after the last. |
| Passes.PassBreaksOff | src/gateway/webhook/webhook.service.ts:85-94 | A refusal, a lost acknowledgement, an update that fails or whose success is not learned of, or a crash at row n ends the pass there: no later row is attempted, and of row n exactly what that failure leaves. |
| Passes.WholePass | src/gateway/webhook/webhook.service.ts:60-96 | Left to itself a pass acknowledges its whole snapshot in order and leaves every webhook that was there sent. |
| Accounts.LedgerPicks | src/gateway/ton/ton-transaction.iterator.ts:25-29 | The ledger a daemon of the composed system fetches from holds all transactions of its account on the chain, nothing else, in the order of the chain. |
| Accounts.LedgerHolds | src/gateway/ton/ton-transaction.iterator.ts:25-29 | A transaction is on it iff it is on the chain with that account. |
| Accounts.LedgersGrow | src/gateway/ton/ton-transaction.iterator.ts:25-29 | Over any run every daemon's ledger stays valid and only grows at its end, as the imperative contracts assume. |
| Tracks.HandleMoves | src/gateway/ton/jetton/jetton.daemon.ts:28-126 | Whatever its outcome, a call on a transaction goes on to the next only when this one is recorded, ends the run exactly where nothing catches a failure, and otherwise brings the handling strictly nearer to its end. |
| Tracks.RunOnTrack | src/gateway/ton/ton.daemon.ts:36-77 | In the composed system, among any actions of others, faults and crashes: at every moment of a daemon run everything that its plan lists before the place it has come to is recorded, the plan being that of `Process` for the pages it fetched. |
| Tracks.RunEnds | src/gateway/ton/ton.daemon.ts:36-77 | A run ends by a call of its own only where a failure that nothing catches or an unanswered wallet query ends it, and then always, or else when its whole plan is recorded. |
| Tracks.FinishedCovers | src/gateway/ton/ton.daemon.ts:36-77 | A run that ended with its plan recorded has recorded the newest `limit` transactions of its last fetch and all that its stop page makes it cover. |
| Faults.FaultyHandling | src/gateway/ton/jetton/jetton.daemon.ts:75-121 | Once a new transaction is screened, any outcomes of its calls end its handling within six of them: recorded as decided, or with the note of a catch that had a failure to make up for, or not at all after more failures than catches. |
| Faults.UnseenCommit | src/gateway/ton/jetton/jetton.daemon.ts:102-121 | A crediting commit whose success the caller does not learn of stands, no catch can mark the transaction again, and the run ends. |
| Faults.RecordedMeanwhile | src/gateway/charge/charge.service.ts:76-90 | A transaction recorded by others after the first check is left as it is, and the run goes on. |
| Solo.RunCalls | src/gateway/ton/ton.daemon.ts:36-70 | Call by call, without faults, a daemon run of the composed system goes through its itinerary in order and ends. |
| Solo.SoloRun | src/gateway/ton/ton.daemon.ts:36-70 | From every reachable state, a daemon run left to itself in the composed system ends in exactly the tables the `Process` method is proved to leave. |
| Solo.SoloRunAfterCrash | src/gateway/ton/ton.daemon.ts:108-131 | Also after a crash at any point of an earlier run of the worker. |
| Solo.SoloRunCompletes | src/gateway/ton/ton.daemon.ts:36-77 | From every reachable state without holes it leaves every transaction of its account on the chain recorded iff no sender of an unrecorded one leaves the wallet query unanswered, and then every new payment, by its fields, has its credit. |
| Witness.SampleValid | src/db/migrations/1771139259564-initial.ts:8-22 | Sequences exist that hand out as many distinct 64-bit ids and memos as there are, in commit order, and so does a valid configuration. |
| Witness.AnyStart | src/gateway/charge/charge.service.ts:23-34 | The composed system reaches every ledger of distinct transactions together with any charges the sequences can serve. |
| Witness.OnePayment | src/gateway/charge/charge.service.ts:76-157 | In the composed system a charge can be created, paid, credited and announced: a concrete run ends with one credit, one sent webhook and one acknowledged delivery. |
| Witness.OutOfOrder | src/gateway/webhook/webhook.service.ts:60-96 | A concrete run in which a webhook is delivered before one created earlier, whose crediting transaction was still open. |
| Witness.PoisonBlocks | src/gateway/ton/jetton/jetton.daemon.ts:59-64 | One transfer from an address that answers no wallet query, as the oldest of a ledger whose other transactions fill whole pages, ends a faultless run before anything is recorded, for every limit. |

## Left out

- HTTP, axios, the TON client and its errors: a page fetch either fails or returns the newest `limit` transactions strictly older than its cursor, fewer only at the oldest end.
- Postgres blocking, row locks and query planning: a commit is atomic under the unique keys and the foreign key, and each read sees committed rows. A lock on an absent row locks nothing, so nothing is lost by leaving locks out.
- Cell and slice layout and address parsing: an inbound message is a value with its opcode, texts and amounts, each marked where reading it throws; addresses are compared in standard form. The opcode is `internal_transfer` of TEP-74, section "TL-B schema".
- The `get_wallet_data` query: what a wallet answers does not change over time. In `System` the query is one step with the read before it.
- Column widths other than the 64-bit memo: amounts fit their 78 digits because on-chain amounts have at most 120 bits, and payloads are taken to fit. Only the sequences of the charge table run out; those of the other tables do not.
- Ids and creation times are arbitrary distinct functions of a row's commit rank, not a clock.
- Rounding in `formatUnits` and `toFixed` text: a decimal string stands for the exact rational it denotes.
- Amount.ExactBound: from 10^21 whole tokens on `toFixed` switches to exponent form, which `parseUnits` refuses; the model rounds there too, which changes no bound because the limit lies far below.
- `ChargeService.list` and `retrieve`, `WebhookService.retrieve`: wrappers over the ORM.
- HMAC signing, JSON encoding, controllers, DTOs, configuration, logging and Nest modules: no property across steps.
- rxjs timers: only that runs of one webhook sender follow one another. Daemon runs of one token may even overlap in `System`.
- Two webhook senders at once in `System`, which has one, and so in `Delivery`. Every contract over `World` allows any number; only the exact set of sent rows in `WebhookService` assumes `SoleSender`.
- Eventual crediting in general: a faulted payment is marked "invalid memo" and a payment without a charge is marked for good, so crediting is stated only without faults and with the charge in place (`Runs.QuietRunCredits`).
