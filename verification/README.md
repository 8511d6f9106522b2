# A verified model of the fiscal receipt SDK

The SDK numbers, hash-chains, signs and submits fiscal receipts to a tax
authority's server (FDMS), survives crashes and lost answers in the middle of a
submit, and can queue receipts while offline. This project models that code in
Dafny and proves what it promises. Three parts:

1. **The crash-safe submit protocol.** `Protocol.dfy` is a machine whose steps
   are the single storage writes, requests and answers of
   `src/core/device.ts`, `src/core/queue.ts` and `src/simulator/server.ts`; a
   crash may come between any two of them. `Invariant.dfy` says what holds in
   every world; `Steps.dfy`, `CommitSteps.dfy`, `DaySteps.dfy` and `Reds.dfy` show
   that every permitted step keeps it; `Runs.dfy` lifts that to whole runs over any
   number of days; `Theorems.dfy` draws the promises from it. `Calls.dfy` composes
   the steps of whole calls that are answered, `Limits.dfy` and `Restart.dfy` say with
   their help exactly when a promise fails outside the permitted runs, and
   `Witnesses.dfy` shows how each of those points is reached. `Unforced.dfy` says when
   the recorded red errors decide a close, `Selling.dfy` what an answered
   `submitOrEnqueue()` achieves, and `Answered.dfy` that the calls composed in
   `Calls.dfy` are those of the classes. `Device.dfy`, `OfflineQueue.dfy`,
   `Stores.dfy` and `Server.dfy` hold the classes in the form the source has
   them. Every method is proved, with no condition on its caller, to take steps of
   the machine and to pass through exactly their durable states; where the caller
   keeps to the conditions below, those steps are a run that the theorems cover, and
   so is a crash in the middle of the method where the setting lets a process die
   (`Trace.dfy`).
2. **Fiscal arithmetic and canonical strings.** Rounding (`Rounding.dfy`), tax
   grouping (`Ledger.dfy`), day counters as double entry (`Counters.dfy`) and counter by
   counter (`Tallies.dfy`), the strings that are signed (`Signing.dfy`, `Sorting.dfy`,
   known answers in `Vectors.dfy`), cents (`Cents.dfy`, `Money.dfy`), the learned clock
   (`Clock.dfy`).
3. **Codecs and the file journal.** UTF-8 over raw UTF-16 units, base64, DER, the
   text of JSON values (`Json.dfy`) and the JSONL journal with a torn last line.

SHA-256 and ECDSA are uninterpreted functions of `Receipts.Env`; the only thing
known of them is that a signature made with the device's key verifies
(`Receipts.KeyPair`).

## What the protocol relies on

The theorems about runs hold under these conditions, which are the guards of
`Permitted`, `FateOk` and `Enabled` in `Protocol.dfy`:

- A storage is present, each `set` is atomic for its key, and calls on one device
  are made one after another.
- A request is processed before the client sees its failure, or never; an HTTP
  answer other than 2xx, 408, 429 or 5xx means that FDMS does not hold the
  receipt.
- `openDay()` runs to its end, and before opening, closing or clearing a day the
  queue is flushed.
- Nothing is submitted directly while the queue holds receipts.
- Nothing is enqueued while an unresolved submit has the next number, or while the day
  state in memory is behind the last queued receipt (`Limits.SaleArrivesIff` and
  `Limits.SaleOnceIff` say what happens otherwise). A queue that is loaded over a
  loaded day state is never ahead of it (`Restart.LoadCoversIff`).
- A number given to `openDay()` is not above what FDMS holds.

Receipts may carry any tax ID. Only the theorems about red errors and about closing
a day ask whether the IDs are in the device's tax table.

GetStatus reports the number of the receipt with the latest date, not the highest
number, and a server may or may not recognise a receipt it already holds. The
theorems are therefore stated for three settings (`Protocol.Rules`):

- `Ordered`: plain server; receipt dates also increase from day to day. Two things
  are excluded: `reconcile()` called from outside the queue while the stored marker is
  that of the head of the uncommitted journal (`MarkerIsHead`), and a process that
  dies between the deletion of a held head's marker and the write of the journal's
  cursor (`HeadLost`). A device without queue is never in either case.
- `AllAnswered`: plain server, dates in any order across days, every submit gets its
  answer and is committed before the process may die.
- `Dedup`: the server answers a receipt it holds, by number and hash, with the
  original, as the API description states for SubmitReceipt
  (`spec/Device-v1.json:892`); crashes and `reconcile()` anywhere.

After a crash a run may go on with `reconcile()`, or with `flush()` before it.

## Where the promises end

Code and documentation differ in these places. The model follows the code, and says
for every reachable state exactly when the promise fails:

- The guide asks for `reconcile()` on every start. On a plain server, `reconcile()`
  and then `flush()` make FDMS take the head of the queue twice if and only if the
  stored marker is that of the head and a day is open, whether or not FDMS held it
  before (`Limits.ReconcileThenFlush`; listed as open in `docs/HARDENING.md:71-78`).
  After a crash that is so if and only if FDMS held the head or it was marked
  (`Limits.CrashThenStart`). `flush()` without `reconcile()` fails only after a crash
  between the deletion of the marker and the write of the cursor
  (`Limits.CrashThenFlush`), so the comment in `src/core/journal.ts:4-6`, which calls
  a record left between append and commit safe because the marker catches the
  duplicate, is right only while the marker is there.
- But `flush()` without `reconcile()` starts with no day state. If it stops while
  something waits, `enqueue()` refuses for want of a day state if and only if nothing
  was delivered and the head was not marked; and the day state is behind the queue, so
  that the next sale reuses a number, if and only if the head was not marked and
  something was delivered, or the head was marked and the stored day state was behind
  (`Restart.FlushFirstIff`, reached by `Witnesses.FlushFirstReusesNumber`). A sale
  enqueued then, once delivered, makes FDMS hold a number twice, unless FDMS
  deduplicates and the sale has number and hash of a receipt issued before
  (`Limits.SaleOnceIff`).
- `enqueue()` while a direct submit is unresolved signs the same number again. When
  it is delivered, `flush()` settles the marker in its place. On a day state that
  covers the queue FDMS ends up with the sale if and only if a day is open and no other
  receipt with the number `state.receiptGlobalNo + 1` was unresolved
  (`Limits.SaleArrivesIff`).
- The comment on `reconcile()` in `src/core/device.ts:288-292` says that GetStatus can
  under-report after a future-dated receipt. A last receipt that a plain server holds
  is confirmed under every possible report if and only if it has strictly the latest
  date (`Limits.ConfirmedIffLatest`; with dates out of order across days,
  `Witnesses.EarlierDateIsDoubled` gets to a number held twice).
- The comment on `closeDay()` in `src/core/device.ts:430-432` says that it refuses when
  the day holds red errors. It does where every answer is seen
  (`Unforced.NoForceIffSettles`); but `reconcile()` confirms a receipt by GetStatus,
  which does not report its errors, so that none is recorded
  (`Witnesses.ConfirmedHidesRed`).
- `closeDay()` does not look at the queue. The close of an open day settles if and only
  if the day state counts exactly what FDMS holds and no receipt has an unknown tax ID
  (`Theorems.CloseSettlesIff`).

## Model

| member | source | states |
|---|---|---|
| Theorems.EveryNumberOnce | src/core/device.ts:602-634 | In every run, whatever tax IDs are sold, FDMS holds each global number from 1 on exactly once and in order, and each day counts its receipts from 1 |
| Theorems.RedOnlyForUnknownTax | src/simulator/server.ts:389-447 | In every run FDMS finds a red error in a receipt if and only if it has a tax ID outside the table, and then no other; before it holds such a receipt today, no day state records a red error |
| Theorems.QuietDeviceEqualsServer | src/core/device.ts:281-322 | In every world of every run with no marker and nothing uncommitted, the day state in memory and on disk is, but for recorded red errors, the one FDMS would write from its own data, and the stored last number is the number of receipts FDMS holds |
| Theorems.CloseDaySettles | src/core/device.ts:437-475 | From such a world a close sends the counters, count and string FDMS computes itself; the day closes if and only if no receipt of the day has an unknown tax ID, in which case no force is needed, and is opened again otherwise |
| Theorems.CloseSettlesIff | src/core/device.ts:437-475 | From any point between two calls of any run, whatever is queued, a close that is allowed on an open day settles to a closed day if and only if the day state's number is the number of receipts FDMS holds and none of the day's has an unknown tax ID |
| Theorems.CloseIsSigned | src/core/device.ts:446-464 | From a quiet open day of any run the close carries the day number, the hash and the signature of FDMS's own string: device, day, opening date, its counters |
| Theorems.DeviceCountersTally | src/core/device.ts:573-580 | In every quiet world of every run each counter of the day state is exactly the tally, by kind, currency and tax ID or money type, of the receipts FDMS holds today |
| Theorems.DaysAreBooked | src/simulator/server.ts:449-456 | Over any steps the counters of every day FDMS holds are those of exactly its receipts |
| Theorems.DaysAreNumbered | src/simulator/server.ts:363-368 | Over any steps the days are numbered from 1 without a gap |
| Theorems.OpeningContinues | src/core/device.ts:390-428 | In every run a new day starts from the highest number FDMS holds, whatever lower number GetStatus reports |
| Theorems.LastNumberNeverDecreases | src/core/device.ts:245-260 | Over any steps the code can take, permitted or not, the stored last number never decreases |
| Theorems.SentBodyIsHeldBody | src/core/queue.ts:172-184 | Any body being sent has a number at most one past what FDMS holds; a number FDMS already holds is only ever sent with the identical body, and never to a plain server |
| Theorems.NumberFixesBody | src/core/queue.ts:156-222 | Once FDMS has accepted a body with a number, every later body sent with that number, after any further steps of a run, is the same |
| Theorems.AcceptedStays | src/simulator/server.ts:449-453 | What FDMS has accepted keeps its place through any steps, permitted or not |
| Theorems.JournalMirrored | src/core/queue.ts:186-203 | In every run committed records are held by FDMS under their number, uncommitted ones follow without a gap, numbers increase along the journal, and the loaded list is the journal from its cursor, record by record |
| Theorems.OnlyTheHeadMayBeHeld | src/core/queue.ts:156-170 | At a plain server no uncommitted record but the head is ever held, and a held head is still marked, so flush sends nothing twice |
| Theorems.MarkerIsTheHead | src/core/queue.ts:174-182 | In one process with all receipts through the queue, a marker between two calls is always that of the head of the journal |
| Runs.StepKeepsInv | src/core/device.ts:294-322 | Every permitted step of the protocol keeps the invariant that ties disk, marker, journal, memory and server together |
| Runs.RunKeepsInv | src/core/device.ts:602-634 | The invariant, and what it says of red errors, holds at the end of every permitted run |
| Reds.StepKeepsReds | src/core/device.ts:662-674 | No step records a red error while every receipt FDMS holds today has known tax IDs |
| Reds.RedsAdded | src/core/device.ts:665-674 | An answer adds one entry for each of its red codes, in order, with the code's own number, and changes nothing else; it adds none if and only if it is clean |
| Unforced.StepKeepsTold | src/core/device.ts:657-677 | Where every submit is answered or not processed, the process does not die before the answer is committed and the day state is loaded before the queue, every permitted step keeps memory, disk and journal telling whether FDMS holds an unknown tax ID today |
| Unforced.RedErrorsAreRecorded | src/core/device.ts:662-675 | After any such run, of any length, the day state in memory and the stored one record a red error if and only if FDMS holds a receipt of the day with an unknown tax ID |
| Unforced.NoForceIffSettles | src/core/device.ts:437-442 | Then closeDay() without force, on a quiet open day, is refused exactly when the close would not settle to a closed day |
| Reds.StepKeepsCovers | src/core/queue.ts:196-209 | Once the day state in memory covers the journal, every permitted step but a crash keeps it so |
| CommitSteps.KeepSend | src/core/device.ts:611-626 | Whatever becomes of a request (lost, processed and answered, processed and lost, refused, recognised as held), the invariant is kept |
| CommitSteps.ServerTakes | src/simulator/server.ts:389-453 | The receipt whose turn it is raises no red error but for unknown tax IDs and leaves FDMS one receipt further along the same log |
| CommitSteps.SubmitSorts | src/simulator/server.ts:374-468 | FDMS refuses outside an open day, takes the next receipt, and answers a held one from its copy |
| CommitSteps.KeepWriteState | src/core/device.ts:657-675 | Committing moves memory and disk to the receipt's state unless the queue has already, and keeps the invariant |
| CommitSteps.KeepClearMarker | src/core/device.ts:676 | The marker goes only when state and last number cover its receipt |
| CommitSteps.KeepCommitJournal | src/core/queue.ts:163-164 | The cursor moves only past a receipt FDMS holds, and list and journal stay in step |
| CommitSteps.KeepAppend | src/core/queue.ts:186-191 | A journaled receipt is the next one, or the one FDMS took without the device knowing |
| Steps.NoRedError | src/simulator/server.ts:389-447 | A receipt signed on the state FDMS itself has passes every check: counter, number, date, hash chain, signature, total, payments; it is clean if and only if its tax IDs are known |
| Steps.StateMatchesServer | src/core/device.ts:576-581 | The state after as many log entries as FDMS holds agrees with FDMS on counter, number, previous hash and date, counters and day |
| Steps.ReportedIsLast | src/simulator/server.ts:338-353 | GetStatus never over-reports, and where dates increase it reports the last receipt taken |
| Steps.KeepAskStatus | src/core/device.ts:300-304 | After the answer, a receipt is committed only if FDMS holds it and, to a plain server, sent only if it does not |
| Steps.KeepCrash | src/core/queue.ts:187-189 | A crash that the setting permits, in `Ordered` any but one between the deletion of a held head's marker and the write of the cursor, keeps what the next start relies on |
| Steps.KeepLoadQueue | src/core/queue.ts:196-209 | Loading keeps the invariant, and a day state in memory then covers the last journal entry, so that a number is neither reused nor skipped |
| DaySteps.OpeningNumber | src/core/device.ts:413-417 | The maximum of reported, given and stored number is the highest number FDMS holds |
| DaySteps.CloseIsJudged | src/simulator/server.ts:488-519 | In sync, the close request verifies and the counts match, so that only an unknown tax ID can keep the day from closing |
| DaySteps.KeepCloseFiscalDay | src/core/device.ts:465-474 | A close keeps the invariant, whether or not its answer arrives, and is one that will settle |
| Limits.ReportIsHighestIff | src/simulator/server.ts:339-353 | GetStatus can only report the highest number if and only if the last receipt has the latest date of all |
| Limits.ConfirmedIffLatest | src/core/device.ts:288-312 | reconcile() on the last receipt a plain server holds makes no duplicate under any report GetStatus may give if and only if that receipt has strictly the latest date |
| Limits.ReconcileThenFlush | src/core/device.ts:294-322 | From any point between two calls of any run, reconcile() and flush(), answered, leave FDMS with every number once if and only if the server deduplicates, no day is open, or the stored marker is not that of the head of the queue |
| Limits.CrashThenStart | src/core/device.ts:281-287 | In `Ordered` and `Dedup`, after a crash anywhere, reconcile() and flush(), answered, do so if and only if the server deduplicates, no day is open, or the head was neither held nor marked |
| Limits.CrashThenFlush | src/core/journal.ts:4-7 | In `Ordered` and `Dedup`, after a crash anywhere, flush() alone, answered, does so if and only if the server deduplicates, no day is open, or the head was not held without a marker |
| Limits.FlushSettlesTheHead | src/core/queue.ts:174-182 | Where FDMS holds the head between two calls, flush() settles it without sending anything |
| Limits.FlushDuplicatesIff | src/core/queue.ts:176-183 | Flushing an unmarked head to a plain server makes a duplicate if and only if the server holds it |
| Answered.FlushIsDone | src/core/queue.ts:156-170 | What OfflineReceiptQueue.Flush does with a loaded queue, every request answered, is the flush that Limits and Restart speak of |
| Answered.ReconcileIsDone | src/core/device.ts:294-322 | So is FiscalDevice.Reconcile on a start, answered |
| Answered.EnqueueIsDone | src/core/queue.ts:108-118 | And OfflineReceiptQueue.Enqueue of a receipt that signs |
| Restart.LoadCoversIff | src/core/queue.ts:196-209 | In every run a queue that is loaded over a loaded day state leaves it covering the journal; loaded over none, there is still none, and the journal is covered only if nothing waits |
| Restart.FlushFirstIff | src/core/device.ts:657-675 | After a crash anywhere, loading, k answered rounds of flush() and a stop for whatever reason: there is no day state if and only if k = 0 and the head was not marked; the day state is behind what waits if and only if something waits and either the head was marked and the stored state behind, or it was not marked and k > 0 |
| Limits.SaleOnceIff | src/core/queue.ts:108-118 | From any point between two calls of any run, enqueue() and delivery, answered, leave FDMS with every number once if and only if the day state covers the queue, no day is open, or the server deduplicates and number and hash are those of a receipt issued before |
| Limits.SaleArrivesIff | src/core/queue.ts:108-118 | From any point between two calls of any run, enqueue() and delivery, answered: on a day state that covers the queue FDMS ends up with the sale if and only if a day is open and no unresolved submit of another receipt has the next number; on one that is behind, an open day takes it unless a deduplicating FDMS answers with a twin, and a closed one leaves FDMS as it was |
| Witnesses.FirstSaleGetsThrough | src/core/device.ts:640-643 | In each setting any valid first sale is a permitted run that ends with FDMS holding exactly it and nothing pending |
| Witnesses.QueuedSaleGetsThrough | src/core/queue.ts:108-164 | In each setting any valid first sale that is enqueued and flushed ends with FDMS holding it and the journal committed |
| Witnesses.NextDayOpens | src/core/device.ts:390-475 | From any quiet open day of any run with known tax IDs, close, settlement and opening are permitted and lead to a quiet next day that continues the numbers |
| Witnesses.HeadUnsettled | src/core/queue.ts:136-148 | A sale whose answer is lost is a run that leaves a marked head, held by FDMS or not |
| Witnesses.NextSaleSharesNumber | src/core/device.ts:607-628 | A direct submit whose answer is lost is a run after which the next sale is signed, as another receipt, with the same number |
| Witnesses.ConfirmedHidesRed | src/core/device.ts:304-305 | A sale with an unknown tax ID whose answer is lost and which reconcile() confirms is a run after which no red error is recorded, so that closeDay() goes out without force on a day that cannot close |
| Witnesses.LaterDateFirst | src/simulator/server.ts:339-353 | Two sales on two days, the first dated later, are a run after which GetStatus may report 1 while FDMS holds 2 |
| Witnesses.EarlierDateIsDoubled | src/core/device.ts:288-312 | Two sales on two days, the second dated earlier and its answer lost: with GetStatus reporting 1, reconcile() makes a plain server hold number 2 twice |
| Witnesses.HeadLosesMarker | src/core/queue.ts:160-165 | A flush that is answered passes through a world in which FDMS holds the head and no marker says so |
| Witnesses.FlushFirstReusesNumber | src/core/device.ts:662-664 | A crash with two receipts queued, then a flush() that delivers one and fails, is a run after which a valid next sale is signed with the number of the other |
| Trace.EveryCutIsReached | src/core/device.ts:602-606 | Of the durable states a run passes through, each in which the setting lets the process die is one whose restart the theorems cover |
| Trace.TrailIsComplete | src/core/device.ts:602-606 | Wherever a run is cut, it has left what it began with or a state on its trail |
| Trace.StaysCovered | src/core/queue.ts:130-133 | A day state that covers the journal goes on to do so through every permitted call |
| Trace.CallEndsInSync | src/core/device.ts:281-287 | After any permitted call that leaves no marker and nothing waiting, memory, disk and FDMS agree but for recorded red errors |
| Trace.EarlierStays | src/simulator/server.ts:383 | No call but openDay touches the receipts of an earlier day |
| Device.FiscalDevice.PersistState | src/core/device.ts:245-260 | Two writes in this order, day state then last number, the second only if it raises the number |
| Device.FiscalDevice.LoadPersistedState | src/core/device.ts:262-273 | Memory wins; otherwise the stored state is taken |
| Device.FiscalDevice.CommitPrepared | src/core/device.ts:657-677 | Exactly the steps write state, write last number, clear marker; the state, in memory and stored, is the receipt's or the one already there, with one more entry for each red code of the answer, in order, under the receipt's number and counter and the code's own number |
| Device.FiscalDevice.Request | src/core/device.ts:611-628 | With the marker already on disk: exactly one POST, with what the network does to it; then a commit, and the marker goes after any status below 500 but 408 and 429, and stays after these, 500 and up, the network's failures and what is no HTTP answer |
| Device.FiscalDevice.Conclude | src/core/device.ts:611-628 | What the device writes after an answer, a definite refusal or an unknown outcome |
| Device.FiscalDevice.SubmitPrepared | src/core/device.ts:607-634 | Refuses without a request while a marker is stored; otherwise marker, exactly one request and its outcome, by status, passing through exactly those durable states |
| Device.FiscalDevice.SubmitReceipt | src/core/device.ts:640-643 | Signs on the current state and submits; an unresolved submit leaves exactly the signed receipt as marker |
| Device.FiscalDevice.Reconcile | src/core/device.ts:294-322 | Loads the state, asks GetStatus exactly when a marker is stored, and resends the identical receipt once if and only if the answer does not cover it; no marker is left unless there was no answer |
| Device.FiscalDevice.Settle | src/core/device.ts:300-321 | The question, answered exactly when the network lets it; then a commit without a request, or one POST of the stored receipt |
| Device.FiscalDevice.ApplyPrepared | src/core/device.ts:591-600 | Accepts exactly the receipt that follows and moves memory and disk to its state |
| Device.FiscalDevice.OpenFiscalDay | src/core/device.ts:390-428 | Opens a day, by a run of the opening step, if and only if no marker is stored, GetStatus is answered with a closed day and FDMS opens the day; otherwise nothing |
| Device.FiscalDevice.CloseFiscalDay | src/core/device.ts:437-475 | Refused exactly for a marker, no day, or red errors without force; otherwise one close request, accepted exactly when FDMS has processed it on its open day and the answer came, and then the state in memory is gone |
| Device.FiscalDevice.ClearPersistedState | src/core/device.ts:477-481 | Forgets the day in memory and on disk and nothing else |
| OfflineQueue.OfflineReceiptQueue.EnsureLoaded | src/core/queue.ts:196-209 | Loads once: the list is the journal from its cursor, and the day state catches up |
| OfflineQueue.OfflineReceiptQueue.Take | src/core/queue.ts:186-194 | Journal, then day state, then last number, then list, in that order; a receipt that does not follow the day state is journaled and then refused |
| OfflineQueue.OfflineReceiptQueue.Enqueue | src/core/queue.ts:108-118 | Signs behind what is queued and takes the receipt, or changes nothing beyond loading |
| OfflineQueue.OfflineReceiptQueue.SubmitOne | src/core/queue.ts:172-184 | Settles a marker of the head, is blocked by any other marker, submits otherwise |
| OfflineQueue.OfflineReceiptQueue.Flush | src/core/queue.ts:156-170 | Delivers a prefix in order by the steps of a flush alone, and stops only when nothing is left, a marker of another receipt blocks the head, or after a try that fails |
| OfflineQueue.OfflineReceiptQueue.SubmitNow | src/core/queue.ts:136-148 | Submits directly; after a network failure, 408, 429 or 500 and up, and only then, the very receipt is journaled with its marker kept |
| OfflineQueue.OfflineReceiptQueue.SubmitOrEnqueue | src/core/queue.ts:125-149 | Loads, flushes as flush() does, and only then sells: directly if nothing is left, and behind what is left only where the flush stopped short |
| Selling.FlushEmpties | src/core/queue.ts:156-170 | On an open day, with no other receipt's marker in the way and every request answered, a flush leaves nothing in the queue and no marker |
| Selling.AnsweredSaleArrives | src/core/queue.ts:125-149 | From any such point of any run, an answered submitOrEnqueue() of a valid sale ends with it submitted and nothing queued; FDMS holds every receipt that waited under its own number, and the sale, signed on the state after the flush, as its last |
| OfflineQueue.QueuedIsReady | src/core/queue.ts:130-133 | While something is queued and the day state covers it, the next number is free, so enqueueing is permitted |
| Server.PassesIff | src/simulator/server.ts:389-447 | An answer has no red error if and only if the receipt continues the day and the numbers, is later than the last, verifies on the chain, adds up, is paid and has known tax IDs; and none but RCPT013 if and only if all but the last hold |
| Server.CodeMeans | src/simulator/server.ts:389-447 | Each of the nine codes is in the answer if and only if its own fault is there |
| Server.FdmsSimulator.GetStatus | src/simulator/server.ts:338-356 | The current status and the number of a receipt with the latest date |
| Server.FdmsSimulator.Validate | src/simulator/server.ts:389-447 | The validation errors, in the order the checks are made |
| Server.FdmsSimulator.SubmitReceipt | src/simulator/server.ts:374-468 | Outside an open day refused; otherwise stored whatever its errors, counters folded in, identifier advanced |
| Server.FdmsSimulator.Open | src/simulator/server.ts:359-372 | Opens the next day from closed only |
| Server.FdmsSimulator.Close | src/simulator/server.ts:470-486 | Accepts a close of the open day and fixes how it will settle |
| Server.FdmsSimulator.Settle | src/simulator/server.ts:506-520 | The delayed end of a close: closed, or open again with the error |
| Stores.MemoryStorage.Get | src/core/storage.ts:17-19 | The value stored under the key, and what that says of the stored state |
| Stores.MemoryStorage.Set | src/core/storage.ts:20-22 | One key changes, all at once |
| Stores.MemoryStorage.Delete | src/core/storage.ts:23-25 | One key goes |
| Stores.MemoryJournal.Append | src/core/journal.ts:35-37 | The record is added at the end, the cursor stays |
| Stores.MemoryJournal.ReadFrom | src/core/journal.ts:38-40 | The records from a position on, each with its position; none past the end |
| Stores.MemoryJournal.Commit | src/core/journal.ts:41-43 | The cursor only grows |
| Stores.SnapshotJournal.Append | src/core/queue.ts:41-44 | The snapshot is what is not committed, with the record at its end |
| Stores.SnapshotJournal.ReadFrom | src/core/queue.ts:45-47 | The records from a position on, loading the snapshot at most once |
| Stores.SnapshotJournal.Commit | src/core/queue.ts:48-52 | The cursor only grows and the snapshot drops what is committed |
| Stores.SnapshotJournal.Replace | src/core/queue.ts:56-60 | One record is rewritten and the snapshot with it; past the end, the places between stay without a record |
| Stores.SnapshotJournal.Reopen | src/core/queue.ts:33-39 | A new process reads exactly what was not committed |
| Stores.FdmsClient.GetStatus | src/core/device.ts:343-348 | Answered exactly when a try within the retries gets through, with the server's status and a number it may report |
| Stores.FdmsClient.SubmitReceipt | src/core/device.ts:306-310 | One request, counted; the server's change and the outcome seen follow from what the network does with the request of that count |
| Stores.FdmsClient.CloseDay | src/core/device.ts:465-469 | One request, counted, accepted exactly if processed, agreed to and answered |
| Transport.Request | src/core/transport.ts:61-109 | A POST is sent exactly once, an idempotent call again only after network failures and at most retries times; the last try decides, and exactly the statuses 200 to 299 are success |
| Receipts.SignedFollows | src/core/device.ts:490-584 | Every receipt signReceipt makes is numbered, dated, chained, balanced and signed so that every check of the state it follows passes |
| Receipts.SignedIff | src/core/device.ts:704-778 | signReceipt signs exactly the inputs with a three-letter currency, at least one line and payment, exact amounts, positive quantities, no negative percent and a later date, whose line taxes can be computed and whose payments are the lines' total and, on net prices, their tax |
| Receipts.SignedTextForm | src/core/device.ts:562-571 | Hash and signature of a receipt are those of device, type, currency, next number, date, total in cents, taxes and the previous receipt's hash, in this order |
| Receipts.SignatureForm | src/core/signer.ts:67-77 | The signature is base64 of a DER sequence of two minimal non-negative integers with the values of the two halves ECDSA gives for the text's UTF-8 bytes |
| Receipts.SignedContents | src/core/device.ts:508-562 | Type, payments, mode and line taxes are as given, each line total is within half a cent and one floating-point rounding error of price times quantity, and the payments are the total |
| Receipts.SignedTaxesKnown | src/core/device.ts:827-858 | The taxes of a signed receipt are in the table if and only if those of every line asked for are |
| Receipts.SignedDate | src/core/device.ts:495-506 | A given date is kept; a generated one is the clock's, or one second after the previous receipt's if the clock is not past that |
| Receipts.OwnSignatureVerifies | src/core/signer.ts:67-77 | A signature survives DER and base64 and verifies over the same bytes |
| Ledger.BuildReceiptTaxes | src/core/device.ts:827-858 | The loop over the Map computes the sorted groups, or fails as some line does |
| Ledger.GroupedIff | src/core/device.ts:871-887 | The taxes fail exactly when the tax of some line cannot be computed |
| Ledger.ReceiptTaxesConserve | src/core/device.ts:827-858 | Grouping conserves line totals and per-line tax, overall and for every group, and keys stay unique |
| Ledger.BillBalances | src/core/device.ts:524-539 | Signed taxes, receipt total and payments are the same amount in both tax modes |
| Counters.CounterTable.Upsert | src/core/device.ts:944-959 | The first matching counter is raised, or one is added at the end |
| Counters.CounterTable.Accumulate | src/core/device.ts:925-1007 | The loops compute, in place, the counters that the next five rows speak of |
| Tallies.AccumulatesTaxes | src/core/device.ts:962-990 | For every kind, currency and tax ID, the counter grows by the sales, or the tax, of exactly the entries with that tax ID of a receipt of the kind's type, negative for a credit note |
| Tallies.AccumulatesPayments | src/core/device.ts:991-1006 | For every currency and money type, the balance grows by exactly the payments of that type, negative for a credit note |
| Tallies.EveryCounterTallies | src/core/device.ts:925-1007 | After any receipts each counter holds exactly the sum of the entries, or payments, that belong to it |
| Tallies.CounterKeepsFirstPercent | src/core/device.ts:944-959 | After any receipts there is a counter for a kind, currency and tax ID if and only if an entry belongs to it, and it carries the percent of the first |
| Counters.AccumulateKeepsBuilt | src/core/device.ts:961-1006 | Counter keys stay unique and upper-case |
| Counters.PostedAdds | src/core/device.ts:944-959 | Every counter and every sum over counters grows by exactly the postings to it |
| Counters.DoubleEntry | src/core/device.ts:925-1007 | Over any receipts, per currency, sales counters, money counters and signed totals are equal |
| Counters.KindTotals | src/core/device.ts:925-1007 | Kind by kind and per currency, the counters hold the signed sales of the receipts of that type, their signed tax, or their signed payments |
| Counters.MergeCurrencyCase | src/core/device.ts:902-922 | The in-place merge computes the merged counters |
| Counters.MergeIsIdentity | src/core/device.ts:443-445 | On counters built by accumulateCounters the merge changes nothing |
| Counters.MergeConserves | src/core/device.ts:902-922 | On any counters the merge changes no counter's and no total's amount, and leaves upper-case currencies |
| Counters.MergedApart | src/core/device.ts:902-922 | After the merge there is one counter a key |
| Rounding.DivideRoundHalfAwayFromZero | src/core/device.ts:890-896 | The quotient is within half a unit, ties going away from zero |
| Rounding.RoundedUnique | src/core/device.ts:890-896 | Only one integer is such a quotient |
| Rounding.RoundingIsOdd | src/core/device.ts:890-896 | Rounding commutes with negation |
| Rounding.RoundingIsMonotone | src/core/device.ts:890-896 | A larger numerator never rounds lower |
| Rounding.LineTaxMeans | src/core/device.ts:871-887 | A line's tax is the rounded quotient, refused exactly when it cannot be computed exactly or the rate is no inclusive rate |
| Rounding.ExclusiveThenInclusive | src/core/device.ts:871-887 | The inclusive tax of net plus its exclusive tax is exactly that exclusive tax |
| Rounding.InclusiveThenExclusive | src/core/device.ts:871-887 | Up to 100% the exclusive tax of gross minus its inclusive tax is within a cent of it |
| Signing.TaxOrder | src/core/signing.ts:46-49 | The tax order is total and transitive, with ties only on equal ID and code |
| Signing.TaxBlockIsCanonical | src/core/signing.ts:74-85 | The tax block is the same for every permutation of the taxes when ID and code tell them apart |
| Signing.TaxesInOrder | src/core/signing.ts:40-49 | The tax block lists the taxes, all of them, by tax ID, then by code in code point order, no code first |
| Signing.ReceiptTaxesInOrder | src/core/device.ts:854-857 | The taxes that are sent have one entry a group and stand in that order |
| Signing.ReceiptStringForm | src/core/signing.ts:87-108 | The fields of a receipt in the string and the word of each of the three types |
| Signing.CounterOrder | src/core/signing.ts:146-161 | The four-level counter order is total and transitive, with ties only on equal keys; which order it is, the next row says |
| Signing.CountersInPublishedOrder | src/core/signing.ts:110-178 | The CloseDay string of counters the device built is device, day, date and the texts of exactly the counters that are not zero, by kind as listed, then currency in code point order, then tax ID upwards or money type as listed |
| Signing.CounterTextForm | src/core/signing.ts:163-175 | The text of a counter of each kind: the kind's word, currency in upper case, percent with two decimals if any, the money type's word if any, cents |
| Signing.CloseDayStringIsCanonical | src/core/signing.ts:139-178 | The CloseDay string is the same for every permutation and with any zero counters added |
| Signing.CloseDayStringOfCountersSent | src/core/device.ts:459-461 | It is the string of exactly the counters that are sent |
| Vectors.ChainedCreditNote | src/core/signing.ts:93-108 | The published credit note, for any date and previous hash: it fixes the order and form of the signed fields |
| Vectors.TwoCodesUnderOneId | src/core/signing.ts:46-85 | The published example: two codes under one tax ID stay apart and sort by code, whatever order the taxes come in |
| Vectors.MoneyTypesInOrder | src/core/signing.ts:121-178 | The published day: sales before balances, balances in money-type order, zero counters skipped |
| Vectors.Day19 | src/core/signing.ts:139-178 | The published day 19 whole (vectors/zimra-fdms-vectors.json:434-517), from its counters in any order and among any zero ones |
| Vectors.ExampleInvoice | src/core/signing.ts:87-108 | The published invoice whole (vectors/zimra-fdms-vectors.json:324-430), from its taxes in any order |
| Sorting.SortOfSorted | src/core/signing.ts:146-161 | What is sorted stays as it is |
| Sorting.SortKeeps | src/core/signing.ts:76 | Sorting is a permutation |
| Sorting.SortSorts | src/core/signing.ts:146-161 | Sorting sorts, for any total order on the items, ties allowed |
| Sorting.SortIsCanonical | src/core/signing.ts:146-161 | A strict total order has one sorted sequence |
| Utf8.Utf8Bytes | src/core/bytes.ts:16-43 | The loop writes the encoding of each code point, lone surrogates included |
| Utf8.EncodeForm | src/core/bytes.ts:16-43 | Every code point gets the lead and continuation bytes, and these the bits, of the table in section 3 of RFC 3629 |
| Utf8.PairForm | src/core/bytes.ts:27-34 | A surrogate pair is one code point, 0x10000 and its twenty bits |
| Utf8.Utf8String | src/core/bytes.ts:45-72 | The loop reads any bytes, well formed or not, as the decoding function says |
| Utf8.Utf8RoundTrip | src/core/bytes.ts:16-72 | Decoding the encoding gives back every sequence of 16-bit units |
| Utf8.CompareCodePoints | src/core/signing.ts:55-65 | The sign of the comparison is that of the code points in lexicographic order |
| Utf8.CodePointOrderIsUtf8Order | src/core/signing.ts:55-65 | That order is bytewise order of the UTF-8 encodings, lone surrogates included |
| Lexicographic.LexMeans | src/core/signing.ts:55-65 | One sequence sorts before another if and only if it is a beginning of it or is smaller where they first differ |
| Utf8.CompareZeroOnlyOnEqual | src/core/signing.ts:61 | Zero only on equal strings |
| Base64.ToBase64 | src/core/bytes.ts:74-90 | The index loop computes the padded encoding |
| Base64.FromBase64 | src/core/bytes.ts:92-109 | The wrapped accumulator and the buffer compute the decoding; no write leaves the buffer |
| Base64.Alphabet | src/core/bytes.ts:6 | The alphabet of section 4 of RFC 4648 |
| Base64.AlphabetsRead | src/core/bytes.ts:7-14 | Both alphabets are read, and no other character |
| Base64.Rfc4648Vectors | src/core/bytes.ts:74-90 | The test vectors of section 10 of RFC 4648, with their padding |
| Base64.Wrapped | src/core/bytes.ts:101-105 | Wrapping at 32 bits changes no bit that is ever written |
| Base64.Base64RoundTrip | src/core/bytes.ts:74-109 | Decoding the encoding, with anything outside the alphabet inserted anywhere, gives back the bytes |
| Der.EncodeInt | src/core/signer.ts:28-34 | Tag, length and content of one integer, the length kept modulo 256 |
| Der.P1363ToDer | src/core/signer.ts:26-38 | The sequence of both integers, for any number of bytes, the first half being the shorter one |
| Der.ReadInt | src/core/signer.ts:50-59 | One integer read at a cursor, or the error the source throws |
| Der.DerToP1363 | src/core/signer.ts:45-61 | The fixed-width pair, or the error the source throws |
| Der.EncodedIntegerIsDer | src/core/signer.ts:28-34 | The content written is minimal and non-negative and has the value of the input |
| Der.DerForm | src/core/signer.ts:26-38 | The encoding of two halves of 1 to 60 bytes is a SEQUENCE with its own length of two such INTEGERs with theirs |
| Der.DerRoundTrip | src/core/signer.ts:26-61 | Converting a signature of twice 1 to 60 bytes, 32 for P-256, to DER and back gives the same bytes |
| Cents.CentsRoundTrip | src/core/signing.ts:17-19 | toCents undoes centsToAmount up to 2^50 cents whatever rounding errors of at most 2^-53 occur, in reading 1e-9 too |
| Cents.HalfCentRoundsAway | src/core/signing.ts:17-19 | Up to 2^28 cents an amount that ends in half a cent rounds away from zero, to whichever side the float has drifted |
| Money.FormattedReadsBack | src/core/money.ts:18-27 | cents() reads the text of any amount, with any blanks around it, as that amount |
| Money.AmountReads | src/core/money.ts:18-27 | Every text of an optional minus, digits, and no, one or two decimals, with any blanks around it, reads as what it is worth, one decimal counting tenths |
| Money.OnlyAmountsRead | src/core/money.ts:15-23 | No other text reads |
| Money.DecimalReads | src/core/signing.ts:102-105 | An integer in a signed string is its shortest decimal text |
| Money.PercentReads | src/core/signing.ts:21-24 | A percent in one is written with two decimals and reads back as its hundredths |
| Clock.ServerCorrectedClock.Learn | src/core/clock.ts:33-37 | One sample more, the offset moved by the clamped running mean |
| Clock.OffsetWithinEstimates | src/core/clock.ts:33-37 | The offset lies between the smallest and the largest estimate |
| Clock.FirstEightAreAveraged | src/core/clock.ts:36 | Up to eight estimates it is their exact mean |
| Clock.ErrorShrinks | src/core/clock.ts:36 | After k further exact samples the error has shrunk by (7/8)^k |
| FileJournals.FileJournal.Append | src/node/storage.ts:63-66 | A one-line record is added with its newline; any other is refused |
| FileJournals.FileJournal.TornAppend | src/node/storage.ts:63-73 | A crash leaves any prefix of the last append, even one that ends within the bytes of a character |
| FileJournals.FileJournal.ReadFrom | src/node/storage.ts:68-86 | The entries of the file's lines from a position, or the error at a corrupt line |
| FileJournals.FileJournal.Commit | src/node/storage.ts:88-90 | The cursor file is only ever raised |
| FileJournals.FileJournal.Committed | src/node/storage.ts:92-94 | The cursor, or zero without a file |
| Json.ObjectText | src/node/storage.ts:47-52 | What JSON.stringify writes of any object is one line, closed as a whole, with a brace open after every shorter prefix |
| FileJournals.TornAppendReads | src/node/storage.ts:63-86 | After appends of any objects and one torn append of any object, reading does not fail and gives exactly the complete records from the cursor, and the last only if its whole text landed; of JSON.parse only that it takes what JSON.stringify writes of values whose numbers follow the JSON grammar, and nothing unclosed, is assumed |
| FileJournals.SomeParserParses | src/node/storage.ts:75-81 | What is assumed of JSON.parse can be met: a parser of exactly the texts JSON.stringify writes meets it |

## Left out

- Device.FiscalDevice.OpenFiscalDay: the whole call is one step of the machine, because no marker in the code covers a crash between the OpenDay answer and the stored day state; the order of its writes is that of PersistState.
- Cents.CentsRoundTrip: the operations are reals with a bounded relative error, not bit patterns; overflow and the sign of zero are not modelled.
- Money.FormattedReadsBack: amounts are unbounded integers, not doubles above 2^53; `moneyFromJsonNumber` is left out.
- Receipts.SignedFollows: of input validation only what concerns the signed fields is kept.
- Receipts.SignedContents: the floating-point product is any number within one part in 2^53 of the product of price and a real quantity.
- Tax percents finer than two decimals; case mapping beyond ASCII letters.
- JSON.parse, ISO text of dates, the fields of the stored JSON values, the device ID check on load, and buyer, invoice number, notes, QR data and credit/debit note references of a receipt.
- Time zones and date text: dates are integer seconds whose order is the order of their text.
- `signatureFormat: "p1363"`, which FDMS rejects.
- Signing 0.3.x unsigned queue entries, `FileJournal.compact`, and appending after a torn tail.
- Concurrent calls on one device and two processes on one directory.
- FdmsClient headers, timeouts, back-off times and HTTP text; TLS, certificates and registration; the CLI and the MCP server.
- SHA-256, MD5 and ECDSA.
