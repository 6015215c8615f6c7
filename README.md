# Employee import job and invoice API — a Dafny model

This project models the two working parts of the Odoo add-on.

The first is the asynchronous **employee import job**, `employee.import.job`.
- `action_start` marks jobs `pending` and, when `queue_job` is installed,
  calls `_enqueue_process` on each.
- `process_file` resets a job and reads the uploaded sheet.
- It builds the header map and runs every data row through mapping, the
  missing-name check, the duplicate search and `hr.employee.create`.
- It then writes `total`, `processed`, `errors` and `state` back.
- `_notify_user` mails the owner the result.

The second is the **invoice JSON API**, `InvoiceAPI`.
- The token lookup in `_get_user_from_key`.
- The authentication guard and payload normalisation shared by the endpoints.
- The per-item `try`/`except` result loop of `create_invoices`,
  `update_invoices` and `register_payments`.
- The decision rules of each item.
- The partner filter and 500-row limit of `list_invoices`.

Modules:

- Wrappers: `Option` and `Result`.
- Text: the string operations the code relies on, namely `strip`, ASCII
  `lower`, `startswith`, `"\n".join`, `str(int)` and `int(str)`.
- EmployeeImport: the import run as pure functions. These are the header
  map, `ProcessRow` for one row against the store as it stands, the row loop
  `ImportRows`, and `RunJob` for one whole job.
- ImportProperties: lemmas about those functions.
- ImportJobs: the job record and the tables it touches as classes.
  - Classes: `ImportJob`, `EmployeeStore` (`hr.employee`), `Outbox`
    (`mail.mail`) and `Dispatcher` (a record of the `_enqueue_process`
    calls).
  - Imperative methods for `action_start`, `process_file` and `_notify_user`,
    each proved against the functions above.
- ApiAuth: `_get_user_from_key`.
- InvoiceApi: the endpoints as functions over abstract `Books` (invoices and
  payments). The accounting module's answers are oracles that accept or raise
  with a message.
- InvoiceProperties: lemmas about the endpoint functions.
- InvoiceEndpoints: the endpoints as they run. A `Ledger` object holds the
  books; the per-item methods and the result loop are proved equal to the
  functions of `InvoiceApi`.

Four behaviours of the code are easy to misread; the model follows the code:

- **Duplicate search.** Both the id term and the email term go into one
  Odoo domain, and `search` ANDs the terms of a domain. A row with both is
  a duplicate only when one employee matches both. See
  `ImportProperties.BothTermsMustMatch`.
- **Header-only sheet.** A sheet with a header row and no data rows ends
  `done` with zero counters. Only a sheet with no rows at all fails with
  "Empty file". See `ImportProperties.HeaderOnlyIsDone` and
  `ImportProperties.NoRowsFails`.
- **`action_start` from any state.** `action_start` sets every job of the
  set to `pending`, whatever its state, `done` and `failed` included.
- **A crash ends the whole call.** A header cell that is truthy but not
  text makes `.strip()` raise outside any `try`. The exception ends the
  whole call, so the later jobs of the set are not processed. The model
  returns `crashed`. `ProcessJob`, `RunJobs` and `ProcessFile` give the
  state in memory at the moment of the raise. Odoo then rolls the
  transaction back, which the model does not follow (see "Left out").

## Model

| member | source | states |
|---|---|---|
| ImportJobs.ActionStart | models/employee_import_job.py:34-45 | every job of the set becomes `pending` whatever its state was, with no other field changed; the jobs' `_enqueue_process` calls are recorded in order exactly when `queue_job` is installed; the result is `True` |
| ImportJobs.ImportJob.constructor | models/employee_import_job.py:19-32 | a new upload is `draft` with zero counters and no errors |
| ImportJobs.ImportJob.Summary | models/employee_import_job.py:144-159 | the mail goes to the user's address with the subject `"Employee Import: {name} - {state}"`; its body carries the job name, `processed`, `total`, and the `errors` text or `'No errors'` when there is none |
| ImportJobs.NotifyUsers | models/employee_import_job.py:138-163 | the outbox grows by exactly one mail per job, in order, up to the first job whose user has no address; the `return` there ends the loop |
| ImportJobs.Notifications | models/employee_import_job.py:142-161 | `_notify_user` on a record set sends at most one mail per job |
| ImportJobs.NotificationsAt | models/employee_import_job.py:142-161 | mail k is the summary of job k, which has an address; no job at or after the first job without an address is mailed, and every job before it is |
| ImportJobs.NotificationsFrom | models/employee_import_job.py:142-161 | from job i on, the mails are job i's summary followed by the mails of the later jobs, or none when job i has no address |
| ImportJobs.JobMail | models/employee_import_job.py:142-160 | the mail of one finished job, or none without an address; `NotificationOf` states that it is the job's summary and `NotificationsAt` where it stands in the outbox |
| ImportJobs.NotificationOf | models/employee_import_job.py:136-161 | a job whose fields show its outcome is mailed one summary of that outcome when its user has an address, and nothing otherwise |
| ImportJobs.EmployeeStore.Create | models/employee_import_job.py:126 | `create` appends the record, or raises with the table's message and leaves the table unchanged |
| ImportJobs.ImportRow | models/employee_import_job.py:89-130 | one loop iteration yields exactly the outcome `ProcessRow` gives against the current store; nothing is created unless `Created` |
| ImportJobs.ImportRowsInto | models/employee_import_job.py:86-130 | the row loop leaves the store `ImportRows` gives; `created` counts the created rows and `errors` lists the skipped rows' messages in row order |
| ImportJobs.ProcessJob | models/employee_import_job.py:58-136 | one job: the reset, then the fields and store `RunJob` gives, then exactly one notification; on a header crash the job is left `running` with counters reset and nothing created or mailed; a finished job is settled; existing employees are kept as a prefix |
| ImportJobs.MarkLibraryMissing | models/employee_import_job.py:49-56 | without `openpyxl`, every job is `failed` with `"openpyxl not installed"` and the counters are not reset |
| ImportJobs.RunJobs | models/employee_import_job.py:58-136 | the jobs run in order, each on the store the jobs before it left: the outcome of each finished job is `RunJob` of its file on that store, its fields show that outcome and are settled, the store is the one the last finished job left, and the outbox is the old mails followed by each finished job's mail, in order; a job that raised is as the reset left it, every job after it is unchanged, and `crashed` says the last job run raised |
| ImportJobs.RunNext | models/employee_import_job.py:58-136 | one more iteration of the job loop keeps the loop's account of jobs, store and outbox true for one more job |
| ImportJobs.ProcessAt | models/employee_import_job.py:58-136 | job i runs on the store the jobs before it left and its outcome extends the trace; no other job changes; a raise leaves store and outbox as they were, and otherwise the store is the outcome's and the outbox grows by the job's mail |
| ImportJobs.Advance | models/employee_import_job.py:58-136 | the loop's account after one more job follows from the account before it and that job's outcome |
| ImportJobs.LoopIsRunAll | models/employee_import_job.py:58-136 | a loop that ran every job, or stopped at one that raised, left exactly what `RunAll` describes |
| ImportJobs.RunAll | models/employee_import_job.py:58-136 | jobs run one at a time in order; the run covers every job unless a job raised, which ends it, and every outcome before the last is a finished one |
| ImportJobs.RunAllAt | models/employee_import_job.py:58-136 | outcome k is the run of job k on the store the job before it left |
| ImportJobs.RunAllStore | models/employee_import_job.py:58-136 | the call ends with the store the last finished job left |
| ImportJobs.TraceIsRunAll | models/employee_import_job.py:58-136 | a trace of the loop that covers every job or stops at one that raised is the outcome list `RunAll` gives |
| ImportJobs.RunAllKeepsStore | models/employee_import_job.py:58-136 | the employees present before the call stay, in their places, whatever the jobs do |
| ImportJobs.ProcessFile | models/employee_import_job.py:47-136 | `process_file` on a set: without `openpyxl` only state and errors change; otherwise the store is the one `RunAll` gives, the outbox gains the mails of the finished jobs in order, each finished job shows its own `RunJob` outcome and is settled, a job that raised is as the reset left it, the jobs after it are unchanged, and `crashed` holds exactly when a job raised |
| EmployeeImport.HeaderKey | models/employee_import_job.py:85 | `(h or '').strip().lower()` is defined exactly for a falsy or text cell and gives `""` for a falsy one; for a text cell it is the stripped text with each character lower-cased, with no whitespace at either end |
| EmployeeImport.HeaderMap | models/employee_import_job.py:85 | every key of the header map stands for a column of the header row |
| EmployeeImport.HeaderMapDefined | models/employee_import_job.py:85 | the header map exists exactly when every header cell is falsy or text |
| EmployeeImport.HeaderMapHasEveryKey | models/employee_import_job.py:85 | every header's normalized text is a key of the map |
| EmployeeImport.HeaderMapLastColumn | models/employee_import_job.py:85 | each key maps to a zero-based column whose header yields it, and no later column yields the same key, so the last duplicate header wins |
| EmployeeImport.Lookup | models/employee_import_job.py:91-94 | a field the header does not name reads as `None`; a mapped column past the row's end raises; otherwise the cell at the mapped index is read |
| EmployeeImport.ProcessRow | models/employee_import_job.py:90-130 | a row creates an employee only with a truthy name, marked active, and only when the table as it stands accepts it |
| EmployeeImport.ImportRows | models/employee_import_job.py:89-130 | the row loop yields one outcome per data row |
| EmployeeImport.RunJob | models/employee_import_job.py:64-135 | a job raises exactly when its sheet has a header row the header map rejects; a finished job has `processed <= total` and is `done` exactly when `errors` is `False` |
| EmployeeImport.Extract | models/employee_import_job.py:91-94 | reading the four fields of a row; `ShortRowIsMappingError` states that a mapped column past the row's end fails the read and `Lookup` states each field's value |
| EmployeeImport.Domain | models/employee_import_job.py:105-109 | the duplicate domain has at most two terms, and is empty, so that no search is made, exactly when the row has neither a truthy id nor a truthy email; `DuplicateIffMatch` and `BothTermsMustMatch` state how it decides a duplicate |
| EmployeeImport.Vals | models/employee_import_job.py:119-125 | the values given to `create`; `CreatedFromRow` states each of them and `ValsMatchOwnDomain` that they satisfy the row's own domain |
| EmployeeImport.ErrorsField | models/employee_import_job.py:134 | the `errors` field; `RowJobCounters` states that it is `False` exactly when no row failed and that it splits back into the error lines |
| EmployeeImport.MappingError | models/employee_import_job.py:96 | the text of a mapping error; `ShortRowIsMappingError` states when a row gets it and `RowNumbered` its `"Row n: "` prefix |
| EmployeeImport.MissingName | models/employee_import_job.py:101 | the text of a missing name; `MissingNameSkipped` states when a row gets it |
| EmployeeImport.Duplicate | models/employee_import_job.py:116 | the text of a duplicate; `DuplicateIffMatch` states that a row gets it exactly when its domain matches |
| EmployeeImport.CreateError | models/employee_import_job.py:130 | the text of a refused `create`; `CreateRefusedSkipped` states that a row with a refused `create` gets it, with the table's message |
| ImportProperties.CreateRefusedSkipped | models/employee_import_job.py:119-130 | a row past the mapping, name and duplicate checks is skipped with `"Row n: create error - …"` and the table's message when the table refuses it, and is created otherwise |
| ImportProperties.ShortRowIsMappingError | models/employee_import_job.py:89-98 | a row shorter than one of the four mapped columns is skipped as `"Row n: mapping error - …"` |
| ImportProperties.MissingNameSkipped | models/employee_import_job.py:100-102 | a row with a falsy name is skipped as `"Row n: missing name"` |
| ImportProperties.DuplicateIffMatch | models/employee_import_job.py:104-117 | a row past the mapping and name checks is a duplicate exactly when it has an id or an email and some active employee matches every term of its domain; with neither, no search is made and it is no duplicate |
| ImportProperties.BothTermsMustMatch | models/employee_import_job.py:105-113 | with both an id and an email, one employee must match both; the terms are joined with AND |
| ImportProperties.ValsMatchOwnDomain | models/employee_import_job.py:105-125 | the record created for a row satisfies that row's own duplicate domain |
| ImportProperties.CreatedFromRow | models/employee_import_job.py:119-127 | a created employee comes from a row whose fields were read, whose name is truthy and whose domain matched no one; it stores the name, the email or `False`, the phone or `False`, and `str(id)` or `False` |
| ImportProperties.RowNumbered | models/employee_import_job.py:89-130 | the error line of the data row at position k starts with `"Row k+2: "` |
| ImportProperties.OutcomeAt | models/employee_import_job.py:89-130 | each data row is processed in sheet order, against the store the earlier rows left |
| ImportProperties.EarlierCreationIsDuplicate | models/employee_import_job.py:104-127 | an employee created by an earlier row makes a later row with a matching non-empty domain a duplicate |
| ImportProperties.PresentStaysPresent | models/employee_import_job.py:113-126 | a match present before the loop is still found by every later row |
| ImportProperties.RerunCreatesNothing | models/employee_import_job.py:104-117 | running the same keyed rows again after a run that created them all creates nothing; every row is reported as a duplicate |
| ImportProperties.CreatedIsStored | models/employee_import_job.py:126-127 | every employee a row created is in the store the run leaves |
| ImportProperties.StoreGrowsByCreated | models/employee_import_job.py:119-130 | the store after the loop is the store before it, followed by the created employees in row order |
| ImportProperties.StorePrefix | models/employee_import_job.py:89-130 | the store a later row sees extends the store an earlier row sees |
| ImportProperties.PrefixRun | models/employee_import_job.py:89-130 | running the loop over a prefix of the rows gives a prefix of the outcomes |
| ImportProperties.CountsAddUp | models/employee_import_job.py:127-132 | every data row either created one employee or added one error line |
| ImportProperties.CountsOfPrefix | models/employee_import_job.py:127-130 | one more row adds one to `created` or one message to `errors`, and nothing else |
| ImportProperties.RecordsOfPrefix | models/employee_import_job.py:119-130 | the employees created by a prefix of the outcomes are a prefix of all those created |
| ImportProperties.UnreadableFails | models/employee_import_job.py:64-74 | a file that cannot be decoded fails with `"Failed to read file: …"`, zero counters and an unchanged store |
| ImportProperties.NoRowsFails | models/employee_import_job.py:76-83 | a sheet with no rows fails with `"Empty file"` |
| ImportProperties.HeaderOnlyIsDone | models/employee_import_job.py:85-136 | a sheet with only a header row ends `done` with zero counters and no errors |
| ImportProperties.BadHeaderCrashes | models/employee_import_job.py:85 | a truthy header cell that is not text makes the run raise before any row is read |
| ImportProperties.PlainHeaderKey | models/employee_import_job.py:85 | an unpadded lower-case header text is its own key |
| ImportProperties.JobAccounting | models/employee_import_job.py:132-135 | a finished job has `processed <= total`; it is `done` exactly when `errors` is `False`, and a `done` job has `processed == total`; the store grows by exactly `processed` records |
| ImportProperties.RowJobCounters | models/employee_import_job.py:132-135 | `total == processed + len(errors)`; the state is `done` exactly when no row failed; with newline-free messages the `errors` text splits back into one line per failed row |
| ImportProperties.RowStep | models/employee_import_job.py:89-130 | one iteration of the imperative loop keeps its counters and store equal to those of the row loop function |
| Text.Trim | models/employee_import_job.py:85 | `strip()` is a slice `s[a..b]` whose cut-off ends are all whitespace; it leaves no whitespace at either end and is empty exactly for an all-whitespace text |
| Text.Lower | models/employee_import_job.py:85 | `lower()` keeps the length, and each character is its ASCII lower case |
| Text.Join | models/employee_import_job.py:134 | `"\n".join` of no lines is `""` and of one line is that line |
| Text.SplitJoin | models/employee_import_job.py:134 | splitting a newline join of newline-free lines gives back the lines |
| Text.ParseIntToString | controllers/api.py:121 | `int(str(i)) == i` |
| Text.ParseInt | controllers/api.py:121 | `int()` accepts only a text that is not blank |
| ApiAuth.Token | controllers/api.py:10-14 | a token, when there is one, is never empty; with both headers absent or empty there is none |
| ApiAuth.AbsentOrEmptyIsNoUser | controllers/api.py:10-14 | with both headers absent or empty there is no token, and so no user |
| ApiAuth.Accepts | controllers/api.py:15 | the search domain `key = token` and `active = True`; `FirstAccepting` states that the search finds the first record it accepts and `InactiveKeysNeverAuthenticate` that an inactive key is never accepted |
| ApiAuth.RawToken | controllers/api.py:10 | the raw token is the `Authorization` header, or else a non-empty `X-API-KEY` |
| ApiAuth.FirstAccepting | controllers/api.py:15 | `search(..., limit=1)` finds the FIRST record that has the token and is active, or none exactly when no record does |
| ApiAuth.UserFromKey | controllers/api.py:8-18 | a user is returned exactly when there is a token and an active record with that key, and it is that record's user |
| ApiAuth.ApiKeyHeaderWins | controllers/api.py:10 | a non-empty `X-API-KEY` is the token, and `Authorization` is then ignored |
| ApiAuth.AuthorizationFallback | controllers/api.py:10 | with `X-API-KEY` absent or empty, the raw token is the `Authorization` header |
| ApiAuth.BearerRest | controllers/api.py:12 | `split(' ', 1)[1]` of `"Bearer " + s` is `s` |
| ApiAuth.BearerTokenStripped | controllers/api.py:11-12 | a `Bearer ` token is the stripped rest |
| ApiAuth.BlankBearerIsNoToken | controllers/api.py:11-14 | `"Bearer "` followed only by whitespace gives no token and so no user |
| ApiAuth.PlainTokenVerbatim | controllers/api.py:10-14 | a token without the prefix is used verbatim |
| ApiAuth.InactiveKeysNeverAuthenticate | controllers/api.py:15 | inactive keys never authenticate |
| ApiAuth.FirstKeyDecides | controllers/api.py:15-17 | records after the first accepting one never change the user |
| InvoiceApi.Normalize | controllers/api.py:25-26 | the normalised payload is never empty |
| InvoiceApi.Find | controllers/api.py:64-66 | `browse(id).exists()` finds the invoice with exactly that integer id, or none when no invoice has it |
| InvoiceApi.NextId | controllers/api.py:47-48 | the id the database gives a created invoice, or a created payment (lines 102-108), is greater than the id of every record of that table |
| InvoiceApi.PaymentType | controllers/api.py:95 | `inbound` exactly for an `out_invoice`, and `outbound` otherwise |
| InvoiceApi.RunItems | controllers/api.py:27-52 | the result loop yields one entry per item |
| InvoiceApi.Serve | controllers/api.py:20-112 | a batch endpoint answers `{'error': 'Authentication failed'}` exactly when there is no user, and then leaves the books unchanged; a `results` answer has one entry per normalised item |
| InvoiceApi.LineItems | controllers/api.py:35-37 | `for l in lines` visits a list's items; a text or a dict yields nothing when empty and raises the `AttributeError` of `.get` on its first element otherwise; any other value raises the `TypeError` of a value that is not iterable |
| InvoiceApi.MoveValsOf | controllers/api.py:30-46 | an item that is not a dict raises the `AttributeError` of `.get`; an item without `lines` gives `vals` without line commands |
| InvoiceApi.LineOf | controllers/api.py:38-43 | the values of one line command; `LinesOfDicts` states that each dict of `lines` gives its own, in order |
| InvoiceApi.LinesVals | controllers/api.py:37-44 | the line loop; `LinesOfDicts`, `FirstNonDictFails` and `LinesFailureSticks` state its result, and `InvoiceEndpoints.LineCommands` is proved to compute it |
| InvoiceApi.Selected | controllers/api.py:69-72 | a field is written only when it is truthy; `UpdateWritesOnlyTruthy` and `NothingToWrite` state it |
| InvoiceApi.Written | controllers/api.py:73-74 | `move.write(vals)` changes only the selected fields; `UpdateWritesOnlyTruthy` states it |
| InvoiceApi.PaymentValsOf | controllers/api.py:94-101 | the payment values; `PaymentFollowsInvoice` states the type, partner and amount rules |
| InvoiceApi.CreateItem | controllers/api.py:29-51 | an item yields `{'id', 'name'}` or an error; an error leaves the books unchanged, and a success adds exactly one invoice and no payment |
| InvoiceApi.UpdateItem | controllers/api.py:63-78 | an item yields `{'id'}` or an error; an error leaves the books unchanged, and no item adds or removes a record |
| InvoiceApi.RegisterItem | controllers/api.py:90-111 | an item yields `{'payment_id'}` or an error; an error leaves the books unchanged, invoices are never changed, and a success adds exactly one payment |
| InvoiceApi.Search | controllers/api.py:122 | `search(domain, limit=500)` returns at most 500 invoices, a prefix of the matching invoices in table order, and all of them when fewer than 500 match |
| InvoiceApi.PyInt | controllers/api.py:121 | `int()` of a JSON value; `TextPartnerParsed` states that a number's text is parsed back to it and `UnparsablePartnerRaises` that a rejected value raises |
| InvoiceApi.Matching | controllers/api.py:119-122 | the invoices the domain accepts; `MatchingSound`, `MatchingComplete` and `MatchingAppend` state that exactly the accepted invoices are matched, in table order |
| InvoiceApi.ListRow | controllers/api.py:133-139 | one listed row; `ListRowsAt` states its fields |
| InvoiceApi.ListRows | controllers/api.py:124-139 | one row per invoice, in order; `ListRowsAt` states that row i has the id, name, state and total of invoice i |
| InvoiceApi.ListInvoices | controllers/api.py:114-140 | the listing answers `{'error': 'Authentication failed'}` exactly when there is no user; it raises only for a truthy `partner_id`, and lists at most 500 invoices |
| InvoiceProperties.GuardFirst | controllers/api.py:22-24 | without a user, each batch endpoint answers exactly `{'error': 'Authentication failed'}` and leaves the books unchanged; with a user it answers `results` |
| InvoiceProperties.ListGuard | controllers/api.py:116-118 | the listing has the same guard |
| InvoiceProperties.ListPayloadAsIs | controllers/api.py:25-26 | a non-empty list under `data` is processed as it is |
| InvoiceProperties.OtherPayloadWrapped | controllers/api.py:25-26 | any other truthy `data` is wrapped as the single item |
| InvoiceProperties.NoDataUsesParams | controllers/api.py:25-26 | without a truthy `data`, the parameters themselves are the single item |
| InvoiceProperties.EntryAt | controllers/api.py:28-51 | entry k is what item k yields against the books the earlier items left |
| InvoiceProperties.PrefixEntries | controllers/api.py:28-51 | the entries of a prefix of the items are a prefix of the entries |
| InvoiceProperties.ErrorChangesNothing | controllers/api.py:49-51 | an item that raises leaves the books unchanged |
| InvoiceProperties.EntryShapes | controllers/api.py:48-51 | each endpoint's entries are its own success shape or `{'error': …}` |
| InvoiceProperties.FailedItemIsInert | controllers/api.py:28-51 | removing a failing item from the payload removes only its entry, and the final books are the same |
| InvoiceProperties.LinesOfDicts | controllers/api.py:37-44 | a list of dicts gives one line command per entry, in order |
| InvoiceProperties.FirstNonDictFails | controllers/api.py:37-44 | otherwise the item fails with the `AttributeError` of the first line that is not a dict |
| InvoiceProperties.LinesFailureSticks | controllers/api.py:37-44 | once a line fails, the later lines do not change the error |
| InvoiceProperties.CreatedIsFresh | controllers/api.py:47-48 | a created invoice gets an id no invoice had, is appended, and is reported under that id |
| InvoiceProperties.MoveTypeDefault | controllers/api.py:31 | a missing `move_type` becomes `out_invoice`; a given one is kept |
| InvoiceProperties.UnknownInvoice | controllers/api.py:64-66 | an unknown id, to update or to pay, gives `'Invoice not found'` and changes nothing |
| InvoiceProperties.NothingToWrite | controllers/api.py:68-75 | with neither value truthy nothing is written, and the invoice's id is still reported |
| InvoiceProperties.UpdateWritesOnlyTruthy | controllers/api.py:68-75 | an update changes only the found invoice, and of it only a truthy partner and a truthy date |
| InvoiceProperties.PaymentFollowsInvoice | controllers/api.py:91-108 | a payment is `inbound` exactly for an `out_invoice`, carries the invoice's partner, and uses the given amount unless it is absent or zero, when it uses the residual; it is appended under the reported id |
| InvoiceProperties.ItemKeepsIds | controllers/api.py:28-112 | an item of any endpoint keeps invoice ids and payment ids distinct, and loses no record or id |
| InvoiceProperties.BatchKeepsIds | controllers/api.py:28-112 | so does a whole batch |
| InvoiceProperties.MatchingSound | controllers/api.py:119-122 | the search returns only invoices of the books that the filter accepts, and no more than there are |
| InvoiceProperties.MatchingComplete | controllers/api.py:119-122 | every invoice of the books that the filter accepts is matched |
| InvoiceProperties.MatchingAppend | controllers/api.py:119-122 | matching keeps table order: the matches of two stretches of the table are the matches of the first followed by those of the second |
| InvoiceProperties.MatchingAll | controllers/api.py:119-122 | with no filter, the search matches every invoice |
| InvoiceProperties.ListingSound | controllers/api.py:119-139 | the listing has at most 500 rows, each an invoice of the books that has the requested partner; it lists every matching invoice, in table order, when at most 500 match, and otherwise the first 500 |
| InvoiceProperties.ListRowsAt | controllers/api.py:124-139 | row i has the id, name, state and total of invoice i |
| InvoiceProperties.UnfilteredListsAll | controllers/api.py:119-139 | with no filter, books of at most 500 invoices are listed whole, in order |
| InvoiceProperties.FalsyPartnerIgnored | controllers/api.py:120 | a falsy `partner_id` lists the same as no `partner_id` |
| InvoiceProperties.UnparsablePartnerRaises | controllers/api.py:120-121 | a truthy `partner_id` that `int()` rejects makes the listing raise |
| InvoiceProperties.TextPartnerParsed | controllers/api.py:120-122 | a partner id given as the text of a number, with whitespace around it or not, filters on that number |
| InvoiceEndpoints.LineCommands | controllers/api.py:36-44 | the `for l in lines` loop builds exactly the line commands, or the error of the first line that is not a dict |
| InvoiceEndpoints.Ledger.CreateInvoice | controllers/api.py:29-51 | one item of `create_invoices` yields exactly the entry and books of `CreateItem`, keeps ids distinct and loses no record |
| InvoiceEndpoints.Ledger.UpdateInvoice | controllers/api.py:63-78 | one item of `update_invoices` yields exactly the entry and books of `UpdateItem`, keeps ids distinct and loses no record |
| InvoiceEndpoints.Ledger.RegisterPayment | controllers/api.py:90-111 | one item of `register_payments` yields exactly the entry and books of `RegisterItem`, keeps ids distinct and loses no record |
| InvoiceEndpoints.Ledger.ProcessItem | controllers/api.py:28-111 | the body of an endpoint's `try` yields exactly the step of that endpoint's item function, and keeps ids distinct |
| InvoiceEndpoints.Ledger.ProcessItems | controllers/api.py:27-52 | the result loop leaves exactly the entries and books of `RunItems`, keeps ids distinct and loses no record |
| InvoiceEndpoints.BatchStep | controllers/api.py:28-51 | one more item extends the batch by its entry and its books |
| InvoiceEndpoints.Ledger.Handle | controllers/api.py:20-112 | each batch endpoint answers as `Serve` does and leaves its books; it keeps ids distinct and loses no record |
| InvoiceEndpoints.Ledger.List | controllers/api.py:114-140 | the listing answers as `ListInvoices` does and changes nothing |

## Left out

- Decoding and reading the file (`base64`, `openpyxl`): the readable sheet
  and the read failure's message are inputs (`Workbook`).
- ImportJobs.ActionStart: the append to `Dispatcher.queued` stands for a
  deferral that the code does not perform. A direct call of an `@job` method
  of `queue_job` runs it at once (only `with_delay()` defers it), so the
  `process_file` run inside `action_start` is not modelled. Worker
  scheduling is left out with it.
- Building and sending mail: only the recipient, the subject and the job's
  values in the body (name, counters and errors) are modelled. The
  greeting's user name, `{job.user_id.name}`, and the Indonesian HTML body
  text are not. `Outbox`
  receives the collected mails together. A send failure, which the code
  swallows, is not modelled.
- ORM transactions and rollback: the model assumes that a raised `create`
  or `write` leaves its table unchanged. It also assumes that a failed item
  of a batch does not disturb the later items, which `FailedItemIsInert`
  and `ErrorChangesNothing` rely on. Both hold only for refusals raised in
  Python before the database is touched. The model's refusals are of that
  kind only. Odoo's `create` and `write` run without a savepoint. A
  database-level error, such as a foreign-key violation for an unknown
  `partner_id` or a constraint raised after the INSERT, puts the PostgreSQL
  transaction in the aborted state. Every later item of the batch would
  then fail too, and the end of the request would discard the earlier
  successes. This is not modelled.
- After a header crash the model keeps the state in memory at the moment of
  the raise, while Odoo rolls back the whole call, including the earlier
  jobs' employees, fields and mails. ORM value coercion of `vals` is not
  modelled.
- ImportJobs.ProcessFile: `ProcessFile`, `RunJobs`, `RunNext` and
  `ProcessAt` require a record set without repeated records (`Distinct`).
  Odoo allows repeats (`browse([1, 1])`, `a + a`), and the same job would
  then be processed twice. Every caller in the add-on passes one record
  (`rec._enqueue_process()`, and `job.process_file()` in
  tests/test_employee_import.py), so this case is not modelled.
- Logging (`_logger`) has no effect on state and is left out.
- Floating point: `0.0`, `float(...)` and amounts are integers in the model.
  The price default is `0`, and the residual and `amount_total` are copied
  as integers.
- Cells are limited to the `None`, text, integer and boolean kinds, and
  scalar JSON values likewise. Dates and floats are left out.
- Text.Lower: `str.lower()` is modelled for ASCII letters only, with no Unicode case
  mapping.
- Text.ParseInt: `int()` accepts whitespace, one sign and ASCII digits. Underscores and
  non-ASCII digits are not modelled.
- `browse(id)` with an id that is not a JSON integer is taken as not found.
  The errors that browsing such a value can raise are not modelled.
- InvoiceProperties.ListingSound: the payments of each listed invoice are
  left out. This covers the `_get_reconciled_payment_ids`/`payment_ids`
  probe and the `payments` list with its float amounts and journal names.
  A row holds id, name, state and total only.
- RegisterItem: `action_post` is left out, because the code ignores its
  failure and its result is never read.
- InvoiceApi.Search: the record order of `account.move` is taken as table
  order. The model's `_order` is not modelled.
- InvoiceApi.ListInvoices: the `ValueError` that `int()` raises escapes
  the endpoint. It is modelled as `Raised`, without its message.
- InvoiceApi.LineItems: iterating a dict of lines visits its keys, which
  are texts, so the first `l.get` raises. Key order does not matter for that
  error and is not modelled.
- The accounting module's decisions are oracles (`Oracles`, `Refusal`):
  invoice names and states, totals, residuals, and which writes and creates
  it refuses, with what message.
- The caller's `sudo(user.id)` environment is passed to the oracles as the
  user id. Access rights are not modelled.
- ApiAuth.Header: HTTP header names are matched exactly, not
  case-insensitively as the request's header object does. HTTP routing and
  JSON decoding and encoding are left out.
