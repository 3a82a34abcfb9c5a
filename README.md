# Lead reactivation intake: a Dafny model

This project models the core of a Flask service for roofing companies.

- **Registration.** A company registers once, with its owner's contact details and its CRM (GoHighLevel) location id.
- **Lead intake.** Leads arrive one at a time, from a CSV upload or through the bulk JSON endpoint.
- **Storage and queueing.** Each lead that passes validation is stored and queued for a background worker.
- **The worker.** It builds a CRM contact from the lead and its company and sends it, with up to three attempts.
- **Processing log.** Every lead has one processing-log row that records what the worker did: pending, processing, success or failed, the worker id, the CRM contact id, the last error and the attempt count.

One Dafny module corresponds to each service file:

| module | file | models |
|---|---|---|
| `Wrappers` | `wrappers.dfy` | `Option`, `Result`, and `Arg` (a keyword argument that was passed or omitted) |
| `Text` | `text.dfy` | Python's `isspace`, `strip`, `str(int)`, `int(str)` and `replace`, over ASCII |
| `Models` | `models.dfy` | request dictionaries (`Data`, a map from the known keys to str/int/None values), and the rows of leads, companies and processing logs; `.first()` on a query |
| `Validation` | `validation.dfy` | `ValidationResult` (a class, since `add_error` mutates it), the field validators, and `validate_lead_data` / `validate_company_data` as loop-and-step methods, each proved equal to a specification function; plus lemmas stating each field's messages in closed form |
| `LoggingService` | `logging_service.dfy` | the processing-log table, as a class over a map from ids to rows: creation, status updates with optional fields, the filtered and sorted company query, and lookup by lead |
| `CompanyService` | `company_service.dfy` | the company table, with the owner email unique: registration and lookups |
| `LeadService` | `lead_service.dfy` | the lead table: `create_lead`, `enqueue_lead`, `parse_csv`, and `create_and_enqueue_leads` with its counters |
| `BulkApi` | `bulk.dfy` | the `POST /api/leads/bulk` endpoint: guards, validation partition, summary |
| `GhlService` | `ghl_service.dfy` | the contact payload (including the first/last name split), the outcomes of `create_contact`, and `handle_api_error` |
| `ProcessLead` | `process_lead.dfy` | the worker job: lookups, get-or-create of the log row, and the retry loop with its log writes |

Two conventions recur:

- **Tables are classes.** The database tables are classes whose map fields the methods reassign. Each table has a `Valid()` invariant: ids are positive, below the next id, and equal to the row's own id. The company table additionally has unique owner emails.
- **Methods are specified by functions.** Each method is proved against a specification function: `LeadErrors`, `CompanyErrors`, `Batch`, `Stored`, `Accepted`/`Rejected`, `Retry`, `Processed`, `History`. The lemmas state what those functions promise.

The outside world enters as parameters:

- **Clock:** one `now` per call or job run.
- **Process id:** `pid`.
- **Queue:** its health is a boolean, and its answer to each lead id is a function from id to `QueueReply`.
- **CRM:** the outcome of each attempt (`CrmCall`, which is `CreateContact` of an `HttpOutcome`).
- **CSV reader:** its header and rows.

## Model

| member | source | states |
|---|---|---|
| Validation.ValidationResult.AddError | app/services/validation.py:13-18 | appends the message to the field's list (creating the list if absent), and the result becomes invalid; `Valid()` keeps `is_valid` equal to "no messages" |
| Validation.ValidationResult.Update | app/services/validation.py:163-165 | `errors.update(other)` replaces the list of every field that `other` names and leaves the other fields' lists; the result is invalid |
| Validation.ValidateName | app/services/validation.py:21-36 | one "Name cannot be empty…" message under `name` exactly when the value is falsy (None, 0, "") or whitespace only; no message otherwise |
| Validation.ValidateEmail | app/services/validation.py:39-61 | a blank value gets only "Email cannot be empty"; otherwise "Invalid email format" exactly when the stripped address does not match the pattern |
| Validation.EmailPatternAtFirstAtLastDot | app/services/validation.py:56-58 | the pattern matches exactly when splitting at the first '@' and at the last '.' gives a valid local part, domain and letters-only TLD of length ≥ 2 |
| Validation.EmailPatternHasOneAt | app/services/validation.py:56 | a matching address has exactly one '@' |
| Validation.ValidatePhone | app/services/validation.py:64-90 | a blank phone gets only "Phone cannot be empty"; otherwise the format message when a character outside digits, whitespace, `()-+` occurs (checked on the stripped phone), then the digit message when there is no digit (checked on the raw phone) |
| Validation.StripKeepsBadPhoneChar | app/services/validation.py:81-84 | checking the format on the stripped phone or on the raw phone finds the same bad characters |
| Validation.CheckRequired | app/services/validation.py:105-109 | the required-field loop leaves exactly `RequiredErrors`: one "… is required" message per missing or falsy field, in field order |
| Validation.LeadRequiredErrors | app/services/validation.py:155-158 | for a lead, each of name, phone and company_id gets its message when missing; name and phone also when falsy; company_id only when absent; no other field gets one |
| Validation.CompanyRequiredErrors | app/services/validation.py:106-109 | each of the five company fields gets its message exactly when missing or falsy; no other field gets one |
| Validation.WithErrorKeepsOthers | app/services/validation.py:13-18 | `add_error` leaves every other field's list as it was |
| Validation.WithErrorsKeepsOthers | app/services/validation.py:129-130 | adding several messages to one field leaves every other field's list as it was |
| Validation.AddErrors | app/services/validation.py:129-130 | the copy loop appends the messages, in order, to the field's list |
| Validation.AddOwnerNameErrors | app/services/validation.py:122-123 | the loop appends each name message, with `Name` replaced by `Owner name`, under `owner_name` |
| Validation.OwnerNameMessage | app/services/validation.py:123 | the renamed blank-name message is "Owner name cannot be empty or contain only whitespace" |
| Validation.ValidateLeadData | app/services/validation.py:142-181 | the method's errors are `LeadErrors(data)`, and `is_valid` holds exactly when there are none |
| Validation.LeadErrorsByField | app/services/validation.py:154-179 | field by field: name's list is replaced by the validator's list when the name is blank (the "is required" message is lost), and likewise for phone; company_id gets "must be a valid integer" when `int()` rejects it; no other field gets messages |
| Validation.LeadAccepted | app/services/validation.py:154-179 | a lead passes exactly when it has a non-blank name, a phone `validate_phone` accepts, and a company_id `int()` accepts |
| Validation.ValidateCompanyData | app/services/validation.py:93-139 | the method's errors are `CompanyErrors(data)`, and `is_valid` holds exactly when there are none |
| Validation.CompanyErrorsByField | app/services/validation.py:105-137 | field by field: a blank company name adds its message under `name`, not under `company_name`; the owner fields get their "is required" message, then the validator's messages appended; `ghl_location_id` gets only its "is required" message |
| Validation.CompanyAccepted | app/services/validation.py:105-137 | a company passes exactly when its name and owner name are non-blank, the email and phone validators accept, and the location id is truthy |
| Validation.ValidateCompanyExists | app/services/validation.py:184-203 | no message exactly when a company with that id is stored; otherwise one "Company with id N does not exist" under `company_id` |
| LoggingService.PendingLog | app/services/logging_service.py:23-28 | a new log row is pending, with attempt count 0, no worker, contact or error, and both timestamps set to the creation time |
| LoggingService.LogTable.CreateLog | app/services/logging_service.py:12-33 | inserts the pending row under a fresh id; no other row changes |
| LoggingService.Written | app/services/logging_service.py:53-67 | status and `updated_at` are always written; each optional field is written only when it was passed (a passed None clears it); id, lead, company and `created_at` never change |
| LoggingService.WrittenIdempotent | app/services/logging_service.py:53-67 | repeating the same update changes nothing |
| LoggingService.WrittenTwice | app/services/logging_service.py:53-67 | two updates in a row equal one update with the second status, where each field takes the later passed value |
| LoggingService.LogTable.UpdateLogStatus | app/services/logging_service.py:36-71 | an unknown id is the "Log with id N not found" error and changes nothing; otherwise only that row changes, to `Written(...)` |
| LoggingService.LogTable.CommitAttemptCount | app/jobs/process_lead.py:87-89 | the direct write of `attempt_count` changes only that field of that row and its update time |
| LoggingService.Matching | app/services/logging_service.py:88-98 | a row is listed exactly when it belongs to the company and passes each given filter (status name, created-at not before the start and not after the end) |
| LoggingService.MatchingIdsIncrease | app/services/logging_service.py:88 | the matching rows are listed once each, in increasing id order, within the id range |
| LoggingService.InsertNewest | app/services/logging_service.py:100 | inserting into a newest-first list keeps it newest-first and adds exactly that row |
| LoggingService.SortNewest | app/services/logging_service.py:100 | the result is ordered by `created_at` descending and is a permutation of the input |
| LoggingService.SortNewestOfSorted | app/services/logging_service.py:100 | a list already ordered newest-first is returned unchanged |
| LoggingService.LogTable.LogsByCompany | app/services/logging_service.py:74-100 | returns exactly the stored rows the filters select, each once, newest first |
| LoggingService.LogTable.LogByLead | app/services/logging_service.py:103-113 | a stored row of that lead, and None exactly when no row has that lead |
| Models.FindFirst | app/services/logging_service.py:113 | `.first()`: the smallest key in range whose row matches, or None when no row in range matches |
| CompanyService.AcceptedIsRegistrable | app/services/company_service.py:25-37 | data that passes validation has string values for all five fields, so the row can be built |
| CompanyService.NewCompany | app/services/company_service.py:30-37 | the new row holds the five fields, each stripped |
| CompanyService.NewCompanyNamesNotEmpty | app/services/company_service.py:25-37 | a registered company's name and owner name are non-empty after stripping |
| CompanyService.CompanyTable.RegisterCompany | app/services/company_service.py:13-51 | validation errors are returned as they are; a stored owner email gives the duplicate-email error; otherwise the stripped row is stored under the next id; an error changes nothing |
| CompanyService.CompanyTable.Insert | app/services/company_service.py:39-42 | adds the row under the next id and keeps owner emails unique |
| CompanyService.CompanyTable.GetCompany | app/services/company_service.py:54-64 | the row with that id, or None exactly when there is none |
| CompanyService.CompanyTable.GetCompanyByEmail | app/services/company_service.py:67-77 | a row with that owner email, or None exactly when no row has it |
| CompanyService.CompanyTable.GetCompanyByEmailFindsOwner | app/services/company_service.py:77 | looking up a stored company's email finds that very company (emails are unique) |
| LeadService.AcceptedIsReady | app/services/lead_service.py:28-39 | a lead that passes validation has string name and phone and a company_id `int()` accepts, so `create_lead` cannot raise while building it |
| LeadService.LeadNotes | app/services/lead_service.py:42 | notes are None exactly when absent, None or empty; otherwise the stripped text (so blank notes become "") |
| LeadService.NewLead | app/services/lead_service.py:38-43 | the row holds the integer company id, the stripped name and phone, and the notes as above |
| LeadService.NewLeadFieldsNotEmpty | app/services/lead_service.py:27-43 | a stored lead's name and phone are non-empty, and its stripped phone still has a digit |
| LeadService.CreateLeadErrors | app/services/lead_service.py:27-35 | an error answer always carries at least one message |
| LeadService.CreateLeadSucceeds | app/services/lead_service.py:27-35 | a lead is stored exactly when it passes validation and its company exists |
| LeadService.LeadTable.CreateLead | app/services/lead_service.py:17-48 | validation errors are returned first, then the missing-company error, and in either case nothing changes; otherwise the row is stored under the next id |
| LeadService.LeadTable.Insert | app/services/lead_service.py:45-48 | adds the row under the next id |
| LeadService.EnqueueLead | app/services/lead_service.py:54-84 | the queue's job id; when the queue is down, "Redis queue unavailable: …" without fallback, and `test-job-<id>` with it |
| LeadService.FallbackJobIdInjective | app/services/lead_service.py:84 | different leads never share a fallback job id |
| LeadService.Batch | app/services/lead_service.py:173-195 | every lead is counted once, as enqueued or failed; enqueued ≤ created ≤ number of leads; one job id per enqueued lead |
| LeadService.BatchStep | app/services/lead_service.py:180-193 | a lead that is not stored counts as failed and changes nothing else; a stored lead gets id firstId + created and counts as created; it is enqueued, appending exactly `enqueue_lead`'s job id for that id, when that call succeeds, and counts as failed with no job id when it does not |
| LeadService.BatchJobIdsFromQueue | app/services/lead_service.py:180-193 | every job id of the batch is the queue's (or the fallback's) job id for the id of a lead the batch stored |
| LeadService.BatchFallbackEnqueuesAll | app/services/lead_service.py:183-188 | with the fallback allowed, every created lead is enqueued |
| LeadService.BatchCountsStored | app/services/lead_service.py:183-184 | the created counter equals the number of leads `create_lead` stored |
| LeadService.AddIfStored | app/services/lead_service.py:181 | a stored lead adds its row under the next id and advances it; a refused one leaves the table as it is |
| LeadService.StoredCounts | app/services/lead_service.py:180-184 | after the batch the next id has advanced by the number of stored leads, and every new row lies in that id range with its own id |
| LeadService.LeadTable.CreateAndEnqueueStep | app/services/lead_service.py:180-193 | one turn of the loop: the table as `create_lead` leaves it, and the counters as `BatchStep` gives them |
| LeadService.LeadTable.EnqueueCreated | app/services/lead_service.py:185-191 | queueing a created lead updates the counters as `BatchStep` does for a stored lead |
| LeadService.LeadTable.CreateAndEnqueueLeads | app/services/lead_service.py:162-195 | the summary is `Batch` of the outcomes; the table is `Stored` (each stored lead in turn under the next id); the next id grows by `created`; no earlier row changes |
| LeadService.Verdicts | app/services/lead_service.py:140 | one validation verdict per item |
| LeadService.AcceptedSound | app/services/lead_service.py:142-143 | every item in the valid list is an input item without messages |
| LeadService.AcceptedComplete | app/services/lead_service.py:142-143 | every input item without messages is in the valid list |
| LeadService.AcceptedInOrder | app/api/bulk.py:54-58 | the valid list is exactly the items without messages, in input order |
| LeadService.RejectedSound | app/services/lead_service.py:144-149 | each invalid entry names its item's position (offset by the start number), its data and its messages; positions strictly increase |
| LeadService.RejectedComplete | app/services/lead_service.py:144-149 | every item with messages appears among the invalid entries under its position |
| LeadService.PartitionSizes | app/services/lead_service.py:129-149 | every item lands in exactly one of the two lists |
| LeadService.PartitionSnoc | app/services/lead_service.py:139-149 | one more item extends exactly one of the two lists |
| LeadService.PartitionStep | app/services/lead_service.py:139-149 | one turn of the validation loop extends the lists as the partition of the longer input |
| LeadService.RowData | app/services/lead_service.py:132-137 | a CSV row becomes lead data of the shape validation reads, carrying the upload's integer company_id |
| LeadService.RowsData | app/services/lead_service.py:129-137 | one lead-data entry per CSV row, in order |
| LeadService.MissingColumns | app/services/lead_service.py:117-118 | lists exactly those of `name`, `phone` that the header lacks |
| LeadService.ParseCsv | app/services/lead_service.py:87-151 | no header gives the empty-file error; a missing column gives the missing-columns error; both count nothing; otherwise every row is counted and lands in the valid list or, numbered from 2, in the invalid list |
| LeadService.CsvRowsCarryCompany | app/services/lead_service.py:132-143 | every valid CSV lead carries the upload's company id |
| BulkApi.StatusCode | app/api/bulk.py:31-89 | 400 for a bad request, 503 for a queue that is down, 200 for a processed upload |
| BulkApi.Guard | app/api/bulk.py:31-48 | the request passes the guards exactly when it is JSON with a non-empty `leads` list and the queue is healthy; a 503 answer only ever follows a well-formed request |
| BulkApi.AcceptedShaped | app/api/bulk.py:57-58 | validated items keep the shape of the items they come from |
| BulkApi.PartitionLeads | app/api/bulk.py:50-64 | the valid and invalid lists are the partition of the items by their validation verdicts, with invalid entries numbered from 0 |
| BulkApi.BulkResultCounts | app/api/bulk.py:66-89 | submitted = valid + invalid; enqueued + failed = valid; enqueued ≤ created ≤ valid; one job id per enqueued lead; each invalid entry names its item; with no valid lead, nothing is created |
| BulkApi.ValidItemCreated | app/api/bulk.py:66-68 | a valid item passes validation again inside `create_lead`, so it is stored exactly when its company exists |
| BulkApi.BulkUpload | app/api/bulk.py:10-89 | a guarded request gets the guard's answer and changes nothing; otherwise the answer is `BulkResult`, and the lead table is `BulkStored`: `create_lead` run on each valid item in order from the old table, so it grows by the created leads only |
| GhlService.SplitOnce | app/services/ghl_service.py:32 | `split(maxsplit=1)` of a stripped string: no part exactly for "", at most two parts, none empty |
| GhlService.SplitOnceRejoins | app/services/ghl_service.py:32 | the first part has no whitespace; one part is the whole string; with two parts, first + whitespace run + second gives the string back, and the second starts with a non-space character |
| GhlService.NameSplit | app/services/ghl_service.py:31-34 | a blank name stays whole as the first name with an empty last name; otherwise first name + whitespace + last name is the stripped name, the first name non-empty and free of whitespace |
| GhlService.BuildContactPayload | app/services/ghl_service.py:20-54 | the names as split, the raw phone, the one tag, the source, the company's four custom fields, and notes exactly when the lead's notes are non-empty |
| GhlService.CreateContact | app/services/ghl_service.py:56-91 | returns the body only for a status below 400 with a decodable body; otherwise raises with the error-status message, the timeout, connection or request-failed message |
| GhlService.AttemptResult | app/jobs/process_lead.py:55-70 | an attempt fails exactly when the call raised, the body is not a JSON object, or its `contact` is present but not an object (null, a string, a number, a list, a boolean), with Python's "'T' object has no attribute 'get'" text; it yields the contact id, or None when `contact` or `id` is absent |
| GhlService.AttemptSucceeds | app/jobs/process_lead.py:55-63 | an attempt succeeds exactly when the CRM answers below 400 with a JSON object body whose `contact` is absent or an object, and then yields that contact's id or None |
| GhlService.HandleApiError | app/services/ghl_service.py:93-109 | always the "GHL API Error: " prefix, then the body's `message`, else the raw text, else "Status N" when the body does not decode |
| GhlService.HandleApiErrorStatusRoundTrip | app/services/ghl_service.py:108-109 | the status code can be read back from the "Status N" message |
| ProcessLead.RetryFrom | app/jobs/process_lead.py:54-82 | the loop ends at the first successful attempt, with its contact id, or after the third failure with the last error; every earlier attempt failed |
| ProcessLead.RetryFirstSuccess | app/jobs/process_lead.py:54-67 | if attempt k is the first success, the run succeeds after k+1 attempts with that attempt's contact id |
| ProcessLead.RetryFromFirstSuccess | app/jobs/process_lead.py:54-67 | the same, for the loop entered at any attempt |
| ProcessLead.RetryAllFail | app/jobs/process_lead.py:69-82 | if all three attempts fail, the run gives up after 3 with the third error |
| ProcessLead.Sleeps | app/jobs/process_lead.py:84-85 | the worker sleeps once between consecutive attempts, taking the delays in order |
| ProcessLead.SleepsBounded | app/jobs/process_lead.py:51-52 | the sleeps are [], [1] or [1, 2]: the 4-second delay is never used |
| ProcessLead.ProcessedFields | app/jobs/process_lead.py:37-80 | after a run the row keeps its identity and creation time and holds the worker's pid and the attempts used; success stores the contact id and keeps any earlier error; giving up stores the error and keeps any earlier contact id |
| ProcessLead.SuccessKeepsOldError | app/jobs/process_lead.py:59-65 | a reprocessed failed row that now succeeds still carries its old error message |
| ProcessLead.HistoryShape | app/jobs/process_lead.py:37-89 | the row passes through processing with the old count, then processing with counts 1, 2, … after each non-final failure, then success or failed |
| ProcessLead.GetOrCreateLog | app/jobs/process_lead.py:32-35 | the row `get_log_by_lead` finds is reused and the table is unchanged; otherwise a pending row is created under the next id |
| ProcessLead.RunRetries | app/jobs/process_lead.py:50-89 | the loop performs `Retry(calls).attempts` attempts and leaves the row as `Processed`, with the sleeps and the intermediate rows as specified |
| ProcessLead.StartLog | app/jobs/process_lead.py:32-42 | the lead's log, found or newly created as pending, is left as the processing row with the worker's pid; no other row changes |
| ProcessLead.ForwardLead | app/jobs/process_lead.py:32-89 | with lead and company found: the row (found or created) ends as `Processed`; no other row changes; the payload is `BuildContactPayload` |
| ProcessLead.ProcessLeadJob | app/jobs/process_lead.py:9-89 | a missing lead or company ends the job with the log table unchanged; otherwise as `ForwardLead` |
| Text.ParseInt | app/services/validation.py:176-177 | `int(s)` accepts exactly the strings that, once stripped and with one optional sign removed, are digits with single underscores between digits |
| Text.ParseIntOfIntToString | app/services/validation.py:177 | `int(str(n)) == n` |
| Text.Strip | app/services/ghl_service.py:32 | the result is empty exactly for whitespace-only input, has no whitespace at either end, keeps every non-whitespace character that occurs in the input and no other, and is the input itself when that has no whitespace at either end |
| Text.StripInfix | app/services/ghl_service.py:32 | `strip()` returns the part of the input between a whitespace prefix and a whitespace suffix |

## Left out

- HTTP transport: the request of `create_contact` is an `HttpOutcome` parameter. Headers, the URL, the 30-second timeout and the API key are not modelled. The texts of the decoder's and the request library's exceptions are parameters. A body that does not decode raises as a failed request (`CreateContact`'s `NotJson` case): that holds where the decoder's error is a request exception, as in requests 2.27 and later. With an older requests, the decoder's `ValueError` would leave `create_contact` without the "GHL API request failed: " prefix; that case is not modelled.
- The queue:
  - Redis is a health boolean plus a per-id `QueueReply`.
  - Job timeout and result TTL are not modelled.
  - The fallback path's `print` is not modelled.
- Database exceptions and rollbacks:
  - `create_lead`'s generic exception branch (app/services/lead_service.py:49-51) is not modelled.
  - The company "database" errors are not modelled.
  - A duplicate email is detected by looking for an existing row with that owner email. The model does not match the `IntegrityError` text.
- Time: `datetime.utcnow()` is one `now` per call or job run. `time.sleep` is a ghost trace of delays.
- Concurrency: two workers on one lead, and interleaved requests, are not modelled.
- Value shapes:
  - `LeadShaped`/`CompanyShaped` admit strings and falsy values (None, 0, ""): `not v` turns a falsy value away before `.strip()` runs. A truthy non-string (a non-zero number) makes `.strip()` raise `AttributeError`, and that raise is not modelled: such values are excluded.
  - Float and bool `company_id` values are not modelled.
  - Request bodies of the bulk API that are not dicts, and list items that are not dicts, are not modelled.
  - A contact `id` in a CRM response that is not a string is not modelled.
  - `handle_api_error`'s body is a string map.
- Characters: only ASCII is modelled. `\d`, `\s` and `isspace` are not Unicode-aware here.
- CSV input: decoding and tokenising are not modelled; the reader is its header and rows. `parse_csv`'s `except` branch (app/services/lead_service.py:153-159) is not modelled.
- Query order: `.first()` is modelled as the lowest id.
- LoggingService.LogFilter: an absent filter key and a key passed with the value None are the same `None` here. In the source, a present key with None selects no row (`status = NULL`, `created_at >= NULL`). No caller passes None.
- Output: `print` calls and the log-message texts of the worker are not modelled.
- The dashboard, authentication, the web forms and the single-lead API are not part of this model.
- Where the code's own comments promise more than the code does, the model follows the code:
  - The delays list ends with 4, but the worker never sleeps 4 seconds (`SleepsBounded`).
  - No batch path creates a log row; the worker creates it lazily (`GetOrCreateLog`).
  - A CRM body that is not a JSON object, or a `contact` that is JSON null or another non-object value, makes the id lookup raise inside the `try`, so it counts as a failed attempt (`AttemptResult`).
  - A success keeps an earlier error message (`SuccessKeepsOldError`).
