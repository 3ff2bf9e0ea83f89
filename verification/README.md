# Inbound short-number keyword path of notification-api, in Dafny

This project models the inbound short-number keyword path of notification-api, a
multi-channel notification platform, together with the code around it. Each part is
written as pure functions over immutable records. Everything it cannot see is a
function-typed parameter: the database, the network, the clock and the libraries it calls.
Those parameters are IDNA, NFKD normalisation, RFC 2047 header encoding, phone-number
matching, date parsing and the financial-year calendar.

- `ShortNumbers` is the table of inbound short numbers and its data-access operations:
  list available, look up by service, assign, set the active flag, allocate, add. The
  schema's uniqueness constraints appear as the `Valid` invariant. A write that would
  break one is refused with an integrity error.
- `InboundKeywords` is the per-service query over received keyword SMS: filter, order
  newest first, limit. It also covers the count and the lookup by id.
- `RetentionSweep` is the batched delete (at most 10000 rows per statement, repeated
  until a batch deletes nothing). It also covers the retention sweep that runs the
  delete once per flexible sms policy, then once for every other service with the
  seven-day default.
- `KeywordCallback` is the Sinch keyword callback handler: field validation, service
  resolution from the `to` number, permission check, and processing.
- `SinchClient` and `SesClient` are the pure parts of the two provider clients. That
  means the status maps, the callback URL, the batch request, the punycode address
  encoding, the header and part layout, and the classification of SES errors.
- `Dispatch` gives the provider choice, the job-intake sending limit, and what the
  sms/email send tasks persist. Their implementation is not part of this model, so this
  module is a reference definition of the behaviour tests/app/celery/test_tasks.py asserts.
- `UsageReport` holds the request checks and the report assembly of the usage endpoint.
  That means the organisation-id GUID check, the date-range check, and the merge of sms
  costs, letter costs and letter line items into one list sorted by organisation and
  service.
- `Wrappers`, `Seqs`, `Text` and `Vocabulary` hold the shared building blocks.
  - `Wrappers`: Option, Result, and Python truthiness.
  - `Seqs`: filter, count, and a stable insertion sort.
  - `Text`: Python's `split`, `partition`, `replace` and string order.
  - `Vocabulary`: the notification statuses and metric names.

Points where a name or a reading of the code could mislead, and what the model does:

- The test at tests/app/celery/test_tasks.py:59 is named
  `test_should_return_highest_priority_active_provider`, but its data pick the provider
  with the lowest priority number, so the model picks the lowest.
- A bound service without the keyword permissions is refused with no counter. Only an
  unbound number increments `inbound_shortnumber.<provider>.failed`.
- The GUID pattern is applied with `re.search`, so `$` also matches just before one
  trailing newline. `MatchesGuidPattern` accepts that newline too.

## Model

| member | source | states |
|---|---|---|
| ShortNumbers.Available | app/dao/inbound_shortnumbers_dao.py:11-12 | a row is listed iff it is in the table, active and held by no service |
| ShortNumbers.ForService | app/dao/inbound_shortnumbers_dao.py:15-16 | the row returned is held by the service; nothing is returned iff no row is held by it |
| ShortNumbers.Write | migrations/versions/0310c_add_shortnumber_keyword.py:35-47 | persisting a row fails iff its number is longer than the 11-character column or it collides with another row on short number or service; on success the row is stored and every other row is kept |
| ShortNumbers.SetToService | app/dao/inbound_shortnumbers_dao.py:23-26 | the number is stored bound to the service and every other row is kept; nothing else appears; this fails iff the number is too long, or another row has the same number or is already bound to that service |
| ShortNumbers.SetActiveFlag | app/dao/inbound_shortnumbers_dao.py:29-34 | without a number for the service the update fails; on success the service's number is stored with the given flag |
| ShortNumbers.Allocate | app/dao/inbound_shortnumbers_dao.py:37-48 | success needs the id to name an active unassigned row; when no such row exists the error is "not available" for that id; the returned row is the stored row, bound to the service |
| ShortNumbers.Add | app/dao/inbound_shortnumbers_dao.py:51-54 | an active, unassigned 'sinch' row is appended; this fails iff the number is too long or the id or number already exists |
| ShortNumbers.WritePreservesValid | migrations/versions/0310c_add_shortnumber_keyword.py:44-47 | a successful write keeps the primary key, the unique short number and the unique service index |
| ShortNumbers.AllocateSucceedsIff | app/dao/inbound_shortnumbers_dao.py:39-47 | allocation succeeds exactly when the id names an active unassigned row and the service holds no number yet |
| ShortNumbers.AllocateChangesOnlyServiceId | app/dao/inbound_shortnumbers_dao.py:39-48 | a successful allocation replaces the target row by the same row with only service_id changed; every other row stays in place; the returned row is the stored one |
| ShortNumbers.AllocatePreservesValid | migrations/versions/0310c_add_shortnumber_keyword.py:44-47 | allocation keeps the schema's constraints |
| ShortNumbers.AllocatedNumberLeavesAvailable | tests/app/dao/test_inbound_shortnumbers_dao.py:85-92 | after an allocation the available list is the old one without the allocated id |
| ShortNumbers.SecondNumberForServiceFails | tests/app/dao/test_inbound_shortnumbers_dao.py:59-70 | binding a second number to a service that already holds one is an integrity error |
| ShortNumbers.AssignedNumberLeavesAvailable | tests/app/dao/test_inbound_shortnumbers_dao.py:45-56 | a number bound to a service is not in the available list |
| ShortNumbers.SetActiveFlagChangesOnlyActive | tests/app/dao/test_inbound_shortnumbers_dao.py:73-82 | with a number for the service, setting the flag succeeds and changes only that row's active field |
| ShortNumbers.AddedNumberIsAvailable | tests/app/dao/test_inbound_shortnumbers_dao.py:111-118 | an added number keeps the table valid and is listed as available with provider 'sinch' |
| InboundKeywords.NewestFirstIsTotalOrder | app/dao/inbound_sms_keyword_dao.py:20-22 | the created_at-descending order is total and transitive |
| InboundKeywords.Ordered | app/dao/inbound_sms_keyword_dao.py:18-22 | the result is a permutation of the matching rows, sorted newest first |
| InboundKeywords.ForService | app/dao/inbound_sms_keyword_dao.py:17-33 | only the service's rows, no older than the limit_days cutoff when one is given, from the user number when it is truthy, newest first; with a truthy limit the length is the smaller of limit and the match count and the rows are drawn from the matches without repetition (multiset inclusion), otherwise exactly the matches |
| InboundKeywords.LimitKeepsNewest | tests/app/dao/test_inbound_sms_keyword_dao.py:27-41 | every matching row the limit drops is no newer than any row returned |
| InboundKeywords.CountForService | app/dao/inbound_sms_keyword_dao.py:36-40 | the count is zero iff no row of the service was created at or after the cutoff, and never exceeds the number of rows; its exact value is tied to the per-service query by CountMatchesQuery |
| InboundKeywords.CountMatchesQuery | tests/app/dao/test_inbound_sms_keyword_dao.py:68-87 | the count equals the length of the unlimited per-service query over the same window |
| InboundKeywords.OtherServicesDoNotCount | tests/app/dao/test_inbound_sms_keyword_dao.py:68-87 | adding rows of other services leaves a service's count unchanged |
| InboundKeywords.ById | app/dao/inbound_sms_keyword_dao.py:97-101 | `.one()`: a result is the only row matching both the id and the service; "no result" iff no row matches both; "multiple results" iff two positions do |
| RetentionSweep.DeleteBatch | app/dao/inbound_sms_keyword_dao.py:46-59 | one statement deletes min(limit, targeted) rows, keeps every row it does not target in order, and lowers the targeted count by what it deleted |
| RetentionSweep.DeleteOlderThan | app/dao/inbound_sms_keyword_dao.py:43-62 | survivors are exactly the rows at or after the cutoff or out of scope; the total is the sum of the batch sizes; each batch is at most 10000; only the last batch is 0 |
| RetentionSweep.FlexibleRetention | app/dao/inbound_sms_keyword_dao.py:70-75 | a policy is flexible iff it is an sms policy of a service that has an inbound number |
| RetentionSweep.ResolveHelper | app/dao/inbound_sms_keyword_dao.py:82 | the call resolves iff the name is the helper the module defines |
| RetentionSweep.SweepCalling | app/dao/inbound_sms_keyword_dao.py:65-94 | calling any name other than the defined helper raises that name's error; calling the helper leaves exactly the rows every flexible policy of their service keeps (or the seven-day default when there is none), and the count is the number removed |
| RetentionSweep.DeleteForPolicy | app/dao/inbound_sms_keyword_dao.py:78-82 | one policy's pass removes only rows of its service older than its cutoff: the rows kept by the earlier policies become those kept by one more; the count is what it removed |
| RetentionSweep.DeleteForOthers | app/dao/inbound_sms_keyword_dao.py:86-90 | the default pass turns the rows all policies keep into the survivors; the count is what it removed |
| RetentionSweep.SweepAsWritten | app/dao/inbound_sms_keyword_dao.py:82-88 | the sweep as written always raises NameError for `_delete_inbound_sms` |
| RetentionSweep.DeleteOlderThanRetention | app/dao/inbound_sms_keyword_dao.py:65-94 | the corrected sweep keeps exactly the surviving rows and returns the number removed |
| RetentionSweep.DefaultRetentionApplies | tests/app/dao/test_inbound_sms_keyword_dao.py:90-124 | a service without its own flexible sms policy keeps a row iff it is no older than seven days |
| RetentionSweep.OwnRetentionApplies | tests/app/dao/test_inbound_sms_keyword_dao.py:90-124 | a service whose flexible sms policies say `days` keeps a row iff it is no older than `days` |
| RetentionSweep.EmailPoliciesIgnored | app/dao/inbound_sms_keyword_dao.py:73-75 | adding a non-sms policy leaves the flexible policies unchanged |
| RetentionSweep.CutoffRowSurvivesAndCounts | app/dao/inbound_sms_keyword_dao.py:25-49 | a row stamped exactly at the cutoff is not deleted and is counted |
| KeywordCallback.Get | app/notifications/notifications_shortnumber_keyword_callback.py:30 | a key reads as a value iff it is present, and the value is the stored one |
| KeywordCallback.FieldErrors | app/notifications/notifications_shortnumber_keyword_callback.py:21-25 | there are no errors iff every required field is present and non-empty; at most one error per field |
| KeywordCallback.HasInboundShortNumberPermissions | app/notifications/notifications_shortnumber_keyword_callback.py:75-77 | true iff both the keyword permission and the sms permission are held, whatever else is |
| KeywordCallback.FetchPotentialService | app/notifications/notifications_shortnumber_keyword_callback.py:57-72 | a service is returned iff the number is bound and the service is permitted; the failure counter fires iff the number is unbound; at most one counter |
| KeywordCallback.ProcessSinchResponse | app/notifications/notifications_shortnumber_keyword_callback.py:17-54 | validation errors give a 400 with no lookup effects; a valid payload for a permitted bound service is always processed, with the payload's fields and no counter, answering 200 with the processor's message or 400 with its errors; otherwise 200 ok with only the lookup's counter |
| KeywordCallback.MissingFieldIsBadRequest | app/notifications/notifications_shortnumber_keyword_callback.py:21-28 | a missing required field is a 400 with no counter and no processing |
| KeywordCallback.UnboundNumberAcknowledged | app/notifications/notifications_shortnumber_keyword_callback.py:32-36 | an unbound number is a 200 ok whose only effect is `inbound_shortnumber.sinch.failed` |
| KeywordCallback.UnpermittedServiceAcknowledgedSilently | app/notifications/notifications_shortnumber_keyword_callback.py:67-70 | a bound service missing a permission is a 200 ok with no counter and no processing |
| SinchClient.GetSinchResponses | app/clients/sms/sinch.py:8-21 | defined iff the status is one of the eight keys; permanent-failure iff Failed, Rejected, Aborted or Expired; technical-failure iff Unknown; never temporary-failure |
| SinchClient.CallbackUrl | app/clients/sms/sinch.py:57-58 | empty iff no host is configured; otherwise host, then the sinch callback path, then the reference |
| SinchClient.CallbackUrlDeterminesReference | app/clients/sms/sinch.py:57-58 | for one host, equal URLs mean equal references |
| SinchClient.Request | app/clients/sms/sinch.py:54-65 | one E.164 recipient, the normalised body, the reference as client reference, per-recipient delivery reports, the callback URL |
| SinchClient.SendSmsAsWritten | app/clients/sms/sinch.py:49-87 | no match: the error counter and ValueError with nothing sent; otherwise only the first match is sent, the success counter always fires, and the batch id is returned iff the batch was created |
| SinchClient.FailureMaskedAsWritten | app/clients/sms/sinch.py:66-82 | a failed batch surfaces as an unbound-variable error and is counted as both error and success |
| SinchClient.SendSms | app/clients/sms/sinch.py:49-87 | corrected: the success counter fires iff the send succeeded, the error counter iff it failed, and a failed batch re-raises the client's exception |
| SinchClient.AsWrittenAgreesOnSuccess | app/clients/sms/sinch.py:66-82 | both versions send the same requests and agree whenever the batch succeeds or no number matches |
| SinchClient.OnlyFirstNumberSent | app/clients/sms/sinch.py:52-82 | matches after the first never change the outcome |
| SesClient.GetAwsResponses | app/clients/email/aws_ses.py:15-44 | defined iff the status is a key; success iff delivered; statistics delivered iff success; delivered iff Delivery or Complaint; Permanent and Temporary map to their failures |
| SesClient.PunycodeEncodeEmail | app/clients/email/aws_ses.py:149-152 | succeeds iff there is exactly one '@' and the hostname has an ASCII form; then the local part is kept and only the hostname is converted; otherwise unpacking fails with the piece count |
| SesClient.AsciiAddressUnchanged | app/clients/email/aws_ses.py:149-152 | an address whose hostname is already ASCII is returned unchanged |
| SesClient.LocalPartPreserved | app/clients/email/aws_ses.py:151-152 | splitting the encoded address gives back the original local part and the converted hostname |
| SesClient.EncodeAll | app/clients/email/aws_ses.py:99 | succeeds iff every address encodes, keeping order; otherwise the first failure is raised |
| SesClient.AsList | app/clients/email/aws_ses.py:81-84 | a bare string becomes a one-element list; a list is kept |
| SesClient.SourceArn | app/clients/email/aws_ses.py:78-80 | an ARN exists iff an owner account is configured |
| SesClient.EncodedSource | app/clients/email/aws_ses.py:86-91 | the encoded display name has no double quotes; the `<...>` remainder of the normalised source follows verbatim |
| SesClient.Subtype | app/clients/email/aws_ses.py:95 | 'alternative' iff there is an html body, 'mixed' iff there is none |
| SesClient.AttachmentParts | app/clients/email/aws_ses.py:116-119 | one attachment part per attachment, in order, with its name and data |
| SesClient.Parts | app/clients/email/aws_ses.py:109-119 | the plain part first, then the html part iff there is an html body, then the attachments in order |
| SesClient.ArnHeaders | app/clients/email/aws_ses.py:100-102 | the two ARN headers, both carrying the ARN, iff an owner account is configured |
| SesClient.ImportanceHeader | app/clients/email/aws_ses.py:103-104 | the importance header iff an importance is given |
| SesClient.CcHeader | app/clients/email/aws_ses.py:105-106 | a CC header with the comma-joined encoded addresses iff CC addresses are given |
| SesClient.ReplyToHeader | app/clients/email/aws_ses.py:107-108 | a reply-to header with the encoded address iff a reply-to is given |
| SesClient.OptionalHeaders | app/clients/email/aws_ses.py:100-108 | succeeds iff the CC and reply-to addresses encode; the headers come in the order the code adds them |
| SesClient.OptionalHeaderNames | app/clients/email/aws_ses.py:100-108 | the optional header names are the ARN pair, importance, CC and reply-to, each only when its condition holds, in that order |
| SesClient.BuildMessage | app/clients/email/aws_ses.py:95-119 | succeeds iff all addresses encode; Subject, From, To (the comma-joined encoded recipients) then the optional headers; the subtype and parts as above |
| SesClient.InvalidEmailMessage | app/clients/email/aws_ses.py:131-134 | the message starts by naming the recipient |
| SesClient.Classify | app/clients/email/aws_ses.py:126-146 | success iff SES accepted, returning its MessageId and the success counter; InvalidParameterValue names the first recipient, or fails indexing an empty list; other client errors count the error twice; other failures once |
| SesClient.SendEmail | app/clients/email/aws_ses.py:66-146 | a message goes to SES iff it could be built, with the normalised source; a build failure is wrapped as a client exception with one error counter |
| Dispatch.ProviderToUse | tests/app/celery/test_tasks.py:60-87 | a provider is chosen iff an active one serves the channel; it is active, on the channel, and no eligible provider has a lower priority |
| Dispatch.StrictlyLowestWins | tests/app/celery/test_tasks.py:60-87 | an eligible provider with a strictly lower priority than every other eligible one is chosen |
| Dispatch.ProviderSwitching | tests/app/celery/test_tasks.py:60-87 | lowering a provider's priority selects it; deactivating the preferred provider falls back to the other; reactivating restores it |
| Dispatch.RowTasks | tests/app/celery/test_tasks.py:479-511 | one task per CSV row carrying the job id and the row number |
| Dispatch.ProcessJob | tests/app/celery/test_tasks.py:89-253 | 'sending limits exceeded' iff today's count plus the job's exceeds the limit, with no fetch and no task; otherwise 'finished' with one task per row on the channel's bulk queue, task k carrying row k's recipient and personalisation, the template and its version, the job id and row number k |
| Dispatch.LimitBoundary | tests/app/celery/test_tasks.py:206-238 | a job of exactly the remaining allowance finishes; one more notification sent today refuses it |
| Dispatch.ZeroLimitRefusesEverything | tests/app/celery/test_tasks.py:188-203 | with a limit of 0 every non-empty job ends 'sending limits exceeded' with no task queued; it is also never fetched, which test_tasks.py:135-140 asserts for an exceeded limit (lines 200 and 203 omit the call parentheses and assert nothing) |
| Dispatch.NewNotification | tests/app/celery/test_tasks.py:313-359 | the stored row is 'created', with no sent_at, sent_by or reference, and the payload's job id and row number |
| Dispatch.SendSmsTask | tests/app/celery/test_tasks.py:313-419 | a row and the provider task iff the recipient is allowed and the insert succeeds; a failed insert retries on 'retry'; a disallowed recipient leaves no trace |
| Dispatch.MemberInAnotherFormatAccepted | tests/app/celery/test_tasks.py:362-399 | a restricted service's member is reached when the number is written in another format |
| Dispatch.SendEmailTask | tests/app/celery/test_tasks.py:514-839 | in research mode no client call, a generated reference, and a response task ('ses', reference, recipient) on queue 'research-mode'; otherwise 'sending', sent_by 'ses' and the client's reference on success, 'technical-failure' when the client fails; no row when the insert fails |
| UsageReport.GuidCoreShape | app/platform_stats/rest.py:66 | 32 hex digits laid out 8-4-4-4-12 form a GUID core |
| UsageReport.GuidTextMatches | app/platform_stats/rest.py:66-73 | every GUID text (optional braces on either side, optional final newline) passes the pattern |
| UsageReport.CoreDigits | app/platform_stats/rest.py:66 | a GUID core is exactly the hyphenated layout of its 32 hex digits |
| UsageReport.MatchIsGuidText | app/platform_stats/rest.py:66-73 | every string the pattern accepts is such a GUID text |
| UsageReport.IsValidGuid | app/platform_stats/rest.py:61-84 | passes the id through unchanged iff it is None, empty or matches; otherwise a 400 telling the user to choose an organisation |
| UsageReport.MissingOrganisationRejected | app/platform_stats/rest.py:144-148 | a missing organisation id, passed on as "None", is rejected |
| UsageReport.ValidateDateRange | app/platform_stats/rest.py:42-57 | the parsed pair iff both dates parse, start <= end and both lie in one financial year; a missing date is an uncaught TypeError; the format message iff a present date does not parse, the order message iff both parse and end < start, the financial-year message iff both parse in order but in different years |
| UsageReport.Trunc | app/platform_stats/rest.py:99 | truncation toward zero, as `int()` of a float |
| UsageReport.AddSms | app/platform_stats/rest.py:103-114 | one entry per service: a new service is appended; an existing entry is replaced in place by the row's entry and nothing else changes |
| UsageReport.AddLetterCost | app/platform_stats/rest.py:116-130 | an existing entry gets the letter cost and nothing else changes; a new service is appended with sms cost and fragments 0 |
| UsageReport.AddBreakdown | app/platform_stats/rest.py:131-132 | the service's breakdown grows by the line text and a newline; a service with no entry raises KeyError |
| UsageReport.AddAllSms | app/platform_stats/rest.py:103-114 | the ids are the old ones plus the sms services and stay unique; every entry of an sms service is built from that service's last sms row, every other entry is kept |
| UsageReport.AddAllLetterCosts | app/platform_stats/rest.py:116-130 | the ids are the old ones plus the letter services and stay unique; an existing entry keeps its fields but takes the letter cost of the service's last letter row; a new service's entry is built from its first letter row with that last cost |
| UsageReport.AddAllBreakdowns | app/platform_stats/rest.py:131-132 | succeeds iff every line item names a known service; each entry's breakdown grows by exactly its own lines in input order, each line being the text built at rest.py:98-101 followed by a newline |
| UsageReport.UsageOrder | app/platform_stats/rest.py:135-139 | the sort key order is total and transitive |
| UsageReport.UsageForAllServices | app/platform_stats/rest.py:87-139 | succeeds iff every line item's service has a cost row; exactly one entry per service with sms or letter costs, each equal to that service's reference entry (names, sms cost and fragments, letter cost, its own lines); sorted non-blank organisations first, then by organisation and service name |
| UsageReport.Merged | app/platform_stats/rest.py:102-130 | after both cost loops the ids are unique and are the union of the sms and letter services; every entry is its service's reference entry with no line items |
| UsageReport.ServiceUsage | app/platform_stats/rest.py:103-132 | the per-service reference entry: it carries the service's id; a service with no letter row has letter cost 0; a service with no sms row has sms cost and fragments 0 |
| UsageReport.LastSmsRowReported | app/platform_stats/rest.py:103-114 | a service's sms cost, fragments, service name and organisation name are those of its last sms row |
| UsageReport.LastLetterRowCost | app/platform_stats/rest.py:116-130 | a service's letter cost is that of its last letter-cost row |
| UsageReport.FirstLetterRowNames | app/platform_stats/rest.py:119-130 | a service with no sms row takes its names from its first letter-cost row, with sms cost and fragments 0 |
| UsageReport.PermutationKeepsIds | app/platform_stats/rest.py:135-139 | sorting keeps the ids and their uniqueness |
| Text.Split | app/clients/email/aws_ses.py:151 | one more piece than separators, none containing the separator |
| Text.JoinSplit | app/clients/email/aws_ses.py:151-152 | joining the split pieces with the separator gives back the string |
| Text.Partition | app/clients/email/aws_ses.py:87 | the three pieces concatenate to the input; the head has no separator; the separator is empty iff absent |
| Text.Remove | app/clients/email/aws_ses.py:88 | the result has no occurrence of the character and keeps every other character |
| Text.StrLeqTotal | app/platform_stats/rest.py:135-139 | string order is total |
| Text.StrLeqTransitive | app/platform_stats/rest.py:135-139 | string order is transitive |
| Text.StrLeqAntisymmetric | app/platform_stats/rest.py:135-139 | strings ordered both ways are equal |

## Left out

- Database sessions, `@transactional` commits and rollbacks, and concurrency. Each DAO call is one atomic step over a sequence of rows, and a raise leaves the table unchanged.
- Logging, statsd timing values and elapsed times. Counters are returned as a list of metric names.
- IDNA ToASCII (section 4.1 of RFC 3490), NFKD normalisation, RFC 2047 header encoding, MIME serialisation, phone-number matching and E.164 formatting. These are parameters.
- The SES `send_raw_email` and Sinch `create_batch` calls are parameters returning a reply. The Sinch exception types are collapsed into one failure.
- `midnight_n_days_ago`, `strptime`, time zones and `get_financial_year_for_datetime` are parameters.
- `validate_callback_data` and `process_shortnumber_keyword_client_response` are not part of this model. The handler takes both as parameters, and `dao_fetch_service_by_inbound_shortnumber` is a lookup parameter.
- KeywordCallback.ProcessSinchResponse: the body arrives already decoded, so `json.loads` failing on a malformed body (notifications_shortnumber_keyword_callback.py:20, an uncaught error) is not modelled. Every field is a string, while JSON numbers, lists or null would pass through `data.get` to the processor unchanged.
- KeywordCallback.FieldErrors: a stand-in for the unseen validator, with one message per absent or empty field. Its message wording is not the source's.
- `app/celery/tasks.py` is not part of this model. Dispatch gives only what the tests assert: S3 fetching, encryption, template rendering and the research-mode callback body are left out.
- Dispatch.ProviderToUse: ties go to the earliest provider in the list, an order the tests do not fix.
- InboundKeywords.ForService: a limited result is described by its length, its order, its multiset inclusion in the matches and the newest-kept lemma, not as a literal prefix of the unlimited list; among rows with equal created_at the choice is not fixed.
- UsageReport.UsageForAllServices: the sort is stable by construction, but stability is not proved.
- UsageReport.Trunc: costs and rates are reals, so float rounding in `letter_rate * 100` is not modelled.
- `dao_get_inbound_shortnumbers` (ordered by updated_at), `dao_get_inbound_shortnumber` (by id) and `dao_create_inbound_sms_keyword` are plain reads or inserts with no rule of their own.
- The raw SQL string in `dao_add_inbound_shortnumber` is not modelled. The generated uuid and `now()` are parameters.
- `get_usage_for_all_services_by_organisation` is modelled only through its GUID check. Its nested report building would fail for any row whose `sent_by` is not None: the statement split over app/platform_stats/rest.py:217-218 indexes a list literal by a string.
- The migration files are used only as the source of the column width and the two uniqueness constraints. `gunicorn_config.py` is deployment configuration.

## Findings

| source | as written | input that shows it | evidently intended | confidence | as-written member | corrected member |
|---|---|---|---|---|---|---|
| app/dao/inbound_sms_keyword_dao.py:82-88 | the sweep calls `_delete_inbound_sms`, a name the module never binds | any call, even with empty tables: the default pass at line 88 always runs | call `_delete_inbound_sms_keyword`, defined at line 43 | high; not executed | RetentionSweep.SweepAsWritten | RetentionSweep.DeleteOlderThanRetention |
| app/clients/sms/sinch.py:77-82 | `return batch.batch_id` inside `finally` | one matched number whose `create_batch` raises ApiException: `batch` is unbound, UnboundLocalError replaces the ApiException, and `clients.sinch.success` is incremented | re-raise the client's exception and count only an error | high; not executed | SinchClient.SendSmsAsWritten | SinchClient.SendSms |
