# Insurance agency portal: a verified Dafny model of its core rules

The system is a web portal for an insurance agency. It has a FastAPI backend and a Vue
frontend.

- **Customers** request quotes, report claims and send contact messages.
- **Administrators** work through an attention list, a recent-activity feed, and detail and
  update screens for quotes, claims, messages and user accounts.
- **The frontend** validates and formats form input, and chooses the claim-form fields for a
  claim type. It also keeps the session token in a small store.

This project models the rules of that core and proves what each rule promises. The backend
reads from and writes to a database. Here the database is the class `Store.Database`: each
table is a sequence in storage order, and each table has its next-key counter. A query becomes
a filter, map, stable sort, skip or take over those sequences. The clock is a parameter.

- `now` is a timestamp in seconds.
- `today` is a calendar date.

The services' audit calls are `async` functions, and on these paths nobody awaits them, so
their bodies never run. The model therefore records such a call in the ghost trace
`Database.issued`, and the audit table does not grow. Only `AuditLogService.LogUserAction`,
the body of the audit call itself, appends to `auditLogs`.

Modules and what they model:

| module | source |
|---|---|
| `Wrappers` | values with no result (`None`), raised exceptions (`Exc`) and outcomes (`Outcome`) |
| `Seqs`, `Sorting`, `Text` | filter/map/take, a stable sort on integer keys, ASCII text helpers (strip and split on Python's or JavaScript's whitespace class, decimal numerals) |
| `Records`, `Queries`, `Store` | the table rows, the calendar, owner joins, and the database class |
| `AdminAttention` | `get_attention_items`, `_format_age` |
| `AdminActivity` | `_get_recent_activity_summary`, `get_recent_activity`, `_get_user_activity` |
| `AdminUpdates` | the admin detail lookups and `update_quote`/`update_claim`/`update_message`/`update_user` |
| `AdminUsers` | the parameter checks and filters of `get_all_users`, `_get_last_logins`, `get_user_detail` |
| `ClaimService`, `ClaimSchemas` | claim taxonomy, the guards of `create_claim`, ownership, cancellation, the `ClaimCreate` bounds and the incident-date window |
| `ContactService`, `ContactSchemas` | contact messages: creation, listing, detail, the full-name and phone validators, `from_orm` |
| `QuoteService` | quote requests: creation, listing, lookup |
| `AuditLogService` | `log_user_action` |
| `AdminRouter` | `require_admin`, the page count, query bounds, None → 404 |
| `ExceptionHandler` | the exception → status/detail table of the middleware |
| `Validation`, `Formatters` | the frontend field rules and input formatters |
| `ClaimFieldsConfig` | the claim-form field table and `getClaimFields` |
| `AuthStore` | the Pinia authentication store over `localStorage` |

Some behaviours that the model pins down:

- **Empty-string status.** An empty status skips the allowed-status check, yet it is still
  written to the record.
- **Self-demotion.** It raises `ValueError`, which the middleware turns into 400, not 403.
- **Missing quote request.** It raises `ValueError`, whereas the other services return None.
- **Leap day.** On 29 February the incident-date validator refuses every date, because the
  day two years back does not exist.
- **Subcategory names.** The backend and frontend name two subcategories differently:
  - the backend's `atv_off_road` is the frontend's `vehicle_atv`;
  - the backend's `personal_umbrella_policy` is the frontend's `other_umbrella`.

  Those two backend pairs therefore find no claim-form fields
  (`ClaimFieldsConfig.BackendPairsWithoutForm`).

## Model

| member | source | states |
|---|---|---|
| AdminAttention.GetAttentionItems | backend/app/services/admin_service.py:258-500 | the attention list is a permutation of the items the rules emit, sorted by (priority rank, age key); items with equal keys stay in the order the rules emitted them |
| AdminAttention.CollectItems | backend/app/services/admin_service.py:285-491 | the eight rule loops, run in source order, append exactly the items of the overdue, unread, multiple-submission and appointment rules |
| AdminAttention.AgeKeyOfFormatAge | backend/app/services/admin_service.py:494-518 | the age label "N days old" sorts by -N; "Today" and every negative age sort as 0, so older overdue items come first within a priority |
| AdminAttention.AgeKeyOneDay | backend/app/services/admin_service.py:495-498 | the "1 day old" label has sort key -1 |
| AdminAttention.AgeKeyManyDays | backend/app/services/admin_service.py:495-498 | "N days old" with N >= 2 has sort key -N |
| AdminAttention.AgeKeyNegative | backend/app/services/admin_service.py:495-498 | a negative age label starts with '-', is not a numeral, and sorts as 0 |
| AdminAttention.OverdueQuoteRuleSpec | backend/app/services/admin_service.py:287-312 | a quote is reported iff it is pending or in review, was created strictly more than two days ago, and its owner exists; the item reads "N days old" with N >= 2 and is high iff N > 5, medium otherwise |
| AdminAttention.OverdueClaimRuleSpec | backend/app/services/admin_service.py:314-339 | the same rule for submitted claims: reported iff older than two days with an existing owner; the item is in the "Overdue" category, reads "N days old" with N >= 2, and is high iff N > 5, medium otherwise |
| AdminAttention.OverdueAge | backend/app/services/admin_service.py:285-308 | anything created more than two days before now is at least two whole days old, and its label spells that count out |
| AdminAttention.OverdueQuoteSortKey | backend/app/services/admin_service.py:494-498 | an overdue quote's item sorts by (0 if older than five days, else 1), then oldest first |
| AdminAttention.OverdueClaimSortKey | backend/app/services/admin_service.py:494-498 | an overdue claim's item sorts by (0 if older than five days, else 1), then oldest first |
| AdminAttention.Preview | backend/app/services/admin_service.py:357 | a message preview is the message itself up to 50 characters; longer messages become their first 50 characters plus "...", never more than 53 |
| AdminAttention.UnreadMessagesSpec | backend/app/services/admin_service.py:341-362 | every new or read message yields exactly one item, high iff the message is new; its detail is the message's preview, at most 53 characters |
| AdminAttention.MultipleQuotesSpec | backend/app/services/admin_service.py:364-391 | an account gets one item iff it has two or more active quotes; the item has no entity id, medium priority and the count in its title, and there is one such item per qualifying account |
| AdminAttention.MultipleClaimsSpec | backend/app/services/admin_service.py:393-420 | the same for two or more submitted claims |
| AdminActivity.GetRecentActivitySummary | backend/app/services/admin_service.py:109-176 | at most `limit` rows, newest first, drawn from the candidates; no candidate cut off is newer than a row kept |
| AdminActivity.NewestSummaries | backend/app/services/admin_service.py:173-174 | sorting newest first and keeping `limit` gives a sorted sub-multiset of the candidates, and everything dropped is no newer than what was kept |
| AdminActivity.GetRecentActivity | backend/app/services/admin_service.py:179-255 | the same selection with ids, categories and subjects: at most `limit` rows, newest first, none dropped newer than one kept |
| AdminActivity.NewestActivities | backend/app/services/admin_service.py:252-253 | the sort-and-truncate step keeps the newest `limit` candidates in order |
| AdminActivity.QuoteActionSpec | backend/app/services/admin_service.py:131-137 | a quote's activity says "submitted" iff it is pending, and its raw status otherwise |
| AdminActivity.RecentQuotesAreNewest | backend/app/services/admin_service.py:123-129 | quotes with an owner contribute exactly `min(limit, their number)` rows; those rows and the rest of the sorted quotes together are all of them, each once; newest first, and no quote left out is newer than one taken |
| AdminActivity.RecentClaimsAreNewest | backend/app/services/admin_service.py:140-146 | the same for claims with an owner: exactly `min(limit, their number)` rows, a partition with the rest, newest first |
| AdminActivity.RecentMessagesAreNewest | backend/app/services/admin_service.py:156-162 | messages, guests' included, contribute exactly `min(limit, their number)` rows; with the rest of the sorted messages they are all of them, each once; newest first, and none left out is newer than one taken |
| AdminActivity.RecentActivityFull | backend/app/services/admin_service.py:193-255 | when the three kinds together offer at least `limit` rows, exactly `limit` are reported |
| AdminActivity.GetUserActivity | backend/app/services/admin_service.py:1324-1443 | an account's activity: each kind's rows inside the date window, newest first, and their merge newest first, a permutation of the three lists with ties kept in quote, claim, message order |
| AdminActivity.DateFilterSpec | backend/app/services/admin_service.py:1337-1347 | "30days", "6months", "ytd" and "last_year" give their lower bounds; any other value or none gives no filter |
| AdminActivity.UserQuotesSpec | backend/app/services/admin_service.py:1349-1370 | a quote is listed iff it belongs to the account and lies in the window; the list runs newest first |
| AdminActivity.UserClaimsSpec | backend/app/services/admin_service.py:1349-1383 | a claim is listed iff it belongs to the account and lies in the window; the list runs newest first |
| AdminActivity.UserMessagesSpec | backend/app/services/admin_service.py:1350-1396 | the same for the account's messages (guest messages belong to nobody) |
| AdminUpdates.GetQuoteDetail | backend/app/services/admin_service.py:591-630 | a quote detail is found iff the id exists and its owner exists (inner join), and it is that quote |
| AdminUpdates.GetClaimDetail | backend/app/services/admin_service.py:774-817 | a claim detail is found iff the id exists and its owner exists, and it is that claim |
| AdminUpdates.GetMessageDetail | backend/app/services/admin_service.py:964-994 | a message is found iff the id exists, guests' messages included, and it is flagged as a guest's iff it has no sender |
| AdminUpdates.ApplyQuoteUpdate | backend/app/services/admin_service.py:667-682 | the field steps yield the edited quote and a `changes` entry for each sent field that differs |
| AdminUpdates.UpdateQuote | backend/app/services/admin_service.py:633-701 | unknown id: None, nothing changes; a non-empty unknown status: ValueError before any change; otherwise only that quote is replaced by its edit, one log call is issued iff something changed, and the fresh detail is returned |
| AdminUpdates.QuoteUpdateSpec | backend/app/services/admin_service.py:667-698 | `changes` is empty iff the quote is unchanged, and that is when no log call is issued; `quoted_at` moves only on a transition into "quoted", and is then `now` |
| AdminUpdates.QuoteUpdateIdempotent | backend/app/services/admin_service.py:667-682 | sending the same quote edit again changes nothing and records no change |
| AdminUpdates.StatusCheckSpec | backend/app/services/admin_service.py:659-662 | a status is refused iff it is non-empty and outside the entity's set (five quote statuses, three claim statuses, four message statuses) |
| AdminUpdates.EmptyStatusIsWritten | backend/app/services/admin_service.py:661-671 | the empty status passes the check, is written to quotes, claims and messages, and is recorded as a change whenever the stored status was not empty |
| AdminUpdates.ApplyClaimUpdate | backend/app/services/admin_service.py:855-870 | the claim field steps yield the edited claim and its `changes` |
| AdminUpdates.UpdateClaim | backend/app/services/admin_service.py:820-891 | unknown id: None; unknown non-empty status: ValueError, nothing changes; otherwise only that claim is replaced, one log call iff something changed, and the fresh detail |
| AdminUpdates.ClaimUpdateSpec | backend/app/services/admin_service.py:846-888 | `changes` is empty iff the claim is unchanged; `contacted_at` moves only on a transition into "contacted", and is then `now` |
| AdminUpdates.ApplyMessageUpdate | backend/app/services/admin_service.py:1032-1045 | the status step, then the response step with its automatic advance, yield the edited message and its `changes` |
| AdminUpdates.UpdateMessage | backend/app/services/admin_service.py:997-1063 | unknown id: None; unknown non-empty status: ValueError, nothing changes; otherwise only that message is replaced, one log call iff something changed, and the fresh detail |
| AdminUpdates.MessageUpdateSpec | backend/app/services/admin_service.py:1037-1045 | a changed response stamps `responded_at` and leaves the status outside new and read; an unchanged one keeps `responded_at`; `changes` is empty iff nothing changed |
| AdminUpdates.MessageUpdateNotIdempotent | backend/app/services/admin_service.py:1032-1045 | a new message sent status "new" with a response becomes "responded", but the same edit again sets it back to "new" |
| AdminUpdates.ApplyUserUpdate | backend/app/services/admin_service.py:1479-1488 | the two flag steps yield the edited account and its `changes` |
| AdminUpdates.WriteUserUpdate | backend/app/services/admin_service.py:1476-1503 | the account at the index becomes its updated form, and one log call is issued iff something changed; user ids stay distinct |
| AdminUpdates.UpdateUser | backend/app/services/admin_service.py:1446-1506 | user ids stay distinct; unknown id: None; an admin removing their own admin flag: ValueError after the lookup and before any change; otherwise only that account is replaced, one log call iff something changed, and the account's detail: the updated account, its last login, its quote, claim and message counts, and its unfiltered activity |
| AdminUpdates.UserUpdateSpec | backend/app/services/admin_service.py:1479-1488 | `is_active` and `is_admin` change independently of each other; `changes` is empty iff the account is unchanged |
| AdminUsers.ParseUserListQuerySpec | backend/app/services/admin_service.py:1097-1171 | the query is accepted iff sort and order are known, a truthy status is active or inactive, and a truthy recency window is one of the five; a refusal is a ValueError; "2weeks", "1month", "3months", "6months" and "1year" put the cutoff 14, 30, 90, 180 and 365 days back from now |
| AdminUsers.LastActivityCutoff | backend/app/services/admin_service.py:1106-1171 | the last activity is at or after the cutoff iff some quote, claim or message of the account is; or else the cutoff is at or before the epoch and one kind has no rows, since a missing kind counts as 1970-01-01 |
| AdminUsers.MatchingUsersSpec | backend/app/services/admin_service.py:1120-1171 | an accepted query lists exactly the accounts that pass every filter, each with its own last login and quote, claim and message counts |
| AdminUsers.LastLogin | backend/app/services/admin_service.py:1232-1263 | the last login is the latest LOGIN audit entry of the account, None iff it has none |
| AdminUsers.GetUserDetail | backend/app/services/admin_service.py:1266-1321 | None iff the id is unknown; otherwise the account with its counts, its last login and its activity over the date range |
| AdminRouter.RequireAdmin | backend/app/routers/admin.py:33-48 | the caller is returned iff it is an admin; otherwise PermissionError |
| AdminRouter.AdminOnly | backend/app/routers/admin.py:33-48 | a non-admin caller is refused before the endpoint runs; an admin gets the endpoint's answer |
| AdminRouter.PagesIsCeiling | backend/app/routers/admin.py:122 | the page count is the ceiling of total/limit: zero rows give zero pages, otherwise (pages-1)·limit < total <= pages·limit |
| AdminRouter.PagesExamples | backend/app/routers/admin.py:206 | 45 rows of 20 make 3 pages, 40 rows make 2, none make 0 |
| AdminRouter.ListEndpoint | backend/app/routers/admin.py:92-123 | a list endpoint answers iff page >= 1 and 1 <= limit <= 100, with the service's items, total and the ceiling page count; out-of-bounds queries get 422 |
| AdminRouter.OrNotFound | backend/app/routers/admin.py:138-142 | a raised exception passes through, None becomes 404 "… not found", and a record is returned as is |
| ExceptionHandler.Dispatch | backend/app/middleware/exception_handler.py:16-85 | a response that completes normally is returned unchanged; a raised exception gets the error response |
| ExceptionHandler.ErrorResponse | backend/app/middleware/exception_handler.py:61-85 | the status is 400, 403, 404 or 500, or the HTTP exception's own code; a 500 that is not an HTTP exception always says "Internal server error" |
| ExceptionHandler.ServiceExceptions | backend/app/middleware/exception_handler.py:65-77 | ValueError (and validation errors) → 400, PermissionError → 403, KeyError → 404, each with str(exc); HTTPException keeps its code and detail |
| ExceptionHandler.OtherExceptionsHidden | backend/app/middleware/exception_handler.py:78-80 | any other exception → 500 with a fixed detail, so the message does not leak |
| ExceptionHandler.LogWriteIrrelevant | backend/app/middleware/exception_handler.py:53-59 | a failed system-log write does not change the answer |
| AuditLogService.LogUserAction | backend/app/services/audit_log_service.py:10-30 | exactly one entry with the given fields and the next key is appended; existing entries stay as they were |
| ClaimService.CategoryNamesAreTheKeys | backend/app/services/claim_service.py:16-23 | the category list names exactly the taxonomy's categories, each once; life, business and identity_protection are the ones without subcategories |
| ClaimService.ContactTimeMessageSpelledOut | backend/app/services/claim_service.py:68-70 | the contact-time error lists "morning, afternoon, evening, anytime" |
| ClaimService.ClaimAcceptedIff | backend/app/services/claim_service.py:42-70 | a report passes the guards iff its category/subcategory pair is in the taxonomy, its summary has 10 to 500 characters, truthy notes have at most 500, and a truthy contact time is one of the four |
| ClaimService.UnknownCategoryRefused | backend/app/services/claim_service.py:42-44 | an unknown category is refused first, whatever else the report holds |
| ClaimService.SubcategoryNotAllowed | backend/app/services/claim_service.py:47-50 | a category without subcategories refuses any truthy subcategory |
| ClaimService.SubcategoryRequired | backend/app/services/claim_service.py:51-55 | vehicle, property and other refuse a missing or empty subcategory and one outside their list, naming the allowed ones |
| ClaimService.SummaryThresholdIsTen | backend/app/services/claim_service.py:58-61 | a nine-character summary is refused with the "50 characters" message, while ten characters pass |
| ClaimService.SchemaCoversLengthChecks | backend/app/services/claim_service.py:58-66 | on a body the schema accepted, only the taxonomy and the contact time can still refuse it |
| ClaimService.CreateClaim | backend/app/services/claim_service.py:26-107 | a refused report raises ValueError and changes nothing; otherwise one claim with the next key, the caller as owner and status "submitted" is appended, and one log call is issued |
| ClaimService.CreatedClaimIsFound | backend/app/services/claim_service.py:72-89 | a created claim is then found by its owner |
| ClaimService.GetUserClaims | backend/app/services/claim_service.py:110-125 | at most `limit` claims, all the user's own, newest first |
| ClaimService.GetUserClaimsPage | backend/app/services/claim_service.py:123-125 | the page holds `min(limit, n - skip)` claims (none when `skip >= n`), n being the user's own; the skipped claims, the page and the claims after it are together exactly the user's claims; every skipped claim is at least as new as every claim on the page, and every claim on the page at least as new as every later one |
| ClaimService.GetUserClaimsComplete | backend/app/services/claim_service.py:110-125 | with no offset and a limit at least the number of the user's claims, every claim of the user is listed |
| ClaimService.GetClaimById | backend/app/services/claim_service.py:128-153 | None iff no claim has the id; PermissionError iff the first such claim is someone else's; otherwise the user's own claim with that id |
| ClaimService.DeleteClaim | backend/app/services/claim_service.py:156-202 | not found: false; someone else's: PermissionError, checked before status; not submitted: ValueError; each of these changes nothing; otherwise the log call is issued, exactly that row is removed, and the answer is true |
| ClaimService.CancelledClaimIsGone | backend/app/services/claim_service.py:198-200 | keys being unique, no row with the cancelled claim's key is left |
| ClaimSchemas.ValidateIncidentDate | backend/app/schemas/claim_schemas.py:23-34 | an accepted date is returned unchanged and is not after today; every refusal is a ValueError |
| ClaimSchemas.FutureIncidentRejected | backend/app/schemas/claim_schemas.py:25-27 | a date after today is refused as "in the future" |
| ClaimSchemas.IncidentWindow | backend/app/schemas/claim_schemas.py:29-34 | when the same day two years back exists, exactly the dates from that day to today are accepted, unchanged; earlier ones are refused as older than two years |
| ClaimSchemas.TwoYearBoundaryAccepted | backend/app/schemas/claim_schemas.py:29-34 | the day exactly two years back is accepted |
| ClaimSchemas.LeapDayRejectsEverything | backend/app/schemas/claim_schemas.py:30 | on 29 February every date is refused, because its twin two years back does not exist |
| ClaimSchemas.FieldErrors | backend/app/schemas/claim_schemas.py:11-19 | every field listed is a `ClaimCreate` field whose bound fails |
| ClaimSchemas.FieldErrorsSpec | backend/app/schemas/claim_schemas.py:11-34 | a field is listed iff its bound fails, and the list is empty iff all bounds hold |
| ClaimSchemas.ValidateClaim | backend/app/schemas/claim_schemas.py:9-34 | a body is accepted iff it is within all bounds, and then it comes back unchanged; otherwise a ValueError |
| ContactSchemas.ValidateFullName | backend/app/schemas/contact_schemas.py:14-21 | a name is accepted iff its form stripped of Python whitespace (which includes 0x1C to 0x1F) has two or more words; the stripped form is returned |
| ContactSchemas.SeparatedWordsAccepted | backend/app/schemas/contact_schemas.py:14-21 | two words joined by one Python whitespace character are accepted unchanged |
| ContactSchemas.SeparatorControlsAreSpace | backend/app/schemas/contact_schemas.py:18-19 | the controls 0x1C to 0x1F are whitespace to Python but not to JavaScript, so "Ann", a unit separator and "Lee" make a full name |
| ContactSchemas.TwoWordsHaveSpace | backend/app/schemas/contact_schemas.py:18-20 | a value of two or more words has whitespace inside |
| ContactSchemas.AcceptedNameShape | backend/app/schemas/contact_schemas.py:14-21 | an accepted name is non-empty, has no whitespace at either end, and has whitespace inside |
| ContactSchemas.ValidatePhone | backend/app/schemas/contact_schemas.py:24-34 | None passes as None; an accepted phone is the value stripped of Python whitespace; refusals are the two ValueErrors |
| ContactSchemas.AcceptedPhoneShape | backend/app/schemas/contact_schemas.py:29-34 | an accepted non-empty phone has twelve characters, each a digit or a dot, and at least one digit |
| ContactSchemas.PhoneRefusedIff | backend/app/schemas/contact_schemas.py:29-33 | a phone is refused iff it strips to something non-empty that is not twelve digits-and-dots with a digit |
| ContactSchemas.TwelveDigitsAccepted | backend/app/schemas/contact_schemas.py:29-34 | twelve digits with no dot are accepted unchanged |
| ContactSchemas.FileSeparatorStripped | backend/app/schemas/contact_schemas.py:24-34 | a leading file separator (0x1C) is stripped, so the phone is judged as if it were absent |
| ContactSchemas.BlankPhoneIsEmpty | backend/app/schemas/contact_schemas.py:29-34 | a phone of blanks is accepted as the empty string |
| ContactSchemas.FieldsRefusedIff | backend/app/schemas/contact_schemas.py:8-34 | no field is refused iff every bound holds: a name of 1 to 200 characters with two or more words, a subject among the five, a message of 50 to 250 characters, and a phone of at most 12 characters that its validator accepts |
| ContactSchemas.ValidateContact | backend/app/schemas/contact_schemas.py:8-34 | a body is accepted iff within bounds, with name and phone replaced by their stripped forms; otherwise a ValueError |
| ContactSchemas.FromOrm | backend/app/schemas/contact_schemas.py:49-57 | `has_response` is true iff a response is stored, even an empty one; the other fields are copied |
| ContactService.CreateContactMessage | backend/app/services/contact_service.py:12-61 | one message appended with the next key, status "new", the sender (None for a guest) and no response, plus one log call |
| ContactService.CreatedCallSpec | backend/app/services/contact_service.py:49-57 | the call's details start with "Guest" iff there is no sender, and with "User" otherwise |
| ContactService.GetUserMessages | backend/app/services/contact_service.py:64-86 | at most `limit` messages, all sent by the user, newest first |
| ContactService.GetUserMessagesPage | backend/app/services/contact_service.py:82-86 | the page holds `min(limit, n - skip)` messages (none when `skip >= n`), n being the messages the user sent; the skipped messages, the page and the messages after it are together exactly the user's messages; every skipped message is at least as new as every message on the page, and every message on the page at least as new as every later one |
| ContactService.GetUserMessagesComplete | backend/app/services/contact_service.py:64-86 | with no offset and a limit at least the number of messages the user sent, every message of the user is listed |
| ContactService.GetMessageDetail | backend/app/services/contact_service.py:89-120 | None iff no message has the id; a found message is the requester's own; any refusal is PermissionError |
| ContactService.MessageDetailOwnership | backend/app/services/contact_service.py:109-120 | an existing message is refused iff its sender is not the requester, so a guest's message is refused to everyone |
| QuoteService.CreateQuoteRequest | backend/app/services/quote_service.py:12-53 | always succeeds, with no taxonomy check: one quote appended with the next key, status "pending" and the sent fields, plus one log call |
| QuoteService.RequestedCallSpec | backend/app/services/quote_service.py:38-49 | the log description is "category - subcategory" for a truthy subcategory and the category alone otherwise |
| QuoteService.GetUserQuoteRequests | backend/app/services/quote_service.py:56-69 | exactly the user's quotes, each as often as stored, newest first |
| QuoteService.GetQuoteRequestById | backend/app/services/quote_service.py:72-98 | a missing id raises ValueError (not None), and nothing else does; PermissionError iff the id exists and its quote belongs to someone else; the quote is returned iff it exists and is the user's own |
| QuoteService.CreatedQuoteIsFound | backend/app/services/quote_service.py:72-98 | a created quote is found by its owner and refused to anyone else |
| Queries.CustomerName | backend/app/services/admin_service.py:123-129 | an owner name exists iff an account has the row's user id, and then it is that account's name |
| Queries.QuotesWithOwnerSpec | backend/app/services/admin_service.py:123-129 | a joined row is exactly a stored quote whose owner exists, paired with the owner's name |
| Queries.ClaimsWithOwnerSpec | backend/app/services/admin_service.py:140-146 | the same join for claims |
| Store.Database.constructor | backend/alembic/versions/001_initial_schema_no_enums.py:43-111 | a database holding only the given accounts (whose ids, the primary key, are distinct), with empty tables and no issued calls |
| Store.Database.AddClaim | backend/app/services/claim_service.py:86-89 | a committed insert appends the row with the next key and advances the counter |
| Store.Database.RemoveClaim | backend/app/services/claim_service.py:199-200 | a committed delete removes exactly that row |
| Store.Database.Issue | backend/app/services/audit_log_service.py:10 | a call that is not awaited is recorded as issued, and nothing is written |
| Validation.Collected | frontend/src/utils/validation.ts:20-60 | a result is valid iff it collected no message, and it keeps them all |
| Validation.UsernameValidIff | frontend/src/utils/validation.ts:20-60 | a username is valid iff it is already lower case, has 3 to 50 characters, starts with a-z and uses only a-z, 0-9, '_', '-' |
| Validation.BlankUsername | frontend/src/utils/validation.ts:27-30 | a blank username gets exactly the one "required" message |
| Validation.FullNameValidIff | frontend/src/utils/validation.ts:61-93 | a full name is valid iff it has at most 200 characters and two or more words, each with a letter; there is no minimum length |
| Validation.EmailPatternIsShape | frontend/src/utils/validation.ts:100-115 | the e-mail pattern holds iff: no whitespace, exactly one '@' with something before it, and a '.' in the domain that is neither its first nor last character |
| Validation.EmailValidIff | frontend/src/utils/validation.ts:94-119 | an e-mail is valid iff it has at most 254 characters and that shape |
| Validation.PhoneValidIff | frontend/src/utils/validation.ts:120-140 | an optional phone is valid iff it is blank or DDD.DDD.DDDD |
| Validation.PasswordValidIff | frontend/src/utils/validation.ts:141-178 | a password is valid iff it has 8 to 100 characters with an upper-case letter, a lower-case letter and a digit |
| Validation.VinValidIff | frontend/src/utils/validation.ts:179-204 | a VIN is valid iff it is blank or 17 characters from A-H, J-N, P, R-Z, 0-9 in either case |
| Validation.VehicleTextValidIff | frontend/src/utils/validation.ts:231-256 | make/model text is valid iff it is not blank, has at most 50 characters, and uses letters, digits, whitespace, '-', '(' and ')' |
| Validation.TextRulesValidIff | frontend/src/utils/validation.ts:257-297 | the optional text area refuses only more than 1000 characters; required text refuses blanks and more than 200 |
| Validation.ValidateField | frontend/src/utils/validation.ts:332-339 | a field name throws `TypeError` iff `Object.prototype` supplies it ("constructor", "toString", "__proto__" and the rest) |
| Validation.RulesNotInherited | frontend/src/utils/validation.ts:332-339 | no rule has an inherited name |
| Validation.UnknownRuleValid | frontend/src/utils/validation.ts:332-339 | a field name that is neither a rule nor inherited is valid with no messages |
| Validation.InheritedNameThrows | frontend/src/utils/validation.ts:332-339 | an inherited name makes `validateField` throw "rule.validate is not a function" |
| Validation.IsFormValid | frontend/src/utils/validation.ts:344-355 | the form is valid iff every listed field passes its rule, a missing value counting as ''; it throws the `TypeError` iff an inherited name is listed before any failing field; when it answers false, some listed field fails |
| Validation.MissingUsernameFails | frontend/src/utils/validation.ts:344-355 | a listed username missing from the form makes the form invalid |
| Validation.CharacterCountClassSpec | frontend/src/utils/validation.ts:361-371 | "at-limit" iff current >= max; "near-limit" iff below max and 10·current >= 9·max; "normal" otherwise |
| Formatters.FormatPhoneNumber | frontend/src/utils/formatters.ts:9-32 | the loop builds exactly the first ten digits grouped as XXX.XXX.XXXX |
| Formatters.GroupedSnoc | frontend/src/utils/formatters.ts:19-29 | each loop step appends a dot before the fourth and seventh digit, then the digit |
| Formatters.FormattedPhoneShape | frontend/src/utils/formatters.ts:9-32 | the output has at most 12 characters, dots exactly at positions 3 and 7, digits elsewhere, and deleting the dots gives the first ten digits of the input |
| Formatters.GroupedShape | frontend/src/utils/formatters.ts:19-29 | grouping up to ten digits keeps them, in order, apart from the two dots |
| Formatters.FormatPhoneIdempotent | frontend/src/utils/formatters.ts:9-32 | formatting a formatted phone changes nothing |
| Formatters.FullPhoneAccepted | frontend/src/utils/formatters.ts:9-32 | input with ten or more digits formats into a phone the phone rule accepts |
| Formatters.FullPhoneAcceptedByBackend | backend/app/schemas/contact_schemas.py:25-34 | a full formatted phone passes the backend's phone validator too, unchanged |
| Formatters.BackspaceElsewhereUnchanged | frontend/src/utils/formatters.ts:38-51 | any other key, or any cursor but 4 and 8, leaves the value as it is |
| Formatters.BackspaceRemovesPair | frontend/src/utils/formatters.ts:44-48 | at cursor 4 or 8 inside the value, exactly the two characters before the cursor are removed |
| Formatters.BackspacePastEnd | frontend/src/utils/formatters.ts:44-48 | a cursor past the end cuts the value at cursor-2, following `substring`'s clamping |
| Formatters.BackspaceOnFormattedPhone | frontend/src/utils/formatters.ts:38-51 | on a formatted phone those two characters are a digit and the dot after it |
| Formatters.FormatEmailSpec | frontend/src/utils/formatters.ts:63-65 | the e-mail has no whitespace at either end and no upper-case letter, and formatting again changes nothing |
| Formatters.FormatVinSpec | frontend/src/utils/formatters.ts:71-77 | at most 17 characters, each an allowed upper-case VIN character; formatting again changes nothing; with 17 allowed characters available, the VIN rule accepts it |
| Formatters.FormatYearSpec | frontend/src/utils/formatters.ts:82-88 | at most four digits, and formatting again changes nothing |
| Formatters.FormatVehicleTextSpec | frontend/src/utils/formatters.ts:93-99 | at most 50 allowed characters; formatting again changes nothing; a non-blank result passes the vehicle-text rule |
| Formatters.CapitalizeWordsChars | frontend/src/utils/formatters.ts:104-110 | the length is kept; a character is upper-cased at the start and after a space, and lower-cased elsewhere |
| Formatters.SplitCapJoin | frontend/src/utils/formatters.ts:105-109 | split on spaces, capitalise each piece and join with spaces upper-cases exactly the first character and each one after a space |
| Formatters.FormatTextChars | frontend/src/utils/formatters.ts:120-126 | the output has no underscore, and no whitespace but the single space |
| Formatters.FormatTextWord | frontend/src/utils/formatters.ts:120-126 | a single word is capitalised and otherwise kept |
| Formatters.FormatTextTwoWords | frontend/src/utils/formatters.ts:120-126 | two words around any run of underscores or whitespace become two capitalised words with one space between them |
| Formatters.FormatTextSingleWordExample | frontend/src/utils/formatters.ts:113-126 | '' stays '' and "submitted" becomes "Submitted" |
| Formatters.FormatTextUnderscoreExample | frontend/src/utils/formatters.ts:113-126 | "pending_review" becomes "Pending Review" |
| Formatters.FormatTextSpaceExample | frontend/src/utils/formatters.ts:113-126 | "pending review" becomes "Pending Review" |
| Formatters.CollapseSpaces | frontend/src/utils/formatters.ts:132 | every whitespace run becomes one space: no longer, empty iff the input is, whitespace at either end kept, no two whitespace characters in a row |
| Formatters.CollapseKeepsWords | frontend/src/utils/formatters.ts:132 | collapsing keeps the whitespace-separated words and their order |
| Formatters.CollapseUnchanged | frontend/src/utils/formatters.ts:132 | text with only single plain spaces is left as it is |
| Formatters.CleanTextSpec | frontend/src/utils/formatters.ts:131-133 | cleaned text has the same words as the input, in the same order, has no whitespace at either end, no two whitespace characters in a row, no whitespace but the space; cleaning again changes nothing |
| Formatters.ParseFormattedNumber | frontend/src/utils/formatters.ts:154-157 | none iff the input has no digit |
| Formatters.ParseNumeral | frontend/src/utils/formatters.ts:154-157 | a decimal numeral parses back to its value |
| Formatters.ParseIgnoresNonDigit | frontend/src/utils/formatters.ts:178-181 | separators, currency signs and any other non-digit are ignored wherever they stand |
| Formatters.RelativeTimeBuckets | frontend/src/utils/formatters.ts:253-270 | under a minute, negative times included: "Just now"; then whole minutes, hours and days "ago"; 30 days and more: the calendar date |
| Formatters.AgoSingular | frontend/src/utils/formatters.ts:265-267 | the unit is singular iff the count is 1 |
| ClaimFieldsConfig.GetClaimFields | frontend/src/components/claim-forms/claim-fields-config.ts:1597-1600 | the key is category_subcategory for a truthy subcategory, else the category; a listed key finds its form, an absent key finds no fields; the result is always well formed |
| ClaimFieldsConfig.KnownKeyFindsForm | frontend/src/components/claim-forms/claim-fields-config.ts:1599 | a key of the table finds exactly its configured list, which has fields |
| ClaimFieldsConfig.UnknownKeyFindsNothing | frontend/src/components/claim-forms/claim-fields-config.ts:1599 | a key outside the table finds [] |
| ClaimFieldsConfig.TableKeys | frontend/src/components/claim-forms/claim-fields-config.ts:121-1592 | the table has exactly the 23 form keys: eight vehicle, five property, three plain categories, seven other |
| ClaimFieldsConfig.TableWellFormed | frontend/src/components/claim-forms/claim-fields-config.ts:6-19 | every form has fields, and each dependent field follows the field it depends on and waits only for values that field offers |
| ClaimFieldsConfig.AtvOffRoadHasNoFields | frontend/src/components/claim-forms/claim-fields-config.ts:230 | the backend's ('vehicle', 'atv_off_road') looks up 'vehicle_atv_off_road', which is absent, and finds [] |
| ClaimFieldsConfig.UmbrellaPolicyHasNoFields | frontend/src/components/claim-forms/claim-fields-config.ts:1202 | the backend's ('other', 'personal_umbrella_policy') finds [] as well |
| ClaimFieldsConfig.BackendPairsWithoutForm | backend/app/services/claim_service.py:16-23 | of the pairs the backend accepts, exactly those two find no form; every other one finds fields |
| ClaimFieldsConfig.VehicleAutoWellFormed | frontend/src/components/claim-forms/claim-fields-config.ts:124-168 | in the auto form, each dependent field follows its controlling field and waits for one of its options |
| ClaimFieldsConfig.VehicleMotorcycleWellFormed | frontend/src/components/claim-forms/claim-fields-config.ts:171-227 | the same in the motorcycle form |
| ClaimFieldsConfig.VehicleAtvWellFormed | frontend/src/components/claim-forms/claim-fields-config.ts:230-303 | the same in the ATV form |
| ClaimFieldsConfig.VehicleRoadsideWellFormed | frontend/src/components/claim-forms/claim-fields-config.ts:306-354 | the same in the roadside form |
| ClaimFieldsConfig.VehicleSnowmobileWellFormed | frontend/src/components/claim-forms/claim-fields-config.ts:357-431 | the same in the snowmobile form |
| ClaimFieldsConfig.VehicleBoatWellFormed | frontend/src/components/claim-forms/claim-fields-config.ts:434-537 | the same in the boat form |
| ClaimFieldsConfig.VehicleRvWellFormed | frontend/src/components/claim-forms/claim-fields-config.ts:540-603 | the same in the RV form |
| ClaimFieldsConfig.VehicleVehicleProtectionWellFormed | frontend/src/components/claim-forms/claim-fields-config.ts:606-656 | the same in the vehicle-protection form |
| ClaimFieldsConfig.PropertyHomeownersWellFormed | frontend/src/components/claim-forms/claim-fields-config.ts:659-733 | the same in the homeowners form |
| ClaimFieldsConfig.PropertyRentersWellFormed | frontend/src/components/claim-forms/claim-fields-config.ts:736-780 | the same in the renters form |
| ClaimFieldsConfig.PropertyCondoWellFormed | frontend/src/components/claim-forms/claim-fields-config.ts:783-857 | the same in the condo form |
| ClaimFieldsConfig.PropertyLandlordWellFormed | frontend/src/components/claim-forms/claim-fields-config.ts:860-928 | the same in the landlord form |
| ClaimFieldsConfig.PropertyMobileHomeWellFormed | frontend/src/components/claim-forms/claim-fields-config.ts:931-997 | the same in the mobile-home form |
| ClaimFieldsConfig.LifeWellFormed | frontend/src/components/claim-forms/claim-fields-config.ts:1000-1044 | the same in the life form |
| ClaimFieldsConfig.BusinessWellFormed | frontend/src/components/claim-forms/claim-fields-config.ts:1047-1124 | the same in the business form |
| ClaimFieldsConfig.IdentityProtectionWellFormed | frontend/src/components/claim-forms/claim-fields-config.ts:1127-1199 | the same in the identity-protection form |
| ClaimFieldsConfig.OtherUmbrellaWellFormed | frontend/src/components/claim-forms/claim-fields-config.ts:1202-1264 | the same in the umbrella form |
| ClaimFieldsConfig.OtherIndividualHealthWellFormed | frontend/src/components/claim-forms/claim-fields-config.ts:1267-1323 | the same in the individual-health form |
| ClaimFieldsConfig.OtherPetWellFormed | frontend/src/components/claim-forms/claim-fields-config.ts:1326-1372 | the same in the pet form |
| ClaimFieldsConfig.OtherEventWellFormed | frontend/src/components/claim-forms/claim-fields-config.ts:1375-1423 | the same in the event form |
| ClaimFieldsConfig.OtherTravelWellFormed | frontend/src/components/claim-forms/claim-fields-config.ts:1426-1475 | the same in the travel form |
| ClaimFieldsConfig.OtherJewelryWellFormed | frontend/src/components/claim-forms/claim-fields-config.ts:1478-1526 | the same in the jewelry form |
| ClaimFieldsConfig.OtherCollectiblesWellFormed | frontend/src/components/claim-forms/claim-fields-config.ts:1529-1591 | the same in the collectibles form |
| AuthStore.AuthStore.constructor | frontend/src/stores/auth.ts:5-9 | the store starts with the stored token and no user, so memory and storage agree |
| AuthStore.AuthStore.SetToken | frontend/src/stores/auth.ts:11-14 | the token is set in memory and under storage key "token", the user is kept, and the store is authenticated iff the token is not empty |
| AuthStore.AuthStore.SetUser | frontend/src/stores/auth.ts:16-18 | only the user changes |
| AuthStore.AuthStore.Logout | frontend/src/stores/auth.ts:20-24 | token and user become null, the stored token is removed, and the store is no longer authenticated |
| AuthStore.LocalStorage.GetItem | frontend/src/stores/auth.ts:6 | the stored value, or null iff the key is absent |
| AuthStore.LocalStorage.SetItem | frontend/src/stores/auth.ts:13 | the key now maps to the value, and no other key changes |
| AuthStore.LocalStorage.RemoveItem | frontend/src/stores/auth.ts:23 | only that key is removed |

## Left out

- Database and request plumbing are not modelled:
  - sessions, commit/refresh, dependency injection, and FastAPI's 422 error body;
  - the table rows are sequences in storage order;
  - `ORDER BY ... DESC` is a stable sort, so ties keep storage order where SQL leaves the order open;
  - `ilike '%s%'` is an ASCII case-insensitive substring test, and LIKE wildcards in the search text are not interpreted.
- `updated_at` (ORM on-update) is not modelled.
- The clock is a parameter. `utcnow` and `now` are the same clock.
- The attention items' icons and link strings are left out.
- Display text is approximated in ASCII (`str.title()`, `strftime`) and only its structure is stated.
- The audit `details` of the admin updates name the changed keys. The model does not render Python's dict repr or the order of the changes.
- Quote amounts are integer cents. The Decimal-to-float conversion in the change text is left out.
- Strings are sequences of characters with ASCII case and whitespace classes. On ASCII, Python's whitespace adds 0x1C to 0x1F to JavaScript's six characters, and the model keeps the two classes apart. Whitespace and case beyond ASCII (such as U+00A0 or U+2028) are not modelled, and neither is the rest of Unicode.
- `EmailStr` validation of the contact e-mail address is not modelled.
- `get_dashboard_stats` is left out; it is only counts.
- The admin list queries `get_all_quotes`, `get_all_claims` and `get_all_messages` are left out, apart from the shared page count and bounds (`AdminRouter.ListEndpoint`).
- The ordering and paging of `get_all_users`, including name collation, are left out. Its checks and filters are modelled.
- The group-by order of the multiple-submission rules is taken as account order.
- The appointment rules of `get_attention_items` are modelled as emitted items. They have no lemma of their own beyond the sort.
- A negative `limit` cannot reach the services, because the router bounds it, so `limit` is a natural number.
- AdminAttention.AgeKey: the IndexError that a blank age label would raise is not modelled. No rule produces one, and the model gives such a label the key 0.
- `auth_service.py`, token creation and password hashing are not part of this model, and neither are the axios service clients.
- `system_log_service.py` and the middleware's console output are not part of this model either.
- ClaimService.ClaimRejection: the category message lists the categories in the table's order. The model uses the same listed order and does not derive it from dict iteration.
- Validation: the `vehicleYear` and `incidentDate` rules read the browser clock and `parseInt`, and their results are a parameter (`clockRules`).
- Formatters: several frontend parts are left out:
  - the `preventDefault` call of `handlePhoneBackspace`;
  - the ignored second parameter of `formatPhoneNumber`;
  - `sanitizeInput`, `formatNumberWithCommas` and `formatCurrency`, which build regexes at run time or use locale formatting;
  - the `formatDate` family.
- Formatters.ParseFormattedNumber: the result is an unbounded natural number. The double-precision rounding of `parseInt` on very long digit runs is not modelled. `parseFormattedCurrency` has the same body and is the same function.
- Formatters.FormatRelativeTime: it takes the elapsed milliseconds. Date parsing, an invalid (NaN) date and the calendar-date text are left out.
- ClaimFieldsConfig: labels, placeholders, widths and the option lists' labels are left out. Only names, kinds, options and `dependsOn` are kept.
- ClaimFieldsConfig.GetClaimFields: keys that JavaScript objects inherit, such as "constructor", are not modelled; the table is a map.
- Store.Database: `issued` is a ghost field. It records the audit calls the services create without awaiting them.
