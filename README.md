# Expense tracker transaction engine

This project models, in Dafny, the transaction engine behind the two Flask
back-ends of the expense tracker. The Flask routes are a thin wrapper over it.

- `EnhancedExpenseTracker` of `app_enhanced.py` adds rows. It lists them through
  eight filters, ordered latest first and paged by LIMIT/OFFSET. It computes
  statistics and deletes rows.
- `ExpenseTracker` of `stop.py` adds rows and lists them through five filters. It
  finds a row by id and updates a row with a dynamically built `UPDATE`. It deletes
  rows, sums up and imports a list of parsed JSON items.

The SQLite table becomes an in-memory table: a map from id to row, plus the next id
that `AUTOINCREMENT` hands out. It is a field of each tracker class. The methods
that change it say what it is afterwards. The invariant `WellFormed` is kept by every
method: each row sits under its own id and has a positive amount, as the table's CHECK
constraint demands. Each row also has a zero-padded date, which is what the model's
date check lets through. The schema itself has no date constraint; see "## Findings".

The query builders are imperative methods that append to `conditions` and `params`,
as the source does. SQLite's part is a pure function, `Query.Execute`. It binds the
parameters to the WHERE conditions and keeps the matching rows. It orders them
`date DESC, timestamp DESC` and applies LIMIT and OFFSET. Each condition has both its
SQL text and its meaning as a predicate on a row. The proofs connect the built
statement to the filters it stands for (`Query.Describes`).

Amounts are exact integers in cents. The average is a `real`. The clock reading
`datetime.now().isoformat()` is a parameter `now`.

Files:

- `wrappers.dfy`: `Option` and `Result`.
- `text.dfy`: `str.strip`, text order, SQLite `LIKE`, counting `?`.
- `dates.dfy`: what `strptime('%Y-%m-%d')` accepts, the zero-padded date, and
  SQLite's `strftime('%Y-%m', …)`.
- `transactions.dfy`: rows, payloads, and the validation of add and update.
- `ordering.dfy`: the `ORDER BY` sort.
- `query.dfy`: the filters, conditions, parameters, execution and listing.
- `statistics.dfy`: the aggregates.
- `table.dfy`: the table invariant.
- `app_enhanced.dfy` and `stop.dfy`: the two trackers.

## Model

| member | source | states |
|---|---|---|
| Transactions.KindNamed | app_enhanced.py:211-212 | a `type` value names a kind exactly when it is "income" or "expense", and the kind's stored name is that value |
| Transactions.CheckSubmission | app_enhanced.py:205-222 | succeeds iff the payload is acceptable; each error case iff its condition holds in check order: first missing/empty field, unknown type, float() fails, amount <= 0, bad date; on success the draft has the named kind, the amount, stripped category and description and the date as given |
| Transactions.Row | app_enhanced.py:227-237 | the inserted row carries the draft's fields, the given id and the clock reading |
| Transactions.CheckValues | stop.py:217-229 | update values checked only for keys present, in order amount (float, > 0), type, date; each error iff its condition; the patch keeps presence of each key and holds parsed kind/amount and the other values as given |
| Transactions.CheckChanges | stop.py:217-241 | succeeds iff the present values are valid and at least one of the five keys is present; "No valid fields to update" iff values pass and none of the five keys is present |
| Transactions.Patched | stop.py:232-246 | the patched row keeps its id, takes each supplied field, keeps each unsupplied one and takes the new timestamp |
| Transactions.AcceptedRowIsStored | stop.py:37-47 | an accepted submission makes a row with the positive amount the CHECK constraint demands and the zero-padded date the model's date check demands, whose category and description carry no surrounding whitespace |
| Transactions.UnpaddedDateRefused | stop.py:83-86 | a submission passing every other check whose date strptime accepts but is not zero-padded is refused with InvalidDate: the deviation of the corrected check from the code as written |
| Transactions.BlankCategoryStoredEmpty | stop.py:68-71 | a category of blanks passes the required-field check and is stored as the empty string |
| Transactions.PatchKeepsStored | stop.py:217-229 | an accepted patch keeps a stored row positive in amount and zero-padded in date |
| Text.TrimStart | stop.py:97-98 | the result is a suffix of the input, all removed characters are whitespace and it does not start with whitespace |
| Text.TrimEnd | stop.py:97-98 | the result is a prefix of the input, all removed characters are whitespace and it does not end with whitespace |
| Text.Strip | stop.py:97-98 | `str.strip`: no longer than the input, neither starts nor ends with whitespace |
| Text.StripIsMiddle | stop.py:97-98 | the stripped text is a contiguous slice of the input with only whitespace around it |
| Text.StripEmpty | stop.py:70 | stripping yields "" exactly when the text is all whitespace |
| Text.StripIdempotent | stop.py:97-98 | stripping twice equals stripping once |
| Text.Take | app_enhanced.py:380 | `s[:n]`: a prefix of length min(n, len) |
| Text.OccurrencesConcat | app_enhanced.py:300-313 | `?` counts add up over concatenation of query pieces |
| Text.OccurrencesJoin | app_enhanced.py:301 | joining with a `?`-free separator keeps the total `?` count of the parts |
| Text.TextLeTotal | app_enhanced.py:304 | text order (SQLite's BINARY collation) is total |
| Text.TextLeTransitive | app_enhanced.py:304 | text order is transitive |
| Text.TextLeAntisymmetric | app_enhanced.py:304 | text order is antisymmetric |
| Text.TextLeReflexive | app_enhanced.py:278-284 | text order is reflexive, so the date bounds are inclusive |
| Text.AsciiLower | app_enhanced.py:294-297 | LIKE's case folding maps exactly the ASCII capitals to lower case |
| Text.LikeAnything | app_enhanced.py:294-297 | `%` alone matches every text |
| Text.LikePrefix | app_enhanced.py:294-297 | `x%` with wildcard-free x matches iff x is a case-insensitive prefix |
| Text.ContainsStep | app_enhanced.py:294-297 | case-insensitive containment either starts here or in the rest |
| Text.LikeContains | app_enhanced.py:294-297 | `%x%` with wildcard-free x matches iff x occurs in the text ignoring ASCII case |
| Dates.DaysInMonth | app_enhanced.py:218-222 | a month of a calendar date has between 28 and 31 days |
| Dates.TokenValue | stop.py:83-86 | a month token stands for 1 to 12, a day token for 1 to 31 |
| Dates.SqliteMonth | app_enhanced.py:274-276 | on the dates strptime lets through, `strftime('%Y-%m', date)` is defined iff the date is zero-padded, and then is its first seven characters |
| Dates.IsoDateAccepted | app_enhanced.py:218-222 | every zero-padded calendar date (`IsIsoDate`, the corrected check the validation uses) passes strptime (`StrptimeAccepts`, the check as written): the correction only rejects more |
| Dates.UnpaddedDateAccepted | stop.py:83-86 | "2024-1-5" passes strptime, is not zero-padded and has no SQLite month |
| Dates.UnpaddedDateMisordered | app_enhanced.py:304 | two strptime-accepted dates, 6 and 5 January 2024, compare in the wrong order as text |
| Dates.DigitsOrder | app_enhanced.py:278-284 | for equal-length digit strings text order is numeric order, and equality is value equality |
| Dates.TextLeAppend | app_enhanced.py:278-284 | text order of two strings with equal-length heads is decided by the heads, or by the tails when heads agree |
| Dates.IsoTextOrderIsChronological | app_enhanced.py:278-284 | for zero-padded dates the text comparison SQLite makes is chronological order |
| Ordering.ComesFirstTotal | app_enhanced.py:304 | any two rows are ordered one way or the other by date then timestamp |
| Ordering.ComesFirstTransitive | app_enhanced.py:304 | the recency order is transitive |
| Ordering.Insert | app_enhanced.py:304 | inserting a row adds exactly that row to the multiset |
| Ordering.InsertSorted | app_enhanced.py:304 | inserting into a sorted sequence keeps it sorted by date desc, timestamp desc |
| Ordering.SortByRecency | app_enhanced.py:304 | `ORDER BY date DESC, timestamp DESC`: sorted, and a permutation of the input |
| Query.Pattern | app_enhanced.py:296 | the search pattern is the term between two `%` |
| Query.ConditionsPerFilter | app_enhanced.py:265-297 | each active filter adds exactly its own condition; "all" and absent or empty keys add none; no condition appears twice |
| Query.ParametersPerFilter | app_enhanced.py:265-297 | the parameters number the conditions, plus one when a search is given |
| Query.ParamsOf | app_enhanced.py:266-297 | each filter binds one parameter, the search two |
| Query.AllHoldAppend | app_enhanced.py:300-301 | appending a condition with its parameters adds one conjunct to the WHERE clause |
| Query.ConditionMeansFilter | app_enhanced.py:266-297 | each SQL condition, with its parameters bound, holds on exactly the rows that pass its filter |
| Query.ActiveMeaning | app_enhanced.py:261-301 | the built conditions and parameters fit together and their conjunction holds exactly on rows passing all the filters |
| Query.BasicConditions | stop.py:127-150 | the five shared filters, appended in order, give exactly the active conditions and their parameters |
| Query.Sqls | app_enhanced.py:301 | the SQL text of each condition, in the conditions' order |
| Query.ConditionMarks | app_enhanced.py:266-297 | each condition's SQL text holds one `?` per parameter it binds |
| Query.SearchMarks | app_enhanced.py:295 | the search condition's text holds two `?` |
| Query.SqlsMarks | app_enhanced.py:262-297 | the condition texts together hold as many `?` as parameters |
| Query.ClauseMarks | app_enhanced.py:300-301 | the WHERE clause holds as many `?` as its conditions bind |
| Query.OrderMarks | app_enhanced.py:304 | the ORDER BY clause holds no `?` |
| Query.LimitMarks | app_enhanced.py:307-313 | LIMIT and OFFSET clauses hold one `?` each |
| Query.StatementMarks | app_enhanced.py:256-313 | the statement text (SELECT, AND-joined WHERE, ORDER BY, LIMIT ?, OFFSET ?) holds one `?` per condition parameter plus one each for LIMIT and OFFSET |
| Query.Keep | app_enhanced.py:300-301 | WHERE filtering keeps exactly the rows satisfying the predicate, no more rows than the input |
| Query.KeepSame | app_enhanced.py:300-301 | equivalent predicates keep the same rows |
| Query.Start | app_enhanced.py:311-313 | OFFSET start: never past the end, the offset itself when in range |
| Query.Window | app_enhanced.py:307-313 | LIMIT/OFFSET as SQLite applies it: a run of consecutive rows from the start, of length limit when it fits, else the rest |
| Query.Paged | app_enhanced.py:307-313 | no LIMIT for a falsy limit; at most `limit` rows; OFFSET only together with a truthy limit; a consecutive run of the ordered rows that stays ordered |
| Query.SliceOf | app_enhanced.py:307-313 | a window holds only rows of the input and keeps its order |
| Query.SameMembers | app_enhanced.py:304 | ordering does not change which rows are listed |
| Query.Execute | app_enhanced.py:315-316 | SQLite's answer is sorted, holds only table rows on which every condition holds, and every such row when unlimited |
| Query.ExecuteDescribed | app_enhanced.py:315-316 | a statement describing a predicate (its text the SELECT, AND-joined WHERE, ORDER BY and paging clauses) returns the matching rows, latest first, paged |
| Query.ListingSound | app_enhanced.py:265-304 | every listed row is a table row passing every active filter, and the listing is sorted latest first |
| Query.ListingComplete | app_enhanced.py:265-313 | without a truthy limit every row passing the filters is listed, whatever the offset |
| Query.UnfilteredListing | app_enhanced.py:265 | with no filters and no limit both listings are permutations of the whole table |
| Query.NothingFilters | app_enhanced.py:265 | with no filters every row passes |
| Query.AllIsNoFilter | app_enhanced.py:266-272 | "all" for type or category filters exactly like leaving the key out |
| Query.UpToAgree | app_enhanced.py:265-297 | filters that agree one by one pass the same rows |
| Query.AmountBoundsMeet | app_enhanced.py:286-292 | equal given min and max amount, a number or a numeral float() reads, select exactly the rows of that amount (bounds inclusive) |
| Query.MonthFilterIsPrefix | app_enhanced.py:274-276 | on a stored row the month filter matches iff the date's `YYYY-MM` equals the month |
| Query.DateRangeIsChronological | app_enhanced.py:278-284 | on a stored row start and end date filters are inclusive chronological bounds |
| Query.SearchIsSubstring | app_enhanced.py:294-297 | a wildcard-free search matches iff description or category contains it ignoring ASCII case |
| Query.SecondPage | app_enhanced.py:307-313 | limit 2, offset 1 over five ordered rows gives the second and third |
| Statistics.Average | app_enhanced.py:393 | 0 for no transactions, otherwise the mean amount times the count is the total |
| Statistics.StatisticsOf | app_enhanced.py:363-394 | totals by kind, balance their difference, the count, the average |
| Statistics.SummaryOf | stop.py:297-306 | balance is income minus expenses; the count is the number listed |
| Statistics.ComputeStatistics | app_enhanced.py:360-394 | the statistics loops compute `StatisticsOf` of the listed rows |
| Statistics.CategoryPass | app_enhanced.py:368-375 | the category loop builds each kind's category totals map |
| Statistics.MonthlyPass | app_enhanced.py:378-383 | the monthly loop builds the monthly totals map |
| Statistics.KindsMakeTotal | app_enhanced.py:363-364 | income and expense totals add up to the total of all amounts |
| Statistics.TotalsOfStoredRows | app_enhanced.py:363-364 | over positive amounts each kind's total is non-negative, and positive iff some row of that kind is listed |
| Statistics.CategoryKeys | app_enhanced.py:368-375 | a category is a key of a kind's map iff some listed transaction of that kind has it |
| Statistics.CategoryValuesSum | app_enhanced.py:368-375 | a kind's category values add up to that kind's total |
| Statistics.CategoryValue | app_enhanced.py:373-375 | each category's value is the total of that kind's rows in that category |
| Statistics.MonthKeys | app_enhanced.py:378-383 | a month is a key iff it is `date[:7]` of some listed transaction |
| Statistics.MonthlyColumnsSum | app_enhanced.py:378-383 | each kind's column of the monthly breakdown adds up to that kind's total |
| Statistics.ColumnStep | app_enhanced.py:381-383 | one monthly step adds the amount under its month in its kind's column (zero-initialised) and nothing in the other |
| Statistics.SumValuesWithout | app_enhanced.py:368-375 | the sum of a map's values does not depend on the order of keys |
| Statistics.AddUnder | app_enhanced.py:373-375 | adding x under one key (`get(k, 0) + x`) adds x to the sum of values |
| Statistics.SummaryAgrees | stop.py:297-306 | get_summary reports the same totals, balance and count as get_statistics over the same list |
| Table.Scan | app_enhanced.py:256-260 | the table scan holds exactly the rows below the next id, each under its own id, in ascending id order |
| Table.ScanIsTable | app_enhanced.py:256-260 | the scan of a well-formed table holds exactly its rows |
| Table.InsertKeepsWellFormed | app_enhanced.py:227-239 | an INSERT under the next id of a row meeting the constraints keeps the table well formed, the id being fresh |
| Table.ReplaceKeepsWellFormed | stop.py:250-255 | an UPDATE keeping id and constraints keeps the table well formed |
| Table.DeleteKeepsWellFormed | app_enhanced.py:405 | a DELETE keeps the table well formed |
| AppEnhanced.SelectMarks | app_enhanced.py:256-260 | the base SELECT holds no `?` |
| AppEnhanced.BuildConditions | app_enhanced.py:261-297 | succeeds iff every given amount bound is readable by float(); then the conditions and parameters are exactly those of the eight active filters |
| AppEnhanced.OrderedSelect | app_enhanced.py:256-304 | the text is the SELECT, the conditions joined with AND after WHERE (nothing without conditions), then ORDER BY date DESC, timestamp DESC; it holds one `?` per condition parameter |
| AppEnhanced.Page | app_enhanced.py:307-313 | LIMIT ? with the limit exactly for a truthy limit, then OFFSET ? with the offset exactly for a truthy limit and offset, appended to text and parameters |
| AppEnhanced.Assemble | app_enhanced.py:299-313 | the text is the SELECT, AND-joined WHERE, ORDER BY, then LIMIT ? only for a truthy limit and OFFSET ? only with a truthy limit and offset; the parameters are the conditions' followed by limit and offset; `?` count equals the parameter count |
| AppEnhanced.BuildQuery | app_enhanced.py:256-313 | the statement's text and parameters describe the eight filters paged by limit and offset; an unreadable amount bound raises |
| AppEnhanced.EnhancedExpenseTracker.constructor | app_enhanced.py:101-111 | an empty, well-formed table whose first id is 1 |
| AppEnhanced.EnhancedExpenseTracker.AddTransaction | app_enhanced.py:201-247 | succeeds iff acceptable; a rejection raises the check's error and writes nothing; success inserts the checked row under a fresh id, returned, and changes nothing else |
| AppEnhanced.EnhancedExpenseTracker.Insert | app_enhanced.py:227-239 | the row takes the next id, which was not in use, and the counter moves past it |
| AppEnhanced.EnhancedExpenseTracker.GetAllTransactions | app_enhanced.py:249-327 | the result is the listing of the rows passing every filter, latest first, paged; an unreadable amount bound raises |
| AppEnhanced.EnhancedExpenseTracker.GetStatistics | app_enhanced.py:357-398 | the statistics of the unpaged listing |
| AppEnhanced.EnhancedExpenseTracker.DeleteTransaction | app_enhanced.py:400-416 | an unknown id raises "not found" and changes nothing; otherwise exactly that row is removed |
| AppEnhanced.AddedRowIsListed | app_enhanced.py:201-313 | a row just added is listed by every filter set it passes, whatever the offset, unless a truthy limit pages |
| AppEnhanced.DeletedRowIsGone | app_enhanced.py:400-412 | after a delete the row is never listed, whatever filters and paging |
| AppEnhanced.OthersStayListed | app_enhanced.py:400-412 | after a delete every other row is still listed |
| Stop.SelectMarks | stop.py:123-126 | the base SELECT holds no `?` |
| Stop.Assemble | stop.py:152-157 | the text is the SELECT, the conditions joined with AND after WHERE, then ORDER BY date DESC, timestamp DESC, with no LIMIT; one `?` per parameter |
| Stop.BuildQuery | stop.py:123-157 | the statement's text and parameters describe exactly the five filters, unpaged |
| Stop.Assign | stop.py:40-41 | an assignment keeps the id; the CHECK constraints make a stored type a known kind and a stored amount positive |
| Stop.AssignAll | stop.py:250-255 | the SET list never changes the id |
| Stop.ExecuteUpdate | stop.py:250-259 | an UPDATE keeps the table's ids, changes only the row with the id, and counts one row iff the id exists |
| Stop.UpdateOrderRanks | stop.py:235 | the fields are visited in the order type, amount, category, description, date |
| Stop.SetParams | stop.py:235-238 | one parameter per SET column |
| Stop.ColumnsPerField | stop.py:232-241 | a field is set exactly when the payload carries it, at most once, never the timestamp; nothing is set iff none of the five keys is present |
| Stop.Truncated | stop.py:235-238 | cutting the patch at all five fields is the patch, at none is empty |
| Stop.AssignFields | stop.py:235-238 | the SET columns of the first k fields apply exactly those fields of the checked patch |
| Stop.UpdateApplies | stop.py:243-259 | the built UPDATE, run on a table holding the id, changes that row to the patched row with the new timestamp and counts one |
| Stop.WithoutId | stop.py:361-362 | the item no longer carries an `id` key |
| Stop.IdKeyIgnored | stop.py:361-364 | deleting the id key changes nothing the checks look at |
| Stop.Outcomes | stop.py:358-364 | one add_transaction outcome per item, in order |
| Stop.OutcomesStorable | stop.py:364 | every draft the import accepts satisfies the table constraints |
| Stop.ImportAll | stop.py:355-367 | imported count plus errors grows by the number of items, ids advance once per import, earlier errors stay |
| Stop.ImportStep | stop.py:359-367 | one item adds either one import or one error, keeping earlier errors |
| Stop.ErrorsNameRejected | stop.py:366-367 | each logged error carries the 1-based position of a rejected item and its reason |
| Stop.ImportAllPrefix | stop.py:358-367 | running the loop over one more item is one more turn on that item, from the state the earlier items left |
| Stop.ErrorPositionsAscend | stop.py:359-367 | the errors are logged in item order: their positions ascend |
| Stop.RejectedAreLogged | stop.py:366-367 | every rejected item is logged with its position and reason |
| Stop.ImportSucceeds | stop.py:369-373 | `success` (no errors) iff every item is accepted, and then every item is imported |
| Stop.ImportKeepsTable | stop.py:358-365 | the import keeps the table well formed and every earlier row; new rows sit under ids it handed out |
| Stop.ExpenseTracker.constructor | stop.py:37-47 | an empty, well-formed table whose first id is 1 |
| Stop.ExpenseTracker.AddTransaction | stop.py:64-114 | succeeds iff acceptable; a rejection raises the check's error and writes nothing; success inserts the checked row under a fresh id, returned |
| Stop.ExpenseTracker.Insert | stop.py:89-103 | the row takes the next id, which was not in use, and the counter moves past it |
| Stop.ExpenseTracker.GetAllTransactions | stop.py:116-179 | the rows passing the five filters, latest first |
| Stop.ExpenseTracker.GetTransactionById | stop.py:181-207 | the row under the id, or None exactly when there is none |
| Stop.ExpenseTracker.UpdateTransaction | stop.py:209-269 | unknown id raises "not found"; otherwise succeeds iff the changes are acceptable, raising their error otherwise; success replaces exactly that row with the patched row and new timestamp; failure writes nothing |
| Stop.ExpenseTracker.DeleteTransaction | stop.py:271-290 | an unknown id raises "not found" and changes nothing; otherwise exactly that row is removed |
| Stop.ExpenseTracker.GetSummary | stop.py:292-310 | the summary of the five-filter listing |
| Stop.ExpenseTracker.ImportData | stop.py:347-379 | a non-list raises and writes nothing; otherwise the table, count and errors are those of the import loop, and success is "no errors" |
| Stop.ExpenseTracker.ImportItems | stop.py:358-367 | after the loop over a list, the table, the count and the error list are those the import loop gives for the items' outcomes |
| Stop.ExpenseTracker.ImportItem | stop.py:359-367 | one item: a non-object is logged as such; an object without its id goes to add_transaction, counted if accepted, logged with its position and reason if not |
| Stop.ListedRowsFoundById | stop.py:116-207 | every listed row is the row get_transaction_by_id finds under its id |

## Left out

- Flask routes, HTTP status mapping, configuration and startup: I/O around the core.
- JSON parsing (`json.loads`) in import_data: the model starts from the parsed value, a list of items or anything else. Error message texts are reduced to the `Error` constructors.
- `round(x, 2)` on the totals, balance and average, and float arithmetic generally: amounts are exact cents, and the average is an exact `real`.
- `created_at` and `updated_at` columns (app_enhanced.py:109-110): filled by SQLite's clock defaults and read by nothing in the core.
- `datetime.now()`: a parameter `now`; import_data uses one reading for all its items.
- Stop.ExpenseTracker.UpdateTransaction: does not model the recheck of `cursor.rowcount` after the UPDATE (stop.py:258-259), since the id was found just before and nothing runs in between.
- Stop.ExpenseTracker.UpdateTransaction: binds a supplied amount as the REAL the column stores rather than the raw JSON value, and binds text fields only as strings. Non-string values for the text fields are not modelled.
- Stop.Assign: a parameter of the wrong kind for a column is refused rather than coerced by SQLite's type affinity.
- The UPDATE statement is represented by its column list and parameters, not its SQL text. The SELECT texts are stored with whitespace condensed.
- Order of rows that tie on date and timestamp: SQLite leaves it unspecified. The model keeps ascending id order.
- `get_categories` in both files and stop.py's `export_data`: read the categories table or dump the table, with no logic to prove.
- `setup_database`: indexes, the categories and settings tables and their seeding.
- Logging with `print`.
- Connection errors inside SQLite: `StorageError` stands for them, and a well-formed statement never raises it.
- Non-object import items (any JSON value but an object) fail with `NotAnObject`; the exact Python exception raised for each kind of value is not modelled.
- Where the code's behaviour differs from what its checks suggest, the code is followed. The required-field check tests the raw value, so a category of only blanks passes and is stored as "" (`Transactions.BlankCategoryStoredEmpty`). update_transaction neither strips nor checks category and description for emptiness.
- Transactions.CheckSubmission: checks the date with the corrected zero-padded check (`Dates.IsIsoDate`), not with strptime as written (app_enhanced.py:218-222, stop.py:83-86). A date strptime accepts but that is not zero-padded, such as "2024-1-5" or "2024-01- 5", is refused with InvalidDate where the source stores it (`Transactions.UnpaddedDateRefused`; see "## Findings").
- Transactions.CheckSubmission: holds type, category, description and date as strings only. A non-string category or description raises AttributeError at `.strip()`, and a non-string date raises TypeError in strptime. import_data logs those as the item's error. None of this is modelled.
- Transactions.CheckValues: checks an update's date with the same corrected check, not strptime (stop.py:225-229), so it refuses unpadded dates the source writes.
- AppEnhanced.EnhancedExpenseTracker.AddTransaction: inherits the corrected date check. An unpadded date that strptime accepts is refused with InvalidDate, where the source inserts the row.
- Stop.ExpenseTracker.AddTransaction: inherits the corrected date check. An unpadded date that strptime accepts is refused with InvalidDate, where the source inserts the row.
- Stop.ExpenseTracker.UpdateTransaction: inherits the corrected date check. An unpadded date in the changes is refused with InvalidDate, where the source writes it.
- Stop.ExpenseTracker.ImportData: inherits the corrected date check. An item with an unpadded date is logged as an InvalidDate error, where the source imports it.
- Dates.SqliteMonth: covers only dates the date check lets through. Other texts SQLite's date functions read (a time of day, "now", Julian day numbers) are not modelled.

## Findings

| source | as written | input that shows it | evidently intended | confidence | as-written member | corrected member |
|---|---|---|---|---|---|---|
| stop.py:83-86, stop.py:225-229, app_enhanced.py:218-222 | `datetime.strptime(date, '%Y-%m-%d')` accepts unpadded month and day | "2024-1-5" is accepted and stored; `strftime('%Y-%m', …)` is NULL for it, so no month filter matches it, and as text it sorts after "2024-01-06" | only zero-padded `YYYY-MM-DD` dates, as the error message says, so that the month filter, the date range and ORDER BY date compare calendar days | not executed | Dates.UnpaddedDateAccepted, Dates.UnpaddedDateMisordered | Dates.IsoTextOrderIsChronological, Dates.IsoDateAccepted |
