# Admin dashboard backend — a Dafny model

The system is an Express/MySQL backend for an admissions office. Its routes
send SQL to a MySQL driver and shape the answers into JSON: a course/phase
overview, per-programme summaries (PGP, PhD, EPhD, EMBA), a home summary
with totals and percentages, an event schedule, an applicant list, and two
notification feeds (recent activities and important dates). Two start-up
scripts load schema files statement by statement.

This project models the JavaScript that runs before and after each driver
call. SQL is not evaluated. Every `db.execute` answer is an input of type
`DbResult<T> = Ok(rows) | Err(code, message)`, and nullable columns are
`Option<int>`. A response is `Success(status, data)` or
`Failure(status, message, error)`.

Modules, one per source file, plus shared helpers:

- `Common`: JavaScript truthiness, `x || 0`, first-row destructuring and responses.
- `Text`: `String.prototype.trim` and `split`, `Array.prototype.join`, and decimal rendering and parsing.
- `Sorting`: the stable `Array.prototype.sort` by a numeric key, and `slice(0, n)`.
- `SafeQuery`: `utils/safeQuery.js`.
- `Overview`: the course → phase → 7-metric pivot. The code is the same in `routes/dashboard.js` and `routes/dashboard-fixed.js`, so it is defined once.
- `Summaries`: the report shape shared by the PhD/EPhD/EMBA summaries, and the attendance and status counting they read.
- `Dashboard`: `routes/dashboard.js`. It covers the overview route, the unguarded PGP summary, the guarded default-and-merge summaries and the home summary.
- `DashboardFixed`: `routes/dashboard-fixed.js`. Its summaries fail as a whole when any query fails.
- `Schedule`: `routes/schedule.js`. It covers the filter and WHERE-clause builder, validation with defaults, and the 404 rules.
- `Applicants`: `routes/applicants.js`. It covers id dispatch, 1/0 flags, pagination and the 404 rules.
- `Notifications`: `routes/notifications.js`. It covers `getTimeAgo` and both feeds.
- `SqlScript`: `init-dashboard-db.js` (stop at the first failure) and `init-applicants-schedule.js` (carry on past failures).

The source changes state step by step at eight sites, in three groups. Each
site is modelled as a method with a loop or a sequence of steps:

- the overview pivot (`Overview.BuildOverview` and `Overview.AddRow`);
- the guarded summaries and the home-summary accumulation (`Dashboard.GuardedSummary` and `Dashboard.AddProgram`);
- the schedule filter builder, the two feed handlers and the two script loops.

Each method is proved against a specification function, and the properties
are proved about that function.

## Model

| member | source | states |
|---|---|---|
| Common.OrElse | routes/schedule.js:144-147 | `v \|\| d` is v when v is truthy and d otherwise |
| Common.Or0 | routes/dashboard.js:248 | a NULL column read through `\|\| 0` is 0; a non-null one is its value |
| Common.Field | routes/dashboard-fixed.js:283-301 | `row.f \|\| 0` is 0 for a missing or NULL field and the value otherwise |
| Common.FirstRow | routes/dashboard.js:243-248 | `const [[x]]` yields a row iff the query succeeded with at least one row, and then it is the first row |
| SafeQuery.Run | utils/safeQuery.js:10-18 | the rows unchanged on success; the empty list on any failure |
| SafeQuery.FieldNames | utils/safeQuery.js:29 | one name per described column, the `Field` of each, in order |
| SafeQuery.MissingMembers | utils/safeQuery.js:38 | a column is missing iff it is required and not among the existing columns |
| SafeQuery.MissingIsSubsequence | utils/safeQuery.js:38 | missing columns keep the order of the required list |
| SafeQuery.CheckTableColumns | utils/safeQuery.js:26-49 | on success: exists, the described columns, `hasAllColumns` iff every required column exists, and the missing list; on failure: not existing, no columns, false, all required missing |
| SafeQuery.HasAllIffNoneMissing | utils/safeQuery.js:32-38 | on success `hasAllColumns` holds iff `missingColumns` is empty |
| SafeQuery.EmptyRequirementHolds | utils/safeQuery.js:26-38 | with no required columns a successful check has all columns and none missing |
| SafeQuery.BestTimestampColumn | utils/safeQuery.js:56-70 | the result is one of the four priority columns or `NOW()`; `NOW()` when the describe fails; a column returned exists; it is the first priority column that exists |
| Text.TrimStartShape | init-applicants-schedule.js:16 | trimming the start removes exactly a whitespace prefix and leaves a string not starting with whitespace |
| Text.TrimEndShape | init-applicants-schedule.js:16 | trimming the end removes exactly a whitespace suffix and leaves a string not ending with whitespace |
| Text.TrimShape | init-applicants-schedule.js:16 | `trim()` is a slice of the input with only whitespace around it, and neither starts nor ends with whitespace |
| Text.TrimEmptyIff | init-dashboard-db.js:115 | a piece trims to the empty string iff it is all whitespace |
| Text.TrimIdempotent | init-dashboard-db.js:122 | trimming twice is trimming once |
| Text.Split | init-dashboard-db.js:115 | `split` always yields at least one piece |
| Text.SplitPiecesFree | init-dashboard-db.js:115 | no piece contains the separator |
| Text.JoinSplit | init-dashboard-db.js:115 | joining the pieces with the separator gives back the input |
| Text.SplitJoin | init-dashboard-db.js:115 | splitting a join of separator-free pieces gives back the pieces |
| Text.SplitLength | init-dashboard-db.js:115 | there is one piece more than there are separators |
| Text.CountJoin | routes/schedule.js:43 | joining with a glue free of a character counts that character once per occurrence in the pieces |
| Text.NatToString | routes/notifications.js:406 | decimal rendering is all digits with no leading zero |
| Text.ParseNatToString | routes/applicants.js:63-68 | parsing the rendering of n gives n |
| Text.NatToStringInjective | routes/notifications.js:406-412 | different counts render differently |
| Sorting.Insert | routes/notifications.js:143 | inserting adds one element and keeps the multiset |
| Sorting.SortBy | routes/notifications.js:143 | the sort keeps the length and the multiset of the input |
| Sorting.SortBySorted | routes/notifications.js:143 | the sort orders by key |
| Sorting.SortByStable | routes/notifications.js:143 | the sort is stable: for every key value, the entries with that key come out in input order |
| Sorting.InsertWithKey | routes/notifications.js:143 | inserting into a key-ordered list puts the new element after every entry with the same key |
| Sorting.WithKeyAppend | routes/notifications.js:143 | selecting the entries with one key distributes over concatenation |
| Sorting.InsertSorted | routes/notifications.js:143 | inserting into a key-ordered list keeps it ordered |
| Sorting.InsertLast | routes/notifications.js:374 | an element with the largest key so far goes last |
| Sorting.SortBySortedIdentity | routes/notifications.js:369-374 | an input already in key order is returned unchanged |
| Sorting.Take | routes/notifications.js:144 | `slice(0, n)` keeps the first min(length, n) elements |
| Sorting.TopMembers | routes/notifications.js:143-144 | everything kept after sort and slice came from the input |
| Sorting.TopIsSmallest | routes/notifications.js:374-375 | nothing the slice leaves out has a smaller key than the last one kept |
| Sorting.TopOfSort | routes/notifications.js:143-144 | sort then slice keeps min(length, n) input elements, in key order, and no element left out ranks before the last kept |
| Overview.PhaseOf | routes/dashboard.js:48-67 | a phase has exactly the 7 metrics in the fixed order; Commitment Fee and Average Progress % are `\|\| 0`, the other five are copied |
| Overview.BuildOverview | routes/dashboard.js:37-73 | the loop over the rows produces `OverviewOf(rows)` |
| Overview.AddRow | routes/dashboard.js:38-50 | one loop step keeps the pivot invariant: the key order is first-seen order and each entry is the course of the rows seen so far |
| Overview.AddRowSound | routes/dashboard.js:38-50 | creating the entry for a new code and pushing a phase re-establishes the pivot invariant |
| Overview.CourseOfSnoc | routes/dashboard.js:39-49 | a later row with a known code only appends its phase; a new code starts a course from that row |
| Overview.CodesMembers | routes/dashboard.js:39 | a code is listed iff some row carries it |
| Overview.CodesDistinct | routes/dashboard.js:39-46 | no code is listed twice |
| Overview.FirstRowIsFirst | routes/dashboard.js:39-45 | the row a course is built from is the first row with its code |
| Overview.CodesFirstSeenOrder | routes/dashboard.js:39-69 | codes appear in the order of their first rows |
| Overview.PhasesOfMembers | routes/dashboard.js:48-49 | a course's phases are exactly the phases of its rows that have a phase name |
| Overview.PhasesOfAbsent | routes/dashboard.js:44 | a code with no rows has no phases |
| Overview.OverviewCoversCodes | routes/dashboard.js:37-69 | a course is listed iff some row has its code |
| Overview.OverviewNoDuplicates | routes/dashboard.js:39-46 | no two listed courses share a code |
| Overview.OverviewFirstRowWins | routes/dashboard.js:39-45 | a course's name and enrolment come from its first row |
| Overview.OverviewPhases | routes/dashboard.js:44-49 | phases are exactly the row phases of that course with a name; all rows without one gives `[]` |
| Overview.OverviewFirstSeenOrder | routes/dashboard.js:37-69 | courses are listed in first-seen order |
| Overview.OverviewMetrics | routes/dashboard.js:52-66 | every phase has the 7 metric names in the fixed order |
| Dashboard.OverviewRoute | routes/dashboard.js:11-82 | 200 with the pivot when the query succeeds; 500 with the driver's message otherwise |
| DashboardFixed.OverviewRoute | routes/dashboard-fixed.js:11-76 | the same pivot and the same error response as in dashboard.js |
| Dashboard.PgpSummary | routes/dashboard.js:85-213 | success iff every query returned a row; then 200 with the raw (possibly null) values; otherwise 500 with no error text |
| Dashboard.PgpNullPassesThrough | routes/dashboard.js:169-176 | a NULL fee count is passed through as null, not 0 |
| Dashboard.PgpOneFailureFailsAll | routes/dashboard.js:85-213 | one failing query fails the whole PGP summary |
| Dashboard.Guarded | routes/dashboard.js:242-251 | a guarded read is 0 when the query fails or is empty, and `row.f \|\| 0` otherwise |
| Dashboard.GuardedReport | routes/dashboard.js:219-304 | area lists stay `[]` and today's attendance stays 0; PhD/EPhD never fill today's students or the total attendance |
| Dashboard.GuardedSummary | routes/dashboard.js:217-533 | the handler always answers 200 with `GuardedReport` |
| Dashboard.GuardedPhase3 | routes/dashboard.js:242-251 | the commitment-fee step fills phase 3 only |
| Dashboard.GuardedPhase2 | routes/dashboard.js:253-280 | the slot and student steps fill phase 2 only |
| Dashboard.GuardedPhase1 | routes/dashboard.js:282-303 | the registration and application steps fill phase 1 only |
| Dashboard.GuardedIsolation | routes/dashboard.js:242-303 | a failing query resets exactly its own fields to the default and leaves every other field as it was |
| Dashboard.GuardedAllFailed | routes/dashboard.js:219-305 | when every query fails the answer is the all-zero default |
| Dashboard.GuardedNonNegative | routes/dashboard.js:219-304 | non-negative counts give non-negative leaves |
| Dashboard.GuardedLeaf | routes/dashboard.js:248 | a guarded read of non-negative counts is non-negative |
| Dashboard.GuardedEmbaBalanced | routes/dashboard.js:485-498 | for EMBA with no NULL status, present, absent and pending add up to the total students |
| Dashboard.GuardedEmbaNullFallsShort | routes/dashboard.js:485-498 | for EMBA, one NULL status leaves present + absent + pending below the total students |
| Dashboard.Contribution | routes/dashboard.js:691-708 | a program contributes one stat iff its query returned a row, and none otherwise |
| Dashboard.AddProgram | routes/dashboard.js:691-776 | one guarded step appends the program's contribution and adds its counts to the three running totals |
| Dashboard.Percentage | routes/dashboard.js:779-785 | round-half-up of 100·applications/total when total > 0, else 0 |
| Dashboard.PercentageBounds | routes/dashboard.js:779-785 | with 0 ≤ applications ≤ total the percentage lies in [0, 100] |
| Dashboard.WithPercentages | routes/dashboard.js:779-785 | each program keeps its counts and gains its percentage of the total |
| Dashboard.HomeSummaryRoute | routes/dashboard.js:683-797 | 200; the quick stats are the sums over the listed programs; the program list carries the percentages |
| Dashboard.StatsPrograms | routes/dashboard.js:691-776 | each of PGP, PhD, EPhD and EMBA appears iff its query returned a row; the list has one entry per answered program |
| Dashboard.HomePercentagesInRange | routes/dashboard.js:779-785 | with non-negative counts every percentage lies in [0, 100] |
| Dashboard.StatsNonNegative | routes/dashboard.js:699-767 | non-negative counts give non-negative application stats |
| Dashboard.SumBoundsElement | routes/dashboard.js:699-767 | no program has more applications than the total |
| Dashboard.SumNonNegative | routes/dashboard.js:699-767 | the application total is non-negative |
| Summaries.FieldNonNegative | routes/dashboard-fixed.js:283-300 | `\|\| 0` of a non-negative count is non-negative |
| Summaries.AttendanceTotals | routes/dashboard-fixed.js:248-255 | the totals row counts every student |
| Summaries.AttendanceBalanced | routes/dashboard-fixed.js:248-255 | when attendance is 1, 0 or NULL, present + absent + pending = total students |
| Summaries.AttendanceCanFallShort | routes/dashboard-fixed.js:248-255 | any attendance value outside {1, 0, NULL} makes the three counts fall short of the total |
| Summaries.StatusTotals | routes/dashboard-fixed.js:450-457 | the status totals row, over the nullable status column, counts every student |
| Summaries.StatusBalanced | routes/dashboard-fixed.js:450-457 | when no EMBA status is NULL, the three status counts add up to the total students |
| Summaries.StatusCanFallShort | init-program-tables.js:132 | the status column is nullable, and one NULL status makes the three counts fall short of the total |
| Summaries.CountsBalanced | routes/dashboard-fixed.js:250-253 | when every value is one of three distinct values, their three counts add up to the length |
| Summaries.CountsFallShort | routes/dashboard-fixed.js:250-253 | one value outside the three makes their counts add up to less than the length |
| DashboardFixed.FirstDriverError | routes/dashboard-fixed.js:212-277 | no driver error iff every query and the area query succeeded |
| DashboardFixed.FirstEmpty | routes/dashboard-fixed.js:279-300 | no `undefined` read iff every successful single-row query returned a row |
| DashboardFixed.FirstEmptyIsFirst | routes/dashboard-fixed.js:279-300 | the TypeError names the column read from the first empty answer, whatever the later answers are |
| DashboardFixed.FixedSummary | routes/dashboard-fixed.js:210-511 | success iff every query answered with a row; then 200 with exactly the normalised report and the area rows; otherwise 500 with the program's message, and the first driver error when there is one, else the TypeError of the first empty answer |
| DashboardFixed.FixedOneFailureFailsAll | routes/dashboard-fixed.js:305-308 | any single failing query fails the whole route, with its own message when it fails first |
| DashboardFixed.FixedNonNegative | routes/dashboard-fixed.js:283-300 | on success every numeric leaf is a non-null integer ≥ 0 |
| DashboardFixed.FixedAttendanceBalanced | routes/dashboard-fixed.js:248-255 | for PhD/EPhD with 1/0/NULL attendance the served totals balance |
| DashboardFixed.FixedStatusBalanced | routes/dashboard-fixed.js:450-457 | for EMBA with no NULL status the served status totals balance |
| DashboardFixed.FixedStatusNullFallsShort | routes/dashboard-fixed.js:450-457 | for EMBA one NULL status leaves the served counts below the served total |
| DashboardFixed.FixedExtendsGuarded | routes/dashboard-fixed.js:481-505 | when every query answers, the unguarded EMBA report agrees with the guarded one wherever the guarded one fills a field |
| Schedule.OrAll | routes/schedule.js:10-11 | an absent `program_id` or `event_type` defaults to 'all' |
| Schedule.BuildFilters | routes/schedule.js:16-41 | the pushes produce `Conditions(f)` and `Params(f)` |
| Schedule.WhereClause | routes/schedule.js:43 | the clause is empty iff there are no conditions |
| Schedule.ConditionsIff | routes/schedule.js:20-41 | each condition is present iff its filter is given (date; both range ends; program and type not 'all') |
| Schedule.DefaultsFilterNothing | routes/schedule.js:8-43 | with no filters there are no conditions, no parameters and an empty WHERE clause |
| Schedule.PlaceholdersMatchParams | routes/schedule.js:16-43 | the WHERE clause has exactly as many `?` as there are parameters |
| Schedule.WherePlaceholders | routes/schedule.js:43 | the clause's `?` are those of its conditions |
| Schedule.ConditionPlaceholders | routes/schedule.js:20-41 | the conditions carry one `?` per parameter |
| Schedule.ConditionCounts | routes/schedule.js:21-39 | the date, program and type conditions have one `?`, the range condition two |
| Schedule.ListEvents | routes/schedule.js:6-77 | 200 with the rows, or 500 with the driver's message |
| Schedule.GetEvent | routes/schedule.js:80-111 | 200 with the first row, 404 iff no row, 500 on a driver error |
| Schedule.StoredValues | routes/schedule.js:139-148 | seven values; omitted optional fields stored as '', 'meeting', 'all', '' |
| Schedule.CreateEvent | routes/schedule.js:114-173 | 400 before any query when title, date or time is falsy; otherwise the stored values are sent, and 201 with the insert id iff the insert succeeds; a failed insert answers 500 "Error creating event" with the driver message |
| Schedule.UpdateEvent | routes/schedule.js:176-235 | 400 before any query when required fields are missing; 404 iff no row changed; 200 "Event updated successfully" iff some row changed; a failed update answers 500 "Error updating event" with the driver message |
| Schedule.DeleteEvent | routes/schedule.js:238-265 | 404 iff no row was deleted, 200 iff one was, 500 on a driver error |
| Schedule.OmittedFieldsStoredWithDefaults | routes/schedule.js:144-147 | an event with only its required fields is stored with the four defaults |
| Schedule.CreatedEchoesBodyNotDefaults | routes/schedule.js:150-158 | the 201 answer echoes the body as sent, not the stored defaults |
| Schedule.ValidationIndependentOfDriver | routes/schedule.js:127-195 | a rejected body gets the same answer whatever the driver would have said |
| Applicants.Lookup | routes/applicants.js:63-72 | numeric iff the id is a non-empty string of digits; then by `id` with the parsed value, otherwise by `applicant_id` |
| Applicants.LookupRendered | routes/applicants.js:63-68 | a rendered number is looked up by that number |
| Applicants.LookupNonNumeric | routes/applicants.js:63-72 | an id with a non-digit goes by `applicant_id` |
| Applicants.LeadingZerosIgnored | routes/applicants.js:68 | for every digit string, a leading zero selects the same row |
| Text.ParseLeadingZero | routes/applicants.js:68 | a leading zero does not change the parsed value of a digit string |
| Applicants.Flag | routes/applicants.js:114-171 | the stored flag is 1 iff the body value is truthy, else 0 |
| Applicants.GetApplicant | routes/applicants.js:58-96 | the id dispatch; 200 with the first row, 404 iff no row, 500 on a driver error |
| Applicants.SetFlag | routes/applicants.js:99-196 | the same id dispatch; stores the 1/0 flag; 404 iff no row affected; 200 iff one was; 500 on a driver error |
| Applicants.TotalPages | routes/applicants.js:40 | `Math.ceil(total / 20)`: the smallest page count covering every applicant |
| Applicants.EveryApplicantHasAPage | routes/applicants.js:40-42 | every applicant's page number lies between 1 and the page count |
| Applicants.ListApplicants | routes/applicants.js:6-55 | 200 with the rows and pagination (page 1, limit 20) iff both queries succeed and the count has a row; 500 with the failing query's message otherwise |
| Notifications.ElapsedOf | routes/notifications.js:401-414 | days when at least 24 h, hours when at least 1 h, otherwise minutes with at least 1; each count is the floor of the elapsed time in its unit; plural iff the count > 1 |
| Notifications.FloorOfFloor | routes/notifications.js:402-403 | floor(floor(ms/3600000)/24) = floor(ms/86400000) |
| Notifications.SuffixShape | routes/notifications.js:406-413 | the text after the count names its unit, with an "s" iff plural |
| Notifications.SuffixInjective | routes/notifications.js:406-413 | the suffix determines the unit and the plural |
| Notifications.CountPrefix | routes/notifications.js:406-411 | the count before the first space is recovered from the label |
| Notifications.LabelInjective | routes/notifications.js:405-414 | different elapsed values give different labels |
| Notifications.TimeAgoDistinguishes | routes/notifications.js:398-415 | two differences with the same label have the same unit, count and plural |
| Notifications.Applications | routes/notifications.js:50-84 | each application row becomes one activity with its type, "<program> - New Application", its time and the green icon |
| Notifications.Grouped | routes/notifications.js:101-136 | each grouped row becomes one activity: "Document Verification" with "<program> - <count> Applications", or "Interview Slots Booked" with "<program> - <count> Students", at the group's time |
| Notifications.Collected | routes/notifications.js:37-136 | the groups contribute all their rows, a failed group none; every collected entry has a time and no label yet |
| Notifications.Stamp | routes/notifications.js:147-150 | each served entry gets `getTimeAgo` of its own time |
| Notifications.RecentActivities | routes/notifications.js:7-165 | 200; the three fallback entries iff nothing was collected; otherwise the newest five, labelled |
| Notifications.FailedActivityGroupIsSkipped | routes/notifications.js:37-136 | a failing query contributes nothing and the others still contribute |
| Notifications.FeedIsLabelled | routes/notifications.js:143-150 | at most five entries are served, each with a real time |
| Notifications.FeedIsCollected | routes/notifications.js:143-150 | every served entry is a collected entry with a label added |
| Notifications.FeedIsNewestFirst | routes/notifications.js:143-144 | the feed is newest first, and no entry left out is newer than the last one served |
| Notifications.Icon | routes/notifications.js:246-330 | 'card' iff a PGP or PhD event has category 'fee'; otherwise 'calendar' for PGP, 'school' for PhD; 'people' for interviews |
| Notifications.CalendarEntry | routes/notifications.js:241-334 | an event row's date, category, icon, colour, description and title |
| Notifications.CalendarGroup | routes/notifications.js:201-337 | any failing query in a group drops the whole group; otherwise entry k is `CalendarEntry` of the k-th row of the concatenated answers, so titles, icons, colour and row order are those of the rows |
| Notifications.AllRows | routes/notifications.js:241 | the answered queries' rows, concatenated |
| Notifications.SlotDates | routes/notifications.js:340-366 | one "N slots available" entry per slot row; none on failure |
| Notifications.ImportantDates | routes/notifications.js:168-395 | 200; the fallback dates iff nothing was collected; otherwise the collected dates sorted by date, first eight |
| Notifications.FallbackAlreadySorted | routes/notifications.js:369-375 | sorting and slicing the fallback dates leaves them as written |
| Notifications.DatesAreEarliestEight | routes/notifications.js:374-375 | at most eight collected dates, in date order, none left out earlier than the last served |
| Notifications.FailedCalendarGroupIsSkipped | routes/notifications.js:201-366 | a failing PGP query drops the PGP group and the other groups still contribute |
| SqlScript.NonBlank | init-dashboard-db.js:115 | no kept command is blank |
| SqlScript.NonBlankMembers | init-dashboard-db.js:115 | a piece is kept iff it is not blank |
| SqlScript.NonBlankKeepsOrder | init-dashboard-db.js:115 | kept commands keep script order |
| SqlScript.TrimAll | init-applicants-schedule.js:16 | each statement is its piece trimmed |
| SqlScript.NonEmpty | init-applicants-schedule.js:17 | a statement is kept iff it is not empty |
| SqlScript.FilterThenTrim | init-dashboard-db.js:115-122 | filtering blank pieces then trimming equals trimming then dropping empty ones |
| SqlScript.PipelinesAgree | init-dashboard-db.js:115-122 | both loaders run the same statement texts for the same script |
| SqlScript.StatementsAreClean | init-applicants-schedule.js:14-17 | no statement is empty, starts or ends with whitespace, or contains `;` |
| SqlScript.CommandsTrimToStatements | init-dashboard-db.js:115-123 | every command trims to a non-empty statement, so the inner `if` never skips one |
| SqlScript.ExecuteSqlCommands | init-dashboard-db.js:113-133 | statements run trimmed, in order; with no failure every command ran; at the first failure that error is rethrown after every earlier one succeeded, and nothing later runs |
| SqlScript.Classify | init-applicants-schedule.js:24-31 | success executes; `ER_TABLE_EXISTS_ERROR` and `ER_DUP_ENTRY` are skipped; any other error is logged with its message |
| SqlScript.InitStatements | init-applicants-schedule.js:14-32 | every statement is sent, in order, whatever happened before; each outcome is classified |
| SqlScript.LoadersAgreeWhenAllSucceed | init-dashboard-db.js:113-133 | when the driver accepts everything both loaders send the same statements and every step executes |

## Left out

- SQL is not evaluated: `COUNT`, `SUM`, `JOIN`, `GROUP BY`, `CURDATE()`, `LIMIT` and the query text itself. Every driver answer is an input, and the model does not tie the rows to the query that produced them.
- The SQL text built with the result of `getBestTimestampColumn` (routes/notifications.js:37-48) is not modelled. The activity feeds take their rows as inputs.
- Connection setup, Express request and response plumbing, `console.log`/`console.error` and async/await are not modelled. Each handler runs sequentially, so it becomes one function or method.
- `new Date()` is a parameter `now`, and every time is an integer count of milliseconds. Parsing date strings with `new Date(...)` is not modelled.
- `formatDate` and `toLocaleDateString` (routes/notifications.js:378-381, 418-425) are locale-library calls. The model serves the date as milliseconds instead of the formatted text.
- The fallback entries' preset dates are represented by their millisecond values.
- Object spreads (`...activity`, `...event`, `...program`) copy any extra columns of a row. The model keeps only the columns the code names.
- `Dashboard.Percentage`: states exact rational rounding. `Math.round((a / t) * 100)` in floating point can differ when a quotient lands next to a .5 boundary.
- `Applicants.TotalPages`: counts are natural numbers.
- `Applicants.Lookup`: `parseInt(id)` (routes/applicants.js:68) is read exactly. JavaScript rounds an id above 2^53 to the nearest double, so for "9007199254740993" the model binds 9007199254740993 where JavaScript binds 9007199254740992.
- `Dashboard.PgpSummary`: its contract names three of the pass-through fields as witnesses. The body copies every field the same way.
- `Notifications.FeedIsLabelled`: the statement that each label is `getTimeAgo` of the entry's own time is carried by `Notifications.Stamp`, not repeated here.
- The text of a JavaScript `TypeError` thrown by reading a property of `undefined` is modelled as one fixed string per column.
- `Overview.BuildOverview`: courses are listed in first-seen order. `Object.values` lists integer-like keys first in ascending order, so a `course_code` that is a canonical array index would be reordered. A `course_code` that names an inherited `Object.prototype` member ("toString", "valueOf", "__proto__") is read as truthy by the check at routes/dashboard.js:38 and never gets an entry. With a phase row, the push at routes/dashboard.js:48 throws a TypeError and the route answers 500; without one, the course is missing from `Object.values`. The model lists the course either way.
- `Sorting.SortBy`: the in-place `Array.prototype.sort` is modelled as a value on sequences, namely a stable insertion sort. Its order is the engine's stable order (`Sorting.SortBySorted` and `Sorting.SortByStable`), but aliasing of the sorted array is not modelled.
- The driver behind the script loaders is a function of (call index, statement text).
- Reading the schema file from disk is not modelled.
- The routes `/init-sample-data`, `/phase/:courseCode/:phaseName` and `/courses/:courseId/phases/:phaseId/progress` are not part of this model. They use random values or only pass rows through.
- server.js, models/User.js, config/db.js, db/mysql.js, database/init.js, init-program-tables.js and the diagnostic scripts are not part of this model. They are I/O, hashing, tokens, mail or randomness. init-program-tables.js is read only for the EMBA status column, a nullable enum.
