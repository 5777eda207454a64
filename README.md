# Transport trip ledger

A model of the trip ledger of a small transport API (`server.js`). The service
keeps trips ("viagens") in memory. Each trip has a driver, plate, origin,
destination, date, fuel cost, toll cost and freight revenue. The service adds
a trip only when every field is given, numbers trips from 1, lists them, and
computes a daily and a monthly report. A report holds the trip count, the
fuel, toll and freight totals, and the profit `freight - (fuel + toll)`.

Files:
- `wrappers.dfy`: `Option` and `Result`.
- `trips.dfy` (module `Trips`): the `Trip` record, the request `Body`, JavaScript truthiness of its fields, and the numbering invariant.
- `reports.dfy` (modules `Reports` and `ReportLaws`): selection (`filter`), the left fold from 0 (`reduce`), `YYYY-MM-DD` parsing, the two reports, and the laws about them.
- `store.dfy` (module `Store`): the class `TripStore`. Its fields `trips` and `nextId` stand for `viagens` and `idCounter`. Its methods are the four handlers. A client method runs a worked example.

Three points about the code's validation (server.js:18):
- The code never checks the sign of an amount, so negative amounts are accepted.
- A field counts as given only when it is truthy, so the empty string and 0 are refused like a missing field.
- `data` is stored as any non-empty text. A date that does not parse is never in a monthly report.

## Model

| member | source | states |
|---|---|---|
| `Trips.MakeTrip` | server.js:22-32 | the stored record carries the given id and exactly the eight submitted field values |
| `Trips.NumberedIdsIncrease` | server.js:11-23 | in a ledger numbered from 1, ids are positive and strictly increasing by position, hence unique |
| `Trips.NumberedDistinct` | server.js:23 | in a numbered ledger, equal trips sit at the same position (no record is stored twice) |
| `Store.TripStore.constructor` | server.js:11-12 | the ledger starts empty with the counter at 1, and the numbering invariant holds |
| `Store.TripStore.Add` | server.js:15-35 | the trip is accepted iff all eight fields are truthy; on rejection, trips and counter are unchanged; on success, the new trip gets the old counter value as id, is appended after the unchanged earlier trips, the counter grows by one, and `trips[i].id == i + 1`, `nextId == |trips| + 1` is preserved |
| `Store.TripStore.List` | server.js:39-41 | listing returns all trips in insertion order, the trip at index i having id i + 1 |
| `Store.TripStore.Daily` | server.js:44-62 | the daily handler answers with the daily report over the current trips, and it has no modifies clause, so it cannot change the store |
| `Store.TripStore.Monthly` | server.js:65-88 | the monthly handler answers with the monthly report over the current trips, and it has no modifies clause, so it cannot change the store |
| `Store.DailyScenario` | server.js:15-61 | after two accepted trips dated 2024-03-01 (fuel 100/50, toll 20/10, freight 300/150) and a submission refused for a zero fuel amount, the day's report is 2 trips, 150, 30, 450, profit 270 |
| `Reports.Select` | server.js:48 | a trip is in the selection iff it is in the input and passes the test; each passing trip occurs as often as in the input, each failing one not at all |
| `Reports.OnDate` | server.js:48 | a trip is in the daily selection iff it is in the ledger and its date text equals the query exactly, with the same number of occurrences as in the ledger |
| `Reports.InMonth` | server.js:69-72 | a trip is in the monthly selection iff it is in the ledger and its date parses to the queried year and 1-based month, with the same number of occurrences as in the ledger |
| `Reports.Summarize` | server.js:49-52 | the count is the number of trips, each total is the fold of its amount from 0, and profit is freight minus the sum of fuel and toll, negative results included |
| `Reports.ParseYearMonth` | server.js:70-71 | a parsed date has the `YYYY-MM-DD` shape with digits in every numeric position, a year in 0..9999 and a month in 1..12 |
| `Reports.ParseFormatInverse` | server.js:70-71 | a date text that parses to a year and month is exactly the `YYYY-MM-DD` text of that year, that month and some day 1..31, so unparseable text is never in a month |
| `Reports.ParseFormatRoundTrip` | server.js:70-71 | parsing the `YYYY-MM-DD` text of any valid year, month and day gives back that year and month |
| `Reports.DailyReport` | server.js:44-61 | a missing or empty date gives the missing-date error and no report; otherwise the report echoes the date, its count is the number of trips on that date, its fuel, toll and freight totals are the folds over those trips, and its profit is freight minus the sum of fuel and toll |
| `Reports.MonthlyReport` | server.js:65-87 | a missing month or year gives the missing-month-or-year error and no report; otherwise the report echoes both, its count is the number of trips in that month, its fuel, toll and freight totals are the folds over those trips, and its profit is freight minus the sum of fuel and toll |
| `ReportLaws.TotalSingleton` | server.js:49 | the fold over a single trip is that trip's amount |
| `ReportLaws.TotalAppend` | server.js:49-51 | the fold over a concatenation is the sum of the folds over its parts |
| `ReportLaws.TotalPermutation` | server.js:49-51 | two trip sequences with the same multiset of trips have equal totals |
| `ReportLaws.SummarizeEmpty` | server.js:49-52 | an empty selection gives a zero count, zero totals and zero profit |
| `ReportLaws.SummarizeAppend` | server.js:49-52 | reports are additive: count, every total and profit of a concatenation are the sums over its parts |
| `ReportLaws.SummarizePermutation` | server.js:49-52 | a report does not depend on the order of the trips |
| `ReportLaws.SelectAppend` | server.js:48 | selecting from a concatenation concatenates the selections, so the selection keeps insertion order |
| `ReportLaws.SelectSplitsTotal` | server.js:48-51 | every total of the ledger is the total of a selection plus the total of its complement |
| `ReportLaws.DayWithinMonth` | server.js:44-72 | every trip in the report for a parseable day is also in the report for that day's month |
| `ReportLaws.DailyScenario` | server.js:44-61 | two trips on 2024-03-01 with fuel 100/50, toll 20/10 and freight 300/150 give the daily report 2, 150, 30, 450, profit 270 |
| `ReportLaws.ParseLiteral` | server.js:70-71 | a well-formed date text parses to the year and month its digits spell |
| `ReportLaws.MarchSelection` | server.js:69-72 | of trips dated 2024-03-15 and 2024-04-01, only the first is selected for month 3 of 2024 |
| `ReportLaws.MonthlyScenario` | server.js:65-87 | the report for month 3 of 2024 over those two trips has count 1 and carries only the March trip's amounts |

## Left out

- Express setup, CORS, JSON body parsing, `dotenv`, the health route `GET /`, and choosing the port (server.js:1-8, 90-99). This is HTTP plumbing. The responses' status codes and message texts are reduced to the error values `MissingFields`, `MissingDate` and `MissingMonthOrYear`.
- JavaScript number semantics. Amounts are unbounded integers, not floating point. Amounts sent as JSON strings, which `reduce` would concatenate as text, are not modelled. Truthiness covers absent fields, `""` and `0`. It does not cover `null`, `false` or `NaN`.
- `parseInt` of the `mes` and `ano` query strings. The monthly report takes them as already-parsed integers, with `None` for an absent or empty parameter. A query string that `parseInt` turns into `NaN`, which matches no trip, is not modelled. The source echoes the raw query strings in its response (server.js:80-81), so `"03"` comes back as `"03"`; the model echoes the parsed integers.
- JSON value types of the body. The text fields are modelled as strings, but the source stores any truthy JSON value. For example, a numeric `data` is stored and then never `===` any query string, so it is in no daily report.
- `Reports.ParseYearMonth`: this is a timezone-free parse of the strict `YYYY-MM-DD` form, with month 1..12 and day 1..31. The source uses JavaScript `Date`. That parses `YYYY-MM-DD` as UTC but reads the year and month in local time, so west of UTC a first-of-month trip falls into the previous month. `Date` also rolls a day past the month's end (February 31) into the next month, and it accepts other date formats. The model reproduces none of these.
- Concurrency between requests, and persistence. The ledger lives in process memory and requests run one at a time.
- User accounts, authentication tokens, per-user trip scoping and spreadsheet export. They belong to another variant of the service and are not in `server.js`. They are not part of this model.
