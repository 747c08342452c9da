# Bootstrap Budget Tracker — a verified model

The Bootstrap Budget Tracker is a small Flask application for tracking
marketing campaigns. Users register and log in. They create, edit and delete
campaigns with a budget, a channel and a date range, and record daily metric
rows (impressions, clicks, conversions, spend) for them. A dashboard lists a
user's campaigns with summed metrics, a ROI figure and the share of the
budget used. A separate helper module holds the metric arithmetic
(ROI, budget usage, budget alert, CTR, conversion rate) and two validators
(date range, budget).

The model has eight modules, one file each:

- `Wrappers` (`wrappers.dfy`): `Option` and `Result`.
- `Metrics` (`metrics.dfy`): the five helper functions of `helpers.py` over
  exact reals.
  - `round(x, 2)` is `Round2`. It rounds to the nearest multiple of 0.01,
    and a tie goes to the even neighbour, as Python's `round` does on an
    exact value.
- `Dates` (`dates.dfy`): `datetime.strptime(s, '%Y-%m-%d')` as a parser.
  - The year is four ASCII digits.
  - The month is `1[0-2]|0[1-9]|[1-9]`.
  - The day takes the rest of the text: `3[01]|[12]\d|0[1-9]|[1-9]| [1-9]`.
  - The date must then exist in the proleptic Gregorian calendar, year 1 to 9999.
  - Formatting then parsing round-trips.
  - The lexicographic order on `(y, m, d)` is the order of day ordinals.
- `Validators` (`validators.dfy`): `validate_date_range` and
  `validate_budget`.
  - A Python value is `PyNone | PyInt | PyFloat | PyStr`.
  - `float()` on a string is a parameter `parseReal`.
- `Tables` (`tables.dfy`): the rows of the `users`, `campaigns` and `metrics`
  tables, and the form checks of the route handlers.
  - It also has the owner-scoped lookup, UPDATE and DELETE on campaigns, and
    the table invariants.
- `Query` (`query.dfy`): the dashboard query.
  - The WHERE clause is built from the owner and the non-empty filters.
  - The LEFT JOIN with per-campaign sums is 0 when a campaign has no rows.
  - `ORDER BY created_at DESC`, and the ROI and budget usage are attached to
    each row.
  - `IsDashboard` states what the page shows.
- `CampaignStore` (`store.dfy`): the class `Store`.
  - It holds the three tables as sequences, plus the three AUTOINCREMENT
    counters.
  - It has a method for each handler that writes.
  - `Login` is a function.
  - `Dashboard` is a method with the handler's loop over the query rows.
- `Agreement` (`agreement.dfy`): `app.py` never calls `helpers.py`. This
  module proves where the two agree and where they do not.

The model follows the code wherever the code and its evident intent differ:

- **ROI guard.** The dashboard's ROI is 0 unless both `total_spend > 0` and
  `total_conversions > 0`. `calculate_roi` only tests `total_spend == 0`.
  - They agree under the dashboard's guard (`Agreement.RoiGuardsAgree`).
  - With spend but no conversions they differ (`Agreement.RoiGuardsDiffer`).
- **Budget guard.** The dashboard tests `budget > 0`, the helper
  `budget == 0`.
  - They agree for positive budgets (`Agreement.BudgetGuardsAgree`) and
    differ for negative ones (`Agreement.BudgetGuardsDiffer`).
  - Every stored budget is positive (`Tables.CampaignTableValid`), so on the
    dashboard they always agree (`Agreement.DashboardAgreesWithHelpers`).
- **Date check.** Neither create nor edit calls `validate_date_range`. A
  campaign that ends before it starts is stored
  (`Agreement.ReversedDatesAccepted`).

Outside parts become parameters:

- The caller is `Option<nat>`, the session's `user_id`. `None` is a request
  that `login_required` turns away.
- `generate_password_hash(password)` is a string parameter of `Register`, and
  `check_password_hash` is a parameter of `Login`.
- CURRENT_TIMESTAMP is a parameter `now: int`.
- Python's `float()` and `int()` on strings are parameters from `string` to
  `Option`, where `None` stands for `ValueError`.

## Model

| member | source | states |
|---|---|---|
| Metrics.Round2 | helpers.py:21 | `round(x, 2)` gives a multiple of 0.01 within 0.005 of `x` |
| Metrics.Round2Nearest | helpers.py:21 | no multiple of 0.01 is closer to `x` than `Round2(x)` |
| Metrics.Round2Monotone | helpers.py:21 | rounding preserves `<=` |
| Metrics.Round2Exact | helpers.py:21 | a value already at two decimals is unchanged |
| Metrics.CalculateRoi | helpers.py:4-21 | zero spend gives 0; otherwise a two-decimal value within 0.005 of `(conv*value - spend)/spend*100`, negative results allowed |
| Metrics.RoiZeroSpend | helpers.py:16-17 | zero spend gives 0 for any conversions and conversion value |
| Metrics.CalculateBudgetUsage | helpers.py:24-39 | zero budget gives 0; otherwise the rounded percentage `spend/budget*100`, not clamped at 100 |
| Metrics.CheckBudgetAlert | helpers.py:42-55 | with a zero budget the alert fires exactly when the threshold is at most 0; otherwise it fires when the exact usage is at least 0.005 above the threshold and never when it is more than 0.005 below |
| Metrics.BudgetAlertMonotone | helpers.py:42-55 | for a positive budget, once the alert fires, more spend keeps it firing |
| Metrics.BudgetAlertAtThreshold | helpers.py:54-55 | spend exactly at the threshold fires the alert (the comparison is inclusive) |
| Metrics.BudgetUsageMonotone | helpers.py:35-39 | for a positive budget, usage does not decrease as spend grows |
| Metrics.CalculateCtr | helpers.py:58-73 | zero impressions gives 0; otherwise the rounded percentage `clicks/impressions*100` |
| Metrics.CtrBounded | helpers.py:69-73 | with `0 <= clicks <= impressions` the CTR lies in [0, 100] |
| Metrics.CalculateConversionRate | helpers.py:76-91 | zero clicks gives 0; otherwise the rounded percentage `conversions/clicks*100` |
| Metrics.ConversionRateBounded | helpers.py:87-91 | with `0 <= conversions <= clicks` the rate lies in [0, 100] |
| Metrics.PercentBounds | helpers.py:72-73 | the rounded share of a part in its whole lies in [0, 100] |
| Metrics.HelperVectors | test_app.py:71-148 | the helpers' test vectors: ROI 150.0, -50.0 and 0; usage 75.0, 120.0 and 0; alert true at 850/1000 and 800/1000, false at 700/1000; CTR 1.0 and 0; conversion rate 5.0 and 0 |
| Dates.ParseDate | helpers.py:108-109 | a date is returned only when it is a valid calendar date |
| Dates.ParseFormat | helpers.py:108-109 | parsing the `YYYY-MM-DD` text of any valid date gives that date back |
| Dates.DaysBeforeNextYear | helpers.py:110 | the day count before 1 January of the next year adds exactly the days of this year, leap years included |
| Dates.DaysBeforeLaterYear | helpers.py:110 | a later year starts after the end of an earlier one |
| Dates.OrdinalIncreasing | helpers.py:110 | a lexicographically later valid date has a larger day ordinal |
| Dates.DateLeIsCalendarOrder | helpers.py:110 | comparing `(y, m, d)` lexicographically is comparing day ordinals, both directions |
| Dates.ShortFieldsAccepted | helpers.py:108-109 | one-digit months and days, a space-padded day and 29 February of a leap year parse |
| Dates.MalformedRefused | helpers.py:108-112 | a non-date, 29 February 2023, year 0, month 13, a trailing digit and day 32 are refused |
| Validators.ValidateDateRange | helpers.py:94-112 | true exactly when both strings parse and the end's ordinal is not below the start's; unparseable text gives false |
| Validators.SameDayValid | helpers.py:110 | a range that starts and ends on the same valid day is valid |
| Validators.ReversedRangeInvalid | helpers.py:110 | swapping a valid range of two different dates makes it invalid |
| Validators.DateRangeVectors | test_app.py:151-172 | the four date-range test vectors |
| Validators.ValidateBudget | helpers.py:115-129 | true exactly when the value converts to a number greater than 0; `None` gives false |
| Validators.BudgetVectors | test_app.py:175-187 | the seven budget test vectors, for any `float()` reading "1000" as 1000 and refusing "not-a-number" |
| Tables.CheckRegistration | app.py:119-148 | accepted exactly when every field is non-empty, the passwords match, the password has at least 6 characters and neither username nor email is taken |
| Tables.FindUser | app.py:166-168 | finds a user with the username, or none exactly when that username is not taken |
| Tables.CheckCampaignForm | app.py:268-278 | accepted exactly when the required fields are non-empty and the budget parses to a value above 0; the fields written are the submitted ones, status 'active' on create |
| Tables.FindOwned | app.py:304-306 | finds a row matching both id and owner, or none exactly when no row matches both |
| Tables.UpdateOwned | app.py:335-339 | rows not matching id and owner are unchanged; a matching row gets the six submitted fields and keeps id, owner and creation time |
| Tables.RemoveOwned | app.py:358-360 | the rows kept are exactly those not matching both id and owner |
| Tables.RemoveUnique | app.py:358-360 | deleting keeps primary keys unique |
| Tables.NoOwnedUnchanged | app.py:335-339 | an UPDATE or DELETE that matches no row changes nothing |
| Tables.OwnedRowUpdated | app.py:335-339 | with unique ids, the UPDATE changes exactly the row found, to that row with the six submitted fields |
| Tables.OwnedRowRemoved | app.py:358-360 | with unique ids, the DELETE removes exactly the row found and keeps the others in order |
| Tables.EditKeepsTable | app.py:335-339 | an edit with a positive budget keeps the campaigns table's invariant and touches no other row |
| Tables.RemoveKeepsTable | app.py:358-360 | a delete keeps the campaigns table's invariant |
| Tables.CheckMetricsForm | app.py:387-400 | accepted exactly when the three counts parse with `int()` and spend with `float()`; absent fields count as 0 |
| Tables.AppendKeepsMetricTable | app.py:402-405 | appending a row with the next id that points at an id already handed out keeps the metrics table's invariant |
| Query.ConditionsMeaning | app.py:211-223 | a row passes the assembled WHERE clause exactly when it is the caller's and matches each non-empty filter |
| Query.Select | app.py:209-211 | the rows kept are exactly the table rows passing every condition, as a sub-multiset |
| Query.SelectUnique | app.py:209-211 | filtering keeps ids unique |
| Query.TotalsFor | app.py:204-210 | a campaign with no metric rows has all four sums 0 (the LEFT JOIN's COALESCE) |
| Query.TotalsAppend | app.py:204-210 | appending a metric row adds it to its own campaign's sums and leaves other campaigns' sums alone |
| Query.AppendTotalsFrame | app.py:204-210 | after `add_metrics` appends a row, its campaign's sums include it and every other campaign's sums are unchanged |
| Query.InsertNewestFirst | app.py:225 | inserting into a newest-first list keeps it newest first and adds exactly that row |
| Query.InsertPermutes | app.py:225 | insertion adds the row to the multiset and nothing else |
| Query.SortNewestFirst | app.py:225 | the sorted list is newest first with the same members |
| Query.SortPermutes | app.py:225 | sorting is a permutation |
| Query.SortUnique | app.py:225 | sorting keeps ids unique |
| Query.QueryRows | app.py:203-227 | the definition of the SQL query: the selected rows sorted newest first, each joined with the sums of its own metric rows; what it promises is proved in `Query.QueryRowsSpec` and `Query.DashboardCorrect` |
| Query.QueryRowsSpec | app.py:203-227 | the query lists exactly the selected rows, as a permutation, unique when the table's ids are, newest first |
| Query.DashboardRoi | app.py:237-242 | 0 unless spend and conversions are both positive; otherwise the rounded `(conv*50 - spend)/spend*100` |
| Query.DashboardBudgetUsed | app.py:245-249 | 0 unless the budget is positive; otherwise the rounded `spend/budget*100` |
| Query.DashboardOnlyShown | app.py:211-223 | every dashboard entry is one of the caller's campaigns matching the non-empty filters |
| Query.DashboardAllShown | app.py:211-225 | every such campaign has an entry |
| Query.DashboardOrdered | app.py:225 | entries are newest first and no campaign appears twice |
| Query.DashboardCorrect | app.py:191-253 | the figures attached to the query rows make up the dashboard: only and all of the caller's matching campaigns, once each, newest first, with correct sums, ROI and usage |
| CampaignStore.Store.constructor | app.py:41-79 | the three tables start empty with every counter at 1 |
| CampaignStore.Store.Register | app.py:109-148 | a refused form changes nothing and reports why; an accepted one appends exactly one user with the next id; campaigns and metrics are untouched |
| CampaignStore.Store.Login | app.py:153-178 | logs in exactly when both fields are non-empty and the first user with that username has a matching password; the result is that user's id |
| CampaignStore.Store.CreateCampaign | app.py:256-293 | no caller or a refused form changes nothing; otherwise exactly one campaign with the next id, owned by the caller, status 'active', no metric rows yet |
| CampaignStore.Store.EditCampaign | app.py:296-344 | absent or foreign ids report not found and change nothing; a refused form reports why and changes nothing; otherwise the table is the UPDATE's result, which is the one owned row with its six fields replaced, all other rows unchanged |
| CampaignStore.Store.DeleteCampaign | app.py:350-366 | removes exactly the row matching both id and owner, if any, keeps all others in order and leaves metric rows in place |
| CampaignStore.Store.AddMetrics | app.py:369-410 | not found, an unparseable value or a missing date write nothing; `Done` exactly when the caller owns the campaign, every value parses and a date is present, and then exactly one metric row with the next id, the parsed values and the submitted date is appended |
| CampaignStore.Store.Dashboard | app.py:191-253 | with a caller, the page is the dashboard of `IsDashboard`, each entry's usage equals `calculate_budget_usage` and, with spend and conversions, its ROI equals `calculate_roi`; without a caller, nothing |
| Agreement.RoiGuardsAgree | app.py:237-240 | under the dashboard's guard its ROI equals `calculate_roi(conv, spend, 50)` |
| Agreement.RoiGuardsDiffer | helpers.py:16-21 | with spend but no conversions the dashboard shows 0 and the helper reports at most -100 |
| Agreement.BudgetGuardsAgree | app.py:245-249 | for a positive budget the dashboard's usage equals `calculate_budget_usage` |
| Agreement.BudgetGuardsDiffer | helpers.py:35-39 | budget -100 with spend 50: the helper gives -50, the dashboard 0 |
| Agreement.DashboardAgreesWithHelpers | app.py:237-249 | on a valid store every entry's usage is the helper's, and its ROI is the helper's whenever spend and conversions are positive |
| Agreement.FormBudgetIsValidateBudget | app.py:272-278 | the handlers' budget check is `validate_budget` on the submitted text |
| Agreement.ReversedDatesAccepted | app.py:268-286 | a campaign from 28 February to 1 February is accepted by both the create and the edit form, though `validate_date_range` rejects it |

## Left out

- Flask routing, templates, flash messages, redirects and the session cookie are not modelled. The caller is an `Option<nat>` user id.
- `login_required` (app.py:89-97) is modelled only as the `NotLoggedIn` outcome of a `None` caller.
- `logout` and `index` are left out. They only touch the session.
- The GET branches that render forms are left out. They read nothing that the model does not already expose.
- `generate_password_hash` and `check_password_hash` are salted, one-way functions and are modelled as parameters.
- SQLite connections, `init_db`, the `before_request` flag and the error printing are left out. The constructor plays the part of a fresh database.
- `ON DELETE CASCADE` is not applied, because `PRAGMA foreign_keys` is never enabled. Orphaned metric rows stay.
  - Orphans cannot reach a later campaign, since AUTOINCREMENT ids are never reused.
- The FOREIGN KEY on `campaigns.user_id` is not enforced either. The model never needs it.
- Money is an exact real. IEEE binary floating point, `inf`/`nan`, and the binary representation behind Python's `round` are not modelled.
- Python's `float()` and `int()` string grammars (exponents, underscores, surrounding whitespace) are parameters.
- `\d` in CPython's `strptime` also matches non-ASCII Unicode digits. The model accepts ASCII digits only.
- `validate_date_range` on non-string arguments raises `TypeError`, which it does not catch. The model takes strings only.
- `validate_budget` on other Python types (booleans, lists) is not modelled. Its value type has `None`, integers, floats and strings only.
- `created_at` is an integer timestamp. Rows created at the same moment are ordered one fixed way, although SQL leaves the order of ties unspecified.
- Concurrent requests and the storage layer's last-writer-wins behaviour are not modelled.
- The route and database tests of `test_app.py` depend on the Flask test client and a database file. Only its helper test vectors are modelled.
- Tables.CheckMetricsForm, CampaignStore.Store.AddMetrics: counts are unbounded integers. Binding an int outside the 64-bit range raises an uncaught `OverflowError` in `cursor.execute` (app.py:402-405). Nothing is written and the request fails, whereas the model appends the row and reports `Done`.
- CampaignStore.Store.EditCampaign, CampaignStore.Store.DeleteCampaign, CampaignStore.Store.AddMetrics: route ids are unbounded `nat`s. A 64-bit overflow of the bound id (app.py:304-306, 358-360, 377-379) fails the request, whereas the model reports `NotFound` or `Done`.
- Query.TotalsFor: the sums are unbounded. SQLite's `SUM` fails with "integer overflow" when an integer sum leaves the 64-bit range (app.py:206-208), and the model does not model that failure.
- Validators.ToFloat, Validators.ValidateBudget: `float()` of an int too large for a double raises `OverflowError`, which `validate_budget` does not catch (helpers.py:126-128). The model converts every int exactly instead.
- Tables.CheckCampaignForm, Tables.MetricRow: the date columns are declared `DATE` (app.py:59-60, 72), so SQLite gives them NUMERIC affinity. Text that looks like a number, such as "0201", is stored and read back as a number. The model keeps each date as the submitted text.
