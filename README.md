# Household energy calculator: a verified model

The calculator is a single-page form. It takes a household's bedroom tier (1BHK, 2BHK or 3BHK) and three appliance checkboxes (air conditioner, refrigerator, washing machine). From them it estimates daily energy use. The estimate is a base load for the tier (2.4, 3.6 or 4.8) plus a flat 3 for each checked appliance. The button handler computes and stores the estimate only when name, city and area are all filled in. Two result pages then re-derive a breakdown from the stored record: a row of metric cards and a pie chart. The analysis page also projects the daily figure to a week, a month and a year, priced at 5 per unit.

The model has six modules:

- `Wrappers` (`wrappers.dfy`): `Option` and `Result`.
- `Estimator` (`estimator.dfy`): tiers, appliances, the base-load table, the estimate as a function (`DailyEnergy`), and the handler's step-by-step accumulation as a method (`Estimate`) proved equal to it.
- `Record` (`record.dfy`): the form and the stored `energy_data` record. `Lookup` models key access on that dictionary and is defined on exactly the eleven keys the handler writes. `Calculate` is the handler's gate and record construction.
- `Breakdown` (`breakdown.dfy`): the metric row, both as written and corrected (see Findings), and the pie chart. The pie is a method that appends to three parallel lists, proved against `PieSlices`.
- `Projection` (`projection.dfy`): the period/consumption/cost table.
- `Session` (`session.dfy`): the `SessionState` class. Its fields are `calculated` and `energyData`, and `None` means the key is not yet in the session state. It also holds the initialisation, the submit handler, a whole script rerun, and the two result views.

Quantities are exact `real`s. The source writes the base loads as `n * 0.4 + n * 0.8`, and the model keeps that form; `BaseLoad`'s contract proves it equals 2.4, 3.6 and 4.8. Binary floating point would give 2.4000000000000004 for 1BHK, but the model keeps the decimal values that the source's comments state.

Three facts about the source shape the model:

- The handler stores only `total_energy` next to the inputs (app.py:204-216). The base load and the per-appliance shares are re-derived by the display code from the stored facility and flags.
- The handler accumulates into `cal_energy` with successive additions (app.py:184-200). The model therefore has both the function `DailyEnergy` and the method `Estimate`, proved equal.
- The page initialises each session key separately, and only when that key is absent (app.py:102-105). `InitDefaults` models that.

## Model

| member | source | states |
|---|---|---|
| Estimator.BaseLoad | app.py:186-192 | The base load is 2.4 for 1BHK, 3.6 for 2BHK and 4.8 for 3BHK, i.e. 1.2 + 1.2 per bedroom |
| Estimator.CheckedCount | app.py:194-200 | Between 0 and 3 appliances are counted; 0 exactly when none is checked, 3 exactly when all are |
| Estimator.DailyEnergy | app.py:184-200 | Over all 24 tier/flag inputs the estimate lies in [2.4, 13.8]; it is 2.4 only for a bare 1BHK and 13.8 only for a fully equipped 3BHK |
| Estimator.Estimate | app.py:184-200 | The handler's successive additions into `cal_energy` give exactly base load + 3 × number of checked appliances |
| Estimator.CheckingOneMoreAddsThree | app.py:194-200 | Checking any one more appliance raises the estimate by exactly 3, whichever appliance it is |
| Estimator.OnlyTheCountMatters | app.py:194-200 | Two flag settings with the same number of checked appliances give the same estimate |
| Estimator.Monotone | app.py:184-200 | A tier at least as large and a superset of appliances never give a smaller estimate |
| Estimator.LargerTierCostsMore | app.py:186-192 | With the same appliances, a larger tier adds exactly 1.2 per extra bedroom |
| Estimator.Scenarios | app.py:184-200 | Bare 1BHK gives 2.4, 2BHK with AC gives 6.6, 3BHK with all three appliances gives 13.8 |
| Record.Lookup | app.py:204-216 | Reading a key of the stored record succeeds exactly for the eleven keys the handler writes; any other key (such as "wm") is a KeyError |
| Record.Calculate | app.py:182-216 | A record is produced exactly when name, city and area are all non-empty; it holds every input verbatim, the timestamp given, and the estimate for its tier and flags as `total_energy` |
| Record.TotalIgnoresPersonalDetails | app.py:203-216 | Name, age, city, area, residence type and the timestamp never change `total_energy` |
| Record.StoredFlagsReadBack | app.py:210-213 | The stored "facility", "ac", "fridge" and "washing_machine" keys read back the form's values |
| Breakdown.DisplayBaseAgrees | app.py:271 | The display's string-comparison re-derivation of the base load equals the estimator's base load for every tier |
| Breakdown.ReadAll | app.py:271-280 | Reading keys in order succeeds exactly when every key is stored, and returns each key's stored value; otherwise it fails on the first missing key |
| Breakdown.MetricsAsWritten | app.py:271-280 | The metric row as written fails with KeyError("wm") for every stored record |
| Breakdown.Metrics | app.py:271-280 | The metric row reading "washing_machine" always succeeds; it shows the estimator's base, and each appliance card (computed by `Share`) shows 3 when that flag is set and 0 otherwise; its four cards add up to the stored total |
| Breakdown.PieSlices | app.py:297-312 | The pie has a base slice followed by one slice of value 3 per checked appliance; each appliance slice is present exactly when its flag is set |
| Breakdown.PieAddsUpToTotal | app.py:297-312 | The pie's values sum to base load + 3 × checked count, and hence to the stored `total_energy` |
| Breakdown.PieChart | app.py:297-312 | The three appended lists are the names, values and colours of the pie's slices, and the values sum to the stored total |
| Projection.ProjectionTable | app.py:327-332 | Rows are daily, weekly, monthly and yearly; each consumption is 1, 7, 30 or 365 times the daily figure, and each cost is 5 times that consumption |
| Projection.ProjectionMonotone | app.py:330-331 | A larger daily figure never gives a smaller consumption or cost in any row |
| Projection.ProjectionAdditive | app.py:330-331 | Projecting a sum of daily loads gives the row-wise sum of the projections |
| Projection.MonthlyExample | app.py:330-331 | A daily figure of 10 projects to 300 a month, costing 1500 |
| Projection.YearlyCostBounds | app.py:330-331 | For every tier and flag setting, the yearly cost lies between 4380 and 25185 |
| Session.SessionState.constructor | app.py:102-105 | A new session has neither key present |
| Session.SessionState.InitDefaults | app.py:102-105 | `calculated` becomes false and `energy_data` becomes empty only when the key is absent; present values are kept |
| Session.SessionState.Submit | app.py:181-220 | With name, city and area non-empty, `calculated` becomes true and the record stored is `Calculate`'s; otherwise both fields are unchanged; the session invariant is kept |
| Session.SessionState.Rerun | app.py:102-220 | One script run: a valid press stores `Calculate`'s record and sets `calculated`; any other run leaves each key as it was, or gives it its default if it was absent; so once `calculated` is true it stays true, and a run that stores nothing keeps the previous record |
| Session.SessionState.HomeResults | app.py:249-280 | Results are shown exactly when `calculated` is true, with the total in [2.4, 13.8]; the metric row as written then fails with KeyError("wm"); the cards returned are the row with line 280 corrected, and they add up to the total |
| Session.SessionState.AnalysisPage | app.py:289-359 | The analysis is shown exactly when `calculated` is true; the pie sums to the stored total and the table is the projection of that total |

## Left out

- Page layout, CSS, HTML markup, widgets and sidebar navigation (app.py:8-118, 120-181, 222-266, 282-287, 361-431) are presentation with no logic. The widgets' values are the `Form` parameter; the page choice is which method is called.
- Plotly figures and the pandas DataFrame (app.py:314-323, 334-356) wrap libraries that are not part of this model. The model stops at the lists and columns handed to them.
- `datetime.now()` (app.py:215) is a clock: the timestamp is the `now` parameter, and it never feeds the estimate.
- Binary floating-point rounding and `.1f` formatting (app.py:188-192, 263, 274-280) are not modelled. Quantities are exact decimals.
- The age widget's 1..120 bounds (app.py:137) are enforced by the widget, and age never enters the arithmetic. `age` is an unconstrained `int`.
- The static tips text (app.py:361-422) is not modelled.
- The facility is a three-valued `Tier`, because the selectbox offers only "1BHK", "2BHK" and "3BHK". The estimator's `if/elif` chain has no `else`, while the display falls back to 4.8. The two would disagree on any other label, but no other label can occur.
- `Filled` tests Python string truthiness, so a field holding only spaces passes the gate, as in the source.
- Session.SessionState.HomeResults: returns the metric cards with line 280 corrected to read "washing_machine"; as written the source raises KeyError("wm") there and the fourth card never renders. The contract states that failure but the cards it returns are the corrected ones (see Findings).
- Streamlit's concurrency between sessions is not modelled. Each `SessionState` object is one browser session, run sequentially.

## Findings

| source | as written | input that shows it | evidently intended | confidence | as-written member | corrected member |
|---|---|---|---|---|---|---|
| app.py:280 | The washing-machine metric card reads `data['wm']`, but the handler stores that flag under `'washing_machine'` (app.py:213). | Any successful calculation followed by the home page's results section: every stored record lacks the key "wm", so the lookup raises KeyError | Read `data['washing_machine']`, as the pie chart does at app.py:309 | not executed | Breakdown.MetricsAsWritten | Breakdown.Metrics |
