# ROI-Calc in Dafny

A model of the Device42 ROI calculator page (`src/App.js`). The page holds the following state:

- an organisation form (company name, business sector, average annual cost of an IT employee);
- a selection map with one row per predefined use case (selected, FTEs, hours per day);
- an annual subscription cost;
- the last computed results.

From these inputs `calculateResults` computes:

- per use case: the annual current cost, the cost that remains with Device42 and the annual value (the savings share);
- the totals of those three columns;
- a three-year projection: the subscription cost, the gross value, the net value, the payback ratio and the cost of a month's delay.

The view enables the Results tab once some row is selected. The results table lists only the rows whose current cost is positive.

The project has four files:

- `js_numbers.dfy` (module `JsNumbers`): JavaScript numbers as the calculation uses them. A number is `NaN` or `Finite(value)`. `+`, `-`, `*` and `/` propagate NaN, `> 0` is false on NaN, and `x || 0` maps NaN and 0 to 0.
- `roi_calc.dfy` (module `RoiCalc`): the pure part of the page:
  - the use-case table and the initial selection map;
  - the two state updaters;
  - the calculation, as `Calculate` = rows (`CaseResults`), their totals (`TotalsOf`, a fold) and the projection (`Project`);
  - the two predicates the view derives;
  - the lemmas about all of these.
- `roi_app.dfy` (module `RoiApp`): the component state as a class `App`. Its fields are the four state variables. Its methods are the event handlers and the recalculation. Each method states the new state through the matching updater or `Calculate` of `RoiCalc`.
- `wrappers.dfy`: `Option`, used for the results before the first calculation.

The code, not the prose description of the system, is followed on one point. An empty or non-numeric FTEs or hours-per-day field of a selected row is not coerced to 0. `parseFloat` yields NaN, and NaN propagates into the row, into every total and into the projection. Only the subscription cost is coerced, by `parseFloat(subscriptionCost) || 0`. The employee cost, once edited, is a string that the multiplication at line 261 converts with JavaScript's string-to-number conversion (`Host.toNumber`), not `parseFloat`: that conversion reads an emptied field `""` as 0, and only non-numeric text as NaN. `TotalsNaNFromSelectedRow` states exactly when the total current cost is NaN, in terms of whatever the two conversions yield.

The payback figure is reproduced as the code computes it: the ratio of three-year gross value to three-year subscription cost. It is not a month count, although the page labels it in months.

The host's string-to-number conversions are parameters of the model. The `Host` datatype carries two functions: `parseFloat`, and the conversion `*` applies to the employee cost once the user has typed in it, when it holds a string. Nothing is assumed about either, except in the worked example, whose preconditions fix `parseFloat` on the strings it uses.

## Model

| member | source | states |
|---|---|---|
| RoiCalc.UseCaseTable | src/App.js:133-142 | The table has eight use cases with pairwise distinct names, so the names can key the selection map. |
| RoiCalc.SavingsAtMostHundred | src/App.js:133-142 | Every savings percent of the table is at most 100. |
| RoiCalc.BlankSelections | src/App.js:213-222 | The blank map has exactly the table's names as keys, each mapped to an unselected row with empty fields. |
| RoiCalc.AddBlankEntries | src/App.js:214-221 | The reduce step adds the table's names to the accumulator's keys. Each added name holds a blank row; every other key keeps its old row. |
| RoiCalc.ReduceBuildsBlankSelections | src/App.js:213-222 | Reducing the table from the empty object yields exactly the blank selection map. |
| RoiCalc.InitialSelections | src/App.js:213-222 | The initial map has exactly the eight use-case names as keys, and every row is unselected with empty FTEs and hours. |
| RoiCalc.OrganizationChange | src/App.js:232-238 | The named form field takes the typed text (the employee cost becomes a string); the other two fields are unchanged. |
| RoiCalc.UseCaseChange | src/App.js:240-248 | The key set is unchanged, every other row is unchanged, and in the named row only the edited field takes the new value. |
| RoiCalc.CaseResultOf | src/App.js:254-272 | A row keeps its use case's name and savings. An unselected row is all zeros. In every row, the residual cost plus the value is the current cost, NaN included. |
| RoiCalc.RowCostIsAnnualCost | src/App.js:258-261 | The step-by-step cost (hours times 260, over 8×260, times FTEs, times employee cost) equals employee cost × FTEs × hours / 8, NaN included. |
| RoiCalc.SelectedRowCost | src/App.js:254-261 | A selected row's current cost is employee cost × FTEs × hours per day / 8. |
| RoiCalc.RowValueIsSavingsShare | src/App.js:263-264 | A row's annual value is exactly its savings percent of its current cost. |
| RoiCalc.ResidualComplement | src/App.js:263-264 | Cost minus cost×(1−p) is cost×p, NaN included. |
| RoiCalc.RowValueBounds | src/App.js:263-264 | With a nonnegative cost and a savings of at most 100%, the value and the residual cost are numbers between 0 and the current cost. |
| RoiCalc.NamesCoverUseCases | src/App.js:255 | A map keyed by the table's names has a row for every use case the calculation reads. |
| RoiCalc.CaseResults | src/App.js:254-272 | There are eight rows in table order, each with its use case's name and savings, and every unselected use case gives a zero row. |
| RoiCalc.CaseResultsAt | src/App.js:254-256 | Row i is computed from table entry i and that entry's own row of the selection map. |
| RoiCalc.RowFactsAt | src/App.js:254-272 | Row i's current cost is the step-by-step cost of its inputs if selected, else 0. Its value is its savings share, and residual plus value is the cost. |
| RoiCalc.FoldTotalsIsSum | src/App.js:274-278 | Folding rows into an accumulator adds each column's independent sum to that accumulator field. |
| RoiCalc.TotalsAreColumnSums | src/App.js:274-278 | The totals record is exactly the three column sums of the rows. |
| JsNumbers.AddAssociative | src/App.js:274-278 | Number addition regroups, NaN included, so the left fold equals the right-recursive sum. |
| RoiCalc.ColumnSumIsNaN | src/App.js:274-278 | A column sum is NaN if and only if some row holds NaN in that column. |
| RoiCalc.ColumnSumsSplit | src/App.js:274-278 | If every row's residual plus value is its cost, the same holds for the column sums. |
| RoiCalc.ColumnSumsBounded | src/App.js:274-278 | If every row's value lies between 0 and its cost, the summed value lies between 0 and the summed cost. |
| RoiCalc.ColumnSumOfZeros | src/App.js:274-278 | All-zero cells sum to zero. |
| JsNumbers.OrZero | src/App.js:280 | `x \|\| 0`: NaN gives 0, and a number gives itself. |
| RoiCalc.Project | src/App.js:280-286 | The three-year subscription is 3× annual and the gross value is 3× total value. Net value is gross minus subscription. Payback is 0 unless the subscription is positive, and otherwise total value / annual subscription. 36× the monthly delay cost is the net value. |
| RoiCalc.TripledRatio | src/App.js:284-285 | (3x)/(3a) = x/a, so the guarded payback is the total value over the annual subscription. |
| RoiCalc.Calculate | src/App.js:250-297 | The results hold the eight rows and their fold totals. The annual subscription is the parsed cost, or 0 when it is NaN. Every projected figure is the projection of those. |
| RoiCalc.CalculateReadsOnlyEmployeeCost | src/App.js:302 | Two organisation forms with the same employee cost give identical results, so the effect need not depend on the name or the sector. |
| RoiCalc.ListedRows | src/App.js:503-504 | A row is listed if and only if it is in the results and its current cost is greater than 0. The listing is no longer than the results. |
| RoiCalc.ListedRowsOfOne | src/App.js:503-504 | A single row is listed exactly when its current cost is greater than 0. |
| RoiCalc.ListedRowsAppend | src/App.js:503-504 | The listing of concatenated results is the concatenation of their listings, so the filter keeps the results' order and each row's occurrences. |
| RoiCalc.TotalsSplit | src/App.js:254-278 | The totals' residual cost plus value is the total current cost. |
| RoiCalc.RowCostIsNaN | src/App.js:258-261 | A selected row's cost is NaN if and only if the employee cost, the FTEs or the hours is NaN. |
| RoiCalc.RowNaNAt | src/App.js:254-261 | Row i's current cost is NaN if and only if the row is selected and one of its inputs is NaN. |
| RoiCalc.TotalsNaNFromSelectedRow | src/App.js:254-278 | The total current cost is NaN if and only if some selected use case has a NaN input; unselected rows never poison it. |
| RoiCalc.RowCostNonnegative | src/App.js:258-261 | Nonnegative inputs give a nonnegative current cost. |
| RoiCalc.RowFiguresBounded | src/App.js:258-264 | A row built from nonnegative inputs with a savings of at most 100% has a value between 0 and its cost. |
| RoiCalc.RowBoundedAt | src/App.js:254-264 | With nonnegative inputs, row i's value is a number between 0 and its current cost. |
| RoiCalc.TotalsBounded | src/App.js:254-278 | With nonnegative inputs, the totals are numbers and the total value lies between 0 and the total current cost. |
| RoiCalc.NothingSelectedZeroRows | src/App.js:254-278 | With nothing selected, every row is zero, the totals are zero and the results table lists no row. |
| RoiCalc.ZeroRowsTotals | src/App.js:274-278 | All-zero rows have zero totals. |
| RoiCalc.NothingPositiveListsNothing | src/App.js:504 | Rows with no positive current cost are all filtered out. |
| RoiCalc.ZeroTotalsProjection | src/App.js:280-286 | Zero totals give zero gross value and zero payback, and net value −3× the subscription (/36 per month). With a zero subscription, every figure is 0. |
| RoiCalc.NothingSelectedYieldsZeros | src/App.js:250-297 | With nothing selected, the results are the projection of zero totals and the coerced subscription cost. |
| RoiCalc.EmptyFormYieldsZeros | src/App.js:280-297 | With nothing selected and an empty (or zero) subscription cost, the results are the projection of zero totals and a zero subscription. |
| RoiCalc.ListedRowsAreSelected | src/App.js:503-504 | Every listed row belongs to a selected use case. |
| RoiCalc.RowCostPositive | src/App.js:258-261 | Positive inputs give a positive current cost. |
| RoiCalc.RowPositiveAt | src/App.js:254-261 | A selected row with positive employee cost, FTEs and hours has a positive current cost. |
| RoiCalc.PositiveSelectedRowIsListed | src/App.js:503-504 | Such a row is listed in the results table. |
| RoiCalc.ResultsTabEnabledIffSomeUseCaseSelected | src/App.js:343 | For a map keyed by the table, the Results tab is enabled if and only if one of the eight use cases is selected. |
| RoiCalc.TabGatingFollowsSelection | src/App.js:343 | On the initial map the tab is disabled; checking any row enables it. |
| RoiCalc.IncidentManagementRow | src/App.js:254-272 | With cost 120000 and Incident Management selected with 2 FTEs at 4 hours, the row is 120000 / 84000 / 36000. |
| RoiCalc.FirstRowTotals | src/App.js:274-278 | The totals of a numeric first row followed by zero rows are that row's figures. |
| RoiCalc.ExampleProjection | src/App.js:280-286 | Totals 120000 / 84000 / 36000 with subscription 50000 project to gross 108000, subscription 150000, net −42000, payback 0.72 and delay −42000/36. |
| RoiCalc.IncidentManagementExample | src/App.js:250-297 | The full worked example: the row, the totals and every projected figure. |
| RoiApp.App.constructor | src/App.js:206-226 | Initial state: employee cost 120000, empty name and sector, the initial selection map with nothing selected, an empty subscription cost and no results. |
| RoiApp.App.HandleOrganizationChange | src/App.js:232-238 | The form becomes the updater's result and nothing else changes. Editing the name or sector keeps current results current. |
| RoiApp.App.HandleUseCaseChange | src/App.js:240-248 | The map becomes the updater's result, still keyed by the table, and nothing else changes. |
| RoiApp.App.HandleSubscriptionCostChange | src/App.js:451 | The subscription field takes the typed text and nothing else changes. |
| RoiApp.App.CalculateResults | src/App.js:250-302 | The results become `Calculate` of the current inputs; the inputs are unchanged. |

## Left out

- The 500 ms `setTimeout` delay, the `showProgress` flag and React's effect scheduling (line 302) are not modelled. `App.CalculateResults` is the effect's body, and a caller runs it after an edit of a dependency. `CalculateReadsOnlyEmployeeCost` and `App.HandleOrganizationChange` show why editing the name or sector needs no rerun.
- `activeTab` and `handleTabChange` (228-230) only switch panels and are not modelled. The tab's enabled state is `ResultsTabEnabled`.
- Rendering is not modelled: JSX, theme, layout, number formatting, `toLocaleString` and the advisory message. The disabling of a row's FTEs and hours fields while it is unselected (415, 425) is also left out: it constrains which edits the UI offers, not the state the handler computes.
- Floating point: values are exact reals. IEEE-754 rounding, `-0`, and `Infinity` from `parseFloat` are not modelled.
- `parseFloat` and JavaScript's string-to-number conversion are left uninterpreted, as fields of `Host`.
- `RoiCalc.UseCaseChange` and `App.HandleUseCaseChange` require the edited name to be a key. The page only calls the handler for the table's rows. The field name and value are typed (`Edit`): a boolean for `selected`, text for the two numeric fields. Writing an arbitrary field is not modelled.
- `RoiCalc.OrganizationChange` takes one of the three named fields (`OrgField`), the only names the form's inputs carry. An arbitrary `name` from an event is not modelled.
- `RoiCalc.Calculate` requires every use-case name to be a key of the map (`CoversUseCases`). The page would throw reading `.selected` of a missing row. The map always has them (`App.Valid`).
- `RoiCalc.CaseResultOf` states the row's arithmetic (cost formula, savings share) in the separate lemmas `SelectedRowCost`, `RowValueIsSavingsShare` and `RowFactsAt`, not in its own contract.
- `RoiCalc.NothingSelectedYieldsZeros` and `RoiCalc.EmptyFormYieldsZeros` state the results as the projection of zero totals. The zero figures of that projection are stated separately by `ZeroTotalsProjection`.
