# Buy vs rent: a verified model of the projection engine and its state

This project models, in Dafny, the core of a browser calculator that compares
renting a home with buying one. The user sets global assumptions and up to five
scenarios. For each scenario the calculator projects total assets year by year.

- **Engine** (`simulation.dfy`, module `Simulation`). It starts from the initial
  assets. A purchase first pays its capital, meaning the part of the house price
  the mortgage does not cover, plus a liquidation surcharge. Then, for every year
  1..N, it pays the escalating rent or mortgage (the mortgage only while it runs),
  pays the expenses, adds the income and compounds the balance by the investment
  return. The method `SimulateScenario` fills an array from a running balance, as
  the source does. It is proved equal to the recursive specification `Series`, and
  the properties of the projection are lemmas about `Series`.
- **Application state** (`app.dfy`, module `App`). The scenario list reducers are
  submit (replace by id, or append under the cap of five), duplicate, delete and
  reset. The derived views are the year-by-scenario table and the colour of each
  scenario. The class `AppState` holds the two state fields (`settings`,
  `scenarios`). Its handlers apply the reducers.
- **Scenario dialog** (`scenario_modal.dfy`, module `ScenarioModal`). The dialog
  keeps a text draft. The draft is prefilled from the scenario being edited, or
  from defaults. On submit it becomes a scenario: default names, the id kept or
  generated, and the mortgage duration rounded down and clamped at 0. The dialog
  also shows a capital preview. The class `Modal` holds the draft field.
- `types.dfy` (module `Types`) holds the settings record, the `Rent | Buy`
  scenario type and the result series.

Money and rates are `real`. The horizon `simulationYears` and the mortgage
duration are `nat`. The browser's `Number(text)` and `String(x)` are passed in as
the function parameters `parse` and `show`. Fresh scenario ids are passed in by
the caller.

A horizon of 0 years is accepted: `simulateScenario` returns the single year-0
value (src/utils/simulation.ts:10-22), and so does `Series` with `n == 0`.

## Model

| member | source | states |
|---|---|---|
| `Simulation.PercentToMultiplier` | src/utils/simulation.ts:3 | the factor of a percentage is positive iff the percentage exceeds -100, above 1 iff it is positive (growth), and exactly 1 iff it is 0 |
| `Simulation.Pow` | src/utils/simulation.ts:27 | `m^0 = 1`; a power of a non-negative (positive) base is non-negative (positive) |
| `Simulation.CalculateCapital` | src/utils/simulation.ts:5-6 | capital is never negative, is at least price minus mortgage, equals one of the two, and is 0 when the mortgage meets or exceeds the price |
| `Simulation.UpfrontCost` | src/utils/simulation.ts:14-18 | a rent pays nothing up front; a buy pays its capital times the liquidation factor, never negative when the liquidation rate is at least -100%, and nothing when the mortgage covers the price |
| `Simulation.Outflow` | src/utils/simulation.ts:25-34 | a buy pays nothing after its mortgage duration; in year 1 the mortgage payment and the rent are the unescalated monthly amount times 12 |
| `Simulation.YearEndCompounds` | src/utils/simulation.ts:37-43 | a year with zero net cash flow only multiplies the assets by the return factor; with a positive factor, the year ends above (below) the compounded previous assets exactly when income exceeds (falls short of) expenses plus housing outflow |
| `Simulation.Series` | src/utils/simulation.ts:12-44 | the series for n years has n+1 values, starts at initial assets minus the upfront cost, and each year's value is the previous one less the outflow and expenses, plus income, times the return factor |
| `Simulation.RecurrenceDeterminesSeries` | src/utils/simulation.ts:20-44 | any sequence with that length, start and yearly recurrence is the specified series |
| `Simulation.SimulateScenario` | src/utils/simulation.ts:8-47 | the array-filling loop returns simulationYears+1 values; values[0] is initial assets minus capital × (1 + liquidationRate/100) for a buy and initial assets for a rent; each later value follows the yearly recurrence; the result equals the specified projection |
| `Simulation.SimulateAllScenarios` | src/utils/simulation.ts:49-52 | one series per input scenario, in input order, each carrying the scenario's id and its projection |
| `Simulation.EscalationCompounds` | src/utils/simulation.ts:25-34 | each year's rent, or mortgage payment while the mortgage runs, is the previous year's times the increase factor |
| `Simulation.IdleRentIsFlat` | src/utils/simulation.ts:32-44 | with zero rent, income, expenses and return, a rent series stays at the initial assets in every year |
| `Simulation.GrowthStep` | src/utils/simulation.ts:37-43 | a year without housing outflow, income or expenses multiplies the previous assets by the return factor |
| `Simulation.PureGrowth` | src/utils/simulation.ts:37-43 | with no housing outflow, income or expenses, each value is the previous one times the return factor, so year y is year 0 times the factor to the power y |
| `Simulation.PaymentGap` | src/utils/simulation.ts:25-43 | against the same purchase with zero payments, both start equal; the gap compounds by the return and grows by each payment while the mortgage runs; after the duration only the return acts on it |
| `Simulation.ZeroDurationPaysNothing` | src/utils/simulation.ts:26 | a mortgage duration of 0 makes the series equal to the zero-payment control run |
| `Simulation.PaymentsNeverHelp` | src/utils/simulation.ts:25-43 | with non-negative payments and growth factors, a buy series never exceeds its zero-payment control run |
| `Simulation.WorkedExample` | src/utils/simulation.ts:12-44 | 2,000,000 of assets, a 1,000,000 house, a 500,000 mortgage at 2,500 a month, 20% liquidation and a 7% return give [1,400,000, 1,465,900] over one year |
| `App.DefaultScenarios` | src/App.tsx:35-61 | the first-visit list has three scenarios (one rent, two buys), within the cap, and the buys use the default mortgage increase rate |
| `App.DistinctColoursWithinCap` | src/App.tsx:12-14 | with at most five scenarios (the cap) and seven palette colours, scenarios at different positions get different colours |
| `App.DefaultSettingsValues` | src/App.tsx:16-26 | the default settings are 2,000,000 of assets, a 1,000,000 house, 20% liquidation, a 7% return over 40 years, a 3% mortgage increase, no extra expenses or income, and the shekel sign |
| `App.FindIndex` | src/App.tsx:125 | returns the first index holding the id, or -1 exactly when no scenario has it |
| `App.Submitted` | src/App.tsx:122-141 | a known id replaces the first entry with that id and leaves the length and every other entry unchanged; a new id is appended under the cap and ignored at the cap; a list within the cap stays within it; unique ids stay unique |
| `App.Copy` | src/App.tsx:150-154 | the copy has the fresh id and the name plus " (copy)", and every other field equal to the original's |
| `App.Duplicated` | src/App.tsx:143-160 | at the cap nothing changes; otherwise the copy is appended and the existing entries are untouched; the cap holds; unique ids stay unique when the fresh id is new |
| `App.Deleted` | src/App.tsx:162-164 | the result holds exactly the scenarios whose id differs, is no longer than the input, and deleting an absent id changes nothing |
| `App.DeletedKeepsOrder` | src/App.tsx:163 | deleting distributes over concatenation, so the survivors keep their relative order |
| `App.DeletedKeepsUniqueIds` | src/App.tsx:163 | deleting from a list with unique ids leaves unique ids |
| `App.Cell` | src/App.tsx:181 | a table cell holds the series value of that year when the series has one, and 0 (the `?? 0` default) otherwise |
| `App.RowValues` | src/App.tsx:179-183 | a row has exactly one key per series id |
| `App.CellOfSeries` | src/App.tsx:181 | a series whose id is not reused later shows its value for the year, or 0 when the series has no such year |
| `App.BuildRow` | src/App.tsx:178-184 | the loop over the series fills exactly the specified row for that year |
| `App.TableRows` | src/App.tsx:176-185 | the table has simulationYears+1 rows and row i is year i with the cells above |
| `App.TableShowsProjection` | src/App.tsx:174-185 | for series produced by the engine, a scenario whose id no later entry reuses has a cell in row y, and it holds its projected value for year y |
| `App.Colours` | src/App.tsx:187-194 | the colour map has one key per scenario id and every colour comes from the palette |
| `App.ColourOfIndex` | src/App.tsx:189-192 | the scenario at index i gets palette entry i mod 7 unless a later scenario reuses its id |
| `App.ScenarioColors` | src/App.tsx:187-194 | the loop that fills the colour map yields exactly the specified map |
| `App.AppState.constructor` | src/App.tsx:85-86 | the state starts from the saved settings and scenarios when given, else from the default settings and the default scenarios |
| `App.AppState.HandleScenarioSubmit` | src/App.tsx:122-141 | the list becomes the submit reducer's result and the settings do not change |
| `App.AppState.HandleDuplicate` | src/App.tsx:143-160 | the list becomes the duplicate reducer's result and the settings do not change |
| `App.AppState.HandleDelete` | src/App.tsx:162-164 | the list becomes the delete reducer's result and the settings do not change |
| `App.AppState.HandleReset` | src/App.tsx:166-168 | the settings become the defaults and the scenario list becomes empty |
| `ScenarioModal.ToNumber` | src/components/ScenarioModal.tsx:39 | an empty input or a lone minus sign reads as 0; any other input is its value under the number parser |
| `ScenarioModal.ToNumberReadsBack` | src/components/ScenarioModal.tsx:39 | a printed number that the parser reads back, and that is neither empty nor a lone minus, reads back as itself |
| `ScenarioModal.DefaultDraftSubmits` | src/components/ScenarioModal.tsx:28-37 | submitting the untouched default draft gives a rent of 0 growing by 3% named "Renting Scenario"; switched to buying, it gives no mortgage, no payment, a 3% increase and 25 years, named "Buying Scenario"; both take the generated id |
| `ScenarioModal.Prefill` | src/components/ScenarioModal.tsx:44-82 | editing copies id, name and type; a buy prints its mortgage amount, payment, increase rate and duration into the mortgage inputs and resets the rent inputs to "0"/"3"; a rent prints its rent and increase rate, resets the mortgage inputs, takes the increase rate from the settings and sets the duration to "25"; a new scenario gets the default draft with the settings' increase rate |
| `ScenarioModal.ClampDuration` | src/components/ScenarioModal.tsx:117 | the submitted duration is 0 for negative input and otherwise the largest whole number not above the input |
| `ScenarioModal.BuildScenario` | src/components/ScenarioModal.tsx:106-128 | the variant is the draft's type; the draft's id is kept and the generated id is used only without one; an empty name becomes "Buying Scenario" or "Renting Scenario"; each field is its input read as a number, with the duration clamped |
| `ScenarioModal.SubmitIgnoresOtherVariant` | src/components/ScenarioModal.tsx:109-128 | a rent submission does not depend on the mortgage inputs, nor a buy submission on the rent inputs |
| `ScenarioModal.SubmitAfterPrefill` | src/components/ScenarioModal.tsx:44-128 | opening a named scenario and submitting it unchanged returns the same scenario, whenever the parser reads back each amount the dialog printed |
| `ScenarioModal.CapitalPreview` | src/components/ScenarioModal.tsx:84-100 | the preview is 0 for a rent draft and the capital of the parsed mortgage amount for a buy draft |
| `ScenarioModal.PreviewIsUpfrontCapital` | src/components/ScenarioModal.tsx:84-128 | the preview times the liquidation factor is exactly the upfront cost the engine deducts for the submitted scenario |
| `ScenarioModal.Modal.constructor` | src/components/ScenarioModal.tsx:42 | the dialog starts with the default draft |
| `ScenarioModal.Modal.SyncDraft` | src/components/ScenarioModal.tsx:44-82 | an open dialog's draft becomes the prefill; a closed dialog's draft is unchanged |
| `ScenarioModal.Modal.SetName` | src/components/ScenarioModal.tsx:146 | typing a name changes only the name |
| `ScenarioModal.Modal.SetType` | src/components/ScenarioModal.tsx:153-157 | choosing a type changes only the type |
| `ScenarioModal.Modal.SetField` | src/components/ScenarioModal.tsx:173-222 | typing into a numeric input changes only that input's text |
| `ScenarioModal.Modal.Submit` | src/components/ScenarioModal.tsx:106-128 | the submitted scenario is the one built from the current draft |

## Left out

- Persistence: loading and saving `{settings, scenarios}` in local storage, with JSON encoding, is I/O. The saved state is a constructor argument of `AppState`. Clearing the storage on reset is not modelled.
- `createId` and `generateId` draw on random UUIDs, the clock and `Math.random`. Every fresh id is a parameter supplied by the caller.
- `handleSettingsChange` replaces one field of the settings from the settings panel. It is a field-by-name record update driven by the UI and is not modelled.
- Opening and closing the dialog (`openModal`, `closeModal`, `isModalOpen`, `modalScenario`), memoisation, rendering, the chart and table components, and `format.ts` are presentation.
- `Modal.Submit` returns the scenario instead of calling `onSubmit` and `onClose`.
- `SimulateScenario` returns the array's contents as a sequence. The array is not used after it is returned.
- Floating point is not modelled: rounding, NaN and Infinity, and `new Array` failing on a negative or fractional length. Money is `real`. The horizon and the mortgage duration are `nat`, so fractional or negative settings are outside the model.
- `Number(text)` and `String(x)` are the parameters `parse` and `show`. The round-trip lemmas assume, for each printed amount only, that `parse` reads back what `show` printed and that the text is neither empty nor a lone minus sign. `Number` returning NaN for malformed text is not modelled.
- `CapitalPreview`: the source builds a throwaway buy scenario whose duration is the parsed, unclamped number. The model stores the clamped duration there. The capital never reads the duration.
- The commented-out upfront-cost formula at src/utils/simulation.ts:15 is not live code.
