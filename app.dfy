/** The application state: the global settings and the scenario list, the
    reducers that edit the list (submit, duplicate, delete, reset) and the
    two views derived from it (the year-by-scenario table and the colours). */
module App {
  import opened Types
  import Simulation

  const MaxScenarios: nat := 5

  const ColorPalette: seq<string> :=
    ["#0b7285", "#1c7ed6", "#2b8a3e", "#e8590c", "#9c36b5", "#b5179e", "#577590"]

  const DefaultSettings: GlobalSettings :=
    GlobalSettings(2000000.0, 1000000.0, 20.0, 7.0, 40, 3.0, 0.0, 0.0, "\U{20AA}")

  /** Within the cap, scenarios at different positions get different colours. */
  lemma DistinctColoursWithinCap(i: nat, j: nat)
    requires i < j < MaxScenarios
    ensures ColorPalette[i % |ColorPalette|] != ColorPalette[j % |ColorPalette|]
  {
  }

  /** The settings a first visit and a reset start from: 2,000,000 of assets,
      a 1,000,000 house, 20% liquidation, a 7% return over 40 years, a 3%
      mortgage increase, no extra expenses or income, and the shekel sign. */
  lemma DefaultSettingsValues()
    ensures DefaultSettings.initialAssets == 2000000.0 && DefaultSettings.housePrice == 1000000.0
    ensures DefaultSettings.liquidationRate == 20.0 && DefaultSettings.investmentReturnRate == 7.0
    ensures DefaultSettings.simulationYears == 40 && DefaultSettings.defaultMortgageIncreaseRate == 3.0
    ensures DefaultSettings.additionalMonthlyExpenses == 0.0 && DefaultSettings.monthlyIncome == 0.0
    ensures DefaultSettings.currencySymbol == "\U{20AA}"
  {
  }

  /** The three scenarios a first visit starts with; the ids are fresh ids
      supplied by the caller. */
  function DefaultScenarios(rentId: string, halfId: string, threeQuarterId: string): (list: seq<Scenario>)
    ensures |list| == 3 <= MaxScenarios
    ensures list[0].Rent? && list[1].Buy? && list[2].Buy?
    ensures list[1].mortgageIncreaseRate == list[2].mortgageIncreaseRate == DefaultSettings.defaultMortgageIncreaseRate
  {
    [ Rent(rentId, "Renting", 3000.0, 3.0),
      Buy(halfId, "Buy: 50% Mortgage", 500000.0, 2500.0, DefaultSettings.defaultMortgageIncreaseRate, 25),
      Buy(threeQuarterId, "Buy: 75% Mortgage", 750000.0, 3000.0, DefaultSettings.defaultMortgageIncreaseRate, 25) ]
  }

  function Ids(list: seq<Scenario>): set<string>
  {
    set s | s in list :: s.id
  }

  /** No two scenarios of the list share an id. */
  predicate UniqueIds(list: seq<Scenario>)
  {
    forall i, j :: 0 <= i < j < |list| ==> list[i].id != list[j].id
  }

  /** The index of the first scenario with the given id, or -1. */
  function FindIndex(list: seq<Scenario>, id: string): (index: int)
    ensures -1 <= index < |list|
    ensures index >= 0 ==> list[index].id == id && forall k :: 0 <= k < index ==> list[k].id != id
    ensures index < 0 <==> id !in Ids(list)
  {
    if list == [] then -1
    else if list[0].id == id then 0
    else
      var rest := FindIndex(list[1..], id);
      assert forall s :: s in list ==> s == list[0] || s in list[1..];
      if rest < 0 then -1 else rest + 1
  }

  /** Submitting a scenario from the dialog: a known id replaces the first
      entry with that id; a new id is appended unless the list is full. */
  function Submitted(prev: seq<Scenario>, scenario: Scenario): (next: seq<Scenario>)
    ensures scenario.id in Ids(prev) ==>
      var i := FindIndex(prev, scenario.id);
      && |next| == |prev| && next[i] == scenario
      && forall k :: 0 <= k < |prev| && k != i ==> next[k] == prev[k]
    ensures scenario.id !in Ids(prev) && |prev| < MaxScenarios ==> next == prev + [scenario]
    ensures scenario.id !in Ids(prev) && |prev| >= MaxScenarios ==> next == prev
    ensures |prev| <= MaxScenarios ==> |next| <= MaxScenarios
    ensures UniqueIds(prev) ==> UniqueIds(next)
  {
    var existingIndex := FindIndex(prev, scenario.id);
    if existingIndex >= 0 then prev[existingIndex := scenario]
    else if |prev| >= MaxScenarios then prev
    else prev + [scenario]
  }

  /** The copy made by the duplicate button: every term kept, a fresh id and
      the name suffixed with " (copy)". */
  function Copy(scenario: Scenario, freshId: string): (copy: Scenario)
    ensures copy.id == freshId && copy.name == scenario.name + " (copy)"
    ensures copy.Kind() == scenario.Kind()
    ensures copy.(id := scenario.id, name := scenario.name) == scenario
  {
    scenario.(id := freshId, name := scenario.name + " (copy)")
  }

  /** Duplicating a scenario appends its copy unless the list is full. */
  function Duplicated(prev: seq<Scenario>, scenario: Scenario, freshId: string): (next: seq<Scenario>)
    ensures |prev| >= MaxScenarios ==> next == prev
    ensures |prev| < MaxScenarios ==>
      |next| == |prev| + 1 && next[..|prev|] == prev && next[|prev|] == Copy(scenario, freshId)
    ensures |prev| <= MaxScenarios ==> |next| <= MaxScenarios
    ensures UniqueIds(prev) && freshId !in Ids(prev) ==> UniqueIds(next)
  {
    if |prev| >= MaxScenarios then prev
    else prev + [Copy(scenario, freshId)]
  }

  /** Deleting keeps, in order, every scenario whose id differs. */
  function Deleted(prev: seq<Scenario>, id: string): (next: seq<Scenario>)
    ensures |next| <= |prev|
    ensures forall s :: s in next <==> s in prev && s.id != id
    ensures id !in Ids(prev) ==> next == prev
  {
    if prev == [] then []
    else
      var rest := Deleted(prev[1..], id);
      assert forall s :: s in prev <==> s == prev[0] || s in prev[1..];
      if prev[0].id == id then rest else [prev[0]] + rest
  }

  /** Deleting distributes over concatenation, so the survivors keep their
      relative order. */
  lemma {:induction false} DeletedKeepsOrder(front: seq<Scenario>, back: seq<Scenario>, id: string)
    ensures Deleted(front + back, id) == Deleted(front, id) + Deleted(back, id)
  {
    if front == [] {
      assert front + back == back;
    } else {
      var whole := front + back;
      assert whole[0] == front[0] && whole[1..] == front[1..] + back;
      DeletedKeepsOrder(front[1..], back, id);
      var rest, tail := Deleted(front[1..], id), Deleted(back, id);
      if front[0].id != id {
        calc {
          Deleted(whole, id);
          [front[0]] + Deleted(front[1..] + back, id);
          [front[0]] + (rest + tail);
          ([front[0]] + rest) + tail;
          Deleted(front, id) + tail;
        }
      }
    }
  }

  /** A list has unique ids exactly when its head's id is not in its tail
      and its tail has unique ids. */
  lemma UniqueIdsCons(list: seq<Scenario>)
    requires list != []
    ensures UniqueIds(list) <==> list[0].id !in Ids(list[1..]) && UniqueIds(list[1..])
  {
  }

  /** Deleting never introduces two scenarios with one id. */
  lemma {:induction false} DeletedKeepsUniqueIds(prev: seq<Scenario>, id: string)
    requires UniqueIds(prev)
    ensures UniqueIds(Deleted(prev, id))
  {
    if prev != [] {
      var tail := prev[1..];
      UniqueIdsCons(prev);
      DeletedKeepsUniqueIds(tail, id);
      var rest := Deleted(tail, id);
      if prev[0].id != id {
        var next := [prev[0]] + rest;
        assert next[1..] == rest;
        assert Ids(rest) <= Ids(tail);
        UniqueIdsCons(next);
      }
    }
  }

  /** A table cell: the series' value for that year, or 0 when it has none. */
  function Cell(values: seq<real>, year: nat): (cell: real)
    ensures year < |values| ==> cell == values[year]
    ensures year >= |values| ==> cell == 0.0
  {
    if year < |values| then values[year] else 0.0
  }

  /** One row of the results table: the year and, per scenario id, its value. */
  datatype TableRow = TableRow(year: nat, values: map<string, real>)

  /** The row of a year, filled scenario by scenario; a later series with the
      same id overwrites an earlier one. */
  function RowValues(series: seq<SimulationSeries>, year: nat): (row: map<string, real>)
    ensures row.Keys == set s | s in series :: s.scenarioId
  {
    if series == [] then map[]
    else
      var last := series[|series| - 1];
      var front := series[..|series| - 1];
      assert forall s :: s in series <==> s in front || s == last;
      RowValues(front, year)[last.scenarioId := Cell(last.values, year)]
  }

  /** A series whose id is not reused later shows its own value for the
      year, or 0 when it has none. */
  lemma {:induction false} CellOfSeries(series: seq<SimulationSeries>, year: nat, k: nat)
    requires k < |series|
    requires forall j :: k < j < |series| ==> series[j].scenarioId != series[k].scenarioId
    ensures series[k].scenarioId in RowValues(series, year)
    ensures RowValues(series, year)[series[k].scenarioId] == Cell(series[k].values, year)
  {
    var index := |series| - 1;
    if k < index {
      var front := series[..index];
      assert front[k] == series[k];
      CellOfSeries(front, year, k);
    }
  }

  /** One row: the year and each series' cell, filled series by series. */
  method BuildRow(series: seq<SimulationSeries>, year: nat) returns (row: TableRow)
    ensures row == TableRow(year, RowValues(series, year))
  {
    var values: map<string, real> := map[];
    for k := 0 to |series|
      invariant values == RowValues(series[..k], year)
    {
      assert series[..k + 1][..k] == series[..k];
      values := values[series[k].scenarioId := Cell(series[k].values, year)];
    }
    assert series[..|series|] == series;
    row := TableRow(year, values);
  }

  /** The table behind the results view: one row per year 0..years. */
  method TableRows(years: nat, series: seq<SimulationSeries>) returns (rows: seq<TableRow>)
    ensures |rows| == years + 1
    ensures forall year :: 0 <= year < |rows| ==> rows[year] == TableRow(year, RowValues(series, year))
  {
    rows := [];
    for year := 0 to years + 1
      invariant |rows| == year
      invariant forall k :: 0 <= k < year ==> rows[k] == TableRow(k, RowValues(series, k))
    {
      var row := BuildRow(series, year);
      rows := rows + [row];
    }
  }

  /** When the series come from the engine and a scenario's id is not reused
      later in the list, its cell in every row is its projected value (the
      0 default never shows). */
  lemma TableShowsProjection(settings: GlobalSettings, scenarios: seq<Scenario>, year: nat, k: nat)
    requires year <= settings.simulationYears && k < |scenarios|
    requires forall j :: k < j < |scenarios| ==> scenarios[j].id != scenarios[k].id
    ensures scenarios[k].id in RowValues(Simulation.AllSeries(settings, scenarios), year)
    ensures RowValues(Simulation.AllSeries(settings, scenarios), year)[scenarios[k].id]
         == Simulation.Projection(settings, scenarios[k])[year]
  {
    CellOfSeries(Simulation.AllSeries(settings, scenarios), year, k);
  }

  /** The colour of each scenario id: the palette entry at the scenario's
      index mod 7, a later scenario with the same id overwriting an earlier one. */
  function Colours(scenarios: seq<Scenario>): (colours: map<string, string>)
    ensures colours.Keys == Ids(scenarios)
    ensures forall id :: id in colours ==> colours[id] in ColorPalette
  {
    if scenarios == [] then map[]
    else
      var index := |scenarios| - 1;
      var front := scenarios[..index];
      assert forall s :: s in scenarios <==> s in front || s == scenarios[index];
      Colours(front)[scenarios[index].id := ColorPalette[index % |ColorPalette|]]
  }

  /** The scenario at index k is coloured by palette entry k mod 7, unless
      a later scenario reuses its id. */
  lemma {:induction false} ColourOfIndex(scenarios: seq<Scenario>, k: nat)
    requires k < |scenarios|
    requires forall j :: k < j < |scenarios| ==> scenarios[j].id != scenarios[k].id
    ensures scenarios[k].id in Colours(scenarios)
    ensures Colours(scenarios)[scenarios[k].id] == ColorPalette[k % |ColorPalette|]
  {
    var index := |scenarios| - 1;
    if k < index {
      var front := scenarios[..index];
      assert front[k] == scenarios[k];
      ColourOfIndex(front, k);
    }
  }

  /** The colour map handed to the chart, filled scenario by scenario. */
  method ScenarioColors(scenarios: seq<Scenario>) returns (colors: map<string, string>)
    ensures colors == Colours(scenarios)
  {
    colors := map[];
    for index := 0 to |scenarios|
      invariant colors == Colours(scenarios[..index])
    {
      assert scenarios[..index + 1][..index] == scenarios[..index];
      var color := ColorPalette[index % |ColorPalette|];
      colors := colors[scenarios[index].id := color];
    }
    assert scenarios[..|scenarios|] == scenarios;
  }

  /** The application's two pieces of state and the handlers that change them. */
  class AppState {
    var settings: GlobalSettings
    var scenarios: seq<Scenario>

    /** Starts from the saved state when there is one, else from the
        defaults; the ids of the default scenarios are supplied fresh. */
    constructor (persisted: Option<SerializedState>, rentId: string, halfId: string, threeQuarterId: string)
      ensures persisted.Some? ==> settings == persisted.value.settings && scenarios == persisted.value.scenarios
      ensures persisted.None? ==>
        settings == DefaultSettings && scenarios == DefaultScenarios(rentId, halfId, threeQuarterId)
    {
      match persisted
      case Some(state) =>
        settings := state.settings;
        scenarios := state.scenarios;
      case None =>
        settings := DefaultSettings;
        scenarios := DefaultScenarios(rentId, halfId, threeQuarterId);
    }

    method HandleScenarioSubmit(scenario: Scenario)
      modifies this
      ensures scenarios == Submitted(old(scenarios), scenario) && settings == old(settings)
    {
      scenarios := Submitted(scenarios, scenario);
    }

    method HandleDuplicate(scenario: Scenario, freshId: string)
      modifies this
      ensures scenarios == Duplicated(old(scenarios), scenario, freshId) && settings == old(settings)
    {
      scenarios := Duplicated(scenarios, scenario, freshId);
    }

    method HandleDelete(id: string)
      modifies this
      ensures scenarios == Deleted(old(scenarios), id) && settings == old(settings)
    {
      scenarios := Deleted(scenarios, id);
    }

    method HandleReset()
      modifies this
      ensures settings == DefaultSettings && scenarios == []
    {
      settings := DefaultSettings;
      scenarios := [];
    }
  }
}
