/** The shared data model of the buy-vs-rent calculator: global assumptions,
    the two scenario variants and the per-scenario result series. */
module Types {

  datatype Option<+T> = None | Some(value: T) {
    function GetOr(default: T): T {
      match this
      case Some(v) => v
      case None => default
    }
  }

  /** The `type` discriminator of a scenario ('rent' | 'buy'). */
  datatype ScenarioType = RentType | BuyType

  /** Assumptions shared by every scenario. Money and percentages are reals;
      the horizon is a whole number of years. `defaultMortgageIncreaseRate`
      and `currencySymbol` are not read by the engine. */
  datatype GlobalSettings = GlobalSettings(
    initialAssets: real,
    housePrice: real,
    liquidationRate: real,
    investmentReturnRate: real,
    simulationYears: nat,
    defaultMortgageIncreaseRate: real,
    additionalMonthlyExpenses: real,
    monthlyIncome: real,
    currencySymbol: string)

  /** A scenario is either renting or buying; both carry an id and a name. */
  datatype Scenario =
    | Rent(id: string, name: string, monthlyRent: real, rentIncreaseRate: real)
    | Buy(id: string, name: string, mortgageAmount: real, initialMonthlyMortgage: real,
          mortgageIncreaseRate: real, mortgageDuration: nat)
  {
    function Kind(): (k: ScenarioType)
      ensures k == BuyType <==> Buy?
    {
      if Buy? then BuyType else RentType
    }
  }

  /** The projected total assets of one scenario, indexed by year 0..N. */
  datatype SimulationSeries = SimulationSeries(scenarioId: string, values: seq<real>)

  /** What the application keeps between sessions. */
  datatype SerializedState = SerializedState(settings: GlobalSettings, scenarios: seq<Scenario>)
}
