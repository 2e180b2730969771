/** The yearly asset-projection engine: starting from the initial assets, a
    buy scenario pays its upfront capital cost, then every year the rent or
    mortgage outflow and the expenses are paid, the income is added and the
    balance compounds by the investment return. */
module Simulation {
  import opened Types

  /** A percentage (20 means 20%) as a growth factor. */
  function PercentToMultiplier(percent: real): (m: real)
    ensures m > 0.0 <==> percent > -100.0
    ensures m > 1.0 <==> percent > 0.0
    ensures m == 1.0 <==> percent == 0.0
  {
    1.0 + percent / 100.0
  }

  /** `m` raised to a natural power, as `Math.pow(m, n)` is used by the engine. */
  function Pow(m: real, n: nat): (r: real)
    ensures n == 0 ==> r == 1.0
    ensures m >= 0.0 ==> r >= 0.0
    ensures m > 0.0 ==> r > 0.0
  {
    if n == 0 then 1.0 else m * Pow(m, n - 1)
  }

  /** The buyer's own cash contribution: the part of the house price the
      mortgage does not cover, never negative. */
  function CalculateCapital(settings: GlobalSettings, scenario: Scenario): (capital: real)
    requires scenario.Buy?
    ensures capital >= 0.0 && capital >= settings.housePrice - scenario.mortgageAmount
    ensures capital == 0.0 || capital == settings.housePrice - scenario.mortgageAmount
    ensures scenario.mortgageAmount >= settings.housePrice ==> capital == 0.0
  {
    if settings.housePrice - scenario.mortgageAmount > 0.0
    then settings.housePrice - scenario.mortgageAmount
    else 0.0
  }

  /** The one-time deduction made before year 0: none for renting, the
      capital plus the liquidation surcharge for buying. */
  function UpfrontCost(settings: GlobalSettings, scenario: Scenario): (cost: real)
    ensures scenario.Rent? ==> cost == 0.0
    ensures scenario.Buy? ==>
      cost == CalculateCapital(settings, scenario) * PercentToMultiplier(settings.liquidationRate)
    ensures scenario.Buy? && settings.liquidationRate >= -100.0 ==> cost >= 0.0
    ensures scenario.Buy? && scenario.mortgageAmount >= settings.housePrice ==> cost == 0.0
  {
    if scenario.Buy?
    then CalculateCapital(settings, scenario) * PercentToMultiplier(settings.liquidationRate)
    else 0.0
  }

  /** What the scenario pays for housing in year `year` (1-based): the rent
      escalated `year - 1` times, or the mortgage payment escalated likewise
      while the mortgage runs and nothing after it. */
  function Outflow(scenario: Scenario, year: nat): (out: real)
    requires year >= 1
    ensures scenario.Buy? && year > scenario.mortgageDuration ==> out == 0.0
    ensures scenario.Buy? && year == 1 <= scenario.mortgageDuration ==> out == scenario.initialMonthlyMortgage * 12.0
    ensures scenario.Rent? && year == 1 ==> out == scenario.monthlyRent * 12.0
  {
    match scenario
    case Buy(_, _, _, initialMonthlyMortgage, mortgageIncreaseRate, mortgageDuration) =>
      if year <= mortgageDuration
      then initialMonthlyMortgage * 12.0 * Pow(PercentToMultiplier(mortgageIncreaseRate), year - 1)
      else 0.0
    case Rent(_, _, monthlyRent, rentIncreaseRate) =>
      monthlyRent * 12.0 * Pow(PercentToMultiplier(rentIncreaseRate), year - 1)
  }

  /** The assets at the end of year `year`, given those at the end of the year before. */
  function YearEnd(settings: GlobalSettings, scenario: Scenario, year: nat, previous: real): real
    requires year >= 1
  {
    (previous - Outflow(scenario, year) - settings.additionalMonthlyExpenses * 12.0
      + settings.monthlyIncome * 12.0) * PercentToMultiplier(settings.investmentReturnRate)
  }

  /** A year compounds the previous assets by the return, and the year's net
      cash flow (income less expenses and housing outflow) moves the result
      up or down by its sign when the return factor is positive. */
  lemma YearEndCompounds(settings: GlobalSettings, scenario: Scenario, year: nat, previous: real)
    requires year >= 1
    ensures var m, net := PercentToMultiplier(settings.investmentReturnRate),
                         settings.monthlyIncome * 12.0 - settings.additionalMonthlyExpenses * 12.0 - Outflow(scenario, year);
      var assets := YearEnd(settings, scenario, year, previous);
      && (net == 0.0 ==> assets == previous * m)
      && (m > 0.0 ==> (assets > previous * m <==> net > 0.0))
      && (m > 0.0 ==> (assets < previous * m <==> net < 0.0))
  {
    var m, net := PercentToMultiplier(settings.investmentReturnRate),
                  settings.monthlyIncome * 12.0 - settings.additionalMonthlyExpenses * 12.0 - Outflow(scenario, year);
    assert YearEnd(settings, scenario, year, previous) == previous * m + net * m;
  }

  /** The assets at the end of years 0..n. */
  function Series(settings: GlobalSettings, scenario: Scenario, n: nat): (values: seq<real>)
    ensures |values| == n + 1
    ensures values[0] == settings.initialAssets - UpfrontCost(settings, scenario)
    ensures forall y :: 1 <= y <= n ==> values[y] == YearEnd(settings, scenario, y, values[y - 1])
  {
    if n == 0 then [settings.initialAssets - UpfrontCost(settings, scenario)]
    else
      var previous := Series(settings, scenario, n - 1);
      previous + [YearEnd(settings, scenario, n, previous[n - 1])]
  }

  /** The series the engine produces: one value per year 0..simulationYears. */
  function Projection(settings: GlobalSettings, scenario: Scenario): seq<real>
  {
    Series(settings, scenario, settings.simulationYears)
  }

  /** A sequence that starts where the engine starts and follows the yearly
      recurrence is the engine's series. */
  lemma {:induction false} RecurrenceDeterminesSeries(settings: GlobalSettings, scenario: Scenario, n: nat, values: seq<real>)
    requires |values| == n + 1
    requires values[0] == settings.initialAssets - UpfrontCost(settings, scenario)
    requires forall y :: 1 <= y <= n ==> values[y] == YearEnd(settings, scenario, y, values[y - 1])
    ensures values == Series(settings, scenario, n)
  {
    if n > 0 {
      RecurrenceDeterminesSeries(settings, scenario, n - 1, values[..n]);
      assert values == values[..n] + [values[n]];
    }
  }

  /** The engine: fills a fresh array year by year from a running balance. */
  method SimulateScenario(settings: GlobalSettings, scenario: Scenario) returns (result: seq<real>)
    ensures |result| == settings.simulationYears + 1
    ensures result[0] == settings.initialAssets - UpfrontCost(settings, scenario)
    ensures forall y :: 1 <= y < |result| ==> result[y] == YearEnd(settings, scenario, y, result[y - 1])
    ensures result == Projection(settings, scenario)
  {
    var years := settings.simulationYears;
    var values := new real[years + 1](_ => 0.0);
    var assets := settings.initialAssets;
    if scenario.Buy? {
      var upfrontCost := CalculateCapital(settings, scenario) * PercentToMultiplier(settings.liquidationRate);
      assets := assets - upfrontCost;
    }
    values[0] := assets;
    for year := 1 to years + 1
      invariant values[0] == settings.initialAssets - UpfrontCost(settings, scenario)
      invariant assets == values[year - 1]
      invariant forall y :: 1 <= y < year ==> values[y] == YearEnd(settings, scenario, y, values[y - 1])
    {
      var annualOutflow := 0.0;
      if scenario.Buy? {
        if year <= scenario.mortgageDuration {
          var paymentGrowth := Pow(PercentToMultiplier(scenario.mortgageIncreaseRate), year - 1);
          var yearlyPayment := scenario.initialMonthlyMortgage * 12.0 * paymentGrowth;
          annualOutflow := annualOutflow + yearlyPayment;
        }
      } else {
        var rentGrowth := Pow(PercentToMultiplier(scenario.rentIncreaseRate), year - 1);
        var yearlyRent := scenario.monthlyRent * 12.0 * rentGrowth;
        annualOutflow := annualOutflow + yearlyRent;
      }
      var annualIncome := settings.monthlyIncome * 12.0;
      var annualAdditionalExpenses := settings.additionalMonthlyExpenses * 12.0;
      assets := assets - annualOutflow - annualAdditionalExpenses + annualIncome;
      assets := assets * PercentToMultiplier(settings.investmentReturnRate);
      assert annualOutflow == Outflow(scenario, year);
      assert assets == YearEnd(settings, scenario, year, values[year - 1]);
      values[year] := assets;
    }
    result := values[..];
    RecurrenceDeterminesSeries(settings, scenario, years, result);
  }

  /** The series of every scenario, in input order. */
  function AllSeries(settings: GlobalSettings, scenarios: seq<Scenario>): seq<SimulationSeries>
  {
    seq(|scenarios|, i requires 0 <= i < |scenarios| =>
      SimulationSeries(scenarios[i].id, Projection(settings, scenarios[i])))
  }

  /** Runs the engine over the scenario list, one series per scenario, in order. */
  method SimulateAllScenarios(settings: GlobalSettings, scenarios: seq<Scenario>) returns (all: seq<SimulationSeries>)
    ensures |all| == |scenarios|
    ensures forall i :: 0 <= i < |all| ==>
      all[i].scenarioId == scenarios[i].id && all[i].values == Projection(settings, scenarios[i])
    ensures all == AllSeries(settings, scenarios)
  {
    all := [];
    for i := 0 to |scenarios|
      invariant |all| == i
      invariant forall k :: 0 <= k < i ==>
        all[k].scenarioId == scenarios[k].id && all[k].values == Projection(settings, scenarios[k])
    {
      var values := SimulateScenario(settings, scenarios[i]);
      all := all + [SimulationSeries(scenarios[i].id, values)];
    }
  }

  // ---------------------------------------------------------------------
  // Properties of the projection
  // ---------------------------------------------------------------------

  /** Rent and mortgage payments escalate by their increase rate once a year. */
  lemma EscalationCompounds(scenario: Scenario, year: nat)
    requires year >= 1
    requires scenario.Buy? ==> year + 1 <= scenario.mortgageDuration
    ensures scenario.Rent? ==>
      Outflow(scenario, year + 1) == Outflow(scenario, year) * PercentToMultiplier(scenario.rentIncreaseRate)
    ensures scenario.Buy? ==>
      Outflow(scenario, year + 1) == Outflow(scenario, year) * PercentToMultiplier(scenario.mortgageIncreaseRate)
  {
  }

  /** With no rent, no income or expenses and no return, a rent scenario's
      assets never move from the initial assets. */
  lemma {:induction false} IdleRentIsFlat(settings: GlobalSettings, scenario: Scenario, year: nat)
    requires scenario.Rent? && scenario.monthlyRent == 0.0
    requires settings.monthlyIncome == 0.0 && settings.additionalMonthlyExpenses == 0.0
    requires settings.investmentReturnRate == 0.0
    requires year <= settings.simulationYears
    ensures Projection(settings, scenario)[year] == settings.initialAssets
  {
    if year > 0 {
      IdleRentIsFlat(settings, scenario, year - 1);
    }
  }

  /** The scenario pays nothing for housing in any year. */
  predicate PaysNothing(scenario: Scenario)
  {
    match scenario
    case Rent(_, _, monthlyRent, _) => monthlyRent == 0.0
    case Buy(_, _, _, initialMonthlyMortgage, _, mortgageDuration) =>
      initialMonthlyMortgage == 0.0 || mortgageDuration == 0
  }

  /** One year without outflow, income or expenses only applies the return. */
  lemma GrowthStep(settings: GlobalSettings, scenario: Scenario, year: nat)
    requires PaysNothing(scenario)
    requires settings.monthlyIncome == 0.0 && settings.additionalMonthlyExpenses == 0.0
    requires 1 <= year <= settings.simulationYears
    ensures Projection(settings, scenario)[year]
         == Projection(settings, scenario)[year - 1] * PercentToMultiplier(settings.investmentReturnRate)
  {
    assert Outflow(scenario, year) == 0.0;
  }

  /** One more factor `m` on a value that is `v0` scaled by `power`. */
  lemma ScaleStep(v0: real, previous: real, current: real, power: real, m: real)
    requires previous == v0 * power && current == previous * m
    ensures current == v0 * (m * power)
  {
  }

  /** Without outflows, income or expenses, each year multiplies the assets by
      the return multiplier, so year y holds the year-0 assets times m^y. */
  lemma {:induction false} PureGrowth(settings: GlobalSettings, scenario: Scenario, year: nat)
    requires PaysNothing(scenario)
    requires settings.monthlyIncome == 0.0 && settings.additionalMonthlyExpenses == 0.0
    requires year <= settings.simulationYears
    ensures var values, m := Projection(settings, scenario), PercentToMultiplier(settings.investmentReturnRate);
      && values[year] == values[0] * Pow(m, year)
      && (year >= 1 ==> values[year] == values[year - 1] * m)
  {
    var values, m := Projection(settings, scenario), PercentToMultiplier(settings.investmentReturnRate);
    if year > 0 {
      PureGrowth(settings, scenario, year - 1);
      GrowthStep(settings, scenario, year);
      ScaleStep(values[0], values[year - 1], values[year], Pow(m, year - 1), m);
    }
  }

  /** The same buy scenario with its mortgage payments set to zero: the
      control run against which the payments are measured. */
  function NoPayments(scenario: Scenario): (control: Scenario)
    requires scenario.Buy?
    ensures control.Buy? && PaysNothing(control)
  {
    scenario.(initialMonthlyMortgage := 0.0)
  }

  /** The gap between a buy scenario and its zero-payment control grows by
      the return each year and, while the mortgage runs, by that year's
      payment; after the last mortgage year only the return acts on it. */
  lemma PaymentGap(settings: GlobalSettings, scenario: Scenario, year: nat)
    requires scenario.Buy?
    requires 1 <= year <= settings.simulationYears
    ensures var values, control, m := Projection(settings, scenario), Projection(settings, NoPayments(scenario)),
                                      PercentToMultiplier(settings.investmentReturnRate);
      && values[0] == control[0]
      && values[year] - control[year] == (values[year - 1] - control[year - 1] - Outflow(scenario, year)) * m
      && (year > scenario.mortgageDuration ==> values[year] - control[year] == (values[year - 1] - control[year - 1]) * m)
  {
  }

  /** A zero-year mortgage is never paid: the series equals the control run. */
  lemma {:induction false} ZeroDurationPaysNothing(settings: GlobalSettings, scenario: Scenario, year: nat)
    requires scenario.Buy? && scenario.mortgageDuration == 0
    requires year <= settings.simulationYears
    ensures Projection(settings, scenario)[year] == Projection(settings, NoPayments(scenario))[year]
  {
    if year > 0 {
      ZeroDurationPaysNothing(settings, scenario, year - 1);
      PaymentGap(settings, scenario, year);
    }
  }

  /** Non-negative mortgage payments with non-negative growth factors never
      leave a buyer richer than the same purchase without payments. */
  lemma {:induction false} PaymentsNeverHelp(settings: GlobalSettings, scenario: Scenario, year: nat)
    requires scenario.Buy? && scenario.initialMonthlyMortgage >= 0.0
    requires scenario.mortgageIncreaseRate >= -100.0 && settings.investmentReturnRate >= -100.0
    requires year <= settings.simulationYears
    ensures Projection(settings, scenario)[year] <= Projection(settings, NoPayments(scenario))[year]
  {
    if year > 0 {
      PaymentsNeverHelp(settings, scenario, year - 1);
      PaymentGap(settings, scenario, year);
      var values, control, m := Projection(settings, scenario), Projection(settings, NoPayments(scenario)),
                                PercentToMultiplier(settings.investmentReturnRate);
      var payment := Outflow(scenario, year);
      if year <= scenario.mortgageDuration {
        var g := Pow(PercentToMultiplier(scenario.mortgageIncreaseRate), year - 1);
        assert g >= 0.0;
        assert payment == scenario.initialMonthlyMortgage * 12.0 * g;
        assert payment >= 0.0;
      }
      var gap := values[year - 1] - control[year - 1] - payment;
      assert gap <= 0.0 && m >= 0.0;
      assert gap * m <= 0.0;
    }
  }

  /** The one-year example: 2,000,000 of assets, a 1,000,000 house bought
      with a 500,000 mortgage at 2,500 a month, 20% liquidation cost and a
      7% return give 1,400,000 at year 0 and 1,465,900 after one year. */
  lemma WorkedExample()
    ensures Projection(
      GlobalSettings(2000000.0, 1000000.0, 20.0, 7.0, 1, 3.0, 0.0, 0.0, "$"),
      Buy("b", "Buy", 500000.0, 2500.0, 3.0, 25)) == [1400000.0, 1465900.0]
  {
  }
}
