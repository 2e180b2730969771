/** The add/edit dialog: a draft of text fields, prefilled from the scenario
    being edited (or from defaults), edited field by field, and turned into a
    scenario on submit. The browser's number parsing (`Number(text)`) and
    number printing (`String(x)`) are the parameters `parse` and `show`. */
module ScenarioModal {
  import opened Types
  import Simulation

  /** The dialog's form state: every numeric input is kept as typed text. */
  datatype Draft = Draft(
    id: Option<string>,
    name: string,
    kind: ScenarioType,
    monthlyRent: string,
    rentIncreaseRate: string,
    mortgageAmount: string,
    initialMonthlyMortgage: string,
    mortgageIncreaseRate: string,
    mortgageDuration: string)

  const DefaultDraft: Draft := Draft(None, "", RentType, "0", "3", "0", "0", "3", "25")

  /** The numeric value of an input: an empty box or a lone minus sign reads
      as 0, anything else goes through `parse`. */
  function ToNumber(value: string, parse: string -> real): (n: real)
    ensures value == "" || value == "-" ==> n == 0.0
    ensures value != "" && value != "-" ==> n == parse(value)
  {
    if value == "" || value == "-" then 0.0 else parse(value)
  }

  /** `parse` reads back the number `show` prints for `x`, and that text is
      neither empty nor a lone minus sign. */
  ghost predicate ReadsBackAt(parse: string -> real, show: real -> string, x: real)
  {
    parse(show(x)) == x && show(x) != "" && show(x) != "-"
  }

  /** A printed number is not one of the two texts that read as 0, so it
      goes through `parse` and reads back as itself. */
  lemma ToNumberReadsBack(parse: string -> real, show: real -> string, x: real)
    requires ReadsBackAt(parse, show, x)
    ensures ToNumber(show(x), parse) == x
  {
  }

  /** The submitted default draft: a rent of 0 growing by 3%, or, with the
      type switched to buying, no mortgage, no payment, a 3% increase rate
      and 25 years, under the default names and the generated id. */
  lemma DefaultDraftSubmits(generatedId: string, parse: string -> real)
    requires parse("0") == 0.0 && parse("3") == 3.0 && parse("25") == 25.0
    ensures BuildScenario(DefaultDraft, generatedId, parse) == Rent(generatedId, "Renting Scenario", 0.0, 3.0)
    ensures BuildScenario(DefaultDraft.(kind := BuyType), generatedId, parse)
         == Buy(generatedId, "Buying Scenario", 0.0, 0.0, 3.0, 25)
  {
  }

  /** The draft the dialog opens with: the edited scenario's own fields
      (the other variant's inputs reset to their defaults), or the default
      draft with the mortgage increase rate taken from the settings. */
  function Prefill(scenario: Option<Scenario>, settings: GlobalSettings, show: real -> string): (draft: Draft)
    ensures scenario.None? ==>
      draft == DefaultDraft.(mortgageIncreaseRate := show(settings.defaultMortgageIncreaseRate))
    ensures scenario.Some? ==>
      draft.id == Some(scenario.value.id) && draft.name == scenario.value.name
      && draft.kind == scenario.value.Kind()
    ensures scenario.Some? && scenario.value.Buy? ==>
      && draft.monthlyRent == "0" && draft.rentIncreaseRate == "3"
      && draft.mortgageAmount == show(scenario.value.mortgageAmount)
      && draft.initialMonthlyMortgage == show(scenario.value.initialMonthlyMortgage)
      && draft.mortgageIncreaseRate == show(scenario.value.mortgageIncreaseRate)
      && draft.mortgageDuration == show(scenario.value.mortgageDuration as real)
    ensures scenario.Some? && scenario.value.Rent? ==>
      && draft.monthlyRent == show(scenario.value.monthlyRent)
      && draft.rentIncreaseRate == show(scenario.value.rentIncreaseRate)
      && draft.mortgageAmount == "0" && draft.initialMonthlyMortgage == "0"
      && draft.mortgageIncreaseRate == show(settings.defaultMortgageIncreaseRate)
      && draft.mortgageDuration == "25"
  {
    match scenario
    case Some(Buy(id, name, mortgageAmount, initialMonthlyMortgage, mortgageIncreaseRate, mortgageDuration)) =>
      Draft(Some(id), name, BuyType, "0", "3", show(mortgageAmount), show(initialMonthlyMortgage),
            show(mortgageIncreaseRate), show(mortgageDuration as real))
    case Some(Rent(id, name, monthlyRent, rentIncreaseRate)) =>
      Draft(Some(id), name, RentType, show(monthlyRent), show(rentIncreaseRate), "0", "0",
            show(settings.defaultMortgageIncreaseRate), "25")
    case None =>
      DefaultDraft.(rentIncreaseRate := "3", mortgageIncreaseRate := show(settings.defaultMortgageIncreaseRate))
  }

  /** A parsed duration as a whole, non-negative number of years: rounded
      down, and 0 when negative. */
  function ClampDuration(x: real): (years: nat)
    ensures x < 0.0 ==> years == 0
    ensures x >= 0.0 ==> years as real <= x < years as real + 1.0
  {
    if x.Floor < 0 then 0 else x.Floor
  }

  /** The scenario the dialog submits: the draft's id, or the generated one
      when the draft has none; a default name for an empty one; the fields
      of the draft's variant read as numbers. */
  function BuildScenario(draft: Draft, generatedId: string, parse: string -> real): (scenario: Scenario)
    ensures scenario.Kind() == draft.kind
    ensures draft.id.Some? ==> scenario.id == draft.id.value
    ensures draft.id.None? ==> scenario.id == generatedId
    ensures draft.name != "" ==> scenario.name == draft.name
    ensures draft.name == "" ==> scenario.name == if draft.kind == BuyType then "Buying Scenario" else "Renting Scenario"
    ensures scenario.Rent? ==>
      && scenario.monthlyRent == ToNumber(draft.monthlyRent, parse)
      && scenario.rentIncreaseRate == ToNumber(draft.rentIncreaseRate, parse)
    ensures scenario.Buy? ==>
      && scenario.mortgageAmount == ToNumber(draft.mortgageAmount, parse)
      && scenario.initialMonthlyMortgage == ToNumber(draft.initialMonthlyMortgage, parse)
      && scenario.mortgageIncreaseRate == ToNumber(draft.mortgageIncreaseRate, parse)
      && scenario.mortgageDuration == ClampDuration(ToNumber(draft.mortgageDuration, parse))
  {
    var id := draft.id.GetOr(generatedId);
    if draft.kind == BuyType then
      Buy(id, if draft.name == "" then "Buying Scenario" else draft.name,
          ToNumber(draft.mortgageAmount, parse),
          ToNumber(draft.initialMonthlyMortgage, parse),
          ToNumber(draft.mortgageIncreaseRate, parse),
          ClampDuration(ToNumber(draft.mortgageDuration, parse)))
    else
      Rent(id, if draft.name == "" then "Renting Scenario" else draft.name,
           ToNumber(draft.monthlyRent, parse),
           ToNumber(draft.rentIncreaseRate, parse))
  }

  /** A rent submission does not read the mortgage inputs, and a buy
      submission does not read the rent inputs. */
  lemma SubmitIgnoresOtherVariant(draft: Draft, generatedId: string, parse: string -> real, a: string, b: string, c: string, d: string)
    ensures draft.kind == RentType ==>
      BuildScenario(draft, generatedId, parse)
      == BuildScenario(draft.(mortgageAmount := a, initialMonthlyMortgage := b, mortgageIncreaseRate := c, mortgageDuration := d), generatedId, parse)
    ensures draft.kind == BuyType ==>
      BuildScenario(draft, generatedId, parse)
      == BuildScenario(draft.(monthlyRent := a, rentIncreaseRate := b), generatedId, parse)
  {
  }

  /** `parse` reads back each amount of the scenario that the dialog prints
      into its inputs. */
  ghost predicate ReadsBackFields(parse: string -> real, show: real -> string, scenario: Scenario)
  {
    match scenario
    case Rent(_, _, monthlyRent, rentIncreaseRate) =>
      ReadsBackAt(parse, show, monthlyRent) && ReadsBackAt(parse, show, rentIncreaseRate)
    case Buy(_, _, mortgageAmount, initialMonthlyMortgage, mortgageIncreaseRate, mortgageDuration) =>
      && ReadsBackAt(parse, show, mortgageAmount) && ReadsBackAt(parse, show, initialMonthlyMortgage)
      && ReadsBackAt(parse, show, mortgageIncreaseRate) && ReadsBackAt(parse, show, mortgageDuration as real)
  }

  /** Opening a scenario for editing and submitting it unchanged gives the
      same scenario back, when its name is not empty and its printed amounts
      read back. */
  lemma SubmitAfterPrefill(scenario: Scenario, settings: GlobalSettings, generatedId: string,
                           parse: string -> real, show: real -> string)
    requires ReadsBackFields(parse, show, scenario)
    requires scenario.name != ""
    ensures BuildScenario(Prefill(Some(scenario), settings, show), generatedId, parse) == scenario
  {
  }

  /** The capital shown in the dialog: 0 unless the draft is a purchase,
      else the capital of the purchase the draft describes. */
  function CapitalPreview(draft: Draft, settings: GlobalSettings, parse: string -> real): (capital: real)
    ensures draft.kind != BuyType ==> capital == 0.0
    ensures draft.kind == BuyType ==>
      && capital >= 0.0 && capital >= settings.housePrice - ToNumber(draft.mortgageAmount, parse)
      && (capital == 0.0 || capital == settings.housePrice - ToNumber(draft.mortgageAmount, parse))
  {
    if draft.kind != BuyType then 0.0
    else
      Simulation.CalculateCapital(settings,
        Buy(draft.id.GetOr(""), draft.name,
            ToNumber(draft.mortgageAmount, parse),
            ToNumber(draft.initialMonthlyMortgage, parse),
            ToNumber(draft.mortgageIncreaseRate, parse),
            ClampDuration(ToNumber(draft.mortgageDuration, parse))))
  }

  /** The previewed capital, with the liquidation surcharge, is exactly the
      upfront cost the engine deducts for the submitted scenario. */
  lemma PreviewIsUpfrontCapital(draft: Draft, settings: GlobalSettings, generatedId: string, parse: string -> real)
    ensures Simulation.UpfrontCost(settings, BuildScenario(draft, generatedId, parse))
         == CapitalPreview(draft, settings, parse) * Simulation.PercentToMultiplier(settings.liquidationRate)
  {
  }

  /** The numeric inputs of the dialog. */
  datatype DraftField =
    | MonthlyRentField | RentIncreaseRateField | MortgageAmountField
    | InitialMonthlyMortgageField | MortgageIncreaseRateField | MortgageDurationField

  /** The draft after typing `text` into one numeric input. */
  function WithField(draft: Draft, field: DraftField, text: string): Draft
  {
    match field
    case MonthlyRentField => draft.(monthlyRent := text)
    case RentIncreaseRateField => draft.(rentIncreaseRate := text)
    case MortgageAmountField => draft.(mortgageAmount := text)
    case InitialMonthlyMortgageField => draft.(initialMonthlyMortgage := text)
    case MortgageIncreaseRateField => draft.(mortgageIncreaseRate := text)
    case MortgageDurationField => draft.(mortgageDuration := text)
  }

  /** The dialog's state: the draft, overwritten when the dialog opens and
      by every input. */
  class Modal {
    var draft: Draft

    constructor ()
      ensures draft == DefaultDraft
    {
      draft := DefaultDraft;
    }

    /** Runs when the dialog opens, or its scenario or the default mortgage
        increase rate changes; a closed dialog keeps its draft. */
    method SyncDraft(isOpen: bool, scenario: Option<Scenario>, settings: GlobalSettings, show: real -> string)
      modifies this
      ensures draft == if isOpen then Prefill(scenario, settings, show) else old(draft)
    {
      if isOpen {
        draft := Prefill(scenario, settings, show);
      }
    }

    method SetName(text: string)
      modifies this
      ensures draft == old(draft).(name := text)
    {
      draft := draft.(name := text);
    }

    method SetType(kind: ScenarioType)
      modifies this
      ensures draft == old(draft).(kind := kind)
    {
      draft := draft.(kind := kind);
    }

    method SetField(field: DraftField, text: string)
      modifies this
      ensures draft == WithField(old(draft), field, text)
    {
      draft := WithField(draft, field, text);
    }

    /** Builds the scenario handed to the application; `generatedId` is the
        id the dialog would generate, used only when the draft has none. */
    method Submit(generatedId: string, parse: string -> real) returns (scenario: Scenario)
      ensures scenario == BuildScenario(draft, generatedId, parse)
    {
      scenario := BuildScenario(draft, generatedId, parse);
    }
  }
}
