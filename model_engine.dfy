// `ModelEngine.compute`: the stabilised-NOI, exit-value and profit model.
// Arithmetic is over `real`, i.e. exact, where the source uses IEEE doubles.

module ModelEngine {
  import opened Domain
  import opened Queries

  datatype ModelInput = ModelInput(
    rentPsfYr: Option<real>, squareFeet: Option<real>, vacancyRate: Option<real>,
    opexRatio: Option<real>, capRate: Option<real>, purchasePrice: Option<real>,
    closingCosts: real, capexBudget: real)

  datatype ModelOutput = ModelOutput(
    grossRevenue: real, effectiveRevenue: real, operatingExpenses: real,
    noiStabilized: real, exitValue: real, totalCost: real, profit: real, profitMarginPct: real)

  /** The required inputs, named as the source names them. */
  datatype Field = RentPsfYr | SquareFeet | VacancyRate | OpexRatio | CapRate | PurchasePrice
  {
    function Name(): string {
      match this
      case RentPsfYr => "rent_psf_yr"
      case SquareFeet => "square_feet"
      case VacancyRate => "vacancy_rate"
      case OpexRatio => "opex_ratio"
      case CapRate => "cap_rate"
      case PurchasePrice => "purchase_price"
    }
  }

  /** `REQUIRED_FIELDS`, in its order. */
  const RequiredFields: seq<Field> := [RentPsfYr, SquareFeet, VacancyRate, OpexRatio, CapRate, PurchasePrice]

  /** `getattr(inp, f)`. */
  function Get(inp: ModelInput, f: Field): Option<real> {
    match f
    case RentPsfYr => inp.rentPsfYr
    case SquareFeet => inp.squareFeet
    case VacancyRate => inp.vacancyRate
    case OpexRatio => inp.opexRatio
    case CapRate => inp.capRate
    case PurchasePrice => inp.purchasePrice
  }

  /** The `missing` comprehension over `fields`: the names of those that are None, in order. */
  function MissingOf(inp: ModelInput, fields: seq<Field>): (names: seq<string>)
    ensures names == [] <==> forall i :: 0 <= i < |fields| ==> Get(inp, fields[i]).Some?
    ensures |names| <= |fields|
  {
    if fields == [] then []
    else (if Get(inp, fields[0]).None? then [fields[0].Name()] else []) + MissingOf(inp, fields[1..])
  }

  function Missing(inp: ModelInput): seq<string> {
    MissingOf(inp, RequiredFields)
  }

  predicate Complete(inp: ModelInput) {
    && inp.rentPsfYr.Some? && inp.squareFeet.Some? && inp.vacancyRate.Some?
    && inp.opexRatio.Some? && inp.capRate.Some? && inp.purchasePrice.Some?
  }

  function Compute(inp: ModelInput): Result<ModelOutput> {
    var missing := Missing(inp);
    if missing != [] then Err(MissingRequiredFields(missing))
    else if inp.capRate == Some(0.0) then Err(ZeroCapRate)
    else
      assert Complete(inp) by { MissingSpec(inp); }
      var gross := inp.rentPsfYr.value * inp.squareFeet.value;
      var effective := gross * (1.0 - inp.vacancyRate.value);
      var opex := inp.opexRatio.value * effective;
      var noi := effective - opex;
      var exitValue := noi / inp.capRate.value;
      var totalCost := inp.purchasePrice.value + inp.closingCosts + inp.capexBudget;
      var profit := exitValue - totalCost;
      var margin := if totalCost != 0.0 then (profit / totalCost) * 100.0 else 0.0;
      Ok(ModelOutput(gross, effective, opex, noi, exitValue, totalCost, profit, margin))
  }

  /** The missing list is empty exactly when the input is complete. */
  lemma MissingSpec(inp: ModelInput)
    ensures Missing(inp) == [] <==> Complete(inp)
  {
    var fs := RequiredFields;
    assert fs[0] == RentPsfYr && fs[1] == SquareFeet && fs[2] == VacancyRate;
    assert fs[3] == OpexRatio && fs[4] == CapRate && fs[5] == PurchasePrice;
  }

  /** The missing list names a field exactly when that field is None. */
  lemma {:induction false} MissingOfNames(inp: ModelInput, fields: seq<Field>, name: string)
    ensures name in MissingOf(inp, fields) <==>
      exists i :: 0 <= i < |fields| && Get(inp, fields[i]).None? && fields[i].Name() == name
    decreases |fields|
  {
    if fields != [] {
      MissingOfNames(inp, fields[1..], name);
      if exists i :: 1 <= i < |fields| && Get(inp, fields[i]).None? && fields[i].Name() == name {
        var i :| 1 <= i < |fields| && Get(inp, fields[i]).None? && fields[i].Name() == name;
        assert fields[1..][i - 1] == fields[i];
      }
    }
  }

  /** A missing rent is reported first, as the field-order test expects. */
  lemma MissingRentFirst(inp: ModelInput)
    requires inp.rentPsfYr.None?
    ensures Compute(inp).Err? && Compute(inp).error.MissingRequiredFields?
    ensures Compute(inp).error.names != [] && Compute(inp).error.names[0] == "rent_psf_yr"
  {
  }

  /**
   * The engine's failures and results: it fails naming the missing fields
   * when any is None, fails on a zero cap rate, and otherwise produces the
   * revenue chain, the exit value at the cap rate, the all-in cost, the
   * profit and the margin, which is exactly 0 when the cost is 0.
   */
  lemma ComputeSpec(inp: ModelInput)
    ensures !Complete(inp) ==> Compute(inp) == Err(MissingRequiredFields(Missing(inp)))
    ensures Complete(inp) && inp.capRate.value == 0.0 ==> Compute(inp) == Err(ZeroCapRate)
    ensures Compute(inp).Ok? <==> Complete(inp) && inp.capRate.value != 0.0
    ensures Compute(inp).Ok? ==>
      var o := Compute(inp).value;
      var rent, sqft, vacancy := inp.rentPsfYr.value, inp.squareFeet.value, inp.vacancyRate.value;
      && o.grossRevenue == rent * sqft
      && o.noiStabilized == rent * sqft * (1.0 - vacancy) * (1.0 - inp.opexRatio.value)
      && o.effectiveRevenue == o.grossRevenue * (1.0 - vacancy)
      && o.operatingExpenses == inp.opexRatio.value * o.effectiveRevenue
      && o.effectiveRevenue == o.noiStabilized + o.operatingExpenses
      && (vacancy == 0.0 ==> o.effectiveRevenue == o.grossRevenue)
      && o.exitValue * inp.capRate.value == o.noiStabilized
      && o.totalCost == inp.purchasePrice.value + inp.closingCosts + inp.capexBudget
      && o.profit + o.totalCost == o.exitValue
      && (o.totalCost != 0.0 ==> o.profitMarginPct * o.totalCost == o.profit * 100.0)
      && (o.totalCost == 0.0 ==> o.profitMarginPct == 0.0)
  {
    MissingSpec(inp);
  }

  /** The basic computation of the engine's test, exactly. */
  lemma BasicComputation()
    ensures var o := Compute(ModelInput(Some(30.0), Some(50000.0), Some(0.05), Some(0.35), Some(0.065),
                                        Some(15000000.0), 450000.0, 500000.0));
      && o.Ok?
      && o.value.grossRevenue == 1500000.0 && o.value.effectiveRevenue == 1425000.0
      && o.value.operatingExpenses == 498750.0 && o.value.noiStabilized == 926250.0
      && o.value.exitValue == 14250000.0 && o.value.totalCost == 15950000.0
      && o.value.profit == -1700000.0
      && o.value.profitMarginPct * 15950000.0 == -170000000.0
      && -10.66 < o.value.profitMarginPct < -10.65
  {
    var inp := ModelInput(Some(30.0), Some(50000.0), Some(0.05), Some(0.35), Some(0.065),
                          Some(15000000.0), 450000.0, 500000.0);
    MissingSpec(inp);
  }
}
