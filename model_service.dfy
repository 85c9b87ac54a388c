// `ModelService`: read a set's assumptions into the engine's input, run the
// engine, and store its outputs as a model result.

module ModelService {
  import opened Domain
  import opened Queries
  import opened KeyedUpsert
  import Tables
  import AssumptionRepo
  import opened ModelEngine

  /**
   * `{a.key: a.value_number for a in assumptions}[key]`: the value of the LAST
   * assumption with the key (a later entry overwrites an earlier one), or None
   * when no assumption has it.
   */
  function LookupValue(assumptions: seq<Assumption>, key: string): Option<Option<real>>
    decreases |assumptions|
  {
    if assumptions == [] then None
    else
      var n := |assumptions| - 1;
      if assumptions[n].key == key then Some(assumptions[n].valueNumber)
      else LookupValue(assumptions[..n], key)
  }

  /** The dict lookup finds the last assumption with the key, and nothing when there is none. */
  lemma {:induction false} LookupLastWins(assumptions: seq<Assumption>, key: string)
    ensures LookupValue(assumptions, key).None? <==> forall a :: a in assumptions ==> a.key != key
    ensures LookupValue(assumptions, key).Some? ==>
      exists i :: 0 <= i < |assumptions| && assumptions[i].key == key
        && LookupValue(assumptions, key).value == assumptions[i].valueNumber
        && forall j :: i < j < |assumptions| ==> assumptions[j].key != key
    decreases |assumptions|
  {
    if assumptions != [] {
      var n := |assumptions| - 1;
      var init := assumptions[..n];
      LookupLastWins(init, key);
      assert assumptions == init + [assumptions[n]];
      if assumptions[n].key != key && LookupValue(init, key).Some? {
        var i :| 0 <= i < |init| && init[i].key == key && LookupValue(init, key).value == init[i].valueNumber
          && forall j :: i < j < |init| ==> init[j].key != key;
        assert assumptions[i] == init[i];
      }
    }
  }

  /** `lookup.get(key)`: the value, or None when absent or null. */
  function Value(assumptions: seq<Assumption>, key: string): Option<real> {
    match LookupValue(assumptions, key)
    case None => None
    case Some(v) => v
  }

  /** `lookup.get(key, 0.0) or 0.0`: absent, null and zero all read as 0.0. */
  function ValueOrZero(assumptions: seq<Assumption>, key: string): (r: real)
    ensures Value(assumptions, key).None? ==> r == 0.0
    ensures Value(assumptions, key).Some? ==> r == Value(assumptions, key).value
  {
    match LookupValue(assumptions, key)
    case None => 0.0
    case Some(None) => 0.0
    case Some(Some(x)) => if x == 0.0 then 0.0 else x
  }

  /** The engine's input: square feet from the deal, everything else from the assumptions. */
  function InputFrom(assumptions: seq<Assumption>, deal: Deal): (inp: ModelInput)
    ensures inp.squareFeet == deal.squareFeet
    ensures inp.rentPsfYr == Value(assumptions, "rent_psf_yr")
    ensures inp.vacancyRate == Value(assumptions, "vacancy_rate")
    ensures inp.opexRatio == Value(assumptions, "opex_ratio")
    ensures inp.capRate == Value(assumptions, "cap_rate")
    ensures inp.purchasePrice == Value(assumptions, "purchase_price")
    ensures Value(assumptions, "closing_costs").None? ==> inp.closingCosts == 0.0
    ensures Value(assumptions, "closing_costs").Some? ==> inp.closingCosts == Value(assumptions, "closing_costs").value
    ensures Value(assumptions, "capex_budget").None? ==> inp.capexBudget == 0.0
    ensures Value(assumptions, "capex_budget").Some? ==> inp.capexBudget == Value(assumptions, "capex_budget").value
  {
    ModelInput(
      Value(assumptions, "rent_psf_yr"), deal.squareFeet, Value(assumptions, "vacancy_rate"),
      Value(assumptions, "opex_ratio"), Value(assumptions, "cap_rate"),
      Value(assumptions, "purchase_price"),
      ValueOrZero(assumptions, "closing_costs"), ValueOrZero(assumptions, "capex_budget"))
  }

  /** `m` is the stored form of engine output `o` for the set. */
  predicate Records(m: ModelResult, o: ModelOutput, setId: Uuid) {
    && m.setId == setId && m.noiStabilized == o.noiStabilized && m.exitValue == o.exitValue
    && m.totalCost == o.totalCost && m.profit == o.profit && m.profitMarginPct == o.profitMarginPct
  }

  /** A deal without square footage never yields a result, whatever the assumptions. */
  lemma NoSquareFeetFails(assumptions: seq<Assumption>, deal: Deal)
    requires deal.squareFeet.None?
    ensures Compute(InputFrom(assumptions, deal)).Err?
    ensures Compute(InputFrom(assumptions, deal)).error.MissingRequiredFields?
    ensures "square_feet" in Compute(InputFrom(assumptions, deal)).error.names
  {
    var inp := InputFrom(assumptions, deal);
    MissingSpec(inp);
    MissingOfNames(inp, RequiredFields, "square_feet");
    assert RequiredFields[1] == SquareFeet;
  }

  class ModelService {
    const deals: Tables.DealTable
    const sets: AssumptionRepo.AssumptionSetTable
    const assumptions: AssumptionRepo.AssumptionTable
    const results: Tables.ModelResultTable

    constructor (deals: Tables.DealTable, sets: AssumptionRepo.AssumptionSetTable,
                 assumptions: AssumptionRepo.AssumptionTable, results: Tables.ModelResultTable)
      ensures this.deals == deals && this.sets == sets && this.assumptions == assumptions
      ensures this.results == results
    {
      this.deals := deals;
      this.sets := sets;
      this.assumptions := assumptions;
      this.results := results;
    }

    /**
     * `compute`: an unknown set or deal fails with nothing stored; otherwise
     * the engine runs on the set's assumptions (as `get_by_set_id` lists them)
     * and the deal's square footage; an engine error propagates with nothing
     * stored, and a success stores and returns one result recording its outputs.
     */
    method Compute(setId: Uuid, newId: Uuid, now: Time) returns (r: Result<ModelResult>)
      requires deals.Valid() && sets.Valid()
      modifies results
      ensures Find(sets.rows, AssumptionRepo.SetId, setId).None? ==>
        r == Err(SetNotFound(setId)) && results.rows == old(results.rows)
      ensures Find(sets.rows, AssumptionRepo.SetId, setId).Some? ==>
        var dealId := Find(sets.rows, AssumptionRepo.SetId, setId).value.dealId;
        && (Find(deals.rows, Tables.DealId, dealId).None? ==>
              r == Err(DealNotFound(dealId)) && results.rows == old(results.rows))
        && (Find(deals.rows, Tables.DealId, dealId).Some? ==>
              exists listed: seq<Assumption> ::
                && multiset(listed) == multiset(AssumptionRepo.OfSet(assumptions.rows, setId))
                && SortedBy(listed, AssumptionRepo.KeyOrder)
                && var out := ModelEngine.Compute(InputFrom(listed, Find(deals.rows, Tables.DealId, dealId).value));
                && (out.Err? ==> r == Err(out.error) && results.rows == old(results.rows))
                && (out.Ok? ==>
                      && r.Ok? && Records(r.value, out.value, setId) && r.value.id == newId
                      && r.value.computedAt == now && results.rows == old(results.rows) + [r.value]))
    {
      var assumptionSet := sets.GetById(setId);
      if assumptionSet.None? {
        return Err(SetNotFound(setId));
      }
      var deal := deals.GetById(assumptionSet.value.dealId);
      if deal.None? {
        return Err(DealNotFound(assumptionSet.value.dealId));
      }
      var listed := assumptions.GetBySetId(setId);
      r := RunAndRecord(listed, deal.value, setId, newId, now);
    }

    /** The engine run on the set's assumptions and the deal, and the recording of its outputs. */
    method RunAndRecord(listed: seq<Assumption>, deal: Deal, setId: Uuid, newId: Uuid, now: Time)
      returns (r: Result<ModelResult>)
      modifies results
      ensures var out := ModelEngine.Compute(InputFrom(listed, deal));
        && (out.Err? ==> r == Err(out.error) && results.rows == old(results.rows))
        && (out.Ok? ==>
              && r.Ok? && Records(r.value, out.value, setId) && r.value.id == newId
              && r.value.computedAt == now && results.rows == old(results.rows) + [r.value])
    {
      var out := ModelEngine.Compute(InputFrom(listed, deal));
      if out.Err? {
        return Err(out.error);
      }
      var o := out.value;
      var stored := results.Create(ModelResult(newId, setId, o.noiStabilized, o.exitValue, o.totalCost,
                                               o.profit, o.profitMarginPct, now));
      r := Ok(stored);
    }

    /** `get_result`: the set's most recent result. */
    method GetResult(setId: Uuid) returns (r: Option<ModelResult>)
      ensures r.None? <==> forall m :: m in results.rows ==> m.setId != setId
      ensures r.Some? ==> r.value in results.rows && r.value.setId == setId
      ensures r.Some? ==> forall m :: m in results.rows && m.setId == setId ==> m.computedAt <= r.value.computedAt
    {
      r := results.GetBySetId(setId);
    }
  }
}
