// `BenchmarkService.generate_benchmarks`: ask the LLM for market benchmarks at
// the deal's location and upsert them as AI-sourced assumptions into the
// deal's newest assumption set.

module BenchmarkService {
  import opened Domain
  import opened KeyedUpsert
  import opened Oracles
  import Tables
  import AssumptionRepo

  /** The LLM's arguments. */
  datatype BenchmarkQuery = BenchmarkQuery(location: Location, propertyType: PropertyType)

  /** The location handed to the LLM: the deal's address, city, state and coordinates. */
  function LocationOf(deal: Deal): (l: Location)
    ensures l.address == deal.address && l.city == deal.city && l.state == deal.state
    ensures l.latitude == deal.latitude && l.longitude == deal.longitude
  {
    Location(deal.address, deal.city, deal.state, deal.latitude, deal.longitude)
  }

  /** `a` is suggestion `s` stored in set `setId` as an AI assumption. */
  predicate FromSuggestion(a: Assumption, s: BenchmarkSuggestion, setId: Uuid) {
    && a.setId == setId && a.key == s.key
    && a.valueNumber == Some(s.value) && a.unit == Some(s.unit)
    && a.rangeMin == Some(s.rangeMin) && a.rangeMax == Some(s.rangeMax)
    && a.sourceType == Ai && a.sourceRef == Some(s.source) && a.notes == None
  }

  /** The comprehension building one assumption per suggestion, with fresh ids and the clock. */
  function ToAssumptions(setId: Uuid, suggestions: seq<BenchmarkSuggestion>, newId: nat -> Uuid, now: Time)
    : (xs: seq<Assumption>)
    ensures |xs| == |suggestions|
    ensures forall i :: 0 <= i < |xs| ==> FromSuggestion(xs[i], suggestions[i], setId)
  {
    seq(|suggestions|, i requires 0 <= i < |suggestions| =>
      Assumption(newId(i), setId, suggestions[i].key, Some(suggestions[i].value), Some(suggestions[i].unit),
                 Some(suggestions[i].rangeMin), Some(suggestions[i].rangeMax), Ai,
                 Some(suggestions[i].source), None, now))
  }

  /**
   * The write after the LLM answered with `suggestions` and the target set was
   * found: no upsert for no suggestions; otherwise the upsert, whose failure
   * propagates. The suggestions are what is handed back.
   */
  function AfterSuggestions(suggestions: seq<BenchmarkSuggestion>, setId: Uuid, rows: seq<Assumption>,
                            newId: nat -> Uuid, now: Time)
    : (Result<seq<BenchmarkSuggestion>>, seq<Assumption>)
  {
    var xs := ToAssumptions(setId, suggestions, newId, now);
    if xs == [] then (Ok(suggestions), rows)
    else
      match UpsertAll(rows, xs, AssumptionRepo.AssumptionKey, AssumptionRepo.Merge(now))
      case Ok(done) => (Ok(suggestions), done.0)
      case Err(e) => (Err(e), rows)
  }

  /**
   * On a table without duplicate `(set_id, key)` pairs: the suggestions come
   * back unchanged; every suggested key is in the set afterwards, and the row
   * stored under it carries the LAST suggestion with that key, as an AI
   * assumption; rows whose key was not suggested are untouched.
   */
  lemma AfterSuggestionsSpec(suggestions: seq<BenchmarkSuggestion>, setId: Uuid, rows: seq<Assumption>,
                             newId: nat -> Uuid, now: Time, k: nat)
    requires UniqueKeys(rows, AssumptionRepo.AssumptionKey)
    requires k < |suggestions| && forall j :: k < j < |suggestions| ==> suggestions[j].key != suggestions[k].key
    ensures var (r, nrows) := AfterSuggestions(suggestions, setId, rows, newId, now);
      && r == Ok(suggestions)
      && UniqueKeys(nrows, AssumptionRepo.AssumptionKey)
      && var stored := Find(nrows, AssumptionRepo.AssumptionKey, (setId, suggestions[k].key));
      && stored.Some?
      && FromSuggestion(stored.value.(id := newId(k), updatedAt := now), suggestions[k], setId)
      && |rows| <= |nrows|
      && (forall i :: 0 <= i < |rows| && rows[i].setId != setId ==> nrows[i] == rows[i])
  {
    var xs := ToAssumptions(setId, suggestions, newId, now);
    AssumptionRepo.BulkUpsertSpec(rows, xs, now);
    AssumptionRepo.MergeKeepsKey(now);
    UpsertAllLastWins(rows, xs, AssumptionRepo.AssumptionKey, AssumptionRepo.Merge(now), k);
    var (nrows, out) := UpsertAll(rows, xs, AssumptionRepo.AssumptionKey, AssumptionRepo.Merge(now)).value;
    assert AssumptionRepo.CarriesValues(out[k], xs[k]);
  }

  /** No suggestions: nothing is written and [] comes back. */
  lemma AfterNoSuggestions(setId: Uuid, rows: seq<Assumption>, newId: nat -> Uuid, now: Time)
    ensures AfterSuggestions([], setId, rows, newId, now) == (Ok([]), rows)
  {
  }

  class BenchmarkService {
    const deals: Tables.DealTable
    const sets: AssumptionRepo.AssumptionSetTable
    const assumptions: AssumptionRepo.AssumptionTable
    const llm: Oracle<BenchmarkQuery, Result<seq<BenchmarkSuggestion>>>

    constructor (deals: Tables.DealTable, sets: AssumptionRepo.AssumptionSetTable,
                 assumptions: AssumptionRepo.AssumptionTable,
                 llm: Oracle<BenchmarkQuery, Result<seq<BenchmarkSuggestion>>>)
      ensures this.deals == deals && this.sets == sets && this.assumptions == assumptions && this.llm == llm
    {
      this.deals := deals;
      this.sets := sets;
      this.assumptions := assumptions;
      this.llm := llm;
    }

    /**
     * `generate_benchmarks`: an unknown deal fails before the LLM is asked;
     * otherwise the LLM is asked once; a deal with no assumption set fails
     * after that call, with nothing written; otherwise the suggestions go to
     * a newest set of the deal.
     */
    method GenerateBenchmarks(dealId: Uuid, newId: nat -> Uuid, now: Time)
      returns (r: Result<seq<BenchmarkSuggestion>>)
      requires deals.Valid()
      modifies assumptions, llm
      ensures Find(deals.rows, Tables.DealId, dealId).None? ==>
        r == Err(DealNotFound(dealId)) && llm.calls == old(llm.calls)
        && assumptions.rows == old(assumptions.rows)
      ensures Find(deals.rows, Tables.DealId, dealId).Some? ==>
        var deal := Find(deals.rows, Tables.DealId, dealId).value;
        var q := BenchmarkQuery(LocationOf(deal), deal.propertyType);
        && llm.calls == old(llm.calls) + [q]
        && match llm.answer(q)
           case Err(e) => r == Err(e) && assumptions.rows == old(assumptions.rows)
           case Ok(suggestions) =>
             if AssumptionRepo.NoSets(sets.rows, dealId) then
               r == Err(NoAssumptionSets(dealId)) && assumptions.rows == old(assumptions.rows)
             else
               exists target ::
                 && AssumptionRepo.NewestOfDeal(target, sets.rows, dealId)
                 && (r, assumptions.rows) == AfterSuggestions(suggestions, target.id, old(assumptions.rows), newId, now)
    {
      var deal := deals.GetById(dealId);
      if deal.None? {
        return Err(DealNotFound(dealId));
      }
      var answer := llm.Call(BenchmarkQuery(LocationOf(deal.value), deal.value.propertyType));
      if answer.Err? {
        return Err(answer.error);
      }
      var suggestions := answer.value;
      var dealSets := sets.GetByDealId(dealId);
      if dealSets == [] {
        return Err(NoAssumptionSets(dealId));
      }
      var target := dealSets[0];
      var xs := ToAssumptions(target.id, suggestions, newId, now);
      r := Ok(suggestions);
      if xs != [] {
        var stored := assumptions.BulkUpsert(xs, now);
        if stored.Err? {
          r := Err(stored.error);
        }
      }
    }
  }
}
