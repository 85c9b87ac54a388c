// `CompsService`: fetch comps for a deal from the comps provider and, when
// the provider found any, replace the deal's stored comps with them.

module CompsService {
  import opened Domain
  import opened Queries
  import opened KeyedUpsert
  import opened CompRepo
  import opened Oracles
  import Tables
  import DocumentRepo
  import CombinedProvider

  /** The provider's arguments: the deal and the deal's extracted fields. */
  datatype CompsQuery = CompsQuery(deal: Deal, fields: seq<ExtractedField>)

  /** The comp table after the delete-then-upsert of a non-empty provider result. */
  function Replaced(rows: seq<Comp>, dealId: Uuid, comps: seq<Comp>): Result<(seq<Comp>, seq<Comp>)> {
    UpsertAll(WithoutDeal(rows, dealId), comps, CompKey, MergeComp)
  }

  /**
   * When the provider's comps all belong to the deal and have distinct
   * addresses, the replacement succeeds, hands them back unchanged, leaves the
   * deal with exactly those comps, and leaves every other deal's comps as they were.
   */
  lemma ReplacedSpec(rows: seq<Comp>, dealId: Uuid, comps: seq<Comp>, other: Uuid)
    requires UniqueKeys(rows, CompKey)
    requires forall i :: 0 <= i < |comps| ==> comps[i].dealId == dealId
    requires UniqueKeys(comps, CompKey)
    requires other != dealId
    ensures Replaced(rows, dealId, comps).Ok?
    ensures Replaced(rows, dealId, comps).value.1 == comps
    ensures OfDeal(Replaced(rows, dealId, comps).value.0, dealId) == comps
    ensures OfDeal(Replaced(rows, dealId, comps).value.0, other) == OfDeal(rows, other)
  {
    var kept := WithoutDeal(rows, dealId);
    var notMine := (c: Comp) => c.dealId != dealId;
    forall i | 0 <= i < |comps| ensures !HasKey(kept, CompKey, CompKey(comps[i])) {
      forall j | 0 <= j < |kept| ensures CompKey(kept[j]) != CompKey(comps[i]) {
        assert kept[j] in multiset(rows);
      }
    }
    UpsertAllFresh(kept, comps, CompKey, MergeComp);
    var mine := (c: Comp) => c.dealId == dealId;
    var theirs := (c: Comp) => c.dealId == other;
    FilterAppend(kept, comps, mine);
    FilterAppend(kept, comps, theirs);
    FilterNone(kept, mine);
    FilterAll(comps, mine);
    FilterNone(comps, theirs);
    FilterFilter(rows, notMine, theirs);
  }

  /**
   * The combined provider's output for one deal meets `ReplacedSpec`'s
   * conditions: its normalised addresses are distinct, so its exact
   * `(deal_id, address)` keys are too.
   */
  lemma CombinedKeysDistinct(rentcast: CombinedProvider.Outcome, tavily: CombinedProvider.Outcome, dealId: Uuid)
    requires forall c :: c in CombinedProvider.Contributed(rentcast) + CombinedProvider.Contributed(tavily) ==>
                           c.dealId == dealId
    ensures forall i :: 0 <= i < |CombinedProvider.Combined(rentcast, tavily)| ==>
      CombinedProvider.Combined(rentcast, tavily)[i].dealId == dealId
    ensures UniqueKeys(CombinedProvider.Combined(rentcast, tavily), CompKey)
  {
    var all := CombinedProvider.Contributed(rentcast) + CombinedProvider.Contributed(tavily);
    CombinedProvider.DedupSpec(all, CombinedProvider.AddressKey);
    var r := CombinedProvider.Combined(rentcast, tavily);
    forall i | 0 <= i < |r| ensures r[i].dealId == dealId {
      var f := CombinedProvider.FirstWithKey(all, CombinedProvider.AddressKey, CombinedProvider.AddressKey(r[i]));
      assert all[f] in all;
    }
  }

  class CompsService {
    const deals: Tables.DealTable
    const documents: DocumentRepo.DocumentTable
    const fields: Tables.ExtractedFieldTable
    const comps: CompTable
    const provider: Oracle<CompsQuery, Result<seq<Comp>>>

    constructor (deals: Tables.DealTable, documents: DocumentRepo.DocumentTable,
                 fields: Tables.ExtractedFieldTable, comps: CompTable,
                 provider: Oracle<CompsQuery, Result<seq<Comp>>>)
      ensures this.deals == deals && this.documents == documents && this.fields == fields
      ensures this.comps == comps && this.provider == provider
    {
      this.deals := deals;
      this.documents := documents;
      this.fields := fields;
      this.comps := comps;
      this.provider := provider;
    }

    /**
     * `search_comps`: an unknown deal fails before the provider is asked; a
     * provider failure propagates with nothing written; an empty result
     * changes nothing; otherwise the deal's comps are deleted and the result
     * upserted.
     */
    method SearchComps(dealId: Uuid) returns (r: Result<seq<Comp>>)
      requires deals.Valid() && comps.Valid()
      modifies comps, provider
      ensures comps.Valid()
      ensures Find(deals.rows, Tables.DealId, dealId).None? ==>
        r == Err(DealNotFound(dealId)) && comps.rows == old(comps.rows)
        && provider.calls == old(provider.calls)
      ensures Find(deals.rows, Tables.DealId, dealId).Some? ==>
        var q := CompsQuery(Find(deals.rows, Tables.DealId, dealId).value,
                            Tables.FieldsOfDeal(fields.rows, documents.rows, dealId));
        && provider.calls == old(provider.calls) + [q]
        && (provider.answer(q).Err? ==> r == Err(provider.answer(q).error) && comps.rows == old(comps.rows))
        && (provider.answer(q) == Ok([]) ==> r == Ok([]) && comps.rows == old(comps.rows))
        && (provider.answer(q).Ok? && provider.answer(q).value != [] ==>
              r.Ok? && Replaced(old(comps.rows), dealId, provider.answer(q).value) == Ok((comps.rows, r.value)))
    {
      var deal := deals.GetById(dealId);
      if deal.None? {
        return Err(DealNotFound(dealId));
      }
      var dealFields := fields.GetByDealId(documents, dealId);
      var answer := provider.Call(CompsQuery(deal.value, dealFields));
      if answer.Err? {
        return Err(answer.error);
      }
      var found := answer.value;
      if found != [] {
        comps.DeleteByDealId(dealId);
        found := comps.BulkUpsert(found);
      }
      r := Ok(found);
    }

    /** `list_comps`: a read of the deal's comps. */
    method ListComps(dealId: Uuid) returns (r: seq<Comp>)
      ensures r == OfDeal(comps.rows, dealId)
    {
      r := comps.GetByDealId(dealId);
    }
  }
}
