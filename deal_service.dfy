// `DealService`: create a deal together with its default "Base Case"
// assumption set, list deals through the repository's filters, and apply a
// partial update.

module DealService {
  import opened Domain
  import opened Queries
  import opened KeyedUpsert
  import Tables
  import AssumptionRepo

  const BaseCase := "Base Case"

  /**
   * The keyword arguments of `update_deal`: one optional value per attribute
   * the update request carries; None is both "not sent" and "sent as null".
   */
  datatype DealChanges = DealChanges(
    name: Option<string>, address: Option<string>, city: Option<string>, state: Option<string>,
    propertyType: Option<PropertyType>, latitude: Option<real>, longitude: Option<real>,
    squareFeet: Option<real>)

  function Pick<T>(change: Option<T>, current: T): T {
    if change.Some? then change.value else current
  }

  function PickOpt<T>(change: Option<T>, current: Option<T>): Option<T> {
    if change.Some? then change else current
  }

  /** The `setattr` loop: every attribute given a non-None value takes it. */
  function ApplyChanges(deal: Deal, changes: DealChanges): Deal {
    deal.(name := Pick(changes.name, deal.name), address := Pick(changes.address, deal.address),
          city := Pick(changes.city, deal.city), state := Pick(changes.state, deal.state),
          propertyType := Pick(changes.propertyType, deal.propertyType),
          latitude := PickOpt(changes.latitude, deal.latitude),
          longitude := PickOpt(changes.longitude, deal.longitude),
          squareFeet := PickOpt(changes.squareFeet, deal.squareFeet))
  }

  /**
   * The row after `update_deal`: a given value replaces the attribute, a
   * missing one leaves it as it was, the id and creation time never change,
   * and `updated_at` is the clock.
   */
  lemma UpdatedRowSpec(row: Deal, changes: DealChanges, now: Time)
    ensures var d := Tables.OverwriteDeal(row, ApplyChanges(row, changes), now);
      && d.id == row.id && d.createdAt == row.createdAt && d.updatedAt == now
      && (changes.name.Some? ==> d.name == changes.name.value)
      && (changes.name.None? ==> d.name == row.name)
      && (changes.address.Some? ==> d.address == changes.address.value)
      && (changes.address.None? ==> d.address == row.address)
      && (changes.city.Some? ==> d.city == changes.city.value)
      && (changes.city.None? ==> d.city == row.city)
      && (changes.state.Some? ==> d.state == changes.state.value)
      && (changes.state.None? ==> d.state == row.state)
      && (changes.propertyType.Some? ==> d.propertyType == changes.propertyType.value)
      && (changes.propertyType.None? ==> d.propertyType == row.propertyType)
      && (changes.latitude.Some? ==> d.latitude == changes.latitude)
      && (changes.latitude.None? ==> d.latitude == row.latitude)
      && (changes.longitude.Some? ==> d.longitude == changes.longitude)
      && (changes.longitude.None? ==> d.longitude == row.longitude)
      && (changes.squareFeet.Some? ==> d.squareFeet == changes.squareFeet)
      && (changes.squareFeet.None? ==> d.squareFeet == row.squareFeet)
  {
  }

  /** No changes: only `updated_at` moves. */
  lemma NoChangesTouchesOnlyClock(row: Deal, now: Time)
    ensures Tables.OverwriteDeal(row, ApplyChanges(row, DealChanges(None, None, None, None, None, None, None, None)), now)
      == row.(updatedAt := now)
  {
  }

  /** The repository ignores the status filter. */
  lemma ListIgnoresStatus(rows: seq<Deal>, propertyType: Option<string>, s1: Option<string>,
                          s2: Option<string>, city: Option<string>)
    ensures Tables.FilterDeals(rows, DealFilters(propertyType, s1, city))
         == Tables.FilterDeals(rows, DealFilters(propertyType, s2, city))
  {
    FilterSame(rows, (d: Deal) => Tables.MatchesFilters(d, DealFilters(propertyType, s1, city)),
               (d: Deal) => Tables.MatchesFilters(d, DealFilters(propertyType, s2, city)));
  }

  /** With no filters every deal is listed. */
  lemma ListWithoutFilters(rows: seq<Deal>, status: Option<string>)
    ensures Tables.FilterDeals(rows, DealFilters(None, status, None)) == rows
  {
    FilterAll(rows, (d: Deal) => Tables.MatchesFilters(d, DealFilters(None, status, None)));
  }

  /** A new deal, which had no set, ends up with exactly its "Base Case" set. */
  lemma BaseCaseOnly(rows: seq<AssumptionSet>, base: AssumptionSet)
    requires AssumptionRepo.NoSets(rows, base.dealId)
    ensures AssumptionRepo.SetsOfDeal(rows + [base], base.dealId) == [base]
  {
    var p := (s: AssumptionSet) => s.dealId == base.dealId;
    FilterAppend(rows, [base], p);
    FilterNone(rows, p);
    FilterAll([base], p);
  }

  class DealService {
    const deals: Tables.DealTable
    const sets: AssumptionRepo.AssumptionSetTable

    constructor (deals: Tables.DealTable, sets: AssumptionRepo.AssumptionSetTable)
      ensures this.deals == deals && this.sets == sets
    {
      this.deals := deals;
      this.sets := sets;
    }

    /**
     * `create_deal`: the deal with the given attributes and a fresh id, then
     * its "Base Case" set; `dealId` and `setId` stand for the two `uuid4()`
     * values and `now` for the clock.
     */
    method CreateDeal(name: string, address: string, city: string, state: string,
                      propertyType: PropertyType, latitude: Option<real>, longitude: Option<real>,
                      squareFeet: Option<real>, dealId: Uuid, setId: Uuid, now: Time)
      returns (r: Deal)
      requires deals.Valid() && sets.Valid()
      requires !HasKey(deals.rows, Tables.DealId, dealId) && !HasKey(sets.rows, AssumptionRepo.SetId, setId)
      modifies deals, sets
      ensures deals.Valid() && sets.Valid()
      ensures r == Deal(dealId, name, address, city, state, propertyType, latitude, longitude, squareFeet, now, now)
      ensures deals.rows == old(deals.rows) + [r]
      ensures sets.rows == old(sets.rows) + [AssumptionSet(setId, dealId, BaseCase, now, now)]
    {
      var deal := Deal(dealId, name, address, city, state, propertyType, latitude, longitude, squareFeet, now, now);
      r := deals.Create(deal);
      var base := sets.Create(AssumptionSet(setId, r.id, BaseCase, now, now));
    }

    method GetDeal(dealId: Uuid) returns (r: Option<Deal>)
      requires deals.Valid()
      ensures r == Find(deals.rows, Tables.DealId, dealId)
    {
      r := deals.GetById(dealId);
    }

    /** `list_deals`: the three filters handed to the repository as they came. */
    method ListDeals(propertyType: Option<string>, status: Option<string>, city: Option<string>)
      returns (r: seq<Deal>)
      ensures multiset(r) == multiset(Tables.FilterDeals(deals.rows, DealFilters(propertyType, status, city)))
      ensures SortedBy(r, Tables.DealNewestFirst)
    {
      r := deals.List(DealFilters(propertyType, status, city));
    }

    /**
     * `update_deal`: None for an unknown deal, with nothing written; otherwise
     * the changes applied and the row rewritten with the clock.
     */
    method UpdateDeal(dealId: Uuid, changes: DealChanges, now: Time) returns (r: Option<Deal>)
      requires deals.Valid()
      modifies deals
      ensures deals.Valid()
      ensures Find(deals.rows, Tables.DealId, dealId).None? == old(Find(deals.rows, Tables.DealId, dealId)).None?
      ensures old(Find(deals.rows, Tables.DealId, dealId)).None? ==> r.None? && deals.rows == old(deals.rows)
      ensures old(Find(deals.rows, Tables.DealId, dealId)).Some? ==>
        var i := Lookup(old(deals.rows), Tables.DealId, dealId).index;
        && r == Some(Tables.OverwriteDeal(old(deals.rows)[i], ApplyChanges(old(deals.rows)[i], changes), now))
        && deals.rows == old(deals.rows)[i := r.value]
    {
      var deal := deals.GetById(dealId);
      if deal.None? {
        return None;
      }
      UniqueNotAmbiguous(deals.rows, Tables.DealId, dealId);
      var changed := ApplyChanges(deal.value, changes).(updatedAt := now);
      var updated := deals.Update(changed, now);
      match updated
      case Err(_) =>
        assert false;
      case Ok(d) =>
        r := Some(d);
    }
  }
}
