// `RentcastCompsProvider`: the guards before the `/properties` request, the
// property-type maps in both directions, and the loop that turns each returned
// property record into a `Comp`. The HTTP client is an oracle answering the
// query with a status code and the decoded body, or with a raised exception.
// Exceptions raised by the loop itself, on a JSON `null`, are not caught by
// the provider: it then fails as a whole.

module RentcastProvider {
  import opened Domain
  import opened Text
  import opened Oracles
  import opened Queries

  const DefaultRadiusMiles: real := 2.0
  const DefaultLimit: int := 10
  const PropertyUrlPrefix: string := "https://rentcast.io/property/"

  /**
   * The fields of one record of the response's `properties` list. An `Option`
   * field is read with `prop.get(key)`, where an absent key and a `null` both
   * give None; a `Field` is read with a default, where they differ.
   */
  datatype Property = Property(
    id: Field<string>,
    addressLine1: Option<string>, formattedAddress: Field<string>,
    city: Option<string>, state: Option<string>,
    propertyType: Option<string>,
    units: Option<int>, unitCount: Option<int>,
    lastSalePrice: Option<real>, squareFootage: Option<real>,
    yearBuilt: Option<int>, capRate: Option<real>,
    rentEstimate: Option<real>, occupancyRate: Option<real>)

  /** The `GET /properties` request: its query parameters and the API key header. */
  datatype PropertiesQuery = PropertiesQuery(
    latitude: real, longitude: real, radius: real, propertyType: string, limit: int,
    apiKey: string)

  /** What the request came back with: a response (its status and the body's `properties`), or an exception. */
  datatype HttpOutcome = Responded(status: int, properties: Field<seq<Property>>) | Raised

  /** `None.split(",")`: the AttributeError of a `null` formatted address. */
  const SplitOfNull: Error := NullValue("'NoneType' object has no attribute 'split'")

  /** `for prop in None`: the TypeError of a `null` properties list. */
  const IterateNull: Error := NullValue("'NoneType' object is not iterable")

  // ---------------------------------------------------------------------------
  // Property-type maps
  // ---------------------------------------------------------------------------

  /** `_CANONICAL_TO_RENTCAST.get(t, "Multi-Family")`. */
  function RentcastType(t: PropertyType): (r: string)
    ensures r in {"Multi-Family", "Office", "Retail", "Industrial"}
  {
    match t
    case Office => "Office"
    case Retail => "Retail"
    case Industrial => "Industrial"
    case _ => "Multi-Family"
  }

  /** `_PROPERTY_TYPE_MAP.get(raw)`: None for a Rentcast type with no canonical equivalent. */
  function CanonicalType(raw: Option<string>): (r: Option<PropertyType>)
    ensures r.Some? <==> raw.Some? && raw.value in {"Multi-Family", "Office", "Retail", "Industrial"}
    ensures r.Some? ==> r.value in {Multifamily, Office, Retail, Industrial}
  {
    if raw == Some("Multi-Family") then Some(Multifamily)
    else if raw == Some("Office") then Some(Office)
    else if raw == Some("Retail") then Some(Retail)
    else if raw == Some("Industrial") then Some(Industrial)
    else None
  }

  /**
   * The two maps are inverse on the four shared types; every other canonical
   * type is requested as "Multi-Family".
   */
  lemma TypeMapsAgree(t: PropertyType)
    ensures t in {Multifamily, Office, Retail, Industrial} ==> CanonicalType(Some(RentcastType(t))) == Some(t)
    ensures t !in {Multifamily, Office, Retail, Industrial} ==> RentcastType(t) == "Multi-Family"
    ensures forall s :: CanonicalType(Some(s)).Some? ==> RentcastType(CanonicalType(Some(s)).value) == s
  {
  }

  // ---------------------------------------------------------------------------
  // One property record
  // ---------------------------------------------------------------------------

  /** Python truthiness of an optional number: present and non-zero. */
  predicate NonZero(x: Option<real>) {
    x.Some? && x.value != 0.0
  }

  /** `not deal.latitude or not deal.longitude` is false: both coordinates are present and non-zero. */
  predicate HasLocation(deal: Deal) {
    NonZero(deal.latitude) && NonZero(deal.longitude)
  }

  /**
   * `prop.get("addressLine1") or prop.get("formattedAddress", "").split(",")[0].strip()`:
   * the first address line when it is set, else the formatted address up to
   * its first comma with the surrounding whitespace cut; a `null` formatted
   * address raises.
   */
  function AddressOf(p: Property): (r: Result<string>)
    ensures Truthy(p.addressLine1) ==> r == Ok(p.addressLine1.value)
    ensures r.Err? <==> !Truthy(p.addressLine1) && p.formattedAddress.Null?
    ensures r.Err? ==> r.error == SplitOfNull
    ensures !Truthy(p.addressLine1) && p.formattedAddress.Omitted? ==> r == Ok("")
    ensures !Truthy(p.addressLine1) && p.formattedAddress.Given? ==>
      && r.Ok? && ',' !in r.value && (r.value != [] ==> !IsSpace(r.value[0]) && !IsSpace(r.value[|r.value| - 1]))
      && exists i, j :: 0 <= i <= j <= |p.formattedAddress.value| && r.value == p.formattedAddress.value[i..j]
  {
    if Truthy(p.addressLine1) then Ok(p.addressLine1.value)
    else if p.formattedAddress.Null? then Err(SplitOfNull)
    else
      var formatted := if p.formattedAddress.Given? then p.formattedAddress.value else "";
      var first := BeforeFirst(formatted, ',');
      var r := Strip(first);
      StripWithin(first);
      StripOfPrefix(formatted, first);
      Ok(r)
  }

  /** Stripping a prefix of a text leaves a slice of the text. */
  lemma StripOfPrefix(s: string, prefix: string)
    requires prefix <= s
    ensures exists i, j :: 0 <= i <= j <= |s| && Strip(prefix) == s[i..j]
  {
    var i, j := StripSlice(prefix);
    assert prefix[i..j] == s[i..j];
  }

  /** `prop.get("units") or prop.get("unitCount")`. */
  function UnitCountOf(p: Property): (r: Option<int>)
    ensures p.units.Some? && p.units.value != 0 ==> r == p.units
    ensures !(p.units.Some? && p.units.value != 0) ==> r == p.unitCount
  {
    if p.units.Some? && p.units.value != 0 then p.units else p.unitCount
  }

  /** The price per unit: set only for a non-zero sale price and a positive unit count. */
  function PricePerUnit(salePrice: Option<real>, unitCount: Option<int>): (r: Option<real>)
    ensures r.Some? <==> NonZero(salePrice) && unitCount.Some? && unitCount.value > 0
    ensures r.Some? ==> r.value * unitCount.value as real == salePrice.value
  {
    if NonZero(salePrice) && unitCount.Some? && unitCount.value > 0
    then Some(salePrice.value / unitCount.value as real)
    else None
  }

  /** The price per square foot, under the same rule with the square footage. */
  function PricePerSqft(salePrice: Option<real>, squareFeet: Option<real>): (r: Option<real>)
    ensures r.Some? <==> NonZero(salePrice) && squareFeet.Some? && squareFeet.value > 0.0
    ensures r.Some? ==> r.value * squareFeet.value == salePrice.value
  {
    if NonZero(salePrice) && squareFeet.Some? && squareFeet.value > 0.0
    then Some(salePrice.value / squareFeet.value)
    else None
  }

  /** `prop.get(key, default)` for a string attribute. */
  function OrElse(x: Option<string>, default: string): string {
    if x.Some? then x.value else default
  }

  /**
   * What one record does in the loop: the comp built from it, None when it
   * has no address (`continue`), or the exception its address raises. `id`
   * and `createdAt` are the entity's generated defaults.
   */
  function ToComp(deal: Deal, p: Property, id: Uuid, fetchedAt: Time, createdAt: Time): (r: Result<Option<Comp>>)
    ensures r.Err? <==> AddressOf(p).Err?
    ensures r.Err? ==> r.error == SplitOfNull
    ensures r == Ok(None) <==> AddressOf(p) == Ok("")
    ensures r.Ok? && r.value.Some? ==>
      && r.value.value.dealId == deal.id && r.value.value.address == AddressOf(p).value
      && r.value.value.address != "" && r.value.value.source == Rentcast
      && r.value.value.fetchedAt == fetchedAt
      && r.value.value.sourceUrl == Some(PropertyUrlPrefix + Shown(p.id, ""))
  {
    if AddressOf(p).Err? then Err(AddressOf(p).error)
    else
    var address := AddressOf(p).value;
    if address == "" then Ok(None)
    else
      var units := UnitCountOf(p);
      var pt := CanonicalType(p.propertyType);
      Ok(Some(Comp(id, deal.id, address, OrElse(p.city, deal.city), OrElse(p.state, deal.state),
                   if pt.Some? then pt.value else deal.propertyType, Rentcast,
                   Some(PropertyUrlPrefix + Shown(p.id, "")),
                   p.yearBuilt, units, p.squareFootage, p.lastSalePrice,
                   PricePerUnit(p.lastSalePrice, units), PricePerSqft(p.lastSalePrice, p.squareFootage),
                   p.capRate, p.rentEstimate, p.occupancyRate, None, None, None,
                   fetchedAt, createdAt)))
  }

  /**
   * The comp built from a record with an address: the address rule, the
   * record's type when Rentcast's type has a canonical equivalent (else the
   * deal's), the record's city and state falling back to the deal's, the
   * unit-count fallback, the two derived prices, and no NOI or expense figures.
   */
  lemma ToCompFields(deal: Deal, p: Property, id: Uuid, fetchedAt: Time, createdAt: Time)
    requires AddressOf(p).Ok? && AddressOf(p).value != ""
    ensures var c := ToComp(deal, p, id, fetchedAt, createdAt).value.value;
      && c.id == id && c.address == AddressOf(p).value
      && c.propertyType == (if CanonicalType(p.propertyType).Some? then CanonicalType(p.propertyType).value else deal.propertyType)
      && c.city == OrElse(p.city, deal.city) && c.state == OrElse(p.state, deal.state)
      && c.unitCount == UnitCountOf(p) && c.salePrice == p.lastSalePrice
      && c.pricePerUnit == PricePerUnit(p.lastSalePrice, UnitCountOf(p))
      && c.pricePerSqft == PricePerSqft(p.lastSalePrice, p.squareFootage)
      && c.noi.None? && c.expenseRatio.None? && c.opexPerUnit.None?
  {
  }

  // ---------------------------------------------------------------------------
  // The property loop
  // ---------------------------------------------------------------------------

  /** The outcome of each record, the record at index `i` getting id `idOf(i)`. */
  function Built(deal: Deal, props: seq<Property>, idOf: nat -> Uuid, fetchedAt: Time, createdAt: Time)
    : (r: seq<Result<Option<Comp>>>)
    ensures |r| == |props|
    ensures forall i :: 0 <= i < |props| ==> r[i] == ToComp(deal, props[i], idOf(i), fetchedAt, createdAt)
  {
    seq(|props|, i requires 0 <= i < |props| => ToComp(deal, props[i], idOf(i), fetchedAt, createdAt))
  }

  /** The loop's result: the comps of the records with an address, in record order, or the first exception. */
  function CompsOf(deal: Deal, props: seq<Property>, idOf: nat -> Uuid, fetchedAt: Time, createdAt: Time)
    : Result<seq<Comp>>
  {
    Gathered(Built(deal, props, idOf, fetchedAt, createdAt))
  }

  /**
   * The loop fails exactly when some record's address raises, and then with
   * that exception; otherwise there is at most one comp per record, and the
   * comps are exactly those built from records with an address.
   */
  lemma CompsOfMembers(deal: Deal, props: seq<Property>, idOf: nat -> Uuid, fetchedAt: Time, createdAt: Time)
    ensures var r := CompsOf(deal, props, idOf, fetchedAt, createdAt);
      && (r.Ok? <==> forall i :: 0 <= i < |props| ==> AddressOf(props[i]).Ok?)
      && (r.Err? ==> r.error == SplitOfNull)
      && (r.Ok? ==>
            && |r.value| <= |props|
            && forall x :: x in r.value <==>
                 exists i :: 0 <= i < |props| && ToComp(deal, props[i], idOf(i), fetchedAt, createdAt) == Ok(Some(x)))
  {
    var b := Built(deal, props, idOf, fetchedAt, createdAt);
    GatheredMembers(b);
    if Gathered(b).Err? {
      var k :| 0 <= k < |b| && b[k].Err? && Gathered(b).error == b[k].error;
    }
  }

  /**
   * Every comp belongs to the deal, comes from Rentcast with the property's
   * URL, has an address and carries the one fetch time; there is no comp at
   * all exactly when no record has an address.
   */
  lemma CompsOfSpec(deal: Deal, props: seq<Property>, idOf: nat -> Uuid, fetchedAt: Time, createdAt: Time)
    ensures var r := CompsOf(deal, props, idOf, fetchedAt, createdAt);
      r.Ok? ==>
      && (forall k :: 0 <= k < |r.value| ==>
            && r.value[k].dealId == deal.id && r.value[k].source == Rentcast && r.value[k].address != ""
            && r.value[k].fetchedAt == fetchedAt
            && r.value[k].sourceUrl.Some? && PropertyUrlPrefix <= r.value[k].sourceUrl.value)
      && (r.value == [] <==> forall i :: 0 <= i < |props| ==> AddressOf(props[i]) == Ok(""))
  {
    CompsOfMembers(deal, props, idOf, fetchedAt, createdAt);
    var r := CompsOf(deal, props, idOf, fetchedAt, createdAt);
    if r.Ok? {
      var cs := r.value;
      forall k | 0 <= k < |cs|
        ensures && cs[k].dealId == deal.id && cs[k].source == Rentcast && cs[k].address != ""
                && cs[k].fetchedAt == fetchedAt
                && cs[k].sourceUrl.Some? && PropertyUrlPrefix <= cs[k].sourceUrl.value
      {
        assert cs[k] in cs;
        var i :| 0 <= i < |props| && ToComp(deal, props[i], idOf(i), fetchedAt, createdAt) == Ok(Some(cs[k]));
      }
      if cs != [] {
        assert cs[0] in cs;
      } else {
        forall i | 0 <= i < |props| ensures AddressOf(props[i]) == Ok("") {
          var t := ToComp(deal, props[i], idOf(i), fetchedAt, createdAt);
        }
      }
    }
  }

  /** The loop over the response's properties; it stops at a record that raises. */
  method MapProperties(deal: Deal, props: seq<Property>, idOf: nat -> Uuid, fetchedAt: Time, createdAt: Time)
    returns (r: Result<seq<Comp>>)
    ensures r == CompsOf(deal, props, idOf, fetchedAt, createdAt)
  {
    ghost var b := Built(deal, props, idOf, fetchedAt, createdAt);
    var comps := [];
    for i := 0 to |props|
      invariant AllOk(b[..i]).Ok? && comps == Present(AllOk(b[..i]).value)
    {
      var c := ToComp(deal, props[i], idOf(i), fetchedAt, createdAt);
      AllOkSnoc(b, i);
      if c.Err? {
        AllOkFirstErr(b, i);
        return Err(c.error);
      }
      PresentSnocOne(AllOk(b[..i]).value, c.value);
      if c.value.Some? {
        comps := comps + [c.value.value];
      }
    }
    assert b[..|props|] == b;
    r := Ok(comps);
  }

  /**
   * The comps a request outcome yields: only a 200 response's properties
   * count, an absent list is empty, and a `null` list raises.
   */
  function Listed(deal: Deal, outcome: HttpOutcome, idOf: nat -> Uuid, fetchedAt: Time, createdAt: Time)
    : Result<seq<Comp>>
  {
    if outcome.Responded? && outcome.status == 200 then
      match outcome.properties
      case Omitted => Ok([])
      case Null => Err(IterateNull)
      case Given(props) => CompsOf(deal, props, idOf, fetchedAt, createdAt)
    else Ok([])
  }

  /**
   * A raised request, a non-200 response or a body without `properties`
   * yields no comps; a `null` list raises the TypeError of iterating None.
   */
  lemma ListedFailures(deal: Deal, outcome: HttpOutcome, idOf: nat -> Uuid, fetchedAt: Time, createdAt: Time)
    ensures outcome.Raised? ==> Listed(deal, outcome, idOf, fetchedAt, createdAt) == Ok([])
    ensures outcome.Responded? && outcome.status != 200 ==> Listed(deal, outcome, idOf, fetchedAt, createdAt) == Ok([])
    ensures outcome == Responded(200, Omitted) ==> Listed(deal, outcome, idOf, fetchedAt, createdAt) == Ok([])
    ensures outcome == Responded(200, Null) ==> Listed(deal, outcome, idOf, fetchedAt, createdAt) == Err(IterateNull)
  {
  }

  class RentcastCompsProvider {
    const apiKey: string
    const radiusMiles: real
    const limit: int
    const http: Oracle<PropertiesQuery, HttpOutcome>

    constructor (apiKey: string, radiusMiles: real, limit: int, http: Oracle<PropertiesQuery, HttpOutcome>)
      ensures this.apiKey == apiKey && this.radiusMiles == radiusMiles && this.limit == limit
      ensures this.http == http
    {
      this.apiKey := apiKey;
      this.radiusMiles := radiusMiles;
      this.limit := limit;
      this.http := http;
    }

    /** The request for a deal that passed the guards. */
    function QueryFor(deal: Deal): (q: PropertiesQuery)
      requires HasLocation(deal)
      ensures q.latitude == deal.latitude.value && q.longitude == deal.longitude.value
      ensures q.propertyType == RentcastType(deal.propertyType)
      ensures q.radius == radiusMiles && q.limit == limit && q.apiKey == apiKey
    {
      PropertiesQuery(deal.latitude.value, deal.longitude.value, radiusMiles,
                      RentcastType(deal.propertyType), limit, apiKey)
    }

    /**
     * `search_comps`: no request without coordinates or an API key; otherwise
     * one request, and the comps of a 200 response's properties, or the
     * exception the property loop raises on a `null`.
     */
    method SearchComps(deal: Deal, idOf: nat -> Uuid, fetchedAt: Time, createdAt: Time)
      returns (r: Result<seq<Comp>>)
      modifies http
      ensures !HasLocation(deal) || apiKey == "" ==> r == Ok([]) && http.calls == old(http.calls)
      ensures HasLocation(deal) && apiKey != "" ==>
                && http.calls == old(http.calls) + [QueryFor(deal)]
                && r == Listed(deal, http.answer(QueryFor(deal)), idOf, fetchedAt, createdAt)
    {
      if !HasLocation(deal) {
        return Ok([]);
      }
      if apiKey == "" {
        return Ok([]);
      }
      var outcome := http.Call(QueryFor(deal));
      if outcome.Raised? || outcome.status != 200 {
        return Ok([]);
      }
      match outcome.properties {
        case Omitted => r := Ok([]);
        case Null => r := Err(IterateNull);
        case Given(props) => r := MapProperties(deal, props, idOf, fetchedAt, createdAt);
      }
    }
  }
}
