// The remaining SQL tables the services read and write: deals, extracted
// fields, market tables, model results and exports. Each keeps its rows in
// insertion order; reads are filters (and sorts where the query orders).

module Tables {
  import opened Domain
  import opened Queries
  import KeyedUpsert
  import DocumentRepo

  // ---------------------------------------------------------------------------
  // Deals
  // ---------------------------------------------------------------------------

  function DealId(d: Deal): Uuid { d.id }

  predicate DealNewestFirst(a: Deal, b: Deal) { a.createdAt >= b.createdAt }

  /** The `WHERE` clauses of the deal list: each filter applies only when truthy. */
  predicate MatchesFilters(d: Deal, filters: DealFilters) {
    && (Truthy(filters.propertyType) ==> d.propertyType.Value() == filters.propertyType.value)
    && (Truthy(filters.city) ==> d.city == filters.city.value)
  }

  function FilterDeals(rows: seq<Deal>, filters: DealFilters): (r: seq<Deal>)
    ensures forall d :: d in r ==> MatchesFilters(d, filters)
  {
    Filter(rows, (d: Deal) => MatchesFilters(d, filters))
  }

  /** The columns `update(deal)` writes, with the repository's clock for `updated_at`. */
  function OverwriteDeal(row: Deal, deal: Deal, now: Time): Deal {
    row.(name := deal.name, address := deal.address, city := deal.city, state := deal.state,
         propertyType := deal.propertyType, latitude := deal.latitude,
         longitude := deal.longitude, squareFeet := deal.squareFeet, updatedAt := now)
  }

  class DealTable {
    var rows: seq<Deal>

    ghost predicate Valid()
      reads this
    {
      KeyedUpsert.UniqueKeys(rows, DealId)
    }

    constructor ()
      ensures rows == [] && Valid()
    {
      rows := [];
    }

    method Create(deal: Deal) returns (r: Deal)
      requires Valid() && !KeyedUpsert.HasKey(rows, DealId, deal.id)
      modifies this
      ensures Valid() && rows == old(rows) + [deal] && r == deal
    {
      rows := rows + [deal];
      r := deal;
    }

    method GetById(id: Uuid) returns (r: Option<Deal>)
      requires Valid()
      ensures r == KeyedUpsert.Find(rows, DealId, id)
      ensures r.Some? ==> r.value in rows && r.value.id == id
      ensures r.None? ==> forall d :: d in rows ==> d.id != id
    {
      r := KeyedUpsert.Find(rows, DealId, id);
    }

    /** `list(filters)`: the matching deals, newest first. */
    method List(filters: DealFilters) returns (r: seq<Deal>)
      ensures multiset(r) == multiset(FilterDeals(rows, filters))
      ensures forall d :: d in rows && MatchesFilters(d, filters) ==> d in r
      ensures SortedBy(r, DealNewestFirst)
    {
      var matching := FilterDeals(rows, filters);
      assert forall i :: 0 <= i < |rows| && MatchesFilters(rows[i], filters) ==> rows[i] in matching;
      SortBySorted(matching, DealNewestFirst);
      r := SortBy(matching, DealNewestFirst);
      assert forall d :: d in matching ==> d in multiset(r);
    }

    /** `update(deal)`: `scalar_one()` on the id, then overwrite the editable columns. */
    method Update(deal: Deal, now: Time) returns (r: Result<Deal>)
      requires Valid()
      modifies this
      ensures Valid()
      ensures r.Err? <==> !KeyedUpsert.HasKey(old(rows), DealId, deal.id)
      ensures r.Err? ==> r.error == NoResultFound && rows == old(rows)
      ensures r.Ok? ==>
        var i := KeyedUpsert.Lookup(old(rows), DealId, deal.id).index;
        rows == old(rows)[i := OverwriteDeal(old(rows)[i], deal, now)] && r.value == rows[i]
    {
      KeyedUpsert.UniqueNotAmbiguous(rows, DealId, deal.id);
      match KeyedUpsert.Lookup(rows, DealId, deal.id)
      case Absent =>
        r := Err(NoResultFound);
      case At(i) =>
        rows := rows[i := OverwriteDeal(rows[i], deal, now)];
        r := Ok(rows[i]);
        assert forall j :: 0 <= j < |rows| ==> DealId(rows[j]) == DealId(old(rows)[j]);
    }
  }

  // ---------------------------------------------------------------------------
  // Extracted fields and market tables
  // ---------------------------------------------------------------------------

  /** The join of extracted fields with documents on `document_id`, kept for one deal. */
  predicate OfDealDocument(f: ExtractedField, documents: seq<Document>, dealId: Uuid) {
    exists d :: d in documents && d.id == f.documentId && d.dealId == dealId
  }

  function FieldsOfDeal(rows: seq<ExtractedField>, documents: seq<Document>, dealId: Uuid)
    : (r: seq<ExtractedField>)
    ensures forall f :: f in r ==> OfDealDocument(f, documents, dealId)
    ensures forall f :: f in rows && OfDealDocument(f, documents, dealId) ==> f in r
  {
    Filter(rows, (f: ExtractedField) => OfDealDocument(f, documents, dealId))
  }

  class ExtractedFieldTable {
    var rows: seq<ExtractedField>

    constructor ()
      ensures rows == []
    {
      rows := [];
    }

    method BulkCreate(fields: seq<ExtractedField>) returns (r: seq<ExtractedField>)
      modifies this
      ensures rows == old(rows) + fields && r == fields
    {
      rows := rows + fields;
      r := fields;
    }

    method GetByDocumentId(documentId: Uuid) returns (r: seq<ExtractedField>)
      ensures r == Filter(rows, (f: ExtractedField) => f.documentId == documentId)
    {
      r := Filter(rows, (f: ExtractedField) => f.documentId == documentId);
    }

    /** `get_by_deal_id`: the fields whose document belongs to the deal. */
    method GetByDealId(documents: DocumentRepo.DocumentTable, dealId: Uuid) returns (r: seq<ExtractedField>)
      ensures r == FieldsOfDeal(rows, documents.rows, dealId)
    {
      r := FieldsOfDeal(rows, documents.rows, dealId);
    }
  }

  class MarketTableTable {
    var rows: seq<MarketTable>

    constructor ()
      ensures rows == []
    {
      rows := [];
    }

    method BulkCreate(tables: seq<MarketTable>) returns (r: seq<MarketTable>)
      modifies this
      ensures rows == old(rows) + tables && r == tables
    {
      rows := rows + tables;
      r := tables;
    }

    method GetByDocumentId(documentId: Uuid) returns (r: seq<MarketTable>)
      ensures r == Filter(rows, (t: MarketTable) => t.documentId == documentId)
    {
      r := Filter(rows, (t: MarketTable) => t.documentId == documentId);
    }
  }

  // ---------------------------------------------------------------------------
  // Model results
  // ---------------------------------------------------------------------------

  /** A result with the greatest `computed_at`, if any (`ORDER BY computed_at DESC LIMIT 1`). */
  function Latest(s: seq<ModelResult>): (r: Option<ModelResult>)
    ensures r.None? <==> s == []
    ensures r.Some? ==> r.value in s && forall x :: x in s ==> x.computedAt <= r.value.computedAt
  {
    if s == [] then None
    else
      match Latest(s[1..])
      case None => Some(s[0])
      case Some(m) =>
        assert forall x :: x in s ==> x == s[0] || x in s[1..];
        if m.computedAt > s[0].computedAt then Some(m) else Some(s[0])
  }

  class ModelResultTable {
    var rows: seq<ModelResult>

    constructor ()
      ensures rows == []
    {
      rows := [];
    }

    method Create(result: ModelResult) returns (r: ModelResult)
      modifies this
      ensures rows == old(rows) + [result] && r == result
    {
      rows := rows + [result];
      r := result;
    }

    /** `get_by_set_id`: the set's most recent result, or None when the set has none. */
    method GetBySetId(setId: Uuid) returns (r: Option<ModelResult>)
      ensures r == Latest(Filter(rows, (m: ModelResult) => m.setId == setId))
      ensures r.None? <==> forall m :: m in rows ==> m.setId != setId
      ensures r.Some? ==> r.value in rows && r.value.setId == setId
      ensures r.Some? ==> forall m :: m in rows && m.setId == setId ==> m.computedAt <= r.value.computedAt
    {
      var inSet := (m: ModelResult) => m.setId == setId;
      var mine := Filter(rows, inSet);
      forall m ensures m in mine <==> m in rows && m.setId == setId {
        FilterMembers(rows, inSet, m);
      }
      r := Latest(mine);
    }
  }

  // ---------------------------------------------------------------------------
  // Exports
  // ---------------------------------------------------------------------------

  predicate ExportNewestFirst(a: Export, b: Export) { a.createdAt >= b.createdAt }

  class ExportTable {
    var rows: seq<Export>

    constructor ()
      ensures rows == []
    {
      rows := [];
    }

    method Create(record: Export) returns (r: Export)
      modifies this
      ensures rows == old(rows) + [record] && r == record
    {
      rows := rows + [record];
      r := record;
    }

    /** The deal's exports, newest first. */
    method GetByDealId(dealId: Uuid) returns (r: seq<Export>)
      ensures multiset(r) == multiset(Filter(rows, (e: Export) => e.dealId == dealId))
      ensures SortedBy(r, ExportNewestFirst)
    {
      var mine := Filter(rows, (e: Export) => e.dealId == dealId);
      SortBySorted(mine, ExportNewestFirst);
      r := SortBy(mine, ExportNewestFirst);
    }
  }
}
