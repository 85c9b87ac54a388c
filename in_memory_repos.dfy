// The in-memory repositories the backend's test suite runs the services
// against. Each keeps what the SQL repositories keep in a table in a Python
// `dict` keyed by id (insertion ordered: a new id goes last, an assignment
// to a known id keeps its place) or in a plain list. Unlike the tables, the
// reads are not sorted and an update of an unknown id inserts it.

module InMemoryRepos {
  import opened Domain
  import opened Queries
  import opened KeyedUpsert
  import Tables
  import DocumentRepo
  import AssumptionRepo

  // ---------------------------------------------------------------------------
  // A dict keyed by id
  // ---------------------------------------------------------------------------

  /** `store[id(x)] = x`: a known id is overwritten in place, a new one goes last. */
  function Put<R>(store: seq<R>, id: R -> Uuid, x: R): seq<R> {
    match Lookup(store, id, id(x))
    case At(i) => store[i := x]
    case _ => store + [x]
  }

  /** On a store with one entry per id, `Find` is `dict.get`: the entry of that id. */
  lemma FindUnique<R>(store: seq<R>, id: R -> Uuid, j: nat)
    requires UniqueKeys(store, id) && j < |store|
    ensures Find(store, id, id(store[j])) == Some(store[j])
  {
    UniqueNotAmbiguous(store, id, id(store[j]));
  }

  /**
   * The dict laws: after `store[id(x)] = x` the ids stay distinct, `get`
   * returns `x` for its id and what it returned before for every other id,
   * and the store grew by one entry exactly when the id was new.
   */
  lemma PutSpec<R>(store: seq<R>, id: R -> Uuid, x: R)
    requires UniqueKeys(store, id)
    ensures UniqueKeys(Put(store, id, x), id)
    ensures Find(Put(store, id, x), id, id(x)) == Some(x)
    ensures forall k :: k != id(x) ==> Find(Put(store, id, x), id, k) == Find(store, id, k)
    ensures |Put(store, id, x)| == |store| + (if HasKey(store, id, id(x)) then 0 else 1)
  {
    UniqueNotAmbiguous(store, id, id(x));
    var p := Put(store, id, x);
    match Lookup(store, id, id(x))
    case At(i) =>
      assert p == store[i := x];
      PutKeysAt(store, id, x, i);
    case Absent =>
      assert p == store + [x];
      PutKeysAbsent(store, id, x);
  }

  /** Overwriting the entry at `i`, the one with `x`'s id. */
  lemma PutKeysAt<R>(store: seq<R>, id: R -> Uuid, x: R, i: nat)
    requires UniqueKeys(store, id) && i < |store| && id(store[i]) == id(x)
    ensures UniqueKeys(store[i := x], id)
    ensures Find(store[i := x], id, id(x)) == Some(x)
    ensures forall k :: k != id(x) ==> Find(store[i := x], id, k) == Find(store, id, k)
  {
    var p := store[i := x];
    assert forall j :: 0 <= j < |p| ==> (id(p[j]) == id(x) <==> j == i);
    FindUnique(p, id, i);
    forall k | k != id(x) ensures Find(p, id, k) == Find(store, id, k) {
      if j :| 0 <= j < |store| && id(store[j]) == k {
        FindUnique(store, id, j);
        FindUnique(p, id, j);
      } else {
        assert !HasKey(p, id, k);
      }
    }
  }

  /** Appending `x`, whose id is not stored yet. */
  lemma PutKeysAbsent<R>(store: seq<R>, id: R -> Uuid, x: R)
    requires UniqueKeys(store, id) && !HasKey(store, id, id(x))
    ensures UniqueKeys(store + [x], id)
    ensures Find(store + [x], id, id(x)) == Some(x)
    ensures forall k :: k != id(x) ==> Find(store + [x], id, k) == Find(store, id, k)
  {
    var p := store + [x];
    FindUnique(p, id, |store|);
    forall k | k != id(x) ensures Find(p, id, k) == Find(store, id, k) {
      if j :| 0 <= j < |store| && id(store[j]) == k {
        FindUnique(store, id, j);
        FindUnique(p, id, j);
      } else {
        assert !HasKey(p, id, k);
      }
    }
  }


  /** The position of the first entry whose key is `k`, in iteration order. */
  function FirstWith<R, K(==)>(store: seq<R>, key: R -> K, k: K): (r: Option<nat>)
    ensures r.None? <==> forall j :: 0 <= j < |store| ==> key(store[j]) != k
    ensures r.Some? ==> r.value < |store| && key(store[r.value]) == k
    ensures r.Some? ==> forall j :: 0 <= j < r.value ==> key(store[j]) != k
  {
    if store == [] then None
    else if key(store[0]) == k then Some(0)
    else match FirstWith(store[1..], key, k)
      case None => None
      case Some(i) => Some(i + 1)
  }

  // ---------------------------------------------------------------------------
  // Deals
  // ---------------------------------------------------------------------------

  class DealStore {
    var store: seq<Deal>

    ghost predicate Valid()
      reads this
    {
      UniqueKeys(store, Tables.DealId)
    }

    constructor ()
      ensures store == [] && Valid()
    {
      store := [];
    }

    method Create(deal: Deal) returns (r: Deal)
      requires Valid()
      modifies this
      ensures Valid() && store == Put(old(store), Tables.DealId, deal) && r == deal
    {
      PutSpec(store, Tables.DealId, deal);
      store := Put(store, Tables.DealId, deal);
      r := deal;
    }

    method GetById(id: Uuid) returns (r: Option<Deal>)
      requires Valid()
      ensures r.Some? ==> r.value in store && r.value.id == id
      ensures r.None? <==> forall d :: d in store ==> d.id != id
    {
      r := Find(store, Tables.DealId, id);
    }

    /**
     * `list(filters)`: every deal in insertion order, narrowed by the
     * property type and the city when they are given; the status is ignored.
     * The deals kept are those the SQL repository's filter keeps.
     */
    method List(filters: Option<DealFilters>) returns (r: seq<Deal>)
      ensures filters.None? ==> r == store
      ensures filters.Some? ==> r == Tables.FilterDeals(store, filters.value)
    {
      r := store;
      if filters.Some? {
        var f := filters.value;
        ghost var matches := (d: Deal) => Tables.MatchesFilters(d, f);
        ghost var typed := store;
        if Truthy(f.propertyType) {
          var propertyType := f.propertyType.value;
          var byType := (d: Deal) => d.propertyType.Value() == propertyType;
          r := Filter(r, byType);
          typed := r;
          if Truthy(f.city) {
            FilterFilter(store, byType, matches);
          } else {
            FilterSame(store, byType, matches);
          }
        }
        if Truthy(f.city) {
          var city := f.city.value;
          var byCity := (d: Deal) => d.city == city;
          r := Filter(r, byCity);
          FilterSame(typed, byCity, matches);
        }
        if !Truthy(f.propertyType) && !Truthy(f.city) {
          FilterAll(store, matches);
        }
        assert Tables.FilterDeals(store, f) == Filter(store, matches);
      }
    }

    /** `update(deal)`: a plain assignment, so an unknown id is inserted rather than refused. */
    method Update(deal: Deal) returns (r: Deal)
      requires Valid()
      modifies this
      ensures Valid() && store == Put(old(store), Tables.DealId, deal) && r == deal
    {
      PutSpec(store, Tables.DealId, deal);
      store := Put(store, Tables.DealId, deal);
      r := deal;
    }
  }

  // ---------------------------------------------------------------------------
  // Documents
  // ---------------------------------------------------------------------------

  class DocumentStore {
    var store: seq<Document>

    ghost predicate Valid()
      reads this
    {
      UniqueKeys(store, DocumentRepo.DocId)
    }

    constructor ()
      ensures store == [] && Valid()
    {
      store := [];
    }

    method Create(doc: Document) returns (r: Document)
      requires Valid()
      modifies this
      ensures Valid() && store == Put(old(store), DocumentRepo.DocId, doc) && r == doc
    {
      PutSpec(store, DocumentRepo.DocId, doc);
      store := Put(store, DocumentRepo.DocId, doc);
      r := doc;
    }

    method GetById(id: Uuid) returns (r: Option<Document>)
      requires Valid()
      ensures r.Some? ==> r.value in store && r.value.id == id
      ensures r.None? <==> forall d :: d in store ==> d.id != id
    {
      r := Find(store, DocumentRepo.DocId, id);
    }

    /** The deal's documents in insertion order. */
    method GetByDealId(dealId: Uuid) returns (r: seq<Document>)
      ensures r == Filter(store, (d: Document) => d.dealId == dealId)
      ensures forall d :: d in r <==> d in store && d.dealId == dealId
    {
      r := Filter(store, (d: Document) => d.dealId == dealId);
      forall d ensures d in r <==> d in store && d.dealId == dealId {
        FilterMembers(store, (d: Document) => d.dealId == dealId, d);
      }
    }

    method Update(doc: Document) returns (r: Document)
      requires Valid()
      modifies this
      ensures Valid() && store == Put(old(store), DocumentRepo.DocId, doc) && r == doc
    {
      PutSpec(store, DocumentRepo.DocId, doc);
      store := Put(store, DocumentRepo.DocId, doc);
      r := doc;
    }

    /**
     * `update_processing_step`: an unknown id is an error and changes
     * nothing; otherwise the first step of that name is replaced (or the step
     * appended), and `updated_at` is left as it was.
     */
    method UpdateProcessingStep(id: Uuid, step: ProcessingStep) returns (r: Result<Document>)
      requires Valid()
      modifies this
      ensures Valid()
      ensures r.Err? <==> !HasKey(old(store), DocumentRepo.DocId, id)
      ensures r.Err? ==> r.error == DocumentNotFound(id) && store == old(store)
      ensures r.Ok? ==>
        var doc := Find(old(store), DocumentRepo.DocId, id).value;
        && r.value == doc.(processingSteps := DocumentRepo.UpdateStep(doc.processingSteps, step))
        && store == Put(old(store), DocumentRepo.DocId, r.value)
    {
      var found := Find(store, DocumentRepo.DocId, id);
      if found.None? {
        return Err(DocumentNotFound(id));
      }
      var doc := found.value;
      var steps := doc.processingSteps;
      var updated := false;
      var i := 0;
      while i < |steps|
        invariant 0 <= i <= |steps|
        invariant !updated ==> steps == doc.processingSteps
        invariant !updated ==> forall j :: 0 <= j < i ==> steps[j].name != step.name
        invariant updated ==> steps == DocumentRepo.UpdateStep(doc.processingSteps, step)
      {
        if steps[i].name == step.name {
          steps := steps[i := step];
          updated := true;
          break;
        }
        i := i + 1;
      }
      if !updated {
        steps := steps + [step];
      }
      doc := doc.(processingSteps := steps);
      PutSpec(store, DocumentRepo.DocId, doc);
      store := Put(store, DocumentRepo.DocId, doc);
      r := Ok(doc);
    }
  }

  // ---------------------------------------------------------------------------
  // Extracted fields and market tables
  // ---------------------------------------------------------------------------

  class ExtractedFieldStore {
    var store: seq<ExtractedField>
    /** The document repository `get_by_deal_id` consults, if one was given. */
    const documents: DocumentStore?

    constructor (documents: DocumentStore?)
      ensures store == [] && this.documents == documents
    {
      store := [];
      this.documents := documents;
    }

    method BulkCreate(fields: seq<ExtractedField>) returns (r: seq<ExtractedField>)
      modifies this
      ensures store == old(store) + fields && r == fields
    {
      store := store + fields;
      r := fields;
    }

    method GetByDocumentId(documentId: Uuid) returns (r: seq<ExtractedField>)
      ensures r == Filter(store, (f: ExtractedField) => f.documentId == documentId)
    {
      r := Filter(store, (f: ExtractedField) => f.documentId == documentId);
    }

    /**
     * `get_by_deal_id`: nothing without a document repository; otherwise the
     * fields whose document belongs to the deal, which are exactly the rows
     * the SQL repository's join returns.
     */
    method GetByDealId(dealId: Uuid) returns (r: seq<ExtractedField>)
      ensures documents == null ==> r == []
      ensures documents != null ==> r == Tables.FieldsOfDeal(store, documents.store, dealId)
    {
      if documents == null {
        return [];
      }
      var docs := documents.GetByDealId(dealId);
      var docIds := set d | d in docs :: d.id;
      var ofDeal := (f: ExtractedField) => f.documentId in docIds;
      r := Filter(store, ofDeal);
      ghost var docStore := documents.store;
      ghost var joined := (f: ExtractedField) => Tables.OfDealDocument(f, docStore, dealId);
      forall i | 0 <= i < |store| ensures ofDeal(store[i]) == joined(store[i]) {
        var f := store[i];
        if f.documentId in docIds {
          var d :| d in docs && d.id == f.documentId;
          assert d in documents.store && d.dealId == dealId;
        }
        if joined(f) {
          var d :| d in documents.store && d.id == f.documentId && d.dealId == dealId;
          assert d in docs;
        }
      }
      FilterSame(store, ofDeal, joined);
      assert Tables.FieldsOfDeal(store, documents.store, dealId) == Filter(store, joined);
    }
  }

  class MarketTableStore {
    var store: seq<MarketTable>

    constructor ()
      ensures store == []
    {
      store := [];
    }

    method BulkCreate(tables: seq<MarketTable>) returns (r: seq<MarketTable>)
      modifies this
      ensures store == old(store) + tables && r == tables
    {
      store := store + tables;
      r := tables;
    }

    method GetByDocumentId(documentId: Uuid) returns (r: seq<MarketTable>)
      ensures r == Filter(store, (t: MarketTable) => t.documentId == documentId)
    {
      r := Filter(store, (t: MarketTable) => t.documentId == documentId);
    }
  }

  // ---------------------------------------------------------------------------
  // Assumption sets and assumptions
  // ---------------------------------------------------------------------------

  class AssumptionSetStore {
    var store: seq<AssumptionSet>

    ghost predicate Valid()
      reads this
    {
      UniqueKeys(store, AssumptionRepo.SetId)
    }

    constructor ()
      ensures store == [] && Valid()
    {
      store := [];
    }

    method Create(s: AssumptionSet) returns (r: AssumptionSet)
      requires Valid()
      modifies this
      ensures Valid() && store == Put(old(store), AssumptionRepo.SetId, s) && r == s
    {
      PutSpec(store, AssumptionRepo.SetId, s);
      store := Put(store, AssumptionRepo.SetId, s);
      r := s;
    }

    method GetById(id: Uuid) returns (r: Option<AssumptionSet>)
      requires Valid()
      ensures r.Some? ==> r.value in store && r.value.id == id
      ensures r.None? <==> forall s :: s in store ==> s.id != id
    {
      r := Find(store, AssumptionRepo.SetId, id);
    }

    /** The deal's sets in insertion order: the SQL repository's rows, unsorted. */
    method GetByDealId(dealId: Uuid) returns (r: seq<AssumptionSet>)
      ensures r == AssumptionRepo.SetsOfDeal(store, dealId)
      ensures forall s :: s in r <==> s in store && s.dealId == dealId
    {
      r := Filter(store, (s: AssumptionSet) => s.dealId == dealId);
      forall s ensures s in r <==> s in store && s.dealId == dealId {
        FilterMembers(store, (s: AssumptionSet) => s.dealId == dealId, s);
      }
    }
  }

  /**
   * The entry written for `a` when the stored `existing` has its set and key:
   * `a`'s values under `existing`'s id, and a fresh `updated_at` (the rebuilt
   * assumption takes the constructor's default).
   */
  function Rekeyed(existing: Assumption, a: Assumption, now: Time): Assumption {
    a.(id := existing.id, updatedAt := now)
  }

  /** One iteration of `bulk_upsert`'s outer loop. */
  function UpsertEntry(store: seq<Assumption>, a: Assumption, now: Time): seq<Assumption> {
    match FirstWith(store, AssumptionRepo.AssumptionKey, AssumptionRepo.AssumptionKey(a))
    case Some(i) => Put(store, AssumptionRepo.AssumptionId, Rekeyed(store[i], a, now))
    case None => Put(store, AssumptionRepo.AssumptionId, a)
  }

  function UpsertEntries(store: seq<Assumption>, xs: seq<Assumption>, now: Time): seq<Assumption>
    decreases |xs|
  {
    if xs == [] then store
    else UpsertEntry(UpsertEntries(store, xs[..|xs| - 1], now), xs[|xs| - 1], now)
  }

  /**
   * One upsert keeps the ids distinct. When an entry has the input's set and
   * key, the first such entry is overwritten in place with the input's values
   * under its own id and nothing else changes. Otherwise the input is stored
   * under its own id: appended when that id is new.
   */
  lemma UpsertEntrySpec(store: seq<Assumption>, a: Assumption, now: Time)
    requires UniqueKeys(store, AssumptionRepo.AssumptionId)
    ensures UniqueKeys(UpsertEntry(store, a, now), AssumptionRepo.AssumptionId)
    ensures match FirstWith(store, AssumptionRepo.AssumptionKey, AssumptionRepo.AssumptionKey(a))
      case Some(i) =>
        && UpsertEntry(store, a, now) == store[i := Rekeyed(store[i], a, now)]
        && AssumptionRepo.CarriesValues(UpsertEntry(store, a, now)[i], a)
      case None =>
        !HasKey(store, AssumptionRepo.AssumptionId, a.id) ==> UpsertEntry(store, a, now) == store + [a]
  {
    var id := AssumptionRepo.AssumptionId;
    match FirstWith(store, AssumptionRepo.AssumptionKey, AssumptionRepo.AssumptionKey(a))
    case Some(i) =>
      var b := Rekeyed(store[i], a, now);
      PutSpec(store, id, b);
      UniqueNotAmbiguous(store, id, b.id);
      assert Lookup(store, id, b.id) == At(i);
    case None =>
      PutSpec(store, id, a);
  }

  /**
   * After an upsert, the store has an entry with the input's set and key
   * that carries the input's values, and every entry with another set or key
   * and another id than the input's is still there.
   */
  lemma UpsertEntryKeeps(store: seq<Assumption>, a: Assumption, now: Time)
    requires UniqueKeys(store, AssumptionRepo.AssumptionId)
    ensures exists b :: b in UpsertEntry(store, a, now)
              && AssumptionRepo.AssumptionKey(b) == AssumptionRepo.AssumptionKey(a)
              && AssumptionRepo.CarriesValues(b, a)
    ensures forall b ::
              (b in store && AssumptionRepo.AssumptionKey(b) != AssumptionRepo.AssumptionKey(a) && b.id != a.id)
              ==> b in UpsertEntry(store, a, now)
  {
    var id := AssumptionRepo.AssumptionId;
    var r := UpsertEntry(store, a, now);
    UpsertEntrySpec(store, a, now);
    match FirstWith(store, AssumptionRepo.AssumptionKey, AssumptionRepo.AssumptionKey(a))
    case Some(i) =>
      assert r[i] in r;
      forall b | b in store && AssumptionRepo.AssumptionKey(b) != AssumptionRepo.AssumptionKey(a)
        ensures b in r
      {
        var j :| 0 <= j < |store| && store[j] == b;
        assert r[j] == b;
      }
    case None =>
      PutSpec(store, id, a);
      FindUnique(r, id, 0);
      assert Find(r, id, a.id) == Some(a);
      forall b | b in store && b.id != a.id ensures b in r {
        var j :| 0 <= j < |store| && store[j] == b;
        FindUnique(store, id, j);
      }
  }

  /** `bulk_upsert` keeps the ids distinct, whatever the inputs. */
  lemma {:induction false} UpsertEntriesUnique(store: seq<Assumption>, xs: seq<Assumption>, now: Time)
    requires UniqueKeys(store, AssumptionRepo.AssumptionId)
    ensures UniqueKeys(UpsertEntries(store, xs, now), AssumptionRepo.AssumptionId)
    decreases |xs|
  {
    if xs != [] {
      UpsertEntriesUnique(store, xs[..|xs| - 1], now);
      UpsertEntrySpec(UpsertEntries(store, xs[..|xs| - 1], now), xs[|xs| - 1], now);
    }
  }

  class AssumptionStore {
    var store: seq<Assumption>

    ghost predicate Valid()
      reads this
    {
      UniqueKeys(store, AssumptionRepo.AssumptionId)
    }

    constructor ()
      ensures store == [] && Valid()
    {
      store := [];
    }

    /** `bulk_upsert`'s inner loop: the first stored entry with the input's set and key, if any. */
    method FirstStored(a: Assumption) returns (existing: Option<Assumption>)
      ensures existing == match FirstWith(store, AssumptionRepo.AssumptionKey, AssumptionRepo.AssumptionKey(a))
                          case Some(i) => Some(store[i])
                          case None => None
    {
      existing := None;
      var i := 0;
      while i < |store|
        invariant 0 <= i <= |store|
        invariant forall j :: 0 <= j < i ==> AssumptionRepo.AssumptionKey(store[j]) != AssumptionRepo.AssumptionKey(a)
        invariant existing == None
      {
        if store[i].setId == a.setId && store[i].key == a.key {
          existing := Some(store[i]);
          return;
        }
        i := i + 1;
      }
    }

    /**
     * `bulk_upsert`: the outer loop over the inputs, the inner search for the
     * first stored entry with the input's set and key. The inputs themselves
     * are handed back, so an input that matched a stored entry comes back
     * with its own id, not the id it was stored under.
     */
    method BulkUpsert(assumptions: seq<Assumption>, now: Time) returns (r: seq<Assumption>)
      requires Valid()
      modifies this
      ensures Valid()
      ensures store == UpsertEntries(old(store), assumptions, now)
      ensures r == assumptions
    {
      for n := 0 to |assumptions|
        invariant Valid()
        invariant store == UpsertEntries(old(store), assumptions[..n], now)
      {
        assert assumptions[..n + 1][..n] == assumptions[..n];
        var a := assumptions[n];
        var existing := FirstStored(a);
        UpsertEntrySpec(store, a, now);
        if existing.Some? {
          store := Put(store, AssumptionRepo.AssumptionId, Rekeyed(existing.value, a, now));
        } else {
          store := Put(store, AssumptionRepo.AssumptionId, a);
        }
      }
      assert assumptions[..|assumptions|] == assumptions;
      r := assumptions;
    }

    /** The set's assumptions in insertion order (the SQL repository sorts them by key). */
    method GetBySetId(setId: Uuid) returns (r: seq<Assumption>)
      ensures r == Filter(store, (a: Assumption) => a.setId == setId)
      ensures forall a :: a in r <==> a in store && a.setId == setId
    {
      r := Filter(store, (a: Assumption) => a.setId == setId);
      forall a ensures a in r <==> a in store && a.setId == setId {
        FilterMembers(store, (a: Assumption) => a.setId == setId, a);
      }
    }

    /** `update(assumption)`: a plain assignment by id. */
    method Update(a: Assumption) returns (r: Assumption)
      requires Valid()
      modifies this
      ensures Valid() && store == Put(old(store), AssumptionRepo.AssumptionId, a) && r == a
    {
      PutSpec(store, AssumptionRepo.AssumptionId, a);
      store := Put(store, AssumptionRepo.AssumptionId, a);
      r := a;
    }
  }

  /**
   * An input whose set and key are stored comes back from `bulk_upsert` with
   * its own id while the store keeps the stored id, so the handed-back
   * assumption is not the stored one.
   */
  lemma ReturnedIdIsNotStoredId(stored: Assumption, a: Assumption, now: Time)
    requires AssumptionRepo.AssumptionKey(stored) == AssumptionRepo.AssumptionKey(a) && stored.id != a.id
    ensures UpsertEntries([stored], [a], now) == [Rekeyed(stored, a, now)]
    ensures a !in UpsertEntries([stored], [a], now)
  {
    assert [a][..0] == [];
    UpsertEntrySpec([stored], a, now);
  }

  // ---------------------------------------------------------------------------
  // Exports
  // ---------------------------------------------------------------------------

  class ExportStore {
    var store: seq<Export>

    constructor ()
      ensures store == []
    {
      store := [];
    }

    /** `create`: append-only, even for a repeated id. */
    method Create(record: Export) returns (r: Export)
      modifies this
      ensures store == old(store) + [record] && r == record
    {
      store := store + [record];
      r := record;
    }

    /** The deal's exports in insertion order (the SQL repository puts the newest first). */
    method GetByDealId(dealId: Uuid) returns (r: seq<Export>)
      ensures r == Filter(store, (e: Export) => e.dealId == dealId)
      ensures forall e :: e in r <==> e in store && e.dealId == dealId
    {
      r := Filter(store, (e: Export) => e.dealId == dealId);
      forall e ensures e in r <==> e in store && e.dealId == dealId {
        FilterMembers(store, (e: Export) => e.dealId == dealId, e);
      }
    }
  }
}
