// Assumption sets and assumptions (`SqlAlchemyAssumptionSetRepository`,
// `SqlAlchemyAssumptionRepository`). Assumptions are upserted on the
// `(set_id, key)` pair, which no unique constraint backs, and listed by key.

module AssumptionRepo {
  import opened Domain
  import opened Text
  import opened Queries
  import opened KeyedUpsert

  // ---------------------------------------------------------------------------
  // Assumption sets
  // ---------------------------------------------------------------------------

  function SetId(s: AssumptionSet): Uuid { s.id }

  predicate SetNewestFirst(a: AssumptionSet, b: AssumptionSet) { a.createdAt >= b.createdAt }

  /** `s` is one of the deal's sets with the latest `created_at`: what `get_by_deal_id(...)[0]` is. */
  ghost predicate NewestOfDeal(s: AssumptionSet, rows: seq<AssumptionSet>, dealId: Uuid) {
    && s in rows && s.dealId == dealId
    && forall t :: t in rows && t.dealId == dealId ==> s.createdAt >= t.createdAt
  }

  /** The deal has no assumption set. */
  predicate NoSets(rows: seq<AssumptionSet>, dealId: Uuid) {
    forall s :: s in rows ==> s.dealId != dealId
  }

  function SetsOfDeal(rows: seq<AssumptionSet>, dealId: Uuid): seq<AssumptionSet> {
    Filter(rows, (s: AssumptionSet) => s.dealId == dealId)
  }

  class AssumptionSetTable {
    var rows: seq<AssumptionSet>

    /** `id` is the primary key. */
    ghost predicate Valid()
      reads this
    {
      UniqueKeys(rows, SetId)
    }

    constructor ()
      ensures rows == [] && Valid()
    {
      rows := [];
    }

    method Create(s: AssumptionSet) returns (r: AssumptionSet)
      requires Valid() && !HasKey(rows, SetId, s.id)
      modifies this
      ensures Valid() && rows == old(rows) + [s] && r == s
    {
      rows := rows + [s];
      r := s;
    }

    method GetById(id: Uuid) returns (r: Option<AssumptionSet>)
      requires Valid()
      ensures r == Find(rows, SetId, id)
      ensures r.Some? ==> r.value in rows && r.value.id == id
      ensures r.None? ==> forall s :: s in rows ==> s.id != id
    {
      r := Find(rows, SetId, id);
    }

    /** The deal's sets, newest first; the first one is a newest set of the deal. */
    method GetByDealId(dealId: Uuid) returns (r: seq<AssumptionSet>)
      ensures multiset(r) == multiset(SetsOfDeal(rows, dealId))
      ensures forall s :: s in r <==> s in rows && s.dealId == dealId
      ensures SortedBy(r, SetNewestFirst)
      ensures r == [] <==> NoSets(rows, dealId)
      ensures r != [] ==> NewestOfDeal(r[0], rows, dealId)
    {
      var mine := SetsOfDeal(rows, dealId);
      SortBySorted(mine, SetNewestFirst);
      r := SortBy(mine, SetNewestFirst);
      forall s ensures s in r <==> s in rows && s.dealId == dealId {
        FilterMembers(rows, (s: AssumptionSet) => s.dealId == dealId, s);
        assert s in r <==> s in multiset(r);
      }
      NewestFirstHead(r);
    }
  }

  lemma NewestFirstHead(r: seq<AssumptionSet>)
    requires SortedBy(r, SetNewestFirst)
    ensures r != [] ==> forall s :: s in r ==> r[0].createdAt >= s.createdAt
  {
    if r != [] {
      forall s | s in r ensures r[0].createdAt >= s.createdAt {
        var k :| 0 <= k < |r| && r[k] == s;
        if k > 0 {
          assert SetNewestFirst(r[0], r[k]);
        }
      }
    }
  }

  // ---------------------------------------------------------------------------
  // Assumptions
  // ---------------------------------------------------------------------------

  function AssumptionId(a: Assumption): Uuid { a.id }

  function AssumptionKey(a: Assumption): (Uuid, string) { (a.setId, a.key) }

  /** An overwritten row: the input's values and provenance, and `updated_at` from the clock. */
  function MergeAssumption(existing: Assumption, a: Assumption, now: Time): Assumption {
    existing.(valueNumber := a.valueNumber, unit := a.unit, rangeMin := a.rangeMin,
              rangeMax := a.rangeMax, sourceType := a.sourceType, sourceRef := a.sourceRef,
              notes := a.notes, updatedAt := now)
  }

  function Merge(now: Time): (Assumption, Assumption) -> Assumption {
    (e: Assumption, a: Assumption) => MergeAssumption(e, a, now)
  }

  lemma MergeKeepsKey(now: Time)
    ensures KeepsKey(AssumptionKey, Merge(now))
  {
  }

  /** `b` carries every column of `a` except possibly the id and `updated_at`. */
  predicate CarriesValues(b: Assumption, a: Assumption) {
    b == a.(id := b.id, updatedAt := b.updatedAt)
  }

  /** `b` keeps `a`'s id and key. */
  predicate SameIdentity(b: Assumption, a: Assumption) {
    b.id == a.id && b.setId == a.setId && b.key == a.key
  }

  /**
   * On a table without duplicate `(set_id, key)` pairs `bulk_upsert` succeeds
   * and keeps it so, hands back one assumption per input carrying that
   * input's values, keeps every existing row's identity, and leaves the rows
   * whose key is not input alone.
   */
  lemma BulkUpsertSpec(rows: seq<Assumption>, xs: seq<Assumption>, now: Time)
    requires UniqueKeys(rows, AssumptionKey)
    ensures UpsertAll(rows, xs, AssumptionKey, Merge(now)).Ok?
    ensures var (nrows, out) := UpsertAll(rows, xs, AssumptionKey, Merge(now)).value;
      && UniqueKeys(nrows, AssumptionKey)
      && |out| == |xs|
      && (forall k :: 0 <= k < |xs| ==> CarriesValues(out[k], xs[k]))
      && |rows| <= |nrows|
      && (forall i :: 0 <= i < |rows| ==> SameIdentity(nrows[i], rows[i]))
      && (forall i :: 0 <= i < |rows| && !HasKey(xs, AssumptionKey, AssumptionKey(rows[i])) ==>
            nrows[i] == rows[i])
  {
    MergeKeepsKey(now);
    UpsertAllFacts(rows, xs, AssumptionKey, Merge(now));
    UpsertAllAgrees(rows, xs, AssumptionKey, Merge(now), CarriesValues);
    UpsertAllKeeps(rows, xs, AssumptionKey, Merge(now), SameIdentity);
  }

  /** After `bulk_upsert` a set holds a key exactly when it held it before or an input brought it. */
  lemma BulkUpsertKeys(rows: seq<Assumption>, xs: seq<Assumption>, now: Time, k: (Uuid, string))
    requires UniqueKeys(rows, AssumptionKey)
    ensures UpsertAll(rows, xs, AssumptionKey, Merge(now)).Ok?
    ensures HasKey(UpsertAll(rows, xs, AssumptionKey, Merge(now)).value.0, AssumptionKey, k)
        <==> HasKey(rows, AssumptionKey, k) || HasKey(xs, AssumptionKey, k)
  {
    MergeKeepsKey(now);
    UpsertAllKeySet(rows, xs, AssumptionKey, Merge(now), k);
  }

  /** Two stored rows for the first input's key make the whole upsert fail. */
  lemma BulkUpsertDuplicate(rows: seq<Assumption>, xs: seq<Assumption>, now: Time, i: nat, j: nat)
    requires xs != [] && i < j < |rows|
    requires AssumptionKey(rows[i]) == AssumptionKey(xs[0]) && AssumptionKey(rows[j]) == AssumptionKey(xs[0])
    ensures UpsertAll(rows, xs, AssumptionKey, Merge(now)) == Err(MultipleResultsFound)
  {
    UpsertAllDuplicateFails(rows, xs, AssumptionKey, Merge(now), i, j);
  }

  /** `ORDER BY key`. */
  predicate KeyOrder(a: Assumption, b: Assumption) { LexLe(a.key, b.key) }

  lemma KeyOrderTotal()
    ensures TotalPreorder(KeyOrder)
  {
    forall a: Assumption, b: Assumption ensures KeyOrder(a, b) || KeyOrder(b, a) {
      LexLeTotal(a.key, b.key);
    }
    forall a: Assumption, b: Assumption, c: Assumption | KeyOrder(a, b) && KeyOrder(b, c)
      ensures KeyOrder(a, c)
    {
      LexLeTransitive(a.key, b.key, c.key);
    }
  }

  function OfSet(rows: seq<Assumption>, setId: Uuid): seq<Assumption> {
    Filter(rows, (a: Assumption) => a.setId == setId)
  }

  /** The columns `update(assumption)` writes: everything but the id and the set. */
  function OverwriteAssumption(row: Assumption, a: Assumption, now: Time): (r: Assumption)
    ensures r.id == row.id && r.setId == row.setId
    ensures row.id == a.id ==> r == a.(setId := row.setId, updatedAt := now)
  {
    row.(key := a.key, valueNumber := a.valueNumber, unit := a.unit, rangeMin := a.rangeMin,
         rangeMax := a.rangeMax, sourceType := a.sourceType, sourceRef := a.sourceRef,
         notes := a.notes, updatedAt := now)
  }

  class AssumptionTable {
    var rows: seq<Assumption>

    constructor ()
      ensures rows == []
    {
      rows := [];
    }

    /**
     * `bulk_upsert`: the upsert loop, with `now` standing for `datetime.utcnow()`.
     * When a lookup raises, nothing the loop wrote survives.
     */
    method BulkUpsert(xs: seq<Assumption>, now: Time) returns (r: Result<seq<Assumption>>)
      modifies this
      ensures match UpsertAll(old(rows), xs, AssumptionKey, Merge(now))
        case Ok(done) => rows == done.0 && r == Ok(done.1)
        case Err(e) => rows == old(rows) && r == Err(e)
    {
      var start := rows;  // what the rollback restores
      var results: seq<Assumption> := [];
      var i := 0;
      while i < |xs|
        invariant i <= |xs|
        invariant UpsertAll(start, xs[..i], AssumptionKey, Merge(now)) == Ok((rows, results))
      {
        var a := xs[i];
        UpsertAllStep(start, xs, AssumptionKey, Merge(now), i, (rows, results));
        match Lookup(rows, AssumptionKey, AssumptionKey(a)) {
        case Ambiguous =>
          UpsertAllErrSticks(start, xs, AssumptionKey, Merge(now), i + 1);
          rows := start;
          return Err(MultipleResultsFound);
        case At(j) =>
          var updated := MergeAssumption(rows[j], a, now);
          rows := rows[j := updated];
          results := results + [updated];
        case Absent =>
          rows := rows + [a];
          results := results + [a];
        }
        i := i + 1;
      }
      assert xs[..|xs|] == xs;
      r := Ok(results);
    }

    /** `get_by_set_id`: the set's assumptions, ordered by key. */
    method GetBySetId(setId: Uuid) returns (r: seq<Assumption>)
      ensures multiset(r) == multiset(OfSet(rows, setId))
      ensures forall a :: a in r <==> a in rows && a.setId == setId
      ensures SortedBy(r, KeyOrder)
    {
      var mine := OfSet(rows, setId);
      KeyOrderTotal();
      SortBySorted(mine, KeyOrder);
      r := SortBy(mine, KeyOrder);
      forall a ensures a in r <==> a in rows && a.setId == setId {
        FilterMembers(rows, (a: Assumption) => a.setId == setId, a);
        assert a in r <==> a in multiset(r);
      }
    }

    /** `update`: `scalar_one()` on the id, then overwrite every column but the set. */
    method Update(a: Assumption, now: Time) returns (r: Result<Assumption>)
      modifies this
      ensures Lookup(old(rows), AssumptionId, a.id).Absent? ==>
        r == Err(NoResultFound) && rows == old(rows)
      ensures Lookup(old(rows), AssumptionId, a.id).Ambiguous? ==>
        r == Err(MultipleResultsFound) && rows == old(rows)
      ensures Lookup(old(rows), AssumptionId, a.id).At? ==>
        var i := Lookup(old(rows), AssumptionId, a.id).index;
        rows == old(rows)[i := OverwriteAssumption(old(rows)[i], a, now)] && r == Ok(rows[i])
    {
      match Lookup(rows, AssumptionId, a.id)
      case Absent =>
        r := Err(NoResultFound);
      case Ambiguous =>
        r := Err(MultipleResultsFound);
      case At(i) =>
        rows := rows[i := OverwriteAssumption(rows[i], a, now)];
        r := Ok(rows[i]);
    }
  }
}
