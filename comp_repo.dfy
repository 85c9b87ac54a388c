// The comp table (`SqlAlchemyCompRepository`): a keyed upsert on the exact,
// case-sensitive `(deal_id, address)` pair, which the table's unique
// constraint `uq_comps_deal_address` also enforces; reads and deletes by deal.

module CompRepo {
  import opened Domain
  import opened Queries
  import opened KeyedUpsert

  function CompKey(c: Comp): (Uuid, string) { (c.dealId, c.address) }

  /** An overwritten row: the input's columns, but the row's id, key and `created_at`. */
  function MergeComp(existing: Comp, c: Comp): Comp {
    c.(id := existing.id, dealId := existing.dealId, address := existing.address,
       createdAt := existing.createdAt)
  }

  lemma MergeCompKeepsKey()
    ensures KeepsKey(CompKey, MergeComp)
  {
  }

  /** `b` keeps `a`'s identity: id, deal, address and creation time. */
  predicate SameIdentity(b: Comp, a: Comp) {
    b.id == a.id && b.dealId == a.dealId && b.address == a.address && b.createdAt == a.createdAt
  }

  /** `b` carries every column of `a` except possibly the id and `created_at`. */
  predicate CarriesColumns(b: Comp, a: Comp) {
    b == a.(id := b.id, createdAt := b.createdAt)
  }

  function OfDeal(rows: seq<Comp>, dealId: Uuid): seq<Comp> {
    Filter(rows, (c: Comp) => c.dealId == dealId)
  }

  function WithoutDeal(rows: seq<Comp>, dealId: Uuid): seq<Comp> {
    Filter(rows, (c: Comp) => c.dealId != dealId)
  }

  /**
   * What `bulk_upsert` promises on a table that satisfies the unique constraint:
   * it succeeds and keeps the constraint; it hands back one comp per input, in
   * input order, carrying that input's columns; an existing row keeps its
   * identity and never moves; a row whose key is not among the inputs is not
   * touched.
   */
  lemma BulkUpsertSpec(rows: seq<Comp>, comps: seq<Comp>)
    requires UniqueKeys(rows, CompKey)
    ensures UpsertAll(rows, comps, CompKey, MergeComp).Ok?
    ensures var (nrows, out) := UpsertAll(rows, comps, CompKey, MergeComp).value;
      && UniqueKeys(nrows, CompKey)
      && |out| == |comps|
      && (forall k :: 0 <= k < |comps| ==> CarriesColumns(out[k], comps[k]))
      && |rows| <= |nrows|
      && (forall i :: 0 <= i < |rows| ==> SameIdentity(nrows[i], rows[i]))
      && (forall i :: 0 <= i < |rows| && !HasKey(comps, CompKey, CompKey(rows[i])) ==> nrows[i] == rows[i])
  {
    MergeCompKeepsKey();
    UpsertAllFacts(rows, comps, CompKey, MergeComp);
    UpsertAllAgrees(rows, comps, CompKey, MergeComp, CarriesColumns);
    UpsertAllKeeps(rows, comps, CompKey, MergeComp, SameIdentity);
  }

  /** After `bulk_upsert` the keys are the old keys and the input keys. */
  lemma BulkUpsertKeys(rows: seq<Comp>, comps: seq<Comp>, key: (Uuid, string))
    requires UniqueKeys(rows, CompKey)
    ensures UpsertAll(rows, comps, CompKey, MergeComp).Ok?
    ensures HasKey(UpsertAll(rows, comps, CompKey, MergeComp).value.0, CompKey, key)
        <==> HasKey(rows, CompKey, key) || HasKey(comps, CompKey, key)
  {
    MergeCompKeepsKey();
    UpsertAllKeySet(rows, comps, CompKey, MergeComp, key);
  }

  /** The row stored under a key is the comp handed back for the LAST input with that key. */
  lemma BulkUpsertLastWins(rows: seq<Comp>, comps: seq<Comp>, k: nat)
    requires UniqueKeys(rows, CompKey)
    requires k < |comps| && forall j :: k < j < |comps| ==> CompKey(comps[j]) != CompKey(comps[k])
    ensures UpsertAll(rows, comps, CompKey, MergeComp).Ok?
    ensures var (nrows, out) := UpsertAll(rows, comps, CompKey, MergeComp).value;
      |out| == |comps| && Find(nrows, CompKey, CompKey(comps[k])) == Some(out[k])
  {
    MergeCompKeepsKey();
    UpsertAllLastWins(rows, comps, CompKey, MergeComp, k);
  }

  class CompTable {
    var rows: seq<Comp>

    /** The unique constraint on `(deal_id, address)`. */
    ghost predicate Valid()
      reads this
    {
      UniqueKeys(rows, CompKey)
    }

    constructor ()
      ensures rows == [] && Valid()
    {
      rows := [];
    }

    /** The upsert loop: one lookup per input, then overwrite or insert. */
    method BulkUpsert(comps: seq<Comp>) returns (results: seq<Comp>)
      requires Valid()
      modifies this
      ensures Valid()
      ensures UpsertAll(old(rows), comps, CompKey, MergeComp) == Ok((rows, results))
    {
      MergeCompKeepsKey();
      ghost var start := rows;
      results := [];
      for i := 0 to |comps|
        invariant UniqueKeys(rows, CompKey)
        invariant UpsertAll(start, comps[..i], CompKey, MergeComp) == Ok((rows, results))
      {
        var c := comps[i];
        UpsertAllStep(start, comps, CompKey, MergeComp, i, (rows, results));
        UpsertOneFacts(rows, c, CompKey, MergeComp);
        match Lookup(rows, CompKey, CompKey(c))
        case At(j) =>
          var updated := MergeComp(rows[j], c);
          rows := rows[j := updated];
          results := results + [updated];
        case Absent =>
          rows := rows + [c];
          results := results + [c];
      }
      assert comps[..|comps|] == comps;
    }

    /** `get_by_deal_id`: exactly the deal's rows. */
    method GetByDealId(dealId: Uuid) returns (r: seq<Comp>)
      ensures r == OfDeal(rows, dealId)
      ensures forall c :: c in r <==> c in rows && c.dealId == dealId
    {
      r := OfDeal(rows, dealId);
      forall c ensures c in r <==> c in rows && c.dealId == dealId {
        FilterMembers(rows, (c: Comp) => c.dealId == dealId, c);
      }
    }

    /** `delete_by_deal_id`: drop exactly the deal's rows, keeping the rest in order. */
    method DeleteByDealId(dealId: Uuid)
      requires Valid()
      modifies this
      ensures Valid()
      ensures rows == WithoutDeal(old(rows), dealId)
      ensures forall c :: c in rows <==> c in old(rows) && c.dealId != dealId
    {
      FilterKeepsUnique(rows, CompKey, (c: Comp) => c.dealId != dealId);
      forall c ensures c in WithoutDeal(rows, dealId) <==> c in rows && c.dealId != dealId {
        FilterMembers(rows, (c: Comp) => c.dealId != dealId, c);
      }
      rows := WithoutDeal(rows, dealId);
    }
  }
}
