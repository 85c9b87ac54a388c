// The field-validation table (`SqlAlchemyFieldValidationRepository`): a keyed
// upsert on `(deal_id, field_key)`. No unique constraint backs that pair, so a
// table holding two rows for one key makes the lookup raise; the exception
// ends the request and the session's rollback discards the loop's writes.

module FieldValidationRepo {
  import opened Domain
  import opened Queries
  import opened KeyedUpsert

  function ValidationKey(v: FieldValidation): (Uuid, string) { (v.dealId, v.fieldKey) }

  /**
   * An overwritten row: the input's verdict columns, the row's id and key, and
   * `created_at` reset to the clock.
   */
  function MergeValidation(existing: FieldValidation, v: FieldValidation, now: Time): FieldValidation {
    existing.(omValue := v.omValue, marketValue := v.marketValue, status := v.status,
              explanation := v.explanation, sources := v.sources, confidence := v.confidence,
              searchSteps := v.searchSteps, createdAt := now)
  }

  function Merge(now: Time): (FieldValidation, FieldValidation) -> FieldValidation {
    (e: FieldValidation, v: FieldValidation) => MergeValidation(e, v, now)
  }

  lemma MergeKeepsKey(now: Time)
    ensures KeepsKey(ValidationKey, Merge(now))
  {
  }

  /** `b` carries every column of `a` except possibly the id and `created_at`. */
  predicate CarriesVerdict(b: FieldValidation, a: FieldValidation) {
    b == a.(id := b.id, createdAt := b.createdAt)
  }

  /** `b` keeps `a`'s id and key. */
  predicate SameIdentity(b: FieldValidation, a: FieldValidation) {
    b.id == a.id && b.dealId == a.dealId && b.fieldKey == a.fieldKey
  }

  /**
   * On a table without duplicate keys `bulk_upsert` succeeds, keeps the table
   * free of duplicates, hands back one validation per input carrying that
   * input's verdict (stamped `now` when it overwrote a row), keeps every
   * existing row's identity and leaves the rows whose key is not input alone.
   */
  lemma BulkUpsertSpec(rows: seq<FieldValidation>, vs: seq<FieldValidation>, now: Time)
    requires UniqueKeys(rows, ValidationKey)
    ensures UpsertAll(rows, vs, ValidationKey, Merge(now)).Ok?
    ensures var (nrows, out) := UpsertAll(rows, vs, ValidationKey, Merge(now)).value;
      && UniqueKeys(nrows, ValidationKey)
      && |out| == |vs|
      && (forall k :: 0 <= k < |vs| ==> CarriesVerdict(out[k], vs[k]))
      && |rows| <= |nrows|
      && (forall i :: 0 <= i < |rows| ==> SameIdentity(nrows[i], rows[i]))
      && (forall i :: 0 <= i < |rows| && !HasKey(vs, ValidationKey, ValidationKey(rows[i])) ==>
            nrows[i] == rows[i])
  {
    MergeKeepsKey(now);
    UpsertAllFacts(rows, vs, ValidationKey, Merge(now));
    UpsertAllAgrees(rows, vs, ValidationKey, Merge(now), CarriesVerdict);
    UpsertAllKeeps(rows, vs, ValidationKey, Merge(now), SameIdentity);
  }

  /** Two stored rows for the first input's key make the whole upsert fail. */
  lemma BulkUpsertDuplicate(rows: seq<FieldValidation>, vs: seq<FieldValidation>, now: Time, i: nat, j: nat)
    requires vs != [] && i < j < |rows|
    requires ValidationKey(rows[i]) == ValidationKey(vs[0]) && ValidationKey(rows[j]) == ValidationKey(vs[0])
    ensures UpsertAll(rows, vs, ValidationKey, Merge(now)) == Err(MultipleResultsFound)
  {
    UpsertAllDuplicateFails(rows, vs, ValidationKey, Merge(now), i, j);
  }

  function OfDeal(rows: seq<FieldValidation>, dealId: Uuid): seq<FieldValidation> {
    Filter(rows, (v: FieldValidation) => v.dealId == dealId)
  }

  class FieldValidationTable {
    var rows: seq<FieldValidation>

    constructor ()
      ensures rows == []
    {
      rows := [];
    }

    /**
     * `bulk_upsert`: the upsert loop, with `now` standing for `datetime.utcnow()`.
     * When a lookup raises, nothing the loop wrote survives.
     */
    method BulkUpsert(vs: seq<FieldValidation>, now: Time) returns (r: Result<seq<FieldValidation>>)
      modifies this
      ensures match UpsertAll(old(rows), vs, ValidationKey, Merge(now))
        case Ok(done) => rows == done.0 && r == Ok(done.1)
        case Err(e) => rows == old(rows) && r == Err(e)
    {
      var start := rows;  // what the rollback restores
      var results: seq<FieldValidation> := [];
      var i := 0;
      while i < |vs|
        invariant i <= |vs|
        invariant UpsertAll(start, vs[..i], ValidationKey, Merge(now)) == Ok((rows, results))
      {
        var v := vs[i];
        UpsertAllStep(start, vs, ValidationKey, Merge(now), i, (rows, results));
        match Lookup(rows, ValidationKey, ValidationKey(v)) {
        case Ambiguous =>
          UpsertAllErrSticks(start, vs, ValidationKey, Merge(now), i + 1);
          rows := start;
          return Err(MultipleResultsFound);
        case At(j) =>
          var updated := MergeValidation(rows[j], v, now);
          rows := rows[j := updated];
          results := results + [updated];
        case Absent =>
          rows := rows + [v];
          results := results + [v];
        }
        i := i + 1;
      }
      assert vs[..|vs|] == vs;
      r := Ok(results);
    }

    method GetByDealId(dealId: Uuid) returns (r: seq<FieldValidation>)
      ensures r == OfDeal(rows, dealId)
      ensures forall v :: v in r <==> v in rows && v.dealId == dealId
    {
      r := OfDeal(rows, dealId);
      forall v ensures v in r <==> v in rows && v.dealId == dealId {
        FilterMembers(rows, (v: FieldValidation) => v.dealId == dealId, v);
      }
    }
  }
}
