// `ValidationService.validate_fields`: send a deal's numeric extracted fields,
// with the benchmarks of its newest assumption set, to the LLM, turn each
// verdict into a `FieldValidation` and upsert the verdicts.

module ValidationService {
  import opened Domain
  import opened Queries
  import opened KeyedUpsert
  import opened Oracles
  import Tables
  import DocumentRepo
  import AssumptionRepo
  import FieldValidationRepo

  /** The LLM's arguments: the deal, its numeric fields and the benchmarks. */
  datatype ValidationQuery = ValidationQuery(
    deal: Deal, fields: seq<ExtractedField>, benchmarks: seq<Assumption>)

  predicate IsNumeric(f: ExtractedField) { f.valueNumber.Some? }

  /** The comprehension keeping the fields with a `value_number`. */
  function NumericFields(fields: seq<ExtractedField>): (r: seq<ExtractedField>)
    ensures forall f :: f in r <==> f in fields && IsNumeric(f)
  {
    var r := Filter(fields, IsNumeric);
    assert forall f :: f in r <==> f in fields && IsNumeric(f) by {
      forall f ensures f in r <==> f in fields && IsNumeric(f) {
        FilterMembers(fields, IsNumeric, f);
      }
    }
    r
  }

  function ToSource(s: ValidationSource): SourceEntry {
    SourceEntry(s.url, s.title, s.snippet)
  }

  /** The sources comprehension: one url/title/snippet entry per source, in order. */
  function ToSources(sources: seq<ValidationSource>): (r: seq<SourceEntry>)
    ensures |r| == |sources|
    ensures forall i :: 0 <= i < |sources| ==>
      r[i].url == sources[i].url && r[i].title == sources[i].title && r[i].snippet == sources[i].snippet
  {
    seq(|sources|, i requires 0 <= i < |sources| => ToSource(sources[i]))
  }

  /** `v` records verdict `r` for the deal. */
  predicate Records(v: FieldValidation, dealId: Uuid, r: FieldValidationResult) {
    && v.dealId == dealId && v.fieldKey == r.fieldKey
    && v.omValue == r.omValue && v.marketValue == r.marketValue
    && v.status.Value() == r.status && v.explanation == r.explanation
    && v.sources == ToSources(r.sources)
    && v.confidence == r.confidence && v.searchSteps == []
  }

  /**
   * One verdict as a `FieldValidation` of the deal: the LLM's columns copied,
   * the sources as url/title/snippet entries, no search steps, a fresh id and
   * the clock; a status outside the five values is the `ValueError` of
   * `ValidationStatus(r.status)`.
   */
  function ToValidation(dealId: Uuid, r: FieldValidationResult, id: Uuid, now: Time): (v: Result<FieldValidation>)
    ensures v.Ok? <==> ParseValidationStatus(r.status).Some?
    ensures v.Err? ==> v.error == InvalidValidationStatus(r.status)
    ensures v.Ok? ==> Records(v.value, dealId, r) && v.value.id == id && v.value.createdAt == now
  {
    match ParseValidationStatus(r.status)
    case None => Err(InvalidValidationStatus(r.status))
    case Some(status) =>
      Ok(FieldValidation(
        id, dealId, r.fieldKey, r.omValue, r.marketValue, status, r.explanation,
        ToSources(r.sources), r.confidence, [], now))
  }

  /** The list comprehension over the verdicts, from index `from`; the first bad status raises. */
  function ToValidations(dealId: Uuid, results: seq<FieldValidationResult>, newId: nat -> Uuid,
                         now: Time, from: nat := 0): (vs: Result<seq<FieldValidation>>)
    ensures vs.Ok? <==> forall i :: from <= i < |results| ==> ParseValidationStatus(results[i].status).Some?
    ensures vs.Ok? ==> |vs.value| == if from <= |results| then |results| - from else 0
    decreases |results| - from
  {
    if from >= |results| then Ok([])
    else
      match ToValidation(dealId, results[from], newId(from), now)
      case Err(e) => Err(e)
      case Ok(v) =>
        match ToValidations(dealId, results, newId, now, from + 1)
        case Err(e) => Err(e)
        case Ok(rest) => Ok([v] + rest)
  }

  /** On success, the comprehension hands back one validation per verdict, each recording its verdict. */
  lemma {:induction false} ToValidationsRecords(dealId: Uuid, results: seq<FieldValidationResult>,
                                                newId: nat -> Uuid, now: Time, from: nat)
    requires from <= |results| && ToValidations(dealId, results, newId, now, from).Ok?
    ensures var vs := ToValidations(dealId, results, newId, now, from).value;
      forall i :: 0 <= i < |vs| ==> Records(vs[i], dealId, results[from + i])
    decreases |results| - from
  {
    if from < |results| {
      ToValidationsRecords(dealId, results, newId, now, from + 1);
    }
  }

  /** `k` is the first result from `from` on whose status does not parse. */
  predicate FirstBadStatus(results: seq<FieldValidationResult>, from: nat, k: nat) {
    && from <= k < |results|
    && ParseValidationStatus(results[k].status).None?
    && (forall j :: from <= j < k ==> ParseValidationStatus(results[j].status).Some?)
  }

  /** On failure, the error names the first status that does not parse. */
  lemma {:induction false} ToValidationsFirstBad(dealId: Uuid, results: seq<FieldValidationResult>,
                                                 newId: nat -> Uuid, now: Time, from: nat)
    requires ToValidations(dealId, results, newId, now, from).Err?
    ensures exists k: nat ::
              && FirstBadStatus(results, from, k)
              && ToValidations(dealId, results, newId, now, from).error == InvalidValidationStatus(results[k].status)
    decreases |results| - from
  {
    var e := ToValidations(dealId, results, newId, now, from).error;
    if ParseValidationStatus(results[from].status).Some? {
      ToValidationsFirstBad(dealId, results, newId, now, from + 1);
      var k: nat :|
        && FirstBadStatus(results, from + 1, k)
        && ToValidations(dealId, results, newId, now, from + 1).error == InvalidValidationStatus(results[k].status);
      assert e == ToValidations(dealId, results, newId, now, from + 1).error;
      assert FirstBadStatus(results, from, k);
    } else {
      assert e == InvalidValidationStatus(results[from].status);
      assert FirstBadStatus(results, from, from);
    }
  }

  /**
   * The writes after the LLM answered: the answer's failure, or the
   * conversion's, or the upsert of the converted verdicts when there are any;
   * paired with the validation rows afterwards.
   */
  function AfterAnswer(answer: Result<seq<FieldValidationResult>>, rows: seq<FieldValidation>,
                       dealId: Uuid, newId: nat -> Uuid, now: Time)
    : (Result<seq<FieldValidation>>, seq<FieldValidation>)
  {
    match answer
    case Err(e) => (Err(e), rows)
    case Ok(results) =>
      match ToValidations(dealId, results, newId, now)
      case Err(e) => (Err(e), rows)
      case Ok(vs) =>
        if vs == [] then (Ok([]), rows)
        else
          match UpsertAll(rows, vs, FieldValidationRepo.ValidationKey, FieldValidationRepo.Merge(now))
          case Ok(done) => (Ok(done.1), done.0)
          case Err(e) => (Err(e), rows)
  }

  /**
   * What one answer does to a table without duplicate keys: a failed call or
   * a bad status writes nothing; otherwise every verdict is stored, one
   * validation per verdict is returned recording it, and the table keeps at
   * most one row per `(deal_id, field_key)`.
   */
  lemma AfterAnswerSpec(answer: Result<seq<FieldValidationResult>>, rows: seq<FieldValidation>,
                        dealId: Uuid, newId: nat -> Uuid, now: Time)
    requires UniqueKeys(rows, FieldValidationRepo.ValidationKey)
    ensures var (r, nrows) := AfterAnswer(answer, rows, dealId, newId, now);
      && (answer.Err? ==> r == Err(answer.error) && nrows == rows)
      && (answer.Ok? && ToValidations(dealId, answer.value, newId, now).Err? ==>
            r.Err? && r.error.InvalidValidationStatus? && nrows == rows)
      && (answer.Ok? && ToValidations(dealId, answer.value, newId, now).Ok? ==>
            && r.Ok? && |r.value| == |answer.value|
            && UniqueKeys(nrows, FieldValidationRepo.ValidationKey)
            && (forall i :: 0 <= i < |r.value| ==> Records(r.value[i], dealId, answer.value[i]))
            && (forall i :: 0 <= i < |r.value| ==>
                  HasKey(nrows, FieldValidationRepo.ValidationKey, FieldValidationRepo.ValidationKey(r.value[i]))))
  {
    if answer.Ok? && ToValidations(dealId, answer.value, newId, now).Err? {
      ToValidationsFirstBad(dealId, answer.value, newId, now, 0);
    }
    if answer.Ok? && ToValidations(dealId, answer.value, newId, now).Ok? {
      var results := answer.value;
      var vs := ToValidations(dealId, results, newId, now).value;
      ToValidationsRecords(dealId, results, newId, now, 0);
      if vs != [] {
        FieldValidationRepo.BulkUpsertSpec(rows, vs, now);
        var (nrows, out) := UpsertAll(rows, vs, FieldValidationRepo.ValidationKey, FieldValidationRepo.Merge(now)).value;
        forall i | 0 <= i < |out| ensures Records(out[i], dealId, results[i]) {
          assert FieldValidationRepo.CarriesVerdict(out[i], vs[i]);
        }
        forall i | 0 <= i < |out|
          ensures HasKey(nrows, FieldValidationRepo.ValidationKey, FieldValidationRepo.ValidationKey(out[i]))
        {
          FieldValidationRepo.MergeKeepsKey(now);
          UpsertAllKeySet(rows, vs, FieldValidationRepo.ValidationKey, FieldValidationRepo.Merge(now),
                          FieldValidationRepo.ValidationKey(vs[i]));
        }
      }
    }
  }

  /**
   * `b` is what `validate_fields` hands the LLM as benchmarks: nothing when the
   * deal has no assumption set, otherwise the assumptions of a newest set of
   * the deal, ordered by key.
   */
  ghost predicate BenchmarksOf(b: seq<Assumption>, sets: seq<AssumptionSet>, assumptions: seq<Assumption>, dealId: Uuid) {
    if AssumptionRepo.NoSets(sets, dealId) then b == []
    else
      exists s ::
        && AssumptionRepo.NewestOfDeal(s, sets, dealId)
        && multiset(b) == multiset(AssumptionRepo.OfSet(assumptions, s.id))
        && SortedBy(b, AssumptionRepo.KeyOrder)
  }

  class ValidationService {
    const deals: Tables.DealTable
    const documents: DocumentRepo.DocumentTable
    const fields: Tables.ExtractedFieldTable
    const sets: AssumptionRepo.AssumptionSetTable
    const assumptions: AssumptionRepo.AssumptionTable
    const validations: FieldValidationRepo.FieldValidationTable
    const llm: Oracle<ValidationQuery, Result<seq<FieldValidationResult>>>

    constructor (deals: Tables.DealTable, documents: DocumentRepo.DocumentTable,
                 fields: Tables.ExtractedFieldTable, sets: AssumptionRepo.AssumptionSetTable,
                 assumptions: AssumptionRepo.AssumptionTable,
                 validations: FieldValidationRepo.FieldValidationTable,
                 llm: Oracle<ValidationQuery, Result<seq<FieldValidationResult>>>)
      ensures this.deals == deals && this.documents == documents && this.fields == fields
      ensures this.sets == sets && this.assumptions == assumptions
      ensures this.validations == validations && this.llm == llm
    {
      this.deals := deals;
      this.documents := documents;
      this.fields := fields;
      this.sets := sets;
      this.assumptions := assumptions;
      this.validations := validations;
      this.llm := llm;
    }

    /** The benchmarks block: the assumptions of the first set listed for the deal, or none. */
    method Benchmarks(dealId: Uuid) returns (b: seq<Assumption>)
      ensures BenchmarksOf(b, sets.rows, assumptions.rows, dealId)
    {
      var dealSets := sets.GetByDealId(dealId);
      b := [];
      if dealSets != [] {
        b := assumptions.GetBySetId(dealSets[0].id);
      }
    }

    /**
     * `validate_fields`: an unknown deal fails; a deal without numeric fields
     * gets [] with no LLM call; otherwise the LLM is asked once, with the
     * numeric fields and the benchmarks, and `AfterAnswer` says what its
     * answer leads to.
     */
    method ValidateFields(dealId: Uuid, newId: nat -> Uuid, now: Time) returns (r: Result<seq<FieldValidation>>)
      requires deals.Valid()
      modifies validations, llm
      ensures Find(deals.rows, Tables.DealId, dealId).None? ==>
        r == Err(DealNotFound(dealId)) && llm.calls == old(llm.calls)
        && validations.rows == old(validations.rows)
      ensures && Find(deals.rows, Tables.DealId, dealId).Some?
              && NumericFields(Tables.FieldsOfDeal(fields.rows, documents.rows, dealId)) == []
              ==> r == Ok([]) && llm.calls == old(llm.calls) && validations.rows == old(validations.rows)
      ensures && Find(deals.rows, Tables.DealId, dealId).Some?
              && NumericFields(Tables.FieldsOfDeal(fields.rows, documents.rows, dealId)) != []
              ==>
        && |llm.calls| == |old(llm.calls)| + 1 && llm.calls[..|old(llm.calls)|] == old(llm.calls)
        && var q := llm.calls[|old(llm.calls)|];
        && q.deal == Find(deals.rows, Tables.DealId, dealId).value
        && q.fields == NumericFields(Tables.FieldsOfDeal(fields.rows, documents.rows, dealId))
        && BenchmarksOf(q.benchmarks, sets.rows, assumptions.rows, dealId)
        && (r, validations.rows) == AfterAnswer(llm.answer(q), old(validations.rows), dealId, newId, now)
    {
      var deal := deals.GetById(dealId);
      if deal.None? {
        return Err(DealNotFound(dealId));
      }
      var allFields := fields.GetByDealId(documents, dealId);
      var numeric := NumericFields(allFields);
      if numeric == [] {
        return Ok([]);
      }
      var benchmarks := Benchmarks(dealId);
      r := AskAndStore(ValidationQuery(deal.value, numeric, benchmarks), newId, now);
    }

    /** The LLM call, the conversion and the upsert. */
    method AskAndStore(q: ValidationQuery, newId: nat -> Uuid, now: Time) returns (r: Result<seq<FieldValidation>>)
      modifies validations, llm
      ensures llm.calls == old(llm.calls) + [q]
      ensures (r, validations.rows) == AfterAnswer(llm.answer(q), old(validations.rows), q.deal.id, newId, now)
    {
      var answer := llm.Call(q);
      if answer.Err? {
        return Err(answer.error);
      }
      var converted := ToValidations(q.deal.id, answer.value, newId, now);
      if converted.Err? {
        return Err(converted.error);
      }
      var vs := converted.value;
      if vs == [] {
        return Ok([]);
      }
      r := validations.BulkUpsert(vs, now);
    }

    /** `get_by_deal_id` on the validations, as the validation route reads them. */
    method GetValidations(dealId: Uuid) returns (r: seq<FieldValidation>)
      ensures r == FieldValidationRepo.OfDeal(validations.rows, dealId)
    {
      r := validations.GetByDealId(dealId);
    }
  }
}
