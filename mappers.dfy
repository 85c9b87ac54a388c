// The entity <-> table-row mapping of the persistence layer. A row holds the
// enumerations as their stored strings and the JSON columns as nullable lists;
// reading a row back parses the strings (None where Python's enum constructor
// or a missing dict key raises) and turns a null list into [].

module Mappers {
  import opened Domain

  /** One JSON object of a document's `processing_steps` column. */
  type StepDict = map<string, string>

  datatype DealRow = DealRow(
    id: Uuid, name: string, address: string, city: string, state: string,
    propertyType: string,
    latitude: Option<real>, longitude: Option<real>, squareFeet: Option<real>,
    createdAt: Time, updatedAt: Time)

  datatype DocumentRow = DocumentRow(
    id: Uuid, dealId: Uuid, documentType: string,
    filePath: string, originalFilename: string,
    processingStatus: string, processingSteps: Option<seq<StepDict>>,
    errorMessage: Option<string>, pageCount: Option<int>,
    createdAt: Time, updatedAt: Time)

  datatype ExtractedFieldRow = ExtractedFieldRow(
    id: Uuid, documentId: Uuid, fieldKey: string,
    valueText: Option<string>, valueNumber: Option<real>, unit: Option<string>,
    confidence: real, sourcePage: Option<int>)

  datatype MarketTableRow = MarketTableRow(
    id: Uuid, documentId: Uuid, tableType: string,
    headers: Option<seq<string>>, rows: Option<seq<seq<string>>>,
    sourcePage: Option<int>, confidence: real)

  datatype AssumptionSetRow = AssumptionSetRow(
    id: Uuid, dealId: Uuid, name: string, createdAt: Time, updatedAt: Time)

  datatype AssumptionRow = AssumptionRow(
    id: Uuid, setId: Uuid, key: string,
    valueNumber: Option<real>, unit: Option<string>,
    rangeMin: Option<real>, rangeMax: Option<real>,
    sourceType: string, sourceRef: Option<string>, notes: Option<string>,
    updatedAt: Time)

  datatype ExportRow = ExportRow(
    id: Uuid, dealId: Uuid, setId: Uuid, filePath: string, exportType: string, createdAt: Time)

  datatype FieldValidationRow = FieldValidationRow(
    id: Uuid, dealId: Uuid, fieldKey: string,
    omValue: Option<real>, marketValue: Option<real>,
    status: string, explanation: string,
    sources: Option<seq<SourceEntry>>, confidence: real,
    searchSteps: Option<seq<SearchStep>>, createdAt: Time)

  datatype CompRow = CompRow(
    id: Uuid, dealId: Uuid, address: string, city: string, state: string,
    propertyType: string, source: string, sourceUrl: Option<string>,
    yearBuilt: Option<int>, unitCount: Option<int>, squareFeet: Option<real>,
    salePrice: Option<real>, pricePerUnit: Option<real>, pricePerSqft: Option<real>,
    capRate: Option<real>, rentPerUnit: Option<real>, occupancyRate: Option<real>,
    noi: Option<real>, expenseRatio: Option<real>, opexPerUnit: Option<real>,
    fetchedAt: Time, createdAt: Time)

  /** `x or []` for a nullable JSON list. */
  function OrEmpty<T>(x: Option<seq<T>>): (r: seq<T>)
    ensures x.Some? ==> r == x.value
    ensures x.None? ==> r == []
  {
    if x.Some? then x.value else []
  }

  // ---------------------------------------------------------------------------
  // Deal
  // ---------------------------------------------------------------------------

  function DealToEntity(m: DealRow): (r: Option<Deal>)
    ensures r.Some? <==> ParsePropertyType(m.propertyType).Some?
    ensures r.Some? ==> r.value.propertyType.Value() == m.propertyType && r.value.id == m.id
  {
    match ParsePropertyType(m.propertyType)
    case None => None
    case Some(t) =>
      Some(Deal(m.id, m.name, m.address, m.city, m.state, t,
                m.latitude, m.longitude, m.squareFeet, m.createdAt, m.updatedAt))
  }

  function DealToModel(e: Deal): (r: DealRow)
    ensures r.propertyType == e.propertyType.Value() && r.id == e.id
  {
    DealRow(e.id, e.name, e.address, e.city, e.state, e.propertyType.Value(),
            e.latitude, e.longitude, e.squareFeet, e.createdAt, e.updatedAt)
  }

  /** entity -> row -> entity is the identity. */
  lemma DealRoundTrip(e: Deal)
    ensures DealToEntity(DealToModel(e)) == Some(e)
  {
    ParsePropertyTypeValue(e.propertyType);
  }

  /** A row that reads back writes back unchanged. */
  lemma DealRowRoundTrip(m: DealRow)
    requires DealToEntity(m).Some?
    ensures DealToModel(DealToEntity(m).value) == m
  {
  }

  // ---------------------------------------------------------------------------
  // Processing steps
  // ---------------------------------------------------------------------------

  function StepToDict(s: ProcessingStep): (d: StepDict)
    ensures d.Keys == {"name", "status", "detail"}
    ensures d["name"] == s.name && d["status"] == s.status && d["detail"] == s.detail
  {
    map["name" := s.name, "status" := s.status, "detail" := s.detail]
  }

  /** `_steps_to_dicts`: one three-key dict per step, in order. */
  function StepsToDicts(steps: seq<ProcessingStep>): (r: seq<StepDict>)
    ensures |r| == |steps|
    ensures forall i :: 0 <= i < |r| ==> r[i] == StepToDict(steps[i])
  {
    seq(|steps|, i requires 0 <= i < |steps| => StepToDict(steps[i]))
  }

  /** A dict `ProcessingStep(name=d["name"], ...)` accepts: it has both required keys. */
  predicate HasStepKeys(d: StepDict) {
    "name" in d && "status" in d
  }

  /** `ProcessingStep(name=d["name"], status=d["status"], detail=d.get("detail", ""))`. */
  function DictToStep(d: StepDict): (s: ProcessingStep)
    requires HasStepKeys(d)
    ensures s.name == d["name"] && s.status == d["status"]
    ensures "detail" !in d ==> s.detail == ""
    ensures "detail" in d ==> s.detail == d["detail"]
  {
    ProcessingStep(d["name"], d["status"], if "detail" in d then d["detail"] else "")
  }

  /**
   * `_dicts_to_steps`: [] for a null or empty column; otherwise one step per
   * dict, in order, or None (the `KeyError`) when some dict lacks a required key.
   */
  function DictsToSteps(data: Option<seq<StepDict>>): (r: Option<seq<ProcessingStep>>)
    ensures (data.None? || data.value == []) ==> r == Some([])
    ensures data.Some? ==>
              (r.Some? <==> forall i :: 0 <= i < |data.value| ==> HasStepKeys(data.value[i]))
    ensures r.Some? && data.Some? ==>
              |r.value| == |data.value|
              && forall i :: 0 <= i < |data.value| ==> r.value[i] == DictToStep(data.value[i])
  {
    if data.None? || data.value == [] then Some([])
    else
      var ds := data.value;
      if forall i :: 0 <= i < |ds| ==> HasStepKeys(ds[i]) then
        Some(seq(|ds|, i requires 0 <= i < |ds| && HasStepKeys(ds[i]) => DictToStep(ds[i])))
      else None
  }

  /** Steps survive being written to the JSON column and read back. */
  lemma StepsRoundTrip(steps: seq<ProcessingStep>)
    ensures DictsToSteps(Some(StepsToDicts(steps))) == Some(steps)
  {
    var ds := StepsToDicts(steps);
    var r := DictsToSteps(Some(ds));
    assert forall i :: 0 <= i < |ds| ==> HasStepKeys(ds[i]);
    assert r.Some? && |r.value| == |steps|;
    forall i | 0 <= i < |steps| ensures r.value[i] == steps[i] {
      var d := StepToDict(steps[i]);
      assert ds[i] == d && "detail" in d;
      assert DictToStep(d) == ProcessingStep(steps[i].name, steps[i].status, steps[i].detail);
    }
    assert r.value == steps;
  }

  /** Dicts with exactly the three keys survive being read and written back. */
  lemma DictsRoundTrip(ds: seq<StepDict>)
    requires forall i :: 0 <= i < |ds| ==> ds[i].Keys == {"name", "status", "detail"}
    ensures DictsToSteps(Some(ds)).Some?
    ensures StepsToDicts(DictsToSteps(Some(ds)).value) == ds
  {
    assert forall i :: 0 <= i < |ds| ==> HasStepKeys(ds[i]) by {
      forall i | 0 <= i < |ds| ensures HasStepKeys(ds[i]) {
        assert "name" in ds[i].Keys && "status" in ds[i].Keys;
      }
    }
    var steps := DictsToSteps(Some(ds)).value;
    forall i | 0 <= i < |ds| ensures StepToDict(steps[i]) == ds[i] {
      assert "detail" in ds[i].Keys;
      assert StepToDict(steps[i]).Keys == ds[i].Keys;
    }
  }

  // ---------------------------------------------------------------------------
  // Document
  // ---------------------------------------------------------------------------

  function DocumentToEntity(m: DocumentRow): (r: Option<Document>)
    ensures r.Some? <==>
              && ParseDocumentType(m.documentType).Some?
              && ParseProcessingStatus(m.processingStatus).Some?
              && DictsToSteps(m.processingSteps).Some?
    ensures r.Some? ==> r.value.processingSteps == DictsToSteps(m.processingSteps).value
    ensures r.Some? && m.processingSteps.None? ==> r.value.processingSteps == []
  {
    match (ParseDocumentType(m.documentType), ParseProcessingStatus(m.processingStatus),
           DictsToSteps(m.processingSteps))
    case (Some(t), Some(st), Some(steps)) =>
      Some(Document(m.id, m.dealId, t, m.filePath, m.originalFilename, st, steps,
                    m.errorMessage, m.pageCount, m.createdAt, m.updatedAt))
    case _ => None
  }

  function DocumentToModel(e: Document): (r: DocumentRow)
    ensures r.documentType == e.documentType.Value()
    ensures r.processingStatus == e.processingStatus.Value()
    ensures r.processingSteps == Some(StepsToDicts(e.processingSteps))
  {
    DocumentRow(e.id, e.dealId, e.documentType.Value(), e.filePath, e.originalFilename,
                e.processingStatus.Value(), Some(StepsToDicts(e.processingSteps)),
                e.errorMessage, e.pageCount, e.createdAt, e.updatedAt)
  }

  /** entity -> row -> entity is the identity, processing steps included. */
  lemma DocumentRoundTrip(e: Document)
    ensures DocumentToEntity(DocumentToModel(e)) == Some(e)
  {
    ParseDocumentTypeValue(e.documentType);
    ParseProcessingStatusValue(e.processingStatus);
    StepsRoundTrip(e.processingSteps);
  }

  /**
   * A row that reads back writes back unchanged when its steps column holds
   * three-key dicts; a null steps column comes back as the empty list.
   */
  lemma DocumentRowRoundTrip(m: DocumentRow)
    requires DocumentToEntity(m).Some?
    ensures var m2 := DocumentToModel(DocumentToEntity(m).value);
      && m2.(processingSteps := m.processingSteps) == m
      && (m.processingSteps.None? ==> m2.processingSteps == Some([]))
      && (m.processingSteps.Some?
          && (forall i :: 0 <= i < |m.processingSteps.value| ==>
                m.processingSteps.value[i].Keys == {"name", "status", "detail"})
          ==> m2 == m)
  {
    if m.processingSteps.Some? &&
       forall i :: 0 <= i < |m.processingSteps.value| ==>
         m.processingSteps.value[i].Keys == {"name", "status", "detail"} {
      DictsRoundTrip(m.processingSteps.value);
    }
  }

  // ---------------------------------------------------------------------------
  // Extracted field and market table
  // ---------------------------------------------------------------------------

  function ExtractedFieldToEntity(m: ExtractedFieldRow): (r: ExtractedField)
    ensures r.id == m.id && r.documentId == m.documentId && r.fieldKey == m.fieldKey
  {
    ExtractedField(m.id, m.documentId, m.fieldKey, m.valueText, m.valueNumber, m.unit,
                   m.confidence, m.sourcePage)
  }

  function ExtractedFieldToModel(e: ExtractedField): (r: ExtractedFieldRow)
    ensures r.id == e.id && r.documentId == e.documentId && r.fieldKey == e.fieldKey
  {
    ExtractedFieldRow(e.id, e.documentId, e.fieldKey, e.valueText, e.valueNumber, e.unit,
                      e.confidence, e.sourcePage)
  }

  lemma ExtractedFieldRoundTrip(e: ExtractedField, m: ExtractedFieldRow)
    ensures ExtractedFieldToEntity(ExtractedFieldToModel(e)) == e
    ensures ExtractedFieldToModel(ExtractedFieldToEntity(m)) == m
  {
  }

  /** `market_table_to_entity`: null headers and rows read back as []. */
  function MarketTableToEntity(m: MarketTableRow): (r: MarketTable)
    ensures r.headers == OrEmpty(m.headers) && r.rows == OrEmpty(m.rows)
    ensures m.headers.None? ==> r.headers == []
    ensures m.rows.None? ==> r.rows == []
  {
    MarketTable(m.id, m.documentId, m.tableType, OrEmpty(m.headers), OrEmpty(m.rows),
                m.sourcePage, m.confidence)
  }

  function MarketTableToModel(e: MarketTable): (r: MarketTableRow)
    ensures r.headers == Some(e.headers) && r.rows == Some(e.rows)
  {
    MarketTableRow(e.id, e.documentId, e.tableType, Some(e.headers), Some(e.rows),
                   e.sourcePage, e.confidence)
  }

  /** entity -> row -> entity is the identity; a row with both lists present survives the other way. */
  lemma MarketTableRoundTrip(e: MarketTable, m: MarketTableRow)
    ensures MarketTableToEntity(MarketTableToModel(e)) == e
    ensures m.headers.Some? && m.rows.Some? ==> MarketTableToModel(MarketTableToEntity(m)) == m
  {
  }

  // ---------------------------------------------------------------------------
  // Assumption set and assumption
  // ---------------------------------------------------------------------------

  function AssumptionSetToEntity(m: AssumptionSetRow): (r: AssumptionSet)
    ensures r.id == m.id && r.dealId == m.dealId && r.name == m.name
  {
    AssumptionSet(m.id, m.dealId, m.name, m.createdAt, m.updatedAt)
  }

  function AssumptionSetToModel(e: AssumptionSet): (r: AssumptionSetRow)
    ensures r.id == e.id && r.dealId == e.dealId && r.name == e.name
  {
    AssumptionSetRow(e.id, e.dealId, e.name, e.createdAt, e.updatedAt)
  }

  lemma AssumptionSetRoundTrip(e: AssumptionSet, m: AssumptionSetRow)
    ensures AssumptionSetToEntity(AssumptionSetToModel(e)) == e
    ensures AssumptionSetToModel(AssumptionSetToEntity(m)) == m
  {
  }

  function AssumptionToEntity(m: AssumptionRow): (r: Option<Assumption>)
    ensures r.Some? <==> ParseSourceType(m.sourceType).Some?
    ensures r.Some? ==> r.value.sourceType.Value() == m.sourceType && r.value.key == m.key
  {
    match ParseSourceType(m.sourceType)
    case None => None
    case Some(st) =>
      Some(Assumption(m.id, m.setId, m.key, m.valueNumber, m.unit, m.rangeMin, m.rangeMax,
                      st, m.sourceRef, m.notes, m.updatedAt))
  }

  function AssumptionToModel(e: Assumption): (r: AssumptionRow)
    ensures r.sourceType == e.sourceType.Value() && r.key == e.key
  {
    AssumptionRow(e.id, e.setId, e.key, e.valueNumber, e.unit, e.rangeMin, e.rangeMax,
                  e.sourceType.Value(), e.sourceRef, e.notes, e.updatedAt)
  }

  lemma AssumptionRoundTrip(e: Assumption)
    ensures AssumptionToEntity(AssumptionToModel(e)) == Some(e)
  {
    ParseSourceTypeValue(e.sourceType);
  }

  lemma AssumptionRowRoundTrip(m: AssumptionRow)
    requires AssumptionToEntity(m).Some?
    ensures AssumptionToModel(AssumptionToEntity(m).value) == m
  {
  }

  // ---------------------------------------------------------------------------
  // Export
  // ---------------------------------------------------------------------------

  function ExportToEntity(m: ExportRow): (r: Option<Export>)
    ensures r.Some? <==> m.exportType == "xlsx"
  {
    match ParseExportType(m.exportType)
    case None => None
    case Some(t) => Some(Export(m.id, m.dealId, m.setId, m.filePath, t, m.createdAt))
  }

  function ExportToModel(e: Export): (r: ExportRow)
    ensures r.exportType == "xlsx"
  {
    ExportRow(e.id, e.dealId, e.setId, e.filePath, e.exportType.Value(), e.createdAt)
  }

  lemma ExportRoundTrip(e: Export, m: ExportRow)
    ensures ExportToEntity(ExportToModel(e)) == Some(e)
    ensures ExportToEntity(m).Some? ==> ExportToModel(ExportToEntity(m).value) == m
  {
    assert e.exportType == Xlsx;
  }

  // ---------------------------------------------------------------------------
  // Field validation
  // ---------------------------------------------------------------------------

  /** `field_validation_to_entity`: null sources and search steps read back as []. */
  function FieldValidationToEntity(m: FieldValidationRow): (r: Option<FieldValidation>)
    ensures r.Some? <==> ParseValidationStatus(m.status).Some?
    ensures r.Some? ==> r.value.sources == OrEmpty(m.sources) && r.value.searchSteps == OrEmpty(m.searchSteps)
    ensures r.Some? && m.sources.None? ==> r.value.sources == []
    ensures r.Some? && m.searchSteps.None? ==> r.value.searchSteps == []
  {
    match ParseValidationStatus(m.status)
    case None => None
    case Some(st) =>
      Some(FieldValidation(m.id, m.dealId, m.fieldKey, m.omValue, m.marketValue, st,
                           m.explanation, OrEmpty(m.sources), m.confidence,
                           OrEmpty(m.searchSteps), m.createdAt))
  }

  function FieldValidationToModel(e: FieldValidation): (r: FieldValidationRow)
    ensures r.status == e.status.Value()
    ensures r.sources == Some(e.sources) && r.searchSteps == Some(e.searchSteps)
  {
    FieldValidationRow(e.id, e.dealId, e.fieldKey, e.omValue, e.marketValue, e.status.Value(),
                       e.explanation, Some(e.sources), e.confidence, Some(e.searchSteps),
                       e.createdAt)
  }

  lemma FieldValidationRoundTrip(e: FieldValidation)
    ensures FieldValidationToEntity(FieldValidationToModel(e)) == Some(e)
  {
    ParseValidationStatusValue(e.status);
  }

  // ---------------------------------------------------------------------------
  // Comp
  // ---------------------------------------------------------------------------

  function CompToEntity(m: CompRow): (r: Option<Comp>)
    ensures r.Some? <==> ParsePropertyType(m.propertyType).Some? && ParseCompSource(m.source).Some?
    ensures r.Some? ==> r.value.propertyType.Value() == m.propertyType && r.value.source.Value() == m.source
  {
    match (ParsePropertyType(m.propertyType), ParseCompSource(m.source))
    case (Some(t), Some(src)) =>
      Some(Comp(m.id, m.dealId, m.address, m.city, m.state, t, src, m.sourceUrl,
                m.yearBuilt, m.unitCount, m.squareFeet, m.salePrice, m.pricePerUnit,
                m.pricePerSqft, m.capRate, m.rentPerUnit, m.occupancyRate, m.noi,
                m.expenseRatio, m.opexPerUnit, m.fetchedAt, m.createdAt))
    case _ => None
  }

  function CompToModel(e: Comp): (r: CompRow)
    ensures r.propertyType == e.propertyType.Value() && r.source == e.source.Value()
  {
    CompRow(e.id, e.dealId, e.address, e.city, e.state, e.propertyType.Value(), e.source.Value(),
            e.sourceUrl, e.yearBuilt, e.unitCount, e.squareFeet, e.salePrice, e.pricePerUnit,
            e.pricePerSqft, e.capRate, e.rentPerUnit, e.occupancyRate, e.noi,
            e.expenseRatio, e.opexPerUnit, e.fetchedAt, e.createdAt)
  }

  lemma CompRoundTrip(e: Comp)
    ensures CompToEntity(CompToModel(e)) == Some(e)
  {
    ParsePropertyTypeValue(e.propertyType);
  }

  lemma CompRowRoundTrip(m: CompRow)
    requires CompToEntity(m).Some?
    ensures CompToModel(CompToEntity(m).value) == m
  {
  }
}
