// Entities, value objects and enumerations of the deal desk backend.
// Every store, service and provider of the model is written against these.

module Domain {

  /** A UUID, kept in its canonical text form (it is interpolated into file paths). */
  type Uuid = string

  /** A clock reading; every `datetime.utcnow()` of the source is a value passed in. */
  type Time = int

  /** Opaque file contents (uploaded PDFs, generated workbooks). */
  type Bytes = seq<bv8>

  datatype Option<T> = None | Some(value: T)

  /**
   * A key of a decoded JSON object where the source tells the two kinds of
   * missing value apart (`d.get(key, default)` gives the default for an absent
   * key but None for a `null`): absent, `null`, or a value.
   */
  datatype Field<T> = Omitted | Null | Given(value: T)

  /** `str(d.get(key, default))` for a text key: the default when absent, "None" for a `null`. */
  function Shown(f: Field<string>, default: string): string {
    match f
    case Omitted => default
    case Null => "None"
    case Given(s) => s
  }

  /** The exceptions the core raises, by kind; `ValueError` messages carry their subject. */
  datatype Error =
    | DealNotFound(dealId: Uuid)
    | DocumentNotFound(documentId: Uuid)
    | SetNotFound(setId: Uuid)
    | NoAssumptionSets(forDeal: Uuid)
    | NoModelResult(forSet: Uuid)
    | MissingRequiredFields(names: seq<string>)
    | ZeroCapRate
    | InvalidValidationStatus(status: string)
    | NoResultFound              // `scalar_one()` found no row
    | MultipleResultsFound       // `scalar_one_or_none()` found more than one row
    | OracleFailure(message: string)  // an exception raised by an external collaborator
    | NullValue(message: string)      // a TypeError or AttributeError raised on a JSON `null`
  {
    /** `str(exc)` for the error. */
    function Message(): string {
      match this
      case DealNotFound(_) => "Deal not found"
      case DocumentNotFound(_) => "Document not found"
      case SetNotFound(_) => "Assumption set not found"
      case NoAssumptionSets(_) => "No assumption sets found for deal"
      case NoModelResult(_) => "No model result found for assumption set. Run compute first."
      case MissingRequiredFields(_) => "Missing required fields"
      case ZeroCapRate => "cap_rate must be non-zero"
      case InvalidValidationStatus(s) => s + " is not a valid ValidationStatus"
      case NoResultFound => "No row was found when one was required"
      case MultipleResultsFound => "Multiple rows were found when one or none was required"
      case OracleFailure(m) => m
      case NullValue(m) => m
    }
  }

  datatype Result<T> = Ok(value: T) | Err(error: Error)

  // ---------------------------------------------------------------------------
  // Enumerations and their stored string values
  // ---------------------------------------------------------------------------

  datatype PropertyType = Multifamily | Office | Retail | Industrial | MixedUse | OtherProperty
  {
    function Value(): string {
      match this
      case Multifamily => "multifamily"
      case Office => "office"
      case Retail => "retail"
      case Industrial => "industrial"
      case MixedUse => "mixed_use"
      case OtherProperty => "other"
    }
  }

  /** `PropertyType(s)`: None where Python raises ValueError. */
  function ParsePropertyType(s: string): (r: Option<PropertyType>)
    ensures r.Some? ==> r.value.Value() == s
  {
    if s == "multifamily" then Some(Multifamily)
    else if s == "office" then Some(Office)
    else if s == "retail" then Some(Retail)
    else if s == "industrial" then Some(Industrial)
    else if s == "mixed_use" then Some(MixedUse)
    else if s == "other" then Some(OtherProperty)
    else None
  }

  lemma ParsePropertyTypeValue(p: PropertyType)
    ensures ParsePropertyType(p.Value()) == Some(p)
  {
  }

  datatype ProcessingStatus =
    Pending | Uploading | ExtractingText | ExtractingTables | Normalizing | Complete | Failed
  {
    function Value(): string {
      match this
      case Pending => "pending"
      case Uploading => "uploading"
      case ExtractingText => "extracting_text"
      case ExtractingTables => "extracting_tables"
      case Normalizing => "normalizing"
      case Complete => "complete"
      case Failed => "failed"
    }
  }

  function ParseProcessingStatus(s: string): (r: Option<ProcessingStatus>)
    ensures r.Some? ==> r.value.Value() == s
  {
    if s == "pending" then Some(Pending)
    else if s == "uploading" then Some(Uploading)
    else if s == "extracting_text" then Some(ExtractingText)
    else if s == "extracting_tables" then Some(ExtractingTables)
    else if s == "normalizing" then Some(Normalizing)
    else if s == "complete" then Some(Complete)
    else if s == "failed" then Some(Failed)
    else None
  }

  lemma ParseProcessingStatusValue(p: ProcessingStatus)
    ensures ParseProcessingStatus(p.Value()) == Some(p)
  {
  }

  datatype SourceType = Om | Ai | Manual | AiEdited
  {
    function Value(): string {
      match this
      case Om => "om"
      case Ai => "ai"
      case Manual => "manual"
      case AiEdited => "ai_edited"
    }
  }

  function ParseSourceType(s: string): (r: Option<SourceType>)
    ensures r.Some? ==> r.value.Value() == s
  {
    if s == "om" then Some(Om)
    else if s == "ai" then Some(Ai)
    else if s == "manual" then Some(Manual)
    else if s == "ai_edited" then Some(AiEdited)
    else None
  }

  lemma ParseSourceTypeValue(p: SourceType)
    ensures ParseSourceType(p.Value()) == Some(p)
  {
  }

  datatype DocumentType = OfferingMemorandum | RentRoll | FinancialStatement | OtherDocument
  {
    function Value(): string {
      match this
      case OfferingMemorandum => "offering_memorandum"
      case RentRoll => "rent_roll"
      case FinancialStatement => "financial_statement"
      case OtherDocument => "other"
    }
  }

  function ParseDocumentType(s: string): (r: Option<DocumentType>)
    ensures r.Some? ==> r.value.Value() == s
  {
    if s == "offering_memorandum" then Some(OfferingMemorandum)
    else if s == "rent_roll" then Some(RentRoll)
    else if s == "financial_statement" then Some(FinancialStatement)
    else if s == "other" then Some(OtherDocument)
    else None
  }

  lemma ParseDocumentTypeValue(p: DocumentType)
    ensures ParseDocumentType(p.Value()) == Some(p)
  {
  }

  datatype ExportType = Xlsx
  {
    function Value(): string { "xlsx" }
  }

  function ParseExportType(s: string): (r: Option<ExportType>)
    ensures r.Some? ==> r.value.Value() == s
  {
    if s == "xlsx" then Some(Xlsx) else None
  }

  datatype ValidationStatus = WithinRange | AboveMarket | BelowMarket | Suspicious | InsufficientData
  {
    function Value(): string {
      match this
      case WithinRange => "within_range"
      case AboveMarket => "above_market"
      case BelowMarket => "below_market"
      case Suspicious => "suspicious"
      case InsufficientData => "insufficient_data"
    }
  }

  /** `ValidationStatus(s)`: None where Python raises ValueError. */
  function ParseValidationStatus(s: string): (r: Option<ValidationStatus>)
    ensures r.Some? ==> r.value.Value() == s
  {
    if s == "within_range" then Some(WithinRange)
    else if s == "above_market" then Some(AboveMarket)
    else if s == "below_market" then Some(BelowMarket)
    else if s == "suspicious" then Some(Suspicious)
    else if s == "insufficient_data" then Some(InsufficientData)
    else None
  }

  lemma ParseValidationStatusValue(p: ValidationStatus)
    ensures ParseValidationStatus(p.Value()) == Some(p)
  {
  }

  datatype CompSource = Rentcast | Tavily
  {
    function Value(): string {
      match this
      case Rentcast => "rentcast"
      case Tavily => "tavily"
    }
  }

  function ParseCompSource(s: string): (r: Option<CompSource>)
    ensures r.Some? ==> r.value.Value() == s
  {
    if s == "rentcast" then Some(Rentcast) else if s == "tavily" then Some(Tavily) else None
  }

  // ---------------------------------------------------------------------------
  // Entities
  // ---------------------------------------------------------------------------

  datatype Deal = Deal(
    id: Uuid, name: string, address: string, city: string, state: string,
    propertyType: PropertyType,
    latitude: Option<real>, longitude: Option<real>, squareFeet: Option<real>,
    createdAt: Time, updatedAt: Time)

  datatype ProcessingStep = ProcessingStep(name: string, status: string, detail: string)

  datatype Document = Document(
    id: Uuid, dealId: Uuid, documentType: DocumentType,
    filePath: string, originalFilename: string,
    processingStatus: ProcessingStatus, processingSteps: seq<ProcessingStep>,
    errorMessage: Option<string>, pageCount: Option<int>,
    createdAt: Time, updatedAt: Time)

  datatype ExtractedField = ExtractedField(
    id: Uuid, documentId: Uuid, fieldKey: string,
    valueText: Option<string>, valueNumber: Option<real>, unit: Option<string>,
    confidence: real, sourcePage: Option<int>)

  datatype MarketTable = MarketTable(
    id: Uuid, documentId: Uuid, tableType: string,
    headers: seq<string>, rows: seq<seq<string>>,
    sourcePage: Option<int>, confidence: real)

  datatype AssumptionSet = AssumptionSet(
    id: Uuid, dealId: Uuid, name: string, createdAt: Time, updatedAt: Time)

  datatype Assumption = Assumption(
    id: Uuid, setId: Uuid, key: string,
    valueNumber: Option<real>, unit: Option<string>,
    rangeMin: Option<real>, rangeMax: Option<real>,
    sourceType: SourceType, sourceRef: Option<string>, notes: Option<string>,
    updatedAt: Time)

  datatype Export = Export(
    id: Uuid, dealId: Uuid, setId: Uuid, filePath: string, exportType: ExportType, createdAt: Time)

  /** One `{"url", "title", "snippet"}` dict of a field validation's sources. */
  datatype SourceEntry = SourceEntry(url: string, title: string, snippet: string)

  /** A search-step record, kept as the JSON text the column holds. */
  datatype SearchStep = SearchStep(json: string)

  datatype FieldValidation = FieldValidation(
    id: Uuid, dealId: Uuid, fieldKey: string,
    omValue: Option<real>, marketValue: Option<real>,
    status: ValidationStatus, explanation: string,
    sources: seq<SourceEntry>, confidence: real,
    searchSteps: seq<SearchStep>, createdAt: Time)

  datatype Comp = Comp(
    id: Uuid, dealId: Uuid, address: string, city: string, state: string,
    propertyType: PropertyType, source: CompSource, sourceUrl: Option<string>,
    yearBuilt: Option<int>, unitCount: Option<int>, squareFeet: Option<real>,
    salePrice: Option<real>, pricePerUnit: Option<real>, pricePerSqft: Option<real>,
    capRate: Option<real>, rentPerUnit: Option<real>, occupancyRate: Option<real>,
    noi: Option<real>, expenseRatio: Option<real>, opexPerUnit: Option<real>,
    fetchedAt: Time, createdAt: Time)

  datatype ModelResult = ModelResult(
    id: Uuid, setId: Uuid,
    noiStabilized: real, exitValue: real, totalCost: real, profit: real, profitMarginPct: real,
    computedAt: Time)

  // ---------------------------------------------------------------------------
  // Value objects exchanged with the external collaborators
  // ---------------------------------------------------------------------------

  datatype PageText = PageText(pageNumber: int, text: string)

  datatype ExtractedTable = ExtractedTable(
    pageNumber: int, headers: seq<string>, rows: seq<seq<string>>, confidence: real)

  datatype RawField = RawField(key: string, value: string, sourcePage: int)

  datatype NormalizedField = NormalizedField(
    key: string, valueText: Option<string>, valueNumber: Option<real>, unit: Option<string>,
    confidence: real)

  datatype Location = Location(
    address: string, city: string, state: string, latitude: Option<real>, longitude: Option<real>)

  datatype BenchmarkSuggestion = BenchmarkSuggestion(
    key: string, value: real, unit: string, rangeMin: real, rangeMax: real,
    source: string, confidence: real)

  datatype DealFilters = DealFilters(
    propertyType: Option<string>, status: Option<string>, city: Option<string>)

  datatype ValidationSource = ValidationSource(url: string, title: string, snippet: string)

  datatype FieldValidationResult = FieldValidationResult(
    fieldKey: string, omValue: Option<real>, marketValue: Option<real>,
    status: string, explanation: string, sources: seq<ValidationSource>, confidence: real)

  /** Python truthiness of an optional string: present and non-empty. */
  predicate Truthy(s: Option<string>) {
    s.Some? && s.value != ""
  }
}
