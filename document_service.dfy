// `DocumentService`: uploading an offering memorandum, and the background
// pipeline that extracts its text and tables, has the LLM normalise the page
// texts into fields, and walks the document through the processing statuses
// PENDING -> EXTRACTING_TEXT -> EXTRACTING_TABLES -> NORMALIZING -> COMPLETE,
// or to FAILED with the exception text.

module DocumentService {
  import opened Domain
  import opened Text
  import opened Oracles
  import KeyedUpsert
  import opened DocumentRepo
  import Tables

  // ---------------------------------------------------------------------------
  // Upload
  // ---------------------------------------------------------------------------

  const ExtractTextStep := "extract_text"
  const ExtractTablesStep := "extract_tables"
  const NormalizeFieldsStep := "normalize_fields"

  function Pending(name: string): ProcessingStep { ProcessingStep(name, "pending", "") }
  function Started(name: string): ProcessingStep { ProcessingStep(name, "in_progress", "") }
  function Finished(name: string, detail: string): ProcessingStep { ProcessingStep(name, "complete", detail) }

  /** The steps a new document starts with. */
  function InitialSteps(): seq<ProcessingStep> {
    [Pending(ExtractTextStep), Pending(ExtractTablesStep), Pending(NormalizeFieldsStep)]
  }

  function UploadPath(dealId: Uuid, filename: string): (path: string)
    ensures path == "documents/" + dealId + "/" + filename
  {
    "documents/" + dealId + "/" + filename
  }

  // ---------------------------------------------------------------------------
  // What the pipeline derives from the processor's and the LLM's answers
  // ---------------------------------------------------------------------------

  /** A non-blank page as the normaliser sees it: at most 2000 characters. */
  function ToRawField(p: PageText): (f: RawField)
    ensures f.key == "page_text" && f.sourcePage == p.pageNumber
    ensures f.value <= p.text && |f.value| <= 2000
    ensures |p.text| <= 2000 ==> f.value == p.text
    ensures |p.text| > 2000 ==> |f.value| == 2000
  {
    RawField("page_text", Take(p.text, 2000), p.pageNumber)
  }

  /** The raw fields of `pages`: one per page with non-blank text, in page order. */
  function RawFields(pages: seq<PageText>): seq<RawField>
    decreases |pages|
  {
    if pages == [] then []
    else
      var last := pages[|pages| - 1];
      RawFields(pages[..|pages| - 1]) + (if IsBlank(last.text) then [] else [ToRawField(last)])
  }

  /**
   * A raw field is exactly the truncation of a non-blank page, there are no
   * more of them than pages, and there are none exactly when every page is blank.
   */
  lemma {:induction false} RawFieldsMembers(pages: seq<PageText>)
    ensures |RawFields(pages)| <= |pages|
    ensures forall f :: f in RawFields(pages) <==>
              exists p :: p in pages && !IsBlank(p.text) && f == ToRawField(p)
    decreases |pages|
  {
    if pages != [] {
      var init := pages[..|pages| - 1];
      var last := pages[|pages| - 1];
      RawFieldsMembers(init);
      assert pages == init + [last];
      forall f ensures f in RawFields(pages) <==>
                       exists p :: p in pages && !IsBlank(p.text) && f == ToRawField(p) {
        if f in RawFields(pages) && f !in RawFields(init) {
          assert f == ToRawField(last) && last in pages;
        }
        if exists p :: p in pages && !IsBlank(p.text) && f == ToRawField(p) {
          var p :| p in pages && !IsBlank(p.text) && f == ToRawField(p);
          if p != last {
            assert p in init;
          }
        }
      }
    }
  }

  lemma RawFieldsSpec(pages: seq<PageText>)
    ensures |RawFields(pages)| <= |pages|
    ensures forall f :: f in RawFields(pages) <==>
              exists p :: p in pages && !IsBlank(p.text) && f == ToRawField(p)
    ensures RawFields(pages) == [] <==> forall p :: p in pages ==> IsBlank(p.text)
  {
    RawFieldsMembers(pages);
    if RawFields(pages) != [] {
      assert RawFields(pages)[0] in RawFields(pages);
    } else {
      forall p | p in pages ensures IsBlank(p.text) {
        assert ToRawField(p) !in RawFields(pages);
      }
    }
  }


  /** The loop collecting the raw fields. */
  method BuildRawFields(pages: seq<PageText>) returns (raw: seq<RawField>)
    ensures raw == RawFields(pages)
  {
    raw := [];
    for k := 0 to |pages|
      invariant raw == RawFields(pages[..k])
    {
      assert pages[..k + 1][..k] == pages[..k];
      if !IsBlank(pages[k].text) {
        raw := raw + [ToRawField(pages[k])];
      }
    }
    assert pages[..|pages|] == pages;
  }

  /** The market tables written for the extracted tables, one each, with fresh ids. */
  function MarketTablesOf(documentId: Uuid, tables: seq<ExtractedTable>, tableId: nat -> Uuid)
    : (r: seq<MarketTable>)
    ensures |r| == |tables|
    ensures forall k :: 0 <= k < |r| ==>
              r[k] == MarketTable(tableId(k), documentId, "extracted", tables[k].headers, tables[k].rows,
                                  Some(tables[k].pageNumber), tables[k].confidence)
  {
    seq(|tables|, k requires 0 <= k < |tables| =>
      MarketTable(tableId(k), documentId, "extracted", tables[k].headers, tables[k].rows,
                  Some(tables[k].pageNumber), tables[k].confidence))
  }

  /** The extracted fields written for the normalised fields, one each, with fresh ids and no page. */
  function FieldsOf(documentId: Uuid, normalized: seq<NormalizedField>, fieldId: nat -> Uuid)
    : (r: seq<ExtractedField>)
    ensures |r| == |normalized|
    ensures forall k :: 0 <= k < |r| ==>
              r[k] == ExtractedField(fieldId(k), documentId, normalized[k].key, normalized[k].valueText,
                                     normalized[k].valueNumber, normalized[k].unit,
                                     normalized[k].confidence, None)
  {
    seq(|normalized|, k requires 0 <= k < |normalized| =>
      ExtractedField(fieldId(k), documentId, normalized[k].key, normalized[k].valueText,
                     normalized[k].valueNumber, normalized[k].unit, normalized[k].confidence, None))
  }

  function PagesDetail(n: nat): string { "Extracted " + NatToString(n) + " pages" }
  function TablesDetail(n: nat): string { "Extracted " + NatToString(n) + " tables" }

  // ---------------------------------------------------------------------------
  // The pipeline as a function of its collaborators' answers
  // ---------------------------------------------------------------------------

  /**
   * One run of `process_document` on a stored document:
   *   statuses   every status `update` writes, in order
   *   progress   every step `update_processing_step` records, in order
   *   pages      the page texts, when text extraction succeeded
   *   tables     the extracted tables, when table extraction succeeded
   *   normalized the normalised fields, when normalisation ran and succeeded
   *              (`Some([])` when there was nothing to normalise)
   *   failure    the exception that ended the run, if any
   */
  datatype Run = Run(
    statuses: seq<ProcessingStatus>,
    progress: seq<ProcessingStep>,
    pages: Option<seq<PageText>>,
    tables: Option<seq<ExtractedTable>>,
    normalized: Option<seq<NormalizedField>>,
    failure: Option<Error>)

  /** The run from the NORMALIZING write on, once the tables have been extracted. */
  function RunAfterTables(pages: seq<PageText>, ts: seq<ExtractedTable>,
                          normalize: seq<RawField> -> Result<seq<NormalizedField>>): Run
  {
    var p2 := [Started(NormalizeFieldsStep)];
    var done := p2 + [Finished(NormalizeFieldsStep, "")];
    var raw := RawFields(pages);
    if raw == [] then
      Run([Normalizing, Complete], done, Some(pages), Some(ts), Some([]), None)
    else match normalize(raw)
      case Err(e) => Run([Normalizing, Failed], p2, Some(pages), Some(ts), None, Some(e))
      case Ok(nfs) => Run([Normalizing, Complete], done, Some(pages), Some(ts), Some(nfs), None)
  }

  /** The run from the EXTRACTING_TABLES write on, once the text has been extracted. */
  function RunAfterText(file: string, pages: seq<PageText>,
                        tables: string -> Result<seq<ExtractedTable>>,
                        normalize: seq<RawField> -> Result<seq<NormalizedField>>): Run
  {
    var p1 := [Started(ExtractTablesStep)];
    match tables(file)
    case Err(e) => Run([ExtractingTables, Failed], p1, Some(pages), None, None, Some(e))
    case Ok(ts) =>
      var rest := RunAfterTables(pages, ts, normalize);
      rest.(statuses := [ExtractingTables] + rest.statuses,
            progress := p1 + [Finished(ExtractTablesStep, TablesDetail(|ts|))] + rest.progress)
  }

  /** The whole run on the document stored at `path`. */
  function RunOf(path: string, stored: bool,
                 text: string -> Result<seq<PageText>>,
                 tables: string -> Result<seq<ExtractedTable>>,
                 normalize: seq<RawField> -> Result<seq<NormalizedField>>): Run
  {
    var p0 := [Started(ExtractTextStep)];
    if !stored then
      Run([ExtractingText, Failed], p0, None, None, None, Some(OracleFailure("File not found: " + path)))
    else match text(path)
      case Err(e) => Run([ExtractingText, Failed], p0, None, None, None, Some(e))
      case Ok(pages) =>
        var rest := RunAfterText(path, pages, tables, normalize);
        rest.(statuses := [ExtractingText] + rest.statuses,
              progress := p0 + [Finished(ExtractTextStep, PagesDetail(|pages|))] + rest.progress)
  }

  /** The status machine: a prefix of the three working statuses, then COMPLETE or FAILED. */
  predicate StatusPath(statuses: seq<ProcessingStatus>) {
    && 2 <= |statuses| <= 4
    && statuses[..|statuses| - 1] <= [ExtractingText, ExtractingTables, Normalizing]
    && (statuses[|statuses| - 1] == Complete || statuses[|statuses| - 1] == Failed)
  }

  /**
   * Every run follows the status machine; it ends COMPLETE exactly when nothing
   * failed, and then it has passed through all three working statuses; the
   * page count is the number of extracted pages; tables are only extracted
   * after the text, and fields only normalised after the tables and when some
   * page had text.
   */
  lemma RunSpec(path: string, stored: bool,
                text: string -> Result<seq<PageText>>,
                tables: string -> Result<seq<ExtractedTable>>,
                normalize: seq<RawField> -> Result<seq<NormalizedField>>)
    ensures var o := RunOf(path, stored, text, tables, normalize);
      && StatusPath(o.statuses)
      && (o.statuses[|o.statuses| - 1] == Complete <==> o.failure.None?)
      && (o.failure.None? ==> o.statuses == [ExtractingText, ExtractingTables, Normalizing, Complete])
      && (o.failure.Some? ==> o.statuses[|o.statuses| - 1] == Failed)
      && (o.pages.Some? <==> stored && text(path).Ok?)
      && (o.pages.Some? ==> o.pages.value == text(path).value)
      && (o.tables.Some? ==> o.pages.Some? && o.tables.value == tables(path).value)
      && (o.normalized.Some? ==> o.tables.Some?)
      && (o.normalized.Some? && RawFields(o.pages.value) != [] ==>
            o.normalized == Some(normalize(RawFields(o.pages.value)).value))
      && (!stored ==> o.failure == Some(OracleFailure("File not found: " + path)))
  {
  }

  /** The steps the text phase records: started, and complete with the page count when it succeeded. */
  function TextProgress(pages: Result<seq<PageText>>): seq<ProcessingStep> {
    [Started(ExtractTextStep)] + (if pages.Ok? then [Finished(ExtractTextStep, PagesDetail(|pages.value|))] else [])
  }

  /** The document row a run leaves when each `update` writes back the copy read at the start. */
  function FinalRow(d0: Document, o: Run, now: Time): Document
    requires o.statuses != []
  {
    d0.(processingStatus := o.statuses[|o.statuses| - 1],
        errorMessage := if o.failure.Some? then Some(o.failure.value.Message()) else d0.errorMessage,
        pageCount := if o.pages.Some? then Some(|o.pages.value|) else d0.pageCount,
        updatedAt := now)
  }

  /** The step list after recording `progress` one step at a time. */
  function Replay(steps: seq<ProcessingStep>, progress: seq<ProcessingStep>): seq<ProcessingStep>
    decreases |progress|
  {
    if progress == [] then steps
    else UpdateStep(Replay(steps, progress[..|progress| - 1]), progress[|progress| - 1])
  }

  lemma ReplaySnoc(steps: seq<ProcessingStep>, progress: seq<ProcessingStep>, step: ProcessingStep)
    ensures Replay(steps, progress + [step]) == UpdateStep(Replay(steps, progress), step)
  {
    assert (progress + [step])[..|progress|] == progress;
  }

  lemma {:induction false} ReplayAppend(steps: seq<ProcessingStep>, p: seq<ProcessingStep>, q: seq<ProcessingStep>)
    ensures Replay(steps, p + q) == Replay(Replay(steps, p), q)
    decreases |q|
  {
    if q == [] {
      assert p + q == p;
    } else {
      var q0 := q[..|q| - 1];
      var x := q[|q| - 1];
      ReplayAppend(steps, p, q0);
      SnocSplit(p, q);
      ReplaySnoc(steps, p + q0, x);
      ReplaySnoc(Replay(steps, p), q0, x);
    }
  }

  lemma SnocSplit<T>(p: seq<T>, q: seq<T>)
    requires q != []
    ensures q == q[..|q| - 1] + [q[|q| - 1]]
    ensures p + q == (p + q[..|q| - 1]) + [q[|q| - 1]]
  {
  }

  /** The document row a run leaves when the recorded steps are carried into each `update`. */
  function FinalRowKeepingSteps(d0: Document, o: Run, now: Time): Document
    requires o.statuses != []
  {
    FinalRow(d0, o, now).(processingSteps := Replay(d0.processingSteps, o.progress))
  }

  /** A run whose text phase failed stops there, FAILED with that error. */
  lemma TextFailedRun(path: string, stored: bool,
                      text: string -> Result<seq<PageText>>,
                      tables: string -> Result<seq<ExtractedTable>>,
                      normalize: seq<RawField> -> Result<seq<NormalizedField>>, e: Error)
    requires if stored then text(path) == Err(e) else e == OracleFailure("File not found: " + path)
    ensures RunOf(path, stored, text, tables, normalize) ==
              Run([ExtractingText, Failed], TextProgress(Err(e)), None, None, None, Some(e))
  {
  }

  /** A run whose text phase succeeded goes on as `RunAfterText`, after EXTRACTING_TEXT and the text steps. */
  lemma TextDoneRun(path: string, pages: seq<PageText>,
                    text: string -> Result<seq<PageText>>,
                    tables: string -> Result<seq<ExtractedTable>>,
                    normalize: seq<RawField> -> Result<seq<NormalizedField>>)
    requires text(path) == Ok(pages)
    ensures var r := RunAfterText(path, pages, tables, normalize);
      RunOf(path, true, text, tables, normalize) ==
        r.(statuses := [ExtractingText] + r.statuses, progress := TextProgress(Ok(pages)) + r.progress)
  {
  }

  /** The row the `except` branch leaves after a failed text phase is the run's final row. */
  lemma TextFailedRow(d0: Document, steps: seq<ProcessingStep>, e: Error, now: Time)
    ensures var doc := d0.(processingStatus := ExtractingText);
      var o := Run([ExtractingText, Failed], TextProgress(Err(e)), None, None, None, Some(e));
      && Overwrite(doc.(processingSteps := steps, updatedAt := now),
                   doc.(processingStatus := Failed, errorMessage := Some(e.Message())), now)
           == FinalRow(d0, o, now)
      && (steps == Replay(d0.processingSteps, o.progress) ==>
            Overwrite(doc.(processingSteps := steps, updatedAt := now),
                      doc.(processingSteps := steps, processingStatus := Failed, errorMessage := Some(e.Message())), now)
              == FinalRowKeepingSteps(d0, o, now))
  {
  }

  /** After a successful text phase, the rest of the run ends in the same row as the whole run. */
  lemma TextDoneRow(d0: Document, pages: seq<PageText>, r: Run, now: Time)
    requires r.statuses != [] && r.pages == Some(pages)
    ensures FinalRow(d0.(processingStatus := ExtractingText, pageCount := Some(|pages|)), r, now) ==
            FinalRow(d0, r.(statuses := [ExtractingText] + r.statuses, progress := TextProgress(Ok(pages)) + r.progress), now)
  {
    var o := r.(statuses := [ExtractingText] + r.statuses, progress := TextProgress(Ok(pages)) + r.progress);
    assert o.statuses[|o.statuses| - 1] == r.statuses[|r.statuses| - 1];
  }

  /** The same, with the text steps carried into the rest of the run. */
  lemma TextDoneRowKeepingSteps(d0: Document, pages: seq<PageText>, r: Run, now: Time)
    requires r.statuses != [] && r.pages == Some(pages)
    ensures var steps := Replay(d0.processingSteps, TextProgress(Ok(pages)));
      FinalRowKeepingSteps(d0.(processingStatus := ExtractingText, pageCount := Some(|pages|), processingSteps := steps), r, now) ==
      FinalRowKeepingSteps(d0, r.(statuses := [ExtractingText] + r.statuses, progress := TextProgress(Ok(pages)) + r.progress), now)
  {
    TextDoneRow(d0, pages, r, now);
    ReplayAppend(d0.processingSteps, TextProgress(Ok(pages)), r.progress);
  }


  function WrittenTables(documentId: Uuid, o: Run, tableId: nat -> Uuid): seq<MarketTable> {
    if o.tables.Some? then MarketTablesOf(documentId, o.tables.value, tableId) else []
  }

  function WrittenFields(documentId: Uuid, o: Run, fieldId: nat -> Uuid): seq<ExtractedField> {
    if o.normalized.Some? then FieldsOf(documentId, o.normalized.value, fieldId) else []
  }

  // ---------------------------------------------------------------------------
  // The stale step list
  // ---------------------------------------------------------------------------

  /** The steps a successful run records, with its page and table counts. */
  function SuccessProgress(pages: nat, tables: nat): seq<ProcessingStep> {
    [Started(ExtractTextStep), Finished(ExtractTextStep, PagesDetail(pages)),
     Started(ExtractTablesStep), Finished(ExtractTablesStep, TablesDetail(tables)),
     Started(NormalizeFieldsStep), Finished(NormalizeFieldsStep, "")]
  }

  /** A run that did not fail recorded every step start and completion, in pipeline order. */
  lemma SuccessfulRun(path: string, stored: bool,
                      text: string -> Result<seq<PageText>>,
                      tables: string -> Result<seq<ExtractedTable>>,
                      normalize: seq<RawField> -> Result<seq<NormalizedField>>)
    requires RunOf(path, stored, text, tables, normalize).failure.None?
    ensures var o := RunOf(path, stored, text, tables, normalize);
      && o.pages.Some? && o.tables.Some?
      && o.progress == SuccessProgress(|o.pages.value|, |o.tables.value|)
  {
  }

  /**
   * As written, a freshly uploaded document whose pipeline succeeds ends
   * COMPLETE while every one of its steps still reads "pending": each
   * `update(doc)` writes back the step list read before the run.
   */
  lemma StaleStepsAfterSuccess(d0: Document, path: string, stored: bool,
                               text: string -> Result<seq<PageText>>,
                               tables: string -> Result<seq<ExtractedTable>>,
                               normalize: seq<RawField> -> Result<seq<NormalizedField>>, now: Time)
    requires d0.processingSteps == InitialSteps()
    requires RunOf(path, stored, text, tables, normalize).failure.None?
    ensures var row := FinalRow(d0, RunOf(path, stored, text, tables, normalize), now);
      && row.processingStatus == Complete
      && |row.processingSteps| == 3
      && forall k :: 0 <= k < 3 ==> row.processingSteps[k].status == "pending"
  {
    RunSpec(path, stored, text, tables, normalize);
  }

  /** A document whose file is stored, with no page text and no tables, completes as written. */
  lemma StaleStepsExample(d0: Document, now: Time)
    requires d0.processingSteps == InitialSteps()
    ensures var o := RunOf(d0.filePath, true, _ => Ok([]), _ => Ok([]), _ => Ok([]));
      && o.failure.None?
      && FinalRow(d0, o, now).processingStatus == Complete
      && FinalRow(d0, o, now).processingSteps == InitialSteps()
  {
    assert RawFields([]) == [];
  }

  lemma UpdateStepNamed(steps: seq<ProcessingStep>, step: ProcessingStep, k: nat)
    requires k < |steps| && steps[k].name == step.name
    requires forall j :: 0 <= j < k ==> steps[j].name != step.name
    ensures UpdateStep(steps, step) == steps[k := step]
  {
  }

  /**
   * Recording the six steps of a successful run onto the upload's step list
   * leaves its three steps complete, in their upload order, carrying the page
   * and table counts.
   */
  lemma ReplaySuccess(pages: nat, tables: nat)
    ensures Replay(InitialSteps(), SuccessProgress(pages, tables)) ==
              [Finished(ExtractTextStep, PagesDetail(pages)), Finished(ExtractTablesStep, TablesDetail(tables)),
               Finished(NormalizeFieldsStep, "")]
  {
    var p := SuccessProgress(pages, tables);
    var s0 := InitialSteps();
    var s1 := s0[0 := p[0]];
    var s2 := s1[0 := p[1]];
    var s3 := s2[1 := p[2]];
    var s4 := s3[1 := p[3]];
    var s5 := s4[2 := p[4]];
    var s6 := s5[2 := p[5]];
    assert Replay(s0, p[..0]) == s0;
    ReplaySnoc(s0, p[..0], p[0]);
    assert p[..1] == p[..0] + [p[0]];
    UpdateStepNamed(s0, p[0], 0);
    ReplaySnoc(s0, p[..1], p[1]);
    assert p[..2] == p[..1] + [p[1]];
    UpdateStepNamed(s1, p[1], 0);
    ReplaySnoc(s0, p[..2], p[2]);
    assert p[..3] == p[..2] + [p[2]];
    UpdateStepNamed(s2, p[2], 1);
    ReplaySnoc(s0, p[..3], p[3]);
    assert p[..4] == p[..3] + [p[3]];
    UpdateStepNamed(s3, p[3], 1);
    ReplaySnoc(s0, p[..4], p[4]);
    assert p[..5] == p[..4] + [p[4]];
    UpdateStepNamed(s4, p[4], 2);
    ReplaySnoc(s0, p[..5], p[5]);
    assert p == p[..5] + [p[5]];
    UpdateStepNamed(s5, p[5], 2);
  }



  /** The `(document, status)` entries the pipeline's `update` calls log. */
  function StatusEntries(id: Uuid, statuses: seq<ProcessingStatus>): (r: seq<(Uuid, ProcessingStatus)>)
    ensures |r| == |statuses| && forall k :: 0 <= k < |r| ==> r[k] == (id, statuses[k])
  {
    seq(|statuses|, k requires 0 <= k < |statuses| => (id, statuses[k]))
  }

  /** Rows of the same document: id, deal and creation time, which `update` never writes. */
  predicate SameDocument(a: Document, b: Document) {
    a.id == b.id && a.dealId == b.dealId && a.createdAt == b.createdAt
  }

  /** One more status written to the log. */
  lemma LogSnoc(log: seq<(Uuid, ProcessingStatus)>, id: Uuid, written: seq<ProcessingStatus>, s: ProcessingStatus)
    ensures log + StatusEntries(id, written) + [(id, s)] == log + StatusEntries(id, written + [s])
  {
  }

  /** A status written before the rest of the run's statuses. */
  lemma LogCons(log: seq<(Uuid, ProcessingStatus)>, id: Uuid, s: ProcessingStatus, rest: seq<ProcessingStatus>)
    ensures log + [(id, s)] + StatusEntries(id, rest) == log + StatusEntries(id, [s] + rest)
  {
  }

  lemma UpdateTwice<T>(s: seq<T>, i: nat, a: T, b: T)
    requires i < |s|
    ensures s[i := a][i := b] == s[i := b]
  {
  }

  lemma UpdateSame<T>(s: seq<T>, i: nat)
    requires i < |s|
    ensures s[i := s[i]] == s
  {
  }

  /**
   * With the recorded steps carried along, a freshly uploaded document whose
   * pipeline succeeds ends COMPLETE with its three steps complete.
   */
  lemma StepsCompleteAfterSuccess(d0: Document, path: string, stored: bool,
                                  text: string -> Result<seq<PageText>>,
                                  tables: string -> Result<seq<ExtractedTable>>,
                                  normalize: seq<RawField> -> Result<seq<NormalizedField>>, now: Time)
    requires d0.processingSteps == InitialSteps()
    requires RunOf(path, stored, text, tables, normalize).failure.None?
    ensures var o := RunOf(path, stored, text, tables, normalize);
      var row := FinalRowKeepingSteps(d0, o, now);
      && row.processingStatus == Complete
      && row.processingSteps ==
           [Finished(ExtractTextStep, PagesDetail(|o.pages.value|)),
            Finished(ExtractTablesStep, TablesDetail(|o.tables.value|)),
            Finished(NormalizeFieldsStep, "")]
  {
    RunSpec(path, stored, text, tables, normalize);
    SuccessfulRun(path, stored, text, tables, normalize);
    var o := RunOf(path, stored, text, tables, normalize);
    ReplaySuccess(|o.pages.value|, |o.tables.value|);
  }

  // ---------------------------------------------------------------------------
  // The service
  // ---------------------------------------------------------------------------

  class DocumentService {
    const documents: DocumentTable
    const fields: Tables.ExtractedFieldTable
    const marketTables: Tables.MarketTableTable
    const storage: FileStorage
    const processor: DocumentProcessor
    const llm: Oracle<seq<RawField>, Result<seq<NormalizedField>>>

    constructor (documents: DocumentTable, fields: Tables.ExtractedFieldTable,
                 marketTables: Tables.MarketTableTable, storage: FileStorage,
                 processor: DocumentProcessor, llm: Oracle<seq<RawField>, Result<seq<NormalizedField>>>)
      ensures this.documents == documents && this.fields == fields && this.marketTables == marketTables
      ensures this.storage == storage && this.processor == processor && this.llm == llm
    {
      this.documents := documents;
      this.fields := fields;
      this.marketTables := marketTables;
      this.storage := storage;
      this.processor := processor;
      this.llm := llm;
    }

    /** `upload_document`: store the file, then create the PENDING document with its three pending steps. */
    method UploadDocument(dealId: Uuid, fileData: Bytes, filename: string, documentType: DocumentType,
                          newId: Uuid, now: Time) returns (r: Document)
      requires documents.Valid() && !KeyedUpsert.HasKey(documents.rows, DocId, newId)
      modifies storage, documents
      ensures documents.Valid()
      ensures storage.files == old(storage.files)[UploadPath(dealId, filename) := fileData]
      ensures r == Document(newId, dealId, documentType, UploadPath(dealId, filename), filename,
                            Pending, InitialSteps(), None, None, now, now)
      ensures documents.rows == old(documents.rows) + [r]
    {
      var path := UploadPath(dealId, filename);
      var stored := storage.Store(fileData, path);
      var doc := Document(newId, dealId, documentType, path, filename, Pending, InitialSteps(), None, None, now, now);
      r := documents.Create(doc);
    }

    /** `update(doc)` on the row at `i`, which holds `doc`'s document. */
    method Save(i: nat, doc: Document, now: Time)
      requires documents.Valid() && i < |documents.rows| && documents.rows[i].id == doc.id
      modifies documents
      ensures documents.Valid()
      ensures documents.rows == old(documents.rows)[i := Overwrite(old(documents.rows)[i], doc, now)]
      ensures documents.statusLog == old(documents.statusLog) + [(doc.id, doc.processingStatus)]
    {
      KeyedUpsert.UniqueNotAmbiguous(documents.rows, DocId, doc.id);
      assert KeyedUpsert.Lookup(documents.rows, DocId, doc.id) == KeyedUpsert.At(i);
      var saved := documents.Update(doc, now);
    }

    /** `update_processing_step(id, step)` on the row at `i`; the new step list is handed back. */
    method Mark(i: nat, id: Uuid, step: ProcessingStep, now: Time) returns (steps: seq<ProcessingStep>)
      requires documents.Valid() && i < |documents.rows| && documents.rows[i].id == id
      modifies documents
      ensures documents.Valid() && documents.statusLog == old(documents.statusLog)
      ensures steps == UpdateStep(old(documents.rows)[i].processingSteps, step)
      ensures documents.rows == old(documents.rows)[i := old(documents.rows)[i].(processingSteps := steps, updatedAt := now)]
    {
      KeyedUpsert.UniqueNotAmbiguous(documents.rows, DocId, id);
      assert KeyedUpsert.Lookup(documents.rows, DocId, id) == KeyedUpsert.At(i);
      var marked := documents.UpdateProcessingStep(id, step, now);
      steps := marked.value.processingSteps;
    }

    /** The `except` branch: record FAILED with the exception text. */
    method Fail(i: nat, doc: Document, e: Error, now: Time)
      requires documents.Valid() && i < |documents.rows| && documents.rows[i].id == doc.id
      modifies documents
      ensures documents.Valid()
      ensures documents.rows ==
                old(documents.rows)[i := Overwrite(old(documents.rows)[i],
                                                   doc.(processingStatus := Failed, errorMessage := Some(e.Message())), now)]
      ensures documents.statusLog == old(documents.statusLog) + [(doc.id, Failed)]
    {
      Save(i, doc.(processingStatus := Failed, errorMessage := Some(e.Message())), now);
    }

    /**
     * Text extraction, between the EXTRACTING_TEXT write and the status that
     * follows: mark the step started, fetch the file, extract its pages, mark
     * the step complete with the page count.
     */
    method TextPhase(i: nat, id: Uuid, path: string, now: Time)
      returns (file: string, pages: Result<seq<PageText>>, steps: seq<ProcessingStep>)
      requires documents.Valid() && i < |documents.rows| && documents.rows[i].id == id
      modifies documents, processor
      ensures documents.Valid() && documents.statusLog == old(documents.statusLog)
      ensures file == path
      ensures pages == if path in storage.files then processor.textAnswer(path)
                       else Err(OracleFailure("File not found: " + path))
      ensures processor.textCalls == old(processor.textCalls) + (if path in storage.files then [path] else [])
      ensures processor.tableCalls == old(processor.tableCalls)
      ensures steps == Replay(old(documents.rows)[i].processingSteps, TextProgress(pages))
      ensures documents.rows == old(documents.rows)[i := old(documents.rows)[i].(processingSteps := steps, updatedAt := now)]
    {
      ghost var s0 := documents.rows[i].processingSteps;
      steps := Mark(i, id, Started(ExtractTextStep), now);
      assert steps == Replay(s0, [Started(ExtractTextStep)]);
      file, pages := ReadPages(path);
      if pages.Err? {
        return;
      }
      ReplaySnoc(s0, [Started(ExtractTextStep)], Finished(ExtractTextStep, PagesDetail(|pages.value|)));
      steps := Mark(i, id, Finished(ExtractTextStep, PagesDetail(|pages.value|)), now);
    }

    /**
     * The start of `process_document` on the row at `i`: write EXTRACTING_TEXT,
     * then run the text phase. `doc` is the copy the pipeline goes on writing back.
     */
    method StartText(i: nat, now: Time)
      returns (doc: Document, file: string, pages: Result<seq<PageText>>, steps: seq<ProcessingStep>)
      requires documents.Valid() && i < |documents.rows|
      modifies documents, processor
      ensures documents.Valid()
      ensures doc == old(documents.rows)[i].(processingStatus := ExtractingText)
      ensures file == doc.filePath
      ensures pages == if file in storage.files then processor.textAnswer(file)
                       else Err(OracleFailure("File not found: " + file))
      ensures processor.textCalls == old(processor.textCalls) + (if file in storage.files then [file] else [])
      ensures processor.tableCalls == old(processor.tableCalls)
      ensures steps == Replay(doc.processingSteps, TextProgress(pages))
      ensures documents.rows == old(documents.rows)[i := doc.(processingSteps := steps, updatedAt := now)]
      ensures documents.statusLog == old(documents.statusLog) + [(doc.id, ExtractingText)]
    {
      ghost var before := documents.rows;
      doc := documents.rows[i].(processingStatus := ExtractingText);
      Save(i, doc, now);
      UpdateTwice(before, i, before[i], documents.rows[i]);
      ghost var mid := documents.rows;
      file, pages, steps := TextPhase(i, doc.id, doc.filePath, now);
      UpdateTwice(before, i, mid[i], documents.rows[i]);
    }

    /** `retrieve(doc.file_path)` followed by `extract_text` on the file it names. */
    method ReadPages(path: string) returns (file: string, pages: Result<seq<PageText>>)
      modifies processor
      ensures file == path
      ensures pages == if path in storage.files then processor.textAnswer(path)
                       else Err(OracleFailure("File not found: " + path))
      ensures processor.textCalls == old(processor.textCalls) + (if path in storage.files then [path] else [])
      ensures processor.tableCalls == old(processor.tableCalls)
    {
      var found := storage.Retrieve(path);
      file := path;
      if found.Err? {
        pages := Err(found.error);
        return;
      }
      pages := processor.ExtractText(found.value);
    }

    /**
     * Table extraction: mark the step started, extract the tables, store one
     * market table per table when there are any, mark the step complete with
     * the table count.
     */
    method TablesPhase(i: nat, id: Uuid, file: string, tableId: nat -> Uuid, now: Time)
      returns (tables: Result<seq<ExtractedTable>>, steps: seq<ProcessingStep>)
      requires documents.Valid() && i < |documents.rows| && documents.rows[i].id == id
      modifies documents, processor, marketTables
      ensures documents.Valid() && documents.statusLog == old(documents.statusLog)
      ensures tables == processor.tableAnswer(file)
      ensures processor.tableCalls == old(processor.tableCalls) + [file]
      ensures processor.textCalls == old(processor.textCalls)
      ensures marketTables.rows ==
                old(marketTables.rows) + (if tables.Ok? then MarketTablesOf(id, tables.value, tableId) else [])
      ensures steps == Replay(old(documents.rows)[i].processingSteps,
                              [Started(ExtractTablesStep)] +
                              (if tables.Ok? then [Finished(ExtractTablesStep, TablesDetail(|tables.value|))] else []))
      ensures documents.rows == old(documents.rows)[i := old(documents.rows)[i].(processingSteps := steps, updatedAt := now)]
    {
      ghost var s0 := documents.rows[i].processingSteps;
      steps := Mark(i, id, Started(ExtractTablesStep), now);
      assert steps == Replay(s0, [Started(ExtractTablesStep)]);
      tables := ExtractAndStoreTables(id, file, tableId);
      if tables.Err? {
        return;
      }
      ReplaySnoc(s0, [Started(ExtractTablesStep)], Finished(ExtractTablesStep, TablesDetail(|tables.value|)));
      steps := Mark(i, id, Finished(ExtractTablesStep, TablesDetail(|tables.value|)), now);
    }

    /** `extract_tables`, then one market table per table, stored when there are any. */
    method ExtractAndStoreTables(id: Uuid, file: string, tableId: nat -> Uuid)
      returns (tables: Result<seq<ExtractedTable>>)
      modifies processor, marketTables
      ensures tables == processor.tableAnswer(file)
      ensures processor.tableCalls == old(processor.tableCalls) + [file]
      ensures processor.textCalls == old(processor.textCalls)
      ensures marketTables.rows ==
                old(marketTables.rows) + (if tables.Ok? then MarketTablesOf(id, tables.value, tableId) else [])
    {
      tables := processor.ExtractTables(file);
      if tables.Err? {
        return;
      }
      var market := MarketTablesOf(id, tables.value, tableId);
      if market != [] {
        market := marketTables.BulkCreate(market);
      }
    }

    /**
     * Normalisation: mark the step started, build the raw fields, and only
     * when there are some have the LLM normalise them and store one extracted
     * field per result when there are any; then mark the step complete.
     */
    method NormalizePhase(i: nat, id: Uuid, pages: seq<PageText>, fieldId: nat -> Uuid, now: Time)
      returns (normalized: Result<seq<NormalizedField>>, steps: seq<ProcessingStep>)
      requires documents.Valid() && i < |documents.rows| && documents.rows[i].id == id
      modifies documents, llm, fields
      ensures documents.Valid() && documents.statusLog == old(documents.statusLog)
      ensures normalized == if RawFields(pages) == [] then Ok([]) else llm.answer(RawFields(pages))
      ensures llm.calls == old(llm.calls) + (if RawFields(pages) == [] then [] else [RawFields(pages)])
      ensures fields.rows ==
                old(fields.rows) + (if normalized.Ok? then FieldsOf(id, normalized.value, fieldId) else [])
      ensures steps == Replay(old(documents.rows)[i].processingSteps,
                              [Started(NormalizeFieldsStep)] +
                              (if normalized.Ok? then [Finished(NormalizeFieldsStep, "")] else []))
      ensures documents.rows == old(documents.rows)[i := old(documents.rows)[i].(processingSteps := steps, updatedAt := now)]
    {
      ghost var s0 := documents.rows[i].processingSteps;
      steps := Mark(i, id, Started(NormalizeFieldsStep), now);
      assert steps == Replay(s0, [Started(NormalizeFieldsStep)]);
      normalized := NormalizeAndStore(id, pages, fieldId);
      if normalized.Err? {
        return;
      }
      ReplaySnoc(s0, [Started(NormalizeFieldsStep)], Finished(NormalizeFieldsStep, ""));
      steps := Mark(i, id, Finished(NormalizeFieldsStep, ""), now);
    }

    /**
     * Build the raw fields and, only when there are some, have the LLM
     * normalise them and store one extracted field per result when there are any.
     */
    method NormalizeAndStore(id: Uuid, pages: seq<PageText>, fieldId: nat -> Uuid)
      returns (normalized: Result<seq<NormalizedField>>)
      modifies llm, fields
      ensures normalized == if RawFields(pages) == [] then Ok([]) else llm.answer(RawFields(pages))
      ensures llm.calls == old(llm.calls) + (if RawFields(pages) == [] then [] else [RawFields(pages)])
      ensures fields.rows ==
                old(fields.rows) + (if normalized.Ok? then FieldsOf(id, normalized.value, fieldId) else [])
    {
      var raw := BuildRawFields(pages);
      normalized := Ok([]);
      if raw != [] {
        normalized := llm.Call(raw);
        if normalized.Err? {
          return;
        }
        var extracted := FieldsOf(id, normalized.value, fieldId);
        if extracted != [] {
          extracted := fields.BulkCreate(extracted);
        }
      }
    }

    /** `process_document` from the NORMALIZING write on, as written. */
    method ProcessAfterTables(i: nat, doc: Document, pages: seq<PageText>, ts: seq<ExtractedTable>,
                              fieldId: nat -> Uuid, now: Time)
      requires documents.Valid() && i < |documents.rows| && SameDocument(documents.rows[i], doc)
      requires doc.pageCount == Some(|pages|)
      modifies documents, fields, llm
      ensures documents.Valid()
      ensures var r := RunAfterTables(pages, ts, llm.answer);
        && documents.rows == old(documents.rows)[i := FinalRow(doc, r, now)]
        && documents.statusLog == old(documents.statusLog) + StatusEntries(doc.id, r.statuses)
        && fields.rows == old(fields.rows) + WrittenFields(doc.id, r, fieldId)
        && llm.calls == old(llm.calls) + (if RawFields(pages) != [] then [RawFields(pages)] else [])
    {
      ghost var r := RunAfterTables(pages, ts, llm.answer);
      ghost var before := documents.rows;
      ghost var log0 := documents.statusLog;
      UpdateSame(before, i);
      var current := doc.(processingStatus := Normalizing);
      Save(i, current, now);
      UpdateTwice(before, i, before[i], documents.rows[i]);
      ghost var row := documents.rows[i];
      var normalized, steps := NormalizePhase(i, doc.id, pages, fieldId, now);
      UpdateTwice(before, i, row, documents.rows[i]);
      row := documents.rows[i];
      if normalized.Err? {
        Fail(i, current, normalized.error, now);
        UpdateTwice(before, i, row, documents.rows[i]);
        LogCons(log0, doc.id, Normalizing, [Failed]);
        return;
      }
      current := current.(processingStatus := Complete);
      Save(i, current, now);
      UpdateTwice(before, i, row, documents.rows[i]);
      LogCons(log0, doc.id, Normalizing, [Complete]);
    }

    /** `process_document` from the EXTRACTING_TABLES write on, as written. */
    method ProcessAfterText(i: nat, doc: Document, file: string, pages: seq<PageText>,
                            tableId: nat -> Uuid, fieldId: nat -> Uuid, now: Time)
      requires documents.Valid() && i < |documents.rows| && SameDocument(documents.rows[i], doc)
      requires doc.pageCount == Some(|pages|)
      modifies documents, fields, marketTables, processor, llm
      ensures documents.Valid()
      ensures var r := RunAfterText(file, pages, processor.tableAnswer, llm.answer);
        && documents.rows == old(documents.rows)[i := FinalRow(doc, r, now)]
        && documents.statusLog == old(documents.statusLog) + StatusEntries(doc.id, r.statuses)
        && marketTables.rows == old(marketTables.rows) + WrittenTables(doc.id, r, tableId)
        && fields.rows == old(fields.rows) + WrittenFields(doc.id, r, fieldId)
        && processor.textCalls == old(processor.textCalls)
        && processor.tableCalls == old(processor.tableCalls) + [file]
        && llm.calls == old(llm.calls) + (if r.tables.Some? && RawFields(pages) != [] then [RawFields(pages)] else [])
    {
      ghost var before := documents.rows;
      ghost var log0 := documents.statusLog;
      UpdateSame(before, i);
      var current := doc.(processingStatus := ExtractingTables);
      Save(i, current, now);
      UpdateTwice(before, i, before[i], documents.rows[i]);
      ghost var row := documents.rows[i];
      var tables, steps := TablesPhase(i, doc.id, file, tableId, now);
      UpdateTwice(before, i, row, documents.rows[i]);
      row := documents.rows[i];
      if tables.Err? {
        Fail(i, current, tables.error, now);
        UpdateTwice(before, i, row, documents.rows[i]);
        LogCons(log0, doc.id, ExtractingTables, [Failed]);
        return;
      }
      ghost var rest := RunAfterTables(pages, tables.value, llm.answer);
      ProcessAfterTables(i, current, pages, tables.value, fieldId, now);
      UpdateTwice(before, i, row, documents.rows[i]);
      LogCons(log0, doc.id, ExtractingTables, rest.statuses);
    }

    /**
     * `process_document` on the document stored at `i`, as written: the run is
     * `RunOf` the collaborators' answers, every status it passes through is
     * written in order, the tables and fields it obtained are stored, and the
     * document ends as `FinalRow` says, with the step list it had before the run.
     */
    method ProcessStored(i: nat, tableId: nat -> Uuid, fieldId: nat -> Uuid, now: Time)
      requires documents.Valid() && i < |documents.rows|
      modifies documents, fields, marketTables, processor, llm
      ensures documents.Valid()
      ensures var d0 := old(documents.rows)[i];
        var o := RunOf(d0.filePath, d0.filePath in storage.files,
                       processor.textAnswer, processor.tableAnswer, llm.answer);
        && documents.rows == old(documents.rows)[i := FinalRow(d0, o, now)]
        && documents.statusLog == old(documents.statusLog) + StatusEntries(d0.id, o.statuses)
        && marketTables.rows == old(marketTables.rows) + WrittenTables(d0.id, o, tableId)
        && fields.rows == old(fields.rows) + WrittenFields(d0.id, o, fieldId)
        && processor.textCalls == old(processor.textCalls) + (if d0.filePath in storage.files then [d0.filePath] else [])
        && processor.tableCalls == old(processor.tableCalls) + (if o.pages.Some? then [d0.filePath] else [])
        && llm.calls == old(llm.calls) +
             (if o.tables.Some? && RawFields(o.pages.value) != [] then [RawFields(o.pages.value)] else [])
    {
      ghost var d0 := documents.rows[i];
      ghost var before := documents.rows;
      ghost var log0 := documents.statusLog;
      var doc, file, pages, steps := StartText(i, now);
      ghost var row := documents.rows[i];
      ghost var stored := file in storage.files;
      if pages.Err? {
        TextFailedRun(file, stored, processor.textAnswer, processor.tableAnswer, llm.answer, pages.error);
        TextFailedRow(d0, steps, pages.error, now);
        Fail(i, doc, pages.error, now);
        UpdateTwice(before, i, row, documents.rows[i]);
        LogCons(log0, d0.id, ExtractingText, [Failed]);
        return;
      }

      ghost var r := RunAfterText(file, pages.value, processor.tableAnswer, llm.answer);
      TextDoneRun(file, pages.value, processor.textAnswer, processor.tableAnswer, llm.answer);
      TextDoneRow(d0, pages.value, r, now);
      doc := doc.(pageCount := Some(|pages.value|));
      ProcessAfterText(i, doc, file, pages.value, tableId, fieldId, now);
      UpdateTwice(before, i, row, documents.rows[i]);
      LogCons(log0, d0.id, ExtractingText, r.statuses);
    }

    /** `process_document`, as written: an unknown id changes nothing; a stored one runs as `ProcessStored` says. */
    method ProcessDocument(documentId: Uuid, tableId: nat -> Uuid, fieldId: nat -> Uuid, now: Time)
      requires documents.Valid()
      modifies documents, fields, marketTables, processor, llm
      ensures documents.Valid()
      ensures KeyedUpsert.Find(old(documents.rows), DocId, documentId).None? ==>
        && documents.rows == old(documents.rows) && documents.statusLog == old(documents.statusLog)
        && fields.rows == old(fields.rows) && marketTables.rows == old(marketTables.rows)
        && processor.textCalls == old(processor.textCalls) && processor.tableCalls == old(processor.tableCalls)
        && llm.calls == old(llm.calls)
      ensures KeyedUpsert.Find(old(documents.rows), DocId, documentId).Some? ==>
        var i := KeyedUpsert.Lookup(old(documents.rows), DocId, documentId).index;
        var d0 := old(documents.rows)[i];
        var o := RunOf(d0.filePath, d0.filePath in storage.files,
                       processor.textAnswer, processor.tableAnswer, llm.answer);
        && d0.id == documentId
        && documents.rows == old(documents.rows)[i := FinalRow(d0, o, now)]
        && documents.statusLog == old(documents.statusLog) + StatusEntries(documentId, o.statuses)
        && marketTables.rows == old(marketTables.rows) + WrittenTables(documentId, o, tableId)
        && fields.rows == old(fields.rows) + WrittenFields(documentId, o, fieldId)
        && processor.textCalls == old(processor.textCalls) + (if d0.filePath in storage.files then [d0.filePath] else [])
        && processor.tableCalls == old(processor.tableCalls) + (if o.pages.Some? then [d0.filePath] else [])
        && llm.calls == old(llm.calls) +
             (if o.tables.Some? && RawFields(o.pages.value) != [] then [RawFields(o.pages.value)] else [])
    {
      var found := documents.GetById(documentId);
      if found.None? {
        return;
      }
      var i := KeyedUpsert.Lookup(documents.rows, DocId, documentId).index;
      ProcessStored(i, tableId, fieldId, now);
    }

    // The same pipeline with the fix: `doc` picks up the step list each
    // `update_processing_step` hands back, so `update(doc)` keeps the progress.

    method ProcessAfterTablesKeepingSteps(i: nat, doc: Document, pages: seq<PageText>, ts: seq<ExtractedTable>,
                                          fieldId: nat -> Uuid, now: Time)
      requires documents.Valid() && i < |documents.rows| && SameDocument(documents.rows[i], doc)
      requires documents.rows[i].processingSteps == doc.processingSteps
      requires doc.pageCount == Some(|pages|)
      modifies documents, fields, llm
      ensures documents.Valid()
      ensures var r := RunAfterTables(pages, ts, llm.answer);
        && documents.rows == old(documents.rows)[i := FinalRowKeepingSteps(doc, r, now)]
        && documents.statusLog == old(documents.statusLog) + StatusEntries(doc.id, r.statuses)
        && fields.rows == old(fields.rows) + WrittenFields(doc.id, r, fieldId)
        && llm.calls == old(llm.calls) + (if RawFields(pages) != [] then [RawFields(pages)] else [])
    {
      ghost var r := RunAfterTables(pages, ts, llm.answer);
      ghost var before := documents.rows;
      ghost var log0 := documents.statusLog;
      UpdateSame(before, i);
      var current := doc.(processingStatus := Normalizing);
      Save(i, current, now);
      UpdateTwice(before, i, before[i], documents.rows[i]);
      ghost var row := documents.rows[i];
      var normalized, steps := NormalizePhase(i, doc.id, pages, fieldId, now);
      current := current.(processingSteps := steps);
      UpdateTwice(before, i, row, documents.rows[i]);
      row := documents.rows[i];
      if normalized.Err? {
        Fail(i, current, normalized.error, now);
        UpdateTwice(before, i, row, documents.rows[i]);
        LogCons(log0, doc.id, Normalizing, [Failed]);
        return;
      }
      current := current.(processingStatus := Complete);
      Save(i, current, now);
      UpdateTwice(before, i, row, documents.rows[i]);
      LogCons(log0, doc.id, Normalizing, [Complete]);
    }

    method ProcessAfterTextKeepingSteps(i: nat, doc: Document, file: string, pages: seq<PageText>,
                                        tableId: nat -> Uuid, fieldId: nat -> Uuid, now: Time)
      requires documents.Valid() && i < |documents.rows| && SameDocument(documents.rows[i], doc)
      requires documents.rows[i].processingSteps == doc.processingSteps
      requires doc.pageCount == Some(|pages|)
      modifies documents, fields, marketTables, processor, llm
      ensures documents.Valid()
      ensures var r := RunAfterText(file, pages, processor.tableAnswer, llm.answer);
        && documents.rows == old(documents.rows)[i := FinalRowKeepingSteps(doc, r, now)]
        && documents.statusLog == old(documents.statusLog) + StatusEntries(doc.id, r.statuses)
        && marketTables.rows == old(marketTables.rows) + WrittenTables(doc.id, r, tableId)
        && fields.rows == old(fields.rows) + WrittenFields(doc.id, r, fieldId)
        && processor.textCalls == old(processor.textCalls)
        && processor.tableCalls == old(processor.tableCalls) + [file]
        && llm.calls == old(llm.calls) + (if r.tables.Some? && RawFields(pages) != [] then [RawFields(pages)] else [])
    {
      ghost var before := documents.rows;
      ghost var log0 := documents.statusLog;
      UpdateSame(before, i);
      var current := doc.(processingStatus := ExtractingTables);
      Save(i, current, now);
      UpdateTwice(before, i, before[i], documents.rows[i]);
      ghost var row := documents.rows[i];
      var tables, steps := TablesPhase(i, doc.id, file, tableId, now);
      ghost var tablesProgress := [Started(ExtractTablesStep)] +
        (if tables.Ok? then [Finished(ExtractTablesStep, TablesDetail(|tables.value|))] else []);
      current := current.(processingSteps := steps);
      UpdateTwice(before, i, row, documents.rows[i]);
      row := documents.rows[i];
      if tables.Err? {
        Fail(i, current, tables.error, now);
        UpdateTwice(before, i, row, documents.rows[i]);
        LogCons(log0, doc.id, ExtractingTables, [Failed]);
        return;
      }
      ghost var rest := RunAfterTables(pages, tables.value, llm.answer);
      ReplayAppend(doc.processingSteps, tablesProgress, rest.progress);
      ProcessAfterTablesKeepingSteps(i, current, pages, tables.value, fieldId, now);
      UpdateTwice(before, i, row, documents.rows[i]);
      LogCons(log0, doc.id, ExtractingTables, rest.statuses);
    }

    /**
     * The corrected pipeline on the document stored at `i`: as `ProcessStored`,
     * except that the document ends with every recorded step replayed onto the
     * step list it had before the run.
     */
    method ProcessStoredKeepingSteps(i: nat, tableId: nat -> Uuid, fieldId: nat -> Uuid, now: Time)
      requires documents.Valid() && i < |documents.rows|
      modifies documents, fields, marketTables, processor, llm
      ensures documents.Valid()
      ensures var d0 := old(documents.rows)[i];
        var o := RunOf(d0.filePath, d0.filePath in storage.files,
                       processor.textAnswer, processor.tableAnswer, llm.answer);
        && documents.rows == old(documents.rows)[i := FinalRowKeepingSteps(d0, o, now)]
        && documents.statusLog == old(documents.statusLog) + StatusEntries(d0.id, o.statuses)
        && marketTables.rows == old(marketTables.rows) + WrittenTables(d0.id, o, tableId)
        && fields.rows == old(fields.rows) + WrittenFields(d0.id, o, fieldId)
        && processor.textCalls == old(processor.textCalls) + (if d0.filePath in storage.files then [d0.filePath] else [])
        && processor.tableCalls == old(processor.tableCalls) + (if o.pages.Some? then [d0.filePath] else [])
        && llm.calls == old(llm.calls) +
             (if o.tables.Some? && RawFields(o.pages.value) != [] then [RawFields(o.pages.value)] else [])
    {
      ghost var d0 := documents.rows[i];
      ghost var before := documents.rows;
      ghost var log0 := documents.statusLog;
      var doc, file, pages, steps := StartText(i, now);
      ghost var row := documents.rows[i];
      ghost var stored := file in storage.files;
      if pages.Err? {
        TextFailedRun(file, stored, processor.textAnswer, processor.tableAnswer, llm.answer, pages.error);
        TextFailedRow(d0, steps, pages.error, now);
        Fail(i, doc.(processingSteps := steps), pages.error, now);
        UpdateTwice(before, i, row, documents.rows[i]);
        LogCons(log0, d0.id, ExtractingText, [Failed]);
        return;
      }

      ghost var r := RunAfterText(file, pages.value, processor.tableAnswer, llm.answer);
      TextDoneRun(file, pages.value, processor.textAnswer, processor.tableAnswer, llm.answer);
      TextDoneRowKeepingSteps(d0, pages.value, r, now);
      doc := doc.(pageCount := Some(|pages.value|), processingSteps := steps);
      ProcessAfterTextKeepingSteps(i, doc, file, pages.value, tableId, fieldId, now);
      UpdateTwice(before, i, row, documents.rows[i]);
      LogCons(log0, d0.id, ExtractingText, r.statuses);
    }

    /** `process_document` with the fix: an unknown id changes nothing; a stored one runs as `ProcessStoredKeepingSteps` says. */
    method ProcessDocumentKeepingSteps(documentId: Uuid, tableId: nat -> Uuid, fieldId: nat -> Uuid, now: Time)
      requires documents.Valid()
      modifies documents, fields, marketTables, processor, llm
      ensures documents.Valid()
      ensures KeyedUpsert.Find(old(documents.rows), DocId, documentId).None? ==>
        && documents.rows == old(documents.rows) && documents.statusLog == old(documents.statusLog)
        && fields.rows == old(fields.rows) && marketTables.rows == old(marketTables.rows)
        && processor.textCalls == old(processor.textCalls) && processor.tableCalls == old(processor.tableCalls)
        && llm.calls == old(llm.calls)
      ensures KeyedUpsert.Find(old(documents.rows), DocId, documentId).Some? ==>
        var i := KeyedUpsert.Lookup(old(documents.rows), DocId, documentId).index;
        var d0 := old(documents.rows)[i];
        var o := RunOf(d0.filePath, d0.filePath in storage.files,
                       processor.textAnswer, processor.tableAnswer, llm.answer);
        && d0.id == documentId
        && documents.rows == old(documents.rows)[i := FinalRowKeepingSteps(d0, o, now)]
        && documents.statusLog == old(documents.statusLog) + StatusEntries(documentId, o.statuses)
        && marketTables.rows == old(marketTables.rows) + WrittenTables(documentId, o, tableId)
        && fields.rows == old(fields.rows) + WrittenFields(documentId, o, fieldId)
        && processor.textCalls == old(processor.textCalls) + (if d0.filePath in storage.files then [d0.filePath] else [])
        && processor.tableCalls == old(processor.tableCalls) + (if o.pages.Some? then [d0.filePath] else [])
        && llm.calls == old(llm.calls) +
             (if o.tables.Some? && RawFields(o.pages.value) != [] then [RawFields(o.pages.value)] else [])
    {
      var found := documents.GetById(documentId);
      if found.None? {
        return;
      }
      var i := KeyedUpsert.Lookup(documents.rows, DocId, documentId).index;
      ProcessStoredKeepingSteps(i, tableId, fieldId, now);
    }
  }
}
