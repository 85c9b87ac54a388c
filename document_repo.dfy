// The document table (`SqlAlchemyDocumentRepository`): creation, lookups,
// whole-row updates, and the processing-step list that is kept as a JSON
// array and updated one named step at a time.

module DocumentRepo {
  import opened Domain
  import opened Queries
  import KeyedUpsert

  // ---------------------------------------------------------------------------
  // The processing-step list
  // ---------------------------------------------------------------------------

  /** The index of the first step called `name`, if any. */
  function FirstNamed(steps: seq<ProcessingStep>, name: string): (r: Option<nat>)
    ensures r.Some? ==> r.value < |steps| && steps[r.value].name == name
    ensures r.Some? ==> forall j :: 0 <= j < r.value ==> steps[j].name != name
    ensures r.None? <==> forall j :: 0 <= j < |steps| ==> steps[j].name != name
  {
    if steps == [] then None
    else if steps[0].name == name then Some(0)
    else match FirstNamed(steps[1..], name)
      case None => None
      case Some(i) => Some(i + 1)
  }

  /** The step list after `update_processing_step(step)`. */
  function UpdateStep(steps: seq<ProcessingStep>, step: ProcessingStep): seq<ProcessingStep> {
    match FirstNamed(steps, step.name)
    case Some(i) => steps[i := step]
    case None => steps + [step]
  }

  /**
   * A step whose name is already listed replaces the FIRST step of that name
   * and the length stays; otherwise it goes at the end and the length grows by
   * one. Every other step keeps its place, and afterwards the first step of
   * that name is the new step.
   */
  lemma UpdateStepSpec(steps: seq<ProcessingStep>, step: ProcessingStep)
    ensures var r := UpdateStep(steps, step);
      && (FirstNamed(steps, step.name).Some? ==>
            |r| == |steps| && r[FirstNamed(steps, step.name).value] == step)
      && (FirstNamed(steps, step.name).None? ==> |r| == |steps| + 1 && r[|steps|] == step)
      && (forall j :: 0 <= j < |steps| && Some(j) != FirstNamed(steps, step.name) ==> r[j] == steps[j])
      && FirstNamed(r, step.name).Some? && r[FirstNamed(r, step.name).value] == step
  {
    var r := UpdateStep(steps, step);
    match FirstNamed(steps, step.name)
    case Some(i) =>
      assert r[i] == step;
    case None =>
      assert r[|steps|] == step;
  }

  /** Applying the same step twice leaves the list as applying it once. */
  lemma UpdateStepIdempotent(steps: seq<ProcessingStep>, step: ProcessingStep)
    ensures UpdateStep(UpdateStep(steps, step), step) == UpdateStep(steps, step)
  {
    UpdateStepSpec(steps, step);
    var r := UpdateStep(steps, step);
    var i := FirstNamed(r, step.name).value;
    assert r[i := step] == r;
  }

  /** The replace-first-or-append loop over a copy of the step list. */
  method ReplaceOrAppend(steps: seq<ProcessingStep>, step: ProcessingStep)
    returns (r: seq<ProcessingStep>)
    ensures r == UpdateStep(steps, step)
  {
    r := steps;
    var updated := false;
    var i := 0;
    while i < |steps|
      invariant 0 <= i <= |steps|
      invariant forall j :: 0 <= j < i ==> steps[j].name != step.name
      invariant !updated && r == steps
    {
      if steps[i].name == step.name {
        r := steps[i := step];
        updated := true;
        break;
      }
      i := i + 1;
    }
    if !updated {
      r := steps + [step];
    }
  }

  // ---------------------------------------------------------------------------
  // The table
  // ---------------------------------------------------------------------------

  function DocId(d: Document): Uuid { d.id }

  /** `created_at.desc()`. */
  predicate NewestFirst(a: Document, b: Document) { a.createdAt >= b.createdAt }

  lemma NewestFirstTotal()
    ensures TotalPreorder(NewestFirst)
  {
  }

  /** The row after `update(document)`: every mutable column from `doc`, a fresh `updated_at`. */
  function Overwrite(row: Document, doc: Document, now: Time): Document {
    row.(documentType := doc.documentType, filePath := doc.filePath,
         originalFilename := doc.originalFilename, processingStatus := doc.processingStatus,
         processingSteps := doc.processingSteps, errorMessage := doc.errorMessage,
         pageCount := doc.pageCount, updatedAt := now)
  }

  class DocumentTable {
    var rows: seq<Document>
    /** Every status written by `update`, in order, with the document it was written for. */
    ghost var statusLog: seq<(Uuid, ProcessingStatus)>

    /** The primary key. */
    ghost predicate Valid()
      reads this
    {
      KeyedUpsert.UniqueKeys(rows, DocId)
    }

    constructor ()
      ensures rows == [] && statusLog == [] && Valid()
    {
      rows := [];
      statusLog := [];
    }

    method Create(doc: Document) returns (r: Document)
      requires Valid() && !KeyedUpsert.HasKey(rows, DocId, doc.id)
      modifies this
      ensures Valid()
      ensures rows == old(rows) + [doc] && statusLog == old(statusLog) && r == doc
    {
      rows := rows + [doc];
      r := doc;
    }

    method GetById(id: Uuid) returns (r: Option<Document>)
      requires Valid()
      ensures r == KeyedUpsert.Find(rows, DocId, id)
      ensures r.Some? ==> r.value in rows && r.value.id == id
      ensures r.None? ==> forall d :: d in rows ==> d.id != id
    {
      r := KeyedUpsert.Find(rows, DocId, id);
    }

    /** The deal's documents, newest first. */
    method GetByDealId(dealId: Uuid) returns (r: seq<Document>)
      ensures multiset(r) == multiset(Filter(rows, (d: Document) => d.dealId == dealId))
      ensures SortedBy(r, NewestFirst)
    {
      var mine := Filter(rows, (d: Document) => d.dealId == dealId);
      NewestFirstTotal();
      SortBySorted(mine, NewestFirst);
      r := SortBy(mine, NewestFirst);
    }

    /** `update`: `scalar_one()` on the id, then overwrite the mutable columns. */
    method Update(doc: Document, now: Time) returns (r: Result<Document>)
      requires Valid()
      modifies this
      ensures Valid()
      ensures r.Err? <==> !KeyedUpsert.HasKey(old(rows), DocId, doc.id)
      ensures r.Err? ==> r.error == NoResultFound && rows == old(rows) && statusLog == old(statusLog)
      ensures r.Ok? ==>
        var i := KeyedUpsert.Lookup(old(rows), DocId, doc.id).index;
        && rows == old(rows)[i := Overwrite(old(rows)[i], doc, now)]
        && r.value == rows[i]
        && statusLog == old(statusLog) + [(doc.id, doc.processingStatus)]
    {
      KeyedUpsert.UniqueNotAmbiguous(rows, DocId, doc.id);
      match KeyedUpsert.Lookup(rows, DocId, doc.id)
      case Absent =>
        r := Err(NoResultFound);
      case At(i) =>
        rows := rows[i := Overwrite(rows[i], doc, now)];
        statusLog := statusLog + [(doc.id, doc.processingStatus)];
        r := Ok(rows[i]);
        assert forall j :: 0 <= j < |rows| ==> DocId(rows[j]) == DocId(old(rows)[j]);
    }

    /** `update_processing_step`: `scalar_one()` on the id, then replace-or-append the step. */
    method UpdateProcessingStep(id: Uuid, step: ProcessingStep, now: Time) returns (r: Result<Document>)
      requires Valid()
      modifies this
      ensures Valid() && statusLog == old(statusLog)
      ensures r.Err? <==> !KeyedUpsert.HasKey(old(rows), DocId, id)
      ensures r.Err? ==> r.error == NoResultFound && rows == old(rows)
      ensures r.Ok? ==>
        var i := KeyedUpsert.Lookup(old(rows), DocId, id).index;
        var row := old(rows)[i];
        && rows == old(rows)[i := row.(processingSteps := UpdateStep(row.processingSteps, step), updatedAt := now)]
        && r.value == rows[i]
    {
      KeyedUpsert.UniqueNotAmbiguous(rows, DocId, id);
      match KeyedUpsert.Lookup(rows, DocId, id)
      case Absent =>
        r := Err(NoResultFound);
      case At(i) =>
        var steps := ReplaceOrAppend(rows[i].processingSteps, step);
        rows := rows[i := rows[i].(processingSteps := steps, updatedAt := now)];
        r := Ok(rows[i]);
        assert forall j :: 0 <= j < |rows| ==> DocId(rows[j]) == DocId(old(rows)[j]);
    }
  }
}
