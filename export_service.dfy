// `ExportService.export_xlsx`: look up the set, its deal, its assumptions and
// its latest model result, have the workbook built, store it under
// `exports/{deal_id}/{set_id}.xlsx`, and record the export.

module ExportService {
  import opened Domain
  import opened Queries
  import opened KeyedUpsert
  import opened Oracles
  import opened Text
  import Tables
  import AssumptionRepo

  /** The workbook exporter's arguments. */
  datatype WorkbookQuery = WorkbookQuery(deal: Deal, assumptions: seq<Assumption>, result: ModelResult)

  /** The stored file's path. */
  function ExportPath(dealId: Uuid, setId: Uuid): (path: string)
    ensures path == "exports/" + dealId + "/" + setId + ".xlsx"
  {
    "exports/" + dealId + "/" + setId + ".xlsx"
  }

  /** The part of `d + "/" + rest` before its first slash is `d`, when `d` has none. */
  lemma {:induction false} BeforeFirstSlash(d: string, rest: string)
    requires '/' !in d
    ensures BeforeFirst(d + "/" + rest, '/') == d
    decreases |d|
  {
    if d != [] {
      BeforeFirstSlash(d[1..], rest);
      assert (d + "/" + rest)[1..] == d[1..] + "/" + rest;
    }
  }

  /** Exports of different (deal, set) pairs with slash-free deal ids never share a path. */
  lemma ExportPathInjective(d1: Uuid, s1: Uuid, d2: Uuid, s2: Uuid)
    requires '/' !in d1 && '/' !in d2
    requires ExportPath(d1, s1) == ExportPath(d2, s2)
    ensures d1 == d2 && s1 == s2
  {
    var p := ExportPath(d1, s1);
    assert p[8..] == d1 + "/" + (s1 + ".xlsx") == d2 + "/" + (s2 + ".xlsx");
    BeforeFirstSlash(d1, s1 + ".xlsx");
    BeforeFirstSlash(d2, s2 + ".xlsx");
    assert s1 == p[9 + |d1|..|p| - 5] == s2;
  }

  class ExportService {
    const deals: Tables.DealTable
    const sets: AssumptionRepo.AssumptionSetTable
    const assumptions: AssumptionRepo.AssumptionTable
    const results: Tables.ModelResultTable
    const exports: Tables.ExportTable
    const storage: FileStorage
    const exporter: Oracle<WorkbookQuery, Result<Bytes>>

    /** The set, its deal and a model result for it all exist, so the exporter is asked. */
    predicate ReadyToExport(setId: Uuid)
      reads deals, sets, results
    {
      && Find(sets.rows, AssumptionRepo.SetId, setId).Some?
      && Find(deals.rows, Tables.DealId, Find(sets.rows, AssumptionRepo.SetId, setId).value.dealId).Some?
      && exists m :: m in results.rows && m.setId == setId
    }

    /**
     * `q` is what `export_xlsx` hands the exporter for the set: its deal, its
     * assumptions ordered by key, and a most recent model result of the set.
     */
    predicate QueryFor(setId: Uuid, q: WorkbookQuery)
      reads deals, sets, assumptions, results
    {
      && Find(sets.rows, AssumptionRepo.SetId, setId).Some?
      && Find(deals.rows, Tables.DealId, Find(sets.rows, AssumptionRepo.SetId, setId).value.dealId) == Some(q.deal)
      && multiset(q.assumptions) == multiset(AssumptionRepo.OfSet(assumptions.rows, setId))
      && SortedBy(q.assumptions, AssumptionRepo.KeyOrder)
      && q.result.setId == setId && q.result in results.rows
      && (forall m :: m in results.rows && m.setId == setId ==> m.computedAt <= q.result.computedAt)
    }

    constructor (deals: Tables.DealTable, sets: AssumptionRepo.AssumptionSetTable,
                 assumptions: AssumptionRepo.AssumptionTable, results: Tables.ModelResultTable,
                 exports: Tables.ExportTable, storage: FileStorage, exporter: Oracle<WorkbookQuery, Result<Bytes>>)
      ensures this.deals == deals && this.sets == sets && this.assumptions == assumptions
      ensures this.results == results && this.exports == exports && this.storage == storage
      ensures this.exporter == exporter
    {
      this.deals := deals;
      this.sets := sets;
      this.assumptions := assumptions;
      this.results := results;
      this.exports := exports;
      this.storage := storage;
      this.exporter := exporter;
    }

    /**
     * `export_xlsx`: an unknown set, an unknown deal or a set without a model
     * result fails with nothing built, stored or recorded. Otherwise the
     * exporter is asked once for the workbook of the set's latest result; an
     * exporter failure propagates with nothing stored or recorded, and a
     * workbook is stored at the export path and one XLSX export record
     * pointing at it is added.
     */
    method ExportXlsx(setId: Uuid, newId: Uuid, now: Time) returns (r: Result<Export>)
      requires deals.Valid() && sets.Valid()
      modifies storage, exports, exporter
      ensures Find(sets.rows, AssumptionRepo.SetId, setId).None? ==> r == Err(SetNotFound(setId))
      ensures Find(sets.rows, AssumptionRepo.SetId, setId).Some? &&
              Find(deals.rows, Tables.DealId, Find(sets.rows, AssumptionRepo.SetId, setId).value.dealId).None? ==>
                r == Err(DealNotFound(Find(sets.rows, AssumptionRepo.SetId, setId).value.dealId))
      ensures r.Err? ==> storage.files == old(storage.files) && exports.rows == old(exports.rows)
      ensures !ReadyToExport(setId) ==> r.Err? && exporter.calls == old(exporter.calls)
      ensures ReadyToExport(setId) ==>
        && |exporter.calls| == |old(exporter.calls)| + 1
        && var q := exporter.calls[|old(exporter.calls)|];
        && QueryFor(setId, q)
        && (exporter.answer(q).Err? ==> r == Err(exporter.answer(q).error))
        && (exporter.answer(q).Ok? ==>
              var path := ExportPath(q.deal.id, setId);
              && r == Ok(Export(newId, q.deal.id, setId, path, Xlsx, now))
              && exports.rows == old(exports.rows) + [r.value]
              && storage.files == old(storage.files)[path := exporter.answer(q).value])
    {
      var g := Gather(setId);
      if g.Err? {
        return Err(g.error);
      }
      r := BuildAndStore(g.value, setId, newId, now);
    }

    /**
     * The reads of `export_xlsx`: the set, its deal, the set's assumptions in
     * key order and its latest model result, or the error for the first one
     * missing.
     */
    method Gather(setId: Uuid) returns (g: Result<WorkbookQuery>)
      requires deals.Valid() && sets.Valid()
      ensures Find(sets.rows, AssumptionRepo.SetId, setId).None? ==> g == Err(SetNotFound(setId))
      ensures Find(sets.rows, AssumptionRepo.SetId, setId).Some? &&
              Find(deals.rows, Tables.DealId, Find(sets.rows, AssumptionRepo.SetId, setId).value.dealId).None? ==>
                g == Err(DealNotFound(Find(sets.rows, AssumptionRepo.SetId, setId).value.dealId))
      ensures g.Ok? <==> ReadyToExport(setId)
      ensures g.Ok? ==> QueryFor(setId, g.value)
    {
      var assumptionSet := sets.GetById(setId);
      if assumptionSet.None? {
        return Err(SetNotFound(setId));
      }
      var deal := deals.GetById(assumptionSet.value.dealId);
      if deal.None? {
        return Err(DealNotFound(assumptionSet.value.dealId));
      }
      var listed := assumptions.GetBySetId(setId);
      var latest := results.GetBySetId(setId);
      if latest.None? {
        return Err(NoModelResult(setId));
      }
      g := Ok(WorkbookQuery(deal.value, listed, latest.value));
    }

    /**
     * The tail of `export_xlsx`: one exporter call; its failure propagates with
     * nothing stored or recorded, and its workbook is stored and recorded.
     */
    method BuildAndStore(q: WorkbookQuery, setId: Uuid, newId: Uuid, now: Time) returns (r: Result<Export>)
      modifies storage, exports, exporter
      ensures exporter.calls == old(exporter.calls) + [q]
      ensures exporter.answer(q).Err? ==>
        && r == Err(exporter.answer(q).error)
        && storage.files == old(storage.files) && exports.rows == old(exports.rows)
      ensures exporter.answer(q).Ok? ==>
        var path := ExportPath(q.deal.id, setId);
        && r == Ok(Export(newId, q.deal.id, setId, path, Xlsx, now))
        && exports.rows == old(exports.rows) + [r.value]
        && storage.files == old(storage.files)[path := exporter.answer(q).value]
    {
      var workbook := exporter.Call(q);
      if workbook.Err? {
        return Err(workbook.error);
      }
      var path := ExportPath(q.deal.id, setId);
      var stored := storage.Store(workbook.value, path);
      var record := exports.Create(Export(newId, q.deal.id, setId, path, Xlsx, now));
      r := Ok(record);
    }
  }
}
