// External collaborators the core calls but does not implement: the LLM, the
// HTTP and search clients, the PDF library, the workbook exporter and the
// comps providers. Each is an oracle: a fixed answer per question (which may
// be a failure) and a log of the questions asked, so that contracts can say
// whether, how often and with what a collaborator was called.

module Oracles {
  import opened Domain

  class Oracle<I, O> {
    /** Every question asked so far, oldest first. */
    var calls: seq<I>
    const answer: I -> O

    constructor (answer: I -> O)
      ensures this.answer == answer && calls == []
    {
      this.answer := answer;
      calls := [];
    }

    method Call(question: I) returns (o: O)
      modifies this
      ensures calls == old(calls) + [question]
      ensures o == answer(question)
    {
      calls := calls + [question];
      o := answer(question);
    }
  }

  /**
   * The file store (`FileStorage`): `store` writes the bytes under the path and
   * hands the path back; `retrieve` fails with "File not found" for a path
   * nothing was stored under.
   */
  class FileStorage {
    var files: map<string, Bytes>

    constructor ()
      ensures files == map[]
    {
      files := map[];
    }

    method Store(data: Bytes, path: string) returns (stored: string)
      modifies this
      ensures files == old(files)[path := data]
      ensures stored == path
    {
      files := files[path := data];
      stored := path;
    }

    method Retrieve(path: string) returns (r: Result<string>)
      ensures path in files <==> r.Ok?
      ensures r.Ok? ==> r.value == path
      ensures r.Err? ==> r.error == OracleFailure("File not found: " + path)
    {
      if path in files {
        r := Ok(path);
      } else {
        r := Err(OracleFailure("File not found: " + path));
      }
    }
  }

  /**
   * The document processor (`DocumentProcessor`): page texts and tables of a
   * stored file, or a failure, with one log per operation.
   */
  class DocumentProcessor {
    var textCalls: seq<string>
    var tableCalls: seq<string>
    const textAnswer: string -> Result<seq<PageText>>
    const tableAnswer: string -> Result<seq<ExtractedTable>>

    constructor (textAnswer: string -> Result<seq<PageText>>, tableAnswer: string -> Result<seq<ExtractedTable>>)
      ensures this.textAnswer == textAnswer && this.tableAnswer == tableAnswer
      ensures textCalls == [] && tableCalls == []
    {
      this.textAnswer := textAnswer;
      this.tableAnswer := tableAnswer;
      textCalls := [];
      tableCalls := [];
    }

    method ExtractText(filePath: string) returns (r: Result<seq<PageText>>)
      modifies this
      ensures textCalls == old(textCalls) + [filePath] && tableCalls == old(tableCalls)
      ensures r == textAnswer(filePath)
    {
      textCalls := textCalls + [filePath];
      r := textAnswer(filePath);
    }

    method ExtractTables(filePath: string) returns (r: Result<seq<ExtractedTable>>)
      modifies this
      ensures tableCalls == old(tableCalls) + [filePath] && textCalls == old(textCalls)
      ensures r == tableAnswer(filePath)
    {
      tableCalls := tableCalls + [filePath];
      r := tableAnswer(filePath);
    }
  }
}
