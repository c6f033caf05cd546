/** The backend's request pipeline: the two module-level globals
    (`knowledge_base` and `html_content_global`) as the fields of class
    App, and the three endpoints as its methods. Every external call is a
    field of `Services`: the embedding service, SHA-256, the text splitter,
    Chroma's `add` and `query`, the generative model and `json.loads`. */
module Backend {
  import opened Wrappers
  import opened Text
  import opened Embedding
  import opened Ingest
  import opened Context
  import opened TestCaseParser
  import opened ScriptFence

  /** A JSON value as `json.loads` returns it (numbers kept as their text). */
  datatype Json =
    | JNull
    | JBool(b: bool)
    | JNumber(literal: string)
    | JString(s: string)
    | JArray(items: seq<Json>)
    | JObject(members: seq<(string, Json)>)

  /** What a Chroma query returns for one query vector. */
  datatype QueryResult = QueryResult(documents: seq<string>, metadatas: seq<Metadata>)

  /** What is sent to the generative model; the fixed wording around these
      parts is not modelled. */
  datatype Prompt =
    | TestCasePrompt(context: string)
    | ScriptPrompt(testCase: string, htmlExcerpt: string, context: string)

  /** The external calls. `embed` yields None when the embedding call
      raises; `addError`, `query` and `generate` yield the message of the
      exception they raise; `parseJson` yields None when `json.loads`
      raises. */
  datatype Services = Services(
    embed: string -> Option<seq<real>>,
    sha256: string -> HexDigest,
    split: string -> seq<string>,
    addError: Collection -> Option<string>,
    query: (Collection, Vector, nat) -> Result<QueryResult>,
    generate: Prompt -> Result<string>,
    parseJson: string -> Option<seq<Json>>)

  /** `knowledge_base`: None, or a Chroma collection. */
  datatype Index = NotBuilt | Built(collection: Collection)

  /** An endpoint's answer: its JSON body, or an HTTPException. */
  datatype Response<T> = Ok(body: T) | HttpError(status: nat, detail: string)

  /** The body of a successful build. */
  datatype BuildReport = BuildReport(status: string, message: string, numChunks: nat)

  const TestCaseResults: nat := 5
  const ScriptResults: nat := 3
  const HtmlPromptLimit: nat := 2000
  const NotBuiltForTestCases := "Knowledge base not built. Please upload documents first."
  const NotBuiltForScript := "Knowledge base not built"

  /** `html_content[:2000]`. */
  function HtmlExcerpt(html: string): (e: string)
    ensures |e| == if |html| < HtmlPromptLimit then |html| else HtmlPromptLimit
    ensures StartsWith(html, e)
  {
    html[..if |html| < HtmlPromptLimit then |html| else HtmlPromptLimit]
  }

  /** The chunks of `files` the build keeps, as its parallel lists hold them. */
  predicate Holds(documents: seq<string>, metadatas: seq<Metadata>, ids: seq<string>, chunks: seq<Chunk>) {
    |documents| == |metadatas| == |ids| == |chunks| &&
    (forall k | 0 <= k < |chunks| :: Chunk(documents[k], metadatas[k]) == chunks[k]) &&
    (forall k | 0 <= k < |ids| :: ids[k] == DocId(k))
  }

  /** Appending one kept chunk to the three lists keeps them in step. */
  lemma HoldsSnoc(documents: seq<string>, metadatas: seq<Metadata>, ids: seq<string>,
                  chunks: seq<Chunk>, c: Chunk)
    requires Holds(documents, metadatas, ids, chunks)
    ensures Holds(documents + [c.document], metadatas + [c.metadata], ids + [DocId(|ids|)], chunks + [c])
  {
  }

  /** The inner loop of the build over one file's splitter output: each
      chunk that is not blank is appended with its position and the next
      id. */
  method AppendKept(documents: seq<string>, metadatas: seq<Metadata>, ids: seq<string>,
                    docId: nat, ghost before: seq<Chunk>, filename: string, chunks: seq<string>)
    returns (documents': seq<string>, metadatas': seq<Metadata>, ids': seq<string>, docId': nat)
    requires docId == |documents| && Holds(documents, metadatas, ids, before)
    ensures docId' == |documents'| && Holds(documents', metadatas', ids', before + Kept(filename, chunks))
  {
    documents', metadatas', ids', docId' := documents, metadatas, ids, docId;
    var n := 0;
    while n < |chunks|
      invariant 0 <= n <= |chunks|
      invariant docId' == |documents'|
      invariant Holds(documents', metadatas', ids', before + Kept(filename, chunks[..n]))
    {
      assert chunks[..n + 1][..n] == chunks[..n];
      if Strip(chunks[n]) != "" {
        HoldsSnoc(documents', metadatas', ids', before + Kept(filename, chunks[..n]),
                  Chunk(chunks[n], Metadata(filename, n)));
        documents' := documents' + [chunks[n]];
        metadatas' := metadatas' + [Metadata(filename, n)];
        ids' := ids' + [DocId(docId')];
        docId' := docId' + 1;
      }
      n := n + 1;
    }
    assert chunks[..n] == chunks;
  }

  /** The body of the build loop for one file, after the page has been
      remembered: its text is read and split, and its kept chunks are
      appended; a read that raises yields the exception's message and
      appends nothing. */
  method ProcessFile(f: UploadedFile, split: string -> seq<string>,
                     documents: seq<string>, metadatas: seq<Metadata>, ids: seq<string>,
                     docId: nat, ghost before: seq<Chunk>)
    returns (failure: Option<string>,
             documents': seq<string>, metadatas': seq<Metadata>, ids': seq<string>, docId': nat)
    requires docId == |documents| && Holds(documents, metadatas, ids, before)
    ensures failure.Some? <==> ReadFails(f)
    ensures failure.Some? ==> failure.value == f.decoded.message
    ensures failure.Some? ==>
      documents' == documents && metadatas' == metadatas && ids' == ids && docId' == docId
    ensures failure.None? ==>
      docId' == |documents'| && Holds(documents', metadatas', ids', before + FileChunks(f, split))
  {
    ReadFailsIff(f);
    documents', metadatas', ids', docId' := documents, metadatas, ids, docId;
    match ExtractText(f)
    case ReadFailed(message) =>
      return Some(message), documents', metadatas', ids', docId';
    case Unsupported =>
      assert before + FileChunks(f, split) == before;
      return None, documents', metadatas', ids', docId';
    case Extracted(content) =>
      documents', metadatas', ids', docId' :=
        AppendKept(documents, metadatas, ids, docId, before, f.filename, split(content));
      return None, documents', metadatas', ids', docId';
  }

  /** One more file extends the collected chunks by that file's chunks and
      may replace the remembered page. */
  lemma FilesSnoc(files: seq<UploadedFile>, i: nat, split: string -> seq<string>, init: string)
    requires i < |files|
    ensures Collected(files[..i + 1], split) == Collected(files[..i], split) + FileChunks(files[i], split)
    ensures LastHtml(files[..i + 1], init) ==
      if KindOf(files[i].filename) == Some(Html) && files[i].decoded.Decoded? then files[i].decoded.text
      else LastHtml(files[..i], init)
  {
    assert files[..i + 1][..i] == files[..i];
  }

  /** The lists a successful build fills make up the collection the
      specification describes. */
  lemma BuiltFromLists(files: seq<UploadedFile>, services: Services,
                       documents: seq<string>, metadatas: seq<Metadata>, ids: seq<string>)
    requires Holds(documents, metadatas, ids, Collected(files, services.split))
    ensures Collection(documents, metadatas, ids,
        seq(|documents|, k requires 0 <= k < |documents| => GetEmbedding(documents[k], services.embed, services.sha256)))
      == BuiltCollection(files, services.split, services.embed, services.sha256)
  {
  }

  class App {
    /** `knowledge_base` */
    var knowledgeBase: Index
    /** `html_content_global` */
    var htmlContent: string

    constructor()
      ensures knowledgeBase == NotBuilt && htmlContent == ""
    {
      knowledgeBase := NotBuilt;
      htmlContent := "";
    }

    /** `POST /upload-and-build-kb`. The index is replaced by an empty
        collection before any file is read, so nothing of an earlier build
        survives, and a build that raises leaves that empty collection in
        place. A file whose reading raises ends the build with status 500;
        the HTML page is remembered up to that file. */
    method UploadAndBuildKb(files: seq<UploadedFile>, services: Services)
      returns (resp: Response<BuildReport>)
      modifies this
      ensures FirstReadFailure(files, 0).Some? ==>
        var j := FirstReadFailure(files, 0).value;
        resp == HttpError(500, files[j].decoded.message) &&
        knowledgeBase == Built(EmptyCollection) &&
        htmlContent == LastHtml(files[..j], old(htmlContent))
      ensures FirstReadFailure(files, 0).None? ==>
        var c := BuiltCollection(files, services.split, services.embed, services.sha256);
        htmlContent == LastHtml(files, old(htmlContent)) &&
        if c.documents != [] && services.addError(c).Some? then
          resp == HttpError(500, services.addError(c).value) && knowledgeBase == Built(EmptyCollection)
        else
          resp == Ok(BuildReport("success", BuildMessage(|c.documents|, |files|), |c.documents|)) &&
          knowledgeBase == Built(c)
    {
      knowledgeBase := Built(EmptyCollection);
      var documents: seq<string> := [];
      var metadatas: seq<Metadata> := [];
      var ids: seq<string> := [];
      var docId: nat := 0;
      var i := 0;
      while i < |files|
        invariant 0 <= i <= |files|
        invariant FirstReadFailure(files, 0) == FirstReadFailure(files, i)
        invariant knowledgeBase == Built(EmptyCollection)
        invariant htmlContent == LastHtml(files[..i], old(htmlContent))
        invariant docId == |documents|
        invariant Holds(documents, metadatas, ids, Collected(files[..i], services.split))
      {
        var f := files[i];
        FilesSnoc(files, i, services.split, old(htmlContent));
        if KindOf(f.filename) == Some(Html) && f.decoded.Decoded? {
          htmlContent := f.decoded.text;
        }
        var failure;
        failure, documents, metadatas, ids, docId :=
          ProcessFile(f, services.split, documents, metadatas, ids, docId,
                      Collected(files[..i], services.split));
        if failure.Some? {
          return HttpError(500, failure.value);
        }
        i := i + 1;
      }
      assert files[..i] == files;
      BuiltFromLists(files, services, documents, metadatas, ids);
      var c := Collection(documents, metadatas, ids,
        seq(|documents|, k requires 0 <= k < |documents| => GetEmbedding(documents[k], services.embed, services.sha256)));
      if documents != [] {
        var failure := services.addError(c);
        if failure.Some? {
          return HttpError(500, failure.value);
        }
        knowledgeBase := Built(c);
      }
      return Ok(BuildReport("success", BuildMessage(|documents|, |files|), |documents|));
    }

    /** `POST /generate-test-cases`: status 400 while no index exists;
        otherwise the five nearest documents become the context, the
        model's answer is parsed in three tiers, and an exception from the
        query or the model becomes status 500. */
    method GenerateTestCases(query: string, services: Services)
      returns (resp: Response<seq<TestCase<Json>>>)
      ensures knowledgeBase.NotBuilt? ==> resp == HttpError(400, NotBuiltForTestCases)
      ensures knowledgeBase.Built? ==>
        var v := GetEmbedding(query, services.embed, services.sha256);
        match services.query(knowledgeBase.collection, v, TestCaseResults)
        case Failure(m) => resp == HttpError(500, m)
        case Success(qr) =>
          match services.generate(TestCasePrompt(AssembleContext(qr.documents, qr.metadatas)))
          case Failure(m) => resp == HttpError(500, m)
          case Success(answer) => resp == Ok(TestCasesOf(answer, services.parseJson))
    {
      if knowledgeBase.NotBuilt? {
        return HttpError(400, NotBuiltForTestCases);
      }
      var v := GetEmbedding(query, services.embed, services.sha256);
      var results := services.query(knowledgeBase.collection, v, TestCaseResults);
      if results.Failure? {
        return HttpError(500, results.error);
      }
      var context := AssembleContext(results.value.documents, results.value.metadatas);
      var answer := services.generate(TestCasePrompt(context));
      if answer.Failure? {
        return HttpError(500, answer.error);
      }
      var cases := ParseTestCases(answer.value, services.parseJson);
      return Ok(cases);
    }

    /** `POST /generate-script`: status 400 while no index exists;
        otherwise the three nearest documents become the context, the
        prompt carries at most 2000 characters of the page, and the script
        is cut out of the model's answer. */
    method GenerateScript(testCase: string, html: string, services: Services)
      returns (resp: Response<string>)
      ensures knowledgeBase.NotBuilt? ==> resp == HttpError(400, NotBuiltForScript)
      ensures knowledgeBase.Built? ==>
        var v := GetEmbedding(testCase, services.embed, services.sha256);
        match services.query(knowledgeBase.collection, v, ScriptResults)
        case Failure(m) => resp == HttpError(500, m)
        case Success(qr) =>
          var prompt := ScriptPrompt(testCase, HtmlExcerpt(html), AssembleContext(qr.documents, qr.metadatas));
          match services.generate(prompt)
          case Failure(m) => resp == HttpError(500, m)
          case Success(answer) => resp == Ok(ExtractScript(answer))
      ensures resp.Ok? ==> !Contains(resp.body, Fence) && Strip(resp.body) == resp.body
    {
      if knowledgeBase.NotBuilt? {
        return HttpError(400, NotBuiltForScript);
      }
      var v := GetEmbedding(testCase, services.embed, services.sha256);
      var results := services.query(knowledgeBase.collection, v, ScriptResults);
      if results.Failure? {
        return HttpError(500, results.error);
      }
      var context := AssembleContext(results.value.documents, results.value.metadatas);
      var answer := services.generate(ScriptPrompt(testCase, HtmlExcerpt(html), context));
      if answer.Failure? {
        return HttpError(500, answer.error);
      }
      return Ok(ExtractScript(answer.value));
    }
  }
}
