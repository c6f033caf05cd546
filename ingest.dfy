/** What one build of the knowledge base collects from the uploaded files:
    which reader each file's extension selects, the chunks that are kept,
    and the three parallel lists (documents, metadatas, ids) with the
    running `doc_{n}` counter. The class that runs the build is in module
    Backend; this module holds the functions that specify it. */
module Ingest {
  import opened Wrappers
  import opened Text
  import opened Embedding

  datatype FileKind = Html | Pdf | Markdown | PlainText | Json

  /** The extension test, in the order the build tries it. */
  function KindOf(filename: string): (k: Option<FileKind>)
    ensures k == Some(Html) <==> EndsWith(filename, ".html")
    ensures k.None? <==>
      !EndsWith(filename, ".html") && !EndsWith(filename, ".pdf") &&
      !EndsWith(filename, ".md") && !EndsWith(filename, ".txt") &&
      !EndsWith(filename, ".json")
  {
    if EndsWith(filename, ".html") then Some(Html)
    else if EndsWith(filename, ".pdf") then Some(Pdf)
    else if EndsWith(filename, ".md") then Some(Markdown)
    else if EndsWith(filename, ".txt") then Some(PlainText)
    else if EndsWith(filename, ".json") then Some(Json)
    else None
  }

  /** Reading a saved upload back as UTF-8 text either yields its text or
      raises (for instance on bytes that are not UTF-8). */
  datatype ReadOutcome = Decoded(text: string) | DecodeError(message: string)

  /** An uploaded file: its name, what reading it back as UTF-8 yields, and
      the text the PDF or JSON reader of backend/utils.py returns for it
      (those readers return an explanatory text instead of raising). */
  datatype UploadedFile = UploadedFile(filename: string, decoded: ReadOutcome, converted: string)

  const HtmlPrefix: string := "HTML Structure: "
  const HtmlExcerptLength: nat := 1000

  /** The text indexed for the HTML page: a fixed label and at most the
      first 1000 characters of the page. */
  function HtmlText(page: string): (t: string)
    ensures |HtmlPrefix| <= |t| <= |HtmlPrefix| + HtmlExcerptLength
    ensures StartsWith(t, HtmlPrefix)
    ensures StartsWith(page, t[|HtmlPrefix|..])
    ensures |t| - |HtmlPrefix| == if |page| < HtmlExcerptLength then |page| else HtmlExcerptLength
  {
    HtmlPrefix + page[..if |page| < HtmlExcerptLength then |page| else HtmlExcerptLength]
  }

  /** What the build makes of one file before splitting it. */
  datatype Extraction = Unsupported | Extracted(text: string) | ReadFailed(message: string)

  function ExtractText(f: UploadedFile): (e: Extraction)
    ensures e.Unsupported? <==> KindOf(f.filename).None?
    ensures e.ReadFailed? ==>
      KindOf(f.filename) in {Some(Html), Some(Markdown), Some(PlainText)} && f.decoded.DecodeError?
    ensures KindOf(f.filename) == Some(Html) && f.decoded.Decoded? ==>
      e == Extracted(HtmlText(f.decoded.text))
  {
    match KindOf(f.filename)
    case None => Unsupported
    case Some(Html) =>
      (match f.decoded
       case Decoded(t) => Extracted(HtmlText(t))
       case DecodeError(m) => ReadFailed(m))
    case Some(Pdf) => Extracted(f.converted)
    case Some(Json) => Extracted(f.converted)
    case Some(_) =>
      (match f.decoded
       case Decoded(t) => Extracted(t)
       case DecodeError(m) => ReadFailed(m))
  }

  /** Metadata stored with each document. */
  datatype Metadata = Metadata(sourceDocument: string, chunkIndex: nat)

  /** A kept chunk: the document text and its metadata. */
  datatype Chunk = Chunk(document: string, metadata: Metadata)

  /** `chunk.strip()` is falsy. */
  predicate IsBlank(chunk: string) {
    Strip(chunk) == ""
  }

  /** The chunks of one file that the build keeps, in splitter order, each
      tagged with its position in the splitter's output. */
  function Kept(filename: string, chunks: seq<string>): seq<Chunk>
  {
    if chunks == [] then []
    else
      var n := |chunks| - 1;
      Kept(filename, chunks[..n])
      + (if IsBlank(chunks[n]) then [] else [Chunk(chunks[n], Metadata(filename, n))])
  }

  /** Every kept chunk is a non-blank splitter output, stored under its own
      position and file name, and positions strictly increase. */
  lemma {:induction false} KeptSound(filename: string, chunks: seq<string>)
    ensures forall k | 0 <= k < |Kept(filename, chunks)| ::
      var c := Kept(filename, chunks)[k];
      c.metadata.sourceDocument == filename &&
      c.metadata.chunkIndex < |chunks| &&
      chunks[c.metadata.chunkIndex] == c.document &&
      !IsBlank(c.document)
    ensures forall k, l | 0 <= k < l < |Kept(filename, chunks)| ::
      Kept(filename, chunks)[k].metadata.chunkIndex < Kept(filename, chunks)[l].metadata.chunkIndex
  {
    if chunks != [] {
      var n := |chunks| - 1;
      KeptSound(filename, chunks[..n]);
      KeptBelow(filename, chunks[..n]);
    }
  }

  lemma {:induction false} KeptBelow(filename: string, chunks: seq<string>)
    ensures forall k | 0 <= k < |Kept(filename, chunks)| ::
      Kept(filename, chunks)[k].metadata.chunkIndex < |chunks|
  {
    if chunks != [] {
      KeptBelow(filename, chunks[..|chunks| - 1]);
    }
  }

  /** Every non-blank splitter output is kept. */
  lemma {:induction false} KeptComplete(filename: string, chunks: seq<string>, i: nat)
    requires i < |chunks| && !IsBlank(chunks[i])
    ensures exists k | 0 <= k < |Kept(filename, chunks)| ::
      Kept(filename, chunks)[k] == Chunk(chunks[i], Metadata(filename, i))
  {
    var n := |chunks| - 1;
    var prev := Kept(filename, chunks[..n]);
    if i == n {
      assert Kept(filename, chunks)[|prev|] == Chunk(chunks[i], Metadata(filename, i));
    } else {
      KeptComplete(filename, chunks[..n], i);
      var k :| 0 <= k < |prev| && prev[k] == Chunk(chunks[..n][i], Metadata(filename, i));
      assert Kept(filename, chunks)[k] == prev[k];
    }
  }

  /** The chunks one file contributes. */
  function FileChunks(f: UploadedFile, split: string -> seq<string>): seq<Chunk>
  {
    match ExtractText(f)
    case Extracted(t) => Kept(f.filename, split(t))
    case _ => []
  }

  /** A file whose name ends in none of the five extensions contributes nothing. */
  lemma UnsupportedContributesNothing(f: UploadedFile, split: string -> seq<string>)
    requires KindOf(f.filename).None?
    ensures FileChunks(f, split) == []
  {
  }

  /** The chunks a sequence of files contributes, file by file. */
  function Collected(files: seq<UploadedFile>, split: string -> seq<string>): seq<Chunk>
  {
    if files == [] then []
    else Collected(files[..|files| - 1], split) + FileChunks(files[|files| - 1], split)
  }

  /** `c` is one of the chunks of `f`, stored under `f`'s name. */
  predicate FromFile(c: Chunk, f: UploadedFile, split: string -> seq<string>) {
    c in FileChunks(f, split) && c.metadata.sourceDocument == f.filename
  }

  /** Every collected chunk comes from one of the given files: its name is
      that file's name and its text is one of that file's chunks. */
  lemma {:induction false} CollectedProvenance(files: seq<UploadedFile>, split: string -> seq<string>)
    ensures forall k | 0 <= k < |Collected(files, split)| ::
      exists j | 0 <= j < |files| :: FromFile(Collected(files, split)[k], files[j], split)
  {
    if files != [] {
      var n := |files| - 1;
      var prev := Collected(files[..n], split);
      var last := FileChunks(files[n], split);
      var all := Collected(files, split);
      assert all == prev + last;
      CollectedProvenance(files[..n], split);
      forall k | 0 <= k < |all|
        ensures exists j | 0 <= j < |files| :: FromFile(all[k], files[j], split)
      {
        if k < |prev| {
          var j :| 0 <= j < n && FromFile(prev[k], files[..n][j], split);
          assert files[..n][j] == files[j];
          assert FromFile(all[k], files[j], split);
        } else {
          assert all[k] == last[k - |prev|];
          if ExtractText(files[n]).Extracted? {
            KeptSound(files[n].filename, split(ExtractText(files[n]).text));
          }
          assert FromFile(all[k], files[n], split);
        }
      }
    } else {
      assert Collected(files, split) == [];
    }
  }

  /** The build reads `f` back as UTF-8 text (`.html`, `.md`, `.txt`). */
  predicate ReadsAsText(f: UploadedFile) {
    var k := KindOf(f.filename);
    k == Some(Html) || k == Some(Markdown) || k == Some(PlainText)
  }

  /** Reading `f` raises. */
  predicate ReadFails(f: UploadedFile) {
    ReadsAsText(f) && f.decoded.DecodeError?
  }

  /** Extraction fails exactly for the files whose reading raises. */
  lemma ReadFailsIff(f: UploadedFile)
    ensures ExtractText(f).ReadFailed? <==> ReadFails(f)
    ensures ReadFails(f) ==> ExtractText(f) == ReadFailed(f.decoded.message)
  {
    var k := KindOf(f.filename);
    if k == Some(Pdf) || k == Some(Json) || k.None? {
      assert !ReadsAsText(f);
    }
  }

  /** Index of the first file whose reading raises, if any. */
  function FirstReadFailure(files: seq<UploadedFile>, from: nat): (r: Option<nat>)
    requires from <= |files|
    ensures r.Some? ==> from <= r.value < |files| && ReadFails(files[r.value])
    ensures r.Some? ==> forall j | from <= j < r.value :: !ReadFails(files[j])
    ensures r.None? ==> forall j | from <= j < |files| :: !ReadFails(files[j])
    decreases |files| - from
  {
    if from == |files| then None
    else if ReadFails(files[from]) then Some(from)
    else FirstReadFailure(files, from + 1)
  }

  /** The HTML page remembered after processing `files`: the text of the
      last `.html` file read, or `init` when there is none. */
  function LastHtml(files: seq<UploadedFile>, init: string): string
  {
    if files == [] then init
    else
      var f := files[|files| - 1];
      if KindOf(f.filename) == Some(Html) && f.decoded.Decoded? then f.decoded.text
      else LastHtml(files[..|files| - 1], init)
  }

  /** Id of the n-th document added in a build. */
  function DocId(n: nat): string {
    "doc_" + NatToString(n)
  }

  /** Ids are unique within a build. */
  lemma DocIdInjective(a: nat, b: nat)
    requires DocId(a) == DocId(b)
    ensures a == b
  {
    assert NatToString(a) == DocId(a)[4..];
    assert NatToString(b) == DocId(b)[4..];
    NatToStringInjective(a, b);
  }

  /** A Chroma collection: four parallel lists. */
  datatype Collection = Collection(documents: seq<string>, metadatas: seq<Metadata>,
                                   ids: seq<string>, embeddings: seq<Vector>)

  const EmptyCollection := Collection([], [], [], [])

  /** The collection a build that raises nothing leaves behind. */
  function BuiltCollection(files: seq<UploadedFile>, split: string -> seq<string>,
                           service: string -> Option<seq<real>>,
                           sha256: string -> HexDigest): (c: Collection)
    ensures |c.documents| == |c.metadatas| == |c.ids| == |c.embeddings| == |Collected(files, split)|
    ensures forall k | 0 <= k < |c.ids| :: c.ids[k] == DocId(k)
    ensures forall k | 0 <= k < |c.documents| ::
      Chunk(c.documents[k], c.metadatas[k]) == Collected(files, split)[k] &&
      c.embeddings[k] == GetEmbedding(c.documents[k], service, sha256)
  {
    var chunks := Collected(files, split);
    Collection(
      seq(|chunks|, k requires 0 <= k < |chunks| => chunks[k].document),
      seq(|chunks|, k requires 0 <= k < |chunks| => chunks[k].metadata),
      seq(|chunks|, k requires 0 <= k < |chunks| => DocId(k)),
      seq(|chunks|, k requires 0 <= k < |chunks| => GetEmbedding(chunks[k].document, service, sha256)))
  }

  /** The ids of a built collection are pairwise distinct. */
  lemma BuiltIdsDistinct(files: seq<UploadedFile>, split: string -> seq<string>,
                         service: string -> Option<seq<real>>, sha256: string -> HexDigest)
    ensures var ids := BuiltCollection(files, split, service, sha256).ids;
      forall a, b | 0 <= a < b < |ids| :: ids[a] != ids[b]
  {
    var ids := BuiltCollection(files, split, service, sha256).ids;
    forall a, b | 0 <= a < b < |ids|
      ensures ids[a] != ids[b]
    {
      if ids[a] == ids[b] {
        DocIdInjective(a, b);
      }
    }
  }

  /** `Knowledge base built with {n} chunks from {m} files`. */
  function BuildMessage(numChunks: nat, numFiles: nat): string {
    "Knowledge base built with " + NatToString(numChunks) + " chunks from "
    + NatToString(numFiles) + " files"
  }
}
