# Autonomous QA agent backend: a Dafny model

This project models the request pipeline of the QA agent's backend
(`backend/main.py`). The backend builds a retrieval knowledge base from
uploaded documentation. It then asks a generative model for test cases
and for Selenium scripts grounded in that documentation. The model
covers:

- **Fallback embedding** (`embedding.dfy`, module `Embedding`). When the
  embedding service raises, the vector is derived from the SHA-256 hex
  digest of the text: one value per pair of hex digits. Values are kept
  as their integer numerators 0..255; the source divides them by 255.0.
- **Knowledge-base build** (`ingest.dfy` for the specification,
  `backend.dfy` for the imperative build).
  - The file extension chooses the reader.
  - An HTML page is reduced to `"HTML Structure: "` plus its first 1000
    characters, and is also remembered as the global page.
  - Whitespace-only chunks are dropped, but each kept chunk keeps its
    position in the splitter's output.
  - The parallel lists `documents`, `metadatas` and `ids` grow in step,
    with ids `doc_0, doc_1, …`.
  - The global index is replaced by an empty collection before anything
    is read.
- **Context assembly** (`context.dfy`). The retrieved pairs become
  `From {source}:\n{doc}` blocks joined by `"\n\n"`.
- **Three-tier test-case parser** (`test_case_parser.dfy`).
  - Tier 1: the span from the first `[` to the last `]`, handed to the
    JSON reader.
  - Tier 2: the record-grouping loop over stripped, non-empty lines.
  - Tier 3: every line longer than 10 characters.
- **Script fence extraction** (`script_fence.dfy`).
- **The service itself** (`backend.dfy`).
  - Class `App` holds the two globals: `knowledge_base` as `knowledgeBase`
    and `html_content_global` as `htmlContent`.
  - Its three methods are the three POST endpoints, including the 400
    guards and the mapping of exceptions to status 500.
  - `text.dfy` holds the Python string operations the pipeline uses:
    `strip`, `split`, `join`, `in`, `find`, `startswith`/`endswith`,
    `lower` and `str(int)`.

Every external call is a field of the `Backend.Services` value, a
function supplied by the caller:

- the embedding service, which yields `None` where the call raises;
- `hashlib.sha256(...).hexdigest()`, a 64-character lower-case hex string;
- the text splitter;
- Chroma's `add` and `query`;
- the generative model;
- `json.loads`.

Some behaviours of the code are easy to misread. The
model follows the code in each case:

- The fallback vector has 32 entries. `min(len(h), 768)` caps at 768 hex
  digits, but a SHA-256 digest has only 64.
- Tier 3 can only fire when every line was skipped by tier 2. Any line
  that is not a filler opens or extends a tier-2 record, so three lines
  of prose give one record, not three scenarios.
- `knowledge_base` is set to a fresh collection before the files are
  read. A build that raises therefore leaves an empty collection that
  passes the "not built" guard. A Chroma collection object is taken to
  be truthy.
- Nothing checks that the embedding dimensions agree. A mix of service
  and fallback vectors is handed to Chroma's `add` as it is.
- `html_content_global` is written by the build but read by no endpoint.
  The script endpoint uses the page sent with its request.

## Model

| member | source | states |
|---|---|---|
| Embedding.GetEmbedding | backend/main.py:26-38 | the service's vector when the call succeeds; otherwise the fallback of the text's SHA-256 digest, of exactly 32 entries, each at most 255 |
| Embedding.PairValues | backend/main.py:38 | one value per two hex digits, (len+1)/2 of them, each at most 255 |
| Embedding.PairValuesAt | backend/main.py:38 | entry k is 16·digit(2k) + digit(2k+1), so values follow digest order |
| Embedding.FallbackOfDigest | backend/main.py:36-38 | for a SHA-256 digest the fallback has 32 entries, in digest order, each the value of its hex pair |
| Embedding.ToHexOfPairs | backend/main.py:38 | writing each value back as two lower-case hex digits restores an even-length lower-case hex string |
| Embedding.FallbackRoundTrip | backend/main.py:36-38 | the fallback loses nothing: re-encoding its numerators gives back the digest, so distinct digests give distinct vectors |
| Ingest.KindOf | backend/main.py:88-103 | `.html` is tested first; no kind exactly when the name ends in none of the five extensions |
| Ingest.HtmlText | backend/main.py:91 | the text starts with "HTML Structure: ", continues with a prefix of the page, and has min(len(page), 1000) page characters |
| Ingest.ExtractText | backend/main.py:88-103 | unsupported exactly for unknown extensions; only .html/.md/.txt reads can fail; an .html page yields its labelled excerpt |
| Ingest.ReadFailsIff | backend/main.py:88-99 | extraction fails exactly when a file read as UTF-8 text does not decode, with that error's message |
| Ingest.KeptSound | backend/main.py:112-118 | every kept chunk is a non-blank splitter output stored under its own position and file name, and positions strictly increase |
| Ingest.KeptComplete | backend/main.py:112-118 | every non-blank splitter output is kept, with its position |
| Ingest.UnsupportedContributesNothing | backend/main.py:102-103 | a file with an unknown extension contributes no chunk |
| Ingest.CollectedProvenance | backend/main.py:83-120 | every collected chunk is a chunk of one of the uploaded files, stored under that file's name |
| Ingest.FirstReadFailure | backend/main.py:83-99 | the first file whose read raises; no earlier file fails, and None means no file fails |
| Ingest.DocIdInjective | backend/main.py:119-120 | `doc_{a}` equals `doc_{b}` only when a equals b |
| Ingest.BuiltCollection | backend/main.py:112-129 | the four lists have one entry per collected chunk, in order; id k is `doc_k`; embedding k is that of document k |
| Ingest.BuiltIdsDistinct | backend/main.py:119-120 | the ids of a built collection are pairwise distinct |
| Context.Block | backend/main.py:154-157 | a block is "From {source}:\n" followed by the document, which ends it |
| Context.Blocks | backend/main.py:154-157 | one block per pair of the zip, up to the shorter list, in result order |
| Context.ContextEmptyIff | backend/main.py:154-157 | the context is empty exactly when no pair was retrieved |
| Context.ContextBlockAt | backend/main.py:154-157 | block k sits at its offset in the context; a "\n\n" and then block k+1 follow it unless it is the last, and the context ends with the last block |
| TestCaseParser.BracketSpan | backend/main.py:185 | a span exists exactly when some '[' precedes some ']'; it runs from the first '[' to the last ']' |
| TestCaseParser.Tier1Span | backend/main.py:185 | the matched text begins with '[' and ends with ']' |
| TestCaseParser.Tier1Wins | backend/main.py:186-189 | when the span parses, its elements are the answer, unchanged and in order |
| TestCaseParser.StrippedNonEmpty | backend/main.py:193 | the lines kept are non-empty and already stripped |
| TestCaseParser.StrippedNonEmptyExactly | backend/main.py:193 | a line is kept exactly when it is non-empty and the strip of one of the split parts |
| TestCaseParser.StrippedNonEmptyAppend | backend/main.py:193 | the filter distributes over concatenation, so the kept lines follow the order of the text |
| TestCaseParser.StrippedNonEmptyOne | backend/main.py:193 | a single part yields its strip when that is non-empty, and nothing otherwise |
| TestCaseParser.KindOfLine | backend/main.py:198-203 | a line is a marker exactly when it starts with "Test_ID:" or "test_id", and skipped exactly when it is a filler but no marker |
| TestCaseParser.RawText | backend/main.py:201-207 | a record's raw text begins with the line that opened it |
| TestCaseParser.FoldIsGroup | backend/main.py:197-210 | running the loop's step line by line gives the records grouped at the marker lines |
| TestCaseParser.Absorb | backend/main.py:198-207 | one pass of the loop body moves the loop's records exactly as one step of the grouping |
| TestCaseParser.CollectRecords | backend/main.py:193-210 | the loop's records are the raw texts of the records grouped at the marker lines |
| TestCaseParser.RecordsEmptyIff | backend/main.py:193-212 | tier 2 finds nothing exactly when every line is a filler and no line is a marker |
| TestCaseParser.ProseIsOneRecord | backend/main.py:204-207 | lines that are neither markers nor fillers form a single record |
| TestCaseParser.MarkersOpenRecords | backend/main.py:198-201 | each marker line opens its own record, in text order, after the optional leading record |
| TestCaseParser.SkippedLinesIgnored | backend/main.py:202-203 | removing the skipped lines beforehand changes no record |
| TestCaseParser.LongLines | backend/main.py:213 | every tier-3 line is longer than 10 characters |
| TestCaseParser.LongLinesExactly | backend/main.py:213 | tier 3 keeps a line exactly when it is one of the lines and longer than 10 characters |
| TestCaseParser.LongLinesAppend | backend/main.py:213 | tier 3 keeps the order of the text |
| TestCaseParser.ParseTestCases | backend/main.py:184-215 | the tiers as the code runs them, loop included, equal `TestCasesOf`, the tiers written as a function |
| TestCaseParser.ScenariosComeFromTier3 | backend/main.py:212-213 | a scenario record appears only when tiers 1 and 2 fail; it holds a line longer than 10 characters, grounded in "documentation" |
| TestCaseParser.Tier3OnlyForFillers | backend/main.py:212-213 | when tier 3 is reached, every line of the answer was a skipped filler |
| ScriptFence.ExtractScript | backend/main.py:273-278 | the script never contains "```", is already stripped, and is the stripped answer when there is no fence |
| ScriptFence.FenceBody | backend/main.py:273-277 | the text cut from the answer holds no "```", and is the whole answer when there is no fence |
| ScriptFence.SplitBody | backend/main.py:274-276 | `split(open)[1].split("```")[0]` is the slice right after the first opening fence, up to a "```" or the end |
| ScriptFence.PythonBlockFirst | backend/main.py:273-274 | with a "```python" present, the script is the stripped body after the first "```python" |
| ScriptFence.PlainBlockSecond | backend/main.py:275-276 | a bare "```" block is used only without any "```python" |
| ScriptFence.ExtractIdempotent | backend/main.py:273-278 | extracting from an extracted script changes nothing |
| Backend.HtmlExcerpt | backend/main.py:248 | the prompt carries a prefix of the page of min(len, 2000) characters |
| Backend.AppendKept | backend/main.py:112-120 | the inner loop appends exactly the kept chunks of one file, keeping the lists in step and the ids `doc_k` |
| Backend.ProcessFile | backend/main.py:88-120 | a file whose read raises yields its error and appends nothing; otherwise its chunks are appended |
| Backend.BuiltFromLists | backend/main.py:122-129 | the lists filled by the loop, with their embeddings, are the specified collection |
| Backend.App.constructor | backend/main.py:52-53 | no index and an empty remembered page at start |
| Backend.App.UploadAndBuildKb | backend/main.py:62-137 | the index is replaced by an empty collection; a failing read gives status 500 and leaves it; otherwise the collection of the files and the message counting chunks and files; on every path the remembered page is that of the last `.html` file read (`Ingest.LastHtml`) |
| Backend.App.GenerateTestCases | backend/main.py:139-218 | 400 with its detail without an index; otherwise 5 results, their context, and the three-tier parse of the answer; query or model errors give 500 |
| Backend.App.GenerateScript | backend/main.py:220-281 | 400 without an index; otherwise 3 results, the page excerpt and context in the prompt, and the fenced script, which holds no "```" |
| Text.Strip | backend/main.py:193 | `strip()` is the slice between the leading and trailing whitespace: everything before and after it is whitespace, and its ends are not |
| Text.SplitJoin | backend/main.py:193 | splitting at '\n' and joining back restores the text |

## Left out

- The text splitter (`RecursiveCharacterTextSplitter`) is a parameter: any function from text to a sequence of chunks.
- Chroma is reduced to a value with four parallel lists. Its `add` is a parameter that may raise, and its `query` (ranking, distances, the cap of `n_results`) is a parameter. `delete_collection` and `create_collection` are assumed not to raise.
- The Gemini calls, `hashlib.sha256` and `json.loads` are parameters. The fixed wording of the two prompts is not modelled, only the parts filled in.
- Embedding values are the integer numerators; the float division by 255.0 is not modelled.
- Embedding.GetEmbedding: the service's outcome is a function of the text, so within one build equal chunks get the same vector (and `Ingest.BuiltCollection` relies on that). The code calls the service once per chunk, and a transient failure or rate limit part-way through a build can give equal chunks different vectors.
- File I/O is left out. Each upload carries the outcome of reading it back as UTF-8 and the text the PDF or JSON reader of `backend/utils.py` returns. Those readers are not part of this model; they return an explanatory text rather than raising.
- Writing the upload to `uploads/`, FastAPI routing, CORS, uvicorn, `async` and the API-key configuration are left out.
- `app.py` (the Streamlit UI) is not part of this model.
- TestCaseParser.IsFiller: `str.lower()` is modelled as ASCII lowering. For the three filler phrases this gives the same answers, since only U+212A and U+0130 lower to ASCII letters and neither completes a phrase.
- An exception raised anywhere else in an endpoint (a malformed query result, say) is not modelled; only read failures, `add`, `query` and the model call raise.
