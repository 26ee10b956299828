# Expired-document cleanup scripts, modelled in Dafny

The repository holds two command-line utilities for an Azure AI Search index.
Both page through the documents whose `ExpirationDate` lies before a cutoff date:

- The deleter, `src/search-and-delete.ts`, fetches a page of document keys. It then deletes
  the page in batches. Each batch is retried with linear backoff, and the first batch that
  still fails aborts the page. The run stops on an empty page, on a page shorter than the
  fetch size, or on the sixth failed iteration. Before the loop, `main` asks for an
  estimated total and falls back to 1,000,000 when that query fails.
- The lister, `src/search.ts`, fetches a page of `JobNumber` values and prints it. It keeps
  the first total count the service reports, and stops on an empty or short page. A failed
  fetch is never fatal: the lister pauses 5 seconds and tries again.

This project models that decision logic and proves its properties.

## How the outside world is modelled

The search service is a script, `Environment.World`:

- the replies that successive `client.search` calls will get;
- the replies that successive `client.indexDocuments` calls will get;
- a trace of the effects the program asks for.

Effects are recorded in the trace rather than performed. They are sleeps (their requested
durations only), delete requests, and the output lines whose presence the program decides:
the ETA line, a page of job numbers, the count lines and the closing lines.

Some details of the script:

- A write call made after its script has run out fails with `Unscripted`.
- A search call made after its script has run out also fails with `Unscripted`.
- Both `while (true)` loops additionally stop, with ending `ScriptEnded`, when no search
  reply is left at the top of a pass. Without that stop, a lister whose searches keep
  failing would loop forever.

Settings read from the process environment become parameters:

- the deleter's `Config`;
- the lister's `fetchSize` and `rateLimitDelayInMs`.

JavaScript values in a document field are modelled as `FieldValue`. `Truthy` models JS
truthiness and `Stringify` models `String(v)`.

Each imperative routine is a Dafny `method` with a loop. Its postcondition ties
its results to a recursive function that describes the same computation:

| method | function |
|---|---|
| `DeleteBatchWithRetry` | `RetryFrom` |
| `DeleteBatchOfIds` | `SubmitAll` over `Chunks` |
| deleter `ProcessInChunks` | `DeleterLoop` |
| lister `ProcessInChunks` | `ListerLoop` |

The promised properties are lemmas about those functions.

## Model

| member | source | states |
|---|---|---|
| Environment.Truthy | src/search-and-delete.ts:61 | the `if (id)` test, and likewise `if (jobNumber)` at src/search.ts:32: a value passes exactly when it is none of `undefined`, `null`, `""`, `0` and `false` |
| Environment.FieldOf | src/search-and-delete.ts:60 | `result.document?.[field]`, and likewise `result.document?.JobNumber` at src/search.ts:31: a defined value exactly when the document exists and holds the field with a defined value, and then that value |
| Environment.Stringify | src/search-and-delete.ts:60-62 | `String(v)` of a truthy key value is never the empty string |
| Environment.TruthyValues | src/search-and-delete.ts:59-64 | the values kept from a page are truthy and never outnumber the hits |
| Environment.TruthyValuesAppend | src/search.ts:30-33 | collecting over consecutive runs of hits is collecting over each in turn, so order is kept |
| Environment.TruthyValuesMembers | src/search-and-delete.ts:60-61 | a value is kept exactly when some hit's document holds it in the field and it is truthy |
| Environment.TruthyValuesKeepsAll | src/search-and-delete.ts:59-64 | nothing is dropped exactly when every hit holds a truthy value |
| SearchAndDelete.KeyIds | src/search-and-delete.ts:59-64 | the ids of a page are never more than its hits, and none is empty |
| SearchAndDelete.FetchDocumentIds | src/search-and-delete.ts:49-72 | one search is consumed; a failed search rethrows its error; otherwise the ids are the truthy key values in hit order, stringified |
| SearchAndDelete.Slice | src/search-and-delete.ts:77 | `ids.slice(i, j)` holds the ids from position i up to j, or up to the end when j is past it |
| SearchAndDelete.Chunks | src/search-and-delete.ts:75-78 | a page gives no batches exactly when it is empty, and otherwise its first batch is `slice(0, batchSize)` |
| SearchAndDelete.ChunksFlatten | src/search-and-delete.ts:75-78 | the batches put back together are the page, in order |
| SearchAndDelete.ChunksSizes | src/search-and-delete.ts:75-78 | every batch is non-empty and at most `batchSize` long, and all but the last are exactly `batchSize` long |
| SearchAndDelete.ChunksCount | src/search-and-delete.ts:75-78 | a page of n ids is cut into ceil(n / batchSize) batches |
| SearchAndDelete.ChunksLast | src/search-and-delete.ts:75-78 | the last batch of a page of n ids holds n mod batchSize ids, or batchSize of them when that divides n |
| SearchAndDelete.BatchesOfFourExample | src/search-and-delete.ts:75-78 | with batches of 4, a page of 10 ids gives batches of 4, 4 and 2 ids, and a page of 5 ids gives 4 and 1 |
| SearchAndDelete.SplitIntoBatches | src/search-and-delete.ts:75-78 | the slicing loop produces exactly the batches `Chunks` describes |
| SearchAndDelete.RetryFrom | src/search-and-delete.ts:26-47 | the recursion on the attempt number ends at or after the attempt it starts from, and never consumes a search reply |
| SearchAndDelete.ReplyResult | src/search-and-delete.ts:30-37 | a reply becomes a returned result exactly when the write call did not throw |
| SearchAndDelete.RetryFromAttempts | src/search-and-delete.ts:39-45 | every attempt consumes one write reply; there are at most max(1, retryAttempts) attempts; a thrown error comes only once the attempt number reaches `retryAttempts` |
| SearchAndDelete.RetryFromReplies | src/search-and-delete.ts:30-45 | every attempt before the last threw; the result is the last reply's flags returned as they are, with items flagged as failed neither retried nor turned into an error, or that reply's error rethrown |
| SearchAndDelete.RetryFromTrace | src/search-and-delete.ts:39-43 | one delete request per attempt, and after failed attempt k a sleep of `retryDelayInMs * k` |
| SearchAndDelete.DeleteBatchWithRetry | src/search-and-delete.ts:26-47 | the retry loop computes `RetryFrom` from attempt 1; a first reply that succeeds, even with items flagged as failed, is returned after exactly one request |
| SearchAndDelete.SubmitAll | src/search-and-delete.ts:80-89 | submitting the batches never consumes a search reply |
| SearchAndDelete.SubmitAllAttempts | src/search-and-delete.ts:80-89 | a passing page submits every batch; a failing page stops at the failing batch; each batch takes between 1 and max(1, retryAttempts) attempts |
| SearchAndDelete.SubmitAllWrites | src/search-and-delete.ts:80-89 | the page consumes exactly one write reply per attempt, over all its batches |
| SearchAndDelete.SubmitAllError | src/search-and-delete.ts:84-87 | the error a failing page throws is the reply to the last write it made |
| SearchAndDelete.SubmitAllTrace | src/search-and-delete.ts:80-89 | the batches are submitted in order, each followed by a `rateLimitDelayInMs` sleep when it succeeded, and nothing follows a batch that failed |
| SearchAndDelete.PageTraceEvents | src/search-and-delete.ts:80-89 | a page's deletion only submits delete requests and sleeps |
| SearchAndDelete.DeleteBatchOfIds | src/search-and-delete.ts:74-90 | cutting and submitting a page ends as `SubmitAll` over `Chunks` ends |
| SearchAndDelete.DeletePage | src/search-and-delete.ts:104-115 | one pass consumes one search reply, and a completed deletion is of a non-empty page |
| SearchAndDelete.PageStep | src/search-and-delete.ts:104-115 | the pass, taken as a step on worlds, consumes one search reply per pass |
| SearchAndDelete.DeletePageEvents | src/search-and-delete.ts:104-115 | a pass only adds delete requests and sleeps to the trace |
| SearchAndDelete.PageStepShowsNoEta | src/search-and-delete.ts:104-115 | the fetch-and-delete part of a pass never shows an ETA line |
| SearchAndDelete.DeleterLoop | src/search-and-delete.ts:101-146 | a run makes at least one and at most one pass per search reply, and none without a reply; it ends with `ScriptEnded` only when the replies ran out. Its counters, endings and lines are stated by `DeleterAccounting`, `DeleterEndings`, `DeleterEtaLines` and `Tally` |
| SearchAndDelete.Tally | src/search-and-delete.ts:101-145 | each pass adds one iteration; a completed page adds its length to `totalDeleted`; a failure adds one to `errorCount`; the run aborts exactly when that exceeds 5; an empty page ends the run; a completed page shorter than `fetchSize` ends it. An empty page or an abort adds no line or pause; a completed page adds the ETA line exactly when `estimatedTotal - totalDeleted > 0`, then a 500 ms pause unless it was short; a tolerated failure adds a 5000 ms pause |
| SearchAndDelete.DeleterAccounting | src/search-and-delete.ts:102-145 | `iterationCount` counts every pass; `totalDeleted` is the sum of the lengths of the pages whose deletion completed; `errorCount` counts every failed pass and is never reset |
| SearchAndDelete.DeleterEndings | src/search-and-delete.ts:107-145 | a run aborts exactly when `errorCount` passes 5, at the sixth failure and on a failed pass; an empty page or a short page ends it normally; every pass but the last failed or deleted a full page |
| SearchAndDelete.DeleterEtaLines | src/search-and-delete.ts:119-125 | every ETA line of a run reports a positive remaining count |
| SearchAndDelete.DeletePass | src/search-and-delete.ts:104-115 | the `try` block computes `DeletePage` |
| SearchAndDelete.ProcessInChunks | src/search-and-delete.ts:92-149 | the loop makes the run `DeleterLoop` describes from zeroed counters |
| SearchAndDelete.RunDeleter | src/search-and-delete.ts:159-179 | a missing or zero count ends `main` before the loop; a failed count query gives the estimate 1,000,000; otherwise the estimate is the count; the loop then runs from zeroed counters |
| SearchList.JobNumbersOf | src/search.ts:17-41 | a failed search rethrows its error; otherwise the job numbers are truthy, never more than the hits, and the count is passed through unchanged |
| SearchList.JobNumbersOfPage | src/search.ts:30-33 | a job number is kept exactly when some hit holds it and it is truthy; all hits are kept exactly when every one holds a truthy job number |
| SearchList.FetchJobNumbers | src/search.ts:17-41 | the collecting loop computes `JobNumbersOf` of the reply and consumes one search |
| SearchList.ListTally | src/search.ts:51-82 | each pass adds one iteration; a fetched page adds its length to `totalFetched`; a kept count is never replaced; an empty page ends the loop; a short non-empty page ends it. A failure adds only a 5000 ms pause; a fetched page adds the count line when it keeps the count, then its job numbers when non-empty, then a `rateLimitDelayInMs` pause when full |
| SearchList.ListerLoop | src/search.ts:51-83 | the loop only appends to the trace |
| SearchList.ListerAccounting | src/search.ts:52-70 | `iterationCount` counts every pass; `totalFetched` is the sum of the lengths of the pages fetched; each pass consumes one search and no write |
| SearchList.ListerLatch | src/search.ts:57-60 | the count kept at the end is the first total count any page carried, and a kept count is never replaced |
| SearchList.ListerEndings | src/search.ts:62-75 | an empty last page ends the run with no documents left; a short non-empty last page ends it as the last page; every earlier pass failed or fetched a full page |
| SearchList.ListerAllFailures | src/search.ts:78-82 | failures never stop the lister: over failed searches it makes one pass each, pausing 5000 ms after each, and fetches nothing |
| SearchList.ListTallyEvents | src/search.ts:57-68 | one pass prints its page when it is non-empty, and shows the count when it keeps it |
| SearchList.ListerOutput | src/search.ts:57-68 | a run prints exactly its non-empty pages, in order, and at most one count line, holding the first count a page carried |
| SearchList.ListerOutputStep | src/search.ts:57-68 | what a run prints, one pass at a time |
| SearchList.ListedTotalPages | src/search.ts:70 | empty pages add nothing to `totalFetched` |
| SearchList.Closing | src/search.ts:85-88 | the closing lines are the fetched total, then the index total only when a count was kept |
| SearchList.ProcessInChunks | src/search.ts:43-89 | the loop makes the run `ListerLoop` describes from zeroed variables and a `null` count, then shows the closing lines |
| SearchList.ListerClosingLines | src/search.ts:85-88 | the closing total is the number of job numbers printed; the index total line appears exactly when a count line was shown, and repeats its count |

## Left out

- The Azure SDK is replaced by the script of replies. Nothing bounds a page by `top`: a
  page longer than `fetchSize` is possible in the script and handled as a full page.
- Reading the process environment and `process.exit` are left out. Settings are parameters.
- `Config.batchSize` is a positive integer. With a `BATCH_SIZE` that is zero, negative or
  NaN, the source's slicing loop would not terminate or would behave as JavaScript
  numbers do; that case is not modelled.
- Numbers are unbounded integers. NaN and fractional settings, and floating-point overflow,
  are not modelled. A count reply is an integer or missing.
- `Bun.sleep` timing: only the requested durations are recorded.
- Console text, `toLocaleString`, emoji, the start banners, the per-page
  "found n documents" line and the warnings on partial failures and retries are left out.
  The lines whose presence the program decides are recorded as events.
- Elapsed time, rate and the ETA value (`Date.now`, `toFixed`, lines 117-120 and 180-188
  of src/search-and-delete.ts) are left out. Only the `remaining > 0` test is kept, with
  the remaining count.
- The cutoff date and filter string (`setFullYear`, `toISOString`) are left out. The filter
  does not influence the script.
- The deleter's closing summary (src/search-and-delete.ts:182-192) is left out because it is
  display only. `RunDeleter` returns the counters it prints, `errorCount` included.
- The fatal-error handlers of both `main` functions are left out. `DeleteRun.Aborted` is the
  "too many errors" exception.
- `ScriptEnded` has no counterpart in the source. It marks a run cut off because the
  script ended.
- `SearchList.ProcessInChunks` shows no closing lines for a run cut off that way, since
  the source would still be inside its loop.
- `SearchAndDelete.DeletePass` groups the `try` block of the deleter's loop into one method.
  The loop's own bookkeeping stays in `ProcessInChunks`.
- The lister's `main` (src/search.ts:91-100) only builds the filter and calls
  `processInChunks`, so it has no member of its own.
- src/types/env.d.ts and src/types/index.ts are not part of this model beyond mirroring
  `DeleteStats` and `SearchResult` as datatypes.
- The abort message at src/search-and-delete.ts:140 speaks of consecutive errors, but
  `errorCount` counts every failed iteration and is never reset
  (`SearchAndDelete.DeleterAccounting`).
