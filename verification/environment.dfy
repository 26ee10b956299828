/**
 * The outside world as the two utilities see it.
 *
 * The search service is replaced by a script: the replies its search calls
 * will give, in order, and the replies its bulk-write calls will give, in
 * order. Effects the programs ask for (sleeping, submitting a delete request,
 * printing the lines whose presence the program decides) are appended to a
 * trace instead of being performed.
 */
module Environment {
  import opened Wrappers

  /** A JavaScript value held by a document field. */
  datatype FieldValue = Undefined | Null | Text(s: string) | Number(n: int) | Bool(b: bool)

  /** JavaScript truthiness: the values an `if (v)` test lets through. */
  predicate Truthy(v: FieldValue): (b: bool)
    ensures b <==> v != Undefined && v != Null && v != Text("") && v != Number(0) && v != Bool(false)
  {
    match v
    case Undefined => false
    case Null => false
    case Text(s) => s != ""
    case Number(n) => n != 0
    case Bool(b) => b
  }

  /** The decimal digits of `n`, most significant first. */
  function Decimal(n: nat): (s: string)
    ensures s != ""
  {
    var digit := [(48 + n % 10) as char];
    if n < 10 then digit else Decimal(n / 10) + digit
  }

  /** `String(v)`: the text JavaScript makes of a value. */
  function Stringify(v: FieldValue): (s: string)
    ensures Truthy(v) ==> s != ""
  {
    match v
    case Undefined => "undefined"
    case Null => "null"
    case Text(s) => s
    case Number(n) => if n < 0 then "-" + Decimal(-n) else Decimal(n)
    case Bool(b) => if b then "true" else "false"
  }

  type Document = map<string, FieldValue>

  /** One element of a search reply's results; its document may be missing. */
  datatype Hit = Hit(document: Option<Document>)

  /** `result.document?.[name]`: `undefined` when the document or the field is missing. */
  function FieldOf(h: Hit, name: string): (v: FieldValue)
    ensures v != Undefined <==> h.document.Some? && name in h.document.value && h.document.value[name] != Undefined
    ensures v != Undefined ==> v == h.document.value[name]
  {
    match h.document
    case None => Undefined
    case Some(d) => if name in d then d[name] else Undefined
  }

  /**
   * The truthy values of field `name` across `hits`, in the order of the hits:
   * what a loop over the results that pushes every value passing `if (value)`
   * collects.
   */
  function TruthyValues(hits: seq<Hit>, name: string): (vs: seq<FieldValue>)
    ensures |vs| <= |hits|
    ensures forall v <- vs :: Truthy(v)
  {
    if hits == [] then []
    else
      var front := TruthyValues(hits[..|hits| - 1], name);
      var v := FieldOf(hits[|hits| - 1], name);
      if Truthy(v) then front + [v] else front
  }

  /** Collecting over two consecutive runs of hits is collecting over each in turn: order is kept. */
  lemma {:induction false} TruthyValuesAppend(a: seq<Hit>, b: seq<Hit>, name: string)
    ensures TruthyValues(a + b, name) == TruthyValues(a, name) + TruthyValues(b, name)
    decreases |b|
  {
    if b == [] {
      assert a + b == a;
    } else {
      var b' := b[..|b| - 1];
      assert (a + b)[..|a + b| - 1] == a + b';
      assert (a + b)[|a + b| - 1] == b[|b| - 1];
      TruthyValuesAppend(a, b', name);
    }
  }

  /** A value is collected exactly when some hit holds it in field `name` and it is truthy. */
  lemma {:induction false} TruthyValuesMembers(hits: seq<Hit>, name: string, v: FieldValue)
    ensures v in TruthyValues(hits, name) <==> Truthy(v) && exists i :: 0 <= i < |hits| && FieldOf(hits[i], name) == v
  {
    if hits != [] {
      var front := hits[..|hits| - 1];
      TruthyValuesMembers(front, name, v);
      if Truthy(v) && exists i :: 0 <= i < |hits| && FieldOf(hits[i], name) == v {
        var i :| 0 <= i < |hits| && FieldOf(hits[i], name) == v;
        if i < |hits| - 1 {
          assert front[i] == hits[i];
        }
      }
      if v in TruthyValues(front, name) {
        var i :| 0 <= i < |front| && FieldOf(front[i], name) == v;
        assert hits[i] == front[i];
      }
    }
  }

  /** Nothing is dropped exactly when every hit holds a truthy value in field `name`. */
  lemma {:induction false} TruthyValuesKeepsAll(hits: seq<Hit>, name: string)
    ensures |TruthyValues(hits, name)| == |hits| <==> forall i :: 0 <= i < |hits| ==> Truthy(FieldOf(hits[i], name))
  {
    if hits != [] {
      var front := hits[..|hits| - 1];
      TruthyValuesKeepsAll(front, name);
      assert forall i :: 0 <= i < |front| ==> front[i] == hits[i];
    }
  }

  /** Errors a remote call can throw. `Unscripted` is the failure of a call made after its script has run out. */
  datatype Error = ServiceError(message: string) | Unscripted

  /** The reply to `client.search(...)`: the results and the total count, or a thrown error. */
  datatype SearchResponse = SearchOk(hits: seq<Hit>, count: Option<int>) | SearchFailed(error: Error)

  /** The reply to `client.indexDocuments(batch)`: one `succeeded` flag per item, or a thrown error. */
  datatype IndexResponse = IndexOk(succeeded: seq<bool>) | IndexFailed(error: Error)

  /** An effect a program asks for, recorded in the trace in the order asked. */
  datatype Event =
    | Slept(ms: int)                          // sleep(ms)
    | DeleteRequested(ids: seq<string>)       // one bulk-delete submission
    | EtaShown(remaining: int)                // the deleter's ETA line
    | MatchCountShown(total: int)             // the lister's line with the number of matching documents
    | PagePrinted(jobNumbers: seq<FieldValue>) // the lister's line of job numbers
    | FetchedShown(total: int)                // the lister's closing line with the number of job numbers shown
    | IndexTotalShown(total: int)             // the lister's closing line with the number of matching documents

  /**
   * Why a paging loop that did not abort stopped: an empty page, a page
   * shorter than the fetch size, or (`ScriptEnded`) the scripted search
   * replies ran out before either happened.
   */
  datatype Ending = NoDocumentsLeft | LastPageProcessed | ScriptEnded

  /** The scripted service and the trace of effects so far. */
  datatype World = World(searches: seq<SearchResponse>, writes: seq<IndexResponse>, trace: seq<Event>)

  /** The reply the next search call gets. */
  function NextSearch(w: World): SearchResponse {
    if w.searches == [] then SearchFailed(Unscripted) else w.searches[0]
  }

  /** The world once the next search call has been answered. */
  function AfterSearch(w: World): (w': World)
    ensures w'.writes == w.writes && w'.trace == w.trace
    ensures w.searches != [] ==> |w'.searches| == |w.searches| - 1
  {
    w.(searches := Drop(w.searches, 1))
  }

  /** The reply the write call numbered `i` (from 0) would get. */
  function WriteAt(writes: seq<IndexResponse>, i: nat): IndexResponse {
    if i < |writes| then writes[i] else IndexFailed(Unscripted)
  }

  /** The world once a delete request for `ids` has been submitted and answered. */
  function AfterWrite(w: World, ids: seq<string>): World {
    w.(writes := Drop(w.writes, 1), trace := w.trace + [DeleteRequested(ids)])
  }

  /** `sleep(ms)`: only the requested duration is recorded. */
  function Sleep(w: World, ms: int): World {
    w.(trace := w.trace + [Slept(ms)])
  }

  /** A line whose presence the program decides, recorded. */
  function Show(w: World, e: Event): World {
    w.(trace := w.trace + [e])
  }
}
