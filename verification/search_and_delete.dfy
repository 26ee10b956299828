/**
 * The deleter (src/search-and-delete.ts): page through the documents matching
 * the expiration filter, delete each page in batches with a bounded linear
 * backoff retry, and stop on an empty page, a partial page or the sixth
 * failed iteration.
 */
module SearchAndDelete {
  import opened Wrappers
  import opened Environment

  /** A batch size the page can be cut by. */
  type Positive = n: int | n >= 1 witness 1

  /** The deleter's settings, read from the process environment in the source. */
  datatype Config = Config(
    documentKeyField: string,
    batchSize: Positive,
    fetchSize: int,
    retryAttempts: int,
    retryDelayInMs: int,
    rateLimitDelayInMs: int)

  // ---------------------------------------------------------------------------
  // fetchDocumentIds

  /** The ids a page of hits yields: `String(v)` of each truthy key value, in order. */
  function KeyIds(hits: seq<Hit>, keyField: string): (ids: seq<string>)
    ensures |ids| <= |hits|
    ensures forall k :: 0 <= k < |ids| ==> ids[k] != ""
  {
    var vs := TruthyValues(hits, keyField);
    seq(|vs|, k requires 0 <= k < |vs| => Stringify(vs[k]))
  }

  /** One more hit adds its id at the end, when its key value is truthy. */
  lemma KeyIdsSnoc(hits: seq<Hit>, h: Hit, keyField: string)
    ensures var v := FieldOf(h, keyField);
      KeyIds(hits + [h], keyField) == KeyIds(hits, keyField) + (if Truthy(v) then [Stringify(v)] else [])
  {
    assert (hits + [h])[..|hits|] == hits;
  }

  /** Searches once and collects the ids of the page; a failed search is rethrown. */
  method FetchDocumentIds(cfg: Config, w: World) returns (r: Result<seq<string>, Error>, w': World)
    ensures w' == AfterSearch(w)
    ensures NextSearch(w).SearchFailed? ==> r == Err(NextSearch(w).error)
    ensures NextSearch(w).SearchOk? ==> r == Ok(KeyIds(NextSearch(w).hits, cfg.documentKeyField))
  {
    var reply := NextSearch(w);
    w' := AfterSearch(w);
    if reply.SearchFailed? {
      return Err(reply.error), w';
    }
    var hits := reply.hits;
    var ids: seq<string> := [];
    for i := 0 to |hits|
      invariant ids == KeyIds(hits[..i], cfg.documentKeyField)
    {
      var id := FieldOf(hits[i], cfg.documentKeyField);
      KeyIdsSnoc(hits[..i], hits[i], cfg.documentKeyField);
      assert hits[..i + 1] == hits[..i] + [hits[i]];
      if Truthy(id) {
        ids := ids + [Stringify(id)];
      }
    }
    assert hits[..|hits|] == hits;
    r := Ok(ids);
  }

  // ---------------------------------------------------------------------------
  // Splitting a page into batches (first loop of deleteBatchOfIds)

  /** `ids.slice(i, j)`: the end is clamped to the length. */
  function Slice(ids: seq<string>, i: nat, j: nat): (r: seq<string>)
    requires i <= j && i <= |ids|
    ensures |r| == (if j < |ids| then j else |ids|) - i
    ensures r <= ids[i..]
  {
    ids[i..if j < |ids| then j else |ids|]
  }

  /** The consecutive slices of at most `size` ids that a page is cut into. */
  function Chunks(ids: seq<string>, size: int): (r: seq<seq<string>>)
    requires size >= 1
    ensures ids == [] <==> r == []
    ensures ids != [] ==> r[0] == Slice(ids, 0, size)
    decreases |ids|
  {
    if ids == [] then []
    else if |ids| <= size then [ids]
    else [ids[..size]] + Chunks(ids[size..], size)
  }

  function Flatten(batches: seq<seq<string>>): seq<string> {
    if batches == [] then [] else batches[0] + Flatten(batches[1..])
  }

  /** The batches put back together are the page, in order. */
  lemma {:induction false} ChunksFlatten(ids: seq<string>, size: int)
    requires size >= 1
    ensures Flatten(Chunks(ids, size)) == ids
    decreases |ids|
  {
    if |ids| > size {
      ChunksFlatten(ids[size..], size);
      assert ids[..size] + ids[size..] == ids;
    } else if ids != [] {
      assert Flatten([ids]) == ids + Flatten([]);
    }
  }

  /** Every batch is non-empty and at most `size` long; all but the last are exactly `size` long. */
  lemma {:induction false} ChunksSizes(ids: seq<string>, size: int)
    requires size >= 1
    ensures var c := Chunks(ids, size);
      forall k :: 0 <= k < |c| ==> 1 <= |c[k]| <= size && (k < |c| - 1 ==> |c[k]| == size)
    decreases |ids|
  {
    if |ids| > size {
      ChunksSizes(ids[size..], size);
      var c := Chunks(ids, size);
      assert forall k :: 1 <= k < |c| ==> c[k] == Chunks(ids[size..], size)[k - 1];
    }
  }

  lemma MulAtLeast(s: int, d: int)
    requires s >= 1 && d >= 1
    ensures s * d >= s
  {
    assert s * d == s * (d - 1) + s;
  }

  lemma Distribute(s: int, a: int, b: int)
    ensures s * a == s * b + s * (a - b)
  {
  }

  /** Euclidean division is determined by its quotient-remainder decomposition. */
  lemma DivModUnique(a: int, s: int, q: int, r: int)
    requires s >= 1 && 0 <= r < s && a == s * q + r
    ensures a / s == q && a % s == r
  {
    var q', r' := a / s, a % s;
    assert a == s * q' + r';
    if q' > q {
      Distribute(s, q', q);
      MulAtLeast(s, q' - q);
    } else if q' < q {
      Distribute(s, q, q');
      MulAtLeast(s, q - q');
    }
  }

  lemma DivModStep(x: int, size: int)
    requires x >= 0 && size >= 1
    ensures (x + size) / size == x / size + 1 && (x + size) % size == x % size
  {
    var q, r := x / size, x % size;
    assert x == size * q + r;
    DivModUnique(x + size, size, q + 1, r);
  }

  /** There are ceil(|ids| / size) batches. */
  lemma {:induction false} ChunksCount(ids: seq<string>, size: int)
    requires size >= 1
    ensures |Chunks(ids, size)| == (|ids| + size - 1) / size
    decreases |ids|
  {
    if |ids| > size {
      ChunksCount(ids[size..], size);
      DivModStep(|ids| - size + size - 1, size);
    } else if ids != [] {
      DivModUnique(|ids| - 1, size, 0, |ids| - 1);
      DivModStep(|ids| - 1, size);
    }
  }

  /** The last batch holds |ids| mod size ids, or size of them when size divides |ids|. */
  lemma {:induction false} ChunksLast(ids: seq<string>, size: int)
    requires size >= 1 && ids != []
    ensures var c := Chunks(ids, size);
      c != [] && |c[|c| - 1]| == if |ids| % size == 0 then size else |ids| % size
    decreases |ids|
  {
    if |ids| > size {
      ChunksLast(ids[size..], size);
      DivModStep(|ids| - size, size);
    } else if |ids| < size {
      DivModUnique(|ids|, size, 0, |ids|);
    } else {
      DivModUnique(|ids|, size, 1, 0);
    }
  }

  /**
   * With a batch size of 4, a full page of 10 ids is cut into batches of 4, 4
   * and 2 ids, and a page of 5 ids into batches of 4 and 1.
   */
  lemma BatchesOfFourExample(page: seq<string>)
    requires |page| == 10 || |page| == 5
    ensures var c := Chunks(page, 4);
      && (|page| == 10 ==> |c| == 3 && |c[0]| == 4 && |c[1]| == 4 && |c[2]| == 2)
      && (|page| == 5 ==> |c| == 2 && |c[0]| == 4 && |c[1]| == 1)
  {
    ChunksCount(page, 4);
    ChunksSizes(page, 4);
    ChunksLast(page, 4);
  }

  // ---------------------------------------------------------------------------
  // deleteBatchWithRetry

  /** How `deleteBatchWithRetry(ids, attempt)` ends: its result, the number of the last attempt made, and the world. */
  datatype Retried = Retried(result: Result<seq<bool>, Error>, lastAttempt: nat, world: World)

  /**
   * `deleteBatchWithRetry(ids, attempt)` as the source writes it, a recursion on
   * the attempt number. A reply with items flagged as not succeeded is returned
   * as it is.
   */
  function RetryFrom(ids: seq<string>, attempt: nat, cfg: Config, w: World): (r: Retried)
    requires attempt >= 1
    ensures r.lastAttempt >= attempt && r.world.searches == w.searches
    decreases if attempt < cfg.retryAttempts then cfg.retryAttempts - attempt else 0
  {
    var w1 := AfterWrite(w, ids);
    match WriteAt(w.writes, 0)
    case IndexOk(flags) => Retried(Ok(flags), attempt, w1)
    case IndexFailed(e) =>
      if attempt < cfg.retryAttempts then
        RetryFrom(ids, attempt + 1, cfg, Sleep(w1, cfg.retryDelayInMs * attempt))
      else
        Retried(Err(e), attempt, w1)
  }

  /**
   * The trace of attempts `from` to `to` on one batch (none when `to < from`):
   * a delete request per attempt, and between attempt `a` and the next a
   * sleep of `delay * a`.
   */
  function AttemptTrace(ids: seq<string>, delay: int, from: nat, to: nat): seq<Event> {
    seq(if from <= to then 2 * (to - from) + 1 else 0, i => if i % 2 == 0 then DeleteRequested(ids) else Slept(delay * (from + i / 2)))
  }

  lemma AttemptTraceStep(ids: seq<string>, delay: int, from: nat, to: nat)
    requires from < to
    ensures AttemptTrace(ids, delay, from, to)
         == [DeleteRequested(ids), Slept(delay * from)] + AttemptTrace(ids, delay, from + 1, to)
  {
    var a, b := AttemptTrace(ids, delay, from, to), AttemptTrace(ids, delay, from + 1, to);
    assert |a| == 2 + |b|;
    forall i | 2 <= i < |a|
      ensures a[i] == b[i - 2]
    {
      assert (i - 2) % 2 == i % 2 && (i - 2) / 2 + 1 == i / 2;
    }
  }

  lemma WriteAtDrop(writes: seq<IndexResponse>, n: nat, j: nat)
    ensures WriteAt(Drop(writes, n), j) == WriteAt(writes, n + j)
  {
  }

  lemma DropDrop<T>(s: seq<T>, a: nat, b: nat)
    ensures Drop(Drop(s, a), b) == Drop(s, a + b)
  {
  }

  /** What a write reply makes of the call: its `succeeded` flags, or the error it throws. */
  function ReplyResult(reply: IndexResponse): (r: Result<seq<bool>, Error>)
    ensures r.Ok? <==> reply.IndexOk?
  {
    match reply
    case IndexOk(flags) => Ok(flags)
    case IndexFailed(e) => Err(e)
  }

  /**
   * Starting at attempt `attempt`, the batch is submitted once per attempt,
   * each attempt consuming one write reply, and the attempts stop at
   * `retryAttempts` at the latest; a thrown error means the last attempt was
   * attempt `retryAttempts` or later.
   */
  lemma {:induction false} RetryFromAttempts(ids: seq<string>, attempt: nat, cfg: Config, w: World)
    requires attempt >= 1
    ensures var r := RetryFrom(ids, attempt, cfg, w);
      && (r.lastAttempt == attempt || r.lastAttempt <= cfg.retryAttempts)
      && r.world.writes == Drop(w.writes, r.lastAttempt - attempt + 1)
      && (r.result.Err? ==> r.lastAttempt >= cfg.retryAttempts)
    decreases if attempt < cfg.retryAttempts then cfg.retryAttempts - attempt else 0
  {
    if WriteAt(w.writes, 0).IndexFailed? && attempt < cfg.retryAttempts {
      var w2 := Sleep(AfterWrite(w, ids), cfg.retryDelayInMs * attempt);
      var r := RetryFrom(ids, attempt + 1, cfg, w2);
      assert RetryFrom(ids, attempt, cfg, w) == r;
      RetryFromAttempts(ids, attempt + 1, cfg, w2);
      DropDrop(w.writes, 1, r.lastAttempt - attempt);
    }
  }

  /**
   * The replies behind a retried submission: every attempt before the last
   * got a thrown error, and the result is what the last attempt's reply makes
   * of it, its flags returned as they are or its error thrown.
   */
  lemma {:induction false} RetryFromReplies(ids: seq<string>, attempt: nat, cfg: Config, w: World)
    requires attempt >= 1
    ensures var r := RetryFrom(ids, attempt, cfg, w);
      var n := r.lastAttempt - attempt;
      && (forall j :: 0 <= j < n ==> WriteAt(w.writes, j).IndexFailed?)
      && r.result == ReplyResult(WriteAt(w.writes, n))
    decreases if attempt < cfg.retryAttempts then cfg.retryAttempts - attempt else 0
  {
    if WriteAt(w.writes, 0).IndexFailed? && attempt < cfg.retryAttempts {
      var w2 := Sleep(AfterWrite(w, ids), cfg.retryDelayInMs * attempt);
      var r := RetryFrom(ids, attempt + 1, cfg, w2);
      assert RetryFrom(ids, attempt, cfg, w) == r;
      assert w2.writes == Drop(w.writes, 1);
      RetryFromReplies(ids, attempt + 1, cfg, w2);
      var n := r.lastAttempt - attempt;
      forall j | 1 <= j <= n
        ensures WriteAt(w.writes, j) == WriteAt(w2.writes, j - 1)
      {
        WriteAtDrop(w.writes, 1, j - 1);
      }
    } else {
      var r := RetryFrom(ids, attempt, cfg, w);
      assert r.lastAttempt == attempt;
      assert r.result == ReplyResult(WriteAt(w.writes, 0));
    }
  }

  /**
   * The trace of a retried submission: one delete request per attempt, with a
   * sleep of `retryDelayInMs * a` after each failed attempt `a`.
   */
  lemma {:induction false} RetryFromTrace(ids: seq<string>, attempt: nat, cfg: Config, w: World)
    requires attempt >= 1
    ensures var r := RetryFrom(ids, attempt, cfg, w);
      attempt <= r.lastAttempt && r.world.trace == w.trace + AttemptTrace(ids, cfg.retryDelayInMs, attempt, r.lastAttempt)
    decreases if attempt < cfg.retryAttempts then cfg.retryAttempts - attempt else 0
  {
    if WriteAt(w.writes, 0).IndexFailed? && attempt < cfg.retryAttempts {
      var w2 := Sleep(AfterWrite(w, ids), cfg.retryDelayInMs * attempt);
      var r := RetryFrom(ids, attempt + 1, cfg, w2);
      assert RetryFrom(ids, attempt, cfg, w) == r;
      RetryFromTrace(ids, attempt + 1, cfg, w2);
      AttemptTraceStep(ids, cfg.retryDelayInMs, attempt, r.lastAttempt);
      assert w2.trace == w.trace + [DeleteRequested(ids), Slept(cfg.retryDelayInMs * attempt)];
    } else {
      assert AttemptTrace(ids, cfg.retryDelayInMs, attempt, attempt) == [DeleteRequested(ids)];
    }
  }

  /**
   * Submits one batch, retrying a failed submission with linear backoff; a
   * reply whose items are flagged as not succeeded is returned without retry.
   */
  method DeleteBatchWithRetry(ids: seq<string>, cfg: Config, w: World) returns (r: Result<seq<bool>, Error>, w': World)
    ensures r == RetryFrom(ids, 1, cfg, w).result && w' == RetryFrom(ids, 1, cfg, w).world
    ensures WriteAt(w.writes, 0).IndexOk? ==>
      r == Ok(WriteAt(w.writes, 0).succeeded) && w'.trace == w.trace + [DeleteRequested(ids)]
  {
    var attempt := 1;
    w' := w;
    while true
      invariant attempt >= 1
      invariant RetryFrom(ids, attempt, cfg, w') == RetryFrom(ids, 1, cfg, w)
      invariant attempt == 1 ==> w' == w
      decreases if attempt < cfg.retryAttempts then cfg.retryAttempts - attempt else 0
    {
      var reply := WriteAt(w'.writes, 0);
      w' := AfterWrite(w', ids);
      if reply.IndexOk? {
        return Ok(reply.succeeded), w';
      }
      if attempt < cfg.retryAttempts {
        w' := Sleep(w', cfg.retryDelayInMs * attempt);
        attempt := attempt + 1;
      } else {
        return Err(reply.error), w';
      }
    }
  }

  // ---------------------------------------------------------------------------
  // deleteBatchOfIds

  /** How submitting a page's batches ends, with the number of attempts each submitted batch took. */
  datatype Submitted = Submitted(outcome: Outcome<Error>, attempts: seq<nat>, world: World)

  /** The batches submitted in order, each with retry and followed by the rate-limit sleep; the first failure stops the rest. */
  function SubmitAll(batches: seq<seq<string>>, cfg: Config, w: World): (s: Submitted)
    ensures s.world.searches == w.searches
    decreases |batches|
  {
    if batches == [] then Submitted(Pass, [], w)
    else
      var r := RetryFrom(batches[0], 1, cfg, w);
      match r.result
      case Err(e) => Submitted(Fail(e), [r.lastAttempt], r.world)
      case Ok(_) =>
        var rest := SubmitAll(batches[1..], cfg, Sleep(r.world, cfg.rateLimitDelayInMs));
        Submitted(rest.outcome, [r.lastAttempt] + rest.attempts, rest.world)
  }

  function Sum(xs: seq<nat>): nat {
    if xs == [] then 0 else xs[0] + Sum(xs[1..])
  }

  /**
   * The trace of a page whose first |attempts| batches were submitted, batch k
   * taking attempts[k] attempts: each batch's attempts, then a rate-limit sleep
   * after every batch that succeeded (all of them when `passed`, all but the
   * last otherwise).
   */
  function PageTrace(batches: seq<seq<string>>, attempts: seq<nat>, passed: bool, cfg: Config): seq<Event>
    decreases |attempts|
  {
    if attempts == [] || batches == [] then []
    else
      AttemptTrace(batches[0], cfg.retryDelayInMs, 1, attempts[0])
      + (if passed || |attempts| > 1 then [Slept(cfg.rateLimitDelayInMs)] else [])
      + PageTrace(batches[1..], attempts[1..], passed, cfg)
  }

  /**
   * Submitting a page's batches: all of them are submitted when it passes; on
   * a failure the failing batch is the last one submitted; each batch takes
   * between 1 and max(1, retryAttempts) attempts.
   */
  lemma {:induction false} SubmitAllAttempts(batches: seq<seq<string>>, cfg: Config, w: World)
    ensures var s := SubmitAll(batches, cfg, w);
      && (s.outcome.Pass? ==> |s.attempts| == |batches|)
      && (s.outcome.Fail? ==> 1 <= |s.attempts| <= |batches|)
      && (forall k :: 0 <= k < |s.attempts| ==> 1 <= s.attempts[k] && (s.attempts[k] == 1 || s.attempts[k] <= cfg.retryAttempts))
    decreases |batches|
  {
    if batches != [] {
      var r := RetryFrom(batches[0], 1, cfg, w);
      RetryFromAttempts(batches[0], 1, cfg, w);
      if r.result.Ok? {
        var w1 := Sleep(r.world, cfg.rateLimitDelayInMs);
        SubmitAllAttempts(batches[1..], cfg, w1);
        var rest := SubmitAll(batches[1..], cfg, w1);
        var s := SubmitAll(batches, cfg, w);
        assert s.attempts == [r.lastAttempt] + rest.attempts;
        assert forall k :: 1 <= k < |s.attempts| ==> s.attempts[k] == rest.attempts[k - 1];
      }
    }
  }

  /** One unfolding of `SubmitAll`: the first batch's attempts, then the rest of the page when it succeeded. */
  lemma SubmitAllStep(batches: seq<seq<string>>, cfg: Config, w: World)
    requires batches != []
    ensures var r := RetryFrom(batches[0], 1, cfg, w);
      var s := SubmitAll(batches, cfg, w);
      var rest := SubmitAll(batches[1..], cfg, Sleep(r.world, cfg.rateLimitDelayInMs));
      && (r.result.Err? ==> s == Submitted(Fail(r.result.error), [r.lastAttempt], r.world) && Sum(s.attempts) == r.lastAttempt)
      && (r.result.Ok? ==>
            && s == Submitted(rest.outcome, [r.lastAttempt] + rest.attempts, rest.world)
            && Sum(s.attempts) == r.lastAttempt + Sum(rest.attempts))
  {
    var r := RetryFrom(batches[0], 1, cfg, w);
    var s := SubmitAll(batches, cfg, w);
    if r.result.Ok? {
      var rest := SubmitAll(batches[1..], cfg, Sleep(r.world, cfg.rateLimitDelayInMs));
      assert s.attempts[1..] == rest.attempts;
    }
  }

  /** Each attempt consumes one write reply. */
  lemma {:induction false} SubmitAllWrites(batches: seq<seq<string>>, cfg: Config, w: World)
    ensures var s := SubmitAll(batches, cfg, w);
      s.world.writes == Drop(w.writes, Sum(s.attempts))
    decreases |batches|
  {
    if batches != [] {
      var r := RetryFrom(batches[0], 1, cfg, w);
      RetryFromAttempts(batches[0], 1, cfg, w);
      SubmitAllStep(batches, cfg, w);
      if r.result.Ok? {
        var w1 := Sleep(r.world, cfg.rateLimitDelayInMs);
        SubmitAllWrites(batches[1..], cfg, w1);
        DropDrop(w.writes, r.lastAttempt, Sum(SubmitAll(batches[1..], cfg, w1).attempts));
      }
    }
  }

  /** The error a failing page throws is the reply to the last write it consumed. */
  lemma {:induction false} SubmitAllError(batches: seq<seq<string>>, cfg: Config, w: World)
    ensures var s := SubmitAll(batches, cfg, w);
      s.outcome.Fail? ==> Sum(s.attempts) >= 1 && WriteAt(w.writes, Sum(s.attempts) - 1) == IndexFailed(s.outcome.error)
    decreases |batches|
  {
    if batches != [] {
      var r := RetryFrom(batches[0], 1, cfg, w);
      var la := r.lastAttempt;
      SubmitAllStep(batches, cfg, w);
      if r.result.Ok? {
        var w1 := Sleep(r.world, cfg.rateLimitDelayInMs);
        var rest := SubmitAll(batches[1..], cfg, w1);
        if rest.outcome.Fail? {
          SubmitAllError(batches[1..], cfg, w1);
          var m := Sum(rest.attempts);
          assert w1.writes == Drop(w.writes, la) by {
            RetryFromAttempts(batches[0], 1, cfg, w);
          }
          WriteAtDrop(w.writes, la, m - 1);
          assert la + m - 1 == la + (m - 1);
        }
      } else {
        RetryFromReplies(batches[0], 1, cfg, w);
        assert r.result == ReplyResult(WriteAt(w.writes, la - 1));
      }
    }
  }

  /** The trace of submitting a page's batches is the page trace of the attempts they took. */
  lemma {:induction false} SubmitAllTrace(batches: seq<seq<string>>, cfg: Config, w: World)
    ensures var s := SubmitAll(batches, cfg, w);
      s.world.trace == w.trace + PageTrace(batches, s.attempts, s.outcome.Pass?, cfg)
    decreases |batches|
  {
    if batches != [] {
      var r := RetryFrom(batches[0], 1, cfg, w);
      if r.result.Ok? {
        var w1 := Sleep(r.world, cfg.rateLimitDelayInMs);
        SubmitAllTrace(batches[1..], cfg, w1);
        SubmitAllTraceOk(batches, cfg, w);
      } else {
        SubmitAllTraceErr(batches, cfg, w);
      }
    }
  }

  /** `SubmitAllTrace` when the first batch succeeds, given its claim for the rest of the page. */
  lemma SubmitAllTraceOk(batches: seq<seq<string>>, cfg: Config, w: World)
    requires batches != [] && RetryFrom(batches[0], 1, cfg, w).result.Ok?
    requires var w1 := Sleep(RetryFrom(batches[0], 1, cfg, w).world, cfg.rateLimitDelayInMs);
      var rest := SubmitAll(batches[1..], cfg, w1);
      rest.world.trace == w1.trace + PageTrace(batches[1..], rest.attempts, rest.outcome.Pass?, cfg)
    ensures var s := SubmitAll(batches, cfg, w);
      s.world.trace == w.trace + PageTrace(batches, s.attempts, s.outcome.Pass?, cfg)
  {
    var r := RetryFrom(batches[0], 1, cfg, w);
    var s := SubmitAll(batches, cfg, w);
    var a := AttemptTrace(batches[0], cfg.retryDelayInMs, 1, r.lastAttempt);
    assert r.world.trace == w.trace + a by {
      RetryFromTrace(batches[0], 1, cfg, w);
    }
    var w1 := Sleep(r.world, cfg.rateLimitDelayInMs);
    var rest := SubmitAll(batches[1..], cfg, w1);
    var p := PageTrace(batches[1..], rest.attempts, rest.outcome.Pass?, cfg);
    assert rest.outcome.Pass? || rest.attempts != [] by {
      SubmitAllAttempts(batches[1..], cfg, w1);
    }
    SubmitAllStep(batches, cfg, w);
    PageTraceCons(batches, r.lastAttempt, rest.attempts, rest.outcome.Pass?, cfg);
    assert s.world.trace == w.trace + a + [Slept(cfg.rateLimitDelayInMs)] + p;
    ConcatAssoc(w.trace, a, [Slept(cfg.rateLimitDelayInMs)], p);
  }

  lemma ConcatAssoc<T>(a: seq<T>, b: seq<T>, c: seq<T>, d: seq<T>)
    ensures a + b + c + d == a + (b + c + d)
  {
  }

  /** `SubmitAllTrace` when the first batch fails. */
  lemma SubmitAllTraceErr(batches: seq<seq<string>>, cfg: Config, w: World)
    requires batches != [] && RetryFrom(batches[0], 1, cfg, w).result.Err?
    ensures var s := SubmitAll(batches, cfg, w);
      s.world.trace == w.trace + PageTrace(batches, s.attempts, s.outcome.Pass?, cfg)
  {
    var r := RetryFrom(batches[0], 1, cfg, w);
    RetryFromTrace(batches[0], 1, cfg, w);
    SubmitAllStep(batches, cfg, w);
    PageTraceCons(batches, r.lastAttempt, [], false, cfg);
    assert PageTrace(batches[1..], [], false, cfg) == [];
  }

  /** The page trace of a first batch's attempts followed by the rest of the page. */
  lemma PageTraceCons(batches: seq<seq<string>>, first: nat, rest: seq<nat>, passed: bool, cfg: Config)
    requires batches != []
    ensures PageTrace(batches, [first] + rest, passed, cfg)
         == AttemptTrace(batches[0], cfg.retryDelayInMs, 1, first)
            + (if passed || rest != [] then [Slept(cfg.rateLimitDelayInMs)] else [])
            + PageTrace(batches[1..], rest, passed, cfg)
  {
    assert ([first] + rest)[1..] == rest;
  }

  /** Every event of a page's trace is a delete request or a sleep. */
  lemma {:induction false} PageTraceEvents(batches: seq<seq<string>>, attempts: seq<nat>, passed: bool, cfg: Config)
    ensures forall e <- PageTrace(batches, attempts, passed, cfg) :: e.DeleteRequested? || e.Slept?
    decreases |attempts|
  {
    if attempts != [] && batches != [] {
      PageTraceEvents(batches[1..], attempts[1..], passed, cfg);
    }
  }

  /** The batches from position `i` on: the slice at `i`, then the batches from `i + size` on. */
  lemma ChunksFrom(ids: seq<string>, i: nat, size: int)
    requires size >= 1 && i < |ids|
    ensures Chunks(Drop(ids, i), size) == [Slice(ids, i, i + size)] + Chunks(Drop(ids, i + size), size)
  {
    var rest := ids[i..];
    assert Drop(ids, i) == rest;
    if |rest| > size {
      assert rest[..size] == Slice(ids, i, i + size);
      assert rest[size..] == Drop(ids, i + size);
    } else {
      assert Slice(ids, i, i + size) == rest;
      assert Drop(ids, i + size) == [];
    }
  }

  /** One turn of the slicing loop keeps its invariant. */
  lemma SplitStep(ids: seq<string>, i: nat, size: int, batches: seq<seq<string>>)
    requires size >= 1 && i < |ids|
    requires batches + Chunks(Drop(ids, i), size) == Chunks(ids, size)
    ensures batches + [Slice(ids, i, i + size)] + Chunks(Drop(ids, i + size), size) == Chunks(ids, size)
  {
    ChunksFrom(ids, i, size);
    ConcatAssoc(batches, [Slice(ids, i, i + size)], Chunks(Drop(ids, i + size), size), []);
  }

  /** The first loop of `deleteBatchOfIds`: consecutive `slice`s of `size` ids, starting at 0, size, 2 * size, ... */
  method SplitIntoBatches(ids: seq<string>, size: int) returns (batches: seq<seq<string>>)
    requires size >= 1
    ensures batches == Chunks(ids, size)
  {
    batches := [];
    var i: nat := 0;
    assert Drop(ids, 0) == ids;
    while i < |ids|
      invariant batches + Chunks(Drop(ids, i), size) == Chunks(ids, size)
    {
      SplitStep(ids, i, size, batches);
      batches := batches + [Slice(ids, i, i + size)];
      i := i + size;
    }
    assert Drop(ids, i) == [];
  }

  /** Cuts a page into batches and submits them in order; the first batch that fails aborts the rest. */
  method DeleteBatchOfIds(ids: seq<string>, cfg: Config, w: World) returns (r: Outcome<Error>, w': World)
    ensures var s := SubmitAll(Chunks(ids, cfg.batchSize), cfg, w); r == s.outcome && w' == s.world
  {
    var batches := SplitIntoBatches(ids, cfg.batchSize);
    ghost var target := SubmitAll(batches, cfg, w);
    w' := w;
    for k := 0 to |batches|
      invariant SubmitAll(batches[k..], cfg, w').outcome == target.outcome
      invariant SubmitAll(batches[k..], cfg, w').world == target.world
    {
      assert batches[k..][1..] == batches[k + 1..];
      var res;
      res, w' := DeleteBatchWithRetry(batches[k], cfg, w');
      if res.Err? {
        return Fail(res.error), w';
      }
      w' := Sleep(w', cfg.rateLimitDelayInMs);
    }
    r := Pass;
  }

  // ---------------------------------------------------------------------------
  // processInChunks

  /** The counters `processInChunks` keeps and returns. */
  datatype DeleteStats = DeleteStats(totalDeleted: nat, errorCount: nat, iterationCount: nat)

  /** How one pass of the loop body went. */
  datatype Iteration = EmptyPage | PageDeleted(count: nat) | IterationFailed(error: Error)

  /** A run either returns its counters or throws "too many errors" (the counters are kept for the proofs). */
  datatype DeleteRun = Completed(stats: DeleteStats, ending: Ending) | Aborted(stats: DeleteStats)

  /** A run, the world it leaves, and the passes it made. */
  datatype DeleterTrace = DeleterTrace(run: DeleteRun, world: World, iterations: seq<Iteration>)

  const MaxErrors := 5
  const PageDelayInMs := 500
  const ErrorBackoffInMs := 5000

  /** One pass of the loop body before the counters are updated: fetch a page of ids and delete it. */
  function DeletePage(cfg: Config, w: World): (p: (Iteration, World))
    ensures p.1.searches == AfterSearch(w).searches
    ensures p.0.PageDeleted? ==> p.0.count > 0
  {
    var w1 := AfterSearch(w);
    match NextSearch(w)
    case SearchFailed(e) => (IterationFailed(e), w1)
    case SearchOk(hits, _) =>
      var ids := KeyIds(hits, cfg.documentKeyField);
      if ids == [] then (EmptyPage, w1)
      else
        var sub := SubmitAll(Chunks(ids, cfg.batchSize), cfg, w1);
        match sub.outcome
        case Fail(e) => (IterationFailed(e), sub.world)
        case Pass => (PageDeleted(|ids|), sub.world)
  }

  /** The loop body as a step on worlds. */
  function PageStep(cfg: Config): (step: World -> (Iteration, World))
    ensures WellFormedStep(step)
  {
    w => DeletePage(cfg, w)
  }

  /** Steps that consume exactly one scripted search reply and delete a non-empty page when they delete one. */
  ghost predicate WellFormedStep(step: World -> (Iteration, World)) {
    forall v: World {:trigger step(v)} :: v.searches != [] ==>
      |step(v).1.searches| == |v.searches| - 1 && (step(v).0.PageDeleted? ==> step(v).0.count > 0)
  }

  /** Steps that append no ETA line: only the loop decides to show one. */
  ghost predicate ShowsNoEta(step: World -> (Iteration, World)) {
    forall v: World {:trigger step(v)} :: v.trace <= step(v).1.trace && forall e <- step(v).1.trace[|v.trace|..] :: !e.EtaShown?
  }

  /** A pass appends only delete requests and sleeps to the trace. */
  lemma DeletePageEvents(cfg: Config, w: World)
    ensures var w' := DeletePage(cfg, w).1;
      w.trace <= w'.trace && forall e <- w'.trace[|w.trace|..] :: e.DeleteRequested? || e.Slept?
  {
    var w1 := AfterSearch(w);
    if NextSearch(w).SearchOk? {
      var ids := KeyIds(NextSearch(w).hits, cfg.documentKeyField);
      if ids != [] {
        var batches := Chunks(ids, cfg.batchSize);
        var sub := SubmitAll(batches, cfg, w1);
        SubmitAllTrace(batches, cfg, w1);
        PageTraceEvents(batches, sub.attempts, sub.outcome.Pass?, cfg);
        assert sub.world.trace[|w.trace|..] == PageTrace(batches, sub.attempts, sub.outcome.Pass?, cfg);
      }
    }
  }

  lemma PageStepShowsNoEta(cfg: Config)
    ensures ShowsNoEta(PageStep(cfg))
  {
    forall v: World
      ensures v.trace <= PageStep(cfg)(v).1.trace
      ensures forall e <- PageStep(cfg)(v).1.trace[|v.trace|..] :: !e.EtaShown?
    {
      DeletePageEvents(cfg, v);
    }
  }

  /** Why the loop stops after a pass, when it does. */
  datatype Stop = Ends(ending: Ending) | Aborts

  /** The counters and world after the loop has dealt with one pass, and whether the loop stops there. */
  datatype Tallied = Tallied(stats: DeleteStats, world: World, stop: Option<Stop>)

  /** Every ETA line among `events` reports a positive remaining count. */
  predicate EtaPositive(events: seq<Event>) {
    forall e <- events :: e.EtaShown? ==> e.remaining > 0
  }

  /**
   * The bookkeeping of one pass of the `processInChunks` loop, once the pass
   * has gone as `it` says and left world `w1`: a pass counts as an iteration
   * whatever its outcome; an empty page stops the loop; a deleted page adds
   * its length to `totalDeleted`, shows the ETA line when some of the estimate
   * remains, and stops the loop when shorter than `fetchSize`, or else sleeps
   * 500 ms; a failed pass adds one to `errorCount` and aborts the run when
   * that exceeds 5, or else sleeps 5000 ms.
   */
  function Tally(fetchSize: int, estimatedTotal: int, s: DeleteStats, it: Iteration, w1: World): (r: Tallied)
    ensures r.stats.iterationCount == s.iterationCount + 1
    ensures r.stats.totalDeleted == s.totalDeleted + (if it.PageDeleted? then it.count else 0)
    ensures r.stats.errorCount == s.errorCount + (if it.IterationFailed? then 1 else 0)
    ensures r.world.searches == w1.searches && r.world.writes == w1.writes
    ensures w1.trace <= r.world.trace && EtaPositive(r.world.trace[|w1.trace|..])
    ensures r.stop == Some(Aborts) <==> it.IterationFailed? && r.stats.errorCount > MaxErrors
    ensures r.stop == Some(Ends(NoDocumentsLeft)) <==> it.EmptyPage?
    ensures r.stop == Some(Ends(LastPageProcessed)) <==> it.PageDeleted? && it.count < fetchSize
    ensures r.stop != Some(Ends(ScriptEnded))
    ensures it.EmptyPage? || r.stop == Some(Aborts) ==> r.world == w1
    ensures it.PageDeleted? ==>
      var remaining := estimatedTotal - r.stats.totalDeleted;
      r.world.trace == w1.trace
        + (if remaining > 0 then [EtaShown(remaining)] else [])
        + (if it.count < fetchSize then [] else [Slept(PageDelayInMs)])
    ensures it.IterationFailed? && r.stop.None? ==> r.world.trace == w1.trace + [Slept(ErrorBackoffInMs)]
  {
    var s1 := s.(iterationCount := s.iterationCount + 1);
    match it
    case EmptyPage => Tallied(s1, w1, Some(Ends(NoDocumentsLeft)))
    case PageDeleted(n) =>
      var s2 := s1.(totalDeleted := s1.totalDeleted + n);
      var remaining := estimatedTotal - s2.totalDeleted;
      var w2 := if remaining > 0 then Show(w1, EtaShown(remaining)) else w1;
      if n < fetchSize then Tallied(s2, w2, Some(Ends(LastPageProcessed)))
      else Tallied(s2, Sleep(w2, PageDelayInMs), None)
    case IterationFailed(_) =>
      var s2 := s1.(errorCount := s1.errorCount + 1);
      if s2.errorCount > MaxErrors then Tallied(s2, w1, Some(Aborts))
      else Tallied(s2, Sleep(w1, ErrorBackoffInMs), None)
  }

  /**
   * The `while (true)` loop of `processInChunks` from counters `s`, with `step`
   * as the loop body's fetch and delete and `Tally` as its bookkeeping; the
   * run also stops when the scripted search replies run out.
   */
  function DeleterLoop(step: World -> (Iteration, World), fetchSize: int, estimatedTotal: int, s: DeleteStats, w: World): (t: DeleterTrace)
    requires WellFormedStep(step)
    ensures w.searches != [] ==> 1 <= |t.iterations| <= |w.searches|
    ensures w.searches == [] ==> t.iterations == [] && t.run == Completed(s, ScriptEnded)
    ensures t.run.Completed? && t.run.ending == ScriptEnded ==> t.world.searches == []
    decreases |w.searches|
  {
    if w.searches == [] then DeleterTrace(Completed(s, ScriptEnded), w, [])
    else
      var p := step(w);
      var r := Tally(fetchSize, estimatedTotal, s, p.0, p.1);
      match r.stop
      case Some(Aborts) => DeleterTrace(Aborted(r.stats), r.world, [p.0])
      case Some(Ends(ending)) => DeleterTrace(Completed(r.stats, ending), r.world, [p.0])
      case None =>
        var rest := DeleterLoop(step, fetchSize, estimatedTotal, r.stats, r.world);
        rest.(iterations := [p.0] + rest.iterations)
  }

  /** The number of ids of all pages whose deletion completed. */
  function DeletedTotal(its: seq<Iteration>): nat {
    if its == [] then 0 else (if its[0].PageDeleted? then its[0].count else 0) + DeletedTotal(its[1..])
  }

  /** The number of failed passes. */
  function FailureCount(its: seq<Iteration>): nat {
    if its == [] then 0 else (if its[0].IterationFailed? then 1 else 0) + FailureCount(its[1..])
  }

  /**
   * The counters of a run: `iterationCount` counts every pass, `totalDeleted`
   * adds exactly the lengths of the pages whose deletion completed (a failed
   * pass adds nothing, even when some of its batches were deleted), and
   * `errorCount` counts every failed pass of the whole run, never reset by a
   * success. Every pass consumes one search reply.
   */
  lemma {:induction false} DeleterAccounting(step: World -> (Iteration, World), fetchSize: int, estimatedTotal: int, s: DeleteStats, w: World)
    requires WellFormedStep(step)
    ensures var t := DeleterLoop(step, fetchSize, estimatedTotal, s, w);
      && t.run.stats.iterationCount == s.iterationCount + |t.iterations|
      && t.run.stats.totalDeleted == s.totalDeleted + DeletedTotal(t.iterations)
      && t.run.stats.errorCount == s.errorCount + FailureCount(t.iterations)
      && |t.iterations| + |t.world.searches| == |w.searches|
    decreases |w.searches|
  {
    if w.searches != [] {
      var p := step(w);
      var r := Tally(fetchSize, estimatedTotal, s, p.0, p.1);
      if r.stop.None? {
        var rest := DeleterLoop(step, fetchSize, estimatedTotal, r.stats, r.world);
        assert DeleterLoop(step, fetchSize, estimatedTotal, s, w) == rest.(iterations := [p.0] + rest.iterations);
        DeleterAccounting(step, fetchSize, estimatedTotal, r.stats, r.world);
        assert ([p.0] + rest.iterations)[1..] == rest.iterations;
      }
    }
  }

  /**
   * How a run from at most 5 errors ends: it aborts exactly when `errorCount`
   * passes 5, which happens on a failed pass, at the sixth failure; an empty
   * page, a page shorter than `fetchSize` or the end of the script ends it
   * normally; every pass but the last failed or deleted a full page.
   */
  lemma {:induction false} DeleterEndings(step: World -> (Iteration, World), fetchSize: int, estimatedTotal: int, s: DeleteStats, w: World)
    requires WellFormedStep(step) && s.errorCount <= MaxErrors
    ensures var t := DeleterLoop(step, fetchSize, estimatedTotal, s, w);
      var its := t.iterations;
      && (t.run.Aborted? <==> t.run.stats.errorCount > MaxErrors)
      && (t.run.Aborted? ==> t.run.stats.errorCount == MaxErrors + 1 && its != [] && its[|its| - 1].IterationFailed?)
      && (t.run == Completed(t.run.stats, NoDocumentsLeft) ==> its != [] && its[|its| - 1] == EmptyPage)
      && (t.run == Completed(t.run.stats, LastPageProcessed) ==>
            its != [] && its[|its| - 1].PageDeleted? && 0 < its[|its| - 1].count < fetchSize)
      && (t.run == Completed(t.run.stats, ScriptEnded) ==> t.world.searches == [])
      && (forall k :: 0 <= k < |its| - 1 ==>
            its[k].IterationFailed? || (its[k].PageDeleted? && its[k].count >= fetchSize))
    decreases |w.searches|
  {
    if w.searches != [] {
      var p := step(w);
      var r := Tally(fetchSize, estimatedTotal, s, p.0, p.1);
      if r.stop.None? {
        var rest := DeleterLoop(step, fetchSize, estimatedTotal, r.stats, r.world);
        var its := [p.0] + rest.iterations;
        assert DeleterLoop(step, fetchSize, estimatedTotal, s, w) == rest.(iterations := its);
        DeleterEndings(step, fetchSize, estimatedTotal, r.stats, r.world);
        assert forall k :: 1 <= k < |its| ==> its[k] == rest.iterations[k - 1];
      }
    }
  }

  /** Events of consecutive stretches of a trace, each with only positive ETA lines, make a stretch with only positive ETA lines. */
  lemma EtaPositiveJoin(a: seq<Event>, b: seq<Event>, c: seq<Event>)
    requires a <= b <= c && EtaPositive(b[|a|..]) && EtaPositive(c[|b|..])
    ensures EtaPositive(c[|a|..])
  {
    forall e <- c[|a|..]
      ensures e.EtaShown? ==> e.remaining > 0
    {
      var i :| |a| <= i < |c| && c[i] == e;
      if i < |b| {
        assert e == b[|a|..][i - |a|];
      } else {
        assert e == c[|b|..][i - |b|];
      }
    }
  }

  /** Every ETA line a run shows reports a positive remaining count. */
  lemma {:induction false} DeleterEtaLines(step: World -> (Iteration, World), fetchSize: int, estimatedTotal: int, s: DeleteStats, w: World)
    requires WellFormedStep(step) && ShowsNoEta(step)
    ensures var t := DeleterLoop(step, fetchSize, estimatedTotal, s, w);
      w.trace <= t.world.trace && EtaPositive(t.world.trace[|w.trace|..])
    decreases |w.searches|
  {
    var t := DeleterLoop(step, fetchSize, estimatedTotal, s, w);
    if w.searches == [] {
      assert t.world.trace[|w.trace|..] == [];
    } else {
      var p := step(w);
      var r := Tally(fetchSize, estimatedTotal, s, p.0, p.1);
      assert w.trace <= p.1.trace && EtaPositive(p.1.trace[|w.trace|..]);
      EtaPositiveJoin(w.trace, p.1.trace, r.world.trace);
      if r.stop.None? {
        var rest := DeleterLoop(step, fetchSize, estimatedTotal, r.stats, r.world);
        assert t.world == rest.world;
        DeleterEtaLines(step, fetchSize, estimatedTotal, r.stats, r.world);
        EtaPositiveJoin(w.trace, r.world.trace, t.world.trace);
      } else {
        assert t.world == r.world;
      }
    }
  }

  /** The run `processInChunks` makes from counters `s` and world `w`, and the world it leaves. */
  ghost function DeleterRun(cfg: Config, estimatedTotal: int, s: DeleteStats, w: World): (DeleteRun, World) {
    var t := DeleterLoop(PageStep(cfg), cfg.fetchSize, estimatedTotal, s, w);
    (t.run, t.world)
  }

  /** One unfolding of the loop: what a run does after a pass that `Tally` turns into `next`. */
  lemma DeleterRunStep(cfg: Config, estimatedTotal: int, s: DeleteStats, w: World, next: Tallied)
    requires w.searches != []
    requires next == Tally(cfg.fetchSize, estimatedTotal, s, DeletePage(cfg, w).0, DeletePage(cfg, w).1)
    ensures DeleterRun(cfg, estimatedTotal, s, w) == match next.stop
      case None => DeleterRun(cfg, estimatedTotal, next.stats, next.world)
      case Some(Aborts) => (Aborted(next.stats), next.world)
      case Some(Ends(ending)) => (Completed(next.stats, ending), next.world)
  {
    assert PageStep(cfg)(w) == DeletePage(cfg, w);
  }

  /**
   * The `try` block of one pass of `processInChunks`: fetch a page of ids and,
   * when there are some, delete them in batches; an error either call throws
   * is caught as a failed pass.
   */
  method DeletePass(cfg: Config, w: World) returns (it: Iteration, w': World)
    ensures (it, w') == DeletePage(cfg, w)
  {
    var fetched;
    fetched, w' := FetchDocumentIds(cfg, w);
    if fetched.Err? {
      return IterationFailed(fetched.error), w';
    }
    var ids := fetched.value;
    if |ids| == 0 {
      return EmptyPage, w';
    }
    var deleted;
    deleted, w' := DeleteBatchOfIds(ids, cfg, w');
    if deleted.Fail? {
      return IterationFailed(deleted.error), w';
    }
    return PageDeleted(|ids|), w';
  }

  /**
   * `processInChunks(filter, estimatedTotal)`: the run the loop makes is the
   * one `DeleterLoop` describes from zeroed counters, with the fetch and
   * delete of `DeletePage` as its body.
   */
  method ProcessInChunks(cfg: Config, estimatedTotal: int, w: World) returns (run: DeleteRun, w': World)
    ensures var t := DeleterLoop(PageStep(cfg), cfg.fetchSize, estimatedTotal, DeleteStats(0, 0, 0), w);
      run == t.run && w' == t.world
  {
    var totalDeleted: nat, errorCount: nat, iterationCount: nat := 0, 0, 0;
    w' := w;
    ghost var target := DeleterRun(cfg, estimatedTotal, DeleteStats(0, 0, 0), w);
    while true
      invariant errorCount <= MaxErrors
      invariant DeleterRun(cfg, estimatedTotal, DeleteStats(totalDeleted, errorCount, iterationCount), w') == target
      decreases |w'.searches|
    {
      if w'.searches == [] {
        run := Completed(DeleteStats(totalDeleted, errorCount, iterationCount), ScriptEnded);
        break;
      }
      ghost var before, stats := w', DeleteStats(totalDeleted, errorCount, iterationCount);
      iterationCount := iterationCount + 1;
      var it;
      it, w' := DeletePass(cfg, w');
      match it
      case EmptyPage =>
        run := Completed(DeleteStats(totalDeleted, errorCount, iterationCount), NoDocumentsLeft);
        DeleterRunStep(cfg, estimatedTotal, stats, before, Tallied(run.stats, w', Some(Ends(NoDocumentsLeft))));
        break;
      case PageDeleted(n) =>
        totalDeleted := totalDeleted + n;
        var remaining := estimatedTotal - totalDeleted;
        if remaining > 0 {
          w' := Show(w', EtaShown(remaining));
        }
        if n < cfg.fetchSize {
          run := Completed(DeleteStats(totalDeleted, errorCount, iterationCount), LastPageProcessed);
          DeleterRunStep(cfg, estimatedTotal, stats, before, Tallied(run.stats, w', Some(Ends(LastPageProcessed))));
          break;
        }
        w' := Sleep(w', PageDelayInMs);
        DeleterRunStep(cfg, estimatedTotal, stats, before, Tallied(DeleteStats(totalDeleted, errorCount, iterationCount), w', None));
      case IterationFailed(_) =>
        errorCount := errorCount + 1;
        if errorCount > MaxErrors {
          run := Aborted(DeleteStats(totalDeleted, errorCount, iterationCount));
          DeleterRunStep(cfg, estimatedTotal, stats, before, Tallied(run.stats, w', Some(Aborts)));
          break;
        }
        w' := Sleep(w', ErrorBackoffInMs);
        DeleterRunStep(cfg, estimatedTotal, stats, before, Tallied(DeleteStats(totalDeleted, errorCount, iterationCount), w', None));
    }
  }

  // ---------------------------------------------------------------------------
  // main

  /** How `main` ends: nothing to delete, or the run `processInChunks` made from an estimated total. */
  datatype DeleterResult = NothingToDelete | Ran(estimatedTotal: int, run: DeleteRun)

  /** The estimate used when the count query throws. */
  const FallbackEstimate := 1000000

  /**
   * The start of `main`: a count query estimates the total; a missing or zero
   * count means there is nothing to delete and the deletion loop never
   * starts; a count query that throws is answered with an estimate of
   * 1000000 and the loop starts anyway.
   */
  method RunDeleter(cfg: Config, w: World) returns (r: DeleterResult, w': World)
    ensures r == NothingToDelete <==> NextSearch(w).SearchOk? && NextSearch(w).count.GetOr(0) == 0
    ensures r == NothingToDelete ==> w' == AfterSearch(w)
    ensures r.Ran? ==>
      && r.estimatedTotal == (if NextSearch(w).SearchFailed? then FallbackEstimate else NextSearch(w).count.GetOr(0))
      && (r.run, w') == DeleterRun(cfg, r.estimatedTotal, DeleteStats(0, 0, 0), AfterSearch(w))
  {
    var estimatedTotal := 0;
    var reply := NextSearch(w);
    w' := AfterSearch(w);
    match reply {
      case SearchOk(_, count) =>
        estimatedTotal := count.GetOr(0);
        if estimatedTotal == 0 {
          return NothingToDelete, w';
        }
      case SearchFailed(_) =>
        estimatedTotal := FallbackEstimate;
    }
    var run;
    run, w' := ProcessInChunks(cfg, estimatedTotal, w');
    r := Ran(estimatedTotal, run);
  }
}
