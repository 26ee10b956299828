/**
 * The lister (src/search.ts): page through the documents matching the
 * expiration filter, print the job numbers of every page, and stop on an
 * empty page or a page shorter than the fetch size. A failed search never
 * stops the run: it is reported, followed by a 5 second pause, and retried.
 */
module SearchList {
  import opened Wrappers
  import opened Environment

  // ---------------------------------------------------------------------------
  // fetchJobNumbers

  /** What `fetchJobNumbers` returns: the job numbers of one page and the reply's total count. */
  datatype SearchResult = SearchResult(jobNumbers: seq<FieldValue>, totalCount: Option<int>)

  /** The only field the lister selects and reads. */
  const JobNumberField := "JobNumber"

  /**
   * The result of `fetchJobNumbers` for a search reply: the error a failed
   * search throws, or the truthy job numbers of the page in the order of the
   * hits together with the reply's total count, which may be missing.
   */
  function JobNumbersOf(reply: SearchResponse): (r: Result<SearchResult, Error>)
    ensures r.Ok? <==> reply.SearchOk?
    ensures reply.SearchFailed? ==> r == Err(reply.error)
    ensures r.Ok? ==> r.value.totalCount == reply.count
    ensures r.Ok? ==> |r.value.jobNumbers| <= |reply.hits| && forall v <- r.value.jobNumbers :: Truthy(v)
  {
    match reply
    case SearchFailed(e) => Err(e)
    case SearchOk(hits, count) => Ok(SearchResult(TruthyValues(hits, JobNumberField), count))
  }

  /**
   * A page keeps a job number exactly when some hit's document holds it and
   * it is truthy; a page keeps all its hits exactly when every hit holds a
   * truthy job number.
   */
  lemma JobNumbersOfPage(hits: seq<Hit>, count: Option<int>, v: FieldValue)
    ensures var page := JobNumbersOf(SearchOk(hits, count)).value;
      && (v in page.jobNumbers <==> Truthy(v) && exists i :: 0 <= i < |hits| && FieldOf(hits[i], JobNumberField) == v)
      && (|page.jobNumbers| == |hits| <==> forall i :: 0 <= i < |hits| ==> Truthy(FieldOf(hits[i], JobNumberField)))
  {
    TruthyValuesMembers(hits, JobNumberField, v);
    TruthyValuesKeepsAll(hits, JobNumberField);
  }

  /** Searches once and collects the job numbers of the page; a failed search is rethrown. */
  method FetchJobNumbers(w: World) returns (r: Result<SearchResult, Error>, w': World)
    ensures w' == AfterSearch(w)
    ensures r == JobNumbersOf(NextSearch(w))
  {
    var reply := NextSearch(w);
    w' := AfterSearch(w);
    if reply.SearchFailed? {
      return Err(reply.error), w';
    }
    var totalCount := reply.count;
    var hits := reply.hits;
    var jobNumbers: seq<FieldValue> := [];
    for i := 0 to |hits|
      invariant jobNumbers == TruthyValues(hits[..i], JobNumberField)
    {
      var jobNumber := FieldOf(hits[i], JobNumberField);
      assert hits[..i + 1][..i] == hits[..i];
      if Truthy(jobNumber) {
        jobNumbers := jobNumbers + [jobNumber];
      }
    }
    assert hits[..|hits|] == hits;
    r := Ok(SearchResult(jobNumbers, totalCount));
  }

  // ---------------------------------------------------------------------------
  // processInChunks

  /** The variables `processInChunks` keeps; `None` is the count's initial `null`. */
  datatype ListStats = ListStats(totalFetched: nat, iterationCount: nat, totalMatchingDocs: Option<int>)

  /** The pause after a failed pass. */
  const ErrorBackoffInMs := 5000

  /** The variables and world after the loop has dealt with one pass, and why it stops there, if it does. */
  datatype ListTallied = ListTallied(stats: ListStats, world: World, stop: Option<Ending>)

  /**
   * The bookkeeping of one pass of the `processInChunks` loop, once the page
   * fetch has given `pass` and left world `w1`: a pass counts as an iteration
   * whatever its outcome; a failed fetch pauses 5000 ms and the loop goes on;
   * the first total count a page carries is kept and shown once, even on an
   * empty page; an empty page stops the loop; any other page is printed and
   * its length added to `totalFetched`, and it stops the loop when shorter
   * than `fetchSize`, or else the loop pauses `rateLimitDelayInMs`.
   */
  function ListTally(fetchSize: int, rateLimitDelayInMs: int, s: ListStats, pass: Result<SearchResult, Error>, w1: World): (r: ListTallied)
    ensures r.stats.iterationCount == s.iterationCount + 1
    ensures r.stats.totalFetched == s.totalFetched + (if pass.Ok? then |pass.value.jobNumbers| else 0)
    ensures s.totalMatchingDocs.Some? ==> r.stats.totalMatchingDocs == s.totalMatchingDocs
    ensures s.totalMatchingDocs.None? ==> r.stats.totalMatchingDocs == (if pass.Ok? then pass.value.totalCount else None)
    ensures r.world.searches == w1.searches && r.world.writes == w1.writes && w1.trace <= r.world.trace
    ensures r.stop == Some(NoDocumentsLeft) <==> pass.Ok? && pass.value.jobNumbers == []
    ensures r.stop == Some(LastPageProcessed) <==> pass.Ok? && 0 < |pass.value.jobNumbers| < fetchSize
    ensures r.stop != Some(ScriptEnded)
    ensures pass.Err? ==> r.world.trace == w1.trace + [Slept(ErrorBackoffInMs)]
    ensures pass.Ok? ==>
      var jobs := pass.value.jobNumbers;
      var count := pass.value.totalCount;
      r.world.trace == w1.trace
        + (if s.totalMatchingDocs.None? && count.Some? then [MatchCountShown(count.value)] else [])
        + (if jobs == [] then [] else [PagePrinted(jobs)])
        + (if jobs != [] && |jobs| >= fetchSize then [Slept(rateLimitDelayInMs)] else [])
  {
    var s1 := s.(iterationCount := s.iterationCount + 1);
    match pass
    case Err(_) => ListTallied(s1, Sleep(w1, ErrorBackoffInMs), None)
    case Ok(page) =>
      var latch := s1.totalMatchingDocs.None? && page.totalCount.Some?;
      var s2 := if latch then s1.(totalMatchingDocs := page.totalCount) else s1;
      var w2 := if latch then Show(w1, MatchCountShown(page.totalCount.value)) else w1;
      if |page.jobNumbers| == 0 then ListTallied(s2, w2, Some(NoDocumentsLeft))
      else
        var s3 := s2.(totalFetched := s2.totalFetched + |page.jobNumbers|);
        var w3 := Show(w2, PagePrinted(page.jobNumbers));
        if |page.jobNumbers| < fetchSize then ListTallied(s3, w3, Some(LastPageProcessed))
        else ListTallied(s3, Sleep(w3, rateLimitDelayInMs), None)
  }

  /** A run, the world it leaves, and the results of the page fetches it made. */
  datatype ListerTrace = ListerTrace(stats: ListStats, ending: Ending, world: World, passes: seq<Result<SearchResult, Error>>)

  /**
   * The `while (true)` loop of `processInChunks` from variables `s`, with
   * `fetchJobNumbers` as its fetch and `ListTally` as its bookkeeping; the
   * run also stops when the scripted search replies run out.
   */
  function ListerLoop(fetchSize: int, rateLimitDelayInMs: int, s: ListStats, w: World): (t: ListerTrace)
    ensures w.trace <= t.world.trace
    decreases |w.searches|
  {
    if w.searches == [] then ListerTrace(s, ScriptEnded, w, [])
    else
      var pass := JobNumbersOf(NextSearch(w));
      var r := ListTally(fetchSize, rateLimitDelayInMs, s, pass, AfterSearch(w));
      match r.stop
      case Some(ending) => ListerTrace(r.stats, ending, r.world, [pass])
      case None =>
        var rest := ListerLoop(fetchSize, rateLimitDelayInMs, r.stats, r.world);
        rest.(passes := [pass] + rest.passes)
  }

  /** The number of job numbers the successful fetches returned. */
  function ListedTotal(passes: seq<Result<SearchResult, Error>>): nat {
    if passes == [] then 0
    else (if passes[0].Ok? then |passes[0].value.jobNumbers| else 0) + ListedTotal(passes[1..])
  }

  /** The first total count carried by a successful fetch, if any. */
  function FirstCount(passes: seq<Result<SearchResult, Error>>): Option<int> {
    if passes == [] then None
    else if passes[0].Ok? && passes[0].value.totalCount.Some? then passes[0].value.totalCount
    else FirstCount(passes[1..])
  }

  /** The non-empty pages among the fetches, in order. */
  function NonEmptyPages(passes: seq<Result<SearchResult, Error>>): seq<seq<FieldValue>> {
    if passes == [] then []
    else
      var head := if passes[0].Ok? && passes[0].value.jobNumbers != [] then [passes[0].value.jobNumbers] else [];
      head + NonEmptyPages(passes[1..])
  }

  /**
   * The variables of a run: `iterationCount` counts every pass, failed or
   * not, `totalFetched` adds the lengths of exactly the pages fetched, and
   * every pass consumes one search reply and no write.
   */
  lemma {:induction false} ListerAccounting(fetchSize: int, rateLimitDelayInMs: int, s: ListStats, w: World)
    ensures var t := ListerLoop(fetchSize, rateLimitDelayInMs, s, w);
      && t.stats.iterationCount == s.iterationCount + |t.passes|
      && t.stats.totalFetched == s.totalFetched + ListedTotal(t.passes)
      && |t.passes| + |t.world.searches| == |w.searches|
      && t.world.writes == w.writes
    decreases |w.searches|
  {
    if w.searches != [] {
      var pass := JobNumbersOf(NextSearch(w));
      var r := ListTally(fetchSize, rateLimitDelayInMs, s, pass, AfterSearch(w));
      if r.stop.None? {
        var rest := ListerLoop(fetchSize, rateLimitDelayInMs, r.stats, r.world);
        assert ListerLoop(fetchSize, rateLimitDelayInMs, s, w) == rest.(passes := [pass] + rest.passes);
        ListerAccounting(fetchSize, rateLimitDelayInMs, r.stats, r.world);
        assert ([pass] + rest.passes)[1..] == rest.passes;
      }
    }
  }

  /** The matching-document count a run ends with is the first one any page carried, and a kept count is never replaced. */
  lemma {:induction false} ListerLatch(fetchSize: int, rateLimitDelayInMs: int, s: ListStats, w: World)
    ensures var t := ListerLoop(fetchSize, rateLimitDelayInMs, s, w);
      t.stats.totalMatchingDocs == if s.totalMatchingDocs.Some? then s.totalMatchingDocs else FirstCount(t.passes)
    decreases |w.searches|
  {
    if w.searches != [] {
      var pass := JobNumbersOf(NextSearch(w));
      var r := ListTally(fetchSize, rateLimitDelayInMs, s, pass, AfterSearch(w));
      if r.stop.None? {
        var rest := ListerLoop(fetchSize, rateLimitDelayInMs, r.stats, r.world);
        assert ListerLoop(fetchSize, rateLimitDelayInMs, s, w) == rest.(passes := [pass] + rest.passes);
        ListerLatch(fetchSize, rateLimitDelayInMs, r.stats, r.world);
        assert ([pass] + rest.passes)[1..] == rest.passes;
      }
    }
  }

  /**
   * How a run ends: an empty page ends it with no more documents, a
   * non-empty page shorter than `fetchSize` ends it as the last page, and
   * otherwise it goes on until the script ends; every pass but the last
   * failed or fetched a full page.
   */
  lemma {:induction false} ListerEndings(fetchSize: int, rateLimitDelayInMs: int, s: ListStats, w: World)
    ensures EndsAsPromised(fetchSize, ListerLoop(fetchSize, rateLimitDelayInMs, s, w))
    decreases |w.searches|
  {
    if w.searches != [] {
      var r := ListTally(fetchSize, rateLimitDelayInMs, s, JobNumbersOf(NextSearch(w)), AfterSearch(w));
      if r.stop.None? {
        ListerEndings(fetchSize, rateLimitDelayInMs, r.stats, r.world);
      }
      LastPassStep(fetchSize, rateLimitDelayInMs, s, w);
      EarlierPassesStep(fetchSize, rateLimitDelayInMs, s, w);
    }
  }

  /**
   * The ending of `t` is explained by its last pass, or by the end of the
   * script, and every earlier pass failed or fetched a full page.
   */
  predicate EndsAsPromised(fetchSize: int, t: ListerTrace) {
    LastPassExplains(fetchSize, t) && EarlierPassesContinue(fetchSize, t.passes)
  }

  predicate LastPassExplains(fetchSize: int, t: ListerTrace) {
    var ps := t.passes;
    && (t.ending == NoDocumentsLeft ==> ps != [] && ps[|ps| - 1].Ok? && ps[|ps| - 1].value.jobNumbers == [])
    && (t.ending == LastPageProcessed ==>
          ps != [] && ps[|ps| - 1].Ok? && 0 < |ps[|ps| - 1].value.jobNumbers| < fetchSize)
    && (t.ending == ScriptEnded ==> t.world.searches == [])
  }

  predicate EarlierPassesContinue(fetchSize: int, ps: seq<Result<SearchResult, Error>>) {
    forall k :: 0 <= k < |ps| - 1 ==> ps[k].Err? || |ps[k].value.jobNumbers| >= fetchSize
  }

  /** The last pass of a run that makes one explains its ending, given that it does for the rest of the run. */
  lemma LastPassStep(fetchSize: int, rateLimitDelayInMs: int, s: ListStats, w: World)
    requires w.searches != []
    requires var r := ListTally(fetchSize, rateLimitDelayInMs, s, JobNumbersOf(NextSearch(w)), AfterSearch(w));
      r.stop.None? ==> LastPassExplains(fetchSize, ListerLoop(fetchSize, rateLimitDelayInMs, r.stats, r.world))
    ensures LastPassExplains(fetchSize, ListerLoop(fetchSize, rateLimitDelayInMs, s, w))
  {
    var pass := JobNumbersOf(NextSearch(w));
    var r := ListTally(fetchSize, rateLimitDelayInMs, s, pass, AfterSearch(w));
    var t := ListerLoop(fetchSize, rateLimitDelayInMs, s, w);
    if r.stop.None? {
      var rest := ListerLoop(fetchSize, rateLimitDelayInMs, r.stats, r.world);
      var ps := [pass] + rest.passes;
      assert t.passes == ps && t.ending == rest.ending && t.world == rest.world;
      assert LastPassExplains(fetchSize, t) by {
        assert LastPassExplains(fetchSize, rest);
        assert rest.passes != [] ==> ps[|ps| - 1] == rest.passes[|rest.passes| - 1];
      }
    } else {
      assert t.passes == [pass] && t.ending == r.stop.value && t.world == r.world;
      assert LastPassExplains(fetchSize, t);
    }
  }

  /** The passes before the last of a run that makes one continue the loop, given that those of the rest of the run do. */
  lemma EarlierPassesStep(fetchSize: int, rateLimitDelayInMs: int, s: ListStats, w: World)
    requires w.searches != []
    requires var r := ListTally(fetchSize, rateLimitDelayInMs, s, JobNumbersOf(NextSearch(w)), AfterSearch(w));
      r.stop.None? ==> EarlierPassesContinue(fetchSize, ListerLoop(fetchSize, rateLimitDelayInMs, r.stats, r.world).passes)
    ensures EarlierPassesContinue(fetchSize, ListerLoop(fetchSize, rateLimitDelayInMs, s, w).passes)
  {
    var pass := JobNumbersOf(NextSearch(w));
    var r := ListTally(fetchSize, rateLimitDelayInMs, s, pass, AfterSearch(w));
    if r.stop.None? {
      var rest := ListerLoop(fetchSize, rateLimitDelayInMs, r.stats, r.world);
      var ps := [pass] + rest.passes;
      assert ListerLoop(fetchSize, rateLimitDelayInMs, s, w).passes == ps;
      assert pass.Err? || |pass.value.jobNumbers| >= fetchSize;
      forall k | 0 <= k < |ps| - 1
        ensures ps[k].Err? || |ps[k].value.jobNumbers| >= fetchSize
      {
        if k > 0 {
          assert ps[k] == rest.passes[k - 1];
        }
      }
    }
  }

  /** `n` pauses after failed passes. */
  function Backoffs(n: nat): (r: seq<Event>)
    ensures |r| == n && forall e <- r :: e == Slept(ErrorBackoffInMs)
  {
    if n == 0 then [] else [Slept(ErrorBackoffInMs)] + Backoffs(n - 1)
  }

  /**
   * Failures never stop the lister: over a script of failed searches it
   * makes one pass per reply, pauses 5000 ms after each and fetches
   * nothing, until the script ends.
   */
  lemma {:induction false} ListerAllFailures(fetchSize: int, rateLimitDelayInMs: int, s: ListStats, w: World)
    requires forall k :: 0 <= k < |w.searches| ==> w.searches[k].SearchFailed?
    ensures var t := ListerLoop(fetchSize, rateLimitDelayInMs, s, w);
      && t.ending == ScriptEnded
      && t.stats == s.(iterationCount := s.iterationCount + |w.searches|)
      && t.world.trace == w.trace + Backoffs(|w.searches|)
    decreases |w.searches|
  {
    if w.searches != [] {
      var w1 := AfterSearch(w);
      var r := ListTally(fetchSize, rateLimitDelayInMs, s, JobNumbersOf(NextSearch(w)), w1);
      assert forall k :: 0 <= k < |w1.searches| ==> w1.searches[k] == w.searches[k + 1];
      ListerAllFailures(fetchSize, rateLimitDelayInMs, r.stats, r.world);
      assert w.trace + Backoffs(|w.searches|) == (w.trace + [Slept(ErrorBackoffInMs)]) + Backoffs(|w1.searches|);
    }
  }

  // ---------------------------------------------------------------------------
  // What the lister prints

  /** The job number lines among `events`, in order. */
  function Printed(events: seq<Event>): seq<seq<FieldValue>> {
    if events == [] then []
    else (if events[0].PagePrinted? then [events[0].jobNumbers] else []) + Printed(events[1..])
  }

  /** The matching-document count lines among `events`, in order. */
  function CountsShown(events: seq<Event>): seq<int> {
    if events == [] then []
    else (if events[0].MatchCountShown? then [events[0].total] else []) + CountsShown(events[1..])
  }

  /** Picking out job number lines and count lines distributes over concatenation. */
  lemma {:induction false} PrintedAppend(a: seq<Event>, b: seq<Event>)
    ensures Printed(a + b) == Printed(a) + Printed(b)
    ensures CountsShown(a + b) == CountsShown(a) + CountsShown(b)
    decreases |a|
  {
    if a == [] {
      assert a + b == b;
    } else {
      assert (a + b)[0] == a[0];
      assert (a + b)[1..] == a[1..] + b;
      PrintedAppend(a[1..], b);
    }
  }

  /** The events `c` adds beyond `a` are those `b` adds and then those `c` adds beyond `b`. */
  lemma SuffixSplit(a: seq<Event>, b: seq<Event>, c: seq<Event>)
    requires a <= b <= c
    ensures c[|a|..] == b[|a|..] + c[|b|..]
  {
  }

  /** One pass prints its page when the page is non-empty, and shows the count it keeps, if it keeps one. */
  lemma ListTallyEvents(fetchSize: int, rateLimitDelayInMs: int, s: ListStats, pass: Result<SearchResult, Error>, w1: World)
    ensures var r := ListTally(fetchSize, rateLimitDelayInMs, s, pass, w1);
      var added := r.world.trace[|w1.trace|..];
      && Printed(added) == (if pass.Ok? && pass.value.jobNumbers != [] then [pass.value.jobNumbers] else [])
      && CountsShown(added) == (if s.totalMatchingDocs.None? && r.stats.totalMatchingDocs.Some? then [r.stats.totalMatchingDocs.value] else [])
  {
    match pass
    case Err(_) =>
      AddedOne(w1.trace, w1.trace, Slept(ErrorBackoffInMs));
    case Ok(page) =>
      var latch := s.totalMatchingDocs.None? && page.totalCount.Some?;
      var w2 := if latch then Show(w1, MatchCountShown(page.totalCount.value)) else w1;
      if latch {
        AddedOne(w1.trace, w1.trace, MatchCountShown(page.totalCount.value));
      }
      if page.jobNumbers != [] {
        var w3 := Show(w2, PagePrinted(page.jobNumbers));
        AddedOne(w1.trace, w2.trace, PagePrinted(page.jobNumbers));
        if |page.jobNumbers| >= fetchSize {
          AddedOne(w1.trace, w3.trace, Slept(rateLimitDelayInMs));
        }
      }
  }

  /** The events added beyond `base` once `e` is appended are those added before, then `e`. */
  lemma AddedOne(base: seq<Event>, before: seq<Event>, e: Event)
    requires base <= before
    ensures (before + [e])[|base|..] == before[|base|..] + [e]
    ensures Printed(before[|base|..] + [e]) == Printed(before[|base|..]) + if e.PagePrinted? then [e.jobNumbers] else []
    ensures CountsShown(before[|base|..] + [e]) == CountsShown(before[|base|..]) + if e.MatchCountShown? then [e.total] else []
  {
    PrintedAppend(before[|base|..], [e]);
    assert [e][1..] == [];
  }

  /**
   * What a run prints: exactly the non-empty pages it fetched, in order, and
   * at most one matching-document count line, the first count any page
   * carried, and none when a count was already kept.
   */
  lemma {:induction false} ListerOutput(fetchSize: int, rateLimitDelayInMs: int, s: ListStats, w: World)
    ensures var t := ListerLoop(fetchSize, rateLimitDelayInMs, s, w);
      && Printed(t.world.trace[|w.trace|..]) == NonEmptyPages(t.passes)
      && CountsShown(t.world.trace[|w.trace|..]) ==
           (if s.totalMatchingDocs.None? && FirstCount(t.passes).Some? then [FirstCount(t.passes).value] else [])
    decreases |w.searches|
  {
    if w.searches == [] {
      var t := ListerLoop(fetchSize, rateLimitDelayInMs, s, w);
      assert t.world.trace[|w.trace|..] == [];
    } else {
      var r := ListTally(fetchSize, rateLimitDelayInMs, s, JobNumbersOf(NextSearch(w)), AfterSearch(w));
      if r.stop.None? {
        ListerOutput(fetchSize, rateLimitDelayInMs, r.stats, r.world);
      }
      ListerOutputStep(fetchSize, rateLimitDelayInMs, s, w);
    }
  }

  /** `ListerOutput` for a run that makes a pass, given that it holds for the rest of the run. */
  lemma ListerOutputStep(fetchSize: int, rateLimitDelayInMs: int, s: ListStats, w: World)
    requires w.searches != []
    requires var r := ListTally(fetchSize, rateLimitDelayInMs, s, JobNumbersOf(NextSearch(w)), AfterSearch(w));
      var rest := ListerLoop(fetchSize, rateLimitDelayInMs, r.stats, r.world);
      r.stop.None? ==>
        && Printed(rest.world.trace[|r.world.trace|..]) == NonEmptyPages(rest.passes)
        && CountsShown(rest.world.trace[|r.world.trace|..]) ==
             (if r.stats.totalMatchingDocs.None? && FirstCount(rest.passes).Some? then [FirstCount(rest.passes).value] else [])
    ensures var t := ListerLoop(fetchSize, rateLimitDelayInMs, s, w);
      && Printed(t.world.trace[|w.trace|..]) == NonEmptyPages(t.passes)
      && CountsShown(t.world.trace[|w.trace|..]) ==
           (if s.totalMatchingDocs.None? && FirstCount(t.passes).Some? then [FirstCount(t.passes).value] else [])
  {
    var w1 := AfterSearch(w);
    var pass := JobNumbersOf(NextSearch(w));
    var r := ListTally(fetchSize, rateLimitDelayInMs, s, pass, w1);
    ListTallyEvents(fetchSize, rateLimitDelayInMs, s, pass, w1);
    if r.stop.None? {
      ListerOutputContinue(fetchSize, rateLimitDelayInMs, s, w, pass, r);
    } else {
      var t := ListerLoop(fetchSize, rateLimitDelayInMs, s, w);
      assert t.passes == [pass] && t.world == r.world;
      assert t.passes[1..] == [];
    }
  }

  /** The case of `ListerOutputStep` where the pass lets the loop go on. */
  lemma ListerOutputContinue(fetchSize: int, rateLimitDelayInMs: int, s: ListStats, w: World,
                             pass: Result<SearchResult, Error>, r: ListTallied)
    requires w.searches != [] && pass == JobNumbersOf(NextSearch(w))
    requires r == ListTally(fetchSize, rateLimitDelayInMs, s, pass, AfterSearch(w)) && r.stop.None?
    requires Printed(r.world.trace[|AfterSearch(w).trace|..]) == (if pass.Ok? && pass.value.jobNumbers != [] then [pass.value.jobNumbers] else [])
    requires CountsShown(r.world.trace[|AfterSearch(w).trace|..]) ==
      (if s.totalMatchingDocs.None? && r.stats.totalMatchingDocs.Some? then [r.stats.totalMatchingDocs.value] else [])
    requires var rest := ListerLoop(fetchSize, rateLimitDelayInMs, r.stats, r.world);
      && Printed(rest.world.trace[|r.world.trace|..]) == NonEmptyPages(rest.passes)
      && CountsShown(rest.world.trace[|r.world.trace|..]) ==
           (if r.stats.totalMatchingDocs.None? && FirstCount(rest.passes).Some? then [FirstCount(rest.passes).value] else [])
    ensures var t := ListerLoop(fetchSize, rateLimitDelayInMs, s, w);
      && Printed(t.world.trace[|w.trace|..]) == NonEmptyPages(t.passes)
      && CountsShown(t.world.trace[|w.trace|..]) ==
           (if s.totalMatchingDocs.None? && FirstCount(t.passes).Some? then [FirstCount(t.passes).value] else [])
  {
    var t := ListerLoop(fetchSize, rateLimitDelayInMs, s, w);
    var rest := ListerLoop(fetchSize, rateLimitDelayInMs, r.stats, r.world);
    var first := r.world.trace[|w.trace|..];
    var later := rest.world.trace[|r.world.trace|..];
    assert t.passes == [pass] + rest.passes && t.world == rest.world by {
      assert t == rest.(passes := [pass] + rest.passes);
    }
    assert t.world.trace[|w.trace|..] == first + later by {
      SuffixSplit(w.trace, r.world.trace, rest.world.trace);
    }
    OutputJoin(pass, rest.passes, first, later, s.totalMatchingDocs, r.stats.totalMatchingDocs);
  }

  /** The output of one pass followed by the output of the rest of the run is the output of the whole run. */
  lemma OutputJoin(pass: Result<SearchResult, Error>, rest: seq<Result<SearchResult, Error>>, first: seq<Event>, later: seq<Event>,
                   kept: Option<int>, keptAfter: Option<int>)
    requires Printed(first) == (if pass.Ok? && pass.value.jobNumbers != [] then [pass.value.jobNumbers] else [])
    requires CountsShown(first) == (if kept.None? && keptAfter.Some? then [keptAfter.value] else [])
    requires kept.Some? ==> keptAfter == kept
    requires kept.None? ==> keptAfter == (if pass.Ok? then pass.value.totalCount else None)
    requires Printed(later) == NonEmptyPages(rest)
    requires CountsShown(later) == (if keptAfter.None? && FirstCount(rest).Some? then [FirstCount(rest).value] else [])
    ensures Printed(first + later) == NonEmptyPages([pass] + rest)
    ensures CountsShown(first + later) ==
      (if kept.None? && FirstCount([pass] + rest).Some? then [FirstCount([pass] + rest).value] else [])
  {
    PrintedAppend(first, later);
    assert ([pass] + rest)[0] == pass;
    assert ([pass] + rest)[1..] == rest;
  }

  /** The sum of the lengths of `pages`. */
  function TotalLength(pages: seq<seq<FieldValue>>): nat {
    if pages == [] then 0 else |pages[0]| + TotalLength(pages[1..])
  }

  /** Empty pages add nothing: the job numbers fetched are those of the non-empty pages. */
  lemma {:induction false} ListedTotalPages(passes: seq<Result<SearchResult, Error>>)
    ensures ListedTotal(passes) == TotalLength(NonEmptyPages(passes))
  {
    if passes != [] {
      ListedTotalPages(passes[1..]);
      var head: seq<seq<FieldValue>> :=
        if passes[0].Ok? && passes[0].value.jobNumbers != [] then [passes[0].value.jobNumbers] else [];
      TotalLengthAppend(head, NonEmptyPages(passes[1..]));
      if head != [] {
        assert head[1..] == [];
      }
    }
  }

  /** Lengths add up over concatenation. */
  lemma {:induction false} TotalLengthAppend(a: seq<seq<FieldValue>>, b: seq<seq<FieldValue>>)
    ensures TotalLength(a + b) == TotalLength(a) + TotalLength(b)
    decreases |a|
  {
    if a == [] {
      assert a + b == b;
    } else {
      assert (a + b)[0] == a[0];
      assert (a + b)[1..] == a[1..] + b;
      TotalLengthAppend(a[1..], b);
    }
  }

  // ---------------------------------------------------------------------------
  // The loop and its closing lines

  /** The variables, ending and world a run from `s` and `w` leaves. */
  function ListerOutcome(fetchSize: int, rateLimitDelayInMs: int, s: ListStats, w: World): (ListStats, Ending, World) {
    var t := ListerLoop(fetchSize, rateLimitDelayInMs, s, w);
    (t.stats, t.ending, t.world)
  }

  /** One unfolding of the loop: what a run does after a pass that `ListTally` turns into `next`. */
  lemma ListerOutcomeStep(fetchSize: int, rateLimitDelayInMs: int, s: ListStats, w: World, next: ListTallied)
    requires w.searches != []
    requires next == ListTally(fetchSize, rateLimitDelayInMs, s, JobNumbersOf(NextSearch(w)), AfterSearch(w))
    ensures ListerOutcome(fetchSize, rateLimitDelayInMs, s, w) == match next.stop
      case None => ListerOutcome(fetchSize, rateLimitDelayInMs, next.stats, next.world)
      case Some(ending) => (next.stats, ending, next.world)
  {
  }

  /** The two closing lines: the job numbers shown, and the matching-document count when one was kept. */
  function Closing(s: ListStats, w: World): (r: World)
    ensures r.searches == w.searches && w.trace <= r.trace
    ensures r.trace[|w.trace|..] ==
      [FetchedShown(s.totalFetched)] + if s.totalMatchingDocs.Some? then [IndexTotalShown(s.totalMatchingDocs.value)] else []
  {
    var w1 := Show(w, FetchedShown(s.totalFetched));
    match s.totalMatchingDocs
    case None => w1
    case Some(total) => Show(w1, IndexTotalShown(total))
  }

  /**
   * `processInChunks(filter)`: the loop is the one `ListerLoop` describes
   * from zeroed variables and a `null` count; when it breaks, the closing
   * lines follow. A run whose script ends first is cut off inside the loop
   * and shows no closing lines.
   */
  method ProcessInChunks(fetchSize: int, rateLimitDelayInMs: int, w: World) returns (stats: ListStats, ending: Ending, w': World)
    ensures var t := ListerLoop(fetchSize, rateLimitDelayInMs, ListStats(0, 0, None), w);
      && stats == t.stats && ending == t.ending
      && w' == if ending == ScriptEnded then t.world else Closing(t.stats, t.world)
  {
    var totalFetched: nat, iterationCount: nat, totalMatchingDocs: Option<int> := 0, 0, None;
    w' := w;
    ghost var target := ListerOutcome(fetchSize, rateLimitDelayInMs, ListStats(0, 0, None), w);
    while true
      invariant ListerOutcome(fetchSize, rateLimitDelayInMs, ListStats(totalFetched, iterationCount, totalMatchingDocs), w') == target
      decreases |w'.searches|
    {
      if w'.searches == [] {
        return ListStats(totalFetched, iterationCount, totalMatchingDocs), ScriptEnded, w';
      }
      ghost var before, s := w', ListStats(totalFetched, iterationCount, totalMatchingDocs);
      iterationCount := iterationCount + 1;
      var fetched;
      fetched, w' := FetchJobNumbers(w');
      match fetched {
        case Err(_) =>
          w' := Sleep(w', ErrorBackoffInMs);
          ListerOutcomeStep(fetchSize, rateLimitDelayInMs, s, before,
            ListTallied(ListStats(totalFetched, iterationCount, totalMatchingDocs), w', None));
        case Ok(SearchResult(jobNumbers, totalCount)) =>
          if totalMatchingDocs.None? && totalCount.Some? {
            totalMatchingDocs := totalCount;
            w' := Show(w', MatchCountShown(totalCount.value));
          }
          if |jobNumbers| == 0 {
            ending := NoDocumentsLeft;
            ListerOutcomeStep(fetchSize, rateLimitDelayInMs, s, before,
              ListTallied(ListStats(totalFetched, iterationCount, totalMatchingDocs), w', Some(ending)));
            break;
          }
          w' := Show(w', PagePrinted(jobNumbers));
          totalFetched := totalFetched + |jobNumbers|;
          if |jobNumbers| < fetchSize {
            ending := LastPageProcessed;
            ListerOutcomeStep(fetchSize, rateLimitDelayInMs, s, before,
              ListTallied(ListStats(totalFetched, iterationCount, totalMatchingDocs), w', Some(ending)));
            break;
          }
          w' := Sleep(w', rateLimitDelayInMs);
          ListerOutcomeStep(fetchSize, rateLimitDelayInMs, s, before,
            ListTallied(ListStats(totalFetched, iterationCount, totalMatchingDocs), w', None));
      }
    }
    stats := ListStats(totalFetched, iterationCount, totalMatchingDocs);
    w' := Show(w', FetchedShown(totalFetched));
    if totalMatchingDocs.Some? {
      w' := Show(w', IndexTotalShown(totalMatchingDocs.value));
    }
  }

  /**
   * The closing lines of a run that breaks out of the loop report what it
   * printed: the number of job numbers across the printed pages, and the
   * one matching-document count it showed, if it showed one.
   */
  lemma ListerClosingLines(fetchSize: int, rateLimitDelayInMs: int, w: World)
    ensures var t := ListerLoop(fetchSize, rateLimitDelayInMs, ListStats(0, 0, None), w);
      var shown := t.world.trace[|w.trace|..];
      var closing := Closing(t.stats, t.world).trace[|t.world.trace|..];
      && closing[0] == FetchedShown(TotalLength(Printed(shown)))
      && (|closing| == 2 <==> |CountsShown(shown)| == 1)
      && (|closing| == 2 ==> closing[1] == IndexTotalShown(CountsShown(shown)[0]))
  {
    var s := ListStats(0, 0, None);
    var t := ListerLoop(fetchSize, rateLimitDelayInMs, s, w);
    var shown := t.world.trace[|w.trace|..];
    assert t.stats.totalFetched == TotalLength(Printed(shown)) by {
      ListerAccounting(fetchSize, rateLimitDelayInMs, s, w);
      ListerOutput(fetchSize, rateLimitDelayInMs, s, w);
      ListedTotalPages(t.passes);
    }
    assert CountsShown(shown) == if t.stats.totalMatchingDocs.Some? then [t.stats.totalMatchingDocs.value] else [] by {
      ListerLatch(fetchSize, rateLimitDelayInMs, s, w);
      ListerOutput(fetchSize, rateLimitDelayInMs, s, w);
    }
  }
}
