/** hub/query_timing_metadata.go and AddScanMetadata: the slowest 500 scans of a query, kept as they
    complete, beside a summary of all of them. */
module QueryTiming {
  import opened Wrappers
  import opened Ordering

  const SCAN_METADATA_BUFFER_SIZE := 500

  /** The timestamp of a query is its key. */
  datatype QueryTime = QueryTime(nanos: int)

  datatype ScanRow = ScanRow(id: nat, durationMs: int)

  /** QueryRowSummary.Update is a fold; the free one keeps the rows it was given. */
  type Summary = seq<ScanRow>

  type ByQuery = map<QueryTime, seq<ScanRow>>
  type Summaries = map<QueryTime, Summary>
  type Offsets = map<QueryTime, nat>

  const SLOWER: (ScanRow, ScanRow) -> bool := (x: ScanRow, y: ScanRow) => x.durationMs >= y.durationMs

  lemma SlowerOrders()
    ensures TotalPreorder(SLOWER)
  {
  }

  /** The slowest scans of a history: at most 500, in decreasing order of duration, from the history,
      and none dropped that is slower than one kept. */
  ghost predicate SlowestOf(kept: seq<ScanRow>, history: seq<ScanRow>) {
    && Sorted(SLOWER, kept)
    && |kept| == (if |history| < SCAN_METADATA_BUFFER_SIZE then |history| else SCAN_METADATA_BUFFER_SIZE)
    && multiset(kept) <= multiset(history)
    && forall d, k :: d in multiset(history) - multiset(kept) && k in kept ==> SLOWER(k, d)
  }

  /** sort.Slice by decreasing duration: some sorted order, not a stable one. */
  method SortSlice(s: seq<ScanRow>) returns (t: seq<ScanRow>)
    ensures SortedPerm(SLOWER, t, multiset(s))
  {
    SlowerOrders();
    t := Sort(SLOWER, s);
    SortSorts(SLOWER, s);
  }

  lemma AllKept(kept: seq<ScanRow>, history: seq<ScanRow>)
    requires SlowestOf(kept, history) && |history| <= SCAN_METADATA_BUFFER_SIZE
    ensures multiset(kept) == multiset(history)
  {
    var rest := multiset(history) - multiset(kept);
    assert multiset(history) == multiset(kept) + rest;
    assert |multiset(history)| == |history| && |multiset(kept)| == |kept|;
    assert |rest| == 0;
  }

  /** Below the cap everything is kept. */
  lemma AddedBelowCap(kept: seq<ScanRow>, history: seq<ScanRow>, m: ScanRow, t: seq<ScanRow>)
    requires SlowestOf(kept, history) && |kept| < SCAN_METADATA_BUFFER_SIZE
    requires SortedPerm(SLOWER, t, multiset(kept + [m]))
    ensures SlowestOf(t, history + [m])
  {
    AllKept(kept, history);
    assert multiset(t) == multiset(history + [m]);
    assert |multiset(t)| == |t| && |multiset(history + [m])| == |history| + 1;
  }

  /** At the cap, a scan faster than the slowest-but-499 is ignored. */
  lemma AddedTooFast(kept: seq<ScanRow>, history: seq<ScanRow>, m: ScanRow)
    requires SlowestOf(kept, history) && |kept| == SCAN_METADATA_BUFFER_SIZE
    requires m.durationMs < kept[|kept| - 1].durationMs
    ensures SlowestOf(kept, history + [m])
  {
    var h := multiset(history + [m]);
    assert h == multiset(history) + multiset{m};
    forall d, k | d in h - multiset(kept) && k in kept ensures SLOWER(k, d) {
      var i :| 0 <= i < |kept| && kept[i] == k;
      assert i == |kept| - 1 || SLOWER(kept[i], kept[|kept| - 1]);
      if d != m { assert (multiset(history) - multiset(kept))[d] == (h - multiset(kept))[d]; }
    }
  }

  /** Otherwise the sorted 501 are cut to 500, and the one cut off is no slower than any kept. */
  lemma AddedAtCap(kept: seq<ScanRow>, history: seq<ScanRow>, m: ScanRow, t: seq<ScanRow>)
    requires SlowestOf(kept, history) && |kept| == SCAN_METADATA_BUFFER_SIZE
    requires m.durationMs >= kept[|kept| - 1].durationMs
    requires SortedPerm(SLOWER, t, multiset(kept + [m]))
    ensures |t| == SCAN_METADATA_BUFFER_SIZE + 1
    ensures SlowestOf(t[..SCAN_METADATA_BUFFER_SIZE], history + [m])
  {
    var n := SCAN_METADATA_BUFFER_SIZE;
    assert |multiset(t)| == |t| && |multiset(kept + [m])| == n + 1;
    var u, out := t[..n], t[n];
    assert t == u + [out];
    assert multiset(t) == multiset(u) + multiset{out} == multiset(kept) + multiset{m};
    var h := multiset(history + [m]);
    assert h == multiset(history) + multiset{m};
    forall x ensures multiset(u)[x] <= h[x] {
      assert multiset(u)[x] <= (multiset(kept) + multiset{m})[x];
    }
    forall d, k | d in h - multiset(u) && k in u ensures SLOWER(k, d) {
      var i :| 0 <= i < n && t[i] == k;
      assert SLOWER(k, out);
      if d != out { DroppedEarlier(kept, history, m, u, out, d); }
    }
  }

  /** What was dropped before is no slower than the one dropped now. */
  lemma DroppedEarlier(kept: seq<ScanRow>, history: seq<ScanRow>, m: ScanRow, u: seq<ScanRow>, out: ScanRow, d: ScanRow)
    requires SlowestOf(kept, history) && kept != []
    requires m.durationMs >= kept[|kept| - 1].durationMs
    requires multiset(u) + multiset{out} == multiset(kept) + multiset{m}
    requires d != out && d in multiset(history) + multiset{m} - multiset(u)
    ensures SLOWER(out, d)
  {
    var last := kept[|kept| - 1];
    assert last in kept;
    assert (multiset(u) + multiset{out})[d] == multiset(u)[d] == (multiset(kept) + multiset{m})[d];
    assert d in multiset(history) - multiset(kept);
    assert SLOWER(last, d);
    assert out in multiset(kept) + multiset{m};
    if out != m {
      assert out in multiset(kept) && out in kept;
      var i :| 0 <= i < |kept| && kept[i] == out;
      assert i == |kept| - 1 || SLOWER(kept[i], last);
    }
  }

  // ---------- any sequence of adds ----------

  /** One add: the list may be sorted in any of the orders its durations allow. */
  ghost predicate AddStep(list: seq<ScanRow>, m: ScanRow, next: seq<ScanRow>) {
    if |list| >= SCAN_METADATA_BUFFER_SIZE && m.durationMs < list[|list| - 1].durationMs then next == list
    else exists t :: SortedPerm(SLOWER, t, multiset(list + [m])) && next == Take(SCAN_METADATA_BUFFER_SIZE, t)
  }

  ghost predicate IsAddRun(lists: seq<seq<ScanRow>>, history: seq<ScanRow>) {
    && |lists| == |history| + 1 && lists[0] == []
    && forall i :: 0 <= i < |history| ==> AddStep(lists[i], history[i], lists[i + 1])
  }

  lemma AddStepKeepsSlowest(list: seq<ScanRow>, history: seq<ScanRow>, m: ScanRow, next: seq<ScanRow>)
    requires SlowestOf(list, history) && AddStep(list, m, next)
    ensures SlowestOf(next, history + [m])
  {
    if |list| >= SCAN_METADATA_BUFFER_SIZE && m.durationMs < list[|list| - 1].durationMs {
      AddedTooFast(list, history, m);
    } else {
      var t :| SortedPerm(SLOWER, t, multiset(list + [m])) && next == Take(SCAN_METADATA_BUFFER_SIZE, t);
      if |list| < SCAN_METADATA_BUFFER_SIZE {
        assert |multiset(t)| == |t| && |multiset(list + [m])| == |list| + 1;
        AddedBelowCap(list, history, m, t);
      } else {
        AddedAtCap(list, history, m, t);
      }
    }
  }

  lemma SlowestOfNothing()
    ensures SlowestOf([], [])
  {
  }

  lemma {:induction false} SlowestUpTo(lists: seq<seq<ScanRow>>, history: seq<ScanRow>, n: nat)
    requires IsAddRun(lists, history) && n <= |history|
    ensures SlowestOf(lists[n], history[..n])
  {
    hide SlowestOf, AddStep;
    if n == 0 {
      SlowestOfNothing();
      assert history[..0] == [];
    } else {
      SlowestUpTo(lists, history, n - 1);
      AddStepKeepsSlowest(lists[n - 1], history[..n - 1], history[n - 1], lists[n]);
      assert history[..n] == history[..n - 1] + [history[n - 1]];
    }
  }

  /** Whatever was added, and however ties were sorted, the list is the slowest 500 of it. */
  lemma RunKeepsSlowest(lists: seq<seq<ScanRow>>, history: seq<ScanRow>)
    requires IsAddRun(lists, history)
    ensures SlowestOf(lists[|history|], history)
  {
    SlowestUpTo(lists, history, |history|);
    assert history[..|history|] == history;
  }

  lemma {:induction false} Listed(m: multiset<ScanRow>) returns (s: seq<ScanRow>)
    ensures multiset(s) == m
    decreases |m|
  {
    if m == multiset{} {
      s := [];
    } else {
      var x :| x in m;
      s := Listed(m - multiset{x});
      s := s + [x];
    }
  }

  /** Kept while streaming, or cut from the whole history sorted afterwards: the same lists. */
  lemma SlowestIsTopOfSorted(kept: seq<ScanRow>, history: seq<ScanRow>)
    ensures SlowestOf(kept, history) <==>
      exists whole :: SortedPerm(SLOWER, whole, multiset(history)) && kept == Take(SCAN_METADATA_BUFFER_SIZE, whole)
  {
    if SlowestOf(kept, history) {
      var whole := WholeOf(kept, history);
    }
    if whole :| SortedPerm(SLOWER, whole, multiset(history)) && kept == Take(SCAN_METADATA_BUFFER_SIZE, whole) {
      TopIsSlowest(whole, history);
    }
  }

  lemma WholeOf(kept: seq<ScanRow>, history: seq<ScanRow>) returns (whole: seq<ScanRow>)
    requires SlowestOf(kept, history)
    ensures SortedPerm(SLOWER, whole, multiset(history)) && kept == Take(SCAN_METADATA_BUFFER_SIZE, whole)
  {
    var dropped := multiset(history) - multiset(kept);
    var rest := Listed(dropped);
    SlowerOrders();
    SortSorts(SLOWER, rest);
    var tail := Sort(SLOWER, rest);
    whole := kept + tail;
    assert multiset(whole) == multiset(kept) + dropped == multiset(history);
    assert |multiset(whole)| == |whole| && |multiset(history)| == |history|;
    forall i, j | 0 <= i < |kept| && 0 <= j < |tail| ensures SLOWER(kept[i], tail[j]) {
      assert tail[j] in multiset(tail) && kept[i] in kept;
    }
  }

  lemma TopIsSlowest(whole: seq<ScanRow>, history: seq<ScanRow>)
    requires SortedPerm(SLOWER, whole, multiset(history))
    ensures SlowestOf(Take(SCAN_METADATA_BUFFER_SIZE, whole), history)
  {
    var kept := Take(SCAN_METADATA_BUFFER_SIZE, whole);
    assert |multiset(whole)| == |whole| && |multiset(history)| == |history|;
    var tail := whole[|kept|..];
    assert whole == kept + tail;
    assert multiset(history) - multiset(kept) == multiset(tail);
    KeptAreSlower(whole, |kept|);
  }

  lemma KeptAreSlower(whole: seq<ScanRow>, n: nat)
    requires Sorted(SLOWER, whole) && n <= |whole|
    ensures forall d, k :: d in multiset(whole[n..]) && k in whole[..n] ==> SLOWER(k, d)
  {
    var kept, tail := whole[..n], whole[n..];
    forall d, k | d in multiset(tail) && k in kept ensures SLOWER(k, d) {
      var i :| 0 <= i < |kept| && kept[i] == k;
      var j :| 0 <= j < |tail| && tail[j] == d;
      assert whole[i] == k && whole[n + j] == d;
    }
  }

  // ---------- the store ----------

  function At(m: ByQuery, ts: QueryTime): seq<ScanRow> {
    if ts in m then m[ts] else []
  }

  /** Each list is the slowest 500 of what was added for its query from an offset on. */
  ghost predicate DetailOf(detail: ByQuery, added: ByQuery, from: Offsets) {
    && from.Keys == detail.Keys
    && forall ts :: ts in detail ==> from[ts] <= |At(added, ts)| && SlowestOf(detail[ts], At(added, ts)[from[ts]..])
  }

  /** Each summary is the fold of what was added for its query from an offset on. */
  ghost predicate SummaryOf(summary: Summaries, added: ByQuery, from: Offsets) {
    && from.Keys == summary.Keys
    && forall ts :: ts in summary ==> from[ts] <= |At(added, ts)| && summary[ts] == At(added, ts)[from[ts]..]
  }

  ghost predicate Single(s: set<QueryTime>) {
    forall a, b :: a in s && b in s ==> a == b
  }

  /** Where the rows of a query start to count: where they did, or now. */
  function Start(from: Offsets, added: ByQuery, ts: QueryTime): nat {
    if ts in from then from[ts] else |At(added, ts)|
  }

  lemma SummaryContinues(summary: Summaries, added: ByQuery, from: Offsets, stale: set<QueryTime>,
                         ts: QueryTime, rows: seq<ScanRow>)
    requires SummaryOf(summary, added, from) && ts !in stale
    ensures SummaryOf((summary - stale)[ts := At(summary, ts) + rows], added[ts := At(added, ts) + rows],
                      (from - stale)[ts := Start(from, added, ts)])
  {
    var start := Start(from, added, ts);
    assert (At(added, ts) + rows)[start..] == At(added, ts)[start..] + rows;
  }

  lemma AtMostOne(s: set<QueryTime>, ts: QueryTime)
    requires s <= {ts}
    ensures Single(s)
  {
  }

  lemma DetailSoFar(detail: ByQuery, added: ByQuery, from: Offsets, ts: QueryTime)
    requires DetailOf(detail, added, from)
    ensures Start(from, added, ts) <= |At(added, ts)|
    ensures SlowestOf(At(detail, ts), At(added, ts)[Start(from, added, ts)..])
  {
    if ts !in from { assert At(added, ts)[|At(added, ts)|..] == []; }
  }

  lemma DetailContinues(detail: ByQuery, added: ByQuery, from: Offsets, ts: QueryTime, rows: seq<ScanRow>)
    requires detail.Keys <= {ts} && from.Keys == detail.Keys
    requires ts in detail ==> from[ts] <= |At(added, ts)| && SlowestOf(detail[ts], At(added, ts)[from[ts]..] + rows)
    ensures DetailOf(detail, added[ts := At(added, ts) + rows], from)
  {
    hide SlowestOf;
    if ts in detail {
      assert (At(added, ts) + rows)[from[ts]..] == At(added, ts)[from[ts]..] + rows;
    }
  }

  lemma OneMore(before: seq<ScanRow>, rows: seq<ScanRow>, i: nat)
    requires i < |rows|
    ensures before + rows[..i + 1] == (before + rows[..i]) + [rows[i]]
  {
  }

  class QueryTimingMetadata {
    var scanMetadata: ByQuery
    var queryRowSummary: Summaries

    // every row ever added for a query, and how many there were when its detail and its summary
    // were last started afresh
    ghost var added: ByQuery
    ghost var detailFrom: Offsets
    ghost var summaryFrom: Offsets

    /** Detail is the slowest 500 of what was added since it was last cleared, the summary the fold of
        what was added since it was, and detail is kept for at most one query. */
    ghost predicate Valid()
      reads this
    {
      && DetailOf(scanMetadata, added, detailFrom)
      && SummaryOf(queryRowSummary, added, summaryFrom)
      && Single(scanMetadata.Keys)
    }

    constructor ()
      ensures Valid() && scanMetadata == map[] && queryRowSummary == map[] && added == map[]
    {
      scanMetadata, queryRowSummary, added, detailFrom, summaryFrom := map[], map[], map[], map[], map[];
    }

    /** addScanMetadata: whatever history the list was the slowest of, it is of the longer one. */
    method AddOne(ts: QueryTime, m: ScanRow, ghost history: seq<ScanRow>)
      requires SlowestOf(At(scanMetadata, ts), history)
      modifies this`scanMetadata
      ensures scanMetadata.Keys == old(scanMetadata.Keys) + {ts}
      ensures forall u :: u in old(scanMetadata) && u != ts ==> scanMetadata[u] == old(scanMetadata[u])
      ensures SlowestOf(scanMetadata[ts], history + [m])
      ensures AddStep(At(old(scanMetadata), ts), m, scanMetadata[ts])
    {
      var list := At(scanMetadata, ts);
      if |list| < SCAN_METADATA_BUFFER_SIZE {
        var sorted := SortSlice(list + [m]);
        scanMetadata := scanMetadata[ts := sorted];
        AddedBelowCap(list, history, m, sorted);
        return;
      }
      if m.durationMs < list[|list| - 1].durationMs {
        AddedTooFast(list, history, m);
        return;
      }
      var sorted := SortSlice(list + [m]);
      assert |multiset(sorted)| == |sorted| && |multiset(list + [m])| == |list| + 1;
      scanMetadata := scanMetadata[ts := sorted[..SCAN_METADATA_BUFFER_SIZE]];
      AddedAtCap(list, history, m, sorted);
    }

    /** removeStaleScanMetadata: the keys are visited in an order the runtime picks. */
    method RemoveStale(current: QueryTime)
      modifies this`scanMetadata, this`queryRowSummary
      ensures scanMetadata == old(scanMetadata) - (old(scanMetadata).Keys - {current})
      ensures queryRowSummary == old(queryRowSummary) - (old(scanMetadata).Keys - {current})
    {
      var remaining: set<QueryTime> := scanMetadata.Keys;
      ghost var detail, summary := scanMetadata, queryRowSummary;
      ghost var removed: set<QueryTime> := {};
      while remaining != {}
        invariant remaining <= detail.Keys
        invariant removed == detail.Keys - remaining - {current}
        invariant scanMetadata == detail - removed && queryRowSummary == summary - removed
      {
        var ts :| ts in remaining;
        remaining := remaining - {ts};
        if ts != current {
          removed := removed + {ts};
          scanMetadata := scanMetadata - {ts};
          queryRowSummary := queryRowSummary - {ts};
        }
      }
      assert removed == detail.Keys - {current};
    }

    /** The loop of AddScanMetadata: each row goes into the summary and into the detail. */
    method AddRows(ts: QueryTime, rows: seq<ScanRow>, before: Summary, ghost history: seq<ScanRow>)
      returns (summary: Summary)
      requires SlowestOf(At(scanMetadata, ts), history)
      requires scanMetadata.Keys <= {ts}
      modifies this`scanMetadata
      ensures summary == before + rows
      ensures SlowestOf(At(scanMetadata, ts), history + rows)
      ensures scanMetadata.Keys == if rows == [] then old(scanMetadata).Keys else {ts}
    {
      hide SlowestOf, AddStep;
      summary := before;
      var i := 0;
      assert history + rows[..0] == history;
      while i < |rows|
        invariant 0 <= i <= |rows|
        invariant summary == before + rows[..i]
        invariant SlowestOf(At(scanMetadata, ts), history + rows[..i])
        invariant scanMetadata.Keys == if i == 0 then old(scanMetadata).Keys else {ts}
      {
        OneMore(before, rows, i);
        OneMore(history, rows, i);
        summary := summary + [rows[i]];
        AddOne(ts, rows[i], history + rows[..i]);
        i := i + 1;
      }
      assert rows[..i] == rows;
    }

    /** AddScanMetadata, for the rows of one scan of a query. */
    method AddScanMetadata(ts: QueryTime, rows: seq<ScanRow>)
      requires Valid()
      modifies this
      ensures Valid()
      ensures added == old(added)[ts := At(old(added), ts) + rows]
      ensures queryRowSummary == SummaryAfter(old(scanMetadata).Keys, old(queryRowSummary), ts, rows)
      ensures scanMetadata.Keys == DetailAfter(old(scanMetadata).Keys, ts, rows)
      // neither is restarted while its query goes on
      ensures ts in scanMetadata ==> ts in detailFrom && detailFrom[ts] == Start(old(detailFrom), old(added), ts)
      ensures ts in summaryFrom && summaryFrom[ts] == Start(old(summaryFrom), old(added), ts)
    {
      hide SlowestOf, DetailOf, SummaryOf, Single, Start;
      ghost var detail, stale := scanMetadata, scanMetadata.Keys - {ts};
      ghost var from := Start(detailFrom, added, ts);
      DetailSoFar(scanMetadata, added, detailFrom, ts);
      SummaryContinues(queryRowSummary, added, summaryFrom, stale, ts, rows);
      var before := At(queryRowSummary, ts);
      ghost var next, kept := SummaryAfter(scanMetadata.Keys, queryRowSummary, ts, rows),
        DetailAfter(scanMetadata.Keys, ts, rows);
      assert next == (queryRowSummary - stale)[ts := before + rows];
      assert kept == if rows == [] then scanMetadata.Keys - stale else {ts};
      hide SummaryAfter, DetailAfter;
      RemoveStale(ts);
      assert At(scanMetadata, ts) == At(detail, ts);
      var summary := AddRows(ts, rows, before, At(added, ts)[from..]);
      queryRowSummary := queryRowSummary[ts := summary];
      summaryFrom := (summaryFrom - stale)[ts := Start(summaryFrom, added, ts)];
      detailFrom := map t | t in scanMetadata :: from;
      DetailContinues(scanMetadata, added, detailFrom, ts, rows);
      AtMostOne(scanMetadata.Keys, ts);
      added := added[ts := At(added, ts) + rows];
    }

    method ClearSummary()
      requires Valid()
      modifies this`queryRowSummary, this`summaryFrom
      ensures Valid() && queryRowSummary == map[]
    {
      queryRowSummary, summaryFrom := map[], map[];
    }

    method ClearScanMetadata()
      requires Valid()
      modifies this`scanMetadata, this`detailFrom
      ensures Valid() && scanMetadata == map[]
    {
      scanMetadata, detailFrom := map[], map[];
    }

    /** executeCommandScan on the summary table: None is an error, and then nothing is cleared. */
    method ReadSummary() returns (rows: Option<seq<Summary>>)
      requires Valid()
      modifies this`queryRowSummary, this`summaryFrom
      ensures Valid()
      ensures rows.None? <==> |old(queryRowSummary)| > 1
      ensures rows.None? ==> queryRowSummary == old(queryRowSummary)
      ensures rows.Some? ==> queryRowSummary == map[] && Lists(rows.value, old(queryRowSummary))
    {
      if |queryRowSummary| > 1 { return None; }
      var res: seq<Summary> := [];
      var remaining := queryRowSummary.Keys;
      assert |remaining| <= 1;
      if remaining != {} {
        var ts :| ts in remaining;
        OnlyKey(remaining, ts);
        res := res + [queryRowSummary[ts]];
      }
      ClearSummary();
      rows := Some(res);
    }

    /** On the scan table. */
    method ReadDetail() returns (rows: Option<seq<ScanRow>>)
      requires Valid()
      modifies this`scanMetadata, this`detailFrom
      ensures Valid() && scanMetadata == map[]
      ensures rows.Some?
      ensures rows.value == [] || exists ts :: ts in old(scanMetadata) && rows.value == old(scanMetadata)[ts]
      ensures forall ts :: ts in old(scanMetadata) ==> rows.value == old(scanMetadata)[ts]
    {
      SingleCount(scanMetadata.Keys);
      if |scanMetadata.Keys| > 1 { return None; }
      var res: seq<ScanRow> := [];
      var remaining := scanMetadata.Keys;
      if remaining != {} {
        var ts :| ts in remaining;
        OnlyKey(remaining, ts);
        res := res + scanMetadata[ts];
      }
      ClearScanMetadata();
      rows := Some(res);
    }
  }

  /** One row for the only entry, if any. */
  ghost predicate Lists(rows: seq<Summary>, summaries: Summaries) {
    && |rows| == |summaries|
    && forall ts :: ts in summaries ==> rows == [summaries[ts]]
  }

  lemma OnlyKey(s: set<QueryTime>, ts: QueryTime)
    requires ts in s && |s| <= 1
    ensures s == {ts}
  {
    assert |s - {ts}| == 0;
  }

  lemma SingleCount(s: set<QueryTime>)
    ensures Single(s) <==> |s| <= 1
  {
    if s != {} {
      var ts :| ts in s;
      if Single(s) {
        assert s == {ts};
      }
      if |s| <= 1 { OnlyKey(s, ts); }
    }
  }

  // ---------- how many queries are kept ----------

  function SummaryAfter(detail: set<QueryTime>, summary: Summaries, ts: QueryTime, rows: seq<ScanRow>): Summaries {
    (summary - (detail - {ts}))[ts := At(summary, ts) + rows]
  }

  function DetailAfter(detail: set<QueryTime>, ts: QueryTime, rows: seq<ScanRow>): set<QueryTime> {
    if rows == [] then detail * {ts} else {ts}
  }

  /** Adding leaves a single summary exactly when every summary before was for this query or for one
      whose detail is still there: only those are cleaned up. */
  lemma SingleSummaryExactlyWhen(detail: set<QueryTime>, summary: Summaries, ts: QueryTime, rows: seq<ScanRow>)
    ensures SummaryAfter(detail, summary, ts, rows).Keys == {ts} <==> summary.Keys <= detail + {ts}
  {
    var after := SummaryAfter(detail, summary, ts, rows);
    assert after.Keys == (summary.Keys - (detail - {ts})) + {ts};
    if after.Keys == {ts} {
      forall u | u in summary.Keys ensures u in detail + {ts} { assert u in after.Keys || u in detail; }
    }
  }

  datatype Op = Add(ts: QueryTime, rows: seq<ScanRow>) | ReadSummary | ReadDetail

  /** Which queries have detail, and the summaries. */
  datatype Kept = Kept(detail: set<QueryTime>, summary: Summaries)

  /** Selecting from a command table reads and clears it, unless it is refused. */
  function After(k: Kept, op: Op): Kept {
    match op
    case Add(ts, rows) => Kept(DetailAfter(k.detail, ts, rows), SummaryAfter(k.detail, k.summary, ts, rows))
    case ReadSummary => if |k.summary| > 1 then k else k.(summary := map[])
    case ReadDetail => if |k.detail| > 1 then k else k.(detail := {})
  }

  function AfterAll(k: Kept, ops: seq<Op>): Kept
    decreases |ops|
  {
    if ops == [] then k else AfterAll(After(k, ops[0]), ops[1..])
  }

  /** Detail is never kept for two queries. The summary is not either, over any run of adds of at least
      one row and reads of the summary; reading the detail is what can break it. */
  lemma {:induction false} SingleQueryKept(k: Kept, ops: seq<Op>)
    requires Single(k.detail)
    ensures Single(AfterAll(k, ops).detail)
    ensures k.summary.Keys <= k.detail
         && (forall i :: 0 <= i < |ops| ==> ops[i] != ReadDetail && (ops[i].Add? ==> ops[i].rows != []))
      ==> Single(AfterAll(k, ops).summary.Keys)
    decreases |ops|
  {
    if ops != [] {
      var after := After(k, ops[0]);
      if ops[0].Add? { SingleSummaryExactlyWhen(k.detail, k.summary, ops[0].ts, ops[0].rows); }
      SingleQueryKept(after, ops[1..]);
    }
  }

  const NOTHING_KEPT := Kept({}, map[])

  /** The last add was for this query, and the summary has not been read since. */
  predicate Summed(ops: seq<Op>, t: QueryTime) {
    ops != [] && var before := ops[..|ops| - 1];
    match ops[|ops| - 1]
    case Add(ts, _) => ts == t
    case ReadSummary => false
    case ReadDetail => Summed(before, t)
  }

  /** A scan of this query had rows, and neither has the detail been read since nor another query added. */
  predicate Detailed(ops: seq<Op>, t: QueryTime) {
    ops != [] && var before := ops[..|ops| - 1];
    match ops[|ops| - 1]
    case Add(ts, rows) => ts == t && (rows != [] || Detailed(before, t))
    case ReadSummary => Detailed(before, t)
    case ReadDetail => false
  }

  lemma {:induction false} AfterLast(k: Kept, ops: seq<Op>, op: Op)
    ensures AfterAll(k, ops + [op]) == After(AfterAll(k, ops), op)
    decreases |ops|
  {
    if ops == [] {
      assert ops + [op] == [op] && [op][1..] == [];
    } else {
      AfterLast(After(k, ops[0]), ops[1..], op);
      assert (ops + [op])[1..] == ops[1..] + [op];
    }
  }

  /** What is kept, as long as no two summaries were. */
  ghost predicate KeptAsSaid(ops: seq<Op>) {
    var k := AfterAll(NOTHING_KEPT, ops);
    && Single(k.detail) && (forall t :: t in k.detail <==> Detailed(ops, t))
    && Single(k.summary.Keys) && (forall t :: t in k.summary.Keys <==> Summed(ops, t))
  }

  /** Nothing is orphaned by adding this query. */
  ghost predicate NoOrphan(ops: seq<Op>, op: Op) {
    op.Add? ==> forall t :: Summed(ops, t) && t != op.ts ==> Detailed(ops, t)
  }

  lemma KeptAfterAdd(ops: seq<Op>, k: Kept, ts: QueryTime, rows: seq<ScanRow>)
    requires KeptAsSaid(ops) && k == AfterAll(NOTHING_KEPT, ops)
    ensures Single(After(k, Add(ts, rows)).summary.Keys) <==> NoOrphan(ops, Add(ts, rows))
    ensures NoOrphan(ops, Add(ts, rows)) ==> After(k, Add(ts, rows)).summary.Keys == {ts}
  {
    SingleSummaryExactlyWhen(k.detail, k.summary, ts, rows);
    var keys := After(k, Add(ts, rows)).summary.Keys;
    assert ts in keys;
    if Single(keys) { assert keys == {ts}; }
    hide Detailed, Summed, AfterAll, SummaryAfter, Single;
    assert NoOrphan(ops, Add(ts, rows)) <==> k.summary.Keys <= k.detail + {ts};
  }

  lemma KeptAfterRead(k: Kept, op: Op)
    requires Single(k.detail) && Single(k.summary.Keys) && !op.Add?
    ensures var after := After(k, op);
      && after.detail == (if op.ReadDetail? then {} else k.detail)
      && after.summary == (if op.ReadSummary? then map[] else k.summary)
  {
    SingleCount(k.detail);
    SingleCount(k.summary.Keys);
    assert |k.summary| == |k.summary.Keys|;
  }

  lemma SaidAfter(ops: seq<Op>, op: Op, t: QueryTime)
    ensures Summed(ops + [op], t) <==> if op.Add? then op.ts == t else op.ReadDetail? && Summed(ops, t)
    ensures Detailed(ops + [op], t) <==>
      if op.Add? then op.ts == t && (op.rows != [] || Detailed(ops, t)) else op.ReadSummary? && Detailed(ops, t)
  {
    assert (ops + [op])[..|ops|] == ops;
  }

  lemma SaidOfAdd(ops: seq<Op>, k: Kept, ts: QueryTime, rows: seq<ScanRow>, after: Kept)
    requires KeptAsSaid(ops) && k == AfterAll(NOTHING_KEPT, ops)
    requires after == AfterAll(NOTHING_KEPT, ops + [Add(ts, rows)])
    requires after.detail == DetailAfter(k.detail, ts, rows) && after.summary.Keys == {ts}
    ensures KeptAsSaid(ops + [Add(ts, rows)])
  {
    hide AfterAll, Summed, Detailed;
    forall t
      ensures t in after.detail <==> Detailed(ops + [Add(ts, rows)], t)
      ensures t in after.summary.Keys <==> Summed(ops + [Add(ts, rows)], t)
    {
      SaidAfter(ops, Add(ts, rows), t);
    }
  }

  lemma SaidOfRead(ops: seq<Op>, k: Kept, op: Op, after: Kept)
    requires KeptAsSaid(ops) && k == AfterAll(NOTHING_KEPT, ops) && after == AfterAll(NOTHING_KEPT, ops + [op]) &&
      !op.Add?
    requires after.detail == (if op.ReadDetail? then {} else k.detail)
    requires after.summary == (if op.ReadSummary? then map[] else k.summary)
    ensures KeptAsSaid(ops + [op])
  {
    hide AfterAll, Summed, Detailed;
    forall t
      ensures t in after.detail <==> Detailed(ops + [op], t)
      ensures t in after.summary.Keys <==> Summed(ops + [op], t)
    {
      SaidAfter(ops, op, t);
    }
  }

  lemma KeptAfter(ops: seq<Op>, op: Op)
    requires KeptAsSaid(ops)
    ensures Single(AfterAll(NOTHING_KEPT, ops + [op]).summary.Keys) <==> NoOrphan(ops, op)
    ensures NoOrphan(ops, op) ==> KeptAsSaid(ops + [op])
  {
    hide AfterAll, Summed, Detailed, SummaryAfter, DetailAfter;
    var k := AfterAll(NOTHING_KEPT, ops);
    AfterLast(NOTHING_KEPT, ops, op);
    if op.Add? {
      KeptAfterAdd(ops, k, op.ts, op.rows);
      if NoOrphan(ops, op) { SaidOfAdd(ops, k, op.ts, op.rows, After(k, op)); }
    } else {
      KeptAfterRead(k, op);
      SaidOfRead(ops, k, op, After(k, op));
    }
  }

  /** After p operations there is at most one summary. */
  ghost predicate SingleAt(ops: seq<Op>, p: nat)
    requires p <= |ops|
  {
    Single(AfterAll(NOTHING_KEPT, ops[..p]).summary.Keys)
  }

  /** The next operation orphans none. */
  ghost predicate QuietAt(ops: seq<Op>, p: nat)
    requires p < |ops|
  {
    NoOrphan(ops[..p], ops[p])
  }

  lemma NextAt(ops: seq<Op>, n: nat)
    requires n < |ops| && KeptAsSaid(ops[..n])
    ensures SingleAt(ops, n + 1) <==> QuietAt(ops, n)
    ensures QuietAt(ops, n) ==> KeptAsSaid(ops[..n + 1])
  {
    assert ops[..n + 1] == ops[..n] + [ops[n]];
    hide AfterAll, NoOrphan, KeptAsSaid, Single;
    KeptAfter(ops[..n], ops[n]);
  }

  lemma {:induction false} SingleUpTo(ops: seq<Op>, n: nat)
    requires n <= |ops|
    ensures (forall p :: 0 <= p <= n ==> SingleAt(ops, p)) <==> (forall p :: 0 <= p < n ==> QuietAt(ops, p))
    ensures (forall p :: 0 <= p < n ==> QuietAt(ops, p)) ==> KeptAsSaid(ops[..n])
  {
    if n == 0 {
      assert ops[..0] == [];
    } else {
      hide SingleAt, QuietAt, KeptAsSaid;
      SingleUpTo(ops, n - 1);
      if forall p :: 0 <= p < n - 1 ==> QuietAt(ops, p) { NextAt(ops, n - 1); }
    }
  }

  /** Over any run, the summary is never kept for two queries exactly when no query is added while the summary of
      another stands whose detail is gone: read, or never there for want of rows. */
  lemma SingleExactlyWhen(ops: seq<Op>)
    ensures (forall p :: 0 <= p <= |ops| ==> SingleAt(ops, p)) <==> (forall p :: 0 <= p < |ops| ==> QuietAt(ops, p))
  {
    hide SingleAt, QuietAt;
    SingleUpTo(ops, |ops|);
  }

  /** One query, its detail read, then another: two summaries, and the summary table refuses to be read. */
  lemma ReadingDetailOrphansSummary(t: QueryTime, u: QueryTime, r: ScanRow)
    requires t != u
    ensures AfterAll(Kept({}, map[]), [Add(t, [r]), ReadDetail, Add(u, [r])]).summary.Keys == {t, u}
  {
    var a := After(Kept({}, map[]), Add(t, [r]));
    var b := After(a, ReadDetail);
    var c := After(b, Add(u, [r]));
    assert [Add(t, [r]), ReadDetail, Add(u, [r])][1..] == [ReadDetail, Add(u, [r])];
    assert [ReadDetail, Add(u, [r])][1..] == [Add(u, [r])] && [Add(u, [r])][1..] == [];
    assert AfterAll(b, [Add(u, [r])]) == c;
    assert a.summary.Keys == {t} && c.summary.Keys == {t, u};
  }

  lemma TwoKeys(s: set<QueryTime>, t: QueryTime, u: QueryTime)
    requires t in s && u in s && t != u
    ensures |s| > 1
  {
    assert s == {t, u} + (s - {t, u});
  }

  /** And from then on it is always refused: what keeps it from being read keeps it from being cleared. */
  lemma {:induction false} RefusedForever(k: Kept, ops: seq<Op>, orphan: QueryTime)
    requires orphan in k.summary && orphan !in k.detail && |k.summary| > 1
    requires forall i :: 0 <= i < |ops| && ops[i].Add? ==> ops[i].ts != orphan
    ensures orphan in AfterAll(k, ops).summary && |AfterAll(k, ops).summary| > 1
    decreases |ops|
  {
    if ops != [] {
      var after := After(k, ops[0]);
      if ops[0].Add? {
        assert orphan in after.summary.Keys && ops[0].ts in after.summary.Keys;
        TwoKeys(after.summary.Keys, ops[0].ts, orphan);
      }
      RefusedForever(after, ops[1..], orphan);
    }
  }
}
