/** Pushdown as a query transformation: the plugin filters, sorts and truncates, Postgres rechecks,
    sorts again and applies OFFSET and LIMIT, and the answer is one the whole table could give. */
module Pushdown {
  import opened Wrappers
  import opened Sql
  import opened Quals
  import opened QualMeaning
  import opened Ordering
  import opened LimitPushdown

  type RowOrder = (Row, Row) -> bool

  // ---------- the parties ----------

  /** The rows LIMIT and OFFSET let through. */
  function Window(s: seq<Row>, offset: nat, limit: Option<nat>): seq<Row> {
    var d := if offset <= |s| then s[offset..] else [];
    match limit case None => d case Some(n) => Take(n, d)
  }

  /** Row i of the window is row offset + i, as long as there is one and LIMIT is not reached. */
  lemma WindowRow(s: seq<Row>, offset: nat, limit: Option<nat>, i: nat)
    ensures i < |Window(s, offset, limit)| <==> offset + i < |s| && (limit.Some? ==> i < limit.value)
    ensures i < |Window(s, offset, limit)| ==> Window(s, offset, limit)[i] == s[offset + i]
  {
  }

  /** What the table alone answers: one of the orders ORDER BY allows, cut to the window. */
  ghost predicate Answer(pass: Row -> bool, le: RowOrder, rows: seq<Row>, offset: nat, limit: Option<nat>,
                         result: seq<Row>) {
    exists whole :: SortedPerm(le, whole, multiset(Filter(pass, rows))) && result == Window(whole, offset, limit)
  }

  /** Rows a plugin may keep: all that satisfy the quals, none that fails a supported qual. */
  ghost predicate MayKeep(w: World, quals: seq<Qual>, supported: Qual -> bool, rows: seq<Row>, keep: Row -> bool) {
    && (forall r :: r in rows && SatAll(w, quals, r) ==> keep(r))
    && (forall r, q :: r in rows && keep(r) && q in quals && supported(q) ==> Sat(w, q, r))
  }

  /** A plugin filters by the quals its key columns support, and maybe by others, sorts, truncates. What it
      makes of a negative limit other than -1 is left open. */
  ghost predicate PluginReturns(w: World, quals: seq<Qual>, supported: Qual -> bool, order: RowOrder, limit: int,
                                rows: seq<Row>, keep: Row -> bool, all: seq<Row>, out: seq<Row>) {
    && MayKeep(w, quals, supported, rows, keep)
    && SortedPerm(order, all, multiset(Filter(keep, rows)))
    && out <= all
    && (limit == NO_LIMIT ==> out == all)
    && (limit >= 0 ==> out == Take(limit, all))
  }

  /** Rows of one connection arrive in order; those of several interleave. */
  ghost predicate Arrives(outs: seq<seq<Row>>, arrived: seq<Row>) {
    && multiset(arrived) == multiset(Concat(outs))
    && (|outs| == 1 ==> arrived == outs[0])
  }

  /** How far Postgres trusts the order of arrival: it sorts; it sorts on top of an order it presumes, which
      may come out unsorted if the presumption is wrong; or it takes the rows as they come. */
  datatype Trust = Sorts | Presumes(order: RowOrder) | AsIs

  /** Postgres rechecks every clause, then sorts as far as it must. */
  ghost predicate PostgresReturns(pass: Row -> bool, le: RowOrder, trust: Trust, arrived: seq<Row>, s: seq<Row>,
                                  offset: nat, limit: Option<nat>, result: seq<Row>) {
    var kept := Filter(pass, arrived);
    && multiset(s) == multiset(kept)
    && (trust.Sorts? ==> Sorted(le, s))
    && (trust.Presumes? && Sorted(trust.order, kept) ==> Sorted(le, s))
    && (trust.AsIs? ==> s == kept)
    && result == Window(s, offset, limit)
  }

  /** The order Postgres takes the rows to arrive in. */
  ghost function Presumed(trust: Trust, le: RowOrder): RowOrder {
    match trust case Sorts => ((x, y) => true) case Presumes(order) => order case AsIs => le
  }

  /** The plugin's order bears the trust out: over one connection, unless there is no order to keep. */
  ghost predicate TrustHolds(trust: Trust, order: RowOrder, le: RowOrder, pass: Row -> bool, tables: seq<seq<Row>>) {
    || trust.Sorts? || Trivial(Presumed(trust, le))
    || (|tables| == 1 && Refines(order, Presumed(trust, le), pass, Concat(tables)))
  }

  ghost predicate Trivial(le: RowOrder) {
    forall x, y :: le(x, y)
  }

  /** One execution over the tables of the connections of a scan. */
  datatype Run = Run(
    keeps: seq<Row -> bool>, alls: seq<seq<Row>>, outs: seq<seq<Row>>, arrived: seq<Row>, sorted: seq<Row>,
    result: seq<Row>)

  /** Each connection's plugin ran over its own table. */
  ghost predicate PluginsRun(w: World, quals: seq<Qual>, supported: Qual -> bool, order: RowOrder, pushed: int,
                             tables: seq<seq<Row>>, keeps: seq<Row -> bool>, alls: seq<seq<Row>>, outs: seq<seq<Row>>)
    decreases |tables|
  {
    && |keeps| == |alls| == |outs| == |tables|
    && (tables != [] ==>
         && PluginReturns(w, quals, supported, order, pushed, tables[0], keeps[0], alls[0], outs[0])
         && PluginsRun(w, quals, supported, order, pushed, tables[1..], keeps[1..], alls[1..], outs[1..]))
  }

  ghost predicate IsRun(w: World, quals: seq<Qual>, supported: Qual -> bool, order: RowOrder, pushed: int,
                        pass: Row -> bool,
                        le: RowOrder, trust: Trust, offset: nat, limit: Option<nat>, tables: seq<seq<Row>>, run: Run) {
    && PluginsRun(w, quals, supported, order, pushed, tables, run.keeps, run.alls, run.outs)
    && Arrives(run.outs, run.arrived)
    && PostgresReturns(pass, le, trust, run.arrived, run.sorted, offset, limit, run.result)
  }

  /** On the rows that pass, the one order implies the other. */
  ghost predicate Refines(order: RowOrder, le: RowOrder, pass: Row -> bool, rows: seq<Row>) {
    forall x, y :: x in rows && y in rows && pass(x) && pass(y) && order(x, y) ==> le(x, y)
  }

  // ---------- rows of the parts and of the whole ----------

  lemma KeptRows(pass: Row -> bool, keep: Row -> bool, rows: seq<Row>, all: seq<Row>)
    requires multiset(all) == multiset(Filter(keep, rows))
    requires forall r :: r in rows && pass(r) ==> keep(r)
    ensures multiset(Filter(pass, all)) == multiset(Filter(pass, rows))
    ensures forall r :: r in all <==> r in rows && keep(r)
  {
    FilterOfPerm(pass, all, Filter(keep, rows));
    FilterAgain(pass, keep, rows);
    FilterMembers(keep, rows);
    forall r ensures r in all <==> r in rows && keep(r) {
      assert r in all <==> r in multiset(all);
    }
  }

  lemma {:induction false} FilterSorted<T(!new)>(le: (T, T) -> bool, p: T -> bool, s: seq<T>)
    requires Sorted(le, s)
    ensures Sorted(le, Filter(p, s))
  {
    if s != [] {
      FilterSorted(le, p, s[1..]);
      FilterMembers(p, s[1..]);
      var rest := Filter(p, s[1..]);
      forall j | 0 <= j < |rest| ensures le(s[0], rest[j]) {
        assert rest[j] in s[1..];
        var k :| 0 <= k < |s[1..]| && s[1..][k] == rest[j];
        assert s[k + 1] == rest[j];
      }
    }
  }

  lemma RefinedOrderSorts(order: RowOrder, le: RowOrder, pass: Row -> bool, rows: seq<Row>, s: seq<Row>)
    requires Refines(order, le, pass, rows) && Sorted(order, s) && forall r :: r in s ==> r in rows && pass(r)
    ensures Sorted(le, s)
  {
  }

  // ---------- nothing pushed ----------

  lemma {:induction false} UnlimitedParts(
    w: World, quals: seq<Qual>, supported: Qual -> bool, order: RowOrder, pushed: int, pass: Row -> bool,
    tables: seq<seq<Row>>, keeps: seq<Row -> bool>, alls: seq<seq<Row>>, outs: seq<seq<Row>>)
    requires PluginsRun(w, quals, supported, order, pushed, tables, keeps, alls, outs)
    requires forall r :: r in Concat(tables) && pass(r) ==> SatAll(w, quals, r)
    requires pushed == NO_LIMIT
    ensures multiset(Filter(pass, Concat(outs))) == multiset(Filter(pass, Concat(tables)))
    decreases |tables|
  {
    if tables != [] {
      KeptRows(pass, keeps[0], tables[0], alls[0]);
      UnlimitedParts(w, quals, supported, order, pushed, pass, tables[1..], keeps[1..], alls[1..], outs[1..]);
      FilterConcat(pass, outs[0], Concat(outs[1..]));
      FilterConcat(pass, tables[0], Concat(tables[1..]));
    }
  }

  /** Without a limit the scan brings every row that passes, whatever the plugin filters and sorts. */
  lemma CompleteScan(w: World, quals: seq<Qual>, supported: Qual -> bool, order: RowOrder, pushed: int,
                     pass: Row -> bool,
                     le: RowOrder, trust: Trust, offset: nat, limit: Option<nat>, tables: seq<seq<Row>>, run: Run)
    requires IsRun(w, quals, supported, order, pushed, pass, le, trust, offset, limit, tables, run)
    requires forall r :: r in Concat(tables) && pass(r) ==> SatAll(w, quals, r)
    requires pushed == NO_LIMIT
    ensures multiset(Filter(pass, run.arrived)) == multiset(Filter(pass, Concat(tables)))
  {
    UnlimitedParts(w, quals, supported, order, pushed, pass, tables, run.keeps, run.alls, run.outs);
    FilterOfPerm(pass, run.arrived, Concat(run.outs));
  }

  lemma UnpushedAnswer(w: World, quals: seq<Qual>, supported: Qual -> bool, order: RowOrder, pushed: int,
                       pass: Row -> bool,
                       le: RowOrder, trust: Trust, offset: nat, limit: Option<nat>, tables: seq<seq<Row>>, run: Run)
    requires IsRun(w, quals, supported, order, pushed, pass, le, trust, offset, limit, tables, run)
    requires forall r :: r in Concat(tables) && pass(r) ==> SatAll(w, quals, r)
    requires TrustHolds(trust, order, le, pass, tables)
    requires pushed == NO_LIMIT
    ensures Answer(pass, le, Concat(tables), offset, limit, run.result)
  {
    CompleteScan(w, quals, supported, order, pushed, pass, le, trust, offset, limit, tables, run);
    RunSorted(w, quals, supported, order, pushed, pass, le, trust, offset, limit, tables, run);
    assert SortedPerm(le, run.sorted, multiset(Filter(pass, Concat(tables))));
  }

  /** Where the trust holds, what LIMIT and OFFSET are applied to is sorted. */
  lemma RunSorted(w: World, quals: seq<Qual>, supported: Qual -> bool, order: RowOrder, pushed: int, pass: Row -> bool,
                  le: RowOrder, trust: Trust, offset: nat, limit: Option<nat>, tables: seq<seq<Row>>, run: Run)
    requires IsRun(w, quals, supported, order, pushed, pass, le, trust, offset, limit, tables, run)
    requires TrustHolds(trust, order, le, pass, tables)
    ensures Sorted(le, run.sorted)
  {
    var presumed := Presumed(trust, le);
    if !trust.Sorts? && !Trivial(presumed) {
      ArrivesSorted(w, quals, supported, order, pushed, pass, tables, run.keeps[0], run.alls[0], run.outs[0]);
      RefinedOrderSorts(order, presumed, pass, Concat(tables), Filter(pass, run.arrived));
    }
  }

  /** What passes of the rows of one connection is still in the plugin's order. */
  lemma ArrivesSorted(w: World, quals: seq<Qual>, supported: Qual -> bool, order: RowOrder, pushed: int,
                      pass: Row -> bool, tables: seq<seq<Row>>, keep: Row -> bool, all: seq<Row>, out: seq<Row>)
    requires |tables| == 1 && PluginReturns(w, quals, supported, order, pushed, tables[0], keep, all, out)
    ensures Sorted(order, Filter(pass, out))
    ensures forall r :: r in Filter(pass, out) ==> r in Concat(tables) && pass(r)
  {
    KeptInOneTable(w, quals, supported, order, pushed, tables, keep, all, out);
    FilterSorted(order, pass, out);
    FilterMembers(pass, out);
  }

  lemma KeptInOneTable(w: World, quals: seq<Qual>, supported: Qual -> bool, order: RowOrder, pushed: int,
                       tables: seq<seq<Row>>, keep: Row -> bool, all: seq<Row>, out: seq<Row>)
    requires |tables| == 1 && PluginReturns(w, quals, supported, order, pushed, tables[0], keep, all, out)
    ensures forall r :: r in all ==> r in Concat(tables)
    ensures Sorted(order, out) && forall r :: r in out ==> r in Concat(tables)
  {
    FilterMembers(keep, tables[0]);
    forall r | r in all ensures r in Concat(tables) {
      assert r in multiset(all);
    }
  }

  // ---------- a limit pushed ----------

  ghost predicate SatSupported(w: World, quals: seq<Qual>, supported: Qual -> bool, row: Row) {
    forall q :: q in quals && supported(q) ==> Sat(w, q, row)
  }

  /** A row the supported quals let through and the recheck does not sorts after every row that passes. */
  ghost predicate FailingLast(w: World, quals: seq<Qual>, supported: Qual -> bool, order: RowOrder, pass: Row -> bool,
                              rows: seq<Row>) {
    forall b, g :: b in rows && g in rows && SatSupported(w, quals, supported, b) && !pass(b) && pass(g) ==>
      !order(b, g)
  }

  lemma {:induction false} FilterNone<T>(p: T -> bool, s: seq<T>)
    requires forall x :: x in s ==> !p(x)
    ensures Filter(p, s) == []
  {
    if s != [] { FilterNone(p, s[1..]); }
  }

  /** With the passing rows first, cutting and then filtering is filtering and then cutting. */
  lemma {:induction false} CutThenFilter<T>(p: T -> bool, s: seq<T>, n: nat)
    requires forall i, j :: 0 <= i < j < |s| && !p(s[i]) ==> !p(s[j])
    ensures Filter(p, Take(n, s)) == Take(n, Filter(p, s))
  {
    if s != [] && n > 0 {
      if p(s[0]) {
        CutThenFilter(p, s[1..], n - 1);
        assert Take(n, s) == [s[0]] + Take(n - 1, s[1..]);
      } else {
        FilterNone(p, s);
        FilterNone(p, Take(n, s));
      }
    }
  }

  /** So what passes of the rows one connection sends is the first part of what passes of its table, sorted. */
  lemma PartCut(w: World, quals: seq<Qual>, supported: Qual -> bool, order: RowOrder, pushed: nat, pass: Row -> bool,
                le: RowOrder, rows: seq<Row>, keep: Row -> bool, all: seq<Row>, out: seq<Row>)
    requires PluginReturns(w, quals, supported, order, pushed, rows, keep, all, out)
    requires forall r :: r in rows && pass(r) ==> SatAll(w, quals, r)
    requires FailingLast(w, quals, supported, order, pass, rows) && Refines(order, le, pass, rows)
    ensures Sorted(le, Filter(pass, all)) && multiset(Filter(pass, all)) == multiset(Filter(pass, rows))
    ensures Filter(pass, out) == Take(pushed, Filter(pass, all))
  {
    KeptRows(pass, keep, rows, all);
    FilterSorted(order, pass, all);
    FilterMembers(pass, all);
    RefinedOrderSorts(order, le, pass, rows, Filter(pass, all));
    forall i, j | 0 <= i < j < |all| && !pass(all[i]) ensures !pass(all[j]) {
      assert all[i] in rows && all[j] in rows && order(all[i], all[j]);
      assert SatSupported(w, quals, supported, all[i]);
    }
    CutThenFilter(pass, all, pushed);
  }

  function FilterEach(pass: Row -> bool, parts: seq<seq<Row>>): seq<seq<Row>> {
    if parts == [] then [] else [Filter(pass, parts[0])] + FilterEach(pass, parts[1..])
  }

  ghost predicate AllSorted(le: RowOrder, parts: seq<seq<Row>>) {
    parts == [] || (Sorted(le, parts[0]) && AllSorted(le, parts[1..]))
  }

  lemma {:induction false} SortedPart(le: RowOrder, parts: seq<seq<Row>>, i: nat)
    requires AllSorted(le, parts) && i < |parts|
    ensures Sorted(le, parts[i])
  {
    if i > 0 { SortedPart(le, parts[1..], i - 1); }
  }

  lemma RowsOfParts(tables: seq<seq<Row>>)
    requires tables != []
    ensures forall r :: r in Concat(tables) <==> r in tables[0] || r in Concat(tables[1..])
  {
  }

  lemma {:induction false} CutParts(
    w: World, quals: seq<Qual>, supported: Qual -> bool, order: RowOrder, pushed: nat, pass: Row -> bool,
    le: RowOrder, tables: seq<seq<Row>>, keeps: seq<Row -> bool>, alls: seq<seq<Row>>, outs: seq<seq<Row>>)
    requires PluginsRun(w, quals, supported, order, pushed, tables, keeps, alls, outs)
    requires forall r :: r in Concat(tables) && pass(r) ==> SatAll(w, quals, r)
    requires FailingLast(w, quals, supported, order, pass, Concat(tables)) && Refines(order, le, pass, Concat(tables))
    ensures AllSorted(le, FilterEach(pass, alls))
    ensures multiset(Concat(FilterEach(pass, alls))) == multiset(Filter(pass, Concat(tables)))
    ensures Filter(pass, Concat(outs)) == Concat(TakeEach(pushed, FilterEach(pass, alls)))
    decreases |tables|
  {
    if tables != [] {
      RowsOfParts(tables);
      assert FailingLast(w, quals, supported, order, pass, tables[0]) && Refines(order, le, pass, tables[0]);
      assert FailingLast(w, quals, supported, order, pass, Concat(tables[1..])) &&
        Refines(order, le, pass, Concat(tables[1..]));
      hide PluginReturns, SatSupported, SatAll, FailingLast, Refines, Sorted;
      PartCut(w, quals, supported, order, pushed, pass, le, tables[0], keeps[0], alls[0], outs[0]);
      CutParts(w, quals, supported, order, pushed, pass, le, tables[1..], keeps[1..], alls[1..], outs[1..]);
      FilterConcat(pass, tables[0], Concat(tables[1..]));
      FilterConcat(pass, outs[0], Concat(outs[1..]));
      assert TakeEach(pushed, FilterEach(pass, alls))[1..] == TakeEach(pushed, FilterEach(pass, alls[1..]));
    }
  }

  lemma WindowOfTake(s: seq<Row>, n: nat, offset: nat, limit: nat)
    requires offset + limit <= n
    ensures Window(s, offset, Some(limit)) == Window(Take(n, s), offset, Some(limit))
  {
    if n < |s| {
      assert s[..n][offset..] == s[offset..n];
      assert s[offset..][..limit] == s[offset..offset + limit];
      if limit < n - offset { assert s[offset..n][..limit] == s[offset..offset + limit]; }
    }
  }

  lemma SameWindow(a: seq<Row>, b: seq<Row>, n: nat, offset: nat, limit: nat)
    requires Take(n, a) == Take(n, b) && offset + limit <= n
    ensures Window(a, offset, Some(limit)) == Window(b, offset, Some(limit))
  {
    WindowOfTake(a, n, offset, limit);
    WindowOfTake(b, n, offset, limit);
  }

  /** A pushed limit that covers the window gives an answer of the whole, over any number of
      connections: the first rows of the union are among the first rows of each. */
  lemma PushedAnswer(w: World, quals: seq<Qual>, supported: Qual -> bool, order: RowOrder, pushed: int,
                     pass: Row -> bool,
                     le: RowOrder, trust: Trust, offset: nat, limit: nat, tables: seq<seq<Row>>, run: Run)
    requires TotalPreorder(le)
    requires IsRun(w, quals, supported, order, pushed, pass, le, trust, offset, Some(limit), tables, run)
    requires forall r :: r in Concat(tables) && pass(r) ==> SatAll(w, quals, r)
    requires FailingLast(w, quals, supported, order, pass, Concat(tables)) && Refines(order, le, pass, Concat(tables))
    requires TrustHolds(trust, order, le, pass, tables)
    requires offset + limit <= pushed
    ensures Answer(pass, le, Concat(tables), offset, Some(limit), run.result)
  {
    CutParts(w, quals, supported, order, pushed, pass, le, tables, run.keeps, run.alls, run.outs);
    RunSorted(w, quals, supported, order, pushed, pass, le, trust, offset, Some(limit), tables, run);
    FilterOfPerm(pass, run.arrived, Concat(run.outs));
    FirstNAnswer(pass, le, pushed, offset, limit, Concat(tables), FilterEach(pass, run.alls), run.sorted);
  }

  lemma FirstNAnswer(pass: Row -> bool, le: RowOrder, n: nat, offset: nat, limit: nat, rows: seq<Row>,
                     alls: seq<seq<Row>>, s: seq<Row>)
    requires TotalPreorder(le)
    requires AllSorted(le, alls) && offset + limit <= n
    requires SortedPerm(le, s, multiset(Concat(TakeEach(n, alls))))
    requires multiset(Concat(alls)) == multiset(Filter(pass, rows))
    ensures Answer(pass, le, rows, offset, Some(limit), Window(s, offset, Some(limit)))
  {
    forall i | 0 <= i < |alls| ensures Sorted(le, alls[i]) { SortedPart(le, alls, i); }
    var whole := CutPartsKeepFirstN(le, n, alls, s);
    SameWindow(s, whole, n, offset, limit);
    WitnessAnswer(pass, le, rows, offset, Some(limit), whole);
  }

  lemma WitnessAnswer(pass: Row -> bool, le: RowOrder, rows: seq<Row>, offset: nat, limit: Option<nat>, whole: seq<Row>)
    requires SortedPerm(le, whole, multiset(Filter(pass, rows)))
    ensures Answer(pass, le, rows, offset, limit, Window(whole, offset, limit))
  {
  }
}
