/** Exactly when every table gets an answer from what the plugins return: each condition with a run that shows
    what goes wrong without it. */
module PushdownFaults {
  import opened Wrappers
  import opened Sql
  import opened Quals
  import opened QualMeaning
  import opened Ordering
  import opened LimitPushdown
  import opened Pushdown

  const EVERY: Row -> bool := _ => true

  const EVERY_QUAL: Qual -> bool := _ => true

  const UNORDERED: RowOrder := (x, y) => true

  ghost predicate AllPass(pass: Row -> bool) {
    forall r :: pass(r)
  }

  lemma FilterAllPass(pass: Row -> bool, rows: seq<Row>)
    requires AllPass(pass)
    ensures Filter(pass, rows) == rows
  {
    FilterAll(pass, rows);
  }

  /** A run over one connection whose rows come out as they arrive: sorted as they are, or trusted. */
  lemma SingleRun(w: World, quals: seq<Qual>, supported: Qual -> bool, order: RowOrder, pushed: int, pass: Row -> bool,
                  le: RowOrder, trust: Trust, offset: nat, limit: Option<nat>, rows: seq<Row>, keep: Row -> bool,
                  all: seq<Row>, out: seq<Row>, s: seq<Row>)
    requires PluginReturns(w, quals, supported, order, pushed, rows, keep, all, out)
    requires s == Filter(pass, out)
    requires Sorted(le, s) || trust.AsIs? || (trust.Presumes? && !Sorted(trust.order, s))
    ensures IsRun(w, quals, supported, order, pushed, pass, le, trust, offset, limit, [rows],
                  Run([keep], [all], [out], out, s, Window(s, offset, limit)))
  {
    assert Concat([out]) == out;
  }

  /** And whose plugin keeps every row, as it may if the supported quals let all of them through. */
  lemma KeptRun(w: World, quals: seq<Qual>, supported: Qual -> bool, order: RowOrder, pushed: int, pass: Row -> bool,
                le: RowOrder, trust: Trust, offset: nat, limit: Option<nat>, rows: seq<Row>, out: seq<Row>, s: seq<Row>)
    returns (run: Run)
    requires Sorted(order, rows) && forall r :: r in rows ==> SatSupported(w, quals, supported, r)
    requires out <= rows && (pushed == NO_LIMIT ==> out == rows) && (pushed >= 0 ==> out == Take(pushed, rows))
    requires s == Filter(pass, out)
    requires Sorted(le, s) || trust.AsIs? || (trust.Presumes? && !Sorted(trust.order, s))
    ensures IsRun(w, quals, supported, order, pushed, pass, le, trust, offset, limit, [rows], run)
    ensures run.arrived == out && run.sorted == s && run.result == Window(s, offset, limit)
  {
    hide Sorted;
    EveryKept(w, quals, supported, order, pushed, rows, out);
    hide PluginReturns, SatSupported, SatAll;
    SingleRun(w, quals, supported, order, pushed, pass, le, trust, offset, limit, rows, EVERY, rows, out, s);
    run := Run([EVERY], [rows], [out], out, s, Window(s, offset, limit));
  }

  lemma EveryKept(w: World, quals: seq<Qual>, supported: Qual -> bool, order: RowOrder, pushed: int, rows: seq<Row>,
                  out: seq<Row>)
    requires Sorted(order, rows) && forall r :: r in rows ==> SatSupported(w, quals, supported, r)
    requires out <= rows && (pushed == NO_LIMIT ==> out == rows) && (pushed >= 0 ==> out == Take(pushed, rows))
    ensures PluginReturns(w, quals, supported, order, pushed, rows, EVERY, rows, out)
  {
    FilterAllPass(EVERY, rows);
    hide Sat;
  }

  function Copies(n: nat, r: Row): (rows: seq<Row>)
    ensures |rows| == n && forall i :: 0 <= i < n ==> rows[i] == r
  {
    if n == 0 then [] else [r] + Copies(n - 1, r)
  }

  lemma {:induction false} FilterCopies(pass: Row -> bool, n: nat, r: Row)
    ensures Filter(pass, Copies(n, r)) == if pass(r) then Copies(n, r) else []
  {
    if n > 0 {
      FilterCopies(pass, n - 1, r);
      assert Copies(n, r)[1..] == Copies(n - 1, r);
    }
  }

  lemma {:induction false} CountOfCopies(n: nat, r: Row, x: Row)
    ensures multiset(Copies(n, r))[x] == if r == x then n else 0
  {
    if n > 0 { CountOfCopies(n - 1, r, x); }
  }

  lemma {:induction false} CountAtMost(s: seq<Row>, x: Row)
    ensures multiset(s)[x] <= |s|
  {
    if s != [] {
      assert s == [s[0]] + s[1..];
      CountAtMost(s[1..], x);
    }
  }

  /** n rows of each kind, those of the first kind first. */
  function Pairs(n: nat, x: Row, m: nat, y: Row): (rows: seq<Row>)
    ensures |rows| == n + m && forall r :: r in rows ==> r == x || r == y
    ensures forall i :: 0 <= i < n + m ==> rows[i] == if i < n then x else y
    ensures Take(n, rows) == Copies(n, x)
  {
    Copies(n, x) + Copies(m, y)
  }

  lemma CopiesSorted(le: RowOrder, n: nat, r: Row)
    requires TotalPreorder(le)
    ensures Sorted(le, Copies(n, r))
  {
    assert le(r, r);
  }

  lemma PairsSorted(le: RowOrder, n: nat, x: Row, m: nat, y: Row)
    requires TotalPreorder(le) && le(x, y)
    ensures Sorted(le, Pairs(n, x, m, y))
  {
    assert le(x, x) && le(y, y);
  }

  // ---------- the order ----------

  lemma CountBefore(s: seq<Row>, i: nat, x: Row)
    requires i <= |s| && forall j :: i <= j < |s| ==> s[j] != x
    ensures multiset(s)[x] <= i
  {
    assert s == s[..i] + s[i..];
    CountAtMost(s[..i], x);
    forall j | 0 <= j < |s[i..]| ensures s[i..][j] != x { assert s[i..][j] == s[i + j]; }
    assert x !in multiset(s[i..]);
  }

  /** Where y must come before x, the first n rows of n of each are all y. */
  lemma OtherFirst(le: RowOrder, n: nat, x: Row, y: Row, whole: seq<Row>, i: nat)
    requires TotalPreorder(le) && !le(x, y) && SortedPerm(le, whole, multiset(Pairs(n, x, n, y))) && i < n
    ensures i < |whole| && whole[i] == y
  {
    assert |multiset(whole)| == |whole| && |multiset(Pairs(n, x, n, y))| == n + n;
    assert whole[i] in multiset(Pairs(n, x, n, y));
    if whole[i] == x {
      CountOfCopies(n, x, y);
      CountOfCopies(n, y, y);
      hide Copies;
      if forall j :: i <= j < |whole| ==> whole[j] != y { CountBefore(whole, i, y); }
    }
  }

  lemma NotFirst(pass: Row -> bool, le: RowOrder, n: nat, x: Row, y: Row, offset: nat, limit: Option<nat>, s: seq<Row>)
    requires TotalPreorder(le) && !le(x, y) && pass(x) && pass(y)
    requires offset < n && limit != Some(0) && offset < |s| && s[offset] == x
    ensures !Answer(pass, le, Pairs(n, x, n, y), offset, limit, Window(s, offset, limit))
  {
    var rows := Pairs(n, x, n, y);
    FilterAll(pass, rows);
    assert le(x, x) && Window(s, offset, limit)[0] == x;
    forall whole | SortedPerm(le, whole, multiset(rows))
      ensures Window(whole, offset, limit) != Window(s, offset, limit)
    {
      OtherFirst(le, n, x, y, whole, offset);
      assert Window(whole, offset, limit)[0] == whole[offset];
    }
  }

  lemma SupportedPair(w: World, quals: seq<Qual>, supported: Qual -> bool, n: nat, x: Row, m: nat, y: Row)
    requires SatSupported(w, quals, supported, x) && SatSupported(w, quals, supported, y)
    ensures forall r :: r in Pairs(n, x, m, y) ==> SatSupported(w, quals, supported, r)
  {
  }

  /** A plugin order that puts x no later than y, where ORDER BY puts y first: with enough of each a pushed limit
      cuts the rows y off. */
  lemma CutOffRun(w: World, quals: seq<Qual>, supported: Qual -> bool, order: RowOrder, pushed: nat, pass: Row -> bool,
                  le: RowOrder, trust: Trust, offset: nat, limit: Option<nat>, x: Row, y: Row)
    returns (rows: seq<Row>, run: Run)
    requires TotalPreorder(order) && TotalPreorder(le) && limit != Some(0) && pushed > offset
    requires order(x, y) && !le(x, y) && pass(x) && pass(y) && SatAll(w, quals, x) && SatAll(w, quals, y)
    ensures IsRun(w, quals, supported, order, pushed, pass, le, trust, offset, limit, [rows], run)
    ensures !Answer(pass, le, rows, offset, limit, run.result)
    ensures forall r :: r in rows ==> r == x || r == y
  {
    rows := Pairs(pushed, x, pushed, y);
    var out := Copies(pushed, x);
    SupportedPair(w, quals, supported, pushed, x, pushed, y);
    assert out[offset] == x && out <= rows && Take(pushed, rows) == out && pushed != NO_LIMIT;
    hide *;
    PairsSorted(order, pushed, x, pushed, y);
    CopiesSorted(le, pushed, x);
    FilterCopies(pass, pushed, x);
    run := KeptRun(w, quals, supported, order, pushed, pass, le, trust, offset, limit, rows, out, out);
    NotFirst(pass, le, pushed, x, y, offset, limit, out);
  }

  /** Without a limit, rows taken to arrive in an order that puts y first arrive with y last. */
  lemma TrustedRun(w: World, quals: seq<Qual>, supported: Qual -> bool, order: RowOrder, pushed: int, pass: Row -> bool,
                   le: RowOrder, trust: Trust, offset: nat, limit: Option<nat>, x: Row, y: Row)
    returns (rows: seq<Row>, run: Run)
    requires TotalPreorder(order) && TotalPreorder(le) && limit != Some(0) && pushed == NO_LIMIT
    requires order(x, y) && !le(x, y) && pass(x) && pass(y) && SatAll(w, quals, x) && SatAll(w, quals, y)
    requires !trust.Sorts? && !Presumed(trust, le)(x, y)
    ensures IsRun(w, quals, supported, order, pushed, pass, le, trust, offset, limit, [rows], run)
    ensures !Answer(pass, le, rows, offset, limit, run.result)
    ensures rows == Pairs(offset + 1, x, offset + 1, y) && run.sorted == rows
    ensures forall r :: r in rows ==> r == x || r == y
  {
    var n := offset + 1;
    rows := Pairs(n, x, n, y);
    SupportedPair(w, quals, supported, n, x, n, y);
    assert rows[offset] == x && rows[0] == x && rows[n] == y;
    assert Presumed(trust, le) == if trust.Presumes? then trust.order else le;
    FilterAll(pass, rows);
    assert trust.Presumes? ==> !Sorted(trust.order, rows);
    hide *;
    PairsSorted(order, n, x, n, y);
    run := KeptRun(w, quals, supported, order, pushed, pass, le, trust, offset, limit, rows, rows, rows);
    NotFirst(pass, le, n, x, y, offset, limit, rows);
  }

  // ---------- the number ----------

  /** An answer is as long as the window of the rows that pass. */
  lemma AnswerLength(pass: Row -> bool, le: RowOrder, rows: seq<Row>, offset: nat, limit: Option<nat>, result: seq<Row>)
    requires Answer(pass, le, rows, offset, limit, result)
    ensures |result| == |Window(Filter(pass, rows), offset, limit)|
  {
    var kept := Filter(pass, rows);
    var whole :| SortedPerm(le, whole, multiset(kept)) && result == Window(whole, offset, limit);
    assert |multiset(whole)| == |whole| && |multiset(kept)| == |kept|;
  }

  lemma FullWindow(pass: Row -> bool, le: RowOrder, good: Row, offset: nat, limit: nat, result: seq<Row>)
    requires pass(good) && Answer(pass, le, Copies(offset + limit, good), offset, Some(limit), result)
    ensures |result| == limit
  {
    hide Answer;
    AnswerLength(pass, le, Copies(offset + limit, good), offset, Some(limit), result);
    FilterCopies(pass, offset + limit, good);
  }

  /** How many of n rows a plugin may return under a limit. */
  function Cut(pushed: int, n: nat): (m: nat)
    ensures m <= n && (pushed >= 0 ==> m <= pushed)
  {
    if pushed < 0 then 0 else if pushed < n then pushed else n
  }

  /** A plugin cut short on a table of n rows that all pass: copies of one row are in any order. */
  lemma TruncatedRun(w: World, quals: seq<Qual>, supported: Qual -> bool, order: RowOrder, pushed: int,
                     pass: Row -> bool, le: RowOrder, trust: Trust, offset: nat, limit: Option<nat>, good: Row, n: nat)
    returns (run: Run)
    requires pushed != NO_LIMIT && TotalPreorder(order) && TotalPreorder(le) && pass(good) && SatAll(w, quals, good)
    ensures IsRun(w, quals, supported, order, pushed, pass, le, trust, offset, limit, [Copies(n, good)], run)
    ensures run.arrived == Copies(Cut(pushed, n), good)
    ensures run.sorted == run.arrived && run.result == Window(run.arrived, offset, limit)
  {
    var rows, out := Copies(n, good), Copies(Cut(pushed, n), good);
    FilterCopies(pass, |out|, good);
    assert out == rows[..|out|];
    CopiesSorted(order, n, good);
    CopiesSorted(le, |out|, good);
    hide IsRun, Sat, TotalPreorder, Sorted, Copies;
    run := KeptRun(w, quals, supported, order, pushed, pass, le, trust, offset, limit, rows, out, out);
  }

  /** A sent limit that does not cover the window loses rows of some table; a negative one is no cover. */
  lemma UncoveredWindowLosesRows(w: World, quals: seq<Qual>, supported: Qual -> bool, order: RowOrder, pushed: int,
                                 pass: Row -> bool, le: RowOrder, trust: Trust, offset: nat, limit: nat, good: Row)
    returns (rows: seq<Row>, run: Run)
    requires pushed != NO_LIMIT && TotalPreorder(order) && TotalPreorder(le) && pass(good) && SatAll(w, quals, good)
    requires pushed < offset + limit && limit > 0
    ensures IsRun(w, quals, supported, order, pushed, pass, le, trust, offset, Some(limit), [rows], run)
    ensures !Answer(pass, le, rows, offset, Some(limit), run.result)
    ensures forall r :: r in rows ==> r == good
  {
    hide IsRun, SatAll;
    rows := Copies(offset + limit, good);
    run := TruncatedRun(w, quals, supported, order, pushed, pass, le, trust, offset, Some(limit), good, offset + limit);
    if Answer(pass, le, rows, offset, Some(limit), run.result) {
      FullWindow(pass, le, good, offset, limit, run.result);
    }
  }

  /** LIMIT 0 is answered whatever is sent. */
  lemma EmptyWindowAnswer(pass: Row -> bool, le: RowOrder, rows: seq<Row>, offset: nat, s: seq<Row>)
    requires TotalPreorder(le)
    ensures Answer(pass, le, rows, offset, Some(0), Window(s, offset, Some(0)))
  {
    var whole := Sort(le, Filter(pass, rows));
    SortSorts(le, Filter(pass, rows));
    WitnessAnswer(pass, le, rows, offset, Some(0), whole);
    assert Window(whole, offset, Some(0)) == [] == Window(s, offset, Some(0));
  }

  // ---------- the key columns ----------

  lemma NotNothing(pass: Row -> bool, le: RowOrder, rows: seq<Row>, offset: nat, limit: nat)
    requires |Filter(pass, rows)| > offset && limit > 0
    ensures !Answer(pass, le, rows, offset, Some(limit), [])
  {
    hide Answer;
    if Answer(pass, le, rows, offset, Some(limit), []) { AnswerLength(pass, le, rows, offset, Some(limit), []); }
  }

  /** With a qual the plugin does not filter by, a pushed limit can be spent on rows that fail the recheck and
      sort no later than one that passes. */
  lemma UnsupportedQualGoesWrong(w: World, quals: seq<Qual>, supported: Qual -> bool, order: RowOrder, pushed: nat,
                                 pass: Row -> bool, le: RowOrder, trust: Trust, offset: nat, limit: nat, bad: Row,
                                 good: Row)
    returns (rows: seq<Row>, run: Run)
    requires TotalPreorder(order) && order(bad, good) && limit > 0
    requires pass(good) && SatAll(w, quals, good) && !pass(bad) && SatSupported(w, quals, supported, bad)
    ensures IsRun(w, quals, supported, order, pushed, pass, le, trust, offset, Some(limit), [rows], run)
    ensures !Answer(pass, le, rows, offset, Some(limit), run.result)
    ensures forall r :: r in rows ==> r == bad || r == good
  {
    var head, tail := Copies(pushed, bad), Copies(offset + 1, good);
    rows := Pairs(pushed, bad, offset + 1, good);
    FilterCopies(pass, pushed, bad);
    FilterCopies(pass, offset + 1, good);
    FilterConcat(pass, head, tail);
    PairsSorted(order, pushed, bad, offset + 1, good);
    hide IsRun, Sat, TotalPreorder, Copies;
    run := KeptRun(w, quals, supported, order, pushed, pass, le, trust, offset, Some(limit), rows, head, []);
    EmptyWindow(offset, Some(limit));
    NotNothing(pass, le, rows, offset, limit);
  }

  lemma EmptyWindow(offset: nat, limit: Option<nat>)
    ensures Window([], offset, limit) == []
  {
    var none: seq<Row> := [];
    if offset == 0 { assert none[offset..] == none; }
  }

  // ---------- exactly when ----------

  /** The rows are such as the columns' types allow. */
  ghost predicate AllTyped(typed: Row -> bool, tables: seq<seq<Row>>) {
    forall r :: r in Concat(tables) ==> typed(r)
  }

  /** Whatever the tables hold and the plugins do, the result is an answer; over one connection, if so asked. */
  ghost predicate AlwaysRight(w: World, quals: seq<Qual>, supported: Qual -> bool, order: RowOrder, pushed: int,
                              pass: Row -> bool, le: RowOrder, trust: Trust, offset: nat, limit: Option<nat>,
                              typed: Row -> bool, one: bool) {
    forall tables, run ::
      && AllTyped(typed, tables) && (one ==> |tables| == 1)
      && IsRun(w, quals, supported, order, pushed, pass, le, trust, offset, limit, tables, run)
      ==> Answer(pass, le, Concat(tables), offset, limit, run.result)
  }

  /** On the rows that pass, the one order implies the other. */
  ghost predicate KeepsOrder(order: RowOrder, le: RowOrder, pass: Row -> bool, typed: Row -> bool) {
    forall x, y :: typed(x) && typed(y) && pass(x) && pass(y) && order(x, y) ==> le(x, y)
  }

  /** No row the supported quals let through fails the recheck and sorts at or before one that passes. */
  ghost predicate NoneBefore(w: World, quals: seq<Qual>, supported: Qual -> bool, order: RowOrder, pass: Row -> bool,
                             typed: Row -> bool) {
    forall b, g :: typed(b) && typed(g) && SatSupported(w, quals, supported, b) && !pass(b) && pass(g) ==> !order(b, g)
  }

  /** The number, the order and the rows a limit is spent on. */
  ghost predicate RightlyCut(w: World, quals: seq<Qual>, supported: Qual -> bool, order: RowOrder, pushed: int,
                             pass: Row -> bool, le: RowOrder, offset: nat, limit: nat, typed: Row -> bool) {
    && offset + limit <= pushed
    && KeepsOrder(order, le, pass, typed)
    && NoneBefore(w, quals, supported, order, pass, typed)
  }

  /** Then every result is an answer, also where Postgres trusts the order of arrival. */
  lemma RightlyCutIsRight(w: World, quals: seq<Qual>, supported: Qual -> bool, order: RowOrder, pushed: int,
                          pass: Row -> bool, le: RowOrder, trust: Trust, offset: nat, limit: nat, typed: Row -> bool,
                          one: bool)
    requires TotalPreorder(le) && forall r :: typed(r) && pass(r) ==> SatAll(w, quals, r)
    requires !trust.Sorts? && !Trivial(le) ==> one
    requires trust.Presumes? ==> forall x, y :: le(x, y) ==> trust.order(x, y)
    requires RightlyCut(w, quals, supported, order, pushed, pass, le, offset, limit, typed)
    ensures AlwaysRight(w, quals, supported, order, pushed, pass, le, trust, offset, Some(limit), typed, one)
  {
    forall tables, run
      | && AllTyped(typed, tables) && (one ==> |tables| == 1)
        && IsRun(w, quals, supported, order, pushed, pass, le, trust, offset, Some(limit), tables, run)
      ensures Answer(pass, le, Concat(tables), offset, Some(limit), run.result)
    {
      hide IsRun, SatAll, SatSupported, Answer;
      assert Refines(order, Presumed(trust, le), pass, Concat(tables));
      PushedAnswer(w, quals, supported, order, pushed, pass, le, trust, offset, limit, tables, run);
    }
  }

  /** A limit pushed for a query with a LIMIT above 0 is right for every table exactly when it covers the window,
      the order the plugin sorts by implies ORDER BY on the rows that pass, and no row sorts before those that
      the plugin may keep and the recheck drops. */
  lemma PushedRightExactlyWhen(w: World, quals: seq<Qual>, supported: Qual -> bool, order: RowOrder, pushed: int,
                               pass: Row -> bool, le: RowOrder, trust: Trust, offset: nat, limit: nat,
                               typed: Row -> bool, one: bool, good: Row)
    requires TotalPreorder(order) && TotalPreorder(le) && forall r :: typed(r) && pass(r) ==> SatAll(w, quals, r)
    requires !trust.Sorts? && !Trivial(le) ==> one
    requires trust.Presumes? ==> forall x, y :: le(x, y) ==> trust.order(x, y)
    requires pushed != NO_LIMIT && limit > 0 && typed(good) && pass(good)
    ensures AlwaysRight(w, quals, supported, order, pushed, pass, le, trust, offset, Some(limit), typed, one)
       <==> RightlyCut(w, quals, supported, order, pushed, pass, le, offset, limit, typed)
  {
    if RightlyCut(w, quals, supported, order, pushed, pass, le, offset, limit, typed) {
      RightlyCutIsRight(w, quals, supported, order, pushed, pass, le, trust, offset, limit, typed, one);
    } else {
      var rows, run := WrongRun(w, quals, supported, order, pushed, pass, le, trust, offset, limit, typed, good);
      hide IsRun, Answer, RightlyCut, TotalPreorder;
      assert Concat([rows]) == rows;
      assert AllTyped(typed, [rows]);
    }
  }

  lemma WrongRun(w: World, quals: seq<Qual>, supported: Qual -> bool, order: RowOrder, pushed: int, pass: Row -> bool,
                 le: RowOrder, trust: Trust, offset: nat, limit: nat, typed: Row -> bool, good: Row)
    returns (rows: seq<Row>, run: Run)
    requires TotalPreorder(order) && TotalPreorder(le) && forall r :: typed(r) && pass(r) ==> SatAll(w, quals, r)
    requires pushed != NO_LIMIT && limit > 0 && typed(good) && pass(good)
    requires !RightlyCut(w, quals, supported, order, pushed, pass, le, offset, limit, typed)
    ensures IsRun(w, quals, supported, order, pushed, pass, le, trust, offset, Some(limit), [rows], run)
    ensures !Answer(pass, le, rows, offset, Some(limit), run.result)
    ensures forall r :: r in rows ==> typed(r)
  {
    hide IsRun, Answer, SatAll, SatSupported, TotalPreorder;
    if offset + limit > pushed {
      rows, run := UncoveredWindowLosesRows(w, quals, supported, order, pushed, pass, le, trust, offset, limit, good);
    } else if !KeepsOrder(order, le, pass, typed) {
      var x, y :| typed(x) && typed(y) && pass(x) && pass(y) && order(x, y) && !le(x, y);
      rows, run := CutOffRun(w, quals, supported, order, pushed, pass, le, trust, offset, Some(limit), x, y);
    } else {
      var bad, g :| typed(bad) && typed(g) && SatSupported(w, quals, supported, bad) && !pass(bad) && pass(g) &&
        order(bad, g);
      rows, run := UnsupportedQualGoesWrong(w, quals, supported, order, pushed, pass, le, trust, offset, limit, bad, g);
    }
  }

  /** Without a limit only the order of arrival can be wrong, and is not exactly when the plugin's order implies
      what Postgres takes it to be. */
  lemma UnlimitedRightExactlyWhen(w: World, quals: seq<Qual>, supported: Qual -> bool, order: RowOrder, pushed: int,
                                  pass: Row -> bool, le: RowOrder, trust: Trust, offset: nat, limit: Option<nat>,
                                  typed: Row -> bool, one: bool)
    requires TotalPreorder(order) && TotalPreorder(le) && forall r :: typed(r) && pass(r) ==> SatAll(w, quals, r)
    requires !trust.Sorts? && !Trivial(le) ==> one
    requires trust.Presumes? ==> forall x, y :: le(x, y) ==> trust.order(x, y)
    requires pushed == NO_LIMIT && limit != Some(0)
    ensures AlwaysRight(w, quals, supported, order, pushed, pass, le, trust, offset, limit, typed, one)
       <==> KeepsOrder(order, Presumed(trust, le), pass, typed)
  {
    if KeepsOrder(order, Presumed(trust, le), pass, typed) {
      forall tables, run
        | && AllTyped(typed, tables) && (one ==> |tables| == 1)
          && IsRun(w, quals, supported, order, pushed, pass, le, trust, offset, limit, tables, run)
        ensures Answer(pass, le, Concat(tables), offset, limit, run.result)
      {
        hide IsRun, SatAll, Answer;
        UnpushedAnswer(w, quals, supported, order, pushed, pass, le, trust, offset, limit, tables, run);
      }
    } else {
      var rows, run := WrongTrustRun(w, quals, supported, order, pushed, pass, le, trust, offset, limit, typed);
      hide IsRun, Answer, TotalPreorder, SatAll, KeepsOrder;
      assert Concat([rows]) == rows;
      assert AllTyped(typed, [rows]);
    }
  }

  lemma WrongTrustRun(w: World, quals: seq<Qual>, supported: Qual -> bool, order: RowOrder, pushed: int,
                      pass: Row -> bool, le: RowOrder, trust: Trust, offset: nat, limit: Option<nat>,
                      typed: Row -> bool)
    returns (rows: seq<Row>, run: Run)
    requires TotalPreorder(order) && TotalPreorder(le) && forall r :: typed(r) && pass(r) ==> SatAll(w, quals, r)
    requires trust.Presumes? ==> forall x, y :: le(x, y) ==> trust.order(x, y)
    requires pushed == NO_LIMIT && limit != Some(0)
    requires !KeepsOrder(order, Presumed(trust, le), pass, typed)
    ensures IsRun(w, quals, supported, order, pushed, pass, le, trust, offset, limit, [rows], run)
    ensures !Answer(pass, le, rows, offset, limit, run.result)
    ensures forall r :: r in rows ==> typed(r)
  {
    var x, y :| typed(x) && typed(y) && pass(x) && pass(y) && order(x, y) && !Presumed(trust, le)(x, y);
    assert !trust.Sorts? && !le(x, y);
    hide *;
    rows, run := TrustedRun(w, quals, supported, order, pushed, pass, le, trust, offset, limit, x, y);
  }

  /** The scan brings every passing row of every table exactly when no limit is sent. A window function, which
      looks at all those rows, and a set-returning target, which may make nothing of a row, need just that. */
  lemma ScanCompleteExactlyWhen(w: World, quals: seq<Qual>, supported: Qual -> bool, order: RowOrder, pushed: int,
                                pass: Row -> bool, le: RowOrder, trust: Trust, offset: nat, limit: Option<nat>,
                                typed: Row -> bool, good: Row)
    requires TotalPreorder(order) && TotalPreorder(le) && typed(good) && pass(good)
    requires forall r :: typed(r) && pass(r) ==> SatAll(w, quals, r)
    ensures AlwaysAll(w, quals, supported, order, pushed, pass, le, trust, offset, limit, typed) <==> pushed == NO_LIMIT
  {
    if pushed == NO_LIMIT {
      forall tables, run
        | && AllTyped(typed, tables)
          && IsRun(w, quals, supported, order, pushed, pass, le, trust, offset, limit, tables, run)
        ensures multiset(Filter(pass, run.arrived)) == multiset(Filter(pass, Concat(tables)))
      {
        hide IsRun, SatAll;
        CompleteScan(w, quals, supported, order, pushed, pass, le, trust, offset, limit, tables, run);
      }
    } else {
      var rows, run := CutShort(w, quals, supported, order, pushed, pass, le, trust, offset, limit, good);
      hide IsRun, TotalPreorder, SatAll;
      assert Concat([rows]) == rows;
      assert AllTyped(typed, [rows]);
    }
  }

  /** The scan brings every row of the tables that passes. */
  ghost predicate AlwaysAll(w: World, quals: seq<Qual>, supported: Qual -> bool, order: RowOrder, pushed: int,
                            pass: Row -> bool, le: RowOrder, trust: Trust, offset: nat, limit: Option<nat>,
                            typed: Row -> bool) {
    forall tables, run ::
      && AllTyped(typed, tables)
      && IsRun(w, quals, supported, order, pushed, pass, le, trust, offset, limit, tables, run)
      ==>
        multiset(Filter(pass, run.arrived)) == multiset(Filter(pass, Concat(tables)))
  }

  lemma CutShort(w: World, quals: seq<Qual>, supported: Qual -> bool, order: RowOrder, pushed: int, pass: Row -> bool,
                 le: RowOrder, trust: Trust, offset: nat, limit: Option<nat>, good: Row)
    returns (rows: seq<Row>, run: Run)
    requires pushed != NO_LIMIT && TotalPreorder(order) && TotalPreorder(le) && pass(good) && SatAll(w, quals, good)
    ensures IsRun(w, quals, supported, order, pushed, pass, le, trust, offset, limit, [rows], run)
    ensures multiset(Filter(pass, run.arrived)) != multiset(Filter(pass, rows))
    ensures forall r :: r in rows ==> r == good
  {
    hide IsRun, TotalPreorder, SatAll;
    var n := if pushed < 0 then 1 else pushed + 1;
    var m := Cut(pushed, n);
    rows := Copies(n, good);
    run := TruncatedRun(w, quals, supported, order, pushed, pass, le, trust, offset, limit, good, n);
    FilterCopies(pass, n, good);
    FilterCopies(pass, m, good);
    assert |multiset(Copies(m, good))| == m && |multiset(rows)| == n;
  }

  // ---------- the order of arrival ----------

  lemma OrderOfTwo(le: RowOrder, x: Row, y: Row, whole: seq<Row>)
    requires TotalPreorder(le) && !le(x, y)
    requires SortedPerm(le, whole, multiset([x, y]))
    ensures whole == [y, x]
  {
    assert |multiset(whole)| == |whole| == 2;
    assert whole == [whole[0], whole[1]];
    var m := multiset{whole[0], whole[1]};
    assert m == multiset{x, y};
    assert x in m && y in m && le(whole[0], whole[1]) && x != y;
  }

  /** Connections without rows. */
  function Empties(n: nat): (r: seq<seq<Row>>)
    ensures |r| == n
  {
    if n == 0 then [] else [[]] + Empties(n - 1)
  }

  function Everys(n: nat): (r: seq<Row -> bool>)
    ensures |r| == n
  {
    if n == 0 then [] else [EVERY] + Everys(n - 1)
  }

  lemma {:induction false} EmptiesRun(w: World, le: RowOrder, n: nat)
    ensures Concat(Empties(n)) == []
    ensures PluginsRun(w, [], EVERY_QUAL, le, NO_LIMIT, Empties(n), Everys(n), Empties(n), Empties(n))
  {
    if n > 0 {
      EmptiesRun(w, le, n - 1);
      assert Empties(n)[1..] == Empties(n - 1) && Everys(n)[1..] == Everys(n - 1);
    }
  }

  lemma OneRowRun(w: World, le: RowOrder, x: Row, tables: seq<seq<Row>>, keeps: seq<Row -> bool>)
    requires PluginsRun(w, [], EVERY_QUAL, le, NO_LIMIT, tables, keeps, tables, tables)
    ensures PluginsRun(w, [], EVERY_QUAL, le, NO_LIMIT, [[x]] + tables, [EVERY] + keeps, [[x]] + tables, [[x]] + tables)
    ensures Concat([[x]] + tables) == [x] + Concat(tables)
  {
    assert ([[x]] + tables)[1..] == tables && ([EVERY] + keeps)[1..] == keeps;
    FilterAllPass(EVERY, [x]);
    assert PluginReturns(w, [], EVERY_QUAL, le, NO_LIMIT, [x], EVERY, [x], [x]);
  }

  /** Two connections of one row each, and any more without rows, need not arrive as one sorted list. */
  lemma ArrivalGoesWrong(w: World, le: RowOrder, n: nat, x: Row, y: Row) returns (tables: seq<seq<Row>>, run: Run)
    requires TotalPreorder(le) && !le(x, y) && n >= 2
    ensures |tables| == n && IsRun(w, [], EVERY_QUAL, le, NO_LIMIT, EVERY, le, AsIs, 0, None, tables, run)
    ensures !Answer(EVERY, le, Concat(tables), 0, None, run.result)
  {
    var keeps;
    tables, keeps := OneRowEach(w, le, n, x, y);
    run := Run(keeps, tables, tables, [x, y], [x, y], [x, y]);
    FilterAllPass(EVERY, [x, y]);
    assert Window([x, y], 0, None) == [x, y];
    hide PluginsRun, Answer, TotalPreorder;
    NotInOrder(le, x, y);
  }

  lemma OneRowEach(w: World, le: RowOrder, n: nat, x: Row, y: Row)
    returns (tables: seq<seq<Row>>, keeps: seq<Row -> bool>)
    requires n >= 2
    ensures |tables| == n && PluginsRun(w, [], EVERY_QUAL, le, NO_LIMIT, tables, keeps, tables, tables)
    ensures Concat(tables) == [x, y]
  {
    var rest, others := [[y]] + Empties(n - 2), [EVERY] + Everys(n - 2);
    EmptiesRun(w, le, n - 2);
    hide PluginsRun;
    OneRowRun(w, le, y, Empties(n - 2), Everys(n - 2));
    OneRowRun(w, le, x, rest, others);
    tables, keeps := [[x]] + rest, [EVERY] + others;
    assert Concat(tables) == [x] + ([y] + []) == [x, y];
  }

  lemma NotInOrder(le: RowOrder, x: Row, y: Row)
    requires TotalPreorder(le) && !le(x, y)
    ensures !Answer(EVERY, le, [x, y], 0, None, [x, y])
  {
    FilterAllPass(EVERY, [x, y]);
    forall whole | SortedPerm(le, whole, multiset([x, y])) ensures Window(whole, 0, None) != [x, y] {
      OrderOfTwo(le, x, y, whole);
    }
  }

  /** Trusting the order of arrival over n connections is right for all tables exactly when there is at most
      one connection, or no order to keep. */
  lemma TrustedArrivalRightExactlyWhen(w: World, le: RowOrder, n: nat)
    requires TotalPreorder(le)
    ensures (forall tables, run ::
               |tables| == n && IsRun(w, [], EVERY_QUAL, le, NO_LIMIT, EVERY, le, AsIs, 0, None, tables, run) ==>
               Answer(EVERY, le, Concat(tables), 0, None, run.result))
       <==> n <= 1 || Trivial(le)
  {
    if n <= 1 || Trivial(le) {
      forall tables, run
        | |tables| == n && IsRun(w, [], EVERY_QUAL, le, NO_LIMIT, EVERY, le, AsIs, 0, None, tables, run)
        ensures Answer(EVERY, le, Concat(tables), 0, None, run.result)
      {
        if n == 0 {
          NothingArrives(le, tables, run);
        } else {
          UnpushedAnswer(w, [], EVERY_QUAL, le, NO_LIMIT, EVERY, le, AsIs, 0, None, tables, run);
        }
      }
    } else {
      var x, y :| !le(x, y);
      var tables, run := ArrivalGoesWrong(w, le, n, x, y);
    }
  }

  lemma NothingArrives(le: RowOrder, tables: seq<seq<Row>>, run: Run)
    requires tables == [] && multiset(run.arrived) == multiset(Concat(tables))
    requires run.sorted == Filter(EVERY, run.arrived) && run.result == Window(run.sorted, 0, None)
    ensures Answer(EVERY, le, Concat(tables), 0, None, run.result)
  {
    assert |multiset(run.arrived)| == |run.arrived| == 0;
    WitnessAnswer(EVERY, le, Concat(tables), 0, None, []);
  }
}
