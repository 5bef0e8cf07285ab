/** FETCH FIRST n ROWS WITH TIES: the planner code reads the number and not the option. */
module WithTies {
  import opened Wrappers
  import opened Sql
  import opened Quals
  import opened QualMeaning
  import opened Ordering
  import opened LimitPushdown
  import opened Pushdown
  import opened PushdownFaults
  import opened PushdownTheorem
  import opened PushdownExactness
  import SortPushdown

  /** The leading rows that ORDER BY does not tell apart from the last one counted. */
  function Ties(le: RowOrder, last: Row, rest: seq<Row>): (r: seq<Row>)
    ensures |r| <= |rest|
  {
    if rest == [] || !le(rest[0], last) then [] else [rest[0]] + Ties(le, last, rest[1..])
  }

  function WindowWithTies(le: RowOrder, s: seq<Row>, offset: nat, n: nat): (r: seq<Row>)
    ensures |r| <= |Window(s, offset, None)|
  {
    var d := Window(s, offset, None);
    if n == 0 || n >= |d| then Take(n, d) else d[..n] + Ties(le, d[n - 1], d[n..])
  }

  /** One of the orders ORDER BY allows, cut after the ties. */
  ghost predicate AnswerWithTies(pass: Row -> bool, le: RowOrder, rows: seq<Row>, offset: nat, n: nat,
                                 result: seq<Row>) {
    exists whole :: SortedPerm(le, whole, multiset(Filter(pass, rows))) &&
      result == WindowWithTies(le, whole, offset, n)
  }

  /** The rows an execution of the query then returns: LIMIT applies to what Postgres sorted. */
  ghost function ResultWithTies(site: Site, q: Query, run: Run): seq<Row>
    requires WindowLimit(q.shape).Some?
  {
    WindowWithTies(QueryOrder(site.orders, q.keys), run.sorted, WindowOffset(q.shape), WindowLimit(q.shape).value)
  }

  /** Whatever the tables hold and the plugins do, the query is answered: over one connection where Postgres relies
      on the order of arrival. */
  ghost predicate AlwaysTied(site: Site, q: Query, plan: SortPushdown.SortPlan, relied: nat, typed: Row -> bool)
    requires WindowLimit(q.shape).Some?
  {
    forall tables, run ::
      AllTyped(typed, tables) && (relied > 0 ==> |tables| == 1) && Executes(site, q, plan, relied, tables, run) ==>
        AnswerWithTies(RowPasses(site.t, q.restrictions), QueryOrder(site.orders, q.keys), Concat(tables),
                       WindowOffset(q.shape), WindowLimit(q.shape).value, ResultWithTies(site, q, run))
  }

  lemma {:induction false} AllTie(le: RowOrder, last: Row, rest: seq<Row>)
    requires forall r :: r in rest ==> le(r, last)
    ensures Ties(le, last, rest) == rest
  {
    if rest != [] { AllTie(le, last, rest[1..]); }
  }

  lemma CopiesOnly(le: RowOrder, m: nat, good: Row, whole: seq<Row>)
    requires SortedPerm(le, whole, multiset(Copies(m, good)))
    ensures |whole| == m && forall r :: r in whole ==> r == good
  {
    assert |multiset(whole)| == |whole| && |multiset(Copies(m, good))| == m;
    forall r | r in whole ensures r == good { assert r in multiset(whole) && r in multiset(Copies(m, good)); }
  }

  lemma AlikeTie(le: RowOrder, s: seq<Row>, good: Row, offset: nat, n: nat)
    requires le(good, good) && n > 0 && offset <= |s| && forall r :: r in s ==> r == good
    ensures |WindowWithTies(le, s, offset, n)| == |s| - offset
  {
    var d := Window(s, offset, None);
    assert forall r :: r in d ==> r in s;
    if n < |d| {
      assert d[n - 1] in d;
      forall r | r in d[n..] ensures r == good { assert r in d; }
      AllTie(le, d[n - 1], d[n..]);
    }
  }

  /** Of m rows all alike, the ties reach to the last. */
  lemma CopiesTie(pass: Row -> bool, le: RowOrder, m: nat, good: Row, offset: nat, n: nat, result: seq<Row>)
    requires le(good, good) && pass(good) && n > 0 && offset <= m
    requires AnswerWithTies(pass, le, Copies(m, good), offset, n, result)
    ensures |result| == m - offset
  {
    FilterCopies(pass, m, good);
    hide WindowWithTies, SortedPerm, Copies;
    var whole :| SortedPerm(le, whole, multiset(Copies(m, good))) && result == WindowWithTies(le, whole, offset, n);
    CopiesOnly(le, m, good, whole);
    AlikeTie(le, whole, good, offset, n);
  }

  /** A plugin cut short returns too few of them. */
  lemma TiesLostRun(w: World, quals: seq<Qual>, supported: Qual -> bool, order: RowOrder, pushed: int,
                    pass: Row -> bool, le: RowOrder, trust: Trust, offset: nat, n: nat, good: Row)
    returns (rows: seq<Row>, run: Run)
    requires pushed != NO_LIMIT && TotalPreorder(order) && TotalPreorder(le) && pass(good) && SatAll(w, quals, good) &&
      n > 0
    ensures IsRun(w, quals, supported, order, pushed, pass, le, trust, offset, Some(n), [rows], run)
    ensures !AnswerWithTies(pass, le, rows, offset, n, WindowWithTies(le, run.sorted, offset, n))
    ensures forall r :: r in rows ==> r == good
  {
    var m := (if pushed < 0 then 0 else pushed) + offset + 1;
    assert le(good, good) && forall s: seq<Row> :: |Window(s, offset, None)| <= |s|;
    rows := Copies(m, good);
    hide IsRun, SatAll, TotalPreorder, AnswerWithTies, WindowWithTies, Window;
    run := TruncatedRun(w, quals, supported, order, pushed, pass, le, trust, offset, Some(n), good, m);
    TooShort(run.sorted, offset, m);
    if AnswerWithTies(pass, le, rows, offset, n, WindowWithTies(le, run.sorted, offset, n)) {
      CopiesTie(pass, le, m, good, offset, n, WindowWithTies(le, run.sorted, offset, n));
    }
  }

  lemma TooShort(s: seq<Row>, offset: nat, m: nat)
    requires |s| < m && offset < m
    ensures |Window(s, offset, None)| < m - offset
  {
  }

  /** Rows taken to arrive in an order that puts y first, arriving with y last, begin with x. */
  lemma NotFirstTied(pass: Row -> bool, le: RowOrder, n: nat, x: Row, y: Row, offset: nat, m: nat)
    requires TotalPreorder(le) && !le(x, y) && pass(x) && pass(y) && offset < n && m > 0
    ensures var rows := Pairs(n, x, n, y);
      !AnswerWithTies(pass, le, rows, offset, m, WindowWithTies(le, rows, offset, m))
  {
    var rows := Pairs(n, x, n, y);
    FilterAll(pass, rows);
    assert le(x, x);
    FirstOfTied(le, rows, offset, m);
    hide WindowWithTies;
    forall whole | SortedPerm(le, whole, multiset(rows))
      ensures WindowWithTies(le, whole, offset, m) != WindowWithTies(le, rows, offset, m)
    {
      OtherFirst(le, n, x, y, whole, offset);
      FirstOfTied(le, whole, offset, m);
    }
  }

  lemma TrustedTiesRun(w: World, quals: seq<Qual>, supported: Qual -> bool, order: RowOrder, pushed: int,
                       pass: Row -> bool, le: RowOrder, trust: Trust, offset: nat, n: nat, x: Row, y: Row)
    returns (rows: seq<Row>, run: Run)
    requires TotalPreorder(order) && TotalPreorder(le) && n > 0 && pushed == NO_LIMIT
    requires order(x, y) && !le(x, y) && pass(x) && pass(y) && SatAll(w, quals, x) && SatAll(w, quals, y)
    requires !trust.Sorts? && !Presumed(trust, le)(x, y)
    ensures IsRun(w, quals, supported, order, pushed, pass, le, trust, offset, Some(n), [rows], run)
    ensures !AnswerWithTies(pass, le, rows, offset, n, WindowWithTies(le, run.sorted, offset, n))
    ensures forall r :: r in rows ==> r == x || r == y
  {
    hide *;
    rows, run := TrustedRun(w, quals, supported, order, pushed, pass, le, trust, offset, Some(n), x, y);
    NotFirstTied(pass, le, offset + 1, x, y, offset, n);
  }

  lemma FirstOfTied(le: RowOrder, s: seq<Row>, offset: nat, m: nat)
    requires offset < |s| && m > 0
    ensures WindowWithTies(le, s, offset, m) != [] && WindowWithTies(le, s, offset, m)[0] == s[offset]
  {
  }

  /** A limit that is sent loses the tied rows past it: WITH TIES a query that some row passes comes out right
      exactly when LIMIT is 0, or no limit is sent and the plugin's order implies the keys relied on. */
  lemma TiedExactlyWhen(site: Site, q: Query, plan: SortPushdown.SortPlan, relied: nat, typed: Row -> bool, good: Row)
    requires q.shape.withTies && WindowLimit(q.shape).Some? && ReliesOn(q, plan, relied)
    requires WellOrdered(site, q, plan) && AlwaysFaithful(site, q, typed)
    requires RowPasses(site.t, q.restrictions)(good) && typed(good)
    ensures AlwaysTied(site, q, plan, relied, typed) <==>
      || AtRuntime(q.shape.limit) == Some(0)
      || (SentLimit(site, q, plan) == NO_LIMIT && OrderAlwaysKept(site, q, plan, relied, typed))
  {
    assert TotalPreorder(QueryOrder(site.orders, q.keys));
    assert WindowLimit(q.shape).value == 0 <==> AtRuntime(q.shape.limit) == Some(0);
    hide *;
    if WindowLimit(q.shape).value == 0 {
      NoneTied(site, q, plan, relied, typed);
    } else if SentLimit(site, q, plan) != NO_LIMIT {
      TiesLost(site, q, plan, relied, typed, good);
    } else if OrderAlwaysKept(site, q, plan, relied, typed) {
      UnsentTied(site, q, plan, relied, typed);
    } else {
      UnsentWrong(site, q, plan, relied, typed);
    }
  }

  lemma NoneTied(site: Site, q: Query, plan: SortPushdown.SortPlan, relied: nat, typed: Row -> bool)
    requires WindowLimit(q.shape) == Some(0) && TotalPreorder(QueryOrder(site.orders, q.keys))
    ensures AlwaysTied(site, q, plan, relied, typed)
  {
    hide RowPasses, Executes, TotalPreorder, QueryOrder, WindowLimit;
    forall tables, run
      | AllTyped(typed, tables) && (relied > 0 ==> |tables| == 1) && Executes(site, q, plan, relied, tables, run)
      ensures AnswerWithTies(RowPasses(site.t, q.restrictions), QueryOrder(site.orders, q.keys), Concat(tables),
                             WindowOffset(q.shape), 0, ResultWithTies(site, q, run))
    {
      var pass, le := RowPasses(site.t, q.restrictions), QueryOrder(site.orders, q.keys);
      SortSorts(le, Filter(pass, Concat(tables)));
      var whole := Sort(le, Filter(pass, Concat(tables)));
      assert WindowWithTies(le, whole, WindowOffset(q.shape), 0) == [] == ResultWithTies(site, q, run);
    }
  }

  lemma UnsentTied(site: Site, q: Query, plan: SortPushdown.SortPlan, relied: nat, typed: Row -> bool)
    requires WindowLimit(q.shape).Some? && AlwaysFaithful(site, q, typed) && SentLimit(site, q, plan) == NO_LIMIT
    requires OrderAlwaysKept(site, q, plan, relied, typed)
    ensures AlwaysTied(site, q, plan, relied, typed)
  {
    PassingSatisfy(site, q, typed);
    hide RowPasses, SatAll, Executes, SentLimit, QueryOrder, WindowLimit, AlwaysFaithful, AllTyped, OrderAlwaysKept;
    forall tables, run
      | AllTyped(typed, tables) && (relied > 0 ==> |tables| == 1) && Executes(site, q, plan, relied, tables, run)
      ensures AnswerWithTies(RowPasses(site.t, q.restrictions), QueryOrder(site.orders, q.keys), Concat(tables),
                             WindowOffset(q.shape), WindowLimit(q.shape).value, ResultWithTies(site, q, run))
    {
      UnsentSorted(site, q, plan, relied, typed, tables, run);
    }
  }

  lemma KeptOnTables(site: Site, q: Query, plan: SortPushdown.SortPlan, relied: nat, typed: Row -> bool,
                     tables: seq<seq<Row>>)
    requires AllTyped(typed, tables) && OrderAlwaysKept(site, q, plan, relied, typed)
    ensures OrderKept(site, q, plan, relied, tables)
  {
    hide RowPasses, PluginOrder, QueryOrder;
  }

  lemma UnsentSorted(site: Site, q: Query, plan: SortPushdown.SortPlan, relied: nat, typed: Row -> bool,
                     tables: seq<seq<Row>>, run: Run)
    requires SentLimit(site, q, plan) == NO_LIMIT && AllTyped(typed, tables)
    requires Executes(site, q, plan, relied, tables, run)
    requires relied > 0 ==> |tables| == 1
    requires OrderAlwaysKept(site, q, plan, relied, typed)
    requires forall r :: typed(r) && RowPasses(site.t, q.restrictions)(r) ==>
      SatAll(site.t.w, QualsOf(site.t, q.restrictions), r)
    ensures SortedPerm(QueryOrder(site.orders, q.keys), run.sorted,
                       multiset(Filter(RowPasses(site.t, q.restrictions), Concat(tables))))
  {
    KeptOnTables(site, q, plan, relied, typed, tables);
    TrustFollows(site, q, plan, relied, tables);
    SortedMeansPerm(site, q, plan, relied, tables, run);
    hide RowPasses, SatAll, IsRun, SentLimit, TrustHolds, TrustIn, QueryOrder, OrderAlwaysKept, OrderKept;
    CompleteScan(site.t.w, QualsOf(site.t, q.restrictions), QualSupported(site), PluginOrder(site.orders, plan.pushed),
                 SentLimit(site, q, plan), RowPasses(site.t, q.restrictions), QueryOrder(site.orders, q.keys),
                 TrustIn(site, q, relied), WindowOffset(q.shape), WindowLimit(q.shape), tables, run);
    RunSorted(site.t.w, QualsOf(site.t, q.restrictions), QualSupported(site), PluginOrder(site.orders, plan.pushed),
              SentLimit(site, q, plan), RowPasses(site.t, q.restrictions), QueryOrder(site.orders, q.keys),
              TrustIn(site, q, relied), WindowOffset(q.shape), WindowLimit(q.shape), tables, run);
  }

  /** A pair of rows that shows the trust misplaced. */
  lemma MisplacedTrust(site: Site, q: Query, plan: SortPushdown.SortPlan, relied: nat, typed: Row -> bool)
    returns (x: Row, y: Row)
    requires relied <= |q.keys| && !OrderAlwaysKept(site, q, plan, relied, typed)
    ensures typed(x) && typed(y) && RowPasses(site.t, q.restrictions)(x) && RowPasses(site.t, q.restrictions)(y)
    ensures PluginOrder(site.orders, plan.pushed)(x, y) && !QueryOrder(site.orders, q.keys)(x, y)
    ensures var trust := TrustIn(site, q, relied);
      relied > 0 && !trust.Sorts? && !Presumed(trust, QueryOrder(site.orders, q.keys))(x, y)
  {
    PresumedIsRelied(site, q, relied);
    var o := QueryOrder(site.orders, Take(relied, q.keys));
    x, y :| typed(x) && typed(y) && RowPasses(site.t, q.restrictions)(x) && RowPasses(site.t, q.restrictions)(y)
            && PluginOrder(site.orders, plan.pushed)(x, y) && !o(x, y);
    assert QueryOrder(site.orders, [])(x, y);
    assert relied == 0 ==> Take(relied, q.keys) == [];
    hide RowPasses, PluginOrder;
    if QueryOrder(site.orders, q.keys)(x, y) { FirstKeysFollow(site.orders, q.keys, relied, x, y); }
  }

  lemma UnsentWrong(site: Site, q: Query, plan: SortPushdown.SortPlan, relied: nat, typed: Row -> bool)
    requires WindowLimit(q.shape).Some? && WindowLimit(q.shape).value > 0
    requires WellOrdered(site, q, plan) && AlwaysFaithful(site, q, typed) && ReliesOn(q, plan, relied)
    requires SentLimit(site, q, plan) == NO_LIMIT && !OrderAlwaysKept(site, q, plan, relied, typed)
    ensures !AlwaysTied(site, q, plan, relied, typed)
  {
    var x, y := MisplacedTrust(site, q, plan, relied, typed);
    PassesSatisfies(site, q, typed, x);
    PassesSatisfies(site, q, typed, y);
    hide RowPasses, IsRun, QualsOf, SatAll, SentLimit, TotalPreorder, TrustIn, AlwaysFaithful, AnswerWithTies, Answer;
    hide QueryOrder, PluginOrder, QualSupported, WindowLimit, WindowOffset, ReliesOn, WindowWithTies, OrderAlwaysKept,
      Presumed;
    var rows, run := TrustedTiesRun(site.t.w, QualsOf(site.t, q.restrictions), QualSupported(site),
      PluginOrder(site.orders, plan.pushed), SentLimit(site, q, plan), RowPasses(site.t, q.restrictions),
      QueryOrder(site.orders, q.keys), TrustIn(site, q, relied), WindowOffset(q.shape), WindowLimit(q.shape).value, x,
      y);
    TiedShows(site, q, plan, relied, typed, rows, run);
  }

  lemma TiedShows(site: Site, q: Query, plan: SortPushdown.SortPlan, relied: nat, typed: Row -> bool, rows: seq<Row>,
                  run: Run)
    requires WindowLimit(q.shape).Some? && ReliesOn(q, plan, relied) && forall r :: r in rows ==> typed(r)
    requires IsRun(site.t.w, QualsOf(site.t, q.restrictions), QualSupported(site),
                   PluginOrder(site.orders, plan.pushed),
                   SentLimit(site, q, plan), RowPasses(site.t, q.restrictions), QueryOrder(site.orders, q.keys),
                   TrustIn(site, q, relied), WindowOffset(q.shape), WindowLimit(q.shape), [rows], run)
    requires !AnswerWithTies(RowPasses(site.t, q.restrictions), QueryOrder(site.orders, q.keys), rows,
                             WindowOffset(q.shape), WindowLimit(q.shape).value, ResultWithTies(site, q, run))
    ensures !AlwaysTied(site, q, plan, relied, typed)
  {
    hide IsRun, AnswerWithTies, ResultWithTies, RowPasses, QueryOrder, PluginOrder, SentLimit, TrustIn, ReliesOn;
    assert Concat([rows]) == rows;
    assert AllTyped(typed, [rows]);
    assert Executes(site, q, plan, relied, [rows], run);
    assert !AnswerWithTies(RowPasses(site.t, q.restrictions), QueryOrder(site.orders, q.keys), Concat([rows]),
                           WindowOffset(q.shape), WindowLimit(q.shape).value, ResultWithTies(site, q, run));
    hide Executes, AllTyped, WindowLimit, WindowOffset;
  }

  lemma SortedMeansPerm(site: Site, q: Query, plan: SortPushdown.SortPlan, relied: nat, tables: seq<seq<Row>>, run: Run)
    requires Executes(site, q, plan, relied, tables, run)
    ensures multiset(run.sorted) == multiset(Filter(RowPasses(site.t, q.restrictions), run.arrived))
  {
    hide PluginsRun, RowPasses, TrustIn, SentLimit, WindowLimit, WindowOffset;
  }

  lemma TiesLost(site: Site, q: Query, plan: SortPushdown.SortPlan, relied: nat, typed: Row -> bool, good: Row)
    requires WindowLimit(q.shape).Some? && WindowLimit(q.shape).value > 0
    requires WellOrdered(site, q, plan) && AlwaysFaithful(site, q, typed) && ReliesOn(q, plan, relied)
    requires RowPasses(site.t, q.restrictions)(good) && typed(good)
    requires SentLimit(site, q, plan) != NO_LIMIT
    ensures !AlwaysTied(site, q, plan, relied, typed)
  {
    PassesSatisfies(site, q, typed, good);
    hide RowPasses, IsRun, QualsOf, SatAll, SentLimit, TotalPreorder, TrustIn, AlwaysFaithful, AnswerWithTies;
    hide QueryOrder, PluginOrder, QualSupported, WindowLimit, WindowOffset, ReliesOn, WindowWithTies;
    var rows, run := TiesLostRun(site.t.w, QualsOf(site.t, q.restrictions), QualSupported(site),
      PluginOrder(site.orders, plan.pushed), SentLimit(site, q, plan), RowPasses(site.t, q.restrictions),
      QueryOrder(site.orders, q.keys), TrustIn(site, q, relied), WindowOffset(q.shape), WindowLimit(q.shape).value,
      good);
    TiedShows(site, q, plan, relied, typed, rows, run);
  }
}
