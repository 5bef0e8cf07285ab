/** SELECT ... FROM t ORDER BY ... LIMIT 1 at a site with a static schema that can sort by c: three queries whose limit
    is sent and whose answers are not always right. */
module OrderInstances {
  import opened Wrappers
  import opened Sql
  import opened Quals
  import opened Ordering
  import opened LimitPushdown
  import opened SortPushdown
  import opened Pushdown
  import opened PushdownFaults
  import opened PushdownTheorem
  import opened PushdownExactness
  import opened WithTies
  import Instances

  function Rank(s: Scalar): int {
    if s.IntS? then s.i else 0
  }

  /** Ascending by c, with NULLs first or last. */
  predicate ByC(nullsFirst: bool, x: Row, y: Row) {
    var a, b := Column(x, "c"), Column(y, "c");
    if a.None? then nullsFirst || b.None? else if b.None? then !nullsFirst else Rank(a.value) <= Rank(b.value)
  }

  function NullsAt(nullsFirst: bool): RowOrder {
    (x: Row, y: Row) => ByC(nullsFirst, x, y)
  }

  lemma NullsAtSorts(nullsFirst: bool)
    ensures TotalPreorder(NullsAt(nullsFirst))
  {
  }

  /** Postgres places NULLs where the key says; the plugin, which is not told, places them last. */
  const SITE := Site(Instances.T, Names(n => "c", oid => ""), {1}, map["c" := SortOrder.All],
                     Schema(map["t" := TableSchema([], [])], Static), "t",
                     Orders((k: PathKey) => NullsAt(k.nullsFirst), (c, d) => NullsAt(false)))

  function Ordered(key: PathKey, withTies: bool): Query {
    Query(QueryShape(false, false, false, false, 1, false, false, withTies, Constant(Some(1)), Absent), [], [key])
  }

  function KeyOn(expr: Node, nullsFirst: bool): PathKey {
    PathKey([EquivalenceMember({1}, expr)], false, nullsFirst)
  }

  const C := Var(1, 1)

  function GroupFor(key: PathKey): SortGroup {
    SortGroup("c", 1, key.reversed, key.nullsFirst, None, key)
  }

  const ROW: Row := map["c" := Some(IntS(1))]
  const LARGER: Row := map["c" := Some(IntS(2))]
  const NULL_ROW: Row := map[]

  lemma NoClauses(q: Query)
    requires q.restrictions == []
    ensures AlwaysFaithful(SITE, q, EVERY) && forall r :: RowPasses(SITE.t, q.restrictions)(r)
    ensures QualsOf(SITE.t, q.restrictions) == [] && Unhandled(SITE.t, q.restrictions) == 0
  {
    EqualityWorldIsLawful();
    hide Lawful;
  }

  /** The limit is sent wherever all of ORDER BY counts as pushed. */
  lemma LimitSent(key: PathKey, withTies: bool, plan: SortPlan)
    requires plan.allPushed
    ensures SentLimit(SITE, Ordered(key, withTies), plan) == 1 && PlannedRight(Ordered(key, withTies).shape)
  {
    NoClauses(Ordered(key, withTies));
    hide QualsOf, Unhandled, AlwaysFaithful, RowPasses;
  }

  lemma Sane(key: PathKey, withTies: bool, plan: SortPlan)
    ensures WellOrdered(SITE, Ordered(key, withTies), plan)
  {
    var a, b := ColumnOrders(SITE.orders, plan.pushed), KeyOrders(SITE.orders, [key]);
    forall o | o in a || o in b ensures TotalPreorder(o) {
      NullsAtSorts(true);
      NullsAtSorts(false);
    }
    hide TotalPreorder;
    LexPreorder(a);
    LexPreorder(b);
  }

  // ---------- ORDER BY f(c) LIMIT 1 ----------

  const EXPRESSION := Ordered(KeyOn(FuncExpr(7, false, [C]), false), false)

  const UNSORTED := SortPlan(true, [])

  lemma ExpressionPlanned()
    ensures !AllPlain(SITE.names, SITE.relids, EXPRESSION.keys) && SortPlanned(SITE, EXPRESSION, UNSORTED)
  {
    assert EXPRESSION.keys[0] in EXPRESSION.keys;
    assert IsSortPlan(SITE.names, SITE.relids, SITE.sortable, EXPRESSION.keys, UNSORTED, [], []);
  }

  lemma LexOne(o: RowOrder, x: Row, y: Row)
    ensures Lex([o], x, y) == o(x, y)
  {
    assert [o][1..] == [];
  }

  /** Nothing is sorted, and the first row that comes is the answer. */
  lemma ExpressionOrderGoesWrong()
    ensures SortPlanned(SITE, EXPRESSION, UNSORTED) && SentLimit(SITE, EXPRESSION, UNSORTED) == 1
    ensures !AlwaysAnswered(SITE, EXPRESSION, UNSORTED, 0, EVERY)
  {
    ExpressionPlanned();
    LimitSent(EXPRESSION.keys[0], false, UNSORTED);
    Sane(EXPRESSION.keys[0], false, UNSORTED);
    NoClauses(EXPRESSION);
    LexOne(NullsAt(false), LARGER, ROW);
    assert KeyOrders(SITE.orders, EXPRESSION.keys) == [NullsAt(false)];
    assert !QueryOrder(SITE.orders, EXPRESSION.keys)(LARGER, ROW);
    assert EVERY(ROW) && EVERY(LARGER) && AtRuntime(EXPRESSION.shape.limit) == Some(1) && SITE.schema.mode == Static;
    hide *;
    assert 1 != NO_LIMIT by { assert NO_LIMIT == -1; }
    ExpressionOrderRightExactlyWhen(SITE, EXPRESSION, UNSORTED, EVERY, ROW);
  }

  // ---------- ORDER BY c NULLS FIRST LIMIT 1 ----------

  const NULLS_FIRST := Ordered(KeyOn(C, true), false)

  const SORTED := SortPlan(true, [GroupFor(KeyOn(C, true))])

  lemma ColumnPlanned(key: PathKey, withTies: bool)
    requires key == KeyOn(C, key.nullsFirst)
    ensures PlainColumn(SITE.names, SITE.relids, key) == Some(GroupFor(key))
    ensures SortPlanned(SITE, Ordered(key, withTies), SortPlan(true, [GroupFor(key)]))
  {
    var g := GroupFor(key);
    assert MemberExpr(key.members, {1}) == Some(C);
    assert WithAttnum(1, [g]) == [g] by { assert [g][1..] == []; }
    assert Matched([g], [g]) == [g] by { assert [g][1..] == []; }
    assert Declared(SITE.sortable, g);
    assert IsSortPlan(SITE.names, SITE.relids, SITE.sortable, [key], SortPlan(true, [g]), [g], [g]);
  }

  /** The plugin sorts by the column and the direction it is told, and its first row is not the NULL asked for. */
  lemma NullsFirstGoesWrong()
    ensures SortPlanned(SITE, NULLS_FIRST, SORTED) && SentLimit(SITE, NULLS_FIRST, SORTED) == 1
    ensures !AlwaysAnswered(SITE, NULLS_FIRST, SORTED, 0, EVERY)
  {
    var key := NULLS_FIRST.keys[0];
    ColumnPlanned(key, false);
    LimitSent(key, false, SORTED);
    Sane(key, false, SORTED);
    NoClauses(NULLS_FIRST);
    assert SITE.orders.plugin("c", false)(ROW, NULL_ROW) && !SITE.orders.postgres(key)(ROW, NULL_ROW);
    assert EVERY(ROW) && EVERY(NULL_ROW) && AtRuntime(NULLS_FIRST.shape.limit) == Some(1) && SITE.schema.mode == Static;
    assert ReliesOn(NULLS_FIRST, SORTED, 0) && GroupFor(key).attname == "c" && !GroupFor(key).reversed;
    hide *;
    assert 1 != NO_LIMIT by { assert NO_LIMIT == -1; }
    OneKeyRightExactlyWhen(SITE, NULLS_FIRST, SORTED, 0, EVERY, ROW);
  }

  // ---------- ORDER BY c FETCH FIRST 1 ROW WITH TIES ----------

  const TIED := Ordered(KeyOn(C, false), true)

  const TIED_PLAN := SortPlan(true, [GroupFor(KeyOn(C, false))])

  /** One row is sent, however many share its c. */
  lemma TiesGoWrong()
    ensures SortPlanned(SITE, TIED, TIED_PLAN) && SentLimit(SITE, TIED, TIED_PLAN) == 1
    ensures WindowLimit(TIED.shape) == Some(1) && !AlwaysTied(SITE, TIED, TIED_PLAN, 0, EVERY)
  {
    var key := TIED.keys[0];
    ColumnPlanned(key, true);
    LimitSent(key, true, TIED_PLAN);
    Sane(key, true, TIED_PLAN);
    NoClauses(TIED);
    assert ReliesOn(TIED, TIED_PLAN, 0) && EVERY(ROW) && AtRuntime(TIED.shape.limit) == Some(1) &&
      WindowLimit(TIED.shape) == Some(1) &&
      TIED.shape.withTies;
    hide *;
    assert 1 != NO_LIMIT by { assert NO_LIMIT == -1; }
    TiedExactlyWhen(SITE, TIED, TIED_PLAN, 0, EVERY, ROW);
  }
}
