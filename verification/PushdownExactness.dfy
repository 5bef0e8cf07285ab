/** For a site and a query: exactly when every answer comes out right. */
module PushdownExactness {
  import opened Wrappers
  import opened Sql
  import opened Quals
  import opened QualMeaning
  import opened Ordering
  import opened LimitPushdown
  import opened SortPushdown
  import opened Pushdown
  import opened PushdownFaults
  import opened PushdownTheorem

  /** Whatever the tables hold and the plugins do, the query is answered: over one connection where Postgres relies
      on the order of arrival. */
  ghost predicate AlwaysAnswered(site: Site, q: Query, plan: SortPlan, relied: nat, typed: Row -> bool) {
    forall tables, run ::
      AllTyped(typed, tables) && (relied > 0 ==> |tables| == 1) && Executes(site, q, plan, relied, tables, run) ==>
        Answer(RowPasses(site.t, q.restrictions), QueryOrder(site.orders, q.keys), Concat(tables),
               WindowOffset(q.shape), WindowLimit(q.shape), run.result)
  }

  /** Both sides sort by total preorders, and LIMIT and OFFSET are not negative. */
  ghost predicate WellOrdered(site: Site, q: Query, plan: SortPlan) {
    && TotalPreorder(PluginOrder(site.orders, plan.pushed)) && TotalPreorder(QueryOrder(site.orders, q.keys))
    && OrZero(AtRuntime(q.shape.limit)) >= 0 && OrZero(AtRuntime(q.shape.offset)) >= 0
  }

  /** A WHERE read faithfully on every row of the columns' types. */
  ghost predicate AlwaysFaithful(site: Site, q: Query, typed: Row -> bool) {
    && Lawful(site.t.w)
    && forall r: Row, n :: typed(r) && n in q.restrictions ==> Faithful(site.t.w, RowEnv(site.t, r), n)
  }

  /** On the rows that pass, the plugin's order implies the order by the first n sort keys. */
  ghost predicate OrderAlwaysKept(site: Site, q: Query, plan: SortPlan, n: nat, typed: Row -> bool) {
    KeepsOrder(PluginOrder(site.orders, plan.pushed), QueryOrder(site.orders, Take(n, q.keys)),
               RowPasses(site.t, q.restrictions), typed)
  }

  /** No row that the quals under key columns let through fails the recheck and sorts at or before one that passes. */
  ghost predicate NoneInTheWay(site: Site, q: Query, plan: SortPlan, typed: Row -> bool) {
    NoneBefore(site.t.w, QualsOf(site.t, q.restrictions), QualSupported(site), PluginOrder(site.orders, plan.pushed),
               RowPasses(site.t, q.restrictions), typed)
  }

  lemma PassesSatisfies(site: Site, q: Query, typed: Row -> bool, r: Row)
    requires AlwaysFaithful(site, q, typed) && typed(r)
    ensures RowPasses(site.t, q.restrictions)(r) ==> SatAll(site.t.w, QualsOf(site.t, q.restrictions), r)
    ensures Unhandled(site.t, q.restrictions) == 0 && SatAll(site.t.w, QualsOf(site.t, q.restrictions), r) ==>
      RowPasses(site.t, q.restrictions)(r)
  {
    QualsLoseNothing(site.t, RowEnv(site.t, r), q.restrictions);
  }

  lemma PassingSatisfy(site: Site, q: Query, typed: Row -> bool)
    requires AlwaysFaithful(site, q, typed)
    ensures forall r :: typed(r) && RowPasses(site.t, q.restrictions)(r) ==>
      SatAll(site.t.w, QualsOf(site.t, q.restrictions), r)
  {
    forall r | typed(r) && RowPasses(site.t, q.restrictions)(r)
      ensures SatAll(site.t.w, QualsOf(site.t, q.restrictions), r)
    {
      PassesSatisfies(site, q, typed, r);
    }
  }

  // ---------- what Postgres presumes ----------

  lemma {:induction false} KeyOrdersPrefix(o: Orders, keys: seq<PathKey>, n: nat)
    requires n <= |keys|
    ensures KeyOrders(o, keys[..n]) == KeyOrders(o, keys)[..n]
  {
  }

  /** ORDER BY implies the order by its first keys. */
  lemma FirstKeysFollow(o: Orders, keys: seq<PathKey>, n: nat, x: Row, y: Row)
    requires QueryOrder(o, keys)(x, y)
    ensures QueryOrder(o, Take(n, keys))(x, y)
  {
    if n < |keys| {
      KeyOrdersPrefix(o, keys, n);
      LexPrefix(KeyOrders(o, keys), n, x, y);
    }
  }

  lemma PresumedIsRelied(site: Site, q: Query, relied: nat)
    requires relied <= |q.keys|
    ensures var le, trust := QueryOrder(site.orders, q.keys), TrustIn(site, q, relied);
      && (!trust.Sorts? && !Trivial(le) ==> relied > 0)
      && (trust.Presumes? ==> forall x, y :: le(x, y) ==> trust.order(x, y))
      && (forall x, y :: Presumed(trust, le)(x, y) <==> QueryOrder(site.orders, Take(relied, q.keys))(x, y))
  {
    forall x, y | QueryOrder(site.orders, q.keys)(x, y) ensures QueryOrder(site.orders, Take(relied, q.keys))(x, y) {
      FirstKeysFollow(site.orders, q.keys, relied, x, y);
    }
  }

  // ---------- exactly when ----------

  /** What the lemmas on runs call always right, for the run a site makes of a query. */
  ghost predicate SiteRight(site: Site, q: Query, plan: SortPlan, relied: nat, typed: Row -> bool) {
    AlwaysRight(site.t.w, QualsOf(site.t, q.restrictions), QualSupported(site), PluginOrder(site.orders, plan.pushed),
                SentLimit(site, q, plan), RowPasses(site.t, q.restrictions), QueryOrder(site.orders, q.keys),
                TrustIn(site, q, relied), WindowOffset(q.shape), WindowLimit(q.shape), typed, relied > 0)
  }

  lemma AnsweredIsRight(site: Site, q: Query, plan: SortPlan, relied: nat, typed: Row -> bool)
    requires ReliesOn(q, plan, relied)
    ensures AlwaysAnswered(site, q, plan, relied, typed) <==> SiteRight(site, q, plan, relied, typed)
  {
    hide IsRun, Answer, RowPasses, QualsOf, QualSupported, PluginOrder, SentLimit, TrustIn, WindowOffset, WindowLimit,
      QueryOrder;
    hide AllTyped, ReliesOn;
  }

  /** The number sent covers the window exactly when the plan's was right. */
  lemma NumberCovers(site: Site, q: Query, plan: SortPlan)
    requires OrZero(AtRuntime(q.shape.limit)) >= 0 && OrZero(AtRuntime(q.shape.offset)) >= 0
    requires SentLimit(site, q, plan) != NO_LIMIT && AtRuntime(q.shape.limit) != Some(0)
    ensures WindowLimit(q.shape).Some? && WindowLimit(q.shape).value > 0
    ensures PlannedRight(q.shape) <==> WindowOffset(q.shape) + WindowLimit(q.shape).value <= SentLimit(site, q, plan)
  {
    PlannedLimitSafeExactlyWhen(q.shape);
    hide QualsOf, Unhandled, MayPush, PlannedRight, Wrap32;
  }

  /** A query that some row passes is always answered exactly when LIMIT is 0, or: without a limit sent, the plugin's
      order implies the keys Postgres relies on; with one, the planned limit is right (PlannedRight says what that is
      in terms of the clauses), the plugin's order implies ORDER BY, and no row the plugin may keep is in the way. */
  lemma AnsweredExactlyWhen(site: Site, q: Query, plan: SortPlan, relied: nat, typed: Row -> bool, good: Row)
    requires WellOrdered(site, q, plan) && ReliesOn(q, plan, relied) && AlwaysFaithful(site, q, typed)
    requires RowPasses(site.t, q.restrictions)(good) && typed(good)
    ensures AlwaysAnswered(site, q, plan, relied, typed) <==>
      || AtRuntime(q.shape.limit) == Some(0)
      || (if SentLimit(site, q, plan) == NO_LIMIT then OrderAlwaysKept(site, q, plan, relied, typed)
          else
            && PlannedRight(q.shape)
            && OrderAlwaysKept(site, q, plan, |q.keys|, typed)
            && NoneInTheWay(site, q, plan, typed))
  {
    if AtRuntime(q.shape.limit) == Some(0) {
      NoneWanted(site, q, plan, relied, typed);
    } else if SentLimit(site, q, plan) == NO_LIMIT {
      UnsentExactlyWhen(site, q, plan, relied, typed);
    } else {
      SentExactlyWhen(site, q, plan, relied, typed, good);
    }
  }

  lemma NoneWanted(site: Site, q: Query, plan: SortPlan, relied: nat, typed: Row -> bool)
    requires TotalPreorder(QueryOrder(site.orders, q.keys)) && AtRuntime(q.shape.limit) == Some(0)
    ensures AlwaysAnswered(site, q, plan, relied, typed)
  {
    forall tables, run
      | AllTyped(typed, tables) && (relied > 0 ==> |tables| == 1) && Executes(site, q, plan, relied, tables, run)
      ensures Answer(RowPasses(site.t, q.restrictions), QueryOrder(site.orders, q.keys), Concat(tables),
                     WindowOffset(q.shape), WindowLimit(q.shape), run.result)
    {
      ResultIsWindow(site, q, plan, relied, tables, run);
      hide Executes, Answer, RowPasses, QueryOrder, TotalPreorder;
      EmptyWindowAnswer(RowPasses(site.t, q.restrictions), QueryOrder(site.orders, q.keys), Concat(tables),
                        WindowOffset(q.shape), run.sorted);
    }
  }

  lemma UnsentExactlyWhen(site: Site, q: Query, plan: SortPlan, relied: nat, typed: Row -> bool)
    requires WellOrdered(site, q, plan) && ReliesOn(q, plan, relied) && AlwaysFaithful(site, q, typed)
    requires SentLimit(site, q, plan) == NO_LIMIT && AtRuntime(q.shape.limit) != Some(0)
    ensures AlwaysAnswered(site, q, plan, relied, typed) <==> OrderAlwaysKept(site, q, plan, relied, typed)
  {
    AnsweredIsRight(site, q, plan, relied, typed);
    PassingSatisfy(site, q, typed);
    PresumedIsRelied(site, q, relied);
    assert WindowLimit(q.shape) != Some(0);
    hide AlwaysRight, RowPasses, QualsOf, SatAll, QualSupported, PluginOrder, QueryOrder, TrustIn, SentLimit,
      TotalPreorder;
    hide AlwaysFaithful, AlwaysAnswered, WindowLimit, WindowOffset, Presumed, Trivial;
    UnlimitedRightExactlyWhen(site.t.w, QualsOf(site.t, q.restrictions), QualSupported(site),
      PluginOrder(site.orders, plan.pushed), SentLimit(site, q, plan), RowPasses(site.t, q.restrictions),
      QueryOrder(site.orders, q.keys), TrustIn(site, q, relied), WindowOffset(q.shape), WindowLimit(q.shape), typed,
      relied > 0);
  }

  lemma SentExactlyWhen(site: Site, q: Query, plan: SortPlan, relied: nat, typed: Row -> bool, good: Row)
    requires WellOrdered(site, q, plan) && ReliesOn(q, plan, relied) && AlwaysFaithful(site, q, typed)
    requires RowPasses(site.t, q.restrictions)(good) && typed(good)
    requires SentLimit(site, q, plan) != NO_LIMIT && AtRuntime(q.shape.limit) != Some(0)
    ensures AlwaysAnswered(site, q, plan, relied, typed) <==>
      && PlannedRight(q.shape)
      && OrderAlwaysKept(site, q, plan, |q.keys|, typed)
      && NoneInTheWay(site, q, plan, typed)
  {
    AnsweredIsRight(site, q, plan, relied, typed);
    PassingSatisfy(site, q, typed);
    PresumedIsRelied(site, q, relied);
    NumberCovers(site, q, plan);
    assert Take(|q.keys|, q.keys) == q.keys;
    hide AlwaysRight, RowPasses, QualsOf, SatAll, QualSupported, PluginOrder, QueryOrder, TrustIn, SentLimit,
      TotalPreorder;
    hide AlwaysFaithful, AlwaysAnswered, WindowLimit, WindowOffset, PlannedRight, Trivial, KeepsOrder, NoneBefore, Take;
    PushedRightExactlyWhen(site.t.w, QualsOf(site.t, q.restrictions), QualSupported(site),
      PluginOrder(site.orders, plan.pushed), SentLimit(site, q, plan), RowPasses(site.t, q.restrictions),
      QueryOrder(site.orders, q.keys), TrustIn(site, q, relied), WindowOffset(q.shape), WindowLimit(q.shape).value,
      typed, relied > 0, good);
  }

  // ---------- the schema's mode ----------

  /** In static and dynamic mode no row is in the way of one that passes: a limit that is sent was tested. */
  lemma TestedLeavesNone(site: Site, q: Query, plan: SortPlan, typed: Row -> bool)
    requires AlwaysFaithful(site, q, typed) && site.schema.mode != OtherMode && SentLimit(site, q, plan) != NO_LIMIT
    ensures NoneInTheWay(site, q, plan, typed)
  {
    SentLimitIsTested(site, q, plan);
    forall r | typed(r) && SatSupported(site.t.w, QualsOf(site.t, q.restrictions), QualSupported(site), r)
      ensures RowPasses(site.t, q.restrictions)(r)
    {
      PassesSatisfies(site, q, typed, r);
    }
  }

  /** With a static or dynamic schema, a limit that is sent (and is not LIMIT 0) leaves every answer right exactly
      when the number is right and the order the plugin sorts by implies ORDER BY on the rows that pass. */
  lemma TestedAnsweredExactlyWhen(site: Site, q: Query, plan: SortPlan, relied: nat, typed: Row -> bool, good: Row)
    requires WellOrdered(site, q, plan) && ReliesOn(q, plan, relied) && AlwaysFaithful(site, q, typed)
    requires RowPasses(site.t, q.restrictions)(good) && typed(good)
    requires site.schema.mode != OtherMode && SentLimit(site, q, plan) != NO_LIMIT &&
      AtRuntime(q.shape.limit) != Some(0)
    ensures AlwaysAnswered(site, q, plan, relied, typed) <==>
      && PlannedRight(q.shape)
      && forall x, y ::
           && typed(x) && typed(y)
           && RowPasses(site.t, q.restrictions)(x) && RowPasses(site.t, q.restrictions)(y)
           && PluginOrder(site.orders, plan.pushed)(x, y)
           ==> QueryOrder(site.orders, q.keys)(x, y)
  {
    SentExactlyWhen(site, q, plan, relied, typed, good);
    TestedLeavesNone(site, q, plan, typed);
    assert Take(|q.keys|, q.keys) == q.keys;
    hide RowPasses, PluginOrder, QueryOrder, Take, AlwaysAnswered, AlwaysFaithful, WellOrdered, NoneInTheWay,
      SentLimit, PlannedRight;
  }

  /** With any other schema mode the limit goes out untested: then, besides, no row the supported quals let through
      may fail the recheck and sort at or before one that passes. */
  lemma OtherModeRightExactlyWhen(site: Site, q: Query, plan: SortPlan, relied: nat, typed: Row -> bool, good: Row)
    requires WellOrdered(site, q, plan) && ReliesOn(q, plan, relied) && AlwaysFaithful(site, q, typed)
    requires RowPasses(site.t, q.restrictions)(good) && typed(good)
    requires site.schema.mode == OtherMode && plan.allPushed
    requires PlannedLimit(q.shape) != NO_LIMIT && AtRuntime(q.shape.limit) != Some(0)
    ensures SentLimit(site, q, plan) == PlannedLimit(q.shape)
    ensures AlwaysAnswered(site, q, plan, relied, typed) <==>
      && PlannedRight(q.shape)
      && OrderAlwaysKept(site, q, plan, |q.keys|, typed)
      && NoneInTheWay(site, q, plan, typed)
  {
    assert SentLimit(site, q, plan) == PlannedLimit(q.shape) by { hide QualsOf, Unhandled, MayPush, PlannedLimit; }
    SentExactlyWhen(site, q, plan, relied, typed, good);
  }

  // ---------- an ORDER BY that is no plain column ----------

  /** It counts as pushed although the plugin is asked for no order at all: a limit that is sent leaves every answer
      right exactly when the number is right and ORDER BY tells no two rows that pass apart. */
  lemma ExpressionOrderRightExactlyWhen(site: Site, q: Query, plan: SortPlan, typed: Row -> bool, good: Row)
    requires SortPlanned(site, q, plan) && !AllPlain(site.names, site.relids, q.keys)
    requires WellOrdered(site, q, plan) && AlwaysFaithful(site, q, typed)
    requires RowPasses(site.t, q.restrictions)(good) && typed(good)
    requires site.schema.mode != OtherMode && SentLimit(site, q, plan) != NO_LIMIT &&
      AtRuntime(q.shape.limit) != Some(0)
    ensures AlwaysAnswered(site, q, plan, 0, typed) <==>
      && PlannedRight(q.shape)
      && forall x, y ::
           typed(x) && typed(y) && RowPasses(site.t, q.restrictions)(x) && RowPasses(site.t, q.restrictions)(y) ==>
             QueryOrder(site.orders, q.keys)(x, y)
  {
    LimitKeptExactlyWhen(site, q, plan);
    assert ReliesOn(q, plan, 0);
    assert Trivial(PluginOrder(site.orders, plan.pushed));
    hide RowPasses, PluginOrder, QueryOrder, AlwaysAnswered, AlwaysFaithful, WellOrdered, SentLimit, PlannedRight,
      SortPlanned;
    TestedAnsweredExactlyWhen(site, q, plan, 0, typed, good);
  }

  /** One key that is a plain column: the plugin is sent the column and the direction, so where the two sides place
      NULLs or collate differently, the answers are right exactly when what the plugin makes of that implies the key. */
  lemma OneKeyRightExactlyWhen(site: Site, q: Query, plan: SortPlan, relied: nat, typed: Row -> bool, good: Row)
    requires |q.keys| == 1 && PlainColumn(site.names, site.relids, q.keys[0]).Some?
    requires SortPlanned(site, q, plan) && ReliesOn(q, plan, relied)
    requires WellOrdered(site, q, plan) && AlwaysFaithful(site, q, typed)
    requires RowPasses(site.t, q.restrictions)(good) && typed(good)
    requires site.schema.mode != OtherMode && SentLimit(site, q, plan) != NO_LIMIT &&
      AtRuntime(q.shape.limit) != Some(0)
    ensures AlwaysAnswered(site, q, plan, relied, typed) <==>
      var g := PlainColumn(site.names, site.relids, q.keys[0]).value;
      && PlannedRight(q.shape)
      && forall x, y ::
           && typed(x) && typed(y)
           && RowPasses(site.t, q.restrictions)(x) && RowPasses(site.t, q.restrictions)(y)
           && site.orders.plugin(g.attname, g.reversed)(x, y)
           ==> site.orders.postgres(q.keys[0])(x, y)
  {
    TestedAnsweredExactlyWhen(site, q, plan, relied, typed, good);
    OneKeyOrders(site, q, plan);
    hide RowPasses, PluginOrder, QueryOrder, AlwaysAnswered, AlwaysFaithful, WellOrdered, PlannedRight, SortPlanned;
    hide SentLimit, ReliesOn;
  }

  lemma OneKeyOrders(site: Site, q: Query, plan: SortPlan)
    requires |q.keys| == 1 && PlainColumn(site.names, site.relids, q.keys[0]).Some?
    requires SortPlanned(site, q, plan) && plan.allPushed
    ensures var g := PlainColumn(site.names, site.relids, q.keys[0]).value;
      forall x, y ::
        && PluginOrder(site.orders, plan.pushed)(x, y) == site.orders.plugin(g.attname, g.reversed)(x, y)
        && QueryOrder(site.orders, q.keys)(x, y) == site.orders.postgres(q.keys[0])(x, y)
  {
    assert AllPlain(site.names, site.relids, q.keys);
    AllPushedIsOrderBy(site, q, plan);
    var a, b := ColumnOrders(site.orders, plan.pushed), KeyOrders(site.orders, q.keys);
    hide SortPlanned;
    forall x, y ensures Lex(a, x, y) == a[0](x, y) && Lex(b, x, y) == b[0](x, y) {
      assert a[1..] == [] && b[1..] == [];
    }
  }

  // ---------- window functions and set-returning targets ----------

  /** The scan brings every row of the tables that passes. */
  ghost predicate AlwaysComplete(site: Site, q: Query, plan: SortPlan, relied: nat, typed: Row -> bool) {
    forall tables, run :: AllTyped(typed, tables) && Executes(site, q, plan, relied, tables, run) ==>
      multiset(Filter(RowPasses(site.t, q.restrictions), run.arrived))
      == multiset(Filter(RowPasses(site.t, q.restrictions), Concat(tables)))
  }

  ghost predicate SiteAll(site: Site, q: Query, plan: SortPlan, relied: nat, typed: Row -> bool) {
    AlwaysAll(site.t.w, QualsOf(site.t, q.restrictions), QualSupported(site), PluginOrder(site.orders, plan.pushed),
              SentLimit(site, q, plan), RowPasses(site.t, q.restrictions), QueryOrder(site.orders, q.keys),
              TrustIn(site, q, relied), WindowOffset(q.shape), WindowLimit(q.shape), typed)
  }

  lemma CompleteIsAll(site: Site, q: Query, plan: SortPlan, relied: nat, typed: Row -> bool)
    requires ReliesOn(q, plan, relied)
    ensures AlwaysComplete(site, q, plan, relied, typed) <==> SiteAll(site, q, plan, relied, typed)
  {
    hide IsRun, RowPasses, QualsOf, QualSupported, PluginOrder, SentLimit, TrustIn, WindowOffset, WindowLimit,
      QueryOrder;
    hide AllTyped, ReliesOn, Filter, Concat;
  }

  function Flagged(shape: QueryShape, windows: bool, targetSets: bool, withTies: bool): QueryShape {
    shape.(windows := windows, targetSets := targetSets, withTies := withTies)
  }

  /** That is so exactly when no limit is sent; and window functions and set-returning targets, which need all
      those rows, and WITH TIES make no difference to what is sent. */
  lemma WholeScanExactlyWhen(site: Site, q: Query, plan: SortPlan, relied: nat, typed: Row -> bool, good: Row)
    requires WellOrdered(site, q, plan) && ReliesOn(q, plan, relied) && AlwaysFaithful(site, q, typed)
    requires RowPasses(site.t, q.restrictions)(good) && typed(good)
    ensures AlwaysComplete(site, q, plan, relied, typed) <==> SentLimit(site, q, plan) == NO_LIMIT
    ensures forall windows, targetSets, withTies ::
      SentLimit(site, q.(shape := Flagged(q.shape, windows, targetSets, withTies)), plan) == SentLimit(site, q, plan)
  {
    CompleteIsAll(site, q, plan, relied, typed);
    PassingSatisfy(site, q, typed);
    NotLookedAt(site, q, plan);
    hide AlwaysAll, RowPasses, QualsOf, SatAll, QualSupported, PluginOrder, QueryOrder, TrustIn, SentLimit,
      TotalPreorder;
    hide AlwaysFaithful, AlwaysComplete, WindowLimit, WindowOffset, ReliesOn;
    ScanCompleteExactlyWhen(site.t.w, QualsOf(site.t, q.restrictions), QualSupported(site),
      PluginOrder(site.orders, plan.pushed), SentLimit(site, q, plan), RowPasses(site.t, q.restrictions),
      QueryOrder(site.orders, q.keys), TrustIn(site, q, relied), WindowOffset(q.shape), WindowLimit(q.shape), typed,
      good);
  }

  lemma NotLookedAt(site: Site, q: Query, plan: SortPlan)
    ensures forall windows, targetSets, withTies ::
      SentLimit(site, q.(shape := Flagged(q.shape, windows, targetSets, withTies)), plan) == SentLimit(site, q, plan)
  {
    hide ConnectionLimit, QualsOf, Unhandled, Wrap32;
  }
}
