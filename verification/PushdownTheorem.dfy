/** The decisions of planning, translation and limit mapping composed: pushing WHERE, ORDER BY and
    LIMIT down to the plugin changes no answer. */
module PushdownTheorem {
  import opened Wrappers
  import opened Sql
  import opened Quals
  import opened QualMeaning
  import opened Ordering
  import opened LimitPushdown
  import opened SortPushdown
  import opened Pushdown
  import opened PushdownFaults
  import opened QualShapes

  // ---------- ORDER BY as an order on rows ----------

  /** Keys compared one after the other. */
  ghost predicate Lex(orders: seq<RowOrder>, x: Row, y: Row) {
    orders == [] || (orders[0](x, y) && (orders[0](y, x) ==> Lex(orders[1..], x, y)))
  }

  ghost function LexOrder(orders: seq<RowOrder>): RowOrder {
    (x, y) => Lex(orders, x, y)
  }

  lemma {:induction false} LexTotal(orders: seq<RowOrder>, x: Row, y: Row)
    requires forall o :: o in orders ==> TotalPreorder(o)
    ensures Lex(orders, x, y) || Lex(orders, y, x)
  {
    if orders != [] {
      assert orders[0] in orders;
      LexTotal(orders[1..], x, y);
    }
  }

  lemma {:induction false} LexTransitive(orders: seq<RowOrder>, x: Row, y: Row, z: Row)
    requires forall o :: o in orders ==> TotalPreorder(o)
    requires Lex(orders, x, y) && Lex(orders, y, z)
    ensures Lex(orders, x, z)
  {
    if orders != [] {
      var o := orders[0];
      assert o in orders;
      assert o(x, y) && o(y, z) && o(x, z);
      if o(z, x) {
        assert o(y, x) && o(z, y);
        LexTransitive(orders[1..], x, y, z);
      }
    }
  }

  lemma LexPreorder(orders: seq<RowOrder>)
    requires forall o :: o in orders ==> TotalPreorder(o)
    ensures TotalPreorder(LexOrder(orders))
  {
    forall x, y ensures LexOrder(orders)(x, y) || LexOrder(orders)(y, x) { LexTotal(orders, x, y); }
    forall x, y, z | LexOrder(orders)(x, y) && LexOrder(orders)(y, z) ensures LexOrder(orders)(x, z) {
      LexTransitive(orders, x, y, z);
    }
  }

  lemma {:induction false} LexAgrees(a: seq<RowOrder>, b: seq<RowOrder>, x: Row, y: Row)
    requires |a| == |b|
    requires forall i :: 0 <= i < |a| ==> a[i](x, y) == b[i](x, y) && a[i](y, x) == b[i](y, x)
    ensures Lex(a, x, y) == Lex(b, x, y)
  {
    if a != [] { LexAgrees(a[1..], b[1..], x, y); }
  }

  // ---------- a query and its execution ----------

  /** How Postgres orders rows by a key, and how the plugin orders them by a column and a direction:
      the plugin is told neither where NULLs go nor which collation holds. */
  datatype Orders = Orders(postgres: PathKey -> RowOrder, plugin: (string, bool) -> RowOrder)

  ghost function KeyOrders(o: Orders, keys: seq<PathKey>): (r: seq<RowOrder>)
    ensures |r| == |keys| && forall i :: 0 <= i < |keys| ==> r[i] == o.postgres(keys[i])
  {
    if keys == [] then [] else [o.postgres(keys[0])] + KeyOrders(o, keys[1..])
  }

  ghost function QueryOrder(o: Orders, keys: seq<PathKey>): RowOrder {
    LexOrder(KeyOrders(o, keys))
  }

  ghost function ColumnOrders(o: Orders, pushed: seq<SortGroup>): (r: seq<RowOrder>)
    ensures |r| == |pushed| && forall i :: 0 <= i < |pushed| ==> r[i] == o.plugin(pushed[i].attname, pushed[i].reversed)
  {
    if pushed == [] then [] else [o.plugin(pushed[0].attname, pushed[0].reversed)] + ColumnOrders(o, pushed[1..])
  }

  /** The order getSortColumns asks the plugin for. */
  ghost function PluginOrder(o: Orders, pushed: seq<SortGroup>): RowOrder {
    LexOrder(ColumnOrders(o, pushed))
  }

  /** The catalogue, the plugin's schema and the relation being scanned. */
  datatype Site = Site(
    t: Translation, names: Names, relids: set<nat>, sortable: map<string, SortOrder>, schema: Schema, table: string,
    orders: Orders)

  datatype Query = Query(shape: QueryShape, restrictions: seq<Node>, keys: seq<PathKey>)

  /** What PlanSort decided for the query. */
  ghost predicate SortPlanned(site: Site, q: Query, plan: SortPlan) {
    SortPlanFor(site.names, site.relids, site.sortable, q.keys, plan)
  }

  /** goFdwBeginForeignScan drops the limit unless every sort field was pushed; the hub may drop it
      for a connection. */
  ghost function SentLimit(site: Site, q: Query, plan: SortPlan): int {
    ConnectionLimit(site.schema, site.table, QualsOf(site.t, q.restrictions), Unhandled(site.t, q.restrictions),
                    if plan.allPushed then PlannedLimit(q.shape) else NO_LIMIT)
  }

  ghost function RowEnv(t: Translation, r: Row): Env {
    t.start.(row := r)
  }

  ghost function RowPasses(t: Translation, ns: seq<Node>): Row -> bool {
    r => PassesAll(t.w, RowEnv(t, r), ns)
  }

  ghost function QualSupported(site: Site): Qual -> bool {
    q => site.table in site.schema.tables && Supported(site.schema.tables[site.table], q)
  }

  ghost function WindowLimit(q: QueryShape): Option<nat> {
    match AtRuntime(q.limit) case None => None case Some(n) => Some(if n >= 0 then n else 0)
  }

  ghost function WindowOffset(q: QueryShape): nat {
    var o := OrZero(AtRuntime(q.offset)); if o >= 0 then o else 0
  }

  /** Postgres relies on the arrival being sorted by the first keys of ORDER BY: those the path carries as
      pushed. */
  ghost predicate ReliesOn(q: Query, plan: SortPlan, relied: nat) {
    && relied <= |plan.pushed| && relied <= |q.keys|
    && forall i :: 0 <= i < relied ==> plan.pushed[i].key == q.keys[i]
  }

  /** Relying on all keys (or there being none) nothing is sorted; on some, the rest is sorted on top. */
  ghost function TrustIn(site: Site, q: Query, relied: nat): Trust {
    if relied >= |q.keys| then AsIs
    else if relied == 0 then Sorts
    else Presumes(QueryOrder(site.orders, Take(relied, q.keys)))
  }

  /** One execution of the query over the tables of its connections. */
  ghost predicate Executes(site: Site, q: Query, plan: SortPlan, relied: nat, tables: seq<seq<Row>>, run: Run) {
    && ReliesOn(q, plan, relied)
    && IsRun(site.t.w, QualsOf(site.t, q.restrictions), QualSupported(site), PluginOrder(site.orders, plan.pushed),
             SentLimit(site, q, plan), RowPasses(site.t, q.restrictions), QueryOrder(site.orders, q.keys),
             TrustIn(site, q, relied), WindowOffset(q.shape), WindowLimit(q.shape), tables, run)
  }

  /** The clauses are ones the translation reads correctly, on every row of the tables. */
  ghost predicate ReadFaithfully(site: Site, q: Query, tables: seq<seq<Row>>) {
    && Lawful(site.t.w)
    && forall r, n :: r in Concat(tables) && n in q.restrictions ==> Faithful(site.t.w, RowEnv(site.t, r), n)
  }

  /** On the rows of the tables that pass, the plugin's order implies the order by the first n sort keys. */
  ghost predicate OrderKept(site: Site, q: Query, plan: SortPlan, n: nat, tables: seq<seq<Row>>) {
    Refines(PluginOrder(site.orders, plan.pushed), QueryOrder(site.orders, Take(n, q.keys)),
            RowPasses(site.t, q.restrictions), Concat(tables))
  }

  /** By the first n sort keys that are columns the table declares for their direction, the plugin orders the rows of
      the tables as Postgres does. By others it may do anything. */
  ghost predicate OrdersAgree(site: Site, q: Query, n: nat, tables: seq<seq<Row>>) {
    forall i, x, y :: 0 <= i < n && i < |q.keys| && x in Concat(tables) && y in Concat(tables) ==>
      AgreeOn(site, q.keys[i], x, y)
  }

  ghost predicate AgreeOn(site: Site, k: PathKey, x: Row, y: Row) {
    var g := PlainColumn(site.names, site.relids, k);
    g.Some? && Declared(site.sortable, g.value) ==>
      site.orders.plugin(g.value.attname, g.value.reversed)(x, y) == site.orders.postgres(k)(x, y)
  }

  /** ORDER BY names plain columns, each once. */
  ghost predicate PlainDistinctKeys(site: Site, q: Query) {
    && AllPlain(site.names, site.relids, q.keys)
    && forall i, j :: 0 <= i < j < |q.keys| ==>
         && PlainColumn(site.names, site.relids, q.keys[i]).value.attnum
            != PlainColumn(site.names, site.relids, q.keys[j]).value.attnum
  }

  lemma RowsReadRight(site: Site, q: Query, tables: seq<seq<Row>>, r: Row)
    requires ReadFaithfully(site, q, tables) && r in Concat(tables)
    ensures RowPasses(site.t, q.restrictions)(r) ==> SatAll(site.t.w, QualsOf(site.t, q.restrictions), r)
    ensures Unhandled(site.t, q.restrictions) == 0 ==>
      (RowPasses(site.t, q.restrictions)(r) <==> SatAll(site.t.w, QualsOf(site.t, q.restrictions), r))
  {
    QualsLoseNothing(site.t, RowEnv(site.t, r), q.restrictions);
  }

  /** The plugin is asked to sort by these keys in directions its table declares. */
  ghost predicate AskedAsDeclared(site: Site, plan: SortPlan, n: nat) {
    forall i :: 0 <= i < n && i < |plan.pushed| ==> Declared(site.sortable, plan.pushed[i])
  }

  /** When the planner calls all sort fields pushed, what it pushed is the whole ORDER BY. */
  lemma AllPushedIsOrderBy(site: Site, q: Query, plan: SortPlan)
    requires PlainDistinctKeys(site, q) && SortPlanned(site, q, plan) && plan.allPushed
    ensures |plan.pushed| == |q.keys|
    ensures forall i :: 0 <= i < |q.keys| ==> Some(plan.pushed[i]) == PlainColumn(site.names, site.relids, q.keys[i])
    ensures AskedAsDeclared(site, plan, |q.keys|)
  {
    var deparsed: seq<SortGroup>, prefix: seq<SortGroup> :|
      IsSortPlan(site.names, site.relids, site.sortable, q.keys, plan, deparsed, prefix);
    forall i, j | 0 <= i < j < |deparsed| ensures deparsed[i].attnum != deparsed[j].attnum {
      assert Some(deparsed[i]) == PlainColumn(site.names, site.relids, q.keys[i]);
      assert Some(deparsed[j]) == PlainColumn(site.names, site.relids, q.keys[j]);
    }
    DistinctKeysPushPrefix(site.sortable, prefix, deparsed);
  }

  /** The keys relied on were pushed as the columns they are. */
  lemma ReliedArePushed(site: Site, q: Query, plan: SortPlan, relied: nat, i: nat)
    requires SortPlanned(site, q, plan) && ReliesOn(q, plan, relied) && i < relied
    ensures PlainColumn(site.names, site.relids, q.keys[i]) == Some(plan.pushed[i])
  {
    var deparsed: seq<SortGroup>, prefix: seq<SortGroup> :|
      IsSortPlan(site.names, site.relids, site.sortable, q.keys, plan, deparsed, prefix);
    MatchedMembers(prefix, deparsed);
    assert plan.pushed[i] in plan.pushed;
    KeyOfGroup(site, q, deparsed);
    hide PlainColumn, SortPlanFor, Matched;
    var j :| 0 <= j < |deparsed| && deparsed[j] == plan.pushed[i];
    assert plan.pushed[i].key == q.keys[j];
  }

  lemma KeyOfGroup(site: Site, q: Query, deparsed: seq<SortGroup>)
    requires |deparsed| == |q.keys|
    requires forall i :: 0 <= i < |q.keys| ==> Some(deparsed[i]) == PlainColumn(site.names, site.relids, q.keys[i])
    ensures forall i :: 0 <= i < |q.keys| ==> deparsed[i].key == q.keys[i]
  {
  }

  lemma {:induction false} LexPrefix(orders: seq<RowOrder>, n: nat, x: Row, y: Row)
    requires n <= |orders| && Lex(orders, x, y)
    ensures Lex(orders[..n], x, y)
  {
    if n > 0 {
      assert orders[..n][1..] == orders[1..][..n - 1];
      if orders[0](y, x) { LexPrefix(orders[1..], n - 1, x, y); }
    }
  }

  /** Where the plugin agrees on them, its order implies the order by the keys pushed first. */
  lemma PushedOrderRefines(site: Site, q: Query, plan: SortPlan, n: nat, tables: seq<seq<Row>>)
    requires n <= |plan.pushed| && n <= |q.keys| && OrdersAgree(site, q, n, tables)
    requires forall i :: 0 <= i < n ==> PlainColumn(site.names, site.relids, q.keys[i]) == Some(plan.pushed[i])
    requires AskedAsDeclared(site, plan, n)
    ensures OrderKept(site, q, plan, n, tables)
  {
    var a, b := ColumnOrders(site.orders, plan.pushed), KeyOrders(site.orders, Take(n, q.keys));
    forall x, y | x in Concat(tables) && y in Concat(tables) && Lex(a, x, y) ensures Lex(b, x, y) {
      LexPrefix(a, n, x, y);
      forall i | 0 <= i < n ensures a[..n][i](x, y) == b[i](x, y) && a[..n][i](y, x) == b[i](y, x) {
        assert AgreeOn(site, q.keys[i], x, y) && AgreeOn(site, q.keys[i], y, x);
      }
      LexAgrees(a[..n], b, x, y);
    }
  }

  /** So the trust in the keys relied on is borne out by a plugin that agrees on them, if it was asked for directions
      its table declares. */
  lemma TrustBorneOut(site: Site, q: Query, plan: SortPlan, relied: nat, tables: seq<seq<Row>>)
    requires SortPlanned(site, q, plan) && ReliesOn(q, plan, relied) && OrdersAgree(site, q, relied, tables)
    requires AskedAsDeclared(site, plan, relied)
    ensures OrderKept(site, q, plan, relied, tables)
  {
    forall i | 0 <= i < relied ensures PlainColumn(site.names, site.relids, q.keys[i]) == Some(plan.pushed[i]) {
      ReliedArePushed(site, q, plan, relied, i);
    }
    PushedOrderRefines(site, q, plan, relied, tables);
  }

  /** Of an ORDER BY of distinct columns it is. */
  lemma DistinctKeysAskDeclared(site: Site, q: Query, plan: SortPlan, n: nat)
    requires PlainDistinctKeys(site, q) && SortPlanned(site, q, plan)
    ensures AskedAsDeclared(site, plan, n)
  {
    var deparsed: seq<SortGroup>, prefix: seq<SortGroup> :|
      IsSortPlan(site.names, site.relids, site.sortable, q.keys, plan, deparsed, prefix);
    forall i, j | 0 <= i < j < |deparsed| ensures deparsed[i].attnum != deparsed[j].attnum {
      assert Some(deparsed[i]) == PlainColumn(site.names, site.relids, q.keys[i]);
      assert Some(deparsed[j]) == PlainColumn(site.names, site.relids, q.keys[j]);
    }
    DistinctKeysPushPrefix(site.sortable, prefix, deparsed);
    forall i | 0 <= i < |plan.pushed| ensures Declared(site.sortable, plan.pushed[i]) {
      assert plan.pushed[i] in prefix;
    }
  }

  /** And the whole ORDER BY is kept if it names distinct columns, all pushed. */
  lemma OrderByRefined(site: Site, q: Query, plan: SortPlan, tables: seq<seq<Row>>)
    requires SortPlanned(site, q, plan) && plan.allPushed
    requires PlainDistinctKeys(site, q) && OrdersAgree(site, q, |q.keys|, tables)
    ensures OrderKept(site, q, plan, |q.keys|, tables)
  {
    AllPushedIsOrderBy(site, q, plan);
    PushedOrderRefines(site, q, plan, |q.keys|, tables);
  }

  /** A schema that is neither static nor dynamic is sent a limit untested: then let no row that the plugin may
      keep and the recheck drops sort before one that passes. */
  ghost predicate NothingUntested(site: Site, q: Query, plan: SortPlan, tables: seq<seq<Row>>) {
    site.schema.mode == OtherMode ==>
      FailingLast(site.t.w, QualsOf(site.t, q.restrictions), QualSupported(site), PluginOrder(site.orders, plan.pushed),
                  RowPasses(site.t, q.restrictions), Concat(tables))
  }

  /** What it takes when a limit is sent. */
  ghost predicate LimitFits(site: Site, q: Query, plan: SortPlan, tables: seq<seq<Row>>) {
    && TotalPreorder(QueryOrder(site.orders, q.keys))
    && OrZero(AtRuntime(q.shape.limit)) >= 0 && OrZero(AtRuntime(q.shape.offset)) >= 0
    && SafeLimit(PlannedLimit(q.shape), q.shape)
    && (AtRuntime(q.shape.limit) != Some(0) ==>
         OrderKept(site, q, plan, |q.keys|, tables) && NothingUntested(site, q, plan, tables))
  }

  /** The main theorem, for a WHERE read faithfully. If Postgres relies on the order of arrival, let it be one
      connection, and the plugin's order imply the keys relied on. If a limit is sent, let the plugin's order imply
      ORDER BY, LIMIT and OFFSET not be negative, the planned number safe, and the qual test made or unneeded; for
      LIMIT 0 none of this matters (WITH TIES, this is about the rows counted; the ties are another matter, see
      WithTies). Then whatever each plugin filters and how it breaks ties, and however the rows
      of several connections interleave, the result is one the query could give over the whole tables. */
  lemma PushdownPreservesAnswer(site: Site, q: Query, plan: SortPlan, relied: nat, tables: seq<seq<Row>>, run: Run)
    requires Executes(site, q, plan, relied, tables, run)
    requires ReadFaithfully(site, q, tables)
    requires relied > 0 ==> |tables| == 1 && OrderKept(site, q, plan, relied, tables)
    requires SentLimit(site, q, plan) != NO_LIMIT ==> LimitFits(site, q, plan, tables)
    ensures Answer(RowPasses(site.t, q.restrictions), QueryOrder(site.orders, q.keys), Concat(tables),
                   WindowOffset(q.shape), WindowLimit(q.shape), run.result)
  {
    assert ReliesOn(q, plan, relied);
    TrustFollows(site, q, plan, relied, tables);
    hide *;
    if SentLimit(site, q, plan) == NO_LIMIT {
      UnsentAnswer(site, q, plan, relied, tables, run);
    } else {
      SentAnswer(site, q, plan, relied, tables, run);
    }
  }

  ghost predicate TrustIsBorneOut(site: Site, q: Query, plan: SortPlan, relied: nat, tables: seq<seq<Row>>) {
    TrustHolds(TrustIn(site, q, relied), PluginOrder(site.orders, plan.pushed), QueryOrder(site.orders, q.keys),
               RowPasses(site.t, q.restrictions), tables)
  }

  lemma TrustFollows(site: Site, q: Query, plan: SortPlan, relied: nat, tables: seq<seq<Row>>)
    requires relied > 0 ==> |tables| == 1 && OrderKept(site, q, plan, relied, tables)
    ensures TrustIsBorneOut(site, q, plan, relied, tables)
  {
    hide RowPasses, PluginOrder;
  }

  lemma UnsentAnswer(site: Site, q: Query, plan: SortPlan, relied: nat, tables: seq<seq<Row>>, run: Run)
    requires Executes(site, q, plan, relied, tables, run)
    requires ReadFaithfully(site, q, tables) && TrustIsBorneOut(site, q, plan, relied, tables)
    requires SentLimit(site, q, plan) == NO_LIMIT
    ensures Answer(RowPasses(site.t, q.restrictions), QueryOrder(site.orders, q.keys), Concat(tables),
                   WindowOffset(q.shape), WindowLimit(q.shape), run.result)
  {
    var pass, quals := RowPasses(site.t, q.restrictions), QualsOf(site.t, q.restrictions);
    forall r | r in Concat(tables) && pass(r) ensures SatAll(site.t.w, quals, r) { RowsReadRight(site, q, tables, r); }
    hide IsRun, RowPasses, TrustHolds, TrustIn;
    UnpushedAnswer(site.t.w, quals, QualSupported(site), PluginOrder(site.orders, plan.pushed),
                   SentLimit(site, q, plan),
                   pass, QueryOrder(site.orders, q.keys), TrustIn(site, q, relied), WindowOffset(q.shape),
                   WindowLimit(q.shape), tables, run);
  }

  lemma SentAnswer(site: Site, q: Query, plan: SortPlan, relied: nat, tables: seq<seq<Row>>, run: Run)
    requires Executes(site, q, plan, relied, tables, run)
    requires ReadFaithfully(site, q, tables) && TrustIsBorneOut(site, q, plan, relied, tables)
    requires SentLimit(site, q, plan) != NO_LIMIT && LimitFits(site, q, plan, tables)
    ensures Answer(RowPasses(site.t, q.restrictions), QueryOrder(site.orders, q.keys), Concat(tables),
                   WindowOffset(q.shape), WindowLimit(q.shape), run.result)
  {
    var pass, le, order := RowPasses(site.t, q.restrictions), QueryOrder(site.orders, q.keys),
      PluginOrder(site.orders, plan.pushed);
    SentLimitCovers(site, q, plan);
    if WindowLimit(q.shape).value != 0 { RowsSelected(site, q, plan, tables); }
    hide IsRun, RowPasses, TrustHolds, TrustIn, SentLimit, ReadFaithfully, Refines, FailingLast, TotalPreorder;
    if WindowLimit(q.shape).value == 0 {
      EmptyWindowAnswer(pass, le, Concat(tables), WindowOffset(q.shape), run.sorted);
      ResultIsWindow(site, q, plan, relied, tables, run);
    } else {
      assert Take(|q.keys|, q.keys) == q.keys;
      PushedAnswer(site.t.w, QualsOf(site.t, q.restrictions), QualSupported(site), order, SentLimit(site, q, plan),
                   pass, le, TrustIn(site, q, relied), WindowOffset(q.shape), WindowLimit(q.shape).value, tables, run);
    }
  }

  lemma ResultIsWindow(site: Site, q: Query, plan: SortPlan, relied: nat, tables: seq<seq<Row>>, run: Run)
    requires Executes(site, q, plan, relied, tables, run)
    ensures run.result == Window(run.sorted, WindowOffset(q.shape), WindowLimit(q.shape))
  {
  }

  /** A limit is sent only when all sort fields count as pushed; one that is safe covers the window. */
  lemma SentLimitCovers(site: Site, q: Query, plan: SortPlan)
    requires OrZero(AtRuntime(q.shape.limit)) >= 0 && OrZero(AtRuntime(q.shape.offset)) >= 0
    requires SafeLimit(PlannedLimit(q.shape), q.shape) && SentLimit(site, q, plan) != NO_LIMIT
    ensures plan.allPushed && SentLimit(site, q, plan) == PlannedLimit(q.shape)
    ensures WindowLimit(q.shape).Some?
    ensures WindowLimit(q.shape).value == 0 ||
      WindowOffset(q.shape) + WindowLimit(q.shape).value == SentLimit(site, q, plan)
  {
    PlannedLimitSafeExactlyWhen(q.shape);
  }

  /** When a limit is sent, no passing row fails a qual, and any other row the plugin may send sorts last. */
  lemma RowsSelected(site: Site, q: Query, plan: SortPlan, tables: seq<seq<Row>>)
    requires ReadFaithfully(site, q, tables) && NothingUntested(site, q, plan, tables)
    requires SentLimit(site, q, plan) != NO_LIMIT
    ensures forall r :: r in Concat(tables) && RowPasses(site.t, q.restrictions)(r) ==>
      SatAll(site.t.w, QualsOf(site.t, q.restrictions), r)
    ensures FailingLast(site.t.w, QualsOf(site.t, q.restrictions), QualSupported(site),
                        PluginOrder(site.orders, plan.pushed), RowPasses(site.t, q.restrictions), Concat(tables))
  {
    forall r | r in Concat(tables)
      ensures RowPasses(site.t, q.restrictions)(r) ==> SatAll(site.t.w, QualsOf(site.t, q.restrictions), r)
      ensures
        && site.schema.mode != OtherMode
        && SatSupported(site.t.w, QualsOf(site.t, q.restrictions), QualSupported(site), r)
        ==> RowPasses(site.t, q.restrictions)(r)
    {
      RowsReadRight(site, q, tables, r);
    }
    hide RowPasses, SatAll, SatSupported;
  }

  /** What is more than enough for it: distinct plain columns, which the plugin orders as Postgres does. */
  lemma AgreeingOrdersFit(site: Site, q: Query, plan: SortPlan, tables: seq<seq<Row>>)
    requires SortPlanned(site, q, plan) && SentLimit(site, q, plan) != NO_LIMIT
    requires forall k :: k in q.keys ==> TotalPreorder(site.orders.postgres(k))
    requires PlainDistinctKeys(site, q) && OrdersAgree(site, q, |q.keys|, tables)
    requires OrZero(AtRuntime(q.shape.limit)) >= 0 && OrZero(AtRuntime(q.shape.offset)) >= 0
    requires PlannedRight(q.shape) && site.schema.mode != OtherMode
    ensures LimitFits(site, q, plan, tables)
  {
    QueryOrderPreorder(site, q);
    PlannedLimitSafeExactlyWhen(q.shape);
    SentLimitCovers(site, q, plan);
    OrderByRefined(site, q, plan, tables);
  }

  lemma QueryOrderPreorder(site: Site, q: Query)
    requires forall k :: k in q.keys ==> TotalPreorder(site.orders.postgres(k))
    ensures TotalPreorder(QueryOrder(site.orders, q.keys))
  {
    var b := KeyOrders(site.orders, q.keys);
    forall o | o in b ensures TotalPreorder(o) {
      var i :| 0 <= i < |b| && b[i] == o;
      assert q.keys[i] in q.keys;
    }
    LexPreorder(b);
  }

  /** From a static or dynamic schema a limit is sent only with nothing unhandled and every qual supported. */
  lemma SentLimitIsTested(site: Site, q: Query, plan: SortPlan)
    requires site.schema.mode != OtherMode && SentLimit(site, q, plan) != NO_LIMIT
    ensures Unhandled(site.t, q.restrictions) == 0
    ensures forall qual :: qual in QualsOf(site.t, q.restrictions) ==> QualSupported(site)(qual)
  {
  }

  /** For any other query nothing is limited and the scan is complete: rechecked, it holds every row
      of the tables that passes, so what grouping, DISTINCT, aggregates or joins make of it is unchanged. */
  lemma OtherQueriesScanEverything(site: Site, q: Query, plan: SortPlan, relied: nat, tables: seq<seq<Row>>, run: Run)
    requires Executes(site, q, plan, relied, tables, run)
    requires ReadFaithfully(site, q, tables)
    requires !Plain(q.shape)
    ensures var pass := RowPasses(site.t, q.restrictions);
      multiset(Filter(pass, run.arrived)) == multiset(Filter(pass, Concat(tables)))
  {
    forall r | r in Concat(tables) && RowPasses(site.t, q.restrictions)(r)
      ensures SatAll(site.t.w, QualsOf(site.t, q.restrictions), r)
    {
      RowsReadRight(site, q, tables, r);
    }
    CompleteScan(site.t.w, QualsOf(site.t, q.restrictions), QualSupported(site), PluginOrder(site.orders, plan.pushed),
                 SentLimit(site, q, plan), RowPasses(site.t, q.restrictions), QueryOrder(site.orders, q.keys),
                 TrustIn(site, q, relied), WindowOffset(q.shape), WindowLimit(q.shape), tables, run);
  }

  /** A connection is sent a limit exactly when one was planned, ORDER BY is made of plain columns declared for their
      directions or has a key that is no plain column, and, from a static or dynamic schema, every clause becomes
      a qual that the table supports. It is the planned one. */
  lemma LimitSentExactlyWhen(site: Site, q: Query, plan: SortPlan)
    requires SortPlanned(site, q, plan)
    ensures SentLimit(site, q, plan) != NO_LIMIT <==>
      && PlannedLimit(q.shape) != NO_LIMIT
      && (|| !AllPlain(site.names, site.relids, q.keys)
          || forall k :: k in q.keys ==> Declared(site.sortable, PlainColumn(site.names, site.relids, k).value))
      && (|| site.schema.mode == OtherMode
          || (site.table in site.schema.tables
              && forall n :: n in q.restrictions ==> Handled(site, n)))
    ensures SentLimit(site, q, plan) != NO_LIMIT ==> SentLimit(site, q, plan) == PlannedLimit(q.shape)
  {
    LimitKeptExactlyWhen(site, q, plan);
    SentExactlyWhen(site.schema, site.table, QualsOf(site.t, q.restrictions), Unhandled(site.t, q.restrictions),
                    if plan.allPushed then PlannedLimit(q.shape) else NO_LIMIT);
    if site.table in site.schema.tables { AllHandled(site, q.restrictions); }
    hide SortPlanned, PlannedLimit, AllPlain, Declared, Handled, Supported, QualsOf, Unhandled, ConnectionLimit;
  }

  /** The clause becomes a qual, and the table supports it. */
  ghost predicate Handled(site: Site, n: Node)
    requires site.table in site.schema.tables
  {
    exists qual :: Becomes(site.t, n, qual) && Supported(site.schema.tables[site.table], qual)
  }

  lemma HandledExactly(site: Site, n: Node)
    requires site.table in site.schema.tables
    ensures Handled(site, n) <==>
      ToQual(site.t, n).Some? && Supported(site.schema.tables[site.table], ToQual(site.t, n).value)
  {
    hide Supported, Becomes, ToQual;
    forall qual ensures ToQual(site.t, n) == Some(qual) <==> Becomes(site.t, n, qual) {
      BecomesExactly(site.t, n, qual);
    }
  }

  lemma {:induction false} AllHandled(site: Site, ns: seq<Node>)
    requires site.table in site.schema.tables
    ensures (forall n :: n in ns ==> Handled(site, n)) <==>
      && Unhandled(site.t, ns) == 0
      && forall qual :: qual in QualsOf(site.t, ns) ==> Supported(site.schema.tables[site.table], qual)
  {
    if ns != [] {
      AllHandled(site, ns[1..]);
      HandledExactly(site, ns[0]);
      assert forall n :: n in ns <==> n == ns[0] || n in ns[1..];
      hide Handled, Supported, ToQual;
    }
  }

  /** An ORDER BY with a key that is no plain column is called pushed although nothing is: exactly
      then, or when every key is supported, the plan keeps its limit. */
  lemma LimitKeptExactlyWhen(site: Site, q: Query, plan: SortPlan)
    requires SortPlanned(site, q, plan)
    ensures plan.allPushed <==>
      || !AllPlain(site.names, site.relids, q.keys)
      || forall k :: k in q.keys ==> Declared(site.sortable, PlainColumn(site.names, site.relids, k).value)
    ensures !AllPlain(site.names, site.relids, q.keys) ==> plan == SortPlan(true, [])
  {
    var deparsed: seq<SortGroup>, prefix: seq<SortGroup> :|
      IsSortPlan(site.names, site.relids, site.sortable, q.keys, plan, deparsed, prefix);
    if AllPlain(site.names, site.relids, q.keys) {
      if prefix == deparsed {
        forall k | k in q.keys ensures Declared(site.sortable, PlainColumn(site.names, site.relids, k).value) {
          var i :| 0 <= i < |q.keys| && q.keys[i] == k;
          assert deparsed[i] in prefix;
        }
      } else {
        var i := |prefix|;
        assert |prefix| < |deparsed|;
        assert q.keys[i] in q.keys && Some(deparsed[i]) == PlainColumn(site.names, site.relids, q.keys[i]);
      }
    }
  }
}
