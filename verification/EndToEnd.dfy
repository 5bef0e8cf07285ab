/** The scan protocol under the pushdown theorem: whatever the goroutines' interleaving, a query over one
    connection is answered as the whole table would answer it, whether its scan runs to its end or Postgres
    stops calling Next once it has the rows of the window. */
module EndToEnd {
  import opened Wrappers
  import opened Sql
  import opened Ordering
  import opened SortPushdown
  import opened LimitPushdown
  import opened Pushdown
  import opened PushdownTheorem
  import opened PushdownExactness
  import P = ScanProtocol
  import Quals

  /** The stream of a plugin that sends these rows and ends. */
  function Script(out: seq<P.Payload>): seq<P.Reply> {
    if out == [] then [P.Eof] else [P.Data(Some(out[0]))] + Script(out[1..])
  }

  function RowsOf(rowOf: nat -> Row, out: seq<P.Payload>): (rows: seq<Row>)
    ensures |rows| == |out|
    ensures forall i :: 0 <= i < |out| ==> rows[i] == rowOf(out[i].id)
  {
    if out == [] then [] else [rowOf(out[0].id)] + RowsOf(rowOf, out[1..])
  }

  lemma {:induction false} RowsOfScript(out: seq<P.Payload>)
    ensures |P.Rows(Script(out))| == |out|
    ensures forall i :: 0 <= i < |out| ==> P.Rows(Script(out))[i] == Some(out[i])
  {
    if out != [] {
      RowsOfScript(out[1..]);
      assert Script(out)[1..] == Script(out[1..]);
    }
  }

  /** The next step is a call of Next returning (nil, nil). */
  ghost predicate Ends(s: P.State) {
    exists a :: P.Returns(s, a) && P.OutcomeOf(s, a) == Some(P.Done)
  }

  /** Over every interleaving, what Next has returned when it ends the scan is what the plugin sent. */
  lemma DeliveredIsSent(out: seq<P.Payload>, s: P.State)
    requires P.Reachable(Script(out), s) && Ends(s)
    ensures s.returned == out
  {
    var a :| P.Returns(s, a) && P.OutcomeOf(s, a) == Some(P.Done);
    P.NilMeansOver(Script(out), s, a);
    RowsOfScript(out);
    forall i | 0 <= i < |out| && i < |s.returned| ensures s.returned[i] == out[i] {
      assert P.Rows(Script(out))[i] == Some(out[i]);
    }
  }

  /** And at any other moment the first rows of it. */
  lemma DeliveredIsPrefix(out: seq<P.Payload>, s: P.State)
    requires P.Reachable(Script(out), s)
    ensures s.returned <= out
  {
    P.DeliveryIsPrefix(Script(out), s);
    RowsOfScript(out);
    forall i | 0 <= i < |s.returned| ensures i < |out| && s.returned[i] == out[i] {
      assert s.received[i] == Some(s.returned[i]) == P.Rows(Script(out))[i];
    }
  }

  /** The rows returned so far fill the window and nothing above the scan needs more; or LIMIT 0 needs none. */
  ghost predicate Enough(site: Site, q: Query, relied: nat, arrived: seq<Row>) {
    && WindowLimit(q.shape).Some?
    && (|| WindowLimit(q.shape).value == 0
        || (&& relied >= |q.keys|
            && |Filter(RowPasses(site.t, q.restrictions), arrived)|
               >= WindowOffset(q.shape) + WindowLimit(q.shape).value))
  }

  /** Sorting on top of the keys relied on, Postgres sorts the rows alike in them group by group: with the first m rows
      that pass it is done when the next one belongs to another group. */
  ghost predicate GroupsFill(site: Site, q: Query, relied: nat, kept: seq<Row>, m: nat) {
    && 0 < relied < |q.keys| && WindowLimit(q.shape).Some?
    && 0 < m < |kept| && WindowOffset(q.shape) + WindowLimit(q.shape).value <= m
    && !QueryOrder(site.orders, Take(relied, q.keys))(kept[m], kept[m - 1])
  }

  /** What Postgres makes of these rows. */
  ghost predicate Returns(site: Site, q: Query, relied: nat, arrived: seq<Row>, run: Run) {
    PostgresReturns(RowPasses(site.t, q.restrictions), QueryOrder(site.orders, q.keys), TrustIn(site, q, relied),
                    arrived, run.sorted, WindowOffset(q.shape), WindowLimit(q.shape), run.result)
  }

  /** The plugin filters, sorts and truncates its table and sends the rows; Postgres works on what Next
      returned, to the end or until it has enough. */
  ghost predicate Scanned(site: Site, q: Query, plan: SortPlan, relied: nat, table: seq<Row>, rowOf: nat -> Row,
                          out: seq<P.Payload>, s: P.State, run: Run) {
    && ReliesOn(q, plan, relied)
    && PluginsRun(site.t.w, Quals.QualsOf(site.t, q.restrictions), QualSupported(site),
                  PluginOrder(site.orders, plan.pushed), SentLimit(site, q, plan), [table], run.keeps, run.alls,
                  run.outs)
    && run.outs == [RowsOf(rowOf, out)]
    && P.Reachable(Script(out), s)
    && run.arrived == RowsOf(rowOf, s.returned)
    && (|| ((Ends(s) || Enough(site, q, relied, run.arrived)) && Returns(site, q, relied, run.arrived, run))
        || exists m :: StopsAfter(site, q, relied, Filter(RowPasses(site.t, q.restrictions), run.arrived), m, run))
  }

  /** Stopping after a group. */
  ghost predicate StopsAfter(site: Site, q: Query, relied: nat, kept: seq<Row>, m: nat, run: Run) {
    GroupsFill(site, q, relied, kept, m) && Returns(site, q, relied, kept[..m], run)
  }

  lemma {:induction false} FilterPrefix(p: Row -> bool, a: seq<Row>, b: seq<Row>)
    requires a <= b
    ensures Filter(p, a) <= Filter(p, b)
  {
    if a != [] { FilterPrefix(p, a[1..], b[1..]); }
  }

  lemma WindowOfPrefix(a: seq<Row>, b: seq<Row>, offset: nat, limit: nat)
    requires a <= b && |a| >= offset + limit
    ensures Window(a, offset, Some(limit)) == Window(b, offset, Some(limit))
  {
  }

  /** With enough rows the window is full: over the rest it is the same. */
  lemma WindowIsFull(site: Site, q: Query, relied: nat, arrived: seq<Row>, all: seq<Row>, s: seq<Row>, t: seq<Row>)
    requires arrived <= all && Enough(site, q, relied, arrived)
    requires relied >= |q.keys| ==>
      s == Filter(RowPasses(site.t, q.restrictions), arrived) && t == Filter(RowPasses(site.t, q.restrictions), all)
    ensures Window(s, WindowOffset(q.shape), WindowLimit(q.shape))
         == Window(t, WindowOffset(q.shape), WindowLimit(q.shape))
  {
    FilterPrefix(RowPasses(site.t, q.restrictions), arrived, all);
    hide RowPasses, WindowOffset, WindowLimit, Filter;
    if WindowLimit(q.shape).value > 0 {
      WindowOfPrefix(s, t, WindowOffset(q.shape), WindowLimit(q.shape).value);
    }
  }

  /** Stopping early is no different from reading on: some execution over all the rows has the same result. */
  lemma RestMakesNoDifference(site: Site, q: Query, relied: nat, arrived: seq<Row>, all: seq<Row>, run: Run)
    returns (full: Run)
    requires arrived <= all && Enough(site, q, relied, arrived) && Returns(site, q, relied, arrived, run)
    requires relied < |q.keys| ==> TotalPreorder(QueryOrder(site.orders, q.keys))
    ensures Returns(site, q, relied, all, full) && full == run.(arrived := all, sorted := full.sorted)
  {
    var pass, le := RowPasses(site.t, q.restrictions), QueryOrder(site.orders, q.keys);
    var s := if relied < |q.keys| then Sort(le, Filter(pass, all)) else Filter(pass, all);
    full := run.(arrived := all, sorted := s);
    hide RowPasses, QueryOrder, TotalPreorder, WindowOffset, WindowLimit, Window, Filter, Enough;
    if relied < |q.keys| { SortSorts(le, Filter(pass, all)); }
    WindowIsFull(site, q, relied, arrived, all, run.sorted, s);
  }

  /** A row of another group than the last sorts after all rows before it. */
  lemma LaterGroup(o: RowOrder, le: RowOrder, kept: seq<Row>, m: nat, i: nat, j: nat)
    requires TotalPreorder(o) && TotalPreorder(le) && forall x, y :: le(x, y) ==> o(x, y)
    requires Sorted(o, kept) && 0 < m < |kept| && !o(kept[m], kept[m - 1]) && i < m <= j < |kept|
    ensures le(kept[i], kept[j])
  {
    var a, b := kept[i], kept[j];
    assert o(a, a) && o(kept[m], kept[m]);
    assert o(a, kept[m - 1]) && o(kept[m], b);
    assert !o(kept[m], a);
  }

  /** So the groups sorted and then the rest sorted is the whole sorted. */
  lemma GroupsThenRest(o: RowOrder, le: RowOrder, kept: seq<Row>, m: nat, s: seq<Row>, tail: seq<Row>)
    requires TotalPreorder(o) && TotalPreorder(le) && forall x, y :: le(x, y) ==> o(x, y)
    requires Sorted(o, kept) && 0 < m < |kept| && !o(kept[m], kept[m - 1])
    requires SortedPerm(le, s, multiset(kept[..m])) && SortedPerm(le, tail, multiset(kept[m..]))
    ensures Sorted(le, s + tail)
  {
    forall i, j | 0 <= i < |s| && 0 <= j < |tail| ensures le(s[i], tail[j]) {
      assert s[i] in multiset(kept[..m]) && tail[j] in multiset(kept[m..]);
      var a :| 0 <= a < m && kept[a] == s[i];
      var b :| 0 <= b < |kept[m..]| && kept[m..][b] == tail[j];
      LaterGroup(o, le, kept, m, a, m + b);
    }
    SortedAppend(le, s, tail);
  }

  lemma PrefixGroups(o: RowOrder, le: RowOrder, trust: Trust, part: seq<Row>, kept: seq<Row>, m: nat, s: seq<Row>)
    returns (t: seq<Row>)
    requires TotalPreorder(o) && TotalPreorder(le) && forall x, y :: le(x, y) ==> o(x, y)
    requires trust == Presumes(o) && part <= kept && 0 < m < |part| && !o(part[m], part[m - 1])
    requires multiset(s) == multiset(part[..m]) && (Sorted(o, part[..m]) ==> Sorted(le, s))
    ensures s <= t && multiset(t) == multiset(kept) && (Sorted(o, kept) ==> Sorted(le, t))
  {
    var tail := Sort(le, kept[m..]);
    SortSorts(le, kept[m..]);
    t := s + tail;
    assert part[..m] == kept[..m] && kept == kept[..m] + kept[m..];
    if Sorted(o, kept) {
      assert Sorted(o, part[..m]);
      GroupsThenRest(o, le, kept, m, s, tail);
    }
  }

  lemma RestOfGroups(site: Site, q: Query, relied: nat, arrived: seq<Row>, all: seq<Row>, m: nat, run: Run)
    returns (full: Run)
    requires arrived <= all && StopsAfter(site, q, relied, Filter(RowPasses(site.t, q.restrictions), arrived), m, run)
    requires forall k :: k in q.keys ==> TotalPreorder(site.orders.postgres(k))
    ensures Returns(site, q, relied, all, full) && full == run.(arrived := all, sorted := full.sorted)
  {
    var pass, le, o := RowPasses(site.t, q.restrictions), QueryOrder(site.orders, q.keys),
      QueryOrder(site.orders, Take(relied, q.keys));
    var part, kept := Filter(pass, arrived), Filter(pass, all);
    FilterPrefix(pass, arrived, all);
    FilterMembers(pass, arrived);
    FilterAll(pass, part[..m]);
    KeysOrdered(site, q, relied);
    hide RowPasses, QueryOrder, TotalPreorder, WindowOffset, WindowLimit;
    var t := PrefixGroups(o, le, TrustIn(site, q, relied), part, kept, m, run.sorted);
    assert |multiset(run.sorted)| == |run.sorted| && |multiset(part[..m])| == m;
    WindowOfPrefix(run.sorted, t, WindowOffset(q.shape), WindowLimit(q.shape).value);
    full := run.(arrived := all, sorted := t);
  }

  lemma KeysOrdered(site: Site, q: Query, relied: nat)
    requires forall k :: k in q.keys ==> TotalPreorder(site.orders.postgres(k))
    ensures TotalPreorder(QueryOrder(site.orders, q.keys)) &&
      TotalPreorder(QueryOrder(site.orders, Take(relied, q.keys)))
    ensures forall x, y :: QueryOrder(site.orders, q.keys)(x, y) ==> QueryOrder(site.orders, Take(relied, q.keys))(x, y)
  {
    QueryOrderPreorder(site, q);
    QueryOrderPreorder(site, q.(keys := Take(relied, q.keys)));
    hide TotalPreorder;
    forall x, y | QueryOrder(site.orders, q.keys)(x, y) ensures QueryOrder(site.orders, Take(relied, q.keys))(x, y) {
      FirstKeysFollow(site.orders, q.keys, relied, x, y);
    }
  }

  lemma PrefixArrives(rowOf: nat -> Row, out: seq<P.Payload>, s: P.State)
    requires P.Reachable(Script(out), s)
    ensures RowsOf(rowOf, s.returned) <= RowsOf(rowOf, out)
  {
    DeliveredIsPrefix(out, s);
  }

  /** So every scan gives the result of an execution over all the rows the plugin sent. */
  lemma ScannedExecutes(site: Site, q: Query, plan: SortPlan, relied: nat, table: seq<Row>, rowOf: nat -> Row,
                        out: seq<P.Payload>, s: P.State, run: Run)
    returns (full: Run)
    requires Scanned(site, q, plan, relied, table, rowOf, out, s, run)
    requires relied < |q.keys| ==> forall k :: k in q.keys ==> TotalPreorder(site.orders.postgres(k))
    ensures Executes(site, q, plan, relied, [table], full) && full.result == run.result
  {
    var all, kept := RowsOf(rowOf, out), Filter(RowPasses(site.t, q.restrictions), run.arrived);
    PrefixArrives(rowOf, out, s);
    if relied < |q.keys| { KeysOrdered(site, q, relied); }
    hide P.Reachable, PluginsRun, Script, Enough, Returns, StopsAfter, RowsOf, TotalPreorder;
    if m :| StopsAfter(site, q, relied, kept, m, run) {
      StopsShort(site, q, relied, kept, m, run);
      full := RestOfGroups(site, q, relied, run.arrived, all, m, run);
    } else if Ends(s) {
      DeliveredIsSent(out, s);
      full := run;
    } else {
      full := RestMakesNoDifference(site, q, relied, run.arrived, all, run);
    }
    ConcatOne(all);
    FullExecutes(site, q, plan, relied, table, all, full);
  }

  lemma StopsShort(site: Site, q: Query, relied: nat, kept: seq<Row>, m: nat, run: Run)
    requires StopsAfter(site, q, relied, kept, m, run)
    ensures relied < |q.keys|
  {
  }

  lemma FullExecutes(site: Site, q: Query, plan: SortPlan, relied: nat, table: seq<Row>, all: seq<Row>, run: Run)
    requires ReliesOn(q, plan, relied) && Returns(site, q, relied, all, run) && run.arrived == all && run.outs == [all]
    requires PluginsRun(site.t.w, Quals.QualsOf(site.t, q.restrictions), QualSupported(site),
                        PluginOrder(site.orders, plan.pushed), SentLimit(site, q, plan), [table], run.keeps, run.alls,
                        run.outs)
    requires Concat([all]) == all
    ensures Executes(site, q, plan, relied, [table], run)
  {
    hide PluginsRun, PostgresReturns;
  }

  /** From the restrictions of the query to its result, through the plugin, the stream, two goroutines, a
      bounded channel and Next. */
  lemma QueryIsAnswered(site: Site, q: Query, plan: SortPlan, relied: nat, table: seq<Row>, rowOf: nat -> Row,
                        out: seq<P.Payload>, s: P.State, run: Run)
    requires Scanned(site, q, plan, relied, table, rowOf, out, s, run)
    requires ReadFaithfully(site, q, [table])
    requires relied < |q.keys| ==> forall k :: k in q.keys ==> TotalPreorder(site.orders.postgres(k))
    requires relied > 0 ==> OrderKept(site, q, plan, relied, [table])
    requires SentLimit(site, q, plan) != NO_LIMIT ==> LimitFits(site, q, plan, [table])
    ensures Answer(RowPasses(site.t, q.restrictions), QueryOrder(site.orders, q.keys), table,
                   WindowOffset(q.shape), WindowLimit(q.shape), run.result)
  {
    hide *;
    var full := ScannedExecutes(site, q, plan, relied, table, rowOf, out, s, run);
    PushdownPreservesAnswer(site, q, plan, relied, [table], full);
    ConcatOne(table);
  }

  lemma ConcatOne(table: seq<Row>)
    ensures Concat([table]) == table
  {
    assert Concat([table]) == table + [];
  }
}
