/** One query, SELECT ... FROM t WHERE c = 1 LIMIT 1, at two sites: one where all that the end-to-end theorem
    asks for holds with a limit sent, and one whose schema mode lets the limit through untested. */
module Instances {
  import opened Wrappers
  import opened Sql
  import opened Canonical
  import opened Quals
  import opened QualMeaning
  import opened Ordering
  import opened LimitPushdown
  import opened SortPushdown
  import opened Pushdown
  import opened PushdownFaults
  import opened PushdownTheorem
  import opened PushdownExactness
  import opened EndToEnd
  import P = ScanProtocol
  import ScanRuns

  const START := Env(map[], (rel, att) => None, id => None, 0)

  const T: Translation := Translation(EqualityWorld(), START, n => 0)

  const IS_ONE: Node := OpExpr(1, [Var(1, 1), Const(Some(One(IntS(1))))])

  const QUAL := Qual("c", "=", Some(Single(IntS(1))))

  const QUERY := Query(QueryShape(false, false, false, false, 1, false, false, false, Constant(Some(1)), Absent),
                       [IS_ONE], [])

  const PLAN := SortPlan(true, [])

  function SiteWith(mode: SchemaMode, keys: seq<LimitPushdown.KeyColumn>): Site {
    Site(T, Names(n => "c", oid => ""), {1}, map[], Schema(map["t" := TableSchema(keys, [])], mode), "t",
         Orders(k => UNORDERED, (c, d) => UNORDERED))
  }

  function RowWith(i: int): Row {
    map["c" := Some(IntS(i))]
  }

  lemma Translated()
    ensures CanonicalForm(T.w, 1, IS_ONE.args) == Some(Form(Var(1, 1), 1, Const(Some(One(IntS(1))))))
    ensures ToQual(T, IS_ONE) == Some(QUAL)
    ensures QualsOf(T, [IS_ONE]) == [QUAL] && Unhandled(T, [IS_ONE]) == 0
  {
    assert AttrName(T.w, 1) == Some("c");
    assert ToQual(T, IS_ONE) == Some(QUAL);
    assert [IS_ONE][1..] == [];
  }

  lemma ColumnValue(r: Row)
    ensures Eval(T.w, RowEnv(T, r), Var(1, 1)) == LiftElem(Column(r, "c"))
  {
    assert AttrName(T.w, 1) == Some("c");
  }

  lemma OneOnPair(c: Option<Scalar>)
    ensures IsTrueDatum(Operate(T.w, 1, [LiftElem(c), Some(One(IntS(1)))])) <==> c == Some(IntS(1))
  {
    hide EqualOrNot;
    OperatePair(T.w, 1, LiftElem(c), Some(One(IntS(1))));
    if c.Some? { EqualOnPair(1, c.value, IntS(1)); }
  }

  lemma OneOnRow(r: Row)
    ensures Passes(T.w, RowEnv(T, r), IS_ONE) <==> Column(r, "c") == Some(IntS(1))
  {
    var e := RowEnv(T, r);
    ColumnValue(r);
    EvalPair(T.w, e, Var(1, 1), Const(Some(One(IntS(1)))));
    hide Operate;
    OneOnPair(Column(r, "c"));
  }

  lemma PassesExactlyOnes(r: Row)
    ensures RowPasses(T, [IS_ONE])(r) <==> Column(r, "c") == Some(IntS(1))
    ensures Faithful(T.w, RowEnv(T, r), IS_ONE)
  {
    OneOnRow(r);
    Translated();
    hide Passes, ToQual, CanonicalForm, QualsOf, Unhandled;
    assert IS_ONE in [IS_ONE];
  }

  lemma Planned(site: Site)
    ensures SortPlanned(site, QUERY, PLAN) && WellOrdered(site, QUERY, PLAN) && ReliesOn(QUERY, PLAN, 0)
    ensures PlannedLimit(QUERY.shape) == 1 && PlannedRight(QUERY.shape) && AtRuntime(QUERY.shape.limit) == Some(1)
  {
    assert IsSortPlan(site.names, site.relids, site.sortable, QUERY.keys, PLAN, [], []);
    LexPreorder(KeyOrders(site.orders, []));
    LexPreorder(ColumnOrders(site.orders, []));
  }

  // ---------- a schema neither static nor dynamic ----------

  lemma ReadRight(mode: SchemaMode, keys: seq<LimitPushdown.KeyColumn>)
    ensures AlwaysFaithful(SiteWith(mode, keys), QUERY, EVERY)
  {
    EqualityWorldIsLawful();
    hide Lawful, Faithful;
    forall r: Row ensures Faithful(T.w, RowEnv(T, r), IS_ONE) { PassesExactlyOnes(r); }
  }

  lemma NoKeyNoSupport()
    ensures !QualSupported(SiteWith(OtherMode, []))(QUAL)
  {
    assert EffectiveKey([], "c") == None;
  }

  lemma BadRow(site: Site)
    requires site == SiteWith(OtherMode, [])
    ensures !NoneInTheWay(site, QUERY, PLAN, EVERY)
  {
    Translated();
    NoKeyNoSupport();
    PassesExactlyOnes(RowWith(2));
    PassesExactlyOnes(RowWith(1));
    assert EVERY(RowWith(1)) && EVERY(RowWith(2)) && PluginOrder(site.orders, PLAN.pushed)(RowWith(2), RowWith(1));
    hide QualSupported, QualsOf, RowPasses, Sat, PluginOrder;
    assert SatSupported(site.t.w, QualsOf(site.t, QUERY.restrictions), QualSupported(site), RowWith(2));
  }

  lemma GoodRow(site: Site)
    requires site == SiteWith(OtherMode, [])
    ensures RowPasses(site.t, QUERY.restrictions)(RowWith(1))
  {
    PassesExactlyOnes(RowWith(1));
    hide RowPasses;
  }

  /** No key column at all: the limit goes out, and a row that is not 1 can use it up. */
  lemma UntestedLimitGoesWrong()
    ensures SentLimit(SiteWith(OtherMode, []), QUERY, PLAN) == 1
    ensures !AlwaysAnswered(SiteWith(OtherMode, []), QUERY, PLAN, 0, EVERY)
  {
    var site := SiteWith(OtherMode, []);
    assert EVERY(RowWith(1)) && site.schema.mode == OtherMode && PLAN.allPushed && NO_LIMIT != 1;
    hide *;
    ReadRight(OtherMode, []);
    Planned(site);
    BadRow(site);
    GoodRow(site);
    OtherModeRightExactlyWhen(site, QUERY, PLAN, 0, EVERY, RowWith(1));
  }

  // ---------- a static schema with c as a key column ----------

  const KEY := LimitPushdown.KeyColumn("c", ["="])

  const STATIC := SiteWith(Static, [KEY])

  lemma KeySupports()
    ensures QualSupported(STATIC)(QUAL)
  {
    assert [KEY] + [] == [KEY];
    assert EffectiveKey([KEY], "c") == Some(KEY);
    assert "=" in KEY.operators;
  }

  lemma LimitIsSent()
    ensures SentLimit(STATIC, QUERY, PLAN) == 1
  {
    Planned(STATIC);
    Translated();
    KeySupports();
    hide ToQual, CanonicalForm, QualsOf, Unhandled;
    assert MayPush(STATIC.schema, "t", [QUAL], 0);
  }

  lemma AlwaysIsHere(site: Site, q: Query, tables: seq<seq<Row>>)
    requires AlwaysFaithful(site, q, EVERY)
    ensures ReadFaithfully(site, q, tables)
  {
    hide Lawful, Faithful;
  }

  lemma LimitIsSentAndFits(table: seq<Row>)
    ensures SentLimit(STATIC, QUERY, PLAN) == 1
    ensures ReadFaithfully(STATIC, QUERY, [table]) && LimitFits(STATIC, QUERY, PLAN, [table])
  {
    hide Lawful, Faithful, PlannedLimit, PlannedRight, SafeLimit, SentLimit, AlwaysFaithful, WellOrdered, SortPlanned;
    LimitIsSent();
    Planned(STATIC);
    ReadRight(Static, [KEY]);
    AlwaysIsHere(STATIC, QUERY, [table]);
    assert AllPlain(STATIC.names, STATIC.relids, QUERY.keys);
    hide LimitFits;
    AgreeingOrdersFit(STATIC, QUERY, PLAN, [table]);
  }

  const SENT := P.Payload(0, None)

  const ONE_EACH: nat -> Row := id => RowWith(1)

  const TABLE := [RowWith(1)]

  /** One row has been returned, and the stream has ended. */
  lemma OneRowThenEof() returns (s: P.State)
    ensures P.Reachable(Script([SENT]), s) && P.Enabled(s, P.DoReply) && s.slot.reply == P.Eof
    ensures s.status == P.Started && s.chan == [] && s.consumer == P.Between
  {
    var script := Script([SENT]);
    assert [SENT][1..] == [] && Script([]) == [P.Eof];
    assert script == [P.Data(Some(SENT)), P.Eof];
    s := ScanRuns.Drain(script, 1);
    s := ScanRuns.ReceiveOne(script, s, 1);
  }

  /** And the call of Next that finds the channel closed. */
  lemma OneRowThenEnd() returns (s: P.State)
    ensures P.Reachable(Script([SENT]), s) && Ends(s) && s.returned == [SENT]
  {
    var script := Script([SENT]);
    hide P.Reachable, Script;
    s := OneRowThenEof();
    ScanRuns.Extend(script, s, P.DoReply);
    s := P.Apply(s, P.DoReply);
    ScanRuns.Extend(script, s, P.DoCloseChannel);
    s := P.Apply(s, P.DoCloseChannel);
    ScanRuns.Extend(script, s, P.DoNextBegin);
    s := P.Apply(s, P.DoNextBegin);
    StillNoError(script, s);
    assert P.Returns(s, P.DoNextTake) && P.OutcomeOf(s, P.DoNextTake) == Some(P.Done);
    DeliveredIsSent([SENT], s);
  }

  lemma StillNoError(script: seq<P.Reply>, s: P.State)
    requires P.Reachable(script, s) && s.status == P.Started
    ensures s.err.None?
  {
    P.ReachableInv(script, s);
  }

  lemma OneConnection(w: World, quals: seq<Qual>, supported: Qual -> bool, order: RowOrder, pushed: int,
                      table: seq<Row>)
    requires PluginReturns(w, quals, supported, order, pushed, table, EVERY, table, table)
    ensures PluginsRun(w, quals, supported, order, pushed, [table], [EVERY], [table], [table])
  {
    hide PluginReturns;
    assert [table][1..] == [] && [EVERY][1..] == [];
  }

  lemma TableReturned(supported: Qual -> bool, order: RowOrder)
    requires Trivial(order)
    ensures PluginReturns(T.w, [QUAL], supported, order, 1, TABLE, EVERY, TABLE, TABLE)
  {
    OneSatisfies();
    FilterAllPass(EVERY, TABLE);
    hide Sat;
    assert MayKeep(T.w, [QUAL], supported, TABLE, EVERY);
  }

  lemma PluginSends()
    ensures PluginsRun(STATIC.t.w, QualsOf(STATIC.t, QUERY.restrictions), QualSupported(STATIC),
                       PluginOrder(STATIC.orders, PLAN.pushed), SentLimit(STATIC, QUERY, PLAN), [TABLE], [EVERY],
                       [TABLE], [TABLE])
  {
    LimitIsSent();
    Translated();
    assert Trivial(PluginOrder(STATIC.orders, PLAN.pushed));
    TableReturned(QualSupported(STATIC), PluginOrder(STATIC.orders, PLAN.pushed));
    hide PluginReturns, PluginsRun, QualsOf, SentLimit, QualSupported;
    OneConnection(T.w, [QUAL], QualSupported(STATIC), PluginOrder(STATIC.orders, PLAN.pushed), 1, TABLE);
  }

  lemma OneSatisfies()
    ensures Sat(T.w, QUAL, RowWith(1))
  {
    assert Column(RowWith(1), "c") == Some(IntS(1));
    assert "=" != IS_NULL && "=" != IS_NOT_NULL by { assert |"="| == 1 && |IS_NULL| == 7 && |IS_NOT_NULL| == 11; }
    assert "=" != "<>";
  }

  lemma PostgresKeeps(run: Run)
    requires run == Run([EVERY], [TABLE], [TABLE], TABLE, TABLE, TABLE)
    ensures Returns(STATIC, QUERY, 0, TABLE, run)
  {
    PassesExactlyOnes(RowWith(1));
    hide RowPasses;
    var none: seq<Row> := [];
    assert TABLE[1..] == none && TABLE + none == TABLE;
    assert Filter(RowPasses(T, [IS_ONE]), TABLE) == TABLE;
    assert Window(TABLE, 0, Some(1)) == TABLE;
  }

  lemma NothingReliedOn()
    ensures ReliesOn(QUERY, PLAN, 0) && RowsOf(ONE_EACH, [SENT]) == TABLE
  {
    assert [SENT][1..] == [] && RowsOf(ONE_EACH, []) == [];
  }

  lemma ScanOfTable(s: P.State, run: Run)
    requires P.Reachable(Script([SENT]), s) && Ends(s) && s.returned == [SENT]
    requires run == Run([EVERY], [TABLE], [TABLE], TABLE, TABLE, TABLE)
    ensures Scanned(STATIC, QUERY, PLAN, 0, TABLE, ONE_EACH, [SENT], s, run)
  {
    PluginSends();
    PostgresKeeps(run);
    NothingReliedOn();
    hide PluginsRun, Returns, P.Reachable, Ends, RowsOf, QualsOf, QualSupported, PluginOrder, SentLimit, RowPasses,
      Script;
  }

  /** All that the end-to-end theorem asks for holds of some run in which a limit was sent. */
  lemma TheoremApplies() returns (s: P.State, run: Run)
    ensures Scanned(STATIC, QUERY, PLAN, 0, TABLE, ONE_EACH, [SENT], s, run)
    ensures SentLimit(STATIC, QUERY, PLAN) != NO_LIMIT
    ensures forall k :: k in QUERY.keys ==> TotalPreorder(STATIC.orders.postgres(k))
    ensures ReadFaithfully(STATIC, QUERY, [TABLE]) && LimitFits(STATIC, QUERY, PLAN, [TABLE])
    ensures run.result == TABLE
  {
    hide Scanned, P.Reachable, Ends, ReadFaithfully, LimitFits, SentLimit;
    s := OneRowThenEnd();
    LimitIsSentAndFits(TABLE);
    run := Run([EVERY], [TABLE], [TABLE], TABLE, TABLE, TABLE);
    ScanOfTable(s, run);
  }
}
