/** fdw/fdw.c, hub/hub_quals.go, hub/hub_base.go and hub/hub_remote.go: whether, and with what number,
    a LIMIT is sent to the plugin. */
module LimitPushdown {
  import opened Wrappers
  import opened Sql
  import opened Quals

  // ---------- quals grouped by column ----------

  /** The non-nil quals on one column, in order. */
  function OnColumn(column: string, quals: seq<Option<Qual>>): seq<Qual> {
    if quals == [] then []
    else
      (if quals[0].Some? && quals[0].value.field == column then [quals[0].value] else []) + OnColumn(column, quals[1..])
  }

  lemma {:induction false} OnColumnSnoc(column: string, quals: seq<Option<Qual>>, q: Option<Qual>)
    ensures OnColumn(column, quals + [q]) ==
      OnColumn(column, quals) + if q.Some? && q.value.field == column then [q.value] else []
  {
    if quals == [] {
      assert quals + [q] == [q];
    } else {
      OnColumnSnoc(column, quals[1..], q);
      assert (quals + [q])[1..] == quals[1..] + [q];
    }
  }

  lemma {:induction false} OnColumnMembers(column: string, quals: seq<Option<Qual>>)
    ensures forall q :: q in OnColumn(column, quals) <==> Some(q) in quals && q.field == column
  {
    if quals != [] {
      OnColumnMembers(column, quals[1..]);
      assert quals == [quals[0]] + quals[1..];
    }
  }

  type QualMap = map<string, seq<Qual>>

  /** A column gets each of its quals as often as the list holds it, in the order of the list. */
  lemma {:induction false} OnColumnCounts(column: string, quals: seq<Option<Qual>>, q: Qual)
    ensures multiset(OnColumn(column, quals))[q] == if q.field == column then multiset(quals)[Some(q)] else 0
  {
    if quals != [] {
      OnColumnCounts(column, quals[1..], q);
      assert quals == [quals[0]] + quals[1..];
    }
  }

  lemma {:induction false} OnColumnInOrder(column: string, quals: seq<Option<Qual>>, more: seq<Option<Qual>>)
    ensures OnColumn(column, quals) <= OnColumn(column, quals + more)
  {
    if quals != [] {
      OnColumnInOrder(column, quals[1..], more);
      assert (quals + more)[1..] == quals[1..] + more;
    }
  }

  /** Every non-nil qual once, in order, under its column, and no empty group. */
  ghost predicate IsGrouping(m: QualMap, quals: seq<Option<Qual>>) {
    && (forall c :: c in m ==> m[c] == OnColumn(c, quals) && m[c] != [])
    && (forall q :: Some(q) in quals ==> q.field in m)
  }

  /** buildQualMap. */
  method BuildQualMap(quals: seq<Option<Qual>>) returns (m: QualMap)
    ensures IsGrouping(m, quals)
  {
    m := map[];
    var i := 0;
    while i < |quals|
      invariant 0 <= i <= |quals|
      invariant IsGrouping(m, quals[..i])
    {
      forall c { OnColumnSnoc(c, quals[..i], quals[i]); }
      assert quals[..i + 1] == quals[..i] + [quals[i]];
      if quals[i].Some? {
        var q := quals[i].value;
        if q.field in m {
          m := m[q.field := m[q.field] + [q]];
        } else {
          NoneOnColumn(q.field, quals[..i]);
          m := m[q.field := [q]];
        }
      }
      i := i + 1;
    }
    assert quals[..|quals|] == quals;
  }

  lemma {:induction false} NoneOnColumn(column: string, quals: seq<Option<Qual>>)
    requires forall q :: Some(q) in quals ==> q.field != column
    ensures OnColumn(column, quals) == []
  {
    if quals != [] {
      assert quals[0] in quals;
      NoneOnColumn(column, quals[1..]);
    }
  }

  /** A row satisfies the grouped quals iff it satisfies the list. */
  lemma GroupingKeepsMeaning(w: World, m: QualMap, quals: seq<Option<Qual>>, row: Row)
    requires IsGrouping(m, quals)
    ensures (forall c, q :: c in m && q in m[c] ==> Sat(w, q, row)) <==>
      (forall q :: Some(q) in quals ==> Sat(w, q, row))
  {
    forall c | c in m ensures forall q :: q in m[c] <==> Some(q) in quals && q.field == c {
      OnColumnMembers(c, quals);
    }
  }

  // ---------- key columns ----------

  datatype KeyColumn = KeyColumn(name: string, operators: seq<string>)

  datatype TableSchema = TableSchema(list: seq<KeyColumn>, get: seq<KeyColumn>)

  datatype SchemaMode = Static | Dynamic | OtherMode

  /** tables by name, and how the plugin's schema is made */
  datatype Schema = Schema(tables: map<string, TableSchema>, mode: SchemaMode)

  /** The key column in force for a column: the last one declared, Get after List. */
  function EffectiveKey(keys: seq<KeyColumn>, column: string): Option<KeyColumn> {
    if keys == [] then None
    else if keys[|keys| - 1].name == column then Some(keys[|keys| - 1])
    else EffectiveKey(keys[..|keys| - 1], column)
  }

  predicate Supported(t: TableSchema, q: Qual) {
    var k := EffectiveKey(t.list + t.get, q.field);
    k.Some? && q.operator in k.value.operators
  }

  /** Entry i is the last of that name. */
  ghost predicate LastNamed(keys: seq<KeyColumn>, name: string, i: nat) {
    && i < |keys| && keys[i].name == name
    && forall j :: i < j < |keys| ==> keys[j].name != name
  }

  ghost predicate Names(keys: seq<KeyColumn>, name: string) {
    exists k :: k in keys && k.name == name
  }

  /** The operator is in the last entry of that name. */
  ghost predicate LastAllows(keys: seq<KeyColumn>, name: string, operator: string) {
    exists i: nat :: LastNamed(keys, name, i) && operator in keys[i].operators
  }

  lemma {:induction false} EffectiveIsLast(keys: seq<KeyColumn>, name: string) returns (i: nat)
    ensures EffectiveKey(keys, name).Some? <==> Names(keys, name)
    ensures Names(keys, name) ==> LastNamed(keys, name, i) && EffectiveKey(keys, name) == Some(keys[i])
  {
    i := 0;
    if keys != [] {
      var n := |keys| - 1;
      assert keys == keys[..n] + [keys[n]];
      if keys[n].name == name {
        i := n;
        assert keys[n] in keys;
      } else {
        i := EffectiveIsLast(keys[..n], name);
        if k :| k in keys && k.name == name { assert k in keys[..n]; }
      }
    }
  }

  lemma {:induction false} EffectiveOfBoth(a: seq<KeyColumn>, b: seq<KeyColumn>, name: string)
    ensures EffectiveKey(a + b, name) ==
      if EffectiveKey(b, name).Some? then EffectiveKey(b, name) else EffectiveKey(a, name)
  {
    if b == [] {
      assert a + b == a;
    } else {
      EffectiveOfBoth(a, b[..|b| - 1], name);
      assert (a + b)[..|a + b| - 1] == a + b[..|b| - 1];
    }
  }

  lemma LastAllowsExactly(keys: seq<KeyColumn>, name: string, operator: string)
    requires Names(keys, name)
    ensures EffectiveKey(keys, name).Some?
    ensures operator in EffectiveKey(keys, name).value.operators <==> LastAllows(keys, name, operator)
  {
    var i := EffectiveIsLast(keys, name);
  }

  /** Get over List: an operator is supported by the last Get entry of the column if there is one, whatever the List
      entries say, and else by the last List entry. */
  lemma SupportedExactlyWhen(t: TableSchema, q: Qual)
    ensures Supported(t, q) <==>
      if Names(t.get, q.field) then LastAllows(t.get, q.field, q.operator) else LastAllows(t.list, q.field, q.operator)
  {
    EffectiveOfBoth(t.list, t.get, q.field);
    var i := EffectiveIsLast(t.get, q.field);
    var j := EffectiveIsLast(t.list, q.field);
    forall k: nat | LastNamed(t.list, q.field, k) ensures Names(t.list, q.field) { assert t.list[k] in t.list; }
    if Names(t.get, q.field) {
      LastAllowsExactly(t.get, q.field, q.operator);
    } else if Names(t.list, q.field) {
      LastAllowsExactly(t.list, q.field, q.operator);
    }
  }

  /** A column that both calls take as a key, List with "<>" and Get without: "<>" on it is not supported, so no limit
      is pushed for it. */
  lemma GetOverList(schema: Schema, table: string, value: Option<QualValue>)
    requires table in schema.tables
    requires schema.tables[table] == TableSchema([KeyColumn("c", ["=", "<>"])], [KeyColumn("c", ["="])])
    ensures MayPush(schema, table, [Qual("c", "=", value)], 0) && !MayPush(schema, table, [Qual("c", "<>", value)], 0)
  {
    var t := schema.tables[table];
    assert t.get[0] in t.get && Names(t.get, "c") && LastNamed(t.get, "c", 0);
    SupportedExactlyWhen(t, Qual("c", "=", value));
    SupportedExactlyWhen(t, Qual("c", "<>", value));
    assert "<>" !in ["="] by { assert |"<>"| != |"="|; }
    assert Qual("c", "<>", value) in [Qual("c", "<>", value)];
  }

  /** shouldPushdownLimit. The qual map is visited in an order the runtime chooses. */
  method ShouldPushdownLimit(schema: Schema, table: string, m: QualMap, unhandled: nat) returns (res: bool)
    requires forall c :: c in m ==> m[c] != [] && forall q :: q in m[c] ==> q.field == c
    ensures res <==>
      && unhandled == 0
      && table in schema.tables
      && forall c, q :: c in m && q in m[c] ==> Supported(schema.tables[table], q)
  {
    if unhandled > 0 { return false; }
    if table !in schema.tables { return false; }
    var t := schema.tables[table];
    var keys: map<string, KeyColumn> := map[];
    var all := t.list + t.get;
    var i := 0;
    while i < |all|
      invariant 0 <= i <= |all|
      invariant forall c :: EffectiveKey(all[..i], c) == if c in keys then Some(keys[c]) else None
    {
      assert all[..i + 1][..i] == all[..i];
      keys := keys[all[i].name := all[i]];
      i := i + 1;
    }
    assert all[..i] == all;
    var remaining := m.Keys;
    while remaining != {}
      invariant remaining <= m.Keys
      invariant forall c, q :: c in m && c !in remaining && q in m[c] ==> Supported(t, q)
    {
      var col :| col in remaining;
      remaining := remaining - {col};
      var quals := m[col];
      if col !in keys {
        assert quals[0] in quals && !Supported(t, quals[0]);
        return false;
      }
      var j := 0;
      while j < |quals|
        invariant 0 <= j <= |quals|
        invariant forall q :: q in quals[..j] ==> Supported(t, q)
      {
        if quals[j].operator !in keys[col].operators {
          assert quals[j] in quals && !Supported(t, quals[j]);
          return false;
        }
        assert quals[..j + 1] == quals[..j] + [quals[j]];
        assert Supported(t, quals[j]);
        j := j + 1;
      }
      assert quals[..j] == quals;
    }
    res := true;
  }

  /** What the limit test is for: it passes exactly when every qual, of a list with nothing unhandled,
      falls on a key column under an operator that column supports. */
  ghost predicate MayPush(schema: Schema, table: string, quals: seq<Qual>, unhandled: nat) {
    && unhandled == 0
    && table in schema.tables
    && forall q :: q in quals ==> Supported(schema.tables[table], q)
  }

  function Present(quals: seq<Qual>): (r: seq<Option<Qual>>)
    ensures |r| == |quals| && forall i :: 0 <= i < |quals| ==> r[i] == Some(quals[i])
  {
    seq(|quals|, i requires 0 <= i < |quals| => Some(quals[i]))
  }

  /** Grouping does not change the limit test. */
  lemma GroupedTestIsListTest(schema: Schema, table: string, m: QualMap, quals: seq<Qual>, unhandled: nat)
    requires IsGrouping(m, Present(quals))
    ensures forall c, q :: c in m && q in m[c] ==> q.field == c
    ensures MayPush(schema, table, quals, unhandled) <==>
      && unhandled == 0 && table in schema.tables
      && forall c, q :: c in m && q in m[c] ==> Supported(schema.tables[table], q)
  {
    forall c | c in m ensures forall q :: q in m[c] <==> Some(q) in Present(quals) && q.field == c {
      OnColumnMembers(c, Present(quals));
    }
    forall q ensures Some(q) in Present(quals) <==> q in quals {
      if q in quals { var i :| 0 <= i < |quals| && quals[i] == q; assert Present(quals)[i] == Some(q); }
    }
  }

  const NO_LIMIT := -1

  /** The limit each connection is sent. A schema that is neither static nor dynamic is not checked. */
  ghost function ConnectionLimit(schema: Schema, table: string, quals: seq<Qual>, unhandled: nat, limit: int): int {
    if schema.mode != OtherMode && !MayPush(schema, table, quals, unhandled) then NO_LIMIT else limit
  }

  /** A limit is sent exactly when there is one and the schema is neither static nor dynamic, or nothing is unhandled,
      the table is known and every qual is supported; then it is sent as it is. */
  lemma SentExactlyWhen(schema: Schema, table: string, quals: seq<Qual>, unhandled: nat, limit: int)
    ensures ConnectionLimit(schema, table, quals, unhandled, limit) != NO_LIMIT <==>
      && limit != NO_LIMIT
      && (|| schema.mode == OtherMode
          || (unhandled == 0 && table in schema.tables &&
              forall q :: q in quals ==> Supported(schema.tables[table], q)))
    ensures ConnectionLimit(schema, table, quals, unhandled, limit) in {limit, NO_LIMIT}
  {
  }

  /** buildConnectionLimitMap: one entry per connection of an aggregator. */
  method BuildConnectionLimitMap(schema: Schema, table: string, m: QualMap, unhandled: nat, names: seq<string>,
                                 limit: int, ghost quals: seq<Qual>)
    returns (limits: map<string, int>)
    requires IsGrouping(m, Present(quals))
    ensures forall c :: c in limits <==> c in names
    ensures forall c :: c in names ==> limits[c] == ConnectionLimit(schema, table, quals, unhandled, limit)
  {
    GroupedTestIsListTest(schema, table, m, quals, unhandled);
    var remaining := limit;
    if limit != NO_LIMIT && schema.mode == Static {
      var should := ShouldPushdownLimit(schema, table, m, unhandled);
      if !should { remaining := NO_LIMIT; }
    }
    limits := map[];
    var i := 0;
    while i < |names|
      invariant 0 <= i <= |names|
      invariant forall c :: c in limits <==> c in names[..i]
      invariant forall c :: c in limits ==> limits[c] == ConnectionLimit(schema, table, quals, unhandled, limit)
    {
      var connectionLimit := remaining;
      if schema.mode == Dynamic {
        var should := ShouldPushdownLimit(schema, table, m, unhandled);
        if !should { connectionLimit := NO_LIMIT; }
      }
      limits := limits[names[i] := connectionLimit];
      assert names[..i + 1] == names[..i] + [names[i]];
      i := i + 1;
    }
    assert names[..i] == names;
  }

  // ---------- the number ----------

  /** A LIMIT or OFFSET clause: absent, a constant, or an expression with the value it takes when the
      query runs. None is NULL. */
  datatype LimitClause = Absent | Constant(value: Option<int>) | Computed(runtime: Option<int>)

  /** The value the executor uses; no value is no limit, and no offset. */
  function AtRuntime(c: LimitClause): Option<int> {
    match c
    case Absent => None
    case Constant(v) => v
    case Computed(v) => v
  }

  function OrZero(v: Option<int>): int {
    match v case Some(n) => n case None => 0
  }

  /** Window functions, set-returning targets and WITH TIES are part of a query, but the planner code does not look. */
  datatype QueryShape = QueryShape(
    groups: bool, distinct: bool, aggregates: bool, distinctOn: bool, baseRels: nat,
    windows: bool, targetSets: bool, withTies: bool, limit: LimitClause, offset: LimitClause)

  const TWO31 := 0x8000_0000
  const TWO32 := 0x1_0000_0000

  /** A 32-bit C int: atoi of a 64-bit count keeps the low 32 bits, and so does the sum. */
  function Wrap32(x: int): (r: int)
    ensures -TWO31 <= r < TWO31
    ensures -TWO31 <= x < TWO31 ==> r == x
  {
    (x + TWO31) % TWO32 - TWO31
  }

  predicate Plain(q: QueryShape) {
    !q.groups && !q.distinct && !q.aggregates && !q.distinctOn && q.baseRels == 1
  }

  /** deparseLimit, as a specification. */
  function PlannedLimit(q: QueryShape): int {
    if Plain(q) && q.limit.Constant? && q.limit.value.Some? then
      Wrap32(Wrap32(q.limit.value.value) +
             if q.offset.Constant? && q.offset.value.Some? then Wrap32(q.offset.value.value) else 0)
    else NO_LIMIT
  }

  /** What the planner sees of a clause: the value of a constant that is not NULL. */
  predicate Seen(c: LimitClause, n: int) {
    c == Constant(Some(n))
  }

  /** A number is planned exactly for a plain query with a constant LIMIT whose sum with a constant OFFSET, if there is
      one, has not the low 32 bits of -1. Where the two are not negative and fit, it is their sum. */
  lemma PlannedExactlyWhen(q: QueryShape, limit: int, offset: int)
    requires Seen(q.limit, limit) && if exists o :: Seen(q.offset, o) then Seen(q.offset, offset) else offset == 0
    ensures PlannedLimit(q) != NO_LIMIT <==>
      && !q.groups && !q.distinct && !q.aggregates && !q.distinctOn && q.baseRels == 1
      && (limit + offset + 1) % TWO32 != 0
    ensures PlannedLimit(q) != NO_LIMIT ==>
      (PlannedLimit(q) - (limit + offset)) % TWO32 == 0 && -TWO31 <= PlannedLimit(q) < TWO31
    ensures PlannedLimit(q) != NO_LIMIT && limit >= 0 && offset >= 0 && limit + offset < TWO31 ==>
      PlannedLimit(q) == limit + offset
  {
    assert q.offset.Constant? && q.offset.value.Some? ==> Seen(q.offset, q.offset.value.value);
    WrapOfSum(limit, offset);
    WrapOfSum(limit, 0);
    assert PlannedLimit(q) == if Plain(q) then Wrap32(limit + offset) else NO_LIMIT;
    hide PlannedLimit, Wrap32;
    WrapExactly(limit + offset);
  }

  lemma WrapExactly(x: int)
    ensures Wrap32(x) == NO_LIMIT <==> (x + 1) % TWO32 == 0
    ensures (Wrap32(x) - x) % TWO32 == 0
  {
    var k := WrapDrops(x);
    assert Wrap32(x) - x == -k * TWO32;
  }

  /** And for no other LIMIT. */
  lemma PlannedIsSeen(q: QueryShape)
    ensures PlannedLimit(q) != NO_LIMIT ==> exists n :: Seen(q.limit, n)
  {
    if PlannedLimit(q) != NO_LIMIT { assert Seen(q.limit, q.limit.value.value); }
  }

  method DeparseLimit(q: QueryShape) returns (res: int)
    ensures res == PlannedLimit(q)
  {
    var limitVal, offsetVal := 0, 0;
    if q.groups || q.distinct || q.aggregates || q.distinctOn || q.baseRels != 1 {
      return NO_LIMIT;
    }
    match q.limit {
      case Constant(v) =>
        if v.None? { return NO_LIMIT; }
        limitVal := Wrap32(v.value);
      case _ =>
        return NO_LIMIT;
    }
    match q.offset {
      case Constant(v) =>
        if v.Some? { offsetVal := Wrap32(v.value); }
      case _ =>
    }
    res := Wrap32(limitVal + offsetVal);
  }

  /** A plan limit is safe when it is no limit, or covers every row LIMIT and OFFSET reach, if any. */
  predicate SafeLimit(p: int, q: QueryShape) {
    var limit, offset := AtRuntime(q.limit), AtRuntime(q.offset);
    p == NO_LIMIT || (limit.Some? && (limit.value == 0 || limit.value + OrZero(offset) <= p))
  }

  /** The planned limit of a query whose LIMIT and OFFSET are not negative is safe exactly when nothing is
      planned, or LIMIT is 0, or the OFFSET is known to the planner (or is 0) and the sum fits a C int, or
      the sum wraps to -1. When it is planned and safe, and LIMIT not 0, it is the number of rows reached. */
  lemma PlannedLimitSafeExactlyWhen(q: QueryShape)
    requires OrZero(AtRuntime(q.limit)) >= 0 && OrZero(AtRuntime(q.offset)) >= 0
    ensures SafeLimit(PlannedLimit(q), q) <==> PlannedRight(q)
    ensures SafeLimit(PlannedLimit(q), q) && PlannedLimit(q) != NO_LIMIT && AtRuntime(q.limit) != Some(0) ==>
      PlannedLimit(q) == OrZero(AtRuntime(q.limit)) + OrZero(AtRuntime(q.offset))
  {
    if Plain(q) && q.limit.Constant? && q.limit.value.Some? {
      var l, o := q.limit.value.value, OrZero(AtRuntime(q.offset));
      WrapOfSum(l, if q.offset.Constant? then o else 0);
    }
  }

  /** In terms of the clauses: what the planner sees of LIMIT + OFFSET, and what is reached at run time. */
  predicate PlannedRight(q: QueryShape) {
    var reach := OrZero(AtRuntime(q.limit)) + OrZero(AtRuntime(q.offset));
    var seen := if q.offset.Computed? then OrZero(AtRuntime(q.limit)) else reach;
    || !Plain(q) || !q.limit.Constant? || q.limit.value.None?
    || q.limit.value == Some(0)
    || ((!q.offset.Computed? || OrZero(q.offset.runtime) == 0) && reach < TWO31)
    || seen % TWO32 == TWO32 - 1
  }

  lemma WrapDrops(x: int) returns (k: int)
    ensures x == Wrap32(x) + k * TWO32
  {
    k := (x + TWO31) / TWO32;
  }

  lemma WrapShift(x: int, k: int)
    ensures Wrap32(x + k * TWO32) == Wrap32(x)
  {
    assert (x + TWO31 + k * TWO32) % TWO32 == (x + TWO31) % TWO32;
  }

  lemma WrapOfSum(a: int, b: int)
    ensures Wrap32(Wrap32(a) + Wrap32(b)) == Wrap32(a + b)
    ensures Wrap32(a + b) == -1 <==> (a + b) % TWO32 == TWO32 - 1
    ensures a + b >= 0 ==> Wrap32(a + b) <= a + b
    ensures Wrap32(0) == 0
  {
    var j := WrapDrops(a);
    var k := WrapDrops(b);
    WrapShift(Wrap32(a) + Wrap32(b), j + k);
    WrapRange(a + b);
  }

  lemma WrapRange(x: int)
    ensures Wrap32(x) == -1 <==> x % TWO32 == TWO32 - 1
    ensures x >= 0 ==> Wrap32(x) <= x
  {
  }
}
