/** serializePlanState and initializeExecState in fdw/fdw.c, with the sort groups of fdw/query.c: carrying the
    plan's decisions to the execution as a list of nodes. */
module PlanState {
  import opened Int64
  import opened SortPushdown
  import opened Wrappers

  /** The nodes the lists are made of; Null is the NULL pointer. */
  datatype Node =
    | String(text: string)
    | Integer(value: int)
    | Null
    | Key(key: PathKey)
    | Const(datum: int)
    | List(items: seq<Node>)

  datatype State = State(numattrs: int, targetList: seq<string>, pathkeys: seq<SortGroup>, limit: int, allPushed: bool)

  predicate Fits(bits: nat, x: int) {
    if bits == 16 then -0x8000 <= x < 0x8000 else -0x8000_0000 <= x < 0x8000_0000
  }

  /** numattrs is an AttrNumber of 16 bits, the limit and the attribute numbers are ints of 32. */
  predicate ValidState(s: State) {
    Fits(16, s.numattrs) && Fits(32, s.limit) && forall g :: g in s.pathkeys ==> Fits(32, g.attnum)
  }

  /** A Datum is a word of 64 bits: an int is extended with its sign, and reading it back keeps the low bits. */
  function Int32GetDatum(x: int): int {
    x % TWO_64
  }

  function ReadInt(d: int): int {
    (d + 0x8000_0000) % 0x1_0000_0000 - 0x8000_0000
  }

  function ReadAttrNumber(d: int): int {
    (d + 0x8000) % 0x1_0000 - 0x8000
  }

  function BoolGetDatum(b: bool): int {
    if b then 1 else 0
  }

  /** Each read is right exactly when the type is wide enough for the value. */
  lemma ReadBackExactlyWhen(x: int)
    ensures ReadInt(Int32GetDatum(x)) == x <==> Fits(32, x)
    ensures ReadAttrNumber(Int32GetDatum(x)) == x <==> Fits(16, x)
  {
    var high := x / TWO_64;
    assert x == high * TWO_64 + Int32GetDatum(x);
  }

  // ---------- sort groups ----------

  function EncodeBool(b: bool): Node {
    Integer(if b then 1 else 0)
  }

  function EncodeCollate(c: Option<string>): Node {
    if c.Some? then String(c.value) else Null
  }

  function EncodeGroup(g: SortGroup): seq<Node> {
    [String(g.attname), Integer(g.attnum), EncodeBool(g.reversed), EncodeBool(g.nullsFirst), EncodeCollate(g.collate),
     Key(g.key)]
  }

  /** The lists serializeDeparsedSortGroup makes hold one group each, of six cells. */
  predicate EncodesGroup(item: Node, g: SortGroup) {
    item == List(EncodeGroup(g))
  }

  method SerializeDeparsedSortGroup(pathkeys: seq<SortGroup>) returns (result: seq<Node>)
    ensures |result| == |pathkeys| && forall i :: 0 <= i < |result| ==> EncodesGroup(result[i], pathkeys[i])
  {
    result := [];
    for i := 0 to |pathkeys|
      invariant |result| == i && forall j :: 0 <= j < i ==> EncodesGroup(result[j], pathkeys[j])
    {
      var key := pathkeys[i];
      var item: seq<Node> := [];
      item := item + [String(key.attname)];
      item := item + [Integer(key.attnum)];
      item := item + [EncodeBool(key.reversed)];
      item := item + [EncodeBool(key.nullsFirst)];
      if key.collate.Some? {
        item := item + [String(key.collate.value)];
      } else {
        item := item + [Null];
      }
      item := item + [Key(key.key)];
      result := result + [List(item)];
    }
  }

  /** What deserializeDeparsedSortGroup expects of a cell list; it walks the cells in order. */
  predicate IsGroup(n: Node) {
    && n.List? && |n.items| == 6
    && n.items[0].String? && n.items[1].Integer? && n.items[2].Integer? && n.items[3].Integer?
    && (n.items[4].String? || n.items[4].Null?) && n.items[5].Key?
  }

  method DeserializeDeparsedSortGroup(items: seq<Node>) returns (result: seq<SortGroup>)
    requires forall i :: 0 <= i < |items| ==> IsGroup(items[i])
    ensures |result| == |items|
    // decodes whatever was encoded, when the attribute number is an int
    ensures forall i, g :: 0 <= i < |items| && EncodesGroup(items[i], g) && Fits(32, g.attnum) ==> result[i] == g
  {
    result := [];
    for k := 0 to |items|
      invariant |result| == k
      invariant forall i, g :: 0 <= i < k && EncodesGroup(items[i], g) && Fits(32, g.attnum) ==> result[i] == g
    {
      var list := items[k].items;
      var lc := 0;
      var attname := list[lc].text;
      lc := lc + 1;
      var attnum := ReadInt(list[lc].value);
      lc := lc + 1;
      var reversed := list[lc].value != 0;
      lc := lc + 1;
      var nullsFirst := list[lc].value != 0;
      lc := lc + 1;
      var collate := if list[lc].Null? then None else Some(list[lc].text);
      lc := lc + 1;
      result := result + [SortGroup(attname, attnum, reversed, nullsFirst, collate, list[lc].key)];
    }
  }

  // ---------- the plan state ----------

  /** The list carries the state. */
  ghost predicate Carries(list: seq<Node>, s: State) {
    && |list| == 5
    && list[0] == Const(Int32GetDatum(s.numattrs))
    && list[1].List? && |list[1].items| == |s.targetList|
    && (forall i :: 0 <= i < |s.targetList| ==> list[1].items[i] == String(s.targetList[i]))
    && list[2].List? && |list[2].items| == |s.pathkeys|
    && (forall i :: 0 <= i < |s.pathkeys| ==> EncodesGroup(list[2].items[i], s.pathkeys[i]))
    && list[3] == Const(Int32GetDatum(s.limit))
    && list[4] == Const(BoolGetDatum(s.allPushed))
  }

  method SerializePlanState(s: State) returns (result: seq<Node>)
    ensures Carries(result, s)
  {
    result := [Const(Int32GetDatum(s.numattrs))];
    result := result + [List(seq(|s.targetList|, i requires 0 <= i < |s.targetList| => String(s.targetList[i])))];
    var groups := SerializeDeparsedSortGroup(s.pathkeys);
    result := result + [List(groups)];
    result := result + [Const(Int32GetDatum(s.limit))];
    result := result + [Const(BoolGetDatum(s.allPushed))];
  }

  /** A list a state was serialized to. */
  ghost predicate IsSerialized(list: seq<Node>) {
    exists s :: ValidState(s) && Carries(list, s)
  }

  method InitializeExecState(values: seq<Node>) returns (s: State)
    requires IsSerialized(values)
    ensures ValidState(s) && Carries(values, s)
  {
    ghost var t: State :| ValidState(t) && Carries(values, t);
    ReadBackExactlyWhen(t.numattrs);
    ReadBackExactlyWhen(t.limit);
    var numattrs := ReadAttrNumber(values[0].datum);
    var names := values[1].items;
    var targetList := seq(|names|, i requires 0 <= i < |names| => names[i].text);
    assert targetList == t.targetList;
    var limit := ReadInt(values[3].datum);
    var allPushed := values[|values| - 1].datum != 0;
    var pathkeys := DeserializeDeparsedSortGroup(values[2].items);
    assert pathkeys == t.pathkeys;
    s := State(numattrs, targetList, pathkeys, limit, allPushed);
  }

  /** No list carries two states: so what is read is what was written. */
  lemma CarriesOne(list: seq<Node>, s: State, t: State)
    requires Carries(list, s) && Carries(list, t) && ValidState(s) && ValidState(t)
    ensures s == t
  {
    ReadBackExactlyWhen(s.numattrs);
    ReadBackExactlyWhen(t.numattrs);
    ReadBackExactlyWhen(s.limit);
    ReadBackExactlyWhen(t.limit);
    forall i | 0 <= i < |s.targetList| ensures s.targetList[i] == t.targetList[i] {
      assert list[1].items[i] == String(s.targetList[i]) == String(t.targetList[i]);
    }
    forall i | 0 <= i < |s.pathkeys| ensures s.pathkeys[i] == t.pathkeys[i] {
      SameGroup(s.pathkeys[i], t.pathkeys[i]);
    }
    assert s.targetList == t.targetList && s.pathkeys == t.pathkeys;
  }

  lemma SameGroup(g: SortGroup, h: SortGroup)
    requires EncodeGroup(g) == EncodeGroup(h)
    ensures g == h
  {
    var a, b := EncodeGroup(g), EncodeGroup(h);
    assert a[0] == b[0] && a[1] == b[1] && a[2] == b[2] && a[3] == b[3] && a[4] == b[4] && a[5] == b[5];
  }

  /** The whole way: any plan state comes back as it was, a limit of -1 and all. */
  method RoundTrip(s: State) returns (t: State)
    requires ValidState(s)
    ensures t == s
  {
    var list := SerializePlanState(s);
    t := InitializeExecState(list);
    CarriesOne(list, s, t);
  }
}
