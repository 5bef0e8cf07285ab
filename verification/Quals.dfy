/** quals.go: translating restriction clauses into the quals a plugin is sent, and what is lost. */
module Quals {
  import opened Wrappers
  import opened Sql
  import opened Canonical

  /** A value in a qual; a list may hold nil and further lists. */
  datatype QualValue = Single(scalar: Scalar) | List(values: seq<Option<QualValue>>)

  datatype Qual = Qual(field: string, operator: string, value: Option<QualValue>)

  // ---------- what a plugin takes a qual to mean ----------

  predicate SatValue(w: World, op: string, c: Option<Scalar>, v: Option<QualValue>)
    decreases v
  {
    match v
    case None => false
    case Some(Single(s)) => c.Some? && w.holds(op, c.value, s)
    case Some(List(vs)) =>
      if w.listAny(op) then exists x :: x in vs && SatValue(w, op, c, x)
      else forall x :: x in vs ==> SatValue(w, op, c, x)
  }

  predicate Sat(w: World, q: Qual, row: Row) {
    var c := Column(row, q.field);
    if q.operator == IS_NULL then c.None?
    else if q.operator == IS_NOT_NULL then c.Some?
    else SatValue(w, q.operator, c, q.value)
  }

  // ---------- values ----------

  function EncodeElem(e: Option<Scalar>): Option<QualValue> {
    match e case None => None case Some(s) => Some(Single(s))
  }

  predicate Encodable(w: World, e: Option<Scalar>) {
    e.Some? ==> w.encodable(e.value)
  }

  /** Nulls are all kept; a value is kept the first time it is seen. */
  function Dedup(acc: seq<Option<QualValue>>, elems: seq<Option<Scalar>>): seq<Option<QualValue>>
    decreases |elems|
  {
    if elems == [] then acc
    else
      var x := EncodeElem(elems[0]);
      Dedup(if x == None || x !in acc then acc + [x] else acc, elems[1..])
  }

  /** datumArrayToQualValue. None is the error of an element that cannot be encoded. */
  method DatumArrayToQualValue(w: World, elems: seq<Option<Scalar>>) returns (res: Option<QualValue>)
    ensures res == if forall e :: e in elems ==> Encodable(w, e) then Some(List(Dedup([], elems))) else None
  {
    var values: seq<Option<QualValue>> := [];
    var i := 0;
    assert elems[0..] == elems;
    while i < |elems|
      invariant 0 <= i <= |elems|
      invariant Dedup(values, elems[i..]) == Dedup([], elems)
      invariant forall k :: 0 <= k < i ==> Encodable(w, elems[k])
    {
      assert elems[i..][1..] == elems[i + 1..];
      if elems[i].None? {
        values := values + [None];
        i := i + 1;
        continue;
      }
      if !w.encodable(elems[i].value) {
        assert elems[i] in elems;
        return None;
      }
      var v := Some(Single(elems[i].value));
      var known := false;
      var j := 0;
      while j < |values|
        invariant 0 <= j <= |values|
        invariant known <==> v in values[..j]
      {
        if values[j] == v { known := true; }
        j := j + 1;
      }
      assert values[..j] == values;
      if !known {
        values := values + [v];
      }
      i := i + 1;
    }
    res := Some(List(values));
  }

  predicate NoValueTwice(d: seq<Option<QualValue>>) {
    forall i, j :: 0 <= i < j < |d| && d[i] == d[j] ==> d[i] == None
  }

  /** Deduplication drops no value and invents none, and no value occurs twice. */
  lemma {:induction false} DedupMembers(acc: seq<Option<QualValue>>, elems: seq<Option<Scalar>>)
    requires NoValueTwice(acc)
    ensures forall x :: x in Dedup(acc, elems) <==> x in acc || exists e :: e in elems && x == EncodeElem(e)
    ensures NoValueTwice(Dedup(acc, elems))
    decreases |elems|
  {
    if elems != [] {
      var x := EncodeElem(elems[0]);
      var acc' := if x == None || x !in acc then acc + [x] else acc;
      assert Dedup(acc, elems) == Dedup(acc', elems[1..]);
      DedupMembers(acc', elems[1..]);
      forall y ensures y in Dedup(acc, elems) <==> y in acc || exists e :: e in elems && y == EncodeElem(e) {
        assert elems == [elems[0]] + elems[1..];
        if exists e :: e in elems && y == EncodeElem(e) {
          var e :| e in elems && y == EncodeElem(e);
          assert e == elems[0] || e in elems[1..];
        }
      }
    }
  }

  lemma {:induction false} DedupExtends(acc: seq<Option<QualValue>>, elems: seq<Option<Scalar>>)
    ensures acc <= Dedup(acc, elems)
    decreases |elems|
  {
    if elems != [] {
      var x := EncodeElem(elems[0]);
      DedupExtends(if x == None || x !in acc then acc + [x] else acc, elems[1..]);
    }
  }

  /** Values stand in the order in which they first occur: more elements only add values at the end. */
  lemma {:induction false} DedupGrows(acc: seq<Option<QualValue>>, elems: seq<Option<Scalar>>,
                                      more: seq<Option<Scalar>>)
    ensures Dedup(acc, elems) <= Dedup(acc, elems + more)
    decreases |elems|
  {
    if elems == [] {
      assert elems + more == more;
      DedupExtends(acc, more);
    } else {
      var x := EncodeElem(elems[0]);
      DedupGrows(if x == None || x !in acc then acc + [x] else acc, elems[1..], more);
      assert (elems + more)[1..] == elems[1..] + more;
    }
  }

  /** And every NULL is kept. */
  lemma {:induction false} DedupKeepsNulls(acc: seq<Option<QualValue>>, elems: seq<Option<Scalar>>)
    ensures multiset(Dedup(acc, elems))[None] == multiset(acc)[None] + multiset(elems)[None]
    decreases |elems|
  {
    if elems != [] {
      var x := EncodeElem(elems[0]);
      assert elems == [elems[0]] + elems[1..];
      DedupKeepsNulls(if x == None || x !in acc then acc + [x] else acc, elems[1..]);
    }
  }

  /** datumToQualValue after a null check: Some(None) is a nil value, None an error. */
  function EncodeDatum(w: World, d: Datum): Option<Option<QualValue>> {
    match d
    case None => Some(None)
    case Some(One(s)) => if w.encodable(s) then Some(Some(Single(s))) else None
    case Some(Many(elems)) =>
      if forall e :: e in elems ==> Encodable(w, e) then Some(Some(List(Dedup([], elems)))) else None
  }

  /** The function whose evaluation getQualValue refuses: jsonb_array_elements. */
  const JSONB_ARRAY_ELEMENTS := 3214

  /** getQualValue: only constants, parameters and operator expressions are evaluated. */
  function QualValueOf(w: World, start: Env, right: Node): Option<Option<QualValue>> {
    match right
    case Const(d) => EncodeDatum(w, d)
    case Param(id) => EncodeDatum(w, start.param(id))
    case OpExpr(opno, _) =>
      if w.operatorFunc(opno) == JSONB_ARRAY_ELEMENTS then None else EncodeDatum(w, Eval(w, start, right))
    case _ => None
  }

  // ---------- restrictions ----------

  /** One scan's translation: the world, the evaluation in which operands are computed when the scan
      begins, and the attribute number found by reading an expression that is no Var as if it were. */
  datatype Translation = Translation(w: World, start: Env, misread: Node -> int)

  /** columnFromVar; None for the empty string. */
  function ColumnFromVar(w: World, attno: int): Option<string> {
    match AttrName(w, attno)
    case Some(name) => if name == "" then None else Some(name)
    case None => None
  }

  const TRUE_VALUE: Option<QualValue> := Some(Single(BoolS(true)))

  /** What OpExpr and ScalarArrayOpExpr share once in canonical form. */
  function QualFromForm(t: Translation, form: Option<Form>): Option<Qual> {
    match form
    case None => None
    case Some(f) =>
      if Volatile(f.right) || Mentions(f.right, t.w.scanRel) || !f.column.Var? then None
      else match (AttrName(t.w, f.column.attno), QualValueOf(t.w, t.start, f.right))
        case (Some(name), Some(v)) => Some(Qual(name, t.w.operatorName(f.opno), v))
        case _ => None
  }

  function BoolColumnQual(t: Translation, attno: int, op: string): Option<Qual> {
    match ColumnFromVar(t.w, attno)
    case Some(name) => Some(Qual(name, op, TRUE_VALUE))
    case None => None
  }

  /** The attribute number read where the source casts an expression to a Var. */
  function AttnoAt(t: Translation, n: Node): int {
    if n.Var? then n.attno else t.misread(n)
  }

  /** singleRestrictionToQual and the functions it dispatches to. */
  function ToQual(t: Translation, n: Node): Option<Qual>
    decreases n, 1
  {
    match n
    case OpExpr(opno, args) => QualFromForm(t, CanonicalForm(t.w, opno, args))
    case Var(_, attno) => BoolColumnQual(t, attno, "=")
    case ArrayOpExpr(opno, _, args) => QualFromForm(t, CanonicalArrayForm(t.w, opno, args))
    case NullTest(arg, testsNull) =>
      if !arg.Var? || arg.attno < 1 then None
      else (match ColumnFromVar(t.w, arg.attno)
            case Some(name) => Some(Qual(name, if testsNull then IS_NULL else IS_NOT_NULL, None))
            case None => None)
    case BooleanTest(arg, test) =>
      if !arg.Var? then None
      else (match test
            case IsTrue => BoolColumnQual(t, arg.attno, "=")
            case IsNotTrue => BoolColumnQual(t, arg.attno, "<>")
            case IsFalse => BoolColumnQual(t, arg.attno, "<>")
            case _ => None)
    case BoolExpr(op, args) =>
      if args == [] then None
      else if |args| == 1 || (op == Not && args[0].Var?) then BoolColumnQual(t, AttnoAt(t, args[0]), "<>")
      else if op == Or then InList(ToQuals(t, args))
      else None
    case _ => None
  }

  /** The members of an OR; None as soon as one has no qual. */
  function ToQuals(t: Translation, ns: seq<Node>): (qs: Option<seq<Qual>>)
    ensures qs.Some? ==> |qs.value| == |ns|
    ensures qs.Some? ==> forall i :: 0 <= i < |ns| ==> ToQual(t, ns[i]) == Some(qs.value[i])
    ensures qs.None? ==> exists i :: 0 <= i < |ns| && ToQual(t, ns[i]) == None
    decreases ns, 0
  {
    if ns == [] then Some([])
    else match (ToQual(t, ns[0]), ToQuals(t, ns[1..]))
      case (Some(q), Some(qs)) => Some([q] + qs)
      case (None, _) => None
      case (_, None) =>
        assert exists i :: 0 <= i < |ns[1..]| && ToQual(t, ns[1..][i]) == None;
        None
  }

  /** col=X OR col=Y becomes col IN (X, Y). */
  function InList(qs: Option<seq<Qual>>): Option<Qual> {
    match qs
    case None => None
    case Some(qs) =>
      if qs == [] || exists q :: q in qs && (q.field != qs[0].field || q.operator != "=") then None
      else Some(Qual(qs[0].field, "=", Some(List(seq(|qs|, i requires 0 <= i < |qs| => qs[i].value)))))
  }

  /** restrictionsToQuals, as a specification: the quals in order, and how many clauses had none. */
  function QualsOf(t: Translation, ns: seq<Node>): seq<Qual>
    decreases |ns|
  {
    if ns == [] then []
    else (match ToQual(t, ns[0]) case Some(q) => [q] case None => []) + QualsOf(t, ns[1..])
  }

  function Unhandled(t: Translation, ns: seq<Node>): nat
    decreases |ns|
  {
    if ns == [] then 0
    else (if ToQual(t, ns[0]).None? then 1 else 0) + Unhandled(t, ns[1..])
  }

  /** qualFromBoolExpr's first loop: every member of the OR must have a qual. */
  method OrMembers(t: Translation, args: seq<Node>) returns (res: Option<seq<Qual>>)
    ensures res == ToQuals(t, args)
    decreases args, 0
  {
    var members: seq<Qual> := [];
    var i := 0;
    while i < |args|
      invariant 0 <= i <= |args| && |members| == i
      invariant forall k :: 0 <= k < i ==> ToQual(t, args[k]) == Some(members[k])
    {
      var q := SingleRestrictionToQual(t, args[i]);
      if q.None? {
        return None;
      }
      members := members + [q.value];
      i := i + 1;
    }
    ghost var all := ToQuals(t, args);
    assert all.Some?;
    assert forall k :: 0 <= k < |args| ==> ToQual(t, args[k]) == Some(all.value[k]);
    assert all.value == members;
    res := Some(members);
  }

  /** Its other two loops: all on one column under "=", then the values gathered. */
  method GatherInList(members: seq<Qual>) returns (res: Option<Qual>)
    requires members != []
    ensures res == InList(Some(members))
  {
    var i := 0;
    while i < |members|
      invariant 0 <= i <= |members|
      invariant forall k :: 0 <= k < i ==> members[k].field == members[0].field && members[k].operator == "="
    {
      if members[i].field != members[0].field || members[i].operator != "=" {
        assert members[i] in members;
        return None;
      }
      i := i + 1;
    }
    var values: seq<Option<QualValue>> := [];
    i := 0;
    while i < |members|
      invariant 0 <= i <= |members| && |values| == i
      invariant forall k :: 0 <= k < i ==> values[k] == members[k].value
    {
      values := values + [members[i].value];
      i := i + 1;
    }
    assert values == seq(|members|, k requires 0 <= k < |members| => members[k].value);
    res := Some(Qual(members[0].field, "=", Some(List(values))));
  }

  method QualFromVar(t: Translation, attno: int) returns (res: Option<Qual>)
    ensures forall rel :: res == ToQual(t, Var(rel, attno))
  {
    var column := ColumnFromVar(t.w, attno);
    if column.None? { return None; }
    res := Some(Qual(column.value, "=", TRUE_VALUE));
  }

  method QualFromNullTest(t: Translation, arg: Node, testsNull: bool) returns (res: Option<Qual>)
    ensures res == ToQual(t, NullTest(arg, testsNull))
  {
    if !arg.Var? { return None; }
    if arg.attno < 1 { return None; }
    var column := ColumnFromVar(t.w, arg.attno);
    if column.None? { return None; }
    var operator := if testsNull then IS_NULL else IS_NOT_NULL;
    res := Some(Qual(column.value, operator, None));
  }

  method QualFromBooleanTest(t: Translation, arg: Node, test: BoolTest) returns (res: Option<Qual>)
    ensures res == ToQual(t, BooleanTest(arg, test))
  {
    if !arg.Var? { return None; }
    var column := ColumnFromVar(t.w, arg.attno);
    if column.None? { return None; }
    var operator: string;
    match test {
      case IsTrue => operator := "=";
      case IsNotTrue => operator := "<>";
      case IsFalse => operator := "<>";
      case _ => return None;
    }
    res := Some(Qual(column.value, operator, TRUE_VALUE));
  }

  method QualFromScalarOpExpr(t: Translation, opno: Oid, useOr: bool, args: seq<Node>) returns (res: Option<Qual>)
    ensures res == ToQual(t, ArrayOpExpr(opno, useOr, args))
  {
    var form := CanonicalArrayForm(t.w, opno, args);
    if form.None? { return None; }
    var f := form.value;
    if Volatile(f.right) || Mentions(f.right, t.w.scanRel) { return None; }
    var name, value := AttrName(t.w, f.column.attno), QualValueOf(t.w, t.start, f.right);
    if name.None? || value.None? { return None; }
    res := Some(Qual(name.value, t.w.operatorName(opno), value.value));
  }

  method SingleRestrictionToQual(t: Translation, n: Node) returns (res: Option<Qual>)
    ensures res == ToQual(t, n)
    decreases n, 1
  {
    match n
    case OpExpr(opno, args) =>
      var form := CanonicalOpExpr(t.w, opno, args);
      res := QualFromForm(t, form);
    case BoolExpr(op, args) =>
      if args == [] {
        res := None;
      } else if |args| == 1 || (op == Not && args[0].Var?) {
        res := BoolColumnQual(t, AttnoAt(t, args[0]), "<>");
      } else if op == Or {
        var members := OrMembers(t, args);
        if members.None? { return None; }
        res := GatherInList(members.value);
      } else {
        res := None;
      }
    case Var(_, attno) => res := QualFromVar(t, attno);
    case ArrayOpExpr(opno, useOr, args) => res := QualFromScalarOpExpr(t, opno, useOr, args);
    case NullTest(arg, testsNull) => res := QualFromNullTest(t, arg, testsNull);
    case BooleanTest(arg, test) => res := QualFromBooleanTest(t, arg, test);
    case _ => res := None;
  }

  /** restrictionsToQuals. */
  method RestrictionsToQuals(t: Translation, ns: seq<Node>) returns (quals: seq<Qual>, unhandled: nat)
    ensures quals == QualsOf(t, ns)
    ensures unhandled == Unhandled(t, ns)
    ensures |quals| + unhandled == |ns|
  {
    hide ToQual;
    quals, unhandled := [], 0;
    var i := 0;
    assert ns[0..] == ns;
    while i < |ns|
      invariant 0 <= i <= |ns|
      invariant quals + QualsOf(t, ns[i..]) == QualsOf(t, ns)
      invariant unhandled + Unhandled(t, ns[i..]) == Unhandled(t, ns)
      invariant |quals| + unhandled == i
    {
      assert ns[i..][1..] == ns[i + 1..];
      var q := SingleRestrictionToQual(t, ns[i]);
      if q.Some? {
        quals := quals + [q.value];
      } else {
        unhandled := unhandled + 1;
      }
      i := i + 1;
    }
  }
}
