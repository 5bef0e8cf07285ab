/** Which clauses become quals, and which: said of the clause and the catalogue, not of the functions that
    translate. */
module QualShapes {
  import opened Wrappers
  import opened Sql
  import opened Canonical
  import opened Quals

  /** Attribute attno of the table is live and has this name. */
  predicate Live(w: World, attno: int, name: string) {
    1 <= attno <= |w.attrs| && w.attrs[attno - 1] == Some(name)
  }

  /** The operand with one relabelling or array coercion, if it has one, taken off. */
  predicate Bare(n: Node, m: Node) {
    if n.RelabelType? || n.ArrayCoerce? then m == n.arg else m == n
  }

  /** An operand the scan can evaluate when it begins, and its value. */
  predicate Operand(t: Translation, n: Node, d: Datum) {
    match n
    case Const(c) => d == c
    case Param(id) => d == t.start.param(id)
    case OpExpr(opno, _) => t.w.operatorFunc(opno) != JSONB_ARRAY_ELEMENTS && d == Eval(t.w, t.start, n)
    case _ => false
  }

  /** A datum of types the encoding knows, and what it is sent as: an array without repeated values. */
  predicate Sent(w: World, d: Datum, v: Option<QualValue>) {
    match d
    case None => v == None
    case Some(One(s)) => w.encodable(s) && v == Some(Single(s))
    case Some(Many(elems)) =>
      (forall e :: e in elems && e.Some? ==> w.encodable(e.value)) && v == Some(List(Dedup([], elems)))
  }

  /** The qual compares a live column of the scanned table, under the operator's name, with the value of an operand
      that is neither volatile nor about the table. */
  ghost predicate Compares(t: Translation, column: Node, opno: Oid, operand: Node, q: Qual) {
    && column.Var? && column.varno == t.w.scanRel && Live(t.w, column.attno, q.field)
    && q.operator == t.w.operatorName(opno)
    && !Volatile(operand) && !Mentions(operand, t.w.scanRel)
    && exists d :: Operand(t, operand, d) && Sent(t.w, d, q.value)
  }

  /** The qual compares a live column that has a name with true. */
  predicate ComparesWithTrue(t: Translation, attno: int, operator: string, q: Qual) {
    Live(t.w, attno, q.field) && q.field != "" && q.operator == operator && q.value == Some(Single(BoolS(true)))
  }

  /** What a comparison becomes: with the column on its left, or on the right of an operator that commutes whose left
      side is no variable of the table. */
  ghost predicate ComparisonBecomes(t: Translation, opno: Oid, args: seq<Node>, q: Qual) {
    && |args| == 2
    && exists l, r :: Bare(args[0], l) && Bare(args[1], r) && EitherCompares(t, l, opno, r, q)
  }

  ghost predicate EitherCompares(t: Translation, l: Node, opno: Oid, r: Node, q: Qual) {
    || Compares(t, l, opno, r, q)
    || (&& t.w.commutator(opno) != 0 && !(l.Var? && l.varno == t.w.scanRel)
        && Compares(t, r, t.w.commutator(opno), l, q))
  }

  ghost predicate ArrayBecomes(t: Translation, opno: Oid, args: seq<Node>, q: Qual) {
    |args| == 2 && exists l, r :: Bare(args[0], l) && Bare(args[1], r) && Compares(t, l, opno, r, q)
  }

  /** The clauses that become a qual: comparisons with an operand or an array; a boolean column; a null test of a
      column; three of the six boolean tests of one; a boolean expression of one argument, or NOT over a variable; and
      an OR of several members that all become equalities on one column, whose values are listed in order. */
  ghost predicate Becomes(t: Translation, n: Node, q: Qual)
    decreases n
  {
    match n
    case OpExpr(opno, args) => ComparisonBecomes(t, opno, args, q)
    case ArrayOpExpr(opno, _, args) => ArrayBecomes(t, opno, args, q)
    case Var(_, attno) => ComparesWithTrue(t, attno, "=", q)
    case NullTest(arg, testsNull) =>
      && arg.Var? && Live(t.w, arg.attno, q.field) && q.field != ""
      && q.operator == (if testsNull then IS_NULL else IS_NOT_NULL) && q.value == None
    case BooleanTest(arg, test) =>
      && arg.Var?
      && (|| (test == IsTrue && ComparesWithTrue(t, arg.attno, "=", q))
          || ((test == IsNotTrue || test == IsFalse) && ComparesWithTrue(t, arg.attno, "<>", q)))
    case BoolExpr(op, args) =>
      && args != []
      && if |args| == 1 || (op == Not && args[0].Var?)
         then ComparesWithTrue(t, if args[0].Var? then args[0].attno else t.misread(args[0]), "<>", q)
         else
           && op == Or && q.operator == "=" && q.value.Some? && q.value.value.List?
           && |q.value.value.values| == |args|
           && forall i :: 0 <= i < |args| ==> Becomes(t, args[i], Qual(q.field, "=", q.value.value.values[i]))
    case _ => false
  }

  // ---------- the shapes are exactly those ----------

  lemma NamedColumn(w: World, attno: int, name: string)
    ensures AttrName(w, attno) == Some(name) <==> Live(w, attno, name)
    ensures ColumnFromVar(w, attno) == Some(name) <==> Live(w, attno, name) && name != ""
  {
  }

  lemma EncodedIsSent(w: World, d: Datum, v: Option<QualValue>)
    ensures EncodeDatum(w, d) == Some(v) <==> Sent(w, d, v)
  {
    hide Dedup;
  }

  lemma ValueIsSent(t: Translation, operand: Node, v: Option<QualValue>)
    ensures QualValueOf(t.w, t.start, operand) == Some(v) <==> exists d :: Operand(t, operand, d) && Sent(t.w, d, v)
  {
    hide EncodeDatum, Sent;
    forall d { EncodedIsSent(t.w, d, v); }
    match operand
    case Const(c) => assert Operand(t, operand, c);
    case Param(id) => assert Operand(t, operand, t.start.param(id));
    case OpExpr(opno, args) =>
      if t.w.operatorFunc(opno) != JSONB_ARRAY_ELEMENTS { assert Operand(t, operand, Eval(t.w, t.start, operand)); }
    case _ =>
  }

  lemma FormCompares(t: Translation, f: Form, q: Qual)
    requires f.column.Var? && f.column.varno == t.w.scanRel
    ensures QualFromForm(t, Some(f)) == Some(q) <==> Compares(t, f.column, f.opno, f.right, q)
  {
    hide Volatile, Mentions, QualValueOf, Operand, Sent;
    NamedColumn(t.w, f.column.attno, q.field);
    ValueIsSent(t, f.right, q.value);
  }

  lemma UnnestBares(n: Node, m: Node)
    ensures Bare(n, m) <==> m == Unnest(n)
  {
  }

  lemma ColumnsAreScanned(t: Translation, column: Node, opno: Oid, operand: Node, q: Qual)
    requires Compares(t, column, opno, operand, q)
    ensures IsScanColumn(column, t.w.scanRel)
  {
  }

  lemma ComparisonExactly(t: Translation, opno: Oid, args: seq<Node>, q: Qual)
    ensures QualFromForm(t, CanonicalForm(t.w, opno, args)) == Some(q) <==> ComparisonBecomes(t, opno, args, q)
  {
    if |args| == 2 {
      var l, r := Unnest(args[0]), Unnest(args[1]);
      UnnestBares(args[0], l);
      UnnestBares(args[1], r);
      if Compares(t, l, opno, r, q) { ColumnsAreScanned(t, l, opno, r, q); }
      if Compares(t, r, t.w.commutator(opno), l, q) { ColumnsAreScanned(t, r, t.w.commutator(opno), l, q); }
      var form := CanonicalForm(t.w, opno, args);
      if form.Some? { FormCompares(t, form.value, q); }
      hide QualFromForm, Compares, Unnest;
      forall m, k | Bare(args[0], m) && Bare(args[1], k) ensures m == l && k == r {
        UnnestBares(args[0], m);
        UnnestBares(args[1], k);
      }
    }
  }

  lemma ArrayExactly(t: Translation, opno: Oid, args: seq<Node>, q: Qual)
    ensures QualFromForm(t, CanonicalArrayForm(t.w, opno, args)) == Some(q) <==> ArrayBecomes(t, opno, args, q)
  {
    if |args| == 2 {
      var l, r := Unnest(args[0]), Unnest(args[1]);
      UnnestBares(args[0], l);
      UnnestBares(args[1], r);
      if Compares(t, l, opno, r, q) { ColumnsAreScanned(t, l, opno, r, q); }
      var form := CanonicalArrayForm(t.w, opno, args);
      if form.Some? { FormCompares(t, form.value, q); }
      hide QualFromForm, Compares, Unnest;
      forall m, k | Bare(args[0], m) && Bare(args[1], k) ensures m == l && k == r {
        UnnestBares(args[0], m);
        UnnestBares(args[1], k);
      }
    }
  }

  lemma TrueExactly(t: Translation, attno: int, operator: string, q: Qual)
    ensures BoolColumnQual(t, attno, operator) == Some(q) <==> ComparesWithTrue(t, attno, operator, q)
  {
    NamedColumn(t.w, attno, q.field);
  }

  /** The values of an IN list, in the order of the members. */
  predicate Lists(q: Qual, qs: seq<Qual>) {
    && q.operator == "=" && q.value.Some? && q.value.value.List? && |q.value.value.values| == |qs|
    && forall i :: 0 <= i < |qs| ==> qs[i] == Qual(q.field, "=", q.value.value.values[i])
  }

  lemma InListExactly(qs: seq<Qual>, q: Qual)
    requires qs != []
    ensures InList(Some(qs)) == Some(q) <==> Lists(q, qs)
  {
    if InList(Some(qs)) == Some(q) {
      forall i | 0 <= i < |qs| ensures qs[i] == Qual(q.field, "=", q.value.value.values[i]) { assert qs[i] in qs; }
    }
    if Lists(q, qs) {
      forall p | p in qs ensures p.field == qs[0].field && p.operator == "=" {
        var i :| 0 <= i < |qs| && qs[i] == p;
      }
      assert qs[0].field == q.field;
      assert q.value.value.values == seq(|qs|, i requires 0 <= i < |qs| => qs[i].value);
    }
  }

  /** Every clause becomes just what its shape says. */
  lemma {:induction false} BecomesExactly(t: Translation, n: Node, q: Qual)
    ensures ToQual(t, n) == Some(q) <==> Becomes(t, n, q)
    decreases n
  {
    match n
    case OpExpr(opno, args) => ComparisonExactly(t, opno, args, q);
    case ArrayOpExpr(opno, _, args) => ArrayExactly(t, opno, args, q);
    case Var(_, attno) => TrueExactly(t, attno, "=", q);
    case NullTest(arg, _) => if arg.Var? { NamedColumn(t.w, arg.attno, q.field); }
    case BooleanTest(arg, _) =>
      if arg.Var? {
        TrueExactly(t, arg.attno, "=", q);
        TrueExactly(t, arg.attno, "<>", q);
      }
    case BoolExpr(op, args) =>
      if args != [] {
        if |args| == 1 || (op == Not && args[0].Var?) {
          TrueExactly(t, AttnoAt(t, args[0]), "<>", q);
        } else if op == Or {
          OrExactly(t, args, q);
        }
      }
    case _ =>
  }

  lemma {:induction false} OrExactly(t: Translation, args: seq<Node>, q: Qual)
    requires args != []
    ensures InList(ToQuals(t, args)) == Some(q) <==>
      && q.operator == "=" && q.value.Some? && q.value.value.List? && |q.value.value.values| == |args|
      && forall i :: 0 <= i < |args| ==> Becomes(t, args[i], Qual(q.field, "=", q.value.value.values[i]))
    decreases args
  {
    var members := ToQuals(t, args);
    if members.Some? { InListExactly(members.value, q); }
    if q.operator == "=" && q.value.Some? && q.value.value.List? && |q.value.value.values| == |args| {
      forall i | 0 <= i < |args|
        ensures ToQual(t, args[i]) == Some(Qual(q.field, "=", q.value.value.values[i])) <==>
          Becomes(t, args[i], Qual(q.field, "=", q.value.value.values[i]))
      {
        BecomesExactly(t, args[i], Qual(q.field, "=", q.value.value.values[i]));
      }
    }
  }

  // ---------- the whole list ----------

  /** The clause becomes some qual. */
  ghost predicate Translates(t: Translation, n: Node) {
    exists q :: Becomes(t, n, q)
  }

  lemma TranslatesExactly(t: Translation, n: Node)
    ensures ToQual(t, n).Some? <==> Translates(t, n)
  {
    if ToQual(t, n).Some? { BecomesExactly(t, n, ToQual(t, n).value); }
    if q :| Becomes(t, n, q) { BecomesExactly(t, n, q); }
  }

  /** How many of the clauses do not. */
  ghost function Others(t: Translation, ns: seq<Node>): (s: set<nat>) {
    set i: nat | i < |ns| && !Translates(t, ns[i])
  }

  lemma {:induction false} CountedFromEnd(t: Translation, ns: seq<Node>, n: Node)
    ensures QualsOf(t, ns + [n]) == QualsOf(t, ns) + match ToQual(t, n) case Some(q) => [q] case None => []
    ensures Unhandled(t, ns + [n]) == Unhandled(t, ns) + if ToQual(t, n).None? then 1 else 0
    decreases |ns|
  {
    if ns == [] {
      assert ns + [n] == [n] && [n][1..] == [];
    } else {
      CountedFromEnd(t, ns[1..], n);
      assert (ns + [n])[1..] == ns[1..] + [n];
    }
  }

  lemma OthersOfOneMore(t: Translation, ns: seq<Node>, n: Node)
    ensures Others(t, ns + [n]) == Others(t, ns) + if Translates(t, n) then {} else {|ns|}
    ensures |Others(t, ns + [n])| == |Others(t, ns)| + if Translates(t, n) then 0 else 1
  {
    hide Translates;
    assert Others(t, ns + [n]) == Others(t, ns) + if Translates(t, n) then {} else {|ns|};
  }

  /** The unhandled restrictions are exactly the clauses that become nothing, and each of the others gives a qual. */
  lemma {:induction false} RestrictionsCounted(t: Translation, ns: seq<Node>)
    ensures Unhandled(t, ns) == |Others(t, ns)| && |QualsOf(t, ns)| + Unhandled(t, ns) == |ns|
    decreases |ns|
  {
    if ns == [] {
      assert Others(t, ns) == {};
    } else {
      var last := |ns| - 1;
      assert ns == ns[..last] + [ns[last]];
      hide Others, Translates, ToQual, QualsOf, Unhandled;
      RestrictionsCounted(t, ns[..last]);
      CountedFromEnd(t, ns[..last], ns[last]);
      TranslatesExactly(t, ns[last]);
      OthersOfOneMore(t, ns[..last], ns[last]);
    }
  }

  /** In order: the qual of clause i comes after those of the clauses before it. */
  lemma {:induction false} RestrictionsInOrder(t: Translation, ns: seq<Node>, i: nat, q: Qual)
    requires i < |ns| && Becomes(t, ns[i], q)
    ensures var k := i - |Others(t, ns[..i])|; 0 <= k < |QualsOf(t, ns)| && QualsOf(t, ns)[k] == q
    decreases |ns|
  {
    var last := |ns| - 1;
    assert ns == ns[..last] + [ns[last]];
    hide Others, Becomes, ToQual, QualsOf, Unhandled;
    CountedFromEnd(t, ns[..last], ns[last]);
    if i < last {
      RestrictionsInOrder(t, ns[..last], i, q);
      assert ns[..last][..i] == ns[..i];
    } else {
      BecomesExactly(t, ns[i], q);
      RestrictionsCounted(t, ns[..i]);
    }
  }

  // ---------- an OR ----------

  /** c = x OR c = y becomes c IN (x, y), and is handled. */
  lemma OrOfTwo(start: Env, misread: Node -> int, x: Scalar, y: Scalar)
    ensures
      var t := Translation(EqualityWorld(), start, misread);
      var n := BoolExpr(Or, [OpExpr(1, [Var(1, 1), Const(Some(One(x)))]), OpExpr(1, [Var(1, 1), Const(Some(One(y)))])]);
      && ToQual(t, n) == Some(Qual("c", "=", Some(List([Some(Single(x)), Some(Single(y))]))))
      && Unhandled(t, [n]) == 0
  {
    var t := Translation(EqualityWorld(), start, misread);
    var args := [OpExpr(1, [Var(1, 1), Const(Some(One(x)))]), OpExpr(1, [Var(1, 1), Const(Some(One(y)))])];
    var q := Qual("c", "=", Some(List([Some(Single(x)), Some(Single(y))])));
    EqualsOne(t, x);
    EqualsOne(t, y);
    OrBecomes(t, args, q);
    hide *;
    BecomesExactly(t, BoolExpr(Or, args), q);
    TranslatesExactly(t, BoolExpr(Or, args));
    OneHandled(t, BoolExpr(Or, args));
  }

  lemma OneHandled(t: Translation, n: Node)
    ensures ToQual(t, n).Some? ==> Unhandled(t, [n]) == 0
  {
    hide ToQual;
    assert [n][1..] == [];
  }

  lemma OrBecomes(t: Translation, args: seq<Node>, q: Qual)
    requires |args| == 2 && q.operator == "=" && q.value.Some? && q.value.value.List? && |q.value.value.values| == 2
    requires forall i :: 0 <= i < 2 ==>
      && args[i].OpExpr?
      && ComparisonBecomes(t, args[i].opno, args[i].args, Qual(q.field, "=", q.value.value.values[i]))
    ensures Becomes(t, BoolExpr(Or, args), q)
  {
    hide ComparisonBecomes;
    forall i | 0 <= i < 2 ensures Becomes(t, args[i], Qual(q.field, "=", q.value.value.values[i])) {}
  }

  lemma EqualsOne(t: Translation, x: Scalar)
    requires t.w == EqualityWorld()
    ensures ComparisonBecomes(t, 1, [Var(1, 1), Const(Some(One(x)))], Qual("c", "=", Some(Single(x))))
  {
    var l, r := Var(1, 1), Const(Some(One(x)));
    assert Operand(t, r, Some(One(x))) && Sent(t.w, Some(One(x)), Some(Single(x)));
    assert Compares(t, l, 1, r, Qual("c", "=", Some(Single(x))));
    hide Compares;
    assert Bare(l, l) && Bare(r, r) && EitherCompares(t, l, 1, r, Qual("c", "=", Some(Single(x))));
  }
}
