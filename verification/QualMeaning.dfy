/** What the translation of restrictions into quals preserves: no row is lost, and nothing is gained
    when every clause was handled; and exactly where the translation goes wrong. */
module QualMeaning {
  import opened Wrappers
  import opened Sql
  import opened Canonical
  import opened Quals

  predicate IsBoolean(d: Datum) {
    d == None || d == Truth(true) || d == Truth(false)
  }

  /** The clauses the translation reads correctly, on the row of this evaluation: tested variables
      belong to the scanned table and are boolean where a boolean is called for, an operand is an array only
      under an array operator, IS NOT TRUE
      tests a boolean that is not NULL, an array operator's quantifier is the one the plugin reads
      into its name, and a one-argument boolean expression is NOT over a variable. */
  ghost predicate Faithful(w: World, e: Env, n: Node) {
    match n
    case Var(varno, _) => varno == w.scanRel && IsBoolean(Eval(w, e, n))
    case OpExpr(opno, args) =>
      var f := CanonicalForm(w, opno, args);
      f.Some? ==> var d := Eval(w, e, f.value.right); d.Some? ==> d.value.One?
    case ArrayOpExpr(opno, useOr, args) =>
      var f := CanonicalArrayForm(w, opno, args);
      f.Some? ==>
        && (var d := Eval(w, e, f.value.right); d.Some? ==> d.value.Many?)
        && useOr == w.listAny(w.operatorName(opno))
    case NullTest(arg, _) => arg.Var? ==> arg.varno == w.scanRel
    case BooleanTest(arg, test) =>
      arg.Var? ==>
        && arg.varno == w.scanRel && IsBoolean(Eval(w, e, arg))
        && (test == BoolTest.IsNotTrue ==> Eval(w, e, arg) != None)
    case BoolExpr(op, args) =>
      if |args| == 1 || (op == Not && args != [] && args[0].Var?)
      then |args| == 1 && op == Not && args[0].Var? && args[0].varno == w.scanRel && IsBoolean(Eval(w, e, args[0]))
      else op == Or ==> forall a :: a in args ==> Faithful(w, e, a)
    case _ => true
  }

  /** A row of the table passes a clause only if the clause is TRUE on it. */
  predicate Passes(w: World, e: Env, n: Node) {
    IsTrueDatum(Eval(w, e, n))
  }

  lemma TrueOfAny(ds: seq<Datum>)
    ensures IsTrueDatum(AnyOf(ds)) <==> exists i :: 0 <= i < |ds| && IsTrueDatum(ds[i])
  {
    if Truth(true) in ds { var i :| 0 <= i < |ds| && ds[i] == Truth(true); assert IsTrueDatum(ds[i]); }
  }

  lemma TrueOfAll(ds: seq<Datum>)
    ensures IsTrueDatum(AllOf(ds)) <==> forall i :: 0 <= i < |ds| ==> IsTrueDatum(ds[i])
  {
    if Truth(false) in ds { var i :| 0 <= i < |ds| && ds[i] == Truth(false); assert !IsTrueDatum(ds[i]); }
    if forall d :: d in ds ==> d == Truth(true) {
      forall i | 0 <= i < |ds| ensures IsTrueDatum(ds[i]) { assert ds[i] in ds; }
    }
  }

  /** One comparison: the plugin's reading of the encoded value agrees with Postgres's operator. */
  lemma ElementAgrees(w: World, opno: Oid, c: Option<Scalar>, x: Option<Scalar>)
    requires Lawful(w)
    ensures SatValue(w, w.operatorName(opno), c, EncodeElem(x))
         == IsTrueDatum(Operate(w, opno, [LiftElem(c), LiftElem(x)]))
  {
    OperatePair(w, opno, LiftElem(c), LiftElem(x));
  }

  /** A deduplicated list reads like the array it was made from. */
  lemma DedupReadsAlike(w: World, op: string, c: Option<Scalar>, elems: seq<Option<Scalar>>)
    ensures SatValue(w, op, c, Some(List(Dedup([], elems)))) ==
      if w.listAny(op) then exists i :: 0 <= i < |elems| && SatValue(w, op, c, EncodeElem(elems[i]))
      else forall i :: 0 <= i < |elems| ==> SatValue(w, op, c, EncodeElem(elems[i]))
  {
    var vs := Dedup([], elems);
    DedupMembers([], elems);
    forall i | 0 <= i < |elems| ensures EncodeElem(elems[i]) in vs { assert elems[i] in elems; }
    forall x | x in vs ensures exists i :: 0 <= i < |elems| && x == EncodeElem(elems[i]) {
      var e :| e in elems && x == EncodeElem(e);
      var i :| 0 <= i < |elems| && elems[i] == e;
    }
  }

  /** A whole array under the quantifier the plugin reads into the operator's name. */
  lemma ArrayAgrees(w: World, opno: Oid, useOr: bool, c: Option<Scalar>, elems: seq<Option<Scalar>>)
    requires Lawful(w) && useOr == w.listAny(w.operatorName(opno))
    ensures SatValue(w, w.operatorName(opno), c, Some(List(Dedup([], elems))))
         == IsTrueDatum(EvalArrayOp(w, opno, useOr, LiftElem(c), Some(Many(elems))))
  {
    var each := seq(|elems|, i requires 0 <= i < |elems| => Operate(w, opno, [LiftElem(c), LiftElem(elems[i])]));
    DedupReadsAlike(w, w.operatorName(opno), c, elems);
    TrueOfAny(each);
    TrueOfAll(each);
    forall i | 0 <= i < |elems|
      ensures SatValue(w, w.operatorName(opno), c, EncodeElem(elems[i])) == IsTrueDatum(each[i])
    {
      ElementAgrees(w, opno, c, elems[i]);
    }
  }

  lemma LiftedColumn(row: Row, name: string)
    ensures ColumnDatum(row, name) == LiftElem(Column(row, name))
  {
  }

  lemma OpExprExact(t: Translation, e: Env, opno: Oid, args: seq<Node>)
    requires Lawful(t.w) && SameScan(t.start, e)
    requires Faithful(t.w, e, OpExpr(opno, args))
    requires ToQual(t, OpExpr(opno, args)).Some?
    ensures Sat(t.w, ToQual(t, OpExpr(opno, args)).value, e.row) == Passes(t.w, e, OpExpr(opno, args))
  {
    var f := CanonicalForm(t.w, opno, args).value;
    var q := ToQual(t, OpExpr(opno, args)).value;
    CanonicalPreservesMeaning(t.w, e, opno, args);
    ScanConstant(t.w, f.right, t.start, e);
    EvalPair(t.w, e, f.column, f.right);
    var c := Column(e.row, q.field);
    LiftedColumn(e.row, q.field);
    var d := Eval(t.w, e, f.right);
    OperatePair(t.w, f.opno, LiftElem(c), d);
    if d.Some? {
      ElementAgrees(t.w, f.opno, c, Some(d.value.scalar));
    }
  }

  /** What a qual made of a canonical form holds. */
  lemma QualOfForm(t: Translation, f: Form, q: Qual)
    requires QualFromForm(t, Some(f)) == Some(q)
    ensures q.operator == t.w.operatorName(f.opno) && EncodeDatum(t.w, Eval(t.w, t.start, f.right)) == Some(q.value)
    ensures f.column.Var? && AttrName(t.w, f.column.attno) == Some(q.field)
    ensures !Volatile(f.right) && !Mentions(f.right, t.w.scanRel)
  {
  }

  /** A NULL array is no list, and a list is read as the operator's name says. */
  lemma ListMeans(w: World, opno: Oid, useOr: bool, row: Row, q: Qual, d: Datum)
    requires Lawful(w) && q.operator == w.operatorName(opno) && EncodeDatum(w, d) == Some(q.value)
    requires d.Some? ==> d.value.Many? && useOr == w.listAny(w.operatorName(opno))
    ensures Sat(w, q, row) == IsTrueDatum(EvalArrayOp(w, opno, useOr, LiftElem(Column(row, q.field)), d))
  {
    if d.Some? {
      ArrayAgrees(w, opno, useOr, Column(row, q.field), d.value.elems);
    }
  }

  lemma ArrayOpExprExact(t: Translation, e: Env, opno: Oid, useOr: bool, args: seq<Node>)
    requires Lawful(t.w) && SameScan(t.start, e)
    requires Faithful(t.w, e, ArrayOpExpr(opno, useOr, args))
    requires ToQual(t, ArrayOpExpr(opno, useOr, args)).Some?
    ensures Sat(t.w, ToQual(t, ArrayOpExpr(opno, useOr, args)).value, e.row)
         == Passes(t.w, e, ArrayOpExpr(opno, useOr, args))
  {
    var f := CanonicalArrayForm(t.w, opno, args).value;
    var q := ToQual(t, ArrayOpExpr(opno, useOr, args)).value;
    CanonicalArrayPreservesMeaning(t.w, e, opno, useOr, args);
    QualOfForm(t, f, q);
    ScanConstant(t.w, f.right, t.start, e);
    LiftedColumn(e.row, q.field);
    var d := Eval(t.w, e, f.right);
    assert f.opno == opno && (d.Some? ==> d.value.Many? && useOr == t.w.listAny(t.w.operatorName(opno)));
    hide Volatile, Mentions, CanonicalArrayForm, Lawful, Faithful, Sat, EvalArrayOp, EncodeDatum, ToQual, QualFromForm;
    ListMeans(t.w, opno, useOr, e.row, q, d);
  }

  /** Every clause that got a qual passes exactly the rows the qual passes, through nested ORs. */
  lemma {:induction false} QualExact(t: Translation, e: Env, n: Node)
    requires Lawful(t.w) && SameScan(t.start, e)
    requires Faithful(t.w, e, n)
    requires ToQual(t, n).Some?
    ensures Sat(t.w, ToQual(t, n).value, e.row) == Passes(t.w, e, n)
    decreases n
  {
    match n
    case OpExpr(opno, args) => OpExprExact(t, e, opno, args);
    case ArrayOpExpr(opno, useOr, args) => ArrayOpExprExact(t, e, opno, useOr, args);
    case BoolExpr(op, args) =>
      if |args| > 1 {
        var qs := ToQuals(t, args).value;
        var q := ToQual(t, n).value;
        forall i | 0 <= i < |args|
          ensures SatValue(t.w, "=", Column(e.row, q.field), qs[i].value) == Passes(t.w, e, args[i])
        {
          assert args[i] in args && qs[i] in qs;
          QualExact(t, e, args[i]);
        }
        OrMeansIn(t.w, e, qs, q, EvalAll(t.w, e, args));
      } else {
        BoolColumnQualMeans(t, e, args[0].attno, "<>");
        assert Eval(t.w, e, args[0]) == EvalVar(t.w, e, args[0].varno, args[0].attno);
      }
    case Var(_, attno) => BoolColumnQualMeans(t, e, attno, "=");
    case BooleanTest(arg, test) =>
      BoolColumnQualMeans(t, e, arg.attno, if test == BoolTest.IsTrue then "=" else "<>");
      assert Eval(t.w, e, arg) == EvalVar(t.w, e, arg.varno, arg.attno);
    case NullTest(arg, _) =>
      assert Eval(t.w, e, arg) == EvalVar(t.w, e, arg.varno, arg.attno);
      assert |IS_NULL| != |IS_NOT_NULL|;
    case _ =>
  }

  /** The IN list passes a row iff some member of the OR is TRUE on it. */
  lemma OrMeansIn(w: World, e: Env, qs: seq<Qual>, q: Qual, ds: seq<Datum>)
    requires Lawful(w)
    requires InList(Some(qs)) == Some(q) && |ds| == |qs|
    requires forall i :: 0 <= i < |qs| ==> SatValue(w, "=", Column(e.row, q.field), qs[i].value) == IsTrueDatum(ds[i])
    ensures Sat(w, q, e.row) == IsTrueDatum(AnyOf(ds))
  {
    TrueOfAny(ds);
    var c, vs := Column(e.row, q.field), q.value.value.values;
    if x :| x in vs && SatValue(w, "=", c, x) {
      var i :| 0 <= i < |vs| && vs[i] == x;
      assert IsTrueDatum(ds[i]);
    }
    if i :| 0 <= i < |ds| && IsTrueDatum(ds[i]) {
      assert vs[i] in vs;
    }
  }

  ghost predicate SatAll(w: World, qs: seq<Qual>, row: Row) {
    forall q :: q in qs ==> Sat(w, q, row)
  }

  ghost predicate PassesAll(w: World, e: Env, ns: seq<Node>) {
    forall n :: n in ns ==> Passes(w, e, n)
  }

  /** No row is lost: a row on which every clause is TRUE satisfies every qual. And the quals are
      exact when every clause was handled: then the rows satisfying them are the rows that pass. */
  lemma {:induction false} QualsLoseNothing(t: Translation, e: Env, ns: seq<Node>)
    requires Lawful(t.w) && SameScan(t.start, e)
    requires forall n :: n in ns ==> Faithful(t.w, e, n)
    ensures PassesAll(t.w, e, ns) ==> SatAll(t.w, QualsOf(t, ns), e.row)
    ensures Unhandled(t, ns) == 0 ==> (SatAll(t.w, QualsOf(t, ns), e.row) <==> PassesAll(t.w, e, ns))
    decreases |ns|
  {
    if ns != [] {
      QualsLoseNothing(t, e, ns[1..]);
      var first, rest := ToQual(t, ns[0]), QualsOf(t, ns[1..]);
      assert ns == [ns[0]] + ns[1..];
      assert PassesAll(t.w, e, ns) <==> Passes(t.w, e, ns[0]) && PassesAll(t.w, e, ns[1..]);
      if first.Some? {
        QualExact(t, e, ns[0]);
        assert QualsOf(t, ns) == [first.value] + rest;
        assert SatAll(t.w, [first.value] + rest, e.row) <==> Sat(t.w, first.value, e.row) && SatAll(t.w, rest, e.row);
      } else {
        assert QualsOf(t, ns) == rest;
      }
    }
  }

  // ---------- where the translation goes wrong, exactly ----------

  /** An operator over a whole array (jsonb ?| text[]) is sent as a list like an array comparison: the qual
      compares the column with each element in turn, and so is right on a row exactly when that comes to
      what the operator says of the array. */
  lemma ArrayOperandReadAsList(t: Translation, e: Env, opno: Oid, args: seq<Node>, elems: seq<Option<Scalar>>)
    requires Lawful(t.w) && SameScan(t.start, e)
    requires ToQual(t, OpExpr(opno, args)).Some?
    requires Eval(t.w, e, CanonicalForm(t.w, opno, args).value.right) == Some(Many(elems))
    ensures
      var f := CanonicalForm(t.w, opno, args).value;
      var q := ToQual(t, OpExpr(opno, args)).value;
      var c := LiftElem(Column(e.row, q.field));
      && Sat(t.w, q, e.row)
         == IsTrueDatum(EvalArrayOp(t.w, f.opno, t.w.listAny(t.w.operatorName(f.opno)), c, Some(Many(elems))))
      && Passes(t.w, e, OpExpr(opno, args)) == IsTrueDatum(Operate(t.w, f.opno, [c, Some(Many(elems))]))
  {
    var f := CanonicalForm(t.w, opno, args).value;
    var q := ToQual(t, OpExpr(opno, args)).value;
    CanonicalPreservesMeaning(t.w, e, opno, args);
    ScanConstant(t.w, f.right, t.start, e);
    EvalPair(t.w, e, f.column, f.right);
    LiftedColumn(e.row, q.field);
    ArrayAgrees(t.w, f.opno, t.w.listAny(t.w.operatorName(f.opno)), Column(e.row, q.field), elems);
  }

  /** The qual and the clause agree on every row the scan could meet. */
  ghost predicate RightOnEveryRow(t: Translation, n: Node) {
    ToQual(t, n).Some? ==>
      forall e :: SameScan(t.start, e) ==> Sat(t.w, ToQual(t, n).value, e.row) == Passes(t.w, e, n)
  }

  /** A row all of whose columns are boolean. */
  ghost predicate BooleanRow(row: Row) {
    forall name :: IsBoolean(ColumnDatum(row, name))
  }

  ghost predicate RightOnBooleanRows(t: Translation, n: Node) {
    ToQual(t, n).Some? ==>
      forall e :: SameScan(t.start, e) && BooleanRow(e.row) ==> Sat(t.w, ToQual(t, n).value, e.row) == Passes(t.w, e, n)
  }

  /** What "= true" and "<> true" ask of a boolean column: "<>" is FALSE or NULL told apart only from TRUE
      by asking for FALSE. */
  lemma BoolQualMeans(w: World, name: string, row: Row)
    requires Lawful(w) && IsBoolean(ColumnDatum(row, name))
    ensures Sat(w, Qual(name, "=", TRUE_VALUE), row) == (ColumnDatum(row, name) == Truth(true))
    ensures Sat(w, Qual(name, "<>", TRUE_VALUE), row) == (ColumnDatum(row, name) == Truth(false))
  {
    assert "=" != IS_NULL && "=" != IS_NOT_NULL && "<>" != IS_NULL && "<>" != IS_NOT_NULL by {
      assert |"="| == 1 && |"<>"| == 2 && |IS_NULL| == 7 && |IS_NOT_NULL| == 11;
    }
  }

  lemma BoolColumnQualMeans(t: Translation, e: Env, attno: int, op: string)
    requires Lawful(t.w) && op in {"=", "<>"}
    requires BoolColumnQual(t, attno, op).Some?
    requires IsBoolean(EvalVar(t.w, e, t.w.scanRel, attno))
    ensures Sat(t.w, BoolColumnQual(t, attno, op).value, e.row)
         == (EvalVar(t.w, e, t.w.scanRel, attno) == Truth(op == "="))
  {
    BoolQualMeans(t.w, ColumnFromVar(t.w, attno).value, e.row);
  }

  /** IS NOT TRUE and IS FALSE both become "<> true". On a boolean column the qual is right except
      for IS NOT TRUE on NULL, where the clause is TRUE and the qual loses the row. */
  lemma BooleanTestExactlyWhen(t: Translation, e: Env, attno: int, test: BoolTest)
    requires Lawful(t.w)
    requires ToQual(t, BooleanTest(Var(t.w.scanRel, attno), test)).Some?
    requires IsBoolean(EvalVar(t.w, e, t.w.scanRel, attno))
    ensures var n := BooleanTest(Var(t.w.scanRel, attno), test);
      var q := ToQual(t, n).value;
      && (Sat(t.w, q, e.row) == Passes(t.w, e, n)
          <==> !(test == BoolTest.IsNotTrue && EvalVar(t.w, e, t.w.scanRel, attno) == None))
      && (test == BoolTest.IsNotTrue && EvalVar(t.w, e, t.w.scanRel, attno) == None
          ==> Passes(t.w, e, n) && !Sat(t.w, q, e.row))
  {
    var op := if test == BoolTest.IsTrue then "=" else "<>";
    assert ToQual(t, BooleanTest(Var(t.w.scanRel, attno), test)) == BoolColumnQual(t, attno, op);
    assert Eval(t.w, e, Var(t.w.scanRel, attno)) == EvalVar(t.w, e, t.w.scanRel, attno);
    BoolColumnQualMeans(t, e, attno, op);
  }

  predicate OneDistinct(elems: seq<Option<Scalar>>) {
    |elems| > 0 && forall i :: 0 <= i < |elems| ==> elems[i] == elems[0]
  }

  /** useOr is dropped, so of the four array comparisons = ANY and <> ALL survive; = ALL and <> ANY
      are right on every row only for a list of one distinct element. */
  lemma ArrayOpExactlyWhen(t: Translation, attno: int, opno: Oid, negated: bool, useOr: bool,
                           elems: seq<Option<Scalar>>)
    requires Lawful(t.w) && IsEquality(t.w, opno, negated)
    requires ToQual(t, ArrayOpExpr(opno, useOr, [Var(t.w.scanRel, attno), Const(Some(Many(elems)))])).Some?
    ensures RightOnEveryRow(t, ArrayOpExpr(opno, useOr, [Var(t.w.scanRel, attno), Const(Some(Many(elems)))]))
       <==> useOr == !negated || OneDistinct(elems)
  {
    var n := ArrayOpExpr(opno, useOr, [Var(t.w.scanRel, attno), Const(Some(Many(elems)))]);
    var name := AttrName(t.w, attno).value;
    assert CanonicalArrayForm(t.w, opno, n.args) == Some(Form(n.args[0], opno, n.args[1]));
    assert ToQual(t, n).value == Qual(name, t.w.operatorName(opno), Some(List(Dedup([], elems))));
    forall e: Env ensures Sat(t.w, ToQual(t, n).value, e.row)
                  == IsTrueDatum(EvalArrayOp(t.w, opno, !negated, LiftElem(Column(e.row, name)), Some(Many(elems))))
      ensures Eval(t.w, e, n) == EvalArrayOp(t.w, opno, useOr, LiftElem(Column(e.row, name)), Some(Many(elems)))
    {
      ArrayAgrees(t.w, opno, !negated, Column(e.row, name), elems);
    }
    if useOr == negated {
      if OneDistinct(elems) {
        forall d { QuantifiersAgreeOnOne(t.w, opno, d, elems); }
      } else {
        var c := QuantifiersDiffer(t.w, opno, negated, elems);
        var e := t.start.(row := map[name := Some(c)]);
        assert LiftElem(Column(e.row, name)) == Some(One(c));
        assert SameScan(t.start, e) && Sat(t.w, ToQual(t, n).value, e.row) != Passes(t.w, e, n);
      }
    }
  }

  /** An array comparison with the column of the world of equality. */
  function ArrayComparison(negated: bool, elems: seq<Option<Scalar>>): Node {
    ArrayOpExpr(if negated then 2 else 1, negated, [Var(1, 1), Const(Some(Many(elems)))])
  }

  lemma ArrayComparisonHasQual(t: Translation, negated: bool, elems: seq<Option<Scalar>>)
    requires t.w == EqualityWorld()
    ensures ToQual(t, ArrayComparison(negated, elems)).Some?
  {
    hide Dedup;
    assert AttrName(t.w, 1) == Some("c");
    assert forall e :: e in elems ==> Encodable(t.w, e);
  }

  /** So c = ALL ('x', 'y') and c <> ANY ('x', 'y') are sent as what they are not. */
  lemma AllAndAnyConfused(start: Env, misread: Node -> int, x: Scalar, y: Scalar, negated: bool)
    requires x != y
    ensures
      var t := Translation(EqualityWorld(), start, misread);
      var n := ArrayComparison(negated, [Some(x), Some(y)]);
      ToQual(t, n).Some? && !RightOnEveryRow(t, n)
  {
    var t := Translation(EqualityWorld(), start, misread);
    var elems := [Some(x), Some(y)];
    EqualityWorldIsLawful();
    ArrayComparisonHasQual(t, negated, elems);
    hide ToQual, Lawful, RightOnEveryRow;
    assert elems[1] != elems[0];
    ArrayOpExactlyWhen(t, 1, if negated then 2 else 1, negated, negated, elems);
  }

  /** And an operator that is TRUE of a value and an array unequal to it, over the array of one x, is sent as a
      comparison with x: the row whose c is x passes the clause and is lost. */
  lemma ArrayOperandGoesWrong(start: Env, misread: Node -> int, x: Scalar)
    ensures
      var t := Translation(EqualityWorld(), start, misread);
      var n := OpExpr(2, [Var(1, 1), Const(Some(Many([Some(x)])))]);
      var e := start.(row := map["c" := Some(x)]);
      ToQual(t, n).Some? && Passes(t.w, e, n) && !Sat(t.w, ToQual(t, n).value, e.row)
  {
    var t := Translation(EqualityWorld(), start, misread);
    var elems := [Some(x)];
    var n := OpExpr(2, [Var(1, 1), Const(Some(Many(elems)))]);
    var e := start.(row := map["c" := Some(x)]);
    EqualityWorldIsLawful();
    ArrayOperandTranslated(t, elems);
    hide ToQual, Lawful, CanonicalForm, EqualOrNot, Sat;
    ArrayOperandReadAsList(t, e, 2, n.args, elems);
    OnePastArray(t.w, x);
  }

  lemma ArrayOperandTranslated(t: Translation, elems: seq<Option<Scalar>>)
    requires t.w == EqualityWorld()
    ensures var n := OpExpr(2, [Var(1, 1), Const(Some(Many(elems)))]);
      && CanonicalForm(t.w, 2, n.args) == Some(Form(Var(1, 1), 2, Const(Some(Many(elems)))))
      && ToQual(t, n) == Some(Qual("c", "<>", Some(List(Dedup([], elems)))))
  {
    hide Dedup;
    assert AttrName(t.w, 1) == Some("c");
    assert forall e :: e in elems ==> Encodable(t.w, e);
  }

  lemma OnePastArray(w: World, x: Scalar)
    requires w == EqualityWorld()
    ensures IsTrueDatum(Operate(w, 2, [Some(One(x)), Some(Many([Some(x)]))]))
    ensures !IsTrueDatum(EvalArrayOp(w, 2, false, Some(One(x)), Some(Many([Some(x)]))))
  {
    OperatePair(w, 2, Some(One(x)), Some(Many([Some(x)])));
    OperatePair(w, 2, Some(One(x)), LiftElem(Some(x)));
    var elems := [Some(x)];
    var each := seq(|elems|, i requires 0 <= i < |elems| => Operate(w, 2, [Some(One(x)), LiftElem(elems[i])]));
    TrueOfAll(each);
    EqualOnPair(2, x, x);
    assert !IsTrueDatum(each[0]);
  }

  lemma QuantifiersAgreeOnOne(w: World, opno: Oid, d: Datum, elems: seq<Option<Scalar>>)
    requires OneDistinct(elems)
    ensures IsTrueDatum(EvalArrayOp(w, opno, true, d, Some(Many(elems))))
         == IsTrueDatum(EvalArrayOp(w, opno, false, d, Some(Many(elems))))
  {
    var each := seq(|elems|, i requires 0 <= i < |elems| => Operate(w, opno, [d, LiftElem(elems[i])]));
    var first := Operate(w, opno, [d, LiftElem(elems[0])]);
    TrueOfAny(each);
    TrueOfAll(each);
    assert each[0] == first;
    forall i | 0 <= i < |elems| ensures each[i] == first { assert elems[i] == elems[0]; }
    assert IsTrueDatum(AnyOf(each)) == IsTrueDatum(first) == IsTrueDatum(AllOf(each));
  }

  /** Otherwise some column value passes one element and fails another. */
  lemma SomeValueSeparates(w: World, opno: Oid, negated: bool, elems: seq<Option<Scalar>>)
    returns (c: Scalar, i: nat, j: nat)
    requires IsEquality(w, opno, negated) && !OneDistinct(elems) && elems != []
    ensures i < |elems| && j < |elems|
    ensures IsTrueDatum(Operate(w, opno, [Some(One(c)), LiftElem(elems[i])]))
    ensures !IsTrueDatum(Operate(w, opno, [Some(One(c)), LiftElem(elems[j])]))
  {
    var k :| 0 <= k < |elems| && elems[k] != elems[0];
    var v, u := if elems[0].Some? then 0 else k, if elems[0].Some? then k else 0;
    // elems[v] is a value, and elems[u] is NULL or another value
    if !negated {
      c, i, j := elems[v].value, v, u;
    } else if elems[u].Some? {
      c, i, j := elems[v].value, u, v;
    } else {
      c, i, j := (if elems[v].value == BoolS(true) then BoolS(false) else BoolS(true)), v, u;
    }
    EqualityOnElement(w, opno, negated, c, elems[i]);
    EqualityOnElement(w, opno, negated, c, elems[j]);
  }

  lemma EqualityOnElement(w: World, opno: Oid, negated: bool, c: Scalar, x: Option<Scalar>)
    requires IsEquality(w, opno, negated)
    ensures IsTrueDatum(Operate(w, opno, [Some(One(c)), LiftElem(x)])) == (x.Some? && (x.value == c) != negated)
  {
    OperatePair(w, opno, Some(One(c)), LiftElem(x));
  }

  lemma QuantifiersDiffer(w: World, opno: Oid, negated: bool, elems: seq<Option<Scalar>>) returns (c: Scalar)
    requires IsEquality(w, opno, negated) && !OneDistinct(elems)
    ensures IsTrueDatum(EvalArrayOp(w, opno, true, Some(One(c)), Some(Many(elems))))
         != IsTrueDatum(EvalArrayOp(w, opno, false, Some(One(c)), Some(Many(elems))))
  {
    var i, j := 0, 0;
    c := BoolS(true);
    if elems != [] {
      c, i, j := SomeValueSeparates(w, opno, negated, elems);
    }
    var each := seq(|elems|, k requires 0 <= k < |elems| => Operate(w, opno, [Some(One(c)), LiftElem(elems[k])]));
    TrueOfAny(each);
    TrueOfAll(each);
    if elems != [] {
      assert IsTrueDatum(each[i]) && !IsTrueDatum(each[j]);
    }
  }

  /** Any one-argument boolean expression is read as a variable. With two live columns, the qual is
      right for every way such a misreading can come out exactly when the expression is NOT over a
      variable of the scanned table. */
  lemma OneArgumentExactlyWhen(w: World, start: Env, op: BoolOp, arg: Node, a1: int, a2: int)
    requires Lawful(w)
    requires ColumnFromVar(w, a1).Some? && ColumnFromVar(w, a2).Some? && ColumnFromVar(w, a1) != ColumnFromVar(w, a2)
    requires arg.Var? ==> arg.varno == w.scanRel && ColumnFromVar(w, arg.attno).Some?
    ensures (forall m: Node -> int :: RightOnBooleanRows(Translation(w, start, m), BoolExpr(op, [arg])))
       <==> op == Not && arg.Var?
  {
    if !arg.Var? {
      MisreadingGoesWrong(w, start, op, arg, a1, a2);
    } else if op == Not {
      forall m: Node -> int ensures RightOnBooleanRows(Translation(w, start, m), BoolExpr(op, [arg])) {
        var t := Translation(w, start, m);
        assert ToQual(t, BoolExpr(op, [arg])) == BoolColumnQual(t, arg.attno, "<>");
        forall e: Env | BooleanRow(e.row)
          ensures Sat(w, BoolColumnQual(t, arg.attno, "<>").value, e.row) == Passes(w, e, BoolExpr(op, [arg]))
        {
          BoolColumnQualMeans(t, e, arg.attno, "<>");
          assert Eval(w, e, arg) == EvalVar(w, e, arg.varno, arg.attno);
        }
      }
    } else {
      var name := ColumnFromVar(w, arg.attno).value;
      var e := start.(row := map[name := Some(BoolS(true))]);
      var t := Translation(w, start, _ => 0);
      BoolQualMeans(w, name, e.row);
      assert EvalAll(w, e, [arg]) == [Truth(true)];
      TrueOfAll([Truth(true)]);
      TrueOfAny([Truth(true)]);
      assert [Truth(true)][0] == Truth(true);
      assert Passes(w, e, BoolExpr(op, [arg])) && !Sat(w, ToQual(t, BoolExpr(op, [arg])).value, e.row);
      assert SameScan(start, e) && !RightOnBooleanRows(t, BoolExpr(op, [arg]));
    }
  }

  /** Read as either of two columns, an expression cannot agree with both. */
  lemma MisreadingGoesWrong(w: World, start: Env, op: BoolOp, arg: Node, a1: int, a2: int)
    requires Lawful(w) && !arg.Var?
    requires ColumnFromVar(w, a1).Some? && ColumnFromVar(w, a2).Some? && ColumnFromVar(w, a1) != ColumnFromVar(w, a2)
    ensures exists m: Node -> int :: !RightOnBooleanRows(Translation(w, start, m), BoolExpr(op, [arg]))
  {
    var n := BoolExpr(op, [arg]);
    var n1, n2 := ColumnFromVar(w, a1).value, ColumnFromVar(w, a2).value;
    var e := start.(row := map[n1 := Some(BoolS(true)), n2 := Some(BoolS(false))]);
    var t1, t2 := Translation(w, start, _ => a1), Translation(w, start, _ => a2);
    BoolQualMeans(w, n1, e.row);
    BoolQualMeans(w, n2, e.row);
    assert ToQual(t1, n) == Some(Qual(n1, "<>", TRUE_VALUE)) && ToQual(t2, n) == Some(Qual(n2, "<>", TRUE_VALUE));
    assert SameScan(start, e);
    assert !RightOnBooleanRows(t1, n) || !RightOnBooleanRows(t2, n);
  }
}
