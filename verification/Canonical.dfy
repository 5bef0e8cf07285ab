/** fdw/query.c: bringing a binary operator expression into the form column-operator-value. */
module Canonical {
  import opened Wrappers
  import opened Sql

  /** unnestClause: strips one relabelling or array coercion. */
  function Unnest(n: Node): Node {
    match n
    case RelabelType(arg, _) => arg
    case ArrayCoerce(arg) => arg
    case _ => n
  }

  predicate IsScanColumn(n: Node, rel: nat) {
    n.Var? && n.varno == rel && n.attno >= 1
  }

  /** When swapOperandsAsNeeded wants the operands the other way round. */
  predicate WantsSwap(l: Node, r: Node, rel: nat) {
    r.Var? && (!l.Var? || (l.varno != rel && r.varno == rel))
  }

  /** swapOperandsAsNeeded: rewrites the two operands and the operator through its arguments. */
  method SwapOperandsAsNeeded(w: World, left: Node, right: Node, opno: Oid) returns (l: Node, r: Node, op: Oid)
    ensures (l, r, op) ==
      if WantsSwap(left, right, w.scanRel) && w.commutator(opno) != 0
      then (right, left, w.commutator(opno)) else (left, right, opno)
    ensures Lawful(w) ==> forall e :: Eval(w, e, OpExpr(op, [l, r])) == Eval(w, e, OpExpr(opno, [left, right]))
  {
    l, r, op := left, right, opno;
    if r.Var? {
      if !l.Var? || (l.varno != w.scanRel && r.varno == w.scanRel) {
        if w.commutator(op) != 0 {
          l, r, op := r, l, w.commutator(op);
          forall e | Lawful(w) ensures Eval(w, e, OpExpr(op, [l, r])) == Eval(w, e, OpExpr(opno, [left, right])) {
            CommutatorSwaps(w, e, opno, left, right);
          }
        }
      }
    }
  }

  /** A canonical form: the column on the left, the operator, the other operand. */
  datatype Form = Form(column: Node, opno: Oid, right: Node)

  function Rebuilt(f: Form): Node {
    OpExpr(f.opno, [f.column, f.right])
  }

  function CanonicalForm(w: World, opno: Oid, args: seq<Node>): Option<Form> {
    if |args| != 2 then None
    else
      var l, r := Unnest(args[0]), Unnest(args[1]);
      var (l', r', op) := if WantsSwap(l, r, w.scanRel) && w.commutator(opno) != 0
                          then (r, l, w.commutator(opno)) else (l, r, opno);
      if IsScanColumn(l', w.scanRel) then Some(Form(l', op, r')) else None
  }

  /** canonicalOpExpr. */
  method CanonicalOpExpr(w: World, opno: Oid, args: seq<Node>) returns (res: Option<Form>)
    ensures res == CanonicalForm(w, opno, args)
  {
    res := None;
    if |args| == 2 {
      var l, r, op := SwapOperandsAsNeeded(w, Unnest(args[0]), Unnest(args[1]), opno);
      if l.Var? && l.varno == w.scanRel && l.attno >= 1 {
        res := Some(Form(l, op, r));
      }
    }
  }

  /** canonicalScalarArrayOpExpr: no swapping, the array stays on the right. */
  function CanonicalArrayForm(w: World, opno: Oid, args: seq<Node>): Option<Form> {
    if |args| == 2 && IsScanColumn(Unnest(args[0]), w.scanRel)
    then Some(Form(Unnest(args[0]), opno, Unnest(args[1])))
    else None
  }

  lemma UnnestKeepsValue(w: World, e: Env, n: Node)
    ensures Eval(w, e, Unnest(n)) == Eval(w, e, n)
  {
  }

  lemma EvalPair(w: World, e: Env, l: Node, r: Node)
    ensures EvalAll(w, e, [l, r]) == [Eval(w, e, l), Eval(w, e, r)]
  {
  }

  lemma OperatePair(w: World, o: Oid, a: Datum, b: Datum)
    ensures a == None || b == None ==> Operate(w, o, [a, b]) == None
    ensures a.Some? && b.Some? ==> Operate(w, o, [a, b]) == w.operate(o, [a.value, b.value])
  {
    var ds := [a, b];
    if a == None { assert None == ds[0] && None in ds; }
    if b == None { assert None == ds[1] && None in ds; }
    if a.Some? && b.Some? {
      assert None !in ds;
      var vs := seq(|ds|, i requires 0 <= i < |ds| => match ds[i] case Some(v) => v case None => Many([]));
      assert vs == [a.value, b.value];
    }
  }

  lemma CommutatorSwaps(w: World, e: Env, opno: Oid, l: Node, r: Node)
    requires Lawful(w) && w.commutator(opno) != 0
    ensures Eval(w, e, OpExpr(w.commutator(opno), [r, l])) == Eval(w, e, OpExpr(opno, [l, r]))
  {
    var a, b := Eval(w, e, l), Eval(w, e, r);
    EvalPair(w, e, l, r);
    EvalPair(w, e, r, l);
    OperatePair(w, opno, a, b);
    OperatePair(w, w.commutator(opno), b, a);
  }

  lemma CanonicalPreservesMeaning(w: World, e: Env, opno: Oid, args: seq<Node>)
    requires Lawful(w)
    requires CanonicalForm(w, opno, args).Some?
    ensures Eval(w, e, Rebuilt(CanonicalForm(w, opno, args).value)) == Eval(w, e, OpExpr(opno, args))
  {
    var l, r := Unnest(args[0]), Unnest(args[1]);
    UnnestKeepsValue(w, e, args[0]);
    UnnestKeepsValue(w, e, args[1]);
    assert args == [args[0], args[1]];
    EvalPair(w, e, args[0], args[1]);
    EvalPair(w, e, l, r);
    assert Eval(w, e, OpExpr(opno, [l, r])) == Eval(w, e, OpExpr(opno, args));
    if w.commutator(opno) != 0 {
      CommutatorSwaps(w, e, opno, l, r);
    }
  }

  /** An expression has a canonical form exactly when it compares a column of the scanned table that
      stands on the left, or on the right of a commuting operator whose left side is no variable of
      that table. The form then has the column on its left and means what the expression meant, on
      every row. */
  lemma CanonicalOpExprCorrect(w: World, opno: Oid, args: seq<Node>)
    requires Lawful(w)
    ensures CanonicalForm(w, opno, args).Some? <==>
      && |args| == 2
      && var l, r := Unnest(args[0]), Unnest(args[1]);
        || IsScanColumn(l, w.scanRel)
        || (IsScanColumn(r, w.scanRel) && w.commutator(opno) != 0 && !(l.Var? && l.varno == w.scanRel))
    ensures CanonicalForm(w, opno, args).Some? ==>
      var f := CanonicalForm(w, opno, args).value;
      && IsScanColumn(f.column, w.scanRel)
      && forall e :: Eval(w, e, Rebuilt(f)) == Eval(w, e, OpExpr(opno, args))
  {
    if CanonicalForm(w, opno, args).Some? {
      forall e ensures Eval(w, e, Rebuilt(CanonicalForm(w, opno, args).value)) == Eval(w, e, OpExpr(opno, args)) {
        CanonicalPreservesMeaning(w, e, opno, args);
      }
    }
  }

  lemma CanonicalArrayPreservesMeaning(w: World, e: Env, opno: Oid, useOr: bool, args: seq<Node>)
    requires CanonicalArrayForm(w, opno, args).Some?
    ensures var f := CanonicalArrayForm(w, opno, args).value;
      && IsScanColumn(f.column, w.scanRel)
      && Eval(w, e, ArrayOpExpr(f.opno, useOr, [f.column, f.right])) == Eval(w, e, ArrayOpExpr(opno, useOr, args))
  {
    UnnestKeepsValue(w, e, args[0]);
    UnnestKeepsValue(w, e, args[1]);
  }
}
