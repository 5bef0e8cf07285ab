/** Restriction clauses as Postgres hands them to a foreign scan, and what they mean on a row
    under SQL's three-valued logic. */
module Sql {
  import opened Wrappers

  type Oid = nat

  // the names the plugin SDK gives the null tests
  const IS_NULL := "is null"
  const IS_NOT_NULL := "is not null"

  /** A value a plugin column can hold. Blob stands for the types compared only through operators
      (inet, timestamps, jsonb, doubles). */
  datatype Scalar = BoolS(b: bool) | IntS(i: int) | TextS(s: string) | BlobS(kind: nat, repr: string)

  datatype Value = One(scalar: Scalar) | Many(elems: seq<Option<Scalar>>)

  /** A possibly NULL value. */
  type Datum = Option<Value>

  /** The row of the scanned table: a column that is absent is NULL. */
  type Row = map<string, Option<Scalar>>

  datatype BoolTest = IsTrue | IsNotTrue | IsFalse | IsNotFalse | IsUnknown | IsNotUnknown

  datatype BoolOp = And | Or | Not

  datatype Node =
    | Var(varno: nat, attno: int)
    | Const(datum: Datum)
    | Param(id: nat)
    | OpExpr(opno: Oid, args: seq<Node>)
    | ArrayOpExpr(opno: Oid, useOr: bool, args: seq<Node>)
    | NullTest(arg: Node, testsNull: bool)
    | BooleanTest(arg: Node, test: BoolTest)
    | BoolExpr(boolop: BoolOp, args: seq<Node>)
    | RelabelType(arg: Node, collation: Oid)
    | ArrayCoerce(arg: Node)
    | FuncExpr(funcid: Oid, isVolatile: bool, args: seq<Node>)

  /** Everything a scan takes from the catalogue, from Postgres's evaluator and from the plugin. */
  datatype World = World(
    scanRel: nat,
    // attribute name by position; None for a dropped attribute
    attrs: seq<Option<string>>,
    operatorName: Oid -> string,
    operatorFunc: Oid -> Oid,
    // 0 when the operator has no commutator
    commutator: Oid -> Oid,
    operate: (Oid, seq<Value>) -> Datum,
    call: (Oid, seq<Datum>) -> Datum,
    callVolatile: (Oid, seq<Datum>, int) -> Datum,
    // whole-row and system columns
    special: (Row, int) -> Datum,
    // whether a value has a type the qual encoding knows
    encodable: Scalar -> bool,
    // what the plugin takes an operator name to say about a column value and a qual value
    holds: (string, Scalar, Scalar) -> bool,
    // whether the plugin reads a list under that operator name as "any of" (true) or "all of"
    listAny: string -> bool)

  /** One evaluation: the row of the scanned table, the other relations, the parameters, and the
      instant a volatile function sees. */
  datatype Env = Env(row: Row, outer: (nat, int) -> Datum, param: nat -> Datum, tick: int)

  function Column(row: Row, name: string): Option<Scalar> {
    if name in row then row[name] else None
  }

  function ColumnDatum(row: Row, name: string): Datum {
    match Column(row, name)
    case None => None
    case Some(s) => Some(One(s))
  }

  /** The name of a live attribute. */
  function AttrName(w: World, attno: int): Option<string> {
    if 1 <= attno <= |w.attrs| then w.attrs[attno - 1] else None
  }

  function Truth(b: bool): Datum {
    Some(One(BoolS(b)))
  }

  predicate IsTrueDatum(d: Datum) {
    d == Truth(true)
  }

  function Negate(d: Datum): Datum {
    if d == Truth(true) then Truth(false) else if d == Truth(false) then Truth(true) else None
  }

  /** Three-valued OR over a list: TRUE wins, then NULL. */
  function AnyOf(ds: seq<Datum>): Datum {
    if Truth(true) in ds then Truth(true)
    else if forall d :: d in ds ==> d == Truth(false) then Truth(false)
    else None
  }

  /** Three-valued AND over a list: FALSE wins, then NULL. */
  function AllOf(ds: seq<Datum>): Datum {
    if Truth(false) in ds then Truth(false)
    else if forall d :: d in ds ==> d == Truth(true) then Truth(true)
    else None
  }

  function LiftElem(e: Option<Scalar>): Datum {
    match e
    case None => None
    case Some(s) => Some(One(s))
  }

  /** A strict operator: NULL if an operand is NULL. */
  function Operate(w: World, opno: Oid, ds: seq<Datum>): Datum {
    if None in ds then None
    else w.operate(opno, seq(|ds|, i requires 0 <= i < |ds| =>
      match ds[i] case Some(v) => v case None => Many([])))
  }

  function EvalArrayOp(w: World, opno: Oid, useOr: bool, left: Datum, right: Datum): Datum {
    match right
    case Some(Many(elems)) =>
      var each := seq(|elems|, i requires 0 <= i < |elems| => Operate(w, opno, [left, LiftElem(elems[i])]));
      if useOr then AnyOf(each) else AllOf(each)
    case _ => None
  }

  function EvalBoolTest(t: BoolTest, d: Datum): bool {
    match t
    case IsTrue => d == Truth(true)
    case IsNotTrue => d != Truth(true)
    case IsFalse => d == Truth(false)
    case IsNotFalse => d != Truth(false)
    case IsUnknown => d == None
    case IsNotUnknown => d != None
  }

  function EvalVar(w: World, e: Env, varno: nat, attno: int): Datum {
    if varno != w.scanRel then e.outer(varno, attno)
    else match AttrName(w, attno)
      case Some(name) => ColumnDatum(e.row, name)
      case None => w.special(e.row, attno)
  }

  /** The value Postgres computes for an expression. RelabelType and ArrayCoerceExpr are identities. */
  function Eval(w: World, e: Env, n: Node): Datum
    decreases n, 1
  {
    match n
    case Var(varno, attno) => EvalVar(w, e, varno, attno)
    case Const(d) => d
    case Param(id) => e.param(id)
    case OpExpr(opno, args) => Operate(w, opno, EvalAll(w, e, args))
    case ArrayOpExpr(opno, useOr, args) =>
      if |args| == 2 then EvalArrayOp(w, opno, useOr, Eval(w, e, args[0]), Eval(w, e, args[1])) else None
    case NullTest(arg, testsNull) => Truth((Eval(w, e, arg) == None) == testsNull)
    case BooleanTest(arg, test) => Truth(EvalBoolTest(test, Eval(w, e, arg)))
    case BoolExpr(op, args) =>
      (match op
       case And => AllOf(EvalAll(w, e, args))
       case Or => AnyOf(EvalAll(w, e, args))
       case Not => if |args| == 1 then Negate(Eval(w, e, args[0])) else None)
    case RelabelType(arg, _) => Eval(w, e, arg)
    case ArrayCoerce(arg) => Eval(w, e, arg)
    case FuncExpr(f, isVolatile, args) =>
      if isVolatile then w.callVolatile(f, EvalAll(w, e, args), e.tick) else w.call(f, EvalAll(w, e, args))
  }

  function EvalAll(w: World, e: Env, ns: seq<Node>): (ds: seq<Datum>)
    ensures |ds| == |ns|
    ensures forall i :: 0 <= i < |ns| ==> ds[i] == Eval(w, e, ns[i])
    decreases ns, 0
  {
    if ns == [] then [] else [Eval(w, e, ns[0])] + EvalAll(w, e, ns[1..])
  }

  /** contain_volatile_functions. */
  predicate Volatile(n: Node) {
    match n
    case Var(_, _) => false
    case Const(_) => false
    case Param(_) => false
    case OpExpr(_, args) => exists a :: a in args && Volatile(a)
    case ArrayOpExpr(_, _, args) => exists a :: a in args && Volatile(a)
    case NullTest(arg, _) => Volatile(arg)
    case BooleanTest(arg, _) => Volatile(arg)
    case BoolExpr(_, args) => exists a :: a in args && Volatile(a)
    case RelabelType(arg, _) => Volatile(arg)
    case ArrayCoerce(arg) => Volatile(arg)
    case FuncExpr(_, v, args) => v || exists a :: a in args && Volatile(a)
  }

  /** Whether pull_varnos finds the relation in an expression. */
  predicate Mentions(n: Node, rel: nat) {
    match n
    case Var(varno, _) => varno == rel
    case Const(_) => false
    case Param(_) => false
    case OpExpr(_, args) => exists a :: a in args && Mentions(a, rel)
    case ArrayOpExpr(_, _, args) => exists a :: a in args && Mentions(a, rel)
    case NullTest(arg, _) => Mentions(arg, rel)
    case BooleanTest(arg, _) => Mentions(arg, rel)
    case BoolExpr(_, args) => exists a :: a in args && Mentions(a, rel)
    case RelabelType(arg, _) => Mentions(arg, rel)
    case ArrayCoerce(arg) => Mentions(arg, rel)
    case FuncExpr(_, _, args) => exists a :: a in args && Mentions(a, rel)
  }

  /** The scan is parameterised alike in both evaluations; row and instant may differ. */
  ghost predicate SameScan(e: Env, f: Env) {
    e.outer == f.outer && e.param == f.param
  }

  /** An operand that is neither volatile nor about the scanned table has one value for the whole
      scan, so evaluating it once when the scan begins is right for every row rechecked later. */
  lemma {:induction false} ScanConstant(w: World, n: Node, e: Env, f: Env)
    requires !Volatile(n) && !Mentions(n, w.scanRel) && SameScan(e, f)
    ensures Eval(w, e, n) == Eval(w, f, n)
    decreases n, 1
  {
    match n
    case Var(_, _) =>
    case Const(_) =>
    case Param(_) =>
    case OpExpr(_, args) => ScanConstants(w, args, e, f);
    case ArrayOpExpr(_, _, args) => ScanConstants(w, args, e, f);
    case NullTest(arg, _) => ScanConstant(w, arg, e, f);
    case BooleanTest(arg, _) => ScanConstant(w, arg, e, f);
    case BoolExpr(_, args) => ScanConstants(w, args, e, f);
    case RelabelType(arg, _) => ScanConstant(w, arg, e, f);
    case ArrayCoerce(arg) => ScanConstant(w, arg, e, f);
    case FuncExpr(_, _, args) => ScanConstants(w, args, e, f);
  }

  lemma {:induction false} ScanConstants(w: World, ns: seq<Node>, e: Env, f: Env)
    requires forall n :: n in ns ==> !Volatile(n) && !Mentions(n, w.scanRel)
    requires SameScan(e, f)
    ensures EvalAll(w, e, ns) == EvalAll(w, f, ns)
    ensures forall i :: 0 <= i < |ns| ==> Eval(w, e, ns[i]) == Eval(w, f, ns[i])
    decreases ns, 0
  {
    forall i | 0 <= i < |ns| ensures Eval(w, e, ns[i]) == Eval(w, f, ns[i]) {
      ScanConstant(w, ns[i], e, f);
    }
  }

  /** The operands of a node. */
  function Parts(n: Node): (r: seq<Node>)
    ensures forall p :: p in r ==> p < n
  {
    match n
    case Var(_, _) => []
    case Const(_) => []
    case Param(_) => []
    case OpExpr(_, args) => args
    case ArrayOpExpr(_, _, args) => args
    case NullTest(arg, _) => [arg]
    case BooleanTest(arg, _) => [arg]
    case BoolExpr(_, args) => args
    case RelabelType(arg, _) => [arg]
    case ArrayCoerce(arg) => [arg]
    case FuncExpr(_, _, args) => args
  }

  /** m is n, or found in it at some depth. */
  ghost predicate Within(m: Node, n: Node)
    decreases n
  {
    m == n || exists p :: p in Parts(n) && Within(m, p)
  }

  /** An expression is volatile exactly if a volatile function is called somewhere in it. */
  lemma {:induction false} VolatileExactly(n: Node)
    ensures Volatile(n) <==> exists m :: Within(m, n) && m.FuncExpr? && m.isVolatile
    decreases n
  {
    assert Volatile(n) <==> (n.FuncExpr? && n.isVolatile) || exists p :: p in Parts(n) && Volatile(p);
    hide Volatile, Parts;
    forall p | p in Parts(n) ensures Volatile(p) <==> exists m :: Within(m, p) && m.FuncExpr? && m.isVolatile {
      VolatileExactly(p);
    }
    if n.FuncExpr? && n.isVolatile { assert Within(n, n); }
  }

  /** And it is about a relation exactly if a variable of it stands somewhere in it. */
  lemma {:induction false} MentionsExactly(n: Node, rel: nat)
    ensures Mentions(n, rel) <==> exists m :: Within(m, n) && m.Var? && m.varno == rel
    decreases n
  {
    assert Mentions(n, rel) <==> (n.Var? && n.varno == rel) || exists p :: p in Parts(n) && Mentions(p, rel);
    hide Mentions, Parts;
    forall p | p in Parts(n) ensures Mentions(p, rel) <==> exists m :: Within(m, p) && m.Var? && m.varno == rel {
      MentionsExactly(p, rel);
    }
    if n.Var? && n.varno == rel { assert Within(n, n); }
  }

  /** NOT of an OR is the AND of the NOTs, also where some are NULL. */
  lemma DeMorgan(ds: seq<Datum>)
    ensures Negate(AnyOf(ds)) == AllOf(seq(|ds|, i requires 0 <= i < |ds| => Negate(ds[i])))
  {
    var ns := seq(|ds|, i requires 0 <= i < |ds| => Negate(ds[i]));
    if Truth(true) in ds {
      var i :| 0 <= i < |ds| && ds[i] == Truth(true);
      assert ns[i] == Truth(false);
    } else if d :| d in ds && d != Truth(false) {
      var i :| 0 <= i < |ds| && ds[i] == d;
      assert ns[i] in ns && ns[i] == None;
      forall n | n in ns ensures n != Truth(false) {
        var j :| 0 <= j < |ns| && ns[j] == n;
        assert ds[j] in ds;
      }
    } else {
      forall n | n in ns ensures n == Truth(true) {
        var j :| 0 <= j < |ns| && ns[j] == n;
        assert ds[j] in ds;
      }
    }
  }

  /** The laws the outside world is taken to obey:
      an operator's commutator agrees with it on swapped operands; the plugin reads an operator name
      as Postgres reads the operator, and no operator is named like a null test; on booleans "=" and "<>"
      against true mean what they say; a list under "=" is an IN list and a list under "<>" a NOT IN list. */
  ghost predicate Lawful(w: World) {
    && (forall o, a, b :: w.commutator(o) != 0 ==> w.operate(w.commutator(o), [b, a]) == w.operate(o, [a, b]))
    && (forall o, a, b :: w.holds(w.operatorName(o), a, b) == IsTrueDatum(w.operate(o, [One(a), One(b)])))
    && (forall o :: w.operatorName(o) != IS_NULL && w.operatorName(o) != IS_NOT_NULL)
    && (forall s: Scalar :: s.BoolS? ==> w.holds("=", s, BoolS(true)) == (s == BoolS(true)))
    && (forall s: Scalar :: s.BoolS? ==> w.holds("<>", s, BoolS(true)) == (s == BoolS(false)))
    && w.listAny("=") && !w.listAny("<>")
  }

  /** An operator that is equality, or its negation. */
  ghost predicate IsEquality(w: World, opno: Oid, negated: bool) {
    && w.operatorName(opno) == (if negated then "<>" else "=")
    && forall a, b :: IsTrueDatum(w.operate(opno, [One(a), One(b)])) == ((a == b) != negated)
  }

  /** The laws can be met: a world whose operator 1 is "=" and every other "<>". */
  function EqualOrNot(o: Oid, vs: seq<Value>): Datum {
    Truth((|vs| == 2 && vs[0] == vs[1]) == (o == 1))
  }

  function EqualityWorld(): World {
    World(1, [Some("c")], o => if o == 1 then "=" else "<>", _ => 0, _ => 0,
          (o: Oid, vs: seq<Value>) => EqualOrNot(o, vs),
          (f, ds) => None, (f, ds, t) => None, (r, a) => None, s => true,
          (op, a, b) => (a == b) != (op == "<>"), op => op == "=")
  }

  lemma EqualOnPair(o: Oid, a: Scalar, b: Scalar)
    ensures IsTrueDatum(EqualityWorld().operate(o, [One(a), One(b)])) == ((a == b) == (o == 1))
  {
    var vs := [One(a), One(b)];
    assert vs[0] == One(a) && vs[1] == One(b);
    assert EqualityWorld().operate(o, vs) == EqualOrNot(o, vs);
  }

  lemma NamesDiffer()
    ensures "=" != IS_NULL && "=" != IS_NOT_NULL && "<>" != IS_NULL && "<>" != IS_NOT_NULL && "=" != "<>"
  {
    assert |"="| == 1 && |"<>"| == 2 && |IS_NULL| == 7 && |IS_NOT_NULL| == 11;
  }

  lemma NamedAsMeant(o: Oid, a: Scalar, b: Scalar)
    ensures var w := EqualityWorld();
      && w.operatorName(o) == (if o == 1 then "=" else "<>")
      && w.holds(w.operatorName(o), a, b) == ((a == b) == (o == 1)) == IsTrueDatum(w.operate(o, [One(a), One(b)]))
  {
    NamesDiffer();
    hide EqualOrNot;
    EqualOnPair(o, a, b);
  }

  lemma OperatorsAsNamed()
    ensures var w := EqualityWorld();
      && (forall o, a, b :: w.holds(w.operatorName(o), a, b) == IsTrueDatum(w.operate(o, [One(a), One(b)])))
      && (forall o :: w.operatorName(o) != IS_NULL && w.operatorName(o) != IS_NOT_NULL)
      && (forall a, b :: IsTrueDatum(w.operate(1, [One(a), One(b)])) == (a == b))
      && (forall a, b :: IsTrueDatum(w.operate(2, [One(a), One(b)])) == (a != b))
  {
    NamesDiffer();
    var w := EqualityWorld();
    hide EqualityWorld, IsTrueDatum;
    forall o, a, b ensures w.holds(w.operatorName(o), a, b) == IsTrueDatum(w.operate(o, [One(a), One(b)])) {
      NamedAsMeant(o, a, b);
    }
    forall o ensures w.operatorName(o) != IS_NULL && w.operatorName(o) != IS_NOT_NULL {
      NamedAsMeant(o, BoolS(true), BoolS(true));
    }
    forall a, b ensures IsTrueDatum(w.operate(1, [One(a), One(b)])) == (a == b) { NamedAsMeant(1, a, b); }
    forall a, b ensures IsTrueDatum(w.operate(2, [One(a), One(b)])) == (a != b) { NamedAsMeant(2, a, b); }
  }

  lemma NamesAsRead()
    ensures var w := EqualityWorld();
      && (forall o, a, b :: w.commutator(o) != 0 ==> w.operate(w.commutator(o), [b, a]) == w.operate(o, [a, b]))
      && (forall s: Scalar :: s.BoolS? ==> w.holds("=", s, BoolS(true)) == (s == BoolS(true)))
      && (forall s: Scalar :: s.BoolS? ==> w.holds("<>", s, BoolS(true)) == (s == BoolS(false)))
      && w.listAny("=") && !w.listAny("<>") && w.operatorName(1) == "=" && w.operatorName(2) == "<>"
  {
    NamesDiffer();
    hide EqualOrNot, IsTrueDatum;
  }

  lemma EqualityWorldIsLawful()
    ensures Lawful(EqualityWorld())
    ensures IsEquality(EqualityWorld(), 1, false) && IsEquality(EqualityWorld(), 2, true)
  {
    OperatorsAsNamed();
    NamesAsRead();
    hide EqualityWorld, IsTrueDatum;
  }
}
