/** goFdwGetPathKeys in fdw.go and findPaths in fdw/query.c: from path keys to the parameterized paths the
    planner is given. */
module FindPaths {
  import opened PathKeys
  import opened PathKeysMeaning
  import opened Wrappers

  // ---------- attribute lookup ----------

  datatype Column = Column(name: string, attnum: int)

  /** The attribute of that name; dropped attributes have no conversion info. */
  function Resolve(cinfos: seq<Option<Column>>, name: string): Option<int> {
    if cinfos == [] then None
    else if cinfos[0].Some? && cinfos[0].value.name == name then Some(cinfos[0].value.attnum)
    else Resolve(cinfos[1..], name)
  }

  /** Position k holds the first live attribute of that name, and its number is a. */
  ghost predicate NamedAt(cinfos: seq<Option<Column>>, name: string, k: nat, a: int) {
    && k < |cinfos| && cinfos[k] == Some(Column(name, a))
    && forall j :: 0 <= j < k && cinfos[j].Some? ==> cinfos[j].value.name != name
  }

  /** The table has a live attribute of that name. */
  ghost predicate HasColumn(cinfos: seq<Option<Column>>, name: string) {
    exists k :: 0 <= k < |cinfos| && cinfos[k].Some? && cinfos[k].value.name == name
  }

  lemma {:induction false} ResolveExactly(cinfos: seq<Option<Column>>, name: string, a: int)
    ensures Resolve(cinfos, name) == Some(a) <==> exists k: nat :: NamedAt(cinfos, name, k, a)
    ensures Resolve(cinfos, name).Some? <==> HasColumn(cinfos, name)
  {
    if cinfos != [] {
      ResolveExactly(cinfos[1..], name, a);
      if cinfos[0].Some? && cinfos[0].value.name == name {
        assert Resolve(cinfos, name) == Some(a) ==> NamedAt(cinfos, name, 0, a);
      } else {
        if k: nat :| NamedAt(cinfos[1..], name, k, a) { assert NamedAt(cinfos, name, k + 1, a); }
        if k: nat :| NamedAt(cinfos, name, k, a) { assert NamedAt(cinfos[1..], name, k - 1, a); }
        HasColumnLater(cinfos, name);
      }
    }
  }

  lemma HasColumnLater(cinfos: seq<Option<Column>>, name: string)
    requires cinfos != [] && !(cinfos[0].Some? && cinfos[0].value.name == name)
    ensures HasColumn(cinfos, name) <==> HasColumn(cinfos[1..], name)
  {
    if k :| 0 <= k < |cinfos| && cinfos[k].Some? && cinfos[k].value.name == name {
      assert cinfos[1..][k - 1] == cinfos[k];
    }
    if k :| 0 <= k < |cinfos| - 1 && cinfos[1..][k].Some? && cinfos[1..][k].value.name == name {
      assert cinfos[k + 1] == cinfos[1..][k];
    }
  }

  method Lookup(cinfos: seq<Option<Column>>, name: string) returns (r: Option<int>)
    ensures r == Resolve(cinfos, name)
  {
    var k := 0;
    while k < |cinfos|
      invariant 0 <= k <= |cinfos| && Resolve(cinfos, name) == Resolve(cinfos[k..], name)
    {
      assert cinfos[k..][1..] == cinfos[k + 1..];
      if cinfos[k].Some? && cinfos[k].value.name == name { return Some(cinfos[k].value.attnum); }
      k := k + 1;
    }
    return None;
  }

  function AddUnique(attnums: seq<int>, a: Option<int>): seq<int> {
    if a.None? || a.value in attnums then attnums else attnums + [a.value]
  }

  function AttNums(cinfos: seq<Option<Column>>, names: seq<string>): seq<int> {
    if names == [] then []
    else AddUnique(AttNums(cinfos, names[..|names| - 1]), Resolve(cinfos, names[|names| - 1]))
  }

  /** A key whose name is not found is skipped. */
  method LookupAttNums(cinfos: seq<Option<Column>>, names: seq<string>) returns (attnums: seq<int>)
    ensures attnums == AttNums(cinfos, names)
  {
    attnums := [];
    var i := 0;
    while i < |names|
      invariant 0 <= i <= |names| && attnums == AttNums(cinfos, names[..i])
    {
      assert names[..i + 1][..i] == names[..i];
      var a := Lookup(cinfos, names[i]);
      if a.Some? && a.value !in attnums { attnums := attnums + [a.value]; }
      i := i + 1;
    }
    assert names[..i] == names;
  }

  lemma {:induction false} AttNumsResolve(cinfos: seq<Option<Column>>, names: seq<string>, a: int)
    ensures a in AttNums(cinfos, names) <==> exists n :: n in names && Resolve(cinfos, n) == Some(a)
    ensures multiset(AttNums(cinfos, names))[a] <= 1
  {
    if names != [] {
      var n := |names| - 1;
      AttNumsResolve(cinfos, names[..n], a);
      assert names == names[..n] + [names[n]];
      if m :| m in names && Resolve(cinfos, m) == Some(a) {
        assert m in names[..n] || m == names[n];
      }
      assert multiset(AttNums(cinfos, names[..n]))[a] > 0 <==> a in AttNums(cinfos, names[..n]);
    }
  }

  /** The attributes are the numbers of the first live attributes of those names, each once. */
  lemma AttNumsExactly(cinfos: seq<Option<Column>>, names: seq<string>, a: int)
    ensures a in AttNums(cinfos, names) <==> exists n, k: nat :: n in names && NamedAt(cinfos, n, k, a)
    ensures multiset(AttNums(cinfos, names))[a] <= 1
  {
    hide NamedAt, AttNums, Resolve;
    AttNumsResolve(cinfos, names, a);
    forall n ensures Resolve(cinfos, n) == Some(a) <==> exists k: nat :: NamedAt(cinfos, n, k, a) {
      ResolveExactly(cinfos, n, a);
    }
  }

  /** A longer key only adds attributes, at the end. */
  lemma {:induction false} AttNumsGrow(cinfos: seq<Option<Column>>, names: seq<string>, more: seq<string>)
    ensures AttNums(cinfos, names) <= AttNums(cinfos, names + more)
  {
    if more == [] {
      assert names + more == names;
    } else {
      AttNumsGrow(cinfos, names, more[..|more| - 1]);
      assert (names + more)[..|names + more| - 1] == names + more[..|more| - 1];
    }
  }

  // ---------- what the planner knows ----------

  datatype Var = Var(relid: nat, attnum: int)

  datatype Clause = Clause(id: nat, vars: seq<Var>, outerRelids: set<nat>)

  datatype EquivalenceClass = EquivalenceClass(members: nat, sources: seq<Clause>, relids: set<nat>)

  datatype PlannerInfo = PlannerInfo(eqClasses: seq<EquivalenceClass>, leftJoins: seq<Clause>, rightJoins: seq<Clause>)

  datatype Item = Item(attnums: seq<int>, rows: nat)

  datatype ForeignPath = ForeignPath(rows: nat, reqOuter: set<nat>, clauses: seq<Clause>)

  /** The clause is about this column, and the planner may use it to look the column up: it comes from an
      equivalence class of more than one member, or from an outer join. */
  ghost predicate ClauseFor(root: PlannerInfo, v: Var, c: Clause) {
    && v in c.vars
    && (|| (exists ec :: ec in root.eqClasses && ec.members > 1 && c in ec.sources)
        || c in root.leftJoins || c in root.rightJoins)
  }

  /** r is a relation that a source of such a clause brings in. */
  ghost predicate BringsIn(root: PlannerInfo, v: Var, r: nat) {
    || (exists ec, c :: ec in root.eqClasses && ec.members > 1 && c in ec.sources && v in c.vars && r in ec.relids)
    || (exists c :: (c in root.leftJoins || c in root.rightJoins) && v in c.vars && r in c.outerRelids)
  }

  // ---------- the clauses for one attribute ----------

  datatype Found = Found(clauses: seq<Clause>, relids: set<nat>)

  function Involving(v: Var, cs: seq<Clause>): seq<Clause> {
    if cs == [] then []
    else
      var last := cs[|cs| - 1];
      Involving(v, cs[..|cs| - 1]) + if v in last.vars then [last] else []
  }

  function InClass(v: Var, ec: EquivalenceClass): seq<Clause> {
    if ec.members > 1 then Involving(v, ec.sources) else []
  }

  function FromClasses(v: Var, ecs: seq<EquivalenceClass>): Found {
    if ecs == [] then Found([], {})
    else
      var f, ec := FromClasses(v, ecs[..|ecs| - 1]), ecs[|ecs| - 1];
      Found(f.clauses + InClass(v, ec), if InClass(v, ec) != [] then f.relids + ec.relids else f.relids)
  }

  /** list_union: what the second list adds to the first. */
  function ListUnion(a: seq<Clause>, b: seq<Clause>): seq<Clause> {
    if b == [] then a
    else
      var u, last := ListUnion(a, b[..|b| - 1]), b[|b| - 1];
      if last in u then u else u + [last]
  }

  function FromJoins(v: Var, f: Found, cs: seq<Clause>): Found {
    if cs == [] then f
    else
      var g, c := FromJoins(v, f, cs[..|cs| - 1]), cs[|cs| - 1];
      if v in c.vars then Found(g.clauses + [c], g.relids + c.outerRelids) else g
  }

  function FoundFor(root: PlannerInfo, v: Var): Found {
    FromJoins(v, FromClasses(v, root.eqClasses), ListUnion(root.leftJoins, root.rightJoins))
  }

  method IsAttrInRestrictInfo(v: Var, ri: Clause) returns (r: bool)
    ensures r == (v in ri.vars)
  {
    var i := 0;
    while i < |ri.vars|
      invariant 0 <= i <= |ri.vars| && v !in ri.vars[..i]
    {
      if ri.vars[i] == v { return true; }
      i := i + 1;
    }
    return false;
  }

  method ClausesInvolvingAttr(v: Var, ec: EquivalenceClass) returns (clauses: seq<Clause>)
    ensures clauses == InClass(v, ec)
  {
    clauses := [];
    if ec.members > 1 {
      var i := 0;
      while i < |ec.sources|
        invariant 0 <= i <= |ec.sources| && clauses == Involving(v, ec.sources[..i])
      {
        assert ec.sources[..i + 1][..i] == ec.sources[..i];
        var involves := IsAttrInRestrictInfo(v, ec.sources[i]);
        if involves { clauses := clauses + [ec.sources[i]]; }
        i := i + 1;
      }
      assert ec.sources[..i] == ec.sources;
    }
  }

  /** The body of the loop over the attributes of a path: clauses, and the relations added to those before. */
  method FindClauses(root: PlannerInfo, v: Var, before: set<nat>) returns (clauses: seq<Clause>, relids: set<nat>)
    ensures clauses == FoundFor(root, v).clauses && relids == before + FoundFor(root, v).relids
  {
    clauses, relids := [], before;
    var i := 0;
    while i < |root.eqClasses|
      invariant 0 <= i <= |root.eqClasses|
      invariant clauses == FromClasses(v, root.eqClasses[..i]).clauses
      invariant relids == before + FromClasses(v, root.eqClasses[..i]).relids
    {
      assert root.eqClasses[..i + 1][..i] == root.eqClasses[..i];
      var found := ClausesInvolvingAttr(v, root.eqClasses[i]);
      clauses := clauses + found;
      if found != [] { relids := relids + root.eqClasses[i].relids; }
      i := i + 1;
    }
    assert root.eqClasses[..i] == root.eqClasses;
    var f := FromClasses(v, root.eqClasses);
    var joins := ListUnion(root.leftJoins, root.rightJoins);
    i := 0;
    while i < |joins|
      invariant 0 <= i <= |joins|
      invariant clauses == FromJoins(v, f, joins[..i]).clauses
      invariant relids == before + FromJoins(v, f, joins[..i]).relids
    {
      assert joins[..i + 1][..i] == joins[..i];
      var involves := IsAttrInRestrictInfo(v, joins[i]);
      if involves {
        clauses := clauses + [joins[i]];
        relids := relids + joins[i].outerRelids;
      }
      i := i + 1;
    }
    assert joins[..i] == joins;
  }

  // ---------- findPaths ----------

  /** None once an attribute has no clause. */
  function FoundForAll(root: PlannerInfo, relid: nat, attnums: seq<int>): Option<Found> {
    if attnums == [] then Some(Found([], {}))
    else
      var before, f := FoundForAll(root, relid, attnums[..|attnums| - 1]),
        FoundFor(root, Var(relid, attnums[|attnums| - 1]));
      if before.None? || f.clauses == [] then None
      else Some(Found(before.value.clauses + f.clauses, before.value.relids + f.relids))
  }

  function PathFor(root: PlannerInfo, relid: nat, item: Item): Option<ForeignPath> {
    var all := FoundForAll(root, relid, item.attnums);
    if all.Some? && all.value.clauses != [] && all.value.relids - {relid} != {}
    then Some(ForeignPath(item.rows, all.value.relids - {relid}, all.value.clauses))
    else None
  }

  function Paths(root: PlannerInfo, relid: nat, items: seq<Item>): seq<ForeignPath> {
    if items == [] then []
    else
      var p := PathFor(root, relid, items[|items| - 1]);
      Paths(root, relid, items[..|items| - 1]) + if p.Some? then [p.value] else []
  }

  lemma {:induction false} NoneStays(root: PlannerInfo, relid: nat, attnums: seq<int>, i: nat)
    requires i <= |attnums| && FoundForAll(root, relid, attnums[..i]).None?
    ensures FoundForAll(root, relid, attnums).None?
    decreases |attnums| - i
  {
    if i == |attnums| {
      assert attnums[..i] == attnums;
    } else {
      assert attnums[..i + 1][..i] == attnums[..i];
      NoneStays(root, relid, attnums, i + 1);
    }
  }

  method ClausesForAll(root: PlannerInfo, relid: nat, attnums: seq<int>)
    returns (allClauses: seq<Clause>, outerRelids: set<nat>)
    ensures allClauses != [] ==> FoundForAll(root, relid, attnums) == Some(Found(allClauses, outerRelids))
    ensures allClauses == [] ==> attnums == [] || FoundForAll(root, relid, attnums).None?
  {
    allClauses, outerRelids := [], {};
    var i := 0;
    while i < |attnums|
      invariant 0 <= i <= |attnums|
      invariant FoundForAll(root, relid, attnums[..i]) == Some(Found(allClauses, outerRelids))
      invariant i > 0 ==> allClauses != []
    {
      assert attnums[..i + 1][..i] == attnums[..i];
      var clauses, relids := FindClauses(root, Var(relid, attnums[i]), outerRelids);
      outerRelids := relids;
      if clauses == [] {
        NoneStays(root, relid, attnums, i + 1);
        allClauses := [];
        break;
      }
      allClauses := allClauses + clauses;
      i := i + 1;
    }
    assert i == |attnums| ==> attnums[..i] == attnums;
  }

  method FindAll(root: PlannerInfo, relid: nat, possiblePaths: seq<Item>) returns (result: seq<ForeignPath>)
    ensures result == Paths(root, relid, possiblePaths)
  {
    result := [];
    var i := 0;
    while i < |possiblePaths|
      invariant 0 <= i <= |possiblePaths| && result == Paths(root, relid, possiblePaths[..i])
    {
      assert possiblePaths[..i + 1][..i] == possiblePaths[..i];
      var item := possiblePaths[i];
      var allClauses, outerRelids := ClausesForAll(root, relid, item.attnums);
      if allClauses != [] {
        var reqOuter := outerRelids - {relid};
        if reqOuter != {} { result := result + [ForeignPath(item.rows, reqOuter, allClauses)]; }
      }
      i := i + 1;
    }
    assert possiblePaths[..i] == possiblePaths;
  }

  // ---------- what a path is for ----------

  lemma {:induction false} InvolvingMember(v: Var, cs: seq<Clause>, c: Clause)
    ensures c in Involving(v, cs) <==> c in cs && v in c.vars
  {
    if cs != [] {
      InvolvingMember(v, cs[..|cs| - 1], c);
      assert cs == cs[..|cs| - 1] + [cs[|cs| - 1]];
    }
  }

  /** The clauses of an equivalence class that are about the column. */
  ghost predicate InSource(ec: EquivalenceClass, v: Var, c: Clause) {
    ec.members > 1 && c in ec.sources && v in c.vars
  }

  lemma InClassExactly(ec: EquivalenceClass, v: Var, c: Clause)
    ensures c in InClass(v, ec) <==> InSource(ec, v, c)
    ensures InClass(v, ec) != [] <==> exists d :: InSource(ec, v, d)
  {
    InvolvingMember(v, ec.sources, c);
    if InClass(v, ec) != [] {
      InvolvingMember(v, ec.sources, InClass(v, ec)[0]);
      assert InSource(ec, v, InClass(v, ec)[0]);
    }
    if d :| InSource(ec, v, d) { InvolvingMember(v, ec.sources, d); }
  }

  lemma {:induction false} ClausesFromClasses(v: Var, ecs: seq<EquivalenceClass>, c: Clause)
    ensures c in FromClasses(v, ecs).clauses <==> exists ec :: ec in ecs && InSource(ec, v, c)
  {
    if ecs != [] {
      ClausesFromClasses(v, ecs[..|ecs| - 1], c);
      assert ecs == ecs[..|ecs| - 1] + [ecs[|ecs| - 1]];
      InClassExactly(ecs[|ecs| - 1], v, c);
    }
  }

  lemma {:induction false} RelidsFromClasses(v: Var, ecs: seq<EquivalenceClass>, r: nat)
    ensures r in FromClasses(v, ecs).relids <==> exists ec :: ec in ecs && InClass(v, ec) != [] && r in ec.relids
  {
    if ecs != [] {
      RelidsFromClasses(v, ecs[..|ecs| - 1], r);
      assert ecs == ecs[..|ecs| - 1] + [ecs[|ecs| - 1]];
    }
  }

  lemma {:induction false} ListUnionMember(a: seq<Clause>, b: seq<Clause>, c: Clause)
    ensures c in ListUnion(a, b) <==> c in a || c in b
  {
    if b != [] {
      ListUnionMember(a, b[..|b| - 1], c);
      assert b == b[..|b| - 1] + [b[|b| - 1]];
    }
  }

  lemma {:induction false} FromJoinsExactly(v: Var, f: Found, cs: seq<Clause>, c: Clause, r: nat)
    ensures c in FromJoins(v, f, cs).clauses <==> c in f.clauses || (c in cs && v in c.vars)
    ensures r in FromJoins(v, f, cs).relids <==>
      r in f.relids || exists d :: d in cs && v in d.vars && r in d.outerRelids
  {
    if cs != [] {
      FromJoinsExactly(v, f, cs[..|cs| - 1], c, r);
      assert cs == cs[..|cs| - 1] + [cs[|cs| - 1]];
    }
  }

  lemma JoinMember(root: PlannerInfo)
    ensures forall d :: d in ListUnion(root.leftJoins, root.rightJoins) <==> d in root.leftJoins || d in root.rightJoins
  {
    forall d ensures d in ListUnion(root.leftJoins, root.rightJoins) <==> d in root.leftJoins || d in root.rightJoins {
      ListUnionMember(root.leftJoins, root.rightJoins, d);
    }
  }

  lemma ClausesExactly(root: PlannerInfo, v: Var, c: Clause)
    ensures c in FoundFor(root, v).clauses <==> ClauseFor(root, v, c)
  {
    ClausesFromClasses(v, root.eqClasses, c);
    JoinMember(root);
    FromJoinsExactly(v, FromClasses(v, root.eqClasses), ListUnion(root.leftJoins, root.rightJoins), c, 0);
    if ec :| ec in root.eqClasses && ec.members > 1 && c in ec.sources && v in c.vars { assert InSource(ec, v, c); }
  }

  lemma RelidsExactly(root: PlannerInfo, v: Var, r: nat)
    ensures r in FoundFor(root, v).relids <==> BringsIn(root, v, r)
  {
    RelidsFromClasses(v, root.eqClasses, r);
    JoinMember(root);
    FromJoinsExactly(v, FromClasses(v, root.eqClasses), ListUnion(root.leftJoins, root.rightJoins), Clause(0, [], {}),
                     r);
    if ec :| ec in root.eqClasses && InClass(v, ec) != [] && r in ec.relids {
      InClassExactly(ec, v, InClass(v, ec)[0]);
    }
    if ec, d :| ec in root.eqClasses && ec.members > 1 && d in ec.sources && v in d.vars && r in ec.relids {
      InClassExactly(ec, v, d);
    }
  }

  // ---------- how often a clause is taken ----------

  lemma {:induction false} InvolvingCounts(v: Var, cs: seq<Clause>, c: Clause)
    ensures multiset(Involving(v, cs))[c] == if v in c.vars then multiset(cs)[c] else 0
  {
    if cs != [] {
      InvolvingCounts(v, cs[..|cs| - 1], c);
      assert cs == cs[..|cs| - 1] + [cs[|cs| - 1]];
    }
  }

  /** How often the classes of more than one member hold a clause. */
  function InClasses(ecs: seq<EquivalenceClass>, c: Clause): nat {
    if ecs == [] then 0
    else
      var ec := ecs[|ecs| - 1];
      InClasses(ecs[..|ecs| - 1], c) + if ec.members > 1 then multiset(ec.sources)[c] else 0
  }

  lemma {:induction false} ClassesCount(v: Var, ecs: seq<EquivalenceClass>, c: Clause)
    ensures multiset(FromClasses(v, ecs).clauses)[c] == if v in c.vars then InClasses(ecs, c) else 0
  {
    if ecs != [] {
      ClassesCount(v, ecs[..|ecs| - 1], c);
      InvolvingCounts(v, ecs[|ecs| - 1].sources, c);
    }
  }

  /** list_union adds a clause at most once, and leaves the first list as it is. */
  lemma {:induction false} UnionCounts(a: seq<Clause>, b: seq<Clause>, c: Clause)
    ensures multiset(ListUnion(a, b))[c] == if c in a then multiset(a)[c] else if c in b then 1 else 0
  {
    if b != [] {
      var last := b[|b| - 1];
      UnionCounts(a, b[..|b| - 1], c);
      ListUnionMember(a, b[..|b| - 1], last);
      assert b == b[..|b| - 1] + [last];
    }
  }

  lemma {:induction false} JoinsCount(v: Var, f: Found, cs: seq<Clause>, c: Clause)
    ensures multiset(FromJoins(v, f, cs).clauses)[c]
         == multiset(f.clauses)[c] + if v in c.vars then multiset(cs)[c] else 0
  {
    if cs != [] {
      JoinsCount(v, f, cs[..|cs| - 1], c);
      assert cs == cs[..|cs| - 1] + [cs[|cs| - 1]];
    }
  }

  /** A clause about the column is taken as often as the classes hold it, and once more if it is an outer join's,
      also if it is one of both sides. */
  lemma ClausesCounted(root: PlannerInfo, v: Var, c: Clause)
    ensures multiset(FoundFor(root, v).clauses)[c] ==
      if v !in c.vars then 0
      else InClasses(root.eqClasses, c) + if c in root.leftJoins then multiset(root.leftJoins)[c]
                                          else if c in root.rightJoins then 1 else 0
  {
    ClassesCount(v, root.eqClasses, c);
    UnionCounts(root.leftJoins, root.rightJoins, c);
    JoinsCount(v, FromClasses(v, root.eqClasses), ListUnion(root.leftJoins, root.rightJoins), c);
  }

  /** Clauses stand in the order of the classes, and those of the joins after them, in the order of the joins. */
  lemma {:induction false} ClassesInOrder(v: Var, ecs: seq<EquivalenceClass>, more: seq<EquivalenceClass>)
    ensures FromClasses(v, ecs).clauses <= FromClasses(v, ecs + more).clauses
  {
    if more == [] {
      assert ecs + more == ecs;
    } else {
      ClassesInOrder(v, ecs, more[..|more| - 1]);
      assert (ecs + more)[..|ecs + more| - 1] == ecs + more[..|more| - 1];
    }
  }

  lemma {:induction false} JoinsInOrder(v: Var, f: Found, cs: seq<Clause>, more: seq<Clause>)
    ensures f.clauses <= FromJoins(v, f, cs).clauses <= FromJoins(v, f, cs + more).clauses
    decreases |cs| + |more|
  {
    if more != [] {
      JoinsInOrder(v, f, cs, more[..|more| - 1]);
      assert (cs + more)[..|cs + more| - 1] == cs + more[..|more| - 1];
    } else {
      assert cs + more == cs;
      if cs != [] { JoinsInOrder(v, f, cs[..|cs| - 1], []); }
    }
  }

  /** Every attribute has a clause. */
  ghost predicate Covered(root: PlannerInfo, relid: nat, attnums: seq<int>) {
    forall a :: a in attnums ==> exists c :: ClauseFor(root, Var(relid, a), c)
  }

  lemma HasClause(root: PlannerInfo, v: Var)
    ensures FoundFor(root, v).clauses != [] <==> exists d :: ClauseFor(root, v, d)
  {
    hide ClauseFor, FoundFor;
    if FoundFor(root, v).clauses != [] { ClausesExactly(root, v, FoundFor(root, v).clauses[0]); }
    if d :| ClauseFor(root, v, d) { ClausesExactly(root, v, d); }
  }

  lemma CoveredInit(root: PlannerInfo, relid: nat, attnums: seq<int>)
    requires attnums != []
    ensures Covered(root, relid, attnums) <==>
      Covered(root, relid, attnums[..|attnums| - 1]) && FoundFor(root, Var(relid, attnums[|attnums| - 1])).clauses != []
  {
    hide ClauseFor, FoundFor;
    var n := |attnums| - 1;
    HasClause(root, Var(relid, attnums[n]));
    forall a ensures a in attnums <==> a in attnums[..n] || a == attnums[n] {
      assert attnums == attnums[..n] + [attnums[n]];
    }
  }

  lemma {:induction false} FoundForAllExactly(root: PlannerInfo, relid: nat, attnums: seq<int>, c: Clause, r: nat)
    ensures FoundForAll(root, relid, attnums).Some? <==> Covered(root, relid, attnums)
    ensures FoundForAll(root, relid, attnums).Some? ==>
      && var f := FoundForAll(root, relid, attnums).value;
      && (c in f.clauses <==> exists a :: a in attnums && ClauseFor(root, Var(relid, a), c))
      && (r in f.relids <==> exists a :: a in attnums && BringsIn(root, Var(relid, a), r))
      && (f.clauses == [] <==> attnums == [])
  {
    if attnums != [] {
      hide ClauseFor, BringsIn, FoundFor;
      var n := |attnums| - 1;
      var v := Var(relid, attnums[n]);
      FoundForAllExactly(root, relid, attnums[..n], c, r);
      assert attnums == attnums[..n] + [attnums[n]];
      ClausesExactly(root, v, c);
      RelidsExactly(root, v, r);
      CoveredInit(root, relid, attnums);
    }
  }

  /** A path is emitted exactly when there are attributes, each has a clause, and some clause brings in
      another relation. Its clauses are those of its attributes, its outer relations the others those
      bring in. */
  lemma EmittedExactlyWhen(root: PlannerInfo, relid: nat, item: Item, c: Clause, r: nat)
    ensures PathFor(root, relid, item).Some? <==>
      && item.attnums != []
      && Covered(root, relid, item.attnums)
      && exists a, o :: a in item.attnums && o != relid && BringsIn(root, Var(relid, a), o)
    ensures PathFor(root, relid, item).Some? ==>
      && var p := PathFor(root, relid, item).value;
      && p.rows == item.rows
      && p.reqOuter != {} && relid !in p.reqOuter
      && (c in p.clauses <==> exists a :: a in item.attnums && ClauseFor(root, Var(relid, a), c))
      && (r in p.reqOuter <==> r != relid && exists a :: a in item.attnums && BringsIn(root, Var(relid, a), r))
  {
    hide ClauseFor, BringsIn, Covered;
    var all := FoundForAll(root, relid, item.attnums);
    FoundForAllExactly(root, relid, item.attnums, c, r);
    if all.Some? {
      var others := all.value.relids - {relid};
      forall o
        ensures o in others <==> o != relid && exists a :: a in item.attnums && BringsIn(root, Var(relid, a), o)
      {
        FoundForAllExactly(root, relid, item.attnums, c, o);
      }
      if others != {} {
        var o :| o in others;
        assert exists a :: a in item.attnums && BringsIn(root, Var(relid, a), o);
      }
      if a, o :| a in item.attnums && o != relid && BringsIn(root, Var(relid, a), o) { assert o in others; }
    }
  }

  // ---------- from key columns to paths ----------

  function Items(cinfos: seq<Option<Column>>, pathKeys: seq<PathKey>): (r: seq<Item>)
    ensures |r| == |pathKeys|
    ensures forall i :: 0 <= i < |r| ==> r[i] == Item(AttNums(cinfos, pathKeys[i].columnNames), pathKeys[i].rows)
  {
    if pathKeys == [] then []
    else
      var last := pathKeys[|pathKeys| - 1];
      Items(cinfos, pathKeys[..|pathKeys| - 1]) + [Item(AttNums(cinfos, last.columnNames), last.rows)]
  }

  /** goFdwGetPathKeys. */
  method PossiblePaths(cinfos: seq<Option<Column>>, pathKeys: seq<PathKey>) returns (result: seq<Item>)
    ensures result == Items(cinfos, pathKeys)
  {
    result := [];
    var i := 0;
    while i < |pathKeys|
      invariant 0 <= i <= |pathKeys| && result == Items(cinfos, pathKeys[..i])
    {
      assert pathKeys[..i + 1][..i] == pathKeys[..i];
      var attnums := LookupAttNums(cinfos, pathKeys[i].columnNames);
      result := result + [Item(attnums, pathKeys[i].rows)];
      i := i + 1;
    }
    assert pathKeys[..i] == pathKeys;
  }

  lemma {:induction false} PathsMember(root: PlannerInfo, relid: nat, items: seq<Item>, f: ForeignPath)
    ensures f in Paths(root, relid, items) <==>
      exists i :: 0 <= i < |items| && PathFor(root, relid, items[i]) == Some(f)
  {
    if items != [] {
      hide PathFor;
      var n := |items| - 1;
      PathsMember(root, relid, items[..n], f);
      if i :| 0 <= i < |items| && PathFor(root, relid, items[i]) == Some(f) {
        if i < n { assert items[..n][i] == items[i]; }
      }
      if i :| 0 <= i < n && PathFor(root, relid, items[..n][i]) == Some(f) {
        assert items[..n][i] == items[i];
      }
    }
  }

  /** More items only add paths, at the end. */
  lemma {:induction false} PathsGrow(root: PlannerInfo, relid: nat, items: seq<Item>, more: seq<Item>)
    ensures Paths(root, relid, items) <= Paths(root, relid, items + more)
  {
    if more == [] {
      assert items + more == items;
    } else {
      hide PathFor;
      PathsGrow(root, relid, items, more[..|more| - 1]);
      assert (items + more)[..|items + more| - 1] == items + more[..|more| - 1];
    }
  }

  /** The path has a clause about the first live attribute of that name. */
  ghost predicate LooksUp(root: PlannerInfo, relid: nat, cinfos: seq<Option<Column>>, f: ForeignPath, name: string) {
    exists k: nat, a, c :: NamedAt(cinfos, name, k, a) && c in f.clauses && ClauseFor(root, Var(relid, a), c)
  }

  /** A path emitted for a path key looks up a column of the key exactly when the table has a live attribute of that
      name: a key column that is none is no bar to the path. */
  lemma LooksUpExactlyResolved(root: PlannerInfo, relid: nat, cinfos: seq<Option<Column>>, k: PathKey, f: ForeignPath,
                               name: string)
    requires PathFor(root, relid, Item(AttNums(cinfos, k.columnNames), k.rows)) == Some(f)
    requires name in k.columnNames
    ensures LooksUp(root, relid, cinfos, f, name) <==> HasColumn(cinfos, name)
    ensures f.rows == k.rows
  {
    hide ClauseFor, BringsIn, PathFor;
    var item := Item(AttNums(cinfos, k.columnNames), k.rows);
    EmittedExactlyWhen(root, relid, item, Clause(0, [], {}), relid);
    if HasColumn(cinfos, name) {
      var a := FirstOf(cinfos, name);
      AttNumsExactly(cinfos, k.columnNames, a);
      var c :| ClauseFor(root, Var(relid, a), c);
      EmittedExactlyWhen(root, relid, item, c, relid);
    }
  }

  lemma FirstOf(cinfos: seq<Option<Column>>, name: string) returns (a: int)
    requires HasColumn(cinfos, name)
    ensures exists k: nat :: NamedAt(cinfos, name, k, a)
  {
    ResolveExactly(cinfos, name, 0);
    a := Resolve(cinfos, name).value;
    ResolveExactly(cinfos, name, a);
  }

  /** Every path the planner gets for the key columns of a table is usable: it has a clause for each
      required key column and for an any-of one if there are any, and needs some relation but the table. */
  lemma UsablePaths(root: PlannerInfo, relid: nat, cinfos: seq<Option<Column>>, keys: seq<KeyColumn>, all: seq<string>,
                    f: ForeignPath)
    requires |keys| <= KeyEntries(keys, all)
    requires forall i :: 0 <= i < |keys| ==> HasColumn(cinfos, keys[i].name)
    requires f in Paths(root, relid, Items(cinfos, PathKeysOf(keys, all)))
    ensures forall n :: n in Names(keys, Required) ==> LooksUp(root, relid, cinfos, f, n)
    ensures Names(keys, AnyOf) != [] ==> exists n :: n in Names(keys, AnyOf) && LooksUp(root, relid, cinfos, f, n)
    ensures f.reqOuter != {} && relid !in f.reqOuter
  {
    hide LooksUp, PathFor, ClauseFor, BringsIn, Names, PathKeysOf, HasColumn;
    var items := Items(cinfos, PathKeysOf(keys, all));
    PathsMember(root, relid, items, f);
    var i :| 0 <= i < |items| && PathFor(root, relid, items[i]) == Some(f);
    var k := PathKeysOf(keys, all)[i];
    EmittedExactlyWhen(root, relid, items[i], Clause(0, [], {}), relid);
    PathKeyCovers(keys, all, k);
    forall n, r | n in Names(keys, r) && n in k.columnNames ensures LooksUp(root, relid, cinfos, f, n) {
      NamesMember(keys, r, n);
      LooksUpExactlyResolved(root, relid, cinfos, k, f, n);
    }
  }

  lemma {:induction false} UnresolvedSkipped(cinfos: seq<Option<Column>>, before: seq<string>, name: string,
                                             after: seq<string>)
    requires Resolve(cinfos, name).None?
    ensures AttNums(cinfos, before + [name] + after) == AttNums(cinfos, before + after)
  {
    var names := before + [name] + after;
    if after == [] {
      assert names[..|names| - 1] == before && before + after == before;
    } else {
      var n := |after| - 1;
      UnresolvedSkipped(cinfos, before, name, after[..n]);
      assert names[..|names| - 1] == before + [name] + after[..n];
      assert (before + after)[..|before + after| - 1] == before + after[..n];
    }
  }

  /** A required key column that is no attribute of the table: the paths are those of the key without it. */
  lemma UnresolvedKeyIsNoBar(root: PlannerInfo, relid: nat, cinfos: seq<Option<Column>>, before: seq<string>,
                             name: string, after: seq<string>, rows: nat)
    requires !HasColumn(cinfos, name)
    ensures PathFor(root, relid, Item(AttNums(cinfos, before + [name] + after), rows))
         == PathFor(root, relid, Item(AttNums(cinfos, before + after), rows))
  {
    ResolveExactly(cinfos, name, 0);
    UnresolvedSkipped(cinfos, before, name, after);
  }
}
