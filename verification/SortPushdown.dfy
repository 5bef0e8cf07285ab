/** fdw/query.c and fdw.go: which ORDER BY keys the plugin is asked to sort by. */
module SortPushdown {
  import opened Wrappers
  import opened Sql

  datatype EquivalenceMember = EquivalenceMember(relids: set<nat>, expr: Node)

  /** A key of ORDER BY: an equivalence class, a direction and where NULLs go. */
  datatype PathKey = PathKey(members: seq<EquivalenceMember>, reversed: bool, nullsFirst: bool)

  datatype SortGroup = SortGroup(
    attname: string, attnum: int, reversed: bool, nullsFirst: bool, collate: Option<string>, key: PathKey)

  const DEFAULT_COLLATION_OID := 100

  /** The catalogue names a foreign table's attributes and the collations. */
  datatype Names = Names(attname: int -> string, collation: Oid -> string)

  /** fdw_get_em_expr: the first member of the class made of this relation alone. */
  function MemberExpr(members: seq<EquivalenceMember>, relids: set<nat>): (r: Option<Node>)
    ensures r.Some? <==> exists m :: m in members && m.relids == relids
  {
    if members == [] then None
    else if members[0].relids == relids then Some(members[0].expr)
    else MemberExpr(members[1..], relids)
  }

  /** The first member of a class made of these relations alone. */
  ghost predicate FirstMember(members: seq<EquivalenceMember>, relids: set<nat>, k: nat, expr: Node) {
    && k < |members| && members[k] == EquivalenceMember(relids, expr)
    && forall j :: 0 <= j < k ==> members[j].relids != relids
  }

  lemma {:induction false} MemberExprExactly(members: seq<EquivalenceMember>, relids: set<nat>, expr: Node)
    ensures MemberExpr(members, relids) == Some(expr) <==> exists k: nat :: FirstMember(members, relids, k, expr)
  {
    if members != [] {
      MemberExprExactly(members[1..], relids, expr);
      if members[0].relids == relids {
        assert MemberExpr(members, relids) == Some(expr) ==> FirstMember(members, relids, 0, expr);
      } else {
        if k: nat :| FirstMember(members[1..], relids, k, expr) {
          assert FirstMember(members, relids, k + 1, expr);
        }
        if k: nat :| FirstMember(members, relids, k, expr) {
          assert FirstMember(members[1..], relids, k - 1, expr);
        }
      }
    }
  }

  /** What is kept of a key over a column, with the collation it names; None if it is no plain column. */
  function GroupOf(names: Names, key: PathKey, expr: Node): Option<SortGroup> {
    match expr
    case Var(_, attno) =>
      Some(SortGroup(names.attname(attno), attno, key.reversed, key.nullsFirst, None, key))
    case RelabelType(Var(_, attno), collid) =>
      Some(SortGroup(names.attname(attno), attno, key.reversed, key.nullsFirst,
                     if collid == DEFAULT_COLLATION_OID then None else Some(names.collation(collid)), key))
    case _ => None
  }

  /** The column a key sorts by. */
  function PlainColumn(names: Names, relids: set<nat>, key: PathKey): Option<SortGroup> {
    match MemberExpr(key.members, relids)
    case Some(expr) => GroupOf(names, key, expr)
    case None => None
  }

  /** The expression is a variable, bare or relabelled to a collation; the default one is not named. */
  ghost predicate PlainExpr(names: Names, expr: Node, attno: int, collate: Option<string>) {
    || (expr.Var? && expr.attno == attno && collate == None)
    || (&& expr.RelabelType? && expr.arg.Var? && expr.arg.attno == attno
        && collate == if expr.collation == DEFAULT_COLLATION_OID then None else Some(names.collation(expr.collation)))
  }

  /** A key is a plain column exactly if the first member of its class made of the relation alone is a variable;
      what is kept of it is that column's name and number, the key's direction and NULLs, and the collation. */
  lemma PlainColumnExactly(names: Names, relids: set<nat>, key: PathKey, g: SortGroup)
    ensures PlainColumn(names, relids, key) == Some(g) <==>
      && (exists k: nat, expr ::
            FirstMember(key.members, relids, k, expr) && PlainExpr(names, expr, g.attnum, g.collate))
      && g.attname == names.attname(g.attnum)
      && g.reversed == key.reversed && g.nullsFirst == key.nullsFirst && g.key == key
  {
    if PlainColumn(names, relids, key) == Some(g) {
      var expr := MemberExpr(key.members, relids).value;
      MemberExprExactly(key.members, relids, expr);
      ExprOfColumn(names, key, expr, g);
    }
    if k: nat, expr :| FirstMember(key.members, relids, k, expr) && PlainExpr(names, expr, g.attnum, g.collate) {
      MemberExprExactly(key.members, relids, expr);
      ExprOfColumn(names, key, expr, g);
    }
  }

  lemma ExprOfColumn(names: Names, key: PathKey, expr: Node, g: SortGroup)
    ensures GroupOf(names, key, expr) == Some(g) <==>
      && PlainExpr(names, expr, g.attnum, g.collate) && g.attname == names.attname(g.attnum)
      && g.reversed == key.reversed && g.nullsFirst == key.nullsFirst && g.key == key
  {
  }

  predicate AllPlain(names: Names, relids: set<nat>, keys: seq<PathKey>) {
    forall k :: k in keys ==> PlainColumn(names, relids, k).Some?
  }

  /** deparse_sortgroup: every key, or nothing at all as soon as one is no plain column. */
  method DeparseSortgroup(names: Names, relids: set<nat>, keys: seq<PathKey>) returns (res: seq<SortGroup>)
    ensures AllPlain(names, relids, keys) ==>
      |res| == |keys| && forall i :: 0 <= i < |keys| ==> Some(res[i]) == PlainColumn(names, relids, keys[i])
    ensures !AllPlain(names, relids, keys) ==> res == []
  {
    res := [];
    var i := 0;
    while i < |keys|
      invariant 0 <= i <= |keys| && |res| == i
      invariant forall k :: 0 <= k < i ==> Some(res[k]) == PlainColumn(names, relids, keys[k])
    {
      var md := PlainColumn(names, relids, keys[i]);
      if md.Some? {
        res := res + [md.value];
      } else {
        assert keys[i] in keys;
        while res != [] {
          res := res[1..];
        }
        return;
      }
      i := i + 1;
    }
  }

  // ---------- what the plugin's schema can sort ----------

  datatype SortOrder = Unsorted | Asc | Desc | All

  /** The directions a declaration allows. */
  predicate Allows(o: SortOrder, descending: bool) {
    match o
    case Unsorted => false
    case Asc => !descending
    case Desc => descending
    case All => true
  }

  /** The table declares that it sorts by the key's column in the key's direction. */
  predicate Declared(sortable: map<string, SortOrder>, g: SortGroup) {
    g.attname in sortable && Allows(sortable[g.attname], g.reversed)
  }

  /** The test goFdwCanSort makes; a column that is not declared looks like one that is not sorted. */
  predicate Supports(sortable: map<string, SortOrder>, g: SortGroup) {
    var supported := if g.attname in sortable then sortable[g.attname] else Unsorted;
    supported == (if g.reversed then Desc else Asc) || supported == All
  }

  /** It passes exactly the columns declared for the direction asked. */
  lemma SupportsExactlyDeclared(sortable: map<string, SortOrder>, g: SortGroup)
    ensures Supports(sortable, g) <==> Declared(sortable, g)
  {
  }

  /** The longest leading part of the list whose every direction the table supports. */
  ghost predicate IsLongestSupportedPrefix(sortable: map<string, SortOrder>, p: seq<SortGroup>,
                                           deparsed: seq<SortGroup>) {
    && p <= deparsed
    && (forall g :: g in p ==> Declared(sortable, g))
    && (|p| < |deparsed| ==> !Declared(sortable, deparsed[|p|]))
  }

  /** goFdwCanSort. */
  method CanSort(sortable: map<string, SortOrder>, deparsed: seq<SortGroup>) returns (res: seq<SortGroup>)
    ensures IsLongestSupportedPrefix(sortable, res, deparsed)
  {
    res := [];
    if deparsed == [] || |sortable| == 0 { return; }
    var i := 0;
    while i < |deparsed|
      invariant 0 <= i <= |deparsed| && res == deparsed[..i]
      invariant forall g :: g in res ==> Declared(sortable, g)
    {
      SupportsExactlyDeclared(sortable, deparsed[i]);
      if !Supports(sortable, deparsed[i]) { break; }
      res := res + [deparsed[i]];
      i := i + 1;
    }
  }

  /** Every supported prefix of the list is a prefix of the longest one, which is therefore unique. */
  lemma SupportedPrefixIsShorter(sortable: map<string, SortOrder>, p: seq<SortGroup>, q: seq<SortGroup>,
                                 deparsed: seq<SortGroup>)
    requires IsLongestSupportedPrefix(sortable, p, deparsed)
    requires q <= deparsed && forall g :: g in q ==> Declared(sortable, g)
    ensures q <= p
  {
    forall k | 0 <= k < |q| ensures Declared(sortable, deparsed[k]) { assert q[k] in q; }
  }

  /** The entries of a list with a given attribute number, in order. */
  function WithAttnum(attnum: int, gs: seq<SortGroup>): seq<SortGroup> {
    if gs == [] then []
    else (if gs[0].attnum == attnum then [gs[0]] else []) + WithAttnum(attnum, gs[1..])
  }

  function Matched(prefix: seq<SortGroup>, deparsed: seq<SortGroup>): seq<SortGroup> {
    if prefix == [] then [] else WithAttnum(prefix[0].attnum, deparsed) + Matched(prefix[1..], deparsed)
  }

  function Keys(gs: seq<SortGroup>): (ks: seq<PathKey>)
    ensures |ks| == |gs| && forall i :: 0 <= i < |gs| ==> ks[i] == gs[i].key
  {
    seq(|gs|, i requires 0 <= i < |gs| => gs[i].key)
  }

  /** computeDeparsedSortGroup: both output lists grow in step through two nested loops. */
  method ComputeDeparsedSortGroup(sortable: map<string, SortOrder>, deparsed: seq<SortGroup>)
    returns (allPushed: bool, apply: seq<PathKey>, pushed: seq<SortGroup>, ghost prefix: seq<SortGroup>)
    ensures IsLongestSupportedPrefix(sortable, prefix, deparsed)
    ensures allPushed <==> prefix == deparsed
    ensures pushed == Matched(prefix, deparsed)
    ensures apply == Keys(pushed)
  {
    apply, pushed, prefix := [], [], [];
    if deparsed == [] { return true, apply, pushed, prefix; }
    var fields := CanSort(sortable, deparsed);
    prefix := fields;
    allPushed := |fields| == |deparsed|;
    if fields == [] { return false, apply, pushed, prefix; }
    apply, pushed := MatchFields(fields, deparsed);
  }

  /** Its outer loop, over the fields the plugin can sort. */
  method MatchFields(fields: seq<SortGroup>, deparsed: seq<SortGroup>)
    returns (apply: seq<PathKey>, pushed: seq<SortGroup>)
    ensures pushed == Matched(fields, deparsed)
    ensures apply == Keys(pushed)
  {
    apply, pushed := [], [];
    var i := 0;
    assert fields[0..] == fields;
    while i < |fields|
      invariant 0 <= i <= |fields|
      invariant pushed + Matched(fields[i..], deparsed) == Matched(fields, deparsed)
      invariant apply == Keys(pushed)
    {
      assert fields[i..][1..] == fields[i + 1..];
      ghost var before, here, rest := pushed, WithAttnum(fields[i].attnum, deparsed),
        Matched(fields[i + 1..], deparsed);
      assert (before + here) + rest == before + (here + rest);
      apply, pushed := MatchField(fields[i].attnum, deparsed, apply, pushed);
      i := i + 1;
    }
  }

  /** Its inner loop, over the wanted keys. */
  method MatchField(attnum: int, deparsed: seq<SortGroup>, apply0: seq<PathKey>, pushed0: seq<SortGroup>)
    returns (apply: seq<PathKey>, pushed: seq<SortGroup>)
    requires apply0 == Keys(pushed0)
    ensures pushed == pushed0 + WithAttnum(attnum, deparsed)
    ensures apply == Keys(pushed)
  {
    apply, pushed := apply0, pushed0;
    var j := 0;
    assert deparsed[0..] == deparsed;
    while j < |deparsed|
      invariant 0 <= j <= |deparsed|
      invariant pushed + WithAttnum(attnum, deparsed[j..]) == pushed0 + WithAttnum(attnum, deparsed)
      invariant apply == Keys(pushed)
    {
      assert deparsed[j..][1..] == deparsed[j + 1..];
      if attnum == deparsed[j].attnum {
        apply := apply + [deparsed[j].key];
        pushed := pushed + [deparsed[j]];
      }
      j := j + 1;
    }
  }

  lemma {:induction false} AttnumOccurs(g: SortGroup, gs: seq<SortGroup>)
    requires g in gs
    ensures |WithAttnum(g.attnum, gs)| >= 1
    ensures |WithAttnum(g.attnum, gs)| == 1 ==> WithAttnum(g.attnum, gs) == [g]
  {
    if gs[0].attnum == g.attnum {
      if gs[0] != g { AttnumOccurs(g, gs[1..]); }
    } else {
      AttnumOccurs(g, gs[1..]);
    }
  }

  lemma {:induction false} MatchedMembers(prefix: seq<SortGroup>, deparsed: seq<SortGroup>)
    ensures forall g :: g in Matched(prefix, deparsed) ==> g in deparsed
  {
    if prefix != [] {
      WithAttnumMembers(prefix[0].attnum, deparsed);
      MatchedMembers(prefix[1..], deparsed);
    }
  }

  lemma {:induction false} WithAttnumMembers(attnum: int, gs: seq<SortGroup>)
    ensures forall g :: g in WithAttnum(attnum, gs) ==> g in gs
  {
    if gs != [] { WithAttnumMembers(attnum, gs[1..]); }
  }

  predicate OccursOnce(g: SortGroup, gs: seq<SortGroup>) {
    |WithAttnum(g.attnum, gs)| == 1
  }

  lemma {:induction false} MatchedLength(prefix: seq<SortGroup>, deparsed: seq<SortGroup>)
    requires forall g :: g in prefix ==> g in deparsed
    ensures |Matched(prefix, deparsed)| >= |prefix|
    ensures |Matched(prefix, deparsed)| == |prefix| <==> forall g :: g in prefix ==> OccursOnce(g, deparsed)
    ensures |Matched(prefix, deparsed)| == |prefix| ==> Matched(prefix, deparsed) == prefix
  {
    if prefix != [] {
      var first, rest := prefix[0], prefix[1..];
      AttnumOccurs(first, deparsed);
      MatchedLength(rest, deparsed);
      assert forall g :: g in prefix <==> g == first || g in rest;
      if |Matched(prefix, deparsed)| == |prefix| {
        assert Matched(prefix, deparsed) == [first] + rest == prefix;
      }
    }
  }

  /** The pushed list is the longest supported prefix, in order, exactly when each of its attribute
      numbers occurs once in ORDER BY. A repeated column (the same one under two collations) is
      listed once for every pair. */
  lemma PushedIsPrefixExactlyWhen(sortable: map<string, SortOrder>, prefix: seq<SortGroup>, deparsed: seq<SortGroup>)
    requires IsLongestSupportedPrefix(sortable, prefix, deparsed)
    ensures Matched(prefix, deparsed) == prefix <==>
      forall g :: g in prefix ==> OccursOnce(g, deparsed)
  {
    forall g | g in prefix ensures g in deparsed {
      var i :| 0 <= i < |prefix| && prefix[i] == g;
      assert deparsed[i] == g;
    }
    MatchedLength(prefix, deparsed);
  }

  lemma {:induction false} DistinctOccursOnce(g: SortGroup, gs: seq<SortGroup>)
    requires g in gs
    requires forall i, j :: 0 <= i < j < |gs| ==> gs[i].attnum != gs[j].attnum
    ensures OccursOnce(g, gs)
  {
    if gs[0].attnum == g.attnum {
      NoOccurrence(g.attnum, gs[1..]);
    } else {
      DistinctOccursOnce(g, gs[1..]);
    }
  }

  lemma {:induction false} NoOccurrence(attnum: int, gs: seq<SortGroup>)
    requires forall g :: g in gs ==> g.attnum != attnum
    ensures WithAttnum(attnum, gs) == []
  {
    if gs != [] { NoOccurrence(attnum, gs[1..]); }
  }

  /** ORDER BY keys with distinct columns: what is pushed is exactly the longest supported prefix. */
  lemma DistinctKeysPushPrefix(sortable: map<string, SortOrder>, prefix: seq<SortGroup>, deparsed: seq<SortGroup>)
    requires IsLongestSupportedPrefix(sortable, prefix, deparsed)
    requires forall i, j :: 0 <= i < j < |deparsed| ==> deparsed[i].attnum != deparsed[j].attnum
    ensures Matched(prefix, deparsed) == prefix
  {
    PushedIsPrefixExactlyWhen(sortable, prefix, deparsed);
    forall g | g in prefix ensures OccursOnce(g, deparsed) {
      var i :| 0 <= i < |prefix| && prefix[i] == g;
      assert deparsed[i] == g;
      DistinctOccursOnce(g, deparsed);
    }
  }

  // ---------- the directions asked for ----------

  lemma {:induction false} WithAttnumExactly(attnum: int, gs: seq<SortGroup>, g: SortGroup)
    ensures g in WithAttnum(attnum, gs) <==> g in gs && g.attnum == attnum
  {
    if gs != [] {
      WithAttnumExactly(attnum, gs[1..], g);
      assert gs == [gs[0]] + gs[1..];
    }
  }

  /** Pushed are the keys whose attribute number occurs in the supported prefix. */
  lemma {:induction false} MatchedExactly(prefix: seq<SortGroup>, deparsed: seq<SortGroup>, g: SortGroup)
    ensures g in Matched(prefix, deparsed) <==> g in deparsed && exists p :: p in prefix && p.attnum == g.attnum
  {
    if prefix != [] {
      MatchedExactly(prefix[1..], deparsed, g);
      WithAttnumExactly(prefix[0].attnum, deparsed, g);
      assert prefix == [prefix[0]] + prefix[1..];
    }
  }

  /** The plugin is asked only for directions its table declares exactly when no column of the prefix occurs again
      with one that is not declared: the match looks at the attribute number alone. */
  lemma AskedDeclaredExactlyWhen(sortable: map<string, SortOrder>, prefix: seq<SortGroup>, deparsed: seq<SortGroup>)
    requires IsLongestSupportedPrefix(sortable, prefix, deparsed)
    ensures (forall g :: g in Matched(prefix, deparsed) ==> Declared(sortable, g)) <==>
      (forall p, g :: p in prefix && g in deparsed && p.attnum == g.attnum ==> Declared(sortable, g))
  {
    forall g
      ensures g in Matched(prefix, deparsed) <==> g in deparsed && exists p :: p in prefix && p.attnum == g.attnum
    {
      MatchedExactly(prefix, deparsed, g);
    }
  }

  /** A column declared ascending, sorted by under one collation and then descending under another: the plugin is
      asked for both. */
  lemma RepeatedColumnAsksUndeclared(g: SortGroup, h: SortGroup)
    requires g.attname == h.attname && g.attnum == h.attnum && !g.reversed && h.reversed
    ensures IsLongestSupportedPrefix(map[g.attname := Asc], [g], [g, h])
    ensures Matched([g], [g, h]) == [g, h] && !Declared(map[g.attname := Asc], h)
  {
    assert [g, h][1..] == [h] && [h][1..] == [] && [g][1..] == [];
    assert WithAttnum(g.attnum, [h]) == [h] + WithAttnum(g.attnum, []) == [h];
    assert WithAttnum(g.attnum, [g, h]) == [g] + [h] == [g, h];
    assert Matched([g], [g, h]) == [g, h] + Matched([], [g, h]);
  }

  /** What the path generation keeps of ORDER BY for execution (fdwGetForeignPaths). */
  datatype SortPlan = SortPlan(allPushed: bool, pushed: seq<SortGroup>)

  ghost predicate IsSortPlan(names: Names, relids: set<nat>, sortable: map<string, SortOrder>, keys: seq<PathKey>,
                             plan: SortPlan, deparsed: seq<SortGroup>, prefix: seq<SortGroup>) {
    && (AllPlain(names, relids, keys) ==>
         && |deparsed| == |keys|
         && forall i :: 0 <= i < |keys| ==> Some(deparsed[i]) == PlainColumn(names, relids, keys[i]))
    && (!AllPlain(names, relids, keys) ==> deparsed == [])
    && IsLongestSupportedPrefix(sortable, prefix, deparsed)
    && plan == SortPlan(prefix == deparsed, Matched(prefix, deparsed))
  }

  /** What becomes of ORDER BY, whichever columns the keys turn out to be. */
  ghost predicate SortPlanFor(names: Names, relids: set<nat>, sortable: map<string, SortOrder>, keys: seq<PathKey>,
                              plan: SortPlan) {
    exists deparsed, prefix :: IsSortPlan(names, relids, sortable, keys, plan, deparsed, prefix)
  }

  method PlanSort(names: Names, relids: set<nat>, sortable: map<string, SortOrder>, keys: seq<PathKey>)
    returns (plan: SortPlan)
    ensures SortPlanFor(names, relids, sortable, keys, plan)
  {
    plan := SortPlan(true, []);
    var deparsed: seq<SortGroup> := [];
    ghost var prefix: seq<SortGroup> := [];
    if keys != [] {
      deparsed := DeparseSortgroup(names, relids, keys);
      if deparsed != [] {
        var all, apply, pushed, p := ComputeDeparsedSortGroup(sortable, deparsed);
        plan := SortPlan(all, pushed);
        prefix := p;
      }
    }
    assert IsSortPlan(names, relids, sortable, keys, plan, deparsed, prefix);
  }

  /** A single key that is a column is pushed exactly when its direction is declared. */
  lemma OneKeyPlan(names: Names, relids: set<nat>, sortable: map<string, SortOrder>, key: PathKey, g: SortGroup,
                   plan: SortPlan)
    requires PlainColumn(names, relids, key) == Some(g) && SortPlanFor(names, relids, sortable, [key], plan)
    ensures plan == if Declared(sortable, g) then SortPlan(true, [g]) else SortPlan(false, [])
  {
    var deparsed: seq<SortGroup>, prefix: seq<SortGroup> :|
      IsSortPlan(names, relids, sortable, [key], plan, deparsed, prefix);
    assert deparsed == [g];
    assert [g][1..] == [] && WithAttnum(g.attnum, [g]) == [g];
    assert Matched([g], [g]) == [g] + [];
    if prefix != [] { assert prefix == [g] && g in prefix; }
  }

  /** A column declared Asc is pushed for ORDER BY c, and not for ORDER BY c DESC. */
  lemma AscendingOnly(names: Names, relids: set<nat>, key: PathKey, g: SortGroup, plan: SortPlan)
    requires PlainColumn(names, relids, key) == Some(g)
    requires SortPlanFor(names, relids, map[g.attname := Asc], [key], plan)
    ensures !key.reversed ==> plan == SortPlan(true, [g])
    ensures key.reversed ==> plan == SortPlan(false, [])
  {
    OneKeyPlan(names, relids, map[g.attname := Asc], key, g, plan);
    PlainColumnExactly(names, relids, key, g);
  }
}
