/** Which column sets the path keys are. */
module PathKeysMeaning {
  import opened PathKeys

  ghost predicate Distinct(s: seq<string>) {
    forall i, j :: 0 <= i < j < |s| ==> s[i] != s[j]
  }

  function Elements(s: seq<string>): set<string> {
    set x | x in s
  }

  function KeyNames(keys: seq<KeyColumn>): seq<string> {
    seq(|keys|, i requires 0 <= i < |keys| => keys[i].name)
  }

  lemma {:induction false} DistinctCount(s: seq<string>)
    ensures |Elements(s)| <= |s|
    ensures Distinct(s) <==> |Elements(s)| == |s|
  {
    if s == [] {
      assert Elements(s) == {};
    } else {
      var n := |s| - 1;
      DistinctCount(s[..n]);
      assert s == s[..n] + [s[n]];
      assert Elements(s) == Elements(s[..n]) + {s[n]};
      if s[n] in s[..n] {
        assert Elements(s) == Elements(s[..n]);
      }
      DistinctInit(s);
    }
  }

  // ---------- the remainder ----------

  lemma IsKeyOfNames(keys: seq<KeyColumn>, x: string)
    ensures IsKey(keys, x) <==> x in KeyNames(keys)
  {
    if IsKey(keys, x) {
      var i :| 0 <= i < |keys| && keys[i].name == x;
      assert KeyNames(keys)[i] == x;
    }
  }

  lemma {:induction false} NotKeysMember(keys: seq<KeyColumn>, all: seq<string>, x: string)
    ensures x in NotKeys(keys, all) <==> x in all && x !in KeyNames(keys)
  {
    if all != [] {
      var n := |all| - 1;
      NotKeysMember(keys, all[..n], x);
      IsKeyOfNames(keys, all[n]);
      assert all == all[..n] + [all[n]];
    }
  }

  lemma DistinctInit(s: seq<string>)
    requires s != []
    ensures Distinct(s) <==> Distinct(s[..|s| - 1]) && s[|s| - 1] !in s[..|s| - 1]
  {
    var n := |s| - 1;
    assert s == s[..n] + [s[n]];
    if Distinct(s) {
      forall i, j | 0 <= i < j < n ensures s[..n][i] != s[..n][j] { assert s[i] != s[j]; }
    }
    forall i | Distinct(s[..n]) && s[n] !in s[..n] && 0 <= i < n ensures s[i] != s[n] { assert s[i] in s[..n]; }
    forall i, j | Distinct(s[..n]) && 0 <= i < j < n ensures s[i] != s[j] { assert s[..n][i] != s[..n][j]; }
  }

  lemma {:induction false} NotKeysDistinct(keys: seq<KeyColumn>, all: seq<string>)
    requires Distinct(all)
    ensures Distinct(NotKeys(keys, all))
  {
    if all != [] {
      var n := |all| - 1;
      DistinctInit(all);
      NotKeysDistinct(keys, all[..n]);
      NotKeysMember(keys, all[..n], all[n]);
      if !IsKey(keys, all[n]) {
        assert NotKeys(keys, all)[..|NotKeys(keys, all)| - 1] == NotKeys(keys, all[..n]);
        DistinctInit(NotKeys(keys, all));
      }
    }
  }

  lemma NotKeysElements(keys: seq<KeyColumn>, all: seq<string>)
    ensures Elements(NotKeys(keys, all)) == Elements(all) - Elements(KeyNames(keys))
  {
    forall x ensures x in NotKeys(keys, all) <==> x in all && x !in KeyNames(keys) { NotKeysMember(keys, all, x); }
  }

  /** For a table with distinct columns: the array is never left part-filled, and it is not overrun exactly
      when the key columns are distinct columns of the table. */
  lemma PanicFreeExactlyWhen(keys: seq<KeyColumn>, all: seq<string>)
    requires Distinct(all)
    ensures KeyEntries(keys, all) <= |keys|
    ensures |keys| <= KeyEntries(keys, all) <==> Distinct(KeyNames(keys)) && Elements(KeyNames(keys)) <= Elements(all)
    ensures |keys| <= KeyEntries(keys, all) ==> Remainder(keys, all) == NotKeys(keys, all)
  {
    var names := Elements(KeyNames(keys));
    NotKeysElements(keys, all);
    NotKeysDistinct(keys, all);
    DistinctCount(all);
    DistinctCount(KeyNames(keys));
    DistinctCount(NotKeys(keys, all));
    assert Elements(all) == (Elements(all) - names) + Elements(all) * names;
    assert KeyEntries(keys, all) == |Elements(all) * names|;
    SubsetCount(Elements(all) * names, names);
    if |Elements(all) * names| == |names| { assert Elements(all) * names == names; }
    if names <= Elements(all) { assert Elements(all) * names == names; }
  }

  lemma SubsetCount(a: set<string>, b: set<string>)
    requires a <= b
    ensures |a| <= |b|
    ensures |a| == |b| ==> a == b
  {
    assert b == a + (b - a);
    if |a| == |b| { assert |b - a| == 0; }
  }

  // ---------- the column paths ----------

  /** A usable set of key columns: every required one, exactly one any-of when there are any, at most one
      optional, and nothing else. */
  ghost predicate IsKeySet(keys: seq<KeyColumn>, s: set<string>) {
    KeySet(Of(keys, Required), Of(keys, AnyOf), Of(keys, Optional), s)
  }

  ghost predicate KeySet(required: set<string>, anyOf: set<string>, optional: set<string>, s: set<string>) {
    && required <= s <= required + anyOf + optional
    && (anyOf != {} ==> |s * anyOf| == 1)
    && |s * optional| <= 1
    && s != {}
  }

  function Of(keys: seq<KeyColumn>, r: Require): set<string> {
    Elements(Names(keys, r))
  }

  lemma PlusOptional(required: set<string>, anyOf: set<string>, optional: set<string>, s: set<string>, o: string)
    requires o in optional && anyOf !! optional
    requires s * optional == {} && BaseSet(required, anyOf, s)
    ensures KeySet(required, anyOf, optional, s + {o})
  {
    assert (s + {o}) * anyOf == s * anyOf;
    assert (s + {o}) * optional == {o};
  }

  lemma {:induction false} NamesMember(keys: seq<KeyColumn>, r: Require, x: string)
    ensures x in Names(keys, r) <==> exists i :: 0 <= i < |keys| && keys[i] == KeyColumn(x, r)
  {
    if keys != [] {
      var n := |keys| - 1;
      NamesMember(keys[..n], r, x);
      assert keys == keys[..n] + [keys[n]];
      if x in Names(keys[..n], r) {
        var i :| 0 <= i < n && keys[..n][i] == KeyColumn(x, r);
        assert keys[i] == KeyColumn(x, r);
      }
    }
  }

  lemma UniqueName(keys: seq<KeyColumn>, i: nat, j: nat)
    requires Distinct(KeyNames(keys)) && i < |keys| && j < |keys| && keys[i].name == keys[j].name
    ensures i == j
  {
    assert KeyNames(keys)[i] == KeyNames(keys)[j];
  }

  /** Names belong to one kind only, and are not repeated. */
  lemma {:induction false} NamesDistinct(keys: seq<KeyColumn>, r: Require)
    requires Distinct(KeyNames(keys))
    ensures Distinct(Names(keys, r))
  {
    if keys != [] {
      var n := |keys| - 1;
      var names := KeyNames(keys);
      assert KeyNames(keys[..n]) == names[..n];
      DistinctInit(names);
      NamesDistinct(keys[..n], r);
      NamesMember(keys[..n], r, keys[n].name);
      if keys[n].require == r {
        if keys[n].name in Names(keys[..n], r) {
          var i :| 0 <= i < n && keys[..n][i] == KeyColumn(keys[n].name, r);
          UniqueName(keys, i, n);
        }
        assert Names(keys, r)[..|Names(keys, r)| - 1] == Names(keys[..n], r);
        DistinctInit(Names(keys, r));
      }
    }
  }

  lemma KindsDisjoint(keys: seq<KeyColumn>, r: Require, q: Require)
    requires Distinct(KeyNames(keys)) && r != q
    ensures Elements(Names(keys, r)) !! Elements(Names(keys, q))
  {
    forall x | x in Names(keys, r) && x in Names(keys, q) ensures false {
      NamesMember(keys, r, x);
      NamesMember(keys, q, x);
      var i :| 0 <= i < |keys| && keys[i] == KeyColumn(x, r);
      var j :| 0 <= j < |keys| && keys[j] == KeyColumn(x, q);
      UniqueName(keys, i, j);
    }
  }

  /** p is a base path, or nothing when there is none, with o added. */
  predicate AddsTo(base: seq<seq<string>>, p: seq<string>, o: string) {
    if base == [] then p == [o] else p != [] && p[|p| - 1] == o && p[..|p| - 1] in base
  }

  lemma WithOptionalMember(base: seq<seq<string>>, p: seq<string>, o: string)
    ensures p in WithOptional(base, o) <==> AddsTo(base, p, o)
  {
    var paths := WithOptional(base, o);
    if base != [] {
      if p in paths {
        var i :| 0 <= i < |base| && paths[i] == p;
        assert p[..|p| - 1] == base[i];
      }
      if AddsTo(base, p, o) {
        var i :| 0 <= i < |base| && base[i] == p[..|p| - 1];
        assert paths[i] == p;
      }
    }
  }

  /** Which paths there are with an optional column. */
  lemma {:induction false} OptionalPathsMember(base: seq<seq<string>>, optional: seq<string>, p: seq<string>)
    ensures p in OptionalPaths(base, optional) <==> exists o :: o in optional && AddsTo(base, p, o)
  {
    if optional != [] {
      var n := |optional| - 1;
      OptionalPathsMember(base, optional[..n], p);
      WithOptionalMember(base, p, optional[n]);
      assert optional == optional[..n] + [optional[n]];
      assert p in OptionalPaths(base, optional) <==>
        p in OptionalPaths(base, optional[..n]) || p in WithOptional(base, optional[n]);
    }
  }

  lemma OneMore(n: nat, w: nat)
    ensures (n + 1) * w == n * w + w
  {
  }

  function Width(base: seq<seq<string>>): nat {
    if base == [] then 1 else |base|
  }

  lemma {:induction false} OptionalPathsCount(base: seq<seq<string>>, optional: seq<string>)
    ensures |OptionalPaths(base, optional)| == |optional| * Width(base)
  {
    if optional != [] {
      var n := |optional| - 1;
      OptionalPathsCount(base, optional[..n]);
      assert |WithOptional(base, optional[n])| == Width(base);
      OneMore(n, Width(base));
    }
  }

  lemma BaseMember(keys: seq<KeyColumn>, p: seq<string>)
    ensures p in Base(keys) <==>
      if Names(keys, AnyOf) != [] then p != [] && p[0] in Names(keys, AnyOf) && p[1..] == Names(keys, Required)
      else p != [] && p == Names(keys, Required)
  {
    var anyOf, required := Names(keys, AnyOf), Names(keys, Required);
    if anyOf != [] {
      if p in Base(keys) {
        var i :| 0 <= i < |anyOf| && Base(keys)[i] == p;
        assert p[0] == anyOf[i];
      }
      if p != [] && p[0] in anyOf && p[1..] == required {
        var i :| 0 <= i < |anyOf| && anyOf[i] == p[0];
        assert p == [anyOf[i]] + required == Base(keys)[i];
      }
    }
  }

  lemma Disjointness(keys: seq<KeyColumn>)
    requires Distinct(KeyNames(keys))
    ensures Of(keys, Required) !! Of(keys, AnyOf) && Of(keys, Required) !! Of(keys, Optional)
    ensures Of(keys, AnyOf) !! Of(keys, Optional)
  {
    KindsDisjoint(keys, Required, AnyOf);
    KindsDisjoint(keys, Required, Optional);
    KindsDisjoint(keys, AnyOf, Optional);
  }

  /** Every required column and one any-of column, if any. */
  ghost predicate BaseSet(required: set<string>, anyOf: set<string>, s: set<string>) {
    required <= s <= required + anyOf && (anyOf != {} ==> |s * anyOf| == 1)
  }

  lemma BasePathSet(keys: seq<KeyColumn>, p: seq<string>)
    requires Distinct(KeyNames(keys)) && p in Base(keys)
    ensures BaseSet(Of(keys, Required), Of(keys, AnyOf), Elements(p)) && p != []
  {
    BaseMember(keys, p);
    KindsDisjoint(keys, Required, AnyOf);
    var required, anyOf := Of(keys, Required), Of(keys, AnyOf);
    if Names(keys, AnyOf) != [] {
      assert p == [p[0]] + p[1..];
      assert Elements(p) == {p[0]} + required;
      assert Elements(p) * anyOf == {p[0]};
    } else {
      assert anyOf == {};
    }
  }

  lemma NoBase(keys: seq<KeyColumn>)
    requires Base(keys) == []
    ensures Of(keys, Required) == {} && Of(keys, AnyOf) == {}
  {
    assert Names(keys, AnyOf) == [] && Names(keys, Required) == [];
  }

  lemma BaseSetIsKeySet(required: set<string>, anyOf: set<string>, optional: set<string>, s: set<string>)
    requires BaseSet(required, anyOf, s) && required !! optional && anyOf !! optional
    ensures s * optional == {}
    ensures s != {} ==> KeySet(required, anyOf, optional, s)
  {
  }

  lemma BasePathIsKeySet(keys: seq<KeyColumn>, p: seq<string>)
    requires Distinct(KeyNames(keys)) && p in Base(keys)
    ensures IsKeySet(keys, Elements(p))
  {
    Disjointness(keys);
    BasePathSet(keys, p);
    assert p[0] in Elements(p);
    BaseSetIsKeySet(Of(keys, Required), Of(keys, AnyOf), Of(keys, Optional), Elements(p));
  }

  lemma OptionalPathIsKeySet(keys: seq<KeyColumn>, p: seq<string>, o: string)
    requires Distinct(KeyNames(keys)) && o in Of(keys, Optional) && AddsTo(Base(keys), p, o)
    ensures IsKeySet(keys, Elements(p))
  {
    hide Of, KeySet, Base, Elements;
    var b := p[..|p| - 1];
    ElementsInit(p);
    Disjointness(keys);
    if Base(keys) == [] {
      NoBase(keys);
      ElementsOfNone();
      assert b == [];
    } else {
      BasePathSet(keys, b);
    }
    BaseSetIsKeySet(Of(keys, Required), Of(keys, AnyOf), Of(keys, Optional), Elements(b));
    PlusOptional(Of(keys, Required), Of(keys, AnyOf), Of(keys, Optional), Elements(b), o);
  }

  lemma ElementsInit(p: seq<string>)
    requires p != []
    ensures Elements(p) == Elements(p[..|p| - 1]) + {p[|p| - 1]}
  {
    assert p == p[..|p| - 1] + [p[|p| - 1]];
  }

  lemma ElementsOfNone()
    ensures Elements([]) == {}
  {
  }

  lemma PathIsKeySet(keys: seq<KeyColumn>, p: seq<string>)
    requires Distinct(KeyNames(keys)) && p in ColumnPaths(keys)
    ensures IsKeySet(keys, Elements(p))
  {
    if p in Base(keys) {
      BasePathIsKeySet(keys, p);
    } else {
      OptionalPathsMember(Base(keys), Names(keys, Optional), p);
      var o :| o in Names(keys, Optional) && AddsTo(Base(keys), p, o);
      OptionalPathIsKeySet(keys, p, o);
    }
  }

  lemma SingletonOf(s: set<string>) returns (x: string)
    requires |s| == 1
    ensures s == {x}
  {
    x :| x in s;
    assert |s - {x}| == 0;
  }

  /** The base path with this any-of key. */
  lemma BasePathFor(keys: seq<KeyColumn>, s: set<string>) returns (b: seq<string>)
    requires Distinct(KeyNames(keys)) && IsKeySet(keys, s)
    ensures Elements(b) == Of(keys, Required) + s * Of(keys, AnyOf)
    ensures b in Base(keys) || (b == [] && Base(keys) == [])
  {
    b := Names(keys, Required);
    if Names(keys, AnyOf) != [] {
      assert Names(keys, AnyOf)[0] in Of(keys, AnyOf);
      var a := SingletonOf(s * Of(keys, AnyOf));
      assert a in s * Of(keys, AnyOf);
      b := [a] + b;
      assert b[1..] == Names(keys, Required);
      assert Elements(b) == Of(keys, Required) + {a};
    } else {
      assert Of(keys, AnyOf) == {};
    }
    BaseMember(keys, b);
  }

  lemma KeySetHasPath(keys: seq<KeyColumn>, s: set<string>) returns (p: seq<string>)
    requires Distinct(KeyNames(keys)) && IsKeySet(keys, s)
    ensures p in ColumnPaths(keys) && Elements(p) == s
  {
    var optional := Of(keys, Optional);
    var b := BasePathFor(keys, s);
    assert s == Elements(b) + s * optional;
    if s * optional == {} {
      assert Elements(b) == s && b != [];
      p := b;
    } else {
      assert |s * optional| == 1 by { SubsetCount({}, s * optional); }
      var o := SingletonOf(s * optional);
      p := b + [o];
      assert o in s * optional && Elements(p) == s;
      hide Elements, IsKeySet;
      WithOptionalKey(keys, b, o);
    }
  }

  lemma WithOptionalKey(keys: seq<KeyColumn>, b: seq<string>, o: string)
    requires o in Of(keys, Optional) && if Base(keys) == [] then b == [] else b in Base(keys)
    ensures b + [o] in ColumnPaths(keys)
  {
    var p := b + [o];
    assert p[..|p| - 1] == b && p[|p| - 1] == o;
    assert AddsTo(Base(keys), p, o);
    OptionalPathsMember(Base(keys), Names(keys, Optional), p);
  }

  /** The paths are the usable sets of key columns: each is one, and there is one for each. */
  lemma PathsAreTheKeySets(keys: seq<KeyColumn>, s: set<string>)
    requires Distinct(KeyNames(keys))
    ensures IsKeySet(keys, s) <==> exists p :: p in ColumnPaths(keys) && Elements(p) == s
  {
    if IsKeySet(keys, s) {
      var p := KeySetHasPath(keys, s);
    }
    if p :| p in ColumnPaths(keys) && Elements(p) == s {
      PathIsKeySet(keys, p);
    }
  }

  /** Cheap exactly when some key column must be given. */
  lemma CheapExactlyWhen(keys: seq<KeyColumn>)
    ensures BaseCost(keys) == REQUIRED_KEY_COLUMN_BASE_COST <==>
      exists i :: 0 <= i < |keys| && (keys[i].require == Required || keys[i].require == AnyOf)
    ensures BaseCost(keys) == 0 <==> keys == []
  {
    var required, anyOf := Names(keys, Required), Names(keys, AnyOf);
    assert Base(keys) != [] <==> required != [] || anyOf != [];
    if i :| 0 <= i < |keys| && (keys[i].require == Required || keys[i].require == AnyOf) {
      NamesMember(keys, keys[i].require, keys[i].name);
    }
    if required != [] { NamesMember(keys, Required, required[0]); }
    if anyOf != [] { NamesMember(keys, AnyOf, anyOf[0]); }
  }

  // ---------- no set of columns is offered twice ----------

  ghost predicate Differ(paths: seq<seq<string>>) {
    forall i, j :: 0 <= i < j < |paths| ==> Elements(paths[i]) != Elements(paths[j])
  }

  ghost predicate Without(paths: seq<seq<string>>, o: string) {
    forall i :: 0 <= i < |paths| ==> o !in paths[i]
  }

  ghost predicate With(paths: seq<seq<string>>, o: string) {
    forall i :: 0 <= i < |paths| ==> o in paths[i]
  }

  lemma DifferConcat(a: seq<seq<string>>, b: seq<seq<string>>, o: string)
    requires Differ(a) && Differ(b) && Without(a, o) && With(b, o)
    ensures Differ(a + b)
  {
    var all := a + b;
    forall i, j | 0 <= i < j < |all| ensures Elements(all[i]) != Elements(all[j]) {
      if i < |a| <= j {
        assert o in b[j - |a|] && o !in a[i];
        assert o in Elements(all[j]) && o !in Elements(all[i]);
      } else if i >= |a| {
        assert all[i] == b[i - |a|] && all[j] == b[j - |a|];
      }
    }
  }

  lemma WithOptionalDiffer(base: seq<seq<string>>, o: string)
    requires Differ(base) && Without(base, o)
    ensures Differ(WithOptional(base, o)) && With(WithOptional(base, o), o)
  {
    var paths := WithOptional(base, o);
    forall i, j | 0 <= i < j < |paths| ensures Elements(paths[i]) != Elements(paths[j]) {
      ElementsInit(paths[i]);
      ElementsInit(paths[j]);
      assert paths[i][..|paths[i]| - 1] == base[i] && paths[j][..|paths[j]| - 1] == base[j];
      assert Elements(paths[i]) - {o} == Elements(base[i]) && Elements(paths[j]) - {o} == Elements(base[j]);
    }
    forall i | 0 <= i < |paths| ensures o in paths[i] {
      assert paths[i][|paths[i]| - 1] == o;
    }
  }

  lemma {:induction false} OptionalPathsWithout(base: seq<seq<string>>, optional: seq<string>, o: string)
    requires Without(base, o) && o !in optional
    ensures Without(OptionalPaths(base, optional), o)
  {
    if optional != [] {
      var n := |optional| - 1;
      OptionalPathsWithout(base, optional[..n], o);
      var paths := WithOptional(base, optional[n]);
      forall i | 0 <= i < |paths| ensures o !in paths[i] {
        if base != [] { assert paths[i] == base[i] + [optional[n]]; }
      }
    }
  }

  lemma {:induction false} OptionalPathsDiffer(base: seq<seq<string>>, optional: seq<string>)
    requires Differ(base) && Distinct(optional) && forall o :: o in optional ==> Without(base, o)
    ensures Differ(base + OptionalPaths(base, optional))
  {
    if optional == [] {
      assert base + OptionalPaths(base, optional) == base;
    } else {
      var n := |optional| - 1;
      var o, before := optional[n], base + OptionalPaths(base, optional[..n]);
      assert base + OptionalPaths(base, optional) == before + WithOptional(base, o);
      hide Distinct, Differ, Without, WithOptional, OptionalPaths;
      DistinctInit(optional);
      OptionalPathsDiffer(base, optional[..n]);
      OptionalPathsWithout(base, optional[..n], o);
      WithOptionalDiffer(base, o);
      DifferConcat(before, WithOptional(base, o), o);
    }
  }

  lemma BaseDiffers(keys: seq<KeyColumn>)
    requires Distinct(KeyNames(keys))
    ensures Differ(Base(keys))
  {
    var anyOf, required, base := Names(keys, AnyOf), Names(keys, Required), Base(keys);
    NamesDistinct(keys, AnyOf);
    KindsDisjoint(keys, AnyOf, Required);
    forall i, j | 0 <= i < j < |base| ensures Elements(base[i]) != Elements(base[j]) {
      assert anyOf[i] in Elements(anyOf) && anyOf[i] !in required;
      assert base[i][0] == anyOf[i] && anyOf[i] in Elements(base[i]);
      assert anyOf[i] !in base[j] by { assert base[j] == [anyOf[j]] + required; }
    }
  }

  /** Different paths are different sets of columns, and how many there are. */
  lemma PathsDiffer(keys: seq<KeyColumn>)
    requires Distinct(KeyNames(keys))
    ensures Differ(ColumnPaths(keys))
    ensures |ColumnPaths(keys)| == |Base(keys)| + |Names(keys, Optional)| * Width(Base(keys))
  {
    BaseDiffers(keys);
    NamesDistinct(keys, Optional);
    OptionalPathsCount(Base(keys), Names(keys, Optional));
    forall o | o in Names(keys, Optional) ensures Without(Base(keys), o) {
      assert o in Of(keys, Optional);
      forall i | 0 <= i < |Base(keys)| ensures o !in Base(keys)[i] {
        BasePathSet(keys, Base(keys)[i]);
        Disjointness(keys);
        assert o !in Elements(Base(keys)[i]);
      }
    }
    OptionalPathsDiffer(Base(keys), Names(keys, Optional));
  }

  // ---------- the path keys ----------

  lemma {:induction false} WithEachMember(path: seq<string>, rest: seq<string>, cost: nat, k: PathKey)
    ensures k in WithEach(path, rest, cost) <==>
      && k.rows == cost && k.columnNames != [] && k.columnNames[1..] == path
      && k.columnNames[0] in rest && k.columnNames[0] !in path
  {
    if rest != [] {
      var n := |rest| - 1;
      WithEachMember(path, rest[..n], cost, k);
      assert rest == rest[..n] + [rest[n]];
      if k.columnNames != [] && k.columnNames[1..] == path {
        assert k.columnNames == [k.columnNames[0]] + path;
      }
    }
  }

  lemma {:induction false} WithEachCount(path: seq<string>, rest: seq<string>, cost: nat)
    requires forall c :: c in rest ==> c !in path
    ensures |WithEach(path, rest, cost)| == |rest|
  {
    if rest != [] {
      assert rest == rest[..|rest| - 1] + [rest[|rest| - 1]];
      WithEachCount(path, rest[..|rest| - 1], cost);
    }
  }

  lemma {:induction false} KeysOfPathsMember(paths: seq<seq<string>>, rest: seq<string>, cost: nat, k: PathKey)
    ensures k in KeysOfPaths(paths, rest, cost) <==> exists p :: p in paths && k in KeysOfPath(p, rest, cost)
  {
    if paths != [] {
      var n := |paths| - 1;
      KeysOfPathsMember(paths[..n], rest, cost, k);
      assert paths == paths[..n] + [paths[n]];
    }
  }

  lemma {:induction false} KeysOfPathsCount(paths: seq<seq<string>>, rest: seq<string>, cost: nat)
    requires forall p, c :: p in paths && c in rest ==> c !in p
    ensures |KeysOfPaths(paths, rest, cost)| == |paths| * (1 + |rest|)
  {
    if paths != [] {
      var n := |paths| - 1;
      assert paths == paths[..n] + [paths[n]];
      hide WithEach;
      KeysOfPathsCount(paths[..n], rest, cost);
      assert paths[n] in paths;
      WithEachCount(paths[n], rest, cost);
      OneMore(n, 1 + |rest|);
    }
  }

  function PathKeysOf(keys: seq<KeyColumn>, all: seq<string>): seq<PathKey>
    requires |keys| <= KeyEntries(keys, all)
  {
    KeysOfPaths(ColumnPaths(keys), Remainder(keys, all), BaseCost(keys))
  }

  /** A path on its own, at twice the base cost, or with one other column of the table, at the base cost. */
  predicate IsPathKey(keys: seq<KeyColumn>, all: seq<string>, k: PathKey) {
    || (k.columnNames in ColumnPaths(keys) && k.rows == 2 * BaseCost(keys))
    || (k.columnNames != [] && k.columnNames[1..] in ColumnPaths(keys) && k.rows == BaseCost(keys)
        && k.columnNames[0] in all && k.columnNames[0] !in KeyNames(keys))
  }

  lemma PathsAreKeys(keys: seq<KeyColumn>, p: seq<string>, c: string)
    requires Distinct(KeyNames(keys)) && p in ColumnPaths(keys) && c in p
    ensures c in KeyNames(keys)
  {
    PathIsKeySet(keys, p);
    assert c in Elements(p);
    var r := if c in Names(keys, Required) then Required else if c in Names(keys, AnyOf) then AnyOf else Optional;
    NamesMember(keys, r, c);
    var i :| 0 <= i < |keys| && keys[i] == KeyColumn(c, r);
    assert KeyNames(keys)[i] == c;
  }

  /** What the planner is offered. */
  lemma PathKeysExactly(keys: seq<KeyColumn>, all: seq<string>, k: PathKey)
    requires |keys| == KeyEntries(keys, all)
    requires forall p, c :: p in ColumnPaths(keys) && c in p ==> c in KeyNames(keys)
    ensures k in PathKeysOf(keys, all) <==> IsPathKey(keys, all, k)
  {
    hide ColumnPaths, NotKeys, KeyNames, KeysOfPaths;
    var paths, rest, cost := ColumnPaths(keys), NotKeys(keys, all), BaseCost(keys);
    assert Remainder(keys, all) == rest;
    KeysOfPathsMember(paths, rest, cost, k);
    if p :| p in paths && k in KeysOfPath(p, rest, cost) {
      WithEachMember(p, rest, cost, k);
      if k != PathKey(p, 2 * cost) { NotKeysMember(keys, all, k.columnNames[0]); }
    }
    if IsPathKey(keys, all, k) {
      PathKeyHasPath(keys, all, k);
    }
  }

  lemma PathKeyHasPath(keys: seq<KeyColumn>, all: seq<string>, k: PathKey)
    requires forall p, c :: p in ColumnPaths(keys) && c in p ==> c in KeyNames(keys)
    requires IsPathKey(keys, all, k)
    ensures exists p :: p in ColumnPaths(keys) && k in KeysOfPath(p, NotKeys(keys, all), BaseCost(keys))
  {
    hide ColumnPaths, NotKeys, KeyNames;
    var rest, cost := NotKeys(keys, all), BaseCost(keys);
    if k.columnNames in ColumnPaths(keys) && k.rows == 2 * cost {
      assert k in KeysOfPath(k.columnNames, rest, cost);
    } else {
      var p := k.columnNames[1..];
      NotKeysMember(keys, all, k.columnNames[0]);
      WithEachMember(p, rest, cost, k);
      assert k in KeysOfPath(p, rest, cost);
    }
  }

  /** For distinct key columns among the distinct columns of a table: exactly these path keys, so many. */
  lemma PathKeysOfTable(keys: seq<KeyColumn>, all: seq<string>, k: PathKey)
    requires Distinct(all) && Distinct(KeyNames(keys)) && Elements(KeyNames(keys)) <= Elements(all)
    ensures |keys| == KeyEntries(keys, all)
    ensures k in PathKeysOf(keys, all) <==> IsPathKey(keys, all, k)
    ensures |PathKeysOf(keys, all)| == |ColumnPaths(keys)| * (1 + |all| - |keys|)
  {
    PanicFreeExactlyWhen(keys, all);
    hide ColumnPaths, NotKeys, IsPathKey;
    var paths, rest, cost := ColumnPaths(keys), NotKeys(keys, all), BaseCost(keys);
    forall p, c | p in paths && c in p ensures c in KeyNames(keys) { PathsAreKeys(keys, p, c); }
    forall p, c | p in paths && c in rest ensures c !in p { NotKeysMember(keys, all, c); }
    KeysOfPathsCount(paths, rest, cost);
    PathKeysExactly(keys, all, k);
  }

  lemma BaseCovers(keys: seq<KeyColumn>, b: seq<string>)
    requires b in Base(keys)
    ensures forall c :: c in Names(keys, Required) ==> c in b
    ensures Names(keys, AnyOf) != [] ==> b != [] && b[0] in Names(keys, AnyOf)
  {
    hide Base, Names;
    BaseMember(keys, b);
    if Names(keys, AnyOf) != [] { assert b == [b[0]] + b[1..]; }
  }

  lemma PathCovers(keys: seq<KeyColumn>, p: seq<string>)
    requires p in ColumnPaths(keys)
    ensures forall c :: c in Names(keys, Required) ==> c in p
    ensures Names(keys, AnyOf) != [] ==> p != [] && p[0] in Names(keys, AnyOf)
  {
    if p in Base(keys) {
      BaseCovers(keys, p);
    } else {
      hide Names;
      OptionalPathsMember(Base(keys), Names(keys, Optional), p);
      var o :| o in Names(keys, Optional) && AddsTo(Base(keys), p, o);
      if Base(keys) == [] {
        assert Names(keys, AnyOf) == [] && Names(keys, Required) == [];
      } else {
        BaseCovers(keys, p[..|p| - 1]);
      }
    }
  }

  /** Whatever the key columns, a path key names every required one, and an any-of one if there are any. */
  lemma {:induction false} PathKeyCovers(keys: seq<KeyColumn>, all: seq<string>, k: PathKey)
    requires |keys| <= KeyEntries(keys, all) && k in PathKeysOf(keys, all)
    ensures forall c :: c in Names(keys, Required) ==> c in k.columnNames
    ensures Names(keys, AnyOf) != [] ==> exists c :: c in Names(keys, AnyOf) && c in k.columnNames
  {
    hide ColumnPaths, Names;
    var paths, rest, cost := ColumnPaths(keys), Remainder(keys, all), BaseCost(keys);
    KeysOfPathsMember(paths, rest, cost, k);
    var p :| p in paths && k in KeysOfPath(p, rest, cost);
    WithEachMember(p, rest, cost, k);
    assert k.columnNames == p || k.columnNames == [k.columnNames[0]] + p;
    PathCovers(keys, p);
    if Names(keys, AnyOf) != [] { assert p[0] in k.columnNames; }
  }
}
