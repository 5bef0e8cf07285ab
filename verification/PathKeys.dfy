/** types/pathkeys.go: the column sets offered to the planner as path keys. */
module PathKeys {
  import opened GoSlices
  import opened Wrappers

  const REQUIRED_KEY_COLUMN_BASE_COST := 1
  const OPTIONAL_KEY_COLUMN_BASE_COST := 100
  const KEY_COLUMN_ONLY_COST_MULTIPLIER := 2

  // anything else in the schema is none of the three
  datatype Require = Required | Optional | AnyOf | Unrecognised

  datatype KeyColumn = KeyColumn(name: string, require: Require)

  datatype PathKey = PathKey(columnNames: seq<string>, rows: nat)

  // ---------- what is built ----------

  function Names(keys: seq<KeyColumn>, r: Require): seq<string> {
    if keys == [] then []
    else
      var last := keys[|keys| - 1];
      Names(keys[..|keys| - 1], r) + if last.require == r then [last.name] else []
  }

  /** One path an any-of key, or one for the required keys alone. */
  function BasePaths(required: seq<string>, anyOf: seq<string>): seq<seq<string>> {
    if anyOf != [] then seq(|anyOf|, i requires 0 <= i < |anyOf| => [anyOf[i]] + required)
    else if required != [] then [required]
    else []
  }

  function WithOptional(base: seq<seq<string>>, o: string): seq<seq<string>> {
    if base == [] then [[o]] else seq(|base|, i requires 0 <= i < |base| => base[i] + [o])
  }

  function OptionalPaths(base: seq<seq<string>>, optional: seq<string>): seq<seq<string>> {
    if optional == [] then []
    else OptionalPaths(base, optional[..|optional| - 1]) + WithOptional(base, optional[|optional| - 1])
  }

  function Base(keys: seq<KeyColumn>): seq<seq<string>> {
    BasePaths(Names(keys, Required), Names(keys, AnyOf))
  }

  function ColumnPaths(keys: seq<KeyColumn>): seq<seq<string>> {
    Base(keys) + OptionalPaths(Base(keys), Names(keys, Optional))
  }

  function BaseCost(keys: seq<KeyColumn>): nat {
    if keys == [] then 0
    else if Base(keys) != [] then REQUIRED_KEY_COLUMN_BASE_COST else OPTIONAL_KEY_COLUMN_BASE_COST
  }

  // ---------- keyColumnsToColumnPath, over shared slices ----------

  ghost predicate Holds(s: Slice<Slice<string>>, i: nat, path: seq<string>)
    requires Ok(s) && i < s.len
    reads s.arr, s.arr[i].arr
  {
    Ok(s.arr[i]) && View(s.arr[i]) == path
  }

  /** A slice of slices holds these paths. */
  ghost predicate HoldsAll(s: Slice<Slice<string>>, paths: seq<seq<string>>)
    requires Ok(s)
    reads s.arr, set i | 0 <= i < s.len :: s.arr[i].arr
  {
    s.len == |paths| && forall i :: 0 <= i < s.len ==> Holds(s, i, paths[i])
  }

  method SplitByRequire(keys: seq<KeyColumn>)
    returns (required: Slice<string>, optional: Slice<string>, anyOf: Slice<string>)
    ensures Ok(required) && Ok(optional) && Ok(anyOf)
    ensures fresh(required.arr) && fresh(optional.arr) && fresh(anyOf.arr)
    ensures View(required) == Names(keys, Required)
    ensures View(optional) == Names(keys, Optional) && View(anyOf) == Names(keys, AnyOf)
  {
    required := Nil();
    optional := Nil();
    anyOf := Nil();
    var i := 0;
    while i < |keys|
      invariant 0 <= i <= |keys|
      invariant Ok(required) && Ok(optional) && Ok(anyOf)
      invariant fresh(required.arr) && fresh(optional.arr) && fresh(anyOf.arr)
      invariant required.arr != optional.arr && optional.arr != anyOf.arr && anyOf.arr != required.arr
      invariant View(required) == Names(keys[..i], Required)
      invariant View(optional) == Names(keys[..i], Optional)
      invariant View(anyOf) == Names(keys[..i], AnyOf)
    {
      var c := keys[i];
      assert keys[..i + 1][..i] == keys[..i];
      if c.require == Required {
        required := Append(required, c.name);
      } else if c.require == Optional {
        optional := Append(optional, c.name);
      } else if c.require == AnyOf {
        anyOf := Append(anyOf, c.name);
      }
      i := i + 1;
    }
    assert keys[..i] == keys;
  }

  /** The first loop: a path for each any-of key, in an array of its own. */
  method RequiredColumnPaths(required: Slice<string>, anyOf: Slice<string>) returns (paths: Slice<Slice<string>>)
    requires Ok(required) && Ok(anyOf)
    ensures Ok(paths) && fresh(paths.arr)
    ensures HoldsAll(paths, BasePaths(View(required), View(anyOf)))
  {
    paths := Nil();
    if anyOf.len > 0 {
      var i := 0;
      while i < anyOf.len
        invariant 0 <= i <= anyOf.len
        invariant Ok(paths) && fresh(paths.arr) && paths.len == i
        invariant forall j :: 0 <= j < i ==> Holds(paths, j, [anyOf.arr[j]] + View(required))
      {
        var columnPath := Single(anyOf.arr[i]);
        columnPath := AppendAll(columnPath, View(required));
        paths := Append(paths, columnPath);
        i := i + 1;
      }
    } else if required.len > 0 {
      paths := Append(paths, required);
    }
  }

  /** A copy of a required path with an optional key added: not an append to the path itself. */
  method CopyWith(requiredPath: Slice<string>, col: string) returns (p: Slice<string>)
    requires Ok(requiredPath)
    ensures Ok(p) && fresh(p.arr) && View(p) == View(requiredPath) + [col]
  {
    p := Nil();
    p := AppendAll(p, View(requiredPath));
    p := Append(p, col);
  }

  /** Appending a path keeps what a slice that may share the array, but is no longer, holds. */
  method AppendPath(paths: Slice<Slice<string>>, p: Slice<string>, shared: Slice<Slice<string>>,
                    ghost before: seq<seq<string>>, ghost base: seq<seq<string>>)
    returns (longer: Slice<Slice<string>>)
    requires Ok(paths) && Ok(p) && Ok(shared) && shared.len <= paths.len
    requires HoldsAll(paths, before) && HoldsAll(shared, base)
    modifies paths.arr
    ensures Ok(longer) && longer.len == paths.len + 1 && (longer.arr == paths.arr || fresh(longer.arr))
    ensures HoldsAll(longer, before + [View(p)]) && HoldsAll(shared, base)
  {
    longer := Append(paths, p);
    assert forall i :: 0 <= i < paths.len ==> longer.arr[i] == View(longer)[i] == old(View(paths)[i]);
  }

  /** The paths with one optional key. columnPaths starts out sharing its array with
      requiredColumnPaths, which is being read; appending writes only past the end of both. */
  method AddOptional(requiredColumnPaths: Slice<Slice<string>>, columnPaths: Slice<Slice<string>>, col: string,
                     ghost base: seq<seq<string>>, ghost before: seq<seq<string>>)
    returns (paths: Slice<Slice<string>>)
    requires Ok(requiredColumnPaths) && Ok(columnPaths) && requiredColumnPaths.len <= columnPaths.len
    requires HoldsAll(requiredColumnPaths, base) && HoldsAll(columnPaths, before)
    modifies columnPaths.arr
    ensures Ok(paths) && columnPaths.len <= paths.len && (paths.arr == columnPaths.arr || fresh(paths.arr))
    ensures HoldsAll(requiredColumnPaths, base)
    ensures HoldsAll(paths, before + WithOptional(base, col))
  {
    paths := columnPaths;
    if requiredColumnPaths.len > 0 {
      var j := 0;
      ghost var all := WithOptional(base, col);
      assert before + all[..0] == before;
      while j < requiredColumnPaths.len
        invariant 0 <= j <= requiredColumnPaths.len
        invariant Ok(paths) && columnPaths.len <= paths.len
        invariant paths.arr == columnPaths.arr || fresh(paths.arr)
        invariant HoldsAll(requiredColumnPaths, base)
        invariant HoldsAll(paths, before + all[..j])
      {
        assert Holds(requiredColumnPaths, j, base[j]);
        var p := CopyWith(requiredColumnPaths.arr[j], col);
        assert before + all[..j + 1] == (before + all[..j]) + [View(p)];
        paths := AppendPath(paths, p, requiredColumnPaths, before + all[..j], base);
        j := j + 1;
      }
      assert all[..j] == all;
    } else {
      var p := Single(col);
      paths := AppendPath(paths, p, requiredColumnPaths, before, base);
    }
  }

  method AddOptionals(requiredColumnPaths: Slice<Slice<string>>, optional: seq<string>, ghost base: seq<seq<string>>)
    returns (paths: Slice<Slice<string>>)
    requires Ok(requiredColumnPaths) && HoldsAll(requiredColumnPaths, base)
    modifies requiredColumnPaths.arr
    ensures Ok(paths) && (paths.arr == requiredColumnPaths.arr || fresh(paths.arr))
    ensures HoldsAll(paths, base + OptionalPaths(base, optional))
  {
    paths := requiredColumnPaths;
    var i := 0;
    assert base + OptionalPaths(base, optional[..0]) == base;
    while i < |optional|
      invariant 0 <= i <= |optional|
      invariant Ok(paths) && (paths.arr == requiredColumnPaths.arr || fresh(paths.arr))
      invariant requiredColumnPaths.len <= paths.len
      invariant HoldsAll(requiredColumnPaths, base)
      invariant HoldsAll(paths, base + OptionalPaths(base, optional[..i]))
    {
      assert optional[..i + 1][..i] == optional[..i];
      ghost var before := base + OptionalPaths(base, optional[..i]);
      assert base + OptionalPaths(base, optional[..i + 1]) == before + WithOptional(base, optional[i]);
      paths := AddOptional(requiredColumnPaths, paths, optional[i], base, before);
      i := i + 1;
    }
    assert optional[..i] == optional;
  }

  method KeyColumnsToColumnPath(keyColumns: seq<KeyColumn>) returns (paths: Slice<Slice<string>>, cost: nat)
    ensures Ok(paths) && fresh(paths.arr)
    ensures HoldsAll(paths, ColumnPaths(keyColumns)) && cost == BaseCost(keyColumns)
  {
    if |keyColumns| == 0 {
      paths := Nil();
      return paths, 0;
    }
    var required, optional, anyOf := SplitByRequire(keyColumns);
    var requiredColumnPaths := RequiredColumnPaths(required, anyOf);
    assert HoldsAll(requiredColumnPaths, Base(keyColumns));
    cost := if requiredColumnPaths.len > 0 then REQUIRED_KEY_COLUMN_BASE_COST else OPTIONAL_KEY_COLUMN_BASE_COST;
    paths := AddOptionals(requiredColumnPaths, View(optional), Base(keyColumns));
  }

  // ---------- removeKeyColumnsFromAllColumns ----------

  predicate IsKey(keys: seq<KeyColumn>, c: string) {
    exists i :: 0 <= i < |keys| && keys[i].name == c
  }

  function NotKeys(keys: seq<KeyColumn>, all: seq<string>): (r: seq<string>)
    ensures |r| <= |all|
  {
    if all == [] then []
    else
      var last := all[|all| - 1];
      NotKeys(keys, all[..|all| - 1]) + if IsKey(keys, last) then [] else [last]
  }

  /** How many table columns are key columns. */
  function KeyEntries(keys: seq<KeyColumn>, all: seq<string>): nat {
    |all| - |NotKeys(keys, all)|
  }

  /** Slots that are not filled stay as they were made. */
  function Remainder(keys: seq<KeyColumn>, all: seq<string>): seq<string>
    requires |keys| <= KeyEntries(keys, all)
  {
    NotKeys(keys, all) + seq(KeyEntries(keys, all) - |keys|, _ => "")
  }

  lemma {:induction false} NotKeysGrow(keys: seq<KeyColumn>, all: seq<string>, i: nat)
    requires i <= |all|
    ensures |NotKeys(keys, all[..i])| <= |NotKeys(keys, all)|
    decreases |all| - i
  {
    if i == |all| {
      assert all[..i] == all;
    } else {
      assert all[..i + 1][..i] == all[..i];
      NotKeysGrow(keys, all, i + 1);
    }
  }

  method KeyColumnArrayContainsColumn(keys: seq<KeyColumn>, c: string) returns (r: bool)
    ensures r == IsKey(keys, c)
  {
    var i := 0;
    while i < |keys|
      invariant 0 <= i <= |keys| && forall j :: 0 <= j < i ==> keys[j].name != c
    {
      if keys[i].name == c { return true; }
      i := i + 1;
    }
    return false;
  }

  /** The array is sized before it is filled. None is a panic: a negative size, or an index out of range. */
  method RemoveKeyColumnsFromAllColumns(keys: seq<KeyColumn>, all: seq<string>) returns (r: Option<array<string>>)
    ensures r.None? <==> KeyEntries(keys, all) < |keys|
    ensures r.Some? ==> fresh(r.value) && r.value[..] == Remainder(keys, all)
  {
    if |all| < |keys| { return None; }
    var rest := new string[|all| - |keys|](_ => "");
    var idx := 0;
    var i := 0;
    while i < |all|
      invariant 0 <= i <= |all| && idx == |NotKeys(keys, all[..i])| <= rest.Length
      invariant rest[..idx] == NotKeys(keys, all[..i])
      invariant forall k :: idx <= k < rest.Length ==> rest[k] == ""
    {
      assert all[..i + 1][..i] == all[..i];
      var isKey := KeyColumnArrayContainsColumn(keys, all[i]);
      if !isKey {
        if idx >= rest.Length {
          NotKeysGrow(keys, all, i + 1);
          return None;
        }
        rest[idx] := all[i];
        idx := idx + 1;
      }
      i := i + 1;
    }
    assert all[..i] == all;
    assert rest[..] == rest[..idx] + rest[idx..];
    r := Some(rest);
  }

  // ---------- columnPathsToPathKeys ----------

  /** A path with each other column. */
  function WithEach(path: seq<string>, rest: seq<string>, cost: nat): seq<PathKey> {
    if rest == [] then []
    else
      var c := rest[|rest| - 1];
      WithEach(path, rest[..|rest| - 1], cost) + if c in path then [] else [PathKey([c] + path, cost)]
  }

  function KeysOfPath(path: seq<string>, rest: seq<string>, cost: nat): seq<PathKey> {
    [PathKey(path, cost * KEY_COLUMN_ONLY_COST_MULTIPLIER)] + WithEach(path, rest, cost)
  }

  function KeysOfPaths(paths: seq<seq<string>>, rest: seq<string>, cost: nat): seq<PathKey> {
    if paths == [] then []
    else KeysOfPaths(paths[..|paths| - 1], rest, cost) + KeysOfPath(paths[|paths| - 1], rest, cost)
  }

  method ColumnPathsToPathKeys(columnPaths: Slice<Slice<string>>, rest: seq<string>, cost: nat,
                               ghost paths: seq<seq<string>>)
    returns (res: seq<PathKey>)
    requires Ok(columnPaths) && HoldsAll(columnPaths, paths)
    ensures res == KeysOfPaths(paths, rest, cost)
  {
    res := [];
    var i := 0;
    while i < columnPaths.len
      invariant 0 <= i <= columnPaths.len
      invariant HoldsAll(columnPaths, paths)
      invariant res == KeysOfPaths(paths[..i], rest, cost)
    {
      assert Holds(columnPaths, i, paths[i]);
      assert paths[..i + 1][..i] == paths[..i];
      var more := PathKeysWithEach(columnPaths.arr[i], rest, cost);
      res := res + more;
      i := i + 1;
    }
    assert paths[..i] == paths;
  }

  method PathKeysWithEach(s: Slice<string>, rest: seq<string>, cost: nat) returns (res: seq<PathKey>)
    requires Ok(s)
    ensures res == KeysOfPath(View(s), rest, cost)
  {
    res := [PathKey(View(s), cost * KEY_COLUMN_ONLY_COST_MULTIPLIER)];
    var j := 0;
    while j < |rest|
      invariant 0 <= j <= |rest|
      invariant res == KeysOfPath(View(s), rest[..j], cost)
    {
      assert rest[..j + 1][..j] == rest[..j];
      if rest[j] !in View(s) {
        var columnNames := Single(rest[j]);
        columnNames := AppendAll(columnNames, View(s));
        res := res + [PathKey(View(columnNames), cost)];
      }
      j := j + 1;
    }
    assert rest[..j] == rest;
  }

  /** None is the panic of the remainder. */
  method KeyColumnsToPathKeys(keys: seq<KeyColumn>, all: seq<string>) returns (r: Option<seq<PathKey>>)
    ensures r.None? <==> KeyEntries(keys, all) < |keys|
    ensures r.Some? ==> r.value == KeysOfPaths(ColumnPaths(keys), Remainder(keys, all), BaseCost(keys))
  {
    var columnPaths, baseCost := KeyColumnsToColumnPath(keys);
    var rest := RemoveKeyColumnsFromAllColumns(keys, all);
    if rest.None? { return None; }
    var res := ColumnPathsToPathKeys(columnPaths, rest.value[..], baseCost, ColumnPaths(keys));
    r := Some(res);
  }
}
