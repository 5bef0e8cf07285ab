/** Go slices: a header over a backing array that other slices may share. */
module GoSlices {
  datatype Slice<T> = Slice(arr: array<T>, len: nat)

  ghost predicate Ok<T>(s: Slice<T>) {
    s.len <= s.arr.Length
  }

  function View<T>(s: Slice<T>): seq<T>
    requires Ok(s)
    reads s.arr
  {
    s.arr[..s.len]
  }

  /** Grown copies have whatever capacity the runtime likes; x only fills the spare room. */
  method Grown<T>(s: Slice<T>, x: T) returns (t: Slice<T>)
    requires Ok(s)
    ensures fresh(t.arr) && t.len == s.len && s.len < t.arr.Length && View(t) == View(s)
  {
    var a := new T[2 * s.len + 1](_ => x);
    var i := 0;
    while i < s.len
      invariant 0 <= i <= s.len
      invariant a[..i] == s.arr[..i]
    {
      a[i] := s.arr[i];
      i := i + 1;
    }
    t := Slice(a, s.len);
  }

  /** append: in place when the backing array has room, which every slice that shares it and is longer
      than s will see; into a fresh array otherwise. */
  method Append<T>(s: Slice<T>, x: T) returns (t: Slice<T>)
    requires Ok(s)
    modifies s.arr
    ensures Ok(t) && t.len == s.len + 1 && View(t) == old(View(s)) + [x]
    ensures if s.len < s.arr.Length then t.arr == s.arr else fresh(t.arr)
    ensures forall i :: 0 <= i < s.arr.Length && i != s.len ==> s.arr[i] == old(s.arr[i])
  {
    t := s;
    if s.len == s.arr.Length {
      t := Grown(s, x);
    }
    t.arr[s.len] := x;
    t := Slice(t.arr, s.len + 1);
  }

  method AppendAll<T>(s: Slice<T>, xs: seq<T>) returns (t: Slice<T>)
    requires Ok(s)
    modifies s.arr
    ensures Ok(t) && View(t) == old(View(s)) + xs
    ensures t.arr == s.arr || fresh(t.arr)
    ensures forall i :: 0 <= i < s.len ==> s.arr[i] == old(s.arr[i])
  {
    t := s;
    var k := 0;
    while k < |xs|
      invariant 0 <= k <= |xs|
      invariant Ok(t) && t.len == s.len + k
      invariant t.arr == s.arr || fresh(t.arr)
      invariant View(t) == old(View(s)) + xs[..k]
      invariant forall i :: 0 <= i < s.len ==> s.arr[i] == old(s.arr[i])
    {
      t := Append(t, xs[k]);
      k := k + 1;
    }
  }

  method Nil<T>() returns (t: Slice<T>)
    ensures Ok(t) && t.len == 0 && fresh(t.arr)
  {
    var a := new T[0];
    t := Slice(a, 0);
  }

  method Single<T>(x: T) returns (t: Slice<T>)
    ensures Ok(t) && fresh(t.arr) && View(t) == [x]
  {
    var a := new T[1](_ => x);
    t := Slice(a, 1);
  }

  /** The clash the comments in pathkeys.go avoid: appended to twice with room to spare, a slice gives
      two results of which the second overwrites the first. */
  method AppendTwiceClashes<T>(s: Slice<T>, x: T, y: T) returns (first: Slice<T>, second: Slice<T>)
    requires Ok(s) && s.len < s.arr.Length
    modifies s.arr
    ensures Ok(first) && Ok(second) && View(first) == View(second) == old(View(s)) + [y]
  {
    first := Append(s, x);
    second := Append(s, y);
  }
}
