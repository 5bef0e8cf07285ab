/** exec.go: the table that turns the pointer Postgres keeps into the state of a scan. */
module ExecStates {
  import opened Wrappers

  const TOKENS: nat := 0x1_0000_0000

  /** What node.fdw_state points to: a 32-bit token. */
  type Handle = t: nat | t < TOKENS

  /** The global counter and the map it numbers. */
  datatype Table<S> = Table(si: nat, sess: map<nat, S>)

  function Saved<S>(t: Table<S>, s: S): Table<S> {
    Table(t.si + 1, t.sess[t.si + 1 := s])
  }

  function HandleOf(i: nat): Handle {
    i % TOKENS
  }

  function Cleared<S>(t: Table<S>, h: Option<Handle>): Table<S> {
    match h case None => t case Some(tok) => t.(sess := t.sess - {tok})
  }

  function Lookup<S>(t: Table<S>, h: Option<Handle>): Option<S> {
    match h case None => None case Some(tok) => if tok in t.sess then Some(t.sess[tok]) else None
  }

  class ExecStateTable<S> {
    var si: nat
    var sess: map<nat, S>

    ghost function Abs(): Table<S>
      reads this
    {
      Table(si, sess)
    }

    constructor ()
      ensures Abs() == Table(0, map[])
    {
      si, sess := 0, map[];
    }

    method SaveExecState(s: S) returns (h: Handle)
      modifies this
      ensures Abs() == Saved(old(Abs()), s) && h == HandleOf(si)
    {
      si := si + 1;
      sess := sess[si := s];
      h := si % TOKENS;
    }

    method ClearExecState(h: Option<Handle>)
      modifies this`sess
      ensures Abs() == Cleared(old(Abs()), h)
    {
      if h.None? { return; }
      sess := sess - {h.value};
    }

    method GetExecState(h: Option<Handle>) returns (s: Option<S>)
      ensures s == Lookup(Abs(), h)
    {
      if h.None? { return None; }
      s := if h.value in sess then Some(sess[h.value]) else None;
    }
  }

  /** Clearing takes away the entry of the token and nothing else; a state is found after that only if another is
      saved under the token, and clearing no handle changes nothing. */
  lemma ClearedIsGone<S>(t: Table<S>, h: Handle, g: Handle)
    ensures Lookup(Cleared(t, Some(h)), Some(g)) == if g == h then None else Lookup(t, Some(g))
    ensures Cleared(t, Some(h)).si == t.si && Cleared(t, None) == t && Lookup(t, None) == None
    ensures |Cleared(t, Some(h)).sess| == |t.sess| - if h in t.sess then 1 else 0
  {
    var left := Cleared(t, Some(h)).sess;
    assert left.Keys == t.sess.Keys - {h};
    assert |left| == |left.Keys| && |t.sess| == |t.sess.Keys|;
  }

  /** What is done to the table after a state was saved. */
  datatype Op<S> = Save(state: S) | Clear(handle: Option<Handle>)

  function AfterOne<S>(t: Table<S>, op: Op<S>): Table<S> {
    match op case Save(s) => Saved(t, s) case Clear(h) => Cleared(t, h)
  }

  function After<S>(t: Table<S>, ops: seq<Op<S>>): Table<S>
    decreases |ops|
  {
    if ops == [] then t else After(AfterOne(t, ops[0]), ops[1..])
  }

  /** Entries are numbered up to the counter. */
  ghost predicate Numbered<S>(t: Table<S>) {
    forall i :: i in t.sess ==> 1 <= i <= t.si
  }

  lemma {:induction false} AfterNumbered<S>(t: Table<S>, ops: seq<Op<S>>)
    requires Numbered(t)
    ensures Numbered(After(t, ops)) && After(t, ops).si >= t.si
    decreases |ops|
  {
    if ops != [] {
      AfterNumbered(AfterOne(t, ops[0]), ops[1..]);
    }
  }

  /** Entry i stays until its number is cleared. */
  lemma {:induction false} EntryKept<S>(t: Table<S>, ops: seq<Op<S>>, i: nat)
    requires i in t.sess && i <= t.si
    requires forall k :: 0 <= k < |ops| ==> ops[k] != Clear(Some(HandleOf(i)))
    requires i < TOKENS
    ensures i in After(t, ops).sess && After(t, ops).sess[i] == t.sess[i]
    decreases |ops|
  {
    if ops != [] {
      EntryKept(AfterOne(t, ops[0]), ops[1..], i);
    }
  }

  /** A handle that is not cleared finds the state it was saved with, whatever else is saved and
      cleared since, if fewer than 2^32 states had been saved. */
  lemma HandleFindsState<S>(t: Table<S>, s: S, ops: seq<Op<S>>)
    requires Numbered(t) && t.si + 1 < TOKENS
    requires forall k :: 0 <= k < |ops| ==> ops[k] != Clear(Some(HandleOf(t.si + 1)))
    ensures Lookup(After(Saved(t, s), ops), Some(HandleOf(t.si + 1))) == Some(s)
  {
    EntryKept(Saved(t, s), ops, t.si + 1);
  }

  /** Straight after saving: the handle finds the state exactly when the counter still fits the token,
      or the entry the truncated token names happens to hold the same state. */
  lemma HandleFindsStateExactlyWhen<S>(t: Table<S>, s: S)
    requires Numbered(t)
    ensures Lookup(Saved(t, s), Some(HandleOf(t.si + 1))) == Some(s) <==>
      t.si + 1 < TOKENS || ((t.si + 1) % TOKENS in t.sess && t.sess[(t.si + 1) % TOKENS] == s)
  {
  }
}
