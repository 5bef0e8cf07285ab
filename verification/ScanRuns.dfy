/** Building runs of the scan protocol: a reachable state and a step give a reachable state. */
module ScanRuns {
  import opened ScanProtocol

  lemma Longer(script: seq<Reply>, run: seq<State>, t: State)
    requires IsRun(script, run) && Step(run[|run| - 1], t)
    ensures IsRun(script, run + [t])
  {
    hide Step;
    var longer := run + [t];
    forall i | 0 < i < |longer| ensures Step(longer[i - 1], longer[i]) {
      if i < |run| { assert Step(run[i - 1], run[i]); }
    }
  }

  lemma Extend(script: seq<Reply>, s: State, a: Action)
    requires Reachable(script, s) && Enabled(s, a)
    ensures Reachable(script, Apply(s, a))
  {
    var run :| IsRun(script, run) && run[|run| - 1] == s;
    assert Step(s, Apply(s, a));
    hide Step, Apply, Enabled;
    Longer(script, run, Apply(s, a));
    assert (run + [Apply(s, a)])[|run|] == Apply(s, a);
  }

  /** The reader between two replies, the consumer between two calls. */
  ghost predicate Resting(script: seq<Reply>, s: State, i: nat) {
    && Reachable(script, s)
    && s.reader == Loop && s.slot == Idle && s.consumer == Between && !s.cancelled
    && |s.replies| == i
  }

  lemma BetweenReplies(script: seq<Reply>, s: State)
    requires Reachable(script, s) && s.slot == Idle
    ensures script == s.replies + s.stream
  {
    ReachableInv(script, s);
    hide Reachable, ReaderInv, StatusInv, TakenInv, Rows, Flow;
    assert s.replies + [] == s.replies;
  }

  lemma Split(a: seq<Reply>, b: seq<Reply>)
    ensures (a + b)[|a|..] == b && (a + b)[..|a|] == a
  {
  }

  lemma RestingStream(script: seq<Reply>, s: State, i: nat)
    requires Resting(script, s, i)
    ensures i <= |script| && s.stream == script[i..] && s.replies == script[..i]
  {
    hide Reachable;
    BetweenReplies(script, s);
    Split(s.replies, s.stream);
  }

  /** The reader takes one reply as far as its hand. */
  lemma ReceiveOne(script: seq<Reply>, s: State, i: nat) returns (t: State)
    requires Resting(script, s, i) && i < |script|
    ensures Reachable(script, t) && t == s.(slot := Holding(script[i]), reader := Select, stream := script[i + 1..])
  {
    RestingStream(script, s, i);
    Extend(script, s, DoSpawn);
    t := Apply(s, DoSpawn);
    Extend(script, t, DoReceive);
    t := Apply(t, DoReceive);
  }

  /** One whole turn of the reader over a data reply. */
  lemma ReadOne(script: seq<Reply>, s: State, i: nat) returns (t: State)
    requires Resting(script, s, i) && i < |script| && script[i].Data? && |s.chan| < ROW_BUFFER_SIZE
    ensures Resting(script, t, i + 1)
    ensures t.chan == s.chan + [script[i].row] && t.status == s.status && t.err == s.err && t.consumed == s.consumed
  {
    t := ReceiveOne(script, s, i);
    Extend(script, t, DoReply);
    t := Apply(t, DoReply);
    Extend(script, t, DoSend);
    t := Apply(t, DoSend);
  }

  /** The consumer takes the only row in the channel. */
  lemma TakeOne(script: seq<Reply>, s: State, i: nat) returns (t: State)
    requires Resting(script, s, i) && s.status == Started && |s.chan| == 1 && s.chan[0].Some?
    ensures Resting(script, t, i) && t.chan == []
    ensures s.chan[0].value.undecodable.None? ==> t.status == Started
    ensures s.chan[0].value.undecodable.Some? ==> t.err.Some?
  {
    t := Apply(s, DoNextBegin);
    Extend(script, s, DoNextBegin);
    Extend(script, t, DoNextTake);
    t := Apply(t, DoNextTake);
  }

  /** Reader and consumer in step over the first i rows. */
  lemma {:induction false} Drain(script: seq<Reply>, i: nat) returns (s: State)
    requires i <= |script|
    requires forall j :: 0 <= j < i ==> script[j].Data? && script[j].row.Some? && script[j].row.value.undecodable.None?
    ensures Resting(script, s, i) && s.status == Started && s.chan == []
  {
    if i == 0 {
      s := Init(script);
      assert IsRun(script, [s]);
      Extend(script, s, DoStart);
      s := Apply(s, DoStart);
      Extend(script, s, DoEntry);
      s := Apply(s, DoEntry);
    } else {
      s := Drain(script, i - 1);
      s := ReadOne(script, s, i - 1);
      s := TakeOne(script, s, i);
    }
  }

  /** The reader runs ahead, filling the channel. */
  lemma {:induction false} Fill(script: seq<Reply>, s: State, i: nat, m: nat) returns (t: State)
    requires Resting(script, s, i) && i <= m <= |script|
    requires |s.chan| + (m - i) <= ROW_BUFFER_SIZE
    requires forall j :: i <= j < m ==> script[j].Data?
    ensures Resting(script, t, m)
    ensures t.status == s.status && t.err == s.err && t.consumed == s.consumed
    ensures s.chan <= t.chan && |t.chan| == |s.chan| + (m - i)
    ensures forall j :: i <= j < m ==> t.chan[|s.chan| + (j - i)] == script[j].row
    decreases m - i
  {
    if i == m {
      t := s;
    } else {
      t := ReadOne(script, s, i);
      t := Fill(script, t, i + 1, m);
    }
  }
}
