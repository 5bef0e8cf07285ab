/** How a scan ends: exactly when it can end early, and exactly when a row can follow its end. */
module ScanEnds {
  import opened Wrappers
  import opened ScanProtocol
  import opened ScanRuns

  /** The first k replies are rows that decode. */
  ghost predicate Decodable(script: seq<Reply>, k: nat) {
    && k <= |script|
    && forall i :: 0 <= i < k ==> script[i].Data? && script[i].row.Some? && script[i].row.value.undecodable.None?
  }

  lemma {:induction false} RowsAreReplies(script: seq<Reply>, i: nat)
    requires i < |Rows(script)|
    ensures i < |script| && script[i] == Data(Rows(script)[i])
  {
    if i > 0 { RowsAreReplies(script[1..], i - 1); }
  }

  lemma ReturnedDecode(script: seq<Reply>, s: State)
    requires Reachable(script, s)
    ensures Decodable(script, |s.returned|)
    ensures forall i :: 0 <= i < |s.returned| ==> script[i] == Data(Some(s.returned[i]))
  {
    DeliveryIsPrefix(script, s);
    forall i | 0 <= i < |s.returned|
      ensures i < |script| && script[i] == Data(Some(s.returned[i])) && s.returned[i].undecodable.None?
    {
      RowsAreReplies(script, i);
      assert s.received[i] == Rows(script)[i];
    }
    if |s.returned| > 0 { RowsAreReplies(script, |s.returned| - 1); }
  }

  // ---------- the end ----------

  /** A call of Next returns (nil, nil) with rows of the stream still due. */
  ghost predicate EndsEarly(script: seq<Reply>, s: State, a: Action) {
    ScanProtocol.Returns(s, a) && OutcomeOf(s, a) == Some(Done) && |s.returned| < |Rows(script)|
  }

  /** A response without a row, after nothing but rows that decode. */
  ghost predicate RowlessAt(script: seq<Reply>, k: nat) {
    Decodable(script, k) && k < |script| && script[k] == Data(None)
  }

  /** Over all interleavings: a scan can end with (nil, nil) before its stream does exactly when the stream
      holds a response without a row, preceded by rows that decode. */
  lemma EndsEarlyExactlyWhen(script: seq<Reply>)
    ensures (exists s, a :: Reachable(script, s) && EndsEarly(script, s, a)) <==>
      (exists k: nat :: RowlessAt(script, k))
  {
    if s, a :| Reachable(script, s) && EndsEarly(script, s, a) {
      NilMeansOver(script, s, a);
      ReturnedDecode(script, s);
      RowsAreReplies(script, |s.returned|);
      assert RowlessAt(script, |s.returned|);
    }
    if k: nat :| RowlessAt(script, k) {
      var s := EarlyEndRun(script, k);
    }
  }

  lemma EarlyEndRun(script: seq<Reply>, k: nat) returns (s: State)
    requires RowlessAt(script, k)
    ensures Reachable(script, s) && EndsEarly(script, s, DoNextTake)
  {
    s := Drain(script, k);
    s := ReadOne(script, s, k);
    assert Reachable(script, s) && s.consumer == Between && s.status == Started && s.chan == [None];
    RowlessIsDue(script, s, k);
    hide Rows, Reachable, RowlessAt, Decodable, EndsEarly, Resting, Returns;
    s := BeginNext(script, s);
    RowlessEnds(script, s);
  }

  lemma RowlessEnds(script: seq<Reply>, s: State)
    requires s.consumer == Taking && s.chan == [None] && s.status == Started && |s.returned| < |Rows(script)|
    ensures EndsEarly(script, s, DoNextTake)
  {
    hide Rows;
  }

  lemma BeginNext(script: seq<Reply>, s: State) returns (t: State)
    requires Reachable(script, s) && s.consumer == Between && s.status == Started
    ensures Reachable(script, t) && t == s.(consumer := Taking, last := None)
  {
    Extend(script, s, DoNextBegin);
    t := Apply(s, DoNextBegin);
  }

  lemma RowlessIsDue(script: seq<Reply>, s: State, k: nat)
    requires Resting(script, s, k + 1) && s.chan == [None] && s.status == Started
    ensures |s.returned| < |Rows(script)| && s.err == None
  {
    ReachableInv(script, s);
    DeliveryIsPrefix(script, s);
    assert |s.received| == |s.consumed| + 1;
  }

  // ---------- after the end ----------

  /** Nothing follows completion: no call of Next is waiting then, and none begun later returns a row, even
      if the reader records an error afterwards. */
  lemma NothingAfterCompletion(script: seq<Reply>, run: seq<State>, i: nat, j: nat)
    requires IsRun(script, run) && i <= j < |run| && run[i].status == Complete
    ensures run[i].consumer == Between && run[j].returned == run[i].returned
  {
    RunKeepsStatus(script, run, i);
    NoRowAfterwards(script, run, i, j);
  }

  /** A row is returned after the scan has completed or failed. */
  ghost predicate RowFollowsEnd(script: seq<Reply>, run: seq<State>, i: nat, j: nat) {
    && IsRun(script, run) && i <= j < |run|
    && Left(run[i].status) && |run[i].returned| < |run[j].returned|
  }

  /** Row k decodes, as do those before it, and is still in the channel when reply m, a failure, comes. */
  ghost predicate RowDueAtFailure(script: seq<Reply>, k: nat, m: nat) {
    && k < m < |script| && m <= k + ROW_BUFFER_SIZE
    && Decodable(script, k + 1)
    && (forall i :: 0 <= i < m ==> script[i].Data?)
    && script[m].Failure?
  }

  /** Over all interleavings: a row can follow the end of a scan exactly when a row that decodes can still be
      in the channel when the stream fails. */
  lemma RowFollowsExactlyWhen(script: seq<Reply>)
    ensures (exists run, i: nat, j: nat :: RowFollowsEnd(script, run, i, j))
       <==> (exists k: nat, m: nat :: RowDueAtFailure(script, k, m))
  {
    if run, i: nat, j: nat :| RowFollowsEnd(script, run, i, j) {
      var l := LateRowStep(script, run, i, j);
      RowWasDue(script, run[l]);
    }
    if k: nat, m: nat :| RowDueAtFailure(script, k, m) {
      var run := LateRowRun(script, k, m);
    }
  }

  /** The state just before a late row: in error, with a call of Next waiting and a row that decodes there. */
  ghost predicate LateRow(s: State) {
    && s.status == Errored && s.consumer == Taking
    && s.chan != [] && s.chan[0].Some? && s.chan[0].value.undecodable.None?
  }

  lemma LateRowOnly(script: seq<Reply>, run: seq<State>, j: nat)
    requires IsRun(script, run) && 0 < j < |run|
    requires Left(run[j - 1].status) && run[j].returned != run[j - 1].returned
    ensures LateRow(run[j - 1])
  {
    var s, t := run[j - 1], run[j];
    RunKeepsStatus(script, run, j - 1);
    assert Step(s, t);
    var a :| Enabled(s, a) && t == Apply(s, a);
    hide IsRun, Step;
    LateRowTaken(s, a);
  }

  lemma LateRowTaken(s: State, a: Action)
    requires StatusInv(s) && Left(s.status) && Enabled(s, a) && Apply(s, a).returned != s.returned
    ensures LateRow(s)
  {
    assert a == DoNextTake;
  }

  lemma ReachedOnTheWay(script: seq<Reply>, run: seq<State>, l: nat)
    requires IsRun(script, run) && l < |run|
    ensures Reachable(script, run[l])
  {
    var before := run[..l + 1];
    forall k | 0 < k < |before| ensures Step(before[k - 1], before[k]) { assert Step(run[k - 1], run[k]); }
    assert IsRun(script, before) && before[|before| - 1] == run[l];
  }

  lemma {:induction false} LateRowStep(script: seq<Reply>, run: seq<State>, i: nat, j: nat) returns (l: nat)
    requires RowFollowsEnd(script, run, i, j)
    ensures l < |run| && Reachable(script, run[l]) && LateRow(run[l])
    decreases j
  {
    hide LateRow, Step, IsRun, Reachable, Inv, Left;
    NoRowAfterwards(script, run, i, j - 1);
    if |run[i].returned| < |run[j - 1].returned| {
      l := LateRowStep(script, run, i, j - 1);
    } else {
      l := j - 1;
      ReachedOnTheWay(script, run, l);
      LateRowOnly(script, run, j);
    }
  }

  lemma RowWasDue(script: seq<Reply>, s: State)
    requires Reachable(script, s) && LateRow(s)
    ensures s.replies != [] && RowDueAtFailure(script, |s.returned|, |s.replies| - 1)
  {
    ReachableInv(script, s);
    ReturnedDecode(script, s);
    RepliesBeforeFailure(script, s);
    assert |s.consumed| == |s.returned|;
    assert s.received[|s.returned|] == s.chan[0];
  }

  lemma RepliesBeforeFailure(script: seq<Reply>, s: State)
    requires Inv(script, s) && LateRow(s)
    ensures 0 < |s.replies| <= |script| && script[|s.replies| - 1].Failure?
    ensures s.received == s.consumed + s.chan && |s.received| == |s.replies| - 1
    ensures forall i :: 0 <= i < |s.received| ==> script[i] == Data(s.received[i])
  {
    var m := |s.replies| - 1;
    var data := s.replies[..m];
    RowsOfData(data, s.replies[m]);
    assert s.replies == data + [s.replies[m]];
    assert s.received == Rows(data) == s.consumed + (s.chan + []);
    assert script == s.replies + ((if s.slot.Holding? then [s.slot.reply] else []) + s.stream);
    forall i | 0 <= i < m ensures script[i] == Data(s.received[i]) { assert script[i] == data[i]; }
  }

  lemma StepOf(s: State, a: Action)
    requires Enabled(s, a)
    ensures Step(s, Apply(s, a))
  {
  }

  lemma RunOf(script: seq<Reply>, s: State, a: Action) returns (run: seq<State>)
    requires Reachable(script, s) && Enabled(s, a)
    ensures IsRun(script, run) && |run| >= 2 && run[|run| - 2] == s && run[|run| - 1] == Apply(s, a)
  {
    var before :| IsRun(script, before) && before[|before| - 1] == s;
    assert Step(s, Apply(s, a)) by { StepOf(s, a); }
    var t := Apply(s, a);
    hide Step, Apply, Enabled, Reachable, IsRun;
    Longer(script, before, t);
    run := before + [t];
  }

  lemma LateRowRun(script: seq<Reply>, k: nat, m: nat) returns (run: seq<State>)
    requires RowDueAtFailure(script, k, m)
    ensures |run| >= 2 && RowFollowsEnd(script, run, |run| - 2, |run| - 1)
  {
    var s := Drain(script, k);
    s := Fill(script, s, k, m);
    assert s.chan[0] == script[k].row;
    s := ReceiveOne(script, s, m);
    hide Resting, Reachable, IsRun;
    s := BeginNext(script, s);
    s := FailNow(script, s);
    run := RunOf(script, s, DoNextTake);
  }

  lemma FailNow(script: seq<Reply>, s: State) returns (t: State)
    requires Reachable(script, s) && Enabled(s, DoReply) && s.slot.reply.Failure?
    ensures Reachable(script, t) && t.status == Errored
    ensures t.chan == s.chan && t.consumer == s.consumer && t.returned == s.returned
  {
    Extend(script, s, DoReply);
    t := Apply(s, DoReply);
  }
}
