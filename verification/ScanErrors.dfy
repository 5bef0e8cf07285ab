/** Which error a scan reports: exactly when one that was recorded can be overwritten. */
module ScanErrors {
  import opened Wrappers
  import opened ScanProtocol
  import opened ScanRuns

  /** An error is about to be recorded over another: the reader's stream failure over a decoding error,
      or the decoding error of a call already waiting over a stream failure. */
  ghost predicate Overwrites(s: State, a: Action) {
    && Enabled(s, a) && s.err.Some?
    && ((a == DoReply && s.slot.reply.Failure?)
        || (a == DoNextTake && s.chan != [] && s.chan[0].Some? && s.chan[0].value.undecodable.Some?))
  }

  /** Nothing else changes a recorded error. */
  lemma ErrorOtherwiseStable(s: State, a: Action)
    requires Enabled(s, a) && s.err.Some? && !Overwrites(s, a)
    ensures Apply(s, a).err == s.err
  {
  }

  /** Row k is the first that does not decode, reply m is a stream failure, and no more than the
      reader's lead of 101 rows lies between. */
  ghost predicate DecodeThenFailure(script: seq<Reply>, k: nat, m: nat) {
    && k < m < |script| && m <= k + ROW_BUFFER_SIZE + 1
    && (forall i :: 0 <= i < m ==> script[i].Data?)
    && script[m].Failure?
    && (forall i :: 0 <= i < k ==> script[i].row.Some? && script[i].row.value.undecodable.None?)
    && script[k].row.Some? && script[k].row.value.undecodable.Some?
  }

  /** Over all interleavings: a recorded error can be overwritten exactly when the first row that does
      not decode is followed, within the reader's lead, by a failure of the stream. */
  lemma OverwrittenExactlyWhen(script: seq<Reply>)
    ensures (exists s, a :: Reachable(script, s) && Overwrites(s, a))
       <==> (exists k: nat, m: nat :: DecodeThenFailure(script, k, m))
  {
    if s, a :| Reachable(script, s) && Overwrites(s, a) {
      ReachableInv(script, s);
      if a == DoReply { FailureOverDecoding(script, s); } else { DecodingOverFailure(script, s); }
    }
    if k: nat, m: nat :| DecodeThenFailure(script, k, m) {
      var s := OverwritingRun(script, k, m);
    }
  }

  lemma OverwritingRun(script: seq<Reply>, k: nat, m: nat) returns (s: State)
    requires DecodeThenFailure(script, k, m)
    ensures Reachable(script, s) && Overwrites(s, DoReply)
  {
    s := Drain(script, k);
    s := ReadOne(script, s, k);
    s := TakeOne(script, s, k + 1);
    s := Fill(script, s, k + 1, m);
    s := ReceiveOne(script, s, m);
  }

  lemma FailureOverDecoding(script: seq<Reply>, s: State)
    requires Inv(script, s) && Overwrites(s, DoReply)
    ensures DecodeThenFailure(script, |s.returned|, |s.replies|)
  {
    HandledReplies(script, s);
    TakenRows(s);
  }

  lemma DecodingOverFailure(script: seq<Reply>, s: State)
    requires Inv(script, s) && Overwrites(s, DoNextTake)
    ensures DecodeThenFailure(script, |s.returned|, |s.replies| - 1)
  {
    RowsBeforeFailure(script, s);
    assert s.received[|s.returned|] == s.chan[0];
    forall i | 0 <= i < |s.returned| ensures script[i].row.Some? && script[i].row.value.undecodable.None? {
      assert s.received[i] == s.consumed[i] == Some(s.returned[i]);
    }
  }

  /** Every reply handled before the failure was data. */
  lemma RowsBeforeFailure(script: seq<Reply>, s: State)
    requires Inv(script, s) && Overwrites(s, DoNextTake)
    ensures 0 < |s.replies| <= |script| && script[|s.replies| - 1] == s.replies[|s.replies| - 1]
    ensures s.received == s.consumed + s.chan && |s.received| == |s.replies| - 1
    ensures forall i :: 0 <= i < |s.replies| - 1 ==> script[i] == Data(s.received[i])
  {
    var m := |s.replies| - 1;
    var data := s.replies[..m];
    RowsOfData(data, s.replies[m]);
    assert s.replies == data + [s.replies[m]];
    assert s.received == Rows(data) == s.consumed + (s.chan + []);
    HandledIsPrefix(script, s);
    forall i | 0 <= i < m ensures script[i] == Data(s.received[i]) { assert script[i] == data[i]; }
  }

  lemma HandledIsPrefix(script: seq<Reply>, s: State)
    requires FlowInv(script, s)
    ensures s.replies <= script
  {
    assert script == s.replies + ((if s.slot.Holding? then [s.slot.reply] else []) + s.stream);
  }

  /** Every reply handled so far was data, and the next is in the reader's hand. */
  lemma HandledReplies(script: seq<Reply>, s: State)
    requires FlowInv(script, s) && ReaderInv(s) && Enabled(s, DoReply)
    ensures |s.replies| < |script| && script[|s.replies|] == s.slot.reply
    ensures |s.received| == |s.replies| == |s.consumed| + |s.chan|
    ensures forall i :: 0 <= i < |s.replies| ==> script[i] == Data(s.received[i])
  {
    RowsOfData(s.replies, s.slot.reply);
    assert script == s.replies + ([s.slot.reply] + s.stream);
    assert s.received == s.consumed + (s.chan + []);
    forall i | 0 <= i < |s.replies| ensures script[i] == Data(s.received[i]) { assert script[i] == s.replies[i]; }
  }

  lemma TakenRows(s: State)
    requires StatusInv(s) && TakenInv(s) && ReaderInv(s) && Overwrites(s, DoReply) && s.received == Flow(s)
    ensures |s.consumed| == |s.returned| + 1 <= |s.received|
    ensures forall i :: 0 <= i < |s.returned| ==> s.received[i].Some? && s.received[i].value.undecodable.None?
    ensures s.received[|s.returned|].Some? && s.received[|s.returned|].value.undecodable.Some?
  {
    assert forall i :: 0 <= i < |s.consumed| ==> s.received[i] == s.consumed[i];
    forall i | 0 <= i < |s.returned| ensures s.received[i].Some? && s.received[i].value.undecodable.None? {
      assert s.consumed[i] == Some(s.returned[i]);
    }
  }
}
