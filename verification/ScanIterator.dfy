/** hub/scan_iterator_base.go as an object: each method is proved to be the atomic step, or steps, that
    the protocol gives it, so what holds over every run of the protocol holds of the object. */
module ScanIterator {
  import opened Wrappers
  import opened ScanProtocol

  class ScanIteratorBase {
    var status: Status
    var err: Option<Error>
    // the channel: its buffer, and whether the reader closed it
    var rows: seq<Option<Payload>>
    var rowsClosed: bool
    // whether the context's cancel function was called
    var cancelled: bool
    // where the goroutines are, what the plugin will still send, and the history
    ghost var rest: State

    /** The protocol state this object is in. */
    ghost function Abs(): State
      reads this
    {
      rest.(status := status, err := err, chan := rows, closed := rowsClosed, cancelled := cancelled)
    }

    constructor (ghost script: seq<Reply>)
      ensures Abs() == Init(script)
    {
      status, err, rows, rowsClosed, cancelled := Ready, None, [], false, false;
      rest := Init(script);
    }

    /** Starting the scan; when execute fails nothing changes. */
    method Start(executed: bool) returns (ok: bool)
      requires Enabled(Abs(), DoStart)
      modifies this
      ensures ok == executed
      ensures Abs() == if executed then Apply(old(Abs()), DoStart) else old(Abs())
    {
      if !executed { return false; }
      status := Started;
      rest := ScanProtocol.Start(rest);
      ok := true;
    }

    method SetError(e: Error)
      modifies this`status, this`err
      ensures Abs() == ScanProtocol.SetError(old(Abs()), e)
    {
      status := Errored;
      err := Some(e);
    }

    method Close()
      modifies this`status, this`cancelled
      ensures Abs() == ScanProtocol.Close(old(Abs()))
    {
      cancelled := true;
      if status != Errored {
        status := Complete;
      }
    }

    predicate CanIterate()
      reads this
    {
      status == Started
    }

    /** The select of readPluginResult: the branch taken is the cancellation, if the context is cancelled, or
        the reply, once it is there. False stops the reader. */
    method ReadPluginResult(taken: Option<Reply>) returns (continueReading: bool)
      requires taken.None? ==> Enabled(Abs(), DoCancel)
      requires taken.Some? ==> Enabled(Abs(), DoReply) && rest.slot.reply == taken.value
      modifies this
      ensures Abs() == Apply(old(Abs()), if taken.None? then DoCancel else DoReply)
      ensures continueReading <==> taken.Some? && taken.value.Data?
    {
      continueReading := true;
      ghost var before := Abs();
      if taken.None? {
        continueReading := false;
        rest := SelectCancel(before);
        return;
      }
      match taken.value {
        case Data(row) =>
        case NilReply =>
          continueReading := false;
        case Eof =>
          continueReading := false;
        case Failure(e) =>
          SetError(e);
          continueReading := false;
      }
      rest := SelectReply(before);
    }

    /** Sending a row blocks on a full channel. */
    method SendRow(row: Option<Payload>)
      requires Enabled(Abs(), DoSend) && rest.reader.row == row
      modifies this
      ensures Abs() == Apply(old(Abs()), DoSend)
    {
      rows := rows + [row];
      rest := rest.(reader := Loop);
    }

    /** A whole call of Next with nothing in between: the checks, then the receive, which blocks on an
        open channel that is empty. */
    method Next() returns (out: Outcome)
      requires Enabled(Abs(), DoNextBegin)
      requires status == Started ==> rows != [] || rowsClosed
      modifies this
      ensures old(status) != Started ==> Abs() == Apply(old(Abs()), DoNextBegin)
      ensures old(status) == Started ==> Abs() == NextTake(NextBegin(old(Abs())))
      ensures Abs().last == Some(out)
      // the call returns what the protocol's step would, and (nil, nil) only where no error is recorded
      ensures old(status) == Errored ==> out == Failed(old(err))
      ensures out == Refused <==> old(status) == Ready || old(status) == Complete
      ensures out == Done ==> old(status) == Started && status == Complete && err == old(err)
      ensures (old(status) == Errored <==> old(err).Some?) ==> (out == Done ==> err == None)
      ensures out.Got? <==>
        old(status) == Started && old(rows) != [] && old(rows[0]).Some? && old(rows[0]).value.undecodable.None?
    {
      ghost var before := Abs();
      if status == Errored {
        out := Failed(err);
        rest := NextBegin(before);
        return;
      }
      if !CanIterate() {
        out := Refused;
        rest := NextBegin(before);
        return;
      }
      var row: Option<Payload> := None;
      if rows != [] {
        row, rows := rows[0], rows[1..];
      }
      if row.None? {
        Close();
        out := if status == Errored then Failed(err) else Done;
      } else {
        match row.value.undecodable {
          case None =>
            out := Got(row.value);
          case Some(e) =>
            SetError(e);
            out := Failed(Some(e));
        }
      }
      rest := NextTake(NextBegin(before));
    }
  }
}
