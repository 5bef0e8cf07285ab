/** hub/scan_iterator_base.go: rows flow from the plugin's stream through a per-receive goroutine, the
    reader goroutine and a bounded channel to the consumer, which may be cancelled at any time.
    The protocol is a step relation over atomic steps; its properties hold over every interleaving. */
module ScanProtocol {
  import opened Wrappers

  const ROW_BUFFER_SIZE := 100

  type Error = nat

  /** A row as the plugin sends it; decoding one of its JSON columns may fail. */
  datatype Payload = Payload(id: nat, undecodable: Option<Error>)

  /** What one receive on the stream yields. A response may carry no row. */
  datatype Reply = Data(row: Option<Payload>) | NilReply | Eof | Failure(error: Error)

  datatype Status = Ready | Started | Errored | Complete

  /** The goroutine that receives one reply: not running, blocked in the stream, blocked handing it over. */
  datatype Slot = Idle | Receiving | Holding(reply: Reply)

  datatype Reader = Unborn | Entry | Loop | Select | Sending(row: Option<Payload>) | Closing | Gone

  datatype Consumer = Between | Taking

  /** What a call of Next returns: a row, the end (nil, nil), an error, or the refusal to iterate. */
  datatype Outcome = Got(row: Payload) | Done | Failed(error: Option<Error>) | Refused

  /** Why the reader stopped. */
  datatype End = Cancelled | StreamOver | StreamFailed

  datatype State = State(
    stream: seq<Reply>, slot: Slot, reader: Reader,
    chan: seq<Option<Payload>>, closed: bool,
    status: Status, err: Option<Error>, cancelled: bool, consumer: Consumer,
    // history
    replies: seq<Reply>, received: seq<Option<Payload>>, consumed: seq<Option<Payload>>,
    returned: seq<Payload>, end: Option<End>, last: Option<Outcome>)

  function Init(script: seq<Reply>): State {
    State(script, Idle, Unborn, [], false, Ready, None, false, Between, [], [], [], [], None, None)
  }

  // ---------- the iterator's methods, as functions of the state ----------

  /** setError: status first, then err, taken as one step. */
  function SetError(s: State, e: Error): State {
    s.(status := Errored, err := Some(e))
  }

  /** Close: cancels, and completes an iterator that is not in error. */
  function Close(s: State): State {
    s.(cancelled := true, status := if s.status == Errored then Errored else Complete)
  }

  /** Start, when execute succeeds. */
  function Start(s: State): State {
    s.(status := Started, reader := Entry)
  }

  function ReaderEntry(s: State): State {
    if s.status == Started then s.(reader := Loop) else s.(reader := Closing, end := Some(Cancelled))
  }

  function Spawn(s: State): State {
    s.(slot := Receiving, reader := Select)
  }

  function Receive(s: State): State
    requires s.stream != []
  {
    s.(slot := Holding(s.stream[0]), stream := s.stream[1..])
  }

  function SelectCancel(s: State): State {
    s.(reader := Closing, end := Some(Cancelled))
  }

  function SelectReply(s: State): State
    requires s.slot.Holding?
  {
    var t := s.(slot := Idle, replies := s.replies + [s.slot.reply]);
    match s.slot.reply
    case Data(row) => t.(reader := Sending(row), received := s.received + [row])
    case NilReply => t.(reader := Closing, end := Some(StreamOver))
    case Eof => t.(reader := Closing, end := Some(StreamOver))
    case Failure(e) => SetError(t.(reader := Closing, end := Some(StreamFailed)), e)
  }

  function Send(s: State): State
    requires s.reader.Sending?
  {
    s.(chan := s.chan + [s.reader.row], reader := Loop)
  }

  function CloseChannel(s: State): State {
    s.(closed := true, reader := Gone)
  }

  /** The checks at the head of Next. */
  function NextBegin(s: State): State {
    match s.status
    case Errored => s.(last := Some(Failed(s.err)))
    case Started => s.(consumer := Taking, last := None)
    case _ => s.(last := Some(Refused))
  }

  /** The rest of Next once the channel yields: nil from a closed channel, or from a row that is nil. */
  function NextTake(s: State): State
    requires s.chan != [] || s.closed
  {
    var t := if s.chan == [] then s else s.(chan := s.chan[1..], consumed := s.consumed + [s.chan[0]]);
    var u := t.(consumer := Between);
    match (if s.chan == [] then None else s.chan[0])
    case None =>
      var c := Close(u);
      c.(last := Some(if c.status == Errored then Failed(c.err) else Done))
    case Some(p) =>
      (match p.undecodable
       case None => u.(returned := s.returned + [p], last := Some(Got(p)))
       case Some(e) => SetError(u, e).(last := Some(Failed(Some(e)))))
  }

  // ---------- steps and runs ----------

  datatype Action =
    | DoStart | DoEntry | DoSpawn | DoReceive | DoCancel | DoReply | DoSend | DoCloseChannel
    | DoNextBegin | DoNextTake
    // EndScan or Abort, on the consumer's thread; only a started iterator has a cancel function
    | DoClose

  predicate Enabled(s: State, a: Action) {
    match a
    case DoStart => s.reader == Unborn && s.status == Ready
    case DoEntry => s.reader == Entry
    case DoSpawn => s.reader == Loop && s.slot == Idle
    case DoReceive => s.slot == Receiving && s.stream != []
    case DoCancel => s.reader == Select && s.cancelled
    case DoReply => s.reader == Select && s.slot.Holding?
    case DoSend => s.reader.Sending? && |s.chan| < ROW_BUFFER_SIZE
    case DoCloseChannel => s.reader == Closing
    case DoNextBegin => s.consumer == Between
    case DoNextTake => s.consumer == Taking && (s.chan != [] || s.closed)
    case DoClose => s.consumer == Between && s.reader != Unborn
  }

  function Apply(s: State, a: Action): State
    requires Enabled(s, a)
  {
    match a
    case DoStart => Start(s)
    case DoEntry => ReaderEntry(s)
    case DoSpawn => Spawn(s)
    case DoReceive => Receive(s)
    case DoCancel => SelectCancel(s)
    case DoReply => SelectReply(s)
    case DoSend => Send(s)
    case DoCloseChannel => CloseChannel(s)
    case DoNextBegin => NextBegin(s)
    case DoNextTake => NextTake(s)
    case DoClose => Close(s)
  }

  ghost predicate Step(s: State, t: State) {
    exists a :: Enabled(s, a) && t == Apply(s, a)
  }

  ghost predicate IsRun(script: seq<Reply>, run: seq<State>) {
    && run != [] && run[0] == Init(script)
    && forall i :: 0 < i < |run| ==> Step(run[i - 1], run[i])
  }

  ghost predicate Reachable(script: seq<Reply>, s: State) {
    exists run :: IsRun(script, run) && run[|run| - 1] == s
  }

  // ---------- the invariant ----------

  function InHand(s: State): seq<Option<Payload>> {
    if s.reader.Sending? then [s.reader.row] else []
  }

  /** The replies that were data, up to the first that was not. */
  function Rows(replies: seq<Reply>): seq<Option<Payload>> {
    if replies == [] || !replies[0].Data? then [] else [replies[0].row] + Rows(replies[1..])
  }

  /** The first rows of a list are exactly these, each decodable. */
  ghost predicate Starts(rows: seq<Option<Payload>>, ps: seq<Payload>) {
    && |ps| <= |rows|
    && forall i :: 0 <= i < |ps| ==> rows[i] == Some(ps[i]) && ps[i].undecodable.None?
  }

  predicate AllData(replies: seq<Reply>) {
    replies == [] || (replies[0].Data? && AllData(replies[1..]))
  }

  /** The whole script, split into what the reader handled, what a receive holds, and what is to come. */
  function Replies(s: State): seq<Reply> {
    s.replies + (if s.slot.Holding? then [s.slot.reply] else []) + s.stream
  }

  /** An iterator that has left Started behind. */
  predicate Left(status: Status) {
    status == Errored || status == Complete
  }

  /** The rows between the stream and the consumer: taken, in the channel, in the reader's hand. */
  function Flow(s: State): seq<Option<Payload>> {
    s.consumed + (s.chan + InHand(s))
  }

  /** Rows are neither lost nor reordered between the stream and the consumer. */
  ghost predicate FlowInv(script: seq<Reply>, s: State) {
    && Replies(s) == script
    && s.received == Rows(s.replies)
    && s.received == Flow(s)
    && |s.chan| <= ROW_BUFFER_SIZE
  }

  lemma MoveFirst<T>(a: seq<T>, b: seq<T>, c: seq<T>)
    requires b != []
    ensures (a + [b[0]]) + (b[1..] + c) == a + (b + c)
  {
  }

  lemma MoveInto<T>(a: seq<T>, b: seq<T>, x: T)
    ensures a + ((b + [x]) + []) == a + (b + [x])
  {
    assert (b + [x]) + [] == b + [x];
  }

  lemma AppendLast<T>(a: seq<T>, b: seq<T>, x: T)
    ensures a + (b + [x]) == (a + (b + [])) + [x]
  {
    assert b + [] == b;
  }

  /** Data, then the reply that ended the stream. */
  ghost predicate EndsWith(replies: seq<Reply>, failed: bool) {
    && replies != [] && AllData(replies[..|replies| - 1])
    && var r := replies[|replies| - 1]; if failed then r.Failure? else r.NilReply? || r.Eof?
  }

  /** Where the reader is, and why it stopped. */
  ghost predicate ReaderInv(s: State) {
    && (s.reader == Unborn || s.reader == Entry ==> s.replies == [])
    && (s.end.Some? <==> (s.reader == Closing || s.reader == Gone))
    && (s.closed <==> s.reader == Gone)
    && (s.end == None || s.end == Some(Cancelled) ==> AllData(s.replies))
    && (s.end == Some(StreamOver) ==> EndsWith(s.replies, false))
    && (s.end == Some(StreamFailed) ==> EndsWith(s.replies, true))
    && (s.slot != Idle ==> (s.reader == Select || s.reader == Closing || s.reader == Gone))
    && (s.reader == Select ==> s.slot != Idle)
  }

  ghost predicate StatusInv(s: State) {
    && (s.reader == Unborn <==> s.status == Ready)
    && (s.status == Errored <==> s.err.Some?)
    && (s.reader == Entry ==> s.status != Errored)
    && (s.cancelled ==> Left(s.status) && s.consumer == Between)
    && (s.status == Complete ==> s.cancelled)
    && (s.end == Some(Cancelled) ==> s.cancelled)
    && (s.end == Some(StreamFailed) ==> s.status == Errored)
    && (s.consumer == Taking ==> (s.status == Started || s.status == Errored))
    && (s.consumer == Taking && s.status == Errored ==> s.end == Some(StreamFailed))
    && (s.status == Errored && s.end != Some(StreamFailed) ==> |s.consumed| == |s.returned| + 1)
  }

  /** What the consumer took: the returned rows, then at most one row that is nil or undecodable. */
  ghost predicate TakenInv(s: State) {
    && Starts(s.consumed, s.returned)
    && |s.consumed| <= |s.returned| + 1
    && (|s.consumed| == |s.returned| + 1 ==>
         var x := s.consumed[|s.returned|];
         && s.consumer == Between && Left(s.status)
         && (x.Some? ==> x.value.undecodable.Some? && s.status == Errored)
         && (x.None? ==> s.cancelled && (s.status == Errored ==> s.end == Some(StreamFailed))))
  }

  ghost predicate Inv(script: seq<Reply>, s: State) {
    FlowInv(script, s) && ReaderInv(s) && StatusInv(s) && TakenInv(s)
  }

  lemma {:induction false} RowsOfData(replies: seq<Reply>, r: Reply)
    requires AllData(replies)
    ensures Rows(replies + [r]) == Rows(replies) + if r.Data? then [r.row] else []
    ensures |Rows(replies)| == |replies| && forall i :: 0 <= i < |replies| ==> replies[i] == Data(Rows(replies)[i])
    ensures r.Data? ==> AllData(replies + [r])
  {
    if replies == [] {
      assert replies + [r] == [r];
    } else {
      RowsOfData(replies[1..], r);
      assert (replies + [r])[0] == replies[0] && (replies + [r])[1..] == replies[1..] + [r];
    }
  }

  lemma SelectKeepsFlow(script: seq<Reply>, s: State)
    requires FlowInv(script, s) && AllData(s.replies) && s.reader == Select && s.slot.Holding?
    ensures FlowInv(script, SelectReply(s))
  {
    RowsOfData(s.replies, s.slot.reply);
    SelectKeepsReplies(s);
    SelectMoves(s);
    hide Rows, AllData, Replies, Flow, SelectReply;
  }

  lemma SelectMoves(s: State)
    requires s.reader == Select && s.slot.Holding?
    ensures var t := SelectReply(s);
      && t.replies == s.replies + [s.slot.reply] && t.chan == s.chan
      && t.received == s.received + (if s.slot.reply.Data? then [s.slot.reply.row] else [])
      && Flow(t) == Flow(s) + if s.slot.reply.Data? then [s.slot.reply.row] else []
  {
    if s.slot.reply.Data? { AppendLast(s.consumed, s.chan, s.slot.reply.row); }
  }

  lemma SelectKeepsReplies(s: State)
    requires s.slot.Holding?
    ensures Replies(SelectReply(s)) == Replies(s)
  {
    assert (s.replies + [s.slot.reply]) + [] == s.replies + [s.slot.reply];
  }

  lemma TakeKeepsFlow(script: seq<Reply>, s: State)
    requires FlowInv(script, s) && (s.chan != [] || s.closed)
    ensures FlowInv(script, NextTake(s))
  {
    if s.chan != [] { MoveFirst(s.consumed, s.chan, InHand(s)); }
    assert Replies(NextTake(s)) == Replies(s);
  }

  lemma ReceiveKeepsFlow(script: seq<Reply>, s: State)
    requires FlowInv(script, s) && s.slot == Receiving && s.stream != []
    ensures FlowInv(script, Receive(s))
  {
    assert s.stream == [s.stream[0]] + s.stream[1..];
    assert Replies(Receive(s)) == Replies(s);
  }

  lemma SendKeepsFlow(script: seq<Reply>, s: State)
    requires FlowInv(script, s) && s.reader.Sending? && |s.chan| < ROW_BUFFER_SIZE
    ensures FlowInv(script, Send(s))
  {
    MoveInto(s.consumed, s.chan, s.reader.row);
    assert Replies(Send(s)) == Replies(s);
  }

  lemma ActionKeepsFlow(script: seq<Reply>, s: State, a: Action)
    requires FlowInv(script, s) && ReaderInv(s) && Enabled(s, a)
    ensures FlowInv(script, Apply(s, a))
  {
    hide FlowInv, Rows, AllData, EndsWith;
    match a
    case DoReply => SelectKeepsFlow(script, s);
    case DoNextTake => TakeKeepsFlow(script, s);
    case DoReceive => ReceiveKeepsFlow(script, s);
    case DoSend => SendKeepsFlow(script, s);
    case DoStart => SameFlow(script, s, Start(s));
    case DoEntry => SameFlow(script, s, ReaderEntry(s));
    case DoSpawn => SameFlow(script, s, Spawn(s));
    case DoCancel => SameFlow(script, s, SelectCancel(s));
    case DoCloseChannel => SameFlow(script, s, CloseChannel(s));
    case DoNextBegin => SameFlow(script, s, NextBegin(s));
    case DoClose => SameFlow(script, s, Close(s));
  }

  lemma SameFlow(script: seq<Reply>, s: State, t: State)
    requires FlowInv(script, s)
    requires t.stream == s.stream && t.replies == s.replies && t.received == s.received && t.consumed == s.consumed
    requires t.chan == s.chan && InHand(t) == InHand(s)
    requires t.slot == s.slot || (!t.slot.Holding? && !s.slot.Holding?)
    ensures FlowInv(script, t)
  {
    hide Rows;
  }

  lemma OneMore(replies: seq<Reply>, r: Reply)
    requires AllData(replies)
    ensures r.Data? ==> AllData(replies + [r])
    ensures !r.Data? ==> EndsWith(replies + [r], r.Failure?)
  {
    RowsOfData(replies, r);
    hide Rows, AllData;
    assert (replies + [r])[..|replies|] == replies;
  }

  lemma ReplyKeepsReader(s: State)
    requires ReaderInv(s) && Enabled(s, DoReply)
    ensures ReaderInv(SelectReply(s))
  {
    OneMore(s.replies, s.slot.reply);
    hide AllData, EndsWith;
  }

  lemma OtherKeepsReader(s: State, a: Action)
    requires ReaderInv(s) && Enabled(s, a) && a != DoReply
    ensures ReaderInv(Apply(s, a))
  {
    hide AllData, EndsWith;
  }

  lemma ActionKeepsReader(s: State, a: Action)
    requires ReaderInv(s) && Enabled(s, a)
    ensures ReaderInv(Apply(s, a))
  {
    hide AllData, EndsWith;
    if a == DoReply { ReplyKeepsReader(s); } else { OtherKeepsReader(s, a); }
  }

  lemma TakeKeepsTaken(s: State)
    requires StatusInv(s) && TakenInv(s) && Enabled(s, DoNextTake)
    ensures TakenInv(NextTake(s))
  {
  }

  /** Nothing is taken, and what is settled stays settled. */
  lemma SameTaken(s: State, t: State)
    requires StatusInv(s) && TakenInv(s) && t.consumed == s.consumed && t.returned == s.returned
    requires t.consumer == s.consumer || s.status == Started
    requires Left(s.status) ==> Left(t.status) && (s.status == Errored ==> t.status == Errored)
    requires s.cancelled ==> t.cancelled
    requires s.status != Errored && t.status == Errored ==> t.end == Some(StreamFailed)
    requires s.end == Some(StreamFailed) ==> t.end == Some(StreamFailed)
    ensures TakenInv(t)
  {
    hide Starts;
  }

  lemma ActionKeepsTaken(s: State, a: Action)
    requires ReaderInv(s) && StatusInv(s) && TakenInv(s) && Enabled(s, a)
    ensures TakenInv(Apply(s, a))
  {
    hide TakenInv, AllData, EndsWith;
    if a == DoNextTake { TakeKeepsTaken(s); } else { SameTaken(s, Apply(s, a)); }
  }

  lemma EntryIsEmpty(script: seq<Reply>, s: State)
    requires FlowInv(script, s) && ReaderInv(s) && (s.reader == Unborn || s.reader == Entry)
    ensures s.consumed == [] && s.chan == []
  {
    assert |Flow(s)| == |Rows(s.replies)| == 0;
  }

  lemma TakeKeepsStatus(s: State)
    requires ReaderInv(s) && StatusInv(s) && TakenInv(s) && Enabled(s, DoNextTake)
    requires s.reader == Unborn || s.reader == Entry ==> s.chan == []
    ensures StatusInv(NextTake(s))
  {
    hide AllData, EndsWith;
  }

  lemma ActionKeepsStatus(script: seq<Reply>, s: State, a: Action)
    requires FlowInv(script, s) && ReaderInv(s) && StatusInv(s) && TakenInv(s) && Enabled(s, a)
    ensures StatusInv(Apply(s, a))
  {
    if s.reader == Unborn || s.reader == Entry { EntryIsEmpty(script, s); }
    hide FlowInv, AllData, EndsWith, Starts;
    if a == DoNextTake {
      TakeKeepsStatus(s);
    } else {
      hide TakenInv;
      OtherKeepsStatus(s, a);
    }
  }

  lemma OtherKeepsStatus(s: State, a: Action)
    requires ReaderInv(s) && StatusInv(s) && Enabled(s, a) && a != DoNextTake
    ensures StatusInv(Apply(s, a))
  {
    hide AllData, EndsWith;
  }

  lemma StepKeepsInv(script: seq<Reply>, s: State, t: State)
    requires Inv(script, s) && Step(s, t)
    ensures Inv(script, t)
  {
    var a :| Enabled(s, a) && t == Apply(s, a);
    ActionKeepsFlow(script, s, a);
    ActionKeepsReader(s, a);
    ActionKeepsTaken(s, a);
    ActionKeepsStatus(script, s, a);
  }

  lemma {:induction false} RunKeepsInv(script: seq<Reply>, run: seq<State>, i: nat)
    requires IsRun(script, run) && i < |run|
    ensures Inv(script, run[i])
  {
    if i > 0 {
      RunKeepsInv(script, run, i - 1);
      StepKeepsInv(script, run[i - 1], run[i]);
    }
  }

  lemma RunKeepsStatus(script: seq<Reply>, run: seq<State>, i: nat)
    requires IsRun(script, run) && i < |run|
    ensures StatusInv(run[i])
  {
    RunKeepsInv(script, run, i);
  }

  lemma ReachableInv(script: seq<Reply>, s: State)
    requires Reachable(script, s)
    ensures Inv(script, s)
  {
    var run :| IsRun(script, run) && run[|run| - 1] == s;
    RunKeepsInv(script, run, |run| - 1);
  }

  // ---------- delivery ----------

  /** In every reachable state the rows Next has returned are the first rows received, in order and
      without repeats, and the reader is at most 101 rows ahead of the consumer. */
  lemma DeliveryIsPrefix(script: seq<Reply>, s: State)
    requires Reachable(script, s)
    ensures Starts(s.received, s.returned)
    ensures s.consumed <= s.received && |s.received| - |s.consumed| <= ROW_BUFFER_SIZE + 1
    ensures s.received <= Rows(script)
  {
    ReachableInv(script, s);
    ReceivedFromScript(script, s);
    assert s.received == s.consumed + (s.chan + InHand(s));
  }

  lemma ReceivedFromScript(script: seq<Reply>, s: State)
    requires FlowInv(script, s)
    ensures s.received <= Rows(script)
  {
    var rest := (if s.slot.Holding? then [s.slot.reply] else []) + s.stream;
    RowsPrefix(s.replies, rest);
    assert s.replies + rest == Replies(s);
  }

  lemma {:induction false} RowsPrefix(a: seq<Reply>, b: seq<Reply>)
    ensures Rows(a) <= Rows(a + b)
  {
    if a != [] {
      assert (a + b)[0] == a[0] && (a + b)[1..] == a[1..] + b;
      if a[0].Data? { RowsPrefix(a[1..], b); }
    }
  }

  lemma {:induction false} RowsStop(a: seq<Reply>, failed: bool, b: seq<Reply>)
    requires EndsWith(a, failed)
    ensures Rows(a + b) == Rows(a)
  {
    assert (a + b)[0] == a[0];
    if |a| > 1 {
      assert a[..|a| - 1][1..] == a[1..][..|a| - 2];
      RowsStop(a[1..], failed, b);
      assert (a + b)[1..] == a[1..] + b;
    }
  }

  /** The step with which a call of Next returns: its first if the iterator is not to be iterated, else its second. */
  ghost predicate Returns(s: State, a: Action) {
    Enabled(s, a) && (a == DoNextTake || (a == DoNextBegin && s.status != Started))
  }

  /** What the call that this step ends has returned. */
  function OutcomeOf(s: State, a: Action): Option<Outcome>
    requires Enabled(s, a)
  {
    Apply(s, a).last
  }

  /** When a call of Next returns (nil, nil), the stream is over without error and every row of it
      was returned, except when the plugin sent a response without a row: taking that ends the scan
      too, and what follows it is lost. Which of the two it was shows in whether the channel was empty. */
  lemma NilMeansOver(script: seq<Reply>, s: State, a: Action)
    requires Reachable(script, s) && Returns(s, a) && OutcomeOf(s, a) == Some(Done)
    ensures s.chan == [] ==>
      s.end == Some(StreamOver) && Starts(Rows(script), s.returned) && |Rows(script)| == |s.returned|
    ensures s.chan != [] ==> |s.returned| < |Rows(script)| && Rows(script)[|s.returned|] == None
    ensures Apply(s, a).err == s.err == None && Apply(s, a).returned == s.returned
    ensures forall r :: r in s.replies ==> !r.Failure?
  {
    ReachableInv(script, s);
    hide Reachable, Rows, Replies, AllData, EndsWith;
    assert a == DoNextTake && s.err.None? && !s.cancelled;
    NoFailureYet(s);
    if s.chan == [] {
      assert s.status != Errored && s.end.Some?;
      EndCases(s.end.value);
      EverythingReturned(script, s);
    } else {
      NextRow(script, s);
    }
  }

  /** With the stream over and the channel closed and empty, a waiting call has all rows before it. */
  lemma EverythingReturned(script: seq<Reply>, s: State)
    requires Inv(script, s) && s.consumer == Taking && s.chan == [] && s.closed && s.end == Some(StreamOver)
    ensures Starts(Rows(script), s.returned) && |Rows(script)| == |s.returned|
  {
    AllReceived(script, s);
    hide Rows, Replies, EndsWith;
    assert |s.consumed| == |s.returned|;
    assert s.received == s.consumed + (s.chan + InHand(s));
  }

  /** The row at the head of the channel is the next one of the stream. */
  lemma NextRow(script: seq<Reply>, s: State)
    requires Inv(script, s) && s.consumer == Taking && s.chan != []
    ensures |s.returned| < |Rows(script)| && Rows(script)[|s.returned|] == s.chan[0]
  {
    ReceivedFromScript(script, s);
    hide Rows, Replies, ReaderInv;
    assert |s.consumed| == |s.returned|;
    assert s.received[|s.returned|] == s.chan[0];
  }

  lemma {:induction false} DataOnly(replies: seq<Reply>)
    requires AllData(replies)
    ensures forall r :: r in replies ==> r.Data?
  {
    if replies != [] { DataOnly(replies[1..]); }
  }

  /** Without a recorded error no reply was a failure. */
  lemma NoFailureYet(s: State)
    requires ReaderInv(s) && StatusInv(s) && s.err.None?
    ensures forall r :: r in s.replies ==> !r.Failure?
  {
    if s.end == Some(StreamOver) {
      var n := |s.replies| - 1;
      DataOnly(s.replies[..n]);
      assert s.replies == s.replies[..n] + [s.replies[n]];
    } else {
      if s.end.Some? { EndCases(s.end.value); }
      DataOnly(s.replies);
    }
  }

  lemma EndCases(e: End)
    ensures e == Cancelled || e == StreamOver || e == StreamFailed
  {
  }

  lemma AllReceived(script: seq<Reply>, s: State)
    requires FlowInv(script, s) && ReaderInv(s) && s.end == Some(StreamOver)
    ensures s.received == Rows(script)
  {
    var rest := (if s.slot.Holding? then [s.slot.reply] else []) + s.stream;
    RowsStop(s.replies, false, rest);
    assert s.replies + rest == Replies(s);
  }

  // ---------- errors ----------

  /** The error of a stream failure, or of a row that does not decode. */
  ghost predicate ErrorOf(script: seq<Reply>, e: Error) {
    Failure(e) in script || exists p: Payload :: Data(Some(p)) in script && p.undecodable == Some(e)
  }

  ghost predicate ErrInv(script: seq<Reply>, s: State) {
    s.err.Some? ==> ErrorOf(script, s.err.value)
  }

  lemma {:induction false} RowsInReplies(replies: seq<Reply>, row: Option<Payload>)
    requires row in Rows(replies)
    ensures Data(row) in replies
  {
    if row != Rows(replies)[0] { RowsInReplies(replies[1..], row); }
  }

  lemma ReplyKeepsErr(script: seq<Reply>, s: State)
    requires Replies(s) == script && ErrInv(script, s) && Enabled(s, DoReply)
    ensures ErrInv(script, SelectReply(s))
  {
    assert s.slot.reply in Replies(s);
  }

  lemma ChannelFromScript(script: seq<Reply>, s: State)
    requires FlowInv(script, s) && s.chan != []
    ensures Data(s.chan[0]) in script
  {
    var row := s.chan[0];
    assert row in Flow(s);
    RowsInReplies(s.replies, row);
    hide Rows, Flow;
    assert Data(row) in Replies(s);
  }

  lemma TakeKeepsErr(script: seq<Reply>, s: State)
    requires FlowInv(script, s) && ErrInv(script, s) && Enabled(s, DoNextTake)
    ensures ErrInv(script, NextTake(s))
  {
    hide FlowInv;
    if s.chan != [] { ChannelFromScript(script, s); }
  }

  lemma ActionKeepsErr(script: seq<Reply>, s: State, a: Action)
    requires FlowInv(script, s) && ErrInv(script, s) && Enabled(s, a)
    ensures ErrInv(script, Apply(s, a))
  {
    hide ErrorOf, Rows, Flow;
    if a == DoReply { ReplyKeepsErr(script, s); } else if a == DoNextTake { TakeKeepsErr(script, s); }
  }

  lemma {:induction false} RunKeepsErr(script: seq<Reply>, run: seq<State>, i: nat)
    requires IsRun(script, run) && i < |run|
    ensures ErrInv(script, run[i])
  {
    if i > 0 {
      RunKeepsErr(script, run, i - 1);
      RunKeepsInv(script, run, i - 1);
      assert Step(run[i - 1], run[i]);
      var a :| Enabled(run[i - 1], a) && run[i] == Apply(run[i - 1], a);
      hide IsRun, Step, Apply, Enabled, ErrInv, ReaderInv, StatusInv, TakenInv;
      ActionKeepsErr(script, run[i - 1], a);
    }
  }

  lemma FailedIsRecorded(s: State, a: Action)
    requires Returns(s, a) && (s.status == Errored ==> s.err.Some?)
    ensures OutcomeOf(s, a).Some? && OutcomeOf(s, a).value.Failed? ==>
      var x := OutcomeOf(s, a).value.error; x.Some? && x == Apply(s, a).err && Apply(s, a).status == Errored
  {
  }

  /** When a call of Next returns an error, it is the one recorded: that of a failure of the stream, or of a row
      that does not decode. A call that finds the iterator in error returns one. */
  lemma FailedMeansError(script: seq<Reply>, s: State, a: Action)
    requires Reachable(script, s) && Returns(s, a)
    ensures OutcomeOf(s, a).Some? && OutcomeOf(s, a).value.Failed? ==>
      var x := OutcomeOf(s, a).value.error;
      x.Some? && x == Apply(s, a).err && Apply(s, a).status == Errored && ErrorOf(script, x.value)
    ensures s.status == Errored && a == DoNextBegin ==> OutcomeOf(s, a) == Some(Failed(s.err))
  {
    var run :| IsRun(script, run) && run[|run| - 1] == s;
    RunKeepsErr(script, run, |run| - 1);
    RunKeepsInv(script, run, |run| - 1);
    hide IsRun, Reachable, Rows, ErrorOf, FlowInv, ReaderInv, TakenInv;
    FailedIsRecorded(s, a);
    ActionKeepsErr(script, s, a);
  }

  /** Every call that returns has one of four outcomes: the next row, which decodes; the end; an error; and the
      refusal exactly of an iterator that was not started, or is complete. */
  lemma CallReturns(script: seq<Reply>, s: State, a: Action)
    requires Reachable(script, s) && Returns(s, a)
    ensures OutcomeOf(s, a).Some?
    ensures OutcomeOf(s, a) == Some(Refused) <==> a == DoNextBegin && (s.status == Ready || s.status == Complete)
    ensures OutcomeOf(s, a).value.Got? ==>
      var p := OutcomeOf(s, a).value.row;
      && Apply(s, a).returned == s.returned + [p] && p.undecodable.None?
      && |s.returned| < |Rows(script)| && Rows(script)[|s.returned|] == Some(p)
  {
    ReachableInv(script, s);
    hide Reachable;
    if a == DoNextTake && s.chan != [] && s.chan[0].Some? { NextRow(script, s); }
    hide FlowInv, ReaderInv, TakenInv, Rows;
  }

  // ---------- cancelled before anything was read ----------

  ghost predicate NeverReads(s: State) {
    && (s.reader == Entry || s.reader == Closing || s.reader == Gone) && Left(s.status)
    && s.slot == Idle && s.replies == [] && s.chan == [] && s.returned == []
  }

  lemma ActionKeepsUnread(s: State, a: Action)
    requires NeverReads(s) && Enabled(s, a)
    ensures NeverReads(Apply(s, a))
  {
  }

  lemma StepKeepsUnread(s: State, t: State)
    requires NeverReads(s) && Step(s, t)
    ensures NeverReads(t)
  {
    var a :| Enabled(s, a) && t == Apply(s, a);
    hide NeverReads;
    ActionKeepsUnread(s, a);
  }

  lemma EntryUnread(script: seq<Reply>, s: State)
    requires Inv(script, s) && s.reader == Entry && Left(s.status)
    ensures NeverReads(s)
  {
    EntryIsEmpty(script, s);
  }

  /** An iterator that leaves Started before its reader begins, as when Postgres ends the scan at once, never receives
      or returns anything. */
  lemma {:induction false} NothingRead(script: seq<Reply>, run: seq<State>, i: nat, j: nat)
    requires IsRun(script, run) && i <= j < |run|
    requires run[i].reader == Entry && Left(run[i].status)
    ensures NeverReads(run[j])
    decreases j
  {
    hide *;
    if i == j {
      RunKeepsInv(script, run, i);
      EntryUnread(script, run[i]);
    } else {
      NothingRead(script, run, i, j - 1);
      RunStepAt(script, run, j);
      StepKeepsUnread(run[j - 1], run[j]);
    }
  }

  // ---------- after a close ----------

  /** The reader can stop whenever it would wait for another reply. */
  ghost predicate CanStop(s: State) {
    s.cancelled && Left(s.status) && (s.reader == Select ==> Enabled(s, DoCancel))
  }

  lemma ActionKeepsStop(s: State, a: Action)
    requires CanStop(s) && Enabled(s, a) && (s.reader == Unborn ==> s.status == Ready)
    ensures CanStop(Apply(s, a))
  {
  }

  lemma StepKeepsStop(s: State, t: State)
    requires CanStop(s) && Step(s, t) && StatusInv(s)
    ensures CanStop(t)
  {
    var a :| Enabled(s, a) && t == Apply(s, a);
    hide CanStop;
    ActionKeepsStop(s, a);
  }

  /** Once an iterator was closed, in error or not, its reader can stop at every later wait for a reply. */
  lemma {:induction false} ClosedCanStop(script: seq<Reply>, run: seq<State>, i: nat, j: nat)
    requires IsRun(script, run) && 0 < i <= j < |run|
    requires Enabled(run[i - 1], DoClose) && run[i] == Apply(run[i - 1], DoClose)
    ensures CanStop(run[j])
    decreases j
  {
    if i == j {
      hide IsRun;
    } else {
      hide *;
      ClosedCanStop(script, run, i, j - 1);
      RunStepAt(script, run, j);
      RunKeepsStatus(script, run, j - 1);
      StepKeepsStop(run[j - 1], run[j]);
    }
  }

  // ---------- afterwards ----------

  /** The iterator has left Started, and at most the call that was waiting has returned a row since. */
  ghost predicate Afterwards(s: State, t: State) {
    && Left(t.status) && s.returned <= t.returned
    && |t.returned| + (if t.consumer == Taking then 1 else 0)
       <= |s.returned| + (if s.consumer == Taking then 1 else 0)
  }

  lemma StillAfterwards(r: State, s: State, t: State)
    requires Afterwards(r, s) && Afterwards(s, t)
    ensures Afterwards(r, t)
  {
  }

  lemma {:induction false} RunAfterwards(script: seq<Reply>, run: seq<State>, i: nat, j: nat)
    requires IsRun(script, run) && i <= j < |run| && Left(run[i].status)
    ensures Afterwards(run[i], run[j])
    decreases j
  {
    hide *;
    if i == j {
      SameAfterwards(run[i]);
    } else {
      RunAfterwards(script, run, i, j - 1);
      StepAt(script, run, j);
      AfterwardsIsLeft(run[i], run[j - 1]);
      AfterwardsStep(run[j - 1], run[j]);
      StillAfterwards(run[i], run[j - 1], run[j]);
    }
  }

  lemma SameAfterwards(s: State)
    requires Left(s.status)
    ensures Afterwards(s, s)
  {
  }

  lemma AfterwardsIsLeft(s: State, t: State)
    requires Afterwards(s, t)
    ensures Left(t.status)
  {
  }

  lemma StepAt(script: seq<Reply>, run: seq<State>, j: nat)
    requires IsRun(script, run) && 0 < j < |run|
    ensures Step(run[j - 1], run[j])
    ensures Left(run[j - 1].status) ==> run[j - 1].reader != Unborn
  {
    hide *;
    RunStepAt(script, run, j);
    RunKeepsStatus(script, run, j - 1);
    LeftIsBorn(run[j - 1]);
  }

  lemma RunStepAt(script: seq<Reply>, run: seq<State>, j: nat)
    requires IsRun(script, run) && 0 < j < |run|
    ensures Step(run[j - 1], run[j])
  {
    hide Step;
  }

  lemma LeftIsBorn(s: State)
    requires StatusInv(s)
    ensures Left(s.status) ==> s.reader != Unborn
  {
  }

  /** Once an iterator has left Started it never iterates again: a call of Next begun later returns an
      error or is refused, and only a call already waiting on the channel may still return a row. */
  lemma NoRowAfterwards(script: seq<Reply>, run: seq<State>, i: nat, j: nat)
    requires IsRun(script, run) && i <= j < |run|
    requires Left(run[i].status)
    ensures Left(run[j].status)
    ensures run[i].returned <= run[j].returned
    ensures |run[j].returned| + (if run[j].consumer == Taking then 1 else 0)
         <= |run[i].returned| + (if run[i].consumer == Taking then 1 else 0)
  {
    RunAfterwards(script, run, i, j);
  }

  lemma AfterwardsStep(s: State, t: State)
    requires Step(s, t) && s.reader != Unborn && Left(s.status)
    ensures Afterwards(s, t)
  {
    var a :| Enabled(s, a) && t == Apply(s, a);
    AfterwardsAction(s, a);
  }

  lemma AfterwardsAction(s: State, a: Action)
    requires Enabled(s, a) && s.reader != Unborn && Left(s.status)
    ensures var t := Apply(s, a);
      && Left(t.status) && s.returned <= t.returned
      && |t.returned| + (if t.consumer == Taking then 1 else 0)
         <= |s.returned| + (if s.consumer == Taking then 1 else 0)
  {
    if a == DoNextTake { assert s.returned <= NextTake(s).returned; }
  }
}
