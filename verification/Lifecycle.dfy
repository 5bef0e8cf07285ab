/** fdw.go over hub_base.go and exec.go: begin, iterate, rescan, explain, end and abort, in any order,
    over any number of scan nodes. */
module Lifecycle {
  import opened Wrappers
  import opened ScanProtocol
  import opened Hub
  import opened ExecStates

  type ScanNode = nat

  /** The iterator a saved state carries: none when explaining, an in-memory one for a command table. */
  datatype Entry = NoIterator | InMemory | Plugin(k: nat)

  datatype Session = Session(
    hub: HubState<nat>, table: Table<Entry>, nodes: map<ScanNode, Handle>, nextId: nat,
    // history: what each node was begun with; what was started, with no EndScan or Abort since; and
    // among those, the ones whose execute succeeded
    begun: map<ScanNode, Entry>, live: set<nat>, executed: set<nat>,
    // which scans Next ended, EndScan cut short, and Abort closed; and whether an Abort panicked
    finished: set<nat>, cut: set<nat>, aborted: set<nat>, panicked: bool)

  const INITIAL := Session(HubState(map[], {}, multiset{}), Table(0, map[]), map[], 0, map[], {}, {}, {}, {}, {}, false)

  datatype Event =
    // BeginForeignScan, and ReScanForeignScan, which begins again without ending
    | Begin(node: ScanNode, explain: bool, command: bool)
    | Explain(node: ScanNode)
    // IterateForeignScan: whether execute succeeds if the scan must start, and the status Next leaves
    | Iterate(node: ScanNode, executes: bool, after: Status)
    // the reader goroutine records a stream error
    | StreamError(k: nat)
    | End(node: ScanNode)
    | Abort
    // Abort reaches an iterator without a cancel function after closing some others
    | AbortPanics(closed: set<nat>, stuck: nat)

  function EntryAt(s: Session, node: ScanNode): Option<Entry> {
    Lookup(s.table, if node in s.nodes then Some(s.nodes[node]) else None)
  }

  predicate Enabled(s: Session, ev: Event) {
    match ev
    case Begin(_, _, _) => true
    case Explain(node) => true
    case Iterate(node, executes, after) =>
      (match EntryAt(s, node)
       case Some(Plugin(k)) =>
         && k in s.hub.iters
         && var i := if s.hub.iters[k].status == Ready then Started'(s.hub.iters[k], executes) else s.hub.iters[k];
           // a started scan goes on, completes or fails; any other is left alone
           if i.status == Started then after != Ready else after == i.status
       case Some(InMemory) => true
       case _ => false)
    case StreamError(k) => k in s.hub.iters && s.hub.iters[k].cancellable
    case End(node) =>
      (match EntryAt(s, node)
       case Some(Plugin(k)) => k in s.hub.iters && (s.hub.iters[k].status == Started ==> s.hub.iters[k].cancellable)
       case Some(NoIterator) => false
       case _ => true)
    case Abort => AllCancellable(s.hub)
    case AbortPanics(closed, stuck) =>
      && Outer(stuck) in s.hub.running && stuck in s.hub.iters && !s.hub.iters[stuck].cancellable
      && forall k :: k in closed ==> Outer(k) in s.hub.running && k in s.hub.iters && s.hub.iters[k].cancellable
  }

  function ClearNode(s: Session, node: ScanNode): Session {
    if node !in s.nodes then s
    else s.(table := Cleared(s.table, Some(s.nodes[node])), nodes := s.nodes - {node}, begun := s.begun - {node})
  }

  function BeginWith(s: Session, node: ScanNode, e: Entry): Session {
    s.(table := Saved(s.table, e), nodes := s.nodes[node := HandleOf(s.table.si + 1)], begun := s.begun[node := e])
  }

  function StartIfReady(s: Session, k: nat, executes: bool): Session
    requires k in s.hub.iters
  {
    if s.hub.iters[k].status != Ready then s
    else s.(hub := AfterStartScan(s.hub, k, executes), live := s.live + {k},
            executed := if executes then s.executed + {k} else s.executed)
  }

  /** The end of the rows is recorded. */
  function NextLeaves(s: Session, k: nat, after: Status): Session
    requires k in s.hub.iters
  {
    var h := AfterNextEnds(s.hub, k, after);
    if s.hub.iters[k].status == Started && after == Complete
    then s.(hub := Recorded(h, {k}), finished := s.finished + {k}) else s.(hub := h)
  }

  function EndWith(s: Session, k: nat): Session
    requires k in s.hub.iters
  {
    s.(hub := AfterEndScan(s.hub, k), live := s.live - {k}, executed := s.executed - {k},
       cut := if s.hub.iters[k].status == Started then s.cut + {k} else s.cut)
  }

  function Apply(s: Session, ev: Event): Session
    requires Enabled(s, ev)
  {
    match ev
    case Begin(node, explain, command) =>
      if explain then BeginWith(s, node, NoIterator)
      else if command then BeginWith(s, node, InMemory)
      else
        BeginWith(s.(hub := s.hub.(iters := s.hub.iters[s.nextId := IterState(Ready, false)]), nextId := s.nextId + 1),
                  node, Plugin(s.nextId))
    case Explain(node) => if EntryAt(s, node).None? then s else ClearNode(s, node)
    case Iterate(node, executes, after) =>
      (match EntryAt(s, node)
       case Some(Plugin(k)) => NextLeaves(StartIfReady(s, k, executes), k, after)
       case _ => s)
    case StreamError(k) => s.(hub := s.hub.(iters := s.hub.iters[k := s.hub.iters[k].(status := Errored)]))
    case End(node) =>
      (match EntryAt(s, node)
       case Some(Plugin(k)) =>
         ClearNode(EndWith(s, k), node)
       case _ => ClearNode(s, node))
    case Abort => s.(hub := AfterAbort(s.hub), live := {}, executed := {}, aborted := s.aborted + RunningIters(s.hub))
    case AbortPanics(closed, stuck) =>
      var iters := map k | k in s.hub.iters :: if k in closed then Closed(s.hub.iters[k]) else s.hub.iters[k];
      s.(hub := Recorded(s.hub.(iters := iters), closed + {stuck}), panicked := true)
  }

  ghost predicate Step(s: Session, t: Session) {
    exists ev :: Enabled(s, ev) && t == Apply(s, ev)
  }

  ghost predicate IsRun(run: seq<Session>) {
    && run != [] && run[0] == INITIAL
    && forall i :: 0 < i < |run| ==> Step(run[i - 1], run[i])
  }

  ghost predicate Reachable(s: Session) {
    exists run :: IsRun(run) && run[|run| - 1] == s
  }

  // ---------- running iterators ----------

  ghost predicate HubInv(s: Session) {
    && (forall k :: k in s.hub.iters ==> k < s.nextId)
    && (forall x :: x in s.hub.running <==> x.Outer? && x.k in s.live)
    && (forall k :: k in s.live ==> k in s.hub.iters)
    && (forall k :: k in s.live ==> (s.hub.iters[k].cancellable <==> k in s.executed))
    && (forall k :: k in s.executed ==> k in s.live)
    && (forall k :: k in s.hub.iters && s.hub.iters[k].status == Started ==> k in s.executed)
    && (forall k :: k in s.hub.iters ==> (s.hub.iters[k].status == Ready <==> !s.hub.iters[k].cancellable))
  }

  lemma StartKeepsHub(s: Session, k: nat, executes: bool)
    requires HubInv(s) && k in s.hub.iters
    ensures HubInv(StartIfReady(s, k, executes))
  {
  }

  lemma NextKeepsHub(s: Session, k: nat, after: Status)
    requires HubInv(s) && k in s.hub.iters
    requires if s.hub.iters[k].status == Started then after != Ready else after == s.hub.iters[k].status
    ensures HubInv(NextLeaves(s, k, after))
  {
  }

  lemma SameHub(s: Session, t: Session)
    requires HubInv(s) && t.hub == s.hub && t.live == s.live && t.executed == s.executed && t.nextId >= s.nextId
    ensures HubInv(t)
  {
  }

  lemma NewKeepsHub(s: Session, t: Session)
    requires HubInv(s) && t.live == s.live && t.executed == s.executed && t.nextId == s.nextId + 1
    requires t.hub == s.hub.(iters := s.hub.iters[s.nextId := IterState(Ready, false)])
    ensures HubInv(t)
  {
  }

  lemma ErrorKeepsHub(s: Session, k: nat)
    requires HubInv(s) && Enabled(s, StreamError(k))
    ensures HubInv(Apply(s, StreamError(k)))
  {
  }

  lemma EndKeepsHub(s: Session, k: nat)
    requires HubInv(s) && k in s.hub.iters
    ensures HubInv(EndWith(s, k))
  {
  }

  lemma AbortKeepsHub(s: Session)
    requires HubInv(s) && Enabled(s, Abort)
    ensures HubInv(Apply(s, Abort))
  {
    forall k | k in s.live ensures Outer(k) in s.hub.running { assert Outer(k).k in s.live; }
  }

  lemma PanicKeepsHub(s: Session, closed: set<nat>, stuck: nat)
    requires HubInv(s) && Enabled(s, AbortPanics(closed, stuck))
    ensures HubInv(Apply(s, AbortPanics(closed, stuck)))
  {
  }

  lemma ApplyKeepsHub(s: Session, ev: Event)
    requires HubInv(s) && Enabled(s, ev)
    ensures HubInv(Apply(s, ev))
  {
    hide HubInv;
    match ev
    case Begin(_, explain, command) =>
      if explain || command { SameHub(s, Apply(s, ev)); } else { NewKeepsHub(s, Apply(s, ev)); }
    case Explain(_) => SameHub(s, Apply(s, ev));
    case Iterate(node, executes, after) =>
      if EntryAt(s, node) != Some(InMemory) {
        var k := EntryAt(s, node).value.k;
        StartKeepsHub(s, k, executes);
        NextKeepsHub(StartIfReady(s, k, executes), k, after);
      }
    case StreamError(k) => ErrorKeepsHub(s, k);
    case End(node) =>
      if EntryAt(s, node).Some? && EntryAt(s, node).value.Plugin? {
        EndKeepsHub(s, EntryAt(s, node).value.k);
        SameHub(EndWith(s, EntryAt(s, node).value.k), Apply(s, ev));
      } else {
        SameHub(s, Apply(s, ev));
      }
    case Abort => AbortKeepsHub(s);
    case AbortPanics(closed, stuck) => PanicKeepsHub(s, closed, stuck);
  }

  // ---------- recorded metadata ----------

  function Times(s: Session, k: nat): nat {
    (if k in s.finished then 1 else 0) + (if k in s.cut then 1 else 0) + (if k in s.aborted then 1 else 0)
  }

  /** Every record has its cause, and no scan is cut short that finished or was aborted. */
  ghost predicate RecordInv(s: Session) {
    && (forall k :: s.hub.recorded[k] == Times(s, k))
    && (forall k :: k in s.cut ==> k !in s.finished && k !in s.aborted)
    && (forall k :: k in s.cut || k in s.aborted ==> k !in s.live)
    && (forall k :: Times(s, k) > 0 ==> k in s.hub.iters && Left(s.hub.iters[k].status))
    && (forall k :: k in s.hub.iters && s.hub.iters[k].status == Complete ==> Times(s, k) > 0)
  }

  lemma StartKeepsRecord(s: Session, k: nat, executes: bool)
    requires HubInv(s) && RecordInv(s) && k in s.hub.iters
    ensures RecordInv(StartIfReady(s, k, executes))
  {
    var t := StartIfReady(s, k, executes);
    assert forall i :: Times(t, i) == Times(s, i);
  }

  lemma NextKeepsRecord(s: Session, k: nat, after: Status)
    requires HubInv(s) && RecordInv(s) && k in s.hub.iters
    requires if s.hub.iters[k].status == Started then after != Ready else after == s.hub.iters[k].status
    ensures RecordInv(NextLeaves(s, k, after))
  {
    var t := NextLeaves(s, k, after);
    assert Times(s, k) > 0 ==> Left(s.hub.iters[k].status);
    assert forall i :: i != k ==> Times(t, i) == Times(s, i);
  }

  lemma EndKeepsRecord(s: Session, k: nat)
    requires HubInv(s) && RecordInv(s) && k in s.hub.iters
    ensures RecordInv(EndWith(s, k))
  {
    var t := EndWith(s, k);
    assert Times(s, k) > 0 ==> Left(s.hub.iters[k].status);
    assert forall i :: i != k ==> Times(t, i) == Times(s, i);
  }

  lemma RunningIsLive(s: Session)
    requires HubInv(s)
    ensures RunningIters(s.hub) == s.live
    ensures forall k :: k in s.live ==> k in s.hub.iters && Outer(k) in s.hub.running
    ensures Enabled(s, Abort) ==> forall k :: k in s.live ==> s.hub.iters[k].status != Ready
  {
    forall k | k in s.live ensures Outer(k) in s.hub.running && k in RunningIters(s.hub) {
      assert Outer(k) in s.hub.running;
    }
  }

  lemma AbortTimes(s: Session, k: nat)
    requires RecordInv(s) && RunningIters(s.hub) == s.live && Enabled(s, Abort)
    ensures Times(Apply(s, Abort), k) == Times(s, k) + if k in s.live then 1 else 0
    ensures Apply(s, Abort).hub.recorded[k] == Times(Apply(s, Abort), k)
  {
  }

  lemma AbortKeepsRecord(s: Session)
    requires HubInv(s) && RecordInv(s) && Enabled(s, Abort)
    ensures RecordInv(Apply(s, Abort))
  {
    hide HubInv, Times;
    RunningIsLive(s);
    var t := Apply(s, Abort);
    forall k ensures Times(t, k) == (Times(s, k) + if k in s.live then 1 else 0) && t.hub.recorded[k] == Times(t, k) {
      AbortTimes(s, k);
    }
  }

  lemma SameTimes(s: Session, t: Session)
    requires RecordInv(s) && t.hub.recorded == s.hub.recorded && t.live == s.live
    requires t.finished == s.finished && t.cut == s.cut && t.aborted == s.aborted
    requires forall k :: k in s.hub.iters ==>
      k in t.hub.iters && (Left(s.hub.iters[k].status) ==> Left(t.hub.iters[k].status))
    requires forall k :: k in t.hub.iters && t.hub.iters[k].status == Complete ==>
      k in s.hub.iters && s.hub.iters[k].status == Complete
    ensures RecordInv(t)
  {
    assert forall k :: Times(t, k) == Times(s, k);
  }

  lemma EndEventKeepsRecord(s: Session, node: ScanNode)
    requires HubInv(s) && RecordInv(s) && Enabled(s, End(node))
    ensures RecordInv(Apply(s, End(node)))
  {
    if EntryAt(s, node).Some? && EntryAt(s, node).value.Plugin? {
      var ended := EndWith(s, EntryAt(s, node).value.k);
      EndKeepsRecord(s, EntryAt(s, node).value.k);
      hide HubInv, RecordInv, EndWith;
      SameTimes(ended, Apply(s, End(node)));
    } else {
      hide HubInv, RecordInv;
      SameTimes(s, Apply(s, End(node)));
    }
  }

  lemma IterateKeepsRecord(s: Session, node: ScanNode, executes: bool, after: Status)
    requires HubInv(s) && RecordInv(s) && Enabled(s, Iterate(node, executes, after))
    ensures RecordInv(Apply(s, Iterate(node, executes, after)))
  {
    hide HubInv, RecordInv;
    if EntryAt(s, node) != Some(InMemory) {
      var k := EntryAt(s, node).value.k;
      StartKeepsHub(s, k, executes);
      StartKeepsRecord(s, k, executes);
      NextKeepsRecord(StartIfReady(s, k, executes), k, after);
    }
  }

  lemma ApplyKeepsRecord(s: Session, ev: Event)
    requires HubInv(s) && RecordInv(s) && Enabled(s, ev) && !ev.AbortPanics?
    ensures RecordInv(Apply(s, ev))
  {
    hide HubInv, RecordInv, EntryAt;
    match ev
    case Iterate(node, executes, after) => IterateKeepsRecord(s, node, executes, after);
    case End(node) => EndEventKeepsRecord(s, node);
    case Abort => AbortKeepsRecord(s);
    case Begin(_, _, _) =>
      NewIsReady(s);
      SameTimes(s, Apply(s, ev));
    case Explain(_) => SameTimes(s, Apply(s, ev));
    case StreamError(_) => SameTimes(s, Apply(s, ev));
    case AbortPanics(_, _) =>
  }

  lemma NewIsReady(s: Session)
    requires HubInv(s)
    ensures s.nextId !in s.hub.iters
  {
  }

  // ---------- saved states ----------

  /** While the counter fits the token, each node's handle finds what the node was begun with. */
  ghost predicate TableInv(s: Session) {
    && Numbered(s.table)
    && s.nodes.Keys == s.begun.Keys
    && (s.table.si < TOKENS ==>
         && (forall n :: n in s.nodes ==> s.nodes[n] in s.table.sess && s.table.sess[s.nodes[n]] == s.begun[n])
         && (forall m, n :: m in s.nodes && n in s.nodes && m != n ==> s.nodes[m] != s.nodes[n]))
  }

  lemma BeginKeepsTable(s: Session, node: ScanNode, e: Entry)
    requires TableInv(s)
    ensures TableInv(BeginWith(s, node, e))
  {
    var t := BeginWith(s, node, e);
    if t.table.si < TOKENS {
      forall n | n in t.nodes ensures t.nodes[n] in t.table.sess && t.table.sess[t.nodes[n]] == t.begun[n] {
        if n != node { assert s.nodes[n] <= s.table.si; }
      }
      forall n | n in s.nodes && n != node ensures t.nodes[n] != t.nodes[node] {
        assert s.nodes[n] in s.table.sess;
      }
    }
  }

  lemma ClearKeepsTable(s: Session, node: ScanNode)
    requires TableInv(s)
    ensures TableInv(ClearNode(s, node))
  {
    var t := ClearNode(s, node);
    if node in s.nodes && t.table.si < TOKENS {
      forall n | n in t.nodes ensures t.nodes[n] in t.table.sess && t.table.sess[t.nodes[n]] == t.begun[n] {
        assert s.nodes[n] != s.nodes[node];
      }
    }
  }

  lemma SameTable(s: Session, t: Session)
    requires TableInv(s) && t.table == s.table && t.nodes == s.nodes && t.begun == s.begun
    ensures TableInv(t)
  {
  }

  lemma ApplyKeepsTable(s: Session, ev: Event)
    requires TableInv(s) && Enabled(s, ev)
    ensures TableInv(Apply(s, ev))
  {
    hide TableInv;
    match ev
    case Begin(node, explain, command) =>
      if explain { BeginKeepsTable(s, node, NoIterator); }
      else if command { BeginKeepsTable(s, node, InMemory); }
      else {
        var made := s.(hub := s.hub.(iters := s.hub.iters[s.nextId := IterState(Ready, false)]),
                       nextId := s.nextId + 1);
        SameTable(s, made);
        BeginKeepsTable(made, node, Plugin(s.nextId));
      }
    case Explain(node) => ClearKeepsTable(s, node);
    case End(node) =>
      if EntryAt(s, node).Some? && EntryAt(s, node).value.Plugin? {
        var ended := EndWith(s, EntryAt(s, node).value.k);
        SameTable(s, ended);
        ClearKeepsTable(ended, node);
      } else {
        ClearKeepsTable(s, node);
      }
    case Iterate(_, _, _) => SameTable(s, Apply(s, ev));
    case StreamError(_) => SameTable(s, Apply(s, ev));
    case Abort => SameTable(s, Apply(s, ev));
    case AbortPanics(_, _) => SameTable(s, Apply(s, ev));
  }

  /** Saved states carry iterators that were made. */
  ghost predicate EntryInv(s: Session) {
    forall i :: i in s.table.sess && s.table.sess[i].Plugin? ==> s.table.sess[i].k < s.nextId
  }

  lemma ApplyKeepsEntries(s: Session, ev: Event)
    requires EntryInv(s) && Enabled(s, ev)
    ensures EntryInv(Apply(s, ev))
  {
  }

  /** No two nodes were begun with the same iterator. */
  ghost predicate BegunInv(s: Session) {
    && (forall n :: n in s.begun && s.begun[n].Plugin? ==> s.begun[n].k < s.nextId)
    && (forall m, n :: m in s.begun && n in s.begun && m != n && s.begun[m].Plugin? ==> s.begun[m] != s.begun[n])
  }

  lemma FewerBegun(s: Session, t: Session)
    requires BegunInv(s) && t.nextId >= s.nextId
    requires forall n :: n in t.begun ==> n in s.begun && t.begun[n] == s.begun[n]
    ensures BegunInv(t)
  {
  }

  lemma MoreBegun(s: Session, t: Session, node: ScanNode, e: Entry)
    requires BegunInv(s) && t.nextId >= s.nextId && t.begun == s.begun[node := e]
    requires e.Plugin? ==> s.nextId <= e.k < t.nextId
    ensures BegunInv(t)
  {
  }

  lemma ApplyKeepsBegun(s: Session, ev: Event)
    requires BegunInv(s) && Enabled(s, ev)
    ensures BegunInv(Apply(s, ev))
  {
    hide BegunInv, EntryAt;
    match ev
    case Begin(node, _, _) => MoreBegun(s, Apply(s, ev), node, Apply(s, ev).begun[node]);
    case Explain(_) => FewerBegun(s, Apply(s, ev));
    case Iterate(_, _, _) => FewerBegun(s, Apply(s, ev));
    case StreamError(_) => FewerBegun(s, Apply(s, ev));
    case End(_) => FewerBegun(s, Apply(s, ev));
    case Abort => FewerBegun(s, Apply(s, ev));
    case AbortPanics(_, _) => FewerBegun(s, Apply(s, ev));
  }

  lemma PanicStays(s: Session, ev: Event)
    requires Enabled(s, ev) && (s.panicked || ev.AbortPanics?)
    ensures Apply(s, ev).panicked
  {
    hide EntryAt;
  }

  lemma {:induction false} RunKeepsInvariants(run: seq<Session>, i: nat)
    requires IsRun(run) && i < |run|
    ensures HubInv(run[i]) && TableInv(run[i]) && EntryInv(run[i]) && BegunInv(run[i]) &&
      (!run[i].panicked ==> RecordInv(run[i]))
  {
    if i > 0 {
      RunKeepsInvariants(run, i - 1);
      assert Step(run[i - 1], run[i]);
      var ev :| Enabled(run[i - 1], ev) && run[i] == Apply(run[i - 1], ev);
      if run[i - 1].panicked || ev.AbortPanics? { PanicStays(run[i - 1], ev); }
      hide *;
      ApplyKeepsHub(run[i - 1], ev);
      ApplyKeepsTable(run[i - 1], ev);
      ApplyKeepsEntries(run[i - 1], ev);
      ApplyKeepsBegun(run[i - 1], ev);
      if !run[i].panicked { ApplyKeepsRecord(run[i - 1], ev); }
    }
  }

  /** Over every run: the running set is exactly the plugin iterators that StartScan was called for with
      no EndScan or Abort since, so the removal Next attempts has no effect; each holds a cancel
      function exactly when its execute succeeded; and nothing outside the set is still started. */
  lemma RunningExactly(s: Session)
    requires Reachable(s)
    ensures s.hub.running == set k | k in s.live :: Outer(k)
    ensures forall k :: k in s.live ==> k in s.hub.iters && (s.hub.iters[k].cancellable <==> k in s.executed)
    ensures forall k :: k in s.hub.iters && s.hub.iters[k].status == Started ==> k in s.live
  {
    var run :| IsRun(run) && run[|run| - 1] == s;
    RunKeepsInvariants(run, |run| - 1);
  }

  ghost predicate InError(s: Session, k: nat) {
    k in s.hub.iters && s.hub.iters[k].status == Errored
  }

  lemma IterateLeavesError(s: Session, j: nat, executes: bool, after: Status, k: nat)
    requires InError(s, k) && j in s.hub.iters
    requires j == k ==> after == Errored
    ensures InError(NextLeaves(StartIfReady(s, j, executes), j, after), k)
  {
  }

  lemma EndLeavesError(s: Session, j: nat, k: nat)
    requires InError(s, k) && j in s.hub.iters
    ensures InError(EndWith(s, j), k)
  {
  }

  lemma AbortLeavesError(s: Session, k: nat)
    requires InError(s, k) && Enabled(s, Abort)
    ensures InError(Apply(s, Abort), k)
  {
  }

  /** An iterator in error stays so whatever happens: neither its end nor Abort makes a complete scan of it. */
  lemma ErroredStays(s: Session, ev: Event, k: nat)
    requires Reachable(s) && Enabled(s, ev) && InError(s, k)
    ensures InError(Apply(s, ev), k)
  {
    var run :| IsRun(run) && run[|run| - 1] == s;
    RunKeepsInvariants(run, |run| - 1);
    NewIsReady(s);
    hide HubInv, TableInv, EntryInv, BegunInv, RecordInv, Reachable, IsRun, NextLeaves, StartIfReady, EndWith;
    match ev
    case Iterate(node, executes, after) =>
      if EntryAt(s, node) != Some(InMemory) {
        IterateLeavesError(s, EntryAt(s, node).value.k, executes, after, k);
      }
    case End(node) =>
      if EntryAt(s, node).Some? && EntryAt(s, node).value.Plugin? { EndLeavesError(s, EntryAt(s, node).value.k, k); }
    case Abort => AbortLeavesError(s, k);
    case Begin(_, _, _) =>
    case Explain(_) =>
    case StreamError(_) =>
    case AbortPanics(_, _) =>
  }

  /** Abort goes through exactly when every running iterator's execute succeeded; then nothing is
      running and nothing is still started. */
  lemma AbortClosesAll(s: Session)
    requires Reachable(s)
    ensures Enabled(s, Abort) <==> s.executed == s.live
    ensures s.executed == s.live ==>
      var t := Apply(s, Abort);
      t.hub.running == {} && forall k :: k in t.hub.iters ==> t.hub.iters[k].status != Started
  {
    var run :| IsRun(run) && run[|run| - 1] == s;
    RunKeepsInvariants(run, |run| - 1);
    if Enabled(s, Abort) {
      forall k | k in s.live ensures k in s.executed { assert Outer(k) in s.hub.running; }
    }
  }

  /** The scan metadata of an iterator is added at most twice, and twice exactly when its scan had come to its
      end but not been ended when Abort came; a scan that is complete never went unrecorded. */
  lemma RecordedTwiceExactlyWhen(s: Session, k: nat)
    requires Reachable(s) && !s.panicked
    ensures s.hub.recorded[k] <= 2
    ensures s.hub.recorded[k] == 2 <==> k in s.finished && k in s.aborted
    ensures k in s.hub.iters && s.hub.iters[k].status == Complete ==> s.hub.recorded[k] >= 1
  {
    var run :| IsRun(run) && run[|run| - 1] == s;
    RunKeepsInvariants(run, |run| - 1);
  }

  /** A handle not cleared finds the state its node was begun with, while fewer than 2^32 states have
      been saved. */
  lemma NodeFindsItsState(s: Session, n: ScanNode)
    requires Reachable(s) && n in s.nodes && s.table.si < TOKENS
    ensures n in s.begun && EntryAt(s, n) == Some(s.begun[n])
  {
    var run :| IsRun(run) && run[|run| - 1] == s;
    RunKeepsInvariants(run, |run| - 1);
  }

  /** Beginning makes a new iterator, which waits to be started, unless the scan is only explained or reads a command
      table; the node then finds what was made for it, and nothing runs that did not. */
  lemma BeginMakes(s: Session, n: ScanNode, explain: bool, command: bool)
    requires Reachable(s) && s.table.si + 1 < TOKENS
    ensures var t := Apply(s, Begin(n, explain, command));
      && t.hub.running == s.hub.running
      && (explain || command ==>
           t.hub == s.hub && EntryAt(t, n) == Some(if explain then NoIterator else InMemory))
      && (!explain && !command ==>
           exists k :: k !in s.hub.iters && t.hub.iters == s.hub.iters[k := IterState(Ready, false)] &&
             EntryAt(t, n) == Some(Plugin(k)))
  {
    NextIsNew(s);
    var made := s.(hub := s.hub.(iters := s.hub.iters[s.nextId := IterState(Ready, false)]), nextId := s.nextId + 1);
    BeginFinds(s, n, NoIterator);
    BeginFinds(s, n, InMemory);
    BeginFinds(made, n, Plugin(s.nextId));
    hide Reachable, EntryAt;
    assert s.nextId !in s.hub.iters && made.hub.iters == s.hub.iters[s.nextId := IterState(Ready, false)];
  }

  lemma NextIsNew(s: Session)
    requires Reachable(s)
    ensures s.nextId !in s.hub.iters
  {
    var run :| IsRun(run) && run[|run| - 1] == s;
    RunKeepsInvariants(run, |run| - 1);
    NewIsReady(s);
  }

  lemma BeginFinds(s: Session, n: ScanNode, e: Entry)
    requires s.table.si + 1 < TOKENS
    ensures EntryAt(BeginWith(s, n, e), n) == Some(e) && BeginWith(s, n, e).hub == s.hub
  {
  }

  lemma HandleBelow(s: Session, n: ScanNode)
    requires Reachable(s) && n in s.nodes && s.table.si < TOKENS
    ensures n in s.begun && s.nodes[n] <= s.table.si && EntryAt(s, n) == Some(s.begun[n])
    ensures forall m :: m in s.nodes && m != n ==> s.nodes[m] != s.nodes[n]
  {
    var run :| IsRun(run) && run[|run| - 1] == s;
    RunKeepsInvariants(run, |run| - 1);
    hide HubInv, EntryInv, BegunInv, RecordInv, Reachable, IsRun;
  }

  /** A rescan begins again without ending: the iterator it replaces stays in the running set exactly if it
      had been started, and then the end of its node does not find it, only Abort does. */
  lemma RescanLeavesOrphan(s: Session, n: ScanNode, k: nat)
    requires Reachable(s) && n in s.nodes && EntryAt(s, n) == Some(Plugin(k)) && s.table.si + 1 < TOKENS
    ensures var t := Apply(s, Begin(n, false, false));
      && EntryAt(t, n) == Some(Plugin(s.nextId)) && s.nextId != k
      && (Outer(k) in t.hub.running <==> k in s.live)
      && (Enabled(t, End(n)) ==> (Outer(k) in Apply(t, End(n)).hub.running <==> k in s.live))
  {
    var run :| IsRun(run) && run[|run| - 1] == s;
    RunKeepsInvariants(run, |run| - 1);
    hide TableInv, BegunInv, RecordInv, Reachable, IsRun;
    RescanReplaces(s, n, k);
    RunningIsLive(s);
  }

  /** The handle a rescan saves finds the new iterator, and the end of the node ends that one. */
  lemma RescanReplaces(s: Session, n: ScanNode, k: nat)
    requires n in s.nodes && EntryAt(s, n) == Some(Plugin(k)) && s.table.si + 1 < TOKENS && EntryInv(s)
    ensures var t := Apply(s, Begin(n, false, false));
      && EntryAt(t, n) == Some(Plugin(s.nextId)) && s.nextId != k
      && t.hub.running == s.hub.running
      && (Enabled(t, End(n)) ==> Apply(t, End(n)).hub.running == s.hub.running - {Outer(s.nextId)})
  {
  }

  /** Nor is the state of that iterator ever forgotten: its handle is lost, but still names it after the node ends. */
  lemma RescanLeaksState(s: Session, n: ScanNode, k: nat)
    requires Reachable(s) && n in s.nodes && EntryAt(s, n) == Some(Plugin(k)) && s.table.si + 1 < TOKENS
    ensures var t := Apply(s, Begin(n, false, false));
      && Lookup(t.table, Some(s.nodes[n])) == Some(Plugin(k))
      && (Enabled(t, End(n)) ==> Lookup(Apply(t, End(n)).table, Some(s.nodes[n])) == Some(Plugin(k)))
  {
    HandleBelow(s, n);
    hide Reachable;
    var t := Apply(s, Begin(n, false, false));
    assert t.nodes[n] == HandleOf(s.table.si + 1) != s.nodes[n];
    if Enabled(t, End(n)) { EndClears(t, n); }
  }

  lemma EndClears(s: Session, n: ScanNode)
    requires n in s.nodes && Enabled(s, End(n))
    ensures var t := Apply(s, End(n)); t.nodes == s.nodes - {n} && t.table == Cleared(s.table, Some(s.nodes[n]))
  {
  }

  /** The end of a node forgets what it was begun with, and nothing else. */
  lemma EndForgetsState(s: Session, n: ScanNode)
    requires Reachable(s) && n in s.nodes && s.table.si < TOKENS && Enabled(s, End(n))
    ensures var t := Apply(s, End(n));
      && n !in t.nodes && Lookup(t.table, Some(s.nodes[n])) == None
      && forall m :: m in s.nodes && m != n ==> m in t.nodes && EntryAt(t, m) == EntryAt(s, m)
  {
    HandleBelow(s, n);
    EndClears(s, n);
    hide Reachable, Apply, Enabled;
  }

  /** EXPLAIN ANALYZE explains a scan that has run, which forgets its state before the end of the node can find it:
      the iterator stays in the running set exactly if it had been started, and no node finds it any more. */
  lemma ExplainLeavesOrphan(s: Session, n: ScanNode, k: nat)
    requires Reachable(s) && n in s.nodes && EntryAt(s, n) == Some(Plugin(k)) && s.table.si < TOKENS
    ensures var t := Apply(s, Explain(n));
      && n !in t.nodes && EntryAt(t, n) == None
      && (Outer(k) in t.hub.running <==> k in s.live)
      && forall m :: m in t.nodes ==> EntryAt(t, m) != Some(Plugin(k))
  {
    var run :| IsRun(run) && run[|run| - 1] == s;
    RunKeepsInvariants(run, |run| - 1);
    var t := Apply(s, Explain(n));
    NodeFindsItsState(s, n);
    Extend(s, Explain(n));
    hide HubInv, TableInv, EntryInv, RecordInv, Reachable;
    forall m | m in t.nodes ensures EntryAt(t, m) != Some(Plugin(k)) {
      NodeFindsItsState(t, m);
    }
    RunningExactly(s);
  }

  // ---------- such sessions happen ----------

  lemma Extend(s: Session, ev: Event)
    requires Reachable(s) && Enabled(s, ev)
    ensures Reachable(Apply(s, ev))
  {
    var run :| IsRun(run) && run[|run| - 1] == s;
    var longer := run + [Apply(s, ev)];
    forall i | 0 < i < |longer| ensures Step(longer[i - 1], longer[i]) {
      if i < |run| { assert Step(run[i - 1], run[i]); } else { assert longer[i - 1] == s && longer[i] == Apply(s, ev); }
    }
    assert IsRun(longer);
  }

  /** A scan begun and iterated once. */
  lemma IteratedOnce(after: Status) returns (s: Session)
    requires after != Ready
    ensures Reachable(s) && !s.panicked && s.nodes.Keys == {0} && EntryAt(s, 0) == Some(Plugin(0)) &&
      s.table.si + 1 < TOKENS
    ensures s.live == {0} == s.executed && s.aborted == {} && s.finished == if after == Complete then {0} else {}
    ensures s.hub.running == {Outer(0)} && s.hub.iters == map[0 := IterState(after, true)]
  {
    var begun := BegunOnce();
    hide Reachable;
    Extend(begun, Iterate(0, true, after));
    s := Apply(begun, Iterate(0, true, after));
  }

  lemma BegunOnce() returns (s: Session)
    ensures Reachable(s) && s.nodes.Keys == {0} && EntryAt(s, 0) == Some(Plugin(0)) && s.table.si == 1
    ensures s == INITIAL.(table := s.table, nodes := s.nodes, begun := s.begun, nextId := s.nextId,
                          hub := HubState(map[0 := IterState(Ready, false)], {}, multiset{}))
  {
    assert IsRun([INITIAL]);
    Extend(INITIAL, Begin(0, false, false));
    s := Apply(INITIAL, Begin(0, false, false));
  }

  /** Begun, iterated and rescanned: an iterator that only Abort will find. */
  lemma OrphanHappens() returns (t: Session)
    ensures Reachable(t) && Outer(0) in t.hub.running && forall n :: n in t.nodes ==> EntryAt(t, n) != Some(Plugin(0))
  {
    var s := IteratedOnce(Started);
    RescanLeavesOrphan(s, 0, 0);
    Extend(s, Begin(0, false, false));
    t := Apply(s, Begin(0, false, false));
    assert t.nodes.Keys == {0};
  }

  /** Begun, iterated and explained: another. */
  lemma ExplainedOrphanHappens() returns (t: Session)
    ensures Reachable(t) && Outer(0) in t.hub.running && t.nodes == map[]
    ensures 0 in t.hub.iters && t.hub.iters[0].status == Started
  {
    var s := IteratedOnce(Started);
    ExplainLeavesOrphan(s, 0, 0);
    Extend(s, Explain(0));
    t := Apply(s, Explain(0));
    assert t.nodes.Keys == {};
  }

  /** Read to the end and aborted before EndScan: counted twice. */
  lemma CountedTwiceHappens() returns (t: Session)
    ensures Reachable(t) && !t.panicked && t.hub.recorded[0] == 2
  {
    var s := IteratedOnce(Complete);
    Extend(s, Abort);
    t := Apply(s, Abort);
    assert Outer(0) in s.hub.running && RunningIters(s.hub) == {0};
    RecordedTwiceExactlyWhen(t, 0);
  }
}
