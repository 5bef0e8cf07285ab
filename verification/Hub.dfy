/** hub/hub_base.go: the iterators that are running, from StartScan to EndScan or Abort. */
module Hub {
  import opened ScanProtocol

  /** What the hub knows of an iterator: its status, and whether Start gave it a cancel function. */
  datatype IterState = IterState(status: Status, cancellable: bool)

  /** The pointer an iterator is known by: the iterator itself, or the base embedded in it, which is
      what Next hands to RemoveIterator. */
  datatype Key<K> = Outer(k: K) | Embedded(k: K)

  /** recorded counts how often the scan metadata of an iterator was added to the hub's. */
  datatype HubState<K> = HubState(iters: map<K, IterState>, running: set<Key<K>>, recorded: multiset<K>)

  /** Start: nothing changes when execute fails. */
  function Started'(i: IterState, executed: bool): IterState {
    if executed then IterState(Started, true) else i
  }

  /** Close: cancels; an iterator in error stays in error. */
  function Closed(i: IterState): IterState {
    i.(status := if i.status == Errored then Errored else Complete)
  }

  /** StartScan ignores Start's error: the iterator is added either way. */
  function AfterStartScan<K>(h: HubState<K>, k: K, executed: bool): HubState<K>
    requires k in h.iters
  {
    h.(iters := h.iters[k := Started'(h.iters[k], executed)], running := h.running + {Outer(k)})
  }

  /** What Next does at the end of the rows or on an error: a status, and the ineffective removal. */
  function AfterNextEnds<K>(h: HubState<K>, k: K, status: Status): HubState<K>
    requires k in h.iters
  {
    h.(iters := h.iters[k := h.iters[k].(status := status)], running := h.running - {Embedded(k)})
  }

  function Recorded<K>(h: HubState<K>, ks: set<K>): HubState<K> {
    h.(recorded := h.recorded + multiset(ks))
  }

  function AfterEndScan<K>(h: HubState<K>, k: K): HubState<K>
    requires k in h.iters
  {
    var g := if h.iters[k].status == Started then Recorded(h.(iters := h.iters[k := Closed(h.iters[k])]), {k}) else h;
    g.(running := h.running - {Outer(k)})
  }

  function RunningIters<K>(h: HubState<K>): set<K> {
    set x | x in h.running && x.Outer? :: x.k
  }

  function AfterAbort<K>(h: HubState<K>): HubState<K> {
    var iters := map k | k in h.iters :: if Outer(k) in h.running then Closed(h.iters[k]) else h.iters[k];
    Recorded(HubState(iters, {}, h.recorded), RunningIters(h))
  }

  /** Every running iterator can be cancelled: otherwise Abort calls a nil function. */
  predicate AllCancellable<K>(h: HubState<K>) {
    forall x :: x in h.running && x.Outer? && x.k in h.iters ==> h.iters[x.k].cancellable
  }

  // ---------- Abort half done ----------

  ghost predicate HalfClosed<K>(running: set<Key<K>>, remaining: set<Key<K>>, closed: set<K>) {
    && remaining <= running
    && (forall k :: k in closed ==> Outer(k) in running)
    && (forall x :: x in running ==> x.Outer? && (x.k in closed <==> x !in remaining))
  }

  lemma NextClosed<K>(running: set<Key<K>>, remaining: set<Key<K>>, closed: set<K>, x: Key<K>)
    requires HalfClosed(running, remaining, closed) && x in remaining
    ensures x.k !in closed && HalfClosed(running, remaining - {x}, closed + {x.k})
    ensures multiset(closed + {x.k}) == multiset(closed) + multiset{x.k}
  {
    assert x.k !in closed;
  }

  lemma AllClosed<K>(h: HubState<K>, closed: set<K>)
    requires HalfClosed(h.running, {}, closed)
    ensures closed == RunningIters(h)
  {
  }

  // ---------- the objects ----------

  class PluginIterator {
    var status: Status
    // the cancel function Start stores
    var cancellable: bool

    constructor ()
      ensures status == Ready && !cancellable
    {
      status, cancellable := Ready, false;
    }

    method Start(executed: bool)
      modifies this
      ensures IterState(status, cancellable) == Started'(old(IterState(status, cancellable)), executed)
    {
      if executed {
        status, cancellable := Started, true;
      }
    }

    method Close()
      requires cancellable
      modifies this`status
      ensures IterState(status, cancellable) == Closed(old(IterState(status, cancellable)))
    {
      if status != Errored { status := Complete; }
    }
  }

  class HubBase {
    var runningIterators: set<Key<PluginIterator>>
    // whose scan metadata was added, and how often
    var scanMetadata: multiset<PluginIterator>
    // every iterator handed out
    ghost var known: set<PluginIterator>

    ghost predicate Valid()
      reads this
    {
      forall x :: x in runningIterators ==> x.Outer? && x.k in known
    }

    ghost function Abs(): HubState<PluginIterator>
      reads this, known
    {
      HubState(map i | i in known :: IterState(i.status, i.cancellable), runningIterators, scanMetadata)
    }

    constructor ()
      ensures Valid() && runningIterators == {} && known == {} && scanMetadata == multiset{}
    {
      runningIterators, known, scanMetadata := {}, {}, multiset{};
    }

    method AddScanMetadata(i: PluginIterator)
      modifies this`scanMetadata
      ensures scanMetadata == old(scanMetadata) + multiset{i}
    {
      scanMetadata := scanMetadata + multiset{i};
    }

    method AddIterator(i: PluginIterator)
      modifies this`runningIterators
      ensures runningIterators == old(runningIterators) + {Outer(i)}
    {
      runningIterators := runningIterators + {Outer(i)};
    }

    method RemoveIterator(x: Key<PluginIterator>)
      modifies this`runningIterators
      ensures runningIterators == old(runningIterators) - {x}
    {
      runningIterators := runningIterators - {x};
    }

    method StartScan(i: PluginIterator, executed: bool)
      requires Valid() && i in known
      modifies this`runningIterators, i
      ensures Valid() && Abs() == AfterStartScan(old(Abs()), i, executed)
    {
      i.Start(executed);
      AddIterator(i);
    }

    /** EndScan: records and closes an iterator that has not finished, and forgets it. */
    method EndScan(i: PluginIterator)
      requires Valid() && i in known
      requires i.status == Started ==> i.cancellable
      modifies this`runningIterators, this`scanMetadata, i
      ensures Valid() && Abs() == AfterEndScan(old(Abs()), i)
    {
      if i.status == Started {
        AddScanMetadata(i);
        i.Close();
      }
      RemoveIterator(Outer(i));
    }

    /** Every iterator is as it was before, but for the ones closed since. */
    ghost predicate ClosedSince(before: map<PluginIterator, IterState>, closed: set<PluginIterator>)
      reads before.Keys
    {
      forall i :: i in before ==>
        IterState(i.status, i.cancellable) == if i in closed then Closed(before[i]) else before[i]
    }

    method RecordAndClose(i: PluginIterator, ghost before: map<PluginIterator, IterState>,
                          ghost closed: set<PluginIterator>)
      requires i.cancellable && i !in closed && ClosedSince(before, closed)
      modifies this`scanMetadata, i`status
      ensures scanMetadata == old(scanMetadata) + multiset{i}
      ensures ClosedSince(before, closed + {i})
    {
      AddScanMetadata(i);
      i.Close();
    }

    /** Abort's loop: records and closes whatever runs, in the order the runtime picks. */
    method CloseAll() returns (ghost closed: set<PluginIterator>)
      requires Valid() && AllCancellable(Abs())
      modifies this`scanMetadata, set x | x in runningIterators :: x.k
      ensures closed == RunningIters(old(Abs())) && scanMetadata == old(scanMetadata) + multiset(closed)
      ensures ClosedSince(old(Abs()).iters, closed)
    {
      var remaining := runningIterators;
      ghost var start := Abs();
      closed := {};
      assert forall x :: x in remaining ==> x in start.running && x.Outer? && x.k in start.iters && x.k.cancellable;
      assert ClosedSince(start.iters, closed) && HalfClosed(start.running, remaining, closed);
      hide Abs, RunningIters, AllCancellable, Valid, ClosedSince, HalfClosed;
      while remaining != {}
        invariant HalfClosed(start.running, remaining, closed)
        invariant forall x :: x in remaining ==> x.k.cancellable
        invariant scanMetadata == old(scanMetadata) + multiset(closed)
        invariant ClosedSince(start.iters, closed)
      {
        var x :| x in remaining;
        NextClosed(start.running, remaining, closed, x);
        RecordAndClose(x.k, start.iters, closed);
        remaining, closed := remaining - {x}, closed + {x.k};
      }
      AllClosed(start, closed);
    }

    method Abort()
      requires Valid() && AllCancellable(Abs())
      modifies this`runningIterators, this`scanMetadata, set x | x in runningIterators :: x.k
      ensures Valid() && Abs() == AfterAbort(old(Abs()))
    {
      ghost var closed := CloseAll();
      runningIterators := {};
    }
  }
}
