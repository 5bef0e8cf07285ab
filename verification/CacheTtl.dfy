/** cacheTTL in hub/hub_remote.go and the cache settings it reads: how old a cached result may be. */
module CacheTtl {
  import opened Int64
  import opened Wrappers

  const DEFAULT_TTL := 300 * SECOND

  // ---------- the settings ----------

  /** Times are in nanoseconds; before any clear ClearTime is the zero time. */
  datatype Settings = Settings(ttl: Option<int>, clearTime: int)

  predicate ValidSettings(s: Settings) {
    s.ttl.Some? ==> IsInt64(s.ttl.value)
  }

  /** A value that does not decode as an int changes nothing. */
  function AfterSetTtl(s: Settings, value: Option<int>): (t: Settings)
    ensures ValidSettings(s) ==> ValidSettings(t)
  {
    if value.None? then s else s.(ttl := Some(Wrap64(value.value * SECOND)))
  }

  class HubCacheSettings {
    var ttl: Option<int>
    var clearTime: int

    function Value(): Settings
      reads this
    {
      Settings(ttl, clearTime)
    }

    constructor ()
      ensures Value() == Settings(None, 0)
    {
      ttl, clearTime := None, 0;
    }

    method SetTtl(decoded: Option<int>) returns (ok: bool)
      modifies this
      ensures Value() == AfterSetTtl(old(Value()), decoded) && ok == decoded.Some?
    {
      if decoded.None? { return false; }
      ttl := Some(Wrap64(decoded.value * SECOND));
      ok := true;
    }

    method SetClearTime(now: int)
      modifies this
      ensures Value() == old(Value()).(clearTime := now)
    {
      clearTime := now;
    }

    /** cacheTTL, and what a request is sent: the lesser of the setting and the time since the clear. */
    method CacheTTL(now: int) returns (r: int)
      ensures r == Ttl(Value(), now)
      ensures ValidSettings(Value()) && clearTime <= now ==>
        && (now - clearTime < Meant(Value()) ==> r == Sub(now, clearTime))
        && (now - clearTime >= Meant(Value()) ==> r == Configured(Value()))
    {
      r := DEFAULT_TTL;
      if ttl.Some? { r := ttl.value; }
      if now + Wrap64(-r) < clearTime { r := Sub(now, clearTime); }
    }
  }

  // ---------- the time to live ----------

  function Configured(s: Settings): int {
    if s.ttl.Some? then s.ttl.value else DEFAULT_TTL
  }

  function Ttl(s: Settings, now: int): int {
    if now + Wrap64(-Configured(s)) < s.clearTime then Sub(now, s.clearTime) else Configured(s)
  }

  /** The least duration is its own negation: that setting counts as the longest of all. */
  function Meant(s: Settings): int {
    if Configured(s) == MIN_INT64 then -MIN_INT64 else Configured(s)
  }

  /** No longer than configured, and no longer ago than the last clear. */
  lemma TtlIsLesser(s: Settings, now: int)
    requires ValidSettings(s) && s.clearTime <= now
    ensures now - s.clearTime < Meant(s) ==> Ttl(s, now) == now - s.clearTime
    ensures now - s.clearTime >= Meant(s) ==> Ttl(s, now) == Configured(s)
    ensures Ttl(s, now) <= now - s.clearTime
  {
    if Configured(s) == MIN_INT64 {
      assert Wrap64(-MIN_INT64) == MIN_INT64;
    }
  }

  /** A setting of n seconds takes effect, and without one five minutes do: unless the last clear is more recent. */
  lemma SettingTakesEffect(s: Settings, n: int, now: int)
    requires s.clearTime <= now
    ensures MIN_INT64 < n * SECOND <= MAX_INT64 ==>
      Ttl(AfterSetTtl(s, Some(n)), now) == if n * SECOND <= now - s.clearTime then n * SECOND else now - s.clearTime
    ensures
      Ttl(s.(ttl := None), now) == if 300 * SECOND <= now - s.clearTime then 300 * SECOND else now - s.clearTime
    ensures AfterSetTtl(s, None) == s && AfterSetTtl(s, Some(n)).clearTime == s.clearTime
  {
    TtlIsLesser(s.(ttl := None), now);
    if MIN_INT64 < n * SECOND <= MAX_INT64 { TtlIsLesser(AfterSetTtl(s, Some(n)), now); }
  }

  /** int64(ttl.Seconds()): whole seconds toward zero, but the floating point in between may round up to the
      next second, once the duration is too long for its last nanosecond to show. */
  predicate WholeSeconds(d: int, w: int) {
    if d < 0 then -w * SECOND <= -d < (-w + 1) * SECOND ||
      (d <= -EXACT_SECONDS * SECOND && w * SECOND < d < (w + 1) * SECOND)
    else w * SECOND <= d < (w + 1) * SECOND || (d >= EXACT_SECONDS * SECOND && (w - 1) * SECOND < d < w * SECOND)
  }

  const EXACT_SECONDS := 0x100_0000

  // ---------- runs ----------

  datatype Kind = SetTtl(value: Option<int>) | Clear | Store | Request(sent: int)

  datatype Event = Event(at: int, kind: Kind)

  function After(s: Settings, e: Event): Settings {
    match e.kind
    case SetTtl(v) => AfterSetTtl(s, v)
    case Clear => s.(clearTime := e.at)
    case Store => s
    case Request(_) => s
  }

  function SettingsAfter(run: seq<Event>): Settings {
    if run == [] then Settings(None, 0) else After(SettingsAfter(run[..|run| - 1]), run[|run| - 1])
  }

  /** The clock never goes back, from the zero time on, and each request is sent what cacheTTL says. */
  ghost predicate IsRun(run: seq<Event>) {
    && (forall i :: 0 <= i < |run| ==> run[i].at >= 0)
    && (forall i, j :: 0 <= i <= j < |run| ==> run[i].at <= run[j].at)
    && (forall i :: 0 <= i < |run| && run[i].kind.Request? ==>
          WholeSeconds(Ttl(SettingsAfter(run[..i]), run[i].at), run[i].kind.sent))
  }

  lemma {:induction false} ClearTimeIsLast(run: seq<Event>, n: nat)
    requires IsRun(run) && n <= |run|
    ensures ValidSettings(SettingsAfter(run[..n]))
    ensures forall k :: 0 <= k < n && run[k].kind.Clear? ==> run[k].at <= SettingsAfter(run[..n]).clearTime
    ensures forall j :: n <= j < |run| ==> SettingsAfter(run[..n]).clearTime <= run[j].at
  {
    if n > 0 {
      ClearTimeIsLast(run, n - 1);
      assert run[..n][..n - 1] == run[..n - 1] && run[..n][n - 1] == run[n - 1];
    }
  }

  /** Old enough to be sent: the age of an entry is within the seconds of the request. */
  predicate Served(stored: Event, request: Event)
    requires request.kind.Request?
  {
    request.at - stored.at <= request.kind.sent * SECOND
  }

  /** A result stored before a clear is not served after it, whatever was set in between: it may be served
      only if the rounding of a time to live of 194 days or more hides a last fraction of a second. */
  lemma ClearedIsNotServed(run: seq<Event>, i: nat, k: nat, j: nat)
    requires IsRun(run) && i < |run| && k < j < |run| && i < j
    requires run[i].kind.Store? && run[k].kind.Clear? && run[j].kind.Request?
    requires Served(run[i], run[j])
    ensures run[j].at - run[k].at < EXACT_SECONDS * SECOND ==> run[k].at <= run[i].at
    ensures run[k].at - run[i].at < SECOND
  {
    ClearTimeIsLast(run, j);
    TtlIsLesser(SettingsAfter(run[..j]), run[j].at);
  }

  /** And everything else is: what is served is exactly what is, in started seconds, no older than the
      setting and the last clear. From 194 days on the rounding leaves less than a second open. A negative
      setting serves nothing but a result of the same instant, and that only if it is less than a second. */
  lemma ServedExactlyWhen(run: seq<Event>, i: nat, j: nat)
    requires IsRun(run) && i < j < |run| && run[i].kind.Store? && run[j].kind.Request?
    ensures
      var s := SettingsAfter(run[..j]);
      var ttl := Ttl(s, run[j].at);
      var age := run[j].at - run[i].at;
      var started := (age + SECOND - 1) / SECOND * SECOND;
      && (0 <= ttl < EXACT_SECONDS * SECOND ==>
           (Served(run[i], run[j]) <==> started <= Meant(s) && started <= run[j].at - s.clearTime))
      && (ttl >= EXACT_SECONDS * SECOND ==>
           && (started <= ttl ==> Served(run[i], run[j]))
           && (Served(run[i], run[j]) ==> age < ttl + SECOND))
      && (ttl < 0 ==> (Served(run[i], run[j]) <==> age == 0 && ttl > -SECOND))
  {
    ClearTimeIsLast(run, j);
    TtlIsLesser(SettingsAfter(run[..j]), run[j].at);
  }

  /** Seconds become nanoseconds in 64 bits: beyond 292 years the setting is another. */
  lemma TtlSetExactlyWhen(s: Settings, seconds: int)
    ensures Configured(AfterSetTtl(s, Some(seconds))) == seconds * SECOND <==> IsInt64(seconds * SECOND)
  {
  }
}
