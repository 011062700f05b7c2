/**
 * The performance-insights panel (PerformanceInsights.tsx): a 24-hour
 * localStorage cache of the insights answer with a fallback to it when a
 * refresh fails, and the chart data derived from the answer.
 */
module PerformanceInsights {
  import opened Common
  import opened LocalCache

  const InsightsCacheKey := "performance-insights-cache"

  /** A JavaScript number that is either an integer or NaN. */
  datatype Num = Finite(n: int) | NaN

  // ---------------------------------------------------------------------------
  // The cache helpers

  /** getCachedData: the stored `data` when the entry is readable and younger than
      24 hours (`now - timestamp < CACHE_DURATION`); a missing timestamp gives NaN,
      which is never smaller, so such an entry is never used. Expired entries are
      not removed. */
  function GetCachedData<D>(store: Store<D>, now: int): (r: Option<D>)
    ensures r.Some? <==>
      && InsightsCacheKey in store && store[InsightsCacheKey].Entry?
      && store[InsightsCacheKey].timestamp.Some?
      && now - store[InsightsCacheKey].timestamp.value < CacheDuration
      && store[InsightsCacheKey].data.Some?
    ensures r.Some? ==> r == store[InsightsCacheKey].data
  {
    match Lookup(store, InsightsCacheKey)
    case Some(Entry(data, Some(timestamp))) => if now - timestamp < CacheDuration then data else None
    case _ => None
  }

  /** setCachedData. */
  function SetCachedData<D>(store: Store<D>, data: D, now: int): (r: Store<D>)
    ensures r.Keys == store.Keys + {InsightsCacheKey}
    ensures forall k :: k in store && k != InsightsCacheKey ==> r[k] == store[k]
  {
    store[InsightsCacheKey := Fresh(data, now)]
  }

  /** getCacheAge: `now - timestamp` for a readable entry, NaN when it has no
      timestamp, and nothing without a readable entry. */
  function GetCacheAge<D>(store: Store<D>, now: int): (age: Option<Num>)
    ensures age.Some? <==> InsightsCacheKey in store && store[InsightsCacheKey].Entry?
    ensures age.Some? ==>
      (age.value.NaN? <==> store[InsightsCacheKey].timestamp.None?)
      && (age.value.Finite? ==> age.value.n == now - store[InsightsCacheKey].timestamp.value)
  {
    match Lookup(store, InsightsCacheKey)
    case Some(Entry(_, Some(timestamp))) => Some(Finite(now - timestamp))
    case Some(Entry(_, None)) => Some(NaN)
    case _ => None
  }

  /** Writing and reading back: within 24 hours the written data comes back, and
      the age is the time since the write; other keys are untouched. */
  lemma SetThenGet<D>(store: Store<D>, data: D, written: int, now: int)
    ensures GetCachedData(SetCachedData(store, data, written), now) == Some(data) <==> now - written < CacheDuration
    ensures GetCachedData(SetCachedData(store, data, written), now) != Some(data) ==>
      GetCachedData(SetCachedData(store, data, written), now).None?
    ensures GetCacheAge(SetCachedData(store, data, written), now) == Some(Finite(now - written))
    ensures forall k :: k in store && k != InsightsCacheKey ==> SetCachedData(store, data, written)[k] == store[k]
  {
  }

  /** The insights cache and the weather/APOD caches disagree only at an age of
      exactly 24 hours: insights treat it as expired, the panels still use it. */
  lemma FreshnessRulesDiffer<D>(store: Store<D>, data: D, written: int, now: int)
    ensures var s := SetCachedData(store, data, written);
      var insightsFresh := GetCachedData(s, now).Some?;
      var panelKeeps := MountDecision(Some(Fresh(data, written)), now).UseCached?;
      && (now - written != CacheDuration ==> (insightsFresh <==> panelKeeps))
      && (now - written == CacheDuration ==> !insightsFresh && panelKeeps)
  {
  }

  /** An entry with data but no timestamp: the panels keep using it on every mount,
      the insights cache never does, and its age is NaN. */
  lemma MissingTimestamp<D>(store: Store<D>, data: D, now: int)
    ensures MountDecision(Some(Entry(Some(data), None)), now) == UseCached(data)
    ensures GetCachedData(store[InsightsCacheKey := Entry(Some(data), None)], now).None?
    ensures GetCacheAge(store[InsightsCacheKey := Entry(Some(data), None)], now) == Some(NaN)
  {
  }

  /** `Math.floor(age / (1000 * 60 * 60))`: whole hours, and NaN stays NaN. */
  function CacheHours(age: Num): (h: Num)
    ensures age.NaN? <==> h.NaN?
    ensures age.Finite? ==> 3600000 * h.n <= age.n < 3600000 * (h.n + 1)
  {
    match age
    case Finite(a) => Finite(a / 3600000)
    case NaN => NaN
  }

  // ---------------------------------------------------------------------------
  // The component state

  datatype Request = GetInsights | InvalidateInsights | InvalidateHighScore

  /** The panel: localStorage, the `refreshing` and `useCache` flags, the query data
      for `['performance-insights']`, and the requests issued. */
  class InsightsPanel<D> {
    var store: Store<D>
    var refreshing: bool
    var useCache: bool
    var queryData: Option<D>
    var requests: seq<Request>

    constructor (initial: Store<D>)
      ensures store == initial && !refreshing && !useCache && queryData.None? && requests == []
    {
      store := initial;
      refreshing := false;
      useCache := false;
      queryData := None;
      requests := [];
    }

    /** The mount effect: use the cache when it holds fresh data. */
    method Mount(now: int)
      modifies this
      ensures useCache == (old(useCache) || GetCachedData(store, now).Some?)
      ensures store == old(store) && refreshing == old(refreshing)
      ensures queryData == old(queryData) && requests == old(requests)
    {
      var cachedData := GetCachedData(store, now);
      if cachedData.Some? {
        useCache := true;
      }
    }

    /** The query function: with the cache in use and no refresh in progress, fresh
        cached data answers at once; otherwise the API is asked. */
    method RunQuery(now: int)
      modifies this
      ensures var cached := GetCachedData(old(store), now);
        if old(useCache) && !old(refreshing) && cached.Some? then
          queryData == cached && requests == old(requests)
        else
          queryData == old(queryData) && requests == old(requests) + [GetInsights]
      ensures store == old(store) && useCache == old(useCache) && refreshing == old(refreshing)
    {
      if useCache && !refreshing {
        var cachedData := GetCachedData(store, now);
        if cachedData.Some? {
          queryData := cachedData;
          return;
        }
      }
      requests := requests + [GetInsights];
    }

    /** The query's API call answered: cache the answer and stop using the cache. */
    method OnInsightsFetched(data: D, now: int)
      modifies this
      ensures store == SetCachedData(old(store), data, now)
      ensures !useCache && queryData == Some(data)
      ensures refreshing == old(refreshing) && requests == old(requests)
    {
      store := SetCachedData(store, data, now);
      useCache := false;
      queryData := Some(data);
    }

    /** The refresh mutation starts. */
    method RefreshStart()
      modifies this
      ensures refreshing && !useCache
      ensures requests == old(requests) + [GetInsights]
      ensures store == old(store) && queryData == old(queryData)
    {
      refreshing := true;
      useCache := false;
      requests := requests + [GetInsights];
    }

    /** The refresh answered: cache the answer, invalidate the insights and high-score
        queries, and end the refresh. */
    method RefreshSucceeded(data: D, now: int)
      modifies this
      ensures store == SetCachedData(old(store), data, now)
      ensures requests == old(requests) + [InvalidateInsights, InvalidateHighScore]
      ensures !refreshing && useCache == old(useCache) && queryData == old(queryData)
    {
      store := SetCachedData(store, data, now);
      requests := requests + [InvalidateInsights, InvalidateHighScore];
      refreshing := false;
    }

    /** The refresh failed: fresh cached data, if any, is installed as the query data
        and the cache is used again; otherwise only the error is reported. */
    method RefreshFailed(now: int)
      modifies this
      ensures GetCachedData(old(store), now).Some? ==>
        useCache && queryData == GetCachedData(old(store), now)
      ensures GetCachedData(old(store), now).None? ==>
        useCache == old(useCache) && queryData == old(queryData)
      ensures !refreshing && store == old(store) && requests == old(requests)
    {
      var cachedData := GetCachedData(store, now);
      if cachedData.Some? {
        useCache := true;
        queryData := cachedData;
      }
      refreshing := false;
    }

    /** The "Cached <n>h ago" label's hour count, shown while the cache is in use
        and an entry is readable. */
    function CacheInfo(now: int): (h: Option<Num>)
      reads this
      ensures h.Some? <==> useCache && GetCacheAge(store, now).Some?
      ensures h.Some? ==> h.value == CacheHours(GetCacheAge(store, now).value)
    {
      var age := GetCacheAge(store, now);
      if useCache && age.Some? then Some(CacheHours(age.value)) else None
    }
  }

  // ---------------------------------------------------------------------------
  // Chart data

  datatype ChartEntry = ChartEntry(name: string, value: int, color: string)

  const Primary := "#3b82f6"
  const Success := "#10b981"
  const Warning := "#f59e0b"
  const Danger := "#ef4444"
  const Muted := "#6b7280"

  /** `.filter(item => item.value > 0)`. */
  function KeepPositive(entries: seq<ChartEntry>): (r: seq<ChartEntry>)
    ensures |r| <= |entries|
  {
    if entries == [] then []
    else (if entries[0].value > 0 then [entries[0]] else []) + KeepPositive(entries[1..])
  }

  /** The filter keeps exactly the entries with a positive value. */
  lemma {:induction false} KeepPositiveMembers(entries: seq<ChartEntry>)
    ensures forall e :: e in KeepPositive(entries) <==> e in entries && e.value > 0
  {
    if entries != [] {
      KeepPositiveMembers(entries[1..]);
      assert entries == [entries[0]] + entries[1..];
    }
  }

  /** The filter keeps the order: it distributes over concatenation. */
  lemma {:induction false} KeepPositiveConcat(a: seq<ChartEntry>, b: seq<ChartEntry>)
    ensures KeepPositive(a + b) == KeepPositive(a) + KeepPositive(b)
  {
    if a == [] {
      assert a + b == b;
    } else {
      assert (a + b)[1..] == a[1..] + b;
      KeepPositiveConcat(a[1..], b);
    }
  }

  /** The single entry `e` if its value is positive. */
  function IfPositive(e: ChartEntry): seq<ChartEntry> {
    if e.value > 0 then [e] else []
  }

  /** The counts the charts are drawn from: `summary.completedTasks`,
      `summary.inProgressTasks`, `breakdown.todo.length`, `breakdown.backlog.length`,
      `summary.totalTasks` and `priorities`. */
  datatype Summary = Summary(
    completedTasks: int, inProgressTasks: int, todoCount: nat, backlogCount: nat, totalTasks: int,
    high: int, medium: int, low: int)

  function CompletionEntries(s: Summary): seq<ChartEntry> {
    [ ChartEntry("Completed", s.completedTasks, Success),
      ChartEntry("In Progress", s.inProgressTasks, Warning),
      ChartEntry("Pending", s.todoCount, Primary),
      ChartEntry("Backlog", s.backlogCount, Muted) ]
  }

  /** completionData: Completed, In Progress, Pending and Backlog in that order,
      each present exactly when its count is positive. */
  function CompletionData(s: Summary): (r: seq<ChartEntry>)
    ensures r == IfPositive(ChartEntry("Completed", s.completedTasks, Success))
              + IfPositive(ChartEntry("In Progress", s.inProgressTasks, Warning))
              + IfPositive(ChartEntry("Pending", s.todoCount, Primary))
              + IfPositive(ChartEntry("Backlog", s.backlogCount, Muted))
  {
    var e := CompletionEntries(s);
    assert KeepPositive(e[3..]) == IfPositive(e[3]) + KeepPositive(e[4..]);
    assert KeepPositive(e[2..]) == IfPositive(e[2]) + KeepPositive(e[3..]);
    assert KeepPositive(e[1..]) == IfPositive(e[1]) + KeepPositive(e[2..]);
    assert KeepPositive(e) == IfPositive(e[0]) + KeepPositive(e[1..]);
    KeepPositive(e)
  }

  /** priorityData: High, Medium and Low in that order, each present exactly when
      its count is positive. */
  function PriorityData(s: Summary): (r: seq<ChartEntry>)
    ensures r == IfPositive(ChartEntry("High", s.high, Danger))
              + IfPositive(ChartEntry("Medium", s.medium, Warning))
              + IfPositive(ChartEntry("Low", s.low, Success))
  {
    var e := [ChartEntry("High", s.high, Danger), ChartEntry("Medium", s.medium, Warning), ChartEntry("Low", s.low, Success)];
    assert KeepPositive(e[2..]) == IfPositive(e[2]) + KeepPositive(e[3..]);
    assert KeepPositive(e[1..]) == IfPositive(e[1]) + KeepPositive(e[2..]);
    assert KeepPositive(e) == IfPositive(e[0]) + KeepPositive(e[1..]);
    KeepPositive(e)
  }

  /** `Math.round((completed / total) * 100)` for a positive total, computed exactly:
      the nearest integer to 100·completed/total, halves rounded up, so that
      100·completed/total lies in [r - 1/2, r + 1/2). Zero without tasks. */
  function Efficiency(completed: int, total: int): (r: int)
    ensures total <= 0 ==> r == 0
    ensures total > 0 ==> total * (2 * r - 1) <= 200 * completed < total * (2 * r + 1)
  {
    if total > 0 then
      var q := (200 * completed + total) / (2 * total);
      DivBounds(200 * completed + total, 2 * total);
      q
    else 0
  }

  lemma DivBounds(a: int, b: int)
    requires b > 0
    ensures b * (a / b) <= a < b * (a / b) + b
  {
  }

  /** Efficiency is a percentage when no more tasks are completed than exist. */
  lemma EfficiencyIsPercentage(completed: int, total: int)
    requires 0 <= completed <= total
    ensures 0 <= Efficiency(completed, total) <= 100
    ensures completed == total && total > 0 ==> Efficiency(completed, total) == 100
  {
    var r := Efficiency(completed, total);
    if total > 0 {
      MulMonotone(total, 2 * r + 1, 0);
      MulMonotone(total, 2 * r - 1, 200);
      MulMonotone(total, 2 * r + 1, 200);
    }
  }

  /** Multiplying by a positive number keeps the order, both ways. */
  lemma MulMonotone(a: int, b: int, c: int)
    requires a > 0
    ensures b <= c <==> a * b <= a * c
  {
    if b <= c {
      assert a * c - a * b == a * (c - b);
    } else {
      assert a * b - a * c == a * (b - c);
    }
  }

  /** One day of the `trends` object. */
  datatype TrendDay = TrendDay(completed: int, total: int)

  datatype WeeklyEntry = WeeklyEntry(date: string, completed: int, total: int, efficiency: int)

  /** weeklyData: one entry per trend day, in the object's key order, labelled
      with the day's key as `new Date(key).toLocaleDateString('en-US', {month:
      'short', day: 'numeric'})` shows it; that formatting is the `formatDate`
      parameter. */
  function WeeklyData(trends: seq<(string, TrendDay)>, formatDate: string -> string): (r: seq<WeeklyEntry>)
    ensures |r| == |trends|
    ensures forall i :: 0 <= i < |trends| ==>
      && r[i].date == formatDate(trends[i].0)
      && r[i].completed == trends[i].1.completed
      && r[i].total == trends[i].1.total
      && r[i].efficiency == Efficiency(trends[i].1.completed, trends[i].1.total)
  {
    seq(|trends|, i requires 0 <= i < |trends| =>
      WeeklyEntry(formatDate(trends[i].0), trends[i].1.completed, trends[i].1.total,
        Efficiency(trends[i].1.completed, trends[i].1.total)))
  }

  /** The priority bar's fill: value/totalTasks·100, or 0 without tasks. */
  function Progress(value: int, totalTasks: int): (p: real)
    ensures totalTasks <= 0 ==> p == 0.0
    ensures totalTasks > 0 ==> p * totalTasks as real == 100.0 * value as real
    ensures totalTasks > 0 && 0 <= value <= totalTasks ==> 0.0 <= p <= 100.0
  {
    if totalTasks > 0 then (value as real / totalTasks as real) * 100.0 else 0.0
  }
}
