/**
 * The localStorage entries `{data, timestamp}` that WeatherDisplay.tsx,
 * ApodDisplay.tsx and PerformanceInsights.tsx keep for 24 hours, and the
 * mount-time check the weather and APOD panels share.
 */
module LocalCache {
  import opened Common

  /** 24 hours in milliseconds. */
  const CacheDuration: int := 24 * 60 * 60 * 1000

  /** What `JSON.parse` makes of a stored string: an object whose `data` is truthy
      (Some) or not (None) and whose `timestamp` is a number (Some) or missing
      (None), or a value the component's code cannot read (a parse error, or a
      non-object such as `null`). */
  datatype Stored<D> = Entry(data: Option<D>, timestamp: Option<int>) | Unparsable

  /** localStorage, restricted to values of one shape. */
  type Store<D> = map<string, Stored<D>>

  /** The entry written by `setItem(key, JSON.stringify({data, timestamp: now}))`. */
  function Fresh<D>(data: D, now: int): Stored<D> {
    Entry(Some(data), Some(now))
  }

  /** `now - parsedCache.timestamp > CACHE_DURATION`. A missing timestamp makes the
      difference NaN, and NaN is greater than nothing, so such an entry never expires. */
  predicate IsExpired<D>(e: Stored<D>, now: int)
    requires e.Entry?
    ensures IsExpired(e, now) ==> e.timestamp.Some? && now > e.timestamp.value
  {
    e.timestamp.Some? && now - e.timestamp.value > CacheDuration
  }

  /** What the mount effect of the weather and APOD panels does with the stored value. */
  datatype MountAction<D> = UseCached(data: D) | RemoveEntry | NoEntry

  function MountDecision<D>(stored: Option<Stored<D>>, now: int): (a: MountAction<D>)
    ensures a.NoEntry? <==> stored.None?
    ensures a.UseCached? <==>
      && stored.Some? && stored.value.Entry? && stored.value.data.Some?
      && !IsExpired(stored.value, now)
    ensures a.UseCached? ==> a.data == stored.value.data.value
  {
    match stored
    case None => NoEntry
    case Some(Unparsable) => RemoveEntry
    case Some(e) =>
      if !IsExpired(e, now) && e.data.Some? then UseCached(e.data.value) else RemoveEntry
  }

  /** An entry written at `written` and read back at mount time `now` is used
      exactly when at most 24 hours have passed. */
  lemma MountAfterWrite<D>(data: D, written: int, now: int)
    ensures MountDecision(Some(Fresh(data, written)), now) == UseCached(data) <==> now - written <= CacheDuration
    ensures MountDecision(Some(Fresh(data, written)), now) != UseCached(data) ==>
      MountDecision(Some(Fresh(data, written)), now) == RemoveEntry
  {
  }

  /** The stored value under `key`, if the key is set. */
  function Lookup<D>(store: Store<D>, key: string): Option<Stored<D>> {
    if key in store then Some(store[key]) else None
  }
}
