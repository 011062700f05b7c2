/**
 * The weather panel's cache lifecycle (WeatherDisplay.tsx): check the stored
 * entry on mount, fetch only without a valid cache, cache what the fetch
 * returns, and replace the entry on an explicit refresh.
 */
module WeatherDisplay {
  import opened Common
  import opened LocalCache

  const WeatherCacheKey := "planmyday_weather_cache"

  /** A weather request issued to the API. */
  datatype Request = GetWeather

  /** The panel: localStorage, the `cachedData` state, the react-query data for
      `['weather']`, and the requests issued. `W` is the weather payload. */
  class WeatherPanel<W> {
    var store: Store<W>
    var cachedData: Option<W>
    var queryData: Option<W>
    var requests: seq<Request>

    constructor (initial: Store<W>)
      ensures store == initial && cachedData.None? && queryData.None? && requests == []
    {
      store := initial;
      cachedData := None;
      queryData := None;
      requests := [];
    }

    /** The mount effect: a readable, unexpired entry with data becomes the cached
        data; any other stored value is removed; without an entry nothing happens. */
    method CheckCacheOnMount(now: int)
      modifies this
      ensures var a := MountDecision(Lookup(old(store), WeatherCacheKey), now);
        && (a.UseCached? ==> cachedData == Some(a.data) && store == old(store))
        && (a.RemoveEntry? ==> cachedData == old(cachedData) && store == old(store) - {WeatherCacheKey})
        && (a.NoEntry? ==> cachedData == old(cachedData) && store == old(store))
      ensures queryData == old(queryData) && requests == old(requests)
    {
      var action := MountDecision(Lookup(store, WeatherCacheKey), now);
      match action {
        case UseCached(d) => cachedData := Some(d);
        case RemoveEntry => store := store - {WeatherCacheKey};
        case NoEntry =>
      }
    }

    /** `enabled: apiReady && !cachedData`. */
    predicate FetchEnabled(apiReady: bool)
      reads this
    {
      apiReady && cachedData.None?
    }

    /** The query runs when it is enabled. */
    method StartFetch(apiReady: bool)
      modifies `requests
      ensures requests == old(requests) + (if FetchEnabled(apiReady) then [GetWeather] else [])
    {
      if FetchEnabled(apiReady) {
        requests := requests + [GetWeather];
      }
    }

    /** The query answered (`data` is None for a falsy answer); the effect then
        caches a truthy answer when nothing is cached yet. */
    method OnFetched(data: Option<W>, now: int)
      modifies this
      ensures queryData == data && requests == old(requests)
      ensures data.Some? && old(cachedData).None? ==>
        && store == old(store)[WeatherCacheKey := Fresh(data.value, now)]
        && cachedData == data
      ensures !(data.Some? && old(cachedData).None?) ==>
        store == old(store) && cachedData == old(cachedData)
    {
      queryData := data;
      if data.Some? && cachedData.None? {
        store := store[WeatherCacheKey := Fresh(data.value, now)];
        cachedData := data;
      }
    }

    /** The refresh mutation starts: the entry is removed and a request goes out. */
    method RefreshStart()
      modifies this
      ensures store == old(store) - {WeatherCacheKey}
      ensures requests == old(requests) + [GetWeather]
      ensures cachedData == old(cachedData) && queryData == old(queryData)
    {
      store := store - {WeatherCacheKey};
      requests := requests + [GetWeather];
    }

    /** The refresh succeeded: the new data is stored with the current time and
        becomes both the cached and the query data. */
    method RefreshSucceeded(data: W, now: int)
      modifies this
      ensures store == old(store)[WeatherCacheKey := Fresh(data, now)]
      ensures cachedData == Some(data) && queryData == Some(data)
      ensures requests == old(requests)
    {
      store := store[WeatherCacheKey := Fresh(data, now)];
      cachedData := Some(data);
      queryData := Some(data);
    }

    /** The refresh failed: only a message is shown, so the entry stays removed
        while the in-memory cached data is kept. */
    method RefreshFailed()
      modifies {}
      ensures store == old(store) && cachedData == old(cachedData)
    {
    }

    /** `cachedData || weatherData`. */
    function Displayed(): (r: Option<W>)
      reads this
      ensures cachedData.Some? ==> r == cachedData
      ensures cachedData.None? ==> r == queryData
    {
      if cachedData.Some? then cachedData else queryData
    }
  }

  /** A refresh that fails leaves no entry for the next mount to find, so the next
      mount neither uses nor removes anything and the panel fetches again. */
  lemma FailedRefreshLeavesNoEntry<W>(store: Store<W>, now: int)
    ensures MountDecision(Lookup(store - {WeatherCacheKey}, WeatherCacheKey), now).NoEntry?
  {
  }

  /** A successful refresh at `written` is used by a mount at `now` exactly when at
      most 24 hours have passed; otherwise that mount removes it. */
  lemma RefreshThenMount<W>(store: Store<W>, data: W, written: int, now: int)
    ensures var s := (store - {WeatherCacheKey})[WeatherCacheKey := Fresh(data, written)];
      var a := MountDecision(Lookup(s, WeatherCacheKey), now);
      && (a == UseCached(data) <==> now - written <= CacheDuration)
      && (a != UseCached(data) ==> a.RemoveEntry?)
  {
    MountAfterWrite(data, written, now);
  }
}
