/**
 * The NASA picture-of-the-day panel's cache lifecycle (ApodDisplay.tsx): the
 * same mount check, fetch gating, caching and refresh as the weather panel,
 * except that the API answers with a wrapper `{data}` and only its `data` is
 * cached.
 */
module ApodDisplay {
  import opened Common
  import opened LocalCache

  const ApodCacheKey := "planmyday_apod_cache"

  datatype Request = GetApod

  /** The API's answer `{data}`; `data` is None when it is falsy. */
  datatype ApodResponse<A> = ApodResponse(data: Option<A>)

  /** The panel: localStorage, the `cachedData` state, the react-query data for
      `['apod']` (a whole response) and the requests issued. */
  class ApodPanel<A> {
    var store: Store<A>
    var cachedData: Option<A>
    var queryData: Option<ApodResponse<A>>
    var requests: seq<Request>

    constructor (initial: Store<A>)
      ensures store == initial && cachedData.None? && queryData.None? && requests == []
    {
      store := initial;
      cachedData := None;
      queryData := None;
      requests := [];
    }

    /** `apodResponse?.data`. */
    function ApodData(): (d: Option<A>)
      reads this
      ensures d.Some? <==> queryData.Some? && queryData.value.data.Some?
      ensures d.Some? ==> d == queryData.value.data
    {
      if queryData.Some? then queryData.value.data else None
    }

    /** The mount effect, with the same rule as the weather panel. */
    method CheckCacheOnMount(now: int)
      modifies this
      ensures var a := MountDecision(Lookup(old(store), ApodCacheKey), now);
        && (a.UseCached? ==> cachedData == Some(a.data) && store == old(store))
        && (a.RemoveEntry? ==> cachedData == old(cachedData) && store == old(store) - {ApodCacheKey})
        && (a.NoEntry? ==> cachedData == old(cachedData) && store == old(store))
      ensures queryData == old(queryData) && requests == old(requests)
    {
      var action := MountDecision(Lookup(store, ApodCacheKey), now);
      match action {
        case UseCached(d) => cachedData := Some(d);
        case RemoveEntry => store := store - {ApodCacheKey};
        case NoEntry =>
      }
    }

    /** `enabled: apiReady && !cachedData`. */
    predicate FetchEnabled(apiReady: bool)
      reads this
    {
      apiReady && cachedData.None?
    }

    method StartFetch(apiReady: bool)
      modifies `requests
      ensures requests == old(requests) + (if FetchEnabled(apiReady) then [GetApod] else [])
    {
      if FetchEnabled(apiReady) {
        requests := requests + [GetApod];
      }
    }

    /** The query answered with `response`; the effect caches its `data` (not the
        wrapper) when it is truthy and nothing is cached yet. */
    method OnFetched(response: ApodResponse<A>, now: int)
      modifies this
      ensures queryData == Some(response) && requests == old(requests)
      ensures response.data.Some? && old(cachedData).None? ==>
        && store == old(store)[ApodCacheKey := Fresh(response.data.value, now)]
        && cachedData == response.data
      ensures !(response.data.Some? && old(cachedData).None?) ==>
        store == old(store) && cachedData == old(cachedData)
    {
      queryData := Some(response);
      var apodData := ApodData();
      if apodData.Some? && cachedData.None? {
        store := store[ApodCacheKey := Fresh(apodData.value, now)];
        cachedData := apodData;
      }
    }

    /** The refresh mutation starts: the entry is removed and a request goes out. */
    method RefreshStart()
      modifies this
      ensures store == old(store) - {ApodCacheKey}
      ensures requests == old(requests) + [GetApod]
      ensures cachedData == old(cachedData) && queryData == old(queryData)
    {
      store := store - {ApodCacheKey};
      requests := requests + [GetApod];
    }

    /** The refresh succeeded with `response.data == data`: it is stored with the
        current time, becomes the cached data, and the query data becomes `{data}`. */
    method RefreshSucceeded(data: A, now: int)
      modifies this
      ensures store == old(store)[ApodCacheKey := Fresh(data, now)]
      ensures cachedData == Some(data) && queryData == Some(ApodResponse(Some(data)))
      ensures requests == old(requests)
    {
      store := store[ApodCacheKey := Fresh(data, now)];
      cachedData := Some(data);
      queryData := Some(ApodResponse(Some(data)));
    }

    /** The refresh failed: only a message is shown. */
    method RefreshFailed()
      modifies {}
      ensures store == old(store) && cachedData == old(cachedData)
    {
    }

    /** `cachedData || apodData`. */
    function Displayed(): (r: Option<A>)
      reads this
      ensures cachedData.Some? ==> r == cachedData
      ensures cachedData.None? ==> r == ApodData()
    {
      if cachedData.Some? then cachedData else ApodData()
    }
  }
}
