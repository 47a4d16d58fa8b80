/**
 * The browser-side offline cache: cached API payloads with the time they were saved, the time of
 * the last synchronisation, and a queue of requests made while offline. The key-value store is the
 * state of the class; the clock (in hours) and the connection status are parameters. Payloads are
 * kept as their JSON text, and network fetches are outcomes the caller performs.
 */
module Offline {
  import opened Wrappers

  /** A payload saved with its save time. */
  datatype Stored = Stored(data: string, timestamp: real)

  /** A request kept for submission once the device is back online. */
  datatype Request = Request(url: string, httpMethod: string, headers: string, body: string, timestamp: real)

  /** The queue as saved: its requests and the time it was last saved. */
  datatype StoredRequests = StoredRequests(data: seq<Request>, timestamp: real)

  /** What a fetch through the cache results in when it does not reach the network. */
  datatype FetchOutcome =
    | FromCache(data: string)
    | QueuedForLater
    | NoDataOffline
    | FetchFromNetwork

  const DataKeys: seq<string> := ["weatherData", "soilData", "satelliteData", "recommendations"]

  class OfflineDataManager {
    var cache: map<string, Stored>
    var lastSyncTime: Option<real>
    var pending: Option<StoredRequests>

    constructor ()
      ensures cache == map[] && lastSyncTime == None && pending == None
    {
      cache, lastSyncTime, pending := map[], None, None;
    }

    /** The queued requests, none when nothing is stored under the queue's key. */
    function PendingRequests(): (rs: seq<Request>)
      reads this
      ensures pending.None? ==> rs == []
      ensures pending.Some? ==> rs == pending.value.data
    {
      if pending.Some? then pending.value.data else []
    }

    /** Saves a payload under a key with the current time. */
    method SaveData(key: string, data: string, now: real)
      modifies this
      ensures cache == old(cache)[key := Stored(data, now)]
      ensures lastSyncTime == old(lastSyncTime) && pending == old(pending)
    {
      cache := cache[key := Stored(data, now)];
    }

    /** Whether a payload is stored under the key and is at most `maxAgeHours` old, inclusive. */
    predicate HasValidData(key: string, maxAgeHours: real, now: real)
      reads this
      ensures HasValidData(key, maxAgeHours, now) <==> key in cache && now - cache[key].timestamp <= maxAgeHours
      ensures key !in cache ==> !HasValidData(key, maxAgeHours, now)
    {
      if key !in cache then false else now - cache[key].timestamp <= maxAgeHours
    }

    /**
     * Never while offline. Online: when the payload is missing or stale, when no synchronisation
     * has happened yet, or when the last one is more than `maxAgeHours` ago.
     */
    predicate ShouldFetchFromApi(key: string, maxAgeHours: real, online: bool, now: real)
      reads this
      ensures !online ==> !ShouldFetchFromApi(key, maxAgeHours, online, now)
      ensures online && !HasValidData(key, maxAgeHours, now) ==> ShouldFetchFromApi(key, maxAgeHours, online, now)
      ensures online && lastSyncTime.None? ==> ShouldFetchFromApi(key, maxAgeHours, online, now)
      ensures online && HasValidData(key, maxAgeHours, now) && lastSyncTime.Some? ==>
        (ShouldFetchFromApi(key, maxAgeHours, online, now) <==> now - lastSyncTime.value > maxAgeHours)
    {
      if !online then false
      else if !HasValidData(key, maxAgeHours, now) then true
      else if lastSyncTime.None? then true
      else now - lastSyncTime.value > maxAgeHours
    }

    /** The data keys a synchronisation would refresh, in their fixed order. */
    function KeysToRefresh(keys: seq<string>, online: bool, now: real): (ks: seq<string>)
      reads this
      ensures |ks| <= |keys|
      ensures forall k :: k in ks <==> k in keys && ShouldFetchFromApi(k, 6.0, online, now)
      ensures !online ==> ks == []
    {
      if keys == [] then []
      else
        var rest := KeysToRefresh(keys[1..], online, now);
        if ShouldFetchFromApi(keys[0], 6.0, online, now) then [keys[0]] + rest else rest
    }

    /**
     * On coming back online: the data keys due for a refresh (whose fetches are placeholders), and
     * the synchronisation time set to now. Offline, nothing happens.
     */
    method SyncDataWhenOnline(online: bool, now: real) returns (refreshed: seq<string>)
      modifies this
      ensures refreshed == old(KeysToRefresh(DataKeys, online, now))
      ensures lastSyncTime == if online then Some(now) else old(lastSyncTime)
      ensures cache == old(cache) && pending == old(pending)
    {
      refreshed := [];
      if online {
        refreshed := DueKeys(DataKeys, online, now);
        lastSyncTime := Some(now);
      }
    }

    /** The loop over the data keys, keeping the ones due for a refresh in their order. */
    method DueKeys(keys: seq<string>, online: bool, now: real) returns (due: seq<string>)
      ensures due == KeysToRefresh(keys, online, now)
    {
      due := [];
      var i := 0;
      while i < |keys|
        invariant 0 <= i <= |keys|
        invariant due + KeysToRefresh(keys[i..], online, now) == KeysToRefresh(keys, online, now)
      {
        RefreshStep(keys[i..], online, now);
        assert keys[i..][1..] == keys[i + 1..];
        if ShouldFetchFromApi(keys[i], 6.0, online, now) {
          due := due + [keys[i]];
        }
        i := i + 1;
      }
      assert keys[i..] == [];
    }

    lemma RefreshStep(keys: seq<string>, online: bool, now: real)
      requires keys != []
      ensures KeysToRefresh(keys, online, now) ==
        (if ShouldFetchFromApi(keys[0], 6.0, online, now) then [keys[0]] else []) + KeysToRefresh(keys[1..], online, now)
    {
    }

    /** Appends one request to the queue (an absent queue counts as empty) and saves it. */
    method QueueRequest(url: string, httpMethod: string, headers: string, body: string, now: real)
      modifies this
      ensures PendingRequests() == old(PendingRequests()) + [Request(url, httpMethod, headers, body, now)]
      ensures pending.Some? && pending.value.timestamp == now
      ensures cache == old(cache) && lastSyncTime == old(lastSyncTime)
    {
      var queue := PendingRequests();
      queue := queue + [Request(url, httpMethod, headers, body, now)];
      pending := Some(StoredRequests(queue, now));
    }

    /**
     * Sends every queued request, in order, whatever their outcomes, and saves an empty queue. An
     * absent or empty queue leaves everything as it was.
     */
    method SubmitCachedRequests(now: real) returns (sent: seq<Request>)
      modifies this
      ensures sent == old(PendingRequests())
      ensures old(PendingRequests()) == [] ==> pending == old(pending)
      ensures old(PendingRequests()) != [] ==> pending == Some(StoredRequests([], now))
      ensures PendingRequests() == []
      ensures cache == old(cache) && lastSyncTime == old(lastSyncTime)
    {
      sent := PendingRequests();
      if sent == [] {
        return;
      }
      pending := Some(StoredRequests([], now));
    }

    /** A cache key given and not empty (JavaScript treats `""` like no key) whose payload is due for use. */
    predicate UsableCache(cacheKey: Option<string>, maxAgeHours: real, online: bool, now: real)
      reads this
    {
      UsableKey(cacheKey) && !ShouldFetchFromApi(cacheKey.value, maxAgeHours, online, now) && cacheKey.value in cache
    }

    /**
     * A fetch through the cache up to the point where it would reach the network: the cached
     * payload exactly when a cache key is given, need not be refetched and has a stored payload;
     * otherwise, offline, a request with a method other than GET is queued and a GET gets the
     * offline error; online, the fetch goes to the network.
     */
    method FetchWithOffline(url: string, httpMethod: Option<string>, headers: string, body: string,
                            cacheKey: Option<string>, maxAgeHours: real, online: bool, now: real)
      returns (outcome: FetchOutcome)
      modifies this
      ensures outcome.FromCache? <==> old(UsableCache(cacheKey, maxAgeHours, online, now))
      ensures outcome.FromCache? ==> outcome == FromCache(old(cache)[cacheKey.value].data)
      ensures outcome.QueuedForLater? <==> !online && NonGet(httpMethod) && !outcome.FromCache?
      ensures outcome.QueuedForLater? ==>
        PendingRequests() == old(PendingRequests()) + [Request(url, httpMethod.value, headers, body, now)]
      ensures !outcome.QueuedForLater? ==> pending == old(pending)
      ensures outcome.NoDataOffline? <==> !online && !NonGet(httpMethod) && !outcome.FromCache?
      ensures outcome.FetchFromNetwork? <==> online && !outcome.FromCache?
      ensures cache == old(cache) && lastSyncTime == old(lastSyncTime)
    {
      if UsableKey(cacheKey) && !ShouldFetchFromApi(cacheKey.value, maxAgeHours, online, now) {
        if cacheKey.value in cache {
          return FromCache(cache[cacheKey.value].data);
        }
      }
      if !online {
        if NonGet(httpMethod) {
          QueueRequest(url, httpMethod.value, headers, body, now);
          return QueuedForLater;
        }
        return NoDataOffline;
      }
      return FetchFromNetwork;
    }
  }

  /** A cache key that JavaScript treats as given: present and not the empty string. */
  predicate UsableKey(cacheKey: Option<string>)
  {
    cacheKey.Some? && cacheKey.value != ""
  }

  /** A method given (and not the empty string) that is not GET. */
  predicate NonGet(httpMethod: Option<string>)
  {
    httpMethod.Some? && httpMethod.value != "" && httpMethod.value != "GET"
  }

  /** Freshness is monotone in the allowed age: data valid for a shorter limit is valid for a longer one. */
  lemma ValidForLongerLimit(m: OfflineDataManager, key: string, a: real, b: real, now: real)
    requires a <= b && m.HasValidData(key, a, now)
    ensures m.HasValidData(key, b, now)
  {
  }
}
