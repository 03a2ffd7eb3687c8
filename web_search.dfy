/**
 * The `web_search` tool: a cache-or-fetch wrapper around the Brave Search API.
 *
 * The on-disk cache is a map from key to an entry carrying the stored JSON and its
 * expiry time; the clock is an integer number of seconds. The HTTP call is not
 * modelled: the caller supplies the provider's `Response`, and the operation reports
 * the `Request` it would send (or `None` when it sends nothing).
 */
module WebSearch {
  import opened Wrappers
  import opened Json
  import opened Decimal

  /** Lifetime of a cached response, in seconds (24 hours). */
  const Ttl: int := 86400

  /** A cache entry: the stored value and the instant from which it is expired. */
  datatype Entry = Entry(value: Json, expiresAt: int)

  type Store = map<string, Entry>

  /** An entry is visible to readers strictly before its expiry time. */
  predicate Live(store: Store, key: string, now: int)
  {
    key in store && now < store[key].expiresAt
  }

  /**
   * The cache's `get(key)`: the stored value while the entry is live, otherwise the
   * default `None` (here `Null`). A stored JSON `null` is therefore indistinguishable
   * from a miss.
   */
  function Get(store: Store, key: string, now: int): (v: Json)
    ensures v != Null ==> Live(store, key, now) && v == store[key].value
    ensures Live(store, key, now) ==> v == store[key].value
  {
    if Live(store, key, now) then store[key].value else Null
  }

  /** The cache's `set(key, value, expire=...)`: overwrites one entry, stamped `now + expire`. */
  function Set(store: Store, key: string, value: Json, now: int, expire: int): (s: Store)
    ensures s.Keys == store.Keys + {key}
    ensures s[key] == Entry(value, now + expire)
    ensures forall k :: k in store && k != key ==> s[k] == store[k]
  {
    store[key := Entry(value, now + expire)]
  }

  /** Reading a key back after writing it: the value until it expires, a miss afterwards. */
  lemma GetAfterSet(store: Store, key: string, value: Json, now: int, expire: int, later: int)
    requires now <= later
    ensures later < now + expire ==> Get(Set(store, key, value, now, expire), key, later) == value
    ensures later >= now + expire ==> Get(Set(store, key, value, now, expire), key, later) == Null
  {
  }

  /** The cache key `f"search:{query}:{count}:{freshness}"`. */
  function CacheKey(query: string, count: int, freshness: string): (k: string)
    // The key opens with the fixed prefix, then the query, then a colon, and ends with the freshness.
    ensures |k| == 9 + |query| + |DecimalString(count)| + |freshness|
    ensures k[..7] == "search:" && k[7..7 + |query|] == query
  {
    "search:" + query + ":" + DecimalString(count) + ":" + freshness
  }

  /** The prefix of `s` before its first colon. */
  ghost function UpToColon(s: string): string
  {
    if s == [] || s[0] == ':' then [] else [s[0]] + UpToColon(s[1..])
  }

  lemma {:induction false} UpToColonOfJoin(a: string, b: string)
    requires ':' !in a
    ensures UpToColon(a + ":" + b) == a
  {
    if a != [] {
      assert (a + ":" + b)[0] == a[0];
      assert (a + ":" + b)[1..] == a[1..] + ":" + b;
      UpToColonOfJoin(a[1..], b);
    }
  }

  lemma SplitAtColon(a1: string, b1: string, a2: string, b2: string)
    requires ':' !in a1 && ':' !in a2
    requires a1 + ":" + b1 == a2 + ":" + b2
    ensures a1 == a2 && b1 == b2
  {
    UpToColonOfJoin(a1, b1);
    UpToColonOfJoin(a2, b2);
    var s := a1 + ":" + b1;
    assert b1 == s[|a1| + 1..];
    assert b2 == s[|a2| + 1..];
  }

  /**
   * For queries without a colon, equal keys mean equal arguments (and conversely).
   * The count cannot contain a colon, and the freshness is whatever follows the
   * third colon, so only the query needs the restriction.
   */
  lemma CacheKeyInjective(q1: string, c1: int, f1: string, q2: string, c2: int, f2: string)
    requires ':' !in q1 && ':' !in q2
    ensures CacheKey(q1, c1, f1) == CacheKey(q2, c2, f2) <==> q1 == q2 && c1 == c2 && f1 == f2
  {
    if CacheKey(q1, c1, f1) == CacheKey(q2, c2, f2) {
      var d1, d2 := DecimalString(c1), DecimalString(c2);
      var k := CacheKey(q1, c1, f1);
      assert k == "search:" + (q1 + ":" + (d1 + ":" + f1));
      assert k == "search:" + (q2 + ":" + (d2 + ":" + f2));
      assert q1 + ":" + (d1 + ":" + f1) == k[7..] == q2 + ":" + (d2 + ":" + f2);
      SplitAtColon(q1, d1 + ":" + f1, q2, d2 + ":" + f2);
      SplitAtColon(d1, f1, d2, f2);
      DecimalStringInjective(c1, c2);
    }
  }

  /** The exact text of two keys, with a positive and a negative count. */
  lemma CacheKeyExamples()
    ensures CacheKey("AAPL earnings", 5, "pw") == "search:AAPL earnings:5:pw"
    ensures CacheKey("q", -12, "pd") == "search:q:-12:pd"
  {
    assert Digits(12) == "12";
  }

  /** With a colon in the query, two different calls share one cache entry. */
  lemma ColonInQueryCollides()
    ensures CacheKey("a:1", 2, "pw") == CacheKey("a", 1, "2:pw")
  {
  }

  /** The GET request sent to the search endpoint: its query parameters and subscription token. */
  datatype Request = Request(query: string, count: int, freshness: string, token: string)

  /**
   * What the provider call yields: the parsed JSON body, or `Failed` for a transport
   * error, a timeout, a non-success status or a body that is not JSON.
   */
  datatype Response = Ok(data: Json) | Failed

  /** `BRAVE_API_KEY` counts as set only when present and non-empty. */
  predicate HasApiKey(apiKey: Option<string>)
    ensures HasApiKey(apiKey) <==> apiKey != None && apiKey != Some("")
  {
    apiKey.Some? && apiKey.value != ""
  }

  /** One call's effect: what it returns, the cache afterwards, and the request it sent. */
  datatype Outcome = Outcome(result: Json, store: Store, request: Option<Request>)

  /** One call of `web_search(query, count, freshness)` against the cache `store` at time `now`. */
  function Search(store: Store, now: int, query: string, count: int, freshness: string,
                  apiKey: Option<string>, response: Response): (o: Outcome)
    // A hit (a live, non-null entry) returns the stored value, sends nothing, writes nothing.
    ensures Get(store, CacheKey(query, count, freshness), now) != Null ==>
              o == Outcome(store[CacheKey(query, count, freshness)].value, store, None)
    // A request is sent exactly on a miss with the API key set, and carries the arguments.
    ensures o.request.Some? <==> Get(store, CacheKey(query, count, freshness), now) == Null && HasApiKey(apiKey)
    ensures o.request.Some? ==> o.request.value == Request(query, count, freshness, apiKey.value)
    // The cache changes only through one write of a successful response, for 24 hours.
    ensures o.store == store
         || (o.request.Some? && response.Ok?
             && o.store == Set(store, CacheKey(query, count, freshness), response.data, now, Ttl))
    // A miss without an API key returns `{}`, sends nothing and writes nothing.
    ensures Get(store, CacheKey(query, count, freshness), now) == Null && !HasApiKey(apiKey) ==>
              o == Outcome(EmptyObject, store, None)
    // A miss whose fetch fails returns `{}` and writes nothing.
    ensures Get(store, CacheKey(query, count, freshness), now) == Null && HasApiKey(apiKey) && response.Failed? ==>
              o.result == EmptyObject && o.store == store
    ensures o.request.Some? && response.Ok? ==>
              o.result == response.data && CacheKey(query, count, freshness) in o.store
              && o.store[CacheKey(query, count, freshness)] == Entry(response.data, now + Ttl)
    // The result is always the cached value, the fresh data, or `{}` with the cache unchanged.
    ensures o.result == Get(store, CacheKey(query, count, freshness), now)
         || (o.request.Some? && response.Ok? && o.result == response.data)
         || (o.result == EmptyObject && o.store == store)
  {
    var key := CacheKey(query, count, freshness);
    var cached := Get(store, key, now);
    if cached != Null then Outcome(cached, store, None)
    else if !HasApiKey(apiKey) then Outcome(EmptyObject, store, None)
    else
      var request := Some(Request(query, count, freshness, apiKey.value));
      match response
      case Ok(data) => Outcome(data, Set(store, key, data, now, Ttl), request)
      case Failed => Outcome(EmptyObject, store, request)
  }

  /**
   * Round trip: after a call that fetched and cached a non-null response, the same
   * arguments within 24 hours return identical data, send nothing and change nothing,
   * whatever the API key and the provider would now do.
   */
  lemma RepeatWithinTtlIsHit(store: Store, now: int, later: int, query: string, count: int, freshness: string,
                             apiKey: Option<string>, response: Response,
                             apiKey': Option<string>, response': Response)
    requires Search(store, now, query, count, freshness, apiKey, response).request.Some?
    requires response.Ok? && response.data != Null
    requires now <= later < now + Ttl
    ensures var first := Search(store, now, query, count, freshness, apiKey, response);
            Search(first.store, later, query, count, freshness, apiKey', response')
              == Outcome(response.data, first.store, None)
  {
  }

  /** Once 24 hours have passed since the write, the same call goes to the provider again. */
  lemma ExpiredEntryIsRefetched(store: Store, now: int, later: int, query: string, count: int, freshness: string,
                                apiKey: Option<string>, response: Response,
                                apiKey': Option<string>, response': Response)
    requires Search(store, now, query, count, freshness, apiKey, response).request.Some?
    requires response.Ok?
    requires later >= now + Ttl
    requires HasApiKey(apiKey')
    ensures var first := Search(store, now, query, count, freshness, apiKey, response);
            Search(first.store, later, query, count, freshness, apiKey', response').request
              == Some(Request(query, count, freshness, apiKey'.value))
  {
  }

  /**
   * A failed fetch is not cached: the call leaves the cache as it was, so any later
   * call behaves as if it had not happened, and the identical call fetches again.
   */
  lemma FailureIsNotCached(store: Store, now: int, later: int, query: string, count: int, freshness: string,
                           apiKey: Option<string>, apiKey': Option<string>, response': Response)
    requires Search(store, now, query, count, freshness, apiKey, Failed).request.Some?
    requires now <= later
    ensures var first := Search(store, now, query, count, freshness, apiKey, Failed);
            first.result == EmptyObject && first.store == store
            && (HasApiKey(apiKey') ==> Search(first.store, later, query, count, freshness, apiKey', response').request.Some?)
  {
  }

  /** A live entry holding JSON `null` never counts as a hit: the call fetches again. */
  lemma StoredNullIsMiss(store: Store, now: int, query: string, count: int, freshness: string,
                         apiKey: Option<string>, response: Response)
    requires Live(store, CacheKey(query, count, freshness), now)
    requires store[CacheKey(query, count, freshness)].value == Null
    requires HasApiKey(apiKey)
    ensures Search(store, now, query, count, freshness, apiKey, response).request.Some?
  {
  }

  /** A live entry holding `{}` is a hit: the empty object is returned without a request. */
  lemma StoredEmptyObjectIsHit(store: Store, now: int, query: string, count: int, freshness: string,
                               apiKey: Option<string>, response: Response)
    requires Live(store, CacheKey(query, count, freshness), now)
    requires store[CacheKey(query, count, freshness)].value == EmptyObject
    ensures Search(store, now, query, count, freshness, apiKey, response)
              == Outcome(EmptyObject, store, None)
  {
  }

  /**
   * The tool's module state: the disk cache's entries and the clock it reads.
   */
  class SearchTool {
    var store: Store
    var now: int

    constructor (clock: int)
      ensures store == map[] && now == clock
    {
      store := map[];
      now := clock;
    }

    /** Time passes; the cache is untouched (expired entries simply stop being visible). */
    method Tick(seconds: nat)
      modifies this`now
      ensures now == old(now) + seconds
    {
      now := now + seconds;
    }

    /**
     * `web_search(query, count, freshness)` with the environment's `BRAVE_API_KEY`
     * and the provider's answer supplied as inputs. Returns the result and the
     * request sent, if any.
     */
    method WebSearch(query: string, count: int, freshness: string, apiKey: Option<string>, response: Response)
      returns (result: Json, request: Option<Request>)
      modifies this`store
      ensures Outcome(result, store, request) == Search(old(store), now, query, count, freshness, apiKey, response)
    {
      var key := CacheKey(query, count, freshness);
      var cached := Get(store, key, now);
      if cached != Null {
        return cached, None;
      }
      if !HasApiKey(apiKey) {
        return EmptyObject, None;
      }
      request := Some(Request(query, count, freshness, apiKey.value));
      match response {
        case Ok(data) =>
          store := Set(store, key, data, now, Ttl);
          result := data;
        case Failed =>
          result := EmptyObject;
      }
    }
  }
}
