# quant-agent tools: cached web search and news normalisation

This project models the two tools the quant-agent service exposes for fetching
external data, and proves properties of both.

- **`web_search`** (`web_search_tools.py`) is a cache-or-fetch wrapper around the
  Brave Search API. It builds the key `search:{query}:{count}:{freshness}` and looks
  it up in a disk cache. A live, non-`None` entry is returned as is. On a miss it
  needs `BRAVE_API_KEY`: if that is unset or empty, it returns `{}`. Otherwise it
  sends one GET request. A successful response is cached for 86400 seconds and
  returned. A failed request, error status or unparsable body returns `{}` and
  caches nothing.
- **`news`** (`yfinance_tools.py`) calls the market-data provider and turns its news
  items into `SearchResult` records. `uuid` and `title` are required. `publisher` and
  `link` default to `""`, and `providerPublishTime` defaults to `0`. Any failure,
  whether of the provider call or of a single item, yields `[]`.

Files:

- `wrappers.dfy` defines `Option`.
- `json.dfy` defines JSON values, with `{}` as `EmptyObject`.
- `decimal.dfy` models Python's `str(int)`, which renders the count inside the cache key.
- `web_search.dfy` defines the cache's `get`/`set` with expiry, the cache key, the
  pure specification `Search` of one call, the class `SearchTool` (the module-level
  cache and its clock) and its method `WebSearch`.
- `yfinance_news.dfy` defines `SearchResult`, the per-item conversion and the
  method `News`.

The model treats the outside world as inputs:

- The environment's API key is passed in as `Option<string>`.
- The search provider's answer is passed in as a `Response`: `Ok(data)` or `Failed`.
- `WebSearch` returns the `Request` it sends, or `None` when it sends nothing. This
  is how "no network call" is stated.
- The market-data provider's outcome is passed in as a `SearchCall`. It either raised,
  or returned an object whose `news` attribute is a list or is missing.

Notes on the code's behaviour:

- The cache key is not a collision-free encoding. `ColonInQueryCollides` shows two
  different calls that share one key. Injectivity (`CacheKeyInjective`) holds only
  for queries without a colon. This is a derived observation, not a promise of the code.
- The hit test is `cached is not None`. A stored `{}` is a hit. A provider body that
  parses to JSON `null` is cached and returned as `null`, and it never counts as a hit
  afterwards (`StoredNullIsMiss`).
- Missing fields do not always fall back to defaults. A news item without `uuid` or
  `title`, or with an explicit `null` field, makes the whole result `[]`.
- Size-based eviction is delegated to the cache library and is not modelled.

## Model

| member | source | states |
|---|---|---|
| `Decimal.Digits` | web_search_tools.py:60 | the digits of a natural number are at least one character, all of them decimal digits, and exactly one character iff the number is below 10 |
| `Decimal.DecimalString` | web_search_tools.py:60 | `str(count)` starts with `-` exactly for negative counts, consists of a sign and digits only, and so never contains the key separator `:` |
| `Decimal.DecimalStringInjective` | web_search_tools.py:60 | distinct counts render to distinct strings, so the count is recoverable from the key |
| `WebSearch.Get` | web_search_tools.py:63-64 | a cache read yields a non-`None` value only for a live entry (now before its expiry) and then exactly the stored value; expired data is never returned |
| `WebSearch.Set` | web_search_tools.py:93 | afterwards the key holds the value, expiring `now + expire`; the keys are the old ones plus this key, and every other entry is as it was |
| `WebSearch.GetAfterSet` | web_search_tools.py:63-93 | reading a key back after writing it yields the written value until `now + expire` and a miss from then on |
| `WebSearch.CacheKey` | web_search_tools.py:60 | the key is `search:` followed by the query, and its length is that of the prefix, query, rendered count, freshness and the two colons |
| `WebSearch.CacheKeyExamples` | web_search_tools.py:60 | `("AAPL earnings", 5, "pw")` gives exactly `search:AAPL earnings:5:pw` and `("q", -12, "pd")` gives exactly `search:q:-12:pd` |
| `WebSearch.HasApiKey` | web_search_tools.py:70-71 | the API key counts as set exactly when it is present and not the empty string |
| `WebSearch.CacheKeyInjective` | web_search_tools.py:60 | for queries without a colon, two keys are equal iff query, count and freshness are all equal |
| `WebSearch.ColonInQueryCollides` | web_search_tools.py:60 | `("a:1", 2, "pw")` and `("a", 1, "2:pw")` produce the same cache key |
| `WebSearch.Search` | web_search_tools.py:59-99 | a hit returns the stored value with no request and no write; a request, carrying query, count, freshness and the key, is sent iff the lookup missed and the API key is non-empty; a miss without a key returns `{}` with no request and no write; a miss whose fetch fails returns `{}` and writes nothing; a successful fetch is returned and written as the one changed entry, expiring 86400 s later |
| `WebSearch.RepeatWithinTtlIsHit` | web_search_tools.py:60-96 | after a call that fetched and cached non-null data, the same arguments within 24 hours return identical data, send no request and leave the cache unchanged, whatever the API key and provider now do |
| `WebSearch.ExpiredEntryIsRefetched` | web_search_tools.py:63-93 | once 86400 s have passed since the write, the same call with an API key goes to the provider again |
| `WebSearch.FailureIsNotCached` | web_search_tools.py:87-99 | a failed fetch returns `{}` and leaves the cache unchanged, so a later identical call with an API key sends a request again |
| `WebSearch.StoredNullIsMiss` | web_search_tools.py:63-66 | a live entry holding JSON `null` does not count as a hit; with an API key the call sends a request |
| `WebSearch.StoredEmptyObjectIsHit` | web_search_tools.py:63-66 | a live entry holding `{}` is a hit: `{}` is returned with no request and no write |
| `WebSearch.SearchTool.constructor` | web_search_tools.py:23-24 | the module-level cache starts empty, with its clock at the given time |
| `WebSearch.SearchTool.WebSearch` | web_search_tools.py:29-99 | the returned value, the request sent and the new cache are those `Search` gives for the old cache and the current time |
| `YFinanceNews.Subscript` | yfinance_tools.py:41-42 | `item[key]` succeeds exactly when the item is a dict holding the key, and yields that key's value |
| `YFinanceNews.GetOr` | yfinance_tools.py:43-45 | `item.get(key, default)` succeeds exactly when the item is a dict, yielding the stored value when the key is present (even `null`) and the default otherwise |
| `YFinanceNews.Validate` | yfinance_tools.py:11-16 | the record accepts exactly strings for `uuid`, `title`, `publisher` and `link` and an integer for `providerPublishTime`, and then holds those values unchanged |
| `YFinanceNews.ToSearchResult` | yfinance_tools.py:39-46 | an item becomes a record iff it is a dict whose `uuid` and `title` are strings, whose `publisher` and `link` are absent or strings and whose `providerPublishTime` is absent or an integer; `uuid` and `title` are copied verbatim, a missing `publisher` or `link` becomes `""` and a missing publish time becomes `0` |
| `YFinanceNews.BareItemGetsDefaults` | yfinance_tools.py:41-45 | an item with only `uuid` and `title` becomes the record with those two values and every default |
| `YFinanceNews.NullPublisherIsRejected` | yfinance_tools.py:43 | an explicit `null` publisher is not defaulted: the item is rejected |
| `YFinanceNews.News` | yfinance_tools.py:19-53 | a raising provider call or a missing `news` attribute yields `[]`; if every item converts, the result has one record per item in the same order, whatever `news_count` is; if any item fails, the result is `[]` and never a partial list |

## Left out

- The bounded tool-call budget and orchestration loop are not in this code: `main.py` builds an agent with no tools and no call limit.
- `main.py`, `test_agent.py` and `frontend/src/App.jsx` are left out. They are the HTTP server, an HTTP test script and a static UI.
- The HTTP calls (`requests.get`, `yfinance.Search`) are not modelled. Their outcomes are inputs. The endpoint URL, the fixed headers and the 10-second timeout only shape that call.
- Reading `BRAVE_API_KEY` from the environment becomes an input. Logging, the `/debug` router and the `@function_tool` decorator are left out.
- The cache's 100 MB size limit, its eviction and culling policy, its on-disk persistence and concurrent access belong to the cache library and are left out. The model keeps only get and set with expiry.
- The clock is a whole number of seconds held by `SearchTool`. The library reads a floating-point wall clock.
- The cache's `get` and `set` are assumed never to raise. In the code, a storage error in `get` (outside the `try`) would propagate out of `web_search`, and one in `set` would make a successful response return `{}` uncached; neither path is modelled.
- A successful write is stamped with the clock reading at the start of the call. The code stamps it after the HTTP call returns, up to the 10-second timeout later.
- The default arguments `count=10`, `freshness="pw"` and `news_count=8` are not modelled; every call passes all arguments.
- JSON numbers are integers only. Floating-point values are not modelled.
- `YFinanceNews.ToSearchResult`: accepts only JSON strings for the four text fields and a JSON integer for the publish time. The record validator's lax coercions, such as a numeric string or a whole float for the integer field, are not modelled.
- `YFinanceNews.News`: the `news` attribute is modelled as a list or missing. Other iterable shapes are not modelled. `query` and `news_count` only go to the provider, so the model does not use them.
