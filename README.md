# solr-client-cache, modelled in Dafny

This project models the cache-aside decorator that solr-client-cache places on a
Solr client, and proves what it promises.

- `search(query, callback)` replaces the client's search. A call through a view
  without caching options goes straight to the original search. Otherwise the call
  picks a key (a truthy `customKey`, else a derived key) and reads the shared cache.
  A truthy stored value is served. On a miss the original search runs. Its error is
  reported without writing. Its results are written with the view's ttl, and the
  callback runs only once that write has resolved.
- `cache(ttl, customKey)` builds a caching view: a shallow copy of the client with
  fresh `cacheOptions = {ttl, customKey}`. A string first argument is the custom key.
- `getCacheKey(query)` hashes the record `{query, host, port, core, path}`. The query
  text is `build()` for builders, `querystring.stringify` for other objects, the
  string itself for strings, and `''` otherwise.
- The `Cache` class forwards `get`, `set`, `del` and `clear` to its backend, and
  rewrites a ttl of `0` to `-1` ("never expire") on `set`.

Files:

- `js.dfy` (module `Js`): JavaScript values and truthiness.
- `cache.dfy` (module `CacheStore`): `lib/cache.js`. `Cacheman` is a stand-in for the
  external backend, a map from keys to `(value, ttl)` entries. `Cache` holds it in a
  `const` field, like the read-only `_cache` property.
- `extend_client.dfy` (module `ExtendClient`): `lib/extend-client.js`. `SearchRun` is
  the specification of one call. It gives the events of the call (store get, live
  search, store set, callback, exception) and the store afterwards. The class
  `ExtendedClient` is the patched client. Its method `Search` is the imperative
  protocol over the shared `Cache`, proved equal to `SearchRun`.
- `session.dfy` (module `Session`): several calls and `del`/`clear` steps in a row on
  one cache. It proves by induction what the single-call contracts add up to.

The live search's answer and the cache backend's failures are inputs to each call
(`Environment`). The key generator and `querystring.stringify` are function
parameters (`KeyFunctions`), so every fact holds for whatever they compute.

Behaviour of the code that the model keeps, and that a reader might not expect:

- The key depends on the insertion order of a mapping query's keys. The key
  generator sorts only the keys of the record it hashes, and the record's query
  text comes from `querystring.stringify`, which keeps insertion order. So
  `{a:1,b:2}` and `{b:2,a:1}` give different texts. The model keeps the fields in order.
- The key is chosen with `||`, so any falsy custom key (`''`, `0`) falls back to
  the derived key.
- A rejected `set` has no handler, so it never reaches the callback and the caller
  is never called back.
- The hit test is truthiness. A stored falsy value counts as a miss.
- On the miss path the original search runs on the patched client. On the
  pass-through path it runs on the calling view.

## Model

| member | source | states |
|---|---|---|
| `CacheStore.NormalizeTtl` | lib/cache.js:16-18 | the forwarded ttl is never 0: 0 becomes -1 ("never expire") and every other ttl, undefined included, passes unchanged |
| `CacheStore.NormalizeTtlMergesOnlyZero` | lib/cache.js:17 | the only two distinct ttls the backend cannot tell apart are 0 and -1 |
| `CacheStore.Written` | lib/cache.js:16-19 | after a write the key reads back the written value with a nonzero ttl; the key set grows by that key only and no other entry changes |
| `CacheStore.Cache.constructor` | lib/cache.js:6-10 | a new cache owns a fresh backend in namespace "solr-cache", given the options, and empty |
| `CacheStore.Cache.Get` | lib/cache.js:12-14 | the key is forwarded; the result is the backend's answer unchanged (its rejection, or the stored value, or null) |
| `CacheStore.Cache.Set` | lib/cache.js:16-19 | key and value are forwarded unchanged, the ttl with 0 rewritten to -1; a backend failure is returned and changes nothing |
| `CacheStore.Cache.Del` | lib/cache.js:21-23 | delegates: the key is removed, and nothing else changes |
| `CacheStore.Cache.Clear` | lib/cache.js:25-27 | delegates: the backend is emptied, and nothing else changes |
| `CacheStore.NewCache` | lib/cache.js:30-32 | each call returns a new Cache with its own new, empty backend |
| `ExtendClient.GetCacheKey` | lib/extend-client.js:51-69 | the derived key is a 40-digit lower-case hex string |
| `ExtendClient.QueryText` | lib/extend-client.js:60-66 | a builder renders as its `build()` text, another object through `querystring.stringify`, a string verbatim, and anything else as '' (never an error) |
| `ExtendClient.KeyRecordOf` | lib/extend-client.js:52-58 | the record holds the rendered query text and the view's host, port, core and path, so the connection can be read back from it |
| `ExtendClient.KeyRecordSeparates` | lib/extend-client.js:52-58 | two key records are equal exactly when host, port, core, path and query text are all equal |
| `ExtendClient.KeysSeparateConnections` | lib/extend-client.js:51-68 | for one query, two views get the same key exactly when their connection options are equal, unless the hash collides |
| `ExtendClient.KeysSeparateQueryTexts` | lib/extend-client.js:60-68 | on one connection, two queries get the same key exactly when they render to the same text, unless the hash collides |
| `ExtendClient.UnrecognizedQueriesShareKey` | lib/extend-client.js:60-66 | null and non-string scalars do not fail; they render as '' and share the empty string's key |
| `ExtendClient.UsesCache` | lib/extend-client.js:11-12 | a view caches exactly when it neither passes through nor has null options: every call takes one of the three paths |
| `ExtendClient.PassesThrough` | lib/extend-client.js:11-14 | a view without an options object passes through; a view with one passes through exactly when it has no own `ttl`; null options never pass through |
| `ExtendClient.WithCache` | lib/extend-client.js:40-49 | the view keeps the client's options and other state, always enables caching, and a string first argument becomes the custom key with ttl undefined |
| `ExtendClient.CacheWithoutArgumentsCaches` | lib/extend-client.js:11-49 | `cache()` with no arguments still enables caching (own ttl, undefined), and views of views derive the client's keys |
| `ExtendClient.LookupKey` | lib/extend-client.js:16 | the lookup key is always truthy: a truthy custom key as given, otherwise the derived key |
| `ExtendClient.CustomKeySharedAcrossQueries` | lib/extend-client.js:16 | a truthy custom key is the lookup key for every query |
| `ExtendClient.FalsyCustomKeyFallsBack` | lib/extend-client.js:16 | a falsy custom key, the empty string included, falls back to the derived 40-digit key |
| `ExtendClient.PassThrough` | lib/extend-client.js:13 | the uncached path calls the original search first, on the calling view, then ends with its reply or its exception, in protocol order; the store is never read or written |
| `ExtendClient.MissRun` | lib/extend-client.js:27-35 | a miss reads the store, then asks the live search on the patched client, with its events in protocol order, and changes the store only by the write it records third |
| `ExtendClient.SearchRun` | lib/extend-client.js:10-38 | every call's events follow the order lookup, live search, write, then callback or exception; the store changes only by a write the trace records; the store is read first exactly when caching is on, under the lookup key |
| `ExtendClient.OrderedTraceDiscipline` | lib/extend-client.js:19-35 | a trace in protocol order holds at most one live search, one write and one callback, and every write precedes every callback |
| `ExtendClient.SearchCallDiscipline` | lib/extend-client.js:19-35 | every call calls back at most once, asks the live search at most once, writes at most once, and writes before it calls back |
| `ExtendClient.WritesFollowLiveSuccess` | lib/extend-client.js:27-34 | a call writes only as its third event, right after a live search that replied without an error, and writes that reply's results |
| `ExtendClient.UncachedCallPassesThrough` | lib/extend-client.js:11-14 | without an options object with an own ttl, the original search gets the call and the caller's callback gets its reply; the store is neither read nor written |
| `ExtendClient.NullOptionsThrow` | lib/extend-client.js:11-12 | a null `cacheOptions` makes the call raise a TypeError and do nothing else: no lookup, no live search, no callback, store unchanged |
| `ExtendClient.LookupFailureSkipsLiveSearch` | lib/extend-client.js:19-37 | a rejected lookup goes to the callback; no live search, no write |
| `ExtendClient.HitServesStoredValue` | lib/extend-client.js:21-25 | a truthy stored value goes to the callback with a null error; no live search, no write |
| `ExtendClient.FalsyStoredValueIsMiss` | lib/extend-client.js:22-28 | a falsy or missing stored value is a miss: the live search runs on the patched client |
| `ExtendClient.LiveFailureIsNotCached` | lib/extend-client.js:27-31 | a failed live search (error reply, or a throw caught by the promise chain) is reported and nothing is written |
| `ExtendClient.MissWritesThenReports` | lib/extend-client.js:33-34 | a successful miss writes exactly once, under the lookup key with the view's ttl, then calls back with the results; the results can be read back |
| `ExtendClient.RejectedWriteNeverCallsBack` | lib/extend-client.js:33-34 | if the write is rejected the callback never runs and the store is unchanged |
| `ExtendClient.MissThenHit` | lib/extend-client.js:19-35 | a written miss is followed by a hit on the same view and query that serves the same results without a live search |
| `ExtendClient.ExtendedClient.constructor` | lib/extend-client.js:7-8 | the patched client keeps the given shared cache |
| `ExtendClient.ExtendedClient.Search` | lib/extend-client.js:10-38 | the imperative protocol produces exactly the events and the store that `SearchRun` specifies |
| `Session.StepKeepsWrittenBy` | lib/extend-client.js:19-35 | one search, del or clear keeps every entry traceable to a recorded write under its key |
| `Session.ReplayKeepsWrittenBy` | lib/extend-client.js:19-35 | any sequence of searches, dels and clears keeps that invariant |
| `Session.SessionEntriesWereWritten` | lib/extend-client.js:33 | from an empty store, every entry is what some search wrote under its key right after its live search, with its ttl rewritten; with `WritesFollowLiveSuccess`, that live search succeeded and returned the entry's value |
| `Session.HitReplaysEarlierWrite` | lib/extend-client.js:21-34 | after any session from an empty store, a hit serves a value an earlier call wrote under the same key, right after its live search |
| `Session.UncachedSessionLeavesStoreAlone` | lib/extend-client.js:11-14 | a session of uncached searches never reads or writes the store and calls the live search exactly once per call |

## Left out

- lib/keygen.js (key-sorting, JSON encoding, SHA-1) is the function parameter `keygen`. Only its 40-digit hex output is assumed. SHA-1 cannot be injective, so the key separation lemmas assume no collision on the two records in question.
- KeysSeparateConnections, KeysSeparateQueryTexts: the no-collision hypothesis covers more than SHA-1. `JSON.stringify` already merges some distinct records before hashing: it writes NaN and ±Infinity as `null`, so `{port: NaN}` and `{port: null}` share a key, and it writes objects by content, so two different objects with equal content share a key. The model's `Obj` values are compared by reference, so such pairs count as different records and `NoCollision` fails for them.
- `querystring.stringify` is the function parameter `stringify`. `build()` is its rendered string, after the `+=` string conversion.
- Cacheman's expiry, eviction, engines and real time are not modelled. A backend call that fails is assumed to change nothing.
- Promise and callback scheduling is not modelled. Each call is a sequence of events, and concurrent calls are not modelled.
- A callback that throws is not modelled. On the hit path such a throw would reach `.catch(callback)` and call the callback a second time.
- Exceptions thrown while deriving the key (a throwing `build()`, missing `options`) are not modelled.
- The value `search` returns synchronously is not modelled. That is the original search's return value on the pass-through path and undefined otherwise.
- The monkey-patching of the client object is not modelled; the patched client is the class `ExtendedClient`.
- Views are values, so the object identity of a new view is not modelled. This covers "a new object" and "the original client is not modified". The state a view copies and shares is stated instead.
- The test suite expects a `__fromCache` marker on hits. The code never sets one, so the model does not have it.
- lib/index.js is wiring only. It creates the cache, attaches it as `__cache`, and extends the client.
- JavaScript numbers are reals plus NaN. Infinity and -0 are not told apart from other numbers; neither changes a branch here.
