/** lib/extend-client.js: the cache-aside decorator on a Solr client. The module
    gives the client a replacement `search`, a `cache(ttl, customKey)` builder of
    caching views, and `getCacheKey(query)`. The patched client is modelled as the
    class `ExtendedClient`, holding the shared `Cache`; a client object or a view
    made by the builder is a `ClientView` value. */
module ExtendClient {
  import opened Js
  import opened CacheStore

  // ---------------------------------------------------------------- queries and keys

  /** A plain object's own enumerable properties, in insertion order. */
  type Fields = seq<(string, JsValue)>

  /** The shapes `getCacheKey` tells apart (lib/extend-client.js:60-66). */
  datatype Query =
    | Buildable(built: string)    // a truthy value whose `build` is a function; `built` is what `build()` renders to
    | PlainObject(fields: Fields) // any other non-null object
    | NullQuery                   // `typeof null === 'object'`; `querystring.stringify(null)` is ''
    | Text(text: string)          // a string
    | Scalar                      // undefined, a number, a boolean

  /** The connection identity a client targets (`this.options`). */
  datatype ConnectionOptions = ConnectionOptions(host: JsValue, port: JsValue, core: JsValue, path: JsValue)

  /** The record that is hashed into a cache key (lib/extend-client.js:52-58). */
  datatype KeyRecord = KeyRecord(query: string, host: JsValue, port: JsValue, core: JsValue, path: JsValue)

  const HexDigits: string := "0123456789abcdef"

  /** A SHA-1 digest in lower-case hex, as the key generator returns it. */
  type Sha1Hex = s: string | |s| == 40 && forall c :: c in s ==> c in HexDigits
    witness "0000000000000000000000000000000000000000"

  /** The two foreign functions the key derivation relies on: `keygen` (key-sort the
      record, JSON-encode it, SHA-1 it) and `querystring.stringify`. They are
      parameters, so every fact below holds whatever they compute. */
  datatype KeyFunctions = KeyFunctions(keygen: KeyRecord -> Sha1Hex, stringify: Fields -> string)

  /** The `cacheOptions` property of the object `search` is called on. */
  datatype CacheOptions =
    | NotAnObject                                         // absent (undefined) or a primitive
    | NullObject                                          // null: `typeof` says 'object', `hasOwnProperty` throws
    | OptionsObject(ownTtl: Option<JsValue>, customKey: JsValue) // `ownTtl` is None when there is no own `ttl`

  /** The own enumerable state of a client object: its connection options, its other
      properties, and its `cacheOptions`. */
  datatype ClientView = ClientView(options: ConnectionOptions, others: map<string, JsValue>, cacheOptions: CacheOptions)

  /** Text that stands for the query in the key record (lib/extend-client.js:60-66). */
  function QueryText(query: Query, stringify: Fields -> string): (text: string)
    ensures query.Buildable? ==> text == query.built
    ensures query.PlainObject? ==> text == stringify(query.fields)
    ensures query.Text? ==> text == query.text
    ensures query.NullQuery? || query.Scalar? ==> text == ""
  {
    match query
    case Buildable(built) => built
    case PlainObject(fields) => stringify(fields)
    case NullQuery => ""
    case Text(text) => text
    case Scalar => ""
  }

  /** The record to hash (lib/extend-client.js:52-58): the query text plus the connection's
      four fields, from which the connection can be read back. */
  function KeyRecordOf(options: ConnectionOptions, query: Query, stringify: Fields -> string): (r: KeyRecord)
    ensures ConnectionOptions(r.host, r.port, r.core, r.path) == options
    ensures r.query == QueryText(query, stringify)
  {
    KeyRecord(QueryText(query, stringify), options.host, options.port, options.core, options.path)
  }

  /** `getCacheKey(query)` called on `view` (lib/extend-client.js:51-69). */
  function GetCacheKey(view: ClientView, query: Query, keys: KeyFunctions): (key: string)
    ensures |key| == 40
    ensures forall c :: c in key ==> c in HexDigits
  {
    keys.keygen(KeyRecordOf(view.options, query, keys.stringify))
  }

  /** The key record separates connection identities and query texts: two records
      agree exactly when all five fields agree. */
  lemma KeyRecordSeparates(o1: ConnectionOptions, q1: Query, o2: ConnectionOptions, q2: Query, stringify: Fields -> string)
    ensures KeyRecordOf(o1, q1, stringify) == KeyRecordOf(o2, q2, stringify)
        <==> o1 == o2 && QueryText(q1, stringify) == QueryText(q2, stringify)
  {
  }

  /** The hash does not collide on these two records. */
  ghost predicate NoCollision(keygen: KeyRecord -> Sha1Hex, r1: KeyRecord, r2: KeyRecord) {
    keygen(r1) == keygen(r2) ==> r1 == r2
  }

  /** Views on different connections get different keys for the same query, and views
      on the same connection the same key, unless the hash collides. */
  lemma KeysSeparateConnections(v1: ClientView, v2: ClientView, query: Query, keys: KeyFunctions)
    requires NoCollision(keys.keygen, KeyRecordOf(v1.options, query, keys.stringify), KeyRecordOf(v2.options, query, keys.stringify))
    ensures GetCacheKey(v1, query, keys) == GetCacheKey(v2, query, keys) <==> v1.options == v2.options
  {
    KeyRecordSeparates(v1.options, query, v2.options, query, keys.stringify);
  }

  /** On one connection, two queries share a key exactly when they render to the same
      text (unless the hash collides): the shape of the query is not part of the key. */
  lemma KeysSeparateQueryTexts(view: ClientView, q1: Query, q2: Query, keys: KeyFunctions)
    requires NoCollision(keys.keygen, KeyRecordOf(view.options, q1, keys.stringify), KeyRecordOf(view.options, q2, keys.stringify))
    ensures GetCacheKey(view, q1, keys) == GetCacheKey(view, q2, keys)
        <==> QueryText(q1, keys.stringify) == QueryText(q2, keys.stringify)
  {
    KeyRecordSeparates(view.options, q1, view.options, q2, keys.stringify);
  }

  /** Unrecognised query shapes do not fail: they all render as '' and share one key
      with the empty string. */
  lemma UnrecognizedQueriesShareKey(view: ClientView, keys: KeyFunctions)
    ensures GetCacheKey(view, NullQuery, keys) == GetCacheKey(view, Text(""), keys)
    ensures GetCacheKey(view, Scalar, keys) == GetCacheKey(view, Text(""), keys)
  {
    var empty := KeyRecordOf(view.options, Text(""), keys.stringify);
    assert KeyRecordOf(view.options, NullQuery, keys.stringify) == empty;
    assert KeyRecordOf(view.options, Scalar, keys.stringify) == empty;
  }

  // ---------------------------------------------------------------- the builder

  /** `search` consults the cache only when `cacheOptions` is a non-null object with
      an own `ttl` property (lib/extend-client.js:11-12). */
  predicate UsesCache(view: ClientView)
    ensures UsesCache(view) <==> !PassesThrough(view) && !view.cacheOptions.NullObject?
  {
    view.cacheOptions.OptionsObject? && view.cacheOptions.ownTtl.Some?
  }

  /** `search` hands the call to the original search (lib/extend-client.js:11-14). */
  predicate PassesThrough(view: ClientView)
    ensures view.cacheOptions.NotAnObject? ==> PassesThrough(view)
    ensures view.cacheOptions.OptionsObject? ==> (PassesThrough(view) <==> view.cacheOptions.ownTtl.None?)
    ensures !(view.cacheOptions.NullObject? && PassesThrough(view))
  {
    view.cacheOptions.NotAnObject? || (view.cacheOptions.OptionsObject? && view.cacheOptions.ownTtl.None?)
  }

  /** `client.cache(ttl, customKey)` (lib/extend-client.js:40-49): a shallow copy of the
      client with fresh `cacheOptions = {ttl, customKey}`; a string first argument is
      the custom key, and the ttl is then undefined. Omitted arguments are Undefined. */
  function WithCache(client: ClientView, ttl: JsValue, customKey: JsValue): (view: ClientView)
    ensures view.options == client.options && view.others == client.others
    ensures UsesCache(view)
    ensures ttl.Str? ==> view.cacheOptions == OptionsObject(Some(Undefined), ttl)
    ensures !ttl.Str? ==> view.cacheOptions == OptionsObject(Some(ttl), customKey)
  {
    if ttl.Str? then
      ClientView(client.options, client.others, OptionsObject(Some(Undefined), ttl))
    else
      ClientView(client.options, client.others, OptionsObject(Some(ttl), customKey))
  }

  /** `cache()` with no arguments still turns caching on: the options object always
      has an own `ttl`, even when it is undefined. Building views leaves the
      connection alone, so views of views key exactly like the client. */
  lemma CacheWithoutArgumentsCaches(client: ClientView, query: Query, keys: KeyFunctions)
    ensures UsesCache(WithCache(client, Undefined, Undefined))
    ensures WithCache(client, Undefined, Undefined).cacheOptions.ownTtl == Some(Undefined)
    ensures GetCacheKey(WithCache(WithCache(client, Undefined, Undefined), Num(30.0), Undefined), query, keys)
         == GetCacheKey(client, query, keys)
  {
  }

  /** The key a caching call looks up: a truthy `customKey`, else the derived key
      (lib/extend-client.js:16). */
  function LookupKey(view: ClientView, query: Query, keys: KeyFunctions): (key: JsValue)
    requires view.cacheOptions.OptionsObject?
    ensures Truthy(key)
    ensures Truthy(view.cacheOptions.customKey) ==> key == view.cacheOptions.customKey
    ensures !Truthy(view.cacheOptions.customKey) ==> key == Str(GetCacheKey(view, query, keys))
  {
    if Truthy(view.cacheOptions.customKey) then view.cacheOptions.customKey
    else Str(GetCacheKey(view, query, keys))
  }

  /** A truthy custom key overrides the query: any two queries through the view share
      one entry. */
  lemma CustomKeySharedAcrossQueries(view: ClientView, q1: Query, q2: Query, keys: KeyFunctions)
    requires view.cacheOptions.OptionsObject? && Truthy(view.cacheOptions.customKey)
    ensures LookupKey(view, q1, keys) == LookupKey(view, q2, keys) == view.cacheOptions.customKey
  {
  }

  /** A falsy custom key (the empty string, undefined, 0, ...) falls back to the
      derived key, a 40-digit hex string. */
  lemma FalsyCustomKeyFallsBack(view: ClientView, query: Query, keys: KeyFunctions)
    requires view.cacheOptions.OptionsObject? && !Truthy(view.cacheOptions.customKey)
    ensures LookupKey(view, query, keys) == Str(GetCacheKey(view, query, keys))
    ensures |LookupKey(view, query, keys).s| == 40
  {
  }

  // ---------------------------------------------------------------- one search call

  /** `this` of a call to the original search: the view `search` was called on, or
      the patched client itself (the miss path uses `oldSearch.call(solrClient, ...)`). */
  datatype Receiver = CallingView | PatchedClient

  /** What one `search` call does, in order. */
  datatype Event =
    | StoreGet(key: JsValue)                               // cache.get(key)
    | LiveSearch(query: Query, receiver: Receiver)          // the original search is called
    | StoreSet(key: JsValue, value: JsValue, ttl: JsValue)  // cache.set(key, value, ttl)
    | Callback(err: JsValue, results: JsValue)              // the caller's callback runs
    | Raised(error: JsValue)                                // an exception escapes `search` itself
    | OptionsTypeError                                      // `null.hasOwnProperty` throws

  datatype Kind = GetKind | LiveKind | SetKind | CallbackKind | RaiseKind

  function KindOf(e: Event): Kind {
    match e
    case StoreGet(_) => GetKind
    case LiveSearch(_, _) => LiveKind
    case StoreSet(_, _, _) => SetKind
    case Callback(_, _) => CallbackKind
    case Raised(_) => RaiseKind
    case OptionsTypeError => RaiseKind
  }

  /** Where each kind of event may stand in a call: lookup, live search, write, then
      the callback, or an exception escaping `search`. */
  function Rank(k: Kind): nat {
    match k
    case GetKind => 0
    case LiveKind => 1
    case SetKind => 2
    case CallbackKind => 3
    case RaiseKind => 4
  }

  /** Each event of the trace ranks strictly after the one before it. */
  ghost predicate InProtocolOrder(trace: seq<Event>) {
    forall i :: 0 < i < |trace| ==> Rank(KindOf(trace[i - 1])) < Rank(KindOf(trace[i]))
  }

  /** How the original search answers: it calls back with `(err, results)`, or throws. */
  datatype LiveAnswer = Replied(err: JsValue, results: JsValue) | Threw(error: JsValue)

  /** Everything outside the decorator that decides a call: whether `cache.get`
      rejects, how the live search answers, whether `cache.set` rejects. */
  datatype Environment = Environment(getFault: Option<JsValue>, live: LiveAnswer, setFault: Option<JsValue>)

  /** A call's events and the store's entries afterwards. */
  datatype Run = Run(trace: seq<Event>, store: Entries)

  ghost predicate Never(trace: seq<Event>, k: Kind) {
    forall i :: 0 <= i < |trace| ==> KindOf(trace[i]) != k
  }

  ghost predicate AtMostOnce(trace: seq<Event>, k: Kind) {
    forall i, j :: 0 <= i < |trace| && 0 <= j < |trace| && KindOf(trace[i]) == k && KindOf(trace[j]) == k ==> i == j
  }

  /** Every write comes before every callback. */
  ghost predicate SetBeforeCallback(trace: seq<Event>) {
    forall i, j :: 0 <= i < |trace| && 0 <= j < |trace| && trace[i].StoreSet? && trace[j].Callback? ==> i < j
  }

  /** The store is left as it was, or is the result of one write the trace records. */
  ghost predicate ChangedOnlyByRecordedSet(before: Entries, r: Run) {
    r.store == before ||
    exists i :: 0 <= i < |r.trace| && r.trace[i].StoreSet? &&
      r.store == Written(before, r.trace[i].key, r.trace[i].value, r.trace[i].ttl)
  }

  function Last(trace: seq<Event>): Event
    requires trace != []
  {
    trace[|trace| - 1]
  }

  /** The uncached path: the original search runs on the calling view with the
      caller's own callback. */
  function PassThrough(query: Query, live: LiveAnswer): (trace: seq<Event>)
    ensures |trace| == 2 && trace[0] == LiveSearch(query, CallingView)
    ensures Never(trace, GetKind) && Never(trace, SetKind)
    ensures InProtocolOrder(trace)
  {
    match live
    case Replied(err, results) => [LiveSearch(query, CallingView), Callback(err, results)]
    case Threw(e) => [LiveSearch(query, CallingView), Raised(e)]
  }

  /** The miss path (lib/extend-client.js:27-35): ask the live search; report its error
      without writing; on success write, and call back only once the write resolved. */
  function MissRun(key: JsValue, ttl: JsValue, query: Query, store: Entries, env: Environment): (r: Run)
    ensures |r.trace| >= 3 && r.trace[0] == StoreGet(key) && r.trace[1] == LiveSearch(query, PatchedClient)
    ensures InProtocolOrder(r.trace)
    ensures r.store == store || (r.trace[2].StoreSet? &&
      r.store == Written(store, r.trace[2].key, r.trace[2].value, r.trace[2].ttl))
  {
    var get, live := StoreGet(key), LiveSearch(query, PatchedClient);
    match env.live
    case Threw(e) => Run([get, live, Callback(e, Undefined)], store)
    case Replied(err, results) =>
      if Truthy(err) then Run([get, live, Callback(err, Undefined)], store)
      else if env.setFault.Some? then Run([get, live, StoreSet(key, results, ttl)], store)
      else Run([get, live, StoreSet(key, results, ttl), Callback(Null, results)], Written(store, key, results, ttl))
  }

  /** The replacement `search(query, callback)` (lib/extend-client.js:10-38), as a
      function of the store's entries and the environment. */
  function SearchRun(view: ClientView, query: Query, store: Entries, env: Environment, keys: KeyFunctions): (r: Run)
    ensures r.trace != []
    ensures InProtocolOrder(r.trace)
    ensures ChangedOnlyByRecordedSet(store, r)
    ensures UsesCache(view) <==> r.trace[0].StoreGet?
    ensures UsesCache(view) ==> r.trace[0] == StoreGet(LookupKey(view, query, keys))
  {
    match view.cacheOptions
    case NullObject => Run([OptionsTypeError], store)
    case NotAnObject => Run(PassThrough(query, env.live), store)
    case OptionsObject(ownTtl, _) =>
      if ownTtl.None? then Run(PassThrough(query, env.live), store)
      else
        var key := LookupKey(view, query, keys);
        if env.getFault.Some? then Run([StoreGet(key), Callback(env.getFault.value, Undefined)], store)
        else
          var cached := Stored(store, key);
          if Truthy(cached) then Run([StoreGet(key), Callback(Null, cached)], store)
          else
            MissRun(key, ownTtl.value, query, store, env)
  }

  lemma {:induction false} OrderIsStrict(trace: seq<Event>, i: int, j: int)
    requires InProtocolOrder(trace) && 0 <= i < j < |trace|
    ensures Rank(KindOf(trace[i])) < Rank(KindOf(trace[j]))
    decreases j - i
  {
    if i + 1 < j {
      OrderIsStrict(trace, i, j - 1);
    }
  }

  /** A trace in protocol order holds each kind of event at most once, and every
      write comes before every callback. */
  lemma OrderedTraceDiscipline(trace: seq<Event>)
    requires InProtocolOrder(trace)
    ensures AtMostOnce(trace, LiveKind) && AtMostOnce(trace, SetKind) && AtMostOnce(trace, CallbackKind)
    ensures SetBeforeCallback(trace)
  {
    forall i, j | 0 <= i < j < |trace|
      ensures Rank(KindOf(trace[i])) < Rank(KindOf(trace[j]))
    {
      OrderIsStrict(trace, i, j);
    }
  }

  /** Every call calls back at most once, asks the live search at most once, writes
      at most once, and writes before it calls back (lib/extend-client.js:19-35). */
  lemma SearchCallDiscipline(view: ClientView, query: Query, store: Entries, env: Environment, keys: KeyFunctions)
    ensures var r := SearchRun(view, query, store, env, keys);
      && AtMostOnce(r.trace, LiveKind) && AtMostOnce(r.trace, SetKind) && AtMostOnce(r.trace, CallbackKind)
      && SetBeforeCallback(r.trace)
  {
    OrderedTraceDiscipline(SearchRun(view, query, store, env, keys).trace);
  }

  /** A call writes only as its third event, right after a live search that replied
      without an error, and what it writes is that reply's results
      (lib/extend-client.js:27-34). */
  lemma WritesFollowLiveSuccess(view: ClientView, query: Query, store: Entries, env: Environment, keys: KeyFunctions)
    ensures var r := SearchRun(view, query, store, env, keys);
      forall i :: 0 <= i < |r.trace| && r.trace[i].StoreSet? ==>
        && i == 2 && r.trace[1] == LiveSearch(query, PatchedClient)
        && env.live.Replied? && !Truthy(env.live.err) && r.trace[i].value == env.live.results
  {
  }

  // ---------------------------------------------------------------- the protocol's cases

  /** Without caching options the original search gets the call, on the calling view
      and with the caller's callback, and the store is neither read nor written
      (lib/extend-client.js:11-14). */
  lemma UncachedCallPassesThrough(view: ClientView, query: Query, store: Entries, env: Environment, keys: KeyFunctions)
    requires PassesThrough(view)
    ensures var r := SearchRun(view, query, store, env, keys);
      && r.store == store
      && Never(r.trace, GetKind) && Never(r.trace, SetKind)
      && r.trace[0] == LiveSearch(query, CallingView)
      && AtMostOnce(r.trace, LiveKind)
      && (env.live.Replied? ==> Last(r.trace) == Callback(env.live.err, env.live.results))
      && (env.live.Threw? ==> Last(r.trace) == Raised(env.live.error))
  {
    SearchCallDiscipline(view, query, store, env, keys);
  }

  /** A `cacheOptions` of null makes `hasOwnProperty` throw before anything else runs. */
  lemma NullOptionsThrow(view: ClientView, query: Query, store: Entries, env: Environment, keys: KeyFunctions)
    requires view.cacheOptions.NullObject?
    ensures var r := SearchRun(view, query, store, env, keys);
      r.trace == [OptionsTypeError] &&
      r.store == store && Never(r.trace, LiveKind) && Never(r.trace, GetKind) && Never(r.trace, CallbackKind)
  {
  }

  /** A failed lookup goes to the callback; the live search is not contacted and
      nothing is written (lib/extend-client.js:19-21,37). */
  lemma LookupFailureSkipsLiveSearch(view: ClientView, query: Query, store: Entries, env: Environment, keys: KeyFunctions)
    requires UsesCache(view) && env.getFault.Some?
    ensures var r := SearchRun(view, query, store, env, keys);
      r.store == store && Never(r.trace, LiveKind) && Never(r.trace, SetKind)
      && Last(r.trace) == Callback(env.getFault.value, Undefined)
  {
  }

  /** A truthy stored value is a hit: the callback gets it, the live search is never
      called and nothing is written (lib/extend-client.js:21-25). */
  lemma HitServesStoredValue(view: ClientView, query: Query, store: Entries, env: Environment, keys: KeyFunctions)
    requires UsesCache(view) && env.getFault.None?
    requires Truthy(Stored(store, LookupKey(view, query, keys)))
    ensures var r := SearchRun(view, query, store, env, keys);
      r.store == store && Never(r.trace, LiveKind) && Never(r.trace, SetKind)
      && Last(r.trace) == Callback(Null, Stored(store, LookupKey(view, query, keys)))
  {
  }

  /** A falsy stored value (or none) is a miss: the original search is asked, on the
      patched client rather than the view. */
  lemma FalsyStoredValueIsMiss(view: ClientView, query: Query, store: Entries, env: Environment, keys: KeyFunctions)
    requires UsesCache(view) && env.getFault.None?
    requires !Truthy(Stored(store, LookupKey(view, query, keys)))
    ensures var r := SearchRun(view, query, store, env, keys);
      |r.trace| >= 2 && r.trace[1] == LiveSearch(query, PatchedClient)
  {
  }

  /** A miss whose live search fails (an error reply, or a throw caught by the
      promise chain) reports the error and writes nothing (lib/extend-client.js:27-31,37). */
  lemma LiveFailureIsNotCached(view: ClientView, query: Query, store: Entries, env: Environment, keys: KeyFunctions)
    requires UsesCache(view) && env.getFault.None?
    requires !Truthy(Stored(store, LookupKey(view, query, keys)))
    requires env.live.Threw? || Truthy(env.live.err)
    ensures var r := SearchRun(view, query, store, env, keys);
      r.store == store && Never(r.trace, SetKind)
      && Last(r.trace) == Callback(if env.live.Threw? then env.live.error else env.live.err, Undefined)
  {
  }

  /** A miss whose live search succeeds writes exactly once, under the lookup key with
      the view's ttl, and only then calls back with the results (lib/extend-client.js:33-34). */
  lemma MissWritesThenReports(view: ClientView, query: Query, store: Entries, env: Environment, keys: KeyFunctions)
    requires UsesCache(view) && env.getFault.None? && env.setFault.None?
    requires !Truthy(Stored(store, LookupKey(view, query, keys)))
    requires env.live.Replied? && !Truthy(env.live.err)
    ensures var r := SearchRun(view, query, store, env, keys);
      var key := LookupKey(view, query, keys);
      && r.trace[2] == StoreSet(key, env.live.results, view.cacheOptions.ownTtl.value)
      && AtMostOnce(r.trace, SetKind)
      && Last(r.trace) == Callback(Null, env.live.results)
      && r.store == Written(store, key, env.live.results, view.cacheOptions.ownTtl.value)
      && Stored(r.store, key) == env.live.results
  {
    SearchCallDiscipline(view, query, store, env, keys);
  }

  /** A rejected write is not routed to the callback: the caller is never called back,
      and the store is unchanged (lib/extend-client.js:33-34). */
  lemma RejectedWriteNeverCallsBack(view: ClientView, query: Query, store: Entries, env: Environment, keys: KeyFunctions)
    requires UsesCache(view) && env.getFault.None? && env.setFault.Some?
    requires !Truthy(Stored(store, LookupKey(view, query, keys)))
    requires env.live.Replied? && !Truthy(env.live.err)
    ensures var r := SearchRun(view, query, store, env, keys);
      r.store == store && Never(r.trace, CallbackKind) && Last(r.trace).StoreSet?
  {
  }

  /** A miss that is written and reported is followed, for the same view and query, by
      a hit that serves the same results without asking the live search again, as long
      as the results are truthy and the lookup succeeds. */
  lemma MissThenHit(view: ClientView, query: Query, store: Entries, env1: Environment, env2: Environment, keys: KeyFunctions)
    requires UsesCache(view) && env1.getFault.None? && env1.setFault.None? && env2.getFault.None?
    requires !Truthy(Stored(store, LookupKey(view, query, keys)))
    requires env1.live.Replied? && !Truthy(env1.live.err) && Truthy(env1.live.results)
    ensures var first := SearchRun(view, query, store, env1, keys);
      var second := SearchRun(view, query, first.store, env2, keys);
      && Last(first.trace) == Callback(Null, env1.live.results)
      && Never(second.trace, LiveKind) && second.store == first.store
      && Last(second.trace) == Callback(Null, env1.live.results)
  {
    var key := LookupKey(view, query, keys);
    var first := SearchRun(view, query, store, env1, keys);
    MissWritesThenReports(view, query, store, env1, keys);
    HitServesStoredValue(view, query, first.store, env2, keys);
  }

  // ---------------------------------------------------------------- the patched client

  /** The Solr client after `extendClient(solrClient, cache)` (lib/extend-client.js:7):
      it holds the cache every view shares and the key functions. */
  class ExtendedClient {
    const cache: Cache
    const keys: KeyFunctions

    constructor (cache: Cache, keys: KeyFunctions)
      ensures this.cache == cache && this.keys == keys
    {
      this.cache := cache;
      this.keys := keys;
    }

    /** `view.search(query, callback)`: returns the events of the call and leaves the
        store as `SearchRun` says. */
    method Search(view: ClientView, query: Query, env: Environment) returns (trace: seq<Event>)
      modifies cache.backend
      ensures trace == SearchRun(view, query, old(cache.backend.entries), env, keys).trace
      ensures cache.backend.entries == SearchRun(view, query, old(cache.backend.entries), env, keys).store
    {
      if view.cacheOptions.NullObject? {
        trace := [OptionsTypeError];
        return;
      }
      if !UsesCache(view) {
        trace := [LiveSearch(query, CallingView)];
        match env.live {
          case Replied(err, results) => trace := trace + [Callback(err, results)];
          case Threw(e) => trace := trace + [Raised(e)];
        }
        return;
      }
      var key := LookupKey(view, query, keys);
      var ttl := view.cacheOptions.ownTtl.value;
      trace := [StoreGet(key)];
      var cached := cache.Get(key, env.getFault);
      if cached.Rejected? {
        trace := trace + [Callback(cached.reason, Undefined)];
        return;
      }
      if Truthy(cached.value) {
        trace := trace + [Callback(Null, cached.value)];
        return;
      }
      trace := trace + [LiveSearch(query, PatchedClient)];
      match env.live {
        case Threw(e) =>
          trace := trace + [Callback(e, Undefined)];
        case Replied(err, results) =>
          if Truthy(err) {
            trace := trace + [Callback(err, Undefined)];
          } else {
            trace := trace + [StoreSet(key, results, ttl)];
            var ack := cache.Set(key, results, ttl, env.setFault);
            if ack.Acked? {
              trace := trace + [Callback(Null, results)];
            }
          }
      }
    }
  }
}
