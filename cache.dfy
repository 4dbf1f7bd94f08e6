/** lib/cache.js: a thin `Cache` class in front of a key/value backend (a Cacheman
    instance), whose one rule of its own is that a ttl of 0 means "never expire". */
module CacheStore {
  import opened Js

  /** Namespace the backend is created with (lib/cache.js:8). */
  const Namespace: string := "solr-cache"

  /** The backend's "never expire" ttl, which the cache sends in place of 0. */
  const NeverExpire: JsValue := Num(-1.0)

  /** One stored entry: the value and the ttl the backend was given for it. */
  datatype Entry = Entry(value: JsValue, ttl: JsValue)

  type Entries = map<JsValue, Entry>

  /** How a `get` promise settles. */
  datatype Settled = Fulfilled(value: JsValue) | Rejected(reason: JsValue)

  /** How a `set`, `del` or `clear` promise settles. */
  datatype Ack = Acked | Failed(reason: JsValue)

  /** The backend's answer for `key`: the stored value, or null when nothing is stored. */
  function Stored(entries: Entries, key: JsValue): JsValue {
    if key in entries then entries[key].value else Null
  }

  /** The ttl forwarded to the backend (lib/cache.js:17). */
  function NormalizeTtl(ttl: JsValue): (r: JsValue)
    ensures r != Num(0.0)
    ensures ttl != Num(0.0) ==> r == ttl
    ensures ttl == Num(0.0) ==> r == NeverExpire
  {
    if ttl == Num(0.0) then NeverExpire else ttl
  }

  /** The only two ttls the rewrite merges are 0 and the sentinel -1 itself. */
  lemma NormalizeTtlMergesOnlyZero(t1: JsValue, t2: JsValue)
    requires t1 != t2 && NormalizeTtl(t1) == NormalizeTtl(t2)
    ensures {t1, t2} == {Num(0.0), NeverExpire}
  {
  }

  /** The entries after a successful `cache.set(key, value, ttl)`. */
  function Written(entries: Entries, key: JsValue, value: JsValue, ttl: JsValue): (r: Entries)
    ensures Stored(r, key) == value
    ensures key in r && r[key].ttl != Num(0.0)
    ensures r.Keys == entries.Keys + {key}
    ensures forall k :: k in entries && k != key ==> r[k] == entries[k]
  {
    entries[key := Entry(value, NormalizeTtl(ttl))]
  }

  /** Stand-in for the external Cacheman backend: a map from keys to entries. Its
      failures are inputs (`fault`); a failed operation changes nothing. Expiry and
      eviction are the backend's own business and are not modelled. */
  class Cacheman {
    const namespace: string
    const options: JsValue
    var entries: Entries

    constructor (namespace: string, options: JsValue)
      ensures this.namespace == namespace && this.options == options
      ensures entries == map[]
    {
      this.namespace := namespace;
      this.options := options;
      entries := map[];
    }

    method Get(key: JsValue, fault: Option<JsValue>) returns (r: Settled)
      ensures fault.Some? ==> r == Rejected(fault.value)
      ensures fault.None? ==> r == Fulfilled(Stored(entries, key))
    {
      if fault.Some? {
        r := Rejected(fault.value);
      } else {
        r := Fulfilled(Stored(entries, key));
      }
    }

    method Set(key: JsValue, value: JsValue, ttl: JsValue, fault: Option<JsValue>) returns (r: Ack)
      modifies this
      ensures r == if fault.Some? then Failed(fault.value) else Acked
      ensures entries == if fault.Some? then old(entries) else old(entries)[key := Entry(value, ttl)]
    {
      if fault.Some? {
        r := Failed(fault.value);
      } else {
        entries := entries[key := Entry(value, ttl)];
        r := Acked;
      }
    }

    method Del(key: JsValue, fault: Option<JsValue>) returns (r: Ack)
      modifies this
      ensures r == if fault.Some? then Failed(fault.value) else Acked
      ensures entries == if fault.Some? then old(entries) else old(entries) - {key}
    {
      if fault.Some? {
        r := Failed(fault.value);
      } else {
        entries := entries - {key};
        r := Acked;
      }
    }

    method Clear(fault: Option<JsValue>) returns (r: Ack)
      modifies this
      ensures r == if fault.Some? then Failed(fault.value) else Acked
      ensures entries == if fault.Some? then old(entries) else map[]
    {
      if fault.Some? {
        r := Failed(fault.value);
      } else {
        entries := map[];
        r := Acked;
      }
    }
  }

  /** lib/cache.js:5-28. The backend sits in a read-only, non-enumerable `_cache`
      property, modelled as a `const` field. */
  class Cache {
    const backend: Cacheman

    constructor (options: JsValue)
      ensures fresh(backend)
      ensures backend.namespace == Namespace && backend.options == options
      ensures backend.entries == map[]
    {
      backend := new Cacheman(Namespace, options);
    }

    /** Forwards the key; the backend's answer comes back unchanged. */
    method Get(key: JsValue, fault: Option<JsValue>) returns (r: Settled)
      ensures fault.Some? ==> r == Rejected(fault.value)
      ensures fault.None? ==> r == Fulfilled(Stored(backend.entries, key))
    {
      r := backend.Get(key, fault);
    }

    /** Forwards key and value unchanged, and the ttl with 0 rewritten to -1. */
    method Set(key: JsValue, value: JsValue, ttl: JsValue, fault: Option<JsValue>) returns (r: Ack)
      modifies backend
      ensures r == if fault.Some? then Failed(fault.value) else Acked
      ensures backend.entries ==
        if fault.Some? then old(backend.entries) else Written(old(backend.entries), key, value, ttl)
    {
      var forwarded := ttl;
      if forwarded == Num(0.0) {
        forwarded := NeverExpire;
      }
      r := backend.Set(key, value, forwarded, fault);
    }

    method Del(key: JsValue, fault: Option<JsValue>) returns (r: Ack)
      modifies backend
      ensures r == if fault.Some? then Failed(fault.value) else Acked
      ensures backend.entries == if fault.Some? then old(backend.entries) else old(backend.entries) - {key}
    {
      r := backend.Del(key, fault);
    }

    method Clear(fault: Option<JsValue>) returns (r: Ack)
      modifies backend
      ensures r == if fault.Some? then Failed(fault.value) else Acked
      ensures backend.entries == if fault.Some? then old(backend.entries) else map[]
    {
      r := backend.Clear(fault);
    }
  }

  /** The module's factory (lib/cache.js:30-32): a new Cache with its own, empty backend. */
  method NewCache(options: JsValue) returns (c: Cache)
    ensures fresh(c) && fresh(c.backend)
    ensures c.backend.namespace == Namespace && c.backend.options == options
    ensures c.backend.entries == map[]
  {
    c := new Cache(options);
  }
}
