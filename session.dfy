/** Several calls against one shared cache: the searches of any views of the patched
    client, interleaved with `del` and `clear` on the cache, run one after another.
    What one call promises (extend_client.dfy) adds up to invariants of the session. */
module Session {
  import opened Js
  import opened CacheStore
  import opened ExtendClient

  /** One operation of a session. */
  datatype Step =
    | SearchStep(view: ClientView, query: Query, env: Environment)
    | DelStep(key: JsValue, fault: Option<JsValue>)
    | ClearStep(fault: Option<JsValue>)

  /** One step's events and the entries after it (lib/cache.js:21-27 for del and clear,
      which record no search events). */
  function StepRun(step: Step, store: Entries, keys: KeyFunctions): Run {
    match step
    case SearchStep(view, query, env) => SearchRun(view, query, store, env, keys)
    case DelStep(key, fault) => Run([], if fault.Some? then store else store - {key})
    case ClearStep(fault) => Run([], if fault.Some? then store else map[])
  }

  /** The steps run in order from `store`: all their events, and the final entries. */
  function Replay(steps: seq<Step>, store: Entries, keys: KeyFunctions): Run
    decreases |steps|
  {
    if steps == [] then Run([], store)
    else
      var first := StepRun(steps[0], store, keys);
      var rest := Replay(steps[1..], first.store, keys);
      Run(first.trace + rest.trace, rest.store)
  }

  /** The entry under `k` is what some recorded `cache.set` wrote under `k`, right after
      a live search: its value, and its ttl with 0 rewritten to -1. */
  ghost predicate WrittenAt(store: Entries, trace: seq<Event>, k: JsValue)
    requires k in store
  {
    exists i :: 0 < i < |trace| && trace[i].StoreSet? && trace[i].key == k && trace[i - 1].LiveSearch? &&
      store[k] == Entry(trace[i].value, NormalizeTtl(trace[i].ttl))
  }

  /** Every entry was written by a recorded `cache.set`. */
  ghost predicate WrittenBy(store: Entries, trace: seq<Event>) {
    forall k :: k in store ==> WrittenAt(store, trace, k)
  }

  lemma StepKeepsWrittenBy(step: Step, store: Entries, prefix: seq<Event>, keys: KeyFunctions)
    requires WrittenBy(store, prefix)
    ensures var r := StepRun(step, store, keys); WrittenBy(r.store, prefix + r.trace)
  {
    var r := StepRun(step, store, keys);
    var t := prefix + r.trace;
    forall k | k in r.store
      ensures WrittenAt(r.store, t, k)
    {
      if k in store && r.store[k] == store[k] {
        var i :| 0 < i < |prefix| && prefix[i].StoreSet? && prefix[i].key == k && prefix[i - 1].LiveSearch? &&
          store[k] == Entry(prefix[i].value, NormalizeTtl(prefix[i].ttl));
        assert t[i] == prefix[i] && t[i - 1] == prefix[i - 1];
      } else {
        assert step.SearchStep? && r.store != store;
        var j :| 0 <= j < |r.trace| && r.trace[j].StoreSet? &&
          r.store == Written(store, r.trace[j].key, r.trace[j].value, r.trace[j].ttl);
        assert k == r.trace[j].key;
        WritesFollowLiveSuccess(step.view, step.query, store, step.env, keys);
        assert t[|prefix| + j] == r.trace[j] && t[|prefix| + j - 1] == r.trace[j - 1];
      }
    }
  }

  lemma {:induction false} ReplayKeepsWrittenBy(steps: seq<Step>, store: Entries, prefix: seq<Event>, keys: KeyFunctions)
    requires WrittenBy(store, prefix)
    ensures var r := Replay(steps, store, keys); WrittenBy(r.store, prefix + r.trace)
    decreases |steps|
  {
    if steps != [] {
      var first := StepRun(steps[0], store, keys);
      var rest := Replay(steps[1..], first.store, keys);
      StepKeepsWrittenBy(steps[0], store, prefix, keys);
      ReplayKeepsWrittenBy(steps[1..], first.store, prefix + first.trace, keys);
      assert prefix + first.trace + rest.trace == prefix + (first.trace + rest.trace);
    } else {
      assert prefix + [] == prefix;
    }
  }

  /** Starting from the factory's empty store, every entry of the shared cache is one
      that a search wrote right after a live search; by `WritesFollowLiveSuccess` that
      search succeeded and the entry holds its results. The cache never holds anything
      the decorator did not put there. */
  lemma SessionEntriesWereWritten(steps: seq<Step>, keys: KeyFunctions)
    ensures var r := Replay(steps, map[], keys); WrittenBy(r.store, r.trace)
  {
    ReplayKeepsWrittenBy(steps, map[], [], keys);
    assert [] + Replay(steps, map[], keys).trace == Replay(steps, map[], keys).trace;
  }

  /** After any session from an empty store, a hit serves a value that an earlier call
      of the session wrote under the same key, right after its live search. */
  lemma HitReplaysEarlierWrite(steps: seq<Step>, view: ClientView, query: Query, env: Environment, keys: KeyFunctions)
    requires UsesCache(view) && env.getFault.None?
    requires Truthy(Stored(Replay(steps, map[], keys).store, LookupKey(view, query, keys)))
    ensures var pre := Replay(steps, map[], keys);
      var r := SearchRun(view, query, pre.store, env, keys);
      && Never(r.trace, LiveKind)
      && Last(r.trace).Callback?
      && exists i :: 0 < i < |pre.trace| && pre.trace[i].StoreSet? && pre.trace[i - 1].LiveSearch? &&
           pre.trace[i].key == LookupKey(view, query, keys) && pre.trace[i].value == Last(r.trace).results
  {
    var pre := Replay(steps, map[], keys);
    var key := LookupKey(view, query, keys);
    SessionEntriesWereWritten(steps, keys);
    HitServesStoredValue(view, query, pre.store, env, keys);
    assert key in pre.store;
    var i :| 0 < i < |pre.trace| && pre.trace[i].StoreSet? && pre.trace[i].key == key && pre.trace[i - 1].LiveSearch? &&
      pre.store[key] == Entry(pre.trace[i].value, NormalizeTtl(pre.trace[i].ttl));
  }

  // ---------------------------------------------------------------- uncached sessions

  /** How many events of kind `k` a trace holds. */
  function Count(trace: seq<Event>, k: Kind): nat {
    if trace == [] then 0
    else (if KindOf(trace[0]) == k then 1 else 0) + Count(trace[1..], k)
  }

  lemma {:induction false} CountAppend(a: seq<Event>, b: seq<Event>, k: Kind)
    ensures Count(a + b, k) == Count(a, k) + Count(b, k)
    decreases |a|
  {
    if a != [] {
      CountAppend(a[1..], b, k);
      assert (a + b)[1..] == a[1..] + b;
    } else {
      assert a + b == b;
    }
  }

  /** Only searches, each through a view without caching options. */
  ghost predicate AllUncached(steps: seq<Step>) {
    forall i :: 0 <= i < |steps| ==> steps[i].SearchStep? && PassesThrough(steps[i].view)
  }

  /** A session of uncached searches never reads or writes the store and calls the
      live search exactly once per call (test/index.js:171-193). */
  lemma {:induction false} UncachedSessionLeavesStoreAlone(steps: seq<Step>, store: Entries, keys: KeyFunctions)
    requires AllUncached(steps)
    ensures var r := Replay(steps, store, keys);
      && r.store == store
      && Count(r.trace, GetKind) == 0 && Count(r.trace, SetKind) == 0
      && Count(r.trace, LiveKind) == |steps|
    decreases |steps|
  {
    if steps != [] {
      var s := steps[0];
      var first := StepRun(s, store, keys);
      var rest := Replay(steps[1..], first.store, keys);
      UncachedCallPassesThrough(s.view, s.query, store, s.env, keys);
      assert AllUncached(steps[1..]) by {
        forall i | 0 <= i < |steps[1..]| ensures steps[1..][i].SearchStep? && PassesThrough(steps[1..][i].view) {
          assert steps[1..][i] == steps[i + 1];
        }
      }
      UncachedSessionLeavesStoreAlone(steps[1..], store, keys);
      CountAppend(first.trace, rest.trace, GetKind);
      CountAppend(first.trace, rest.trace, SetKind);
      CountAppend(first.trace, rest.trace, LiveKind);
      assert |first.trace| == 2;
      assert first.trace[1..][1..] == [];
    }
  }
}
