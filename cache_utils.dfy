/**
 * The keyed read-through cache of backend/library/project/cache_utils.py:
 * how a cache key is derived from a function name and its arguments, the
 * memoising wrapper for functions (`cache_result`) and for class-based view
 * methods (`cache_view_method`), and invalidation by exact key
 * (`invalidate_cache_for`) or by substring pattern (`invalidate_model_cache`).
 *
 * The cache backend is a map with no clock: entries never expire.
 */
module CacheUtils {
  import opened Python

  predicate IsHexDigit(c: char)
  {
    '0' <= c <= '9' || 'a' <= c <= 'f'
  }

  /** What `hashlib.md5(data).hexdigest()` returns: 32 lower-case hex digits. */
  type HexDigest = s: string | |s| == 32 && forall k | 0 <= k < |s| :: IsHexDigit(s[k])
    witness "00000000000000000000000000000000"

  /** The settings and library functions key derivation depends on. The hash
      and the JSON encoder are not modelled: any functions of these types. */
  datatype Env = Env(
    keyPrefix: string,          // settings.CACHE_MIDDLEWARE_KEY_PREFIX
    md5: string -> HexDigest,   // hashlib.md5(s.encode()).hexdigest()
    dumps: seq<Item> -> string) // json.dumps of the sorted keyword items

  /** A positional argument. Anything with a `pk` attribute (a model
      instance) is a `ModelInstance`; `text` is what `str(arg)` gives. */
  datatype Arg =
    | ModelInstance(className: string, pk: Pk, text: string)
    | Other(text: string)

  /** Keyword arguments in the order a caller passed them; Python never
      passes the same name twice. */
  type CallKwArgs = kw: seq<Item> | DistinctNames(kw) witness []

  /** The keyword arguments that reach `**kwargs` of `generate_cache_key` and
      `invalidate_cache_for`: Python binds a keyword named `prefix` to their
      first parameter, so that name never gets here. */
  type KwArgs = kw: CallKwArgs | !NamesKeyword(kw, "prefix") witness []

  // -------------------------------------------------------- key derivation

  /** What one positional argument contributes to the key: `Class_pk` for a
      model instance whose pk is truthy, `str(arg)` otherwise. */
  function ArgPart(arg: Arg): string
  {
    match arg
    case ModelInstance(className, pk, text) =>
      if pk.Truthy() then className + "_" + pk.ToStr() else text
    case Other(text) => text
  }

  /** The `key_parts` list: the prefix, one part per positional argument in
      argument order, then the dumped sorted keyword items if there are any. */
  function KeyParts(env: Env, prefix: string, args: seq<Arg>, kwargs: KwArgs): seq<string>
  {
    [prefix]
    + seq(|args|, k requires 0 <= k < |args| => ArgPart(args[k]))
    + (if |kwargs| == 0 then [] else [env.dumps(SortItems(kwargs))])
  }

  /** The key `generate_cache_key(prefix, *args, **kwargs)` returns: the
      settings prefix, `_`, then 32 hex digits. */
  function CacheKey(env: Env, prefix: string, args: seq<Arg>, kwargs: KwArgs): (key: string)
    ensures |key| == |env.keyPrefix| + 33
    ensures key[..|env.keyPrefix| + 1] == env.keyPrefix + "_"
    ensures forall k | |env.keyPrefix| < k < |key| :: IsHexDigit(key[k])
  {
    env.keyPrefix + "_" + env.md5(Join("_", KeyParts(env, prefix, args, kwargs)))
  }

  /** `generate_cache_key`, building `key_parts` argument by argument. */
  method GenerateCacheKey(env: Env, prefix: string, args: seq<Arg>, kwargs: KwArgs)
    returns (key: string)
    ensures key == CacheKey(env, prefix, args, kwargs)
  {
    var keyParts := [prefix];
    var i := 0;
    while i < |args|
      invariant 0 <= i <= |args|
      invariant keyParts == [prefix] + seq(i, k requires 0 <= k < i => ArgPart(args[k]))
    {
      var arg := args[i];
      if arg.ModelInstance? && arg.pk.Truthy() {
        keyParts := keyParts + [arg.className + "_" + arg.pk.ToStr()];
      } else {
        keyParts := keyParts + [arg.text];
      }
      assert keyParts[|keyParts| - 1] == ArgPart(args[i]);
      i := i + 1;
    }
    assert keyParts == [prefix] + seq(|args|, k requires 0 <= k < |args| => ArgPart(args[k]));
    if |kwargs| != 0 {
      var sortedItems := SortItems(kwargs);
      keyParts := keyParts + [env.dumps(sortedItems)];
    }
    assert keyParts == KeyParts(env, prefix, args, kwargs);
    var keyString := Join("_", keyParts);
    key := env.keyPrefix + "_" + env.md5(keyString);
  }

  /** Passing the same keyword arguments in another order gives the same key. */
  lemma KwargsOrderIrrelevant(env: Env, prefix: string, args: seq<Arg>, kw1: KwArgs, kw2: KwArgs)
    requires multiset(kw1) == multiset(kw2)
    ensures CacheKey(env, prefix, args, kw1) == CacheKey(env, prefix, args, kw2)
  {
    SortedUnique(SortItems(kw1), SortItems(kw2));
    assert |kw1| == |multiset(kw1)| == |multiset(kw2)| == |kw2|;
  }

  /** Two model instances are the same record for the key when they have the
      same class and the same truthy pk, whatever their other fields. */
  predicate SameRecord(a: Arg, b: Arg)
  {
    a.ModelInstance? && b.ModelInstance? && a.pk.Truthy()
    && a.className == b.className && a.pk == b.pk
  }

  /** A model instance is keyed by class and pk only: arguments that are the
      same records (or equal) give the same key, even if `str()` differs. */
  lemma RecordsKeyedByIdentity(env: Env, prefix: string, args1: seq<Arg>, args2: seq<Arg>, kwargs: KwArgs)
    requires |args1| == |args2|
    requires forall k | 0 <= k < |args1| :: args1[k] == args2[k] || SameRecord(args1[k], args2[k])
    ensures CacheKey(env, prefix, args1, kwargs) == CacheKey(env, prefix, args2, kwargs)
  {
    var p1 := seq(|args1|, k requires 0 <= k < |args1| => ArgPart(args1[k]));
    var p2 := seq(|args2|, k requires 0 <= k < |args2| => ArgPart(args2[k]));
    assert p1 == p2;
  }

  /** The rule for model instances makes a record and the string `Class_pk`
      indistinguishable: an instance with a truthy pk and the plain string
      made of its class name, `_` and its pk share a key. */
  lemma RecordCollidesWithItsName(env: Env, prefix: string, className: string, pk: Pk, text: string, kwargs: KwArgs)
    requires pk.Truthy()
    ensures CacheKey(env, prefix, [ModelInstance(className, pk, text)], kwargs)
         == CacheKey(env, prefix, [Other(className + "_" + pk.ToStr())], kwargs)
  {
    assert KeyParts(env, prefix, [ModelInstance(className, pk, text)], kwargs)
        == KeyParts(env, prefix, [Other(className + "_" + pk.ToStr())], kwargs);
  }

  /** A model instance whose pk is falsy (None for an unsaved instance, 0, or
      the empty string) falls back to `str(arg)`: in any position it gives
      the same key as any other object with that `str()`. */
  lemma FalsyPkFallsBackToStr(env: Env, prefix: string, args1: seq<Arg>, args2: seq<Arg>, kwargs: KwArgs)
    requires |args1| == |args2|
    requires forall k | 0 <= k < |args1| ::
      args1[k] == args2[k]
      || (args1[k].ModelInstance? && !args1[k].pk.Truthy() && args2[k] == Other(args1[k].text))
    ensures CacheKey(env, prefix, args1, kwargs) == CacheKey(env, prefix, args2, kwargs)
  {
    var p1 := seq(|args1|, k requires 0 <= k < |args1| => ArgPart(args1[k]));
    var p2 := seq(|args2|, k requires 0 <= k < |args2| => ArgPart(args2[k]));
    assert p1 == p2;
  }

  // ------------------------------------------------- the cache and its use

  /** `cache.get(key)`: None when the key is absent or holds None. */
  function Lookup<V>(store: map<string, Option<V>>, key: string): (r: Option<V>)
    ensures r.Some? ==> key in store && store[key] == r
  {
    if key in store then store[key] else None
  }

  predicate IsHit<V>(store: map<string, Option<V>>, key: string)
  {
    Lookup(store, key).Some?
  }

  /** One call through a memoising wrapper: the value served, whether the
      wrapped function ran, and the cache afterwards. */
  datatype Outcome<V> = Outcome(result: Option<V>, computed: bool, store: map<string, Option<V>>)

  /** A call under `key` whose wrapped function would return `now`: a
      stored value other than None is served, otherwise the function runs
      and its result (None included) is stored. */
  function Memoise<V>(store: map<string, Option<V>>, key: string, now: Option<V>): (o: Outcome<V>)
    ensures o.computed <==> !IsHit(store, key)
    ensures !o.computed ==> o.result == Lookup(store, key) && o.store == store
    ensures o.computed ==> o.result == now && o.store == store[key := now]
  {
    match Lookup(store, key)
    case Some(v) => Outcome(Some(v), false, store)
    case None => Outcome(now, true, store[key := now])
  }

  /** Consecutive calls under one key; call `k`'s wrapped function would
      return `results[k]`. */
  function Replay<V>(store: map<string, Option<V>>, key: string, results: seq<Option<V>>): (os: seq<Outcome<V>>)
    ensures |os| == |results|
    decreases |results|
  {
    if |results| == 0 then []
    else
      var o := Memoise(store, key, results[0]);
      [o] + Replay(o.store, key, results[1..])
  }

  /** Once a value is stored, every later call serves it and never runs the
      wrapped function, whatever that function would now return. */
  lemma {:induction false} HitServedForever<V>(store: map<string, Option<V>>, key: string, results: seq<Option<V>>)
    requires IsHit(store, key)
    ensures forall k | 0 <= k < |results| ::
      !Replay(store, key, results)[k].computed && Replay(store, key, results)[k].result == Lookup(store, key)
    decreases |results|
  {
    if 0 < |results| {
      HitServedForever(store, key, results[1..]);
    }
  }

  /** A wrapped function that returns None is never served from the cache:
      it is run again on every call. */
  lemma {:induction false} NoneNeverServed<V>(store: map<string, Option<V>>, key: string, results: seq<Option<V>>)
    requires !IsHit(store, key)
    requires forall k | 0 <= k < |results| :: results[k] == None
    ensures forall k | 0 <= k < |results| ::
      Replay(store, key, results)[k].computed && Replay(store, key, results)[k].result == None
    decreases |results|
  {
    if 0 < |results| {
      NoneNeverServed(Memoise(store, key, results[0]).store, key, results[1..]);
    }
  }

  /** Starting from a miss, the wrapped function runs until it first returns
      a value other than None; that value is then served to every later call. */
  lemma {:induction false} FirstValueMemoised<V>(store: map<string, Option<V>>, key: string, results: seq<Option<V>>, i: nat)
    requires !IsHit(store, key)
    requires i < |results| && results[i].Some?
    requires forall k | 0 <= k < i :: results[k] == None
    ensures forall k | 0 <= k < |results| ::
      && Replay(store, key, results)[k].computed == (k <= i)
      && Replay(store, key, results)[k].result == (if k <= i then results[k] else results[i])
    decreases i
  {
    var o := Memoise(store, key, results[0]);
    if i == 0 {
      HitServedForever(o.store, key, results[1..]);
    } else {
      FirstValueMemoised(o.store, key, results[1..], i - 1);
    }
  }

  /** The pattern `invalidate_model_cache(model_name, instance_id)` looks for;
      a falsy id (None, 0, "") selects the model-wide pattern. */
  function ModelPattern(env: Env, modelName: string, instanceId: Pk): string
  {
    if instanceId.Truthy() then env.keyPrefix + "_" + modelName + "_" + instanceId.ToStr()
    else env.keyPrefix + "_" + modelName
  }

  /** The stored keys that contain `pattern`. */
  function MatchingKeys<V>(store: map<string, Option<V>>, pattern: string): set<string>
  {
    set k | k in store && Contains(k, pattern)
  }

  /** The cache after deleting every key that contains `pattern`. */
  function Invalidated<V>(store: map<string, Option<V>>, pattern: string): (r: map<string, Option<V>>)
    ensures forall k :: k in r <==> k in store && !Contains(k, pattern)
    ensures forall k | k in r :: r[k] == store[k]
  {
    store - MatchingKeys(store, pattern)
  }

  /** Invalidating one instance deletes a subset of what invalidating the
      whole model deletes. */
  lemma InstanceWithinModelWide<V>(store: map<string, Option<V>>, env: Env, modelName: string, instanceId: Pk)
    ensures Invalidated(store, ModelPattern(env, modelName, NoPk)).Keys
         <= Invalidated(store, ModelPattern(env, modelName, instanceId)).Keys
  {
    var wide := ModelPattern(env, modelName, NoPk);
    if instanceId.Truthy() {
      forall k | k in store && Contains(k, ModelPattern(env, modelName, instanceId))
        ensures Contains(k, wide)
      {
        assert ModelPattern(env, modelName, instanceId) == wide + ("_" + instanceId.ToStr());
        ContainsPrefix(k, wide, "_" + instanceId.ToStr());
      }
    }
  }

  /** The patterns of `invalidate_model_cache` never occur in a key made by
      `generate_cache_key` when the model name has a character that is not a
      lower-case hex digit (any name with an upper-case letter, such as
      "Book"): after the settings prefix such keys hold only hex digits. */
  lemma HashedKeysOutOfReach(env: Env, prefix: string, args: seq<Arg>, kwargs: KwArgs, modelName: string, instanceId: Pk)
    requires exists j | 0 <= j < |modelName| :: !IsHexDigit(modelName[j])
    ensures !Contains(CacheKey(env, prefix, args, kwargs), ModelPattern(env, modelName, instanceId))
  {
    var key := CacheKey(env, prefix, args, kwargs);
    var pattern := ModelPattern(env, modelName, instanceId);
    var j :| 0 <= j < |modelName| && !IsHexDigit(modelName[j]);
    var n := |env.keyPrefix| + 1 + j;
    assert pattern[n] == modelName[j];
    forall i: nat | i <= |key| ensures !OccursAt(pattern, key, i) {
      if i + |pattern| <= |key| {
        assert IsHexDigit(key[i + n]);
        assert key[i..i + |pattern|][n] != pattern[n];
      }
    }
  }

  // ----------------------------------------------------------- view caching

  /** The parts of a request `cache_view_method` looks at; `query` is
      `request.GET.urlencode()`. */
  datatype Request = Request(verb: string, path: string, query: string, authenticated: bool)

  /** Only unauthenticated GET and HEAD requests go through the cache. */
  predicate Cacheable(request: Request)
  {
    (request.verb == "GET" || request.verb == "HEAD") && !request.authenticated
  }

  /** The key of a cached view response: not hashed, and independent of the
      HTTP method. */
  function ViewKey(env: Env, methodName: string, request: Request): string
  {
    env.keyPrefix + "_" + Join("_", [methodName, request.path, request.query])
  }

  /** One call of a view method wrapped by `cache_view_method`, whose method
      would return `now` for this request. */
  function ViewStep<V>(store: map<string, Option<V>>, env: Env, methodName: string, request: Request, now: Option<V>): (o: Outcome<V>)
    ensures !Cacheable(request) ==> o == Outcome(now, true, store)
    ensures Cacheable(request) ==> o == Memoise(store, ViewKey(env, methodName, request), now)
  {
    if !Cacheable(request) then Outcome(now, true, store)
    else Memoise(store, ViewKey(env, methodName, request), now)
  }

  /** GET and HEAD requests for the same path and query have the same
      outcome; unauthenticated ones share one entry. */
  lemma GetAndHeadShareEntry<V>(store: map<string, Option<V>>, env: Env, methodName: string, request: Request, now: Option<V>)
    requires request.verb == "GET"
    ensures ViewStep(store, env, methodName, request, now)
         == ViewStep(store, env, methodName, request.(verb := "HEAD"), now)
  {
  }

  /** A view key never equals a key made by `generate_cache_key`: it has a
      `_` right after the method name, where a hashed key has hex digits. */
  lemma ViewKeysApartFromFunctionKeys(env: Env, methodName: string, request: Request, prefix: string, args: seq<Arg>, kwargs: KwArgs)
    ensures ViewKey(env, methodName, request) != CacheKey(env, prefix, args, kwargs)
  {
    var vk := ViewKey(env, methodName, request);
    var ck := CacheKey(env, prefix, args, kwargs);
    assert Join("_", [request.query]) == request.query;
    assert Join("_", [request.path, request.query]) == request.path + "_" + request.query;
    assert Join("_", [methodName, request.path, request.query])
        == methodName + "_" + (request.path + "_" + request.query);
    var n := |env.keyPrefix| + 1 + |methodName|;
    assert vk[n] == '_';
    if |vk| == |ck| {
      assert IsHexDigit(ck[n]);
    }
  }

  /** The cache backend (`django.core.cache.cache`): a map from key to the
      stored value, where `None` is a stored Python None. */
  class Cache<V> {
    var store: map<string, Option<V>>

    constructor ()
      ensures store == map[]
    {
      store := map[];
    }

    /** `cache.set(key, value)` (the timeout is not modelled). */
    method Set(key: string, value: Option<V>)
      modifies this
      ensures store == old(store)[key := value]
    {
      store := store[key := value];
    }

    /** `cache.delete(key)`; deleting an absent key is allowed. */
    method Delete(key: string)
      modifies this
      ensures store == old(store) - {key}
    {
      store := store - {key};
    }

    /** A call of function `name` decorated with `@cache_result()`; `func`
        gives what the function would return now. The wrapper forwards its
        keyword arguments to `generate_cache_key`, so one named `prefix`
        raises there, before the cache or the function is reached. */
    method CachedCall(env: Env, name: string, func: (seq<Arg>, KwArgs) -> Option<V>, args: seq<Arg>, kwargs: CallKwArgs)
      returns (result: Result<Option<V>>, computed: bool)
      modifies this
      ensures NamesKeyword(kwargs, "prefix") ==>
        result == Err(MultipleValues("prefix")) && !computed && store == old(store)
      ensures !NamesKeyword(kwargs, "prefix") ==>
        var o := Memoise(old(store), CacheKey(env, name, args, kwargs), func(args, kwargs));
        result == Ok(o.result) && computed == o.computed && store == o.store
    {
      if NamesKeyword(kwargs, "prefix") {
        return Err(MultipleValues("prefix")), false;
      }
      var key := GenerateCacheKey(env, name, args, kwargs);
      var value := Lookup(store, key);
      computed := value.None?;
      if computed {
        value := func(args, kwargs);
        Set(key, value);
      }
      result := Ok(value);
    }

    /** `invalidate_cache_for(prefix, *args, **kwargs)`: deletes exactly the
        key the wrapper computes for the same call. */
    method InvalidateCacheFor(env: Env, prefix: string, args: seq<Arg>, kwargs: KwArgs)
      modifies this
      ensures store == old(store) - {CacheKey(env, prefix, args, kwargs)}
    {
      var key := GenerateCacheKey(env, prefix, args, kwargs);
      Delete(key);
    }

    /** `invalidate_model_cache(model_name, instance_id)`: deletes every
        stored key containing the pattern and keeps all others. */
    method InvalidateModelCache(env: Env, modelName: string, instanceId: Pk)
      modifies this
      ensures store == Invalidated(old(store), ModelPattern(env, modelName, instanceId))
    {
      var pattern;
      if instanceId.Truthy() {
        pattern := env.keyPrefix + "_" + modelName + "_" + instanceId.ToStr();
      } else {
        pattern := env.keyPrefix + "_" + modelName;
      }
      var keys := set k | k in store && Contains(k, pattern);
      ghost var doomed := keys;
      while keys != {}
        invariant keys <= doomed == MatchingKeys(old(store), pattern)
        invariant store == old(store) - (doomed - keys)
        decreases keys
      {
        var key :| key in keys;
        Delete(key);
        keys := keys - {key};
      }
    }

    /** A call of view method `methodName` decorated with
        `@cache_view_method()`; `view` gives what it would return now. */
    method CachedViewCall(env: Env, methodName: string, view: Request -> Option<V>, request: Request)
      returns (response: Option<V>, computed: bool)
      modifies this
      ensures var o := ViewStep(old(store), env, methodName, request, view(request));
        response == o.result && computed == o.computed && store == o.store
    {
      if !(request.verb == "GET" || request.verb == "HEAD") || request.authenticated {
        return view(request), true;
      }
      var cacheKey := env.keyPrefix + "_" + Join("_", [methodName, request.path, request.query]);
      response := Lookup(store, cacheKey);
      computed := response.None?;
      if computed {
        response := view(request);
        Set(cacheKey, response);
      }
    }
  }

  /** `invalidate_cache_for` with the wrapper's name and arguments, keyword
      arguments in any order, removes the entry the wrapper stored: the next
      call runs the function again, and no other key is affected. */
  lemma InvalidationForcesRecompute<V>(env: Env, name: string, args: seq<Arg>, kw1: KwArgs, kw2: KwArgs,
                                       store: map<string, Option<V>>, first: Option<V>, second: Option<V>)
    requires multiset(kw1) == multiset(kw2)
    ensures var key := CacheKey(env, name, args, kw1);
      var cleared := Memoise(store, key, first).store - {CacheKey(env, name, args, kw2)};
      && Memoise(cleared, key, second).computed
      && Memoise(cleared, key, second).result == second
      && forall k | k != key :: (k in cleared <==> k in store) && (k in cleared ==> cleared[k] == store[k])
  {
    KwargsOrderIrrelevant(env, name, args, kw1, kw2);
  }
}
