# Library backend helpers: cache, permissions, response envelope

A Dafny model of three self-contained helper modules of the digital-library
REST backend (Django / Django REST framework):

- **`cache_utils.py`**, a keyed read-through cache. `generate_cache_key`
  derives a key from a function name, the positional arguments (model
  instances as `Class_pk`) and the sorted keyword arguments, hashed under the
  settings prefix. `cache_result` memoises a function; a stored None counts
  as a miss. `invalidate_cache_for` deletes one exact key.
  `invalidate_model_cache` deletes every key containing a substring pattern.
  `cache_view_method` caches view responses, but only for unauthenticated
  GET/HEAD requests, keyed by method name, path and query string.
  Module `CacheUtils`: key derivation is the method `GenerateCacheKey` (the
  source builds `key_parts` in a loop), proved equal to the function
  `CacheKey`. The cache backend is the class `Cache<V>`, whose `store` field
  is a `map` that its methods reassign. Each method is tied to a pure step
  function (`Memoise`, `ViewStep`, `Invalidated`), and the lemmas are about
  those functions.
- **`permissions.py`**, four DRF permission classes. Each decision is a
  function of the HTTP method, the requesting user and the object's owner.
  Module `Permissions`.
- **`utils.py`**, the `{status, message, data?, errors?}` response envelope
  and its paginated variant. Module `Responses`.

Module `Python` holds the Python semantics these rely on: truthiness, `str()`
of integer and string primary keys, `'_'.join`, the substring test `p in s`,
string ordering, and `sorted()` of keyword items. It proves that this order
is a strict total order and that sorting distinct names has one result.

Properties proved that go beyond single calls:

- The keyword-argument order never changes a key (`KwargsOrderIrrelevant`).
  A model instance is keyed by class and pk only, so the record `Book` #5 and
  the string `"Book_5"` share a key (`RecordCollidesWithItsName`), and an
  instance with a falsy pk is keyed by its `str()` (`FalsyPkFallsBackToStr`).
- After a miss, the wrapped function runs until it first returns a value
  other than None. That value is then served forever
  (`FirstValueMemoised`, `HitServedForever`). A function that keeps returning
  None is run on every call (`NoneNeverServed`).
- `invalidate_model_cache` cannot delete anything `cache_result` stored when
  the model name has a character outside `0-9a-f`, such as the capital B of
  `"Book"`. The pattern is `PREFIX_<model>...`, while a hashed key has only
  hex digits after `PREFIX_` (`HashedKeysOutOfReach`). View-cache keys and
  hashed keys never collide (`ViewKeysApartFromFunctionKeys`). GET and HEAD
  requests share one view-cache entry (`GetAndHeadShareEntry`).
- In `standard_response`, Python binds a keyword named `data`, `message`,
  `status_code` or `errors` to the parameter of that name. So the merged
  extras can override only `status`, never the other three envelope keys. In
  `paginated_response`, an extra keyword named `data` raises `TypeError`
  (modelled as `Err(MultipleValues("data"))`). Likewise a function decorated
  with `cache_result` raises when called with a keyword argument named
  `prefix`, which `generate_cache_key` binds to its first parameter.

## Model

| member | source | states |
|---|---|---|
| `CacheUtils.CacheKey` | backend/library/project/cache_utils.py:31-32 | a key is the settings prefix, `_`, then exactly 32 lower-case hex digits |
| `CacheUtils.GenerateCacheKey` | backend/library/project/cache_utils.py:10-32 | the loop over positional args builds `[prefix] + one part per arg in order + dumped sorted kwargs (if any)`; the part is `Class_pk` for a truthy pk, `str(arg)` otherwise; the result is the prefixed digest of the `_`-joined parts |
| `Python.SortItems` | backend/library/project/cache_utils.py:27 | `sorted(kwargs.items())` is ordered strictly by name and is a permutation of the items |
| `Python.SortedUnique` | backend/library/project/cache_utils.py:26-28 | two name-sorted sequences holding the same items are equal |
| `CacheUtils.KwargsOrderIrrelevant` | backend/library/project/cache_utils.py:26-28 | calls that differ only in keyword-argument order get the same key |
| `CacheUtils.RecordsKeyedByIdentity` | backend/library/project/cache_utils.py:17-23 | model instances with the same class and truthy pk contribute the same part whatever `str()` gives for them |
| `CacheUtils.RecordCollidesWithItsName` | backend/library/project/cache_utils.py:17-23 | for any prefix, keyword arguments, class name and truthy pk, the instance and the plain string `Class_pk` (e.g. `Book` #5 and `"Book_5"`) produce the same key |
| `CacheUtils.FalsyPkFallsBackToStr` | backend/library/project/cache_utils.py:17-23 | replacing, in any positions, instances whose pk is falsy (None, 0 or `""`) by plain objects with the same `str()` leaves the key unchanged |
| `CacheUtils.Memoise` | backend/library/project/cache_utils.py:49-56 | the wrapped function runs iff the lookup misses (absent or stored None); on a hit the stored value is returned and the cache is unchanged; on a miss the new result is returned and stored under the key |
| `CacheUtils.HitServedForever` | backend/library/project/cache_utils.py:49-56 | once a value other than None is stored, every later call returns it without running the function |
| `CacheUtils.NoneNeverServed` | backend/library/project/cache_utils.py:52-54 | a function that returns None is run again on every call and None is returned each time |
| `CacheUtils.FirstValueMemoised` | backend/library/project/cache_utils.py:49-56 | from a miss, calls run the function until the first non-None result; that result is served to every later call |
| `CacheUtils.Cache.Set` | backend/library/project/cache_utils.py:54 | `cache.set` maps the key to the value and changes nothing else |
| `CacheUtils.Cache.Delete` | backend/library/project/cache_utils.py:66 | `cache.delete` removes the key and changes nothing else |
| `CacheUtils.Cache.CachedCall` | backend/library/project/cache_utils.py:42-56 | a keyword argument named `prefix` raises `TypeError` (`Err(MultipleValues("prefix"))`) with the function not run and the store unchanged; any other call returns, computes and stores exactly what `Memoise` gives for the key `CacheKey(func name, args, kwargs)` |
| `CacheUtils.Cache.InvalidateCacheFor` | backend/library/project/cache_utils.py:61-66 | the store afterwards is the old store without exactly the key `generate_cache_key` computes for the same arguments |
| `CacheUtils.InvalidationForcesRecompute` | backend/library/project/cache_utils.py:61-66 | invalidating with the wrapper's name and args (kwargs in any order) makes the next call run the function, and leaves every other entry as it was |
| `CacheUtils.Invalidated` | backend/library/project/cache_utils.py:76-84 | every key containing the pattern is gone, every other key is kept with its value |
| `CacheUtils.Cache.InvalidateModelCache` | backend/library/project/cache_utils.py:69-84 | the loop deletes exactly the stored keys containing `PREFIX_model_id` (truthy id) or `PREFIX_model` (falsy id such as 0 or None) |
| `CacheUtils.InstanceWithinModelWide` | backend/library/project/cache_utils.py:73-84 | the keys left by model-wide invalidation are a subset of those left by instance invalidation |
| `CacheUtils.HashedKeysOutOfReach` | backend/library/project/cache_utils.py:69-84 | no key made by `generate_cache_key` contains an invalidation pattern whose model name has a character outside `0-9a-f` |
| `CacheUtils.ViewStep` | backend/library/project/cache_utils.py:97-117 | a non-GET/HEAD or authenticated request runs the view and leaves the cache untouched; any other is memoised under `PREFIX_name_path_query` |
| `CacheUtils.Cache.CachedViewCall` | backend/library/project/cache_utils.py:88-119 | a decorated view call returns, computes and stores exactly what `ViewStep` gives |
| `CacheUtils.GetAndHeadShareEntry` | backend/library/project/cache_utils.py:103-108 | a GET and a HEAD request for the same path, query and authentication have the same outcome: the key ignores the method |
| `CacheUtils.ViewKeysApartFromFunctionKeys` | backend/library/project/cache_utils.py:103-108 | a view-cache key never equals a key from `generate_cache_key` |
| `Permissions.OwnerOrReadOnly` | backend/library/project/permissions.py:8-14 | safe methods are always allowed; any other method is allowed iff the requester is the account that owns the object |
| `Permissions.BookOwnerOrReadOnly` | backend/library/project/permissions.py:22-28 | safe methods are always allowed; writes iff the requester is the uploader's account, or, for a book without uploader, iff the request user is None |
| `Permissions.ProfileOwner` | backend/library/project/permissions.py:36-38 | allowed iff the requester is the profile's account, whatever the method, reads included |
| `Permissions.AdminOrReadOnly` | backend/library/project/permissions.py:46-52 | safe methods are always allowed; writes iff a user is present and is a staff account |
| `Permissions.WriteImpliesRead` | backend/library/project/permissions.py:10-14 | for the three read-only classes, whoever may write with some method may read with any safe method |
| `Permissions.AnonymousNeverWrites` | backend/library/project/permissions.py:46-52 | an anonymous user is refused every write, and even a read of a profile |
| `Permissions.ProfileIgnoresMethod` | backend/library/project/permissions.py:36-38 | the profile decision is the same for any two methods |
| `Responses.StandardResponse` | backend/library/project/utils.py:5-35 | HTTP status is `status_code`; `status` is `success` iff 200..299 unless an extra overrides it; `message` is the given one if truthy, else `Success`/`Error`; `data`/`errors` keys present iff the argument is not None (falsy payloads kept); extras merged last |
| `Responses.DefaultEnvelope` | backend/library/project/utils.py:5-35 | with every default, the body is exactly `{status: success, message: Success}` with status 200 |
| `Responses.PaginatedResponse` | backend/library/project/utils.py:38-62 | the body keys are exactly `status`, `message`, `data`, the extras' keys and `errors` iff errors is not None; `data` has exactly `count`, `next`, `previous`, `results` taken from the paginator and the serializer data; the message defaults to `Data retrieved successfully`; `status` is overridable only by an extra; an extra named `data` is an error |

## Left out

- Expiry: the `timeout` argument and `CACHE_MIDDLEWARE_SECONDS` are not modelled. The cache is a map with no clock, so entries never expire.
- md5 and `json.dumps` are arbitrary functions of the model's values. The model does not capture a `TypeError` from `json.dumps` on keyword values it cannot serialise.
- Python.Value: `PyDict` is an unordered map, but `json.dumps` writes a dict in insertion order. Two dict-valued keyword arguments that hold the same items in a different insertion order share one key in the model, yet get two keys in Python, so the second call misses there. `KwargsOrderIrrelevant` covers only the order of the top-level keyword arguments.
- `str()` of an arbitrary positional argument is given as data (`Arg.text`). Only the `str()` of integer and string primary keys is computed.
- The cache backend's private key table: `cache._cache` is modelled as the keys of `Cache.store` as they were passed to `cache.set`. Backend key versioning is not modelled: with Django's default key function, LocMemCache stores `:1:<key>` in `_cache`, and `cache.delete` on such a key versions it again, so on that backend `invalidate_model_cache` deletes nothing; `Invalidated` and `InvalidateModelCache` describe the unversioned key table the code assumes.
- Sharing the cache between processes or threads, and races between a lookup and a store.
- CacheUtils.Cache.CachedCall and CacheUtils.Cache.CachedViewCall: the wrapped function and the view are total, so an exception they raise is not modelled. In the source it propagates before `cache.set`, so the store stays unchanged and the next call retries.
- CacheUtils.Cache.CachedViewCall: the model assumes the view returns a value the cache backend can store (`V`). A backend that pickles its values, such as LocMemCache, cannot pickle a DRF response that is not yet rendered, so `cache.set` would raise after the view has run.
- The wrapped function and view method are modelled by their result for the call, as a function of the arguments (or of the request). Their side effects are not modelled. Extra positional and keyword arguments of a view method do not enter its cache key, so they are not passed to the model.
- Responses.StandardResponse: a non-integer `status_code` is not modelled (Python would raise in `is_success`). Neither is the order of keys in the rendered JSON.
- Responses.PaginatedResponse: the Python defaults (`status_code=200`, `errors=None`) are explicit parameters.
- Permissions: the DRF `view` argument, which no class reads, is not modelled. Neither are the default `has_permission`/`has_object_permission` (always true) that the classes inherit.
