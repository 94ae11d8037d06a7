# Bertini front-end: the client-side data layer

This project models the data layer of the Bertini marketing site: the part
that sits between the pages and the remote headless CMS. Everything else in
the repository is rendering or start-up wiring.

- `api.dfy` (module `Api`) models `src/lib/api.ts`. The module-level cache is
  a `Cache` object whose `entries` map goes from cache key to
  `{data, timestamp}`. `fetchFromAPI` picks one of three outcomes:
  - a fresh hit;
  - stale data served while a refresh is scheduled;
  - a blocking fetch whose failure reaches the caller.

  `fetchAndCache` writes only on success. `clearCache` drops one key or all of
  them, and `prefetch` swallows failures. The accessors `fetchGlobal`, the
  named page wrappers, `fetchProducts` and `fetchProductById` merge their
  per-resource defaults with the caller's options. Each method is proved
  against a pure function of the cache contents (`FetchOutcomeOf`,
  `FetchAndCacheOutcome`, `ClearedEntries`). The lemmas are stated about
  those functions.
- `use_collection.dfy` (module `Collection`) models `useCollection`. A
  `CollectionHook` object holds `data`, `pagination`, `loading`, `error` and
  `page`, and updates them through `FetchData`, `GoToPage`, `NextPage`,
  `PrevPage` and `Refresh`. It also models the option merging of
  `useSmartphones` and `useApplications`. Each method is proved against a
  step function (`LoadStep`, `GoToStep`, `NextStep`, `PrevStep`,
  `RefreshStep`).
- `use_global.dfy` (module `Global`) models `useGlobal`. A `GlobalHook`
  holds `data`, `loading` and `error`. Its methods are `FetchData` (with an
  optional cache clear), `Mount` and `Refetch`, and `UsePage` covers the
  wrappers that fix the slug.
- `js_values.dfy` (module `JsValues`) holds the JavaScript values the layer
  handles:
  - JSON;
  - optional properties, which can be absent, explicitly `undefined`, or
    given (this matters for object spread and for default parameters);
  - truthiness;
  - the `<=` comparison against a JSON field;
  - the decimal text of a page number, with its inverse.

The outside world becomes parameters. An `Env` carries three things:
- the clock reading when a call starts (`Date.now()` in `fetchFromAPI`);
- the response the network would give: a status and a body that does or
  does not parse as JSON, or no response at all;
- the clock reading when that response arrives (`Date.now()` inside
  `fetchAndCache`).

The background revalidation is not a detached promise. It is a
`RefreshTask(key, endpoint)` value returned to the caller, and
`Cache.RunRefresh` performs it later and discards its error. The shared
cache is passed to the hooks' methods explicitly.

The model follows the code's JavaScript semantics, even where they depart
from the usual reading of the options:
- A `maxAge` of 0 is falsy, so it means five minutes and not "always stale".
- A negative `maxAge` is truthy, so every entry whose age is not negative counts as stale.
- `clearCache("")` empties the whole cache, because `""` is falsy.
- An options object whose `limit` is explicitly `undefined` overrides the
  wrapper's 6 or 8 in the spread, and then falls through to
  `useCollection`'s default of 10.
- `goToPage` compares against whatever `pagination.totalPages` holds. When
  that field is missing, the comparison with `undefined` is false and every
  navigation is refused.
- There is no separate collection accessor in `api.ts`: the paginated fetch
  is built inside the hook.

## Model

| member | source | states |
|---|---|---|
| `Api.CacheKey` | src/lib/api.ts:32 | A key is `API_URL + "/api"` followed by the endpoint unchanged; `CacheKeyRoundTrip` and `CacheKeyInjective` carry its inverse and injectivity |
| `Api.CacheKeyRoundTrip` | src/lib/api.ts:32 | Stripping the prefix from an endpoint's key gives back the endpoint |
| `Api.EndpointOfKey` | src/lib/api.ts:32 | Inverse of the key derivation `API_URL + "/api" + endpoint`: a key has an endpoint exactly when it starts with that prefix, and mapping that endpoint back gives the key |
| `Api.CacheKeyInjective` | src/lib/api.ts:32 | Two endpoints share a cache key iff they are equal, so `clearCache(endpoint)` and `fetchFromAPI(endpoint)` address the same entry and no other |
| `Api.Resolve` | src/lib/api.ts:31 | The `cacheOptions = DEFAULT_CACHE_OPTIONS` parameter default: a given object is used as it is; an absent or undefined argument means five minutes and revalidation |
| `Api.Revalidates` | src/lib/api.ts:43 | Truthiness of `revalidate`: only a given `true` revalidates; absent, undefined and `false` do not |
| `Api.EffectiveMaxAge` | src/lib/api.ts:37 | `maxAge \|\| 5 min`: never 0; a non-zero given `maxAge` is used as it is; absent, undefined or 0 gives 300000 ms |
| `Api.MergeOptions` | src/lib/api.ts:121-127 | `{...DEFAULT, maxAge: X, ...caller}`: a caller's present `maxAge`/`revalidate` wins; without one, the effective max-age is the resource's and revalidation is on; an explicitly undefined one overwrites the default, giving five minutes and no revalidation |
| `Api.Decide` | src/lib/api.ts:37-54 | Fresh hit iff an entry exists and its age is strictly below the effective max-age (age == max-age is stale); serve-stale iff an entry is stale and `revalidate` is truthy; blocking fetch otherwise |
| `Api.FetchAndCacheOutcome` | src/lib/api.ts:63-85 | Success iff the status is 2xx and the body parses; on success the data is returned and stored under the key with the arrival time, no other key changes; any failure (non-2xx status, bad body, no response) leaves the cache untouched |
| `Api.FetchOutcomeOf` | src/lib/api.ts:31-55 | Fresh entry: its data, cache unchanged, no request, no refresh. Stale entry with `revalidate`: its data, cache unchanged, exactly one refresh of the same key. Otherwise: the blocking `fetchAndCache` result, failures propagated. No key other than the endpoint's ever changes |
| `Api.ClearedEntries` | src/lib/api.ts:91-100 | A truthy endpoint removes its key and keeps every other entry; no endpoint (or the empty one) leaves the map empty |
| `Api.GlobalPagesDistinct` | src/lib/api.ts:133-175 | The six named global accessors read six distinct cache entries |
| `Api.ProductKeysDistinct` | src/lib/api.ts:182-202 | A single product's entry is never the product list's entry |
| `Api.Cache.constructor` | src/lib/api.ts:17 | The cache starts empty |
| `Api.Cache.FetchAndCache` | src/lib/api.ts:63-85 | Result and new cache are those of `FetchAndCacheOutcome` |
| `Api.Cache.FetchFromAPI` | src/lib/api.ts:31-55 | Result, new cache, scheduled refresh and whether it waited on the network are those of `FetchOutcomeOf` |
| `Api.Cache.RunRefresh` | src/lib/api.ts:47 | The background refresh writes as `fetchAndCache` does and surfaces no error |
| `Api.Cache.ClearCache` | src/lib/api.ts:91-100 | The new cache is `ClearedEntries`; the clear-all branch deletes key by key over a snapshot of the keys |
| `Api.Cache.Prefetch` | src/lib/api.ts:106-113 | Has the cache effect of a default-options fetch and no error result, so it never throws |
| `Api.Cache.FetchGlobal` | src/lib/api.ts:121-127 | Fetches `/globals/` + slug with the 10-minute merged options |
| `Api.Cache.FetchPage` | src/lib/api.ts:133-175 | Each named page accessor is `fetchGlobal` with its slug |
| `Api.Cache.FetchProducts` | src/lib/api.ts:182-188 | Fetches `/smartphones` with the 5-minute merged options |
| `Api.Cache.FetchProductById` | src/lib/api.ts:196-202 | Fetches `/smartphones/` + id with the 5-minute merged options |
| `Api.RefetchWithinMaxAgeHits` | src/lib/api.ts:37-40 | After a successful blocking fetch, a second call within the max-age returns the same data with no request and no refresh |
| `Api.ClearedEndpointFetches` | src/lib/api.ts:91-100 | After `clearCache(endpoint)`, or after `clearCache()` or `clearCache("")` empties the cache, the next fetch of that endpoint goes to the network, whatever the options |
| `Api.FailedRefreshKeepsServingStale` | src/lib/api.ts:37-51 | A failed background refresh changes nothing, so a later call, at any instant from the first call's on, again serves the same stale data, leaves the cache as it is and schedules a refresh of the same key |
| `Api.GlobalFetchedTwiceHitsOnce` | src/lib/api.ts:121-127 | On an empty cache, `fetchGlobal(slug)` twice within ten minutes makes one request and returns the same data both times |
| `JsValues.AtMost` | src/hooks/useCollection.ts:82 | `n <= totalPages` is false when the field is undefined and is the numeric comparison when it is a number |
| `JsValues.Prop.OrDefault` | src/hooks/useCollection.ts:35 | A destructuring default: a given value is kept; absent and undefined both take the default |
| `JsValues.Spread` | src/hooks/useCollection.ts:120-127 | One property of `{...a, ...b}`: present in `b` (even as undefined) wins, otherwise `a`'s; absent only when absent from both |
| `JsValues.IntToString` | src/hooks/useCollection.ts:49 | `${n}` is non-empty and made of digits and a minus sign; `IntToStringRoundTrip` carries its inverse |
| `JsValues.NatToStringRoundTrip` | src/hooks/useCollection.ts:49 | Reading back the decimal digits of a natural gives the number |
| `JsValues.IntToStringRoundTrip` | src/hooks/useCollection.ts:49 | Reading back `${n}` gives `n`, negatives included |
| `JsValues.IntToStringInjective` | src/hooks/useCollection.ts:49 | Distinct page numbers have distinct decimal texts |
| `Collection.ConfigOf` | src/hooks/useCollection.ts:35 | `initialPage` and `limit` take the given value, else 1 and 10 (absent or undefined); endpoint and cache options are passed through |
| `Collection.ResourceConfig` | src/hooks/useCollection.ts:119-144 | The caller's `limit` wins over the wrapper's default, and an explicitly undefined one falls through to 10; the cache options are always an object with 5 minutes and revalidation unless the caller's own cache options set them; an explicitly undefined `maxAge` or `revalidate` there overwrites the default (five minutes from `fetchFromAPI`, no revalidation) |
| `Collection.SmartphonesConfig` | src/hooks/useCollection.ts:119-129 | `/smartphones` with a default limit of 6 |
| `Collection.ApplicationsConfig` | src/hooks/useCollection.ts:134-144 | `/applications` with a default limit of 8 |
| `Collection.UseSmartphones` | src/hooks/useCollection.ts:119-129 | A fresh hook whose configuration is `SmartphonesConfig(options)`, in its initial state |
| `Collection.UseApplications` | src/hooks/useCollection.ts:134-144 | A fresh hook whose configuration is `ApplicationsConfig(options)`, in its initial state |
| `Collection.PageEndpoint` | src/hooks/useCollection.ts:49 | The paginated endpoint starts with `endpoint?page=`; `PageEndpointInjective` carries that it determines the page number |
| `Collection.PageEndpointInjective` | src/hooks/useCollection.ts:49 | `endpoint?page=N&limit=L` determines N: two page numbers share an endpoint iff they are equal |
| `Collection.PageKeyInjective` | src/hooks/useCollection.ts:49-57 | Two pages of one hook share a cache entry iff they are the same page |
| `Collection.AsPage` | src/hooks/useCollection.ts:59 | A response is accepted as a page iff it is an object whose `docs` is an array; it is then kept whole as the pagination record |
| `Collection.PageFetch` | src/hooks/useCollection.ts:49-57 | The fetch of one page, after clearing its key when forced: a forced fetch goes to the network, and only that page's key can change |
| `Collection.LoadStep` | src/hooks/useCollection.ts:44-73 | `loading` ends false; a page-shaped response sets data to `docs`, pagination to the response, page to the requested number and clears the error; anything else sets an error and keeps data, pagination and page; a forced load always fetches; only that page's key can change |
| `Collection.CanGoTo` | src/hooks/useCollection.ts:82 | Refused for n <= 0; without pagination, allowed iff n > 0; with a numeric `totalPages` t, allowed iff 0 < n <= t; with pagination but no `totalPages`, refused |
| `Collection.GoToStep` | src/hooks/useCollection.ts:81-85 | Refused: nothing changes and nothing is fetched; allowed: an unforced load of page n. The page ends as it was or as n, and only page n's key can change |
| `Collection.NextStep` | src/hooks/useCollection.ts:87-91 | Without a truthy `hasNextPage` nothing changes; with it, the step is `goToPage(page + 1)`; the page stays or advances by one, and only the next page's key can change |
| `Collection.PrevStep` | src/hooks/useCollection.ts:93-97 | Without a truthy `hasPrevPage` nothing changes; with it, the step is `goToPage(page - 1)`; the page stays or goes back one, and only the previous page's key can change |
| `Collection.RefreshStep` | src/hooks/useCollection.ts:99-101 | The step is the load of the current page (`LoadStep`), so a page-shaped response is shown and a failure records an error; without an argument it is forced and fetches; the page stays the current one, and only its key can change |
| `Collection.CollectionHook.constructor` | src/hooks/useCollection.ts:35-41 | Defaults `initialPage` 1 and `limit` 10; first state is no data, no pagination, loading, no error, the initial page |
| `Collection.CollectionHook.FetchData` | src/hooks/useCollection.ts:44-73 | The new state, cache and refresh are those of `LoadStep` |
| `Collection.CollectionHook.Mount` | src/hooks/useCollection.ts:76-78 | The mount load is an unforced load of the initial page |
| `Collection.CollectionHook.GoToPage` | src/hooks/useCollection.ts:81-85 | Behaves as `GoToStep`: loads page n only when n > 0 and pagination is unknown or allows n |
| `Collection.CollectionHook.NextPage` | src/hooks/useCollection.ts:87-91 | Behaves as `NextStep`: `goToPage(page + 1)` only when `hasNextPage` is truthy |
| `Collection.CollectionHook.PrevPage` | src/hooks/useCollection.ts:93-97 | Behaves as `PrevStep`: `goToPage(page - 1)` only when `hasPrevPage` is truthy |
| `Collection.CollectionHook.Refresh` | src/hooks/useCollection.ts:99-101 | Reloads the current page, forced unless the caller passes a value |
| `Collection.GoToNonPositiveIsNoOp` | src/hooks/useCollection.ts:81-85 | `goToPage(n)` for n <= 0 changes nothing and fetches nothing, whatever the pagination |
| `Collection.GoToBeyondTotalIsNoOp` | src/hooks/useCollection.ts:81-85 | With a numeric `totalPages` known, `goToPage(n)` for n > totalPages changes nothing and fetches nothing |
| `Collection.GoToInRangeLoads` | src/hooks/useCollection.ts:81-85 | In range, `goToPage(n)` is an unforced load of page n |
| `Collection.NavigationNeedsFlag` | src/hooks/useCollection.ts:87-97 | Without a truthy `hasNextPage`/`hasPrevPage`, `nextPage`/`prevPage` change nothing |
| `Collection.NextPageAdvancesByOne` | src/hooks/useCollection.ts:87-91 | When there is a next page and it loads, the page advances by exactly one, the error is cleared, and no other page's entry changes |
| `Collection.PrevPageGoesBackOne` | src/hooks/useCollection.ts:93-97 | When there is a previous page and it loads, the page goes back by exactly one |
| `Collection.ForceRefreshKeepsOtherPages` | src/hooks/useCollection.ts:99-101 | `refresh()` fetches the current page from the network and leaves every other page's cache entry as it was |
| `Global.GlobalFetch` | src/hooks/useGlobal.ts:22-27 | `fetchGlobal(slug, cacheOptions)` after clearing `/globals/<slug>` when forced: a forced fetch goes to the network, and only that global's key can change |
| `Global.GlobalLoadStep` | src/hooks/useGlobal.ts:17-36 | `loading` ends false; success sets data to the result and clears the error; failure sets the error and keeps the data; a forced load always fetches; only the global's key can change |
| `Global.GlobalHook.constructor` | src/hooks/useGlobal.ts:12-14 | First state is `data = null`, loading, no error |
| `Global.GlobalHook.FetchData` | src/hooks/useGlobal.ts:17-36 | The new state, cache and refresh are those of `GlobalLoadStep` |
| `Global.GlobalHook.Mount` | src/hooks/useGlobal.ts:39-57 | The mount load is not forced |
| `Global.GlobalHook.Refetch` | src/hooks/useGlobal.ts:64 | `refetch` is forced unless the caller passes a value |
| `Global.UsePage` | src/hooks/useGlobal.ts:71-107 | Each named page hook is `useGlobal` with its slug |
| `Global.ForcedClearHitsFetchGlobalKey` | src/hooks/useGlobal.ts:22-24 | The forced clear removes the very key `fetchGlobal` reads, so the load that follows goes to the network |
| `Global.RefetchDefaultsToForced` | src/hooks/useGlobal.ts:64 | `refetch()` with any argument that is not given (absent or undefined) goes to the network |
| `Global.ReloadAfterRefetchHits` | src/hooks/useGlobal.ts:22-30 | A successful forced reload, then a plain load within ten minutes: the second is served from the cache and leaves the state as it was |

## Left out

- I/O, the clock and the network are parameters (`Env`), and JSON parsing is an oracle (the body parses or it does not). The `console` calls are not modelled.
- The API base URL comes from `process.env` in the source. The model uses its fallback as a constant.
- Concurrency is not modelled. The background refresh is an explicit later call (`Cache.RunRefresh`). Interleaved in-flight requests for one key, and their last-write-wins order, appear only as separate sequential calls.
- React scheduling is not modelled. Each hook method runs to completion, and the mount effect runs once, as `Mount`. In the source that effect re-runs whenever `fetchData` is re-created, that is when `page` or the `cacheOptions` object changes, and reloads `initialPage`. `useSmartphones` and `useApplications` (src/hooks/useCollection.ts:123-127, 138-142) build a new `cacheOptions` object on every render, so through them `fetchData` and the mount effect (src/hooks/useCollection.ts:76-78) re-run after every render, not only when `page` changes. Because `page` is itself a dependency of `fetchData` (src/hooks/useCollection.ts:73), every `goToPage`, `nextPage` or `prevPage` that succeeds re-creates `fetchData`; the re-run mount effect then loads `initialPage`, and when that load succeeds the page goes back to `initialPage`. The navigation lemmas (`NextPageAdvancesByOne`, `PrevPageGoesBackOne`, `GoToInRangeLoads`) describe the state between the two loads, not the state after React has settled. It also does not model the unmount (`mounted`) flag, which only guards logging.
- JSON numbers are integers in the model. Floating point, `NaN` and non-integer page numbers are not modelled.
- JsValues.AtMost: treats a string, array or object `totalPages` as not comparable, although JavaScript would coerce some of them (such as `"3"`) to numbers.
- `err instanceof Error ? err : new Error(...)` has no counterpart, because every failure in the model is already an error value.
- `src/lib/prefetch.ts` (the `Promise.allSettled` fan-out), `src/main.tsx`, `src/hooks/useHomepage.ts` and the pages and components are not part of this model. The one property of prefetching kept is that `prefetch` never throws.
