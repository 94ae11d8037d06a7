/** The TTL cache with stale-while-revalidate that sits between the pages and
    the CMS (src/lib/api.ts). The module-level cache record is a `Cache`
    object whose `entries` map the methods update; the clock and the network
    are supplied by the caller as an `Env`; a background revalidation is a
    `RefreshTask` value handed back to the caller instead of a detached promise. */
module Api {
  import opened JsValues

  /** The CMS base URL (the fallback used when no environment override is set). */
  const ApiUrl: string := "https://bertini-backend.vercel.app"

  /** Every cache key and every request URL starts with this. */
  const KeyPrefix: string := ApiUrl + "/api"

  const DefaultMaxAge: int := 5 * 60 * 1000
  const GlobalMaxAge: int := 10 * 60 * 1000
  const ProductMaxAge: int := 5 * 60 * 1000

  datatype CacheItem = CacheItem(data: Json, timestamp: int)

  datatype CacheOptions = CacheOptions(maxAge: Prop<int>, revalidate: Prop<bool>)

  const DefaultCacheOptions: CacheOptions := CacheOptions(Given(DefaultMaxAge), Given(true))

  /** What a request to the CMS comes back with: a status and a body that
      does or does not parse as JSON, or no response at all. */
  datatype Body = Parsed(json: Json) | Malformed
  datatype Response = Received(status: int, body: Body) | NoResponse

  datatype FetchError = RequestFailed(status: int) | ParseError | NetworkError

  /** The outside world for one call: the clock when the call starts, the
      response the network would give, and the clock when it arrives. */
  datatype Env = Env(now: int, response: Response, arrival: int)

  /** A background revalidation of `key`, requested from `endpoint`. */
  datatype RefreshTask = RefreshTask(key: string, endpoint: string)

  predicate IsOk(status: int) {
    200 <= status <= 299
  }

  // ---------------------------------------------------------------------
  // Cache keys
  // ---------------------------------------------------------------------

  /** `${API_URL}/api${endpoint}`: the cache key and the request URL. */
  function CacheKey(endpoint: string): (k: string)
    ensures KeyPrefix <= k && k[|KeyPrefix|..] == endpoint
  {
    KeyPrefix + endpoint
  }

  /** The endpoint a cache key was made from, if it was made by `CacheKey`. */
  function EndpointOfKey(key: string): (e: Option<string>)
    ensures e.Some? <==> KeyPrefix <= key
    ensures e.Some? ==> CacheKey(e.value) == key
  {
    if KeyPrefix <= key then Some(key[|KeyPrefix|..]) else None
  }

  lemma CacheKeyRoundTrip(endpoint: string)
    ensures EndpointOfKey(CacheKey(endpoint)) == Some(endpoint)
  {
    var key := CacheKey(endpoint);
    assert key[..|KeyPrefix|] == KeyPrefix;
    assert key[|KeyPrefix|..] == endpoint;
  }

  /** Distinct endpoints never share a cache entry. */
  lemma CacheKeyInjective(a: string, b: string)
    ensures CacheKey(a) == CacheKey(b) <==> a == b
  {
    CacheKeyRoundTrip(a);
    CacheKeyRoundTrip(b);
  }

  // ---------------------------------------------------------------------
  // Options
  // ---------------------------------------------------------------------

  /** `cacheOptions = DEFAULT_CACHE_OPTIONS`: an omitted or undefined argument
      takes the defaults; an object is used as it is, even when empty. */
  function Resolve(arg: Prop<CacheOptions>): (o: CacheOptions)
    ensures arg.Given? ==> o == arg.value
    ensures !arg.Given? ==> EffectiveMaxAge(o) == DefaultMaxAge && Revalidates(o)
  {
    arg.OrDefault(DefaultCacheOptions)
  }

  /** `cacheOptions.maxAge || DEFAULT_CACHE_OPTIONS.maxAge`: a falsy max-age
      (absent, undefined or 0) falls back to five minutes. */
  function EffectiveMaxAge(o: CacheOptions): (m: int)
    ensures m != 0
    ensures o.maxAge.Given? && o.maxAge.value != 0 ==> m == o.maxAge.value
    ensures !(o.maxAge.Given? && o.maxAge.value != 0) ==> m == DefaultMaxAge
  {
    if o.maxAge.Given? && o.maxAge.value != 0 then o.maxAge.value else DefaultMaxAge
  }

  /** Truthiness of `cacheOptions.revalidate`. */
  predicate Revalidates(o: CacheOptions)
    // Only a given `true` is truthy: absent, undefined and `false` are not.
    ensures Revalidates(o) ==> o.revalidate.Given?
    ensures o.revalidate.Given? ==> (Revalidates(o) <==> o.revalidate.value)
  {
    o.revalidate == Given(true)
  }

  /** `{...DEFAULT_CACHE_OPTIONS, maxAge: resourceMaxAge, ...caller}`, the
      merge the resource accessors and the collection hooks perform. */
  function MergeOptions(resourceMaxAge: int, caller: Prop<CacheOptions>): (o: CacheOptions)
    ensures caller.Given? && caller.value.maxAge.Given? ==> o.maxAge == caller.value.maxAge
    ensures (caller.Given? ==> caller.value.maxAge.Missing?) && resourceMaxAge != 0
      ==> EffectiveMaxAge(o) == resourceMaxAge
    ensures caller.Given? && caller.value.revalidate.Given? ==> o.revalidate == caller.value.revalidate
    ensures (caller.Given? ==> caller.value.revalidate.Missing?) ==> Revalidates(o)
    // A present but undefined property overwrites the default and so is falsy.
    ensures caller.Given? && caller.value.maxAge.Undefined? ==> EffectiveMaxAge(o) == DefaultMaxAge
    ensures caller.Given? && caller.value.revalidate.Undefined? ==> !Revalidates(o)
  {
    var over := caller.OrDefault(CacheOptions(Missing, Missing));
    CacheOptions(
      Spread(Given(resourceMaxAge), over.maxAge),
      Spread(DefaultCacheOptions.revalidate, over.revalidate))
  }

  // ---------------------------------------------------------------------
  // The fetch policy, as functions of the cache contents
  // ---------------------------------------------------------------------

  datatype Decision = FreshHit | ServeStale | FetchBlocking

  function Lookup(entries: map<string, CacheItem>, key: string): Option<CacheItem> {
    if key in entries then Some(entries[key]) else None
  }

  /** The three-way choice `fetchFromAPI` makes before touching the network. */
  function Decide(cached: Option<CacheItem>, o: CacheOptions, now: int): (d: Decision)
    ensures d == FreshHit <==> cached.Some? && now - cached.value.timestamp < EffectiveMaxAge(o)
    ensures d == ServeStale <==>
      cached.Some? && now - cached.value.timestamp >= EffectiveMaxAge(o) && Revalidates(o)
    ensures d == FetchBlocking <==>
      cached.None? || (now - cached.value.timestamp >= EffectiveMaxAge(o) && !Revalidates(o))
  {
    if cached.Some? && now - cached.value.timestamp < EffectiveMaxAge(o) then FreshHit
    else if cached.Some? && Revalidates(o) then ServeStale
    else FetchBlocking
  }

  datatype Written = Written(result: Result<Json, FetchError>, entries: map<string, CacheItem>)

  /** `fetchAndCache`: a request, then a write stamped with the arrival time
      only when the response is ok and its body parses. */
  function FetchAndCacheOutcome(entries: map<string, CacheItem>, key: string,
                                response: Response, arrival: int): (w: Written)
    ensures w.result.Ok? <==> response.Received? && IsOk(response.status) && response.body.Parsed?
    ensures w.result.Ok? ==>
      w.result.value == response.body.json &&
      w.entries == entries[key := CacheItem(response.body.json, arrival)]
    ensures w.result.Err? ==> w.entries == entries
    ensures response.Received? && !IsOk(response.status) ==> w.result == Err(RequestFailed(response.status))
    ensures response.NoResponse? ==> w.result == Err(NetworkError)
  {
    match response
    case NoResponse => Written(Err(NetworkError), entries)
    case Received(status, body) =>
      if !IsOk(status) then Written(Err(RequestFailed(status)), entries)
      else match body
        case Malformed => Written(Err(ParseError), entries)
        case Parsed(data) => Written(Ok(data), entries[key := CacheItem(data, arrival)])
  }

  /** Everything one `fetchFromAPI` call does: what it returns or throws, the
      cache afterwards, the background refresh it starts, and whether the
      caller waited on the network. */
  datatype FetchOutcome = FetchOutcome(
    result: Result<Json, FetchError>,
    entries: map<string, CacheItem>,
    refresh: Option<RefreshTask>,
    fetched: bool)

  function FetchOutcomeOf(entries: map<string, CacheItem>, endpoint: string,
                          arg: Prop<CacheOptions>, env: Env): (o: FetchOutcome)
    // A fresh entry is returned; no request, no refresh, the cache is unchanged.
    ensures var key := CacheKey(endpoint);
      key in entries && env.now - entries[key].timestamp < EffectiveMaxAge(Resolve(arg)) ==>
        o == FetchOutcome(Ok(entries[key].data), entries, None, false)
    // A stale entry with revalidation on is returned as it is, and exactly
    // one refresh of the same key is scheduled.
    ensures var key := CacheKey(endpoint);
      key in entries && env.now - entries[key].timestamp >= EffectiveMaxAge(Resolve(arg)) &&
      Revalidates(Resolve(arg)) ==>
        o == FetchOutcome(Ok(entries[key].data), entries, Some(RefreshTask(key, endpoint)), false)
    // Otherwise the caller gets the blocking fetch, errors included.
    ensures var key := CacheKey(endpoint);
      key !in entries ||
      (env.now - entries[key].timestamp >= EffectiveMaxAge(Resolve(arg)) && !Revalidates(Resolve(arg))) ==>
        o.fetched && o.refresh == None &&
        Written(o.result, o.entries) == FetchAndCacheOutcome(entries, key, env.response, env.arrival)
    // Whatever happens, no key other than this endpoint's changes.
    ensures forall k :: k != CacheKey(endpoint) ==> Lookup(o.entries, k) == Lookup(entries, k)
  {
    var key := CacheKey(endpoint);
    var cached := Lookup(entries, key);
    match Decide(cached, Resolve(arg), env.now)
    case FreshHit => FetchOutcome(Ok(cached.value.data), entries, None, false)
    case ServeStale => FetchOutcome(Ok(cached.value.data), entries, Some(RefreshTask(key, endpoint)), false)
    case FetchBlocking =>
      var w := FetchAndCacheOutcome(entries, key, env.response, env.arrival);
      FetchOutcome(w.result, w.entries, None, true)
  }

  /** `clearCache(endpoint?)`: a truthy endpoint drops its one key; no
      endpoint, or the empty (falsy) one, empties the cache. */
  function ClearedEntries(entries: map<string, CacheItem>, endpoint: Option<string>): (r: map<string, CacheItem>)
    ensures endpoint.Some? && endpoint.value != "" ==>
      CacheKey(endpoint.value) !in r &&
      forall k :: k != CacheKey(endpoint.value) ==> Lookup(r, k) == Lookup(entries, k)
    ensures endpoint.None? || endpoint.value == "" ==> r == map[]
  {
    if endpoint.Some? && endpoint.value != "" then entries - {CacheKey(endpoint.value)} else map[]
  }

  // ---------------------------------------------------------------------
  // Resource accessors
  // ---------------------------------------------------------------------

  datatype GlobalPage = Homepage | AboutPage | ProductsPage | ContactPage | ReparateurPage | BertinyPage

  /** The slug each named global accessor fixes. */
  function Slug(p: GlobalPage): string {
    match p
    case Homepage => "homepage"
    case AboutPage => "about"
    case ProductsPage => "products"
    case ContactPage => "contact"
    case ReparateurPage => "reparateur"
    case BertinyPage => "bertiny"
  }

  function GlobalEndpoint(slug: string): string {
    "/globals/" + slug
  }

  const ProductsEndpoint: string := "/smartphones"

  function ProductEndpoint(id: string): string {
    ProductsEndpoint + "/" + id
  }

  /** The named global pages read distinct cache entries. */
  lemma GlobalPagesDistinct(p: GlobalPage, q: GlobalPage)
    ensures CacheKey(GlobalEndpoint(Slug(p))) == CacheKey(GlobalEndpoint(Slug(q))) <==> p == q
  {
    CacheKeyInjective(GlobalEndpoint(Slug(p)), GlobalEndpoint(Slug(q)));
    if GlobalEndpoint(Slug(p)) == GlobalEndpoint(Slug(q)) {
      assert GlobalEndpoint(Slug(p))[9..] == Slug(p);
      assert GlobalEndpoint(Slug(q))[9..] == Slug(q);
    }
  }

  /** The product list and any single product never share a cache entry. */
  lemma ProductKeysDistinct(id: string)
    ensures CacheKey(ProductEndpoint(id)) != CacheKey(ProductsEndpoint)
  {
    CacheKeyInjective(ProductEndpoint(id), ProductsEndpoint);
    assert |ProductEndpoint(id)| > |ProductsEndpoint|;
  }

  // ---------------------------------------------------------------------
  // The cache object
  // ---------------------------------------------------------------------

  class Cache {
    var entries: map<string, CacheItem>

    constructor ()
      ensures entries == map[]
    {
      entries := map[];
    }

    method FetchAndCache(key: string, response: Response, arrival: int)
      returns (result: Result<Json, FetchError>)
      modifies this
      ensures Written(result, entries) == FetchAndCacheOutcome(old(entries), key, response, arrival)
    {
      match response
      case NoResponse =>
        result := Err(NetworkError);
      case Received(status, body) =>
        if !IsOk(status) {
          result := Err(RequestFailed(status));
        } else if body.Malformed? {
          result := Err(ParseError);
        } else {
          var data := body.json;
          entries := entries[key := CacheItem(data, arrival)];
          result := Ok(data);
        }
    }

    method FetchFromAPI(endpoint: string, arg: Prop<CacheOptions>, env: Env)
      returns (result: Result<Json, FetchError>, refresh: Option<RefreshTask>, fetched: bool)
      modifies this
      ensures FetchOutcome(result, entries, refresh, fetched) == FetchOutcomeOf(old(entries), endpoint, arg, env)
    {
      var key := CacheKey(endpoint);
      var options := Resolve(arg);
      if key in entries && env.now - entries[key].timestamp < EffectiveMaxAge(options) {
        return Ok(entries[key].data), None, false;
      }
      if key in entries && Revalidates(options) {
        return Ok(entries[key].data), Some(RefreshTask(key, endpoint)), false;
      }
      result := FetchAndCache(key, env.response, env.arrival);
      refresh, fetched := None, true;
    }

    /** The background half of stale-while-revalidate: its failure is
        swallowed, so it has no result. */
    method RunRefresh(task: RefreshTask, response: Response, arrival: int)
      modifies this
      ensures entries == FetchAndCacheOutcome(old(entries), task.key, response, arrival).entries
    {
      var _ := FetchAndCache(task.key, response, arrival);
    }

    method ClearCache(endpoint: Option<string>)
      modifies this
      ensures entries == ClearedEntries(old(entries), endpoint)
    {
      if endpoint.Some? && endpoint.value != "" {
        entries := entries - {CacheKey(endpoint.value)};
      } else {
        var keys := entries.Keys;
        while keys != {}
          invariant entries.Keys == keys
          decreases keys
        {
          var k :| k in keys;
          entries := entries - {k};
          keys := keys - {k};
        }
        assert entries == map[];
      }
    }

    /** `prefetch`: the fetch with default options, its failure swallowed. */
    method Prefetch(endpoint: string, env: Env) returns (refresh: Option<RefreshTask>)
      modifies this
      ensures var o := FetchOutcomeOf(old(entries), endpoint, Missing, env);
        entries == o.entries && refresh == o.refresh
    {
      var _, r, _ := FetchFromAPI(endpoint, Missing, env);
      refresh := r;
    }

    method FetchGlobal(slug: string, caller: Prop<CacheOptions>, env: Env)
      returns (result: Result<Json, FetchError>, refresh: Option<RefreshTask>, fetched: bool)
      modifies this
      ensures FetchOutcome(result, entries, refresh, fetched) ==
        FetchOutcomeOf(old(entries), GlobalEndpoint(slug), Given(MergeOptions(GlobalMaxAge, caller)), env)
    {
      result, refresh, fetched := FetchFromAPI(GlobalEndpoint(slug), Given(MergeOptions(GlobalMaxAge, caller)), env);
    }

    /** `fetchHomepage`, `fetchAboutPage`, ...: `fetchGlobal` with a fixed slug. */
    method FetchPage(page: GlobalPage, caller: Prop<CacheOptions>, env: Env)
      returns (result: Result<Json, FetchError>, refresh: Option<RefreshTask>, fetched: bool)
      modifies this
      ensures FetchOutcome(result, entries, refresh, fetched) ==
        FetchOutcomeOf(old(entries), GlobalEndpoint(Slug(page)), Given(MergeOptions(GlobalMaxAge, caller)), env)
    {
      result, refresh, fetched := FetchGlobal(Slug(page), caller, env);
    }

    method FetchProducts(caller: Prop<CacheOptions>, env: Env)
      returns (result: Result<Json, FetchError>, refresh: Option<RefreshTask>, fetched: bool)
      modifies this
      ensures FetchOutcome(result, entries, refresh, fetched) ==
        FetchOutcomeOf(old(entries), ProductsEndpoint, Given(MergeOptions(ProductMaxAge, caller)), env)
    {
      result, refresh, fetched := FetchFromAPI(ProductsEndpoint, Given(MergeOptions(ProductMaxAge, caller)), env);
    }

    method FetchProductById(id: string, caller: Prop<CacheOptions>, env: Env)
      returns (result: Result<Json, FetchError>, refresh: Option<RefreshTask>, fetched: bool)
      modifies this
      ensures FetchOutcome(result, entries, refresh, fetched) ==
        FetchOutcomeOf(old(entries), ProductEndpoint(id), Given(MergeOptions(ProductMaxAge, caller)), env)
    {
      result, refresh, fetched := FetchFromAPI(ProductEndpoint(id), Given(MergeOptions(ProductMaxAge, caller)), env);
    }
  }

  // ---------------------------------------------------------------------
  // Properties across calls
  // ---------------------------------------------------------------------

  /** A blocking fetch that succeeds at `arrival` is followed, while the entry
      is younger than the effective max-age, by a hit on the same data with no
      request and no refresh. */
  lemma RefetchWithinMaxAgeHits(entries: map<string, CacheItem>, endpoint: string,
                                arg: Prop<CacheOptions>, env: Env, later: Env)
    requires FetchOutcomeOf(entries, endpoint, arg, env).fetched
    requires FetchOutcomeOf(entries, endpoint, arg, env).result.Ok?
    requires later.now - env.arrival < EffectiveMaxAge(Resolve(arg))
    ensures var first := FetchOutcomeOf(entries, endpoint, arg, env);
      FetchOutcomeOf(first.entries, endpoint, arg, later) ==
        FetchOutcome(first.result, first.entries, None, false)
  {
    var first := FetchOutcomeOf(entries, endpoint, arg, env);
    var key := CacheKey(endpoint);
    assert first.entries == entries[key := CacheItem(first.result.value, env.arrival)];
  }

  /** After `clearCache(endpoint)`, and after the clear-all forms
      `clearCache()` and `clearCache("")`, the next fetch of the endpoint goes
      to the network whatever the options. */
  lemma ClearedEndpointFetches(entries: map<string, CacheItem>, endpoint: string,
                               cleared: Option<string>, arg: Prop<CacheOptions>, env: Env)
    requires cleared.None? || cleared.value == "" || cleared.value == endpoint
    ensures FetchOutcomeOf(ClearedEntries(entries, cleared), endpoint, arg, env).fetched
  {
  }

  /** A failed background refresh leaves the stale entry in place, so any
      later call serves it again and schedules another refresh: the entry
      only grows older. */
  lemma FailedRefreshKeepsServingStale(entries: map<string, CacheItem>, endpoint: string,
                                       arg: Prop<CacheOptions>, env: Env,
                                       response: Response, arrival: int, later: Env)
    requires FetchOutcomeOf(entries, endpoint, arg, env).refresh.Some?
    requires !FetchAndCacheOutcome(entries, CacheKey(endpoint), response, arrival).result.Ok?
    requires later.now >= env.now
    ensures var key := CacheKey(endpoint);
      var task := FetchOutcomeOf(entries, endpoint, arg, env).refresh.value;
      var after := FetchAndCacheOutcome(entries, task.key, response, arrival).entries;
      FetchOutcomeOf(after, endpoint, arg, later) ==
        FetchOutcome(Ok(entries[key].data), entries, Some(RefreshTask(key, endpoint)), false)
  {
  }

  /** With no caller options, a global is fresh for ten minutes: a second
      `fetchGlobal` right after a successful first one is a hit. */
  lemma GlobalFetchedTwiceHitsOnce(slug: string, env: Env, later: Env)
    requires env.response.Received? && IsOk(env.response.status) && env.response.body.Parsed?
    requires 0 <= later.now - env.arrival < GlobalMaxAge
    ensures var arg := Given(MergeOptions(GlobalMaxAge, Missing));
      var first := FetchOutcomeOf(map[], GlobalEndpoint(slug), arg, env);
      var second := FetchOutcomeOf(first.entries, GlobalEndpoint(slug), arg, later);
      first.fetched && !second.fetched && second.result == first.result == Ok(env.response.body.json)
  {
    var arg := Given(MergeOptions(GlobalMaxAge, Missing));
    assert EffectiveMaxAge(Resolve(arg)) == GlobalMaxAge;
    RefetchWithinMaxAgeHits(map[], GlobalEndpoint(slug), arg, env, later);
  }
}
