/** The global-content loader (src/hooks/useGlobal.ts): a hook whose state
    (`data`, `loading`, `error`) follows one `fetchGlobal` call at a time,
    optionally after dropping the global's cache entry. */
module Global {
  import opened JsValues
  import opened Api

  datatype GlobalState = GlobalState(data: Json, loading: bool, error: Option<FetchError>)

  /** The state on first render: `data = null`, loading, no error. */
  const InitialGlobalState: GlobalState := GlobalState(JNull, true, None)

  datatype GlobalStep = GlobalStep(
    state: GlobalState,
    entries: map<string, CacheItem>,
    refresh: Option<RefreshTask>,
    fetched: bool)

  /** The fetch `fetchData(forceRefresh)` performs: `fetchGlobal(slug,
      cacheOptions)`, after clearing `/globals/<slug>` when forced. */
  function GlobalFetch(entries: map<string, CacheItem>, slug: string, caller: Prop<CacheOptions>,
                       forceRefresh: bool, env: Env): (o: FetchOutcome)
    ensures forceRefresh ==> o.fetched
    ensures forall k :: k != CacheKey(GlobalEndpoint(slug)) ==> Lookup(o.entries, k) == Lookup(entries, k)
  {
    var endpoint := GlobalEndpoint(slug);
    var before := if forceRefresh then ClearedEntries(entries, Some(endpoint)) else entries;
    FetchOutcomeOf(before, endpoint, Given(MergeOptions(GlobalMaxAge, caller)), env)
  }

  function GlobalLoadStep(s: GlobalState, entries: map<string, CacheItem>, slug: string,
                          caller: Prop<CacheOptions>, forceRefresh: bool, env: Env): (st: GlobalStep)
    ensures !st.state.loading
    // Success replaces the data, whatever JSON value it is, and clears the error.
    ensures var r := GlobalFetch(entries, slug, caller, forceRefresh, env).result;
      r.Ok? ==> st.state == GlobalState(r.value, false, None)
    // Failure records the error and keeps the data shown so far.
    ensures var r := GlobalFetch(entries, slug, caller, forceRefresh, env).result;
      r.Err? ==> st.state == GlobalState(s.data, false, Some(r.error))
    // A forced load always goes to the network.
    ensures forceRefresh ==> st.fetched
    // Only this global's cache entry can change.
    ensures forall k :: k != CacheKey(GlobalEndpoint(slug)) ==> Lookup(st.entries, k) == Lookup(entries, k)
  {
    var o := GlobalFetch(entries, slug, caller, forceRefresh, env);
    var state :=
      match o.result
      case Ok(v) => GlobalState(v, false, None)
      case Err(e) => s.(loading := false, error := Some(e));
    GlobalStep(state, o.entries, o.refresh, o.fetched)
  }

  class GlobalHook {
    const slug: string
    const cacheOptions: Prop<CacheOptions>
    var data: Json
    var loading: bool
    var error: Option<FetchError>

    function State(): GlobalState
      reads this
    {
      GlobalState(data, loading, error)
    }

    /** `useGlobal(slug, cacheOptions)` on first render. */
    constructor (slug: string, cacheOptions: Prop<CacheOptions>)
      ensures this.slug == slug && this.cacheOptions == cacheOptions
      ensures State() == InitialGlobalState
    {
      this.slug := slug;
      this.cacheOptions := cacheOptions;
      data, loading, error := JNull, true, None;
    }

    method FetchData(cache: Cache, forceRefresh: bool, env: Env) returns (refresh: Option<RefreshTask>)
      modifies this, cache
      ensures var st := GlobalLoadStep(old(State()), old(cache.entries), slug, cacheOptions, forceRefresh, env);
        State() == st.state && cache.entries == st.entries && refresh == st.refresh
    {
      loading := true;
      if forceRefresh {
        cache.ClearCache(Some(GlobalEndpoint(slug)));
      }
      var result, r, _ := cache.FetchGlobal(slug, cacheOptions, env);
      refresh := r;
      match result {
        case Ok(v) =>
          data := v;
          error := None;
        case Err(e) =>
          error := Some(e);
      }
      loading := false;
    }

    /** The mount effect: `fetchData()`, not forced. */
    method Mount(cache: Cache, env: Env) returns (refresh: Option<RefreshTask>)
      modifies this, cache
      ensures var st := GlobalLoadStep(old(State()), old(cache.entries), slug, cacheOptions, false, env);
        State() == st.state && cache.entries == st.entries && refresh == st.refresh
    {
      refresh := FetchData(cache, false, env);
    }

    /** `refetch(forceRefresh = true)`. */
    method Refetch(cache: Cache, forceRefresh: Prop<bool>, env: Env) returns (refresh: Option<RefreshTask>)
      modifies this, cache
      ensures var st := GlobalLoadStep(old(State()), old(cache.entries), slug, cacheOptions,
                                       forceRefresh.OrDefault(true), env);
        State() == st.state && cache.entries == st.entries && refresh == st.refresh
    {
      refresh := FetchData(cache, forceRefresh.OrDefault(true), env);
    }
  }

  /** `useHomepage`, `useAboutPage`, ...: `useGlobal` with a fixed slug. */
  method UsePage(page: GlobalPage, cacheOptions: Prop<CacheOptions>) returns (hook: GlobalHook)
    ensures fresh(hook)
    ensures hook.slug == Slug(page) && hook.cacheOptions == cacheOptions
    ensures hook.State() == InitialGlobalState
  {
    hook := new GlobalHook(Slug(page), cacheOptions);
  }

  /** The key the forced refresh clears is the key `fetchGlobal` reads:
      after it, the load cannot be served from the cache. */
  lemma ForcedClearHitsFetchGlobalKey(entries: map<string, CacheItem>, slug: string,
                                      caller: Prop<CacheOptions>, env: Env)
    ensures CacheKey(GlobalEndpoint(slug)) !in ClearedEntries(entries, Some(GlobalEndpoint(slug)))
    ensures GlobalFetch(entries, slug, caller, true, env).fetched
  {
  }

  /** `refetch()` with the argument absent or undefined is a forced load. */
  lemma RefetchDefaultsToForced(s: GlobalState, entries: map<string, CacheItem>, slug: string,
                                caller: Prop<CacheOptions>, forceRefresh: Prop<bool>, env: Env)
    requires !forceRefresh.Given?
    ensures GlobalLoadStep(s, entries, slug, caller, forceRefresh.OrDefault(true), env).fetched
  {
  }

  /** A successful forced reload followed by a plain one within ten minutes:
      the second is served from the cache with the same data. */
  lemma ReloadAfterRefetchHits(s: GlobalState, entries: map<string, CacheItem>, slug: string,
                               env: Env, later: Env)
    requires GlobalFetch(entries, slug, Missing, true, env).result.Ok?
    requires later.now - env.arrival < GlobalMaxAge
    ensures var first := GlobalLoadStep(s, entries, slug, Missing, true, env);
      var second := GlobalLoadStep(first.state, first.entries, slug, Missing, false, later);
      !second.fetched && second.state == first.state
  {
    var endpoint := GlobalEndpoint(slug);
    var arg := Given(MergeOptions(GlobalMaxAge, Missing));
    assert EffectiveMaxAge(Resolve(arg)) == GlobalMaxAge;
    RefetchWithinMaxAgeHits(ClearedEntries(entries, Some(endpoint)), endpoint, arg, env, later);
  }
}
