/** The pagination controller (src/hooks/useCollection.ts): a hook whose
    state (`data`, `pagination`, `loading`, `error`, `page`) is updated step
    by step as a collection page is loaded through the shared cache, with
    guarded navigation and a forced refresh. */
module Collection {
  import opened JsValues
  import opened Api

  const DefaultInitialPage: int := 1
  const DefaultLimit: int := 10

  /** The cache lifetime the smartphone and application hooks default to. */
  const HookMaxAge: int := 5 * 60 * 1000

  const SmartphonesEndpoint: string := "/smartphones"
  const ApplicationsEndpoint: string := "/applications"

  datatype CollectionOptions = CollectionOptions(
    initialPage: Prop<int>,
    limit: Prop<int>,
    cacheOptions: Prop<CacheOptions>)

  /** What one hook instance works with once its options are destructured. */
  datatype CollectionConfig = CollectionConfig(
    endpoint: string,
    initialPage: int,
    limit: int,
    cacheOptions: Prop<CacheOptions>)

  /** `const { initialPage = 1, limit = 10, cacheOptions } = options`. */
  function ConfigOf(endpoint: string, options: CollectionOptions): (c: CollectionConfig)
    ensures c.endpoint == endpoint && c.cacheOptions == options.cacheOptions
    // A given value wins; an absent or undefined one takes the default.
    ensures options.initialPage.Given? ==> c.initialPage == options.initialPage.value
    ensures !options.initialPage.Given? ==> c.initialPage == DefaultInitialPage
    ensures options.limit.Given? ==> c.limit == options.limit.value
    ensures !options.limit.Given? ==> c.limit == DefaultLimit
  {
    CollectionConfig(
      endpoint,
      options.initialPage.OrDefault(DefaultInitialPage),
      options.limit.OrDefault(DefaultLimit),
      options.cacheOptions)
  }

  /** The configuration `useSmartphones` / `useApplications` hand to
      `useCollection`: `{limit: defaultLimit, ...options, cacheOptions:
      {maxAge: 5 min, revalidate: true, ...options.cacheOptions}}`. */
  function ResourceConfig(endpoint: string, defaultLimit: int, options: CollectionOptions): (c: CollectionConfig)
    ensures c.endpoint == endpoint
    ensures c.initialPage == (if options.initialPage.Given? then options.initialPage.value else DefaultInitialPage)
    // The caller's limit wins; an explicitly undefined one falls through to 10.
    ensures options.limit.Missing? ==> c.limit == defaultLimit
    ensures options.limit.Given? ==> c.limit == options.limit.value
    ensures options.limit.Undefined? ==> c.limit == DefaultLimit
    // The cache options are always an object, five minutes and revalidating
    // unless the caller's own cache options say otherwise.
    ensures c.cacheOptions.Given?
    ensures (options.cacheOptions.Given? ==> options.cacheOptions.value.maxAge.Missing?) ==>
      EffectiveMaxAge(Resolve(c.cacheOptions)) == HookMaxAge
    ensures options.cacheOptions.Given? && options.cacheOptions.value.maxAge.Given? ==>
      c.cacheOptions.value.maxAge == options.cacheOptions.value.maxAge
    ensures (options.cacheOptions.Given? ==> options.cacheOptions.value.revalidate.Missing?) ==>
      Revalidates(Resolve(c.cacheOptions))
    ensures options.cacheOptions.Given? && options.cacheOptions.value.revalidate.Given? ==>
      c.cacheOptions.value.revalidate == options.cacheOptions.value.revalidate
    // An explicitly undefined maxAge or revalidate overwrites the hook's default.
    ensures options.cacheOptions.Given? && options.cacheOptions.value.maxAge.Undefined? ==>
      EffectiveMaxAge(Resolve(c.cacheOptions)) == DefaultMaxAge
    ensures options.cacheOptions.Given? && options.cacheOptions.value.revalidate.Undefined? ==>
      !Revalidates(Resolve(c.cacheOptions))
  {
    ConfigOf(endpoint, ResourceOptions(defaultLimit, options))
  }

  /** The options object the wrappers pass on to `useCollection`. */
  function ResourceOptions(defaultLimit: int, options: CollectionOptions): CollectionOptions {
    CollectionOptions(
      options.initialPage,
      Spread(Given(defaultLimit), options.limit),
      Given(MergeOptions(HookMaxAge, options.cacheOptions)))
  }

  function SmartphonesConfig(options: CollectionOptions): (c: CollectionConfig)
    ensures c.endpoint == SmartphonesEndpoint
    ensures options.limit.Missing? ==> c.limit == 6
  {
    ResourceConfig(SmartphonesEndpoint, 6, options)
  }

  function ApplicationsConfig(options: CollectionOptions): (c: CollectionConfig)
    ensures c.endpoint == ApplicationsEndpoint
    ensures options.limit.Missing? ==> c.limit == 8
  {
    ResourceConfig(ApplicationsEndpoint, 8, options)
  }

  // ---------------------------------------------------------------------
  // Page endpoints and their cache keys
  // ---------------------------------------------------------------------

  /** `${endpoint}?page=${pageNum}&limit=${limit}`. */
  function PageEndpoint(endpoint: string, pageNum: int, limit: int): (e: string)
    ensures endpoint + "?page=" <= e
  {
    endpoint + "?page=" + IntToString(pageNum) + "&limit=" + IntToString(limit)
  }

  function PageKey(c: CollectionConfig, pageNum: int): string {
    CacheKey(PageEndpoint(c.endpoint, pageNum, c.limit))
  }

  /** Two strings each followed by a text starting with `&`, neither holding
      a `&` itself, are equal when the concatenations are. */
  lemma {:induction false} SplitAtAmpersand(a: string, t: string, b: string, u: string)
    requires a + t == b + u
    requires forall i :: 0 <= i < |a| ==> a[i] != '&'
    requires forall i :: 0 <= i < |b| ==> b[i] != '&'
    requires |t| > 0 && t[0] == '&' && |u| > 0 && u[0] == '&'
    ensures a == b
  {
    assert (a + t)[|a|] == '&' && (b + u)[|b|] == '&';
    assert |a| == |b|;
    assert a == (a + t)[..|a|];
    assert b == (b + u)[..|b|];
  }

  /** Each page number of a collection has its own endpoint. */
  lemma PageEndpointInjective(endpoint: string, n: int, m: int, limit: int)
    ensures PageEndpoint(endpoint, n, limit) == PageEndpoint(endpoint, m, limit) <==> n == m
  {
    if PageEndpoint(endpoint, n, limit) == PageEndpoint(endpoint, m, limit) {
      var head := endpoint + "?page=";
      var tail := "&limit=" + IntToString(limit);
      var sn, sm := IntToString(n), IntToString(m);
      assert PageEndpoint(endpoint, n, limit) == head + (sn + tail);
      assert PageEndpoint(endpoint, m, limit) == head + (sm + tail);
      assert sn + tail == (head + (sn + tail))[|head|..];
      assert sm + tail == (head + (sm + tail))[|head|..];
      SplitAtAmpersand(sn, tail, sm, tail);
      IntToStringInjective(n, m);
    }
  }

  /** ... and so its own cache entry. */
  lemma PageKeyInjective(c: CollectionConfig, n: int, m: int)
    ensures PageKey(c, n) == PageKey(c, m) <==> n == m
  {
    CacheKeyInjective(PageEndpoint(c.endpoint, n, c.limit), PageEndpoint(c.endpoint, m, c.limit));
    PageEndpointInjective(c.endpoint, n, m, c.limit);
  }

  // ---------------------------------------------------------------------
  // Hook state and its transitions
  // ---------------------------------------------------------------------

  datatype LoadError = FetchFailed(cause: FetchError) | InvalidResponseFormat

  datatype CollectionState = CollectionState(
    data: seq<Json>,
    pagination: Option<map<string, Json>>,
    loading: bool,
    error: Option<LoadError>,
    page: int)

  /** The state on first render: no data, no pagination, loading, no error. */
  function InitialState(c: CollectionConfig): CollectionState {
    CollectionState([], None, true, None, c.initialPage)
  }

  /** `response?.docs && Array.isArray(response.docs)`: the response is kept as
      the pagination record only when it is an object with a `docs` array. */
  function AsPage(response: Json): (p: Option<map<string, Json>>)
    ensures p.Some? <==> response.JObj? && "docs" in response.fields && response.fields["docs"].JArr?
    ensures p.Some? ==> p.value == response.fields
  {
    if response.JObj? && "docs" in response.fields && response.fields["docs"].JArr? then Some(response.fields)
    else None
  }

  /** The state change of one `fetchData` call, together with the cache
      afterwards and any background refresh it started. */
  datatype CollectionStep = CollectionStep(
    state: CollectionState,
    entries: map<string, CacheItem>,
    refresh: Option<RefreshTask>,
    fetched: bool)

  /** The fetch `fetchData(pageNum, forceRefresh)` performs, after clearing
      the page's key when forced. */
  function PageFetch(entries: map<string, CacheItem>, c: CollectionConfig,
                     pageNum: int, forceRefresh: bool, env: Env): (o: FetchOutcome)
    ensures forceRefresh ==> o.fetched
    ensures forall k :: k != PageKey(c, pageNum) ==> Lookup(o.entries, k) == Lookup(entries, k)
  {
    var endpoint := PageEndpoint(c.endpoint, pageNum, c.limit);
    var before := if forceRefresh then ClearedEntries(entries, Some(endpoint)) else entries;
    FetchOutcomeOf(before, endpoint, c.cacheOptions, env)
  }

  function LoadStep(s: CollectionState, entries: map<string, CacheItem>, c: CollectionConfig,
                    pageNum: int, forceRefresh: bool, env: Env): (st: CollectionStep)
    // loading is false once the call is over, whatever happened.
    ensures !st.state.loading
    // A page-shaped response replaces data, pagination and page and clears the error.
    ensures var r := PageFetch(entries, c, pageNum, forceRefresh, env).result;
      r.Ok? && AsPage(r.value).Some? ==>
        st.state == CollectionState(r.value.fields["docs"].items, Some(r.value.fields), false, None, pageNum)
    // Anything else records an error and keeps what was displayed.
    ensures var r := PageFetch(entries, c, pageNum, forceRefresh, env).result;
      !(r.Ok? && AsPage(r.value).Some?) ==>
        st.state.error.Some? && st.state.data == s.data &&
        st.state.pagination == s.pagination && st.state.page == s.page
    // A forced load always goes to the network.
    ensures forceRefresh ==> st.fetched
    // Only this page's cache entry can change.
    ensures forall k :: k != PageKey(c, pageNum) ==> Lookup(st.entries, k) == Lookup(entries, k)
  {
    var o := PageFetch(entries, c, pageNum, forceRefresh, env);
    var state :=
      match o.result
      case Ok(response) =>
        (match AsPage(response)
         case Some(p) => CollectionState(p["docs"].items, Some(p), false, None, pageNum)
         case None => s.(loading := false, error := Some(InvalidResponseFormat)))
      case Err(e) => s.(loading := false, error := Some(FetchFailed(e)));
    CollectionStep(state, o.entries, o.refresh, o.fetched)
  }

  /** `pageNum > 0 && (!pagination || pageNum <= pagination.totalPages)`. */
  predicate CanGoTo(s: CollectionState, n: int)
    ensures n <= 0 ==> !CanGoTo(s, n)
    ensures s.pagination.None? ==> (CanGoTo(s, n) <==> n > 0)
    ensures forall t :: Member(s.pagination, "totalPages") == Some(JNum(t)) ==> (CanGoTo(s, n) <==> 0 < n <= t)
    // With pagination but no `totalPages`, the comparison with undefined is false.
    ensures s.pagination.Some? && Member(s.pagination, "totalPages") == None ==> !CanGoTo(s, n)
  {
    n > 0 && (s.pagination.None? || AtMost(n, Member(s.pagination, "totalPages")))
  }

  function NoChange(s: CollectionState, entries: map<string, CacheItem>): CollectionStep {
    CollectionStep(s, entries, None, false)
  }

  function GoToStep(s: CollectionState, entries: map<string, CacheItem>, c: CollectionConfig,
                    n: int, env: Env): (st: CollectionStep)
    ensures !CanGoTo(s, n) ==> st == NoChange(s, entries)
    // Navigation never forces: it is a plain load of page n.
    ensures CanGoTo(s, n) ==> st == LoadStep(s, entries, c, n, false, env)
    ensures st.state.page == s.page || st.state.page == n
    ensures forall k :: k != PageKey(c, n) ==> Lookup(st.entries, k) == Lookup(entries, k)
  {
    if CanGoTo(s, n) then LoadStep(s, entries, c, n, false, env) else NoChange(s, entries)
  }

  function NextStep(s: CollectionState, entries: map<string, CacheItem>, c: CollectionConfig,
                    env: Env): (st: CollectionStep)
    ensures !TruthyOpt(Member(s.pagination, "hasNextPage")) ==> st == NoChange(s, entries)
    // With the flag set, it is `goToPage(page + 1)`.
    ensures TruthyOpt(Member(s.pagination, "hasNextPage")) ==> st == GoToStep(s, entries, c, s.page + 1, env)
    // The page stays or moves one forward, and only that page's entry can change.
    ensures st.state.page == s.page || st.state.page == s.page + 1
    ensures forall k :: k != PageKey(c, s.page + 1) ==> Lookup(st.entries, k) == Lookup(entries, k)
  {
    if TruthyOpt(Member(s.pagination, "hasNextPage")) then GoToStep(s, entries, c, s.page + 1, env)
    else NoChange(s, entries)
  }

  function PrevStep(s: CollectionState, entries: map<string, CacheItem>, c: CollectionConfig,
                    env: Env): (st: CollectionStep)
    ensures !TruthyOpt(Member(s.pagination, "hasPrevPage")) ==> st == NoChange(s, entries)
    // With the flag set, it is `goToPage(page - 1)`.
    ensures TruthyOpt(Member(s.pagination, "hasPrevPage")) ==> st == GoToStep(s, entries, c, s.page - 1, env)
    // The page stays or moves one back, and only that page's entry can change.
    ensures st.state.page == s.page || st.state.page == s.page - 1
    ensures forall k :: k != PageKey(c, s.page - 1) ==> Lookup(st.entries, k) == Lookup(entries, k)
  {
    if TruthyOpt(Member(s.pagination, "hasPrevPage")) then GoToStep(s, entries, c, s.page - 1, env)
    else NoChange(s, entries)
  }

  /** `refresh(forceRefresh = true)`: reload the current page. */
  function RefreshStep(s: CollectionState, entries: map<string, CacheItem>, c: CollectionConfig,
                       forceRefresh: Prop<bool>, env: Env): (st: CollectionStep)
    // It is `fetchData(page, forceRefresh)`: a load of the current page, so a
    // page-shaped response is shown and a failure records an error.
    ensures st == LoadStep(s, entries, c, s.page, forceRefresh.OrDefault(true), env)
    // Without an argument the reload is forced and goes to the network.
    ensures !forceRefresh.Given? ==> st.fetched
    ensures !st.state.loading && st.state.page == s.page
    ensures forall k :: k != PageKey(c, s.page) ==> Lookup(st.entries, k) == Lookup(entries, k)
  {
    LoadStep(s, entries, c, s.page, forceRefresh.OrDefault(true), env)
  }

  // ---------------------------------------------------------------------
  // The hook object
  // ---------------------------------------------------------------------

  class CollectionHook {
    const config: CollectionConfig
    var data: seq<Json>
    var pagination: Option<map<string, Json>>
    var loading: bool
    var error: Option<LoadError>
    var page: int

    function State(): CollectionState
      reads this
    {
      CollectionState(data, pagination, loading, error, page)
    }

    /** `useCollection(endpoint, options)` on first render. */
    constructor (endpoint: string, options: CollectionOptions)
      ensures config == ConfigOf(endpoint, options)
      ensures State() == InitialState(config)
    {
      config := ConfigOf(endpoint, options);
      data, pagination, loading, error := [], None, true, None;
      page := options.initialPage.OrDefault(DefaultInitialPage);
    }

    method FetchData(cache: Cache, pageNum: int, forceRefresh: bool, env: Env)
      returns (refresh: Option<RefreshTask>)
      modifies this, cache
      ensures var st := LoadStep(old(State()), old(cache.entries), config, pageNum, forceRefresh, env);
        State() == st.state && cache.entries == st.entries && refresh == st.refresh
    {
      loading := true;
      var endpoint := PageEndpoint(config.endpoint, pageNum, config.limit);
      if forceRefresh {
        cache.ClearCache(Some(endpoint));
      }
      var result, r, _ := cache.FetchFromAPI(endpoint, config.cacheOptions, env);
      refresh := r;
      match result {
        case Ok(response) =>
          var p := AsPage(response);
          if p.Some? {
            data := p.value["docs"].items;
            pagination := p;
            page := pageNum;
            error := None;
          } else {
            error := Some(InvalidResponseFormat);
          }
        case Err(e) =>
          error := Some(FetchFailed(e));
      }
      loading := false;
    }

    /** The mount effect: `fetchData(initialPage)`. */
    method Mount(cache: Cache, env: Env) returns (refresh: Option<RefreshTask>)
      modifies this, cache
      ensures var st := LoadStep(old(State()), old(cache.entries), config, config.initialPage, false, env);
        State() == st.state && cache.entries == st.entries && refresh == st.refresh
    {
      refresh := FetchData(cache, config.initialPage, false, env);
    }

    method GoToPage(cache: Cache, pageNum: int, env: Env) returns (refresh: Option<RefreshTask>)
      modifies this, cache
      ensures var st := GoToStep(old(State()), old(cache.entries), config, pageNum, env);
        State() == st.state && cache.entries == st.entries && refresh == st.refresh
    {
      refresh := None;
      if pageNum > 0 && (pagination.None? || AtMost(pageNum, Member(pagination, "totalPages"))) {
        refresh := FetchData(cache, pageNum, false, env);
      }
    }

    method NextPage(cache: Cache, env: Env) returns (refresh: Option<RefreshTask>)
      modifies this, cache
      ensures var st := NextStep(old(State()), old(cache.entries), config, env);
        State() == st.state && cache.entries == st.entries && refresh == st.refresh
    {
      refresh := None;
      if TruthyOpt(Member(pagination, "hasNextPage")) {
        refresh := GoToPage(cache, page + 1, env);
      }
    }

    method PrevPage(cache: Cache, env: Env) returns (refresh: Option<RefreshTask>)
      modifies this, cache
      ensures var st := PrevStep(old(State()), old(cache.entries), config, env);
        State() == st.state && cache.entries == st.entries && refresh == st.refresh
    {
      refresh := None;
      if TruthyOpt(Member(pagination, "hasPrevPage")) {
        refresh := GoToPage(cache, page - 1, env);
      }
    }

    method Refresh(cache: Cache, forceRefresh: Prop<bool>, env: Env) returns (refresh: Option<RefreshTask>)
      modifies this, cache
      ensures var st := RefreshStep(old(State()), old(cache.entries), config, forceRefresh, env);
        State() == st.state && cache.entries == st.entries && refresh == st.refresh
    {
      refresh := FetchData(cache, page, forceRefresh.OrDefault(true), env);
    }
  }

  /** `useSmartphones(options)` on first render. */
  method UseSmartphones(options: CollectionOptions) returns (hook: CollectionHook)
    ensures fresh(hook)
    ensures hook.config == SmartphonesConfig(options)
    ensures hook.State() == InitialState(hook.config)
  {
    hook := new CollectionHook(SmartphonesEndpoint, ResourceOptions(6, options));
  }

  /** `useApplications(options)` on first render. */
  method UseApplications(options: CollectionOptions) returns (hook: CollectionHook)
    ensures fresh(hook)
    ensures hook.config == ApplicationsConfig(options)
    ensures hook.State() == InitialState(hook.config)
  {
    hook := new CollectionHook(ApplicationsEndpoint, ResourceOptions(8, options));
  }

  // ---------------------------------------------------------------------
  // Properties of the transitions
  // ---------------------------------------------------------------------

  /** `goToPage(n)` is a no-op for n <= 0, whatever the pagination. */
  lemma GoToNonPositiveIsNoOp(s: CollectionState, entries: map<string, CacheItem>, c: CollectionConfig,
                              n: int, env: Env)
    requires n <= 0
    ensures GoToStep(s, entries, c, n, env) == NoChange(s, entries)
  {
  }

  /** ... and beyond a known page count. */
  lemma GoToBeyondTotalIsNoOp(s: CollectionState, entries: map<string, CacheItem>, c: CollectionConfig,
                              n: int, total: int, env: Env)
    requires Member(s.pagination, "totalPages") == Some(JNum(total))
    requires n > total
    ensures GoToStep(s, entries, c, n, env) == NoChange(s, entries)
  {
  }

  /** Within range, `goToPage(n)` is a plain (unforced) load of page n. */
  lemma GoToInRangeLoads(s: CollectionState, entries: map<string, CacheItem>, c: CollectionConfig,
                         n: int, env: Env)
    requires 0 < n
    requires s.pagination.None? ||
      (Member(s.pagination, "totalPages").Some? && Member(s.pagination, "totalPages").value.JNum? &&
       n <= Member(s.pagination, "totalPages").value.n)
    ensures GoToStep(s, entries, c, n, env) == LoadStep(s, entries, c, n, false, env)
  {
  }

  /** `nextPage` / `prevPage` do nothing unless the flag is truthy. */
  lemma NavigationNeedsFlag(s: CollectionState, entries: map<string, CacheItem>, c: CollectionConfig, env: Env)
    ensures !TruthyOpt(Member(s.pagination, "hasNextPage")) ==> NextStep(s, entries, c, env) == NoChange(s, entries)
    ensures !TruthyOpt(Member(s.pagination, "hasPrevPage")) ==> PrevStep(s, entries, c, env) == NoChange(s, entries)
  {
  }

  /** When there is a next page and it loads, `nextPage` moves exactly one
      page forward and touches no other page's cache entry. */
  lemma NextPageAdvancesByOne(s: CollectionState, entries: map<string, CacheItem>, c: CollectionConfig,
                              total: int, env: Env)
    requires TruthyOpt(Member(s.pagination, "hasNextPage"))
    requires Member(s.pagination, "totalPages") == Some(JNum(total))
    requires 0 < s.page + 1 <= total
    requires var r := PageFetch(entries, c, s.page + 1, false, env).result;
      r.Ok? && AsPage(r.value).Some?
    ensures var st := NextStep(s, entries, c, env);
      st.state.page == s.page + 1 && st.state.error == None &&
      forall k :: k != PageKey(c, s.page + 1) ==> Lookup(st.entries, k) == Lookup(entries, k)
  {
  }

  /** `prevPage`, symmetrically, moves exactly one page back. */
  lemma PrevPageGoesBackOne(s: CollectionState, entries: map<string, CacheItem>, c: CollectionConfig,
                            env: Env)
    requires TruthyOpt(Member(s.pagination, "hasPrevPage"))
    requires s.page - 1 > 0
    requires s.pagination.Some? ==> AtMost(s.page - 1, Member(s.pagination, "totalPages"))
    requires var r := PageFetch(entries, c, s.page - 1, false, env).result;
      r.Ok? && AsPage(r.value).Some?
    ensures var st := PrevStep(s, entries, c, env);
      st.state.page == s.page - 1 && st.state.error == None
  {
  }

  /** A forced refresh of one page bypasses the cache for that page and
      leaves every other page's entry as it was. */
  lemma ForceRefreshKeepsOtherPages(s: CollectionState, entries: map<string, CacheItem>, c: CollectionConfig,
                                    other: int, env: Env)
    requires other != s.page
    ensures var st := RefreshStep(s, entries, c, Missing, env);
      st.fetched && Lookup(st.entries, PageKey(c, other)) == Lookup(entries, PageKey(c, other))
  {
    PageKeyInjective(c, s.page, other);
  }
}
