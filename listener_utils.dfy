/** The v3 listener helpers: finding a connection manager, a filter chain
    or an HTTP filter by index, the v3 attribute resolver, inserting or
    updating an HTTP filter's config, and the structural equality helpers
    for route matches, header matchers, regex matchers and route actions. */
module ListenerUtils {
  import opened Wrappers
  import opened Resources
  import opened Codec
  import opened Types

  // ---------------------------------------------------------------------
  // Connection manager lookup

  /** Unmarshal a filter's typed config into a connection manager. */
  function GetManager(config: Any): (r: Result<HttpConnectionManager, Error>)
    ensures r.Ok? <==> DecodeHCM(config).Ok?
    ensures r.Err? ==> r.error == DecodeFailed(DecodeHCM(config).error)
    ensures r.Ok? ==> EncodeHCM(r.value) == config
  {
    match DecodeHCM(config)
    case Ok(manager) => Ok(manager)
    case Err(e) => Err(DecodeFailed(e))
  }

  /** The connection manager of a listener's first filter of its first chain.
      It fails when there is no chain, when that chain has no filter, or
      when the filter's config does not decode; on success the manager
      re-encodes to that filter's config. */
  function GetListenerHTTPConnectionManager(ll: Listener): (r: Result<HttpConnectionManager, Error>)
    ensures |ll.filterChains| == 0 ==> r == Err(NoFilterChains(ll.name))
    ensures |ll.filterChains| > 0 && |ll.filterChains[0].filters| == 0 ==> r == Err(NoFilters(ll.name))
    ensures r.Ok? <==>
              && |ll.filterChains| > 0
              && |ll.filterChains[0].filters| > 0
              && DecodeHCM(ll.filterChains[0].filters[0].typedConfig).Ok?
    ensures r.Ok? ==> EncodeHCM(r.value) == ll.filterChains[0].filters[0].typedConfig
    ensures |ll.filterChains| > 0 && |ll.filterChains[0].filters| > 0 ==>
              r == GetManager(ll.filterChains[0].filters[0].typedConfig)
  {
    if |ll.filterChains| == 0 then Err(NoFilterChains(ll.name))
    else if |ll.filterChains[0].filters| == 0 then Err(NoFilters(ll.name))
    else GetManager(ll.filterChains[0].filters[0].typedConfig)
  }

  // ---------------------------------------------------------------------
  // Filter chain lookup by server name

  predicate ServesHost(chain: FilterChain, hostname: string)
  {
    hostname in chain.filterChainMatch.serverNames
  }

  /** The index of the LAST chain that lists `hostname` among its server
      names, or -1 when none does. */
  function LastChainFor(chains: seq<FilterChain>, hostname: string): (r: int)
    ensures -1 <= r < |chains|
    ensures r == -1 <==> forall k :: 0 <= k < |chains| ==> !ServesHost(chains[k], hostname)
    ensures 0 <= r ==> ServesHost(chains[r], hostname)
    ensures 0 <= r ==> forall k :: r < k < |chains| ==> !ServesHost(chains[k], hostname)
    decreases |chains|
  {
    if |chains| == 0 then -1
    else if ServesHost(chains[|chains| - 1], hostname) then |chains| - 1
    else LastChainFor(chains[..|chains| - 1], hostname)
  }

  /** Scan every chain and every server name, remembering the last chain
      that matched. */
  method GetFilterChainId(filterChains: seq<FilterChain>, hostname: string) returns (filterId: int)
    ensures filterId == LastChainFor(filterChains, hostname)
  {
    filterId := -1;
    var k := 0;
    while k < |filterChains|
      invariant 0 <= k <= |filterChains|
      invariant filterId == LastChainFor(filterChains[..k], hostname)
    {
      var serverNames := filterChains[k].filterChainMatch.serverNames;
      ghost var before := filterId;
      var j := 0;
      while j < |serverNames|
        invariant 0 <= j <= |serverNames|
        invariant filterId == if hostname in serverNames[..j] then k else before
      {
        assert serverNames[..j + 1] == serverNames[..j] + [serverNames[j]];
        if serverNames[j] == hostname {
          filterId := k;
        }
        j := j + 1;
      }
      assert serverNames[..j] == serverNames;
      assert filterChains[..k + 1][..k] == filterChains[..k];
      k := k + 1;
    }
    assert filterChains[..k] == filterChains;
  }

  /** The connection manager of the chain that serves `hostname` (the last
      such chain): it fails with NoFilterChainFound when no chain serves
      it and with NoFilterFound when that chain has no filters; otherwise
      it is the unmarshalled config of that chain's first filter, or the
      unmarshal error. */
  method GetListenerHTTPConnectionManagerTLS(ll: Listener, hostname: string)
    returns (r: Result<HttpConnectionManager, Error>)
    ensures r == Err(NoFilterChainFound) <==> LastChainFor(ll.filterChains, hostname) == -1
    ensures var id := LastChainFor(ll.filterChains, hostname);
            r == Err(NoFilterFound) <==> 0 <= id && |ll.filterChains[id].filters| == 0
    ensures var id := LastChainFor(ll.filterChains, hostname);
            r.Ok? ==> && 0 <= id
                      && |ll.filterChains[id].filters| > 0
                      && EncodeHCM(r.value) == ll.filterChains[id].filters[0].typedConfig
    ensures var id := LastChainFor(ll.filterChains, hostname);
            0 <= id && |ll.filterChains[id].filters| > 0 ==> r == GetManager(ll.filterChains[id].filters[0].typedConfig)
  {
    var filterId := GetFilterChainId(ll.filterChains, hostname);
    if filterId == -1 {
      return Err(NoFilterChainFound);
    }
    if |ll.filterChains[filterId].filters| == 0 {
      return Err(NoFilterFound);
    }
    r := GetManager(ll.filterChains[filterId].filters[0].typedConfig);
  }

  // ---------------------------------------------------------------------
  // HTTP filter lookup by name

  /** The index of the FIRST HTTP filter called `filterName`, or -1. */
  function FilterIndex(filterName: string, httpFilters: seq<HttpFilter>): (r: int)
    ensures -1 <= r < |httpFilters|
    ensures r == -1 <==> forall k :: 0 <= k < |httpFilters| ==> httpFilters[k].name != filterName
    ensures 0 <= r ==> httpFilters[r].name == filterName
    ensures 0 <= r ==> forall k :: 0 <= k < r ==> httpFilters[k].name != filterName
  {
    if |httpFilters| == 0 then -1
    else if httpFilters[0].name == filterName then 0
    else
      var rest := FilterIndex(filterName, httpFilters[1..]);
      if rest == -1 then -1 else rest + 1
  }

  /** Scan the HTTP filters and stop at the first one with the given name. */
  method GetListenerHTTPFilterIndex(filterName: string, httpFilter: seq<HttpFilter>) returns (pos: int)
    ensures pos == FilterIndex(filterName, httpFilter)
  {
    var k := 0;
    while k < |httpFilter|
      invariant 0 <= k <= |httpFilter|
      invariant forall j :: 0 <= j < k ==> httpFilter[j].name != filterName
    {
      if httpFilter[k].name == filterName {
        return k;
      }
      k := k + 1;
    }
    return -1;
  }

  const JwtAuthnFilterName: string := "envoy.filters.http.jwt_authn"
  const ExtAuthzFilterName: string := "envoy.ext_authz"

  /** The typed config of the JWT authentication filter, still encoded;
      HttpFilterMissing("jwt") when the filter list has no such filter. */
  method GetListenerHTTPFilterJwtAuth(httpFilter: seq<HttpFilter>) returns (r: Result<Option<Any>, Error>)
    ensures r.Err? <==> forall k :: 0 <= k < |httpFilter| ==> httpFilter[k].name != JwtAuthnFilterName
    ensures r.Err? ==> r.error == HttpFilterMissing("jwt")
    ensures r.Ok? ==> r.value == httpFilter[FilterIndex(JwtAuthnFilterName, httpFilter)].typedConfig
  {
    var pos := GetListenerHTTPFilterIndex(JwtAuthnFilterName, httpFilter);
    if pos == -1 {
      return Err(HttpFilterMissing("jwt"));
    }
    return Ok(httpFilter[pos].typedConfig);
  }

  /** The typed config of the external authorisation filter, still encoded;
      HttpFilterMissing("authz") when the filter list has no such filter. */
  method GetListenerHTTPFilterAuthz(httpFilter: seq<HttpFilter>) returns (r: Result<Option<Any>, Error>)
    ensures r.Err? <==> forall k :: 0 <= k < |httpFilter| ==> httpFilter[k].name != ExtAuthzFilterName
    ensures r.Err? ==> r.error == HttpFilterMissing("authz")
    ensures r.Ok? ==> r.value == httpFilter[FilterIndex(ExtAuthzFilterName, httpFilter)].typedConfig
  {
    var pos := GetListenerHTTPFilterIndex(ExtAuthzFilterName, httpFilter);
    if pos == -1 {
      return Err(HttpFilterMissing("authz"));
    }
    return Ok(httpFilter[pos].typedConfig);
  }

  // ---------------------------------------------------------------------
  // Attribute resolver (v3 naming)

  datatype MatchType = MatchPrefix | MatchPath | MatchRegex

  datatype AttributesV3 = AttributesV3(
    tls: bool,
    targetPrefix: string,
    virtualHostName: string,
    listenerName: string,
    listenerPort: nat,
    matchType: MatchType)

  /** Resolve the v3 names of an intent. The conditions are applied in the
      order prefix, path, regex, each overriding the one before; with none
      set the match is the prefix "/". */
  function GetListenerAttributes(params: ListenerParams, paramsTLS: TLSParams): (r: AttributesV3)
    ensures r.tls <==> paramsTLS.certBundle != ""
    ensures r.listenerName == (if r.tls then "l_tls" else "l_http")
    ensures r.listenerPort == (if r.tls then 10001 else 10000)
    ensures params.conditions.regex != "" ==>
              r.matchType == MatchRegex && r.targetPrefix == params.conditions.regex
    ensures params.conditions.regex == "" && params.conditions.path != "" ==>
              r.matchType == MatchPath && r.targetPrefix == params.conditions.path
    ensures params.conditions.regex == "" && params.conditions.path == "" ==>
              r.matchType == MatchPrefix
    ensures params.conditions.regex == "" && params.conditions.path == "" && params.conditions.prefix != "" ==>
              r.targetPrefix == params.conditions.prefix
    ensures params.conditions.regex == "" && params.conditions.path == "" && params.conditions.prefix == "" ==>
              r.targetPrefix == "/"
    ensures r.targetPrefix != ""
    ensures r.virtualHostName ==
              "v_" + (if params.conditions.hostname == "" then "nodomain" else params.conditions.hostname)
                   + (if r.tls then "_tls" else "")
  {
    var c := params.conditions;
    var tls := paramsTLS.certBundle != "";
    var (m1, t1) := if c.prefix != "" then (Some(MatchPrefix), c.prefix) else (None, "");
    var (m2, t2) := if c.path != "" then (Some(MatchPath), c.path) else (m1, t1);
    var (m3, t3) := if c.regex != "" then (Some(MatchRegex), c.regex) else (m2, t2);
    var (m4, t4) := if c.prefix == "" && c.path == "" && c.regex == "" then (Some(MatchPrefix), "/") else (m3, t3);
    var virtualHostName := if c.hostname == "" then "v_nodomain" else "v_" + c.hostname;
    if tls then AttributesV3(true, t4, virtualHostName + "_tls", "l_tls", 10001, m4.value)
    else AttributesV3(false, t4, virtualHostName, "l_http", 10000, m4.value)
  }

  // ---------------------------------------------------------------------
  // Inserting or updating an HTTP filter

  /** The filter list after setting `filterName`'s config: when no filter
      has that name a new one is put in front, otherwise the first filter
      with that name gets the new config. */
  function WithFilterConfig(httpFilters: seq<HttpFilter>, filterName: string, filterConfig: Any): (r: seq<HttpFilter>)
    ensures |r| == |httpFilters| + (if FilterIndex(filterName, httpFilters) == -1 then 1 else 0)
    ensures FilterIndex(filterName, r) >= 0
    ensures r[FilterIndex(filterName, r)] == HttpFilter(filterName, Some(filterConfig))
  {
    var pos := FilterIndex(filterName, httpFilters);
    if pos == -1 then [HttpFilter(filterName, Some(filterConfig))] + httpFilters
    else
      var r := httpFilters[pos := httpFilters[pos].(typedConfig := Some(filterConfig))];
      FilterIndexAt(filterName, r, pos);
      r
  }

  /** A filter with the name that no earlier filter has is the one FilterIndex finds. */
  lemma FilterIndexAt(filterName: string, httpFilters: seq<HttpFilter>, pos: nat)
    requires pos < |httpFilters| && httpFilters[pos].name == filterName
    requires forall k :: 0 <= k < pos ==> httpFilters[k].name != filterName
    ensures FilterIndex(filterName, httpFilters) == pos
  {
  }

  /** A filter list reached through a pointer, which the update edits in place. */
  class HttpFilterList {
    var filters: seq<HttpFilter>

    constructor (filters: seq<HttpFilter>)
      ensures this.filters == filters
    {
      this.filters := filters;
    }
  }

  method UpdateHTTPFilterWithConfig(httpFilter: HttpFilterList, filterName: string, filterConfig: Any)
    modifies httpFilter
    ensures httpFilter.filters == WithFilterConfig(old(httpFilter.filters), filterName, filterConfig)
  {
    var httpFilterPos := GetListenerHTTPFilterIndex(filterName, httpFilter.filters);
    if httpFilterPos == -1 {
      httpFilter.filters := [HttpFilter(filterName, Some(filterConfig))] + httpFilter.filters;
    } else {
      httpFilter.filters := httpFilter.filters[httpFilterPos := httpFilter.filters[httpFilterPos].(typedConfig := Some(filterConfig))];
    }
  }

  /** A missing filter is prepended: the list grows by one, the new filter
      is first and the old ones follow in order. */
  lemma WithFilterConfigPrepends(httpFilters: seq<HttpFilter>, filterName: string, filterConfig: Any)
    requires forall k :: 0 <= k < |httpFilters| ==> httpFilters[k].name != filterName
    ensures var r := WithFilterConfig(httpFilters, filterName, filterConfig);
            && |r| == |httpFilters| + 1
            && r[0] == HttpFilter(filterName, Some(filterConfig))
            && r[1..] == httpFilters
  {
  }

  /** A present filter is updated in place: the length is unchanged, the
      first filter with that name gets the config, and every other filter
      is untouched. */
  lemma WithFilterConfigReplaces(httpFilters: seq<HttpFilter>, filterName: string, filterConfig: Any, pos: nat)
    requires pos < |httpFilters| && httpFilters[pos].name == filterName
    requires forall k :: 0 <= k < pos ==> httpFilters[k].name != filterName
    ensures var r := WithFilterConfig(httpFilters, filterName, filterConfig);
            && |r| == |httpFilters|
            && r[pos] == httpFilters[pos].(typedConfig := Some(filterConfig))
            && forall k :: 0 <= k < |httpFilters| && k != pos ==> r[k] == httpFilters[k]
  {
  }

  /** Setting the same filter config twice is the same as setting it once. */
  lemma WithFilterConfigIdempotent(httpFilters: seq<HttpFilter>, filterName: string, filterConfig: Any)
    ensures var once := WithFilterConfig(httpFilters, filterName, filterConfig);
            WithFilterConfig(once, filterName, filterConfig) == once
  {
    var once := WithFilterConfig(httpFilters, filterName, filterConfig);
    var pos := FilterIndex(filterName, httpFilters);
    if pos == -1 {
      assert once[0].name == filterName;
      assert FilterIndex(filterName, once) == 0;
    } else {
      assert forall k :: 0 <= k < |once| ==> once[k].name == httpFilters[k].name;
      assert FilterIndex(filterName, once) == pos;
    }
  }

  // ---------------------------------------------------------------------
  // Structural equality helpers

  /** The getters of a route match: the default value when the oneof holds
      another variant. */
  function GetPrefix(m: RouteMatch): string
  {
    if m.pathSpecifier.Prefix? then m.pathSpecifier.prefix else ""
  }

  function GetPath(m: RouteMatch): string
  {
    if m.pathSpecifier.Path? then m.pathSpecifier.path else ""
  }

  function GetSafeRegex(m: RouteMatch): Option<RegexMatcher>
  {
    if m.pathSpecifier.SafeRegex? then m.pathSpecifier.safeRegex else None
  }

  /** The getters of a header matcher, likewise. */
  function GetExactMatch(h: HeaderMatcher): string
  {
    if h.specifier.ExactMatch? then h.specifier.exact else ""
  }

  function GetPrefixMatch(h: HeaderMatcher): string
  {
    if h.specifier.PrefixMatch? then h.specifier.prefixMatch else ""
  }

  function GetSuffixMatch(h: HeaderMatcher): string
  {
    if h.specifier.SuffixMatch? then h.specifier.suffixMatch else ""
  }

  function GetPresentMatch(h: HeaderMatcher): bool
  {
    h.specifier.PresentMatch? && h.specifier.present
  }

  function GetRangeMatch(h: HeaderMatcher): Option<Int64Range>
  {
    if h.specifier.RangeMatch? then h.specifier.range else None
  }

  function GetSafeRegexMatch(h: HeaderMatcher): Option<RegexMatcher>
  {
    if h.specifier.SafeRegexMatch? then h.specifier.safeRegex else None
  }

  /** The regex of a possibly nil matcher ("" for nil). */
  function GetRegex(m: Option<RegexMatcher>): string
  {
    if m.Some? then m.value.regex else ""
  }

  /** Go's `==` on two pointers: both nil, or the same object. */
  predicate SameRange(x: Option<Int64Range>, y: Option<Int64Range>)
  {
    (x.None? && y.None?) || (x.Some? && y.Some? && x.value.addr == y.value.addr)
  }

  predicate SameRegexMatcher(x: Option<RegexMatcher>, y: Option<RegexMatcher>)
  {
    (x.None? && y.None?) || (x.Some? && y.Some? && x.value.addr == y.value.addr)
  }

  /** Field-by-field comparison of two header matchers, through the getters;
      the range matcher and the safe-regex matcher are compared as pointers.
      Two header matchers are equal exactly when their names and invert
      flags agree and their specifiers agree once default values count as
      unset and range matchers are compared by identity. */
  predicate HeaderMatchEqual(a: HeaderMatcher, b: HeaderMatcher): (r: bool)
    ensures r <==> a.name == b.name && a.invertMatch == b.invertMatch && Observable(a.specifier) == Observable(b.specifier)
  {
    && a.name == b.name
    && GetExactMatch(a) == GetExactMatch(b)
    && a.invertMatch == b.invertMatch
    && GetPrefixMatch(a) == GetPrefixMatch(b)
    && SameRange(GetRangeMatch(a), GetRangeMatch(b))
    && GetRegex(GetSafeRegexMatch(a)) == GetRegex(GetSafeRegexMatch(b))
    && GetPresentMatch(a) == GetPresentMatch(b)
    && SameRegexMatcher(GetSafeRegexMatch(a), GetSafeRegexMatch(b))
    && GetSuffixMatch(a) == GetSuffixMatch(b)
  }

  /** A specifier with default values read as unset, and a range matcher
      kept only by its identity: what HeaderMatchEqual can observe. */
  function Observable(s: HeaderMatchSpecifier): HeaderMatchSpecifier
  {
    match s
    case NoHeaderSpecifier => NoHeaderSpecifier
    case ExactMatch(v) => if v == "" then NoHeaderSpecifier else s
    case PrefixMatch(v) => if v == "" then NoHeaderSpecifier else s
    case SuffixMatch(v) => if v == "" then NoHeaderSpecifier else s
    case PresentMatch(v) => if v then s else NoHeaderSpecifier
    case RangeMatch(rg) => if rg.None? then NoHeaderSpecifier else RangeMatch(Some(Int64Range(rg.value.addr, 0, 0)))
    case SafeRegexMatch(m) => if m.None? then NoHeaderSpecifier else s
  }

  /** Header matcher equality is an equivalence relation. */
  lemma HeaderMatchEqualIsEquivalence(a: HeaderMatcher, b: HeaderMatcher, c: HeaderMatcher)
    ensures HeaderMatchEqual(a, a)
    ensures HeaderMatchEqual(a, b) ==> HeaderMatchEqual(b, a)
    ensures HeaderMatchEqual(a, b) && HeaderMatchEqual(b, c) ==> HeaderMatchEqual(a, c)
  {
  }

  /** Two separately allocated regex matchers with the same regex make two
      otherwise identical header matchers unequal. */
  lemma HeaderMatchComparesRegexByIdentity(name: string, regex: string, p: nat, q: nat)
    requires p != q
    ensures !HeaderMatchEqual(HeaderMatcher(name, SafeRegexMatch(Some(RegexMatcher(p, regex))), false),
                              HeaderMatcher(name, SafeRegexMatch(Some(RegexMatcher(q, regex))), false))
  {
  }

  /** Two regex matchers are equal when both are nil, or both are set with
      the same regex. */
  function RegexMatchEqual(a: Option<RegexMatcher>, b: Option<RegexMatcher>): (r: bool)
    ensures r <==> (a.None? && b.None?) || (a.Some? && b.Some? && a.value.regex == b.value.regex)
  {
    if a.Some? && (b.None? || a.value.regex != b.value.regex) then false
    else if b.Some? && (a.None? || a.value.regex != b.value.regex) then false
    else true
  }

  /** Regex matcher equality does not depend on the order of its arguments. */
  lemma RegexMatchEqualSymmetric(a: Option<RegexMatcher>, b: Option<RegexMatcher>)
    ensures RegexMatchEqual(a, b) == RegexMatchEqual(b, a)
  {
  }

  /** Some header of `headers` is equal to `h`. */
  ghost predicate HasPartner(h: HeaderMatcher, headers: seq<HeaderMatcher>)
  {
    exists j :: 0 <= j < |headers| && HeaderMatchEqual(h, headers[j])
  }

  /** Every header of `aHeaders` has an equal header in `bHeaders` (a subset test, in
      one direction only). */
  ghost predicate HeadersCovered(aHeaders: seq<HeaderMatcher>, bHeaders: seq<HeaderMatcher>)
  {
    forall i :: 0 <= i < |aHeaders| ==> HasPartner(aHeaders[i], bHeaders)
  }

  /** What routeMatchEqual decides: same prefix, same path, equal safe
      regexes, and every header of `a` matched by one of `b`. */
  ghost predicate RouteMatchesAgree(a: RouteMatch, b: RouteMatch)
  {
    && GetPrefix(a) == GetPrefix(b)
    && GetPath(a) == GetPath(b)
    && RegexMatchEqual(GetSafeRegex(a), GetSafeRegex(b))
    && HeadersCovered(a.headers, b.headers)
  }

  method RouteMatchEqual(a: RouteMatch, b: RouteMatch) returns (eq: bool)
    ensures eq == RouteMatchesAgree(a, b)
  {
    if GetPrefix(a) != GetPrefix(b) {
      return false;
    }
    if GetPath(a) != GetPath(b) {
      return false;
    }
    if !RegexMatchEqual(GetSafeRegex(a), GetSafeRegex(b)) {
      return false;
    }
    var i := 0;
    while i < |a.headers|
      invariant 0 <= i <= |a.headers|
      invariant forall k :: 0 <= k < i ==> HasPartner(a.headers[k], b.headers)
    {
      var isMatch := false;
      var j := 0;
      while j < |b.headers|
        invariant 0 <= j <= |b.headers|
        invariant isMatch <==> exists m :: 0 <= m < j && HeaderMatchEqual(a.headers[i], b.headers[m])
      {
        if HeaderMatchEqual(a.headers[i], b.headers[j]) {
          isMatch := true;
        }
        j := j + 1;
      }
      if !isMatch {
        assert !HasPartner(a.headers[i], b.headers);
        return false;
      }
      i := i + 1;
    }
    return true;
  }

  /** Every route match agrees with itself. */
  lemma RouteMatchesAgreeReflexive(a: RouteMatch)
    ensures RouteMatchesAgree(a, a)
  {
    forall i | 0 <= i < |a.headers|
      ensures HasPartner(a.headers[i], a.headers)
    {
      assert HeaderMatchEqual(a.headers[i], a.headers[i]);
    }
  }

  /** Agreement is transitive, so routeMatchEqual is a preorder. */
  lemma RouteMatchesAgreeTransitive(a: RouteMatch, b: RouteMatch, c: RouteMatch)
    requires RouteMatchesAgree(a, b) && RouteMatchesAgree(b, c)
    ensures RouteMatchesAgree(a, c)
  {
    forall i | 0 <= i < |a.headers|
      ensures HasPartner(a.headers[i], c.headers)
    {
      var j :| 0 <= j < |b.headers| && HeaderMatchEqual(a.headers[i], b.headers[j]);
      var m :| 0 <= m < |c.headers| && HeaderMatchEqual(b.headers[j], c.headers[m]);
      HeaderMatchEqualIsEquivalence(a.headers[i], b.headers[j], c.headers[m]);
    }
  }

  /** ... but not an equivalence: a match without headers agrees with one
      that has a header, not the other way round. */
  lemma RouteMatchesAgreeIsOneWay(prefix: string, h: HeaderMatcher)
    ensures RouteMatchesAgree(RouteMatch(Prefix(prefix), []), RouteMatch(Prefix(prefix), [h]))
    ensures !RouteMatchesAgree(RouteMatch(Prefix(prefix), [h]), RouteMatch(Prefix(prefix), []))
  {
    assert [h][0] == h && !HasPartner(h, []);
    assert !HeadersCovered([h], []);
  }

  /** The headers agree pairwise, by name and specifier, below index `k`. */
  ghost predicate PairwiseAgreeBefore(aHeaders: seq<HeaderMatcher>, bHeaders: seq<HeaderMatcher>, k: int)
  {
    forall j :: 0 <= j < k && j < |aHeaders| && j < |bHeaders| ==> aHeaders[j].name == bHeaders[j].name && aHeaders[j].specifier == bHeaders[j].specifier
  }

  /** cmpMatch casts each header it reaches to an exact-value matcher: the
      k-th pair is reached when the pairs before it agree and its names do. */
  ghost predicate ExactCastsSucceed(aHeaders: seq<HeaderMatcher>, bHeaders: seq<HeaderMatcher>)
  {
    forall k :: 0 <= k < |aHeaders| && k < |bHeaders| && PairwiseAgreeBefore(aHeaders, bHeaders, k) && aHeaders[k].name == bHeaders[k].name ==>
      aHeaders[k].specifier.ExactMatch? && bHeaders[k].specifier.ExactMatch?
  }

  /** routeMatchEqual plus, index by index, equal header names and equal
      exact values (and hence equal header counts). */
  method CmpMatch(a: RouteMatch, b: RouteMatch) returns (eq: bool)
    requires GetPath(a) == GetPath(b) && GetPrefix(a) == GetPrefix(b) && |a.headers| == |b.headers| ==>
               ExactCastsSucceed(a.headers, b.headers)
    ensures eq <==>
              && GetPath(a) == GetPath(b)
              && GetPrefix(a) == GetPrefix(b)
              && |a.headers| == |b.headers|
              && PairwiseAgreeBefore(a.headers, b.headers, |a.headers|)
              && RouteMatchesAgree(a, b)
  {
    if GetPath(a) != GetPath(b) {
      return false;
    }
    if GetPrefix(a) != GetPrefix(b) {
      return false;
    }
    var aHeaders, bHeaders := a.headers, b.headers;
    if |aHeaders| != |bHeaders| {
      return false;
    }
    var k := 0;
    while k < |aHeaders|
      invariant 0 <= k <= |aHeaders|
      invariant PairwiseAgreeBefore(aHeaders, bHeaders, k)
    {
      var aa, bb := aHeaders[k], bHeaders[k];
      if aa.name != bb.name {
        return false;
      }
      if aa.specifier.exact != bb.specifier.exact {
        return false;
      }
      k := k + 1;
    }
    eq := RouteMatchEqual(a, b);
  }

  datatype ActionKind = ForwardKind | DirectResponseKind | RedirectKind

  /** The dynamic type of a route's action. */
  function KindOf(action: Action): ActionKind
  {
    match action
    case Forward(_) => ForwardKind
    case DirectResponse(_) => DirectResponseKind
    case Redirect(_) => RedirectKind
  }

  /** Actions of different kinds are unequal; two forwarding actions are
      compared by cluster name only, two direct responses by status only,
      and any other kind is never equal. */
  function RouteActionEqual(a: Route, b: Route): (r: bool)
    requires a.action.Forward? && b.action.Forward? ==>
               a.action.route.clusterSpecifier.Cluster? && b.action.route.clusterSpecifier.Cluster?
    ensures r <==>
              || (a.action.Forward? && b.action.Forward? &&
                  a.action.route.clusterSpecifier.cluster == b.action.route.clusterSpecifier.cluster)
              || (a.action.DirectResponse? && b.action.DirectResponse? &&
                  a.action.directResponse.status == b.action.directResponse.status)
  {
    if KindOf(a.action) != KindOf(b.action) then false
    else match a.action
      case Forward(route) => route.clusterSpecifier.cluster == b.action.route.clusterSpecifier.cluster
      case DirectResponse(response) => response.status == b.action.directResponse.status
      case Redirect(_) => false
  }
}
