/** The Envoy resources the listener engine reads and writes (listeners,
    filter chains, the HTTP connection manager, route configurations,
    virtual hosts, routes, matchers and TLS contexts), as one value model
    for both the v2 and the v3 API: the two differ only in package names
    and in the places noted below. Go pointers that may be nil become
    `Option`s; Go `oneof` fields become datatypes with one constructor per
    variant. */
module Resources {
  import opened Wrappers

  datatype Protocol = TCP | UDP

  datatype SocketAddress = SocketAddress(protocol: Protocol, address: string, portValue: nat)

  /** A data source; the engine only ever writes inline strings. */
  datatype DataSource = InlineString(inlineString: string) | Filename(filename: string)

  datatype TlsCertificate = TlsCertificate(certificateChain: DataSource, privateKey: DataSource)

  /** DownstreamTlsContext with its CommonTlsContext flattened into it. */
  datatype DownstreamTlsContext = DownstreamTlsContext(tlsCertificates: seq<TlsCertificate>)

  /** A regex matcher reached through a pointer; `addr` stands for the
      pointer's identity, which the source compares in one place. */
  datatype RegexMatcher = RegexMatcher(addr: nat, regex: string)

  /** An int64 range reached through a pointer (`addr` as above). */
  datatype Int64Range = Int64Range(addr: nat, start: int, end: int)

  /** The `oneof` of a header matcher; `NoHeaderSpecifier` is the unset oneof. */
  datatype HeaderMatchSpecifier =
    | NoHeaderSpecifier
    | ExactMatch(exact: string)
    | SafeRegexMatch(safeRegex: Option<RegexMatcher>)
    | RangeMatch(range: Option<Int64Range>)
    | PresentMatch(present: bool)
    | PrefixMatch(prefixMatch: string)
    | SuffixMatch(suffixMatch: string)

  datatype HeaderMatcher = HeaderMatcher(name: string, specifier: HeaderMatchSpecifier, invertMatch: bool)

  /** The `oneof` path specifier of a route match; `NoPathSpecifier` is the unset oneof. */
  datatype PathSpecifier =
    | NoPathSpecifier
    | Prefix(prefix: string)
    | Path(path: string)
    | SafeRegex(safeRegex: Option<RegexMatcher>)

  datatype RouteMatch = RouteMatch(pathSpecifier: PathSpecifier, headers: seq<HeaderMatcher>)

  datatype ClusterSpecifier = Cluster(cluster: string) | ClusterHeader(clusterHeader: string) | WeightedClusters

  datatype RouteAction = RouteAction(clusterSpecifier: ClusterSpecifier, hostRewrite: string)

  datatype DirectResponseAction = DirectResponseAction(status: nat, body: Option<DataSource>)

  /** The `oneof` action of a route (Route_Route, Route_DirectResponse, Route_Redirect). */
  datatype Action =
    | Forward(route: RouteAction)
    | DirectResponse(directResponse: DirectResponseAction)
    | Redirect(pathRedirect: string)

  datatype Route = Route(routeMatch: RouteMatch, action: Action)

  datatype VirtualHost = VirtualHost(name: string, domains: seq<string>, routes: seq<Route>)

  datatype RouteConfiguration = RouteConfiguration(name: string, virtualHosts: seq<VirtualHost>)

  datatype CodecType = AUTO | HTTP1 | HTTP2

  /** An HTTP filter of the connection manager, with its typed config (nil for the router). */
  datatype HttpFilter = HttpFilter(name: string, typedConfig: Option<Any>)

  /** The HTTP connection manager; its route specifier is always an inline
      route configuration in this model. */
  datatype HttpConnectionManager = HttpConnectionManager(
    codecType: CodecType,
    statPrefix: string,
    routeConfig: RouteConfiguration,
    httpFilters: seq<HttpFilter>)

  /** What the serialised bytes of an `Any` envelope hold: a connection
      manager, or some other message kept as raw bytes. */
  datatype Message = HcmMessage(hcm: HttpConnectionManager) | Opaque(bytes: seq<bv8>)

  /** The protobuf `Any` envelope: a type URL and the serialised message. */
  datatype Any = Any(typeUrl: string, value: Message)

  /** A network filter; its config is always the typed-config variant. */
  datatype Filter = Filter(name: string, typedConfig: Any)

  datatype FilterChainMatch = FilterChainMatch(serverNames: seq<string>)

  /** A filter chain. `tlsContext` is the v2 field; the v3 transport socket
      is not part of this model. */
  datatype FilterChain = FilterChain(
    filterChainMatch: FilterChainMatch,
    filters: seq<Filter>,
    tlsContext: Option<DownstreamTlsContext>)

  datatype Listener = Listener(name: string, address: SocketAddress, filterChains: seq<FilterChain>)

  /** Why an `Any` did not decode. */
  datatype DecodeError = TypeUrlMismatch(typeUrl: string) | MalformedPayload

  /** The errors the engine returns; each stands for one `fmt.Errorf` (or
      a propagated codec error) of the source. */
  datatype Error =
    | NoMatchingListener
    | NoTlsListener
    | NoFilterChains(listenerName: string)
    | NoFilters(listenerName: string)
    | NoVirtualHosts
    | NoFilterChainFound
    | NoFilterFound
    | HttpFilterMissing(filter: string)
    | DecodeFailed(reason: DecodeError)
}
