/** The v2 listener engine: resolving an intent's canonical names, building
    a listener for it, and the three in-place edits of the cache — adding a
    virtual host, rotating a certificate and injecting an ACME HTTP-01
    challenge route (section 8.3 of RFC 8555). */
module EnvoyListener {
  import opened Wrappers
  import opened Resources
  import opened Codec
  import opened Types
  import ListenerUtils

  /** The well-known names of the router HTTP filter and of the connection
      manager network filter. */
  const Router: string := "envoy.router"
  const HTTPConnectionManager: string := "envoy.http_connection_manager"

  const PlainPort: nat := 10000
  const TlsPort: nat := 10001

  /** Where an HTTP-01 challenge response is served. */
  const AcmeChallengePath: string := "/.well-known/acme-challenge/"

  // ---------------------------------------------------------------------
  // Attribute resolver

  datatype Attributes = Attributes(
    tls: bool,
    targetPrefix: string,
    virtualHostName: string,
    routeConfigName: string,
    listenerName: string,
    listenerPort: nat)

  /** The part of a name that stands for the hostname condition. */
  function HostLabel(hostname: string): string
  {
    if hostname == "" then "wildcard" else hostname
  }

  function TlsSuffix(tls: bool): string
  {
    if tls then "_tls" else ""
  }

  /** The name of the TLS listener of an intent called `name`. */
  function TlsListenerName(name: string): string
  {
    "l_" + name + "_tls"
  }

  /** The name of the plaintext listener of an intent called `name`; the
      challenge injector looks for this name. */
  function PlainListenerName(name: string): string
  {
    "l_" + name
  }

  /** The virtual-host name the challenge injector looks for. */
  function ChallengeSelector(name: string): string
  {
    name + "_service"
  }

  /** Resolve the canonical names, port and TLS mode of an intent. TLS is
      on exactly when a certificate bundle is given; the target prefix is
      "/" for an empty or "/" prefix and the prefix itself otherwise; the
      virtual-host and route-config names carry the hostname (or
      "wildcard") and, in TLS mode, "_tls". A resolved virtual-host name
      is always longer than the challenge selector of the same intent. */
  function GetListenerAttributes(params: ListenerParams, paramsTLS: TLSParams): (r: Attributes)
    ensures r.tls <==> paramsTLS.certBundle != ""
    ensures r.listenerPort == (if r.tls then TlsPort else PlainPort)
    ensures r.listenerName == "l_" + params.name + TlsSuffix(r.tls)
    ensures r.targetPrefix == "/" <==> params.conditions.prefix == "" || params.conditions.prefix == "/"
    ensures r.targetPrefix != "/" ==> r.targetPrefix == params.conditions.prefix
    ensures r.targetPrefix != ""
    ensures r.virtualHostName == params.name + "_service" + "_" + HostLabel(params.conditions.hostname) + TlsSuffix(r.tls)
    ensures r.routeConfigName == params.name + "_route" + "_" + HostLabel(params.conditions.hostname) + TlsSuffix(r.tls)
    ensures |r.virtualHostName| > |ChallengeSelector(params.name)|
    ensures r.virtualHostName != ChallengeSelector(params.name)
  {
    var name := params.name;
    var tls := paramsTLS.certBundle != "";
    var prefix := params.conditions.prefix;
    var targetPrefix := if prefix != "" && prefix != "/" then prefix else "/";
    var hostLabel := if params.conditions.hostname == "" then "wildcard" else params.conditions.hostname;
    var virtualHostName := name + "_service" + "_" + hostLabel;
    var routeConfigName := name + "_route" + "_" + hostLabel;
    if tls then
      Attributes(true, targetPrefix, virtualHostName + "_tls", routeConfigName + "_tls", TlsListenerName(name), TlsPort)
    else
      Attributes(false, targetPrefix, virtualHostName, routeConfigName, PlainListenerName(name), PlainPort)
  }

  /** Two intents with different names and the same TLS mode resolve to
      different listeners, so updateListener never adds a virtual host of
      one of them to the listener of the other. */
  lemma ListenerNamesSeparateIntents(p1: ListenerParams, t1: TLSParams, p2: ListenerParams, t2: TLSParams)
    requires p1.name != p2.name
    requires (t1.certBundle != "") == (t2.certBundle != "")
    ensures GetListenerAttributes(p1, t1).listenerName != GetListenerAttributes(p2, t2).listenerName
  {
    var a1, a2 := GetListenerAttributes(p1, t1), GetListenerAttributes(p2, t2);
    var suffix := TlsSuffix(a1.tls);
    assert a2.tls == a1.tls;
    if a1.listenerName == a2.listenerName {
      ConcatCancel("l_", p1.name, p2.name, suffix);
      assert false;
    }
  }

  /** A string between a fixed prefix and a fixed suffix is determined by the whole. */
  lemma ConcatCancel(prefix: string, x: string, y: string, suffix: string)
    requires prefix + x + suffix == prefix + y + suffix
    ensures x == y
  {
    var whole := prefix + x + suffix;
    assert |x| == |y|;
    assert whole[|prefix|..|prefix| + |x|] == x;
    assert (prefix + y + suffix)[|prefix|..|prefix| + |y|] == y;
  }

  // ---------------------------------------------------------------------
  // Building a listener

  /** A virtual host with the hostname as its only domain (verbatim, even
      when empty) and one route sending the prefix to the cluster. */
  function GetVirtualHost(hostname: string, targetHostname: string, targetPrefix: string,
                          clusterName: string, virtualHostName: string): (r: VirtualHost)
    ensures r.name == virtualHostName && r.domains == [hostname]
    ensures |r.routes| == 1
    ensures r.routes[0].routeMatch == RouteMatch(Prefix(targetPrefix), [])
    ensures r.routes[0].action.Forward?
    ensures r.routes[0].action.route.clusterSpecifier == Cluster(clusterName)
    ensures r.routes[0].action.route.hostRewrite == targetHostname
  {
    VirtualHost(
      virtualHostName,
      [hostname],
      [Route(RouteMatch(Prefix(targetPrefix), []), Forward(RouteAction(Cluster(clusterName), targetHostname)))])
  }

  /** The virtual host both createListener and updateListener build for an intent. */
  function IntentVirtualHost(params: ListenerParams, paramsTLS: TLSParams): VirtualHost
  {
    var a := GetListenerAttributes(params, paramsTLS);
    GetVirtualHost(params.conditions.hostname, params.targetHostname, a.targetPrefix, params.name, a.virtualHostName)
  }

  /** A TLS context with one certificate given inline. */
  function TlsContextFor(certBundle: string, privateKey: string): DownstreamTlsContext
  {
    DownstreamTlsContext([TlsCertificate(InlineString(certBundle), InlineString(privateKey))])
  }

  /** The connection manager carried by a listener's first filter, when it decodes. */
  function ManagerOf(ll: Listener): Option<HttpConnectionManager>
  {
    if |ll.filterChains| > 0 && |ll.filterChains[0].filters| > 0 then
      match DecodeHCM(ll.filterChains[0].filters[0].typedConfig)
      case Ok(manager) => Some(manager)
      case Err(_) => None
    else None
  }

  /** The shape every listener the engine builds has: one chain, one
      connection-manager filter whose config decodes, at least one virtual host. */
  ghost predicate WellFormed(ll: Listener)
  {
    && |ll.filterChains| == 1
    && |ll.filterChains[0].filters| == 1
    && ll.filterChains[0].filters[0].name == HTTPConnectionManager
    && ManagerOf(ll).Some?
    && |ManagerOf(ll).value.routeConfig.virtualHosts| >= 1
  }

  /** A listener on the TLS port has a TLS context, and one on any other port has none. */
  ghost predicate TlsConsistent(ll: Listener)
  {
    |ll.filterChains| > 0 ==> (ll.filterChains[0].tlsContext.Some? <==> ll.address.portValue == TlsPort)
  }

  /** Build the listener of an intent; it is well-formed and TLS-consistent. */
  function CreateListener(params: ListenerParams, paramsTLS: TLSParams): (l: Listener)
    ensures WellFormed(l) && TlsConsistent(l)
  {
    var a := GetListenerAttributes(params, paramsTLS);
    var v := IntentVirtualHost(params, paramsTLS);
    var manager := HttpConnectionManager(AUTO, "ingress_http", RouteConfiguration(a.routeConfigName, [v]), [HttpFilter(Router, None)]);
    var filter := Filter(HTTPConnectionManager, EncodeHCM(manager));
    var tlsContext := if a.tls then Some(TlsContextFor(paramsTLS.certBundle, paramsTLS.privateKey)) else None;
    Listener(a.listenerName, SocketAddress(TCP, "0.0.0.0", a.listenerPort), [FilterChain(FilterChainMatch([]), [filter], tlsContext)])
  }

  /** The created listener has the resolved name, listens on 0.0.0.0 over
      TCP on the resolved port, has one chain with one connection-manager
      filter, and has an inline TLS context exactly in TLS mode. */
  lemma CreateListenerShape(params: ListenerParams, paramsTLS: TLSParams)
    ensures var l := CreateListener(params, paramsTLS);
            var a := GetListenerAttributes(params, paramsTLS);
            && l.name == a.listenerName
            && l.address == SocketAddress(TCP, "0.0.0.0", a.listenerPort)
            && |l.filterChains| == 1
            && |l.filterChains[0].filters| == 1
            && l.filterChains[0].filters[0].name == HTTPConnectionManager
            && (l.filterChains[0].tlsContext.Some? <==> paramsTLS.certBundle != "")
            && (paramsTLS.certBundle != "" ==>
                  l.filterChains[0].tlsContext == Some(TlsContextFor(paramsTLS.certBundle, paramsTLS.privateKey)))
  {
  }

  /** The created listener's connection manager routes the intent: one
      route configuration with the resolved name, one virtual host whose
      only domain is the hostname, and one prefix route to the intent's
      cluster rewriting the host; the router is the only HTTP filter. */
  lemma CreateListenerRoutes(params: ListenerParams, paramsTLS: TLSParams)
    ensures var l := CreateListener(params, paramsTLS);
            var a := GetListenerAttributes(params, paramsTLS);
            var m := ManagerOf(l).value;
            && m.codecType == AUTO
            && m.statPrefix == "ingress_http"
            && m.httpFilters == [HttpFilter(Router, None)]
            && m.routeConfig.name == a.routeConfigName
            && |m.routeConfig.virtualHosts| == 1
            && m.routeConfig.virtualHosts[0].name == a.virtualHostName
            && m.routeConfig.virtualHosts[0].domains == [params.conditions.hostname]
            && |m.routeConfig.virtualHosts[0].routes| == 1
            && m.routeConfig.virtualHosts[0].routes[0].routeMatch == RouteMatch(Prefix(a.targetPrefix), [])
            && m.routeConfig.virtualHosts[0].routes[0].action ==
                 Forward(RouteAction(Cluster(params.name), params.targetHostname))
  {
  }

  // ---------------------------------------------------------------------
  // Read-modify-write of the connection manager

  /** The route configuration of a connection manager; an error when it has
      no virtual host. */
  function GetListenerRouteSpecifier(manager: HttpConnectionManager): (r: Result<RouteConfiguration, Error>)
    ensures r.Err? <==> |manager.routeConfig.virtualHosts| == 0
    ensures r.Err? ==> r.error == NoVirtualHosts
    ensures r.Ok? ==> r.value == manager.routeConfig
  {
    if |manager.routeConfig.virtualHosts| == 0 then Err(NoVirtualHosts) else Ok(manager.routeConfig)
  }

  /** Write a connection manager back, encoded, into the first filter of
      the first chain. Nothing else of the listener changes. */
  function WithManager(ll: Listener, manager: HttpConnectionManager): (r: Listener)
    requires |ll.filterChains| > 0 && |ll.filterChains[0].filters| > 0
    ensures r.name == ll.name && r.address == ll.address
    ensures |r.filterChains| == |ll.filterChains|
    ensures r.filterChains[1..] == ll.filterChains[1..]
    ensures r.filterChains[0].filterChainMatch == ll.filterChains[0].filterChainMatch
    ensures r.filterChains[0].tlsContext == ll.filterChains[0].tlsContext
    ensures |r.filterChains[0].filters| == |ll.filterChains[0].filters|
    ensures r.filterChains[0].filters[1..] == ll.filterChains[0].filters[1..]
    ensures r.filterChains[0].filters[0].name == ll.filterChains[0].filters[0].name
    ensures ManagerOf(r) == Some(manager)
  {
    var chain := ll.filterChains[0];
    var filter := chain.filters[0].(typedConfig := EncodeHCM(manager));
    ll.(filterChains := ll.filterChains[0 := chain.(filters := chain.filters[0 := filter])])
  }

  // ---------------------------------------------------------------------
  // updateListener

  /** The index of the LAST listener called `name`, or -1. */
  function LastListenerIndex(listeners: seq<Listener>, name: string): (r: int)
    ensures -1 <= r < |listeners|
    ensures r == -1 <==> forall i :: 0 <= i < |listeners| ==> listeners[i].name != name
    ensures 0 <= r ==> listeners[r].name == name
    ensures 0 <= r ==> forall i :: r < i < |listeners| ==> listeners[i].name != name
    decreases |listeners|
  {
    if |listeners| == 0 then -1
    else if listeners[|listeners| - 1].name == name then |listeners| - 1
    else LastListenerIndex(listeners[..|listeners| - 1], name)
  }

  /** What updateListener does to the listener it picked: decode its
      manager, append the virtual host, encode it back. */
  function AddVirtualHost(ll: Listener, v: VirtualHost): Result<Listener, Error>
  {
    match ListenerUtils.GetListenerHTTPConnectionManager(ll)
    case Err(e) => Err(e)
    case Ok(manager) =>
      match GetListenerRouteSpecifier(manager)
      case Err(e) => Err(e)
      case Ok(routeConfig) =>
        Ok(WithManager(ll, manager.(routeConfig := routeConfig.(virtualHosts := routeConfig.virtualHosts + [v]))))
  }

  /** Adding a virtual host fails exactly when the listener has no chain,
      its chain has no filter, the filter's config does not decode, or the
      route configuration has no virtual host. On success the decoded
      virtual hosts are the old ones followed by the new one, and the
      listener's name, address, TLS context and every other part of the
      manager are unchanged. */
  lemma AddVirtualHostEffect(ll: Listener, v: VirtualHost)
    ensures var r := AddVirtualHost(ll, v);
            r.Ok? <==> ManagerOf(ll).Some? && |ManagerOf(ll).value.routeConfig.virtualHosts| > 0
    ensures |ll.filterChains| == 0 ==> AddVirtualHost(ll, v) == Err(NoFilterChains(ll.name))
    ensures |ll.filterChains| > 0 && |ll.filterChains[0].filters| == 0 ==> AddVirtualHost(ll, v) == Err(NoFilters(ll.name))
    ensures ManagerOf(ll).Some? && |ManagerOf(ll).value.routeConfig.virtualHosts| == 0 ==>
              AddVirtualHost(ll, v) == Err(NoVirtualHosts)
    ensures var r := AddVirtualHost(ll, v);
            r.Ok? ==>
              var m := ManagerOf(ll).value;
              && r.value.name == ll.name
              && r.value.address == ll.address
              && r.value.filterChains[0].tlsContext == ll.filterChains[0].tlsContext
              && ManagerOf(r.value) == Some(m.(routeConfig := m.routeConfig.(virtualHosts := m.routeConfig.virtualHosts + [v])))
  {
  }

  /** On a well-formed listener adding a virtual host succeeds, keeps it
      well-formed and TLS-consistent, grows the virtual hosts by one and
      puts the new one last. */
  lemma AddVirtualHostPreservesWellFormed(ll: Listener, v: VirtualHost)
    requires WellFormed(ll)
    ensures AddVirtualHost(ll, v).Ok?
    ensures var r := AddVirtualHost(ll, v).value;
            && WellFormed(r)
            && (TlsConsistent(ll) ==> TlsConsistent(r))
            && |ManagerOf(r).value.routeConfig.virtualHosts| == |ManagerOf(ll).value.routeConfig.virtualHosts| + 1
            && ManagerOf(r).value.routeConfig.virtualHosts[|ManagerOf(ll).value.routeConfig.virtualHosts|] == v
  {
    AddVirtualHostEffect(ll, v);
  }

  ghost predicate CacheWellFormed(listeners: seq<Listener>)
  {
    forall i :: 0 <= i < |listeners| ==> WellFormed(listeners[i])
  }

  /** Append the intent's virtual host to the last listener with the
      resolved name. The error cases leave the cache as it was; success
      changes that one listener only; the version is never bumped. */
  method UpdateListener(cache: WorkQueueCache, params: ListenerParams, paramsTLS: TLSParams) returns (err: Option<Error>)
    modifies cache
    ensures cache.version == old(cache.version)
    ensures var key := LastListenerIndex(old(cache.listeners), GetListenerAttributes(params, paramsTLS).listenerName);
            key == -1 ==> err == Some(NoMatchingListener) && cache.listeners == old(cache.listeners)
    ensures var key := LastListenerIndex(old(cache.listeners), GetListenerAttributes(params, paramsTLS).listenerName);
            0 <= key ==>
              match AddVirtualHost(old(cache.listeners)[key], IntentVirtualHost(params, paramsTLS))
              case Err(e) => err == Some(e) && cache.listeners == old(cache.listeners)
              case Ok(updated) => err == None && cache.listeners == old(cache.listeners)[key := updated]
    ensures CacheWellFormed(old(cache.listeners)) ==> CacheWellFormed(cache.listeners)
  {
    var a := GetListenerAttributes(params, paramsTLS);
    var listenerName := a.listenerName;
    var listenerKey := -1;
    var k := 0;
    while k < |cache.listeners|
      invariant 0 <= k <= |cache.listeners|
      invariant listenerKey == LastListenerIndex(cache.listeners[..k], listenerName)
    {
      assert cache.listeners[..k + 1][..k] == cache.listeners[..k];
      if cache.listeners[k].name == listenerName {
        listenerKey := k;
      }
      k := k + 1;
    }
    assert cache.listeners[..k] == cache.listeners;
    if listenerKey == -1 {
      return Some(NoMatchingListener);
    }
    var ll := cache.listeners[listenerKey];
    var managerOrErr := ListenerUtils.GetListenerHTTPConnectionManager(ll);
    if managerOrErr.Err? {
      return Some(managerOrErr.error);
    }
    var manager := managerOrErr.value;
    var routeSpecifier := GetListenerRouteSpecifier(manager);
    if routeSpecifier.Err? {
      return Some(routeSpecifier.error);
    }
    var routeConfig := routeSpecifier.value;
    var v := IntentVirtualHost(params, paramsTLS);
    routeConfig := routeConfig.(virtualHosts := routeConfig.virtualHosts + [v]);
    manager := manager.(routeConfig := routeConfig);
    ghost var before := cache.listeners;
    cache.listeners := cache.listeners[listenerKey := WithManager(ll, manager)];
    if CacheWellFormed(before) {
      AddVirtualHostPreservesWellFormed(ll, v);
    }
    return None;
  }

  // ---------------------------------------------------------------------
  // updateListenerWithNewCert

  /** Put a TLS context on the first chain. Its filters, and so every
      route, are untouched. */
  function WithTlsContext(ll: Listener, tlsContext: DownstreamTlsContext): (r: Listener)
    requires |ll.filterChains| > 0
    ensures r.name == ll.name && r.address == ll.address
    ensures |r.filterChains| == |ll.filterChains|
    ensures r.filterChains[1..] == ll.filterChains[1..]
    ensures r.filterChains[0].filters == ll.filterChains[0].filters
    ensures r.filterChains[0].filterChainMatch == ll.filterChains[0].filterChainMatch
    ensures r.filterChains[0].tlsContext == Some(tlsContext)
  {
    ll.(filterChains := ll.filterChains[0 := ll.filterChains[0].(tlsContext := Some(tlsContext))])
  }

  /** The certificate rotation of one listener: the TLS listener of the
      intent gets the new context, every other listener stays as it is. */
  function RotateCert(ll: Listener, params: TLSParams): Listener
    requires ll.name == TlsListenerName(params.name) ==> |ll.filterChains| > 0
  {
    if ll.name == TlsListenerName(params.name) then WithTlsContext(ll, TlsContextFor(params.certBundle, params.privateKey))
    else ll
  }

  /** Rotating a certificate keeps a well-formed listener well-formed and
      leaves its connection manager, and so all its routes, as they were. */
  lemma RotateCertKeepsRoutes(ll: Listener, params: TLSParams)
    requires WellFormed(ll)
    ensures WellFormed(RotateCert(ll, params))
    ensures ManagerOf(RotateCert(ll, params)) == ManagerOf(ll)
  {
  }

  /** The plaintext listener of an intent called name + "_tls" has the
      name the rotation looks for, so rotating the certificate of `name`
      puts a TLS context on a listener of the plaintext port. */
  lemma RotateCertHitsPlaintextNamesake(name: string, params: ListenerParams, plain: TLSParams, cert: TLSParams)
    requires params.name == name + "_tls" && plain.certBundle == "" && cert.name == name
    ensures CreateListener(params, plain).name == TlsListenerName(name)
    ensures CreateListener(params, plain).address.portValue == PlainPort
    ensures !TlsConsistent(RotateCert(CreateListener(params, plain), cert))
  {
    assert "l_" + (name + "_tls") == "l_" + name + "_tls";
  }

  /** Give every listener named "l_<name>_tls" the new certificate and key.
      The error says no such listener exists; the version is never bumped. */
  method UpdateListenerWithNewCert(cache: WorkQueueCache, params: TLSParams) returns (err: Option<Error>)
    requires forall i :: 0 <= i < |cache.listeners| && cache.listeners[i].name == TlsListenerName(params.name) ==>
               |cache.listeners[i].filterChains| > 0
    modifies cache
    ensures cache.version == old(cache.version)
    ensures |cache.listeners| == |old(cache.listeners)|
    ensures forall i :: 0 <= i < |cache.listeners| ==> cache.listeners[i] == RotateCert(old(cache.listeners)[i], params)
    ensures err.None? <==> exists i :: 0 <= i < |old(cache.listeners)| && old(cache.listeners)[i].name == TlsListenerName(params.name)
    ensures err.Some? ==> err.value == NoTlsListener
  {
    var listenerFound := false;
    var listenerKey := 0;
    while listenerKey < |cache.listeners|
      invariant 0 <= listenerKey <= |cache.listeners|
      invariant |cache.listeners| == |old(cache.listeners)|
      invariant cache.version == old(cache.version)
      invariant forall i :: 0 <= i < listenerKey ==> cache.listeners[i] == RotateCert(old(cache.listeners)[i], params)
      invariant forall i :: listenerKey <= i < |cache.listeners| ==> cache.listeners[i] == old(cache.listeners)[i]
      invariant listenerFound <==>
                  exists i :: 0 <= i < listenerKey && old(cache.listeners)[i].name == TlsListenerName(params.name)
    {
      var ll := cache.listeners[listenerKey];
      if ll.name == TlsListenerName(params.name) {
        listenerFound := true;
        cache.listeners := cache.listeners[listenerKey := WithTlsContext(ll, TlsContextFor(params.certBundle, params.privateKey))];
      }
      listenerKey := listenerKey + 1;
    }
    if !listenerFound {
      return Some(NoTlsListener);
    }
    return None;
  }

  // ---------------------------------------------------------------------
  // updateListenerWithChallenge

  /** The route that answers the challenge: an exact path match on the
      token, answered directly with status 200 and the key authorisation. */
  function ChallengeRoute(challenge: ChallengeParams): Route
  {
    Route(
      RouteMatch(Path(AcmeChallengePath + challenge.token), []),
      DirectResponse(DirectResponseAction(200, Some(InlineString(challenge.body)))))
  }

  function ChallengeVirtualHost(vh: VirtualHost, selector: string, route: Route): VirtualHost
  {
    if vh.name == selector then vh.(routes := [route] + vh.routes) else vh
  }

  /** Every virtual host called exactly `selector` gets `route` in front of
      its routes; the others, and the order and names of all of them, stay. */
  function PrependChallenge(virtualHosts: seq<VirtualHost>, selector: string, route: Route): (r: seq<VirtualHost>)
    ensures |r| == |virtualHosts|
    ensures forall k :: 0 <= k < |r| ==> r[k].name == virtualHosts[k].name && r[k].domains == virtualHosts[k].domains
    ensures forall k :: 0 <= k < |r| && virtualHosts[k].name != selector ==> r[k] == virtualHosts[k]
    ensures forall k :: 0 <= k < |r| && virtualHosts[k].name == selector ==>
              && |r[k].routes| == |virtualHosts[k].routes| + 1
              && r[k].routes[0] == route
              && r[k].routes[1..] == virtualHosts[k].routes
  {
    seq(|virtualHosts|, k requires 0 <= k < |virtualHosts| => ChallengeVirtualHost(virtualHosts[k], selector, route))
  }

  /** What the challenge injection does to one matching listener. */
  function InjectChallenge(ll: Listener, challenge: ChallengeParams): Result<Listener, Error>
  {
    match ListenerUtils.GetListenerHTTPConnectionManager(ll)
    case Err(e) => Err(e)
    case Ok(manager) =>
      match GetListenerRouteSpecifier(manager)
      case Err(e) => Err(e)
      case Ok(routeConfig) =>
        var virtualHosts := PrependChallenge(routeConfig.virtualHosts, ChallengeSelector(challenge.name), ChallengeRoute(challenge));
        Ok(WithManager(ll, manager.(routeConfig := routeConfig.(virtualHosts := virtualHosts))))
  }

  /** What the challenge injection does to any listener of the cache. */
  function ChallengeStep(ll: Listener, challenge: ChallengeParams): Result<Listener, Error>
  {
    if ll.name == PlainListenerName(challenge.name) then InjectChallenge(ll, challenge) else Ok(ll)
  }

  /** Injection fails exactly when the manager cannot be read or has no
      virtual host. On success the selected virtual hosts start with the
      challenge route, everything else of the manager is unchanged, and
      the listener's name, address and TLS context are kept. */
  lemma InjectChallengeEffect(ll: Listener, challenge: ChallengeParams)
    ensures InjectChallenge(ll, challenge).Ok? <==>
              ManagerOf(ll).Some? && |ManagerOf(ll).value.routeConfig.virtualHosts| > 0
    ensures var r := InjectChallenge(ll, challenge);
            r.Ok? ==>
              var m := ManagerOf(ll).value;
              && r.value.name == ll.name
              && r.value.address == ll.address
              && r.value.filterChains[0].tlsContext == ll.filterChains[0].tlsContext
              && ManagerOf(r.value) == Some(m.(routeConfig := m.routeConfig.(virtualHosts :=
                   PrependChallenge(m.routeConfig.virtualHosts, ChallengeSelector(challenge.name), ChallengeRoute(challenge)))))
  {
  }

  /** On a well-formed listener injection succeeds and keeps it well-formed
      and TLS-consistent, with as many virtual hosts as before. */
  lemma ChallengeStepPreservesWellFormed(ll: Listener, challenge: ChallengeParams)
    requires WellFormed(ll)
    ensures ChallengeStep(ll, challenge).Ok?
    ensures var r := ChallengeStep(ll, challenge).value;
            && WellFormed(r)
            && (TlsConsistent(ll) ==> TlsConsistent(r))
            && |ManagerOf(r).value.routeConfig.virtualHosts| == |ManagerOf(ll).value.routeConfig.virtualHosts|
  {
    if ll.name == PlainListenerName(challenge.name) {
      InjectChallengeEffect(ll, challenge);
    }
  }

  /** A listener built by createListener never receives the challenge route
      of its own intent: its virtual host is named "<name>_service_..." and
      the injector looks for exactly "<name>_service". */
  lemma ChallengeMissesCreatedListener(params: ListenerParams, paramsTLS: TLSParams, challenge: ChallengeParams)
    requires challenge.name == params.name
    ensures var l := CreateListener(params, paramsTLS);
            ChallengeStep(l, challenge).Ok? && ManagerOf(ChallengeStep(l, challenge).value) == ManagerOf(l)
  {
    var l := CreateListener(params, paramsTLS);
    var m := ManagerOf(l).value;
    CreateListenerRoutes(params, paramsTLS);
    InjectChallengeEffect(l, challenge);
    var vhs := m.routeConfig.virtualHosts;
    var prepended := PrependChallenge(vhs, ChallengeSelector(challenge.name), ChallengeRoute(challenge));
    assert prepended[0] == vhs[0];
    assert prepended == vhs;
  }

  /** Prepend the challenge route to every "<name>_service" virtual host of
      every listener named "l_<name>". An error from a listener stops the
      scan: the listeners before it are already updated, it and the rest
      are not. No matching listener is not an error; the version is never
      bumped. */
  method UpdateListenerWithChallenge(cache: WorkQueueCache, challenge: ChallengeParams) returns (err: Option<Error>)
    modifies cache
    ensures cache.version == old(cache.version)
    ensures |cache.listeners| == |old(cache.listeners)|
    ensures err.None? ==>
              forall i :: 0 <= i < |cache.listeners| ==>
                ChallengeStep(old(cache.listeners)[i], challenge).Ok? &&
                cache.listeners[i] == ChallengeStep(old(cache.listeners)[i], challenge).value
    ensures err.Some? ==>
              exists f ::
                && 0 <= f < |cache.listeners|
                && ChallengeStep(old(cache.listeners)[f], challenge) == Err(err.value)
                && (forall i :: 0 <= i < f ==>
                      ChallengeStep(old(cache.listeners)[i], challenge).Ok? &&
                      cache.listeners[i] == ChallengeStep(old(cache.listeners)[i], challenge).value)
                && (forall i :: f <= i < |cache.listeners| ==> cache.listeners[i] == old(cache.listeners)[i])
    ensures CacheWellFormed(old(cache.listeners)) ==> err.None? && CacheWellFormed(cache.listeners)
  {
    var clusterName := challenge.name;
    var newRoute := ChallengeRoute(challenge);
    var listenerKey := 0;
    while listenerKey < |cache.listeners|
      invariant 0 <= listenerKey <= |cache.listeners|
      invariant |cache.listeners| == |old(cache.listeners)|
      invariant cache.version == old(cache.version)
      invariant forall i :: 0 <= i < listenerKey ==>
                  ChallengeStep(old(cache.listeners)[i], challenge).Ok? &&
                  cache.listeners[i] == ChallengeStep(old(cache.listeners)[i], challenge).value
      invariant forall i :: listenerKey <= i < |cache.listeners| ==> cache.listeners[i] == old(cache.listeners)[i]
      invariant CacheWellFormed(old(cache.listeners)) ==> CacheWellFormed(cache.listeners)
    {
      var ll := cache.listeners[listenerKey];
      if CacheWellFormed(old(cache.listeners)) {
        ChallengeStepPreservesWellFormed(ll, challenge);
      }
      if ll.name == PlainListenerName(clusterName) {
        var managerOrErr := ListenerUtils.GetListenerHTTPConnectionManager(ll);
        if managerOrErr.Err? {
          assert ChallengeStep(old(cache.listeners)[listenerKey], challenge) == Err(managerOrErr.error);
          return Some(managerOrErr.error);
        }
        var manager := managerOrErr.value;
        var routeSpecifier := GetListenerRouteSpecifier(manager);
        if routeSpecifier.Err? {
          assert ChallengeStep(old(cache.listeners)[listenerKey], challenge) == Err(routeSpecifier.error);
          return Some(routeSpecifier.error);
        }
        var routeConfig := routeSpecifier.value;
        var virtualHosts := routeConfig.virtualHosts;
        var k := 0;
        while k < |virtualHosts|
          invariant 0 <= k <= |virtualHosts|
          invariant |virtualHosts| == |routeConfig.virtualHosts|
          invariant forall j :: 0 <= j < k ==>
                      virtualHosts[j] == ChallengeVirtualHost(routeConfig.virtualHosts[j], ChallengeSelector(clusterName), newRoute)
          invariant forall j :: k <= j < |virtualHosts| ==> virtualHosts[j] == routeConfig.virtualHosts[j]
        {
          if virtualHosts[k].name == ChallengeSelector(clusterName) {
            virtualHosts := virtualHosts[k := virtualHosts[k].(routes := [newRoute] + virtualHosts[k].routes)];
          }
          k := k + 1;
        }
        assert virtualHosts == PrependChallenge(routeConfig.virtualHosts, ChallengeSelector(clusterName), newRoute);
        manager := manager.(routeConfig := routeConfig.(virtualHosts := virtualHosts));
        cache.listeners := cache.listeners[listenerKey := WithManager(ll, manager)];
      }
      listenerKey := listenerKey + 1;
    }
    return None;
  }
}
