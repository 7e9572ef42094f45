# envoy-autocert listener composition engine

This project models the listener composition engine of envoy-autocert in
Dafny and proves properties of it. The engine turns routing intents and TLS
material into Envoy `Listener` resources. It then edits those listeners in
place in the work-queue cache, in three ways:

- it appends a virtual host for a new intent;
- it rotates the certificate of a TLS listener;
- it prepends an ACME HTTP-01 challenge route (section 8.3 of RFC 8555).

The model also covers the static helpers of the v3 code path:

- connection-manager lookup, with and without a TLS hostname;
- HTTP-filter lookup and update;
- the v3 attribute resolver;
- structural equality of route matches, header matchers and route actions.

Modules:

- `Wrappers`: `Option` and `Result`.
- `Resources`: the Envoy resources the engine reads and writes, and the engine's error kinds.
- `Codec`: the `Any` envelope.
  - The connection manager is packed into it by `EncodeHCM`.
  - `DecodeHCM` unpacks it. It fails on a foreign type URL or a payload that is not a connection manager.
  - Their round trip is proved.
- `Types`: the intent records and the `WorkQueueCache` class. The engine reads and writes its `listeners` field and never touches its `version` field.
- `EnvoyListener`: the v2 engine (`pkg/envoy/listener.go`).
  - The resolver, creation and the three cache edits.
  - The cache edits are methods over `WorkQueueCache` with loops. The listener search of `UpdateListener` is proved against the recursive `LastListenerIndex`.
  - Each is specified through a per-listener function (`AddVirtualHost`, `RotateCert`, `ChallengeStep`). Lemmas about that function prove the invariants it keeps.
- `ListenerUtils`: the v3 helpers (`pkg/envoy/listener_utils.go`).
  - The loops of the source are methods proved against specification functions: the recursive `LastChainFor` and `FilterIndex`, and the quantified predicate `RouteMatchesAgree`.
  - `UpdateHTTPFilterWithConfig` updates a filter list held in a class field, as the Go code updates the slice through a pointer.

Behaviour of the code that a reader might not expect:

- A created virtual host's only domain is the intent's hostname, verbatim. It is the empty string for a wildcard intent, not `"*"`.
- Route-match equality requires each header of the first match to have an equal header in the second. It does not require the reverse, so it is not symmetric (`RouteMatchesAgreeIsOneWay`).
- Header-matcher equality also compares the safe-regex and range matchers by pointer identity, not only by regex text (`HeaderMatchComparesRegexByIdentity`).
- No cache edit bumps `version`, and `updateListener` appends the virtual host even when one of that name is already present.
- The challenge injector looks for a virtual host named exactly `<name>_service`. Every virtual host the resolver names has the form `<name>_service_<host>`, so a listener built by `createListener` never receives its own intent's challenge route (`ChallengeMissesCreatedListener`).
- The v3 resolver reads `Conditions.Path` and `Conditions.Regex`. The `Conditions` record in `pkg/envoy/types.go` does not declare them. The model adds both fields.

## Model

| member | source | states |
|---|---|---|
| Codec.DecodeHCM | pkg/envoy/listener_utils.go:35-44 | unpacking succeeds exactly for the connection-manager type URL with a connection-manager payload; a foreign type URL is reported as such; a decoded manager packs back to the same envelope |
| Codec.DecodeEncode | pkg/envoy/listener.go:96-102 | a manager packed by MarshalAny unpacks to itself |
| Types.WorkQueueCache.constructor | pkg/envoy/types.go:19-24 | a new cache has no listeners and version 0 |
| ListenerUtils.GetManager | pkg/envoy/listener_utils.go:35-44 | succeeds exactly when the typed config unpacks; on failure the error is the codec's own unmarshal error (a foreign type URL or a malformed payload); the result packs back to the given config |
| ListenerUtils.GetListenerHTTPConnectionManager | pkg/envoy/listener_utils.go:20-34 | no filter chain and no filter are distinct errors naming the listener; otherwise the result is the unmarshalled config of the first filter of the first chain, or its unmarshal error; the v2 engine uses this member for its identical copy at pkg/envoy/listener.go:116-130 |
| ListenerUtils.LastChainFor | pkg/envoy/listener_utils.go:77-88 | -1 exactly when no chain lists the hostname among its server names; otherwise the last chain that does |
| ListenerUtils.GetFilterChainId | pkg/envoy/listener_utils.go:77-88 | the nested scan returns the last chain serving the hostname, or -1 |
| ListenerUtils.GetListenerHTTPConnectionManagerTLS | pkg/envoy/listener_utils.go:57-76 | "no filter chain found" exactly when no chain serves the hostname; "no filter found" exactly when the chosen chain has no filter; otherwise the result is the unmarshalled config of that chain's first filter, or its unmarshal error |
| ListenerUtils.FilterIndex | pkg/envoy/listener_utils.go:90-97 | -1 exactly when no HTTP filter has the name; otherwise the first one that does |
| ListenerUtils.GetListenerHTTPFilterIndex | pkg/envoy/listener_utils.go:90-97 | the early-return scan returns the first position with the name, or -1 |
| ListenerUtils.GetListenerHTTPFilterJwtAuth | pkg/envoy/listener_utils.go:99-110 | the "jwt missing" error exactly when no filter is named envoy.filters.http.jwt_authn; otherwise the typed config of the first such filter |
| ListenerUtils.GetListenerHTTPFilterAuthz | pkg/envoy/listener_utils.go:111-122 | the "authz missing" error exactly when no filter is named envoy.ext_authz; otherwise the typed config of the first such filter |
| ListenerUtils.GetListenerAttributes | pkg/envoy/listener_utils.go:124-172 | TLS exactly when a bundle is given; l_tls/10001 or l_http/10000; regex beats path beats prefix, and with none of them the match is a "/" prefix; the target is never empty; the virtual host is v_<host> or v_nodomain, with _tls in TLS mode |
| ListenerUtils.HttpFilterList.constructor | pkg/envoy/listener_utils.go:173 | the list holds the given filters |
| ListenerUtils.WithFilterConfig | pkg/envoy/listener_utils.go:173-190 | the list grows by one exactly when no filter had the name; afterwards the name is found, and the filter found carries the new config |
| ListenerUtils.UpdateHTTPFilterWithConfig | pkg/envoy/listener_utils.go:173-190 | the filter list becomes the prepend-or-replace update of the old list |
| ListenerUtils.WithFilterConfigPrepends | pkg/envoy/listener_utils.go:177-185 | an absent filter is added in front, carrying the config, before all old filters |
| ListenerUtils.WithFilterConfigReplaces | pkg/envoy/listener_utils.go:186-189 | a present filter keeps its place and name and gets the config; every other filter and the length are unchanged |
| ListenerUtils.WithFilterConfigIdempotent | pkg/envoy/listener_utils.go:173-190 | applying the same update twice equals applying it once |
| ListenerUtils.HeaderMatchEqual | pkg/envoy/listener_utils.go:230-259 | two header matchers are equal exactly when name and invert flag agree and their specifiers agree once unset defaults are normalised, with range and regex matchers compared by identity |
| ListenerUtils.HeaderMatchEqualIsEquivalence | pkg/envoy/listener_utils.go:230-259 | header-matcher equality is reflexive, symmetric and transitive |
| ListenerUtils.HeaderMatchComparesRegexByIdentity | pkg/envoy/listener_utils.go:246-254 | two regex matchers with the same text held in different objects make the headers unequal |
| ListenerUtils.RegexMatchEqual | pkg/envoy/listener_utils.go:261-279 | equal exactly when both are absent or both are present with the same regex text |
| ListenerUtils.RegexMatchEqualSymmetric | pkg/envoy/listener_utils.go:261-279 | regex-matcher equality does not depend on the order of its arguments |
| ListenerUtils.RouteMatchEqual | pkg/envoy/listener_utils.go:281-304 | true exactly when prefix, path and regex agree and each header of the first match has an equal header in the second |
| ListenerUtils.RouteMatchesAgreeReflexive | pkg/envoy/listener_utils.go:281-304 | every route match agrees with itself |
| ListenerUtils.RouteMatchesAgreeTransitive | pkg/envoy/listener_utils.go:281-304 | agreement of a with b and of b with c gives agreement of a with c |
| ListenerUtils.RouteMatchesAgreeIsOneWay | pkg/envoy/listener_utils.go:292-302 | a header-free match agrees with one carrying a header, but not the reverse |
| ListenerUtils.CmpMatch | pkg/envoy/listener_utils.go:192-228 | true exactly when path and prefix agree, the header lists have equal length, the headers agree pairwise on name and exact value, and the matches agree as routeMatchEqual decides |
| ListenerUtils.RouteActionEqual | pkg/envoy/listener_utils.go:305-327 | true exactly when both forward to the same cluster or both answer directly with the same status; any other pairing is unequal |
| EnvoyListener.GetListenerAttributes | pkg/envoy/listener.go:198-234 | TLS exactly when a bundle is given; port 10001 or 10000; listener l_<name>[_tls]; target "/" exactly for an empty or "/" prefix, otherwise the prefix; virtual-host and route-config names carry the host (or "wildcard") and, in TLS mode, "_tls"; the virtual-host name is never the challenge selector |
| EnvoyListener.ListenerNamesSeparateIntents | pkg/envoy/listener.go:224-232 | intents with different names in the same TLS mode resolve to different listeners |
| EnvoyListener.ConcatCancel | pkg/envoy/listener.go:226-231 | a name between the fixed "l_" prefix and the TLS suffix is determined by the whole listener name |
| EnvoyListener.GetVirtualHost | pkg/envoy/listener.go:131-153 | the virtual host has the given name and the hostname as its only domain, verbatim; its one route is a prefix match on the target prefix with no header condition and forwards to the cluster, rewriting the host to the target hostname |
| EnvoyListener.CreateListener | pkg/envoy/listener.go:235-307 | the created listener is well-formed and has a TLS context exactly on the TLS port |
| EnvoyListener.CreateListenerShape | pkg/envoy/listener.go:263-305 | resolved name, TCP 0.0.0.0 on the resolved port, one chain with one connection-manager filter, inline certificate and key exactly in TLS mode |
| EnvoyListener.CreateListenerRoutes | pkg/envoy/listener.go:131-153 | the manager (AUTO codec, "ingress_http", router filter only) has one route config with one virtual host whose only domain is the hostname and whose one prefix route goes to the intent's cluster with the host rewritten |
| EnvoyListener.GetListenerRouteSpecifier | pkg/envoy/listener.go:108-115 | an error exactly when the route config has no virtual host; otherwise the route config |
| EnvoyListener.WithManager | pkg/envoy/listener.go:186-193 | storing a manager back changes only the first filter's config, which then unpacks to that manager |
| EnvoyListener.LastListenerIndex | pkg/envoy/listener.go:155-165 | -1 exactly when no listener has the name; otherwise the last one that does |
| EnvoyListener.AddVirtualHostEffect | pkg/envoy/listener.go:170-193 | missing chain, missing filter and empty route config are the errors; success keeps name, address and TLS context and appends the virtual host to the manager, changing nothing else |
| EnvoyListener.AddVirtualHostPreservesWellFormed | pkg/envoy/listener.go:170-193 | on a well-formed listener the append succeeds, keeps it well-formed and TLS-consistent, and puts the new virtual host last |
| EnvoyListener.UpdateListener | pkg/envoy/listener.go:154-197 | no listener with the resolved name is an error that leaves the cache unchanged; otherwise the last such listener is replaced by its appended form, or the cache is unchanged on error; a well-formed cache stays well-formed; the version is unchanged |
| EnvoyListener.WithTlsContext | pkg/envoy/listener.go:30-47 | only the first chain's TLS context changes |
| EnvoyListener.RotateCertKeepsRoutes | pkg/envoy/listener.go:22-54 | rotating a certificate keeps the listener well-formed and its connection manager unchanged |
| EnvoyListener.RotateCertHitsPlaintextNamesake | pkg/envoy/listener.go:26 | the plaintext listener of an intent named "<x>_tls" has the TLS listener name of intent "<x>", and rotating "<x>"'s certificate puts a TLS context on the plaintext port |
| EnvoyListener.UpdateListenerWithNewCert | pkg/envoy/listener.go:22-54 | every listener named l_<name>_tls gets the new inline certificate and key, and the others are unchanged; "no TLS listener" exactly when none matches; the length and version are unchanged |
| EnvoyListener.PrependChallenge | pkg/envoy/listener.go:90-94 | the count, names and domains of the virtual hosts are unchanged; the ones named by the selector get the challenge route first and then their old routes, and the rest are unchanged |
| EnvoyListener.InjectChallengeEffect | pkg/envoy/listener.go:79-102 | injection succeeds exactly when the manager unpacks and has a virtual host; success changes only the route config, by the prepend |
| EnvoyListener.ChallengeStepPreservesWellFormed | pkg/envoy/listener.go:78-105 | on a well-formed listener the step succeeds, keeps it well-formed and TLS-consistent and keeps the number of virtual hosts |
| EnvoyListener.ChallengeMissesCreatedListener | pkg/envoy/listener.go:80-94 | the challenge of an intent leaves the manager of that intent's created listener unchanged |
| EnvoyListener.UpdateListenerWithChallenge | pkg/envoy/listener.go:56-107 | with no error every listener is stepped; an error comes from the first failing listener, after which that listener and the rest are untouched; a well-formed cache never errs and stays well-formed; the length and version are unchanged |

## Left out

- Logging, the snapshot cache and the cluster list of `WorkQueueCache` are not modelled. Only `listeners` is read or written by this code; `version` is never touched, and the model proves it unchanged.
- Route matches and header matchers carry only the fields `routeMatchEqual`, `cmpMatch` and `headerMatchEqual` read through their getters. Other fields of the v3 messages, such as case sensitivity and query-parameter matchers, are not modelled. In Go two matches that differ only in those fields compare equal, which the model cannot express.
- Protobuf wire encoding is not modelled. A payload is either a connection manager or opaque bytes, and packing is total, so the `panic` on a marshal failure is unreachable in the model.
- The route specifier is always an inline route configuration, and a filter's config is always a typed config. The source casts to these and would panic otherwise.
- Go panics are preconditions:
  - `CmpMatch` requires exact-match headers where it casts them.
  - `RouteActionEqual` requires forward actions to name a single cluster.
  - `UpdateListenerWithNewCert` and `RotateCert` require a matching listener to have a filter chain.
- The bodies of the JWT and external-authorisation filter configs are not decoded. `GetListenerHTTPFilterJwtAuth` and `GetListenerHTTPFilterAuthz` return the typed config they would unpack, so their unpack error is not modelled.
- `getTransportSocketDownStreamTlsSocket` is not modelled. It only unpacks an `Any`, as `GetManager` does, and nothing in the engine calls it.
- Cache listeners are values in a sequence. Sharing one listener object between two cache slots (aliasing) is not modelled.
- Every filter chain has a `FilterChainMatch`. The source reads its server names without a nil check and would panic on a chain without one.
- The v2 and v3 code use different type URLs for the connection manager. The model uses one envelope type for both.
- The well-known filter names `envoy.router` and `envoy.http_connection_manager` come from go-control-plane. `pkg/envoy/listener.go` uses them through its `util` import, which is not part of this model.
- `newListener` (`pkg/envoy/listener.go:18-20`) only allocates the receiver and has no behaviour to model.
