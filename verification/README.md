# Ocelot sample gateway: custom route resolution, modelled in Dafny

This project models the custom routing of the Ocelot basic sample gateway:

- the resolver `DynamicDownstreamRouteWithAuthCreator`, which answers every request either from a cache
  pre-populated with the configured routes or with a route synthesized for service discovery, decorated with the
  global authentication policy and with the rate limit of a matching configured route;
- the selector `DynamicDownstreamRouteProviderFactory`, which picks the route provider for a configuration.

Everything is functional. The resolver is the datatype `Creator`, which holds the cache and the global
authentication options. `Get` takes a `Creator` and returns the resolved route together with the next `Creator`.
The three route providers are the enumeration `Strategy`.

Modules follow the structure of the code:

| module | file | what it holds |
|---|---|---|
| `Wrappers` | wrappers.dfy | `Option` (a possibly-null reference), `Result` (a value or a thrown exception) |
| `Text` | text.dfy | the .NET string operations the code calls (`IndexOf`, `Substring`, `TrimEnd`, `ToUpper`, `IsNullOrEmpty`), and `LastIndexOf`, which only the key reader `SplitQoSKey` uses |
| `Configuration` | configuration.dfy | routes, downstream targets, options records, the internal configuration |
| `Keys` | keys.dfy | `CreateLoadBalancerKey`, `CreateQoSKey` and the inverse that reads a key back |
| `Paths` | paths.dfy | `GetServiceName`, `GetDownstreamPath`, `HasQueryString`, `RemoveQueryString` |
| `StaticRouteIndex` | static_route_index.dfy | the constructor's two loops that pre-populate the cache |
| `DynamicDownstreamRouteWithAuthCreator` | route_with_auth_creator.dfy | the constructor, the rate-limit scan and `Get` |
| `ResolutionProperties` | resolution_properties.dfy | properties that relate construction to `Get`, and worked requests |
| `DynamicDownstreamRouteProviderFactory` | provider_factory.dfy | flag parsing and provider selection |

Exceptions the code can raise are modelled as `Failure` results:

- An empty upstream path makes `IndexOf('/', 1)` throw, which gives `ArgumentOutOfRange`.
- The constructor reads the template of every route that declares a method. A null template gives `NullReference`.
- The rate-limit scan dereferences the rate-limit options of every target of the requested service until it finds
  one with rate limiting on. A null there gives `NullReference`.

A path that does not start with `/` is not excluded: the code simply drops its first character, and so does the
model. The split properties are stated for paths with a leading `/`.

Where the code differs from a natural reading, the model follows the code:

- Static keys are built from the template's original text, the upper-cased method and the configuration-wide
  load-balancer options. They do not use the route's own options.
- The constructor inserts with insert-if-absent, so the first route in table order keeps a shared key.
- `Get` does not upper-case the request method. Without the cookie sticky-session balancer, a method without `|`
  that has a lower-case ASCII letter therefore never meets a static entry. A method holding `|` can, because path and
  method are joined by `|` without escaping: template `/x/y|a` with method `b` and request `/x/y` with method `a|B`
  both give `/x/y|a|B`.
- A single-segment request such as `/health` gets the downstream path `/`, so its key path is `/health/` and its key
  is `/health/|GET`. A route configured with the template `/health` is entered as `/health|GET`. Without the cookie
  sticky-session balancer that route is therefore never served from the cache: the request is resolved dynamically
  and, with a global policy, requires authentication (`ResolutionProperties.HealthRouteResolvesDynamically`).
- With the cookie sticky-session balancer, every key is the session key, whatever the path and method. Every
  request then meets the one entry left by the first configured route that declares a method, or the first
  synthesized route (`DynamicDownstreamRouteWithAuthCreator.StickySessionSharesEntry`).
- The service name is taken before the query string is stripped, and is never stripped itself.

Field names are lower camel case; `typeName` stands for the options' `Type` property.

## Model

| member | source | states |
|---|---|---|
| Text.IndexOfFrom | samples/OcelotBasic/DynamicDownstreamRouteWithAuthCreator.cs:139-145 | `IndexOf(c, start)` is -1 exactly when no position at or after `start` holds `c`, and otherwise the first such position; a start past the end is refused |
| Text.IndexOf | samples/OcelotBasic/DynamicDownstreamRouteWithAuthCreator.cs:129 | `IndexOf(c)` is -1 exactly when `c` does not occur, otherwise a position holding `c` with no `c` before it |
| Text.Substring | samples/OcelotBasic/DynamicDownstreamRouteWithAuthCreator.cs:157 | `Substring(start, length)` takes `length` characters from `start`; the second argument is a length |
| Text.ToUpper | samples/OcelotBasic/DynamicDownstreamRouteWithAuthCreator.cs:36 | every character is upper-cased letter by letter: no lower-case ASCII letter remains, and every other character is kept |
| Text.TrimEnd | samples/OcelotBasic/DynamicDownstreamRouteWithAuthCreator.cs:158 | the result is a prefix that does not end in `c`, and everything cut off is `c` |
| Keys.CreateQoSKey | samples/OcelotBasic/DynamicDownstreamRouteWithAuthCreator.cs:171-175 | the key is the path, then `|`, then the method, each at its position |
| Keys.CreateLoadBalancerKey | samples/OcelotBasic/DynamicDownstreamRouteWithAuthCreator.cs:161-169 | with the cookie sticky-session type and a non-empty session key, the key is `CookieStickySessions:` plus the session key, whatever the path and method; otherwise it is the path-and-method key |
| Keys.SplitQoSKey | samples/OcelotBasic/DynamicDownstreamRouteWithAuthCreator.cs:171-175 | reading a key at its last `|` gives a path and a `|`-free method that rebuild the key; no `|` means no reading |
| Keys.QoSKeyRoundTrip | samples/OcelotBasic/DynamicDownstreamRouteWithAuthCreator.cs:171-175 | a path-and-method key reads back as its path and method when the method has no `|` |
| Keys.QoSKeyInjective | samples/OcelotBasic/DynamicDownstreamRouteWithAuthCreator.cs:171-175 | two path-and-method keys are equal only if paths and methods are equal, for `|`-free methods |
| Keys.PathKeyIsNotStickyKey | samples/OcelotBasic/DynamicDownstreamRouteWithAuthCreator.cs:161-175 | a key built from a path with a leading `/` never equals a sticky-session key |
| Paths.GetServiceName | samples/OcelotBasic/DynamicDownstreamRouteWithAuthCreator.cs:148-159 | the service name is the `/`-free run of text after the first character, ending at the next `/` or at the end of the path |
| Paths.GetDownstreamPath | samples/OcelotBasic/DynamicDownstreamRouteWithAuthCreator.cs:137-146 | the downstream path starts with `/`; it is `/` when the service name runs to the end of the path, and otherwise the rest of the path from the `/` that ends the service name |
| Paths.HasQueryString | samples/OcelotBasic/DynamicDownstreamRouteWithAuthCreator.cs:132-135 | a path has a query string exactly when `IndexOf('?')` finds a position, the position `RemoveQueryString` cuts at |
| Paths.RemoveQueryString | samples/OcelotBasic/DynamicDownstreamRouteWithAuthCreator.cs:126-130 | the result is the prefix before the first `?` and holds no `?` |
| Paths.StripQueryString | samples/OcelotBasic/DynamicDownstreamRouteWithAuthCreator.cs:63-66 | the result is the longest `?`-free prefix of the path; a path without `?` is unchanged |
| Paths.KeyPath | samples/OcelotBasic/DynamicDownstreamRouteWithAuthCreator.cs:59-68 | the key path is `/`, the service name and the downstream path without its query: `/` + name + `/` for a single segment (the path plus `/` when it starts with `/`), and otherwise `/` + name + the `?`-free prefix of the rest of the path from the `/` that ends the name |
| Paths.KeyPathOfSeveralSegments | samples/OcelotBasic/DynamicDownstreamRouteWithAuthCreator.cs:59-68 | with the second `/` at `i`, the key path is the path up to `i` followed by the rest without its query string |
| Paths.SplitSeveralSegments | samples/OcelotBasic/DynamicDownstreamRouteWithAuthCreator.cs:137-159 | with the second `/` at `i`, the service name is the text between the slashes, the downstream path is the rest from `i`, and `/` + name + downstream path is the upstream path |
| Paths.SplitOneSegment | samples/OcelotBasic/DynamicDownstreamRouteWithAuthCreator.cs:139-154 | without a second `/`, the service name is all text after the first character and the downstream path is `/`, so the pieces rebuild the path plus a trailing `/` |
| Paths.KeyPathWithoutQuery | samples/OcelotBasic/DynamicDownstreamRouteWithAuthCreator.cs:59-68 | without a query string, the key path is the path itself for two or more segments, and the path plus `/` for one segment |
| StaticRouteIndex.TryAdd | samples/OcelotBasic/DynamicDownstreamRouteWithAuthCreator.cs:43 | insert-if-absent adds the key, keeps every existing entry, and stores the value only for a new key |
| StaticRouteIndex.StaticKey | samples/OcelotBasic/DynamicDownstreamRouteWithAuthCreator.cs:36-37 | under sticky sessions a static key is the session key; otherwise it is the template's original text (empty when null), `|` and the upper-cased method, each at its position, and for a method without `|` it reads back as that text and method |
| StaticRouteIndex.AddRouteMethods | samples/OcelotBasic/DynamicDownstreamRouteWithAuthCreator.cs:34-44 | the inner loop throws exactly when there is a method and the template is null; otherwise the cache gains exactly the route's keys, existing entries win, and new keys hold the route |
| StaticRouteIndex.AddRoutes | samples/OcelotBasic/DynamicDownstreamRouteWithAuthCreator.cs:32-45 | the outer loop throws exactly when a route with methods lacks a template; otherwise the keys are the old ones plus every claimed key, old entries survive, and each new key holds the first route in table order that claims it |
| DynamicDownstreamRouteWithAuthCreator.Create | samples/OcelotBasic/DynamicDownstreamRouteWithAuthCreator.cs:24-55 | construction fails exactly on a missing template; otherwise every (route, method) pair has an entry, each entry holds the first claiming route, and the global options are present exactly when the section is, with its scopes and provider key |
| DynamicDownstreamRouteWithAuthCreator.GlobalAuthentication | samples/OcelotBasic/DynamicDownstreamRouteWithAuthCreator.cs:47-54 | the global authentication options exist exactly when the configuration section does, with its allowed scopes and provider key |
| DynamicDownstreamRouteWithAuthCreator.PrePopulated | samples/OcelotBasic/DynamicDownstreamRouteWithAuthCreator.cs:32-45 | from an empty cache, every (route, method) key is entered and every entry is the first claimant's route |
| DynamicDownstreamRouteWithAuthCreator.Flatten | samples/OcelotBasic/DynamicDownstreamRouteWithAuthCreator.cs:95 | the flattened list holds exactly the downstream targets of all routes |
| DynamicDownstreamRouteWithAuthCreator.FindRateLimited | samples/OcelotBasic/DynamicDownstreamRouteWithAuthCreator.cs:95-96 | the scan returns the first target of the service with rate limiting on, or none when no such target exists; it throws exactly when a target of the service with null options comes first |
| DynamicDownstreamRouteWithAuthCreator.RequestKey | samples/OcelotBasic/DynamicDownstreamRouteWithAuthCreator.cs:68-70 | under sticky sessions the request key is the session key; otherwise it is the key path, `|` and the method as given (not upper-cased), each at its position, and for a method without `|` it reads back as that key path and method |
| DynamicDownstreamRouteWithAuthCreator.BuildDynamicRoute | samples/OcelotBasic/DynamicDownstreamRouteWithAuthCreator.cs:80-117 | the built route has the request's method and one service-discovery target for the service; it is rate limited exactly when a rate-limited target was found, with that target's options, and authenticated exactly when global options exist. `BuiltRouteIsDynamic` and `Get` tie it to the request |
| DynamicDownstreamRouteWithAuthCreator.BuiltRouteIsDynamic | samples/OcelotBasic/DynamicDownstreamRouteWithAuthCreator.cs:80-117 | the built route has one service-discovery target for the named service, the request key, the stripped downstream path, the configuration's options, the first rate-limited target's options, and the global authentication |
| DynamicDownstreamRouteWithAuthCreator.Get | samples/OcelotBasic/DynamicDownstreamRouteWithAuthCreator.cs:57-124 | an empty path throws; a cached key returns the cached route with the cache unchanged; a miss throws exactly when the scan does, and otherwise stores the synthesized route under the key, touches no other key, and keeps the global options |
| DynamicDownstreamRouteWithAuthCreator.ResolveMiss | samples/OcelotBasic/DynamicDownstreamRouteWithAuthCreator.cs:78-123 | on a cache miss, the request fails exactly when the rate-limit scan meets a null first; otherwise the synthesized route is stored under the request key and nothing else in the resolver changes |
| DynamicDownstreamRouteWithAuthCreator.GetIdempotent | samples/OcelotBasic/DynamicDownstreamRouteWithAuthCreator.cs:70-76 | repeating a successful request returns the same route and leaves the cache unchanged |
| DynamicDownstreamRouteWithAuthCreator.StickySessionSharesEntry | samples/OcelotBasic/DynamicDownstreamRouteWithAuthCreator.cs:161-166 | under sticky sessions, after one successful request every request with any path and method gets the same route back |
| ResolutionProperties.ConfiguredRouteServedFromCache | samples/OcelotBasic/DynamicDownstreamRouteWithAuthCreator.cs:32-76 | a request whose path is a route's literal multi-segment template and whose method is one of its methods upper-cased is answered by the first claiming route, with the cache unchanged |
| ResolutionProperties.SingleSegmentKeyMissesTemplateKey | samples/OcelotBasic/DynamicDownstreamRouteWithAuthCreator.cs:36-70 | without sticky sessions, the key of a single-segment request differs from the key its own literal template is entered under |
| ResolutionProperties.SingleSegmentRequestKey | samples/OcelotBasic/DynamicDownstreamRouteWithAuthCreator.cs:59-70 | without sticky sessions, a single-segment request without query has the key path, `/|` and the method as given |
| ResolutionProperties.SingleSegmentRouteResolvesDynamically | samples/OcelotBasic/DynamicDownstreamRouteWithAuthCreator.cs:32-123 | if every route has the single-segment template of the request, the request misses the cache and is resolved to a synthesized route that requires authentication exactly when a global policy exists |
| ResolutionProperties.HealthRouteResolvesDynamically | samples/OcelotBasic/DynamicDownstreamRouteWithAuthCreator.cs:32-123 | a configured `GET /health` route is not what `GET /health` resolves to; the key is `/health/|GET` |
| ResolutionProperties.ResolvesWithoutDecoration | samples/OcelotBasic/DynamicDownstreamRouteWithAuthCreator.cs:78-117 | with an empty cache, no routes and no global policy, a request resolves to a service-discovery route that is neither authenticated nor rate limited |
| ResolutionProperties.OrdersRequestExample | samples/OcelotBasic/DynamicDownstreamRouteWithAuthCreator.cs:57-124 | `GET /orders/123?x=1` resolves to service `orders`, downstream path `/123` and key `/orders/123|GET` |
| ResolutionProperties.OrdersSplit | samples/OcelotBasic/DynamicDownstreamRouteWithAuthCreator.cs:59-68 | `/orders/123?x=1` splits into `orders` and `/123`, with key path `/orders/123` |
| ResolutionProperties.QueryInSingleSegmentStaysInServiceName | samples/OcelotBasic/DynamicDownstreamRouteWithAuthCreator.cs:59-68 | for `/orders?x=1` the service name keeps the query, `orders?x=1`, and the key path is `/orders?x=1/` |
| ResolutionProperties.StickyKeyExample | samples/OcelotBasic/DynamicDownstreamRouteWithAuthCreator.cs:161-166 | with the cookie sticky-session balancer and session key `sess1`, every request has the key `CookieStickySessions:sess1` |
| DynamicDownstreamRouteProviderFactory.Create | samples/OcelotBasic/DynamicDownstreamRouteProviderFactory.cs:21-23 | dynamic routing is on exactly when the setting is the string `True` |
| DynamicDownstreamRouteProviderFactory.IsServiceDiscovery | samples/OcelotBasic/DynamicDownstreamRouteProviderFactory.cs:62-65 | a service-discovery provider is configured exactly when the settings exist and have a non-empty host, a positive port and a non-empty type; a null settings object is answered, not dereferenced |
| DynamicDownstreamRouteProviderFactory.Get | samples/OcelotBasic/DynamicDownstreamRouteProviderFactory.cs:46-65 | with the flag on, always the resolver with authentication; with it off, the route creator exactly when no route has template text and the service provider has a host, a positive port and a type, and the finder whenever some route has template text |
| DynamicDownstreamRouteProviderFactory.GetDependsOnTemplatesAndProvider | samples/OcelotBasic/DynamicDownstreamRouteProviderFactory.cs:32-60 | configurations that agree on the route templates and the service-provider settings get the same provider |

## Left out

- Concurrency: the cache is a sequential map threaded through `Get`. The race between a cache lookup and the
  insert-or-update of a miss is not modelled. A miss is modelled as a plain insert, which is what it does without
  interleaving.
- Reference identity: values are compared structurally, so "the same holder object" is read as "an equal holder".
- The QoS options factory is a function parameter of `Get` and stays uninterpreted. The route builders are
  record construction. Authentication, QoS, HTTP-handler and rate-limit options are opaque records that are only
  copied.
- Fields that the builders leave at their defaults, and route properties the code never reads, do not exist in
  the model.
- Reading the configuration: the flag, the authentication section and the internal configuration are passed in
  as values. A missing value is `None`.
- A null route list, a null downstream-target list and null list elements are not modelled. The route list is
  always a sequence, so the null-conditional access on it in the rate-limit scan has nothing to guard.
- Three more null dereferences are not modelled, because the types rule them out:
  - a null configuration-wide load-balancer options object, read when a key is built;
  - a null method list on a route, read by the constructor's inner loop;
  - a null upstream path passed to `Get`.
- The route builder turns method strings into HTTP method objects. The model keeps the strings.
- `ToUpper` maps only the ASCII letters. The culture-sensitive mapping of other characters is not modelled.
- The query-string and host arguments of `Get` are accepted and never consulted, as in the code.
- The factory's name-keyed provider lookup, its missing-provider exception and its logging are replaced by the
  `Strategy` enumeration.
- The strategies other than the resolver (the route creator, the route finder, URL matching) are not part of this
  model. Neither is hosting, JWT setup and service registration in samples/OcelotBasic/Startup.cs.
- DynamicDownstreamRouteWithAuthCreator.Flatten: the contract states membership only. The table order that
  makes a scan result "first" comes from its definition.
