/** The resolver that routes every request either to a configured route
    found in its cache or to a route synthesized for service discovery,
    decorated with the global authentication policy and with the rate
    limit of a matching configured route. The cache is threaded through
    `Get` as part of the resolver value. */
module DynamicDownstreamRouteWithAuthCreator {
  import opened Wrappers
  import opened Text
  import opened Configuration
  import opened Keys
  import opened Paths
  import opened StaticRouteIndex

  /** The resolver's state: its cache, and the global authentication
      options read once at construction (null when the section is absent). */
  datatype Creator = Creator(cache: Cache, globalAuthenticationOptions: Option<AuthenticationOptions>)

  /** The authentication options built from the configuration section. */
  function GlobalAuthentication(section: Option<FileAuthenticationOptions>): (r: Option<AuthenticationOptions>)
    ensures r.Some? <==> section.Some?
    ensures r.Some? ==>
      && r.value.allowedScopes == section.value.allowedScopes
      && r.value.authenticationProviderKey == section.value.authenticationProviderKey
  {
    match section
    case None => None
    case Some(f) => Some(AuthenticationOptions(f.allowedScopes, f.authenticationProviderKey))
  }

  /** The constructor: the cache is pre-populated with every configured
      route under the key of each of its methods, the first route in table
      order keeping a shared key; it throws on a route that has methods but
      no upstream template. */
  function Create(configuration: InternalConfiguration, authenticationSection: Option<FileAuthenticationOptions>): (r: Result<Creator>)
    ensures r.Failure? <==> !TemplatesPresent(configuration.routes)
    ensures r.Failure? ==> r.error == NullReference
    ensures r.Success? ==> forall i, j ::
      0 <= i < |configuration.routes| && 0 <= j < |configuration.routes[i].upstreamHttpMethod| &&
      configuration.routes[i].upstreamTemplatePattern.Some? ==>
        StaticKey(configuration.routes[i].upstreamTemplatePattern.value, configuration.routes[i].upstreamHttpMethod[j],
                  configuration.loadBalancerOptions) in r.value.cache
    ensures r.Success? ==> forall k :: k in r.value.cache ==>
      exists i: nat :: FirstClaimant(configuration.routes, k, configuration.loadBalancerOptions, i) &&
        r.value.cache[k] == StaticHolder(configuration.routes[i])
    ensures r.Success? ==> (r.value.globalAuthenticationOptions.Some? <==> authenticationSection.Some?)
    ensures r.Success? && authenticationSection.Some? ==>
      r.value.globalAuthenticationOptions.value.allowedScopes == authenticationSection.value.allowedScopes &&
      r.value.globalAuthenticationOptions.value.authenticationProviderKey == authenticationSection.value.authenticationProviderKey
  {
    var routes := configuration.routes;
    var lb := configuration.loadBalancerOptions;
    match AddRoutes(map[], routes, lb)
    case Failure(e) => Failure(e)
    case Success(cache) =>
      PrePopulated(routes, lb, cache);
      Success(Creator(cache, GlobalAuthentication(authenticationSection)))
  }

  /** What the constructor's loops leave in an initially empty cache. */
  lemma PrePopulated(routes: seq<Route>, lb: LoadBalancerOptions, cache: Cache)
    requires AddRoutes(map[], routes, lb) == Success(cache)
    ensures forall i, j ::
      0 <= i < |routes| && 0 <= j < |routes[i].upstreamHttpMethod| && routes[i].upstreamTemplatePattern.Some? ==>
        StaticKey(routes[i].upstreamTemplatePattern.value, routes[i].upstreamHttpMethod[j], lb) in cache
    ensures forall k :: k in cache ==> exists i: nat :: FirstClaimant(routes, k, lb, i) && cache[k] == StaticHolder(routes[i])
  {
  }

  /** All downstream targets of all routes, in table order. */
  function Flatten(routes: seq<Route>): (r: seq<DownstreamRoute>)
    ensures forall i, d :: 0 <= i < |routes| && d in routes[i].downstreamRoute ==> d in r
    ensures forall d :: d in r ==> exists i :: 0 <= i < |routes| && d in routes[i].downstreamRoute
  {
    if |routes| == 0 then []
    else
      var rest := Flatten(routes[1..]);
      assert forall i :: 1 <= i < |routes| ==> routes[i] == routes[1..][i - 1];
      assert forall d :: d in rest ==> exists i :: 1 <= i < |routes| && d in routes[i].downstreamRoute by {
        forall d | d in rest ensures exists i :: 1 <= i < |routes| && d in routes[i].downstreamRoute {
          var i :| 0 <= i < |routes[1..]| && d in routes[1..][i].downstreamRoute;
          assert d in routes[i + 1].downstreamRoute;
        }
      }
      routes[0].downstreamRoute + rest
  }

  /** A target of the service whose rate limiting is switched on. */
  predicate RateLimitedFor(d: DownstreamRoute, serviceName: string) {
    d.serviceName == Some(serviceName) && d.rateLimitOptions.Some? && d.rateLimitOptions.value.enableRateLimiting
  }

  /** A target of the service with no rate-limit options: testing whether
      its rate limiting is on dereferences null. */
  predicate NullRateLimitFor(d: DownstreamRoute, serviceName: string) {
    d.serviceName == Some(serviceName) && d.rateLimitOptions.None?
  }

  /** No target before position `i` stops the scan. */
  predicate ScanPasses(drs: seq<DownstreamRoute>, serviceName: string, i: nat)
    requires i <= |drs|
  {
    forall j :: 0 <= j < i ==> !RateLimitedFor(drs[j], serviceName) && !NullRateLimitFor(drs[j], serviceName)
  }

  /** The scan meets a target of the service without rate-limit options
      before any target of the service with rate limiting on. */
  predicate ScanFails(drs: seq<DownstreamRoute>, serviceName: string) {
    exists i: nat :: i < |drs| && ScanPasses(drs, serviceName, i) && NullRateLimitFor(drs[i], serviceName)
  }

  /** The rate-limit scan: the first target of the service with rate
      limiting on, or none; the scan throws if it meets a target of the
      service without rate-limit options first. Targets of other services
      are never dereferenced. */
  function FindRateLimited(drs: seq<DownstreamRoute>, serviceName: string): (r: Result<Option<DownstreamRoute>>)
    ensures r.Success? && r.value.Some? ==>
      exists i: nat :: i < |drs| && ScanPasses(drs, serviceName, i) && RateLimitedFor(drs[i], serviceName) && r.value.value == drs[i]
    ensures r == Success(None) <==> ScanPasses(drs, serviceName, |drs|)
    ensures r.Failure? <==> ScanFails(drs, serviceName)
    ensures r.Failure? ==> r.error == NullReference
    ensures r.Success? ==> (r.value.Some? <==> exists i :: 0 <= i < |drs| && RateLimitedFor(drs[i], serviceName))
    decreases |drs|
  {
    if |drs| == 0 then Success(None)
    else
      var d := drs[0];
      var r: Result<Option<DownstreamRoute>> :=
        if d.serviceName == Some(serviceName) then
          match d.rateLimitOptions
          case None => Failure(NullReference)
          case Some(options) => if options.enableRateLimiting then Success(Some(d)) else FindRateLimited(drs[1..], serviceName)
        else FindRateLimited(drs[1..], serviceName);
      FindRateLimitedStep(drs, serviceName, r);
      r
  }

  lemma FindRateLimitedStep(drs: seq<DownstreamRoute>, serviceName: string, r: Result<Option<DownstreamRoute>>)
    requires |drs| > 0
    requires RateLimitedFor(drs[0], serviceName) ==> r == Success(Some(drs[0]))
    requires NullRateLimitFor(drs[0], serviceName) ==> r == Failure(NullReference)
    requires !RateLimitedFor(drs[0], serviceName) && !NullRateLimitFor(drs[0], serviceName) ==>
      var rest := drs[1..];
      && (r.Success? && r.value.Some? ==>
        exists i: nat :: i < |rest| && ScanPasses(rest, serviceName, i) && RateLimitedFor(rest[i], serviceName) && r.value.value == rest[i])
      && (r == Success(None) <==> ScanPasses(rest, serviceName, |rest|))
      && (r.Failure? <==> exists i: nat :: i < |rest| && ScanPasses(rest, serviceName, i) && NullRateLimitFor(rest[i], serviceName))
      && (r.Failure? ==> r.error == NullReference)
      && (r.Success? ==> (r.value.Some? <==> exists i :: 0 <= i < |rest| && RateLimitedFor(rest[i], serviceName)))
    ensures r.Success? && r.value.Some? ==>
      exists i: nat :: i < |drs| && ScanPasses(drs, serviceName, i) && RateLimitedFor(drs[i], serviceName) && r.value.value == drs[i]
    ensures r == Success(None) <==> ScanPasses(drs, serviceName, |drs|)
    ensures r.Failure? <==>
      exists i: nat :: i < |drs| && ScanPasses(drs, serviceName, i) && NullRateLimitFor(drs[i], serviceName)
    ensures r.Failure? ==> r.error == NullReference
    ensures r.Success? ==> (r.value.Some? <==> exists i :: 0 <= i < |drs| && RateLimitedFor(drs[i], serviceName))
  {
    var rest := drs[1..];
    if RateLimitedFor(drs[0], serviceName) {
      assert ScanPasses(drs, serviceName, 0);
      assert !NullRateLimitFor(drs[0], serviceName);
      assert !ScanPasses(drs, serviceName, |drs|);
    } else if NullRateLimitFor(drs[0], serviceName) {
      assert ScanPasses(drs, serviceName, 0);
      assert !ScanPasses(drs, serviceName, |drs|);
    } else {
      forall i: nat | i <= |rest| ensures ScanPasses(rest, serviceName, i) <==> ScanPasses(drs, serviceName, i + 1) {
        if ScanPasses(rest, serviceName, i) {
          forall j | 0 <= j < i + 1 ensures !RateLimitedFor(drs[j], serviceName) && !NullRateLimitFor(drs[j], serviceName) {
            if j > 0 { assert drs[j] == rest[j - 1]; }
          }
        }
        if ScanPasses(drs, serviceName, i + 1) {
          forall j | 0 <= j < i ensures !RateLimitedFor(rest[j], serviceName) && !NullRateLimitFor(rest[j], serviceName) {
            assert rest[j] == drs[j + 1];
          }
        }
      }
      assert forall i :: 1 <= i < |drs| ==> drs[i] == rest[i - 1];
      if r.Success? && r.value.Some? {
        var i: nat :| i < |rest| && ScanPasses(rest, serviceName, i) && RateLimitedFor(rest[i], serviceName) && r.value.value == rest[i];
        assert ScanPasses(drs, serviceName, i + 1);
      }
      if r.Failure? {
        var i: nat :| i < |rest| && ScanPasses(rest, serviceName, i) && NullRateLimitFor(rest[i], serviceName);
        assert ScanPasses(drs, serviceName, i + 1);
      }
      if exists i: nat :: i < |drs| && ScanPasses(drs, serviceName, i) && NullRateLimitFor(drs[i], serviceName) {
        var i: nat :| i < |drs| && ScanPasses(drs, serviceName, i) && NullRateLimitFor(drs[i], serviceName);
        assert i > 0;
        assert ScanPasses(rest, serviceName, i - 1);
      }
      if exists i :: 0 <= i < |drs| && RateLimitedFor(drs[i], serviceName) {
        var i :| 0 <= i < |drs| && RateLimitedFor(drs[i], serviceName);
        assert RateLimitedFor(rest[i - 1], serviceName);
      }
    }
  }

  /** The cache key of a request: its key path and its method as given
      (the method is not upper-cased here, unlike at construction), under
      the configuration's load-balancer options. */
  function RequestKey(upstreamUrlPath: string, upstreamHttpMethod: string, configuration: InternalConfiguration): (r: string)
    requires |upstreamUrlPath| >= 1
    ensures IsStickySession(configuration.loadBalancerOptions) ==>
      r == CookieStickySessions + ":" + configuration.loadBalancerOptions.key.value
    ensures !IsStickySession(configuration.loadBalancerOptions) ==>
      var t := KeyPath(upstreamUrlPath);
      && |r| == |t| + 1 + |upstreamHttpMethod|
      && r[..|t|] == t && r[|t|] == '|' && r[|t| + 1..] == upstreamHttpMethod
    ensures !IsStickySession(configuration.loadBalancerOptions) && '|' !in upstreamHttpMethod ==>
      SplitQoSKey(r) == Some((KeyPath(upstreamUrlPath), upstreamHttpMethod))
  {
    var key := CreateLoadBalancerKey(KeyPath(upstreamUrlPath), upstreamHttpMethod, configuration.loadBalancerOptions);
    assert !IsStickySession(configuration.loadBalancerOptions) && '|' !in upstreamHttpMethod ==>
      SplitQoSKey(key) == Some((KeyPath(upstreamUrlPath), upstreamHttpMethod)) by {
      if !IsStickySession(configuration.loadBalancerOptions) && '|' !in upstreamHttpMethod {
        QoSKeyRoundTrip(KeyPath(upstreamUrlPath), upstreamHttpMethod);
      }
    }
    key
  }

  /** The properties of the route synthesized for a request on a cache
      miss: one service-discovery target for the service named by the first
      path segment, keyed by the request key, with the configuration-wide
      options, the rate limit of the first configured target of the same
      service that has rate limiting on, and the global authentication. */
  predicate IsDynamicRoute(route: Route, globalAuthenticationOptions: Option<AuthenticationOptions>, qosCreator: QoSOptionsCreator,
                           upstreamUrlPath: string, upstreamHttpMethod: string, configuration: InternalConfiguration)
    requires |upstreamUrlPath| >= 1
  {
    var serviceName := GetServiceName(upstreamUrlPath);
    var template := UpstreamPathTemplate(Some(upstreamUrlPath));
    var targets := Flatten(configuration.routes);
    && route.upstreamHttpMethod == [upstreamHttpMethod]
    && route.upstreamTemplatePattern == Some(template)
    && |route.downstreamRoute| == 1
    && var d := route.downstreamRoute[0];
    && d.serviceName == Some(serviceName)
    && d.loadBalancerKey == RequestKey(upstreamUrlPath, upstreamHttpMethod, configuration)
    && d.downstreamPathTemplate == StripQueryString(GetDownstreamPath(upstreamUrlPath))
    && d.useServiceDiscovery
    && d.httpHandlerOptions == configuration.httpHandlerOptions
    && d.qosOptions == qosCreator(configuration.qosOptions, KeyPath(upstreamUrlPath), [upstreamHttpMethod])
    && d.downstreamScheme == configuration.downstreamScheme
    && d.loadBalancerOptions == configuration.loadBalancerOptions
    && d.downstreamHttpVersion == configuration.downstreamHttpVersion
    && d.upstreamPathTemplate == Some(template)
    && (d.enableRateLimiting <==> exists i :: 0 <= i < |targets| && RateLimitedFor(targets[i], serviceName))
    && (d.enableRateLimiting ==>
          exists i: nat :: i < |targets| && ScanPasses(targets, serviceName, i) &&
            RateLimitedFor(targets[i], serviceName) && d.rateLimitOptions == targets[i].rateLimitOptions)
    && (!d.enableRateLimiting ==> d.rateLimitOptions.None?)
    && d.isAuthenticated == globalAuthenticationOptions.Some?
    && d.authenticationOptions == globalAuthenticationOptions
  }

  /** The route the builders produce on a cache miss. */
  function BuildDynamicRoute(serviceName: string, downstreamPath: string, loadBalancerKey: string, qosOptions: QoSOptions,
                             rateLimited: Option<DownstreamRoute>, globalAuthenticationOptions: Option<AuthenticationOptions>,
                             upstreamUrlPath: string, upstreamHttpMethod: string, configuration: InternalConfiguration): (r: Route)
    ensures r.upstreamHttpMethod == [upstreamHttpMethod] && |r.downstreamRoute| == 1
    ensures r.downstreamRoute[0].useServiceDiscovery && r.downstreamRoute[0].serviceName == Some(serviceName)
    ensures r.downstreamRoute[0].enableRateLimiting <==> rateLimited.Some?
    ensures rateLimited.Some? ==> r.downstreamRoute[0].rateLimitOptions == rateLimited.value.rateLimitOptions
    ensures rateLimited.None? ==> r.downstreamRoute[0].rateLimitOptions.None?
    ensures r.downstreamRoute[0].isAuthenticated <==> globalAuthenticationOptions.Some?
    ensures r.downstreamRoute[0].authenticationOptions == globalAuthenticationOptions
  {
    var template := UpstreamPathTemplate(Some(upstreamUrlPath));
    var target := DownstreamRoute(
      serviceName := Some(serviceName),
      loadBalancerKey := loadBalancerKey,
      downstreamPathTemplate := downstreamPath,
      useServiceDiscovery := true,
      httpHandlerOptions := configuration.httpHandlerOptions,
      qosOptions := qosOptions,
      downstreamScheme := configuration.downstreamScheme,
      loadBalancerOptions := configuration.loadBalancerOptions,
      downstreamHttpVersion := configuration.downstreamHttpVersion,
      upstreamPathTemplate := Some(template),
      rateLimitOptions := if rateLimited.Some? then rateLimited.value.rateLimitOptions else None,
      enableRateLimiting := rateLimited.Some?,
      authenticationOptions := globalAuthenticationOptions,
      isAuthenticated := globalAuthenticationOptions.Some?);
    Route([target], [upstreamHttpMethod], Some(template))
  }

  /** Resolves a request. A key already in the cache, whether entered at
      construction or by an earlier miss, is answered from the cache with
      the cache unchanged; otherwise a service-discovery route is built,
      stored under the key, and returned. An empty path throws, as does a
      rate-limit scan that dereferences null. The query string and host
      arguments are not consulted. */
  function Get(creator: Creator, qosCreator: QoSOptionsCreator, upstreamUrlPath: string, upstreamQueryString: string,
               upstreamHttpMethod: string, configuration: InternalConfiguration, upstreamHost: string)
    : (r: Result<(DownstreamRouteHolder, Creator)>)
    ensures |upstreamUrlPath| == 0 ==> r == Failure(ArgumentOutOfRange)
    ensures |upstreamUrlPath| > 0 ==>
      var key := RequestKey(upstreamUrlPath, upstreamHttpMethod, configuration);
      var serviceName := GetServiceName(upstreamUrlPath);
      var targets := Flatten(configuration.routes);
      && (key in creator.cache ==> r == Success((creator.cache[key], creator)))
      && (key !in creator.cache ==>
            (r.Failure? <==> ScanFails(targets, serviceName)))
      && (key !in creator.cache && r.Success? ==>
            && r.value.1 == creator.(cache := creator.cache[key := r.value.0])
            && r.value.0.templatePlaceholderNameAndValues == []
            && IsDynamicRoute(r.value.0.route, creator.globalAuthenticationOptions, qosCreator, upstreamUrlPath, upstreamHttpMethod, configuration))
    ensures r.Failure? && r.error == ArgumentOutOfRange ==> |upstreamUrlPath| == 0
    ensures r.Success? ==> r.value.1.globalAuthenticationOptions == creator.globalAuthenticationOptions
    ensures r.Success? ==> forall k :: k in creator.cache ==> k in r.value.1.cache && r.value.1.cache[k] == creator.cache[k]
  {
    if |upstreamUrlPath| == 0 then Failure(ArgumentOutOfRange)
    else
      var serviceName := GetServiceName(upstreamUrlPath);
      var downstreamPath := GetDownstreamPath(upstreamUrlPath);
      var downstreamPath := if HasQueryString(downstreamPath) then RemoveQueryString(downstreamPath) else downstreamPath;
      var downstreamPathForKeys := "/" + serviceName + downstreamPath;
      assert downstreamPathForKeys == KeyPath(upstreamUrlPath);
      var loadBalancerKey := CreateLoadBalancerKey(downstreamPathForKeys, upstreamHttpMethod, configuration.loadBalancerOptions);
      assert loadBalancerKey == RequestKey(upstreamUrlPath, upstreamHttpMethod, configuration);
      if loadBalancerKey in creator.cache then
        Success((creator.cache[loadBalancerKey], creator))
      else
        ResolveMiss(creator, qosCreator, upstreamUrlPath, upstreamHttpMethod, configuration)
  }

  /** A cache miss: the rate-limit scan, then a service-discovery route
      built for the request and stored under the request key. */
  function ResolveMiss(creator: Creator, qosCreator: QoSOptionsCreator, upstreamUrlPath: string, upstreamHttpMethod: string,
                       configuration: InternalConfiguration): (r: Result<(DownstreamRouteHolder, Creator)>)
    requires |upstreamUrlPath| >= 1
    ensures var serviceName := GetServiceName(upstreamUrlPath);
      var targets := Flatten(configuration.routes);
      r.Failure? <==> ScanFails(targets, serviceName)
    ensures r.Failure? ==> r.error == NullReference
    ensures r.Success? ==>
      && r.value.1 == creator.(cache := creator.cache[RequestKey(upstreamUrlPath, upstreamHttpMethod, configuration) := r.value.0])
      && r.value.0.templatePlaceholderNameAndValues == []
      && IsDynamicRoute(r.value.0.route, creator.globalAuthenticationOptions, qosCreator, upstreamUrlPath, upstreamHttpMethod, configuration)
  {
    var serviceName := GetServiceName(upstreamUrlPath);
    var key := RequestKey(upstreamUrlPath, upstreamHttpMethod, configuration);
    var qosOptions := qosCreator(configuration.qosOptions, KeyPath(upstreamUrlPath), [upstreamHttpMethod]);
    var scan := FindRateLimited(Flatten(configuration.routes), serviceName);
    match scan
    case Failure(e) => Failure(e)
    case Success(rateLimited) =>
      var route := BuildDynamicRoute(serviceName, StripQueryString(GetDownstreamPath(upstreamUrlPath)), key, qosOptions, rateLimited,
                                     creator.globalAuthenticationOptions, upstreamUrlPath, upstreamHttpMethod, configuration);
      BuiltRouteIsDynamic(creator.globalAuthenticationOptions, qosCreator, upstreamUrlPath, upstreamHttpMethod, configuration, rateLimited);
      var holder := DownstreamRouteHolder([], route);
      Success((holder, creator.(cache := creator.cache[key := holder])))
  }

  /** The route built from the outcome of a successful rate-limit scan has
      the properties of a synthesized route. */
  lemma BuiltRouteIsDynamic(globalAuthenticationOptions: Option<AuthenticationOptions>, qosCreator: QoSOptionsCreator,
                            upstreamUrlPath: string, upstreamHttpMethod: string, configuration: InternalConfiguration,
                            rateLimited: Option<DownstreamRoute>)
    requires |upstreamUrlPath| >= 1
    requires FindRateLimited(Flatten(configuration.routes), GetServiceName(upstreamUrlPath)) == Success(rateLimited)
    ensures IsDynamicRoute(
      BuildDynamicRoute(GetServiceName(upstreamUrlPath), StripQueryString(GetDownstreamPath(upstreamUrlPath)),
                        RequestKey(upstreamUrlPath, upstreamHttpMethod, configuration),
                        qosCreator(configuration.qosOptions, KeyPath(upstreamUrlPath), [upstreamHttpMethod]),
                        rateLimited, globalAuthenticationOptions, upstreamUrlPath, upstreamHttpMethod, configuration),
      globalAuthenticationOptions, qosCreator, upstreamUrlPath, upstreamHttpMethod, configuration)
  {
  }

  /** Asking again with the same arguments gets the same route back from
      the cache, and leaves the cache as it was. */
  lemma GetIdempotent(creator: Creator, qosCreator: QoSOptionsCreator, upstreamUrlPath: string, upstreamQueryString: string,
                      upstreamHttpMethod: string, configuration: InternalConfiguration, upstreamHost: string)
    requires Get(creator, qosCreator, upstreamUrlPath, upstreamQueryString, upstreamHttpMethod, configuration, upstreamHost).Success?
    ensures var (holder, next) := Get(creator, qosCreator, upstreamUrlPath, upstreamQueryString, upstreamHttpMethod, configuration, upstreamHost).value;
      Get(next, qosCreator, upstreamUrlPath, upstreamQueryString, upstreamHttpMethod, configuration, upstreamHost) == Success((holder, next))
  {
  }

  /** Under sticky sessions every request shares one cache entry: after
      any successful request, a request with another path and method is
      answered with the same route. */
  lemma StickySessionSharesEntry(creator: Creator, qosCreator: QoSOptionsCreator, configuration: InternalConfiguration,
                                 path1: string, method1: string, path2: string, method2: string,
                                 query1: string, query2: string, host1: string, host2: string)
    requires IsStickySession(configuration.loadBalancerOptions)
    requires |path2| > 0
    requires Get(creator, qosCreator, path1, query1, method1, configuration, host1).Success?
    ensures var (holder, next) := Get(creator, qosCreator, path1, query1, method1, configuration, host1).value;
      Get(next, qosCreator, path2, query2, method2, configuration, host2) == Success((holder, next))
  {
  }
}
