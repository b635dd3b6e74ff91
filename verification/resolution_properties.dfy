/** Properties of resolution that relate construction and `Get`, and the
    worked requests that show how keys come out. */
module ResolutionProperties {
  import opened Wrappers
  import opened Text
  import opened Configuration
  import opened Keys
  import opened Paths
  import opened StaticRouteIndex
  import opened DynamicDownstreamRouteWithAuthCreator

  /** A request whose path is the literal template of a configured route
      (of two or more segments, without query) and whose method is one of
      the route's methods upper-cased is answered from the pre-populated
      cache: with the first configured route claiming that key, and the
      cache unchanged. */
  lemma ConfiguredRouteServedFromCache(configuration: InternalConfiguration, section: Option<FileAuthenticationOptions>,
                                       creator: Creator, qosCreator: QoSOptionsCreator, i: nat, j: nat,
                                       upstreamUrlPath: string, upstreamHttpMethod: string, query: string, host: string)
    requires Create(configuration, section) == Success(creator)
    requires i < |configuration.routes| && j < |configuration.routes[i].upstreamHttpMethod|
    requires configuration.routes[i].upstreamTemplatePattern == Some(UpstreamPathTemplate(Some(upstreamUrlPath)))
    requires ToUpper(configuration.routes[i].upstreamHttpMethod[j]) == upstreamHttpMethod
    requires |upstreamUrlPath| >= 1 && upstreamUrlPath[0] == '/' && '?' !in upstreamUrlPath && '/' in upstreamUrlPath[1..]
    ensures exists first: nat ::
      && FirstClaimant(configuration.routes, RequestKey(upstreamUrlPath, upstreamHttpMethod, configuration), configuration.loadBalancerOptions, first)
      && Get(creator, qosCreator, upstreamUrlPath, query, upstreamHttpMethod, configuration, host)
           == Success((StaticHolder(configuration.routes[first]), creator))
  {
    var routes := configuration.routes;
    KeyPathWithoutQuery(upstreamUrlPath);
    var key := RequestKey(upstreamUrlPath, upstreamHttpMethod, configuration);
    assert key == StaticKey(routes[i].upstreamTemplatePattern.value, routes[i].upstreamHttpMethod[j], configuration.loadBalancerOptions);
    assert key in creator.cache;
  }

  /** Without sticky sessions, the key of a single-segment request never
      equals the key its own literal template was entered under, whatever
      the methods: the key path gains a trailing `/` the template lacks. */
  lemma SingleSegmentKeyMissesTemplateKey(upstreamUrlPath: string, upstreamHttpMethod: string, declaredMethod: string,
                                          configuration: InternalConfiguration)
    requires !IsStickySession(configuration.loadBalancerOptions)
    requires |upstreamUrlPath| >= 1 && upstreamUrlPath[0] == '/' && '?' !in upstreamUrlPath && '/' !in upstreamUrlPath[1..]
    ensures RequestKey(upstreamUrlPath, upstreamHttpMethod, configuration)
      != StaticKey(UpstreamPathTemplate(Some(upstreamUrlPath)), declaredMethod, configuration.loadBalancerOptions)
  {
    KeyPathWithoutQuery(upstreamUrlPath);
    var requestKey := RequestKey(upstreamUrlPath, upstreamHttpMethod, configuration);
    var staticKey := StaticKey(UpstreamPathTemplate(Some(upstreamUrlPath)), declaredMethod, configuration.loadBalancerOptions);
    assert requestKey[|upstreamUrlPath|] == '/';
    assert staticKey[|upstreamUrlPath|] == '|';
  }

  /** Without sticky sessions, the key of a single-segment request without
      query is the path, then `/|`, then the method as given. */
  lemma SingleSegmentRequestKey(upstreamUrlPath: string, upstreamHttpMethod: string, configuration: InternalConfiguration)
    requires !IsStickySession(configuration.loadBalancerOptions)
    requires |upstreamUrlPath| >= 1 && upstreamUrlPath[0] == '/' && '?' !in upstreamUrlPath && '/' !in upstreamUrlPath[1..]
    ensures RequestKey(upstreamUrlPath, upstreamHttpMethod, configuration) == upstreamUrlPath + "/|" + upstreamHttpMethod
  {
    KeyPathWithoutQuery(upstreamUrlPath);
  }

  const PlainBalancer := LoadBalancerOptions(None, None, 0)

  function ExampleConfiguration(routes: seq<Route>): InternalConfiguration {
    InternalConfiguration(routes, None, PlainBalancer, QoSOptions(0, 0, 0, ""),
      HttpHandlerOptions(false, false, false, false, 0), "http", HttpVersion(1, 1))
  }

  /** A table whose routes all carry the literal single-segment template
      `p` never answers a request for `p` from the cache: the request takes
      the dynamic path, and with a global authentication policy the result
      requires authentication although the route was configured without. */
  lemma SingleSegmentRouteResolvesDynamically(configuration: InternalConfiguration, section: Option<FileAuthenticationOptions>,
                                              creator: Creator, qosCreator: QoSOptionsCreator,
                                              upstreamUrlPath: string, upstreamHttpMethod: string, query: string, host: string)
    requires !IsStickySession(configuration.loadBalancerOptions)
    requires |upstreamUrlPath| >= 1 && upstreamUrlPath[0] == '/' && '?' !in upstreamUrlPath && '/' !in upstreamUrlPath[1..]
    requires forall i :: 0 <= i < |configuration.routes| ==>
      configuration.routes[i].upstreamTemplatePattern == Some(UpstreamPathTemplate(Some(upstreamUrlPath)))
    requires Create(configuration, section) == Success(creator)
    ensures RequestKey(upstreamUrlPath, upstreamHttpMethod, configuration) !in creator.cache
    ensures var r := Get(creator, qosCreator, upstreamUrlPath, query, upstreamHttpMethod, configuration, host);
      r.Success? ==>
        && IsDynamicRoute(r.value.0.route, creator.globalAuthenticationOptions, qosCreator, upstreamUrlPath, upstreamHttpMethod, configuration)
        && r.value.0.route.downstreamRoute[0].isAuthenticated == section.Some?
  {
    var key := RequestKey(upstreamUrlPath, upstreamHttpMethod, configuration);
    var lb := configuration.loadBalancerOptions;
    if key in creator.cache {
      var first: nat :| FirstClaimant(configuration.routes, key, lb, first) && creator.cache[key] == StaticHolder(configuration.routes[first]);
      var route := configuration.routes[first];
      var j :| 0 <= j < |route.upstreamHttpMethod| && StaticKey(route.upstreamTemplatePattern.value, route.upstreamHttpMethod[j], lb) == key;
      SingleSegmentKeyMissesTemplateKey(upstreamUrlPath, upstreamHttpMethod, route.upstreamHttpMethod[j], configuration);
      assert false;
    }
  }

  /** The request key of `GET /health` under the plain balancer. */
  lemma HealthKey(p: string)
    requires p == "/health"
    ensures '/' !in p[1..] && '?' !in p && p[0] == '/'
    ensures RequestKey(p, "GET", ExampleConfiguration([])) == "/health/|GET"
  {
    assert '/' !in p[1..];
    SingleSegmentRequestKey(p, "GET", ExampleConfiguration([]));
    HealthKeyText(p);
  }

  /** Joining the pieces of the `GET /health` key. */
  lemma HealthKeyText(p: string)
    requires p == "/health"
    ensures p + "/|" + "GET" == "/health/|GET"
  {
  }

  /** A configured `GET /health` route is not what `GET /health` resolves
      to: the request key is `/health/|GET` while the route was entered as
      `/health|GET`, so the request takes the dynamic path and, with a
      global authentication policy, requires authentication. */
  lemma HealthRouteResolvesDynamically(qosCreator: QoSOptionsCreator, section: Option<FileAuthenticationOptions>, p: string)
    requires p == "/health"
    ensures var health := Route([], ["GET"], Some(UpstreamPathTemplate(Some(p))));
      var configuration := ExampleConfiguration([health]);
      && Create(configuration, section).Success?
      && var r := Get(Create(configuration, section).value, qosCreator, p, "", "GET", configuration, "localhost");
      && r.Success?
      && |r.value.0.route.downstreamRoute| == 1
      && r.value.0 != StaticHolder(health)
      && r.value.0.route.downstreamRoute[0].loadBalancerKey == "/health/|GET"
      && r.value.0.route.downstreamRoute[0].isAuthenticated == section.Some?
  {
    var health := Route([], ["GET"], Some(UpstreamPathTemplate(Some(p))));
    var configuration := ExampleConfiguration([health]);
    HealthKey(p);
    assert TemplatesPresent([health]);
    var creator := Create(configuration, section).value;
    SingleSegmentRouteResolvesDynamically(configuration, section, creator, qosCreator, p, "GET", "", "localhost");
    assert Flatten([health]) == [];
  }

  /** Where `/orders/123?x=1` splits. */
  lemma OrdersPathPieces(p: string)
    requires p == "/orders/123?x=1"
    ensures '/' !in p[1..7] && p[0] == '/' && p[7] == '/'
    ensures p[..7] == "/orders" && p[7..] == "/123?x=1"
  {
  }

  /** The query string of `/123?x=1` starts at its fifth character. */
  lemma OrdersQueryStripped()
    ensures StripQueryString("/123?x=1") == "/123"
  {
    assert "/123?x=1"[4] == '?';
  }

  lemma OrdersSplit(p: string)
    requires p == "/orders/123?x=1"
    ensures GetServiceName(p) == "orders"
    ensures StripQueryString(GetDownstreamPath(p)) == "/123"
    ensures KeyPath(p) == "/orders/123"
  {
    OrdersPathPieces(p);
    SplitSeveralSegments(p, 7);
    KeyPathOfSeveralSegments(p, 7);
    OrdersQueryStripped();
  }

  /** `GET /orders/123?x=1` with no configured routes and no global
      authentication: service `orders`, downstream path `/123`, key
      `/orders/123|GET`, resolved by service discovery, neither
      authenticated nor rate limited. */
  lemma OrdersRequestExample(qosCreator: QoSOptionsCreator, p: string)
    requires p == "/orders/123?x=1"
    ensures var r := Get(Creator(map[], None), qosCreator, p, "", "GET", ExampleConfiguration([]), "localhost");
      && r.Success?
      && |r.value.0.route.downstreamRoute| == 1
      && var d := r.value.0.route.downstreamRoute[0];
      && d.serviceName == Some("orders")
      && d.downstreamPathTemplate == "/123"
      && d.loadBalancerKey == "/orders/123|GET"
      && d.useServiceDiscovery
      && !d.isAuthenticated
      && !d.enableRateLimiting
  {
    OrdersSplit(p);
    OrdersKey(p);
    ResolvesWithoutDecoration(qosCreator, p, "", "GET", "localhost");
  }

  /** On an empty cache and an empty route table, a request resolves to an
      undecorated service-discovery route. */
  lemma ResolvesWithoutDecoration(qosCreator: QoSOptionsCreator, upstreamUrlPath: string, query: string,
                                  upstreamHttpMethod: string, host: string)
    requires |upstreamUrlPath| >= 1
    ensures var r := Get(Creator(map[], None), qosCreator, upstreamUrlPath, query, upstreamHttpMethod, ExampleConfiguration([]), host);
      && r.Success?
      && |r.value.0.route.downstreamRoute| == 1
      && var d := r.value.0.route.downstreamRoute[0];
      && d.serviceName == Some(GetServiceName(upstreamUrlPath))
      && d.downstreamPathTemplate == StripQueryString(GetDownstreamPath(upstreamUrlPath))
      && d.loadBalancerKey == RequestKey(upstreamUrlPath, upstreamHttpMethod, ExampleConfiguration([]))
      && d.useServiceDiscovery
      && !d.isAuthenticated
      && !d.enableRateLimiting
  {
    assert Flatten([]) == [];
  }

  /** The key of `GET /orders/123` under the plain balancer. */
  lemma OrdersKey(p: string)
    requires |p| >= 1 && KeyPath(p) == "/orders/123"
    ensures RequestKey(p, "GET", ExampleConfiguration([])) == "/orders/123|GET"
  {
    PlainRequestKey(p, "GET");
    OrdersKeyText();
  }

  /** Joining the pieces of the `GET /orders/123` key. */
  lemma OrdersKeyText()
    ensures "/orders/123" + "|" + "GET" == "/orders/123|GET"
  {
  }

  /** Under the plain balancer, the key of a request is its key path, then
      `|`, then the method as given. */
  lemma PlainRequestKey(upstreamUrlPath: string, upstreamHttpMethod: string)
    requires |upstreamUrlPath| >= 1
    ensures RequestKey(upstreamUrlPath, upstreamHttpMethod, ExampleConfiguration([])) == KeyPath(upstreamUrlPath) + "|" + upstreamHttpMethod
  {
  }

  /** A service name is taken before query stripping and is never
      stripped itself: for the single-segment `/orders?x=1` the service is
      `orders?x=1` and the key path `/orders?x=1/`. */
  lemma QueryInSingleSegmentStaysInServiceName()
    ensures GetServiceName("/orders?x=1") == "orders?x=1"
    ensures KeyPath("/orders?x=1") == "/orders?x=1/"
  {
    assert '/' !in "/orders?x=1"[1..];
    SplitOneSegment("/orders?x=1");
  }

  /** With the cookie sticky-session balancer and session key `sess1`,
      every request, whatever its path and method, has the key
      `CookieStickySessions:sess1`. */
  lemma StickyKeyExample(upstreamUrlPath: string, upstreamHttpMethod: string, configuration: InternalConfiguration)
    requires configuration.loadBalancerOptions == LoadBalancerOptions(Some("CookieStickySessions"), Some("sess1"), 0)
    requires |upstreamUrlPath| >= 1
    ensures RequestKey(upstreamUrlPath, upstreamHttpMethod, configuration) == "CookieStickySessions:sess1"
  {
    assert IsStickySession(configuration.loadBalancerOptions);
  }
}
