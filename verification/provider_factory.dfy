/** The selector of the route provider used for a configuration. A
    configuration flag switches every request to the resolver with
    authentication; without it, the legacy choice applies: the route
    creator when no route has an upstream template and a service-discovery
    provider is configured, the route finder otherwise. */
module DynamicDownstreamRouteProviderFactory {
  import opened Wrappers
  import opened Text
  import opened Configuration

  /** The route providers the selector chooses among. */
  datatype Strategy =
    | DynamicWithAuth   // the resolver with authentication and its cache
    | RouteCreator      // service-discovery routes only, no authentication
    | RouteFinder       // matching against the configured routes

  /** The selector's state: the flag, read once at construction. */
  datatype ProviderFactory = ProviderFactory(enableDynamicRouting: bool)

  /** The constructor: dynamic routing is on exactly when the setting
      `GlobalConfiguration:EnableDynamicRouting` reads `True`, in that case;
      a missing or empty setting, `true` or anything else leaves it off. */
  function Create(enableDynamicRoutingSetting: Option<string>): (r: ProviderFactory)
    ensures r.enableDynamicRouting <==> enableDynamicRoutingSetting == Some("True")
  {
    ProviderFactory(!IsNullOrEmpty(enableDynamicRoutingSetting) && enableDynamicRoutingSetting.value == "True")
  }

  /** A service-discovery provider is configured: present, with a host, a
      positive port and a type. */
  function IsServiceDiscovery(config: Option<ServiceProviderConfiguration>): (r: bool)
    ensures r <==>
      && config.Some?
      && config.value.host.Some? && config.value.host.value != ""
      && config.value.port > 0
      && config.value.typeName.Some? && config.value.typeName.value != ""
  {
    !IsNullOrEmpty(if config.Some? then config.value.host else None)
    && (config.Some? && config.value.port > 0)
    && !IsNullOrEmpty(config.value.typeName)
  }

  /** A route whose upstream template has original text. */
  predicate HasUpstreamTemplate(route: Route) {
    !IsNullOrEmpty(if route.upstreamTemplatePattern.Some? then route.upstreamTemplatePattern.value.originalValue else None)
  }

  /** The provider for a configuration. */
  function Get(factory: ProviderFactory, config: InternalConfiguration): (r: Strategy)
    ensures factory.enableDynamicRouting ==> r == DynamicWithAuth
    ensures !factory.enableDynamicRouting ==> r != DynamicWithAuth
    ensures r == RouteCreator <==>
      && !factory.enableDynamicRouting
      && (forall i :: 0 <= i < |config.routes| ==> !HasUpstreamTemplate(config.routes[i]))
      && config.serviceProviderConfiguration.Some?
      && config.serviceProviderConfiguration.value.host.Some? && config.serviceProviderConfiguration.value.host.value != ""
      && config.serviceProviderConfiguration.value.port > 0
      && config.serviceProviderConfiguration.value.typeName.Some? && config.serviceProviderConfiguration.value.typeName.value != ""
    ensures !factory.enableDynamicRouting && (exists i :: 0 <= i < |config.routes| && HasUpstreamTemplate(config.routes[i])) ==>
      r == RouteFinder
  {
    if factory.enableDynamicRouting then DynamicWithAuth
    else if (|config.routes| == 0 || forall route <- config.routes :: !HasUpstreamTemplate(route))
            && IsServiceDiscovery(config.serviceProviderConfiguration) then
      RouteCreator
    else
      RouteFinder
  }

  /** The choice depends on the flag, the routes' templates and the
      service-provider settings only: configurations that agree on those
      get the same provider, whatever their other contents. */
  lemma GetDependsOnTemplatesAndProvider(factory: ProviderFactory, c1: InternalConfiguration, c2: InternalConfiguration)
    requires |c1.routes| == |c2.routes|
    requires forall i :: 0 <= i < |c1.routes| ==>
      c1.routes[i].upstreamTemplatePattern == c2.routes[i].upstreamTemplatePattern
    requires c1.serviceProviderConfiguration == c2.serviceProviderConfiguration
    ensures Get(factory, c1) == Get(factory, c2)
  {
    assert (forall i :: 0 <= i < |c1.routes| ==> !HasUpstreamTemplate(c1.routes[i])) <==>
           (forall i :: 0 <= i < |c2.routes| ==> !HasUpstreamTemplate(c2.routes[i]));
  }
}
