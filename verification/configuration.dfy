/** The configuration records the routing code reads and builds: the
    internal (already parsed) gateway configuration, its routes and their
    downstream targets. Option-typed fields are the references the code
    treats as possibly null. Policies whose contents the routing code never
    inspects (QoS, HTTP handler, authentication, most of rate limiting) are
    carried as plain records and only ever copied. */
module Configuration {
  import opened Wrappers

  /** Load-balancer settings; `typeName` is the balancer's type name. */
  datatype LoadBalancerOptions = LoadBalancerOptions(
    typeName: Option<string>,
    key: Option<string>,
    expiryInMs: int)

  datatype QoSOptions = QoSOptions(
    exceptionsAllowedBeforeBreaking: int,
    durationOfBreak: int,
    timeoutValue: int,
    key: string)

  /** The QoS options factory: from the configuration-wide QoS settings,
      a key path and the request methods to the options of one route. */
  type QoSOptionsCreator = (QoSOptions, string, seq<string>) -> QoSOptions

  datatype HttpHandlerOptions = HttpHandlerOptions(
    allowAutoRedirect: bool,
    useCookieContainer: bool,
    useTracing: bool,
    useProxy: bool,
    maxConnectionsPerServer: int)

  datatype HttpVersion = HttpVersion(major: nat, minor: nat)

  datatype RateLimitOptions = RateLimitOptions(
    enableRateLimiting: bool,
    clientIdHeader: string,
    clientWhitelist: seq<string>,
    rateLimitCounterPrefix: string,
    period: string,
    limit: int)

  datatype AuthenticationOptions = AuthenticationOptions(
    allowedScopes: seq<string>,
    authenticationProviderKey: string)

  /** The `GlobalConfiguration:AuthenticationOptions` section as read from
      the configuration file. */
  datatype FileAuthenticationOptions = FileAuthenticationOptions(
    allowedScopes: seq<string>,
    authenticationProviderKey: string)

  datatype UpstreamPathTemplate = UpstreamPathTemplate(originalValue: Option<string>)

  /** One downstream target of a route. */
  datatype DownstreamRoute = DownstreamRoute(
    serviceName: Option<string>,
    loadBalancerKey: string,
    downstreamPathTemplate: string,
    useServiceDiscovery: bool,
    httpHandlerOptions: HttpHandlerOptions,
    qosOptions: QoSOptions,
    downstreamScheme: string,
    loadBalancerOptions: LoadBalancerOptions,
    downstreamHttpVersion: HttpVersion,
    upstreamPathTemplate: Option<UpstreamPathTemplate>,
    rateLimitOptions: Option<RateLimitOptions>,
    enableRateLimiting: bool,
    authenticationOptions: Option<AuthenticationOptions>,
    isAuthenticated: bool)

  /** A route: the upstream template and methods it answers, and its
      downstream targets. */
  datatype Route = Route(
    downstreamRoute: seq<DownstreamRoute>,
    upstreamHttpMethod: seq<string>,
    upstreamTemplatePattern: Option<UpstreamPathTemplate>)

  datatype PlaceholderNameAndValue = PlaceholderNameAndValue(name: string, value: string)

  /** A resolved route with the placeholder values extracted from the
      request path; this is what the cache stores and `Get` returns. */
  datatype DownstreamRouteHolder = DownstreamRouteHolder(
    templatePlaceholderNameAndValues: seq<PlaceholderNameAndValue>,
    route: Route)

  datatype ServiceProviderConfiguration = ServiceProviderConfiguration(
    host: Option<string>,
    port: int,
    typeName: Option<string>)

  /** The gateway's internal configuration as seen by one request. */
  datatype InternalConfiguration = InternalConfiguration(
    routes: seq<Route>,
    serviceProviderConfiguration: Option<ServiceProviderConfiguration>,
    loadBalancerOptions: LoadBalancerOptions,
    qosOptions: QoSOptions,
    httpHandlerOptions: HttpHandlerOptions,
    downstreamScheme: string,
    downstreamHttpVersion: HttpVersion)
}
