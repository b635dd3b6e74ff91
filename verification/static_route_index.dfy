/** The static part of the route cache, filled once when the resolver is
    built: every configured route is entered under the key of each of its
    methods, and an earlier route keeps a key a later one also claims. */
module StaticRouteIndex {
  import opened Wrappers
  import opened Text
  import opened Configuration
  import opened Keys

  /** The resolver's cache, from cache key to resolved route. */
  type Cache = map<string, DownstreamRouteHolder>

  /** A configured route as the cache holds it: no placeholder values. */
  function StaticHolder(route: Route): DownstreamRouteHolder {
    DownstreamRouteHolder([], route)
  }

  /** Insert-if-absent: a key already present keeps its value. */
  function TryAdd(cache: Cache, key: string, holder: DownstreamRouteHolder): (r: Cache)
    ensures r.Keys == cache.Keys + {key}
    ensures forall k :: k in cache ==> r[k] == cache[k]
    ensures key !in cache ==> r[key] == holder
  {
    if key in cache then cache else cache[key := holder]
  }

  /** The key under which a route is entered for one of its methods: the
      template's original text (empty when null), the method upper-cased,
      and the configuration-wide load-balancer options. */
  function StaticKey(template: UpstreamPathTemplate, httpMethod: string, lb: LoadBalancerOptions): (r: string)
    ensures IsStickySession(lb) ==> r == CookieStickySessions + ":" + lb.key.value
    ensures !IsStickySession(lb) ==>
      var t := OrEmpty(template.originalValue);
      && |r| == |t| + 1 + |httpMethod|
      && r[..|t|] == t && r[|t|] == '|' && r[|t| + 1..] == ToUpper(httpMethod)
    ensures !IsStickySession(lb) && '|' !in httpMethod ==>
      SplitQoSKey(r) == Some((OrEmpty(template.originalValue), ToUpper(httpMethod)))
  {
    var m := ToUpper(httpMethod);
    var r := CreateLoadBalancerKey(OrEmpty(template.originalValue), m, lb);
    assert !IsStickySession(lb) && '|' !in httpMethod ==> SplitQoSKey(r) == Some((OrEmpty(template.originalValue), m)) by {
      if !IsStickySession(lb) && '|' !in httpMethod {
        forall i | 0 <= i < |m| ensures m[i] != '|' {
          assert httpMethod[i] != '|';
        }
        QoSKeyRoundTrip(OrEmpty(template.originalValue), m);
      }
    }
    r
  }

  /** Some method among `methods` puts `template` under `key`. */
  predicate ClaimedBy(template: UpstreamPathTemplate, methods: seq<string>, key: string, lb: LoadBalancerOptions) {
    exists j :: 0 <= j < |methods| && StaticKey(template, methods[j], lb) == key
  }

  /** The route is entered under `key` for at least one of its methods. */
  predicate Claims(route: Route, key: string, lb: LoadBalancerOptions) {
    route.upstreamTemplatePattern.Some? && ClaimedBy(route.upstreamTemplatePattern.value, route.upstreamHttpMethod, key, lb)
  }

  /** Route `i` claims `key` and no earlier route does. */
  predicate FirstClaimant(routes: seq<Route>, key: string, lb: LoadBalancerOptions, i: nat) {
    i < |routes| && Claims(routes[i], key, lb) && forall i' :: 0 <= i' < i ==> !Claims(routes[i'], key, lb)
  }

  /** Every route that declares a method has a template; reading the
      template of a route without one throws. */
  predicate TemplatesPresent(routes: seq<Route>) {
    forall i :: 0 <= i < |routes| && |routes[i].upstreamHttpMethod| > 0 ==> routes[i].upstreamTemplatePattern.Some?
  }

  /** The inner loop of the constructor: enters one route under the key of
      each method in `methods`, in order, never overwriting. */
  function AddRouteMethods(cache: Cache, route: Route, methods: seq<string>, lb: LoadBalancerOptions): (r: Result<Cache>)
    ensures r.Failure? <==> |methods| > 0 && route.upstreamTemplatePattern.None?
    ensures r.Failure? ==> r.error == NullReference
    ensures r.Success? ==> forall k :: k in r.value <==>
      k in cache || (route.upstreamTemplatePattern.Some? && ClaimedBy(route.upstreamTemplatePattern.value, methods, k, lb))
    ensures r.Success? ==> forall k :: k in r.value ==>
      r.value[k] == if k in cache then cache[k] else StaticHolder(route)
    decreases |methods|
  {
    if |methods| == 0 then Success(cache)
    else match route.upstreamTemplatePattern
      case None => Failure(NullReference)
      case Some(template) =>
        var key := StaticKey(template, methods[0], lb);
        var r := AddRouteMethods(TryAdd(cache, key, StaticHolder(route)), route, methods[1..], lb);
        assert r.Success? ==> forall k :: ClaimedBy(template, methods, k, lb) <==>
          k == key || ClaimedBy(template, methods[1..], k, lb) by {
          if r.Success? {
            forall k ensures ClaimedBy(template, methods, k, lb) <==> k == key || ClaimedBy(template, methods[1..], k, lb) {
              if ClaimedBy(template, methods, k, lb) && k != key {
                var j :| 0 <= j < |methods| && StaticKey(template, methods[j], lb) == k;
                assert StaticKey(template, methods[1..][j - 1], lb) == k;
              }
              if ClaimedBy(template, methods[1..], k, lb) {
                var j :| 0 <= j < |methods[1..]| && StaticKey(template, methods[1..][j], lb) == k;
                assert StaticKey(template, methods[j + 1], lb) == k;
              }
            }
          }
        }
        r
  }

  /** The outer loop of the constructor: enters every route in table
      order; stops with the exception of the first route lacking a
      template. */
  function AddRoutes(cache: Cache, routes: seq<Route>, lb: LoadBalancerOptions): (r: Result<Cache>)
    ensures r.Failure? <==> !TemplatesPresent(routes)
    ensures r.Failure? ==> r.error == NullReference
    ensures r.Success? ==> forall k :: k in r.value <==>
      k in cache || exists i :: 0 <= i < |routes| && Claims(routes[i], k, lb)
    ensures r.Success? ==> forall k :: k in cache ==> r.value[k] == cache[k]
    ensures r.Success? ==> forall k :: k in r.value && k !in cache ==>
      exists i: nat :: FirstClaimant(routes, k, lb, i) && r.value[k] == StaticHolder(routes[i])
    decreases |routes|
  {
    if |routes| == 0 then Success(cache)
    else match AddRouteMethods(cache, routes[0], routes[0].upstreamHttpMethod, lb)
      case Failure(e) => Failure(e)
      case Success(c1) =>
        var r := AddRoutes(c1, routes[1..], lb);
        AddRoutesStep(cache, c1, routes, lb, r);
        r
  }

  /** The step of `AddRoutes`: the first route's entries followed by the
      rest's give the entries of the whole table. */
  lemma AddRoutesStep(cache: Cache, c1: Cache, routes: seq<Route>, lb: LoadBalancerOptions, r: Result<Cache>)
    requires |routes| > 0
    requires AddRouteMethods(cache, routes[0], routes[0].upstreamHttpMethod, lb) == Success(c1)
    requires r.Failure? <==> !TemplatesPresent(routes[1..])
    requires r.Success? ==> forall k :: k in r.value <==>
      k in c1 || exists i :: 0 <= i < |routes[1..]| && Claims(routes[1..][i], k, lb)
    requires r.Success? ==> forall k :: k in c1 ==> r.value[k] == c1[k]
    requires r.Success? ==> forall k :: k in r.value && k !in c1 ==>
      exists i: nat :: FirstClaimant(routes[1..], k, lb, i) && r.value[k] == StaticHolder(routes[1..][i])
    ensures r.Failure? <==> !TemplatesPresent(routes)
    ensures r.Success? ==> forall k :: k in r.value <==>
      k in cache || exists i :: 0 <= i < |routes| && Claims(routes[i], k, lb)
    ensures r.Success? ==> forall k :: k in cache ==> r.value[k] == cache[k]
    ensures r.Success? ==> forall k :: k in r.value && k !in cache ==>
      exists i: nat :: FirstClaimant(routes, k, lb, i) && r.value[k] == StaticHolder(routes[i])
  {
    TemplatesPresentTail(routes);
    if r.Success? {
      forall k ensures k in r.value <==> k in cache || exists i :: 0 <= i < |routes| && Claims(routes[i], k, lb) {
        SomeClaimTail(routes, k, lb);
      }
      forall k | k in r.value && k !in cache
        ensures exists i: nat :: FirstClaimant(routes, k, lb, i) && r.value[k] == StaticHolder(routes[i])
      {
        if k in c1 {
          assert FirstClaimant(routes, k, lb, 0);
        } else {
          var i: nat :| FirstClaimant(routes[1..], k, lb, i) && r.value[k] == StaticHolder(routes[1..][i]);
          FirstClaimantTail(routes, k, lb, i);
        }
      }
    }
  }

  lemma TemplatesPresentTail(routes: seq<Route>)
    requires |routes| > 0
    ensures TemplatesPresent(routes) <==>
      (|routes[0].upstreamHttpMethod| > 0 ==> routes[0].upstreamTemplatePattern.Some?) && TemplatesPresent(routes[1..])
  {
  }

  lemma SomeClaimTail(routes: seq<Route>, k: string, lb: LoadBalancerOptions)
    requires |routes| > 0
    ensures (exists i :: 0 <= i < |routes| && Claims(routes[i], k, lb)) <==>
      Claims(routes[0], k, lb) || exists i :: 0 <= i < |routes[1..]| && Claims(routes[1..][i], k, lb)
  {
    if exists i :: 0 <= i < |routes| && Claims(routes[i], k, lb) {
      var i :| 0 <= i < |routes| && Claims(routes[i], k, lb);
      if i > 0 { assert Claims(routes[1..][i - 1], k, lb); }
    }
    if exists i :: 0 <= i < |routes[1..]| && Claims(routes[1..][i], k, lb) {
      var i :| 0 <= i < |routes[1..]| && Claims(routes[1..][i], k, lb);
      assert Claims(routes[i + 1], k, lb);
    }
  }

  lemma FirstClaimantTail(routes: seq<Route>, k: string, lb: LoadBalancerOptions, i: nat)
    requires |routes| > 0 && !Claims(routes[0], k, lb)
    requires FirstClaimant(routes[1..], k, lb, i)
    ensures FirstClaimant(routes, k, lb, i + 1) && routes[1..][i] == routes[i + 1]
  {
  }
}
