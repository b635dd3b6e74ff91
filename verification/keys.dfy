/** Cache keys. A key is either the sticky-session key of the load
    balancer or the key path and request method joined by `|`. */
module Keys {
  import opened Wrappers
  import opened Text
  import opened Configuration

  /** The type name of the cookie sticky-session load balancer. */
  const CookieStickySessions := "CookieStickySessions"

  /** The load balancer pins clients by a session key: its type is the
      cookie sticky-session balancer and it names a non-empty key. */
  predicate IsStickySession(lb: LoadBalancerOptions) {
    !IsNullOrEmpty(lb.typeName) && !IsNullOrEmpty(lb.key) && lb.typeName == Some(CookieStickySessions)
  }

  /** The key of a route by key path and method alone. */
  function CreateQoSKey(downstreamTemplatePath: string, httpMethod: string): (r: string)
    ensures |r| == |downstreamTemplatePath| + 1 + |httpMethod|
    ensures r[..|downstreamTemplatePath|] == downstreamTemplatePath
    ensures r[|downstreamTemplatePath|] == '|'
    ensures r[|downstreamTemplatePath| + 1..] == httpMethod
  {
    downstreamTemplatePath + "|" + httpMethod
  }

  /** The cache key of a request: under sticky sessions only the session
      key counts, whatever the path and method; otherwise path and method. */
  function CreateLoadBalancerKey(downstreamTemplatePath: string, httpMethod: string, lb: LoadBalancerOptions): (r: string)
    ensures IsStickySession(lb) ==> r == CookieStickySessions + ":" + lb.key.value
    ensures !IsStickySession(lb) ==> r == CreateQoSKey(downstreamTemplatePath, httpMethod)
  {
    if !IsNullOrEmpty(lb.typeName) && !IsNullOrEmpty(lb.key) && lb.typeName.value == CookieStickySessions then
      CookieStickySessions + ":" + lb.key.value
    else
      CreateQoSKey(downstreamTemplatePath, httpMethod)
  }

  /** Reads a path-and-method key back: the method is what follows the
      last `|`, the path what precedes it. */
  function SplitQoSKey(key: string): (r: Option<(string, string)>)
    ensures r.None? <==> '|' !in key
    ensures r.Some? ==> '|' !in r.value.1 && CreateQoSKey(r.value.0, r.value.1) == key
  {
    var i := LastIndexOf(key, '|');
    if i == -1 then None
    else
      assert key == key[..i] + "|" + key[i + 1..];
      Some((key[..i], key[i + 1..]))
  }

  /** A path-and-method key gives back its path and method, provided the
      method holds no `|` (the path may). */
  lemma QoSKeyRoundTrip(path: string, httpMethod: string)
    requires '|' !in httpMethod
    ensures SplitQoSKey(CreateQoSKey(path, httpMethod)) == Some((path, httpMethod))
  {
    var key := CreateQoSKey(path, httpMethod);
    assert key[|path|] == '|';
    assert key[|path| + 1..] == httpMethod;
  }

  /** Hence two requests share a path-and-method key only when they agree
      on both path and method. */
  lemma QoSKeyInjective(p1: string, m1: string, p2: string, m2: string)
    requires '|' !in m1 && '|' !in m2
    requires CreateQoSKey(p1, m1) == CreateQoSKey(p2, m2)
    ensures p1 == p2 && m1 == m2
  {
    QoSKeyRoundTrip(p1, m1);
    QoSKeyRoundTrip(p2, m2);
  }

  /** A key built from a path with a leading `/` is never a sticky-session
      key, so the two kinds of entry cannot collide in the cache. */
  lemma PathKeyIsNotStickyKey(path: string, httpMethod: string, sessionKey: string)
    requires |path| > 0 && path[0] == '/'
    ensures CreateQoSKey(path, httpMethod) != CookieStickySessions + ":" + sessionKey
  {
    assert CreateQoSKey(path, httpMethod)[0] == '/';
    assert (CookieStickySessions + ":" + sessionKey)[0] == 'C';
  }
}
