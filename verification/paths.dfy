/** Splitting an upstream path into the service it names and the path
    within that service, and removing a query string. The first segment of
    the path is the service name; the rest, or `/` when there is no rest,
    is the downstream path. */
module Paths {
  import opened Text

  /** The service name: the text after the first character up to (not
      including) the next `/`, or to the end when there is none. .NET
      throws on an empty path, so a character is demanded. */
  function GetServiceName(upstreamUrlPath: string): (r: string)
    requires |upstreamUrlPath| >= 1
    ensures '/' !in r
    ensures 1 + |r| <= |upstreamUrlPath| && upstreamUrlPath[1..1 + |r|] == r
    ensures 1 + |r| == |upstreamUrlPath| || upstreamUrlPath[1 + |r|] == '/'
  {
    var i := IndexOfFrom(upstreamUrlPath, '/', 1);
    if i == -1 then
      upstreamUrlPath[1..]
    else
      var taken := Substring(upstreamUrlPath, 1, i);
      assert taken == upstreamUrlPath[1..i] + "/";
      assert TrimEnd(taken, '/') == upstreamUrlPath[1..i] by {
        TrimOneSeparator(upstreamUrlPath[1..i]);
      }
      TrimEnd(taken, '/')
  }

  /** Trimming the separators off a `/`-free segment followed by one `/`
      gives the segment back. */
  lemma TrimOneSeparator(segment: string)
    requires '/' !in segment
    ensures TrimEnd(segment + "/", '/') == segment
  {
  }

  /** The downstream path: everything from the second `/` onward, or `/`
      when the path has a single segment. */
  function GetDownstreamPath(upstreamUrlPath: string): (r: string)
    requires |upstreamUrlPath| >= 1
    ensures |r| >= 1 && r[0] == '/'
    ensures r == "/" || (|r| < |upstreamUrlPath| && r == upstreamUrlPath[|upstreamUrlPath| - |r|..])
    ensures 1 + |GetServiceName(upstreamUrlPath)| == |upstreamUrlPath| ==> r == "/"
    ensures 1 + |GetServiceName(upstreamUrlPath)| < |upstreamUrlPath| ==> r == upstreamUrlPath[1 + |GetServiceName(upstreamUrlPath)|..]
  {
    var i := IndexOfFrom(upstreamUrlPath, '/', 1);
    if i == -1 then "/" else upstreamUrlPath[i..]
  }

  /** `Contains('?')`: the position `RemoveQueryString` cuts at exists. */
  function HasQueryString(downstreamPath: string): (r: bool)
    ensures r <==> IndexOf(downstreamPath, '?') != -1
  {
    '?' in downstreamPath
  }

  /** The part of a path before its first `?`. */
  function RemoveQueryString(downstreamPath: string): (r: string)
    requires HasQueryString(downstreamPath)
    ensures '?' !in r
    ensures |r| < |downstreamPath| && downstreamPath[|r|] == '?'
    ensures r == downstreamPath[..|r|]
  {
    Substring(downstreamPath, 0, IndexOf(downstreamPath, '?'))
  }

  /** The query-string step of the resolver: strip only when there is a
      `?`. The result is the longest `?`-free prefix of the path. */
  function StripQueryString(downstreamPath: string): (r: string)
    ensures '?' !in r
    ensures |r| <= |downstreamPath| && r == downstreamPath[..|r|]
    ensures r == downstreamPath || downstreamPath[|r|] == '?'
    ensures !HasQueryString(downstreamPath) ==> r == downstreamPath
  {
    if HasQueryString(downstreamPath) then RemoveQueryString(downstreamPath) else downstreamPath
  }

  /** The path used for cache keys: service name and downstream path put
      back together, without the query string. */
  function KeyPath(upstreamUrlPath: string): (r: string)
    requires |upstreamUrlPath| >= 1
    ensures var n := |GetServiceName(upstreamUrlPath)|;
      && n + 1 <= |r| && r[..n + 1] == "/" + GetServiceName(upstreamUrlPath)
      && '?' !in r[n + 1..]
    ensures upstreamUrlPath[0] == '/' ==> |r| <= |upstreamUrlPath| + 1 && r == (upstreamUrlPath + "/")[..|r|]
    ensures 1 + |GetServiceName(upstreamUrlPath)| == |upstreamUrlPath| ==> r == "/" + GetServiceName(upstreamUrlPath) + "/"
    ensures 1 + |GetServiceName(upstreamUrlPath)| == |upstreamUrlPath| && upstreamUrlPath[0] == '/' ==> r == upstreamUrlPath + "/"
    ensures 1 + |GetServiceName(upstreamUrlPath)| < |upstreamUrlPath| ==>
      r == "/" + GetServiceName(upstreamUrlPath) + StripQueryString(upstreamUrlPath[1 + |GetServiceName(upstreamUrlPath)|..])
  {
    var r := "/" + GetServiceName(upstreamUrlPath) + StripQueryString(GetDownstreamPath(upstreamUrlPath));
    KeyPathPieces(upstreamUrlPath);
    r
  }

  /** The pieces of the key path: `/` and the service name, then a
      `?`-free rest; for a path with a leading `/`, a prefix of the path
      followed by `/`. */
  lemma KeyPathPieces(upstreamUrlPath: string)
    requires |upstreamUrlPath| >= 1
    ensures var name := GetServiceName(upstreamUrlPath);
      ("/" + name + StripQueryString(GetDownstreamPath(upstreamUrlPath)))[..|name| + 1] == "/" + name
    ensures var name := GetServiceName(upstreamUrlPath);
      '?' !in ("/" + name + StripQueryString(GetDownstreamPath(upstreamUrlPath)))[|name| + 1..]
    ensures var r := "/" + GetServiceName(upstreamUrlPath) + StripQueryString(GetDownstreamPath(upstreamUrlPath));
      upstreamUrlPath[0] == '/' ==> |r| <= |upstreamUrlPath| + 1 && r == (upstreamUrlPath + "/")[..|r|]
  {
    var p := upstreamUrlPath;
    var name := GetServiceName(p);
    var rest := StripQueryString(GetDownstreamPath(p));
    var r := "/" + name + rest;
    assert r[..|name| + 1] == "/" + name;
    assert r[|name| + 1..] == rest;
    if p[0] == '/' {
      if 1 + |name| == |p| {
        KeyPathOfOneSegment(p);
        assert r == p + "/";
      } else {
        KeyPathOfSeveralSegmentsIsPrefix(p);
        assert |r| <= |p| && r == p[..|r|];
      }
    }
  }

  lemma KeyPathOfOneSegment(upstreamUrlPath: string)
    requires |upstreamUrlPath| >= 1 && upstreamUrlPath[0] == '/'
    requires 1 + |GetServiceName(upstreamUrlPath)| == |upstreamUrlPath|
    ensures "/" + GetServiceName(upstreamUrlPath) + StripQueryString(GetDownstreamPath(upstreamUrlPath)) == upstreamUrlPath + "/"
  {
    assert upstreamUrlPath == "/" + GetServiceName(upstreamUrlPath);
  }

  lemma KeyPathOfSeveralSegmentsIsPrefix(upstreamUrlPath: string)
    requires |upstreamUrlPath| >= 1 && upstreamUrlPath[0] == '/'
    requires 1 + |GetServiceName(upstreamUrlPath)| < |upstreamUrlPath|
    ensures var r := "/" + GetServiceName(upstreamUrlPath) + StripQueryString(GetDownstreamPath(upstreamUrlPath));
      |r| <= |upstreamUrlPath| && r == upstreamUrlPath[..|r|]
  {
    var p := upstreamUrlPath;
    var name := GetServiceName(p);
    var rest := StripQueryString(GetDownstreamPath(p));
    var i := 1 + |name|;
    assert rest == p[i..i + |rest|];
    assert p[..i] == "/" + name;
    assert "/" + name + rest == p[..i + |rest|];
  }

  /** A path of two or more segments splits at its second `/`, and putting
      the pieces back together gives the path. */
  lemma SplitSeveralSegments(upstreamUrlPath: string, i: nat)
    requires |upstreamUrlPath| >= 1 && upstreamUrlPath[0] == '/'
    requires 1 <= i < |upstreamUrlPath| && upstreamUrlPath[i] == '/'
    requires '/' !in upstreamUrlPath[1..i]
    ensures GetServiceName(upstreamUrlPath) == upstreamUrlPath[1..i]
    ensures GetDownstreamPath(upstreamUrlPath) == upstreamUrlPath[i..]
    ensures "/" + GetServiceName(upstreamUrlPath) + GetDownstreamPath(upstreamUrlPath) == upstreamUrlPath
  {
    var p := upstreamUrlPath;
    forall k | 1 <= k < i ensures p[k] != '/' {
      assert p[k] == p[1..i][k - 1];
    }
    assert "/" + p[1..i] + p[i..] == p;
  }

  /** A single-segment path names the service by its whole text and gets
      `/` as its downstream path, so the pieces put back together carry an
      extra trailing `/`. */
  lemma SplitOneSegment(upstreamUrlPath: string)
    requires |upstreamUrlPath| >= 1 && upstreamUrlPath[0] == '/'
    requires '/' !in upstreamUrlPath[1..]
    ensures GetServiceName(upstreamUrlPath) == upstreamUrlPath[1..]
    ensures GetDownstreamPath(upstreamUrlPath) == "/"
    ensures "/" + GetServiceName(upstreamUrlPath) + GetDownstreamPath(upstreamUrlPath) == upstreamUrlPath + "/"
  {
    var p := upstreamUrlPath;
    forall k | 1 <= k < |p| ensures p[k] != '/' {
      assert p[k] == p[1..][k - 1];
    }
    assert "/" + p[1..] == p;
  }

  /** Without a query string, the key path of a single-segment path is the
      path with `/` appended, and that of a longer path is the path itself. */
  lemma KeyPathWithoutQuery(upstreamUrlPath: string)
    requires |upstreamUrlPath| >= 1 && upstreamUrlPath[0] == '/'
    requires '?' !in upstreamUrlPath
    ensures '/' !in upstreamUrlPath[1..] ==> KeyPath(upstreamUrlPath) == upstreamUrlPath + "/"
    ensures '/' in upstreamUrlPath[1..] ==> KeyPath(upstreamUrlPath) == upstreamUrlPath
  {
    var p := upstreamUrlPath;
    var i := IndexOfFrom(p, '/', 1);
    if i == -1 {
      assert '/' !in p[1..];
      SplitOneSegment(p);
    } else {
      assert '/' in p[1..] by { assert p[1..][i - 1] == '/'; }
      assert '/' !in p[1..i];
      SplitSeveralSegments(p, i);
      assert '?' !in p[i..];
    }
  }

  /** The key path of a request of two or more segments is its first
      segment followed by the rest without query string. */
  lemma KeyPathOfSeveralSegments(upstreamUrlPath: string, i: nat)
    requires |upstreamUrlPath| >= 1 && upstreamUrlPath[0] == '/'
    requires 1 <= i < |upstreamUrlPath| && upstreamUrlPath[i] == '/'
    requires '/' !in upstreamUrlPath[1..i]
    ensures KeyPath(upstreamUrlPath) == upstreamUrlPath[..i] + StripQueryString(upstreamUrlPath[i..])
  {
    SplitSeveralSegments(upstreamUrlPath, i);
    assert "/" + upstreamUrlPath[1..i] == upstreamUrlPath[..i];
  }
}
