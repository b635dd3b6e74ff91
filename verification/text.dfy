/** The handful of .NET string operations the routing code relies on,
    over strings as sequences of characters. */
module Text {
  import opened Wrappers

  /** `string.IsNullOrEmpty`, with null modelled as `None`. */
  predicate IsNullOrEmpty(s: Option<string>) {
    s.None? || s.value == ""
  }

  /** What string interpolation renders for a possibly-null string:
      the string itself, or nothing for null. */
  function OrEmpty(s: Option<string>): (r: string)
    ensures s.Some? ==> r == s.value
    ensures s.None? ==> r == ""
  {
    if s.Some? then s.value else ""
  }

  /** `s.IndexOf(c, start)`: the first position at or after `start` holding
      `c`, or -1. .NET throws when `start` is past the end of the string,
      so that is the one thing demanded of the caller. */
  function IndexOfFrom(s: string, c: char, start: nat): (r: int)
    requires start <= |s|
    ensures r == -1 || start <= r < |s|
    ensures r == -1 <==> forall i :: start <= i < |s| ==> s[i] != c
    ensures r != -1 ==> s[r] == c && forall i :: start <= i < r ==> s[i] != c
    decreases |s| - start
  {
    if start == |s| then -1
    else if s[start] == c then start
    else IndexOfFrom(s, c, start + 1)
  }

  /** `s.IndexOf(c)`: the first position holding `c`, or -1. */
  function IndexOf(s: string, c: char): (r: int)
    ensures r == -1 <==> c !in s
    ensures r != -1 ==> 0 <= r < |s| && s[r] == c && c !in s[..r]
  {
    var r := IndexOfFrom(s, c, 0);
    assert r != -1 ==> c !in s[..r] by {
      if r != -1 {
        forall i | 0 <= i < r ensures s[..r][i] != c { }
      }
    }
    r
  }

  /** `s.LastIndexOf(c)`: the last position holding `c`, or -1. */
  function LastIndexOf(s: string, c: char): (r: int)
    ensures r == -1 <==> c !in s
    ensures r != -1 ==> 0 <= r < |s| && s[r] == c && c !in s[r + 1..]
    decreases |s|
  {
    if |s| == 0 then -1
    else if s[|s| - 1] == c then |s| - 1
    else
      var r := LastIndexOf(s[..|s| - 1], c);
      assert s == s[..|s| - 1] + [s[|s| - 1]];
      r
  }

  /** `s.Substring(start, length)`: note the second argument is a length,
      not an end position. */
  function Substring(s: string, start: nat, length: nat): (r: string)
    requires start + length <= |s|
    ensures |r| == length
    ensures forall i :: 0 <= i < length ==> r[i] == s[start + i]
  {
    s[start..start + length]
  }

  /** `s.TrimEnd(c)`: removes every trailing occurrence of `c`. */
  function TrimEnd(s: string, c: char): (r: string)
    ensures |r| <= |s| && r == s[..|r|]
    ensures |r| == 0 || r[|r| - 1] != c
    ensures forall i :: |r| <= i < |s| ==> s[i] == c
    decreases |s|
  {
    if |s| > 0 && s[|s| - 1] == c then TrimEnd(s[..|s| - 1], c) else s
  }

  /** Upper-casing of one character; only the ASCII letters are mapped. */
  function UpperChar(ch: char): char {
    if 'a' <= ch <= 'z' then (ch as int - 'a' as int + 'A' as int) as char else ch
  }

  /** `s.ToUpper()`, restricted to the ASCII letters. */
  function ToUpper(s: string): (r: string)
    ensures |r| == |s|
    ensures forall i :: 0 <= i < |s| ==> r[i] == UpperChar(s[i])
    ensures forall i :: 0 <= i < |r| ==> !('a' <= r[i] <= 'z')
    ensures forall i :: 0 <= i < |s| && !('a' <= s[i] <= 'z') ==> r[i] == s[i]
  {
    seq(|s|, i requires 0 <= i < |s| => UpperChar(s[i]))
  }
}
