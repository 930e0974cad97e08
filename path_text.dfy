/**
 * The two string operations the request parser applies to the URL path:
 * Python's str.strip(c) and str.split(c) for a single separator character.
 */
module PathText {

  /** Every character of s is c (true of the empty string). */
  predicate AllOf(s: string, c: char) {
    forall i :: 0 <= i < |s| ==> s[i] == c
  }

  /** How many c's str.lstrip(c) removes: the length of the leading run of c. */
  function LeadingRun(s: string, c: char): (n: nat)
    ensures n <= |s|
    ensures forall i :: 0 <= i < n ==> s[i] == c
    ensures n < |s| ==> s[n] != c
  {
    if s != [] && s[0] == c then 1 + LeadingRun(s[1..], c) else 0
  }

  /** How many c's str.rstrip(c) removes: the length of the trailing run of c. */
  function TrailingRun(s: string, c: char): (n: nat)
    ensures n <= |s|
    ensures forall i :: |s| - n <= i < |s| ==> s[i] == c
    ensures n < |s| ==> s[|s| - 1 - n] != c
  {
    if s != [] && s[|s| - 1] == c then 1 + TrailingRun(s[..|s| - 1], c) else 0
  }

  /** str.strip(c): drop every leading and every trailing c. */
  function Strip(s: string, c: char): (r: string)
    ensures r == [] || (r[0] != c && r[|r| - 1] != c)
  {
    var lead := LeadingRun(s, c);
    if lead == |s| then []
    else
      var trail := TrailingRun(s, c);
      assert lead < |s| - trail;
      s[lead..|s| - trail]
  }

  /** Whatever Strip removed is made of c only: s is pre + Strip(s, c) + post. */
  lemma StripParts(s: string, c: char) returns (pre: string, post: string)
    ensures AllOf(pre, c) && AllOf(post, c)
    ensures s == pre + Strip(s, c) + post
  {
    var lead, trail := LeadingRun(s, c), TrailingRun(s, c);
    var r := Strip(s, c);
    if lead == |s| {
      pre, post := s, [];
      assert r == [];
      assert AllOf(pre, c);
      assert s == pre + r + post;
    } else {
      var mid := |s| - trail;
      assert r == s[lead..mid];
      pre, post := s[..lead], s[mid..];
      assert AllOf(pre, c) by {
        forall i | 0 <= i < |pre| ensures pre[i] == c {
          assert pre[i] == s[i];
        }
      }
      assert AllOf(post, c) by {
        forall i | 0 <= i < |post| ensures post[i] == c {
          assert post[i] == s[mid + i];
        }
      }
      assert s == pre + r + post;
    }
  }

  /** The leading run of c in a + u is a, when u does not start with c. */
  lemma {:induction false} LeadingRunPadded(a: string, u: string, c: char)
    requires AllOf(a, c)
    requires u != [] && u[0] != c
    ensures LeadingRun(a + u, c) == |a|
  {
    if a != [] {
      assert (a + u)[1..] == a[1..] + u;
      LeadingRunPadded(a[1..], u, c);
    } else {
      assert a + u == u;
    }
  }

  /** The trailing run of c in u + b is b, when u does not end with c. */
  lemma {:induction false} TrailingRunPadded(u: string, b: string, c: char)
    requires AllOf(b, c)
    requires u != [] && u[|u| - 1] != c
    ensures TrailingRun(u + b, c) == |b|
  {
    if b != [] {
      assert (u + b)[..|u + b| - 1] == u + b[..|b| - 1];
      TrailingRunPadded(u, b[..|b| - 1], c);
    } else {
      assert u + b == u;
    }
  }

  /**
   * Padding a string that neither starts nor ends with c by any run of c's on
   * either side, and then stripping, gives the string back.
   */
  lemma StripPadded(a: string, u: string, b: string, c: char)
    requires AllOf(a, c) && AllOf(b, c)
    requires u == [] || (u[0] != c && u[|u| - 1] != c)
    ensures Strip(a + u + b, c) == u
  {
    var s := a + u + b;
    if u == [] {
      assert AllOf(s, c) by {
        assert s == a + b;
      }
    } else {
      assert s == a + (u + b);
      LeadingRunPadded(a, u + b, c);
      assert s == (a + u) + b;
      TrailingRunPadded(a + u, b, c);
      assert s[|a|..|s| - |b|] == u;
    }
  }

  /** str.split(c): the pieces between the occurrences of c, always at least one. */
  function Split(s: string, c: char): (parts: seq<string>)
    ensures |parts| >= 1
    ensures forall k :: 0 <= k < |parts| ==> c !in parts[k]
    ensures |parts| == 1 <==> c !in s
    ensures c !in s ==> parts == [s]
  {
    if s == [] then [[]]
    else
      var rest := Split(s[1..], c);
      if s[0] == c then [[]] + rest
      else
        assert c in s <==> c in s[1..] by {
          assert s == [s[0]] + s[1..];
        }
        assert c !in s ==> [s[0]] + rest[0] == s;
        [[s[0]] + rest[0]] + rest[1..]
  }

  /** The pieces joined back with c between them (the inverse of Split). */
  function Join(parts: seq<string>, c: char): string
    requires |parts| >= 1
  {
    if |parts| == 1 then parts[0] else parts[0] + [c] + Join(parts[1..], c)
  }

  /** Splitting and joining back with the same separator gives the original text. */
  lemma {:induction false} JoinSplit(s: string, c: char)
    ensures Join(Split(s, c), c) == s
  {
    if s != [] {
      var rest := Split(s[1..], c);
      JoinSplit(s[1..], c);
      if s[0] == c {
        assert Split(s, c)[1..] == rest;
      } else {
        var parts := Split(s, c);
        if |rest| > 1 {
          assert parts[1..] == rest[1..];
          assert Join(rest, c) == rest[0] + [c] + Join(rest[1..], c);
        }
      }
    }
  }
}
