/**
 * The string helpers the handlers rely on: Go's `strings.TrimSpace`
 * (whitespace as `unicode.IsSpace` defines it) and character searches
 * used to show that concatenated identifiers can be taken apart again.
 */
module Strings {

  import opened Common

  /** Go's `unicode.IsSpace`: the Unicode White_Space property. */
  predicate IsSpace(c: char) {
    var n := c as int;
    || (9 <= n <= 13)      // \t \n \v \f \r
    || n == 0x20
    || n == 0x85
    || n == 0xA0
    || n == 0x1680
    || (0x2000 <= n <= 0x200A)
    || n == 0x2028
    || n == 0x2029
    || n == 0x202F
    || n == 0x205F
    || n == 0x3000
  }

  /** Every character of `s` is whitespace (vacuously so for ""). */
  predicate AllSpace(s: string) {
    forall i :: 0 <= i < |s| ==> IsSpace(s[i])
  }

  /** Number of whitespace characters at the front of `s`. */
  function LeadingSpaces(s: string): (k: nat)
    ensures k <= |s|
    ensures AllSpace(s[..k])
    ensures k < |s| ==> !IsSpace(s[k])
  {
    if |s| == 0 || !IsSpace(s[0]) then 0 else 1 + LeadingSpaces(s[1..])
  }

  /** Number of whitespace characters at the end of `s`. */
  function TrailingSpaces(s: string): (k: nat)
    ensures k <= |s|
    ensures AllSpace(s[|s| - k..])
    ensures k < |s| ==> !IsSpace(s[|s| - k - 1])
  {
    if |s| == 0 || !IsSpace(s[|s| - 1]) then 0 else 1 + TrailingSpaces(s[..|s| - 1])
  }

  /**
   * Go's `strings.TrimSpace`: strip leading whitespace, then trailing
   * whitespace of what remains. The result is the slice `s[a..b]` with
   * only whitespace outside it and a non-space character at each end.
   */
  function TrimSpace(s: string): (r: string)
    ensures |r| <= |s|
    ensures |r| == 0 <==> AllSpace(s)
    ensures |r| > 0 ==> !IsSpace(r[0]) && !IsSpace(r[|r| - 1])
    ensures LeadingSpaces(s) + |r| <= |s|
    ensures r == s[LeadingSpaces(s)..LeadingSpaces(s) + |r|]
    ensures AllSpace(s[LeadingSpaces(s) + |r|..])
  {
    var a := LeadingSpaces(s);
    var rest := s[a..];
    var r := rest[..|rest| - TrailingSpaces(rest)];
    TrimmedSlice(s, a, rest, r);
    r
  }

  /** The facts `TrimSpace` promises, about the pieces its body computes. */
  lemma TrimmedSlice(s: string, a: nat, rest: string, r: string)
    requires a == LeadingSpaces(s) && rest == s[a..]
    requires r == rest[..|rest| - TrailingSpaces(rest)]
    ensures r == s[a..a + |r|] && AllSpace(s[..a]) && AllSpace(s[a + |r|..])
    ensures |r| == 0 <==> AllSpace(s)
    ensures |r| > 0 ==> !IsSpace(r[0]) && !IsSpace(r[|r| - 1])
  {
    var t := TrailingSpaces(rest);
    assert s[a + |r|..] == rest[|rest| - t..];
    assert |rest| > 0 ==> rest[0] == s[a] && !IsSpace(rest[0]);
    assert t == |rest| ==> rest[|rest| - t..] == rest;
    if |r| == 0 {
      assert |rest| == 0;
      assert s[..a] == s;
    } else {
      assert r[0] == s[a];
    }
  }

  /** Position of the first `c` in `s`, if any. */
  function FirstIndexOf(s: string, c: char): (k: Option<nat>)
    ensures k.Some? <==> c in s
    ensures k.Some? ==> k.value < |s| && s[k.value] == c && c !in s[..k.value]
  {
    if |s| == 0 then None
    else if s[0] == c then Some(0)
    else match FirstIndexOf(s[1..], c)
      case None => None
      case Some(i) => assert s[..i + 1] == [s[0]] + s[1..][..i]; Some(i + 1)
  }

  /** Position of the last `c` in `s`, if any. */
  function LastIndexOf(s: string, c: char): (k: Option<nat>)
    ensures k.Some? <==> c in s
    ensures k.Some? ==> k.value < |s| && s[k.value] == c && c !in s[k.value + 1..]
  {
    if |s| == 0 then None
    else if s[|s| - 1] == c then Some(|s| - 1)
    else match LastIndexOf(s[..|s| - 1], c)
      case None => assert s == s[..|s| - 1] + [s[|s| - 1]]; None
      case Some(i) =>
        assert s[i + 1..] == s[..|s| - 1][i + 1..] + [s[|s| - 1]];
        Some(i)
  }

  /** In `a + [c] + b` with no `c` in `a`, the first `c` is the one joining them. */
  lemma {:induction false} FirstIndexOfJoin(a: string, c: char, b: string)
    requires c !in a
    ensures FirstIndexOf(a + [c] + b, c) == Some(|a|)
  {
    var s := a + [c] + b;
    if |a| > 0 {
      assert s[0] == a[0] && s[1..] == a[1..] + [c] + b;
      FirstIndexOfJoin(a[1..], c, b);
    }
  }

  /** In `a + [c] + b` with no `c` in `b`, the last `c` is the one joining them. */
  lemma {:induction false} LastIndexOfJoin(a: string, c: char, b: string)
    requires c !in b
    ensures LastIndexOf(a + [c] + b, c) == Some(|a|)
  {
    var s := a + [c] + b;
    if |b| > 0 {
      assert s[|s| - 1] == b[|b| - 1];
      assert s[..|s| - 1] == a + [c] + b[..|b| - 1];
      LastIndexOfJoin(a, c, b[..|b| - 1]);
    }
  }

  /** `a`, the separator `sep`, then `b`: never empty, and `sep` sits right after `a`. */
  function Join(a: string, sep: char, b: string): (r: string)
    ensures |r| == |a| + 1 + |b|
    ensures r[..|a|] == a && r[|a|] == sep && r[|a| + 1..] == b
  {
    a + [sep] + b
  }

  /**
   * Split `s` at its last `sep`. Joining the parts again gives `s` back,
   * and the second part holds no `sep`.
   */
  function SplitAtLast(s: string, sep: char): (parts: Option<(string, string)>)
    ensures parts.None? <==> sep !in s
    ensures parts.Some? ==> Join(parts.value.0, sep, parts.value.1) == s && sep !in parts.value.1
  {
    match LastIndexOf(s, sep)
    case None => None
    case Some(k) =>
      assert s == s[..k] + [sep] + s[k + 1..];
      Some((s[..k], s[k + 1..]))
  }

  /** Splitting a join at its separator gives back both parts, when the second holds no separator. */
  lemma SplitAtLastJoin(a: string, sep: char, b: string)
    requires sep !in b
    ensures SplitAtLast(Join(a, sep, b), sep) == Some((a, b))
  {
    LastIndexOfJoin(a, sep, b);
  }
}
