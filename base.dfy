/** Shared vocabulary of the model: optional values, results, and the few
    operations on Python strings (`startswith`, `in`, `find`, `rfind`) that
    the scraper and its URL handling rely on. */
module Base {

  /** Python's `None` or a value. */
  datatype Option<+T> = None | Some(value: T)

  /** A normal return or a raised exception. */
  datatype Result<+T, +E> = Success(value: T) | Failure(error: E)

  /** The site's origin: the scraper prefixes it to relative links, and the
      robots checker and the dashboard check URLs under it. */
  const Origin := "https://www.amazon.com"

  /** `s.startswith(prefix)` */
  predicate StartsWith(s: string, prefix: string) {
    |prefix| <= |s| && s[..|prefix|] == prefix
  }

  /** `sub` sits in `s` at index `i`. */
  ghost predicate OccursAt(s: string, sub: string, i: int) {
    0 <= i && i + |sub| <= |s| && s[i..i + |sub|] == sub
  }

  /** Python's `sub in s` for two strings: a left-to-right search. */
  predicate Contains(s: string, sub: string)
    ensures Contains(s, sub) ==> |sub| <= |s|
    ensures |sub| == 0 ==> Contains(s, sub)
    decreases |s|
  {
    StartsWith(s, sub) || (|s| > 0 && Contains(s[1..], sub))
  }

  /** The search finds `sub` exactly when it occurs at some index. */
  lemma {:induction false} ContainsIffOccurs(s: string, sub: string)
    ensures Contains(s, sub) <==> exists i :: OccursAt(s, sub, i)
    decreases |s|
  {
    if StartsWith(s, sub) {
      assert OccursAt(s, sub, 0);
    } else if |s| > 0 {
      ContainsIffOccurs(s[1..], sub);
      if i :| OccursAt(s, sub, i) {
        assert i != 0;
        assert s[1..][i - 1..i - 1 + |sub|] == s[i..i + |sub|];
        assert OccursAt(s[1..], sub, i - 1);
      }
      if j :| OccursAt(s[1..], sub, j) {
        assert s[1..][j..j + |sub|] == s[j + 1..j + 1 + |sub|];
        assert OccursAt(s, sub, j + 1);
      }
    }
  }

  /** Whatever surrounds it, a string contains itself. */
  lemma ContainsInside(a: string, sub: string, b: string)
    ensures Contains(a + sub + b, sub)
  {
    var s := a + sub + b;
    assert s[|a|..|a| + |sub|] == sub;
    assert OccursAt(s, sub, |a|);
    ContainsIffOccurs(s, sub);
  }

  /** A string that lacks one character of `sub` cannot contain `sub`. */
  lemma {:induction false} MissingCharNotContained(s: string, sub: string, c: char)
    requires c in sub && c !in s
    ensures !Contains(s, sub)
    decreases |s|
  {
    if |s| > 0 {
      MissingCharNotContained(s[1..], sub, c);
    }
  }

  /** `s.find(c)`: the first index of `c`, or -1. */
  function Find(s: string, c: char): (i: int)
    ensures -1 <= i < |s|
    ensures i == -1 <==> c !in s
    ensures 0 <= i ==> s[i] == c
    ensures forall k :: 0 <= k < i ==> s[k] != c
  {
    if s == [] then -1
    else if s[0] == c then 0
    else
      var j := Find(s[1..], c);
      if j == -1 then -1 else j + 1
  }

  /** `s.rfind(c)`: the last index of `c`, or -1. */
  function RFind(s: string, c: char): (i: int)
    ensures -1 <= i < |s|
    ensures i == -1 <==> c !in s
    ensures 0 <= i ==> s[i] == c
    ensures forall k :: i < k < |s| ==> s[k] != c
  {
    if s == [] then -1
    else if s[|s| - 1] == c then |s| - 1
    else RFind(s[..|s| - 1], c)
  }

  /** `s.find(c, start)`: the first index at or after `start`, or -1. */
  function FindFrom(s: string, c: char, start: nat): (i: int)
    requires start <= |s|
    ensures i == -1 || start <= i < |s|
    ensures i == -1 <==> c !in s[start..]
    ensures 0 <= i ==> s[i] == c
    ensures forall k :: start <= k < i ==> s[k] != c
  {
    var j := Find(s[start..], c);
    if j == -1 then -1 else start + j
  }

  /** `head, _, _ = s.partition(c)` when `c` is present; the whole of `s` otherwise. */
  function Before(s: string, c: char): (r: string)
    ensures c !in r
    ensures StartsWith(s, r)
    ensures c in s ==> |r| < |s| && s[|r|] == c
    ensures c !in s ==> r == s
  {
    var i := Find(s, c);
    if i == -1 then s else s[..i]
  }

  // Steps of real arithmetic that the solver takes more reliably one at a time.

  lemma DivideThenMultiply(s: real, t: real)
    requires t > 0.0
    ensures (s / t) * t == s
  {
  }

  lemma Distribute(a: real, b: real, t: real)
    ensures (a - b) * t == a * t - b * t
  {
  }

  lemma SignOfProduct(d: real, t: real)
    requires t > 0.0
    ensures d > 0.0 <==> d * t > 0.0
    ensures d < 0.0 <==> d * t < 0.0
  {
  }

  lemma Reassociate(a: real, b: real, t: real)
    ensures (a * b) * t == b * (a * t)
  {
  }
}
