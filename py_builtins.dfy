/**
 * The few Python built-ins the match store and the aggregator rely on:
 * `str.replace(pat, "")`, `str.endswith` and `str(int)` on `string` (a
 * sequence of characters), and `list.index`.
 */
module PyBuiltins {
  import opened Wrappers

  /** `pat` occurs in `s` at position `i`. */
  predicate OccursAt(pat: string, s: string, i: int) {
    0 <= i && i + |pat| <= |s| && s[i..i + |pat|] == pat
  }

  /** `pat in s`. */
  predicate Occurs(pat: string, s: string) {
    exists i | 0 <= i <= |s| :: OccursAt(pat, s, i)
  }

  /** `s.endswith(suffix)`. */
  predicate EndsWith(s: string, suffix: string) {
    |suffix| <= |s| && s[|s| - |suffix|..] == suffix
  }

  /**
   * `s.replace(pat, "")` for a non-empty `pat`: scanning left to right, each
   * occurrence is removed and the scan resumes after it.
   */
  function RemoveAll(s: string, pat: string): string
    requires pat != ""
    decreases |s|
  {
    if |s| < |pat| then s
    else if s[..|pat|] == pat then RemoveAll(s[|pat|..], pat)
    else [s[0]] + RemoveAll(s[1..], pat)
  }

  /** No occurrence of `pat` in `a + b` starts inside `a` and ends inside `b`. */
  ghost predicate NoStraddle(a: string, b: string, pat: string) {
    forall i :: 0 <= i < |a| < i + |pat| ==> !OccursAt(pat, a + b, i)
  }

  /** Removing a pattern that does not occur changes nothing. */
  lemma {:induction false} RemoveAllAbsent(s: string, pat: string)
    requires pat != "" && !Occurs(pat, s)
    ensures RemoveAll(s, pat) == s
    decreases |s|
  {
    if |pat| <= |s| {
      assert s[0..0 + |pat|] == s[..|pat|];
      assert !OccursAt(pat, s, 0);
      assert !Occurs(pat, s[1..]) by {
        forall i | 0 <= i && i + |pat| <= |s[1..]| ensures !OccursAt(pat, s[1..], i) {
          assert s[1..][i..i + |pat|] == s[i + 1..i + 1 + |pat|];
          assert !OccursAt(pat, s, i + 1);
        }
      }
      RemoveAllAbsent(s[1..], pat);
      assert [s[0]] + s[1..] == s;
    }
  }

  lemma NoStraddleSuffix(a: string, b: string, pat: string, k: nat)
    requires k <= |a| && NoStraddle(a, b, pat)
    ensures NoStraddle(a[k..], b, pat)
  {
    assert a[k..] + b == (a + b)[k..];
    forall i | 0 <= i < |a[k..]| < i + |pat|
      ensures !OccursAt(pat, a[k..] + b, i)
    {
      assert !OccursAt(pat, a + b, i + k);
      if i + |pat| <= |a[k..] + b| {
        assert (a[k..] + b)[i..i + |pat|] == (a + b)[i + k..i + k + |pat|];
      }
    }
  }

  /**
   * When no occurrence straddles the seam, removing a pattern from `a + b`
   * is removing it from each part.
   */
  lemma {:induction false} RemoveAllConcat(a: string, b: string, pat: string)
    requires pat != "" && NoStraddle(a, b, pat)
    ensures RemoveAll(a + b, pat) == RemoveAll(a, pat) + RemoveAll(b, pat)
    decreases |a|
  {
    var n := |pat|;
    if a == [] {
      assert a + b == b;
    } else if |a + b| < n {
      assert RemoveAll(a, pat) == a && RemoveAll(b, pat) == b;
    } else if |a| < n {
      assert !OccursAt(pat, a + b, 0);
      assert (a + b)[0..0 + n] == (a + b)[..n];
      RemoveAllSkipsHead(a, b, pat);
    } else if a[..n] == pat {
      assert (a + b)[..n] == a[..n];
      assert (a + b)[n..] == a[n..] + b;
      NoStraddleSuffix(a, b, pat, n);
      RemoveAllConcat(a[n..], b, pat);
    } else {
      assert (a + b)[..n] == a[..n];
      RemoveAllSkipsHead(a, b, pat);
    }
  }

  /** The step of `RemoveAllConcat` where the first character is kept. */
  lemma {:induction false} RemoveAllSkipsHead(a: string, b: string, pat: string)
    requires pat != "" && NoStraddle(a, b, pat) && a != []
    requires |a + b| >= |pat| && (a + b)[..|pat|] != pat
    requires |a| >= |pat| ==> a[..|pat|] != pat
    ensures RemoveAll(a + b, pat) == RemoveAll(a, pat) + RemoveAll(b, pat)
    decreases |a|, 0
  {
    assert (a + b)[1..] == a[1..] + b;
    NoStraddleSuffix(a, b, pat, 1);
    RemoveAllConcat(a[1..], b, pat);
    assert RemoveAll(a + b, pat) == [a[0]] + RemoveAll(a[1..] + b, pat);
    if |a| < |pat| {
      assert RemoveAll(a, pat) == a;
      assert RemoveAll(a[1..], pat) == a[1..];
      assert [a[0]] + a[1..] == a;
    } else {
      assert RemoveAll(a, pat) == [a[0]] + RemoveAll(a[1..], pat);
    }
  }

  /**
   * A straddling occurrence would put a non-empty proper prefix `pat[..k]` at
   * the end of `a` and `pat[k]` at the head of `b`; ruling out every such
   * split rules it out.
   */
  lemma NoStraddleByEnds(a: string, b: string, pat: string)
    requires b != []
    requires forall k :: 0 < k < |pat| ==> pat[k] != b[0] || !EndsWith(a, pat[..k])
    ensures NoStraddle(a, b, pat)
  {
    forall i | 0 <= i < |a| < i + |pat|
      ensures !OccursAt(pat, a + b, i)
    {
      var k := |a| - i;
      if i + |pat| <= |a| + |b| {
        var w := (a + b)[i..i + |pat|];
        assert w[k] == b[0];
        assert w[..k] == a[i..];
        if pat[k] == b[0] {
          assert a[|a| - |pat[..k]|..] == a[i..];
          assert a[i..] != pat[..k];
        }
      }
    }
  }

  /** A pattern absent from both parts, and not straddling the seam, is absent from the whole. */
  lemma ConcatKeepsAbsent(a: string, b: string, pat: string)
    requires !Occurs(pat, a) && !Occurs(pat, b) && NoStraddle(a, b, pat)
    ensures !Occurs(pat, a + b)
  {
    forall i | 0 <= i <= |a + b|
      ensures !OccursAt(pat, a + b, i)
    {
      if i + |pat| <= |a + b| {
        if i + |pat| <= |a| {
          assert (a + b)[i..i + |pat|] == a[i..i + |pat|];
          assert !OccursAt(pat, a, i);
        } else if |a| <= i {
          assert (a + b)[i..i + |pat|] == b[i - |a|..i - |a| + |pat|];
          assert !OccursAt(pat, b, i - |a|);
        }
      }
    }
  }

  /** `str(d)` for one decimal digit. */
  function DigitChar(d: nat): char
    requires d < 10
  {
    "0123456789"[d]
  }

  /** `str(n)` for a natural number: its decimal digits, most significant first. */
  function NatToString(n: nat): (s: string)
    ensures |s| > 0
    decreases n
  {
    if n < 10 then [DigitChar(n)] else NatToString(n / 10) + [DigitChar(n % 10)]
  }

  /** `str(i)` for an integer. */
  function IntToString(i: int): string {
    if i < 0 then "-" + NatToString(-i) else NatToString(i)
  }

  /**
   * `xs.index(x)`: the first position holding `x`, or `None` where Python
   * raises `ValueError`.
   */
  function IndexOf<T(==)>(xs: seq<T>, x: T): (r: Option<nat>)
    ensures r.None? <==> x !in xs
    ensures r.Some? ==> r.value < |xs| && xs[r.value] == x
    ensures r.Some? ==> forall j :: 0 <= j < r.value ==> xs[j] != x
    decreases |xs|
  {
    if xs == [] then None
    else if xs[0] == x then Some(0)
    else
      match IndexOf(xs[1..], x)
      case None => None
      case Some(i) => Some(i + 1)
  }
}
