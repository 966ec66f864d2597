/** List operations the stores and pages share: prepend-and-truncate logs
    (`[x, ...list].slice(0, cap)`) and `filter`. */
module Lists {

  function Min(a: int, b: int): int {
    if a <= b then a else b
  }

  /** `[x, ...s].slice(0, cap)`: the newest entry first, at most `cap` kept. */
  function PrependCapped<T>(s: seq<T>, x: T, cap: nat): (r: seq<T>)
    ensures |r| == Min(|s| + 1, cap)
    ensures cap > 0 ==> r[0] == x && r[1..] == s[..|r| - 1]
  {
    var full := [x] + s;
    assert cap > 0 ==> full[1..] == s;
    full[..Min(|full|, cap)]
  }

  /** A log that never exceeds its cap stays within it. */
  lemma PrependCappedBounded<T>(s: seq<T>, x: T, cap: nat)
    ensures |PrependCapped(s, x, cap)| <= cap
    ensures |s| < cap ==> PrependCapped(s, x, cap) == [x] + s
  {
    if |s| < cap {
      var r := PrependCapped(s, x, cap);
      assert r[1..] == s;
      assert r == [r[0]] + r[1..];
    }
  }

  /** `s.filter(keep)`. */
  function Keep<T>(s: seq<T>, keep: T -> bool): (r: seq<T>)
    ensures |r| <= |s|
    ensures forall i :: 0 <= i < |r| ==> r[i] in s && keep(r[i])
    ensures forall i :: 0 <= i < |s| && keep(s[i]) ==> s[i] in r
  {
    if s == [] then []
    else if keep(s[0]) then [s[0]] + Keep(s[1..], keep)
    else Keep(s[1..], keep)
  }

  /** Filtering works element by element, so it keeps the input's order:
      filtering a concatenation concatenates the filtered parts. */
  lemma {:induction false} KeepAppend<T>(a: seq<T>, b: seq<T>, keep: T -> bool)
    ensures Keep(a + b, keep) == Keep(a, keep) + Keep(b, keep)
  {
    if a == [] {
      assert a + b == b;
    } else {
      assert (a + b)[1..] == a[1..] + b;
      KeepAppend(a[1..], b, keep);
    }
  }

  /** When nothing is filtered out the list comes back unchanged. */
  lemma {:induction false} KeepAll<T>(s: seq<T>, keep: T -> bool)
    requires forall i :: 0 <= i < |s| ==> keep(s[i])
    ensures Keep(s, keep) == s
  {
    if s != [] {
      KeepAll(s[1..], keep);
      assert s == [s[0]] + s[1..];
    }
  }

  /** Filtering twice by the same test is filtering once. */
  lemma KeepIdempotent<T>(s: seq<T>, keep: T -> bool)
    ensures Keep(Keep(s, keep), keep) == Keep(s, keep)
  {
    KeepAll(Keep(s, keep), keep);
  }

  /** Filtering removes exactly the rejected entries: the length drops by
      their number. */
  function CountRejected<T>(s: seq<T>, keep: T -> bool): nat {
    if s == [] then 0 else (if keep(s[0]) then 0 else 1) + CountRejected(s[1..], keep)
  }

  lemma {:induction false} KeepLength<T>(s: seq<T>, keep: T -> bool)
    ensures |Keep(s, keep)| == |s| - CountRejected(s, keep)
  {
    if s != [] {
      KeepLength(s[1..], keep);
    }
  }
}
