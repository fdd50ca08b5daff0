/** Small shared vocabulary: optional values and the two JavaScript library
    behaviours the rest of the model leans on (Math.round and Array.slice). */
module Common {

  datatype Option<T> = None | Some(value: T)

  function Max(a: int, b: int): int { if a < b then b else a }

  function Min(a: int, b: int): int { if a < b then a else b }

  /** JavaScript's Math.round on an exact real: the nearest integer, with a
      half rounded towards +infinity (Math.round(-2.5) is -2). */
  function Round(x: real): (r: int)
    ensures x - 0.5 < r as real <= x + 0.5
  {
    (x + 0.5).Floor
  }

  /** Rounding commutes with adding a whole number. */
  lemma RoundShift(x: real, n: int)
    ensures Round(x + n as real) == Round(x) + n
  {
  }

  /** Rounding never reverses an order. */
  lemma RoundMonotone(x: real, y: real)
    requires x <= y
    ensures Round(x) <= Round(y)
  {
  }

  /** A value already between two whole numbers rounds to a value between them. */
  lemma RoundBetween(x: real, lo: int, hi: int)
    requires lo as real <= x <= hi as real
    ensures lo <= Round(x) <= hi
  {
    RoundMonotone(lo as real, x);
    RoundMonotone(x, hi as real);
    RoundShift(0.0, lo);
    RoundShift(0.0, hi);
  }

  /** The end index `s.slice(0, end)` stops at: a negative end counts back
      from the length, and the result is clamped to [0, |s|]. */
  function SliceEnd(len: nat, end: int): (k: nat)
    ensures k <= len
    ensures end >= 0 ==> k == Min(end, len)
    ensures end < 0 ==> k == Max(0, len + end)
  {
    if end < 0 then (if len + end < 0 then 0 else len + end)
    else if end < len then end else len
  }

  /** `s.slice(0, end)` */
  function Prefix<T>(s: seq<T>, end: int): (r: seq<T>)
    ensures |r| == SliceEnd(|s|, end) && r == s[..|r|]
  {
    s[..SliceEnd(|s|, end)]
  }

  lemma PrefixSubMultiset<T>(s: seq<T>, end: int)
    ensures multiset(Prefix(s, end)) <= multiset(s)
  {
    var r := Prefix(s, end);
    assert s == r + s[|r|..];
  }

  /** A quotient by a positive number lies between the bounds that the
      numerator lies between, scaled by that number. */
  lemma QuotientBetween(s: real, n: real, lo: real, hi: real)
    requires n > 0.0 && n * lo <= s <= n * hi
    ensures lo <= s / n <= hi
  {
    var q := s / n;
    assert q * n == s;
    assert (q - lo) * n >= 0.0;
    assert (hi - q) * n >= 0.0;
  }

  /** `n * a` as repeated addition, so that bounds on sums stay linear. */
  function Times(n: nat, a: int): int
  {
    if n == 0 then 0 else a + Times(n - 1, a)
  }

  lemma {:induction false} TimesIsProduct(n: nat, a: int)
    ensures Times(n, a) as real == n as real * a as real
  {
    if n > 0 {
      TimesIsProduct(n - 1, a);
      assert n as real * a as real == a as real + (n - 1) as real * a as real;
    }
  }

  /** A quotient `s / n` lies between `lo` and `hi` once `s` lies between
      `n` copies of each. */
  lemma MeanWithin(s: int, n: nat, lo: int, hi: int)
    requires n > 0 && Times(n, lo) <= s <= Times(n, hi)
    ensures lo as real <= s as real / n as real <= hi as real
  {
    TimesIsProduct(n, lo);
    TimesIsProduct(n, hi);
    QuotientBetween(s as real, n as real, lo as real, hi as real);
  }
}
