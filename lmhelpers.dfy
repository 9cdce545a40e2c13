/**
 * `Helpers`: the small integer and sequence helpers of libmusic.
 * `stdRound` is not modelled; where it is used its result is a parameter.
 */
module Helpers {
  import opened Wrappers
  import opened LmTypes

  /** 2^k. */
  function Pow2(k: nat): (r: nat)
    ensures r >= 1
  {
    if k == 0 then 1 else 2 * Pow2(k - 1)
  }

  /** The number of significant bits of x, i.e. 32 minus `__builtin_clz(x)` for a 32-bit x > 0. */
  function BitLength(x: nat): (k: nat)
  {
    if x == 0 then 0 else 1 + BitLength(x / 2)
  }

  lemma {:induction false} BitLengthBounds(x: nat)
    requires x >= 1
    ensures Pow2(BitLength(x) - 1) <= x < Pow2(BitLength(x))
  {
    if x > 1 {
      BitLengthBounds(x / 2);
    }
  }

  lemma {:induction false} Pow2Monotone(i: nat, j: nat)
    requires i <= j
    ensures Pow2(i) <= Pow2(j)
  {
    if i < j {
      Pow2Monotone(i, j - 1);
    }
  }

  lemma {:induction false} Pow2Add(a: nat, b: nat)
    ensures Pow2(a + b) == Pow2(a) * Pow2(b)
  {
    if b > 0 {
      Pow2Add(a, b - 1);
    }
  }

  lemma Pow2Thirty()
    ensures Pow2(30) == 0x4000_0000 && Pow2(31) == 0x8000_0000
  {
    assert Pow2(10) == 1024;
    Pow2Add(10, 10);
    Pow2Add(20, 10);
    Pow2Add(30, 1);
  }

  /**
   * `nextPowerOf2`: `1 << (32 - clz(n - 1))`, the least power of two not
   * below n. For n = 1 the count of leading zeros of 0 is undefined, and for
   * n = 0 or n > 2^31 the shift reaches 32, which is undefined too; those
   * inputs are excluded.
   */
  function NextPowerOf2(n: nat): (r: nat)
    requires 2 <= n <= 0x8000_0000
    ensures exists k: nat :: 1 <= k <= 31 && r == Pow2(k) && Pow2(k - 1) < n <= Pow2(k)
  {
    var k := BitLength(n - 1);
    BitLengthBounds(n - 1);
    assert k <= 31 by {
      if k > 31 {
        Pow2Monotone(31, k - 1);
        Pow2Thirty();
      }
    }
    Pow2(k)
  }

  /** The power of two with n in (2^(k-1), 2^k] is the one `nextPowerOf2` returns. */
  lemma NextPowerOf2IsLeast(n: nat, k: nat)
    requires 2 <= n <= 0x8000_0000 && 1 <= k && Pow2(k - 1) < n <= Pow2(k)
    ensures NextPowerOf2(n) == Pow2(k)
  {
    var j := BitLength(n - 1);
    assert NextPowerOf2(n) == Pow2(j);
    BitLengthBounds(n - 1);
    PowerIntervalUnique(n, j, k);
  }

  /** At most one power of two 2^k has n in (2^(k-1), 2^k]. */
  lemma PowerIntervalUnique(n: nat, j: nat, k: nat)
    requires 1 <= j && Pow2(j - 1) < n <= Pow2(j)
    requires 1 <= k && Pow2(k - 1) < n <= Pow2(k)
    ensures j == k
  {
    if j < k {
      Pow2Monotone(j, k - 1);
    } else if j > k {
      Pow2Monotone(k, j - 1);
    }
  }

  /** The values the unit tests expect for n >= 2. */
  lemma NextPowerOf2Examples()
    ensures NextPowerOf2(2) == 2 && NextPowerOf2(4) == 4 && NextPowerOf2(5) == 8
    ensures NextPowerOf2(100) == 128 && NextPowerOf2(1000) == 1024
    ensures NextPowerOf2(1770165767) == 0x8000_0000
  {
    NextPowerOf2Small();
    NextPowerOf2Thousand();
    NextPowerOf2Large();
  }

  lemma NextPowerOf2Small()
    ensures NextPowerOf2(2) == 2 && NextPowerOf2(4) == 4 && NextPowerOf2(5) == 8 && NextPowerOf2(100) == 128
  {
    NextPowerOf2IsLeast(2, 1);
    NextPowerOf2IsLeast(4, 2);
    NextPowerOf2IsLeast(5, 3);
    NextPowerOf2IsLeast(100, 7);
  }

  lemma NextPowerOf2Thousand()
    ensures NextPowerOf2(1000) == 1024
  {
    assert Pow2(10) == 1024;
    NextPowerOf2IsLeast(1000, 10);
  }

  lemma NextPowerOf2Large()
    ensures NextPowerOf2(1770165767) == 0x8000_0000
  {
    Pow2Thirty();
    NextPowerOf2IsLeast(1770165767, 31);
  }

  /** Every 32-bit power of two. */
  const PowersOfTwo: set<bv32> :=
    {0x1, 0x2, 0x4, 0x8, 0x10, 0x20, 0x40, 0x80,
     0x100, 0x200, 0x400, 0x800, 0x1000, 0x2000, 0x4000, 0x8000,
     0x1_0000, 0x2_0000, 0x4_0000, 0x8_0000, 0x10_0000, 0x20_0000, 0x40_0000, 0x80_0000,
     0x100_0000, 0x200_0000, 0x400_0000, 0x800_0000, 0x1000_0000, 0x2000_0000, 0x4000_0000, 0x8000_0000}

  /**
   * `isPowerOf2` as written: `(n & (n - 1)) != 0`, with `n - 1` wrapping
   * for n = 0. It holds exactly when n has at least two set bits.
   */
  function IsPowerOf2AsWritten(n: bv32): (b: bool)
    ensures n != 0 ==> (b <==> !IsPowerOf2(n))
    ensures n == 0 ==> !b
  {
    n & (n - 1) != 0
  }

  /** The as-written test is the negation of "zero or a power of two". */
  lemma IsPowerOf2AsWrittenInverted(n: bv32)
    ensures IsPowerOf2AsWritten(n) <==> n != 0 && n !in PowersOfTwo
  {
  }

  /** 8 is a power of two yet the as-written test says no; 6 is not, yet it says yes. */
  lemma IsPowerOf2AsWrittenCounterexample()
    ensures !IsPowerOf2AsWritten(8) && IsPowerOf2AsWritten(6)
  {
  }

  /** `isPowerOf2` as its documentation states it: true for powers of two only. */
  function IsPowerOf2(n: bv32): (b: bool)
    ensures b <==> n in PowersOfTwo
  {
    n != 0 && n & (n - 1) == 0
  }

  /** `cmpPairBySecond`: pairs compare by their second component only. */
  function CmpPairBySecond<T>(p1: (T, real), p2: (T, real)): bool
  {
    p1.1 < p2.1
  }

  /** The first components never influence the comparison. */
  lemma CmpPairBySecondIgnoresFirst<T>(p1: (T, real), p2: (T, real), a: T, b: T)
    ensures CmpPairBySecond(p1, p2) == CmpPairBySecond((a, p1.1), (b, p2.1))
    ensures CmpPairBySecond(p1, p2) ==> !CmpPairBySecond(p2, p1)
  {
  }

  /**
   * The index `std::max_element` returns, and the index a scan keeping the
   * first strictly greater value ends on: the first maximum of `s[0..n)`.
   */
  function FirstMaxIndex(s: seq<real>, n: nat): (r: nat)
    requires 1 <= n <= |s|
    ensures r < n
  {
    if n == 1 then 0
    else
      var m := FirstMaxIndex(s, n - 1);
      if s[m] < s[n - 1] then n - 1 else m
  }

  /** `FirstMaxIndex` picks a maximum, and no earlier entry reaches it. */
  lemma {:induction false} FirstMaxIndexIsFirstMaximum(s: seq<real>, n: nat)
    requires 1 <= n <= |s|
    ensures forall j :: 0 <= j < n ==> s[j] <= s[FirstMaxIndex(s, n)]
    ensures forall j :: 0 <= j < FirstMaxIndex(s, n) ==> s[j] < s[FirstMaxIndex(s, n)]
  {
    if n > 1 {
      FirstMaxIndexIsFirstMaximum(s, n - 1);
    }
  }

  /** Only the first n entries matter. */
  lemma {:induction false} FirstMaxIndexPrefix(s: seq<real>, t: seq<real>, n: nat)
    requires 1 <= n <= |s| && n <= |t| && s[..n] == t[..n]
    ensures FirstMaxIndex(s, n) == FirstMaxIndex(t, n)
  {
    if n > 1 {
      assert s[..n - 1] == s[..n][..n - 1] && t[..n - 1] == t[..n][..n - 1];
      FirstMaxIndexPrefix(s, t, n - 1);
      assert s[n - 1] == s[..n][n - 1] && t[n - 1] == t[..n][n - 1];
      assert s[FirstMaxIndex(s, n - 1)] == s[..n][FirstMaxIndex(s, n - 1)];
      assert t[FirstMaxIndex(s, n - 1)] == t[..n][FirstMaxIndex(s, n - 1)];
    }
  }

  /**
   * `timeDomain2ComplexVector`: the first `timeDomainSize` samples as
   * complex numbers with zero imaginary part, then zero padding up to
   * `resultSize` entries.
   */
  method TimeDomain2ComplexVector(timeDomain: seq<real>, timeDomainSize: nat, resultSize: nat)
    returns (x: seq<Complex>)
    requires timeDomainSize <= |timeDomain|
    ensures |x| == if timeDomainSize < resultSize then resultSize else timeDomainSize
    ensures forall i :: 0 <= i < timeDomainSize ==> x[i] == Complex(timeDomain[i], 0.0)
    ensures forall i :: timeDomainSize <= i < |x| ==> x[i] == Zero
  {
    x := [];
    var i := 0;
    while i < timeDomainSize
      invariant 0 <= i <= timeDomainSize && |x| == i
      invariant forall k :: 0 <= k < i ==> x[k] == Complex(timeDomain[k], 0.0)
    {
      x := x + [Complex(timeDomain[i], 0.0)];
      i := i + 1;
    }
    while i < resultSize
      invariant timeDomainSize <= i && |x| == i
      invariant i <= (if timeDomainSize < resultSize then resultSize else timeDomainSize)
      invariant forall k :: 0 <= k < timeDomainSize ==> x[k] == Complex(timeDomain[k], 0.0)
      invariant forall k :: timeDomainSize <= k < i ==> x[k] == Zero
    {
      x := x + [Zero];
      i := i + 1;
    }
  }

  /** `almostEqual`: the distance is strictly below `eps`. */
  function AlmostEqual(a: real, b: real, eps: real): (r: bool)
  {
    (if a - b < 0.0 then b - a else a - b) < eps
  }

  /** Symmetric, and a value is almost equal to itself only for a positive tolerance. */
  lemma AlmostEqualProperties(a: real, b: real, eps: real)
    ensures AlmostEqual(a, b, eps) == AlmostEqual(b, a, eps)
    ensures AlmostEqual(a, a, eps) <==> eps > 0.0
    ensures AlmostEqual(a, b, eps) <==> a - eps < b < a + eps
  {
  }

  predicate Sorted(s: seq<real>)
  {
    forall i, j :: 0 <= i < j < |s| ==> s[i] <= s[j]
  }

  /** Insert x into a sorted sequence, before the first larger entry. */
  function Insert(x: real, s: seq<real>): (r: seq<real>)
    requires Sorted(s)
    ensures Sorted(r) && multiset(r) == multiset(s) + multiset{x}
    ensures |r| == |s| + 1
  {
    if |s| == 0 then [x]
    else if x <= s[0] then [x] + s
    else
      SortedTail(s);
      var t := Insert(x, s[1..]);
      InsertBehindHead(x, s, t);
      [s[0]] + t
  }

  /** Putting the head of s before the tail with x inserted keeps the order and the entries. */
  lemma InsertBehindHead(x: real, s: seq<real>, t: seq<real>)
    requires Sorted(s) && |s| > 0 && s[0] < x
    requires Sorted(t) && multiset(t) == multiset(s[1..]) + multiset{x}
    ensures Sorted([s[0]] + t) && multiset([s[0]] + t) == multiset(s) + multiset{x}
  {
    forall k | 0 <= k < |t| ensures s[0] <= t[k] {
      assert t[k] in multiset(t);
      if t[k] != x {
        assert t[k] in multiset(s[1..]);
        var i :| 0 <= i < |s[1..]| && s[1..][i] == t[k];
        assert s[i + 1] == t[k];
      }
    }
    var r := [s[0]] + t;
    forall i, j | 0 <= i < j < |r| ensures r[i] <= r[j] {
      if i > 0 {
        assert r[i] == t[i - 1] && r[j] == t[j - 1];
      } else {
        assert r[j] == t[j - 1];
      }
    }
    assert s == [s[0]] + s[1..];
  }

  /** `std::sort` on a copy: the entries in non-decreasing order. */
  function Sort(v: seq<real>): (r: seq<real>)
    ensures Sorted(r) && multiset(r) == multiset(v)
    ensures |r| == |v|
  {
    if |v| == 0 then []
    else
      assert v == v[..|v| - 1] + [v[|v| - 1]];
      Insert(v[|v| - 1], Sort(v[..|v| - 1]))
  }

  /** The head of a non-empty sorted sequence is its least entry. */
  lemma SortedHeadIsLeast(a: seq<real>, x: real)
    requires Sorted(a) && x in multiset(a)
    ensures a[0] <= x
  {
    var i :| 0 <= i < |a| && a[i] == x;
  }

  lemma MultisetTail(a: seq<real>)
    requires |a| > 0
    ensures multiset(a[1..]) == multiset(a) - multiset{a[0]}
  {
    assert a == [a[0]] + a[1..];
  }

  lemma SortedTail(a: seq<real>)
    requires Sorted(a) && |a| > 0
    ensures Sorted(a[1..])
  {
    forall i, j | 0 <= i < j < |a| - 1 ensures a[1..][i] <= a[1..][j] {
      assert a[1..][i] == a[i + 1] && a[1..][j] == a[j + 1];
    }
  }

  /** Sequences with the same entries have the same length. */
  lemma SameEntriesSameLength(a: seq<real>, b: seq<real>)
    requires multiset(a) == multiset(b)
    ensures |a| == |b|
  {
    assert |a| == |multiset(a)| && |b| == |multiset(b)|;
  }

  /** Two non-empty sorted sequences with the same entries agree on their heads and on the entries of their tails. */
  lemma SortedSameHead(a: seq<real>, b: seq<real>)
    requires Sorted(a) && Sorted(b) && multiset(a) == multiset(b) && |a| > 0 && |b| > 0
    ensures a[0] == b[0] && multiset(a[1..]) == multiset(b[1..]) && Sorted(a[1..]) && Sorted(b[1..])
  {
    assert a[0] in multiset(a) && b[0] in multiset(b);
    SortedHeadIsLeast(a, b[0]);
    SortedHeadIsLeast(b, a[0]);
    MultisetTail(a);
    MultisetTail(b);
    SortedTail(a);
    SortedTail(b);
  }

  lemma ConsEqual(a: seq<real>, b: seq<real>)
    requires |a| > 0 && |b| > 0 && a[0] == b[0] && a[1..] == b[1..]
    ensures a == b
  {
    assert a == [a[0]] + a[1..] && b == [b[0]] + b[1..];
  }

  /** Two sorted sequences with the same entries are the same sequence. */
  lemma {:induction false} SortedUnique(a: seq<real>, b: seq<real>)
    requires Sorted(a) && Sorted(b) && multiset(a) == multiset(b)
    ensures a == b
  {
    SameEntriesSameLength(a, b);
    if |a| > 0 {
      SortedSameHead(a, b);
      SortedUnique(a[1..], b[1..]);
      ConsEqual(a, b);
    }
  }

  const MedianEmptyErr: string := "median(): empty vector"

  /** The middle entry of a sorted sequence, or the mean of the two middle entries for an even length. */
  function Middle(s: seq<real>): (m: real)
    requires Sorted(s) && |s| >= 1
    ensures s[0] <= m <= s[|s| - 1]
  {
    var mid := |s| / 2;
    if |s| % 2 == 1 then s[mid] else (s[mid] + s[mid - 1]) / 2.0
  }

  /**
   * `median`: refused for an empty vector; the only entry of a singleton;
   * otherwise the middle of a sorted copy.
   */
  function Median(v: seq<real>): (r: Result<real>)
    ensures r.Err? <==> |v| == 0
    ensures r.Err? ==> r.msg == MedianEmptyErr
    ensures |v| == 1 ==> r == Ok(v[0])
    ensures |v| >= 1 ==> r == Ok(Middle(Sort(v)))
    ensures |v| >= 1 ==> Sort(v)[0] <= r.value <= Sort(v)[|v| - 1]
  {
    if |v| == 0 then Err(MedianEmptyErr)
    else if |v| == 1 then
      assert Sort(v) == [v[0]] by { SortedUnique(Sort(v), [v[0]]); }
      Ok(v[0])
    else Ok(Middle(Sort(v)))
  }

  /** Reordering the entries never changes the median. */
  lemma MedianPermutationInvariant(v: seq<real>, w: seq<real>)
    requires multiset(v) == multiset(w)
    ensures Median(v) == Median(w)
  {
    SortedUnique(Sort(v), Sort(w));
    assert |v| == |multiset(v)| == |w|;
  }

  /** The ends of a sorted permutation bound every entry and are entries themselves. */
  lemma SortedEnds(s: seq<real>, v: seq<real>)
    requires Sorted(s) && multiset(s) == multiset(v) && |s| >= 1
    ensures |v| == |s|
    ensures forall i :: 0 <= i < |v| ==> s[0] <= v[i] <= s[|s| - 1]
    ensures s[0] in v && s[|s| - 1] in v
  {
    assert |v| == |multiset(v)| == |s|;
    forall i | 0 <= i < |v| ensures s[0] <= v[i] <= s[|s| - 1] {
      assert v[i] in multiset(s);
      var j :| 0 <= j < |s| && s[j] == v[i];
    }
    assert s[0] in multiset(v) && s[|s| - 1] in multiset(v);
  }

  /** Where the least and the greatest entry sit in the unsorted sequence. */
  lemma EndIndices(v: seq<real>) returns (i: nat, j: nat)
    requires |v| >= 1
    ensures i < |v| && j < |v| && v[i] == Sort(v)[0] && v[j] == Sort(v)[|v| - 1]
    ensures forall k :: 0 <= k < |v| ==> Sort(v)[0] <= v[k] <= Sort(v)[|v| - 1]
  {
    var s := Sort(v);
    SortedEnds(s, v);
    i :| 0 <= i < |v| && v[i] == s[0];
    j :| 0 <= j < |v| && v[j] == s[|v| - 1];
  }

  /** The median lies between the smallest and the largest entry. */
  lemma MedianBounds(v: seq<real>)
    requires |v| >= 1
    ensures exists i, j :: 0 <= i < |v| && 0 <= j < |v| && v[i] <= Median(v).value <= v[j]
    ensures forall i :: 0 <= i < |v| ==> Sort(v)[0] <= v[i] <= Sort(v)[|v| - 1]
  {
    var i, j := EndIndices(v);
    assert v[i] <= Median(v).value <= v[j];
  }

  /** `sqrt` of `<cmath>` on non-negative arguments: the non-negative square root. */
  ghost predicate IsSquareRoot(sqrt: real -> real)
  {
    forall x :: x >= 0.0 ==> sqrt(x) >= 0.0 && sqrt(x) * sqrt(x) == x
  }

  /** The root of 0 is 0. */
  lemma RootOfZero(sqrt: real -> real)
    requires IsSquareRoot(sqrt)
    ensures sqrt(0.0) == 0.0
  {
    var r := sqrt(0.0);
    assert r >= 0.0 && r * r == 0.0;
    if r > 0.0 {
      MulStrict(0.0, r, 0.0, r);
    }
  }

  /** A root reaches a positive bound exactly when its square reaches the bound squared. */
  lemma RootAtLeast(s: real, x: real, bound: real)
    requires s >= 0.0 && bound > 0.0 && s * s == x
    ensures s >= bound <==> x >= bound * bound
  {
    if s >= bound {
      MulWeak(bound, s, bound, s);
    } else {
      MulStrict(s, bound, s, bound);
    }
  }

  /** A sum of two squares is never negative, so it has a root. */
  lemma RootOfSquares(a: real, b: real, sqrt: real -> real)
    ensures IsSquareRoot(sqrt) ==> sqrt(a * a + b * b) >= 0.0 && sqrt(a * a + b * b) * sqrt(a * a + b * b) == a * a + b * b
  {
    assert a * a >= 0.0 && b * b >= 0.0;
  }

  lemma MulStrict(a: real, b: real, c: real, d: real)
    requires 0.0 <= a < b && 0.0 <= c < d
    ensures a * c < b * d
  {
    assert a * c <= a * d;
    assert a * d < b * d;
  }

  lemma MulWeak(a: real, b: real, c: real, d: real)
    requires 0.0 <= a <= b && 0.0 <= c <= d
    ensures a * c <= b * d
  {
    assert a * c <= a * d;
    assert a * d <= b * d;
  }
}
