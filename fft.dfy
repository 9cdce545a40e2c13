/**
 * `FFT`: the radix-2 transform of libmusic, and the root-level copy the
 * unit tests exercise. The butterfly stages are modelled exactly, over a
 * parameter `twiddle` that stands for the cosine and sine factors; the
 * magnitude's `sqrt` and the phase's `atan` are parameters too. Around them
 * sit the bit-reversal permutation, the size choice, the bin ranges written
 * and the averaging window.
 */
module LmFft {
  import opened Wrappers
  import opened LmTypes
  import opened Helpers

  // ---------------------------------------------------------------------
  // Bit reversal
  // ---------------------------------------------------------------------

  /** The b-bit reversal of n: bit k of n moves to bit b − 1 − k; bits at b and above are dropped. */
  function Rev(n: nat, b: nat): nat
  {
    if b == 0 then 0
    else if n % 2 == 1 then Pow2(b - 1) + Rev(n / 2, b - 1)
    else Rev(n / 2, b - 1)
  }

  lemma {:induction false} RevBound(n: nat, b: nat)
    ensures Rev(n, b) < Pow2(b)
  {
    if b > 0 {
      RevBound(n / 2, b - 1);
    }
  }

  lemma {:induction false} RevZero(b: nat)
    ensures Rev(0, b) == 0
  {
    if b > 0 {
      RevZero(b - 1);
    }
  }

  /** The low a bits of n, built bit by bit (n mod 2^a). */
  function Low(n: nat, a: nat): nat
  {
    if a == 0 then 0 else n % 2 + 2 * Low(n / 2, a - 1)
  }

  /** n with its low a bits shifted out (n >> a). */
  function High(n: nat, a: nat): nat
  {
    if a == 0 then n else High(n / 2, a - 1)
  }

  /**
   * Reversing a + c bits: the low a bits, reversed, land above the
   * reversal of the next c bits.
   */
  lemma {:induction false} RevSplit(n: nat, a: nat, c: nat)
    ensures Rev(n, a + c) == Rev(Low(n, a), a) * Pow2(c) + Rev(High(n, a), c)
    decreases a
  {
    if a > 0 {
      var x, l := Low(n, a), Low(n / 2, a - 1);
      var r := Rev(l, a - 1);
      assert x % 2 == n % 2 && x / 2 == l;
      RevSplit(n / 2, a - 1, c);
      if n % 2 == 1 {
        var p, q := Pow2(a - 1), Pow2(c);
        Pow2Add(a - 1, c);
        Distribute(p, r, q);
      }
    }
  }

  lemma Distribute(p: nat, r: nat, q: nat)
    ensures (p + r) * q == p * q + r * q
  {
  }

  /** A number below 2^b is its own low b bits and has nothing above them. */
  lemma {:induction false} LowHighSmall(n: nat, b: nat)
    requires n < Pow2(b)
    ensures Low(n, b) == n && High(n, b) == 0
    decreases b
  {
    if b > 0 {
      LowHighSmall(n / 2, b - 1);
    } else {
      assert High(n, b) == n;
    }
  }

  /** n made of x placed above a b-bit y splits back into y (low) and x (high). */
  lemma {:induction false} LowHighJoin(n: nat, x: nat, y: nat, b: nat)
    requires y < Pow2(b) && n == x * Pow2(b) + y
    ensures Low(n, b) == y && High(n, b) == x
    decreases b
  {
    if b > 0 {
      var p := Pow2(b - 1);
      assert x * Pow2(b) == 2 * (x * p);
      assert n % 2 == y % 2 && n / 2 == x * p + y / 2;
      LowHighJoin(n / 2, x, y / 2, b - 1);
    }
  }

  /** A number below 2^b reversed in b + c bits is its b-bit reversal shifted up by c. */
  lemma RevWiden(n: nat, b: nat, c: nat)
    requires n < Pow2(b)
    ensures Rev(n, b + c) == Rev(n, b) * Pow2(c)
  {
    RevSplit(n, b, c);
    LowHighSmall(n, b);
    RevZero(c);
  }

  /** The top bit of a b-bit reversal is the lowest bit of n. */
  lemma RevTop(n: nat, b: nat)
    requires b > 0
    ensures Rev(n, b) == (n % 2) * Pow2(b - 1) + Rev(n / 2, b - 1)
  {
  }

  /** Reversing t placed above a (b − 1)-bit low part puts t at the bottom. */
  lemma RevOfTop(t: nat, low: nat, b: nat)
    requires b > 0 && t < 2 && low < Pow2(b - 1)
    ensures Rev(t * Pow2(b - 1) + low, b) == Rev(low, b - 1) * 2 + t
  {
    var m := t * Pow2(b - 1) + low;
    LowHighJoin(m, t, low, b - 1);
    RevSplit(m, b - 1, 1);
    assert Pow2(1) == 2 && Rev(t, 1) == t;
  }

  /** Reversal is an involution on b-bit numbers. */
  lemma {:induction false} RevInvolution(n: nat, b: nat)
    requires n < Pow2(b)
    ensures Rev(Rev(n, b), b) == n
    decreases b
  {
    if b > 0 {
      RevBound(n / 2, b - 1);
      RevInvolution(n / 2, b - 1);
      RevTop(n, b);
      RevOfTop(n % 2, Rev(n / 2, b - 1), b);
    }
  }

  /** The nibble table of `BitReverse_`. */
  const Lookup4: seq<nat> := [0x0, 0x8, 0x4, 0xc, 0x2, 0xa, 0x6, 0xe, 0x1, 0x9, 0x5, 0xd, 0x3, 0xb, 0x7, 0xf]
  const Lookup3: seq<nat> := [0x0, 0x4, 0x2, 0x6, 0x1, 0x5, 0x3, 0x7]
  const Lookup2: seq<nat> := [0x0, 0x2, 0x1, 0x3]

  /** The reversals of 4, 3 and 2 bits in closed form. */
  function Rev4(v: nat): nat
  {
    (if v % 2 == 1 then 8 else 0) + (if (v / 2) % 2 == 1 then 4 else 0)
    + (if (v / 4) % 2 == 1 then 2 else 0) + (if (v / 8) % 2 == 1 then 1 else 0)
  }

  function Rev3(v: nat): nat
  {
    (if v % 2 == 1 then 4 else 0) + (if (v / 2) % 2 == 1 then 2 else 0) + (if (v / 4) % 2 == 1 then 1 else 0)
  }

  lemma Rev4ClosedForm(v: nat)
    ensures Rev(v, 4) == Rev4(v)
  {
    assert Pow2(3) == 8 && Pow2(2) == 4 && Pow2(1) == 2 && Pow2(0) == 1;
    assert v / 2 / 2 == v / 4 && v / 4 / 2 == v / 8;
    assert Rev(v / 8, 1) == (if (v / 8) % 2 == 1 then 1 else 0);
    assert Rev(v / 4, 2) == (if (v / 4) % 2 == 1 then 2 else 0) + Rev(v / 8, 1);
    assert Rev(v / 2, 3) == (if (v / 2) % 2 == 1 then 4 else 0) + Rev(v / 4, 2);
  }

  lemma Rev3ClosedForm(v: nat)
    ensures Rev(v, 3) == Rev3(v)
  {
    assert Pow2(2) == 4 && Pow2(1) == 2 && Pow2(0) == 1;
    assert v / 2 / 2 == v / 4;
    assert Rev(v / 4, 1) == (if (v / 4) % 2 == 1 then 1 else 0);
    assert Rev(v / 2, 2) == (if (v / 2) % 2 == 1 then 2 else 0) + Rev(v / 4, 1);
  }

  lemma Lookup4Table()
    ensures forall v :: 0 <= v < 16 ==> Lookup4[v] == Rev4(v)
  {
  }

  lemma Lookup3Table()
    ensures forall v :: 0 <= v < 8 ==> Lookup3[v] == Rev3(v)
  {
  }

  /** Each table holds the reversals of its width. */
  lemma Lookup4IsReversal(v: nat)
    requires v < 16
    ensures Lookup4[v] == Rev(v, 4)
  {
    Rev4ClosedForm(v);
    Lookup4Table();
  }

  lemma Lookup3IsReversal(v: nat)
    requires v < 8
    ensures Lookup3[v] == Rev(v, 3)
  {
    Rev3ClosedForm(v);
    Lookup3Table();
  }

  lemma Lookup2IsReversal(v: nat)
    requires v < 4
    ensures Lookup2[v] == Rev(v, 2)
  {
    assert Pow2(1) == 2 && Pow2(0) == 1;
    assert Rev(v, 2) == 2 * (v % 2) + (v / 2) % 2;
  }

  lemma SmallPowers()
    ensures Pow2(0) == 1 && Pow2(1) == 2 && Pow2(2) == 4 && Pow2(3) == 8 && Pow2(4) == 16
  {
  }

  /** `x << s` and `x >> s` on unbounded naturals. */
  function Shl(x: nat, s: nat): nat
  {
    x * Pow2(s)
  }

  function Shr(x: nat, s: nat): nat
  {
    High(x, s)
  }

  /** The number of hexadecimal digits of n: the iterations of the `BitReverse_` loop. */
  function Nibbles(n: nat): nat
  {
    if n == 0 then 0 else 1 + Nibbles(n / 16)
  }

  /** The low nibble and the rest of m, as `n & 0b1111` and `n >>= 4` take them. */
  lemma NibbleSplit(m: nat)
    ensures Low(m, 4) == m % 16 && High(m, 4) == m / 16
  {
    assert Pow2(4) == 16;
    LowHighJoin(m, m / 16, m % 16, 4);
  }

  /**
   * One iteration of the `BitReverse_` loop on b = s + 4 remaining bits: the
   * low nibble of m, reversed by the table and shifted up by s, plus the
   * reversal of the rest of m in s bits.
   */
  lemma NibbleStep(m: nat, s: nat)
    requires m < Pow2(s + 4)
    ensures Rev(m, s + 4) == Shl(Lookup4[m % 16], s) + Rev(m / 16, s)
    ensures m / 16 < Pow2(s)
  {
    RevSplit(m, 4, s);
    NibbleSplit(m);
    Lookup4IsReversal(m % 16);
    Pow2Add(4, s);
    assert Pow2(4) == 16;
  }

  /** One pass of the `BitReverse_` loop: the low nibble of m is placed, reversed, and m loses it. */
  method NibbleIteration(ghost n: nat, ghost bitCnt: nat, ret: nat, m: nat, rest: nat)
    returns (ret2: nat, m2: nat, rest2: nat)
    requires 4 <= rest <= bitCnt && 0 < m < Pow2(rest)
    requires Rev(n, bitCnt) == ret + Rev(m, rest)
    ensures rest2 == rest - 4 && m2 == m / 16 && m2 < Pow2(rest2)
    ensures Rev(n, bitCnt) == ret2 + Rev(m2, rest2)
    ensures Nibbles(m) == 1 + Nibbles(m2)
  {
    NibbleStep(m, rest - 4);
    ret2, m2, rest2 := ret + Shl(Lookup4[m % 16], rest - 4), m / 16, rest - 4;
  }

  /** The table cases of `BitReverse_`: 1 bit is itself, 2 to 4 bits are looked up. */
  function TableReverse(n: nat, bitCnt: nat): (r: nat)
    requires 1 <= bitCnt <= 4 && n < Pow2(bitCnt)
    ensures r == Rev(n, bitCnt)
  {
    SmallPowers();
    if bitCnt == 1 then n
    else if bitCnt == 2 then Lookup2IsReversal(n); Lookup2[n]
    else if bitCnt == 3 then Lookup3IsReversal(n); Lookup3[n]
    else Lookup4IsReversal(n); Lookup4[n]
  }

  /** Pow2 at every multiple of 4 up to 32. */
  lemma NibblePowers()
    ensures Pow2(4) == 0x10 && Pow2(8) == 0x100 && Pow2(12) == 0x1000 && Pow2(16) == 0x1_0000
    ensures Pow2(20) == 0x10_0000 && Pow2(24) == 0x100_0000 && Pow2(28) == 0x1000_0000
    ensures Pow2(32) == 0x1_0000_0000
  {
    SmallPowers();
    Pow2Add(4, 4);
    Pow2Add(8, 4);
    Pow2Add(12, 4);
    Pow2Add(16, 4);
    Pow2Add(20, 4);
    Pow2Add(24, 4);
    Pow2Add(28, 4);
  }

  /** The 4- and 3-bit reversals the library's bit-reversal test expects. */
  lemma RevTestValuesShort()
    ensures Rev(0x2, 4) == 0x4 && Rev(0x4, 4) == 0x2 && Rev(0x0, 4) == 0x0 && Rev(0x3, 3) == 0x6
  {
    Lookup4IsReversal(0x2);
    Lookup4IsReversal(0x4);
    Lookup4IsReversal(0x0);
    Lookup3IsReversal(0x3);
  }

  /** The 32-bit reversals of 0xa and 0x83 the test expects, one nibble at a time. */
  lemma RevTestValuesWide()
    ensures Rev(0xa, 32) == 0x5000_0000 && Rev(0x83, 32) == 0xc100_0000
  {
    NibblePowers();
    NibbleStep(0xa, 28);
    RevZero(28);
    NibbleStep(0x83, 28);
    NibbleStep(0x8, 24);
    RevZero(24);
  }

  lemma RevTestValueE42()
    ensures Rev(0xe42, 32) == 0x4270_0000
  {
    NibblePowers();
    NibbleStep(0xe42, 28);
    NibbleStep(0xe4, 24);
    NibbleStep(0xe, 20);
    RevZero(20);
  }

  lemma RevTestValueCb03()
    ensures Rev(0xcb03, 16) == 0xc0d3
  {
    NibblePowers();
    NibbleStep(0xcb03, 12);
    NibbleStep(0xcb0, 8);
    NibbleStep(0xcb, 4);
    NibbleStep(0xc, 0);
  }

  lemma RevTestValueCb035000()
    ensures Rev(0xcb03_5000, 32) == 0xa_c0d3
  {
    NibblePowers();
    NibbleStep(0xcb03_5000, 28);
    NibbleStep(0xcb0_3500, 24);
    NibbleStep(0xcb_0350, 20);
    NibbleStep(0xc_b035, 16);
    RevTestValueCb03();
  }

  /**
   * `BitReverse_`, as written: tables for 2, 3 and 4 bits, otherwise one
   * table lookup per nibble of n, each shifted left by `bitCnt - 4 * i`.
   * When bitCnt is not a multiple of 4 and n reaches the top, partial
   * nibble, that shift count is negative, which C++ leaves undefined: the
   * model returns None there.
   */
  method BitReverse(n: nat, bitCnt: nat) returns (r: Option<nat>)
    requires bitCnt <= 32 && n < Pow2(bitCnt)
    ensures r.Some? <==> bitCnt <= 4 || 4 * Nibbles(n) <= bitCnt
    ensures r.Some? ==> r.value == Rev(n, bitCnt)
  {
    if 1 <= bitCnt <= 4 {
      return Some(TableReverse(n, bitCnt));
    }
    var ret: nat := 0;
    var m: nat, rest: nat := n, bitCnt;
    while m != 0
      invariant rest <= bitCnt && m < Pow2(rest)
      invariant Rev(n, bitCnt) == ret + Rev(m, rest)
      invariant 4 * Nibbles(n) == bitCnt - rest + 4 * Nibbles(m)
      decreases m
    {
      if rest < 4 {
        return None;
      }
      ret, m, rest := NibbleIteration(n, bitCnt, ret, m, rest);
    }
    RevZero(rest);
    return Some(ret);
  }

  /**
   * `BitReverse_` with the top partial nibble shifted right instead of by a
   * negative count, which is what the loop evidently means: it returns the
   * bitCnt-bit reversal of every n below 2^bitCnt.
   */
  method BitReverseFixed(n: nat, bitCnt: nat) returns (r: nat)
    requires bitCnt <= 32 && n < Pow2(bitCnt)
    ensures r == Rev(n, bitCnt)
    ensures r < Pow2(bitCnt)
  {
    RevBound(n, bitCnt);
    if 1 <= bitCnt <= 4 {
      return TableReverse(n, bitCnt);
    }
    var ret: nat := 0;
    var m: nat, rest: nat := n, bitCnt;
    while m != 0
      invariant rest <= bitCnt && m < Pow2(rest)
      invariant Rev(n, bitCnt) == ret + Rev(m, rest)
      decreases m
    {
      if rest < 4 {
        PartialNibble(m, rest);
        return ret + Shr(Lookup4[m % 16], 4 - rest);
      }
      ret, m, rest := NibbleIteration(n, bitCnt, ret, m, rest);
    }
    RevZero(rest);
    return ret;
  }

  /** The top nibble of b < 4 bits: its 4-bit reversal shifted right by 4 − b is its b-bit reversal. */
  lemma PartialNibble(m: nat, b: nat)
    requires b < 4 && m < Pow2(b)
    ensures m % 16 == m
    ensures Shr(Lookup4[m % 16], 4 - b) == Rev(m, b)
  {
    Pow2Monotone(b, 4);
    assert Pow2(4) == 16;
    RevWiden(m, b, 4 - b);
    Lookup4IsReversal(m);
    LowHighJoin(Rev(m, 4), Rev(m, b), 0, 4 - b);
  }

  /**
   * The undefined shift is reachable: `SortBitReversal_` on 8192 points
   * calls `BitReverse_(4096, 13)`, whose fourth nibble would be shifted
   * by 13 − 16 = −3.
   */
  lemma BitReverseNegativeShift()
    ensures 4096 < Pow2(13) && 4 * Nibbles(4096) > 13
  {
    assert Pow2(13) == 8192;
    assert Nibbles(4096) == 4;
  }

  // ---------------------------------------------------------------------
  // Bit-reversal permutation
  // ---------------------------------------------------------------------

  /** `log2` of a positive size, rounded down. */
  function Log2(n: nat): nat
  {
    if n <= 1 then 0 else 1 + Log2(n / 2)
  }

  lemma {:induction false} Log2OfPow2(k: nat)
    ensures Log2(Pow2(k)) == k
  {
    if k > 0 {
      Log2OfPow2(k - 1);
      assert Pow2(k) / 2 == Pow2(k - 1);
    }
  }

  /** The sizes the radix-2 transform accepts. */
  predicate IsPowerOf2Size(n: nat)
  {
    Pow2(Log2(n)) == n
  }

  /** A power-of-two size up to 2^31 has at most 31 bits of index. */
  lemma Log2Bound(n: nat)
    requires IsPowerOf2Size(n) && n <= 0x8000_0000
    ensures Log2(n) <= 31
  {
    Pow2Thirty();
    if Log2(n) > 31 {
      Pow2Monotone(32, Log2(n));
    }
  }

  /** s permuted so that slot i holds the element at the bit reversal of i. */
  function BitReversed<T>(s: seq<T>): (r: seq<T>)
    requires IsPowerOf2Size(|s|)
    ensures |r| == |s|
  {
    seq(|s|, i requires 0 <= i < |s| => RevBound(i, Log2(|s|)); s[Rev(i, Log2(|s|))])
  }

  /** Reordering twice restores the original order. */
  lemma BitReversedTwice<T>(s: seq<T>)
    requires IsPowerOf2Size(|s|)
    ensures BitReversed(BitReversed(s)) == s
  {
    var b, t := Log2(|s|), BitReversed(s);
    forall i | 0 <= i < |s|
      ensures BitReversed(t)[i] == s[i]
    {
      RevBound(i, b);
      RevInvolution(i, b);
    }
  }

  /** The library's sort test: 0 .. 15 in 4-bit reversed order is the nibble table. */
  lemma BitReversedTestSixteen()
    ensures IsPowerOf2Size(16) && BitReversed(seq(16, i => i)) == Lookup4
  {
    SmallPowers();
    assert Log2(16) == 4;
    var s: seq<nat> := seq(16, i => i);
    forall i | 0 <= i < 16
      ensures BitReversed(s)[i] == Lookup4[i]
    {
      Lookup4IsReversal(i);
    }
  }

  lemma Lookup4UpperHalf()
    ensures forall i :: 0 <= i < 8 ==> Lookup4[8 + Lookup3[i]] == 2 * i + 1
  {
  }

  /** The same test re-sorts the upper half on its own, in 3 bits: it comes back in ascending order. */
  lemma BitReversedTestUpperHalf()
    ensures IsPowerOf2Size(8) && BitReversed(Lookup4[8..]) == [1, 3, 5, 7, 9, 11, 13, 15]
  {
    SmallPowers();
    assert Log2(8) == 3;
    Lookup4UpperHalf();
    forall i | 0 <= i < 8
      ensures BitReversed(Lookup4[8..])[i] == 2 * i + 1
    {
      Lookup3IsReversal(i);
    }
  }

  /** `Exch_`: swaps two slots. */
  method Exch<T>(a: array<T>, i: nat, j: nat)
    requires i < a.Length && j < a.Length
    modifies a
    ensures a[..] == Swapped(old(a[..]), i, j)
  {
    a[i], a[j] := a[j], a[i];
  }

  /** Where slot p of the range takes its element from once slots below i have been visited. */
  function SwapSource(p: nat, bits: nat, i: nat): nat
  {
    if p < i || Rev(p, bits) < i then Rev(p, bits) else p
  }

  /** The range orig once the slots below i (and their partners) have been exchanged. */
  function VisitedBelow<T>(orig: seq<T>, bits: nat, i: nat): (r: seq<T>)
    requires |orig| == Pow2(bits)
    ensures |r| == |orig|
  {
    seq(|orig|, p requires 0 <= p < |orig| => RevBound(p, bits); orig[SwapSource(p, bits, i)])
  }

  lemma VisitedNone<T>(s: seq<T>, bits: nat)
    requires |s| == Pow2(bits)
    ensures VisitedBelow(s, bits, 0) == s
  {
  }

  /** Visiting slot i exchanges it with its reversal r when r > i, and otherwise leaves the range as it is. */
  lemma VisitStep<T>(orig: seq<T>, bits: nat, i: nat, r: nat)
    requires |orig| == Pow2(bits) && i < |orig| && r == Rev(i, bits)
    ensures r < |orig|
    ensures r > i ==> VisitedBelow(orig, bits, i + 1) == Swapped(VisitedBelow(orig, bits, i), i, r)
    ensures r <= i ==> VisitedBelow(orig, bits, i + 1) == VisitedBelow(orig, bits, i)
  {
    RevBound(i, bits);
    var cur := VisitedBelow(orig, bits, i);
    var next := if r > i then Swapped(cur, i, r) else cur;
    forall p | 0 <= p < |orig|
      ensures VisitedBelow(orig, bits, i + 1)[p] == next[p]
    {
      VisitSlot(orig, bits, i, r, p);
    }
  }

  /** The effect of visiting slot i on one slot p. */
  lemma VisitSlot<T>(orig: seq<T>, bits: nat, i: nat, r: nat, p: nat)
    requires |orig| == Pow2(bits) && i < |orig| && r == Rev(i, bits) && p < |orig|
    ensures r < |orig|
    ensures VisitedBelow(orig, bits, i + 1)[p] ==
      (var cur := VisitedBelow(orig, bits, i); if r > i then cur[i := cur[r]][r := cur[i]] else cur)[p]
  {
    RevBound(i, bits);
    RevInvolution(i, bits);
    RevBound(p, bits);
    RevInvolution(p, bits);
    if p == i {
      assert SwapSource(p, bits, i + 1) == r;
      assert SwapSource(r, bits, i) == (if r > i then r else Rev(r, bits));
    } else if p == r {
      assert SwapSource(p, bits, i + 1) == i;
      assert SwapSource(i, bits, i) == (if r > i then i else r);
    } else {
      assert SwapSource(p, bits, i + 1) == SwapSource(p, bits, i);
    }
  }

  lemma VisitedAll<T>(orig: seq<T>, bits: nat)
    requires |orig| == Pow2(bits)
    ensures IsPowerOf2Size(|orig|) && Log2(|orig|) == bits
    ensures VisitedBelow(orig, bits, |orig|) == BitReversed(orig)
  {
    Log2OfPow2(bits);
    forall p | 0 <= p < |orig|
      ensures VisitedBelow(orig, bits, |orig|)[p] == BitReversed(orig)[p]
    {
      assert SwapSource(p, bits, |orig|) == Rev(p, bits);
    }
  }

  /** Exchanging two slots keeps the elements. */
  lemma SwappedPermutes<T>(s: seq<T>, i: nat, j: nat)
    requires i < |s| && j < |s|
    ensures multiset(Swapped(s, i, j)) == multiset(s)
  {
    var t := s[i := s[j]];
    assert multiset(t) == multiset(s) - multiset{s[i]} + multiset{s[j]};
    assert multiset(t[j := s[i]]) == multiset(t) - multiset{t[j]} + multiset{s[i]};
  }

  /** Each visit is an exchange or nothing, so the visited range keeps the elements. */
  lemma {:induction false} VisitedPermutes<T>(orig: seq<T>, bits: nat, i: nat)
    requires |orig| == Pow2(bits) && i <= |orig|
    ensures multiset(VisitedBelow(orig, bits, i)) == multiset(orig)
  {
    if i == 0 {
      VisitedNone(orig, bits);
    } else {
      VisitedPermutes(orig, bits, i - 1);
      var r := Rev(i - 1, bits);
      VisitStep(orig, bits, i - 1, r);
      if r > i - 1 {
        SwappedPermutes(VisitedBelow(orig, bits, i - 1), i - 1, r);
      }
    }
  }

  /** The bit-reversed order is a permutation: the sort only moves elements. */
  lemma BitReversedPermutes<T>(s: seq<T>)
    requires IsPowerOf2Size(|s|)
    ensures multiset(BitReversed(s)) == multiset(s)
  {
    VisitedAll(s, Log2(|s|));
    VisitedPermutes(s, Log2(|s|), |s|);
  }

  /** s with slots i and j exchanged. */
  function Swapped<T>(s: seq<T>, i: nat, j: nat): (r: seq<T>)
    requires i < |s| && j < |s|
    ensures |r| == |s| && r[i] == s[j] && r[j] == s[i]
    ensures forall k :: 0 <= k < |s| && k != i && k != j ==> r[k] == s[k]
  {
    s[i := s[j]][j := s[i]]
  }

  /** Exchanging two slots of the range start..end, seen from the range and from outside it. */
  lemma SwapInRange<T>(before: seq<T>, after: seq<T>, start: nat, end: nat, i: nat, j: nat)
    requires start <= end < |before| && i <= end - start && j <= end - start
    requires after == Swapped(before, start + i, start + j)
    ensures after[..start] == before[..start] && after[end + 1..] == before[end + 1..]
    ensures after[start..end + 1] == Swapped(before[start..end + 1], i, j)
  {
  }

  /** `Exch_` on slots start + i and start + j, described on the range start..end. */
  method ExchInRange<T>(a: array<T>, start: nat, end: nat, i: nat, j: nat)
    requires start <= end < a.Length && i <= end - start && j <= end - start
    modifies a
    ensures a[..start] == old(a[..start]) && a[end + 1..] == old(a[end + 1..])
    ensures a[start..end + 1] == Swapped(old(a[start..end + 1]), i, j)
  {
    ghost var before := a[..];
    Exch(a, start + i, start + j);
    SwapInRange(before, a[..], start, end, i, j);
  }

  /** One iteration of `SortBitReversal_`: slot i and its reversal r are exchanged when r > i. */
  method Visit<T>(a: array<T>, start: nat, end: nat, ghost orig: seq<T>, bits: nat, i: nat, r: nat)
    requires start <= end < a.Length && |orig| == end - start + 1 == Pow2(bits)
    requires i < |orig| && r == Rev(i, bits)
    requires a[start..end + 1] == VisitedBelow(orig, bits, i)
    modifies a
    ensures a[..start] == old(a[..start]) && a[end + 1..] == old(a[end + 1..])
    ensures a[start..end + 1] == VisitedBelow(orig, bits, i + 1)
  {
    VisitStep(orig, bits, i, r);
    if r > i {
      ExchInRange(a, start, end, i, r);
    }
  }

  /**
   * `SortBitReversal_`: puts the range start..end, whose length is a power
   * of two, in bit-reversed order by exchanging each slot i with the slot at
   * its reversal r when r > i. The reversal is `BitReverseFixed`, the
   * corrected `BitReverse_`: as written, widths above 4 bits that are not a
   * multiple of 4 shift the top nibble by a negative count.
   */
  method SortBitReversal<T>(a: array<T>, start: nat, end: nat)
    requires start <= end < a.Length
    requires IsPowerOf2Size(end - start + 1) && end - start + 1 <= 0x8000_0000
    modifies a
    ensures a[start..end + 1] == BitReversed(old(a[start..end + 1]))
    ensures a[..start] == old(a[..start]) && a[end + 1..] == old(a[end + 1..])
  {
    var n := end - start + 1;
    var maxBits := Log2(n);
    Log2Bound(n);
    ghost var orig := a[start..end + 1];
    VisitedNone(orig, maxBits);
    for i := 0 to n
      invariant a[..start] == old(a[..start]) && a[end + 1..] == old(a[end + 1..])
      invariant a[start..end + 1] == VisitedBelow(orig, maxBits, i)
    {
      var reversed := BitReverseFixed(i, maxBits);
      Visit(a, start, end, orig, maxBits, i, reversed);
    }
    VisitedAll(orig, maxBits);
  }

  // ---------------------------------------------------------------------
  // Butterflies
  // ---------------------------------------------------------------------

  /** `complex_t` arithmetic. */
  function Add(x: Complex, y: Complex): Complex
  {
    Complex(x.re + y.re, x.im + y.im)
  }

  function Sub(x: Complex, y: Complex): Complex
  {
    Complex(x.re - y.re, x.im - y.im)
  }

  function Mul(x: Complex, y: Complex): Complex
  {
    Complex(x.re * y.re - x.im * y.im, x.re * y.im + x.im * y.re)
  }

  function Conj(x: Complex): Complex
  {
    Complex(x.re, -x.im)
  }

  /** n is a whole number of blocks of p slots. */
  predicate MultipleOf(n: nat, p: nat)
    requires p >= 1
    decreases n
  {
    n == 0 || (n >= p && MultipleOf(n - p, p))
  }

  lemma {:induction false} MultipleOfSum(x: nat, y: nat, p: nat)
    requires p >= 1 && MultipleOf(x, p) && MultipleOf(y, p)
    ensures MultipleOf(x + y, p)
    decreases x
  {
    if x > 0 {
      MultipleOfSum(x - p, y, p);
      assert x + y - p == x - p + y;
    }
  }

  /** Past a whole number j of blocks and short of n, there is one more block. */
  lemma NextBlock(n: nat, j: nat, p: nat, next: nat)
    requires p >= 1 && j < n && MultipleOf(j, p) && MultipleOf(n - j, p) && next == j + p
    ensures next <= n && MultipleOf(next, p) && MultipleOf(n - next, p)
  {
    MultipleOfSum(j, p, p);
  }

  /** A power of two is a whole number of blocks of any smaller power of two. */
  lemma {:induction false} PowerOf2Blocks(a: nat, b: nat)
    requires a <= b
    ensures MultipleOf(Pow2(b), Pow2(a))
    decreases b
  {
    if a < b {
      PowerOf2Blocks(a, b - 1);
      MultipleOfSum(Pow2(b - 1), Pow2(b - 1), Pow2(a));
    } else {
      assert MultipleOf(Pow2(b) - Pow2(a), Pow2(a));
    }
  }

  /**
   * One butterfly group of 2 * half slots: slot k < half becomes
   * even + w·odd and slot k + half becomes even − w·odd, where even and odd
   * are the slots k and k + half and w is the twiddle factor of k in a
   * sub-transform of 2 * half points.
   */
  function Group(g: seq<Complex>, half: nat, twiddle: (nat, nat) -> Complex): (r: seq<Complex>)
    requires |g| == 2 * half
    ensures |r| == |g|
  {
    seq(2 * half, k requires 0 <= k < 2 * half =>
      if k < half then Add(g[k], Mul(g[k + half], twiddle(2 * half, k)))
      else Sub(g[k - half], Mul(g[k], twiddle(2 * half, k - half))))
  }

  /** One stage: every block of 2 * half slots goes through `Group`. */
  function Stage(s: seq<Complex>, half: nat, twiddle: (nat, nat) -> Complex): (r: seq<Complex>)
    requires half >= 1
    ensures |r| == |s|
    decreases |s|
  {
    if |s| < 2 * half then s
    else Group(s[..2 * half], half, twiddle) + Stage(s[2 * half..], half, twiddle)
  }

  /** Stages 1 to m, stage m working on blocks of 2^m points. */
  function Stages(s: seq<Complex>, m: nat, twiddle: (nat, nat) -> Complex): (r: seq<Complex>)
    ensures |r| == |s|
  {
    if m == 0 then s else Stage(Stages(s, m - 1, twiddle), Pow2(m - 1), twiddle)
  }

  /** The radix-2 transform: the bit-reversal permutation, then log2 N stages. */
  function Transform(s: seq<Complex>, twiddle: (nat, nat) -> Complex): (r: seq<Complex>)
    requires IsPowerOf2Size(|s|)
    ensures |r| == |s|
  {
    Stages(BitReversed(s), Log2(|s|), twiddle)
  }

  /** A stage over whole blocks t and then one more block g. */
  lemma {:induction false} StageAppend(t: seq<Complex>, g: seq<Complex>, half: nat, twiddle: (nat, nat) -> Complex)
    requires half >= 1 && MultipleOf(|t|, 2 * half) && |g| == 2 * half
    ensures Stage(t + g, half, twiddle) == Stage(t, half, twiddle) + Group(g, half, twiddle)
    decreases |t|
  {
    var p := 2 * half;
    if |t| == 0 {
      assert t + g == g && g[..p] == g && g[p..] == [];
    } else {
      StageAppend(t[p..], g, half, twiddle);
      assert (t + g)[..p] == t[..p] && (t + g)[p..] == t[p..] + g;
    }
  }

  /** Slots below i of each half of the block g have been through their butterfly. */
  function HalfDone(g: seq<Complex>, half: nat, twiddle: (nat, nat) -> Complex, i: nat): (r: seq<Complex>)
    requires |g| == 2 * half
    ensures |r| == |g|
  {
    seq(|g|, k requires 0 <= k < |g| =>
      if k < i || half <= k < half + i then Group(g, half, twiddle)[k] else g[k])
  }

  /** The stage on cur, finished below j and with the block at j done below i. */
  function Progress(cur: seq<Complex>, half: nat, twiddle: (nat, nat) -> Complex, j: nat, i: nat): (r: seq<Complex>)
    requires half >= 1 && j + 2 * half <= |cur|
    ensures |r| == |cur|
  {
    Stage(cur[..j], half, twiddle) + HalfDone(cur[j..j + 2 * half], half, twiddle, i) + cur[j + 2 * half..]
  }

  /** The stage on cur, finished below j. */
  function StageUpTo(cur: seq<Complex>, half: nat, twiddle: (nat, nat) -> Complex, j: nat): (r: seq<Complex>)
    requires half >= 1 && j <= |cur|
    ensures |r| == |cur|
  {
    Stage(cur[..j], half, twiddle) + cur[j..]
  }

  lemma ProgressStart(cur: seq<Complex>, half: nat, twiddle: (nat, nat) -> Complex, j: nat)
    requires half >= 1 && j + 2 * half <= |cur|
    ensures Progress(cur, half, twiddle, j, 0) == StageUpTo(cur, half, twiddle, j)
  {
    var g := cur[j..j + 2 * half];
    assert HalfDone(g, half, twiddle, 0) == g;
    assert cur[j..] == g + cur[j + 2 * half..];
  }

  lemma ProgressEnd(cur: seq<Complex>, half: nat, twiddle: (nat, nat) -> Complex, j: nat, next: nat)
    requires half >= 1 && next == j + 2 * half <= |cur| && MultipleOf(j, 2 * half)
    ensures Progress(cur, half, twiddle, j, half) == StageUpTo(cur, half, twiddle, next)
  {
    ProgressAtEnd(cur, half, twiddle, j, next);
    StageUpToSplit(cur, half, twiddle, j, next);
  }

  /** With every butterfly of the block done, the block is its whole group. */
  lemma ProgressAtEnd(cur: seq<Complex>, half: nat, twiddle: (nat, nat) -> Complex, j: nat, next: nat)
    requires half >= 1 && next == j + 2 * half <= |cur|
    ensures Progress(cur, half, twiddle, j, half) == Stage(cur[..j], half, twiddle) + Group(cur[j..next], half, twiddle) + cur[next..]
  {
    HalfDoneAll(cur[j..next], half, twiddle);
  }

  /** The stage finished below the end of a block is the stage below the block followed by the block's group. */
  lemma StageUpToSplit(cur: seq<Complex>, half: nat, twiddle: (nat, nat) -> Complex, j: nat, next: nat)
    requires half >= 1 && next == j + 2 * half <= |cur| && MultipleOf(j, 2 * half)
    ensures StageUpTo(cur, half, twiddle, next) == Stage(cur[..j], half, twiddle) + Group(cur[j..next], half, twiddle) + cur[next..]
  {
    var t, g := cur[..j], cur[j..next];
    assert cur[..next] == t + g;
    StageAppend(t, g, half, twiddle);
  }

  lemma HalfDoneAll(g: seq<Complex>, half: nat, twiddle: (nat, nat) -> Complex)
    requires |g| == 2 * half
    ensures HalfDone(g, half, twiddle, half) == Group(g, half, twiddle)
  {
  }

  /** Replacing slot p of the middle part of a concatenation. */
  lemma UpdateMiddle<T>(x: seq<T>, d: seq<T>, y: seq<T>, p: nat, v: T)
    requires p < |d|
    ensures (x + d + y)[|x| + p := v] == x + d[p := v] + y
  {
  }

  /** The block g once slot i of each half has been through its butterfly. */
  lemma HalfDoneStep(g: seq<Complex>, half: nat, twiddle: (nat, nat) -> Complex, i: nat)
    requires |g| == 2 * half && i < half
    ensures var d, w := HalfDone(g, half, twiddle, i), twiddle(2 * half, i);
      d[i] == g[i] && d[i + half] == g[i + half] &&
      HalfDone(g, half, twiddle, i + 1) == d[i + half := Sub(g[i], Mul(g[i + half], w))][i := Add(g[i], Mul(g[i + half], w))]
  {
    var d, e, w := HalfDone(g, half, twiddle, i), HalfDone(g, half, twiddle, i + 1), twiddle(2 * half, i);
    var u := d[i + half := Sub(g[i], Mul(g[i + half], w))][i := Add(g[i], Mul(g[i + half], w))];
    forall k | 0 <= k < |g|
      ensures e[k] == u[k]
    {
      if k == i || k == i + half {
        assert e[k] == Group(g, half, twiddle)[k];
      } else {
        assert e[k] == d[k];
      }
    }
  }

  /** One butterfly on slots j + i and j + i + half moves the progress on by one. */
  lemma ProgressStep(cur: seq<Complex>, half: nat, twiddle: (nat, nat) -> Complex, j: nat, i: nat, x: seq<Complex>, w: Complex)
    requires half >= 1 && j + 2 * half <= |cur| && i < half
    requires x == Progress(cur, half, twiddle, j, i) && w == twiddle(2 * half, i)
    ensures ButterflyAt(x, j + i, half, w) == Progress(cur, half, twiddle, j, i + 1)
  {
    var g := cur[j..j + 2 * half];
    var s, r := Stage(cur[..j], half, twiddle), cur[j + 2 * half..];
    var d := HalfDone(g, half, twiddle, i);
    HalfDoneStep(g, half, twiddle, i);
    var lo, hi := Add(g[i], Mul(g[i + half], w)), Sub(g[i], Mul(g[i + half], w));
    UpdateMiddle(s, d, r, i + half, hi);
    UpdateMiddle(s, d[i + half := hi], r, i, lo);
  }

  /** One butterfly on slots e and e + half of s, with twiddle factor w. */
  function ButterflyAt(s: seq<Complex>, e: nat, half: nat, w: Complex): (r: seq<Complex>)
    requires e + half < |s|
    ensures |r| == |s|
  {
    s[e + half := Sub(s[e], Mul(s[e + half], w))][e := Add(s[e], Mul(s[e + half], w))]
  }

  /**
   * The body of the innermost loop of `Forward_`: one butterfly on slots
   * j + i and j + i + half; returns the next value of i.
   */
  method Butterfly(a: array<Complex>, j: nat, i: nat, half: nat, twiddle: (nat, nat) -> Complex, ghost cur: seq<Complex>)
    returns (next: nat)
    requires half >= 1 && j + 2 * half <= a.Length == |cur| && i < half
    requires a[..] == Progress(cur, half, twiddle, j, i)
    modifies a
    ensures next == i + 1 && a[..] == Progress(cur, half, twiddle, j, next)
  {
    var w := twiddle(2 * half, i);
    ProgressStep(cur, half, twiddle, j, i, a[..], w);
    var even, odd := a[j + i], a[j + i + half];
    var tmp := Mul(odd, w);
    a[j + i + half] := Sub(even, tmp);
    a[j + i] := Add(even, tmp);
    next := i + 1;
  }

  /** The innermost loop of `Forward_` for the block of 2 * half points starting at j. */
  method ButterflyHalves(a: array<Complex>, j: nat, half: nat, twiddle: (nat, nat) -> Complex, ghost cur: seq<Complex>)
    requires half >= 1 && j + 2 * half <= a.Length == |cur|
    requires a[..] == StageUpTo(cur, half, twiddle, j)
    modifies a
    ensures a[..] == Progress(cur, half, twiddle, j, half)
  {
    ProgressStart(cur, half, twiddle, j);
    var i := 0;
    while i < half
      invariant i <= half && a[..] == Progress(cur, half, twiddle, j, i)
      decreases half - i
    {
      i := Butterfly(a, j, i, half, twiddle, cur);
    }
  }

  /** One pass of the block loop of `Forward_`; returns the start of the next block. */
  method ButterflyBlock(a: array<Complex>, j: nat, half: nat, points: nat, twiddle: (nat, nat) -> Complex, ghost cur: seq<Complex>)
    returns (next: nat)
    requires half >= 1 && points == 2 * half
    requires j < a.Length == |cur| && MultipleOf(j, points) && MultipleOf(a.Length - j, points)
    requires a[..] == StageUpTo(cur, half, twiddle, j)
    modifies a
    ensures next == j + points <= a.Length && MultipleOf(next, points) && MultipleOf(a.Length - next, points)
    ensures a[..] == StageUpTo(cur, half, twiddle, next)
  {
    next := j + points;
    NextBlock(a.Length, j, points, next);
    ButterflyHalves(a, j, half, twiddle, cur);
    ProgressEnd(cur, half, twiddle, j, next);
  }

  /**
   * One pass of the stage loop of `Forward_`: for each block of 2^stage
   * points, butterflies on slots j + i and j + i + 2^(stage−1).
   */
  method ButterflyStage(a: array<Complex>, stage: nat, twiddle: (nat, nat) -> Complex)
    requires 1 <= stage && MultipleOf(a.Length, Pow2(stage))
    modifies a
    ensures a[..] == Stage(old(a[..]), Pow2(stage - 1), twiddle)
  {
    var points := Pow2(stage);
    var half := points / 2;
    assert half == Pow2(stage - 1) && points == 2 * half;
    ghost var cur := a[..];
    var j := 0;
    assert cur[..0] == [] && cur[0..] == cur;
    while j < a.Length
      invariant j <= a.Length && MultipleOf(j, points) && MultipleOf(a.Length - j, points)
      invariant a[..] == StageUpTo(cur, half, twiddle, j)
      decreases a.Length - j
    {
      j := ButterflyBlock(a, j, half, points, twiddle, cur);
    }
    assert cur[..a.Length] == cur && cur[a.Length..] == [];
  }

  /** The stage loop of `Forward_` from `stage` on; returns the next stage. */
  method ForwardStage(a: array<Complex>, stage: nat, stages: nat, twiddle: (nat, nat) -> Complex, ghost start: seq<Complex>)
    returns (next: nat)
    requires 1 <= stage <= stages && a.Length == Pow2(stages) == |start|
    requires a[..] == Stages(start, stage - 1, twiddle)
    modifies a
    ensures next == stage + 1 && a[..] == Stages(start, next - 1, twiddle)
  {
    PowerOf2Blocks(stage, stages);
    next := stage + 1;
    StagesNext(start, stage, next, twiddle);
    ButterflyStage(a, stage, twiddle);
  }

  lemma StagesNext(s: seq<Complex>, stage: nat, next: nat, twiddle: (nat, nat) -> Complex)
    requires stage >= 1 && next == stage + 1
    ensures Stages(s, next - 1, twiddle) == Stage(Stages(s, stage - 1, twiddle), Pow2(stage - 1), twiddle)
  {
  }

  const EmptyInput: string := "Empty input"

  /**
   * `Forward_` (and `forward` of the stand-alone copy): refuses an empty
   * input; otherwise puts the input in bit-reversed order and runs the
   * log2 N butterfly stages, in place. twiddle(P, i) stands for
   * (cos(2πi/P), −sin(2πi/P)).
   */
  method Forward(a: array<Complex>, twiddle: (nat, nat) -> Complex) returns (failure: Option<string>)
    requires a.Length == 0 || (IsPowerOf2Size(a.Length) && a.Length <= 0x8000_0000)
    modifies a
    ensures failure.Some? <==> a.Length == 0
    ensures failure.Some? ==> failure.value == EmptyInput
    ensures a.Length > 0 ==> a[..] == Transform(old(a[..]), twiddle)
  {
    if a.Length == 0 {
      return Some(EmptyInput);
    }
    var stages := Log2(a.Length);
    Log2Bound(a.Length);
    SortBitReversal(a, 0, a.Length - 1);
    assert a[..] == a[0..a.Length - 1 + 1] && old(a[..]) == old(a[0..a.Length - 1 + 1]);
    ghost var start := a[..];
    var stage := 1;
    while stage <= stages
      invariant 1 <= stage <= stages + 1
      invariant a[..] == Stages(start, stage - 1, twiddle)
      decreases stages + 1 - stage
    {
      stage := ForwardStage(a, stage, stages, twiddle, start);
    }
    failure := None;
  }

  /** The transform of a single point is that point. */
  lemma TransformOne(x: Complex, twiddle: (nat, nat) -> Complex)
    ensures IsPowerOf2Size(1) && Transform([x], twiddle) == [x]
  {
    assert Pow2(0) == 1 && Log2(1) == 0;
    assert BitReversed([x]) == [x] by {
      assert Rev(0, 0) == 0;
    }
  }

  /** The transform of two points is their sum and difference, when the twiddle of 0 is 1. */
  lemma TransformTwo(x: Complex, y: Complex, twiddle: (nat, nat) -> Complex)
    requires twiddle(2, 0) == Complex(1.0, 0.0)
    ensures IsPowerOf2Size(2) && Transform([x, y], twiddle) == [Add(x, y), Sub(x, y)]
  {
    assert Pow2(1) == 2 && Log2(2) == 1 by {
      assert Log2(1) == 0;
    }
    assert Rev(0, 1) == 0 && Rev(1, 1) == 1;
    assert BitReversed([x, y]) == [x, y];
    assert Stages([x, y], 1, twiddle) == Stage([x, y], 1, twiddle);
    assert Mul(y, Complex(1.0, 0.0)) == y;
    assert [x, y][..2] == [x, y] && [x, y][2..] == [];
  }

  // ---------------------------------------------------------------------
  // Element-wise passes (inverse transform, polar conversion, low-bin cut)
  // ---------------------------------------------------------------------

  /** s with f applied to every slot k with lo <= k < hi. */
  function MapRange(s: seq<Complex>, lo: nat, hi: nat, f: Complex -> Complex): (r: seq<Complex>)
    ensures |r| == |s|
    ensures forall k :: 0 <= k < |s| ==> r[k] == if lo <= k < hi then f(s[k]) else s[k]
  {
    seq(|s|, k requires 0 <= k < |s| => if lo <= k < hi then f(s[k]) else s[k])
  }

  /** One step of an element-wise loop; returns the next index. */
  method MapStep(a: array<Complex>, lo: nat, hi: nat, k: nat, f: Complex -> Complex, ghost orig: seq<Complex>)
    returns (next: nat)
    requires lo <= k < hi <= a.Length == |orig| && a[..] == MapRange(orig, lo, k, f)
    modifies a
    ensures next == k + 1 && a[..] == MapRange(orig, lo, next, f)
  {
    a[k] := f(a[k]);
    next := k + 1;
  }

  /**
   * An element-wise loop over lo <= k < hi: slot k becomes f of slot k,
   * every other slot is left as it is.
   */
  method MapInPlace(a: array<Complex>, lo: nat, hi: nat, f: Complex -> Complex)
    requires hi <= a.Length
    modifies a
    ensures a[..] == MapRange(old(a[..]), lo, hi, f)
  {
    ghost var orig := a[..];
    if hi <= lo {
      assert MapRange(orig, lo, hi, f) == orig;
      return;
    }
    var k := lo;
    assert MapRange(orig, lo, k, f) == orig;
    while k < hi
      invariant lo <= k <= hi && a[..] == MapRange(orig, lo, k, f)
      decreases hi - k
    {
      k := MapStep(a, lo, hi, k, f, orig);
    }
  }

  // ---------------------------------------------------------------------
  // Inverse transform through the forward one
  // ---------------------------------------------------------------------

  /** Conjugate, then divide by n: the last pass of the inverse transforms. */
  function ConjScaled(x: Complex, n: nat): Complex
    requires n > 0
  {
    Complex(x.re / n as real, -x.im / n as real)
  }

  /**
   * The inverse transform computed through the forward one: conjugate the
   * slots from lo on, transform, then conjugate and divide by N the slots
   * from lo on. lo is 0 in `FFT::Inverse`; the stand-alone copy uses 1.
   */
  function InverseFrom(s: seq<Complex>, lo: nat, twiddle: (nat, nat) -> Complex): (r: seq<Complex>)
    requires |s| > 0 && IsPowerOf2Size(|s|)
    ensures |r| == |s|
  {
    var n := |s|;
    MapRange(Transform(MapRange(s, lo, n, Conj), twiddle), lo, n, (x: Complex) => ConjScaled(x, n))
  }

  /** The three passes of the inverse transforms, from slot lo on; an empty input is refused by `Forward`. */
  method InverseInPlace(a: array<Complex>, lo: nat, twiddle: (nat, nat) -> Complex) returns (failure: Option<string>)
    requires a.Length == 0 || (IsPowerOf2Size(a.Length) && a.Length <= 0x8000_0000)
    modifies a
    ensures failure.Some? <==> a.Length == 0
    ensures failure.Some? ==> failure.value == EmptyInput
    ensures a.Length > 0 ==> a[..] == InverseFrom(old(a[..]), lo, twiddle)
  {
    var n := a.Length;
    MapInPlace(a, lo, n, Conj);
    failure := Forward(a, twiddle);
    if failure.Some? {
      return;
    }
    MapInPlace(a, lo, n, (x: Complex) => ConjScaled(x, n));
  }

  /** On two points, with a twiddle of 1 for slot 0, the inverse undoes the forward transform. */
  lemma InverseRoundTripTwo(x: Complex, y: Complex, twiddle: (nat, nat) -> Complex)
    requires twiddle(2, 0) == Complex(1.0, 0.0)
    ensures IsPowerOf2Size(2) && InverseFrom(Transform([x, y], twiddle), 0, twiddle) == [x, y]
  {
    TransformTwo(x, y, twiddle);
    var c := MapRange([Add(x, y), Sub(x, y)], 0, 2, Conj);
    assert c == [Conj(Add(x, y)), Conj(Sub(x, y))];
    TransformTwo(c[0], c[1], twiddle);
    var t := [Add(c[0], c[1]), Sub(c[0], c[1])];
    assert MapRange(t, 0, 2, (z: Complex) => ConjScaled(z, 2)) == [ConjScaled(t[0], 2), ConjScaled(t[1], 2)];
  }

  // ---------------------------------------------------------------------
  // Polar notation
  // ---------------------------------------------------------------------

  /** sqrt(im² + re²), with `sqrt` a parameter. */
  function Magnitude(x: Complex, sqrt: real -> real): (r: real)
    ensures IsSquareRoot(sqrt) ==> r >= 0.0 && r * r == x.im * x.im + x.re * x.re
  {
    RootOfSquares(x.im, x.re, sqrt);
    sqrt(x.im * x.im + x.re * x.re)
  }

  /**
   * A bin in polar notation: (magnitude, atan(im / re)), where a zero real
   * part is first replaced by 1e-20 to avoid the division by zero.
   */
  function PolarOf(x: Complex, sqrt: real -> real, atan: real -> real): (r: Complex)
    ensures r.re == Magnitude(x, sqrt)
    ensures x.re != 0.0 ==> r.im == atan(x.im / x.re)
    ensures x.re == 0.0 ==> r.im == atan(x.im / 1e-20)
  {
    var re := if x.re == 0.0 then 1e-20 else x.re;
    Complex(Magnitude(x, sqrt), atan(x.im / re))
  }
}
