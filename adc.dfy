/** The altitude sampler of ADC.c: a ring of BufSize raw samples and the rounded
    mean that getAltMean computes over all of them. */
module Adc {
  import opened CInt

  /** ADC.h: number of slots in the sample ring. */
  const BufSize := 60

  /** Largest sample for which `2 * sum + BufSize` cannot wrap in 32 bits. */
  const MaxSafeSample := 35791393

  function Sum(s: seq<int>): int
    decreases |s|
  {
    if s == [] then 0 else Sum(s[..|s| - 1]) + s[|s| - 1]
  }

  /** One more element of a prefix adds that element to its sum. */
  lemma SumPrefixStep(s: seq<int>, i: nat)
    requires i < |s|
    ensures Sum(s[..i + 1]) == Sum(s[..i]) + s[i]
  {
    assert s[..i + 1][..i] == s[..i];
  }

  /** The order in which BufSize reads starting at slot k visit the ring. */
  function Rotate(s: seq<uint32>, k: nat): (r: seq<uint32>)
    requires k <= |s|
    ensures |r| == |s|
    ensures forall i :: 0 <= i < |s| ==> r[i] == s[if k + i < |s| then k + i else k + i - |s|]
  {
    s[k..] + s[..k]
  }

  /** getAltMean as computed in 32-bit unsigned arithmetic: the sum wraps modulo
      2^32, so do `2 * sum` and `+ BUF_SIZE`, and the result is cut to 16 bits. */
  function AltMean(s: seq<uint32>): uint16 {
    var sum := ToUInt32(Sum(s));
    ToUInt16(ToUInt32(2 * sum + BufSize) / 2 / BufSize)
  }

  lemma {:induction false} SumAppend(a: seq<int>, b: seq<int>)
    ensures Sum(a + b) == Sum(a) + Sum(b)
    decreases |b|
  {
    if b == [] {
      assert a + b == a;
    } else {
      assert (a + b)[..|a + b| - 1] == a + b[..|b| - 1];
      SumAppend(a, b[..|b| - 1]);
    }
  }

  lemma SumRotate(s: seq<uint32>, k: nat)
    requires k <= |s|
    ensures Sum(Rotate(s, k)) == Sum(s)
  {
    assert s == s[..k] + s[k..];
    SumAppend(s[..k], s[k..]);
    SumAppend(s[k..], s[..k]);
  }

  /** Adding to a sum kept modulo 2^32 is the same as taking the full sum modulo 2^32. */
  lemma WrapAdd(a: int, x: int)
    ensures ToUInt32(ToUInt32(a) + x) == ToUInt32(a + x)
  {
    var y := a + x;
    assert ToUInt32(a) + x == 0x1_0000_0000 * (y / 0x1_0000_0000 - a / 0x1_0000_0000) + y % 0x1_0000_0000;
    ModUnique(ToUInt32(a) + x, y / 0x1_0000_0000 - a / 0x1_0000_0000, y % 0x1_0000_0000);
  }

  /** Euclidean division by 2^32 has one quotient and one remainder. */
  lemma ModUnique(y: int, q: int, r: int)
    requires y == 0x1_0000_0000 * q + r && 0 <= r < 0x1_0000_0000
    ensures y % 0x1_0000_0000 == r
  {
    var q', r' := y / 0x1_0000_0000, y % 0x1_0000_0000;
    assert 0x1_0000_0000 * (q - q') == r' - r;
  }

  lemma {:induction false} SumBounds(s: seq<int>, lo: int, hi: int)
    requires forall i :: 0 <= i < |s| ==> lo <= s[i] <= hi
    ensures |s| * lo <= Sum(s) <= |s| * hi
    decreases |s|
  {
    if s != [] {
      var n := |s| - 1;
      var init := s[..n];
      assert forall i :: 0 <= i < |init| ==> init[i] == s[i];
      SumBounds(init, lo, hi);
      assert Sum(s) == Sum(init) + s[n];
      assert |s| * lo == n * lo + lo && |s| * hi == n * hi + hi;
    }
  }

  /** Taking slot i out of a sequence takes its value out of the sum. */
  lemma SumRemove(b: seq<int>, i: nat)
    requires i < |b|
    ensures Sum(b) == Sum(b[..i] + b[i + 1..]) + b[i]
  {
    var x := b[i];
    assert b == (b[..i] + [x]) + b[i + 1..];
    SumAppend(b[..i] + [x], b[i + 1..]);
    assert (b[..i] + [x])[..i] == b[..i];
    assert Sum(b[..i] + [x]) == Sum(b[..i]) + x;
    SumAppend(b[..i], b[i + 1..]);
  }

  /** Taking slot i out of a sequence takes one copy of its value out of the multiset. */
  lemma MultisetRemove(b: seq<int>, i: nat)
    requires i < |b|
    ensures multiset(b[..i] + b[i + 1..]) == multiset(b) - multiset{b[i]}
  {
    assert b == b[..i] + [b[i]] + b[i + 1..];
  }

  /** Exactly the values of the ring count, whatever their order: the mean depends
      on the multiset of slot values only, not on where the write index stands. */
  lemma {:induction false} SumPermutation(a: seq<int>, b: seq<int>)
    requires multiset(a) == multiset(b)
    ensures Sum(a) == Sum(b)
    decreases |a|
  {
    if a != [] {
      var n := |a| - 1;
      var x, a' := a[n], a[..n];
      assert a == a' + [x];
      assert multiset(a) == multiset(a') + multiset{x};
      assert x in multiset(b);
      var i :| 0 <= i < |b| && b[i] == x;
      var b' := b[..i] + b[i + 1..];
      MultisetRemove(b, i);
      assert multiset(a') == multiset(a) - multiset{x};
      SumPermutation(a', b');
      SumRemove(b, i);
      assert Sum(a) == Sum(a') + x;
    }
  }

  lemma AltMeanPermutation(a: seq<uint32>, b: seq<uint32>)
    requires multiset(a) == multiset(b)
    ensures AltMean(a) == AltMean(b)
  {
    SumPermutation(a, b);
  }

  /** For samples no larger than MaxSafeSample nothing wraps in 32 bits, and the
      mean is the sum plus half the ring size, divided by the ring size. */
  lemma AltMeanNoWrap(s: seq<uint32>)
    requires |s| == BufSize
    requires forall i :: 0 <= i < |s| ==> s[i] <= MaxSafeSample
    ensures 2 * Sum(s) + BufSize < 0x1_0000_0000
    ensures AltMean(s) == ToUInt16((Sum(s) + BufSize / 2) / BufSize)
  {
    SumBounds(s, 0, MaxSafeSample);
  }

  /** For 16-bit samples the mean is sum/60 rounded half up, and fits its uint16. */
  lemma AltMeanRoundsHalfUp(s: seq<uint32>)
    requires |s| == BufSize
    requires forall i :: 0 <= i < |s| ==> s[i] < 0x1_0000
    ensures AltMean(s) == (Sum(s) + 30) / 60
    ensures 60 * AltMean(s) - 30 <= Sum(s) < 60 * AltMean(s) + 30
  {
    SumBounds(s, 0, 0xFFFF);
  }

  /** The mean lies between the smallest and the largest slot value. */
  lemma AltMeanBetween(s: seq<uint32>, lo: int, hi: int)
    requires |s| == BufSize && hi < 0x1_0000
    requires forall i :: 0 <= i < |s| ==> lo <= s[i] <= hi
    ensures lo <= AltMean(s) <= hi
  {
    SumBounds(s, lo, hi);
    AltMeanRoundsHalfUp(s);
  }

  /** A ring holding one value v everywhere has mean v. */
  lemma AltMeanConstant(s: seq<uint32>, v: uint16)
    requires |s| == BufSize
    requires forall i :: 0 <= i < |s| ==> s[i] == v
    ensures AltMean(s) == v
  {
    AltMeanBetween(s, v, v);
  }
}
