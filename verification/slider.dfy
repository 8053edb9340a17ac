/** The product slider's position: which slide is current, how many slides
    there are, and whether the scrolling element is mounted.  Indices follow
    JavaScript number arithmetic: `%` keeps the sign of the dividend, and a
    remainder by zero slides is NaN, which every later step keeps. */
module Slider {

  datatype Index = At(i: int) | NaN

  datatype SliderState = SliderState(current: Index, count: nat, mounted: bool)

  const Initial: Index := At(0)

  /** JavaScript's `a % n` for a non-zero `n`: truncating, with the dividend's sign. */
  function JsRem(a: int, n: int): (r: int)
    requires n != 0
    ensures a >= 0 ==> 0 <= r < (if n > 0 then n else -n)
    ensures a < 0 ==> -(if n > 0 then n else -n) < r <= 0
    ensures n > 0 && a >= 0 ==> r == a % n
  {
    var m := if n > 0 then n else -n;
    if a >= 0 then a % m else -((-a) % m)
  }

  /** The quotient of `a` by `n`, truncated toward zero. */
  function TruncDiv(a: int, n: int): int
    requires n != 0
  {
    var q := (if a >= 0 then a else -a) / (if n > 0 then n else -n);
    if (a >= 0) == (n > 0) then q else -q
  }

  /** JavaScript defines `a % n` as `a - n * q` with `q` the quotient truncated
      toward zero; with the bounds of `JsRem` this fixes the remainder for every sign. */
  lemma JsRemIsRemainder(a: int, n: int)
    requires n != 0
    ensures a == n * TruncDiv(a, n) + JsRem(a, n)
  {
    var m := if n > 0 then n else -n;
    var b := if a >= 0 then a else -a;
    assert b == m * (b / m) + b % m;
    if n > 0 {
      if a < 0 {
        assert n * TruncDiv(a, n) == -(m * (b / m));
      }
    } else if a >= 0 {
      assert n * TruncDiv(a, n) == m * (b / m);
    } else {
      assert n * TruncDiv(a, n) == -(m * (b / m));
    }
  }

  /** `scrollToIndex`: the index moves only while the slider element exists. */
  function ScrollToIndex(s: SliderState, index: Index): (r: SliderState)
    ensures !s.mounted ==> r == s
    ensures s.mounted ==> r.current == index
    ensures r.count == s.count && r.mounted == s.mounted
  {
    if s.mounted then s.(current := index) else s
  }

  /** `(currentIndex + 1) % childrenArray.length`. */
  function NextIndex(index: Index, n: nat): (r: Index)
    ensures n == 0 || index.NaN? ==> r == NaN
    ensures n > 0 && index.At? && 0 <= index.i < n ==> r == At(if index.i == n - 1 then 0 else index.i + 1)
    ensures n > 0 && index.At? ==> r == At(JsRem(index.i + 1, n))
  {
    match index
    case NaN => NaN
    case At(i) => if n == 0 then NaN else At(JsRem(i + 1, n))
  }

  /** `currentIndex === 0 ? length - 1 : currentIndex - 1`. */
  function PrevIndex(index: Index, n: nat): (r: Index)
    ensures index == At(0) ==> r == At(n - 1)
    ensures index.At? && index.i != 0 ==> r == At(index.i - 1)
    ensures index.NaN? ==> r == NaN
  {
    match index
    case NaN => NaN
    case At(i) => if i == 0 then At(n - 1) else At(i - 1)
  }

  function NextSlide(s: SliderState): SliderState {
    ScrollToIndex(s, NextIndex(s.current, s.count))
  }

  function PrevSlide(s: SliderState): SliderState {
    ScrollToIndex(s, PrevIndex(s.current, s.count))
  }

  predicate InBounds(index: Index, n: nat) {
    index.At? && 0 <= index.i < n
  }

  /** With at least one slide, both steps keep an in-range index in range. */
  lemma StepsStayInRange(index: Index, n: nat)
    requires InBounds(index, n)
    ensures InBounds(NextIndex(index, n), n)
    ensures InBounds(PrevIndex(index, n), n)
  {
  }

  /** Going forward then back, or back then forward, returns to the same slide. */
  lemma StepsAreInverse(index: Index, n: nat)
    requires InBounds(index, n)
    ensures PrevIndex(NextIndex(index, n), n) == index
    ensures NextIndex(PrevIndex(index, n), n) == index
  {
  }

  /** A single slide never moves. */
  lemma SingleSlideStays(index: Index)
    requires InBounds(index, 1)
    ensures NextIndex(index, 1) == At(0) && PrevIndex(index, 1) == At(0)
  {
  }

  /** With no slides, `next` gives NaN, and NaN is never left again. */
  lemma NoSlidesGivesNaN(s: SliderState)
    requires s.count == 0 && s.mounted
    ensures NextSlide(s).current == NaN
    ensures NextSlide(NextSlide(s)).current == NaN && PrevSlide(NextSlide(s)).current == NaN
  {
  }

  /** `nextSlide` taken `k` times. */
  function Advance(s: SliderState, k: nat): (r: SliderState)
    ensures r.count == s.count && r.mounted == s.mounted
    ensures !s.mounted ==> r == s
  {
    if k == 0 then s else NextSlide(Advance(s, k - 1))
  }

  lemma MulAtLeast(k: int, n: int)
    requires k >= 1 && n > 0
    ensures k * n >= n
  {
  }

  /** Quotient and remainder are determined by `a == q * n + r` with `0 <= r < n`. */
  lemma ModUnique(a: int, n: int, q: int, r: int)
    requires n > 0 && a == q * n + r && 0 <= r < n
    ensures a % n == r
  {
    var q0, r0 := a / n, a % n;
    assert q0 * n + r0 == q * n + r;
    assert (q0 - q) * n == r - r0;
    if q0 > q {
      MulAtLeast(q0 - q, n);
    } else if q0 < q {
      MulAtLeast(q - q0, n);
    }
  }

  lemma SuccessorMod(x: nat, n: nat)
    requires n > 0
    ensures (if x % n == n - 1 then 0 else x % n + 1) == (x + 1) % n
  {
    var q, r := x / n, x % n;
    if r == n - 1 {
      assert x + 1 == (q + 1) * n + 0;
      ModUnique(x + 1, n, q + 1, 0);
    } else {
      ModUnique(x + 1, n, q, r + 1);
    }
  }

  /** `k` steps forward from slide `i` land on slide `(i + k) mod n`. */
  lemma {:induction false} AdvanceWraps(s: SliderState, k: nat)
    requires s.mounted && InBounds(s.current, s.count)
    ensures Advance(s, k).current == At((s.current.i + k) % s.count)
  {
    if k > 0 {
      var n, x := s.count, s.current.i + k - 1;
      var before := Advance(s, k - 1);
      AdvanceWraps(s, k - 1);
      assert before.current == At(x % n) && before.mounted && before.count == n;
      assert NextIndex(before.current, n) == At(if x % n == n - 1 then 0 else x % n + 1);
      SuccessorMod(x, n);
    }
  }
}
