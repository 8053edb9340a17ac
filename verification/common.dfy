/** Small value-level helpers shared by every part of the storefront model:
    optional values, JavaScript truthiness of optional strings, ASCII
    lower-casing, substring search, order-preserving filtering and joining. */
module Common {

  /** A value that may be absent (`undefined`/`null` in the storefront code). */
  datatype Option<+T> = None | Some(value: T)

  /** JavaScript truthiness of an optional string: present and non-empty. */
  predicate Truthy(s: Option<string>) {
    s.Some? && s.value != ""
  }

  /** `String.prototype.toLowerCase` restricted to ASCII letters. */
  function LowerChar(c: char): (d: char)
    ensures 'A' <= c <= 'Z' ==> 'a' <= d <= 'z'
    ensures !('A' <= c <= 'Z') ==> d == c
  {
    if 'A' <= c <= 'Z' then (c as int + 32) as char else c
  }

  function Lower(s: string): (r: string)
    ensures |r| == |s|
    ensures forall i :: 0 <= i < |s| ==> r[i] == LowerChar(s[i])
  {
    seq(|s|, i requires 0 <= i < |s| => LowerChar(s[i]))
  }

  /** `hay.includes(needle)`: some suffix of `hay` starts with `needle`. */
  predicate Includes(hay: string, needle: string)
    decreases |hay|
  {
    (|needle| <= |hay| && hay[..|needle|] == needle)
    || (|hay| > 0 && Includes(hay[1..], needle))
  }

  /** The empty string is included in every string, as in JavaScript. */
  lemma IncludesEmpty(hay: string)
    ensures Includes(hay, "")
  {
    assert hay[..0] == "";
  }

  /** `Array.prototype.filter`: the elements satisfying `p`, in their original order. */
  function Filter<T>(p: T -> bool, s: seq<T>): (r: seq<T>)
    ensures |r| <= |s|
    ensures multiset(r) <= multiset(s)
    ensures forall i :: 0 <= i < |r| ==> p(r[i])
  {
    if s == [] then []
    else
      assert s == [s[0]] + s[1..];
      (if p(s[0]) then [s[0]] else []) + Filter(p, s[1..])
  }

  /** The filter keeps every element that passes and only elements of the input. */
  lemma FilterMembers<T>(p: T -> bool, s: seq<T>)
    ensures forall i :: 0 <= i < |Filter(p, s)| ==> Filter(p, s)[i] in s
    ensures forall i :: 0 <= i < |s| && p(s[i]) ==> s[i] in Filter(p, s)
  {
    var r := Filter(p, s);
    forall i | 0 <= i < |r| ensures r[i] in s {
      assert r[i] in multiset(r);
    }
    forall i | 0 <= i < |s| && p(s[i]) ensures s[i] in r {
      FilterKeeps(p, s, i);
    }
  }

  lemma {:induction false} FilterKeeps<T>(p: T -> bool, s: seq<T>, i: int)
    requires 0 <= i < |s| && p(s[i])
    ensures s[i] in Filter(p, s)
    decreases |s|
  {
    if i > 0 {
      FilterKeeps(p, s[1..], i - 1);
    }
  }

  lemma FilterCons<T>(p: T -> bool, x: T, s: seq<T>)
    ensures Filter(p, [x] + s) == (if p(x) then [x] else []) + Filter(p, s)
  {
    assert ([x] + s)[0] == x && ([x] + s)[1..] == s;
  }

  /** An element that passes `p` and fails `q` heads the concatenation of both filters. */
  lemma FilterPairConsFirst<T>(p: T -> bool, q: T -> bool, x: T, s: seq<T>)
    requires p(x) && !q(x)
    ensures Filter(p, [x] + s) + Filter(q, [x] + s) == [x] + (Filter(p, s) + Filter(q, s))
  {
    var a, b := Filter(p, s), Filter(q, s);
    FilterCons(p, x, s);
    FilterCons(q, x, s);
    assert Filter(p, [x] + s) == [x] + a;
    assert Filter(q, [x] + s) == b;
    ConcatAssoc([x], a, b);
  }

  lemma ConcatAssoc<T>(a: seq<T>, b: seq<T>, c: seq<T>)
    ensures (a + b) + c == a + (b + c)
  {
  }

  /** An element that fails `p` and passes `q` heads the second filter. */
  lemma FilterPairConsSecond<T>(p: T -> bool, q: T -> bool, x: T, s: seq<T>)
    requires !p(x) && q(x)
    ensures Filter(p, [x] + s) + Filter(q, [x] + s) == Filter(p, s) + ([x] + Filter(q, s))
  {
    FilterCons(p, x, s);
    FilterCons(q, x, s);
  }

  /** Filtering distributes over concatenation. */
  lemma {:induction false} FilterAppend<T>(p: T -> bool, a: seq<T>, b: seq<T>)
    ensures Filter(p, a + b) == Filter(p, a) + Filter(p, b)
    decreases |a|
  {
    if a == [] {
      assert a + b == b;
    } else {
      assert (a + b)[1..] == a[1..] + b;
      FilterAppend(p, a[1..], b);
    }
  }

  /** Filtering with `p` after filtering with `q` is one filter with `q && p`. */
  lemma {:induction false} FilterFilter<T>(p: T -> bool, q: T -> bool, s: seq<T>)
    ensures Filter(p, Filter(q, s)) == Filter(x => q(x) && p(x), s)
    decreases |s|
  {
    if s != [] {
      FilterFilter(p, q, s[1..]);
      FilterAppend(p, if q(s[0]) then [s[0]] else [], Filter(q, s[1..]));
    }
  }

  /** Filters with pointwise-equal predicates give equal results. */
  lemma {:induction false} FilterSamePredicate<T>(p: T -> bool, q: T -> bool, s: seq<T>)
    requires forall i :: 0 <= i < |s| ==> p(s[i]) == q(s[i])
    ensures Filter(p, s) == Filter(q, s)
    decreases |s|
  {
    if s != [] {
      FilterSamePredicate(p, q, s[1..]);
    }
  }

  /** Four filters in a row are one filter by the conjunction of their tests. */
  lemma FilterChain<T>(q1: T -> bool, q2: T -> bool, q3: T -> bool, q4: T -> bool, all4: T -> bool, s: seq<T>)
    requires forall i :: 0 <= i < |s| ==> all4(s[i]) == (q1(s[i]) && q2(s[i]) && q3(s[i]) && q4(s[i]))
    ensures Filter(q4, Filter(q3, Filter(q2, Filter(q1, s)))) == Filter(all4, s)
  {
    FilterFilter(q2, q1, s);
    var c12 := (x: T) => q1(x) && q2(x);
    FilterSamePredicate((x: T) => q1(x) && q2(x), c12, s);
    FilterFilter(q3, c12, s);
    var c123 := (x: T) => c12(x) && q3(x);
    FilterSamePredicate((x: T) => c12(x) && q3(x), c123, s);
    FilterFilter(q4, c123, s);
    FilterSamePredicate((x: T) => c123(x) && q4(x), all4, s);
  }

  /** A filter that keeps everything is the identity. */
  lemma {:induction false} FilterAll<T>(p: T -> bool, s: seq<T>)
    requires forall i :: 0 <= i < |s| ==> p(s[i])
    ensures Filter(p, s) == s
    decreases |s|
  {
    if s != [] {
      FilterAll(p, s[1..]);
    }
  }

  /** `a` is an order-preserving subsequence of `b`. */
  ghost predicate Subsequence<T>(a: seq<T>, b: seq<T>)
    decreases |b|
  {
    if a == [] then true
    else if b == [] then false
    else (a[0] == b[0] && Subsequence(a[1..], b[1..])) || Subsequence(a, b[1..])
  }

  /** A filter result is an order-preserving subsequence of its input. */
  lemma {:induction false} FilterSubsequence<T>(p: T -> bool, s: seq<T>)
    ensures Subsequence(Filter(p, s), s)
    decreases |s|
  {
    if s != [] {
      FilterSubsequence(p, s[1..]);
      if p(s[0]) {
        assert Filter(p, s)[1..] == Filter(p, s[1..]);
      } else {
        assert Filter(p, s) == Filter(p, s[1..]);
      }
    }
  }

  /** The filter keeps every occurrence of a passing element and no occurrence of a failing one. */
  lemma {:induction false} FilterCount<T>(p: T -> bool, s: seq<T>, x: T)
    ensures multiset(Filter(p, s))[x] == if p(x) then multiset(s)[x] else 0
    decreases |s|
  {
    if s != [] {
      FilterCount(p, s[1..], x);
      assert s == [s[0]] + s[1..];
      assert multiset(s)[x] == multiset([s[0]])[x] + multiset(s[1..])[x];
    }
  }

  /** `FilterCount` for every element at once. */
  lemma FilterCounts<T>(p: T -> bool, s: seq<T>)
    ensures forall x :: multiset(Filter(p, s))[x] == if p(x) then multiset(s)[x] else 0
  {
    forall x ensures multiset(Filter(p, s))[x] == if p(x) then multiset(s)[x] else 0 {
      FilterCount(p, s, x);
    }
  }

  /** `Array.prototype.join(sep)` on strings. */
  function Join(parts: seq<string>, sep: string): string
  {
    if parts == [] then ""
    else if |parts| == 1 then parts[0]
    else parts[0] + sep + Join(parts[1..], sep)
  }

  /** Decimal text of a natural number, as a template literal renders it. */
  function NatToString(n: nat): (r: string)
    ensures |r| >= 1
    ensures forall i :: 0 <= i < |r| ==> '0' <= r[i] <= '9'
  {
    var d := ['0' + (n % 10) as char];
    if n < 10 then d else NatToString(n / 10) + d
  }
}
