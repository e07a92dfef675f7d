/** Shared vocabulary: optional values, the outcome of an awaited call, and the
    list operations (`filter`, `reduce` to a sum) that every table applies. */
module Common {

  datatype Option<+T> = None | Some(value: T)

  /** What a `catch` block receives: an `Error` object with its message, or some
      other thrown value. */
  datatype Thrown = ErrorObject(message: string) | OtherValue

  /** The settled value of an awaited promise. */
  datatype Outcome<+T> = Success(value: T) | Failure(thrown: Thrown)

  /** What a service sees of one `fetch` exchange: a response with `ok` set
      and its decoded JSON body, a response without `ok` and its text, or a
      rejection (network failure, undecodable body, unexpected shape). */
  datatype Response<+T> = Ok(body: T) | NotOk(text: string) | Threw(thrown: Thrown)

  /** `err instanceof Error ? err.message : fallback` */
  function MessageOr(t: Thrown, fallback: string): string
  {
    match t
    case ErrorObject(m) => m
    case OtherValue => fallback
  }

  /** `parseFloat(value) || 0`: NaN (None) and zero both become 0. */
  function NumberOrZero(parsed: Option<real>): real
  {
    match parsed
    case None => 0.0
    case Some(v) => v
  }

  /** `s.reduce((sum, x) => sum + f(x), 0)`, folding from the left. */
  function Sum<T>(s: seq<T>, f: T -> real): real
  {
    if |s| == 0 then 0.0 else Sum(s[..|s| - 1], f) + f(s[|s| - 1])
  }

  /** `s.filter(p)`: the elements satisfying `p`, in their original order. */
  function Filter<T>(s: seq<T>, p: T -> bool): (r: seq<T>)
    ensures |r| <= |s|
    ensures multiset(r) <= multiset(s)
    ensures forall i :: 0 <= i < |r| ==> r[i] in s && p(r[i])
    ensures forall i :: 0 <= i < |s| && p(s[i]) ==> s[i] in r
  {
    if |s| == 0 then []
    else
      assert s == [s[0]] + s[1..];
      (if p(s[0]) then [s[0]] else []) + Filter(s[1..], p)
  }

  /** `s.map(f)`: one image per element, in order. */
  function Map<T, U>(s: seq<T>, f: T -> U): (r: seq<U>)
    ensures |r| == |s|
    ensures forall i :: 0 <= i < |s| ==> r[i] == f(s[i])
  {
    if |s| == 0 then [] else [f(s[0])] + Map(s[1..], f)
  }

  /** `r` can be obtained from `s` by deleting elements, keeping the order. */
  predicate Subsequence<T(==)>(r: seq<T>, s: seq<T>)
    decreases |s|
  {
    if |r| == 0 then true
    else if |s| == 0 then false
    else (r[0] == s[0] && Subsequence(r[1..], s[1..])) || Subsequence(r, s[1..])
  }

  lemma {:induction false} SumAppend<T>(a: seq<T>, b: seq<T>, f: T -> real)
    ensures Sum(a + b, f) == Sum(a, f) + Sum(b, f)
    decreases |b|
  {
    if |b| == 0 {
      assert a + b == a;
    } else {
      var ab := a + b;
      assert ab[..|ab| - 1] == a + b[..|b| - 1];
      assert ab[|ab| - 1] == b[|b| - 1];
      SumAppend(a, b[..|b| - 1], f);
    }
  }

  /** The sum does not depend on the order of the elements. */
  lemma {:induction false} SumPermutation<T>(a: seq<T>, b: seq<T>, f: T -> real)
    requires multiset(a) == multiset(b)
    ensures Sum(a, f) == Sum(b, f)
    decreases |a|
  {
    if |a| == 0 {
      assert |multiset(b)| == 0;
    } else {
      var n := |a| - 1;
      var x := a[n];
      assert a == a[..n] + [x];
      assert x in multiset(b);
      var i :| 0 <= i < |b| && b[i] == x;
      var rest := b[..i] + b[i + 1..];
      assert b == b[..i] + [x] + b[i + 1..];
      assert multiset(a[..n]) == multiset(rest) by {
        assert multiset(a) == multiset(a[..n]) + multiset{x};
        assert multiset(b) == multiset(b[..i]) + multiset{x} + multiset(b[i + 1..]);
        assert multiset(rest) == multiset(b[..i]) + multiset(b[i + 1..]);
        assert multiset(a[..n]) == multiset(a) - multiset{x};
        assert multiset(rest) == multiset(b) - multiset{x};
      }
      SumPermutation(a[..n], rest, f);
      SumAppend(b[..i] + [x], b[i + 1..], f);
      SumAppend(b[..i], [x], f);
      SumAppend(b[..i], b[i + 1..], f);
      assert Sum([x], f) == f(x) by { assert [x][..0] == []; }
    }
  }

  lemma {:induction false} FilterAppend<T>(a: seq<T>, b: seq<T>, p: T -> bool)
    ensures Filter(a + b, p) == Filter(a, p) + Filter(b, p)
    decreases |a|
  {
    if |a| == 0 {
      assert a + b == b;
    } else {
      assert (a + b)[0] == a[0];
      assert (a + b)[1..] == a[1..] + b;
      FilterAppend(a[1..], b, p);
    }
  }

  /** `s.filter(p)` keeps the order of `s`. */
  lemma {:induction false} FilterIsSubsequence<T>(s: seq<T>, p: T -> bool)
    ensures Subsequence(Filter(s, p), s)
    decreases |s|
  {
    if |s| > 0 {
      FilterIsSubsequence(s[1..], p);
      var r := Filter(s, p);
      if p(s[0]) {
        assert r[0] == s[0] && r[1..] == Filter(s[1..], p);
      } else {
        assert r == Filter(s[1..], p);
      }
    }
  }

  /** A subsequence of a subsequence of `c` is a subsequence of `c`. */
  lemma {:induction false} SubsequenceTransitive<T>(a: seq<T>, b: seq<T>, c: seq<T>)
    requires Subsequence(a, b) && Subsequence(b, c)
    ensures Subsequence(a, c)
    decreases |c|
  {
    if |a| > 0 {
      if b[0] == c[0] && Subsequence(b[1..], c[1..]) {
        if a[0] == b[0] && Subsequence(a[1..], b[1..]) {
          SubsequenceTransitive(a[1..], b[1..], c[1..]);
        } else {
          SubsequenceTransitive(a, b[1..], c[1..]);
        }
      } else {
        SubsequenceTransitive(a, b, c[1..]);
      }
    }
  }

  /** A filter that keeps everything is the identity. */
  lemma {:induction false} FilterAll<T>(s: seq<T>, p: T -> bool)
    requires forall i :: 0 <= i < |s| ==> p(s[i])
    ensures Filter(s, p) == s
    decreases |s|
  {
    if |s| > 0 {
      FilterAll(s[1..], p);
      assert s == [s[0]] + s[1..];
    }
  }

  /** Filtering twice is filtering once by the conjunction. */
  lemma {:induction false} FilterFilter<T>(s: seq<T>, p: T -> bool, q: T -> bool, both: T -> bool)
    requires forall x :: both(x) == (p(x) && q(x))
    ensures Filter(Filter(s, p), q) == Filter(s, both)
    decreases |s|
  {
    if |s| > 0 {
      FilterFilter(s[1..], p, q, both);
      FilterAppend(if p(s[0]) then [s[0]] else [], Filter(s[1..], p), q);
      if p(s[0]) {
        assert Filter([s[0]], q) == (if q(s[0]) then [s[0]] else []) by {
          assert [s[0]][1..] == [];
        }
      }
    }
  }

  /** Summing a column of `s.map(f)` is summing the composed figure over `s`. */
  lemma {:induction false} SumMap<T, U>(s: seq<T>, f: T -> U, g: U -> real, h: T -> real)
    requires forall x :: h(x) == g(f(x))
    ensures Sum(Map(s, f), g) == Sum(s, h)
    decreases |s|
  {
    if |s| > 0 {
      var n := |s| - 1;
      assert Map(s, f)[..n] == Map(s[..n], f);
      SumMap(s[..n], f, g, h);
    }
  }

  /** Two lists whose figures agree position by position have the same sum. */
  lemma {:induction false} SumCongruent<T>(a: seq<T>, b: seq<T>, f: T -> real)
    requires |a| == |b|
    requires forall i :: 0 <= i < |a| ==> f(a[i]) == f(b[i])
    ensures Sum(a, f) == Sum(b, f)
    decreases |a|
  {
    if |a| > 0 {
      SumCongruent(a[..|a| - 1], b[..|b| - 1], f);
    }
  }

  /** The sum of a figure that is the sum of two figures. */
  lemma {:induction false} SumAdd<T>(s: seq<T>, f: T -> real, g: T -> real, h: T -> real)
    requires forall x :: h(x) == f(x) + g(x)
    ensures Sum(s, h) == Sum(s, f) + Sum(s, g)
    decreases |s|
  {
    if |s| > 0 {
      SumAdd(s[..|s| - 1], f, g, h);
    }
  }

  /** The sum of a figure that is the difference of two figures. */
  lemma {:induction false} SumSub<T>(s: seq<T>, f: T -> real, g: T -> real, h: T -> real)
    requires forall x :: h(x) == f(x) - g(x)
    ensures Sum(s, h) == Sum(s, f) - Sum(s, g)
    decreases |s|
  {
    if |s| > 0 {
      SumSub(s[..|s| - 1], f, g, h);
    }
  }
}
