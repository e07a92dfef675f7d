/** The few JavaScript value semantics the components rely on: `Date` time
    values, the relational operator `>` on the values a record field can hold,
    and ASCII `toLowerCase` / `includes` on strings. */
module JsValues {

  /** `new Date(0)`: the epoch, the time value the date filters use for a
      missing start bound. */
  const Epoch: int := 0

  /** `new Date(8640000000000000)`: the largest time value a `Date` can hold,
      used for a missing end bound. */
  const MaxTime: int := 8_640_000_000_000_000

  /** The time value (milliseconds since the epoch) of a valid `Date`. */
  type TimeValue = t: int | -MaxTime <= t <= MaxTime

  /** `a < b` on two strings: the first differing character decides, by code
      point, and a proper prefix comes first. JavaScript compares UTF-16 code
      units instead; the two orders differ only between a character above
      U+FFFF and one in U+E000..U+FFFF. */
  predicate StringLess(a: string, b: string)
    decreases |a|
  {
    if |b| == 0 then false
    else if |a| == 0 then true
    else if a[0] != b[0] then a[0] < b[0]
    else StringLess(a[1..], b[1..])
  }

  lemma {:induction false} StringLessIrreflexive(a: string)
    ensures !StringLess(a, a)
    decreases |a|
  {
    if |a| > 0 {
      StringLessIrreflexive(a[1..]);
    }
  }

  lemma {:induction false} StringLessAsymmetric(a: string, b: string)
    ensures StringLess(a, b) ==> !StringLess(b, a)
    decreases |a|
  {
    if |a| > 0 && |b| > 0 && a[0] == b[0] {
      StringLessAsymmetric(a[1..], b[1..]);
    }
  }

  lemma {:induction false} StringLessTransitive(a: string, b: string, c: string)
    ensures StringLess(a, b) && StringLess(b, c) ==> StringLess(a, c)
    decreases |a|
  {
    if |a| > 0 && |b| > 0 && |c| > 0 && a[0] == b[0] && b[0] == c[0] {
      StringLessTransitive(a[1..], b[1..], c[1..]);
    }
  }

  lemma {:induction false} StringLessTotal(a: string, b: string)
    ensures a == b || StringLess(a, b) || StringLess(b, a)
    decreases |a|
  {
    if |a| > 0 && |b| > 0 && a[0] == b[0] {
      StringLessTotal(a[1..], b[1..]);
      if a[1..] == b[1..] {
        assert a == [a[0]] + a[1..] && b == [b[0]] + b[1..];
      }
    }
  }

  /** The value a record field holds, as far as `>` is concerned: a string, a
      number, a boolean, or `undefined` for an absent optional field. */
  datatype Key = Text(s: string) | Number(n: real) | Flag(b: bool) | Undefined

  /** `a > b`. Booleans compare as 0 and 1; `undefined` converts to NaN, so
      every comparison involving it is false. */
  predicate Greater(a: Key, b: Key)
  {
    match (a, b)
    case (Text(x), Text(y)) => StringLess(y, x)
    case (Number(x), Number(y)) => x > y
    case (Flag(x), Flag(y)) => x && !y
    case _ => false
  }

  /** Two defined values of the same type. */
  predicate SameKind(a: Key, b: Key)
  {
    (a.Text? && b.Text?) || (a.Number? && b.Number?) || (a.Flag? && b.Flag?)
  }

  lemma GreaterAsymmetric(a: Key, b: Key)
    ensures Greater(a, b) ==> !Greater(b, a)
  {
    if a.Text? && b.Text? {
      StringLessAsymmetric(b.s, a.s);
    }
  }

  /** Among values of one type, "not greater than" is transitive, so `>` is a
      strict weak order there. */
  lemma NotGreaterTransitive(a: Key, b: Key, c: Key)
    requires SameKind(a, b) && SameKind(b, c)
    ensures !Greater(a, b) && !Greater(b, c) ==> !Greater(a, c)
  {
    if a.Text? {
      var x, y, z := a.s, b.s, c.s;
      StringLessTotal(x, y);
      StringLessTotal(y, z);
      StringLessTransitive(x, y, z);
      StringLessAsymmetric(x, z);
      StringLessIrreflexive(x);
    }
  }

  /** `toLowerCase` on one character, for the ASCII letters. */
  function LowerChar(c: char): char
  {
    if 'A' <= c <= 'Z' then (c as int + 32) as char else c
  }

  /** `s.toLowerCase()`, for the ASCII letters. */
  function Lower(s: string): (r: string)
    ensures |r| == |s|
    ensures forall i :: 0 <= i < |s| ==> r[i] == LowerChar(s[i])
  {
    if |s| == 0 then [] else [LowerChar(s[0])] + Lower(s[1..])
  }

  /** `s.startsWith(t)` */
  predicate StartsWith(s: string, t: string)
  {
    |t| <= |s| && s[..|t|] == t
  }

  /** `s.includes(t)`, scanning from the left. */
  predicate Includes(s: string, t: string)
    decreases |s|
  {
    StartsWith(s, t) || (|s| > 0 && Includes(s[1..], t))
  }

  /** `t` occurs in `s` starting at position `i`. */
  predicate OccursAt(s: string, t: string, i: int)
  {
    0 <= i <= |s| - |t| && s[i..i + |t|] == t
  }

  /** `includes` finds `t` exactly when it occurs at some position of `s`; the
      empty string occurs everywhere. */
  lemma {:induction false} IncludesIffOccurs(s: string, t: string)
    ensures Includes(s, t) <==> exists i :: OccursAt(s, t, i)
    ensures Includes(s, "")
    decreases |s|
  {
    assert s[..0] == "";
    if StartsWith(s, t) {
      assert OccursAt(s, t, 0);
    }
    if |s| > 0 {
      IncludesIffOccurs(s[1..], t);
      if Includes(s[1..], t) {
        var i :| OccursAt(s[1..], t, i);
        assert s[i + 1..i + 1 + |t|] == s[1..][i..i + |t|];
        assert OccursAt(s, t, i + 1);
      }
      if exists i :: OccursAt(s, t, i) {
        var i :| OccursAt(s, t, i);
        if i > 0 {
          assert s[1..][i - 1..i - 1 + |t|] == s[i..i + |t|];
          assert OccursAt(s[1..], t, i - 1);
        } else {
          assert StartsWith(s, t);
        }
      }
    } else {
      if exists i :: OccursAt(s, t, i) {
        var i :| OccursAt(s, t, i);
        assert |t| == 0 && StartsWith(s, t);
      }
    }
  }
}
