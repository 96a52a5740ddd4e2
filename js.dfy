/** The fragment of JavaScript value semantics that the monitor's logic relies
    on: JSON fields that may be missing or null, truthiness, template-literal
    interpolation, `Number(...)` with NaN, `String(n).padStart(2, "0")`, the
    truncating `%`, and `String.prototype.split`, `Array.prototype.join` and
    `String.prototype.includes`. */
module Js {

  /** A JSON field as the scripts read it: missing, `null`, or a string. */
  datatype JsVal = Undefined | Null | Str(s: string)

  /** `(v && v !== "")`: the field holds a non-empty string. */
  predicate Truthy(v: JsVal) {
    v.Str? && v.s != ""
  }

  /** Template-literal interpolation `${v}`. */
  function Show(v: JsVal): string {
    match v
    case Undefined => "undefined"
    case Null => "null"
    case Str(s) => s
  }

  /** `v || fallback`, for a field and a string fallback. */
  function OrElse(v: JsVal, fallback: string): string {
    if Truthy(v) then v.s else fallback
  }

  /** How `Array.prototype.join` renders an element: `undefined` and `null`
      become the empty string. */
  function Element(v: JsVal): string {
    if v.Str? then v.s else ""
  }

  /** The element at index `i` of an array of strings, `undefined` past its end. */
  function At(parts: seq<string>, i: nat): JsVal {
    if i < |parts| then Str(parts[i]) else Undefined
  }

  // ---------------------------------------------------------------------------
  // Numbers

  /** The JavaScript numbers the scripts produce: integers, and NaN. */
  datatype Numeric = NaN | Int(i: int)

  function Plus(a: Numeric, b: Numeric): Numeric {
    if a.Int? && b.Int? then Int(a.i + b.i) else NaN
  }

  function Minus(a: Numeric, b: Numeric): Numeric {
    if a.Int? && b.Int? then Int(a.i - b.i) else NaN
  }

  function Times(a: Numeric, k: int): Numeric {
    if a.Int? then Int(a.i * k) else NaN
  }

  /** `a === b` on numbers: NaN equals nothing, not even NaN. */
  predicate SameNumber(a: Numeric, b: Numeric) {
    a.Int? && b.Int? && a.i == b.i
  }

  /** `a <= n` and `a > n`; every comparison with NaN is false. */
  predicate AtMost(a: Numeric, n: int) {
    a.Int? && a.i <= n
  }

  predicate Above(a: Numeric, n: int) {
    a.Int? && a.i > n
  }

  predicate IsDigit(c: char) {
    '0' <= c <= '9'
  }

  predicate AllDigits(s: string) {
    forall k :: 0 <= k < |s| ==> IsDigit(s[k])
  }

  /** The decimal value of a string of digits. */
  function DigitsValue(s: string): nat
    requires AllDigits(s)
    decreases |s|
  {
    if |s| == 0 then 0
    else DigitsValue(s[..|s| - 1]) * 10 + ((s[|s| - 1] as int) - ('0' as int))
  }

  /** `Number(s)`: the empty string is 0, a run of decimal digits is its value,
      and every other string is NaN (see README, "Left out"). */
  function NumberOf(s: string): Numeric {
    if AllDigits(s) then Int(DigitsValue(s)) else NaN
  }

  /** `Number(v)` for a field: `undefined` is NaN, `null` is 0. */
  function ToNumber(v: JsVal): Numeric {
    match v
    case Undefined => NaN
    case Null => Int(0)
    case Str(s) => NumberOf(s)
  }

  function DigitChar(d: nat): (c: char)
    requires d < 10
    ensures IsDigit(c)
  {
    (('0' as int) + d) as char
  }

  /** `String(n)` for a natural number. */
  function NatToString(n: nat): (r: string)
    ensures 1 <= |r| && AllDigits(r)
    decreases n
  {
    if n < 10 then [DigitChar(n)] else NatToString(n / 10) + [DigitChar(n % 10)]
  }

  /** `String(i)` for an integer. */
  function IntToString(i: int): string {
    if i < 0 then "-" + NatToString(-i) else NatToString(i)
  }

  /** `${x}` for a number. */
  function NumericToString(x: Numeric): string {
    if x.NaN? then "NaN" else IntToString(x.i)
  }

  /** `String(n).padStart(2, "0")`. */
  function Pad2(n: nat): (r: string)
    ensures 2 <= |r| && AllDigits(r)
  {
    var t := NatToString(n);
    if |t| < 2 then "0" + t else t
  }

  /** JavaScript's `a % b` for a positive divisor: the remainder takes the sign
      of the dividend (Dafny's `%` never returns a negative value). */
  function JsRem(a: int, b: int): (r: int)
    requires b > 0
    ensures a >= 0 ==> 0 <= r < b
    ensures a < 0 ==> -b < r <= 0
  {
    if a >= 0 then a % b else -((-a) % b)
  }

  lemma {:induction false} DigitsValueOfNatToString(n: nat)
    ensures DigitsValue(NatToString(n)) == n
    decreases n
  {
    if n >= 10 {
      var r := NatToString(n);
      assert r[..|r| - 1] == NatToString(n / 10);
      DigitsValueOfNatToString(n / 10);
    }
  }

  /** `Number(String(n)) === n`. */
  lemma NumberOfNatToString(n: nat)
    ensures NumberOf(NatToString(n)) == Int(n)
  {
    DigitsValueOfNatToString(n);
  }

  /** `Number(String(n).padStart(2, "0")) === n`. */
  lemma NumberOfPad2(n: nat)
    ensures NumberOf(Pad2(n)) == Int(n)
  {
    DigitsValueOfNatToString(n);
    var t := NatToString(n);
    if |t| < 2 {
      var r := "0" + t;
      assert r[..|r| - 1] == "0";
      assert DigitsValue("0") == 0 by {
        assert "0"[..0] == "";
      }
      assert DigitsValue(t) == (t[0] as int) - ('0' as int) by {
        assert t[..0] == "";
      }
    }
  }

  /** Distinct numbers print differently. */
  lemma NatToStringInjective(m: nat, n: nat)
    requires NatToString(m) == NatToString(n)
    ensures m == n
  {
    DigitsValueOfNatToString(m);
    DigitsValueOfNatToString(n);
  }

  // ---------------------------------------------------------------------------
  // Strings

  /** `s.split(c)` for a one-character separator. */
  function Split(s: string, c: char): (parts: seq<string>)
    ensures |parts| >= 1
    decreases |s|
  {
    if |s| == 0 then [""]
    else
      var rest := Split(s[1..], c);
      if s[0] == c then [""] + rest else [[s[0]] + rest[0]] + rest[1..]
  }

  /** `parts.join(sep)`. */
  function Join(parts: seq<string>, sep: string): string
    decreases |parts|
  {
    if |parts| == 0 then ""
    else if |parts| == 1 then parts[0]
    else parts[0] + sep + Join(parts[1..], sep)
  }

  /** Appending one more part appends the separator and that part. */
  lemma {:induction false} JoinSnoc(parts: seq<string>, sep: string, x: string)
    requires |parts| >= 1
    ensures Join(parts + [x], sep) == Join(parts, sep) + sep + x
    decreases |parts|
  {
    if |parts| > 1 {
      JoinSnoc(parts[1..], sep, x);
      assert (parts + [x])[1..] == parts[1..] + [x];
    }
  }

  predicate OccursAt(s: string, p: string, i: int) {
    0 <= i && i + |p| <= |s| && s[i..i + |p|] == p
  }

  /** `s.includes(p)`. */
  predicate Contains(s: string, p: string) {
    exists i :: 0 <= i <= |s| - |p| && OccursAt(s, p, i)
  }

  /** A string without the separator splits into itself alone. */
  lemma {:induction false} SplitWithoutSeparator(s: string, c: char)
    requires c !in s
    ensures Split(s, c) == [s]
    decreases |s|
  {
    if |s| > 0 {
      assert c !in s[1..];
      SplitWithoutSeparator(s[1..], c);
      assert [s[0]] + s[1..] == s;
    }
  }

  /** A string holding the separator splits into at least two pieces. */
  lemma {:induction false} SplitHasSeparator(s: string, c: char)
    requires c in s
    ensures |Split(s, c)| >= 2
    decreases |s|
  {
    if s[0] != c {
      assert c in s[1..];
      SplitHasSeparator(s[1..], c);
    }
  }

  /** Splitting around one occurrence of the separator splits each side. */
  lemma {:induction false} SplitAround(a: string, c: char, b: string)
    ensures Split(a + [c] + b, c) == Split(a, c) + Split(b, c)
    decreases |a|
  {
    if |a| == 0 {
      assert a + [c] + b == [c] + b;
      assert ([c] + b)[1..] == b;
    } else {
      var s := a + [c] + b;
      assert s[0] == a[0] && s[1..] == a[1..] + [c] + b;
      SplitAround(a[1..], c, b);
      SplitFront(s, c);
      SplitFront(a, c);
      FrontAppend([a[0]], Split(a[1..], c), Split(b, c));
    }
  }

  /** Growing the first piece commutes with appending more pieces. */
  lemma FrontAppend(h: string, ra: seq<string>, rb: seq<string>)
    requires |ra| >= 1
    ensures [""] + (ra + rb) == ([""] + ra) + rb
    ensures [h + (ra + rb)[0]] + (ra + rb)[1..] == ([h + ra[0]] + ra[1..]) + rb
  {
    assert (ra + rb)[0] == ra[0];
    assert (ra + rb)[1..] == ra[1..] + rb;
  }

  /** The first character either opens a new piece or joins the first one. */
  lemma SplitFront(s: string, c: char)
    requires |s| > 0
    ensures var rest := Split(s[1..], c);
            Split(s, c) == if s[0] == c then [""] + rest else [[s[0]] + rest[0]] + rest[1..]
  {
  }

  /** Joining the pieces back with the separator gives the string back. */
  lemma {:induction false} JoinSplit(s: string, c: char)
    ensures Join(Split(s, c), [c]) == s
    decreases |s|
  {
    if |s| > 0 {
      var rest := Split(s[1..], c);
      JoinSplit(s[1..], c);
      if s[0] == c {
        assert Split(s, c)[1..] == rest;
        if |rest| == 1 {
          assert Join(Split(s, c), [c]) == "" + [c] + rest[0];
        }
        assert s == [c] + s[1..];
      } else {
        var parts := Split(s, c);
        if |rest| == 1 {
          assert parts == [[s[0]] + rest[0]];
        } else {
          assert parts[1..] == rest[1..];
          assert Join(rest, [c]) == rest[0] + [c] + Join(rest[1..], [c]);
        }
        assert s == [s[0]] + s[1..];
      }
    }
  }

  /** Splitting a join of separator-free pieces gives the pieces back. */
  lemma {:induction false} SplitJoin(parts: seq<string>, c: char)
    requires |parts| >= 1
    requires forall k :: 0 <= k < |parts| ==> c !in parts[k]
    ensures Split(Join(parts, [c]), c) == parts
    decreases |parts|
  {
    SplitWithoutSeparator(parts[0], c);
    if |parts| > 1 {
      SplitJoin(parts[1..], c);
      SplitAround(parts[0], c, Join(parts[1..], [c]));
      assert [parts[0]] + parts[1..] == parts;
    }
  }

  /** The two halves of `a + "-" + b` when neither half holds the separator. */
  lemma SplitPair(a: string, c: char, b: string)
    requires c !in a && c !in b
    ensures Split(a + [c] + b, c) == [a, b]
  {
    SplitAround(a, c, b);
    SplitWithoutSeparator(a, c);
    SplitWithoutSeparator(b, c);
  }

  /** Whatever the right half holds, the left half of `a + [c] + b` is `a`. */
  lemma SplitHead(a: string, c: char, b: string)
    requires c !in a
    ensures |Split(a + [c] + b, c)| >= 2 && Split(a + [c] + b, c)[0] == a
  {
    SplitAround(a, c, b);
    SplitWithoutSeparator(a, c);
  }

  /** A string of digits holds no separator character. */
  lemma DigitsHaveNo(s: string, c: char)
    requires AllDigits(s) && !IsDigit(c)
    ensures c !in s
  {
  }

  /** A string found inside another is at most as long, and each of its
      characters occurs there. */
  lemma ContainedCharacters(s: string, p: string, k: int)
    requires Contains(s, p) && 0 <= k < |p|
    ensures |p| <= |s| && p[k] in s
  {
    var i :| 0 <= i <= |s| - |p| && OccursAt(s, p, i);
    assert s[i..i + |p|][k] == s[i + k];
  }

  /** A pattern with a character the string lacks does not occur in it. */
  lemma Lacks(s: string, p: string, k: int)
    requires 0 <= k < |p| && p[k] !in s
    ensures !Contains(s, p)
  {
    if Contains(s, p) {
      ContainedCharacters(s, p, k);
    }
  }

  /** An occurrence at a known position. */
  lemma ContainsAt(s: string, p: string, i: int)
    requires 0 <= i && i + |p| <= |s| && s[i..i + |p|] == p
    ensures Contains(s, p)
  {
    assert OccursAt(s, p, i);
  }

  /** A string occurs in any string that has it as a middle piece. */
  lemma ContainsMiddle(a: string, b: string, c: string)
    ensures Contains(a + b + c, b)
  {
    ContainsAt(a + b + c, b, |a|);
  }

  /** Containment is transitive. */
  lemma ContainsWithin(s: string, p: string, q: string)
    requires Contains(s, p) && Contains(p, q)
    ensures Contains(s, q)
  {
    var i :| 0 <= i <= |s| - |p| && OccursAt(s, p, i);
    var j :| 0 <= j <= |p| - |q| && OccursAt(p, q, j);
    var w := s[i..i + |p|];
    forall t | 0 <= t < |q|
      ensures s[i + j..i + j + |q|][t] == q[t]
    {
      assert s[i + j + t] == w[j + t];
      assert q[t] == p[j..j + |q|][t];
    }
    ContainsAt(s, q, i + j);
  }

  /** Hence a pattern that does not match around that character does not
      occur at all. */
  lemma AnchorMismatch(a: string, c: char, b: string, p: string, k: nat)
    requires k < |p| && p[k] == c && c !in a && c !in b
    requires k <= |a| && |a| - k + |p| <= |a| + 1 + |b|
    requires (a + [c] + b)[|a| - k..|a| - k + |p|] != p
    ensures !Contains(a + [c] + b, p)
  {
    if Contains(a + [c] + b, p) {
      UniqueAnchor(a, c, b, p, k);
    }
  }

  /** When a character of the pattern occurs in the string exactly once, an
      occurrence of the pattern can only sit around that character. */
  lemma UniqueAnchor(a: string, c: char, b: string, p: string, k: nat)
    requires k < |p| && p[k] == c && c !in a && c !in b
    requires Contains(a + [c] + b, p)
    ensures k <= |a| && |a| - k + |p| <= |a| + 1 + |b|
    ensures (a + [c] + b)[|a| - k..|a| - k + |p|] == p
  {
    var s := a + [c] + b;
    var i :| 0 <= i <= |s| - |p| && OccursAt(s, p, i);
    assert s[i..i + |p|][k] == s[i + k];
    assert forall j :: 0 <= j < |a| ==> s[j] == a[j];
    assert forall j :: |a| < j < |s| ==> s[j] == b[j - |a| - 1];
  }
}
