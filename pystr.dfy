/** The Python string builtins the condition evaluator relies on:
    `str.split('.')`, `float(str)`, `str(int)`, and the code-point
    ordering of `str` comparisons. */
module PyStr {
  import opened Base

  /** Result of a three-way comparison. */
  datatype Ord = Lt | Eq | Gt

  function CompareReal(a: real, b: real): (o: Ord)
    ensures o == Eq <==> a == b
    ensures o == Lt <==> a < b
  {
    if a < b then Lt else if a == b then Eq else Gt
  }

  /** Python's lexicographic `str` comparison by code point. */
  function LexCompare(a: string, b: string): Ord
  {
    if a == [] && b == [] then Eq
    else if a == [] then Lt
    else if b == [] then Gt
    else if a[0] < b[0] then Lt
    else if a[0] > b[0] then Gt
    else LexCompare(a[1..], b[1..])
  }

  /** Equality is the only way to compare equal. */
  lemma {:induction false} LexCompareEq(a: string, b: string)
    ensures LexCompare(a, b) == Eq <==> a == b
  {
    if a != [] && b != [] && a[0] == b[0] {
      LexCompareEq(a[1..], b[1..]);
      assert a == [a[0]] + a[1..] && b == [b[0]] + b[1..];
    }
  }

  /** Swapping the operands flips the order. */
  lemma {:induction false} LexCompareFlip(a: string, b: string)
    ensures LexCompare(a, b) == Lt <==> LexCompare(b, a) == Gt
  {
    if a != [] && b != [] && a[0] == b[0] {
      LexCompareFlip(a[1..], b[1..]);
    }
  }

  /** "Not above" is transitive, so string order is a total preorder. */
  lemma {:induction false} LexCompareTrans(a: string, b: string, c: string)
    requires LexCompare(a, b) != Gt && LexCompare(b, c) != Gt
    ensures LexCompare(a, c) != Gt
  {
    if a != [] && b != [] && c != [] && a[0] == b[0] == c[0] {
      LexCompareTrans(a[1..], b[1..], c[1..]);
    }
  }

  /** A proper prefix compares below the longer string. */
  lemma {:induction false} LexComparePrefix(a: string, b: string)
    requires |b| > 0
    ensures LexCompare(a, a + b) == Lt
  {
    if a != [] {
      assert (a + b)[1..] == a[1..] + b;
      LexComparePrefix(a[1..], b);
    }
  }

  /** `s.split('.')`: the pieces between the dots, empty pieces included. */
  function Split(s: string): (r: seq<string>)
    ensures |r| >= 1
  {
    if s == [] then [""]
    else
      var rest := Split(s[1..]);
      if s[0] == '.' then [""] + rest else [[s[0]] + rest[0]] + rest[1..]
  }

  /** `'.'.join(parts)`. */
  function Join(parts: seq<string>): string
  {
    if parts == [] then ""
    else if |parts| == 1 then parts[0]
    else parts[0] + "." + Join(parts[1..])
  }

  /** Splitting and joining again gives back the path, and no piece holds a dot. */
  lemma {:induction false} SplitJoin(s: string)
    ensures Join(Split(s)) == s
    ensures forall i :: 0 <= i < |Split(s)| ==> '.' !in Split(s)[i]
  {
    if s != [] {
      SplitJoin(s[1..]);
      var rest := Split(s[1..]);
      assert s == [s[0]] + s[1..];
      if s[0] != '.' {
        var r := Split(s);
        assert r[0] == [s[0]] + rest[0];
        if |rest| == 1 {
          assert Join(r) == r[0];
        } else {
          assert r[1..] == rest[1..];
          assert Join(r) == r[0] + "." + Join(rest[1..]);
          assert Join(rest) == rest[0] + "." + Join(rest[1..]);
        }
        forall i | 0 <= i < |r| ensures '.' !in r[i] {
          if i > 0 {
            assert r[i] == rest[i];
          }
        }
      } else {
        var r := Split(s);
        assert r[1..] == rest;
        forall i | 0 <= i < |r| ensures '.' !in r[i] {
          if i > 0 {
            assert r[i] == rest[i - 1];
          }
        }
      }
    }
  }

  predicate IsDigit(c: char) { '0' <= c <= '9' }

  function DigitValue(c: char): nat
    requires IsDigit(c)
  {
    (c as int) - ('0' as int)
  }

  predicate AllDigits(s: string)
  {
    forall i :: 0 <= i < |s| ==> IsDigit(s[i])
  }

  /** The number written by a string of decimal digits. */
  function DigitsValue(s: string): nat
    requires AllDigits(s)
  {
    if s == [] then 0 else 10 * DigitsValue(s[..|s| - 1]) + DigitValue(s[|s| - 1])
  }

  function Pow10(n: nat): (r: nat)
    ensures r >= 1
  {
    if n == 0 then 1 else 10 * Pow10(n - 1)
  }

  function IndexOfDot(s: string): (r: Option<nat>)
    ensures r.Some? ==> r.value < |s| && s[r.value] == '.' && '.' !in s[..r.value]
    ensures r.None? ==> '.' !in s
  {
    if s == [] then None
    else if s[0] == '.' then Some(0)
    else
      var t := IndexOfDot(s[1..]);
      assert s == [s[0]] + s[1..];
      if t.None? then None
      else
        assert s[..t.value + 1] == [s[0]] + s[1..][..t.value];
        Some(t.value + 1)
  }

  /** The unsigned decimal forms `float` accepts: digits with an optional
      fraction, at least one digit in all (`"12"`, `"12.5"`, `".5"`, `"12."`). */
  function ParseUnsigned(s: string): Option<real>
  {
    match IndexOfDot(s)
    case None => if s != [] && AllDigits(s) then Some(DigitsValue(s) as real) else None
    case Some(k) =>
      var whole, frac := s[..k], s[k + 1..];
      if (whole != [] || frac != []) && AllDigits(whole) && AllDigits(frac) then
        Some(DigitsValue(whole) as real + (DigitsValue(frac) as real) / (Pow10(|frac|) as real))
      else None
  }

  /** `float(s)` on the decimal forms, with an optional sign; anything else
      is a `ValueError`, modelled as `None`. */
  function ParseFloat(s: string): Option<real>
  {
    if s != [] && (s[0] == '-' || s[0] == '+') then
      match ParseUnsigned(s[1..])
      case None => None
      case Some(x) => Some(if s[0] == '-' then -x else x)
    else ParseUnsigned(s)
  }

  function DigitChar(d: nat): (c: char)
    requires d < 10
    ensures IsDigit(c) && DigitValue(c) == d
  {
    ('0' as int + d) as char
  }

  /** `str(n)` for a natural number. */
  function NatText(n: nat): (s: string)
    ensures s != [] && AllDigits(s)
  {
    if n < 10 then [DigitChar(n)] else NatText(n / 10) + [DigitChar(n % 10)]
  }

  /** `str(i)` for an integer. */
  function IntText(i: int): string
  {
    if i < 0 then "-" + NatText(-i) else NatText(i)
  }

  lemma {:induction false} NatTextValue(n: nat)
    ensures DigitsValue(NatText(n)) == n
  {
    if n >= 10 {
      NatTextValue(n / 10);
      var s := NatText(n);
      assert s[..|s| - 1] == NatText(n / 10);
    }
  }

  /** `float(str(i)) == i`: the text of an integer parses back to it. */
  lemma IntTextParses(i: int)
    ensures ParseFloat(IntText(i)) == Some(i as real)
  {
    var n: nat := if i < 0 then -i else i;
    var t := NatText(n);
    NatTextValue(n);
    assert IndexOfDot(t) == None;
    if i < 0 {
      assert IntText(i)[1..] == t;
    }
  }
}
