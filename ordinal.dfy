/**
 * Ordinal string comparison as .NET performs it: strings are sequences of
 * UTF-16 code units and are compared code unit by code unit, a proper prefix
 * sorting first. Dafny's `char` is a Unicode scalar value, so a string is
 * first encoded to its UTF-16 code units.
 */
module Ordinal {

  /** The UTF-16 encoding of one scalar value: either one code unit that is
      not a surrogate, or a high surrogate followed by a low surrogate. */
  function Utf16(c: char): (u: seq<int>)
    ensures |u| == 1 || |u| == 2
    ensures forall k :: 0 <= k < |u| ==> 0 <= u[k] < 0x1_0000
    ensures |u| == 1 ==> u[0] == c as int && !(0xD800 <= u[0] < 0xE000)
    ensures |u| == 2 ==> 0xD800 <= u[0] < 0xDC00 && 0xDC00 <= u[1] < 0xE000
    ensures |u| == 2 ==> c as int == 0x1_0000 + (u[0] - 0xD800) * 0x400 + (u[1] - 0xDC00)
  {
    var v := c as int;
    if v < 0x1_0000 then [v]
    else [0xD800 + (v - 0x1_0000) / 0x400, 0xDC00 + (v - 0x1_0000) % 0x400]
  }

  /** The UTF-16 code units of a string, the sequence a .NET `string` holds
      when it is well-formed UTF-16 (no unpaired surrogate). */
  function CodeUnits(s: string): (u: seq<int>)
    ensures |s| <= |u| <= 2 * |s|
  {
    if s == [] then [] else Utf16(s[0]) + CodeUnits(s[1..])
  }

  /** A string whose characters all lie in the Basic Multilingual Plane has
      one code unit per character. */
  lemma {:induction false} BmpLength(s: string)
    requires forall k :: 0 <= k < |s| ==> s[k] as int < 0x1_0000
    ensures Length(s) == |s|
  {
    if s != [] {
      assert forall k :: 0 <= k < |s| - 1 ==> s[1..][k] == s[k + 1];
      BmpLength(s[1..]);
    }
  }

  /** .NET's `String.Length`: the number of UTF-16 code units. */
  function Length(s: string): (n: nat)
    ensures |s| <= n <= 2 * |s|
  {
    |CodeUnits(s)|
  }

  /** Lexicographic order on code unit sequences: `a` sorts strictly before `b`. */
  predicate Less(a: seq<int>, b: seq<int>)
  {
    |b| > 0 && (|a| == 0 || a[0] < b[0] || (a[0] == b[0] && Less(a[1..], b[1..])))
  }

  /** `x` sorts strictly before `y` under ordinal comparison. */
  predicate NameLess(x: string, y: string)
  {
    Less(CodeUnits(x), CodeUnits(y))
  }

  lemma {:induction false} LessIrreflexive(a: seq<int>)
    ensures !Less(a, a)
  {
    if |a| > 0 {
      LessIrreflexive(a[1..]);
    }
  }

  lemma {:induction false} LessTransitive(a: seq<int>, b: seq<int>, c: seq<int>)
    requires Less(a, b) && Less(b, c)
    ensures Less(a, c)
  {
    if |a| > 0 && a[0] == b[0] && b[0] == c[0] {
      LessTransitive(a[1..], b[1..], c[1..]);
    }
  }

  lemma {:induction false} LessTotal(a: seq<int>, b: seq<int>)
    ensures a == b || Less(a, b) || Less(b, a)
  {
    if |a| > 0 && |b| > 0 && a[0] == b[0] {
      LessTotal(a[1..], b[1..]);
      if a[1..] == b[1..] {
        assert a == [a[0]] + a[1..] && b == [b[0]] + b[1..];
      }
    }
  }

  lemma LessAsymmetric(a: seq<int>, b: seq<int>)
    requires Less(a, b)
    ensures !Less(b, a)
  {
    if Less(b, a) {
      LessTransitive(a, b, a);
      LessIrreflexive(a);
    }
  }

  /** Two encodings that share their first code units up to the end of the
      first character's encodings encode the same first character. */
  lemma Utf16PrefixFree(c: char, d: char, x: seq<int>, y: seq<int>)
    requires Utf16(c) + x == Utf16(d) + y
    ensures c == d && x == y
  {
    var u, w := Utf16(c), Utf16(d);
    assert u[0] == (u + x)[0] == (w + y)[0] == w[0];
    if |u| == 1 {
      assert |w| == 1;
      assert c as int == d as int;
    } else {
      assert |w| == 2;
      assert u[1] == (u + x)[1] == (w + y)[1] == w[1];
      assert c as int == d as int;
    }
    assert u == w;
    assert x == (u + x)[|u|..] == (w + y)[|w|..] == y;
  }

  /** Distinct strings have distinct code unit sequences, so two names
      compare equal under ordinal comparison only when they are the same. */
  lemma {:induction false} CodeUnitsInjective(s: string, t: string)
    requires CodeUnits(s) == CodeUnits(t)
    ensures s == t
  {
    if s == [] || t == [] {
    } else {
      Utf16PrefixFree(s[0], t[0], CodeUnits(s[1..]), CodeUnits(t[1..]));
      CodeUnitsInjective(s[1..], t[1..]);
      assert s == [s[0]] + s[1..] && t == [t[0]] + t[1..];
    }
  }

  lemma NameLessIrreflexive(x: string)
    ensures !NameLess(x, x)
  {
    LessIrreflexive(CodeUnits(x));
  }

  lemma NameLessTransitive(x: string, y: string, z: string)
    requires NameLess(x, y) && NameLess(y, z)
    ensures NameLess(x, z)
  {
    LessTransitive(CodeUnits(x), CodeUnits(y), CodeUnits(z));
  }

  /** Ordinal comparison is a strict total order on strings. */
  lemma NameLessTotal(x: string, y: string)
    ensures x == y || NameLess(x, y) || NameLess(y, x)
  {
    LessTotal(CodeUnits(x), CodeUnits(y));
    if CodeUnits(x) == CodeUnits(y) {
      CodeUnitsInjective(x, y);
    }
  }

  lemma NameLessAsymmetric(x: string, y: string)
    requires NameLess(x, y)
    ensures !NameLess(y, x)
  {
    LessAsymmetric(CodeUnits(x), CodeUnits(y));
  }

  /** "sorts before" followed by "does not sort after" is "sorts before". */
  lemma NameLessNotLess(x: string, y: string, z: string)
    requires NameLess(x, y) && !NameLess(z, y)
    ensures NameLess(x, z)
  {
    NameLessTotal(y, z);
    if y != z {
      NameLessTransitive(x, y, z);
    }
  }

  /** "does not sort after" is transitive. */
  lemma NotNameLessTransitive(x: string, y: string, z: string)
    requires !NameLess(x, y) && !NameLess(y, z)
    ensures !NameLess(x, z)
  {
    if NameLess(x, z) {
      NameLessNotLess(x, z, y);
    }
  }
}
