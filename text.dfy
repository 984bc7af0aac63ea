/** Strings as the services see them: JavaScript string comparison and anchored regular expressions. */
module Text {

  /** `a < b` on strings: lexicographic order on characters, a proper prefix is smaller. This is
      JavaScript's order for strings without characters beyond U+FFFF; JavaScript compares UTF-16
      code units, so for those it may differ. */
  predicate LexLess(a: string, b: string)
    ensures LexLess(a, b) ==> a != b
    ensures |a| < |b| && a == b[..|a|] ==> LexLess(a, b)
  {
    if a == [] then b != []
    else if b == [] then false
    else if a[0] != b[0] then a[0] < b[0]
    else LexLess(a[1..], b[1..])
  }

  lemma {:induction false} LexLessIrreflexive(a: string)
    ensures !LexLess(a, a)
  {
    if a != [] {
      LexLessIrreflexive(a[1..]);
    }
  }

  lemma {:induction false} LexLessAsymmetric(a: string, b: string)
    ensures LexLess(a, b) ==> !LexLess(b, a)
  {
    if a != [] && b != [] && a[0] == b[0] {
      LexLessAsymmetric(a[1..], b[1..]);
    }
  }

  lemma {:induction false} LexLessTransitive(a: string, b: string, c: string)
    requires LexLess(a, b) && LexLess(b, c)
    ensures LexLess(a, c)
  {
    if a != [] && b != [] && c != [] && a[0] == b[0] && b[0] == c[0] {
      LexLessTransitive(a[1..], b[1..], c[1..]);
    }
  }

  /** Any two different strings are ordered one way or the other. */
  lemma {:induction false} LexLessTotal(a: string, b: string)
    ensures a == b || LexLess(a, b) || LexLess(b, a)
  {
    if a != [] && b != [] && a[0] == b[0] {
      LexLessTotal(a[1..], b[1..]);
      if a[1..] == b[1..] {
        assert a == [a[0]] + a[1..] && b == [b[0]] + b[1..];
      }
    }
  }

  predicate IsDigit(c: char)
  {
    '0' <= c <= '9'
  }

  predicate IsHexDigit(c: char)
  {
    IsDigit(c) || 'a' <= c <= 'f' || 'A' <= c <= 'F'
  }

  /** One position of an anchored pattern: `\d`, a hexadecimal digit in a case-insensitive class, or a literal. */
  datatype Token = Digit | Hex | Lit(c: char)

  type Pattern = seq<Token>

  predicate TokenMatches(t: Token, c: char)
  {
    match t
    case Digit => IsDigit(c)
    case Hex => IsHexDigit(c)
    case Lit(l) => c == l
  }

  /** `t{n}` */
  function Repeat(t: Token, n: nat): (p: Pattern)
    ensures |p| == n
    ensures forall i :: 0 <= i < n ==> p[i] == t
  {
    if n == 0 then [] else [t] + Repeat(t, n - 1)
  }

  /** `^p$`: the whole string matches the pattern, token by token. */
  predicate FullMatch(p: Pattern, s: string)
  {
    if p == [] then s == []
    else s != [] && TokenMatches(p[0], s[0]) && FullMatch(p[1..], s[1..])
  }

  /** A pattern without alternation or variable repetition matches exactly the strings of its length
      whose every character matches the token at the same position. */
  lemma {:induction false} FullMatchPositional(p: Pattern, s: string)
    ensures FullMatch(p, s) <==> |s| == |p| && forall i :: 0 <= i < |p| ==> TokenMatches(p[i], s[i])
  {
    if p != [] && s != [] {
      FullMatchPositional(p[1..], s[1..]);
      if |s| == |p| && forall i :: 0 <= i < |p| ==> TokenMatches(p[i], s[i]) {
        forall i | 0 <= i < |p[1..]| ensures TokenMatches(p[1..][i], s[1..][i]) {
          assert p[1..][i] == p[i + 1] && s[1..][i] == s[i + 1];
        }
      }
      if FullMatch(p, s) {
        forall i | 0 <= i < |p| ensures TokenMatches(p[i], s[i]) {
          if i > 0 {
            assert p[1..][i - 1] == p[i] && s[1..][i - 1] == s[i];
          }
        }
      }
    }
  }

  /** `^\d{4}-\d{2}-\d{2}$`, the date shape of every schema. */
  function DatePattern(): Pattern
  {
    Repeat(Digit, 4) + [Lit('-')] + Repeat(Digit, 2) + [Lit('-')] + Repeat(Digit, 2)
  }

  predicate IsDateShape(s: string)
    ensures IsDateShape(s) ==> |s| == 10
  {
    FullMatchPositional(DatePattern(), s);
    FullMatch(DatePattern(), s)
  }

  /** The date check is a shape check only: ten characters, dashes at positions 4 and 7, digits elsewhere. */
  lemma DateShapeCharacterized(s: string)
    ensures IsDateShape(s) <==>
      |s| == 10 && s[4] == '-' && s[7] == '-' &&
      forall i :: 0 <= i < 10 && i != 4 && i != 7 ==> IsDigit(s[i])
  {
    var p := DatePattern();
    forall i | 0 <= i < 10 ensures p[i] == if i == 4 || i == 7 then Lit('-') else Digit {
    }
    FullMatchPositional(p, s);
  }

  /** The same, position by position, for a given string. */
  lemma DateShapeOf(s: string)
    requires |s| == 10 && s[4] == '-' && s[7] == '-'
    requires IsDigit(s[0]) && IsDigit(s[1]) && IsDigit(s[2]) && IsDigit(s[3])
    requires IsDigit(s[5]) && IsDigit(s[6]) && IsDigit(s[8]) && IsDigit(s[9])
    ensures IsDateShape(s)
  {
    DateShapeCharacterized(s);
  }

  /** The month and day are not range-checked. */
  lemma ImpossibleDateHasDateShape()
    ensures IsDateShape("2024-99-99")
  {
    DateShapeOf("2024-99-99");
  }

  /** A one-digit month does not have the shape. */
  lemma ShortMonthIsNotDateShape()
    ensures !IsDateShape("2024-1-01")
  {
    DateShapeCharacterized("2024-1-01");
  }

  // ----- the order of well-shaped dates

  /** Lexicographic order of two concatenations whose first parts have the same length. */
  lemma {:induction false} LexLessConcat(x: string, y: string, x': string, y': string)
    requires |x| == |x'|
    ensures LexLess(x + y, x' + y') <==> LexLess(x, x') || (x == x' && LexLess(y, y'))
  {
    if x != [] {
      assert (x + y)[0] == x[0] && (x' + y')[0] == x'[0];
      assert (x + y)[1..] == x[1..] + y && (x' + y')[1..] == x'[1..] + y';
      LexLessConcat(x[1..], y, x'[1..], y');
      if x[0] == x'[0] && x[1..] == x'[1..] {
        assert x == [x[0]] + x[1..] && x' == [x'[0]] + x'[1..];
      }
    } else {
      assert x + y == y && x' + y' == y';
    }
  }

  predicate AllDigits(s: string)
  {
    forall i :: 0 <= i < |s| ==> IsDigit(s[i])
  }

  function Pow10(n: nat): (p: nat)
    ensures p >= 1
  {
    if n == 0 then 1 else 10 * Pow10(n - 1)
  }

  function DigitValue(c: char): (d: nat)
    requires IsDigit(c)
    ensures d < 10
  {
    (c as int) - ('0' as int)
  }

  lemma {:induction false} MulMonotone(x: nat, y: nat, p: nat)
    requires x <= y
    ensures x * p <= y * p
  {
    if p > 0 {
      MulMonotone(x, y, p - 1);
      assert x * p == x * (p - 1) + x && y * p == y * (p - 1) + y;
    }
  }

  /** A leading digit `d` followed by a tail below `p` is below `(d + 1) * p`. */
  lemma LeadingDigit(d: nat, p: nat, rest: nat)
    requires rest < p
    ensures d * p + rest < (d + 1) * p
  {
    assert (d + 1) * p == d * p + p;
  }

  lemma RestAllDigits(s: string)
    requires s != [] && AllDigits(s)
    ensures AllDigits(s[1..]) && IsDigit(s[0])
  {
    forall i | 0 <= i < |s[1..]| ensures IsDigit(s[1..][i]) {
      assert s[1..][i] == s[i + 1];
    }
  }

  /** The decimal value of a string of digits. */
  function Number(s: string): (n: nat)
    requires AllDigits(s)
    ensures n < Pow10(|s|)
  {
    if s == [] then 0
    else
      RestAllDigits(s);
      var d, p := DigitValue(s[0]), Pow10(|s| - 1);
      var rest := Number(s[1..]);
      LeadingDigit(d, p, rest);
      MulMonotone(d + 1, 10, p);
      d * p + rest
  }

  /** Numbers written as a leading part times `p` plus a rest below `p` compare by the leading part,
      then by the rest. */
  lemma LeadingOrder(x: nat, rx: nat, y: nat, ry: nat, p: nat)
    requires rx < p && ry < p
    ensures x * p + rx < y * p + ry <==> x < y || (x == y && rx < ry)
    ensures x * p + rx == y * p + ry <==> x == y && rx == ry
  {
    if x < y {
      LeadingDigit(x, p, rx);
      MulMonotone(x + 1, y, p);
    } else if y < x {
      LeadingDigit(y, p, ry);
      MulMonotone(y + 1, x, p);
    }
  }

  /** On digit strings of one length, the string order is the numeric order. */
  lemma {:induction false} DigitsOrder(a: string, b: string)
    requires |a| == |b| && AllDigits(a) && AllDigits(b)
    ensures LexLess(a, b) <==> Number(a) < Number(b)
    ensures a == b <==> Number(a) == Number(b)
  {
    if a != [] {
      RestAllDigits(a);
      RestAllDigits(b);
      DigitsOrder(a[1..], b[1..]);
      var da, db := DigitValue(a[0]), DigitValue(b[0]);
      LeadingOrder(da, Number(a[1..]), db, Number(b[1..]), Pow10(|a| - 1));
      assert da < db <==> a[0] < b[0];
      assert a == b <==> a[0] == b[0] && a[1..] == b[1..] by {
        assert a == [a[0]] + a[1..] && b == [b[0]] + b[1..];
      }
    }
  }

  /** A well-shaped date as the number `yyyymmdd`, the calendar's order for valid dates. */
  function DateValue(s: string): nat
    requires IsDateShape(s)
  {
    DateShapeCharacterized(s);
    Number(s[0..4]) * 10000 + Number(s[5..7]) * 100 + Number(s[8..10])
  }

  lemma DatePartsAreDigits(s: string)
    requires IsDateShape(s)
    ensures AllDigits(s[0..4]) && AllDigits(s[5..7]) && AllDigits(s[8..10])
    ensures s == s[0..4] + "-" + s[5..7] + "-" + s[8..10]
  {
    DateShapeCharacterized(s);
    forall i | 0 <= i < 4 ensures IsDigit(s[0..4][i]) {
      assert s[0..4][i] == s[i];
    }
    forall i | 0 <= i < 2 ensures IsDigit(s[5..7][i]) && IsDigit(s[8..10][i]) {
      assert s[5..7][i] == s[5 + i] && s[8..10][i] == s[8 + i];
    }
  }

  /** On well-shaped dates the string comparison orders by year, then month, then day: the order
      of the dates themselves. */
  lemma DateOrder(a: string, b: string)
    requires IsDateShape(a) && IsDateShape(b)
    ensures LexLess(a, b) <==> DateValue(a) < DateValue(b)
  {
    DatePartsAreDigits(a);
    DatePartsAreDigits(b);
    DateFieldsOrder(a[0..4], a[5..7], a[8..10], b[0..4], b[5..7], b[8..10]);
    DigitsOrder(a[0..4], b[0..4]);
    DigitsOrder(a[5..7], b[5..7]);
    DigitsOrder(a[8..10], b[8..10]);
    assert Pow10(2) == 100;
    var ra, rb := Number(a[5..7]) * 100 + Number(a[8..10]), Number(b[5..7]) * 100 + Number(b[8..10]);
    LeadingOrder(Number(a[5..7]), Number(a[8..10]), Number(b[5..7]), Number(b[8..10]), 100);
    assert ra < 10000 && rb < 10000 by {
      LeadingOrder(Number(a[5..7]), Number(a[8..10]), 100, 0, 100);
      LeadingOrder(Number(b[5..7]), Number(b[8..10]), 100, 0, 100);
    }
    LeadingOrder(Number(a[0..4]), ra, Number(b[0..4]), rb, 10000);
  }

  /** Two well-shaped dates compare as strings by year, then month, then day. */
  lemma DateFieldsOrder(ya: string, ma: string, da: string, yb: string, mb: string, db: string)
    requires |ya| == |yb| && |ma| == |mb|
    ensures LexLess(ya + "-" + ma + "-" + da, yb + "-" + mb + "-" + db) <==>
      || LexLess(ya, yb)
      || (ya == yb && (LexLess(ma, mb) || (ma == mb && LexLess(da, db))))
  {
    var a, b := ya + "-" + ma + "-" + da, yb + "-" + mb + "-" + db;
    LexLessIrreflexive("-");
    LexLessConcat(ya, "-" + ma + "-" + da, yb, "-" + mb + "-" + db);
    LexLessConcat("-", ma + "-" + da, "-", mb + "-" + db);
    LexLessConcat(ma, "-" + da, mb, "-" + db);
    LexLessConcat("-", da, "-", db);
    assert a == ya + ("-" + ma + "-" + da) && ("-" + ma + "-" + da) == "-" + (ma + "-" + da);
    assert b == yb + ("-" + mb + "-" + db) && ("-" + mb + "-" + db) == "-" + (mb + "-" + db);
    assert ma + "-" + da == ma + ("-" + da) && mb + "-" + db == mb + ("-" + db);
  }
}
