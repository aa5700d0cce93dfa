/**
 * The string operations the application relies on: `toLowerCase` (as an ASCII
 * case fold), `includes`, `startsWith`, `split(sep)[0]` and the decimal
 * rendering of an integer by `Number.prototype.toString`.
 */
module Text {

  predicate IsUpper(c: char) { 'A' <= c <= 'Z' }

  /** ASCII case fold of one character. */
  function LowerChar(c: char): (d: char)
    ensures IsUpper(c) ==> d as int == c as int + 32 && 'a' <= d <= 'z'
    ensures !IsUpper(c) ==> d == c
  {
    if IsUpper(c) then (c as int + 32) as char else c
  }

  /** `toLowerCase`, restricted to ASCII letters. */
  function Lower(s: string): (r: string)
    ensures |r| == |s|
    ensures forall i :: 0 <= i < |s| ==> r[i] == LowerChar(s[i])
  {
    if s == [] then [] else [LowerChar(s[0])] + Lower(s[1..])
  }

  /** Lower-casing twice is lower-casing once, and leaves no upper-case letter. */
  lemma LowerIdempotent(s: string)
    ensures Lower(Lower(s)) == Lower(s)
    ensures forall i :: 0 <= i < |s| ==> !IsUpper(Lower(s)[i])
  {
  }

  /** A string without upper-case letters is its own lower-case form. */
  lemma LowerKeepsLowerCase(s: string)
    requires forall i :: 0 <= i < |s| ==> !IsUpper(s[i])
    ensures Lower(s) == s
  {
  }

  /** A lower-case letter occurs in `Lower(s)` only if it, or its capital, occurs in `s`. */
  lemma LowerAvoids(s: string, c: char)
    requires 'a' <= c <= 'z' && c !in s && (c as int - 32) as char !in s
    ensures c !in Lower(s)
  {
    forall i | 0 <= i < |s| ensures Lower(s)[i] != c {
      assert Lower(s)[i] == LowerChar(s[i]);
    }
  }

  /** `needle` occurs in `hay` starting at offset `i`. */
  predicate OccursAt(hay: string, needle: string, i: int) {
    0 <= i <= |hay| - |needle| && needle <= hay[i..]
  }

  /** `hay.includes(needle)`. */
  function Includes(hay: string, needle: string): (b: bool)
    ensures needle == [] ==> b
    ensures b ==> |needle| <= |hay|
  {
    if needle <= hay then true
    else if hay == [] then false
    else Includes(hay[1..], needle)
  }

  /** `includes` holds exactly when the needle occurs at some offset. */
  lemma {:induction false} IncludesAt(hay: string, needle: string)
    ensures Includes(hay, needle) <==> exists i :: OccursAt(hay, needle, i)
  {
    if needle <= hay {
      assert OccursAt(hay, needle, 0);
    } else if hay == [] {
      assert forall i :: !OccursAt(hay, needle, i);
    } else {
      IncludesAt(hay[1..], needle);
      forall i | OccursAt(hay[1..], needle, i) ensures OccursAt(hay, needle, i + 1) {
        assert hay[1..][i..] == hay[i + 1..];
      }
      forall i | OccursAt(hay, needle, i) && i > 0 ensures OccursAt(hay[1..], needle, i - 1) {
        assert hay[1..][i - 1..] == hay[i..];
      }
    }
  }

  /** Every character of an included needle occurs in the haystack. */
  lemma IncludedCharsOccur(hay: string, needle: string)
    requires Includes(hay, needle)
    ensures forall c :: c in needle ==> c in hay
  {
    IncludesAt(hay, needle);
    var i :| OccursAt(hay, needle, i);
    forall c | c in needle ensures c in hay {
      var j :| 0 <= j < |needle| && needle[j] == c;
      assert hay[i..][j] == hay[i + j];
    }
  }

  /** `s.startsWith(prefix)`. */
  predicate StartsWith(s: string, prefix: string) { prefix <= s }

  /** `s.split(sep)[0]`: the part of `s` before the first `sep`, or all of `s`. */
  function Before(s: string, sep: char): (r: string)
    ensures r <= s
    ensures sep !in r
    ensures |r| < |s| ==> s[|r|] == sep
  {
    if s == [] || s[0] == sep then [] else [s[0]] + Before(s[1..], sep)
  }

  predicate IsDigit(c: char) { '0' <= c <= '9' }

  predicate IsHexDigit(c: char) { IsDigit(c) || 'a' <= c <= 'f' || 'A' <= c <= 'F' }

  function DigitChar(d: int): (c: char)
    requires 0 <= d < 10
    ensures IsDigit(c) && c as int - '0' as int == d
  {
    ('0' as int + d) as char
  }

  /** The decimal digits of `n`, most significant first, without leading zeros. */
  function NatToDecimal(n: nat): (r: string)
    ensures |r| >= 1
    ensures forall i :: 0 <= i < |r| ==> IsDigit(r[i])
    ensures n >= 10 ==> |r| >= 2 && r[0] != '0'
    ensures n < 10 ==> |r| == 1
  {
    if n < 10 then [DigitChar(n)] else NatToDecimal(n / 10) + [DigitChar(n % 10)]
  }

  /** `Number.prototype.toString()` of an integer: its decimal digits, with `-` when negative. */
  function IntToDecimal(i: int): (r: string)
    ensures |r| >= 1
    ensures i < 0 <==> r[0] == '-'
    ensures forall k :: (if i < 0 then 1 else 0) <= k < |r| ==> IsDigit(r[k])
  {
    if i < 0 then "-" + NatToDecimal(-i) else NatToDecimal(i)
  }

  /** The number a string of decimal digits spells, most significant digit first. */
  function DecimalValue(s: string): (v: int)
    requires forall i :: 0 <= i < |s| ==> IsDigit(s[i])
    ensures v >= 0
  {
    if s == [] then 0
    else
      var last := s[|s| - 1];
      assert IsDigit(last);
      10 * DecimalValue(s[..|s| - 1]) + (last as int - '0' as int)
  }

  /** The number a rendering spells: its decimal value, negated after a leading `-`. */
  function SignedDecimalValue(s: string): int
    requires |s| >= 1
    requires forall i :: (if s[0] == '-' then 1 else 0) <= i < |s| ==> IsDigit(s[i])
  {
    if s[0] == '-' then -DecimalValue(s[1..]) else DecimalValue(s)
  }

  /** The digits of `n` spell `n`. */
  lemma {:induction false} NatToDecimalValue(n: nat)
    ensures DecimalValue(NatToDecimal(n)) == n
  {
    if n >= 10 {
      var s := NatToDecimal(n);
      assert s == NatToDecimal(n / 10) + [DigitChar(n % 10)];
      assert s[..|s| - 1] == NatToDecimal(n / 10);
      NatToDecimalValue(n / 10);
    }
  }

  /** `toString` of an integer spells that integer. */
  lemma IntToDecimalValue(i: int)
    ensures SignedDecimalValue(IntToDecimal(i)) == i
  {
    if i < 0 {
      assert IntToDecimal(i)[1..] == NatToDecimal(-i);
      NatToDecimalValue(-i);
    } else {
      NatToDecimalValue(i);
    }
  }

  /** Different numbers have different decimal renderings. */
  lemma {:induction false} NatToDecimalInjective(a: nat, b: nat)
    requires NatToDecimal(a) == NatToDecimal(b)
    ensures a == b
  {
    if a >= 10 && b >= 10 {
      var s := NatToDecimal(a);
      assert s == NatToDecimal(a / 10) + [DigitChar(a % 10)];
      assert s == NatToDecimal(b / 10) + [DigitChar(b % 10)];
      assert NatToDecimal(a / 10) == s[..|s| - 1] == NatToDecimal(b / 10);
      assert DigitChar(a % 10) == s[|s| - 1] == DigitChar(b % 10);
      NatToDecimalInjective(a / 10, b / 10);
    } else if a < 10 && b < 10 {
      assert DigitChar(a) == NatToDecimal(a)[0] == DigitChar(b);
    }
  }

  /** Different integers have different decimal renderings. */
  lemma IntToDecimalInjective(a: int, b: int)
    requires IntToDecimal(a) == IntToDecimal(b)
    ensures a == b
  {
    if a < 0 && b < 0 {
      assert NatToDecimal(-a) == IntToDecimal(a)[1..] == NatToDecimal(-b);
      NatToDecimalInjective(-a, -b);
    } else if a >= 0 && b >= 0 {
      NatToDecimalInjective(a, b);
    }
  }
}
