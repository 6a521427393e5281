/**
 * The string keys of the world's two maps (src/world.js:62-68) and the way
 * `update` decodes a column key back into numbers with `split(',')` and
 * `parseInt(_, 10)` (src/world.js:158-160). The world itself keys its maps by
 * coordinate tuples; the round-trip and injectivity lemmas here are what make
 * that the same thing.
 */
module Keys {
  import opened Wrappers

  predicate IsDigit(c: char)
  {
    '0' <= c <= '9'
  }

  function DigitChar(d: nat): (c: char)
    requires d < 10
    ensures IsDigit(c) && (c as int) - ('0' as int) == d
  {
    ('0' as int + d) as char
  }

  function DigitValue(c: char): nat
    requires IsDigit(c)
  {
    (c as int) - ('0' as int)
  }

  /** Decimal digits of `n`, most significant first, without leading zeros. */
  function NatToString(n: nat): string
  {
    if n < 10 then [DigitChar(n)] else NatToString(n / 10) + [DigitChar(n % 10)]
  }

  /** A number's text in a template literal: a `-` before the digits of a negative number. */
  function IntToString(i: int): string
  {
    if i < 0 then "-" + NatToString(-i) else NatToString(i)
  }

  /** `columnKey(x, z)`: `${x},${z}`. */
  function ColumnKey(x: int, z: int): string
  {
    IntToString(x) + "," + IntToString(z)
  }

  /** `sectionKey(x, y, z)`: `${x},${y},${z}`. */
  function SectionKey(x: int, y: int, z: int): string
  {
    IntToString(x) + "," + IntToString(y) + "," + IntToString(z)
  }

  /** `s.split(sep)`: the pieces between separators, in order; one piece when `sep` is absent. */
  function Split(s: string, sep: char): (parts: seq<string>)
    ensures |parts| >= 1
  {
    if |s| == 0 then [""]
    else
      var rest := Split(s[1..], sep);
      if s[0] == sep then [""] + rest else [[s[0]] + rest[0]] + rest[1..]
  }

  /** The number of decimal digits at the start of `s`. */
  function DigitRunLength(s: string): (n: nat)
    ensures n <= |s|
    ensures forall k :: 0 <= k < n ==> IsDigit(s[k])
    ensures n < |s| ==> !IsDigit(s[n])
  {
    if |s| == 0 || !IsDigit(s[0]) then 0 else 1 + DigitRunLength(s[1..])
  }

  /** The value of a run of decimal digits. */
  function DigitsValue(s: string): nat
    requires forall k :: 0 <= k < |s| ==> IsDigit(s[k])
  {
    if |s| == 0 then 0 else DigitsValue(s[..|s| - 1]) * 10 + DigitValue(s[|s| - 1])
  }

  /**
   * `parseInt(s, 10)`: an optional sign, then the longest run of digits; `NaN`
   * (here `None`) when no digit follows the sign. Leading white space is not modelled.
   */
  function ParseInt(s: string): Option<int>
  {
    var signed := |s| > 0 && (s[0] == '-' || s[0] == '+');
    var body := if signed then s[1..] else s;
    var n := DigitRunLength(body);
    if n == 0 then None
    else
      var v: int := DigitsValue(body[..n]);
      Some(if signed && s[0] == '-' then -v else v)
  }

  /**
   * `let [x, z] = coords.split(','); x = parseInt(x, 10); z = parseInt(z, 10)`:
   * `None` when either part is missing or is not a number.
   */
  function DecodeColumnKey(key: string): Option<(int, int)>
  {
    var parts := Split(key, ',');
    if |parts| < 2 then None
    else
      match (ParseInt(parts[0]), ParseInt(parts[1]))
      case (Some(x), Some(z)) => Some((x, z))
      case _ => None
  }

  lemma {:induction false} NatToStringDigits(n: nat)
    ensures |NatToString(n)| >= 1
    ensures forall k :: 0 <= k < |NatToString(n)| ==> IsDigit(NatToString(n)[k])
  {
    if n >= 10 {
      NatToStringDigits(n / 10);
    }
  }

  lemma {:induction false} NatToStringValue(n: nat)
    ensures forall k :: 0 <= k < |NatToString(n)| ==> IsDigit(NatToString(n)[k])
    ensures DigitsValue(NatToString(n)) == n
  {
    NatToStringDigits(n);
    if n >= 10 {
      var s := NatToString(n);
      NatToStringValue(n / 10);
      assert s[..|s| - 1] == NatToString(n / 10);
    }
  }

  lemma {:induction false} DigitRunOfDigits(s: string)
    requires forall k :: 0 <= k < |s| ==> IsDigit(s[k])
    ensures DigitRunLength(s) == |s|
  {
    if |s| > 0 {
      DigitRunOfDigits(s[1..]);
    }
  }

  /** `parseInt` reads back exactly the number a template literal wrote. */
  lemma ParseIntRoundTrip(i: int)
    ensures ParseInt(IntToString(i)) == Some(i)
  {
    var m: nat := if i < 0 then -i else i;
    var digits := NatToString(m);
    NatToStringValue(m);
    DigitRunOfDigits(digits);
    assert digits[..|digits|] == digits;
    if i < 0 {
      assert IntToString(i)[1..] == digits;
    }
  }

  lemma {:induction false} SplitWithoutSeparator(a: string, sep: char)
    requires sep !in a
    ensures Split(a, sep) == [a]
  {
    if |a| > 0 {
      SplitWithoutSeparator(a[1..], sep);
      assert [a[0]] + a[1..] == a;
    }
  }

  /** Splitting at the first separator peels off the text before it. */
  lemma {:induction false} SplitAtFirst(a: string, sep: char, b: string)
    requires sep !in a
    ensures Split(a + [sep] + b, sep) == [a] + Split(b, sep)
  {
    var s := a + [sep] + b;
    if |a| == 0 {
      assert s[1..] == b;
    } else {
      assert s[1..] == a[1..] + [sep] + b;
      SplitAtFirst(a[1..], sep, b);
      assert [a[0]] + a[1..] == a;
    }
  }

  lemma NumberTextHasNoComma(i: int)
    ensures ',' !in IntToString(i)
    ensures forall k :: 0 <= k < |IntToString(i)| ==> IntToString(i)[k] != ','
  {
    NatToStringDigits(if i < 0 then -i else i);
  }

  /** `update` decodes every key `addColumn` can write back to its coordinates. */
  lemma ColumnKeyRoundTrip(x: int, z: int)
    ensures DecodeColumnKey(ColumnKey(x, z)) == Some((x, z))
  {
    NumberTextHasNoComma(x);
    NumberTextHasNoComma(z);
    SplitAtFirst(IntToString(x), ',', IntToString(z));
    SplitWithoutSeparator(IntToString(z), ',');
    assert Split(ColumnKey(x, z), ',') == [IntToString(x), IntToString(z)];
    ParseIntRoundTrip(x);
    ParseIntRoundTrip(z);
  }

  /** Different column origins never share a key. */
  lemma ColumnKeyInjective(x: int, z: int, x': int, z': int)
    requires ColumnKey(x, z) == ColumnKey(x', z')
    ensures x == x' && z == z'
  {
    ColumnKeyRoundTrip(x, z);
    ColumnKeyRoundTrip(x', z');
  }

  /** A section key splits into the texts of its three coordinates. */
  lemma SectionKeyParts(x: int, y: int, z: int)
    ensures Split(SectionKey(x, y, z), ',') == [IntToString(x), IntToString(y), IntToString(z)]
  {
    NumberTextHasNoComma(x);
    NumberTextHasNoComma(y);
    NumberTextHasNoComma(z);
    var sx, sy, sz := IntToString(x), IntToString(y), IntToString(z);
    assert SectionKey(x, y, z) == sx + [','] + (sy + [','] + sz);
    SplitAtFirst(sx, ',', sy + [','] + sz);
    SplitAtFirst(sy, ',', sz);
    SplitWithoutSeparator(sz, ',');
  }

  /** Different section origins never share a key. */
  lemma SectionKeyInjective(x: int, y: int, z: int, x': int, y': int, z': int)
    requires SectionKey(x, y, z) == SectionKey(x', y', z')
    ensures x == x' && y == y' && z == z'
  {
    SectionKeyParts(x, y, z);
    SectionKeyParts(x', y', z');
    ParseIntRoundTrip(x);
    ParseIntRoundTrip(x');
    ParseIntRoundTrip(y);
    ParseIntRoundTrip(y');
    ParseIntRoundTrip(z);
    ParseIntRoundTrip(z');
  }
}
