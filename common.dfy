/**
 * Small value types and text helpers shared by every part of the model:
 * an Option type for Swift optionals, the character classes Foundation
 * trims with, substring search and decimal rendering of integers.
 */
module Common {

  /** Swift's `T?`. */
  datatype Option<+T> = None | Some(value: T) {
    /** Swift's `x ?? default`. */
    function GetOr(default: T): T {
      match this
      case Some(v) => v
      case None => default
    }
  }

  /** The two Foundation character sets the program trims with. */
  datatype CharSet = Newlines | WhitespacesAndNewlines

  /** Foundation's `CharacterSet.newlines`: U+000A through U+000D, U+0085, U+2028 and U+2029. */
  predicate IsNewline(c: char) {
    ('\n' <= c <= '\r') || c == '\U{85}' || c == '\U{2028}' || c == '\U{2029}'
  }

  /**
   * Membership in a character set. `whitespacesAndNewlines` holds the Unicode
   * space separators (category Zs), tab and the newline characters.
   */
  predicate In(c: char, set_: CharSet) {
    match set_
    case Newlines => IsNewline(c)
    case WhitespacesAndNewlines =>
      || c == '\t' || c == ' ' || c == '\U{A0}' || c == '\U{1680}'
      || ('\U{2000}' <= c <= '\U{200A}')
      || c == '\U{202F}' || c == '\U{205F}' || c == '\U{3000}'
      || IsNewline(c)
  }

  /** Drops the leading characters of the set. */
  function DropLeading(s: string, cs: CharSet): (r: string)
    ensures |r| <= |s| && r == s[|s| - |r|..]
    ensures r != [] ==> !In(r[0], cs)
    ensures forall i :: 0 <= i < |s| - |r| ==> In(s[i], cs)
  {
    if s != [] && In(s[0], cs) then DropLeading(s[1..], cs) else s
  }

  /** Drops the trailing characters of the set. */
  function DropTrailing(s: string, cs: CharSet): (r: string)
    ensures |r| <= |s| && r == s[..|r|]
    ensures r != [] ==> !In(r[|r| - 1], cs)
    ensures forall i :: |r| <= i < |s| ==> In(s[i], cs)
  {
    if s != [] && In(s[|s| - 1], cs) then DropTrailing(s[..|s| - 1], cs) else s
  }

  /**
   * Foundation's `trimmingCharacters(in:)`: the infix of `s` left once the
   * characters of the set are dropped from both ends.
   */
  function Trim(s: string, cs: CharSet): (r: string)
    ensures |r| <= |s|
  {
    DropTrailing(DropLeading(s, cs), cs)
  }

  /** The trimmed string occurs in `s`, where the leading characters of the set end. */
  lemma TrimOccurs(s: string, cs: CharSet)
    ensures OccursAt(s, Trim(s, cs), |s| - |DropLeading(s, cs)|)
  {
    var a := DropLeading(s, cs);
    var r := DropTrailing(a, cs);
    assert Trim(s, cs) == r;
    InfixOfSuffix(s, a, r);
  }

  /** A non-empty trimmed string neither starts nor ends with a character of the set. */
  lemma TrimEnds(s: string, cs: CharSet)
    ensures var r := Trim(s, cs); r != [] ==> !In(r[0], cs) && !In(r[|r| - 1], cs)
  {
    var a := DropLeading(s, cs);
    var r := DropTrailing(a, cs);
    if r != [] {
      assert r[0] == a[0];
    }
  }

  /** Trimming leaves nothing exactly when every character of `s` is in the set. */
  lemma TrimEmpty(s: string, cs: CharSet)
    ensures Trim(s, cs) == [] <==> forall i :: 0 <= i < |s| ==> In(s[i], cs)
  {
    var a := DropLeading(s, cs);
    var r := DropTrailing(a, cs);
    var k := |s| - |a|;
    if r == [] {
      forall i | 0 <= i < |s| ensures In(s[i], cs) {
        if i >= k {
          assert s[i] == a[i - k];
        }
      }
    } else {
      assert r[0] == a[0] == s[k];
    }
  }

  /** A prefix of a suffix of `s` occurs in `s` where the suffix starts. */
  lemma InfixOfSuffix(s: string, a: string, r: string)
    requires |a| <= |s| && a == s[|s| - |a|..]
    requires |r| <= |a| && r == a[..|r|]
    ensures OccursAt(s, r, |s| - |a|)
  {
    var k := |s| - |a|;
    assert forall j :: 0 <= j < |r| ==> s[k..k + |r|][j] == r[j];
  }

  /** `p` occurs in `s` starting at offset `i`. */
  predicate OccursAt(s: string, p: string, i: int) {
    0 <= i <= |s| - |p| && s[i..i + |p|] == p
  }

  /** `p` is a prefix of `s`. */
  predicate StartsWith(s: string, p: string) {
    |p| <= |s| && s[..|p|] == p
  }

  /**
   * Foundation's `String.contains(_:)` on a string argument: substring search.
   * Only a string at most as long as `s` can be found, and the empty string
   * is found everywhere.
   */
  function Contains(s: string, p: string): (b: bool)
    ensures b ==> |p| <= |s|
    ensures p == [] ==> b
    decreases |s|
  {
    StartsWith(s, p) || (s != [] && Contains(s[1..], p))
  }

  /** Contains finds exactly the occurrences of `p` at some offset of `s`. */
  lemma {:induction false} ContainsIffOccurs(s: string, p: string)
    ensures Contains(s, p) <==> exists i :: OccursAt(s, p, i)
  {
    if StartsWith(s, p) {
      assert OccursAt(s, p, 0);
    } else if s == [] {
    } else {
      ContainsIffOccurs(s[1..], p);
      if exists i :: OccursAt(s, p, i) {
        var i :| OccursAt(s, p, i);
        assert i != 0;
        assert s[1..][i - 1..i - 1 + |p|] == s[i..i + |p|];
        assert OccursAt(s[1..], p, i - 1);
      }
      if Contains(s[1..], p) {
        var j :| OccursAt(s[1..], p, j);
        assert s[j + 1..j + 1 + |p|] == s[1..][j..j + |p|];
        assert OccursAt(s, p, j + 1);
      }
    }
  }

  /** The decimal digit for `d`. */
  function DigitChar(d: nat): (c: char)
    requires d < 10
    ensures '0' <= c <= '9'
    ensures DigitValue(c) == d
  {
    ('0' as int + d) as char
  }

  /** The value of a decimal digit character. */
  function DigitValue(c: char): int {
    c as int - '0' as int
  }

  /** Reads a string of decimal digits back as the number it spells, most significant digit first. */
  function DecimalValue(s: string): int
    decreases |s|
  {
    if s == [] then 0 else DecimalValue(s[..|s| - 1]) * 10 + DigitValue(s[|s| - 1])
  }

  /** Decimal rendering of a natural number, as Swift's string interpolation prints it. */
  function NatToString(n: nat): (s: string)
    ensures 1 <= |s|
    ensures forall i :: 0 <= i < |s| ==> '0' <= s[i] <= '9'
    ensures n > 0 ==> s[0] != '0'
  {
    if n < 10 then [DigitChar(n)] else NatToString(n / 10) + [DigitChar(n % 10)]
  }

  /** The rendered digits spell the number: reading them back gives `n`. */
  lemma {:induction false} NatToStringValue(n: nat)
    ensures DecimalValue(NatToString(n)) == n
    decreases n
  {
    var s := NatToString(n);
    if n < 10 {
      assert s[..0] == [];
    } else {
      NatToStringValue(n / 10);
      assert s[..|s| - 1] == NatToString(n / 10);
    }
  }

  /** Decimal rendering of an integer, with a leading '-' for negative values. */
  function IntToString(i: int): (s: string)
    ensures 1 <= |s|
    ensures (s[0] == '-') <==> i < 0
  {
    if i < 0 then "-" + NatToString(-i) else NatToString(i)
  }

  /**
   * The rendering of an integer reads back as its value: the whole string
   * for a non-negative integer, and the digits after the '-' for a negative
   * one.
   */
  lemma IntToStringValue(i: int)
    ensures i >= 0 ==> DecimalValue(IntToString(i)) == i
    ensures i < 0 ==> DecimalValue(IntToString(i)[1..]) == -i
  {
    if i < 0 {
      NatToStringValue(-i);
      assert IntToString(i)[1..] == NatToString(-i);
    } else {
      NatToStringValue(i);
    }
  }
}
