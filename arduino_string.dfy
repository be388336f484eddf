/*
 * The Arduino `String` operations the admin handlers apply to request
 * arguments and configuration text: trim, toUpperCase, toLowerCase,
 * equalsIgnoreCase, indexOf and toInt. Characters are classified as the C
 * library does in its default locale (ASCII only), and `toInt` follows
 * `atol`/`strtol` on a 32-bit `long`, which is what the ESP32 toolchain uses.
 */
module ArduinoString {

  const Int32Min: int := -0x8000_0000
  const Int32Max: int := 0x7FFF_FFFF

  /** C `isspace`: space, tab, newline, vertical tab, form feed, carriage return. */
  predicate IsSpace(c: char) {
    c == ' ' || c == '\t' || c == '\n' || c == '\U{000B}' || c == '\U{000C}' || c == '\r'
  }

  /** A string with no white space at either end. */
  predicate IsTrimmed(s: string) {
    s == [] || (!IsSpace(s[0]) && !IsSpace(s[|s| - 1]))
  }

  /** Drops the leading white space: what remains is a suffix that starts with a non-space. */
  function TrimStart(s: string): (r: string)
    ensures |r| <= |s| && r == s[|s| - |r|..]
    ensures r == [] || !IsSpace(r[0])
    ensures forall i :: 0 <= i < |s| - |r| ==> IsSpace(s[i])
  {
    if s != [] && IsSpace(s[0]) then
      var r := TrimStart(s[1..]);
      assert s[1..][|s| - 1 - |r|..] == s[|s| - |r|..];
      assert forall i :: 1 <= i < |s| - |r| ==> s[i] == s[1..][i - 1];
      r
    else s
  }

  /** Drops the trailing white space: what remains is a prefix that ends with a non-space. */
  function TrimEnd(s: string): (r: string)
    ensures |r| <= |s| && r == s[..|r|]
    ensures r == [] || !IsSpace(r[|r| - 1])
    ensures forall i :: |r| <= i < |s| ==> IsSpace(s[i])
  {
    if s != [] && IsSpace(s[|s| - 1]) then
      var r := TrimEnd(s[..|s| - 1]);
      assert s[..|s| - 1][..|r|] == s[..|r|];
      assert forall i :: |r| <= i < |s| - 1 ==> s[i] == s[..|s| - 1][i];
      r
    else s
  }

  /** `String::trim()`: leading white space first, then trailing. */
  function Trim(s: string): (r: string)
    ensures IsTrimmed(r)
    ensures IsTrimmed(s) ==> r == s
    ensures |r| <= |s|
  {
    TrimEnd(TrimStart(s))
  }

  /**
   * `trim()` removes only white space, and only at the ends: the result is
   * the slice of the input that starts at `i`, the length of the leading
   * white space.
   */
  lemma TrimDropsOnlySpace(s: string, i: int)
    requires i == |s| - |TrimStart(s)|
    ensures 0 <= i <= |s| - |Trim(s)|
    ensures Trim(s) == s[i..i + |Trim(s)|]
    ensures forall k :: 0 <= k < i ==> IsSpace(s[k])
    ensures forall k :: i + |Trim(s)| <= k < |s| ==> IsSpace(s[k])
  {
    var t := TrimStart(s);
    var r := TrimEnd(t);
    assert t == s[i..];
    forall k | 0 <= k < |r| ensures r[k] == s[i + k] { assert r[k] == t[k]; }
    forall k | i + |r| <= k < |s| ensures IsSpace(s[k]) { assert s[k] == t[k - i]; }
  }

  /** C `toupper` in the default locale. */
  function UpperChar(c: char): char {
    if 'a' <= c <= 'z' then (c as int - 32) as char else c
  }

  /** C `tolower` in the default locale. */
  function LowerChar(c: char): char {
    if 'A' <= c <= 'Z' then (c as int + 32) as char else c
  }

  /** `String::toUpperCase()`: every character through `toupper`, length kept. */
  function ToUpper(s: string): (r: string)
    ensures |r| == |s|
    ensures forall i :: 0 <= i < |s| ==> r[i] == UpperChar(s[i])
  {
    if s == [] then [] else [UpperChar(s[0])] + ToUpper(s[1..])
  }

  /** `String::toLowerCase()`: every character through `tolower`, length kept. */
  function ToLower(s: string): (r: string)
    ensures |r| == |s|
    ensures forall i :: 0 <= i < |s| ==> r[i] == LowerChar(s[i])
  {
    if s == [] then [] else [LowerChar(s[0])] + ToLower(s[1..])
  }

  /**
   * `String::equalsIgnoreCase()`: equal lengths and equal characters after
   * `tolower`, which is the same as equal lower-case forms.
   */
  function EqualsIgnoreCase(a: string, b: string): (r: bool)
    ensures r <==> ToLower(a) == ToLower(b)
  {
    var eq := |a| == |b| && forall i :: 0 <= i < |a| ==> LowerChar(a[i]) == LowerChar(b[i]);
    assert eq ==> ToLower(a) == ToLower(b) by {
      if eq {
        assert forall i :: 0 <= i < |a| ==> ToLower(a)[i] == ToLower(b)[i];
      }
    }
    assert ToLower(a) == ToLower(b) ==> eq by {
      if ToLower(a) == ToLower(b) {
        forall i | 0 <= i < |a| ensures LowerChar(a[i]) == LowerChar(b[i]) {
          assert ToLower(a)[i] == ToLower(b)[i];
        }
      }
    }
    eq
  }

  /** Whether `p` occurs in `s` at position `k`. */
  predicate OccursAt(s: string, p: string, k: int) {
    0 <= k && k + |p| <= |s| && s[k..k + |p|] == p
  }

  /**
   * `String::indexOf(p, from)`: the first position at or after `from` where
   * `p` occurs, or -1; a start at or past the end gives -1.
   */
  function IndexOf(s: string, p: string, from: nat): (r: int)
    ensures r == -1 || (from <= r && OccursAt(s, p, r))
    ensures from < |s| || p != [] ==> forall k :: from <= k && (r == -1 || k < r) ==> !OccursAt(s, p, k)
    decreases |s| - from
  {
    if from >= |s| || from + |p| > |s| then -1
    else if s[from..from + |p|] == p then from
    else IndexOf(s, p, from + 1)
  }

  predicate IsDigit(c: char) {
    '0' <= c <= '9'
  }

  predicate AllDigits(d: string) {
    forall i :: 0 <= i < |d| ==> IsDigit(d[i])
  }

  /** The longest prefix of `s` made of decimal digits. */
  function LeadingDigits(s: string): (d: string)
    ensures d <= s && AllDigits(d)
    ensures |d| < |s| ==> !IsDigit(s[|d|])
  {
    if s != [] && IsDigit(s[0]) then [s[0]] + LeadingDigits(s[1..]) else []
  }

  /** The value of a string of decimal digits, most significant first. */
  function DecimalValue(d: string): nat
    requires AllDigits(d)
  {
    if d == [] then 0 else 10 * DecimalValue(d[..|d| - 1]) + (d[|d| - 1] as int - '0' as int)
  }

  /** What follows an optional leading sign. */
  function Unsigned(t: string): (u: string)
    ensures |u| <= |t|
  {
    if t != [] && (t[0] == '-' || t[0] == '+') then t[1..] else t
  }

  /**
   * `String::toInt()`, that is `atol`: skip leading white space, read an
   * optional sign and then as many decimal digits as follow; no digits gives
   * 0, and a value beyond the range of a 32-bit `long` saturates at its bound.
   */
  function ToInt(s: string): (n: int)
    ensures Int32Min <= n <= Int32Max
    ensures LeadingDigits(Unsigned(TrimStart(s))) == [] ==> n == 0
  {
    var t := TrimStart(s);
    var negative := t != [] && t[0] == '-';
    var magnitude: int := DecimalValue(LeadingDigits(Unsigned(t)));
    if negative then (if -magnitude < Int32Min then Int32Min else -magnitude)
    else if magnitude > Int32Max then Int32Max
    else magnitude
  }

  /** The decimal digits of `n`, as `String(n)` writes them. */
  function NatToDecimal(n: nat): (d: string)
    ensures d != [] && AllDigits(d)
    decreases n
  {
    var last := ((n % 10) + '0' as int) as char;
    if n < 10 then [last] else NatToDecimal(n / 10) + [last]
  }

  /** `String(int)`: the decimal form of `n`, with a leading '-' when negative. */
  function IntToDecimal(n: int): (s: string)
    ensures s != []
  {
    if n < 0 then "-" + NatToDecimal(-n) else NatToDecimal(n)
  }

  lemma {:induction false} DecimalValueOfNatToDecimal(n: nat)
    ensures DecimalValue(NatToDecimal(n)) == n
    decreases n
  {
    var d := NatToDecimal(n);
    if n >= 10 {
      DecimalValueOfNatToDecimal(n / 10);
      assert d[..|d| - 1] == NatToDecimal(n / 10);
    }
  }

  lemma {:induction false} LeadingDigitsOfDigits(d: string, rest: string)
    requires AllDigits(d)
    requires rest == [] || !IsDigit(rest[0])
    ensures LeadingDigits(d + rest) == d
    decreases |d|
  {
    if d != [] {
      assert (d + rest)[1..] == d[1..] + rest;
      LeadingDigitsOfDigits(d[1..], rest);
      assert d == [d[0]] + d[1..];
    } else {
      assert d + rest == rest;
    }
  }

  lemma {:induction false} DecimalReadsBack(d: string, n: nat)
    requires d == NatToDecimal(n)
    ensures TrimStart(d) == d && Unsigned(d) == d
    ensures DecimalValue(LeadingDigits(d)) == n
  {
    assert IsDigit(d[0]);
    DecimalValueOfNatToDecimal(n);
    LeadingDigitsOfDigits(d, []);
    assert d + [] == d;
  }

  /**
   * Round trip: `toInt` reads back every 32-bit value that `String(int)`
   * writes, so a form field pre-filled with a stored number and submitted
   * unchanged yields that number again.
   */
  lemma ToIntOfDecimal(n: int)
    requires Int32Min <= n <= Int32Max
    ensures ToInt(IntToDecimal(n)) == n
  {
    var s := IntToDecimal(n);
    if n < 0 {
      var d := NatToDecimal(-n);
      DecimalReadsBack(d, -n);
      assert s == "-" + d && s[0] == '-' && s[1..] == d;
      assert TrimStart(s) == s by { assert !IsSpace(s[0]); }
      assert Unsigned(s) == d;
      assert DecimalValue(LeadingDigits(Unsigned(TrimStart(s)))) == -n;
    } else {
      DecimalReadsBack(s, n);
      assert DecimalValue(LeadingDigits(Unsigned(TrimStart(s)))) == n;
    }
  }
}
