/*
 * The LED settings rules the admin pages of both firmwares share: the
 * normalisation of text arguments, the accepted colour orders and the
 * colour names of the LED test endpoint.
 */
module LedAdmin {
  import opened ArduinoString

  datatype Option<T> = None | Some(value: T)

  /** `trim()` then `toUpperCase()`, as applied to the `order` argument. */
  function NormalizeUpper(arg: string): string {
    ToUpper(Trim(arg))
  }

  /** `trim()` then `toLowerCase()`, as applied to the `c` and `auto` arguments. */
  function NormalizeLower(arg: string): string {
    ToLower(Trim(arg))
  }

  lemma CaseMappingKeepsSpaces(c: char)
    ensures IsSpace(UpperChar(c)) <==> IsSpace(c)
    ensures IsSpace(LowerChar(c)) <==> IsSpace(c)
    ensures UpperChar(UpperChar(c)) == UpperChar(c)
    ensures LowerChar(LowerChar(c)) == LowerChar(c)
  {
  }

  /** Normalising an already normalised argument changes nothing. */
  lemma {:induction false} NormalizeUpperIdempotent(arg: string)
    ensures NormalizeUpper(NormalizeUpper(arg)) == NormalizeUpper(arg)
  {
    var t := Trim(arg);
    var u := ToUpper(t);
    if u != [] {
      CaseMappingKeepsSpaces(t[0]);
      CaseMappingKeepsSpaces(t[|t| - 1]);
    }
    assert IsTrimmed(u);
    forall i | 0 <= i < |u| ensures ToUpper(u)[i] == u[i] {
      CaseMappingKeepsSpaces(t[i]);
    }
  }

  /** Normalising an already normalised argument changes nothing. */
  lemma {:induction false} NormalizeLowerIdempotent(arg: string)
    ensures NormalizeLower(NormalizeLower(arg)) == NormalizeLower(arg)
  {
    var t := Trim(arg);
    var u := ToLower(t);
    if u != [] {
      CaseMappingKeepsSpaces(t[0]);
      CaseMappingKeepsSpaces(t[|t| - 1]);
    }
    assert IsTrimmed(u);
    forall i | 0 <= i < |u| ensures ToLower(u)[i] == u[i] {
      CaseMappingKeepsSpaces(t[i]);
    }
  }

  /** The six colour orders the save handlers accept. */
  predicate IsValidColorOrder(order: string) {
    order == "RGB" || order == "RBG" || order == "GRB" || order == "GBR" || order == "BRG" || order == "BGR"
  }

  lemma MultisetOfThree(s: string)
    requires |s| == 3
    ensures multiset(s) == multiset{s[0], s[1], s[2]}
  {
    assert s == [s[0]] + [s[1]] + [s[2]];
  }

  /** Three different letters out of R, G and B: an accepted order, holding each letter once. */
  lemma DistinctRgb(a: char, b: char, c: char)
    requires a in "RGB" && b in "RGB" && c in "RGB"
    requires a != b && a != c && b != c
    ensures multiset{a, b, c} == multiset{'R', 'G', 'B'}
    ensures IsValidColorOrder([a, b, c])
  {
    if a == 'R' {
      if b == 'G' { assert c == 'B'; } else { assert c == 'G'; }
    } else if a == 'G' {
      if b == 'R' { assert c == 'B'; } else { assert c == 'R'; }
    } else {
      if b == 'R' { assert c == 'G'; } else { assert c == 'R'; }
    }
  }

  /** Each accepted order uses R, G and B once each. */
  lemma ValidOrderUsesEachLetterOnce(order: string)
    requires IsValidColorOrder(order)
    ensures |order| == 3 && multiset(order) == multiset{'R', 'G', 'B'}
  {
    assert |order| == 3;
    assert order[0] in "RGB" && order[1] in "RGB" && order[2] in "RGB";
    assert order[0] != order[1] && order[0] != order[2] && order[1] != order[2];
    MultisetOfThree(order);
    DistinctRgb(order[0], order[1], order[2]);
  }

  /** Three letters that are R, G and B in some order form an accepted order. */
  lemma ThreeOfRgb(a: char, b: char, c: char)
    requires multiset{a, b, c} == multiset{'R', 'G', 'B'}
    ensures IsValidColorOrder([a, b, c])
  {
    var m := multiset{'R', 'G', 'B'};
    assert a in m && b in m && c in m;
    assert m[a] == 1 && m[b] == 1;
    assert a != b && a != c && b != c;
    DistinctRgb(a, b, c);
  }

  /** A three-letter arrangement of R, G and B is an accepted order. */
  lemma PermutationIsValidOrder(order: string)
    requires |order| == 3 && multiset(order) == multiset{'R', 'G', 'B'}
    ensures IsValidColorOrder(order)
  {
    MultisetOfThree(order);
    ThreeOfRgb(order[0], order[1], order[2]);
    assert order == [order[0], order[1], order[2]];
  }

  /** The accepted orders are exactly the arrangements of the letters R, G and B. */
  lemma ValidOrdersArePermutationsOfRgb(order: string)
    ensures IsValidColorOrder(order) <==> |order| == 3 && multiset(order) == multiset{'R', 'G', 'B'}
  {
    if |order| == 3 && multiset(order) == multiset{'R', 'G', 'B'} {
      PermutationIsValidOrder(order);
    }
    if IsValidColorOrder(order) {
      ValidOrderUsesEachLetterOnce(order);
    }
  }

  /** A trimmed string of upper-case characters is already normalised. */
  lemma {:induction false} UpperTrimmedIsNormalized(s: string)
    requires IsTrimmed(s)
    requires forall i :: 0 <= i < |s| ==> UpperChar(s[i]) == s[i]
    ensures NormalizeUpper(s) == s
  {
    assert Trim(s) == s;
    assert forall i :: 0 <= i < |s| ==> ToUpper(s)[i] == s[i];
  }

  /** An accepted order submitted again, as the setup page pre-selects it, normalises to itself. */
  lemma ValidOrderIsNormalized(order: string)
    requires IsValidColorOrder(order)
    ensures NormalizeUpper(order) == order
  {
    assert |order| == 3;
    assert order[0] in "RGB" && order[1] in "RGB" && order[2] in "RGB";
    UpperTrimmedIsNormalized(order);
  }

  /** One 8-bit colour channel. */
  type Channel = x: int | 0 <= x < 256

  /** What the LED test endpoint does to the strip: `setLEDColor(r, g, b)` or `clearLED()`. */
  datatype LedAction = ShowColor(r: Channel, g: Channel, b: Channel) | ClearStrip

  const TestColorNames: set<string> := {"red", "green", "blue", "off"}

  /** A full-intensity primary: one channel at 255, the other two dark. */
  predicate IsPrimary(a: LedAction) {
    && a.ShowColor?
    && ((a.r == 255 && a.g == 0 && a.b == 0) || (a.r == 0 && a.g == 255 && a.b == 0) || (a.r == 0 && a.g == 0 && a.b == 255))
  }

  /** The colour table of the LED test endpoint, on the normalised name. */
  function ActionForName(name: string): (action: Option<LedAction>)
    ensures action.Some? <==> name in TestColorNames
    ensures action == Some(ClearStrip) <==> name == "off"
    ensures action.Some? && action.value.ShowColor? ==> IsPrimary(action.value)
    ensures name == "red" ==> action == Some(ShowColor(255, 0, 0))
    ensures name == "green" ==> action == Some(ShowColor(0, 255, 0))
    ensures name == "blue" ==> action == Some(ShowColor(0, 0, 255))
  {
    if name == "red" then Some(ShowColor(255, 0, 0))
    else if name == "green" then Some(ShowColor(0, 255, 0))
    else if name == "blue" then Some(ShowColor(0, 0, 255))
    else if name == "off" then Some(ClearStrip)
    else None
  }

  /** Different names never drive the strip the same way. */
  lemma ActionForNameIsInjective(name: string, other: string)
    requires ActionForName(name).Some? && ActionForName(name) == ActionForName(other)
    ensures name == other
  {
  }

  /**
   * The LED test mapping: the name is trimmed and lower-cased before the
   * table is consulted.
   */
  function TestActionFor(arg: string): (action: Option<LedAction>)
    ensures action == ActionForName(NormalizeLower(arg))
    ensures action.Some? <==> NormalizeLower(arg) in TestColorNames
  {
    ActionForName(NormalizeLower(arg))
  }

  /** The mapping ignores case and surrounding white space. */
  lemma TestActionForNormalizedName(arg: string)
    ensures TestActionFor(NormalizeLower(arg)) == TestActionFor(arg)
  {
    NormalizeLowerIdempotent(arg);
  }

  lemma PaddedUpperCaseRedIsRed()
    ensures TestActionFor(" RED ") == Some(ShowColor(255, 0, 0))
  {
    var padded := " RED ";
    var inner := "RED ";
    assert IsSpace(padded[0]) && padded[1..] == inner;
    assert TrimStart(inner) == inner by { assert !IsSpace(inner[0]); }
    assert TrimStart(padded) == inner;
    assert IsSpace(inner[3]) && inner[..3] == "RED";
    assert TrimEnd("RED") == "RED" by { assert IsTrimmed("RED"); }
    assert TrimEnd(inner) == "RED";
    assert ToLower("RED") == "red";
  }

  lemma MixedCaseOffClears()
    ensures TestActionFor("Off") == Some(ClearStrip)
  {
    assert IsTrimmed("Off");
    assert ToLower("Off") == "off";
  }

  lemma UnknownNameIsRejected()
    ensures TestActionFor("yellow") == None
  {
    assert IsTrimmed("yellow");
    assert ToLower("yellow") == "yellow";
  }
}
