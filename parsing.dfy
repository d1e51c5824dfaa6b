/**
 * `parse_num` (app.py, lines 70-72): replace every ',' by '.', strip surrounding whitespace and
 * convert with `float`, answering None instead of raising. `float` is modelled by a decimal
 * reader: an optional sign, digits, and at most one '.', with at least one digit.
 */
module Parsing {
  import opened Wrappers

  /** Python's `str.isspace` for one character: the characters `str.strip()` removes. */
  predicate IsSpace(c: char) {
    var n := c as int;
    || 9 <= n <= 13 || 0x1C <= n <= 0x20 || n == 0x85 || n == 0xA0 || n == 0x1680
    || 0x2000 <= n <= 0x200A || n == 0x2028 || n == 0x2029 || n == 0x202F || n == 0x205F
    || n == 0x3000
  }

  predicate AllSpace(s: string) {
    forall i :: 0 <= i < |s| ==> IsSpace(s[i])
  }

  /** Every comma replaced by a dot (Python's str.replace). */
  function ReplaceCommas(s: string): (r: string)
    ensures |r| == |s|
    ensures forall i :: 0 <= i < |s| ==> r[i] == if s[i] == ',' then '.' else s[i]
  {
    if s == [] then [] else [if s[0] == ',' then '.' else s[0]] + ReplaceCommas(s[1..])
  }

  /** Replacing commas a second time finds none left. */
  lemma ReplaceCommasIdempotent(s: string)
    ensures ReplaceCommas(ReplaceCommas(s)) == ReplaceCommas(s)
  {
    var once := ReplaceCommas(s);
    assert ReplaceCommas(once) == once by {
      assert forall i :: 0 <= i < |once| ==> once[i] != ',';
    }
  }

  lemma ReplaceCommasAppend(a: string, b: string)
    ensures ReplaceCommas(a + b) == ReplaceCommas(a) + ReplaceCommas(b)
  {
    var l, r := ReplaceCommas(a + b), ReplaceCommas(a) + ReplaceCommas(b);
    assert forall i :: 0 <= i < |l| ==> l[i] == r[i] by {
      forall i | 0 <= i < |l| ensures l[i] == r[i] {
        if i < |a| { assert (a + b)[i] == a[i]; }
        else { assert (a + b)[i] == b[i - |a|]; }
      }
    }
  }

  /** Leading whitespace removed (Python's str.lstrip). */
  function StripLeft(s: string): (r: string)
    ensures |r| <= |s| && r == s[|s| - |r|..]
    ensures forall i :: 0 <= i < |s| - |r| ==> IsSpace(s[i])
    ensures r == [] || !IsSpace(r[0])
  {
    if |s| > 0 && IsSpace(s[0]) then StripLeft(s[1..]) else s
  }

  /** Trailing whitespace removed (Python's str.rstrip). */
  function StripRight(s: string): (r: string)
    ensures |r| <= |s| && r == s[..|r|]
    ensures forall i :: |r| <= i < |s| ==> IsSpace(s[i])
    ensures r == [] || !IsSpace(r[|r| - 1])
  {
    if |s| > 0 && IsSpace(s[|s| - 1]) then StripRight(s[..|s| - 1]) else s
  }

  /** r is s[i..i + |r|], and everything of s outside that slice is whitespace. */
  predicate TrimmedAt(s: string, r: string, i: nat) {
    i + |r| <= |s| && r == s[i..i + |r|] && AllSpace(s[..i]) && AllSpace(s[i + |r|..])
  }

  /** Whitespace removed at both ends (Python's str.strip). */
  function Strip(s: string): (r: string)
    ensures r == [] || (!IsSpace(r[0]) && !IsSpace(r[|r| - 1]))
    ensures exists i :: TrimmedAt(s, r, i)
  {
    var l := StripLeft(s);
    var r := StripRight(l);
    var i := |s| - |l|;
    assert r == [] || r[0] == l[0];
    assert TrimmedAt(s, r, i) by {
      assert r == s[i..i + |r|];
      var tail := s[i + |r|..];
      assert forall j :: 0 <= j < |tail| ==> tail[j] == l[|r| + j];
      assert forall j :: 0 <= j < i ==> s[..i][j] == s[j];
    }
    r
  }

  lemma {:induction false} StripLeftOfSpaces(w: string, t: string)
    requires AllSpace(w)
    ensures StripLeft(w + t) == StripLeft(t)
  {
    if w != [] {
      assert (w + t)[1..] == w[1..] + t;
      StripLeftOfSpaces(w[1..], t);
    } else {
      assert w + t == t;
    }
  }

  lemma {:induction false} StripRightOfSpaces(t: string, w: string)
    requires AllSpace(w)
    ensures StripRight(t + w) == StripRight(t)
  {
    if w != [] {
      var w' := w[..|w| - 1];
      assert (t + w)[..|t + w| - 1] == t + w';
      StripRightOfSpaces(t, w');
    } else {
      assert t + w == t;
    }
  }

  lemma {:induction false} StripLeftKeepsTail(t: string, w: string)
    requires !AllSpace(t)
    ensures StripLeft(t + w) == StripLeft(t) + w
  {
    if IsSpace(t[0]) {
      assert (t + w)[1..] == t[1..] + w;
      assert !AllSpace(t[1..]) by {
        var i :| 0 <= i < |t| && !IsSpace(t[i]);
        assert t[1..][i - 1] == t[i];
      }
      StripLeftKeepsTail(t[1..], w);
    }
  }

  lemma StripLeftAllSpace(t: string)
    requires AllSpace(t)
    ensures StripLeft(t) == []
  {
  }

  /** Whitespace around a string does not change what `strip` leaves. */
  lemma StripIgnoresSurroundingSpace(w1: string, t: string, w2: string)
    requires AllSpace(w1) && AllSpace(w2)
    ensures Strip(w1 + t + w2) == Strip(t)
  {
    assert w1 + t + w2 == w1 + (t + w2);
    StripLeftOfSpaces(w1, t + w2);
    if AllSpace(t) {
      assert AllSpace(t + w2) by {
        forall i | 0 <= i < |t + w2| ensures IsSpace((t + w2)[i]) {
          if i < |t| { assert (t + w2)[i] == t[i]; } else { assert (t + w2)[i] == w2[i - |t|]; }
        }
      }
      StripLeftAllSpace(t + w2);
      StripLeftAllSpace(t);
    } else {
      StripLeftKeepsTail(t, w2);
      StripRightOfSpaces(StripLeft(t), w2);
    }
  }

  /** A character that is not whitespace survives `strip`. */
  lemma StripKeepsNonSpace(s: string, i: nat)
    requires i < |s| && !IsSpace(s[i])
    ensures s[i] in Strip(s)
  {
    var l := StripLeft(s);
    var k := i - (|s| - |l|);
    assert 0 <= k < |l| && l[k] == s[i];
    var r := StripRight(l);
    assert k < |r| && r[k] == l[k];
  }

  predicate IsDigit(c: char) {
    '0' <= c <= '9'
  }

  predicate AllDigits(s: string) {
    forall i :: 0 <= i < |s| ==> IsDigit(s[i])
  }

  function DigitValue(c: char): (d: nat)
    requires IsDigit(c)
    ensures d < 10
  {
    (c as int) - ('0' as int)
  }

  /** The number a string of decimal digits denotes (0 for the empty string). */
  function DigitsValue(s: string): (n: nat)
    requires AllDigits(s)
  {
    if s == [] then 0 else 10 * DigitsValue(s[..|s| - 1]) + DigitValue(s[|s| - 1])
  }

  function Pow10(n: nat): (p: nat)
    ensures p >= 1
  {
    if n == 0 then 1 else 10 * Pow10(n - 1)
  }

  /** The position of the first '.' in s, or |s| when there is none. */
  function DotIndex(s: string): (k: nat)
    ensures k <= |s|
    ensures forall i :: 0 <= i < k ==> s[i] != '.'
    ensures k < |s| ==> s[k] == '.'
  {
    if s == [] then 0 else if s[0] == '.' then 0 else 1 + DotIndex(s[1..])
  }

  /** The value of the decimal written `whole.frac`. */
  function DecimalNumber(whole: string, frac: string): (x: real)
    requires AllDigits(whole) && AllDigits(frac)
  {
    DigitsValue(whole) as real + DigitsValue(frac) as real / Pow10(|frac|) as real
  }

  /** The two digit runs around a decimal point, with at least one digit between them. */
  function Decimal(whole: string, frac: string): (r: Option<real>) {
    if AllDigits(whole) && AllDigits(frac) && |whole| + |frac| > 0 then Some(DecimalNumber(whole, frac))
    else None
  }

  /** Digits with at most one '.', and at least one digit: `12`, `12.`, `.5`, `12.50`. */
  function UnsignedValue(s: string): (r: Option<real>) {
    var k := DotIndex(s);
    if k < |s| then Decimal(s[..k], s[k + 1..]) else Decimal(s, [])
  }

  /** The decimal subset of what `float` accepts: an optional sign before an unsigned number. */
  function FloatValue(s: string): (r: Option<real>) {
    if |s| > 0 && (s[0] == '-' || s[0] == '+') then
      match UnsignedValue(s[1..])
      case Some(x) => Some(if s[0] == '-' then -x else x)
      case None => None
    else
      UnsignedValue(s)
  }

  /** An unsigned number is written with digits and one '.' at most. */
  lemma UnsignedValueCharacters(s: string)
    requires UnsignedValue(s).Some?
    ensures forall i :: 0 <= i < |s| ==> IsDigit(s[i]) || s[i] == '.'
  {
    var k := DotIndex(s);
    forall i | 0 <= i < |s| ensures IsDigit(s[i]) || s[i] == '.' {
      if k < |s| {
        if i < k { assert s[i] == s[..k][i]; }
        else if i > k { assert s[i] == s[k + 1..][i - k - 1]; }
      }
    }
  }

  /** What `float` accepts here is written with digits, '.', '+' and '-' only. */
  lemma FloatValueCharacters(s: string)
    requires FloatValue(s).Some?
    ensures forall i :: 0 <= i < |s| ==> IsDigit(s[i]) || s[i] in ".+-"
  {
    if |s| > 0 && (s[0] == '-' || s[0] == '+') {
      UnsignedValueCharacters(s[1..]);
      assert forall i :: 1 <= i < |s| ==> s[i] == s[1..][i - 1];
    } else {
      UnsignedValueCharacters(s);
    }
  }

  /** `parse_num`: never raises; a string the number reader rejects gives None. */
  function ParseNum(s: string): (r: Option<real>) {
    FloatValue(Strip(ReplaceCommas(s)))
  }

  /** A string and the same string with every ',' replaced by '.' parse alike. */
  lemma ParseNumCommaAsDot(s: string)
    ensures ParseNum(ReplaceCommas(s)) == ParseNum(s)
  {
    ReplaceCommasIdempotent(s);
  }

  /** Whitespace around the input is ignored. */
  lemma ParseNumIgnoresSurroundingSpace(w1: string, s: string, w2: string)
    requires AllSpace(w1) && AllSpace(w2)
    ensures ParseNum(w1 + s + w2) == ParseNum(s)
  {
    ReplaceCommasAppend(w1 + s, w2);
    ReplaceCommasAppend(w1, s);
    assert ReplaceCommas(w1) == w1 by {
      assert forall i :: 0 <= i < |w1| ==> w1[i] != ',';
    }
    assert ReplaceCommas(w2) == w2 by {
      assert forall i :: 0 <= i < |w2| ==> w2[i] != ',';
    }
    StripIgnoresSurroundingSpace(w1, ReplaceCommas(s), w2);
  }

  /** Malformed input: a character that is not a digit, a separator, a sign or whitespace gives None. */
  lemma ParseNumRejectsForeignCharacter(s: string, i: nat)
    requires i < |s|
    requires !IsDigit(s[i]) && s[i] !in ",.+-" && !IsSpace(s[i])
    ensures ParseNum(s) == None
  {
    var t := ReplaceCommas(s);
    assert t[i] == s[i];
    StripKeepsNonSpace(t, i);
    if ParseNum(s).Some? {
      FloatValueCharacters(Strip(t));
    }
  }

  /** The digit character of a number below ten. */
  function DigitChar(d: nat): (c: char)
    requires d < 10
    ensures IsDigit(c) && DigitValue(c) == d
  {
    ((('0' as int) + d) as char)
  }

  /** The decimal digits of a natural number, as Python's `str` writes them. */
  function NatToString(n: nat): (s: string)
    ensures |s| > 0 && AllDigits(s)
  {
    if n < 10 then [DigitChar(n)] else NatToString(n / 10) + [DigitChar(n % 10)]
  }

  /** Reading back the digits of a number gives the number. */
  lemma {:induction false} DigitsOfNat(n: nat)
    ensures DigitsValue(NatToString(n)) == n
  {
    if n >= 10 {
      var s := NatToString(n);
      assert s[..|s| - 1] == NatToString(n / 10);
      DigitsOfNat(n / 10);
    }
  }

  lemma ReplaceCommasWithoutComma(t: string)
    requires forall i :: 0 <= i < |t| ==> t[i] != ','
    ensures ReplaceCommas(t) == t
  {
  }

  lemma StripWithoutSpaceEnds(t: string)
    requires |t| > 0 && !IsSpace(t[0]) && !IsSpace(t[|t| - 1])
    ensures Strip(t) == t
  {
    assert StripLeft(t) == t;
  }

  /** `parse_num` of a string that has no comma and no whitespace at either end is `float` of it. */
  lemma ParseNumOfTrimmed(t: string)
    requires forall i :: 0 <= i < |t| ==> t[i] != ','
    requires |t| > 0 && !IsSpace(t[0]) && !IsSpace(t[|t| - 1])
    ensures ParseNum(t) == FloatValue(t)
  {
    ReplaceCommasWithoutComma(t);
    StripWithoutSpaceEnds(t);
  }

  lemma FloatValueOfDigits(s: string)
    requires |s| > 0 && AllDigits(s)
    ensures FloatValue(s) == Some(DigitsValue(s) as real)
  {
    assert forall i :: 0 <= i < |s| ==> s[i] != '.';
    assert DotIndex(s) == |s|;
    assert DecimalNumber(s, []) == DigitsValue(s) as real;
  }

  /** A written natural number parses to itself. */
  lemma ParseNumOfNat(n: nat)
    ensures ParseNum(NatToString(n)) == Some(n as real)
  {
    var s := NatToString(n);
    assert forall i :: 0 <= i < |s| ==> IsDigit(s[i]);
    ParseNumOfTrimmed(s);
    FloatValueOfDigits(s);
    DigitsOfNat(n);
  }

  lemma DotIndexOfDecimal(w: string, f: string)
    requires AllDigits(w)
    ensures DotIndex(w + "." + f) == |w|
  {
    var t := w + "." + f;
    assert forall i :: 0 <= i < |w| ==> t[i] == w[i];
    assert t[|w|] == '.';
  }

  lemma FloatValueOfDecimal(w: string, f: string)
    requires |w| > 0 && AllDigits(w) && AllDigits(f)
    ensures FloatValue(w + "." + f) == Some(DecimalNumber(w, f))
  {
    var t := w + "." + f;
    DotIndexOfDecimal(w, f);
    assert t[..|w|] == w;
    assert t[|w| + 1..] == f;
    assert t[0] == w[0];
  }

  lemma ReplaceCommaInDecimal(w: string, f: string)
    requires AllDigits(w) && AllDigits(f)
    ensures ReplaceCommas(w + "," + f) == w + "." + f
  {
    ReplaceCommasAppend(w + ",", f);
    ReplaceCommasAppend(w, ",");
    ReplaceCommasWithoutComma(w);
    ReplaceCommasWithoutComma(f);
  }

  lemma DecimalTextTrimmed(w: string, f: string)
    requires |w| > 0 && AllDigits(w) && AllDigits(f)
    ensures var t := w + "." + f;
      && (forall i :: 0 <= i < |t| ==> t[i] != ',')
      && |t| > 0 && !IsSpace(t[0]) && !IsSpace(t[|t| - 1])
  {
    var t := w + "." + f;
    forall i | 0 <= i < |t| ensures t[i] != ',' {
      if i < |w| { assert t[i] == w[i]; }
      else if i > |w| { assert t[i] == f[i - |w| - 1]; }
    }
    assert t[0] == w[0];
    assert t[|t| - 1] == if f == [] then '.' else f[|f| - 1];
  }

  /** With a decimal comma: "w,f" parses to the number "w.f" writes. */
  lemma ParseNumWithComma(w: string, f: string)
    requires |w| > 0 && AllDigits(w) && AllDigits(f)
    ensures ParseNum(w + "," + f) == Some(DecimalNumber(w, f))
  {
    var t := w + "." + f;
    ReplaceCommaInDecimal(w, f);
    ParseNumCommaAsDot(w + "," + f);
    DecimalTextTrimmed(w, f);
    ParseNumOfTrimmed(t);
    FloatValueOfDecimal(w, f);
  }

  /** The empty string, and a word, are not numbers. */
  lemma ParseNumRejectsEmptyAndWords()
    ensures ParseNum("") == None
    ensures ParseNum("abc") == None
  {
    assert Strip(ReplaceCommas("")) == "";
    assert DotIndex("") == 0;
    ParseNumRejectsForeignCharacter("abc", 0);
  }
}
