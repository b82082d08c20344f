/** The pieces of JavaScript's string and number semantics that the widget
    relies on: `toLowerCase`, `toUpperCase` of a single character, `trim`,
    `parseInt`, and the property key a number turns into when it indexes an
    object (`obj[n]` reads `obj[String(n)]`).

    Characters are Unicode scalar values. Case mapping is stated for the
    Latin-1 range, which covers the Norwegian letters in the bank's texts. */
module JsText {

  datatype Option<T> = None | Some(value: T)

  /** WhiteSpace and LineTerminator of ECMAScript: what `trim` and
      `parseInt` skip. */
  predicate IsWhiteSpace(c: char)
  {
    c == '\t' || c == '\n' || c == '\U{B}' || c == '\U{C}' || c == '\r' || c == ' '
    || c == '\U{A0}' || c == '\U{1680}' || ('\U{2000}' <= c <= '\U{200A}')
    || c == '\U{2028}' || c == '\U{2029}' || c == '\U{202F}' || c == '\U{205F}'
    || c == '\U{3000}' || c == '\U{FEFF}'
  }

  // ---------------------------------------------------------------------------
  // Case mapping

  /** `toLowerCase` of one character: A-Z and the Latin-1 capitals
      (U+00C0..U+00DE except the multiplication sign) move down by 0x20. */
  function LowerChar(c: char): (d: char)
    ensures ('0' <= d <= '9') <==> ('0' <= c <= '9')
    ensures d == '*' <==> c == '*'
    ensures d == ':' <==> c == ':'
    ensures d == '.' <==> c == '.'
    ensures d == ' ' <==> c == ' '
  {
    if 'A' <= c <= 'Z' || ('\U{C0}' <= c <= '\U{DE}' && c != '\U{D7}') then
      (c as int + 0x20) as char
    else
      c
  }

  function ToLowerCase(s: string): (r: string)
    ensures |r| == |s|
    ensures forall k :: 0 <= k < |s| ==> r[k] == LowerChar(s[k])
  {
    seq(|s|, k requires 0 <= k < |s| => LowerChar(s[k]))
  }

  /** Lower-casing works character by character, so it splits over a
      concatenation. */
  lemma ToLowerCaseAppend(a: string, b: string)
    ensures ToLowerCase(a + b) == ToLowerCase(a) + ToLowerCase(b)
  {
    var r := ToLowerCase(a + b);
    forall k | 0 <= k < |r| ensures r[k] == (ToLowerCase(a) + ToLowerCase(b))[k] {
      if k < |a| {
        assert (a + b)[k] == a[k];
      } else {
        assert (a + b)[k] == b[k - |a|];
      }
    }
  }

  /** `toUpperCase` of a one-character string in the Latin-1 range. The sharp
      s becomes two letters, y-diaeresis and the micro sign leave Latin-1. */
  function UpperChar(c: char): (u: string)
    ensures 1 <= |u| <= 2
  {
    if 'a' <= c <= 'z' || ('\U{E0}' <= c <= '\U{FE}' && c != '\U{F7}') then
      [(c as int - 0x20) as char]
    else if c == '\U{DF}' then
      "SS"
    else if c == '\U{FF}' then
      ['\U{178}']
    else if c == '\U{B5}' then
      ['\U{39C}']
    else
      [c]
  }

  /** `s.charAt(0).toUpperCase() + s.slice(1)`. */
  function CapitalizeFirst(s: string): (r: string)
    ensures s == [] ==> r == []
    ensures s != [] ==> r == UpperChar(s[0]) + s[1..]
  {
    if s == [] then [] else UpperChar(s[0]) + s[1..]
  }

  // ---------------------------------------------------------------------------
  // trim

  function TrimStart(s: string): (r: string)
    ensures |r| <= |s|
  {
    if s != [] && IsWhiteSpace(s[0]) then TrimStart(s[1..]) else s
  }

  /** `TrimStart` cuts off the leading white space and nothing more. */
  lemma {:induction false} TrimStartCuts(s: string)
    ensures var r := TrimStart(s);
            && r == s[|s| - |r|..]
            && (forall k :: 0 <= k < |s| - |r| ==> IsWhiteSpace(s[k]))
            && (r == [] || !IsWhiteSpace(r[0]))
  {
    if s != [] && IsWhiteSpace(s[0]) {
      TrimStartCuts(s[1..]);
    }
  }

  function TrimEnd(s: string): (r: string)
    ensures |r| <= |s|
  {
    if s != [] && IsWhiteSpace(s[|s| - 1]) then TrimEnd(s[..|s| - 1]) else s
  }

  /** `TrimEnd` cuts off the trailing white space and nothing more. */
  lemma {:induction false} TrimEndCuts(s: string)
    ensures var r := TrimEnd(s);
            && r == s[..|r|]
            && (forall k :: |r| <= k < |s| ==> IsWhiteSpace(s[k]))
            && (r == [] || !IsWhiteSpace(r[|r| - 1]))
  {
    if s != [] && IsWhiteSpace(s[|s| - 1]) {
      TrimEndCuts(s[..|s| - 1]);
    }
  }

  /** `String.prototype.trim`. */
  function Trim(s: string): string
  {
    TrimEnd(TrimStart(s))
  }

  /** The trimmed text is a slice of `s`: it starts where the leading white
      space ends. */
  lemma TrimIsSlice(s: string)
    ensures |Trim(s)| <= |TrimStart(s)| <= |s|
    ensures forall k :: 0 <= k < |Trim(s)| ==> Trim(s)[k] == s[|s| - |TrimStart(s)| + k]
  {
    var t := TrimStart(s);
    TrimStartCuts(s);
    TrimEndCuts(t);
    assert forall k :: 0 <= k < |Trim(s)| ==> Trim(s)[k] == t[k];
  }

  /** The trimmed text neither starts nor ends with white space, and a text
      that does neither is left as it is. */
  lemma TrimEnds(s: string)
    ensures var r := Trim(s); r == [] || (!IsWhiteSpace(r[0]) && !IsWhiteSpace(r[|r| - 1]))
    ensures (s == [] || (!IsWhiteSpace(s[0]) && !IsWhiteSpace(s[|s| - 1]))) ==> Trim(s) == s
  {
    var t := TrimStart(s);
    var r := TrimEnd(t);
    TrimStartCuts(s);
    TrimEndCuts(t);
    if r != [] {
      assert r[0] == t[0];
    }
    if s != [] && !IsWhiteSpace(s[0]) && !IsWhiteSpace(s[|s| - 1]) {
      assert t == s;
      assert TrimEnd(s) == s;
    }
  }

  // ---------------------------------------------------------------------------
  // Numbers: parseInt and the decimal rendering of an integer

  /** Value of a digit in base 16 or lower; -1 for a character that is not
      one. */
  function HexValue(c: char): (v: int)
    ensures -1 <= v < 16
    ensures 0 <= v < 10 <==> '0' <= c <= '9'
    ensures '0' <= c <= '9' ==> v == c as int - '0' as int
  {
    if '0' <= c <= '9' then c as int - '0' as int
    else if 'a' <= c <= 'f' then c as int - 'a' as int + 10
    else if 'A' <= c <= 'F' then c as int - 'A' as int + 10
    else -1
  }

  predicate IsDigitIn(c: char, radix: nat)
  {
    0 <= HexValue(c) < radix
  }

  /** Length of the longest prefix of `s` made of digits of `radix`. */
  function DigitRun(s: string, radix: nat): (n: nat)
    ensures n <= |s|
  {
    if s != [] && IsDigitIn(s[0], radix) then 1 + DigitRun(s[1..], radix) else 0
  }

  /** The run is made of digits and stops at the first character that is
      not one. */
  lemma {:induction false} DigitRunStops(s: string, radix: nat)
    ensures forall k :: 0 <= k < DigitRun(s, radix) ==> IsDigitIn(s[k], radix)
    ensures DigitRun(s, radix) < |s| ==> !IsDigitIn(s[DigitRun(s, radix)], radix)
  {
    if s != [] && IsDigitIn(s[0], radix) {
      DigitRunStops(s[1..], radix);
    }
  }

  lemma MulNonNegative(a: nat, b: nat)
    ensures 0 <= a * b
  {
  }

  /** Positional value of a string of digits, most significant first. */
  function DigitsValue(s: string, radix: nat): nat
    requires forall k :: 0 <= k < |s| ==> IsDigitIn(s[k], radix)
  {
    if s == [] then 0
    else
      var high: nat := DigitsValue(s[..|s| - 1], radix);
      var d := HexValue(s[|s| - 1]);
      assert 0 <= d by { assert IsDigitIn(s[|s| - 1], radix); }
      assert 0 <= high * radix by { MulNonNegative(high, radix); }
      high * radix + d
  }

  /** Unsigned part of `parseInt`: the longest digit prefix, NaN (None) when
      there is none. */
  function ParseDigits(s: string, radix: nat): Option<int>
  {
    var n := DigitRun(s, radix);
    DigitRunStops(s, radix);
    if n == 0 then None else Some(DigitsValue(s[..n], radix))
  }

  predicate HasHexPrefix(s: string)
  {
    |s| >= 2 && s[0] == '0' && (s[1] == 'x' || s[1] == 'X')
  }

  /** `parseInt(s)` with no radix argument: skip leading white space, take an
      optional sign, read hexadecimal after `0x`/`0X` and decimal otherwise,
      up to the first character that is not a digit. None stands for NaN. */
  function ParseInt(s: string): Option<int>
  {
    var t := TrimStart(s);
    var sign := if t != [] && t[0] == '-' then -1 else 1;
    var rest := if t != [] && (t[0] == '-' || t[0] == '+') then t[1..] else t;
    var magnitude := if HasHexPrefix(rest) then ParseDigits(rest[2..], 16) else ParseDigits(rest, 10);
    match magnitude
    case None => None
    case Some(v) => Some(sign * v)
  }

  function DigitChar(d: nat): (c: char)
    requires d < 10
    ensures '0' <= c <= '9' && HexValue(c) == d
  {
    ('0' as int + d) as char
  }

  /** `String(n)` for a natural number: its shortest decimal digits. */
  function Decimal(n: nat): (s: string)
    ensures s != []
  {
    if n < 10 then [DigitChar(n)] else Decimal(n / 10) + [DigitChar(n % 10)]
  }

  /** The property key a number becomes: `obj[n]` reads `obj[String(n)]`,
      and NaN reads the key "NaN". */
  function NumberKey(p: Option<int>): string
  {
    match p
    case None => "NaN"
    case Some(n) => if n < 0 then "-" + Decimal(-n) else Decimal(n)
  }

  /** A string of decimal digits is canonical when it has no leading zero
      (unless it is "0" itself): the form `String(n)` produces. */
  predicate IsCanonicalDecimal(s: string)
  {
    && s != []
    && (forall k :: 0 <= k < |s| ==> '0' <= s[k] <= '9')
    && (|s| == 1 || s[0] != '0')
  }

  /** Appending digit `d` to the rendering of `v` renders `10 * v + d`. */
  lemma DecimalStep(v: nat, d: nat)
    requires 1 <= v && d < 10
    ensures Decimal(v * 10 + d) == Decimal(v) + [DigitChar(d)]
  {
    var n := v * 10 + d;
    assert n / 10 == v && n % 10 == d;
  }

  /** The value of a digit string with one more digit. */
  lemma DigitsValueStep(s: string)
    requires s != [] && forall k :: 0 <= k < |s| ==> IsDigitIn(s[k], 10)
    ensures DigitsValue(s, 10) == DigitsValue(s[..|s| - 1], 10) * 10 + HexValue(s[|s| - 1])
  {
  }

  lemma {:induction false} DecimalIsCanonical(n: nat)
    ensures IsCanonicalDecimal(Decimal(n))
    ensures forall k :: 0 <= k < |Decimal(n)| ==> IsDigitIn(Decimal(n)[k], 10)
    ensures DigitsValue(Decimal(n), 10) == n
    ensures n < 10 <==> |Decimal(n)| == 1
  {
    var s := Decimal(n);
    if n < 10 {
      assert s == [DigitChar(n)];
      assert s[..0] == [];
    } else {
      var v, d := n / 10, n % 10;
      assert n == v * 10 + d;
      DecimalIsCanonical(v);
      var init := Decimal(v);
      assert s == init + [DigitChar(d)];
      assert s[..|s| - 1] == init;
      DigitsValueStep(s);
      assert init[0] != '0' by {
        if |init| == 1 {
          assert init[..0] == [];
          assert HexValue(init[0]) == v;
        }
      }
    }
  }

  /** A canonical digit string is the rendering of its value. */
  lemma {:induction false} DigitsValueOfCanonical(s: string)
    requires IsCanonicalDecimal(s)
    ensures forall k :: 0 <= k < |s| ==> IsDigitIn(s[k], 10)
    ensures Decimal(DigitsValue(s, 10)) == s
    ensures |s| > 1 ==> DigitsValue(s, 10) >= 10
    decreases |s|
  {
    assert forall k :: 0 <= k < |s| ==> IsDigitIn(s[k], 10);
    var c := s[|s| - 1];
    assert DigitChar(HexValue(c)) == c;
    if |s| == 1 {
      assert s[..0] == [];
      assert s == [c];
    } else {
      var init := s[..|s| - 1];
      assert init[0] == s[0];
      DigitsValueOfCanonical(init);
      var v := DigitsValue(init, 10);
      assert v >= 1 by {
        if |init| == 1 {
          assert init[..0] == [];
        }
      }
      DigitsValueStep(s);
      DecimalStep(v, HexValue(c));
      assert s == init + [c];
    }
  }

  lemma ParseDigitsOfDecimal(m: nat)
    ensures '0' <= Decimal(m)[0] <= '9'
    ensures !HasHexPrefix(Decimal(m))
    ensures ParseDigits(Decimal(m), 10) == Some(m)
  {
    DecimalIsCanonical(m);
    var digits := Decimal(m);
    DigitRunStops(digits, 10);
    assert DigitRun(digits, 10) == |digits|;
    assert digits[..|digits|] == digits;
  }

  lemma ParseIntOfDigits(digits: string, v: int)
    requires digits != [] && '0' <= digits[0] <= '9'
    requires !HasHexPrefix(digits) && ParseDigits(digits, 10) == Some(v)
    ensures ParseInt(digits) == Some(v)
  {
    assert !IsWhiteSpace(digits[0]);
    assert TrimStart(digits) == digits;
  }

  lemma ParseIntOfNegated(digits: string, v: int)
    requires digits != [] && '0' <= digits[0] <= '9'
    requires !HasHexPrefix(digits) && ParseDigits(digits, 10) == Some(v)
    ensures ParseInt("-" + digits) == Some(-v)
  {
    var neg := "-" + digits;
    assert !IsWhiteSpace(neg[0]);
    assert TrimStart(neg) == neg;
    assert neg[1..] == digits;
  }

  /** The key a parsed number turns into reads back as that number. */
  lemma NumberKeyParsesBack(n: int)
    ensures ParseInt(NumberKey(Some(n))) == Some(n)
  {
    var m: nat := if n < 0 then -n else n;
    var digits := Decimal(m);
    ParseDigitsOfDecimal(m);
    if n < 0 {
      assert NumberKey(Some(n)) == "-" + digits;
      ParseIntOfNegated(digits, m);
    } else {
      assert NumberKey(Some(n)) == digits;
      ParseIntOfDigits(digits, m);
    }
  }

  /** For an account number in canonical decimal form, the key the widget
      looks up (`String(parseInt(s))`) is the string itself. */
  lemma CanonicalKeyRoundTrip(s: string)
    requires IsCanonicalDecimal(s)
    ensures ParseInt(s) == Some(DigitsValue(s, 10))
    ensures NumberKey(ParseInt(s)) == s
  {
    DigitsValueOfCanonical(s);
    assert !HasHexPrefix(s);
    DigitRunStops(s, 10);
    assert DigitRun(s, 10) == |s|;
    assert s[..|s|] == s;
    ParseIntOfDigits(s, DigitsValue(s, 10));
  }
}
