/**
 * Beatmap ids as the difficulty-switch handler receives them, and their conversion
 * with `parseInt(id, 10)`: skip leading white space, take one optional sign, then
 * read the longest run of decimal digits; no digits gives NaN (here None). The
 * conversion never fails, and trailing characters after the digits are ignored.
 */
module BeatmapIds {
  import opened Wrappers

  /** The id the popup hands over: either its text or a number. */
  datatype RawBeatmapId = TextId(text: string) | NumberId(value: int)

  predicate IsDigit(c: char)
  {
    '0' <= c <= '9'
  }

  predicate AllDigits(s: string)
  {
    forall k :: 0 <= k < |s| ==> IsDigit(s[k])
  }

  /** The white space and line terminators that parseInt skips before the number. */
  predicate IsJsWhiteSpace(c: char)
  {
    || c == '\t' || c == '\n' || c == '\U{B}' || c == '\U{C}' || c == '\r'
    || c == ' ' || c == '\U{A0}' || c == '\U{1680}' || ('\U{2000}' <= c <= '\U{200A}')
    || c == '\U{2028}' || c == '\U{2029}' || c == '\U{202F}' || c == '\U{205F}'
    || c == '\U{3000}' || c == '\U{FEFF}'
  }

  function DigitChar(d: nat): (c: char)
    requires d < 10
    ensures IsDigit(c) && c as int - '0' as int == d
  {
    ('0' as int + d) as char
  }

  function DigitValue(c: char): (d: nat)
    requires IsDigit(c)
    ensures d < 10 && DigitChar(d) == c
  {
    c as int - '0' as int
  }

  /** The input with its leading white space removed. */
  function TrimStart(s: string): (r: string)
    ensures |r| <= |s| && r == s[|s| - |r|..]
    ensures forall k :: 0 <= k < |s| - |r| ==> IsJsWhiteSpace(s[k])
    ensures r == [] || !IsJsWhiteSpace(r[0])
    decreases |s|
  {
    if s != [] && IsJsWhiteSpace(s[0]) then TrimStart(s[1..]) else s
  }

  /** The longest prefix made of decimal digits. */
  function DigitPrefix(s: string): (r: string)
    ensures |r| <= |s| && r == s[..|r|]
    ensures AllDigits(r)
    ensures |r| == |s| || !IsDigit(s[|r|])
    decreases |s|
  {
    if s != [] && IsDigit(s[0]) then [s[0]] + DigitPrefix(s[1..]) else []
  }

  /** The base-10 value of a digit string, most significant digit first. */
  function DecimalValue(ds: string): nat
    requires AllDigits(ds)
    decreases |ds|
  {
    if ds == [] then 0 else 10 * DecimalValue(ds[..|ds| - 1]) + DigitValue(ds[|ds| - 1])
  }

  /** The text after one optional leading sign. */
  function Unsigned(t: string): string
  {
    if t != [] && (t[0] == '+' || t[0] == '-') then t[1..] else t
  }

  /** parseInt on text that no longer starts with white space. */
  function ParseTrimmed(t: string): Option<int>
  {
    var ds := DigitPrefix(Unsigned(t));
    if ds == [] then None
    else
      var magnitude: int := DecimalValue(ds);
      Some(if t[0] == '-' then -magnitude else magnitude)
  }

  /** `parseInt(s, 10)`; None stands for NaN. */
  function ParseInt(s: string): Option<int>
  {
    ParseTrimmed(TrimStart(s))
  }

  /** The decimal digits of a natural number, without leading zeros. */
  function NatToDecimal(n: nat): (s: string)
    ensures s != [] && AllDigits(s)
    ensures s[0] == '0' ==> n == 0
    decreases n
  {
    if n < 10 then [DigitChar(n)] else NatToDecimal(n / 10) + [DigitChar(n % 10)]
  }

  /** `String(n)` for an integer (values below 10^21, where JavaScript prints plain digits). */
  function IntToDecimal(n: int): (s: string)
    ensures s != [] && (s[0] == '-' || IsDigit(s[0]))
  {
    if n < 0 then "-" + NatToDecimal(-n) else NatToDecimal(n)
  }

  /** `String(id)`: the text of the id, as the page compares and stores it. */
  function IdText(raw: RawBeatmapId): string
  {
    match raw
    case TextId(s) => s
    case NumberId(n) => IntToDecimal(n)
  }

  lemma {:induction false} DecimalValueOfNatToDecimal(n: nat)
    ensures DecimalValue(NatToDecimal(n)) == n
    decreases n
  {
    var s := NatToDecimal(n);
    if n >= 10 {
      DecimalValueOfNatToDecimal(n / 10);
      assert s[..|s| - 1] == NatToDecimal(n / 10);
    }
  }

  lemma {:induction false} DigitPrefixOfDigits(ds: string, rest: string)
    requires AllDigits(ds)
    requires rest == [] || !IsDigit(rest[0])
    ensures DigitPrefix(ds + rest) == ds
    decreases |ds|
  {
    if ds == [] {
      assert ds + rest == rest;
    } else {
      assert (ds + rest)[1..] == ds[1..] + rest;
      DigitPrefixOfDigits(ds[1..], rest);
    }
  }

  lemma {:induction false} TrimStartSkipsWhiteSpace(ws: string, t: string)
    requires forall k :: 0 <= k < |ws| ==> IsJsWhiteSpace(ws[k])
    requires t == [] || !IsJsWhiteSpace(t[0])
    ensures TrimStart(ws + t) == t
    decreases |ws|
  {
    if ws == [] {
      assert ws + t == t;
    } else {
      assert (ws + t)[1..] == ws[1..] + t;
      TrimStartSkipsWhiteSpace(ws[1..], t);
    }
  }

  /** Rendering an integer and parsing it back gives the integer. */
  lemma {:induction false} ParseIntOfIntToDecimal(n: int)
    ensures ParseInt(IntToDecimal(n)) == Some(n)
  {
    var m: nat := if n < 0 then -n else n;
    var ds := NatToDecimal(m);
    DecimalValueOfNatToDecimal(m);
    if n < 0 {
      ParseIntReadsLeadingDigits("", "-", ds, "");
      assert "" + ("-" + (ds + "")) == IntToDecimal(n);
    } else {
      ParseIntReadsLeadingDigits("", "", ds, "");
      assert "" + ("" + (ds + "")) == IntToDecimal(n);
    }
  }

  /** The parse of trimmed text, once its unsigned part is known to start with the digits `ds`. */
  lemma ParseTrimmedOfDigits(t: string, ds: string)
    requires t != [] && ds != [] && AllDigits(ds)
    requires DigitPrefix(Unsigned(t)) == ds
    ensures var magnitude: int := DecimalValue(ds);
      ParseTrimmed(t) == Some(if t[0] == '-' then -magnitude else magnitude)
  {
  }

  /**
   * White space, an optional sign, a non-empty run of digits and anything that does not
   * start with a digit parse to the signed value of the digits.
   */
  lemma {:induction false} ParseIntReadsLeadingDigits(ws: string, sign: string, ds: string, rest: string)
    requires forall k :: 0 <= k < |ws| ==> IsJsWhiteSpace(ws[k])
    requires sign == "" || sign == "+" || sign == "-"
    requires ds != [] && AllDigits(ds)
    requires rest == [] || !IsDigit(rest[0])
    ensures var magnitude: int := DecimalValue(ds);
      ParseInt(ws + (sign + (ds + rest))) == Some(if sign == "-" then -magnitude else magnitude)
  {
    var u := ds + rest;
    var t := sign + u;
    assert t[0] == if sign == "" then ds[0] else sign[0];
    assert TrimStart(ws + t) == t by {
      TrimStartSkipsWhiteSpace(ws, t);
    }
    assert Unsigned(t) == u by {
      if sign != "" {
        assert t[|sign|..] == u;
      }
    }
    assert DigitPrefix(u) == ds by {
      DigitPrefixOfDigits(ds, rest);
    }
    ParseTrimmedOfDigits(t, ds);
  }

  /** parseInt yields NaN exactly when no digit follows the white space and the optional sign. */
  lemma ParseIntNaNExactly(s: string)
    ensures ParseInt(s).None? <==>
      (var u := Unsigned(TrimStart(s)); u == [] || !IsDigit(u[0]))
  {
  }

  /**
   * convertToNumericBeatmapId: never fails; a numeric id comes back unchanged, and
   * text gives the value of its leading integer, or None (NaN).
   */
  function ConvertToNumericBeatmapId(raw: RawBeatmapId): (r: Option<int>)
    ensures raw.NumberId? ==> r == Some(raw.value)
    ensures r == ParseInt(IdText(raw))
  {
    if raw.NumberId? then
      ParseIntOfIntToDecimal(raw.value);
      ParseInt(IdText(raw))
    else
      ParseInt(IdText(raw))
  }
}
