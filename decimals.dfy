/** Exact decimal numbers read from the text of TISS value elements
    (tiss_parser.py `_dec`). Values are Dafny `real`s, so sums and products
    are exact. A numeral is what Python's `Decimal` accepts without exponent,
    special values or underscores: an optional sign, then digits with at most
    one '.', and at least one digit. */
module Decimals {
  import opened Wrappers
  import opened Text

  function Pow10(n: nat): (r: nat)
    ensures r >= 1
  {
    if n == 0 then 1 else 10 * Pow10(n - 1)
  }

  /** Index of the first `c` in `s`, or `|s|` when there is none. */
  function IndexOf(s: string, c: char): (i: nat)
    ensures i <= |s|
    ensures i < |s| ==> s[i] == c
    ensures forall k :: 0 <= k < i ==> s[k] != c
  {
    if s == [] then 0 else if s[0] == c then 0 else 1 + IndexOf(s[1..], c)
  }

  /** The value of `ip.fp` for digit runs `ip` and `fp`. */
  function PointValue(ip: string, fp: string): real
    requires AllDigits(ip) && AllDigits(fp)
  {
    DigitsValue(ip) as real + DigitsValue(fp) as real / Pow10(|fp|) as real
  }

  /** An unsigned numeral: digits, optionally a '.' and more digits, with at
      least one digit in all ("12", "12.", ".5", "12.50"). */
  function ParseUnsigned(s: string): Option<real>
  {
    var dot := IndexOf(s, '.');
    var ip := s[..dot];
    var fp := if dot < |s| then s[dot + 1..] else [];
    if AllDigits(ip) && AllDigits(fp) && |ip| + |fp| > 0 then Some(PointValue(ip, fp))
    else None
  }

  /** Python's `Decimal(s)` restricted to plain numerals with an optional sign;
      `None` where `Decimal` raises. */
  function ParseDecimal(s: string): Option<real>
  {
    if s != [] && (s[0] == '+' || s[0] == '-') then
      match ParseUnsigned(s[1..])
      case Some(v) => Some(if s[0] == '-' then -v else v)
      case None => None
    else ParseUnsigned(s)
  }

  /** `_dec`: no text or empty text is zero; otherwise the stripped text with
      every ',' read as '.', parsed exactly. `None` is the failure `Decimal`
      raises. */
  function Dec(txt: Option<string>): Option<real>
  {
    if txt.None? || txt.value == "" then Some(0.0)
    else ParseDecimal(ReplaceChar(Strip(txt.value), ',', '.'))
  }

  /** Text made only of whitespace is not empty, so `_dec` does not map it to
      zero: it is a parse failure. */
  lemma {:induction false} DecBlankFails(s: string)
    requires s != "" && AllSpace(s)
    ensures Dec(Some(s)) == None
  {
    StripEmptyIff(s);
    assert ReplaceChar(Strip(s), ',', '.') == [];
  }

  /** A numeral written with a decimal comma reads as its exact value: no
      rounding, no binary floating point. */
  lemma {:induction false} DecCommaNumeral(ip: string, fp: string)
    requires AllDigits(ip) && AllDigits(fp) && ip != []
    ensures Dec(Some(ip + "," + fp)) == Some(PointValue(ip, fp))
  {
    var s := ip + "," + fp;
    AllDigitsNoSpace(ip);
    AllDigitsNoSpace(fp);
    assert !IsSpace(s[0]) by { assert s[0] == ip[0]; }
    NoSpaceEndsStrip(s);
    var t := ReplaceChar(s, ',', '.');
    assert t == ip + "." + fp by {
      assert forall k :: 0 <= k < |t| ==> t[k] == (ip + "." + fp)[k];
    }
    PointNumeral(ip, fp);
  }

  /** The same text with '.' in place of ',' reads the same: `_dec` does not
      tell the two separators apart. */
  lemma {:induction false} DecCommaAsPeriod(s: string)
    ensures Dec(Some(s)) == Dec(Some(ReplaceChar(s, ',', '.')))
  {
    var s' := ReplaceChar(s, ',', '.');
    if s == "" {
      assert s' == "";
    } else {
      assert s' != "";
      StripReplace(s);
      ReplaceTwice(Strip(s));
    }
  }

  /** Replacing ',' a second time changes nothing. */
  lemma {:induction false} ReplaceTwice(t: string)
    ensures ReplaceChar(ReplaceChar(t, ',', '.'), ',', '.') == ReplaceChar(t, ',', '.')
  {
  }

  /** Text mixing both separators, such as "1.234,56", is a failure, not a
      number. */
  lemma {:induction false} DecThousandsSeparatorFails()
    ensures Dec(Some("1.234,56")) == None
  {
    var s := "1.234,56";
    assert s[0] == '1' && s[1] == '.' && s[5] == ',' && s[7] == '6';
    var t := ReplaceChar(s, ',', '.');
    TwoPointsFail(t, 1, 5);
    DecUnpadded(s);
  }

  // ---- helpers ----

  /** Text without surrounding whitespace is read after replacing ','. */
  lemma {:induction false} DecUnpadded(s: string)
    requires s != [] && !IsSpace(s[0]) && !IsSpace(s[|s| - 1])
    ensures Dec(Some(s)) == ParseDecimal(ReplaceChar(s, ',', '.'))
  {
    NoSpaceEndsStrip(s);
  }

  /** A text with two '.' is not a numeral. */
  lemma {:induction false} TwoPointsFail(t: string, i: nat, j: nat)
    requires i < j < |t| && t[i] == '.' && t[j] == '.' && t[0] != '+' && t[0] != '-'
    ensures ParseDecimal(t) == None
  {
    var d := IndexOf(t, '.');
    var fp := t[d + 1..];
    assert fp[j - d - 1] == '.';
  }

  lemma {:induction false} AllDigitsNoSpace(s: string)
    requires AllDigits(s)
    ensures forall k :: 0 <= k < |s| ==> !IsSpace(s[k])
  {
  }

  /** A text that neither starts nor ends with whitespace is its own strip. */
  lemma {:induction false} NoSpaceEndsStrip(s: string)
    requires s != [] && !IsSpace(s[0]) && !IsSpace(s[|s| - 1])
    ensures Strip(s) == s
  {
  }

  /** `ip.fp` parses to its point value. */
  lemma {:induction false} PointNumeral(ip: string, fp: string)
    requires AllDigits(ip) && AllDigits(fp) && ip != []
    ensures ParseDecimal(ip + "." + fp) == Some(PointValue(ip, fp))
  {
    var t := ip + "." + fp;
    assert IndexOf(t, '.') == |ip| by {
      IndexOfPrefix(ip, fp);
    }
    assert t[..|ip|] == ip;
    assert t[|ip| + 1..] == fp;
    assert t[0] == ip[0];
  }

  lemma {:induction false} IndexOfPrefix(ip: string, fp: string)
    requires AllDigits(ip)
    ensures IndexOf(ip + "." + fp, '.') == |ip|
  {
    var t := ip + "." + fp;
    assert t[|ip|] == '.';
    assert forall k :: 0 <= k < |ip| ==> t[k] == ip[k];
  }

  /** Replacing ',' by '.' commutes with stripping, because neither is
      whitespace. */
  lemma {:induction false} StripReplace(s: string)
    ensures Strip(ReplaceChar(s, ',', '.')) == ReplaceChar(Strip(s), ',', '.')
  {
    TrimLeftReplace(s);
    TrimRightReplace(TrimLeft(s));
  }

  lemma {:induction false} TrimLeftReplace(s: string)
    ensures TrimLeft(ReplaceChar(s, ',', '.')) == ReplaceChar(TrimLeft(s), ',', '.')
  {
    if s != [] {
      var r := ReplaceChar(s, ',', '.');
      assert r[1..] == ReplaceChar(s[1..], ',', '.');
      assert IsSpace(r[0]) == IsSpace(s[0]);
      if IsSpace(s[0]) {
        TrimLeftReplace(s[1..]);
      }
    }
  }

  lemma {:induction false} TrimRightReplace(s: string)
    ensures TrimRight(ReplaceChar(s, ',', '.')) == ReplaceChar(TrimRight(s), ',', '.')
  {
    if s != [] {
      var r := ReplaceChar(s, ',', '.');
      assert r[..|r| - 1] == ReplaceChar(s[..|s| - 1], ',', '.');
      assert IsSpace(r[|r| - 1]) == IsSpace(s[|s| - 1]);
      if IsSpace(s[|s| - 1]) {
        TrimRightReplace(s[..|s| - 1]);
      }
    }
  }
}
