/** Lot numbers on the reconciliation side: the lot read from a file name
    (app.py `extract_lote_from_filename`, the pattern `(?i)lote\s*[-_]*\s*(\d+)`)
    and the normal form in which lots from the XML, the file name and the
    payment statement are compared (`_norm_lote`). */
module Lote {
  import opened Wrappers
  import opened Text
  import opened Decimals

  // ---- the file-name pattern ----

  predicate IsDash(c: char) {
    c == '-' || c == '_'
  }

  predicate AllDashes(s: string) {
    forall k :: 0 <= k < |s| ==> IsDash(s[k])
  }

  /** `c` is the letter `lower` in either case. */
  predicate SameLetter(c: char, lower: char)
    requires 'a' <= lower <= 'z'
  {
    c == lower || c as int == lower as int - 32
  }

  /** The word "lote", in any mix of cases, starts at `i`. */
  predicate LoteWordAt(s: string, i: nat) {
    i + 4 <= |s|
    && SameLetter(s[i], 'l') && SameLetter(s[i + 1], 'o')
    && SameLetter(s[i + 2], 't') && SameLetter(s[i + 3], 'e')
  }

  /** `p` holds on every character of `s[from..to]`. */
  predicate RunOf(s: string, from: nat, to: nat, p: char -> bool) {
    from <= to <= |s| && forall m :: from <= m < to ==> p(s[m])
  }

  /** The pattern matches at `i` with the separator runs `s[i + 4..a]`
      (`\s*`), `s[a..b]` (`[-_]*`) and `s[b..c]` (`\s*`), and the group is
      `r`, the whole run of digits from `c` (the greedy `\d+` stops only at a
      non-digit or at the end). */
  ghost predicate MatchSplit(s: string, i: nat, a: nat, b: nat, c: nat, r: string) {
    && LoteWordAt(s, i)
    && i + 4 <= a
    && RunOf(s, i + 4, a, IsSpace) && RunOf(s, a, b, IsDash) && RunOf(s, b, c, IsSpace)
    && r != [] && AllDigits(r) && c + |r| <= |s| && s[c..c + |r|] == r
    && (c + |r| == |s| || !IsDigit(s[c + |r|]))
  }

  /** The pattern matches at `i` and its group is `r`. */
  ghost predicate MatchesAt(s: string, i: nat, r: string) {
    exists a, b, c :: MatchSplit(s, i, a, b, c, r)
  }

  /** The first position at or after `j` where `p` fails, `|s|` if none. */
  function SkipWhile(s: string, j: nat, p: char -> bool): (k: nat)
    requires j <= |s|
    ensures j <= k <= |s|
    ensures forall m :: j <= m < k ==> p(s[m])
    ensures k == |s| || !p(s[k])
    decreases |s| - j
  {
    if j == |s| || !p(s[j]) then j else SkipWhile(s, j + 1, p)
  }

  /** The greedy match at `i`, if the pattern matches there. */
  function MatchAt(s: string, i: nat): Option<string> {
    if !LoteWordAt(s, i) then None
    else
      var a := SkipWhile(s, i + 4, IsSpace);
      var b := SkipWhile(s, a, IsDash);
      var c := SkipWhile(s, b, IsSpace);
      var e := SkipWhile(s, c, IsDigit);
      if c < e then Some(s[c..e]) else None
  }

  /** `re.search` from position `i`: the match at the leftmost position that
      has one. */
  function SearchFrom(s: string, i: nat): Option<string>
    decreases |s| - i
  {
    if i + 4 > |s| then None
    else if MatchAt(s, i).Some? then MatchAt(s, i)
    else SearchFrom(s, i + 1)
  }

  /** `extract_lote_from_filename`: `None` for a name that is not a string
      (`None` here) or has no match, else the digit group of the leftmost
      match. */
  function ExtractLoteFromFilename(name: Option<string>): Option<string> {
    match name
    case None => None
    case Some(s) => SearchFrom(s, 0)
  }

  /** A position where `p` fails, after a run where it holds, is where
      `SkipWhile` stops. */
  lemma {:induction false} SkipWhileAt(s: string, j: nat, k: nat, p: char -> bool)
    requires RunOf(s, j, k, p)
    requires k == |s| || !p(s[k])
    ensures SkipWhile(s, j, p) == k
  {
  }

  /** The greedy match is a match of the pattern. */
  lemma {:induction false} MatchAtSound(s: string, i: nat)
    requires MatchAt(s, i).Some?
    ensures MatchesAt(s, i, MatchAt(s, i).value)
  {
    var a := SkipWhile(s, i + 4, IsSpace);
    var b := SkipWhile(s, a, IsDash);
    var c := SkipWhile(s, b, IsSpace);
    var e := SkipWhile(s, c, IsDigit);
    var r := s[c..e];
    assert s[c..c + |r|] == r;
    assert MatchSplit(s, i, a, b, c, r);
  }

  /** Every match of the pattern is the greedy one: no separator character
      is a digit, so the digits start where the three skips end. */
  lemma {:induction false} MatchAtComplete(s: string, i: nat, r: string)
    requires MatchesAt(s, i, r)
    ensures MatchAt(s, i) == Some(r)
  {
    var a: nat, b: nat, c: nat :| MatchSplit(s, i, a, b, c, r);
    assert r != [] && c + |r| <= |s| && s[c..c + |r|] == r;
    assert IsDigit(s[c]) by { assert s[c] == s[c..c + |r|][0]; }
    var c' := SkipToDigits(s, i, a, b, c);
    assert c' == c;
    assert RunOf(s, c, c + |r|, IsDigit) by {
      forall m | c <= m < c + |r| ensures IsDigit(s[m]) { assert s[m] == s[c..c + |r|][m - c]; }
    }
    SkipWhileAt(s, c, c + |r|, IsDigit);
  }

  /** The three skips of `MatchAt` end at `c` when the separator is
      `s[i + 4..a]`, `s[a..b]`, `s[b..c]` and a digit follows. */
  lemma {:induction false} SkipToDigits(s: string, i: nat, a: nat, b: nat, c: nat) returns (c': nat)
    requires i + 4 <= a && RunOf(s, i + 4, a, IsSpace) && RunOf(s, a, b, IsDash) && RunOf(s, b, c, IsSpace)
    requires c < |s| && IsDigit(s[c])
    ensures c' == SkipWhile(s, SkipWhile(s, SkipWhile(s, i + 4, IsSpace), IsDash), IsSpace)
    ensures c' == c
  {
    var a' := SkipWhile(s, i + 4, IsSpace);
    if a < b {
      SkipWhileAt(s, i + 4, a, IsSpace);
      if b < c {
        SkipWhileAt(s, a, b, IsDash);
      } else {
        SkipWhileAt(s, a, c, IsDash);
      }
      SkipWhileAt(s, SkipWhile(s, a, IsDash), c, IsSpace);
    } else {
      SkipWhileAt(s, i + 4, c, IsSpace);
      SkipWhileAt(s, c, c, IsDash);
      SkipWhileAt(s, c, c, IsSpace);
    }
    c' := c;
  }

  /** `SearchFrom` finds the leftmost match at or after `i`. */
  lemma {:induction false} SearchFromSpec(s: string, i: nat)
    ensures SearchFrom(s, i).Some? ==>
      exists p :: i <= p && MatchAt(s, p) == SearchFrom(s, i)
                  && forall q :: i <= q < p ==> MatchAt(s, q).None?
    ensures SearchFrom(s, i).None? ==> forall q :: i <= q ==> MatchAt(s, q).None?
    decreases |s| - i
  {
    if i + 4 > |s| {
      forall q | i <= q ensures MatchAt(s, q).None? {
        assert !LoteWordAt(s, q);
      }
    } else if MatchAt(s, i).None? {
      SearchFromSpec(s, i + 1);
      if SearchFrom(s, i).Some? {
        var p :| i + 1 <= p && MatchAt(s, p) == SearchFrom(s, i + 1)
                 && forall q :: i + 1 <= q < p ==> MatchAt(s, q).None?;
        assert forall q :: i <= q < p ==> MatchAt(s, q).None?;
      }
    }
  }

  /** The lot read from a file name is the digit group of a match of the
      pattern, and no match starts further left; when there is none, no
      position of the name matches. The group is never empty. */
  lemma {:induction false} ExtractLoteSpec(s: string)
    ensures ExtractLoteFromFilename(Some(s)).Some? ==>
      var r := ExtractLoteFromFilename(Some(s)).value;
      && r != [] && AllDigits(r)
      && exists i: nat :: MatchesAt(s, i, r) && forall q: nat, r' :: q < i ==> !MatchesAt(s, q, r')
    ensures ExtractLoteFromFilename(Some(s)).None? <==> forall q: nat, r' :: !MatchesAt(s, q, r')
  {
    SearchFromSpec(s, 0);
    if SearchFrom(s, 0).Some? {
      var p :| 0 <= p && MatchAt(s, p) == SearchFrom(s, 0)
               && forall q :: 0 <= q < p ==> MatchAt(s, q).None?;
      MatchAtSound(s, p);
      forall q: nat, r' | q < p ensures !MatchesAt(s, q, r') {
        if MatchesAt(s, q, r') { MatchAtComplete(s, q, r'); }
      }
    } else {
      forall q: nat, r' ensures !MatchesAt(s, q, r') {
        if MatchesAt(s, q, r') { MatchAtComplete(s, q, r'); }
      }
    }
  }

  /** "Lote_0481.xml" yields "0481": case is ignored and the digits are kept
      as written. */
  lemma {:induction false} ExtractLoteExample()
    ensures ExtractLoteFromFilename(Some("Lote_0481.xml")) == Some("0481")
  {
    var s := "Lote_0481.xml";
    assert LoteWordAt(s, 0);
    assert SkipWhile(s, 4, IsSpace) == 4;
    assert SkipWhile(s, 5, IsDash) == 5;
    assert SkipWhile(s, 5, IsSpace) == 5;
    assert SkipWhile(s, 9, IsDigit) == 9;
    assert SkipWhile(s, 5, IsDigit) == 9;
    assert s[5..9] == "0481";
  }

  // ---- the normal form ----

  /** Python's `str(int(f))` for an integer value. */
  function IntToString(n: int): (r: string)
    ensures r != []
  {
    if n < 0 then "-" + NatToString(-n) else NatToString(n)
  }

  /** `_norm_lote`, on the text `str(v)` of a cell (`None` for a missing
      cell). */
  function NormLote(v: Option<string>): Option<string> {
    match v
    case None => None
    case Some(raw) => Some(NormStripped(Strip(raw)))
  }

  /** `_norm_lote` after stripping: a numeral with an integer value becomes
      that integer's text; anything else becomes its digits, or itself when
      it has no digit. */
  function NormStripped(s: string): string {
    match ParseDecimal(s)
    case Some(f) => if f == f.Floor as real then IntToString(f.Floor) else NormText(s)
    case None => NormText(s)
  }

  /** The fallback of `_norm_lote`: the digits, or the text itself. */
  function NormText(s: string): string {
    var digits := DigitsOf(s);
    if digits != "" then digits else s
  }

  /** A run of digits parses to its value. */
  lemma {:induction false} ParseDigits(s: string)
    requires s != [] && AllDigits(s)
    ensures ParseDecimal(s) == Some(DigitsValue(s) as real)
  {
    assert IndexOf(s, '.') == |s|;
    assert s[..|s|] == s;
  }

  /** A digit run followed by ".0" parses to the run's value. */
  lemma {:induction false} ParsePointZero(s: string)
    requires s != [] && AllDigits(s)
    ensures ParseDecimal(s + ".0") == Some(DigitsValue(s) as real)
  {
    var z := "0";
    PointNumeral(s, z);
    assert s + "." + z == s + ".0";
    PointValueZero(s);
  }

  lemma {:induction false} PointValueZero(s: string)
    requires AllDigits(s)
    ensures PointValue(s, "0") == DigitsValue(s) as real
  {
    assert DigitsValue("0") == 0 by {
      assert "0"[..0] == [];
    }
  }

  /** A numeral with a whole value normalises to that value's text. */
  lemma {:induction false} NormWhole(s: string, n: nat)
    requires ParseDecimal(s) == Some(n as real)
    ensures NormStripped(s) == NatToString(n)
  {
    assert (n as real).Floor == n;
  }

  /** A lot written as digits, with or without leading zeros, normalises to
      its number without leading zeros; so does the same with ".0", the form
      a spreadsheet number takes. */
  lemma {:induction false} NormLoteDigits(s: string)
    requires s != [] && AllDigits(s)
    ensures NormLote(Some(s)) == Some(NatToString(DigitsValue(s)))
    ensures NormLote(Some(s + ".0")) == Some(NatToString(DigitsValue(s)))
  {
    AllDigitsNoSpace(s);
    NoSpaceEndsStrip(s);
    ParseDigits(s);
    NormWhole(s, DigitsValue(s));
    var t := s + ".0";
    assert t[0] == s[0] && t[|t| - 1] == '0';
    NoSpaceEndsStrip(t);
    ParsePointZero(s);
    NormWhole(t, DigitsValue(s));
  }

  /** Leading zeros do not change a lot: "000123", "123" and "123.0" all
      normalise to "123". */
  lemma {:induction false} NormLoteLeadingZeros(z: string, s: string)
    requires forall k :: 0 <= k < |z| ==> z[k] == '0'
    requires Canonical(s)
    ensures NormLote(Some(z + s)) == Some(s)
    ensures NormLote(Some(s + ".0")) == Some(s)
  {
    ZerosValue(z, s);
    NormLoteDigits(z + s);
    NormLoteDigits(s);
    CanonicalRoundTrip(s);
  }

  lemma {:induction false} ZerosValue(z: string, s: string)
    requires forall k :: 0 <= k < |z| ==> z[k] == '0'
    requires AllDigits(s)
    ensures AllDigits(z + s) && DigitsValue(z + s) == DigitsValue(s)
  {
    if z != [] {
      ZerosValue(z[1..], s);
      assert z + s == ['0'] + (z[1..] + s);
      DigitsValueLeadingZero(z[1..] + s);
    } else {
      assert z + s == s;
    }
  }

  /** A canonical lot number is its own normal form. */
  lemma {:induction false} NormLoteCanonical(s: string)
    requires Canonical(s)
    ensures NormLote(Some(s)) == Some(s)
  {
    NormLoteDigits(s);
    CanonicalRoundTrip(s);
  }

  /** A missing cell is the only way to get no lot, and the normal form is
      empty only for a blank text. */
  lemma {:induction false} NormLoteNone(v: Option<string>)
    ensures NormLote(v).None? <==> v.None?
    ensures v.Some? ==> (NormLote(v) == Some("") <==> Strip(v.value) == "")
  {
    if v.Some? {
      var s := Strip(v.value);
      DigitsOfSpec(s);
      if s == "" {
        assert ParseDecimal(s).None? by { assert IndexOf(s, '.') == 0; }
      }
    }
  }

  /** Text that is not a numeral keeps only its digits. */
  lemma {:induction false} NormLoteNonNumeral(raw: string)
    requires ParseDecimal(Strip(raw)).None? && DigitsOf(Strip(raw)) != ""
    ensures NormLote(Some(raw)) == Some(DigitsOf(Strip(raw)))
  {
  }

  /** The normal form is not idempotent: "A0" followed by a canonical
      number (as in "A-007" style codes) keeps its digits, "07", and
      normalising that again drops the zero. */
  lemma {:induction false} NormLoteNotIdempotent(c: char, t: string)
    requires !IsDigit(c) && !IsSpace(c) && c != '.' && c != '+' && c != '-'
    requires Canonical(t)
    ensures NormLote(Some([c, '0'] + t)) == Some(['0'] + t)
    ensures NormLote(Some(['0'] + t)) == Some(t)
  {
    var s := [c, '0'] + t;
    assert s[|s| - 1] == t[|t| - 1];
    NoSpaceEndsStrip(s);
    NotNumeral(s);
    DigitsAfterNonDigit(c, t);
    assert NormStripped(s) == NormText(s);
    assert NormText(s) == ['0'] + t;
    NormLoteLeadingZeros(['0'], t);
  }

  /** A non-digit before a digit run is dropped by `DigitsOf`. */
  lemma {:induction false} DigitsAfterNonDigit(c: char, t: string)
    requires !IsDigit(c) && Canonical(t)
    ensures DigitsOf([c, '0'] + t) == ['0'] + t
  {
    var s := [c, '0'] + t;
    assert s[1..] == ['0'] + t;
    DigitsOfSpec(['0'] + t);
  }

  /** A text whose first character is neither a sign, a digit nor '.' is
      not a numeral. */
  lemma {:induction false} NotNumeral(s: string)
    requires s != [] && !IsDigit(s[0]) && s[0] != '.' && s[0] != '+' && s[0] != '-'
    ensures ParseDecimal(s).None?
  {
    var dot := IndexOf(s, '.');
    assert dot > 0;
    assert !AllDigits(s[..dot]) by { assert s[..dot][0] == s[0]; }
  }
}
