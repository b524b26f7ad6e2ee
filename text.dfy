/**
 * The JavaScript string operations the portal's pages rely on, over `seq<char>`:
 * `trim`, `toLowerCase` (ASCII only), `includes`, decimal `String(n)`,
 * `Number(s)`, `parseInt(s)` and the anchored quote strip `s.replace(/^"|"$/g, '')`.
 */
module Text {
  import opened Options

  // ---------------------------------------------------------------- whitespace and trim

  /** The characters `String.prototype.trim` removes (the common ones; see README). */
  predicate IsSpace(c: char) {
    c == ' ' || c == '\t' || c == '\n' || c == '\r' || c == '\U{000B}' || c == '\U{000C}'
    || c == '\U{00A0}' || c == '\U{FEFF}' || c == '\U{2028}' || c == '\U{2029}'
  }

  predicate AllSpace(s: string) {
    forall k :: 0 <= k < |s| ==> IsSpace(s[k])
  }

  /** The number of whitespace characters at the front of `s`. */
  function LeadingSpaces(s: string): (n: nat)
    ensures n <= |s|
    ensures AllSpace(s[..n])
    ensures n < |s| ==> !IsSpace(s[n])
  {
    if |s| > 0 && IsSpace(s[0]) then
      var m := LeadingSpaces(s[1..]);
      assert s[1..][..m] == s[1..m + 1];
      1 + m
    else 0
  }

  /** The number of whitespace characters at the back of `s`. */
  function TrailingSpaces(s: string): (n: nat)
    ensures n <= |s|
    ensures AllSpace(s[|s| - n..])
    ensures n < |s| ==> !IsSpace(s[|s| - n - 1])
  {
    if |s| > 0 && IsSpace(s[|s| - 1]) then
      var m := TrailingSpaces(s[..|s| - 1]);
      assert s[..|s| - 1][|s| - 1 - m..] == s[|s| - 1 - m..|s| - 1];
      1 + m
    else 0
  }

  /** `s.trimStart()` */
  function TrimStart(s: string): string {
    s[LeadingSpaces(s)..]
  }

  /** `s.trim()`: what is left has no whitespace at either end. */
  function Trim(s: string): (r: string)
    ensures |r| <= |s|
    ensures r != [] ==> !IsSpace(r[0]) && !IsSpace(r[|r| - 1])
  {
    var t := TrimStart(s);
    var r := t[..|t| - TrailingSpaces(t)];
    assert r != [] ==> r[0] == t[0];
    r
  }

  /** `trim` keeps one contiguous slice of its input and cuts only whitespace around it. */
  lemma TrimSlice(s: string)
    ensures exists i, j {:trigger s[i..j]} ::
      (0 <= i <= j <= |s| && Trim(s) == s[i..j] && AllSpace(s[..i]) && AllSpace(s[j..]))
  {
    var i := LeadingSpaces(s);
    var t := s[i..];
    var j := i + |t| - TrailingSpaces(t);
    assert t[..|t| - TrailingSpaces(t)] == s[i..j];
    assert t[|t| - TrailingSpaces(t)..] == s[j..];
    assert Trim(s) == s[i..j];
  }

  /** `!s.trim()` holds exactly when `s` is nothing but whitespace. */
  lemma TrimEmptyIffBlank(s: string)
    ensures Trim(s) == [] <==> AllSpace(s)
  {
    var i := LeadingSpaces(s);
    var t := s[i..];
    var n := TrailingSpaces(t);
    assert Trim(s) == t[..|t| - n];
    if Trim(s) == [] {
      assert |t| == n;
      assert t[|t| - n..] == t;
      assert s[..i] == s;
    }
    if AllSpace(s) {
      assert i == |s|;
      assert t == [];
    }
  }

  /** Text without whitespace at its ends is its own trim. */
  lemma TrimIdentity(s: string)
    requires s != [] ==> !IsSpace(s[0]) && !IsSpace(s[|s| - 1])
    ensures Trim(s) == s
  {
    assert LeadingSpaces(s) == 0;
    assert TrailingSpaces(s) == 0;
  }

  /** Trimming twice is trimming once. */
  lemma TrimIdempotent(s: string)
    ensures Trim(Trim(s)) == Trim(s)
  {
    TrimIdentity(Trim(s));
  }

  // ---------------------------------------------------------------- case and search

  /** ASCII `toLowerCase` of one character. */
  function Lower(c: char): (r: char)
    ensures 'A' <= c <= 'Z' ==> r as int == c as int + 32
    ensures !('A' <= c <= 'Z') ==> r == c
  {
    if 'A' <= c <= 'Z' then (c as int + 32) as char else c
  }

  /** ASCII `s.toLowerCase()` */
  function LowerStr(s: string): (r: string)
    ensures |r| == |s|
    ensures forall k :: 0 <= k < |s| ==> r[k] == Lower(s[k])
  {
    seq(|s|, k requires 0 <= k < |s| => Lower(s[k]))
  }

  /** `s.includes(sub)`: some window of `s` spells `sub`. */
  function Includes(s: string, sub: string): bool
  {
    sub <= s || (|s| > 0 && Includes(s[1..], sub))
  }

  /** `includes` as a position: it holds exactly when `sub` starts at some index of `s`. */
  lemma {:induction false} IncludesAt(s: string, sub: string)
    ensures Includes(s, sub) <==> exists i {:trigger s[i..]} :: 0 <= i <= |s| && sub <= s[i..]
  {
    if sub <= s {
      assert s[0..] == s;
    } else if |s| > 0 {
      IncludesAt(s[1..], sub);
      if Includes(s[1..], sub) {
        var i :| 0 <= i <= |s[1..]| && sub <= s[1..][i..];
        assert s[1..][i..] == s[i + 1..];
      }
      if exists i {:trigger s[i..]} :: 0 <= i <= |s| && sub <= s[i..] {
        var i :| 0 <= i <= |s| && sub <= s[i..];
        assert i != 0;
        assert s[1..][i - 1..] == s[i..];
      }
    }
  }

  /** A string without the first character of `sub` does not include `sub`. */
  lemma {:induction false} NotIncludesWithoutFirst(s: string, sub: string)
    requires sub != [] && sub[0] !in s
    ensures !Includes(s, sub)
  {
    if |s| > 0 {
      assert s[0] in s;
      assert forall c :: c in s[1..] ==> c in s;
      NotIncludesWithoutFirst(s[1..], sub);
    }
  }

  /** Every string includes the empty string. */
  lemma IncludesEmpty(s: string)
    ensures Includes(s, "")
  {
  }

  // ---------------------------------------------------------------- decimal numbers

  predicate IsDigit(c: char) { '0' <= c <= '9' }

  predicate AllDigits(s: string) {
    forall k :: 0 <= k < |s| ==> IsDigit(s[k])
  }

  function DigitChar(d: nat): (c: char)
    requires d < 10
    ensures IsDigit(c)
  {
    ('0' as int + d) as char
  }

  function DigitValue(c: char): (d: nat)
    requires IsDigit(c)
    ensures d < 10
    ensures DigitChar(d) == c
  {
    c as int - '0' as int
  }

  /** The value of a run of decimal digits, most significant first. */
  function DigitsValue(s: string): nat
    requires AllDigits(s)
  {
    if |s| == 0 then 0 else DigitsValue(s[..|s| - 1]) * 10 + DigitValue(s[|s| - 1])
  }

  /** `String(n)` for a non-negative integer. */
  function NatToString(n: nat): (r: string)
    ensures |r| >= 1 && AllDigits(r)
  {
    if n < 10 then [DigitChar(n)] else NatToString(n / 10) + [DigitChar(n % 10)]
  }

  /** `String(n)`, or `${n}` in a template literal. */
  function IntToString(n: int): (r: string)
    ensures |r| >= 1
    ensures n >= 0 <==> IsDigit(r[0])
    ensures n < 0 <==> r[0] == '-'
    ensures IsDigit(r[|r| - 1])
  {
    if n < 0 then "-" + NatToString(-n) else NatToString(n)
  }

  /** After an optional leading `-`, `String(n)` is all digits. */
  lemma IntToStringChars(n: int)
    ensures forall k :: 0 <= k < |IntToString(n)| ==> IsDigit(IntToString(n)[k]) || IntToString(n)[k] == '-'
  {
    var s := IntToString(n);
    if n < 0 {
      forall k | 0 < k < |s| ensures IsDigit(s[k]) {
        assert s[k] == NatToString(-n)[k - 1];
      }
    }
  }

  lemma {:induction false} NatToStringRoundTrip(n: nat)
    ensures DigitsValue(NatToString(n)) == n
  {
    if n >= 10 {
      NatToStringRoundTrip(n / 10);
      var s := NatToString(n);
      assert s[..|s| - 1] == NatToString(n / 10);
    }
  }

  /** `Number(s)` for the decimal-integer strings this model covers; `None` is `NaN`.
      The text is trimmed first and the empty text reads as 0, as in JavaScript. */
  function JsNumber(s: string): (r: Option<int>)
    ensures r.None? ==> Trim(s) != [] && !AllDigits(Trim(s))
    ensures r.Some? && r.value < 0 ==> |Trim(s)| > 1 && Trim(s)[0] == '-'
    ensures r.Some? && Trim(s) != [] ==> AllDigits(Trim(s)[1..])
  {
    var t := Trim(s);
    if t == [] then Some(0)
    else if (t[0] == '-' || t[0] == '+') && |t| > 1 && AllDigits(t[1..]) then
      Some(if t[0] == '-' then -(DigitsValue(t[1..]) as int) else DigitsValue(t[1..]))
    else if AllDigits(t) then Some(DigitsValue(t))
    else None
  }

  /** `Number(String(n)) === n` */
  lemma NumberOfIntToString(n: int)
    ensures JsNumber(IntToString(n)) == Some(n)
  {
    var s := IntToString(n);
    TrimIdentity(s);
    assert Trim(s) == s;
    if n < 0 {
      var d := NatToString(-n);
      assert s[1..] == d;
      NatToStringRoundTrip(-n);
      assert DigitsValue(s[1..]) == -n;
    } else {
      assert s == NatToString(n) && AllDigits(s);
      assert s[0] != '-' && s[0] != '+';
      NatToStringRoundTrip(n);
    }
  }

  /** The length of the run of digits at the front of `s`. */
  function DigitPrefix(s: string): (n: nat)
    ensures n <= |s| && AllDigits(s[..n])
    ensures n < |s| ==> !IsDigit(s[n])
  {
    if |s| > 0 && IsDigit(s[0]) then
      var m := DigitPrefix(s[1..]);
      assert s[1..][..m] == s[1..m + 1];
      1 + m
    else 0
  }

  /** `parseInt(s)` in base 10: leading whitespace, an optional sign, then the longest
      run of digits; `None` (`NaN`) when there is no digit. */
  function JsParseInt(s: string): (r: Option<int>)
    ensures r.Some? && r.value < 0 ==> |TrimStart(s)| > 1 && TrimStart(s)[0] == '-'
    ensures r.Some? ==>
      |TrimStart(s)| > 0 && (IsDigit(TrimStart(s)[0]) || (|TrimStart(s)| > 1 && IsDigit(TrimStart(s)[1])))
    ensures |TrimStart(s)| > 0 && !IsDigit(TrimStart(s)[0]) && TrimStart(s)[0] != '-' && TrimStart(s)[0] != '+'
      ==> r.None?
  {
    var t := TrimStart(s);
    var negative := |t| > 0 && t[0] == '-';
    var u := if |t| > 0 && (t[0] == '-' || t[0] == '+') then t[1..] else t;
    var n := DigitPrefix(u);
    if n == 0 then None
    else Some(if negative then -(DigitsValue(u[..n]) as int) else DigitsValue(u[..n]))
  }

  lemma DigitPrefixAll(s: string)
    requires AllDigits(s)
    ensures DigitPrefix(s) == |s|
  {
  }

  /** `parseInt(String(n)) === n` */
  lemma ParseIntOfIntToString(n: int)
    ensures JsParseInt(IntToString(n)) == Some(n)
  {
    var s := IntToString(n);
    assert LeadingSpaces(s) == 0;
    assert TrimStart(s) == s;
    if n < 0 {
      var d := NatToString(-n);
      assert s[1..] == d;
      DigitPrefixAll(d);
      assert d[..|d|] == d;
      NatToStringRoundTrip(-n);
      assert DigitsValue(d[..DigitPrefix(d)]) == -n;
    } else {
      assert s == NatToString(n);
      assert s[0] != '-' && s[0] != '+';
      DigitPrefixAll(s);
      assert s[..|s|] == s;
      NatToStringRoundTrip(n);
    }
  }

  /** `parseInt` stops at the first non-digit: `parseInt("12abc") === 12`. */
  lemma ParseIntStopsAtNonDigit(d: string, r: string)
    requires d != [] && AllDigits(d) && (r == [] || !IsDigit(r[0]))
    ensures JsParseInt(d + r) == Some(DigitsValue(d))
  {
    var t := d + r;
    assert t[0] == d[0];
    assert LeadingSpaces(t) == 0;
    assert TrimStart(t) == t;
    DigitPrefixAppend(d, r);
    assert t[..|d|] == d;
  }

  /** The digit run of `d + r` is exactly `d` when `r` does not start with a digit. */
  lemma {:induction false} DigitPrefixAppend(d: string, r: string)
    requires AllDigits(d) && (r == [] || !IsDigit(r[0]))
    ensures DigitPrefix(d + r) == |d|
  {
    if d == [] {
      assert d + r == r;
    } else {
      assert (d + r)[0] == d[0];
      assert (d + r)[1..] == d[1..] + r;
      assert AllDigits(d[1..]) by {
        forall k | 0 <= k < |d[1..]| ensures IsDigit(d[1..][k]) {
          assert d[1..][k] == d[k + 1];
        }
      }
      DigitPrefixAppend(d[1..], r);
    }
  }

  // ---------------------------------------------------------------- quote stripping

  /** `t.replace(/^"|"$/g, '')`: one `"` at the very start and one at the very end go;
      a lone `"` is matched by the first alternative and leaves nothing. */
  function StripQuotes(t: string): (r: string)
    ensures |t| - 2 <= |r| <= |t|
    ensures |r| == |t| <==> t == [] || (t[0] != '"' && t[|t| - 1] != '"')
  {
    var a := if |t| > 0 && t[0] == '"' then t[1..] else t;
    if |a| > 0 && a[|a| - 1] == '"' then a[..|a| - 1] else a
  }

  /** What stays is a contiguous slice of the input. */
  lemma StripQuotesSlice(t: string)
    ensures var r := StripQuotes(t);
      (|t| > 0 && t[0] == '"' ==> r == t[1..1 + |r|])
      && (!(|t| > 0 && t[0] == '"') ==> r == t[..|r|])
  {
  }

  /** Only quote characters are removed, and only from the ends. */
  lemma StripQuotesRemovesOnlyQuotes(t: string)
    ensures var r := StripQuotes(t);
      (|t| > 0 && t[0] == '"' ==> r == t[1..1 + |r|] && (|r| + 1 < |t| ==> t[|t| - 1] == '"'))
      && (!(|t| > 0 && t[0] == '"') ==> r == t[..|r|] && (|r| < |t| ==> t[|t| - 1] == '"'))
  {
  }

  /** A token that neither starts nor ends with `"` is left as it is. */
  lemma StripQuotesUnquoted(t: string)
    requires t == [] || (t[0] != '"' && t[|t| - 1] != '"')
    ensures StripQuotes(t) == t
  {
  }

  /** `"s"` strips to `s`, whatever `s` holds. */
  lemma StripQuotesQuoted(s: string)
    ensures StripQuotes("\"" + s + "\"") == s
  {
    var t := "\"" + s + "\"";
    assert t[1..] == s + "\"";
    assert (s + "\"")[..|s|] == s;
  }

  /** The edge cases: a lone quote strips to nothing, and stripping is not idempotent. */
  lemma StripQuotesEdgeCases()
    ensures StripQuotes("\"") == ""
    ensures StripQuotes("\"\"x\"\"") == "\"x\""
    ensures StripQuotes(StripQuotes("\"\"x\"\"")) == "x"
  {
    StripQuotesQuoted("\"x\"");
    assert "\"" + "\"x\"" + "\"" == "\"\"x\"\"";
    StripQuotesQuoted("x");
    assert "\"" + "x" + "\"" == "\"x\"";
  }
}
