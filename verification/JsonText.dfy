/**
 JSON scalars as the artifact writer prints and reads them: string escapes (section 7 of RFC 8259, non-ASCII
 characters left as they are) and integers (`json.dumps(..., ensure_ascii=False)` and `json.loads`).
 */
module JsonText {
  import opened Prelude

  function Hex(d: nat): (c: char)
    requires d < 16
  {
    if d < 10 then '0' + d as char else 'a' + (d - 10) as char
  }

  function HexValue(c: char): (d: Option<nat>)
    ensures d.Some? ==> d.value < 16
  {
    if '0' <= c <= '9' then Some((c - '0') as int)
    else if 'a' <= c <= 'f' then Some((c - 'a') as int + 10)
    else if 'A' <= c <= 'F' then Some((c - 'A') as int + 10)
    else None
  }

  /** One character inside a JSON string. */
  function Escape(c: char): (s: string)
    ensures s != ""
  {
    if c == '"' then "\\\""
    else if c == '\\' then "\\\\"
    else if c == '\n' then "\\n"
    else if c == '\r' then "\\r"
    else if c == '\t' then "\\t"
    else if c as int == 8 then "\\b"
    else if c as int == 12 then "\\f"
    else if c as int < 32 then ['\\', 'u', '0', '0', Hex(c as int / 16), Hex(c as int % 16)]
    else [c]
  }

  function EscapeAll(s: string): (t: string) {
    if s == "" then "" else Escape(s[0]) + EscapeAll(s[1..])
  }

  function Quote(s: string): (t: string) {
    "\"" + EscapeAll(s) + "\""
  }

  function Short(c: char): (d: Option<char>) {
    if c == '"' || c == '\\' || c == '/' then Some(c)
    else if c == 'n' then Some('\n')
    else if c == 'r' then Some('\r')
    else if c == 't' then Some('\t')
    else if c == 'b' then Some(8 as char)
    else if c == 'f' then Some(12 as char)
    else None
  }

  function Four(t: string): (code: Option<nat>)
    requires |t| >= 4
  {
    var a, b, c, d := HexValue(t[0]), HexValue(t[1]), HexValue(t[2]), HexValue(t[3]);
    if a.None? || b.None? || c.None? || d.None? then None
    else Some(a.value * 4096 + b.value * 256 + c.value * 16 + d.value)
  }

  /** The rest of a string after its opening quote; surrogate escapes are not read here. */
  function Unescape(t: string): (s: Option<string>) {
    if t == "" then None
    else if t == "\"" then Some("")
    else if t[0] == '"' || t[0] as int < 32 then None
    else if t[0] != '\\' then
      var rest := Unescape(t[1..]);
      if rest.None? then None else Some([t[0]] + rest.value)
    else if |t| < 2 then None
    else if t[1] == 'u' then
      if |t| < 6 then None
      else
        var code, rest := Four(t[2..]), Unescape(t[6..]);
        if code.None? || code.value >= 0xD800 || rest.None? then None else Some([code.value as char] + rest.value)
    else
      var c, rest := Short(t[1]), Unescape(t[2..]);
      if c.None? || rest.None? then None else Some([c.value] + rest.value)
  }

  function Unquote(t: string): (s: Option<string>) {
    if t != "" && t[0] == '"' then Unescape(t[1..]) else None
  }

  lemma HexRoundTrip(d: nat)
    requires d < 16
    ensures HexValue(Hex(d)) == Some(d)
  {
  }

  lemma ControlRoundTrip(c: char, rest: string)
    requires c as int < 32
    ensures var t := ['\\', 'u', '0', '0', Hex(c as int / 16), Hex(c as int % 16)] + rest;
            Unescape(t) == if Unescape(rest).None? then None else Some([c] + Unescape(rest).value)
  {
    hide Hex, HexValue, Short;
    var t := ['\\', 'u', '0', '0', Hex(c as int / 16), Hex(c as int % 16)] + rest;
    HexRoundTrip(c as int / 16);
    HexRoundTrip(c as int % 16);
    assert HexValue('0') == Some(0) by {
      HexRoundTrip(0);
      HexOfZero();
    }
    assert t[6..] == rest && t[2..][0] == '0' && t[2..][1] == '0' && t[2..][2] == Hex(c as int / 16)
           && t[2..][3] == Hex(c as int % 16);
    assert c as int / 16 * 16 + c as int % 16 == c as int;
  }

  lemma HexOfZero()
    ensures Hex(0) == '0'
  {
  }

  lemma EscapeStep(c: char, rest: string)
    requires rest != ""
    ensures Unescape(Escape(c) + rest) == if Unescape(rest).None? then None else Some([c] + Unescape(rest).value)
  {
    hide Hex, HexValue, Four, Unescape;
    if c in {'"', '\\', '\n', '\r', '\t'} || c as int == 8 || c as int == 12 {
      assert Escape(c) == ['\\', Escape(c)[1]] && Escape(c)[1] != 'u' && Short(Escape(c)[1]) == Some(c);
      ShortStep(Escape(c)[1], c, rest);
    } else if c as int < 32 {
      ControlRoundTrip(c, rest);
    } else {
      PlainStep(c, rest);
    }
  }

  lemma ShortStep(e: char, c: char, rest: string)
    requires rest != "" && e != 'u' && Short(e) == Some(c)
    ensures Unescape(['\\', e] + rest) == if Unescape(rest).None? then None else Some([c] + Unescape(rest).value)
  {
    hide Hex, HexValue, Four, Short;
    var t := ['\\', e] + rest;
    assert t[2..] == rest && t[0] == '\\' && t[1] == e;
  }

  lemma PlainStep(c: char, rest: string)
    requires rest != "" && c as int >= 32 && c != '"' && c != '\\'
    ensures Unescape([c] + rest) == if Unescape(rest).None? then None else Some([c] + Unescape(rest).value)
  {
    hide Hex, HexValue, Four, Short;
    var t := [c] + rest;
    assert t[1..] == rest && t[0] == c && t != "\"";
  }

  lemma {:induction false} EscapedRoundTrip(s: string)
    ensures Unescape(EscapeAll(s) + "\"") == Some(s)
  {
    hide Escape;
    if s == "" {
      assert EscapeAll(s) + "\"" == "\"";
    } else {
      EscapedRoundTrip(s[1..]);
      var rest := EscapeAll(s[1..]) + "\"";
      EscapeStep(s[0], rest);
      assert EscapeAll(s) + "\"" == Escape(s[0]) + rest;
      assert [s[0]] + s[1..] == s;
    }
  }

  /** Reading a quoted string gives back the string. */
  lemma QuoteRoundTrip(s: string)
    ensures Unquote(Quote(s)) == Some(s)
  {
    hide EscapeAll, Unescape;
    EscapedRoundTrip(s);
    assert Quote(s)[1..] == EscapeAll(s) + "\"";
  }

  // ---------------------------------------------------------------- integers

  function Digit(d: nat): (c: char)
    requires d < 10
  {
    '0' + d as char
  }

  function Numeral(n: nat): (s: string)
    ensures s != ""
    ensures forall i :: 0 <= i < |s| ==> '0' <= s[i] <= '9'
  {
    if n < 10 then [Digit(n)] else Numeral(n / 10) + [Digit(n % 10)]
  }

  function IntText(n: int): (s: string) {
    if n < 0 then "-" + Numeral(-n) else Numeral(n)
  }

  predicate AllDigits(s: string) {
    s != "" && forall i :: 0 <= i < |s| ==> '0' <= s[i] <= '9'
  }

  function NumeralValue(s: string): (n: nat)
    requires forall i :: 0 <= i < |s| ==> '0' <= s[i] <= '9'
  {
    if s == "" then 0 else NumeralValue(Front(s)) * 10 + (Last(s) - '0') as int
  }

  /** A JSON integer: no leading zeros, an optional minus sign. */
  function ReadInt(t: string): (n: Option<int>) {
    var digits := if t != "" && t[0] == '-' then t[1..] else t;
    if !AllDigits(digits) || (|digits| > 1 && digits[0] == '0') then None
    else Some(if t[0] == '-' then -(NumeralValue(digits) as int) else NumeralValue(digits))
  }

  lemma {:induction false} NumeralRoundTrip(n: nat)
    ensures NumeralValue(Numeral(n)) == n
    ensures |Numeral(n)| > 1 ==> Numeral(n)[0] != '0'
  {
    if n < 10 {
      assert Front(Numeral(n)) == "";
    } else {
      NumeralRoundTrip(n / 10);
      assert Front(Numeral(n)) == Numeral(n / 10);
      assert Numeral(n)[0] == Numeral(n / 10)[0];
      assert |Numeral(n / 10)| == 1 ==> Numeral(n / 10) == [Digit(n / 10)];
    }
  }

  lemma IntRoundTrip(n: int)
    ensures ReadInt(IntText(n)) == Some(n)
  {
    hide Numeral, NumeralValue;
    NumeralRoundTrip(if n < 0 then -n else n);
    if n < 0 {
      assert IntText(n)[1..] == Numeral(-n);
    }
  }
}
