/**
 Standard base64 (section 4 of RFC 4648), as the watch envelope carries records (`encode_record`,
 orchestrator/watch.py).
 */
module Base64 {
  import opened Prelude
  import opened Bytes

  type Sextet = s: nat | s < 64

  const PAD := '='

  function Letter(s: Sextet): (c: char) {
    if s < 26 then 'A' + s as char
    else if s < 52 then 'a' + (s - 26) as char
    else if s < 62 then '0' + (s - 52) as char
    else if s == 62 then '+' else '/'
  }

  /** The sextet of a letter of the alphabet. */
  function Index(c: char): (s: Option<Sextet>) {
    if 'A' <= c <= 'Z' then Some((c - 'A') as int)
    else if 'a' <= c <= 'z' then Some((c - 'a') as int + 26)
    else if '0' <= c <= '9' then Some((c - '0') as int + 52)
    else if c == '+' then Some(62) else if c == '/' then Some(63) else None
  }

  lemma LetterIndex(s: Sextet)
    ensures Index(Letter(s)) == Some(s) && Letter(s) != PAD
  {
  }

  function Encode(bytes: seq<Byte>): (text: string) {
    if bytes == [] then ""
    else if |bytes| == 1 then [Letter(bytes[0] / 4), Letter(bytes[0] % 4 * 16), PAD, PAD]
    else if |bytes| == 2 then
      [Letter(bytes[0] / 4), Letter(bytes[0] % 4 * 16 + bytes[1] / 16), Letter(bytes[1] % 16 * 4), PAD]
    else
      [Letter(bytes[0] / 4), Letter(bytes[0] % 4 * 16 + bytes[1] / 16), Letter(bytes[1] % 16 * 4 + bytes[2] / 64),
       Letter(bytes[2] % 64)]
      + Encode(bytes[3..])
  }

  function Triple(p: Sextet, q: Sextet, r: Sextet, s: Sextet): (bytes: seq<Byte>)
    ensures |bytes| == 3
  {
    [p * 4 + q / 16, q % 16 * 16 + r / 4, r % 4 * 64 + s]
  }

  /** Four letters to at most three bytes; padding only closes the text. */
  function Decode(text: string): (bytes: Option<seq<Byte>>) {
    if text == "" then Some([])
    else if |text| < 4 then None
    else
      var a, b, c, d := Index(text[0]), Index(text[1]), Index(text[2]), Index(text[3]);
      if a.None? || b.None? then None
      else
        if text[2] == PAD && text[3] == PAD && |text| == 4 then Some(Triple(a.value, b.value, 0, 0)[..1])
        else if c.None? then None
        else if text[3] == PAD && |text| == 4 then Some(Triple(a.value, b.value, c.value, 0)[..2])
        else if d.None? then None
        else
          var rest := Decode(text[4..]);
          if rest.None? then None else Some(Triple(a.value, b.value, c.value, d.value) + rest.value)
  }

  lemma Split(a: Byte, b: Byte, c: Byte)
    ensures Triple(a / 4, a % 4 * 16 + b / 16, b % 16 * 4 + c / 64, c % 64) == [a, b, c]
  {
  }

  lemma DecodeFour(p: Sextet, q: Sextet, r: Sextet, s: Sextet, rest: string)
    ensures var text := [Letter(p), Letter(q), Letter(r), Letter(s)] + rest;
            Decode(text) == if Decode(rest).None? then None
                            else Some(Triple(p, q, r, s) + Decode(rest).value)
  {
    hide Letter, Index, Triple;
    LetterIndex(p);
    LetterIndex(q);
    LetterIndex(r);
    LetterIndex(s);
    var text := [Letter(p), Letter(q), Letter(r), Letter(s)] + rest;
    assert text[4..] == rest;
  }

  lemma DecodeTail(p: Sextet, q: Sextet, r: Sextet)
    ensures Decode([Letter(p), Letter(q), PAD, PAD]) == Some(Triple(p, q, 0, 0)[..1])
    ensures Decode([Letter(p), Letter(q), Letter(r), PAD]) == Some(Triple(p, q, r, 0)[..2])
  {
    hide Letter, Index, Triple;
    LetterIndex(p);
    LetterIndex(q);
    LetterIndex(r);
    assert Index(PAD) == None by {
      PadIsNoLetter();
    }
  }

  lemma PadIsNoLetter()
    ensures Index(PAD) == None
  {
  }

  /** Decoding gives back the very bytes. */
  lemma {:induction false} RoundTrip(bytes: seq<Byte>)
    ensures Decode(Encode(bytes)) == Some(bytes)
  {
    hide Letter, Index, Decode, Triple;
    if bytes == [] {
      NothingDecodes();
    } else if |bytes| == 1 {
      assert Triple(bytes[0] / 4, bytes[0] % 4 * 16, 0, 0) == [bytes[0], 0, 0] by {
        Split(bytes[0], 0, 0);
      }
      DecodeTail(bytes[0] / 4, bytes[0] % 4 * 16, 0);
      assert Triple(bytes[0] / 4, bytes[0] % 4 * 16, 0, 0)[..1] == bytes;
    } else if |bytes| == 2 {
      assert Triple(bytes[0] / 4, bytes[0] % 4 * 16 + bytes[1] / 16, bytes[1] % 16 * 4, 0) ==
             [bytes[0], bytes[1], 0] by {
        Split(bytes[0], bytes[1], 0);
      }
      DecodeTail(bytes[0] / 4, bytes[0] % 4 * 16 + bytes[1] / 16, bytes[1] % 16 * 4);
      assert Triple(bytes[0] / 4, bytes[0] % 4 * 16 + bytes[1] / 16, bytes[1] % 16 * 4, 0)[..2] == bytes;
    } else {
      var a, b, c := bytes[0], bytes[1], bytes[2];
      Split(a, b, c);
      RoundTrip(bytes[3..]);
      DecodeFour(a / 4, a % 4 * 16 + b / 16, b % 16 * 4 + c / 64, c % 64, Encode(bytes[3..]));
      assert bytes == [a, b, c] + bytes[3..];
    }
  }

  lemma NothingDecodes()
    ensures Decode("") == Some([])
  {
  }
}
