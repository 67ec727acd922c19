/** The helper's JSON string literal for a transcript, and its reading back under
    section 7 of RFC 8259. */
module Quote {
  import opened Bytes
  import opened Options

  const QUOTE: Byte := 34
  const BACKSLASH: Byte := 92
  const LOWER_U: Byte := 117

  function HexDigit(n: nat): Byte
    requires n < 16
  {
    if n < 10 then 48 + n else 87 + n
  }

  function HexValue(b: Byte): Option<nat> {
    if 48 <= b <= 57 then Some(b - 48)
    else if 97 <= b <= 102 then Some(b - 87)
    else if 65 <= b <= 70 then Some(b - 55)
    else None
  }

  /** How one byte is written. */
  function Escaped(c: Byte): seq<Byte> {
    if c == QUOTE || c == BACKSLASH then [BACKSLASH, c]
    else if c < 32 then [BACKSLASH, LOWER_U, 48, 48, HexDigit(c / 16), HexDigit(c % 16)]
    else [c]
  }

  function Body(text: seq<Byte>): seq<Byte> {
    if text == [] then [] else Body(text[..|text| - 1]) + Escaped(text[|text| - 1])
  }

  lemma OneMoreByte(text: seq<Byte>, i: nat)
    requires i < |text|
    ensures Body(text[..i + 1]) == Body(text[..i]) + Escaped(text[i])
  {
    assert text[..i + 1][..i] == text[..i];
  }

  /** One round of the loop of `quote`. */
  method AppendByte(out: seq<Byte>, c: Byte) returns (longer: seq<Byte>)
    ensures longer == out + Escaped(c)
  {
    if c == QUOTE || c == BACKSLASH {
      longer := out + [BACKSLASH, c];
    } else if c < 32 {
      longer := out + [BACKSLASH, LOWER_U, 48, 48, HexDigit(c / 16), HexDigit(c % 16)];
    } else {
      longer := out + [c];
    }
  }

  /** `quote`. */
  method Quote(text: seq<Byte>) returns (out: seq<Byte>)
    ensures out == [QUOTE] + Body(text) + [QUOTE]
    ensures Unquote(out) == Some(text) && (forall b :: b in out ==> b >= 32)
  {
    out := [QUOTE];
    for i := 0 to |text|
      invariant out == [QUOTE] + Body(text[..i])
    {
      OneMoreByte(text, i);
      Regroup([QUOTE], Body(text[..i]), Escaped(text[i]));
      out := AppendByte(out, text[i]);
    }
    assert text[..|text|] == text;
    out := out + [QUOTE];
    QuoteRoundTrip(text);
    NothingRaw(text);
  }

  /** The next character of a string body, and how many bytes it takes; a code
      point above 255 does not come from a byte. */
  function Next(s: seq<Byte>): Option<(Byte, nat)> {
    if s == [] || s[0] < 32 || s[0] == QUOTE then None
    else if s[0] != BACKSLASH then Some((s[0], 1))
    else if |s| >= 2 && s[1] in {QUOTE, BACKSLASH, 47} then Some((s[1], 2))
    else if |s| >= 2 && s[1] == 98 then Some((8, 2))
    else if |s| >= 2 && s[1] == 102 then Some((12, 2))
    else if |s| >= 2 && s[1] == 110 then Some((10, 2))
    else if |s| >= 2 && s[1] == 114 then Some((13, 2))
    else if |s| >= 2 && s[1] == 116 then Some((9, 2))
    else if |s| >= 6 && s[1] == LOWER_U && s[2] == 48 && s[3] == 48 && HexValue(s[4]).Some? && HexValue(s[5]).Some? then
      Some((16 * HexValue(s[4]).value + HexValue(s[5]).value, 6))
    else None
  }

  /** A string body up to its closing quote, which must end the text. */
  function UnquoteBody(s: seq<Byte>): Option<seq<Byte>>
    decreases |s|
  {
    if s == [QUOTE] then Some([])
    else match Next(s)
         case None => None
         case Some((c, n)) =>
           if n > |s| then None
           else match UnquoteBody(s[n..])
                case None => None
                case Some(rest) => Some([c] + rest)
  }

  function Unquote(s: seq<Byte>): Option<seq<Byte>> {
    if s != [] && s[0] == QUOTE then UnquoteBody(s[1..]) else None
  }

  lemma NextEscaped(c: Byte, rest: seq<Byte>)
    ensures Next(Escaped(c) + rest) == Some((c, |Escaped(c)|))
  {
    if c < 32 {
      assert HexValue(HexDigit(c / 16)) == Some(c / 16) && HexValue(HexDigit(c % 16)) == Some(c % 16);
    }
  }

  lemma UnquoteEscaped(c: Byte, rest: seq<Byte>)
    requires UnquoteBody(rest).Some?
    ensures UnquoteBody(Escaped(c) + rest) == Some([c] + UnquoteBody(rest).value)
  {
    NextEscaped(c, rest);
    assert (Escaped(c) + rest)[|Escaped(c)|..] == rest;
    assert Escaped(c) + rest != [QUOTE] by { assert c == QUOTE ==> |Escaped(c)| == 2; assert (Escaped(c) + rest)[0] != QUOTE; }
  }

  lemma Regroup(a: seq<Byte>, b: seq<Byte>, c: seq<Byte>)
    ensures (a + b) + c == a + (b + c)
  {}

  lemma {:induction false} UnquoteAfter(text: seq<Byte>, rest: seq<Byte>)
    requires UnquoteBody(rest).Some?
    ensures UnquoteBody(Body(text) + rest) == Some(text + UnquoteBody(rest).value)
  {
    if text == [] {
      assert Body(text) + rest == rest && text + UnquoteBody(rest).value == UnquoteBody(rest).value;
    } else {
      var before, c := text[..|text| - 1], text[|text| - 1];
      UnquoteEscaped(c, rest);
      UnquoteAfter(before, Escaped(c) + rest);
      Regroup(Body(before), Escaped(c), rest);
      Regroup(before, [c], UnquoteBody(rest).value);
      assert before + [c] == text;
    }
  }

  /** Reading the literal back gives the text, whatever bytes it holds. */
  lemma QuoteRoundTrip(text: seq<Byte>)
    ensures Unquote([QUOTE] + Body(text) + [QUOTE]) == Some(text)
  {
    UnquoteAfter(text, [QUOTE]);
    assert text + [] == text;
    assert ([QUOTE] + Body(text) + [QUOTE])[1..] == Body(text) + [QUOTE];
  }

  /** Nothing below a space is left, so the result stays on one line. */
  lemma {:induction false} NothingRaw(text: seq<Byte>)
    ensures forall b :: b in Body(text) ==> b >= 32
  {
    if text != [] { NothingRaw(text[..|text| - 1]); }
  }
}
