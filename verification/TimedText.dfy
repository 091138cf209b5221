/**
  Timed-text payloads: entity decoding, attribute lookup and the element scan, with the round trips
  that tie them to the renderings they read.
 */
module TimedText {
  import opened Wrappers
  import opened Numbers
  import opened Text

  datatype YoutubeError = ResourceLimit | Schema

  // ----- integers in text

  function DigitValue(c: char, radix: nat): Option<nat> {
    var n :=
      if '0' <= c <= '9' then c as int - '0' as int
      else if 'a' <= c <= 'z' then c as int - 'a' as int + 10
      else if 'A' <= c <= 'Z' then c as int - 'A' as int + 10
      else radix;
    if n < radix then Some(n) else None
  }

  function DigitsValue(s: string, radix: nat): Option<nat> {
    if s == [] then Some(0)
    else
      match (DigitsValue(s[..|s| - 1], radix), DigitValue(s[|s| - 1], radix))
      case (Some(high), Some(low)) => Some(high * radix + low)
      case _ => None
  }

  /** `from_str_radix` of an unsigned type: an optional plus, at least one digit, no overflow. */
  function ParseUnsigned(s: string, radix: nat, max: nat): Option<nat> {
    var digits := if s != [] && s[0] == '+' then s[1..] else s;
    if digits == [] then None
    else
      match DigitsValue(digits, radix)
      case Some(n) => if n <= max then Some(n) else None
      case None => None
  }

  function Digit(n: nat): char
    requires n < 10
  {
    '0' + n as char
  }

  /** The decimal form of a number. */
  function Decimal(n: nat): (s: string)
    ensures s != [] && forall i :: 0 <= i < |s| ==> '0' <= s[i] <= '9'
  {
    if n < 10 then [Digit(n)] else Decimal(n / 10) + [Digit(n % 10)]
  }

  lemma {:induction false} DecimalValue(n: nat)
    ensures DigitsValue(Decimal(n), 10) == Some(n)
  {
    if n < 10 {
      assert [Digit(n)][..0] == [];
    } else {
      DecimalValue(n / 10);
      assert Decimal(n)[..|Decimal(n)| - 1] == Decimal(n / 10);
    }
  }

  lemma DecimalParses(n: nat, max: nat)
    requires n <= max
    ensures ParseUnsigned(Decimal(n), 10, max) == Some(n)
  {
    DecimalValue(n);
  }

  // ----- entities

  const ENTITY_WINDOW: nat := 10

  function ScalarOf(n: Option<nat>): Option<char> {
    if n.Some? && (n.value < 0xD800 || 0xE000 <= n.value < 0x11_0000) then Some(n.value as char) else None
  }

  function TokenValue(token: string): Option<char> {
    if |token| >= 2 && token[0] == '#' && (token[1] == 'x' || token[1] == 'X')
    then ScalarOf(ParseUnsigned(token[2..], 16, U32_MAX))
    else if |token| >= 1 && token[0] == '#' then ScalarOf(ParseUnsigned(token[1..], 10, U32_MAX))
    else if token == "amp" then Some('&')
    else if token == "lt" then Some('<')
    else if token == "gt" then Some('>')
    else if token == "quot" then Some('"')
    else if token == "apos" then Some('\'')
    else None
  }

  datatype Entity = Entity(value: char, length: nat)

  /** The entity at the head of a text that starts with an ampersand. */
  function EntityAt(after: string): (r: Option<Entity>)
    requires after != [] && after[0] == '&'
    ensures r.Some? ==> 0 < r.value.length <= |after|
  {
    match Find(after, ";")
    case None => None
    case Some(i) =>
      if Bytes(after[..i]) > ENTITY_WINDOW then None
      else
        match TokenValue(after[1..i])
        case None => None
        case Some(c) => Some(Entity(c, i + 1))
  }

  /** Decoding, one character or one entity at a time. */
  function Decode(s: string): string
    decreases |s|
  {
    if s == [] then ""
    else if s[0] != '&' then [s[0]] + Decode(s[1..])
    else
      match EntityAt(s)
      case Some(e) => [e.value] + Decode(s[e.length..])
      case None => "&" + Decode(s[1..])
  }

  lemma {:induction false} DecodePlain(a: string, b: string)
    requires Lacks(a, '&')
    ensures Decode(a + b) == a + Decode(b)
    decreases |a|
  {
    if a == [] {
      assert a + b == b;
    } else {
      assert (a + b)[1..] == a[1..] + b;
      DecodePlain(a[1..], b);
    }
  }

  /** One round of the loop: the text before an ampersand, then its replacement. */
  lemma DecodeRound(rest: string, amp: nat)
    requires amp < |rest| && rest[amp] == '&' && Lacks(rest[..amp], '&')
    ensures var e := EntityAt(rest[amp..]);
            Decode(rest) == if e.Some? then rest[..amp] + ([e.value.value] + Decode(rest[amp..][e.value.length..]))
                            else rest[..amp] + ("&" + Decode(rest[amp..][1..]))
  {
    DecodePlain(rest[..amp], rest[amp..]);
    assert rest == rest[..amp] + rest[amp..];
  }

  /** `decode_entities`: copies up to each ampersand, then replaces or keeps it. */
  method DecodeEntities(input: string) returns (output: string)
    ensures output == Decode(input)
  {
    output := "";
    var rest := input;
    while true
      invariant output + Decode(rest) == Decode(input)
      decreases |rest|
    {
      var amp := Find(rest, "&");
      FindChar(rest, '&');
      if amp.None? {
        DecodePlain(rest, "");
        assert rest + "" == rest;
        return output + rest;
      }
      var after := rest[amp.value..];
      DecodeRound(rest, amp.value);
      var entity := EntityAt(after);
      var piece := rest[..amp.value] + if entity.Some? then [entity.value.value] else "&";
      var next := if entity.Some? then after[entity.value.length..] else after[1..];
      Reassociated(output, rest[..amp.value], if entity.Some? then [entity.value.value] else "&", Decode(next));
      output, rest := output + piece, next;
    }
  }

  lemma Reassociated(a: string, b: string, c: string, d: string)
    ensures a + (b + (c + d)) == a + (b + c) + d
  {
  }

  function EscapeChar(c: char): string {
    if c == '&' then "&amp;"
    else if c == '<' then "&lt;"
    else if c == '>' then "&gt;"
    else if c == '"' then "&quot;"
    else if c == '\'' then "&apos;"
    else [c]
  }

  function Escape(s: string): string {
    if s == [] then "" else EscapeChar(s[0]) + Escape(s[1..])
  }

  /** A short entity is read whole, whatever follows it. */
  lemma EntityRead(token: string, c: char, rest: string)
    requires |token| <= 9 && Bytes(token) == |token| && Lacks(token, ';') && TokenValue(token) == Some(c)
    ensures EntityAt("&" + token + ";" + rest) == Some(Entity(c, |token| + 2))
    ensures Decode("&" + token + ";" + rest) == [c] + Decode(rest)
  {
    var text := "&" + token + ";" + rest;
    assert text[..|token| + 1] == "&" + token;
    BytesConcat("&", token);
    assert "&"[..0] == "";
    FindAfter("&" + token, ";", rest);
    assert text[1..|token| + 1] == token;
    assert text[|token| + 2..] == rest;
  }

  lemma {:induction false} AsciiBytes(s: string)
    requires forall i :: 0 <= i < |s| ==> s[i] < 0x80 as char
    ensures Bytes(s) == |s|
  {
    if s != [] { AsciiBytes(s[..|s| - 1]); }
  }

  lemma NamedRead(token: string, rest: string)
    requires token in {"amp", "lt", "gt", "quot", "apos"}
    ensures Decode("&" + token + ";" + rest) == [TokenValue(token).value] + Decode(rest)
  {
    AsciiBytes(token);
    EntityRead(token, TokenValue(token).value, rest);
  }

  function EntityName(c: char): Option<string> {
    if c == '&' then Some("amp") else if c == '<' then Some("lt") else if c == '>' then Some("gt")
    else if c == '"' then Some("quot") else if c == '\'' then Some("apos") else None
  }

  lemma EscapeCharIs(c: char)
    ensures EntityName(c).Some? ==> EscapeChar(c) == "&" + EntityName(c).value + ";" && TokenValue(EntityName(c).value) == Some(c)
  {
    assert "amp" != "lt" && "quot"[0] != "apos"[0];
  }

  lemma EscapedCharDecodes(c: char, rest: string)
    ensures Decode(EscapeChar(c) + rest) == [c] + Decode(rest)
  {
    EscapeCharIs(c);
    if EntityName(c).Some? {
      NamedRead(EntityName(c).value, rest);
    } else {
      DecodePlain([c], rest);
    }
  }

  /** Decoding inverts the five-entity escape on every string, and decodes nothing twice. */
  lemma {:induction false} DecodeInvertsEscape(s: string)
    ensures Decode(Escape(s)) == s
  {
    if s != [] {
      EscapedCharDecodes(s[0], Escape(s[1..]));
      DecodeInvertsEscape(s[1..]);
    }
  }

  lemma {:induction false} DecimalLength(n: nat, k: nat, power: nat)
    requires k >= 1 && power == Power10(k) && n < power
    ensures |Decimal(n)| <= k
  {
    if n >= 10 {
      assert power == 10 * Power10(k - 1);
      DecimalLength(n / 10, k - 1, Power10(k - 1));
    }
  }

  function Power10(k: nat): nat { if k == 0 then 1 else 10 * Power10(k - 1) }

  /** Every character has a decimal entity inside the window, and it decodes to that character. */
  lemma NumericEntityDecodes(c: char, rest: string)
    ensures Decode("&" + ("#" + Decimal(c as nat)) + ";" + rest) == [c] + Decode(rest)
  {
    var n := c as nat;
    var token := "#" + Decimal(n);
    DecimalLength(n, 7, 10_000_000);
    AsciiBytes(token);
    DecimalParses(n, U32_MAX);
    assert token[1..] == Decimal(n);
    EntityRead(token, c, rest);
  }

  // ----- hexadecimal entities

  function HexDigit(n: nat, upper: bool): char
    requires n < 16
  {
    if n < 10 then '0' + n as char else (if upper then 'A' else 'a') + (n - 10) as char
  }

  /** The hexadecimal form of a number, in either case. */
  function Hexadecimal(n: nat, upper: bool): (s: string)
    ensures s != [] && forall i :: 0 <= i < |s| ==> '0' <= s[i] <= '9' || 'a' <= s[i] <= 'f' || 'A' <= s[i] <= 'F'
  {
    if n < 16 then [HexDigit(n, upper)] else Hexadecimal(n / 16, upper) + [HexDigit(n % 16, upper)]
  }

  lemma HexDigitValue(n: nat, upper: bool)
    requires n < 16
    ensures DigitValue(HexDigit(n, upper), 16) == Some(n)
  {
  }

  lemma DigitsAppend(s: string, c: char, high: nat, low: nat, radix: nat)
    requires DigitsValue(s, radix) == Some(high) && DigitValue(c, radix) == Some(low)
    ensures DigitsValue(s + [c], radix) == Some(high * radix + low)
  {
    assert (s + [c])[..|s|] == s;
  }

  lemma {:induction false} HexadecimalValue(n: nat, upper: bool)
    ensures DigitsValue(Hexadecimal(n, upper), 16) == Some(n)
  {
    HexDigitValue(n % 16, upper);
    if n < 16 {
      DigitsAppend([], HexDigit(n, upper), 0, n, 16);
      assert [] + [HexDigit(n, upper)] == Hexadecimal(n, upper);
    } else {
      HexadecimalValue(n / 16, upper);
      DigitsAppend(Hexadecimal(n / 16, upper), HexDigit(n % 16, upper), n / 16, n % 16, 16);
    }
  }

  function Power16(k: nat): nat { if k == 0 then 1 else 16 * Power16(k - 1) }

  lemma {:induction false} HexadecimalLength(n: nat, upper: bool, k: nat)
    requires k >= 1 && n < Power16(k)
    ensures |Hexadecimal(n, upper)| <= k
  {
    if n >= 16 { HexadecimalLength(n / 16, upper, k - 1); }
  }

  lemma HexadecimalToken(c: char, x: char, digits: string)
    requires (x == 'x' || x == 'X') && digits != [] && digits[0] != '+' && DigitsValue(digits, 16) == Some(c as nat)
    ensures TokenValue(['#', x] + digits) == Some(c)
  {
    assert (['#', x] + digits)[2..] == digits;
  }

  lemma HexadecimalShort(c: char, upper: bool)
    ensures |Hexadecimal(c as nat, upper)| <= 6
  {
    assert Power16(3) == 0x1000;
    assert Power16(6) == 16 * (16 * (16 * Power16(3)));
    HexadecimalLength(c as nat, upper, 6);
  }

  /** Every character has hexadecimal entities inside the window, with either x and in either case, and each decodes to it. */
  lemma HexadecimalEntityDecodes(c: char, x: char, upper: bool, rest: string)
    requires x == 'x' || x == 'X'
    ensures Decode("&" + (['#', x] + Hexadecimal(c as nat, upper)) + ";" + rest) == [c] + Decode(rest)
  {
    var digits := Hexadecimal(c as nat, upper);
    HexadecimalShort(c, upper);
    HexadecimalValue(c as nat, upper);
    HexadecimalToken(c, x, digits);
    AsciiBytes(['#', x] + digits);
    EntityRead(['#', x] + digits, c, rest);
  }

  // ----- what is not an entity stays

  /**
    An ampersand stays as it is before a name that is none of the five, before anything longer than
    the window, and where no semicolon follows.
   */
  lemma UnrecognizedStays(token: string, rest: string)
    requires Lacks(token, ';')
    requires rest == [] || (rest[0] == ';' && (|token| > 9 || ((token == [] || token[0] != '#') && token !in {"amp", "lt", "gt", "quot", "apos"})))
    ensures Decode("&" + token + rest) == "&" + Decode(token + rest)
  {
    var text := "&" + token + rest;
    assert text[1..] == token + rest;
    if rest == [] {
      FindChar(text, ';');
    } else {
      assert rest == ";" + rest[1..];
      assert text == "&" + token + ";" + rest[1..];
      FindAfter("&" + token, ";", rest[1..]);
      assert text[..|token| + 1] == "&" + token;
      BytesAtLeastChars("&" + token);
      assert text[1..|token| + 1] == token;
    }
  }
}
