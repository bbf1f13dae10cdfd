/**
 * The credential triple and the text it is stored as. `setJWT` stores
 * `JSON.stringify(tokens)`; `Encode` is that text for a `Tokens` record
 * (keys in declaration order, no white space, JSON string escapes, the
 * integer in decimal). `Decode` reads back exactly the texts of that shape.
 */
module Credentials {
  import opened Wrappers

  /** `expiresAt` is a unix time in seconds. */
  datatype Tokens = Tokens(idToken: string, refreshToken: string, expiresAt: int)

  // ---------------------------------------------------------------- integers

  predicate IsDigit(c: char) {
    '0' <= c <= '9'
  }

  predicate AllDigits(s: string) {
    forall i :: 0 <= i < |s| ==> IsDigit(s[i])
  }

  function DigitChar(d: nat): (c: char)
    requires d < 10
    ensures IsDigit(c)
  {
    (48 + d) as char
  }

  function DigitValue(c: char): nat
    requires IsDigit(c)
  {
    (c as int) - 48
  }

  /**
   * A JSON integer's digit run: one or more digits, and no leading zero
   * unless the run is the single digit `0`.
   */
  predicate JsonDigits(s: string) {
    |s| > 0 && AllDigits(s) && (s[0] != '0' || |s| == 1)
  }

  /** Decimal digits of `n`, most significant first, without leading zeros. */
  function NatText(n: nat): (r: string)
    ensures JsonDigits(r)
    ensures r[0] == '0' <==> n == 0
    decreases n
  {
    if n < 10 then [DigitChar(n)] else NatText(n / 10) + [DigitChar(n % 10)]
  }

  /** The number a string of decimal digits denotes. */
  function DigitsValue(s: string): nat
    requires AllDigits(s)
    decreases |s|
  {
    if |s| == 0 then 0 else DigitsValue(s[..|s| - 1]) * 10 + DigitValue(s[|s| - 1])
  }

  lemma {:induction false} DigitsValueOfNatText(n: nat)
    ensures DigitsValue(NatText(n)) == n
    decreases n
  {
    if n >= 10 {
      var prefix := NatText(n / 10);
      var r := prefix + [DigitChar(n % 10)];
      assert r[..|r| - 1] == prefix;
      DigitsValueOfNatText(n / 10);
    }
  }

  /** `JSON.stringify` of an integer. */
  function IntText(n: int): (r: string)
    ensures |r| > 0 && (r[0] == '-' <==> n < 0)
  {
    if n < 0 then "-" + NatText(-n) else NatText(n)
  }

  /**
   * `JSON.parse` of an integer literal: an optional minus sign followed by a
   * digit run without leading zeros.
   */
  function ParseInt(s: string): (r: Option<int>)
    ensures r.Some? ==> |s| > 0 && (r.value < 0 ==> s[0] == '-') && (s[0] != '-' ==> 0 <= r.value)
  {
    if |s| > 1 && s[0] == '-' && JsonDigits(s[1..]) then Some(0 - DigitsValue(s[1..]))
    else if JsonDigits(s) then Some(DigitsValue(s))
    else None
  }

  /** A minus sign followed by digits reads as the negated digits. */
  lemma ParseNegative(digits: string)
    requires JsonDigits(digits)
    ensures ParseInt("-" + digits) == Some(0 - DigitsValue(digits))
  {
    assert ("-" + digits)[1..] == digits;
  }

  /** Digits alone read as their value. */
  lemma ParseDigits(digits: string)
    requires JsonDigits(digits)
    ensures ParseInt(digits) == Some(DigitsValue(digits))
  {
    assert digits[0] != '-';
  }

  /** A digit run of two or more digits starting with `0` is not a number. */
  lemma LeadingZeroRejected(digits: string)
    requires |digits| > 1 && digits[0] == '0'
    ensures ParseInt(digits) == None && ParseInt("-" + digits) == None
  {
    assert ("-" + digits)[1..] == digits;
  }

  lemma ParseIntText(n: int)
    ensures ParseInt(IntText(n)) == Some(n)
  {
    if n < 0 {
      ParseNegative(NatText(-n));
      DigitsValueOfNatText(-n);
    } else {
      ParseDigits(NatText(n));
      DigitsValueOfNatText(n);
    }
  }

  lemma DigitCharOfValue(c: char)
    requires IsDigit(c)
    ensures DigitChar(DigitValue(c)) == c
  {
  }

  /** A digit run that does not start with `0` denotes a positive number. */
  lemma {:induction false} DigitsValuePositive(s: string)
    requires |s| > 0 && AllDigits(s) && s[0] != '0'
    ensures DigitsValue(s) > 0
    decreases |s|
  {
    if |s| > 1 {
      DigitsValuePositive(s[..|s| - 1]);
    }
  }

  /** A digit run without leading zeros is the decimal text of its value. */
  lemma {:induction false} NatTextOfDigits(s: string)
    requires JsonDigits(s)
    ensures NatText(DigitsValue(s)) == s
    decreases |s|
  {
    var last := s[|s| - 1];
    DigitCharOfValue(last);
    if |s| > 1 {
      var prefix := s[..|s| - 1];
      assert prefix[0] == s[0];
      DigitsValuePositive(prefix);
      NatTextOfDigits(prefix);
      var v := DigitsValue(s);
      assert v / 10 == DigitsValue(prefix) && v % 10 == DigitValue(last);
      assert s == prefix + [last];
    }
  }

  /** A minus sign before a digit run not starting with `0` is the text of the negated value. */
  lemma NegativeText(digits: string)
    requires JsonDigits(digits) && digits[0] != '0'
    ensures IntText(0 - DigitsValue(digits)) == "-" + digits
  {
    var n: int := 0 - DigitsValue(digits);
    DigitsValuePositive(digits);
    NatTextOfDigits(digits);
    assert n < 0 && -n == DigitsValue(digits);
  }

  /**
   * Every integer text the parser accepts is the one `JSON.stringify` writes
   * for its value, except `-0`, which `JSON.parse` also reads as zero.
   */
  lemma ParseIntOnlyCanonical(s: string)
    ensures ParseInt(s).Some? ==> s == IntText(ParseInt(s).value) || s == "-0"
  {
    if |s| > 1 && s[0] == '-' && JsonDigits(s[1..]) {
      var digits := s[1..];
      assert s == "-" + digits;
      if digits[0] != '0' {
        NegativeText(digits);
      } else {
        assert digits == [digits[0]];
      }
    } else if JsonDigits(s) {
      NatTextOfDigits(s);
    }
  }

  // ----------------------------------------------------------------- strings

  /** Lower-case hexadecimal digit, as `JSON.stringify` writes in `\u00XX`. */
  function HexDigit(d: nat): char
    requires d < 16
  {
    if d < 10 then (48 + d) as char else (87 + d) as char
  }

  function HexValue(c: char): Option<nat> {
    if '0' <= c <= '9' then Some((c as int) - 48)
    else if 'a' <= c <= 'f' then Some((c as int) - 87)
    else if 'A' <= c <= 'F' then Some((c as int) - 55)
    else None
  }

  lemma HexValueOfDigit(d: nat)
    requires d < 16
    ensures HexValue(HexDigit(d)) == Some(d)
  {
  }

  /** The value of four hexadecimal digits. */
  function Hex4(s: string): Option<nat>
    requires |s| == 4
  {
    match (HexValue(s[0]), HexValue(s[1]), HexValue(s[2]), HexValue(s[3]))
    case (Some(a), Some(b), Some(c), Some(d)) => Some(((a * 16 + b) * 16 + c) * 16 + d)
    case _ => None
  }

  /** No character below U+0020, which JSON does not allow raw inside a string. */
  predicate NoControlChars(s: string) {
    forall i :: 0 <= i < |s| ==> s[i] as int >= 32
  }

  /** How `JSON.stringify` writes one character inside a string literal. */
  function EscapeChar(c: char): (r: string)
    ensures |r| > 0 && NoControlChars(r)
  {
    if c == '"' then ['\\', '"']
    else if c == '\\' then ['\\', '\\']
    else if c as int == 8 then ['\\', 'b']
    else if c as int == 12 then ['\\', 'f']
    else if c == '\n' then ['\\', 'n']
    else if c == '\r' then ['\\', 'r']
    else if c == '\t' then ['\\', 't']
    else if (c as int) < 32 then ['\\', 'u', '0', '0', HexDigit((c as int) / 16), HexDigit((c as int) % 16)]
    else [c]
  }

  /**
   * The body of the string literal for `s`: no raw control character, which
   * JSON does not allow inside a string, and at least as long as `s`.
   */
  function Escape(s: string): (r: string)
    ensures |r| >= |s| && NoControlChars(r)
    decreases |s|
  {
    if |s| == 0 then "" else EscapeChar(s[0]) + Escape(s[1..])
  }

  /** `JSON.stringify` of a string. */
  function Quote(s: string): (r: string)
    ensures |r| >= |s| + 2 && r[0] == '"' && r[|r| - 1] == '"'
    ensures NoControlChars(r)
  {
    "\"" + Escape(s) + "\""
  }

  /**
   * The escape sequence at the start of `s` (which starts with a backslash):
   * the character it denotes and how many characters it takes.
   */
  function Unescape(s: string): (r: Option<(char, nat)>)
    requires |s| >= 2 && s[0] == '\\'
    ensures r.Some? ==> 2 <= r.value.1 <= |s|
  {
    var e := s[1];
    if e == '"' then Some(('"', 2))
    else if e == '\\' then Some(('\\', 2))
    else if e == '/' then Some(('/', 2))
    else if e == 'b' then Some((8 as char, 2))
    else if e == 'f' then Some((12 as char, 2))
    else if e == 'n' then Some(('\n', 2))
    else if e == 'r' then Some(('\r', 2))
    else if e == 't' then Some(('\t', 2))
    else if e == 'u' && |s| >= 6 then
      match Hex4(s[2..6])
      case Some(v) => if v < 0xD800 || 0xE000 <= v then Some((v as char, 6)) else None
      case None => None
    else None
  }

  /**
   * Reads the rest of a string literal whose opening quote is already read:
   * the string it denotes and the text after the closing quote.
   */
  function ParseStringBody(s: string): Option<(string, string)>
    decreases |s|
  {
    if |s| == 0 then None
    else if s[0] == '"' then Some(("", s[1..]))
    else if s[0] == '\\' then
      if |s| < 2 then None
      else match Unescape(s)
        case None => None
        case Some((c, n)) =>
          match ParseStringBody(s[n..])
          case None => None
          case Some((v, rest)) => Some(([c] + v, rest))
    else if (s[0] as int) < 32 then None
    else
      match ParseStringBody(s[1..])
      case None => None
      case Some((v, rest)) => Some(([s[0]] + v, rest))
  }

  lemma ParseEscapedChar(c: char, tail: string)
    ensures ParseStringBody(EscapeChar(c) + tail) ==
      match ParseStringBody(tail)
      case None => None
      case Some((v, rest)) => Some(([c] + v, rest))
  {
    var s := EscapeChar(c) + tail;
    var n := |EscapeChar(c)|;
    assert s[n..] == tail;
    if c == '"' || c == '\\' || c as int == 8 || c as int == 12 || c == '\n' || c == '\r' || c == '\t' {
      assert n == 2 && s[0] == '\\';
    } else if (c as int) < 32 {
      var hi, lo := (c as int) / 16, (c as int) % 16;
      HexValueOfDigit(hi);
      HexValueOfDigit(lo);
      assert s[2..6] == ['0', '0', HexDigit(hi), HexDigit(lo)];
      assert Hex4(s[2..6]) == Some(c as int);
    } else {
      assert s[0] == c && n == 1;
    }
  }

  lemma {:induction false} ParseEscaped(x: string, rest: string)
    ensures ParseStringBody(Escape(x) + "\"" + rest) == Some((x, rest))
    decreases |x|
  {
    if |x| == 0 {
      assert Escape(x) + "\"" + rest == "\"" + rest;
    } else {
      var tail := Escape(x[1..]) + "\"" + rest;
      assert Escape(x) + "\"" + rest == EscapeChar(x[0]) + tail;
      ParseEscapedChar(x[0], tail);
      ParseEscaped(x[1..], rest);
      assert [x[0]] + x[1..] == x;
    }
  }

  /** Reads one string literal at the start of `s`. */
  function ParseQuoted(s: string): Option<(string, string)> {
    if |s| > 0 && s[0] == '"' then ParseStringBody(s[1..]) else None
  }

  lemma ParseQuotedQuote(x: string, rest: string)
    ensures ParseQuoted(Quote(x) + rest) == Some((x, rest))
  {
    var s := Quote(x) + rest;
    assert s[1..] == Escape(x) + "\"" + rest;
    ParseEscaped(x, rest);
  }

  // ------------------------------------------------------------------ record

  /** The text after `prefix`, when `s` starts with it. */
  function DropPrefix(prefix: string, s: string): (r: Option<string>)
    ensures r.Some? ==> s == prefix + r.value
  {
    if |prefix| <= |s| && s[..|prefix|] == prefix then Some(s[|prefix|..]) else None
  }

  lemma DropPrefixOfConcat(prefix: string, rest: string)
    ensures DropPrefix(prefix, prefix + rest) == Some(rest)
  {
    assert (prefix + rest)[..|prefix|] == prefix;
    assert (prefix + rest)[|prefix|..] == rest;
  }

  const IdTokenKey: string := "{\"idToken\":"
  const RefreshTokenKey: string := ",\"refreshToken\":"
  const ExpiresAtKey: string := ",\"expiresAt\":"

  /** `JSON.stringify(tokens)`. */
  function Encode(t: Tokens): (r: string)
    ensures r != ""
  {
    IdTokenKey + (Quote(t.idToken) + (RefreshTokenKey + (Quote(t.refreshToken)
      + (ExpiresAtKey + (IntText(t.expiresAt) + "}")))))
  }

  /** `JSON.parse` of a stored item, for items of the shape `Encode` writes. */
  function Decode(s: string): (r: Option<Tokens>)
    ensures r.Some? ==> |IdTokenKey| <= |s| && s[..|IdTokenKey|] == IdTokenKey
  {
    match DropPrefix(IdTokenKey, s)
    case None => None
    case Some(rest) => DecodeIdToken(rest)
  }

  function DecodeIdToken(s: string): Option<Tokens> {
    match ParseQuoted(s)
    case None => None
    case Some((id, rest)) => DecodeRefreshKey(id, rest)
  }

  function DecodeRefreshKey(id: string, s: string): Option<Tokens> {
    match DropPrefix(RefreshTokenKey, s)
    case None => None
    case Some(rest) => DecodeRefreshToken(id, rest)
  }

  function DecodeRefreshToken(id: string, s: string): Option<Tokens> {
    match ParseQuoted(s)
    case None => None
    case Some((refresh, rest)) => DecodeExpiresAt(id, refresh, rest)
  }

  function DecodeExpiresAt(id: string, refresh: string, s: string): Option<Tokens> {
    match DropPrefix(ExpiresAtKey, s)
    case None => None
    case Some(rest) =>
      if |rest| > 0 && rest[|rest| - 1] == '}' then
        match ParseInt(rest[..|rest| - 1])
        case None => None
        case Some(e) => Some(Tokens(id, refresh, e))
      else None
  }

  /** The expiry field with a leading-zero number is not read. */
  lemma LeadingZeroExpiryField(id: string, refresh: string, digits: string)
    requires |digits| > 1 && digits[0] == '0'
    ensures DecodeExpiresAt(id, refresh, ExpiresAtKey + (digits + "}")) == None
  {
    DropPrefixOfConcat(ExpiresAtKey, digits + "}");
    assert (digits + "}")[..|digits|] == digits;
    LeadingZeroRejected(digits);
  }

  /** An item written with a leading zero in the expiry is unparsable as a whole. */
  lemma LeadingZeroExpiryUnreadable(id: string, refresh: string, digits: string)
    requires |digits| > 1 && digits[0] == '0'
    ensures Decode(IdTokenKey + (Quote(id) + (RefreshTokenKey + (Quote(refresh)
      + (ExpiresAtKey + (digits + "}")))))) == None
  {
    var s4 := ExpiresAtKey + (digits + "}");
    var s3 := Quote(refresh) + s4;
    var s2 := RefreshTokenKey + s3;
    var s1 := Quote(id) + s2;
    LeadingZeroExpiryField(id, refresh, digits);
    ParseQuotedQuote(refresh, s4);
    assert DecodeRefreshToken(id, s3) == None;
    DropPrefixOfConcat(RefreshTokenKey, s3);
    assert DecodeRefreshKey(id, s2) == None;
    ParseQuotedQuote(id, s2);
    assert DecodeIdToken(s1) == None;
    DropPrefixOfConcat(IdTokenKey, s1);
  }

  /** What is stored can be read back unchanged. */
  lemma DecodeEncode(t: Tokens)
    ensures Decode(Encode(t)) == Some(t)
  {
    var s5 := IntText(t.expiresAt) + "}";
    var s4 := ExpiresAtKey + s5;
    var s3 := Quote(t.refreshToken) + s4;
    var s2 := RefreshTokenKey + s3;
    var s1 := Quote(t.idToken) + s2;
    DropPrefixOfConcat(ExpiresAtKey, s5);
    assert s5[..|s5| - 1] == IntText(t.expiresAt);
    ParseIntText(t.expiresAt);
    assert DecodeExpiresAt(t.idToken, t.refreshToken, s4) == Some(t);
    ParseQuotedQuote(t.refreshToken, s4);
    assert DecodeRefreshToken(t.idToken, s3) == Some(t);
    DropPrefixOfConcat(RefreshTokenKey, s3);
    assert DecodeRefreshKey(t.idToken, s2) == Some(t);
    ParseQuotedQuote(t.idToken, s2);
    assert DecodeIdToken(s1) == Some(t);
    DropPrefixOfConcat(IdTokenKey, s1);
  }
}
