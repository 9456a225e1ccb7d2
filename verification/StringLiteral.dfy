/** The string literals the glue generator embeds in emitted C++, and the C++17
    reading of them (sections 5.13.3 and 5.13.5 of ISO/IEC 14882:2017). */
module StringLiteral {
  import opened Options

  // ---------------------------------------------------------------------------
  // The emitter's side
  // ---------------------------------------------------------------------------

  function EscapeChar(ch: char): string {
    if ch == '\\' then ['\\', '\\']
    else if ch == '"' then ['\\', '"']
    else if ch == '\n' then ['\\', 'n']
    else if ch == '\r' then ['\\', 'r']
    else if ch == '\t' then ['\\', 't']
    else [ch]
  }

  function Escaped(value: string): string {
    if value == [] then [] else EscapeChar(value[0]) + Escaped(value[1..])
  }

  function Literal(value: string): string {
    ['"'] + Escaped(value) + ['"']
  }

  lemma {:induction false} EscapedSnoc(value: string, ch: char)
    ensures Escaped(value + [ch]) == Escaped(value) + EscapeChar(ch)
  {
    if value == [] {
      assert value + [ch] == [ch];
      assert Escaped([ch]) == EscapeChar(ch) + Escaped([]);
    } else {
      assert (value + [ch])[1..] == value[1..] + [ch];
      EscapedSnoc(value[1..], ch);
    }
  }

  /** cppStringLiteral: the growing buffer is the quoted escape of the prefix read. */
  method CppStringLiteral(value: string) returns (escaped: string)
    ensures escaped == Literal(value)
    ensures forall rest :: !StartsSuffix(rest) ==>
              LexStringLiteral(escaped + rest) == Some(Token(value, rest))
  {
    escaped := ['"'];
    var i := 0;
    while i < |value|
      invariant 0 <= i <= |value|
      invariant escaped == ['"'] + Escaped(value[..i])
    {
      var ch := value[i];
      if ch == '\\' {
        escaped := escaped + ['\\', '\\'];
      } else if ch == '"' {
        escaped := escaped + ['\\', '"'];
      } else if ch == '\n' {
        escaped := escaped + ['\\', 'n'];
      } else if ch == '\r' {
        escaped := escaped + ['\\', 'r'];
      } else if ch == '\t' {
        escaped := escaped + ['\\', 't'];
      } else {
        escaped := escaped + [ch];
      }
      EscapedSnoc(value[..i], ch);
      assert value[..i] + [ch] == value[..i + 1];
      i := i + 1;
    }
    assert value[..i] == value;
    escaped := escaped + ['"'];
    forall rest | !StartsSuffix(rest)
      ensures LexStringLiteral(escaped + rest) == Some(Token(value, rest))
    {
      LiteralRoundTrip(value, rest);
    }
  }

  // ---------------------------------------------------------------------------
  // The compiler's side
  // ---------------------------------------------------------------------------

  /** A string-literal token: its value and the source text after it. */
  datatype Lexed = Token(value: string, rest: string)

  predicate IsOctal(c: char) { '0' <= c <= '7' }

  predicate IsHex(c: char) { '0' <= c <= '9' || 'a' <= c <= 'f' || 'A' <= c <= 'F' }

  predicate IdentifierStart(c: char) {
    'a' <= c <= 'z' || 'A' <= c <= 'Z' || c == '_'
  }

  /** A literal directly followed by an identifier is a user-defined literal instead. */
  predicate StartsSuffix(rest: string) { rest != [] && IdentifierStart(rest[0]) }

  function DigitValue(c: char): (r: nat)
    requires IsHex(c)
  {
    if '0' <= c <= '9' then c as int - '0' as int
    else if 'a' <= c <= 'f' then c as int - 'a' as int + 10
    else c as int - 'A' as int + 10
  }

  /** Length of the longest run of hexadecimal digits, capped at max. */
  function HexRun(s: string, max: nat): (n: nat)
    ensures n <= |s| && n <= max
    ensures forall i :: 0 <= i < n ==> IsHex(s[i])
    decreases max
  {
    if max == 0 || s == [] || !IsHex(s[0]) then 0 else 1 + HexRun(s[1..], max - 1)
  }

  function OctalRun(s: string, max: nat): (n: nat)
    ensures n <= |s| && n <= max
    ensures forall i :: 0 <= i < n ==> IsOctal(s[i])
    decreases max
  {
    if max == 0 || s == [] || !IsOctal(s[0]) then 0 else 1 + OctalRun(s[1..], max - 1)
  }

  function Number(digits: string, base: nat): nat
    requires forall i :: 0 <= i < |digits| ==> IsHex(digits[i])
  {
    if digits == [] then 0
    else Number(digits[..|digits| - 1], base) * base + DigitValue(digits[|digits| - 1])
  }

  /** A code point as a character; surrogates and out-of-range values are ill-formed. */
  function CodePoint(n: nat): Option<char> {
    if n < 0xD800 || 0xE000 <= n < 0x11_0000 then Some(n as char) else None
  }

  datatype Escape = Escape(value: char, length: nat)

  function Numeric(digits: string, base: nat, length: nat): Option<Escape>
    requires forall i :: 0 <= i < |digits| ==> IsHex(digits[i])
  {
    match CodePoint(Number(digits, base))
    case None => None
    case Some(c) => Some(Escape(c, length))
  }

  /** The escape sequence at the front of s, which follows a backslash. */
  function LexEscape(s: string): (r: Option<Escape>)
    ensures r.Some? ==> 0 < r.value.length <= |s|
  {
    if s == [] then None
    else if s[0] in "'\"?\\" then Some(Escape(s[0], 1))
    else if s[0] == 'a' then Some(Escape(7 as char, 1))
    else if s[0] == 'b' then Some(Escape(8 as char, 1))
    else if s[0] == 't' then Some(Escape('\t', 1))
    else if s[0] == 'n' then Some(Escape('\n', 1))
    else if s[0] == 'v' then Some(Escape(11 as char, 1))
    else if s[0] == 'f' then Some(Escape(12 as char, 1))
    else if s[0] == 'r' then Some(Escape('\r', 1))
    else if IsOctal(s[0]) then
      var n := OctalRun(s, 3);
      if n == 0 then None else Numeric(s[..n], 8, n)
    else if s[0] == 'x' then
      var n := HexRun(s[1..], |s|);
      if n == 0 then None else Numeric(s[1..][..n], 16, n + 1)
    else if s[0] == 'u' then
      if HexRun(s[1..], 4) < 4 then None else Numeric(s[1..][..4], 16, 5)
    else if s[0] == 'U' then
      if HexRun(s[1..], 8) < 8 then None else Numeric(s[1..][..8], 16, 9)
    else None
  }

  /** The characters of a literal up to and including its closing quote. */
  function LexBody(s: string): Option<Lexed> {
    if s == [] || s[0] == '\n' then None
    else if s[0] == '"' then Some(Token([], s[1..]))
    else if s[0] == '\\' then
      var e := LexEscape(s[1..]);
      if e.None? then None else Prepend(e.value.value, LexBody(s[1 + e.value.length..]))
    else Prepend(s[0], LexBody(s[1..]))
  }

  function Prepend(c: char, tail: Option<Lexed>): Option<Lexed> {
    match tail
    case None => None
    case Some(t) => Some(Token([c] + t.value, t.rest))
  }

  /** An ordinary string literal at the front of the source text. */
  function LexStringLiteral(s: string): Option<Lexed> {
    if s == [] || s[0] != '"' then None
    else
      var body := LexBody(s[1..]);
      if body.Some? && !StartsSuffix(body.value.rest) then body else None
  }

  // ---------------------------------------------------------------------------
  // The two agree
  // ---------------------------------------------------------------------------

  lemma OneCharacter(ch: char, tail: string)
    ensures LexBody(EscapeChar(ch) + tail) == Prepend(ch, LexBody(tail))
  {
    var code := EscapeChar(ch);
    var source := code + tail;
    if |code| == 1 {
      assert source[0] == ch && source[1..] == tail;
    } else {
      assert source[0] == '\\' && source[1..][0] == code[1];
      assert LexEscape(source[1..]) == Some(Escape(ch, 1));
      assert source[2..] == tail;
    }
  }

  lemma {:induction false} BodyRoundTrip(value: string, rest: string)
    ensures LexBody(Escaped(value) + ['"'] + rest) == Some(Token(value, rest))
  {
    var source := Escaped(value) + ['"'] + rest;
    if value == [] {
      assert source[1..] == rest;
    } else {
      var ch, code := value[0], EscapeChar(value[0]);
      var tail := Escaped(value[1..]) + ['"'] + rest;
      BodyRoundTrip(value[1..], rest);
      assert source == code + tail;
      assert [ch] + value[1..] == value;
      OneCharacter(ch, tail);
    }
  }

  /** Whatever the string, the compiler reads the emitted token back as that string
      and stops exactly at its end. */
  lemma LiteralRoundTrip(value: string, rest: string)
    requires !StartsSuffix(rest)
    ensures LexStringLiteral(Literal(value) + rest) == Some(Token(value, rest))
  {
    var source := Literal(value) + rest;
    assert source[1..] == Escaped(value) + ['"'] + rest;
    BodyRoundTrip(value, rest);
  }

  // ---------------------------------------------------------------------------
  // lidl(): the literal decays to a C string and QString::fromUtf8 stops at NUL
  // ---------------------------------------------------------------------------

  const NUL: char := 0 as char

  function CString(s: string): string {
    if s == [] || s[0] == NUL then [] else [s[0]] + CString(s[1..])
  }

  lemma {:induction false} CStringIsWhole(s: string)
    ensures CString(s) == s <==> NUL !in s
  {
    if s != [] && s[0] != NUL {
      CStringIsWhole(s[1..]);
      assert s == [s[0]] + s[1..];
      assert CString(s)[1..] == CString(s[1..]);
    }
  }

  /** What comes before the first NUL. */
  lemma {:induction false} CStringEnds(s: string)
    ensures CString(s) <= s && NUL !in CString(s) && (|CString(s)| < |s| ==> s[|CString(s)|] == NUL)
  {
    if s != [] && s[0] != NUL {
      CStringEnds(s[1..]);
      assert s == [s[0]] + s[1..];
    }
  }

  /** The embedded contract document is the serialized one exactly when it has no NUL; else it
      ends before the first. */
  lemma EmbeddedDocument(document: string, rest: string)
    requires !StartsSuffix(rest)
    ensures LexStringLiteral(Literal(document) + rest).Some?
    ensures CString(LexStringLiteral(Literal(document) + rest).value.value) == document
            <==> NUL !in document
    ensures
      var read := CString(LexStringLiteral(Literal(document) + rest).value.value);
      read <= document && NUL !in read && (|read| < |document| ==> document[|read|] == NUL)
  {
    CStringEnds(document);
    LiteralRoundTrip(document, rest);
    CStringIsWhole(document);
  }
}
