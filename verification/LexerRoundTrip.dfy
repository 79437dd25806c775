/**
 Rendering tokens as query text and tokenizing the UTF-8 bytes of that text
 (`caql/lex.rs`).  The lexer pushes each byte of a string literal as one
 character, so the round trip is exact precisely for ASCII string contents.
 */
module LexerRoundTrip {
  import opened Wrappers
  import opened Lexer

  // ---- UTF-8 ----

  function Byte(n: int): char
    requires 0 <= n < 256
  {
    n as char
  }

  function EncodeChar(c: char): (bs: string)
    ensures c as int < 0x80 ==> bs == [c]
    ensures 0x80 <= c as int ==> |bs| >= 2 && forall i :: 0 <= i < |bs| ==> 0x80 <= bs[i] as int
  {
    var n := c as int;
    if n < 0x80 then [c]
    else if n < 0x800 then [Byte(0xC0 + n / 0x40), Byte(0x80 + n % 0x40)]
    else if n < 0x10000 then [Byte(0xE0 + n / 0x1000), Byte(0x80 + n / 0x40 % 0x40), Byte(0x80 + n % 0x40)]
    else [Byte(0xF0 + n / 0x40000), Byte(0x80 + n / 0x1000 % 0x40), Byte(0x80 + n / 0x40 % 0x40), Byte(0x80 + n % 0x40)]
  }

  function Encode(s: string): string
  {
    if s == "" then "" else EncodeChar(s[0]) + Encode(s[1..])
  }

  predicate Ascii(s: string) { forall i :: 0 <= i < |s| ==> s[i] as int < 0x80 }

  /** The texts of all characters, joined. */
  function FlatMap(f: char -> string, s: string): string
  {
    if s == "" then "" else f(s[0]) + FlatMap(f, s[1..])
  }

  lemma {:induction false} FlatMapConcat(f: char -> string, a: string, b: string)
    ensures FlatMap(f, a + b) == FlatMap(f, a) + FlatMap(f, b)
  {
    if a == "" {
      assert a + b == b;
    } else {
      FlatMapConcat(f, a[1..], b);
      ConsConcat(a, b);
    }
  }

  lemma ConsConcat(a: string, b: string)
    requires a != ""
    ensures (a + b)[0] == a[0] && (a + b)[1..] == a[1..] + b
  {
  }

  lemma {:induction false} EncodeIsFlatMap(s: string)
    ensures Encode(s) == FlatMap(EncodeChar, s)
  {
    if s != "" { EncodeIsFlatMap(s[1..]); }
  }

  lemma EncodeConcat(a: string, b: string)
    ensures Encode(a + b) == Encode(a) + Encode(b)
  {
    EncodeIsFlatMap(a + b);
    EncodeIsFlatMap(a);
    EncodeIsFlatMap(b);
    FlatMapConcat(EncodeChar, a, b);
  }

  /** Encoding is the identity exactly on ASCII text. */
  lemma {:induction false} EncodeAsciiIff(s: string)
    ensures |Encode(s)| >= |s|
    ensures Encode(s) == s <==> Ascii(s)
    ensures |Encode(s)| == |s| ==> Ascii(s)
  {
    if s != "" {
      EncodeAsciiIff(s[1..]);
      assert s == [s[0]] + s[1..];
      if Ascii(s) { assert Ascii(s[1..]); }
      if |Encode(s)| == |s| {
        assert Ascii(s[1..]) && s[0] as int < 0x80;
        forall i | 0 <= i < |s| ensures s[i] as int < 0x80 { if i > 0 { assert s[i] == s[1..][i - 1]; } }
      }
    }
  }

  // ---- Rendering ----

  function EscapeChar(c: char): string
  {
    if c == '"' then "\\\"" else if c == '\\' then "\\\\"
    else if c == '\n' then "\\n" else if c == '\t' then "\\t" else if c == '\r' then "\\r"
    else [c]
  }

  function Escape(s: string): string
  {
    if s == "" then "" else EscapeChar(s[0]) + Escape(s[1..])
  }

  type Shower = real -> string

  function RenderTok(t: Tok, show: Shower): string
  {
    match t
    case Select => "select" case Where => "where" case And => "and" case Or => "or"
    case Not => "not" case In => "in" case Like => "like" case Contains => "contains"
    case Exists => "exists" case True => "true" case False => "false" case Null => "null"
    case Ident(name) => name
    case Number(x) => show(x)
    case Str(text) => "\"" + Escape(text) + "\""
    case Dot => "." case Comma => "," case Star => "*"
    case LParen => "(" case RParen => ")" case LBracket => "[" case RBracket => "]"
    case Eq => "=" case Ne => "!=" case Lt => "<" case Le => "<=" case Gt => ">" case Ge => ">="
  }

  // ---- Spellings, character by character ----

  predicate Decimal(c: char) { '0' <= c <= '9' }

  ghost predicate Digits(s: string) { forall i :: 0 <= i < |s| ==> Decimal(s[i]) }

  predicate SignText(s: string) { s == "" || s == "-" || s == "+" }

  /** The parts of a number: sign, digits and dots, exponent mark, its sign and its digits. */
  datatype Numeral = Numeral(sign: string, body: string, mark: string, expSign: string, expDigits: string)

  ghost predicate Proper(n: Numeral)
  {
    && SignText(n.sign) && SignText(n.expSign) && Digits(n.expDigits)
    && (forall i :: 0 <= i < |n.body| ==> Decimal(n.body[i]) || n.body[i] == '.')
    && (n.sign == "" ==> n.body != "" && Decimal(n.body[0]))
    && (n.mark == "e" || n.mark == "E" || (n.mark == "" && n.expSign == "" && n.expDigits == ""))
  }

  function NumeralText(n: Numeral): string { n.sign + n.body + (n.mark + n.expSign + n.expDigits) }

  /** What follows the number cannot be read as more of it. */
  ghost predicate Stops(n: Numeral, rest: string)
  {
    rest == "" ||
    (&& !Decimal(rest[0])
     && (n.mark == "" ==> rest[0] != '.' && rest[0] != 'e' && rest[0] != 'E')
     && (n.mark != "" && n.expSign == "" && n.expDigits == "" ==> rest[0] != '-' && rest[0] != '+'))
  }

  ghost predicate SpellsNumber(n: Numeral, text: string) { Proper(n) && NumeralText(n) == text }

  predicate WordChar(c: char) { 'a' <= c <= 'z' || 'A' <= c <= 'Z' || Decimal(c) || c == '_' }

  ghost predicate Word(s: string) { s != "" && !Decimal(s[0]) && forall i :: 0 <= i < |s| ==> WordChar(s[i]) }

  predicate IsKeyword(t: Tok)
  {
    t.Select? || t.Where? || t.And? || t.Or? || t.Not? || t.In? || t.Like? || t.Contains? || t.Exists? || t.True?
    || t.False? || t.Null?
  }

  /** The fixed text of a keyword or symbol. */
  function FixedText(t: Tok): string { RenderTok(t, _ => "") }

  /** The same word up to the case of its letters. */
  ghost predicate CaseVariant(word: string, lower: string)
  {
    && |word| == |lower|
    && forall i :: 0 <= i < |word| ==>
         word[i] == lower[i] || ('A' <= word[i] <= 'Z' && word[i] as int + 32 == lower[i] as int)
  }

  /** A word that is no keyword in any letter case. */
  ghost predicate ValidIdent(name: string)
  {
    Word(name) && forall t | IsKeyword(t) :: !CaseVariant(name, FixedText(t))
  }

  /**
   One character of a string literal: itself, or after a backslash; `\\n`,
   `\\t` and `\\r` are the control characters.
   */
  ghost predicate SpellsChar(unit: string, c: char)
  {
    || (unit == [c] && c != '"' && c != '\\')
    || (unit == ['\\', c] && c != 'n' && c != 't' && c != 'r')
    || (unit == "\\n" && c == '\n') || (unit == "\\t" && c == '\t') || (unit == "\\r" && c == '\r')
  }

  ghost predicate SpellsString(units: seq<string>, contents: string)
  {
    |units| == |contents| && forall i :: 0 <= i < |units| ==> SpellsChar(units[i], contents[i])
  }

  function Flat(units: seq<string>): string { if units == [] then "" else units[0] + Flat(units[1..]) }

  /** `text` is a way to write the token. */
  ghost predicate Spells(t: Tok, text: string, read: Reader)
  {
    if t.Ident? then text == t.name && ValidIdent(text)
    else if t.Number? then read(text) == Some(t.num) && exists n :: SpellsNumber(n, text)
    else if t.Str? then exists units :: SpellsString(units, t.text) && text == "\"" + Flat(units) + "\""
    else if IsKeyword(t) then CaseVariant(text, FixedText(t))
    else text == FixedText(t)
  }

  /** What follows does not run into the token. */
  ghost predicate EndsBefore(t: Tok, text: string, rest: string)
  {
    if t.Number? then exists n :: SpellsNumber(n, text) && Stops(n, rest)
    else if t.Ident? || IsKeyword(t) then rest == "" || !WordChar(rest[0])
    else if t.Lt? || t.Gt? then rest == "" || rest[0] != '='
    else true
  }

  ghost predicate Blank(s: string)
  {
    forall i :: 0 <= i < |s| ==> s[i] == ' ' || s[i] == '\t' || s[i] == '\n' || s[i] == '\r' || s[i] as int == 12
  }

  /** A token, how it is written, and the white space after it. */
  datatype Piece = Piece(tok: Tok, text: string, gap: string)

  function TextOf(pieces: seq<Piece>): string
  {
    if pieces == [] then "" else pieces[0].text + (pieces[0].gap + TextOf(pieces[1..]))
  }

  function TokensOf(pieces: seq<Piece>): seq<Tok>
  {
    if pieces == [] then [] else [pieces[0].tok] + TokensOf(pieces[1..])
  }

  /** The tokens are written before `tail`, with white space at least where two of them would run together. */
  ghost predicate Written(pieces: seq<Piece>, tail: string, read: Reader)
  {
    pieces == [] ||
    (&& Spells(pieces[0].tok, pieces[0].text, read) && Blank(pieces[0].gap)
     && EndsBefore(pieces[0].tok, pieces[0].text, Encode(pieces[0].gap + TextOf(pieces[1..])) + tail)
     && Written(pieces[1..], tail, read))
  }

  /** A text that no token starts, and what is wrong with it. */
  ghost predicate Bad(tail: string, problem: Problem, read: Reader)
  {
    match problem
    case ExpectedNe => tail != "" && tail[0] == '!' && (|tail| == 1 || tail[1] != '=')
    case UnterminatedString =>
      exists units, contents :: SpellsString(units, contents) && tail == "\"" + Encode(Flat(units))
    case UnterminatedEscape =>
      exists units, contents :: SpellsString(units, contents) && tail == "\"" + (Encode(Flat(units)) + "\\")
    case InvalidNumber =>
      exists n, rest :: Proper(n) && Stops(n, rest) && tail == NumeralText(n) + rest && read(NumeralText(n)) == None
    case UnexpectedCharacter =>
      && tail != "" && !Blank(tail[..1]) && !WordChar(tail[0])
      && tail[0] !in ".,*()[]=!<>\"+-"
  }

  // ---- One way to write a token list ----

  /** Tokens separated by spaces. */
  function Render(toks: seq<Tok>, show: Shower): string
  {
    if toks == [] then "" else RenderTok(toks[0], show) + " " + Render(toks[1..], show)
  }

  function PiecesOf(toks: seq<Tok>, show: Shower): seq<Piece>
  {
    if toks == [] then [] else [Piece(toks[0], RenderTok(toks[0], show), " ")] + PiecesOf(toks[1..], show)
  }

  /** The token can be written down: an identifier is not a keyword, and a number has a lexeme that reads back. */
  ghost predicate Renderable(t: Tok, read: Reader, show: Shower)
  {
    && (t.Ident? ==> ValidIdent(t.name))
    && (t.Number? ==> read(show(t.num)) == Some(t.num) && exists n :: SpellsNumber(n, show(t.num)))
  }

  /** What the lexer makes of a rendered token: the bytes of a string become its characters. */
  function Decoded(t: Tok): Tok { if t.Str? then Str(Encode(t.text)) else t }

  // ---- Runs ----

  lemma {:induction false} RunOfConcat(a: string, b: string, inClass: char -> bool)
    ensures RunLength(a + b, inClass) ==
            if RunLength(a, inClass) < |a| then RunLength(a, inClass) else |a| + RunLength(b, inClass)
  {
    if a == "" {
      assert a + b == b;
    } else {
      assert (a + b)[1..] == a[1..] + b;
      RunOfConcat(a[1..], b, inClass);
    }
  }

  /** A run is as long as its characters are in the class. */
  lemma RunIs(a: string, b: string, inClass: char -> bool)
    requires (forall i :: 0 <= i < |a| ==> inClass(a[i])) && (b == "" || !inClass(b[0]))
    ensures RunLength(a + b, inClass) == |a|
  {
    RunOfConcat(a, b, inClass);
  }

  lemma MantissaIs(n: Numeral, rest: string)
    requires Proper(n) && (rest == "" || (!Decimal(rest[0]) && rest[0] != '.'))
    ensures MantissaLength(n.sign + n.body + rest) == |n.sign + n.body|
  {
    var s := n.sign + n.body + rest;
    RunIs(n.body, rest, IsNumberBody);
    if n.sign == "" { assert s == n.body + rest; } else { assert s[1..] == n.body + rest; }
  }

  lemma ExponentIs(n: Numeral, rest: string)
    requires Proper(n) && Stops(n, rest)
    ensures ExponentLength((n.mark + n.expSign + n.expDigits) + rest) == |n.mark + n.expSign + n.expDigits|
  {
    if n.mark == "" {
      assert (n.mark + n.expSign + n.expDigits) + rest == rest;
    } else {
      MarkedExponentIs(n.mark, n.expSign, n.expDigits, rest);
    }
  }

  lemma MarkedExponentIs(mark: string, sign: string, digits: string, rest: string)
    requires (mark == "e" || mark == "E") && SignText(sign) && Digits(digits)
    requires rest == "" || (!Decimal(rest[0]) && (sign == digits == "" ==> rest[0] != '-' && rest[0] != '+'))
    ensures ExponentLength((mark + sign + digits) + rest) == |mark + sign + digits|
  {
    var s, d := (mark + sign + digits) + rest, |mark + sign|;
    assert s[0] == mark[0] && s[d..] == digits + rest;
    RunIs(digits, rest, IsDigit);
    if sign != "" {
      assert s[1] == sign[0];
    } else if digits != "" {
      assert s[1] == digits[0];
    } else if rest != "" {
      assert s[1] == rest[0];
    }
    assert d == if 1 < |s| && IsSign(s[1]) then 2 else 1;
  }

  /** A number is read to its end, whatever follows that cannot be part of it. */
  lemma NumberIs(n: Numeral, rest: string)
    requires Proper(n) && Stops(n, rest)
    ensures NumeralText(n) != "" && NumberLength(NumeralText(n) + rest) == |NumeralText(n)|
    ensures var c := (NumeralText(n) + rest)[0]; IsDigit(c) || IsSign(c)
  {
    var first, exp := n.sign + n.body, n.mark + n.expSign + n.expDigits;
    var s := NumeralText(n) + rest;
    assert s == n.sign + n.body + (exp + rest);
    assert exp + rest == "" || (exp + rest)[0] == (if n.mark == "" then rest[0] else n.mark[0]);
    MantissaIs(n, exp + rest);
    assert s[|first|..] == exp + rest;
    ExponentIs(n, rest);
    assert s[0] == (if n.sign == "" then n.body[0] else n.sign[0]);
  }

  /** The scanner takes nothing but such numbers. */
  lemma NumbersOnly(text: string)
    requires text != "" && (Decimal(text[0]) || text[0] == '-' || text[0] == '+') && NumberLength(text) == |text|
    ensures exists n :: SpellsNumber(n, text)
  {
    var b := MantissaLength(text);
    var n := ExponentParts(text[b..]);
    var d := if IsSign(text[0]) then 1 else 0;
    var m := n.(sign := text[..d], body := text[d..b]);
    MantissaChars(text, d, b);
    ThreeParts(text, d, b);
    assert NumeralText(m) == text[..d] + text[d..b] + text[b..];
    assert SpellsNumber(m, text);
  }

  lemma ThreeParts(text: string, d: nat, b: nat)
    requires d <= b <= |text|
    ensures text[..d] + text[d..b] + text[b..] == text
  {
  }

  lemma MantissaChars(text: string, d: nat, b: nat)
    requires text != "" && b == MantissaLength(text) && d == if IsSign(text[0]) then 1 else 0
    ensures d <= b <= |text| && SignText(text[..d])
    ensures forall i :: 0 <= i < |text[d..b]| ==> Decimal(text[d..b][i]) || text[d..b][i] == '.'
  {
    if d == 1 {
      assert text[..1] == [text[0]];
      forall i | 1 <= i < b ensures IsNumberBody(text[i]) { assert text[1..][i - 1] == text[i]; }
    }
  }

  lemma ExponentParts(exp: string) returns (n: Numeral)
    requires ExponentLength(exp) == |exp|
    ensures exp == n.mark + n.expSign + n.expDigits && SignText(n.expSign) && Digits(n.expDigits)
    ensures n.mark == "e" || n.mark == "E" || (n.mark == "" && n.expSign == "" && n.expDigits == "")
  {
    if exp == "" {
      n := Numeral("", "", "", "", "");
    } else {
      var e := if 1 < |exp| && IsSign(exp[1]) then 2 else 1;
      n := Numeral("", "", exp[..1], exp[1..e], exp[e..]);
      assert exp[..1] == [exp[0]] && (e == 2 ==> exp[1..e] == [exp[1]]);
    }
  }

  lemma AfterCons(c: char, bs: string, rest: Result<Quoted, Problem>)
    ensures Extend(c, 1, After(bs, |bs|, rest)) == After([c] + bs, |bs| + 1, rest)
  {
    if rest.Ok? { assert [c] + (bs + rest.value.text) == ([c] + bs) + rest.value.text; }
  }

  /** Bytes that are neither a quote nor a backslash go straight into the literal. */
  lemma {:induction false} RawRun(bs: string, rest: string)
    requires forall i :: 0 <= i < |bs| ==> bs[i] != '"' && bs[i] != '\\'
    ensures ReadString(bs + rest) == After(bs, |bs|, ReadString(rest))
  {
    if bs == "" {
      assert bs + rest == rest;
      AfterExtends("", 0, 'x', 0, ReadString(rest));
    } else {
      var s := bs + rest;
      assert s[0] == bs[0] && s[1..] == bs[1..] + rest;
      RawRun(bs[1..], rest);
      AfterCons(bs[0], bs[1..], ReadString(rest));
      assert [bs[0]] + bs[1..] == bs;
    }
  }

  lemma UnitReads(unit: string, c: char, rest: string)
    requires SpellsChar(unit, c)
    ensures ReadString(Encode(unit) + rest) == After(EncodeChar(c), |Encode(unit)|, ReadString(rest))
  {
    if unit == [c] && c != '"' && c != '\\' {
      assert Encode(unit) == EncodeChar(c) + Encode(unit[1..]) == EncodeChar(c);
      RawRun(EncodeChar(c), rest);
    } else if unit[1] == c {
      EscapedByte(c, rest);
    } else {
      EncodeAsciiIff(unit);
      EscapedAscii(unit, c, rest);
    }
  }

  lemma EscapedAscii(unit: string, c: char, rest: string)
    requires |unit| == 2 && unit[0] == '\\' && Unescape(unit[1]) == c && c as int < 0x80
    ensures ReadString(unit + rest) == After(EncodeChar(c), 2, ReadString(rest))
  {
    var s := unit + rest;
    assert s[0] == '\\' && s[1] == unit[1] && s[2..] == rest;
    AfterExtends("", 0, c, 2, ReadString(rest));
    assert "" + [c] == [c];
    AfterExtends("", 0, c, 2, Extend(c, 2, ReadString(rest)));
  }

  /** Only the first byte of an escaped character is escaped; the others are read as they are. */
  lemma EscapedByte(c: char, rest: string)
    requires c != 'n' && c != 't' && c != 'r'
    ensures Encode(['\\', c]) == "\\" + EncodeChar(c)
    ensures ReadString(Encode(['\\', c]) + rest) == After(EncodeChar(c), 1 + |EncodeChar(c)|, ReadString(rest))
  {
    var bs := EncodeChar(c);
    assert ['\\', c][1..] == [c] && [c][1..] == "";
    assert Encode([c]) == bs + "" == bs;
    var s := ("\\" + bs) + rest;
    assert s[0] == '\\' && s[1] == bs[0] && s[2..] == bs[1..] + rest;
    RawRun(bs[1..], rest);
    AfterEscaped(bs, ReadString(rest));
  }

  lemma AfterEscaped(bs: string, rest: Result<Quoted, Problem>)
    requires bs != ""
    ensures Extend(bs[0], 2, After(bs[1..], |bs| - 1, rest)) == After(bs, |bs| + 1, rest)
  {
    if rest.Ok? { assert [bs[0]] + (bs[1..] + rest.value.text) == bs + rest.value.text; }
  }

  lemma ReadInTwoParts(head: string, tail: string, close: string, first: string, others: string, k: nat)
    requires ReadString(tail + close) == Ok(Quoted(others, k))
    requires ReadString(head + (tail + close)) == After(first, |head|, ReadString(tail + close))
    ensures ReadString((head + tail) + close) == Ok(Quoted(first + others, |head| + k))
  {
    assert (head + tail) + close == head + (tail + close);
  }

  /** The bytes of a string literal, unit by unit. */
  function BytesOf(units: seq<string>): string
  {
    if units == [] then "" else Encode(units[0]) + BytesOf(units[1..])
  }

  lemma {:induction false} BytesAreEncoded(units: seq<string>)
    ensures BytesOf(units) == Encode(Flat(units))
  {
    if units != [] {
      BytesAreEncoded(units[1..]);
      EncodeConcat(units[0], Flat(units[1..]));
    }
  }

  lemma {:induction false} StringReads(units: seq<string>, contents: string, close: string)
    requires SpellsString(units, contents) && close != "" && close[0] == '"'
    ensures ReadString(BytesOf(units) + close) == Ok(Quoted(Encode(contents), |BytesOf(units)| + 1))
  {
    if units == [] {
      assert BytesOf(units) + close == close;
    } else {
      assert SpellsString(units[1..], contents[1..]);
      StringReads(units[1..], contents[1..], close);
      FirstReads(units[0], contents[0], BytesOf(units[1..]), Encode(contents[1..]), close);
    }
  }

  lemma FirstReads(unit: string, c: char, tail: string, others: string, close: string)
    requires SpellsChar(unit, c) && ReadString(tail + close) == Ok(Quoted(others, |tail| + 1))
    ensures ReadString(Encode(unit) + tail + close) == Ok(Quoted(EncodeChar(c) + others, |Encode(unit) + tail| + 1))
  {
    UnitReads(unit, c, tail + close);
    ReadInTwoParts(Encode(unit), tail, close, EncodeChar(c), others, |tail| + 1);
  }

  function UnitsOf(contents: string): seq<string>
  {
    if contents == "" then [] else [EscapeChar(contents[0])] + UnitsOf(contents[1..])
  }

  lemma {:induction false} EscapeSpells(contents: string)
    ensures SpellsString(UnitsOf(contents), contents) && Flat(UnitsOf(contents)) == Escape(contents)
  {
    if contents != "" {
      EscapeSpells(contents[1..]);
      assert SpellsChar(EscapeChar(contents[0]), contents[0]);
    }
  }

  // ---- One token ----

  lemma WordScans(word: string, rest: string, read: Reader)
    requires Word(word) && (rest == "" || !WordChar(rest[0]))
    ensures Ascii(word) && ScanOne(word + rest, read) == Token(WordToken(word), |word|)
  {
    var s := word + rest;
    RunIs(word, rest, IsIdentBody);
    assert s[0] == word[0] && s[..|word|] == word;
  }

  lemma NumberScans(x: real, n: Numeral, rest: string, read: Reader)
    requires Proper(n) && Stops(n, rest) && read(NumeralText(n)) == Some(x)
    ensures Ascii(NumeralText(n)) && ScanOne(NumeralText(n) + rest, read) == Token(Number(x), |NumeralText(n)|)
  {
    NumberIs(n, rest);
    NumeralIsAscii(n);
    NumberLexes(NumeralText(n), rest, read);
  }

  lemma NumeralIsAscii(n: Numeral)
    requires Proper(n)
    ensures Ascii(NumeralText(n))
  {
    assert Ascii(n.sign) && Ascii(n.body) && Ascii(n.mark) && Ascii(n.expSign) && Ascii(n.expDigits);
  }

  lemma NumberLexes(text: string, rest: string, read: Reader)
    requires text != "" && NumberLength(text + rest) == |text|
    requires IsDigit((text + rest)[0]) || IsSign((text + rest)[0])
    ensures ScanOne(text + rest, read) ==
            match read(text) { case Some(x) => Token(Number(x), |text|) case None => Fail(InvalidNumber) }
  {
    assert (text + rest)[..|text|] == text;
  }

  lemma StringScans(units: seq<string>, contents: string, rest: string, read: Reader)
    requires SpellsString(units, contents)
    ensures var bs := "\"" + (Encode(Flat(units)) + "\"");
            ScanOne(bs + rest, read) == Token(Str(Encode(contents)), |bs|)
  {
    var body := Encode(Flat(units));
    var s := ("\"" + (body + "\"")) + rest;
    assert s[0] == '"' && s[1..] == body + ("\"" + rest);
    BytesAreEncoded(units);
    StringReads(units, contents, "\"" + rest);
  }

  lemma SymbolScans(t: Tok, rest: string, read: Reader)
    requires !t.Ident? && !t.Number? && !t.Str? && !IsKeyword(t) && EndsBefore(t, FixedText(t), rest)
    ensures Ascii(FixedText(t)) && ScanOne(FixedText(t) + rest, read) == Token(t, |FixedText(t)|)
  {
    var s := FixedText(t) + rest;
    if t.Ne? || t.Le? || t.Ge? { assert s[1] == '='; } else if rest != "" { assert s[1] == rest[0]; }
  }

  lemma {:induction false} LowerAt(s: string)
    ensures |Lower(s)| == |s|
    ensures forall i :: 0 <= i < |s| ==> Lower(s)[i] == if 'A' <= s[i] <= 'Z' then s[i] + 32 as char else s[i]
  {
    if s != "" { LowerAt(s[1..]); }
  }

  lemma LowerMeans(word: string, lower: string)
    requires forall i :: 0 <= i < |lower| ==> 'a' <= lower[i] <= 'z'
    ensures Lower(word) == lower <==> CaseVariant(word, lower)
  {
    LowerAt(word);
    if CaseVariant(word, lower) {
      forall i | 0 <= i < |word| ensures Lower(word)[i] == lower[i] {}
    }
  }

  lemma KeywordsAreLower(t: Tok)
    requires IsKeyword(t)
    ensures FixedText(t) != "" && forall i :: 0 <= i < |FixedText(t)| ==> 'a' <= FixedText(t)[i] <= 'z'
    ensures Keyword(FixedText(t)) == Some(t)
  {
  }

  lemma KeywordsAreListed(lower: string)
    requires Keyword(lower).Some?
    ensures IsKeyword(Keyword(lower).value) && FixedText(Keyword(lower).value) == lower
  {
  }

  /** A word is a keyword in any letter case, and otherwise an identifier. */
  lemma WordsMean(word: string)
    ensures forall t | IsKeyword(t) :: WordToken(word) == t <==> CaseVariant(word, FixedText(t))
    ensures (forall t | IsKeyword(t) :: !CaseVariant(word, FixedText(t))) ==> WordToken(word) == Ident(word)
  {
    forall t | IsKeyword(t) ensures WordToken(word) == t <==> CaseVariant(word, FixedText(t)) {
      KeywordsAreLower(t);
      LowerMeans(word, FixedText(t));
      if Keyword(Lower(word)).Some? { KeywordsAreListed(Lower(word)); }
    }
    if Keyword(Lower(word)).Some? { KeywordsAreListed(Lower(word)); }
  }

  lemma KeywordScans(t: Tok, word: string, rest: string, read: Reader)
    requires IsKeyword(t) && CaseVariant(word, FixedText(t)) && (rest == "" || !WordChar(rest[0]))
    ensures Ascii(word) && ScanOne(word + rest, read) == Token(t, |word|)
  {
    KeywordsAreLower(t);
    forall i | 0 <= i < |word| ensures WordChar(word[i]) && !Decimal(word[i]) { assert 'a' <= FixedText(t)[i] <= 'z'; }
    WordsMean(word);
    WordScans(word, rest, read);
  }

  lemma EncodeQuoted(body: string)
    ensures Encode("\"" + body + "\"") == "\"" + (Encode(body) + "\"")
  {
    EncodeConcat("\"" + body, "\"");
    EncodeConcat("\"", body);
    EncodeAsciiIff("\"");
  }

  /** Any spelling of a token, with anything after it that does not run into it, is read as the token. */
  lemma TokenScans(t: Tok, text: string, rest: string, read: Reader)
    requires Spells(t, text, read) && EndsBefore(t, text, rest)
    ensures Encode(text) + rest != "" && ScanOne(Encode(text) + rest, read) == Token(Decoded(t), |Encode(text)|)
  {
    if t.Str? {
      var units :| SpellsString(units, t.text) && text == "\"" + Flat(units) + "\"";
      EncodeQuoted(Flat(units));
      StringScans(units, t.text, rest, read);
    } else {
      PlainScans(t, text, rest, read);
      EncodeAsciiIff(text);
    }
  }

  lemma PlainScans(t: Tok, text: string, rest: string, read: Reader)
    requires !t.Str? && Spells(t, text, read) && EndsBefore(t, text, rest)
    ensures text != "" && Ascii(text) && ScanOne(text + rest, read) == Token(t, |text|)
  {
    match t
    case Ident(name) => WordsMean(name); WordScans(name, rest, read);
    case Number(x) =>
      var n :| SpellsNumber(n, text) && Stops(n, rest);
      NumberScans(x, n, rest, read);
      NumberIs(n, rest);
    case _ =>
      if IsKeyword(t) { KeywordScans(t, text, rest, read); KeywordsAreLower(t); } else { SymbolScans(t, rest, read); }
  }

  function Toks(ts: seq<Spanned>): seq<Tok>
  {
    if ts == [] then [] else [ts[0].tok] + Toks(ts[1..])
  }

  function DecodedAll(toks: seq<Tok>): seq<Tok>
  {
    if toks == [] then [] else [Decoded(toks[0])] + DecodedAll(toks[1..])
  }

  ghost predicate AllRenderable(toks: seq<Tok>, read: Reader, show: Shower)
  {
    forall i :: 0 <= i < |toks| ==> Renderable(toks[i], read, show)
  }

  ghost predicate AsciiStrings(toks: seq<Tok>)
  {
    forall i :: 0 <= i < |toks| && toks[i].Str? ==> Ascii(toks[i].text)
  }

  lemma {:induction false} DecodedIff(toks: seq<Tok>)
    ensures DecodedAll(toks) == toks <==> AsciiStrings(toks)
  {
    if toks != [] {
      DecodedIff(toks[1..]);
      if toks[0].Str? { EncodeAsciiIff(toks[0].text); }
      assert toks == [toks[0]] + toks[1..];
      if AsciiStrings(toks) { assert AsciiStrings(toks[1..]); }
      if DecodedAll(toks) == toks { assert DecodedAll(toks)[1..] == DecodedAll(toks[1..]); }
    }
  }

  lemma TokenIsScanned(scan: Scanner, t: Tok, text: string, rest: string, read: Reader)
    requires Linked(scan, read) && Spells(t, text, read) && EndsBefore(t, text, rest)
    ensures Encode(text) + rest != "" && scan(Encode(text) + rest) == Token(Decoded(t), |Encode(text)|)
  {
    TokenScans(t, text, rest, read);
  }

  /** White space is skipped. */
  lemma {:induction false} GapIsSkipped(scan: Scanner, gap: string, rest: string, base: nat, read: Reader)
    requires Linked(scan, read) && Blank(gap)
    ensures LexWith(scan, gap + rest, base) == LexWith(scan, rest, base + |gap|)
    decreases |gap|
  {
    if gap == "" {
      assert gap + rest == rest;
    } else {
      var s := gap + rest;
      assert s[0] == gap[0] && s[1..] == gap[1..] + rest;
      assert ScanOne(s, read) == Skip;
      GapIsSkipped(scan, gap[1..], rest, base + 1, read);
    }
  }

  lemma BlankIsAscii(gap: string)
    requires Blank(gap)
    ensures Encode(gap) == gap
  {
    EncodeAsciiIff(gap);
  }

  /** The first token of a text, and what is left after it and its gap. */
  lemma LexFirst(scan: Scanner, p: Piece, s: string, more: string, rest: string, base: nat, read: Reader)
      returns (next: nat)
    requires Linked(scan, read) && Spells(p.tok, p.text, read) && Blank(p.gap) && EndsBefore(p.tok, p.text, more)
    requires s == Encode(p.text) + more && more == p.gap + rest
    ensures next == base + |s| - |rest|
    ensures LexWith(scan, s, base) == Prepend(Spanned(Decoded(p.tok), base), LexWith(scan, rest, next))
  {
    var bs := Encode(p.text);
    TokenIsScanned(scan, p.tok, p.text, more, read);
    LexPiece(scan, bs, more, Decoded(p.tok), base);
    GapIsSkipped(scan, p.gap, rest, base + |bs|, read);
    next := base + |bs| + |p.gap|;
  }

  lemma EncodePiece(p: Piece, rest: string, tail: string)
    requires Blank(p.gap)
    ensures Encode(p.text + (p.gap + rest)) + tail == Encode(p.text) + (Encode(p.gap + rest) + tail)
    ensures Encode(p.gap + rest) + tail == p.gap + (Encode(rest) + tail)
  {
    EncodeConcat(p.text, p.gap + rest);
    Associates(Encode(p.text), Encode(p.gap + rest), tail);
    EncodeLead(p.gap, rest, tail);
  }

  lemma LexPiece(scan: Scanner, bs: string, more: string, t: Tok, base: nat)
    requires bs + more != "" && scan(bs + more) == Token(t, |bs|)
    ensures LexWith(scan, bs + more, base) == Prepend(Spanned(t, base), LexWith(scan, more, base + |bs|))
  {
    assert (bs + more)[|bs|..] == more;
  }

  ghost predicate LexesTo(r: Result<seq<Spanned>, LexError>, toks: seq<Tok>) { r.Ok? && Toks(r.value) == toks }

  /** After the pieces the lexer goes on with `tail`. */
  lemma {:induction false} WrittenIsLexed(scan: Scanner, pieces: seq<Piece>, tail: string, base: nat, read: Reader)
      returns (ts: seq<Spanned>, next: nat)
    requires Linked(scan, read) && Written(pieces, tail, read)
    ensures Toks(ts) == DecodedAll(TokensOf(pieces)) && next == base + |Encode(TextOf(pieces))|
    ensures LexWith(scan, Encode(TextOf(pieces)) + tail, base) == Append(ts, LexWith(scan, tail, next))
    decreases |pieces|
  {
    ts, next := [], base;
    if pieces == [] {
      assert Encode(TextOf(pieces)) + tail == tail;
      AppendExtends([], Spanned(Dot, 0), LexWith(scan, tail, base));
    } else {
      var t, from := FirstIsLexed(scan, pieces, tail, base, read);
      ts, next := WrittenIsLexed(scan, pieces[1..], tail, from, read);
      PrependAppends(t, ts, LexWith(scan, tail, next));
      ts := [t] + ts;
    }
  }

  lemma FirstIsLexed(scan: Scanner, pieces: seq<Piece>, tail: string, base: nat, read: Reader)
      returns (t: Spanned, next: nat)
    requires Linked(scan, read) && Written(pieces, tail, read) && pieces != []
    ensures t.tok == Decoded(pieces[0].tok)
    ensures next + |Encode(TextOf(pieces[1..]))| == base + |Encode(TextOf(pieces))|
    ensures LexWith(scan, Encode(TextOf(pieces)) + tail, base) ==
            Prepend(t, LexWith(scan, Encode(TextOf(pieces[1..])) + tail, next))
  {
    var p, rest := pieces[0], TextOf(pieces[1..]);
    t := Spanned(Decoded(p.tok), base);
    EncodePiece(p, rest, tail);
    var more := Encode(p.gap + rest) + tail;
    next := LexFirst(scan, p, Encode(TextOf(pieces)) + tail, more, Encode(rest) + tail, base, read);
  }

  lemma PrependAppends(t: Spanned, ts: seq<Spanned>, rest: Result<seq<Spanned>, LexError>)
    ensures Prepend(t, Append(ts, rest)) == Append([t] + ts, rest)
  {
    if rest.Ok? { assert [t] + (ts + rest.value) == ([t] + ts) + rest.value; }
  }

  lemma LeadIsLexed(scan: Scanner, lead: string, pieces: seq<Piece>, tail: string, read: Reader)
      returns (ts: seq<Spanned>, next: nat)
    requires Linked(scan, read) && Blank(lead) && Written(pieces, tail, read)
    ensures Toks(ts) == DecodedAll(TokensOf(pieces)) && next == |Encode(lead + TextOf(pieces))|
    ensures LexWith(scan, Encode(lead + TextOf(pieces)) + tail, 0) == Append(ts, LexWith(scan, tail, next))
  {
    EncodeLead(lead, TextOf(pieces), tail);
    SkipLead(scan, Encode(lead + TextOf(pieces)) + tail, lead, Encode(TextOf(pieces)) + tail, read);
    ts, next := WrittenIsLexed(scan, pieces, tail, |lead|, read);
  }

  lemma EncodeLead(lead: string, text: string, tail: string)
    requires Blank(lead)
    ensures |Encode(lead + text)| == |lead| + |Encode(text)|
    ensures Encode(lead + text) + tail == lead + (Encode(text) + tail)
  {
    EncodeBlank(lead, text);
    Associates(lead, Encode(text), tail);
  }

  lemma EncodeBlank(lead: string, text: string)
    requires Blank(lead)
    ensures Encode(lead + text) == lead + Encode(text)
  {
    EncodeConcat(lead, text);
    BlankIsAscii(lead);
  }

  lemma NothingAfter(a: string)
    ensures a + "" == a
  {
  }

  lemma Associates(a: string, b: string, c: string)
    ensures (a + b) + c == a + (b + c)
  {
  }

  lemma SkipLead(scan: Scanner, s: string, lead: string, rest: string, read: Reader)
    requires Linked(scan, read) && Blank(lead) && s == lead + rest
    ensures LexWith(scan, s, 0) == LexWith(scan, rest, |lead|)
  {
    GapIsSkipped(scan, lead, rest, 0, read);
  }

  /**
   Any way to write a token list: keywords in any letter case, numbers in any
   form that reads as their value, characters of strings escaped or not, and
   white space of any kind wherever two tokens would run together, lexes to the
   list, with its strings as UTF-8 bytes and strictly increasing offsets.
   */
  lemma LexInvertsWriting(lead: string, pieces: seq<Piece>, read: Reader)
    requires Blank(lead) && Written(pieces, "", read)
    ensures var text := Encode(lead + TextOf(pieces)); var r := Lex(text, 0, read);
            && LexesTo(r, DecodedAll(TokensOf(pieces))) && Increasing(r.value, 0, |text|)
            && (Toks(r.value) == TokensOf(pieces) <==> AsciiStrings(TokensOf(pieces)))
  {
    var text := Encode(lead + TextOf(pieces));
    var ts, _ := LeadIsLexed(ScannerOf(read), lead, pieces, "", read);
    assert text + "" == text && ts + [] == ts;
    OffsetsIncrease(ScannerOf(read), text, 0);
    DecodedIff(TokensOf(pieces));
  }

  lemma BadFails(tail: string, problem: Problem, read: Reader)
    requires Bad(tail, problem, read)
    ensures tail != "" && ScanOne(tail, read) == Fail(problem)
  {
    match problem
    case UnterminatedString =>
      var units, contents :| SpellsString(units, contents) && tail == "\"" + Encode(Flat(units));
      assert Encode(Flat(units)) + "" == Encode(Flat(units));
      BrokenString(tail, "", read);
    case UnterminatedEscape => BrokenString(tail, "\\", read);
    case InvalidNumber =>
      var n, rest :| Proper(n) && Stops(n, rest) && tail == NumeralText(n) + rest && read(NumeralText(n)) == None;
      BadNumber(n, rest, read);
    case UnexpectedCharacter => assert tail[..1][0] == tail[0];
    case ExpectedNe =>
  }

  lemma BadNumber(n: Numeral, rest: string, read: Reader)
    requires Proper(n) && Stops(n, rest) && read(NumeralText(n)) == None
    ensures NumeralText(n) + rest != "" && ScanOne(NumeralText(n) + rest, read) == Fail(InvalidNumber)
  {
    NumberIs(n, rest);
    NumberLexes(NumeralText(n), rest, read);
  }

  lemma BrokenString(tail: string, end: string, read: Reader)
    requires end == "" || end == "\\"
    requires exists units, contents :: SpellsString(units, contents) && tail == "\"" + (Encode(Flat(units)) + end)
    ensures tail != "" && ScanOne(tail, read) == Fail(if end == "" then UnterminatedString else UnterminatedEscape)
  {
    var units, contents :| SpellsString(units, contents) && tail == "\"" + (Encode(Flat(units)) + end);
    BytesAreEncoded(units);
    StringBreaks(units, contents, end);
    assert tail[0] == '"' && tail[1..] == BytesOf(units) + end;
  }

  lemma {:induction false} StringBreaks(units: seq<string>, contents: string, end: string)
    requires SpellsString(units, contents) && (end == "" || end == "\\")
    ensures ReadString(BytesOf(units) + end) == Err(if end == "" then UnterminatedString else UnterminatedEscape)
  {
    if units == [] {
      assert BytesOf(units) + end == end;
    } else {
      assert SpellsString(units[1..], contents[1..]);
      StringBreaks(units[1..], contents[1..], end);
      UnitReads(units[0], contents[0], BytesOf(units[1..]) + end);
      assert BytesOf(units) + end == Encode(units[0]) + (BytesOf(units[1..]) + end);
    }
  }

  /** A text that goes wrong after some tokens is refused at the offset where it goes wrong, with its reason. */
  lemma BadTextIsRefused(lead: string, pieces: seq<Piece>, tail: string, problem: Problem, read: Reader)
    requires Blank(lead) && Written(pieces, tail, read) && Bad(tail, problem, read)
    ensures var good := Encode(lead + TextOf(pieces)); Lex(good + tail, 0, read) == Err(LexError(|good|, problem))
  {
    BadFails(tail, problem, read);
    var ts, _ := LeadIsLexed(ScannerOf(read), lead, pieces, tail, read);
  }

  lemma NumberBeforeSpace(n: Numeral, rest: string)
    requires rest != "" && rest[0] == ' '
    ensures Stops(n, rest)
  {
  }

  lemma {:induction false} RenderedIsWritten(toks: seq<Tok>, read: Reader, show: Shower)
    requires AllRenderable(toks, read, show)
    ensures Written(PiecesOf(toks, show), "", read) && TextOf(PiecesOf(toks, show)) == Render(toks, show)
    ensures TokensOf(PiecesOf(toks, show)) == toks
  {
    if toks != [] {
      var pieces := PiecesOf(toks, show);
      RenderedIsWritten(toks[1..], read, show);
      assert pieces[1..] == PiecesOf(toks[1..], show);
      OneIsWritten(toks[0], Render(toks[1..], show), read, show);
      Associates(RenderTok(toks[0], show), " ", Render(toks[1..], show));
    }
  }

  lemma OneIsWritten(t: Tok, rest: string, read: Reader, show: Shower)
    requires Renderable(t, read, show)
    ensures Spells(t, RenderTok(t, show), read) && EndsBefore(t, RenderTok(t, show), Encode(" " + rest) + "")
  {
    NothingAfter(Encode(" " + rest));
    EncodeConcat(" ", rest);
    EncodeAsciiIff(" ");
    assert Encode(" " + rest)[0] == ' ';
    if t.Number? {
      var n :| SpellsNumber(n, show(t.num));
      NumberBeforeSpace(n, Encode(" " + rest));
    } else if t.Str? {
      EscapeSpells(t.text);
    }
  }

  /** In particular the list with spaces between its tokens comes back, unchanged exactly for ASCII strings. */
  lemma LexInvertsRender(toks: seq<Tok>, read: Reader, show: Shower)
    requires AllRenderable(toks, read, show)
    ensures var text := Encode(Render(toks, show)); var r := Lex(text, 0, read);
            && LexesTo(r, DecodedAll(toks)) && Increasing(r.value, 0, |text|)
            && (Toks(r.value) == toks <==> AsciiStrings(toks))
  {
    RenderedIsWritten(toks, read, show);
    LexInvertsWriting("", PiecesOf(toks, show), read);
    assert "" + Render(toks, show) == Render(toks, show);
  }
}
