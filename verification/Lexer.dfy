/**
 The CaQL lexer (`caql/lex.rs`).  It works on the UTF-8 bytes of the query; a
 byte is modelled as the character with that code.  The standard library's
 number parser is the parameter `read`.
 */
module Lexer {
  import opened Wrappers

  datatype Tok =
    | Select | Where | And | Or | Not | In | Like | Contains | Exists | True | False | Null
    | Ident(name: string)
    | Number(num: real)
    | Str(text: string)
    | Dot | Comma | Star | LParen | RParen | LBracket | RBracket
    | Eq | Ne | Lt | Le | Gt | Ge

  datatype Spanned = Spanned(tok: Tok, offset: nat)

  datatype Problem = ExpectedNe | UnterminatedEscape | UnterminatedString | InvalidNumber | UnexpectedCharacter

  datatype LexError = LexError(offset: nat, problem: Problem)

  type Reader = string -> Option<real>

  // ---- Character classes ----

  predicate IsSpace(c: char) { c == ' ' || c == '\t' || c == '\n' || c == '\r' || c as int == 12 }

  predicate IsDigit(c: char) { '0' <= c <= '9' }

  predicate IsAlpha(c: char) { 'a' <= c <= 'z' || 'A' <= c <= 'Z' }

  predicate IsNumberBody(c: char) { IsDigit(c) || c == '.' }

  predicate IsIdentBody(c: char) { IsAlpha(c) || IsDigit(c) || c == '_' }

  function Lower(s: string): string
  {
    if s == "" then "" else [if 'A' <= s[0] <= 'Z' then s[0] + 32 as char else s[0]] + Lower(s[1..])
  }

  function Keyword(lower: string): Option<Tok>
  {
    if lower == "select" then Some(Select)
    else if lower == "where" then Some(Where)
    else if lower == "and" then Some(And)
    else if lower == "or" then Some(Or)
    else if lower == "not" then Some(Not)
    else if lower == "in" then Some(In)
    else if lower == "like" then Some(Like)
    else if lower == "contains" then Some(Contains)
    else if lower == "exists" then Some(Exists)
    else if lower == "true" then Some(True)
    else if lower == "false" then Some(False)
    else if lower == "null" then Some(Null)
    else None
  }

  /** Keywords are recognised in any letter case. */
  function WordToken(word: string): Tok
  {
    match Keyword(Lower(word)) { case Some(k) => k case None => Ident(word) }
  }

  /** Length of the longest prefix whose characters are all in the class. */
  function RunLength(s: string, inClass: char -> bool): (n: nat)
    ensures n <= |s|
    ensures forall i :: 0 <= i < n ==> inClass(s[i])
    ensures n < |s| ==> !inClass(s[n])
  {
    if s == "" || !inClass(s[0]) then 0 else 1 + RunLength(s[1..], inClass)
  }

  /** Length of the number at the start: sign, digits and dots, optional exponent. */
  function NumberLength(s: string): (n: nat)
    ensures n <= |s|
    ensures s != "" && (IsNumberBody(s[0]) || IsSign(s[0])) ==> 1 <= n
  {
    var b := MantissaLength(s);
    b + ExponentLength(s[b..])
  }

  function MantissaLength(s: string): (n: nat)
    ensures n <= |s|
    ensures s != "" && (IsNumberBody(s[0]) || IsSign(s[0])) ==> 1 <= n
  {
    if s != "" && IsSign(s[0]) then 1 + RunLength(s[1..], IsNumberBody) else RunLength(s, IsNumberBody)
  }

  predicate IsSign(c: char) { c == '-' || c == '+' }

  function ExponentLength(s: string): (n: nat)
    ensures n <= |s|
  {
    if s != "" && (s[0] == 'e' || s[0] == 'E') then
      var d := if 1 < |s| && IsSign(s[1]) then 2 else 1;
      d + RunLength(s[d..], IsDigit)
    else 0
  }

  function Unescape(c: char): char
  {
    if c == 'n' then '\n' else if c == 't' then '\t' else if c == 'r' then '\r' else c
  }

  datatype Quoted = Quoted(text: string, length: nat)

  /** The rest of a string literal, up to and including its closing quote. */
  function ReadString(s: string): (r: Result<Quoted, Problem>)
    ensures r.Ok? ==> 1 <= r.value.length <= |s|
  {
    if s == "" then Err(UnterminatedString)
    else if s[0] == '\\' then
      if |s| == 1 then Err(UnterminatedEscape) else Extend(Unescape(s[1]), 2, ReadString(s[2..]))
    else if s[0] == '"' then Ok(Quoted("", 1))
    else Extend(s[0], 1, ReadString(s[1..]))
  }

  function Extend(c: char, n: nat, rest: Result<Quoted, Problem>): Result<Quoted, Problem>
  {
    match rest
    case Err(e) => Err(e)
    case Ok(q) => Ok(Quoted([c] + q.text, n + q.length))
  }

  datatype Scan = Skip | Token(tok: Tok, length: nat) | Fail(problem: Problem)

  function Either(s: string, then2: Tok, else1: Tok): Scan
  {
    if |s| > 1 && s[1] == '=' then Token(then2, 2) else Token(else1, 1)
  }

  /** One round of the tokenizer loop on the text that is left. */
  function ScanOne(s: string, read: Reader): (r: Scan)
    requires s != ""
    ensures r.Token? ==> 1 <= r.length <= |s|
  {
    var c := s[0];
    if IsSpace(c) then Skip
    else if c == '.' then Token(Dot, 1)
    else if c == ',' then Token(Comma, 1)
    else if c == '*' then Token(Star, 1)
    else if c == '(' then Token(LParen, 1)
    else if c == ')' then Token(RParen, 1)
    else if c == '[' then Token(LBracket, 1)
    else if c == ']' then Token(RBracket, 1)
    else if c == '=' then Token(Eq, 1)
    else if c == '!' then (if |s| > 1 && s[1] == '=' then Token(Ne, 2) else Fail(ExpectedNe))
    else if c == '<' then Either(s, Le, Lt)
    else if c == '>' then Either(s, Ge, Gt)
    else if c == '"' then
      match ReadString(s[1..]) { case Ok(q) => Token(Str(q.text), 1 + q.length) case Err(e) => Fail(e) }
    else if IsDigit(c) || IsSign(c) then
      var n := NumberLength(s);
      match read(s[..n]) { case Some(x) => Token(Number(x), n) case None => Fail(InvalidNumber) }
    else if IsAlpha(c) || c == '_' then
      var n := RunLength(s, IsIdentBody);
      Token(WordToken(s[..n]), n)
    else Fail(UnexpectedCharacter)
  }

  function Prepend(t: Spanned, rest: Result<seq<Spanned>, LexError>): Result<seq<Spanned>, LexError>
  {
    match rest { case Ok(ts) => Ok([t] + ts) case Err(e) => Err(e) }
  }

  /** A way to take the first token of a text; it always advances. */
  type Scanner = f: string -> Scan | forall s :: s != "" && f(s).Token? ==> 1 <= f(s).length <= |s|
    witness (s: string) => Skip

  function ScannerOf(read: Reader): Scanner
  {
    (s: string) => if s == "" then Skip else ScanOne(s, read)
  }

  /** All tokens of `s`, whose first byte is at `base`. */
  function LexWith(scan: Scanner, s: string, base: nat): Result<seq<Spanned>, LexError>
    decreases |s|
  {
    if s == "" then Ok([])
    else match scan(s)
      case Skip => LexWith(scan, s[1..], base + 1)
      case Token(tok, n) => Prepend(Spanned(tok, base), LexWith(scan, s[n..], base + n))
      case Fail(problem) => Err(LexError(base, problem))
  }

  function Lex(s: string, base: nat, read: Reader): Result<seq<Spanned>, LexError>
  {
    LexWith(ScannerOf(read), s, base)
  }

  /** The two ways to say what one round of the loop does. */
  ghost predicate Linked(scan: Scanner, read: Reader)
  {
    forall s {:trigger ScanOne(s, read)} :: s != "" ==> scan(s) == ScanOne(s, read)
  }

  // ---- The tokenizer loop ----

  function After(prefix: string, n: nat, rest: Result<Quoted, Problem>): Result<Quoted, Problem>
  {
    match rest
    case Err(e) => Err(e)
    case Ok(q) => Ok(Quoted(prefix + q.text, n + q.length))
  }

  lemma AfterExtends(prefix: string, n: nat, c: char, k: nat, rest: Result<Quoted, Problem>)
    ensures After("", 0, rest) == rest
    ensures After(prefix, n, Extend(c, k, rest)) == After(prefix + [c], n + k, rest)
  {
    if rest.Ok? {
      assert "" + rest.value.text == rest.value.text;
      assert prefix + ([c] + rest.value.text) == (prefix + [c]) + rest.value.text;
    }
  }

  lemma AfterClose(prefix: string, n: nat)
    ensures After(prefix, n, Ok(Quoted("", 1))) == Ok(Quoted(prefix, n + 1))
  {
    assert prefix + "" == prefix;
  }

  /** The inner loop for a string literal that opens at `start`; `next` is the index after the closing quote. */
  method ScanString(src: string, start: nat) returns (result: Result<string, Problem>, next: nat)
    requires start < |src|
    ensures match ReadString(src[start + 1..])
            case Ok(q) => result == Ok(q.text) && next == start + 1 + q.length
            case Err(e) => result == Err(e)
  {
    var i := start + 1;
    var text := "";
    ghost var whole := ReadString(src[start + 1..]);
    AfterExtends("", 0, 'x', 0, whole);
    while i < |src|
      invariant start + 1 <= i <= |src|
      invariant whole == After(text, i - start - 1, ReadString(src[i..]))
      decreases |src| - i
    {
      var b := src[i];
      if b == '\\' {
        if i + 1 >= |src| {
          return Err(UnterminatedEscape), i;
        }
        var c := Unescape(src[i + 1]);
        AfterExtends(text, i - start - 1, c, 2, ReadString(src[i + 2..]));
        text := text + [c];
        i := i + 2;
      } else if b == '"' {
        AfterClose(text, i - start - 1);
        return Ok(text), i + 1;
      } else {
        AfterExtends(text, i - start - 1, b, 1, ReadString(src[i + 1..]));
        text := text + [b];
        i := i + 1;
      }
    }
    return Err(UnterminatedString), i;
  }

  method ScanWhile(src: string, from: nat, inClass: char -> bool) returns (j: nat)
    requires from <= |src|
    ensures j == from + RunLength(src[from..], inClass)
  {
    j := from;
    while j < |src| && inClass(src[j])
      invariant from <= j <= |src|
      invariant from + RunLength(src[from..], inClass) == j + RunLength(src[j..], inClass)
    {
      assert src[j..][1..] == src[j + 1..];
      j := j + 1;
    }
  }

  method ScanNumber(src: string, i: nat) returns (j: nat)
    requires i < |src|
    ensures j == i + NumberLength(src[i..])
  {
    if IsSign(src[i]) {
      assert src[i..][1..] == src[i + 1..];
      j := ScanWhile(src, i + 1, IsNumberBody);
    } else {
      j := ScanWhile(src, i, IsNumberBody);
    }
    assert j == i + MantissaLength(src[i..]);
    assert src[i..][j - i..] == src[j..];
    j := ScanExponent(src, j);
  }

  method ScanExponent(src: string, i: nat) returns (j: nat)
    requires i <= |src|
    ensures j == i + ExponentLength(src[i..])
  {
    j := i;
    if j < |src| && (src[j] == 'e' || src[j] == 'E') {
      j := j + 1;
      if j < |src| && IsSign(src[j]) {
        j := j + 1;
      }
      assert src[i..][j - i..] == src[j..];
      j := ScanWhile(src, j, IsDigit);
    }
  }

  /** One round of the loop, on indices. */
  method ScanAt(src: string, i: nat, read: Reader) returns (r: Scan)
    requires i < |src|
    ensures r == ScanOne(src[i..], read)
  {
    var c := src[i];
    if IsSpace(c) {
      return Skip;
    }
    match c
    case '.' => return Token(Dot, 1);
    case ',' => return Token(Comma, 1);
    case '*' => return Token(Star, 1);
    case '(' => return Token(LParen, 1);
    case ')' => return Token(RParen, 1);
    case '[' => return Token(LBracket, 1);
    case ']' => return Token(RBracket, 1);
    case '=' => return Token(Eq, 1);
    case '!' => return if i + 1 < |src| && src[i + 1] == '=' then Token(Ne, 2) else Fail(ExpectedNe);
    case '<' => return if i + 1 < |src| && src[i + 1] == '=' then Token(Le, 2) else Token(Lt, 1);
    case '>' => return if i + 1 < |src| && src[i + 1] == '=' then Token(Ge, 2) else Token(Gt, 1);
    case '"' =>
      var text, next := ScanString(src, i);
      assert src[i..][1..] == src[i + 1..];
      return match text { case Ok(t) => Token(Str(t), next - i) case Err(e) => Fail(e) };
    case _ =>
      if IsDigit(c) || IsSign(c) {
        var j := ScanNumber(src, i);
        assert src[i..][..j - i] == src[i..j];
        return match read(src[i..j]) { case Some(x) => Token(Number(x), j - i) case None => Fail(InvalidNumber) };
      } else if IsAlpha(c) || c == '_' {
        var j := ScanWhile(src, i, IsIdentBody);
        assert src[i..][..j - i] == src[i..j];
        return Token(WordToken(src[i..j]), j - i);
      } else {
        return Fail(UnexpectedCharacter);
      }
  }

  function Append(out: seq<Spanned>, rest: Result<seq<Spanned>, LexError>): Result<seq<Spanned>, LexError>
  {
    match rest { case Ok(ts) => Ok(out + ts) case Err(e) => Err(e) }
  }

  lemma AppendExtends(out: seq<Spanned>, t: Spanned, rest: Result<seq<Spanned>, LexError>)
    ensures Append([], rest) == rest
    ensures Append(out, Prepend(t, rest)) == Append(out + [t], rest)
  {
    if rest.Ok? {
      assert [] + rest.value == rest.value;
      assert out + ([t] + rest.value) == (out + [t]) + rest.value;
    }
  }

  /** After `i` bytes and with the tokens `out`, the result is still `whole`. */
  ghost predicate Reaches(whole: Result<seq<Spanned>, LexError>, scan: Scanner, src: string, i: nat, out: seq<Spanned>)
  {
    i <= |src| && whole == Append(out, LexWith(scan, src[i..], i))
  }

  lemma ReachesEnd(whole: Result<seq<Spanned>, LexError>, scan: Scanner, src: string, out: seq<Spanned>)
    requires Reaches(whole, scan, src, |src|, out)
    ensures whole == Ok(out)
  {
    assert out + [] == out;
  }

  method ScanLinked(src: string, i: nat, read: Reader, ghost scan: Scanner) returns (r: Scan)
    requires i < |src| && Linked(scan, read)
    ensures r == scan(src[i..])
  {
    r := ScanAt(src, i, read);
  }

  method TokenizeWith(src: string, read: Reader, ghost scan: Scanner) returns (result: Result<seq<Spanned>, LexError>)
    requires Linked(scan, read)
    ensures result == LexWith(scan, src, 0)
  {
    var out: seq<Spanned> := [];
    var i := 0;
    ghost var whole := LexWith(scan, src, 0);
    assert src[0..] == src;
    AppendExtends([], Spanned(Dot, 0), whole);
    while i < |src|
      invariant Reaches(whole, scan, src, i, out)
      decreases |src| - i
    {
      var token := ScanLinked(src, i, read, scan);
      match token
      case Skip =>
        i := i + 1;
      case Fail(problem) => return Err(LexError(i, problem));
      case Token(tok, n) =>
        AppendExtends(out, Spanned(tok, i), LexWith(scan, src[i + n..], i + n));
        out := out + [Spanned(tok, i)];
        i := i + n;
    }
    ReachesEnd(whole, scan, src, out);
    return Ok(out);
  }

  /** `tokenize`: the scan always advances. */
  method Tokenize(src: string, read: Reader) returns (result: Result<seq<Spanned>, LexError>)
    ensures result == Lex(src, 0, read)
  {
    result := TokenizeWith(src, read, ScannerOf(read));
  }

  ghost predicate Increasing(ts: seq<Spanned>, from: nat, to: nat)
  {
    && (forall i :: 0 <= i < |ts| ==> from <= ts[i].offset < to)
    && (forall i, j :: 0 <= i < j < |ts| ==> ts[i].offset < ts[j].offset)
  }

  /** Offsets strictly increase and lie inside the text, whatever the text. */
  lemma {:induction false} OffsetsIncrease(scan: Scanner, s: string, base: nat)
    ensures LexWith(scan, s, base).Ok? ==> Increasing(LexWith(scan, s, base).value, base, base + |s|)
    decreases |s|
  {
    if s != "" {
      match scan(s)
      case Skip => OffsetsIncrease(scan, s[1..], base + 1);
      case Token(tok, n) =>
        OffsetsIncrease(scan, s[n..], base + n);
      case Fail(_) =>
    }
  }

}
