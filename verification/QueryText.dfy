/** CaQL text (`caql/mod.rs`): `parse` is the lexer followed by the parser, and inverts printing. */
module QueryText {
  import opened Wrappers
  import opened Documents
  import opened QueryAst
  import opened ParserRoundTrip
  import G = Grammar
  import L = Lexer
  import P = Parser
  import T = LexerRoundTrip

  datatype TextError = Lexical(lexical: L.LexError) | Syntactic(syntactic: P.ParseError)

  /** The query that the bytes of `text` denote. */
  function ParseText(text: string, read: L.Reader): Result<Query, TextError>
  {
    match L.Lex(text, 0, read)
    case Err(e) => Err(Lexical(e))
    case Ok(toks) =>
      match P.Outcome(toks, P.ParseQuery(P.From(toks, 0)))
      case Err(e) => Err(Syntactic(e))
      case Ok(q) => Ok(q)
  }

  method Parse(text: string, read: L.Reader) returns (r: Result<Query, TextError>)
    ensures r == ParseText(text, read)
  {
    var toks := L.Tokenize(text, read);
    if toks.Err? {
      return Err(Lexical(toks.error));
    }
    var q := P.Parse(toks.value);
    r := if q.Err? then Err(Syntactic(q.error)) else Ok(q.value);
  }

  // ---- Which queries have a text ----

  /** A condition on the tokens that carry a name, a number or a string. */
  type TokenTest = L.Tok -> bool

  predicate PathPasses(path: FieldPath, ok: TokenTest)
  {
    forall i :: 0 <= i < |path| ==> ok(L.Ident(path[i]))
  }

  predicate LiteralPasses(v: Literal, ok: TokenTest)
  {
    match v
    case TextLit(text) => ok(L.Str(text))
    case NumberLit(n) => ok(L.Number(n))
    case ArrayLit(items) => forall i :: 0 <= i < |items| ==> LiteralPasses(items[i], ok)
    case _ => true
  }

  predicate PredicatePasses(p: Predicate, ok: TokenTest)
    requires Canonical(p)
  {
    match p
    case POr(items) => PredicatePasses(items[0], ok) && PredicatePasses(items[1], ok)
    case PAnd(items) => PredicatePasses(items[0], ok) && PredicatePasses(items[1], ok)
    case PNot(inner) => PredicatePasses(inner, ok)
    case PCompare(left, _, right) => PathPasses(left, ok) && LiteralPasses(right, ok)
    case PContains(path, value) => PathPasses(path, ok) && LiteralPasses(value, ok)
    case PExists(path) => PathPasses(path, ok)
  }

  predicate QueryPasses(q: Query, ok: TokenTest)
    requires CanonicalQuery(q)
  {
    && (q.condition != PTrue ==> PredicatePasses(q.condition, ok))
    && (q.projection.Fields? ==> forall i :: 0 <= i < |q.projection.paths| ==> PathPasses(q.projection.paths[i], ok))
  }

  ghost predicate AllPass(ts: seq<L.Tok>, ok: TokenTest) { forall i :: 0 <= i < |ts| ==> ok(ts[i]) }

  ghost predicate SkipsPlain(ok: TokenTest) { forall t: L.Tok :: !t.Ident? && !t.Number? && !t.Str? ==> ok(t) }

  lemma PassConcat(a: seq<L.Tok>, b: seq<L.Tok>, ok: TokenTest)
    ensures AllPass(a + b, ok) <==> AllPass(a, ok) && AllPass(b, ok)
  {
    if AllPass(a + b, ok) {
      forall i | 0 <= i < |a| ensures ok(a[i]) { assert (a + b)[i] == a[i]; }
      forall i | 0 <= i < |b| ensures ok(b[i]) { assert (a + b)[|a| + i] == b[i]; }
    }
  }

  lemma {:induction false} DottedPass(path: FieldPath, ok: TokenTest)
    requires SkipsPlain(ok)
    ensures AllPass(Dotted(path), ok) <==> PathPasses(path, ok)
  {
    if path != [] {
      DottedPass(path[1..], ok);
      PassConcat([L.Dot, L.Ident(path[0])], Dotted(path[1..]), ok);
      assert AllPass([L.Dot, L.Ident(path[0])], ok) <==> ok([L.Dot, L.Ident(path[0])][1]);
    }
  }

  lemma PathPass(path: FieldPath, ok: TokenTest)
    requires path != [] && SkipsPlain(ok)
    ensures AllPass(PrintPath(path), ok) <==> PathPasses(path, ok)
  {
    DottedPass(path[1..], ok);
    PassConcat([L.Ident(path[0])], Dotted(path[1..]), ok);
    assert AllPass([L.Ident(path[0])], ok) <==> ok([L.Ident(path[0])][0]);
  }

  lemma OnePass(t: L.Tok, ok: TokenTest)
    ensures AllPass([t], ok) <==> ok(t)
  {
    assert [t][0] == t;
  }

  lemma {:induction false} LiteralPass(v: Literal, ok: TokenTest)
    requires SkipsPlain(ok)
    ensures AllPass(PrintValue(v), ok) <==> LiteralPasses(v, ok)
    decreases v, if v.ArrayLit? then |v.items| + 1 else 0
  {
    match v
    case TextLit(text) => OnePass(L.Str(text), ok);
    case NumberLit(n) => OnePass(L.Number(n), ok);
    case ArrayLit(items) =>
      if items != [] {
        LiteralPass(items[0], ok);
        ItemsPass(v, 1, ok);
        PassConcat(PrintValue(items[0]), PrintItems(v, 1), ok);
        PassConcat([L.LBracket], PrintValue(items[0]) + PrintItems(v, 1), ok);
      }
    case _ =>
  }

  lemma {:induction false} ItemsPass(v: Literal, i: nat, ok: TokenTest)
    requires v.ArrayLit? && i <= |v.items| && SkipsPlain(ok)
    ensures AllPass(PrintItems(v, i), ok) <==> forall j :: i <= j < |v.items| ==> LiteralPasses(v.items[j], ok)
    decreases v, |v.items| - i
  {
    if i < |v.items| {
      LiteralPass(v.items[i], ok);
      ItemsPass(v, i + 1, ok);
      PassConcat(PrintValue(v.items[i]), PrintItems(v, i + 1), ok);
      PassConcat([L.Comma], PrintValue(v.items[i]) + PrintItems(v, i + 1), ok);
    }
  }

  lemma MiddlePass(a: seq<L.Tok>, t: L.Tok, b: seq<L.Tok>, ok: TokenTest)
    requires ok(t)
    ensures AllPass(a + ([t] + b), ok) <==> AllPass(a, ok) && AllPass(b, ok)
  {
    PassConcat(a, [t] + b, ok);
    PassConcat([t], b, ok);
  }

  lemma {:induction false} PredicatePass(p: Predicate, ok: TokenTest)
    requires Canonical(p) && SkipsPlain(ok)
    ensures AllPass(Bare(p), ok) <==> PredicatePasses(p, ok)
    decreases p, 0
  {
    match p
    case POr(items) =>
      OperandPass(items[0], 0, ok);
      OperandPass(items[1], 1, ok);
      MiddlePass(PrintAt(items[0], 0), L.Or, PrintAt(items[1], 1), ok);
    case PAnd(items) =>
      OperandPass(items[0], 1, ok);
      OperandPass(items[1], 2, ok);
      MiddlePass(PrintAt(items[0], 1), L.And, PrintAt(items[1], 2), ok);
    case PNot(inner) => OperandPass(inner, 2, ok); PassConcat([L.Not], PrintAt(inner, 2), ok);
    case PCompare(left, op, right) =>
      PathPass(left, ok);
      LiteralPass(right, ok);
      MiddlePass(PrintPath(left), OperatorToken(op), PrintValue(right), ok);
    case PContains(path, value) =>
      PathPass(path, ok);
      LiteralPass(value, ok);
      MiddlePass(PrintPath(path), L.Contains, PrintValue(value), ok);
    case PExists(path) => PathPass(path, ok); PassConcat([L.Exists], PrintPath(path), ok);
  }

  lemma {:induction false} OperandPass(p: Predicate, level: nat, ok: TokenTest)
    requires Canonical(p) && SkipsPlain(ok)
    ensures AllPass(PrintAt(p, level), ok) <==> PredicatePasses(p, ok)
    decreases p, 1
  {
    PredicatePass(p, ok);
    PassConcat([L.LParen], Bare(p) + [L.RParen], ok);
    PassConcat(Bare(p), [L.RParen], ok);
  }

  lemma {:induction false} PathsPass(paths: seq<FieldPath>, ok: TokenTest)
    requires (forall i :: 0 <= i < |paths| ==> paths[i] != []) && SkipsPlain(ok)
    ensures AllPass(PrintPaths(paths), ok) <==> forall i :: 0 <= i < |paths| ==> PathPasses(paths[i], ok)
  {
    if paths != [] {
      PathPass(paths[0], ok);
      PathsPass(paths[1..], ok);
      PassConcat([L.Comma], PrintPath(paths[0]) + PrintPaths(paths[1..]), ok);
      PassConcat(PrintPath(paths[0]), PrintPaths(paths[1..]), ok);
      forall i | 1 <= i < |paths| ensures paths[i] == paths[1..][i - 1] {}
    }
  }

  /** A token test holds throughout the printed query exactly when it holds of the names and literals in the query. */
  lemma QueryPass(q: Query, ok: TokenTest)
    requires CanonicalQuery(q) && SkipsPlain(ok)
    ensures AllPass(PrintQuery(q), ok) <==> QueryPasses(q, ok)
  {
    PassConcat(PrintProjection(q.projection), PrintCondition(q.condition), ok);
    if q.condition != PTrue {
      OperandPass(q.condition, 0, ok);
      PassConcat([L.Where], PrintAt(q.condition, 0), ok);
    }
    if q.projection.Fields? {
      var first, others := q.projection.paths[0], q.projection.paths[1..];
      assert q.projection.paths == [first] + others;
      PathPass(first, ok);
      PathsPass(others, ok);
      PassConcat([L.Select], PrintPath(first) + PrintPaths(others), ok);
      PassConcat(PrintPath(first), PrintPaths(others), ok);
      PathListSplits(first, others, ok);
    }
  }

  lemma PathListSplits(first: FieldPath, others: seq<FieldPath>, ok: TokenTest)
    ensures (forall i :: 0 <= i < |[first] + others| ==> PathPasses(([first] + others)[i], ok)) <==>
            PathPasses(first, ok) && forall i :: 0 <= i < |others| ==> PathPasses(others[i], ok)
  {
    assert ([first] + others)[0] == first;
    forall i | 0 <= i < |others| ensures ([first] + others)[i + 1] == others[i] {}
  }

  // ---- What the text denotes ----

  function DecodedLiteral(v: Literal): Literal
  {
    match v
    case TextLit(text) => TextLit(T.Encode(text))
    case ArrayLit(items) => ArrayLit(seq(|items|, i requires 0 <= i < |items| => DecodedLiteral(items[i])))
    case _ => v
  }

  function DecodedPredicate(p: Predicate): (r: Predicate)
    requires Canonical(p)
    ensures Canonical(r)
  {
    match p
    case POr(items) => POr([DecodedPredicate(items[0]), DecodedPredicate(items[1])])
    case PAnd(items) => PAnd([DecodedPredicate(items[0]), DecodedPredicate(items[1])])
    case PNot(inner) => PNot(DecodedPredicate(inner))
    case PCompare(left, op, right) => PCompare(left, op, DecodedLiteral(right))
    case PContains(path, value) => PContains(path, DecodedLiteral(value))
    case PExists(path) => p
  }

  /** The query with every string literal replaced by its UTF-8 bytes, one character per byte. */
  function DecodedQuery(q: Query): (r: Query)
    requires CanonicalQuery(q)
    ensures CanonicalQuery(r)
  {
    Query(q.projection, if q.condition == PTrue then PTrue else DecodedPredicate(q.condition))
  }

  lemma {:induction false} DecodedConcat(a: seq<L.Tok>, b: seq<L.Tok>)
    ensures T.DecodedAll(a + b) == T.DecodedAll(a) + T.DecodedAll(b)
  {
    if a == [] {
      assert a + b == b;
    } else {
      DecodedConcat(a[1..], b);
      assert (a + b)[0] == a[0] && (a + b)[1..] == a[1..] + b;
    }
  }

  lemma {:induction false} DecodedWithoutStrings(ts: seq<L.Tok>)
    requires forall i :: 0 <= i < |ts| ==> !ts[i].Str?
    ensures T.DecodedAll(ts) == ts
  {
    T.DecodedIff(ts);
  }

  lemma {:induction false} DottedHasNoStrings(path: FieldPath)
    ensures forall i :: 0 <= i < |Dotted(path)| ==> !Dotted(path)[i].Str?
  {
    if path != [] { DottedHasNoStrings(path[1..]); }
  }

  lemma DecodedPath(path: FieldPath)
    requires path != []
    ensures T.DecodedAll(PrintPath(path)) == PrintPath(path)
  {
    DottedHasNoStrings(path[1..]);
    DecodedWithoutStrings(PrintPath(path));
  }

  lemma {:induction false} DecodedPaths(paths: seq<FieldPath>)
    requires forall i :: 0 <= i < |paths| ==> paths[i] != []
    ensures T.DecodedAll(PrintPaths(paths)) == PrintPaths(paths)
  {
    if paths != [] {
      DecodedPath(paths[0]);
      DecodedPaths(paths[1..]);
      DecodedWithoutStrings([L.Comma]);
      DecodedConcat([L.Comma], PrintPath(paths[0]) + PrintPaths(paths[1..]));
      DecodedConcat(PrintPath(paths[0]), PrintPaths(paths[1..]));
    }
  }

  lemma DecodedAfter(t: L.Tok, b: seq<L.Tok>)
    requires !t.Str?
    ensures T.DecodedAll([t] + b) == [t] + T.DecodedAll(b)
  {
    assert ([t] + b)[1..] == b;
  }

  lemma DecodedMiddle(a: seq<L.Tok>, t: L.Tok, b: seq<L.Tok>)
    requires !t.Str?
    ensures T.DecodedAll(a + ([t] + b)) == T.DecodedAll(a) + ([t] + T.DecodedAll(b))
  {
    DecodedConcat(a, [t] + b);
    DecodedAfter(t, b);
  }

  lemma {:induction false} DecodedValue(v: Literal)
    ensures T.DecodedAll(PrintValue(v)) == PrintValue(DecodedLiteral(v))
    decreases v, if v.ArrayLit? then |v.items| + 1 else 0
  {
    if v.ArrayLit? && v.items != [] {
      DecodedValue(v.items[0]);
      DecodedItems(v, 1);
      DecodedAfter(L.LBracket, PrintValue(v.items[0]) + PrintItems(v, 1));
      DecodedConcat(PrintValue(v.items[0]), PrintItems(v, 1));
    } else if v.ArrayLit? {
      DecodedWithoutStrings([L.LBracket, L.RBracket]);
    } else {
      assert PrintValue(v)[1..] == [];
    }
  }

  lemma {:induction false} DecodedItems(v: Literal, i: nat)
    requires v.ArrayLit? && i <= |v.items|
    ensures T.DecodedAll(PrintItems(v, i)) == PrintItems(DecodedLiteral(v), i)
    decreases v, |v.items| - i
  {
    if i == |v.items| {
      DecodedWithoutStrings([L.RBracket]);
    } else {
      DecodedValue(v.items[i]);
      DecodedItems(v, i + 1);
      DecodedAfter(L.Comma, PrintValue(v.items[i]) + PrintItems(v, i + 1));
      DecodedConcat(PrintValue(v.items[i]), PrintItems(v, i + 1));
    }
  }

  lemma {:induction false} DecodedBare(p: Predicate)
    requires Canonical(p)
    ensures T.DecodedAll(Bare(p)) == Bare(DecodedPredicate(p))
    decreases p, 0
  {
    match p
    case POr(items) =>
      DecodedOperand(items[0], 0);
      DecodedOperand(items[1], 1);
      DecodedMiddle(PrintAt(items[0], 0), L.Or, PrintAt(items[1], 1));
    case PAnd(items) =>
      DecodedOperand(items[0], 1);
      DecodedOperand(items[1], 2);
      DecodedMiddle(PrintAt(items[0], 1), L.And, PrintAt(items[1], 2));
    case PNot(inner) => DecodedOperand(inner, 2); DecodedAfter(L.Not, PrintAt(inner, 2));
    case PCompare(left, op, right) =>
      DecodedPath(left);
      DecodedValue(right);
      DecodedMiddle(PrintPath(left), OperatorToken(op), PrintValue(right));
    case PContains(path, value) =>
      DecodedPath(path);
      DecodedValue(value);
      DecodedMiddle(PrintPath(path), L.Contains, PrintValue(value));
    case PExists(path) => DecodedPath(path); DecodedAfter(L.Exists, PrintPath(path));
  }

  lemma {:induction false} DecodedOperand(p: Predicate, level: nat)
    requires Canonical(p)
    ensures T.DecodedAll(PrintAt(p, level)) == PrintAt(DecodedPredicate(p), level)
    decreases p, 1
  {
    DecodedBare(p);
    DecodedAfter(L.LParen, Bare(p) + [L.RParen]);
    DecodedConcat(Bare(p), [L.RParen]);
    DecodedWithoutStrings([L.RParen]);
  }

  lemma DecodedPrint(q: Query)
    requires CanonicalQuery(q)
    ensures T.DecodedAll(PrintQuery(q)) == PrintQuery(DecodedQuery(q))
  {
    DecodedConcat(PrintProjection(q.projection), PrintCondition(q.condition));
    if q.condition != PTrue {
      DecodedOperand(q.condition, 0);
      DecodedAfter(L.Where, PrintAt(q.condition, 0));
    }
    if q.projection.Fields? {
      var first, others := q.projection.paths[0], q.projection.paths[1..];
      DecodedPath(first);
      DecodedPaths(others);
      DecodedAfter(L.Select, PrintPath(first) + PrintPaths(others));
      DecodedConcat(PrintPath(first), PrintPaths(others));
    }
  }

  // ---- The text round trip ----

  /** Every name is an identifier that is not a keyword, and every number reads back from its lexeme. */
  ghost predicate HasText(q: Query, read: L.Reader, show: T.Shower)
    requires CanonicalQuery(q)
  {
    QueryPasses(q, t => T.Renderable(t, read, show))
  }

  predicate AsciiQuery(q: Query)
    requires CanonicalQuery(q)
  {
    QueryPasses(q, (t: L.Tok) => t.Str? ==> T.Ascii(t.text))
  }

  /**
   Parsing any text of a query gives the query back with its strings as UTF-8
   bytes; it is the query itself exactly when every string literal is ASCII.
   Keywords may be in any letter case, and white space is needed only where
   tokens would run together.
   */
  lemma ParseInvertsWriting(q: Query, lead: string, pieces: seq<T.Piece>, read: L.Reader)
    requires CanonicalQuery(q) && T.TokensOf(pieces) == PrintQuery(q) && T.Blank(lead) && T.Written(pieces, "", read)
    ensures var text := T.Encode(lead + T.TextOf(pieces));
            && ParseText(text, read) == Ok(DecodedQuery(q))
            && (ParseText(text, read) == Ok(q) <==> AsciiQuery(q))
  {
    T.LexInvertsWriting(lead, pieces, read);
    var toks := L.Lex(T.Encode(lead + T.TextOf(pieces)), 0, read).value;
    TokensParse(q, toks);
    DecodedIsSame(q);
  }

  lemma TokensParse(q: Query, toks: seq<L.Spanned>)
    requires CanonicalQuery(q) && T.Toks(toks) == T.DecodedAll(PrintQuery(q))
    ensures P.Outcome(toks, P.ParseQuery(P.From(toks, 0))) == Ok(DecodedQuery(q))
  {
    FromStart(toks);
    DecodedPrint(q);
    ParseInvertsPrint(DecodedQuery(q));
  }

  lemma DecodedIsSame(q: Query)
    requires CanonicalQuery(q)
    ensures DecodedQuery(q) == q <==> AsciiQuery(q)
  {
    var ts := PrintQuery(q);
    var ascii := (t: L.Tok) => t.Str? ==> T.Ascii(t.text);
    T.DecodedIff(ts);
    QueryPass(q, ascii);
    assert AllPass(ts, ascii) <==> T.AsciiStrings(ts);
    DecodedPrint(q);
    ParseInvertsPrint(DecodedQuery(q));
    ParseInvertsPrint(q);
  }

  /** Any text of any sentence of the grammar, with ASCII strings, parses to what the sentence means. */
  lemma SentencesParse(s: G.Sentence, lead: string, pieces: seq<T.Piece>, read: L.Reader)
    requires G.ProperSentence(s) && T.TokensOf(pieces) == G.SpelledSentence(s)
    requires T.Blank(lead) && T.Written(pieces, "", read) && T.AsciiStrings(T.TokensOf(pieces))
    ensures ParseText(T.Encode(lead + T.TextOf(pieces)), read) == Ok(G.Means(s))
  {
    T.LexInvertsWriting(lead, pieces, read);
    FromStart(L.Lex(T.Encode(lead + T.TextOf(pieces)), 0, read).value);
    G.SentenceIsAccepted(s);
  }

  /** In particular the text with spaces between all tokens. */
  lemma ParseInvertsText(q: Query, read: L.Reader, show: T.Shower)
    requires CanonicalQuery(q) && HasText(q, read, show)
    ensures var text := T.Encode(T.Render(PrintQuery(q), show));
            && ParseText(text, read) == Ok(DecodedQuery(q))
            && (ParseText(text, read) == Ok(q) <==> AsciiQuery(q))
  {
    var ts := PrintQuery(q);
    QueryPass(q, t => T.Renderable(t, read, show));
    T.RenderedIsWritten(ts, read, show);
    ParseInvertsWriting(q, "", T.PiecesOf(ts, show), read);
    assert "" + T.Render(ts, show) == T.Render(ts, show);
  }

  lemma {:induction false} FromStart(toks: seq<L.Spanned>)
    ensures P.From(toks, 0) == T.Toks(toks)
  {
    if toks != [] {
      FromStart(toks[1..]);
      assert P.From(toks, 1) == P.From(toks[1..], 0);
    }
  }
}
