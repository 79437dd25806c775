/**
 The language of the CaQL parser (`caql/parse.rs`): a token list is accepted
 exactly when it is a sentence of the grammar, and the sentence says what the
 result is.
 */
module Grammar {
  import opened Wrappers
  import opened Documents
  import opened QueryAst
  import opened Parser
  import opened ParserRoundTrip
  import L = Lexer

  /** A query as it is written: `select *` may be left out, and so may the condition. */
  datatype Sentence = Sentence(select: Option<Projection>, condition: Option<Expr>)

  predicate ProperSentence(s: Sentence)
  {
    && (s.select.Some? ==> CanonicalQuery(Query(s.select.value, PTrue)))
    && (s.condition.Some? ==> Proper(s.condition.value))
  }

  function SpelledSelect(s: Sentence): seq<L.Tok>
    requires ProperSentence(s)
  {
    if s.select.None? then []
    else if s.select.value.All? then [L.Select, L.Star]
    else PrintProjection(s.select.value)
  }

  function SpelledSentence(s: Sentence): seq<L.Tok>
    requires ProperSentence(s)
  {
    SpelledSelect(s) + (if s.condition.None? then [] else [L.Where] + Spelled(s.condition.value))
  }

  function Means(s: Sentence): Query
    requires ProperSentence(s)
  {
    Query(if s.select.Some? then s.select.value else All,
          if s.condition.Some? then Reads(s.condition.value) else PTrue)
  }

  // ---- What is parsed was written so ----

  lemma {:induction false} DottedWasWritten(segs: FieldPath, ts: seq<L.Tok>) returns (more: FieldPath)
    requires segs != [] && PathTail(segs, ts).Got?
    ensures var r := PathTail(segs, ts);
            r.value == segs + more && ts == Dotted(more) + r.rest && !Starts(r.rest, L.Dot)
    decreases |ts|
  {
    more := [];
    if Starts(ts, L.Dot) {
      var name := ts[1].name;
      var others := DottedWasWritten(segs + [name], ts[2..]);
      more := [name] + others;
      assert ts == [L.Dot, L.Ident(name)] + ts[2..];
      assert segs + more == segs + [name] + others;
    }
  }

  lemma PathWasWritten(ts: seq<L.Tok>)
    requires ParsePath(ts).Got?
    ensures var r := ParsePath(ts); ts == PrintPath(r.value) + r.rest && !Starts(r.rest, L.Dot)
  {
    var more := DottedWasWritten([ts[0].name], ts[1..]);
    PathOf(ts[0].name, more);
    FirstThenRest(ts);
    Associate([ts[0]], Dotted(more), [], ParsePath(ts).rest);
  }

  lemma PathOf(name: string, more: FieldPath)
    ensures PrintPath([name] + more) == [L.Ident(name)] + Dotted(more)
  {
    assert ([name] + more)[1..] == more;
  }

  lemma FirstThenRest(ts: seq<L.Tok>)
    requires ts != []
    ensures ts == [ts[0]] + ts[1..]
  {
  }

  lemma {:induction false} ValueWasWritten(ts: seq<L.Tok>)
    requires ParseValue(ts).Got?
    ensures ts == PrintValue(ParseValue(ts).value) + ParseValue(ts).rest
    decreases |ts|
  {
    FirstThenRest(ts);
    if ts[0] == L.LBracket {
      if Starts(ts[1..], L.RBracket) {
        assert ts == [L.LBracket, L.RBracket] + ts[2..];
      } else {
        ValueWasWritten(ts[1..]);
        var first := ParseValue(ts[1..]);
        ItemsWereWritten([first.value], first.rest);
        ArrayOf(ParseValue(ts).value, first.value);
        Associate([L.LBracket], PrintValue(first.value), PrintItems(ParseValue(ts).value, 1), ParseValue(ts).rest);
      }
    }
  }

  lemma ArrayOf(v: Literal, first: Literal)
    requires v.ArrayLit? && v.items != [] && v.items[..1] == [first]
    ensures PrintValue(v) == [L.LBracket] + (PrintValue(first) + PrintItems(v, 1))
  {
    assert v.items[..1][0] == v.items[0];
  }

  lemma {:induction false} ItemsWereWritten(items: seq<Literal>, ts: seq<L.Tok>)
    requires ItemsTail(items, ts).Got?
    ensures var r := ItemsTail(items, ts);
            && r.value.ArrayLit? && |items| <= |r.value.items| && r.value.items[..|items|] == items
            && ts == PrintItems(r.value, |items|) + r.rest
    decreases |ts|
  {
    FirstThenRest(ts);
    if Starts(ts, L.Comma) {
      ValueWasWritten(ts[1..]);
      var item := ParseValue(ts[1..]);
      ItemsWereWritten(items + [item.value], item.rest);
      var v := ItemsTail(items, ts).value;
      LongerPrefix(v.items, items, item.value);
      Associate([L.Comma], PrintValue(item.value), PrintItems(v, |items| + 1), ItemsTail(items, ts).rest);
    }
  }

  lemma LongerPrefix(all: seq<Literal>, items: seq<Literal>, item: Literal)
    requires |items| < |all| && all[..|items| + 1] == items + [item]
    ensures all[|items|] == item && all[..|items|] == items
  {
    assert all[|items|] == all[..|items| + 1][|items|];
    assert all[..|items|] == all[..|items| + 1][..|items|];
  }

  lemma LeafWasWritten(path: FieldPath, ts: seq<L.Tok>)
    requires path != [] && Condition(path, ts).Got?
    ensures var r := Condition(path, ts);
            && Proper(Leaf(r.value)) && PrintPath(path) + ts == Bare(r.value) + r.rest
  {
    var r := Condition(path, ts);
    ValueWasWritten(ts[1..]);
    FirstThenRest(ts);
    if !Starts(ts, L.Contains) { assert OperatorToken(Operator(ts[0]).value) == ts[0]; }
    Associate(PrintPath(path), [ts[0]], PrintValue(ParseValue(ts[1..]).value), r.rest);
  }

  lemma Associate(a: seq<L.Tok>, b: seq<L.Tok>, c: seq<L.Tok>, d: seq<L.Tok>)
    ensures a + (b + (c + d)) == (a + (b + c)) + d && a + (b + c) == (a + b) + c && a + (b + d) == (a + b) + d
  {
  }

  /** The tokens from `ts` up to the rest of the parse are those of the expression. */
  ghost predicate WasWritten(e: Expr, ts: seq<L.Tok>, r: Parsed<Predicate>)
  {
    r.Got? && Proper(e) && Reads(e) == r.value && ts == Spelled(e) + r.rest
  }

  lemma {:induction false} OperandWasWritten(ts: seq<L.Tok>) returns (e: Expr)
    requires ParseNot(ts).Got?
    ensures WasWritten(e, ts, ParseNot(ts)) && Rank(e) == 2
    decreases |ts|, 2
  {
    assert ts == [ts[0]] + ts[1..];
    if Starts(ts, L.Not) {
      var inner := OperandWasWritten(ts[1..]);
      e := Negated(inner);
      Associate([L.Not], Spelled(inner), [], ParseNot(ts).rest);
    } else if Starts(ts, L.Exists) {
      PathWasWritten(ts[1..]);
      e := Leaf(ParseNot(ts).value);
    } else {
      e := PrimaryWasWritten(ts);
    }
  }

  lemma {:induction false} PrimaryWasWritten(ts: seq<L.Tok>) returns (e: Expr)
    requires ParsePrimary(ts).Got?
    ensures WasWritten(e, ts, ParsePrimary(ts)) && Rank(e) == 2
    decreases |ts|, 1
  {
    if Starts(ts, L.LParen) {
      var inner := DisjunctionWasWritten(ts[1..]);
      e := Parens(inner);
      var rest := ParseOr(ts[1..]).rest;
      assert ts == [L.LParen] + ts[1..] && rest == [L.RParen] + rest[1..];
      Associate([L.LParen], Spelled(inner), [L.RParen], rest[1..]);
    } else {
      PathWasWritten(ts);
      LeafWasWritten(ParsePath(ts).value, ParsePath(ts).rest);
      e := Leaf(ParsePrimary(ts).value);
    }
  }

  lemma {:induction false} ConjunctionWasWritten(ts: seq<L.Tok>) returns (e: Expr)
    requires ParseAnd(ts).Got?
    ensures WasWritten(e, ts, ParseAnd(ts)) && Rank(e) >= 1
    decreases |ts|, 3
  {
    var first := OperandWasWritten(ts);
    e := MoreAnds(first, ParseNot(ts).rest);
  }

  lemma {:induction false} MoreAnds(left: Expr, ts: seq<L.Tok>) returns (e: Expr)
    requires Proper(left) && Rank(left) >= 1 && AndTail(Reads(left), ts).Got?
    ensures WasWritten(e, Spelled(left) + ts, AndTail(Reads(left), ts)) && Rank(e) >= 1
    decreases |ts|, 3
  {
    e := left;
    if Starts(ts, L.And) {
      var right := OperandWasWritten(ts[1..]);
      var rest := ParseNot(ts[1..]).rest;
      assert ts == [L.And] + ts[1..];
      Associate(Spelled(left), [L.And], Spelled(right), rest);
      e := MoreAnds(Both(left, right), rest);
    }
  }

  lemma {:induction false} DisjunctionWasWritten(ts: seq<L.Tok>) returns (e: Expr)
    requires ParseOr(ts).Got?
    ensures WasWritten(e, ts, ParseOr(ts))
    decreases |ts|, 4
  {
    var first := ConjunctionWasWritten(ts);
    e := MoreOrs(first, ParseAnd(ts).rest);
  }

  lemma {:induction false} MoreOrs(left: Expr, ts: seq<L.Tok>) returns (e: Expr)
    requires Proper(left) && OrTail(Reads(left), ts).Got?
    ensures WasWritten(e, Spelled(left) + ts, OrTail(Reads(left), ts))
    decreases |ts|, 4
  {
    e := left;
    if Starts(ts, L.Or) {
      var right := ConjunctionWasWritten(ts[1..]);
      var rest := ParseAnd(ts[1..]).rest;
      assert ts == [L.Or] + ts[1..];
      Associate(Spelled(left), [L.Or], Spelled(right), rest);
      e := MoreOrs(Either(left, right), rest);
    }
  }

  lemma {:induction false} FieldsWereWritten(paths: seq<FieldPath>, ts: seq<L.Tok>) returns (more: seq<FieldPath>)
    requires paths != [] && (forall i :: 0 <= i < |paths| ==> paths[i] != []) && FieldsTail(paths, ts).Got?
    ensures forall i :: 0 <= i < |more| ==> more[i] != []
    ensures var r := FieldsTail(paths, ts); r.value == Fields(paths + more) && ts == PrintPaths(more) + r.rest
    decreases |ts|
  {
    more := [];
    if Starts(ts, L.Comma) {
      PathWasWritten(ts[1..]);
      var r := ParsePath(ts[1..]);
      var others := FieldsWereWritten(paths + [r.value], r.rest);
      more := [r.value] + others;
      assert paths + more == paths + [r.value] + others && more[1..] == others;
      assert ts == [L.Comma] + ts[1..];
      Associate([L.Comma], PrintPath(r.value), PrintPaths(others), FieldsTail(paths, ts).rest);
    } else {
      assert paths + more == paths;
    }
  }

  lemma SelectWasWritten(ts: seq<L.Tok>)
    requires Starts(ts, L.Select) && ParseProjection(ts[1..]).Got?
    ensures var r := ParseProjection(ts[1..]); var s := Sentence(Some(r.value), None);
            ProperSentence(s) && ts == SpelledSelect(s) + r.rest
  {
    var r := ParseProjection(ts[1..]);
    assert ts == [L.Select] + ts[1..];
    if Starts(ts[1..], L.Star) {
      assert ts[1..] == [L.Star] + ts[2..] && r.rest == ts[2..];
    } else {
      PathWasWritten(ts[1..]);
      var first := ParsePath(ts[1..]);
      var more := FieldsWereWritten([first.value], first.rest);
      assert ([first.value] + more)[1..] == more;
      Associate([L.Select], PrintPath(first.value), PrintPaths(more), r.rest);
    }
  }

  lemma ConditionWasWritten(rest: seq<L.Tok>) returns (e: Expr)
    requires Starts(rest, L.Where) && ParseOr(rest[1..]).Got? && ParseOr(rest[1..]).rest == []
    ensures Proper(e) && Reads(e) == ParseOr(rest[1..]).value && rest == [L.Where] + Spelled(e)
  {
    e := DisjunctionWasWritten(rest[1..]);
    FirstThenRest(rest);
    assert Spelled(e) + [] == Spelled(e);
  }

  /** What `ParseQuery` makes of the tokens after the selection. */
  function AfterSelect(projection: Projection, rest: seq<L.Tok>): Parsed<Query>
  {
    match (if Starts(rest, L.Where) then ParseOr(rest[1..]) else Got(PTrue, rest))
    case Bad(p, left) => Bad(p, left)
    case Got(condition, end) => if end != [] then Bad(TrailingTokens, |end|) else Got(Query(projection, condition), [])
  }

  lemma QueryInTwoParts(ts: seq<L.Tok>)
    ensures ParseQuery(ts) ==
            if !Starts(ts, L.Select) then AfterSelect(All, ts)
            else match ParseProjection(ts[1..])
                 case Bad(p, left) => Bad(p, left)
                 case Got(projection, rest) => AfterSelect(projection, rest)
  {
  }

  lemma EndWasWritten(projection: Projection, rest: seq<L.Tok>) returns (c: Option<Expr>)
    requires AfterSelect(projection, rest).Got?
    ensures c.Some? ==> Proper(c.value)
    ensures rest == (if c.None? then [] else [L.Where] + Spelled(c.value))
    ensures AfterSelect(projection, rest).value == Query(projection, if c.None? then PTrue else Reads(c.value))
  {
    c := None;
    if Starts(rest, L.Where) {
      var e := ConditionWasWritten(rest);
      c := Some(e);
    }
  }

  /** Every accepted token list is a sentence. */
  lemma AcceptedIsSentence(ts: seq<L.Tok>) returns (s: Sentence)
    requires ParseQuery(ts).Got?
    ensures ProperSentence(s) && SpelledSentence(s) == ts && Means(s) == ParseQuery(ts).value
  {
    QueryInTwoParts(ts);
    if Starts(ts, L.Select) {
      SelectWasWritten(ts);
      var r := ParseProjection(ts[1..]);
      var c := EndWasWritten(r.value, r.rest);
      s := Sentence(Some(r.value), c);
      assert SpelledSelect(s) == SpelledSelect(Sentence(Some(r.value), None));
    } else {
      var c := EndWasWritten(All, ts);
      s := Sentence(None, c);
      assert SpelledSentence(s) == ts;
    }
  }

  // ---- What is written so is parsed ----

  lemma EndIsParsed(projection: Projection, e: Expr)
    requires Proper(e)
    ensures AfterSelect(projection, [L.Where] + Spelled(e)) == Got(Query(projection, Reads(e)), [])
  {
    assert ([L.Where] + Spelled(e))[1..] == Spelled(e) + [];
    DisjunctionParses(e, []);
  }

  lemma SelectIsParsed(s: Sentence, rest: seq<L.Tok>)
    requires ProperSentence(s) && (rest == [] || rest[0] == L.Where)
    ensures ParseQuery(SpelledSelect(s) + rest) == AfterSelect(if s.select.None? then All else s.select.value, rest)
  {
    var ts := SpelledSelect(s) + rest;
    QueryInTwoParts(ts);
    if s.select.None? {
      assert ts == rest;
    } else if s.select.value.All? {
      assert ts[1..] == [L.Star] + rest && ts[1..][1..] == rest;
    } else {
      ProjectionParses(s.select.value, rest);
    }
  }

  lemma SentenceIsAccepted(s: Sentence)
    requires ProperSentence(s)
    ensures ParseQuery(SpelledSentence(s)) == Got(Means(s), [])
  {
    if s.condition.Some? {
      EndIsParsed(if s.select.None? then All else s.select.value, s.condition.value);
      SelectIsParsed(s, [L.Where] + Spelled(s.condition.value));
    } else {
      SelectIsParsed(s, []);
    }
  }

  /**
   The parser accepts exactly the sentences of the grammar, and a sentence
   parses to what it means; so no token list has two readings.
   */
  lemma ParserIsTheGrammar(ts: seq<L.Tok>, q: Query)
    ensures ParseQuery(ts) == Got(q, []) <==>
            exists s :: ProperSentence(s) && SpelledSentence(s) == ts && Means(s) == q
  {
    if ParseQuery(ts) == Got(q, []) {
      var s := AcceptedIsSentence(ts);
    }
    if s :| ProperSentence(s) && SpelledSentence(s) == ts && Means(s) == q {
      SentenceIsAccepted(s);
    }
  }
}
