/**
 The recursive-descent CaQL parser (`caql/parse.rs`): its grammar as functions
 on the tokens that are left, and the parser object, whose methods move `pos`
 and rebuild `lhs` in loops, proved to follow them.
 */
module Parser {
  import opened Wrappers
  import opened Documents
  import opened QueryAst
  import L = Lexer

  datatype Problem =
    | ExpectedIdentifier | ExpectedIdentifierAtEnd | ExpectedIdentifierAfterDot
    | ExpectedRParen | ContainsArray | ExpectedOperator
    | ExpectedLiteral | ExpectedRBracket | TrailingTokens

  /** A value and the tokens after it, or a problem and how many tokens were left when it was reported. */
  datatype Parsed<+T> = Got(value: T, rest: seq<L.Tok>) | Bad(problem: Problem, left: nat)

  predicate Starts(ts: seq<L.Tok>, t: L.Tok) { ts != [] && ts[0] == t }

  function Less(ts: seq<L.Tok>): nat { if ts == [] then 0 else |ts| - 1 }

  // ---- Grammar ----

  function ParsePath(ts: seq<L.Tok>): (r: Parsed<FieldPath>)
    ensures r.Got? ==> |r.rest| < |ts| && r.value != []
  {
    if ts == [] then Bad(ExpectedIdentifierAtEnd, 0)
    else if !ts[0].Ident? then Bad(ExpectedIdentifier, |ts| - 1)
    else PathTail([ts[0].name], ts[1..])
  }

  function PathTail(segs: FieldPath, ts: seq<L.Tok>): (r: Parsed<FieldPath>)
    requires segs != []
    ensures r.Got? ==> |r.rest| <= |ts| && r.value != []
    decreases |ts|
  {
    if !Starts(ts, L.Dot) then Got(segs, ts)
    else if |ts| == 1 then Bad(ExpectedIdentifierAfterDot, 0)
    else if !ts[1].Ident? then Bad(ExpectedIdentifierAfterDot, |ts| - 2)
    else PathTail(segs + [ts[1].name], ts[2..])
  }

  function ParseValue(ts: seq<L.Tok>): (r: Parsed<Literal>)
    ensures r.Got? ==> |r.rest| < |ts|
    decreases |ts|
  {
    if ts == [] then Bad(ExpectedLiteral, 0)
    else match ts[0]
      case Str(text) => Got(TextLit(text), ts[1..])
      case Number(n) => Got(NumberLit(n), ts[1..])
      case True => Got(BoolLit(true), ts[1..])
      case False => Got(BoolLit(false), ts[1..])
      case Null => Got(NullLit, ts[1..])
      case LBracket =>
        if Starts(ts[1..], L.RBracket) then Got(ArrayLit([]), ts[2..])
        else (match ParseValue(ts[1..])
              case Bad(p, left) => Bad(p, left)
              case Got(v, rest) => ItemsTail([v], rest))
      case _ => Bad(ExpectedLiteral, |ts| - 1)
  }

  function ItemsTail(items: seq<Literal>, ts: seq<L.Tok>): (r: Parsed<Literal>)
    ensures r.Got? ==> |r.rest| <= |ts|
    decreases |ts|
  {
    if Starts(ts, L.Comma) then
      match ParseValue(ts[1..])
      case Bad(p, left) => Bad(p, left)
      case Got(v, rest) => ItemsTail(items + [v], rest)
    else if Starts(ts, L.RBracket) then Got(ArrayLit(items), ts[1..])
    else Bad(ExpectedRBracket, Less(ts))
  }

  function Operator(t: L.Tok): Option<ComparisonOp>
  {
    match t
    case Eq => Some(OpEq)
    case Ne => Some(OpNe)
    case Lt => Some(OpLt)
    case Le => Some(OpLe)
    case Gt => Some(OpGt)
    case Ge => Some(OpGe)
    case Like => Some(OpLike)
    case In => Some(OpInSet)
    case _ => None
  }

  function ParseOr(ts: seq<L.Tok>): (r: Parsed<Predicate>)
    ensures r.Got? ==> |r.rest| < |ts| && Canonical(r.value)
    decreases |ts|, 4
  {
    match ParseAnd(ts)
    case Bad(p, left) => Bad(p, left)
    case Got(lhs, rest) => OrTail(lhs, rest)
  }

  function OrTail(lhs: Predicate, ts: seq<L.Tok>): (r: Parsed<Predicate>)
    requires Canonical(lhs)
    ensures r.Got? ==> |r.rest| <= |ts| && Canonical(r.value)
    decreases |ts|, 4
  {
    if !Starts(ts, L.Or) then Got(lhs, ts)
    else match ParseAnd(ts[1..])
      case Bad(p, left) => Bad(p, left)
      case Got(rhs, rest) => OrTail(POr([lhs, rhs]), rest)
  }

  function ParseAnd(ts: seq<L.Tok>): (r: Parsed<Predicate>)
    ensures r.Got? ==> |r.rest| < |ts| && Canonical(r.value)
    decreases |ts|, 3
  {
    match ParseNot(ts)
    case Bad(p, left) => Bad(p, left)
    case Got(lhs, rest) => AndTail(lhs, rest)
  }

  function AndTail(lhs: Predicate, ts: seq<L.Tok>): (r: Parsed<Predicate>)
    requires Canonical(lhs)
    ensures r.Got? ==> |r.rest| <= |ts| && Canonical(r.value)
    decreases |ts|, 3
  {
    if !Starts(ts, L.And) then Got(lhs, ts)
    else match ParseNot(ts[1..])
      case Bad(p, left) => Bad(p, left)
      case Got(rhs, rest) => AndTail(PAnd([lhs, rhs]), rest)
  }

  function ParseNot(ts: seq<L.Tok>): (r: Parsed<Predicate>)
    ensures r.Got? ==> |r.rest| < |ts| && Canonical(r.value)
    decreases |ts|, 2
  {
    if Starts(ts, L.Not) then
      match ParseNot(ts[1..])
      case Bad(p, left) => Bad(p, left)
      case Got(inner, rest) => Got(PNot(inner), rest)
    else if Starts(ts, L.Exists) then
      match ParsePath(ts[1..])
      case Bad(p, left) => Bad(p, left)
      case Got(path, rest) => Got(PExists(path), rest)
    else ParsePrimary(ts)
  }

  function ParsePrimary(ts: seq<L.Tok>): (r: Parsed<Predicate>)
    ensures r.Got? ==> |r.rest| < |ts| && Canonical(r.value)
    decreases |ts|, 1
  {
    if Starts(ts, L.LParen) then
      match ParseOr(ts[1..])
      case Bad(p, left) => Bad(p, left)
      case Got(inner, rest) => if Starts(rest, L.RParen) then Got(inner, rest[1..]) else Bad(ExpectedRParen, Less(rest))
    else
      match ParsePath(ts)
      case Bad(p, left) => Bad(p, left)
      case Got(left, rest) => Condition(left, rest)
  }

  /** What follows the path of a comparison or of `contains`. */
  function Condition(path: FieldPath, ts: seq<L.Tok>): (r: Parsed<Predicate>)
    requires path != []
    ensures r.Got? ==> |r.rest| <= |ts| && Canonical(r.value)
  {
    if Starts(ts, L.Contains) then
      match ParseValue(ts[1..])
      case Bad(p, left) => Bad(p, left)
      case Got(v, rest) => if v.ArrayLit? then Bad(ContainsArray, |rest|) else Got(PContains(path, v), rest)
    else if ts == [] || Operator(ts[0]).None? then Bad(ExpectedOperator, Less(ts))
    else
      match ParseValue(ts[1..])
      case Bad(p, left) => Bad(p, left)
      case Got(v, rest) => Got(PCompare(path, Operator(ts[0]).value, v), rest)
  }

  function ParseProjection(ts: seq<L.Tok>): (r: Parsed<Projection>)
    ensures r.Got? ==> |r.rest| < |ts| && CanonicalQuery(Query(r.value, PTrue))
  {
    if Starts(ts, L.Star) then Got(All, ts[1..])
    else
      match ParsePath(ts)
      case Bad(p, left) => Bad(p, left)
      case Got(path, rest) => FieldsTail([path], rest)
  }

  function FieldsTail(paths: seq<FieldPath>, ts: seq<L.Tok>): (r: Parsed<Projection>)
    requires paths != [] && forall i :: 0 <= i < |paths| ==> paths[i] != []
    ensures r.Got? ==> |r.rest| <= |ts| && CanonicalQuery(Query(r.value, PTrue))
    decreases |ts|
  {
    if !Starts(ts, L.Comma) then Got(Fields(paths), ts)
    else match ParsePath(ts[1..])
      case Bad(p, left) => Bad(p, left)
      case Got(path, rest) => FieldsTail(paths + [path], rest)
  }

  /** Every successful parse yields a query that the grammar can express, and consumes every token. */
  function ParseQuery(ts: seq<L.Tok>): (r: Parsed<Query>)
    ensures r.Got? ==> r.rest == [] && CanonicalQuery(r.value)
  {
    match (if Starts(ts, L.Select) then ParseProjection(ts[1..]) else Got(All, ts))
    case Bad(p, left) => Bad(p, left)
    case Got(projection, afterSelect) =>
      match (if Starts(afterSelect, L.Where) then ParseOr(afterSelect[1..]) else Got(PTrue, afterSelect))
      case Bad(p, left) => Bad(p, left)
      case Got(condition, rest) =>
        if rest != [] then Bad(TrailingTokens, |rest|) else Got(Query(projection, condition), [])
  }

  // ---- The parser object ----

  datatype ParseError = ParseError(offset: nat, problem: Problem)

  /** The tokens from position `pos` on. */
  function From(toks: seq<L.Spanned>, pos: nat): (ts: seq<L.Tok>)
    requires pos <= |toks|
    ensures |ts| == |toks| - pos
  {
    seq(|toks| - pos, i requires 0 <= i < |toks| - pos => toks[pos + i].tok)
  }

  /** Errors are reported at the token after the last one taken, or at 0 when none is left. */
  function ErrorAt(toks: seq<L.Spanned>, left: nat, problem: Problem): ParseError
  {
    ParseError(if left == 0 || left > |toks| then 0 else toks[|toks| - left].offset, problem)
  }

  class TokenParser {
    const toks: seq<L.Spanned>
    var pos: nat

    constructor (toks: seq<L.Spanned>)
      ensures this.toks == toks && pos == 0
    {
      this.toks, this.pos := toks, 0;
    }

    ghost predicate Valid()
      reads this
    {
      pos <= |toks|
    }

    ghost function Rest(): seq<L.Tok>
      requires Valid()
      reads this
    {
      From(toks, pos)
    }

    /** The object agrees with the grammar: same value and position, or same error. */
    ghost predicate Agrees<T>(r: Result<T, ParseError>, spec: Parsed<T>)
      requires Valid()
      reads this
    {
      match spec
      case Got(v, rest) => r == Ok(v) && Rest() == rest
      case Bad(p, left) => r == Err(ErrorAt(toks, left, p))
    }

    method Peek() returns (t: Option<L.Tok>)
      requires Valid()
      ensures t == if Rest() == [] then None else Some(Rest()[0])
    {
      t := if pos < |toks| then Some(toks[pos].tok) else None;
    }

    method Bump() returns (t: Option<L.Tok>)
      requires Valid()
      modifies this`pos
      ensures Valid()
      ensures old(Rest()) == [] ==> t == None && pos == old(pos)
      ensures old(Rest()) != [] ==> t == Some(old(Rest())[0]) && pos == old(pos) + 1 && Rest() == old(Rest())[1..]
    {
      if pos < |toks| {
        t := Some(toks[pos].tok);
        pos := pos + 1;
      } else {
        t := None;
      }
    }

    method Fail<T>(problem: Problem) returns (r: Result<T, ParseError>)
      requires Valid()
      ensures r == Err(ErrorAt(toks, |Rest()|, problem))
    {
      r := Err(ParseError(if pos < |toks| then toks[pos].offset else 0, problem));
    }

    method Path() returns (r: Result<FieldPath, ParseError>)
      requires Valid()
      modifies this`pos
      ensures Valid() && Agrees(r, ParsePath(old(Rest()))) && old(pos) <= pos
    {
      var first := Bump();
      if first.None? {
        r := Fail(ExpectedIdentifierAtEnd);
        return;
      }
      if !first.value.Ident? {
        r := Fail(ExpectedIdentifier);
        return;
      }
      var segs := [first.value.name];
      var next := Peek();
      while next == Some(L.Dot)
        invariant Valid() && old(pos) <= pos && segs != []
        invariant next == if Rest() == [] then None else Some(Rest()[0])
        invariant ParsePath(old(Rest())) == PathTail(segs, Rest())
        decreases |toks| - pos
      {
        ghost var ts := Rest();
        var _ := Bump();
        var seg := Bump();
        if seg.None? || !seg.value.Ident? {
          r := Fail(ExpectedIdentifierAfterDot);
          return;
        }
        assert Rest() == ts[2..];
        segs := segs + [seg.value.name];
        next := Peek();
      }
      r := Ok(segs);
    }

    method Value() returns (r: Result<Literal, ParseError>)
      requires Valid()
      modifies this`pos
      ensures Valid() && Agrees(r, ParseValue(old(Rest()))) && old(pos) <= pos
      ensures r.Ok? ==> old(pos) < pos
      decreases |toks| - pos, 0
    {
      var first := Bump();
      if first.None? {
        r := Fail(ExpectedLiteral);
        return;
      }
      match first.value
      case Str(text) => r := Ok(TextLit(text));
      case Number(n) => r := Ok(NumberLit(n));
      case True => r := Ok(BoolLit(true));
      case False => r := Ok(BoolLit(false));
      case Null => r := Ok(NullLit);
      case LBracket => r := Items();
      case _ => r := Fail(ExpectedLiteral);
    }

    /** The items of an array literal, after its opening bracket. */
    method Items() returns (r: Result<Literal, ParseError>)
      requires Valid()
      modifies this`pos
      ensures Valid() && old(pos) <= pos
      ensures Agrees(r, if Starts(old(Rest()), L.RBracket) then Got(ArrayLit([]), old(Rest())[1..])
                        else match ParseValue(old(Rest()))
                             case Bad(p, left) => Bad(p, left)
                             case Got(v, rest) => ItemsTail([v], rest))
      decreases |toks| - pos, 1
    {
      var next := Peek();
      var items: seq<Literal> := [];
      if next != Some(L.RBracket) {
        var item := Value();
        if item.Err? {
          return Err(item.error);
        }
        items := [item.value];
        next := Peek();
        while next == Some(L.Comma)
          invariant Valid() && old(pos) < pos
          invariant next == if Rest() == [] then None else Some(Rest()[0])
          invariant ParseValue(old(Rest())).Got?
          invariant ItemsTail([ParseValue(old(Rest())).value], ParseValue(old(Rest())).rest) == ItemsTail(items, Rest())
          decreases |toks| - pos
        {
          var _ := Bump();
          item := Value();
          if item.Err? {
            return Err(item.error);
          }
          items := items + [item.value];
          next := Peek();
        }
      }
      var close := Bump();
      if close != Some(L.RBracket) {
        r := Fail(ExpectedRBracket);
        return;
      }
      r := Ok(ArrayLit(items));
    }

    method Or() returns (r: Result<Predicate, ParseError>)
      requires Valid()
      modifies this`pos
      ensures Valid() && Agrees(r, ParseOr(old(Rest()))) && old(pos) <= pos
      decreases |toks| - pos, 4
    {
      r := And();
      if r.Err? {
        return;
      }
      var lhs := r.value;
      var next := Peek();
      while next == Some(L.Or)
        invariant Valid() && old(pos) < pos && Canonical(lhs)
        invariant next == if Rest() == [] then None else Some(Rest()[0])
        invariant ParseOr(old(Rest())) == OrTail(lhs, Rest())
        decreases |toks| - pos
      {
        var _ := Bump();
        r := And();
        if r.Err? {
          return;
        }
        lhs := POr([lhs, r.value]);
        next := Peek();
      }
      r := Ok(lhs);
    }

    method And() returns (r: Result<Predicate, ParseError>)
      requires Valid()
      modifies this`pos
      ensures Valid() && Agrees(r, ParseAnd(old(Rest()))) && old(pos) <= pos
      decreases |toks| - pos, 3
    {
      r := Not();
      if r.Err? {
        return;
      }
      var lhs := r.value;
      var next := Peek();
      while next == Some(L.And)
        invariant Valid() && old(pos) < pos && Canonical(lhs)
        invariant next == if Rest() == [] then None else Some(Rest()[0])
        invariant ParseAnd(old(Rest())) == AndTail(lhs, Rest())
        decreases |toks| - pos
      {
        var _ := Bump();
        r := Not();
        if r.Err? {
          return;
        }
        lhs := PAnd([lhs, r.value]);
        next := Peek();
      }
      r := Ok(lhs);
    }

    method Not() returns (r: Result<Predicate, ParseError>)
      requires Valid()
      modifies this`pos
      ensures Valid() && Agrees(r, ParseNot(old(Rest()))) && old(pos) <= pos
      decreases |toks| - pos, 2
    {
      var next := Peek();
      if next == Some(L.Not) {
        var _ := Bump();
        var inner := Not();
        r := if inner.Ok? then Ok(PNot(inner.value)) else inner;
      } else if next == Some(L.Exists) {
        var _ := Bump();
        var path := Path();
        r := if path.Ok? then Ok(PExists(path.value)) else Err(path.error);
      } else {
        r := Primary();
      }
    }

    method Primary() returns (r: Result<Predicate, ParseError>)
      requires Valid()
      modifies this`pos
      ensures Valid() && Agrees(r, ParsePrimary(old(Rest()))) && old(pos) <= pos
      decreases |toks| - pos, 1
    {
      var next := Peek();
      if next == Some(L.LParen) {
        var _ := Bump();
        r := Or();
        if r.Ok? {
          var close := Bump();
          if close != Some(L.RParen) {
            r := Fail(ExpectedRParen);
          }
        }
      } else {
        var left := Path();
        if left.Err? {
          return Err(left.error);
        }
        r := Comparison(left.value);
      }
    }

    /** The part of `parse_cmp` after the path on the left. */
    method Comparison(left: FieldPath) returns (r: Result<Predicate, ParseError>)
      requires Valid() && left != []
      modifies this`pos
      ensures Valid() && Agrees(r, Condition(left, old(Rest()))) && old(pos) <= pos
    {
      var next := Peek();
      var op := Bump();
      if next == Some(L.Contains) {
        var right := Value();
        if right.Err? {
          r := Err(right.error);
        } else if right.value.ArrayLit? {
          r := Fail(ContainsArray);
        } else {
          r := Ok(PContains(left, right.value));
        }
      } else if op.None? || Operator(op.value).None? {
        r := Fail(ExpectedOperator);
      } else {
        var right := Value();
        r := if right.Err? then Err(right.error) else Ok(PCompare(left, Operator(op.value).value, right.value));
      }
    }

    method Selection() returns (r: Result<Projection, ParseError>)
      requires Valid()
      modifies this`pos
      ensures Valid() && Agrees(r, ParseProjection(old(Rest()))) && old(pos) <= pos
    {
      var next := Peek();
      if next == Some(L.Star) {
        var _ := Bump();
        return Ok(All);
      }
      var path := Path();
      if path.Err? {
        return Err(path.error);
      }
      r := MoreFields(path.value);
    }

    /** The rest of a list of fields, after its first path. */
    method MoreFields(first: FieldPath) returns (r: Result<Projection, ParseError>)
      requires Valid() && first != []
      modifies this`pos
      ensures Valid() && Agrees(r, FieldsTail([first], old(Rest()))) && old(pos) <= pos
    {
      var paths := [first];
      var next := Peek();
      while next == Some(L.Comma)
        invariant Valid() && old(pos) <= pos
        invariant paths != [] && forall i :: 0 <= i < |paths| ==> paths[i] != []
        invariant next == if Rest() == [] then None else Some(Rest()[0])
        invariant FieldsTail([first], old(Rest())) == FieldsTail(paths, Rest())
        decreases |toks| - pos
      {
        var _ := Bump();
        var path := Path();
        if path.Err? {
          return Err(path.error);
        }
        paths := paths + [path.value];
        next := Peek();
      }
      r := Ok(Fields(paths));
    }
  }

  /** What the caller of `parse_query` sees: the query, or a problem with the offset of a token. */
  function Outcome<T>(toks: seq<L.Spanned>, spec: Parsed<T>): Result<T, ParseError>
  {
    match spec
    case Got(v, _) => Ok(v)
    case Bad(p, left) => Err(ErrorAt(toks, left, p))
  }

  method Parse(toks: seq<L.Spanned>) returns (r: Result<Query, ParseError>)
    ensures r == Outcome(toks, ParseQuery(From(toks, 0)))
  {
    var p := new TokenParser(toks);
    var projection := All;
    var condition := PTrue;
    var next := p.Peek();
    if next == Some(L.Select) {
      var _ := p.Bump();
      var selected := p.Selection();
      if selected.Err? {
        return Err(selected.error);
      }
      projection := selected.value;
      next := p.Peek();
    }
    if next == Some(L.Where) {
      var _ := p.Bump();
      var parsed := p.Or();
      if parsed.Err? {
        return Err(parsed.error);
      }
      condition := parsed.value;
    }
    if p.pos < |p.toks| {
      r := p.Fail(TrailingTokens);
    } else {
      r := Ok(Query(projection, condition));
    }
  }
}
