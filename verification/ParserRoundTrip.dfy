/**
 Printing queries with the fewest parentheses the grammar needs, and the proof
 that parsing inverts it, on tokens and on text (`caql/mod.rs`).
 */
module ParserRoundTrip {
  import opened Wrappers
  import opened Documents
  import opened QueryAst
  import opened Parser
  import L = Lexer

  // ---- The printer ----

  function Dotted(path: FieldPath): seq<L.Tok>
  {
    if path == [] then [] else [L.Dot, L.Ident(path[0])] + Dotted(path[1..])
  }

  function PrintPath(path: FieldPath): seq<L.Tok>
    requires path != []
  {
    [L.Ident(path[0])] + Dotted(path[1..])
  }

  function PrintValue(v: Literal): seq<L.Tok>
    decreases v, if v.ArrayLit? then |v.items| + 1 else 0
  {
    match v
    case TextLit(text) => [L.Str(text)]
    case NumberLit(n) => [L.Number(n)]
    case BoolLit(b) => [if b then L.True else L.False]
    case NullLit => [L.Null]
    case ArrayLit(items) =>
      if items == [] then [L.LBracket, L.RBracket] else [L.LBracket] + (PrintValue(items[0]) + PrintItems(v, 1))
  }

  /** The items of an array literal from the `i`-th on, each after a comma, and the closing bracket. */
  function PrintItems(v: Literal, i: nat): seq<L.Tok>
    requires v.ArrayLit? && i <= |v.items|
    decreases v, |v.items| - i
  {
    if i == |v.items| then [L.RBracket] else [L.Comma] + (PrintValue(v.items[i]) + PrintItems(v, i + 1))
  }

  function OperatorToken(op: ComparisonOp): L.Tok
  {
    match op
    case OpEq => L.Eq
    case OpNe => L.Ne
    case OpLt => L.Lt
    case OpLe => L.Le
    case OpGt => L.Gt
    case OpGe => L.Ge
    case OpLike => L.Like
    case OpInSet => L.In
  }

  function Precedence(p: Predicate): nat { if p.POr? then 0 else if p.PAnd? then 1 else 2 }

  /** A predicate without parentheses around it. */
  function Bare(p: Predicate): seq<L.Tok>
    requires Canonical(p)
    decreases p, 0
  {
    match p
    case POr(items) => PrintAt(items[0], 0) + ([L.Or] + PrintAt(items[1], 1))
    case PAnd(items) => PrintAt(items[0], 1) + ([L.And] + PrintAt(items[1], 2))
    case PNot(inner) => [L.Not] + PrintAt(inner, 2)
    case PCompare(left, op, right) => PrintPath(left) + ([OperatorToken(op)] + PrintValue(right))
    case PContains(path, value) => PrintPath(path) + ([L.Contains] + PrintValue(value))
    case PExists(path) => [L.Exists] + PrintPath(path)
  }

  /** Parenthesised exactly when the place binds tighter than the predicate. */
  function PrintAt(p: Predicate, level: nat): seq<L.Tok>
    requires Canonical(p)
    decreases p, 1
  {
    if Precedence(p) < level then [L.LParen] + (Bare(p) + [L.RParen]) else Bare(p)
  }

  function PrintPaths(paths: seq<FieldPath>): seq<L.Tok>
    requires forall i :: 0 <= i < |paths| ==> paths[i] != []
  {
    if paths == [] then [] else [L.Comma] + (PrintPath(paths[0]) + PrintPaths(paths[1..]))
  }

  function PrintProjection(p: Projection): seq<L.Tok>
    requires CanonicalQuery(Query(p, PTrue))
  {
    if p.All? then [] else [L.Select] + (PrintPath(p.paths[0]) + PrintPaths(p.paths[1..]))
  }

  function PrintCondition(p: Predicate): seq<L.Tok>
    requires p == PTrue || Canonical(p)
  {
    if p == PTrue then [] else [L.Where] + PrintAt(p, 0)
  }

  function PrintQuery(q: Query): seq<L.Tok>
    requires CanonicalQuery(q)
  {
    PrintProjection(q.projection) + PrintCondition(q.condition)
  }

  // ---- One step of each grammar rule ----

  lemma ParenStep(ts: seq<L.Tok>, p: Predicate, rest: seq<L.Tok>)
    requires ParseOr(ts) == Got(p, [L.RParen] + rest)
    ensures ParseNot([L.LParen] + ts) == Got(p, rest)
  {
    assert ([L.LParen] + ts)[1..] == ts && ([L.RParen] + rest)[1..] == rest;
    assert ParseNot([L.LParen] + ts) == ParsePrimary([L.LParen] + ts);
  }

  lemma NotStep(ts: seq<L.Tok>, p: Predicate, rest: seq<L.Tok>)
    requires ParseNot(ts + rest) == Got(p, rest)
    ensures ParseNot([L.Not] + ts + rest) == Got(PNot(p), rest)
  {
    assert ([L.Not] + ts + rest)[1..] == ts + rest;
  }

  lemma ConditionStep(path: FieldPath, op: L.Tok, ts: seq<L.Tok>, v: Literal, rest: seq<L.Tok>)
    requires path != [] && ParseValue(ts) == Got(v, rest)
    ensures op == L.Contains && !v.ArrayLit? ==> Condition(path, [op] + ts) == Got(PContains(path, v), rest)
    ensures Operator(op).Some? ==> Condition(path, [op] + ts) == Got(PCompare(path, Operator(op).value, v), rest)
  {
    assert ([op] + ts)[1..] == ts;
  }

  // ---- Paths and literals ----

  lemma {:induction false} DottedParses(segs: FieldPath, more: FieldPath, rest: seq<L.Tok>)
    requires segs != [] && !Starts(rest, L.Dot)
    ensures PathTail(segs, Dotted(more) + rest) == Got(segs + more, rest)
    decreases |more|
  {
    if more == [] {
      assert segs + more == segs && Dotted(more) + rest == rest;
    } else {
      assert Dotted(more) + rest == [L.Dot, L.Ident(more[0])] + (Dotted(more[1..]) + rest);
      DottedParses(segs + [more[0]], more[1..], rest);
      Shift(segs, more);
    }
  }

  lemma PathParses(path: FieldPath, rest: seq<L.Tok>)
    requires path != [] && !Starts(rest, L.Dot)
    ensures ParsePath(PrintPath(path) + rest) == Got(path, rest)
  {
    var ts := PrintPath(path) + rest;
    assert ts[0] == L.Ident(path[0]) && ts[1..] == Dotted(path[1..]) + rest;
    DottedParses([path[0]], path[1..], rest);
    assert [path[0]] + path[1..] == path;
  }

  lemma {:induction false} ValueParses(v: Literal, rest: seq<L.Tok>)
    ensures ParseValue(PrintValue(v) + rest) == Got(v, rest)
    decreases v, if v.ArrayLit? then |v.items| + 1 else 0
  {
    var ts := PrintValue(v) + rest;
    if v.ArrayLit? && v.items != [] {
      var more := PrintItems(v, 1) + rest;
      assert ts[0] == L.LBracket && ts[1..] == PrintValue(v.items[0]) + more;
      ValueParses(v.items[0], more);
      ItemsParse(v, 1, rest);
      assert v.items[..1] == [v.items[0]];
    } else if v.ArrayLit? {
      assert ts[1..][0] == L.RBracket && ts[2..] == rest;
    } else {
      assert ts[1..] == rest;
    }
  }

  lemma {:induction false} ItemsParse(v: Literal, i: nat, rest: seq<L.Tok>)
    requires v.ArrayLit? && i <= |v.items|
    ensures ItemsTail(v.items[..i], PrintItems(v, i) + rest) == Got(v, rest)
    decreases v, |v.items| - i
  {
    if i == |v.items| {
      assert v.items[..i] == v.items;
    } else {
      var item, more := PrintValue(v.items[i]), PrintItems(v, i + 1);
      ValueParses(v.items[i], more + rest);
      ItemsParse(v, i + 1, rest);
      assert v.items[..i] + [v.items[i]] == v.items[..i + 1];
      Regroup([L.Comma], item, more, rest);
    }
  }

  lemma Regroup(a: seq<L.Tok>, b: seq<L.Tok>, c: seq<L.Tok>, d: seq<L.Tok>)
    ensures a + (b + c) + d == a + (b + (c + d))
  {
  }

  // ---- Predicates ----

  /** A leaf: a comparison, `contains` or `exists`. */
  lemma LeafParses(p: Predicate, rest: seq<L.Tok>)
    requires Canonical(p) && (p.PCompare? || p.PContains? || p.PExists?) && !Starts(rest, L.Dot)
    ensures ParseNot(Bare(p) + rest) == Got(p, rest)
  {
    match p
    case PExists(path) => ExistsParses(path, rest);
    case PContains(path, value) => ConditionParses(path, L.Contains, value, rest);
    case PCompare(left, op, right) =>
      OperatorInverse(op);
      ConditionParses(left, OperatorToken(op), right, rest);
  }

  lemma OperatorInverse(op: ComparisonOp)
    ensures Operator(OperatorToken(op)) == Some(op) && OperatorToken(op) != L.Dot
  {
  }

  lemma ExistsParses(path: FieldPath, rest: seq<L.Tok>)
    requires path != [] && !Starts(rest, L.Dot)
    ensures ParseNot([L.Exists] + PrintPath(path) + rest) == Got(PExists(path), rest)
  {
    PathParses(path, rest);
    assert [L.Exists] + PrintPath(path) + rest == [L.Exists] + (PrintPath(path) + rest);
  }

  lemma ConditionParses(path: FieldPath, op: L.Tok, v: Literal, rest: seq<L.Tok>)
    requires path != [] && op != L.Dot
    ensures var ts := PrintPath(path) + ([op] + PrintValue(v)) + rest;
            && (op == L.Contains && !v.ArrayLit? ==> ParseNot(ts) == Got(PContains(path, v), rest))
            && (Operator(op).Some? ==> ParseNot(ts) == Got(PCompare(path, Operator(op).value, v), rest))
  {
    var more := [op] + (PrintValue(v) + rest);
    assert PrintPath(path) + ([op] + PrintValue(v)) + rest == PrintPath(path) + more;
    PathParses(path, more);
    assert (PrintPath(path) + more)[0] == L.Ident(path[0]);
    assert ParseNot(PrintPath(path) + more) == ParsePrimary(PrintPath(path) + more);
    ValueParses(v, rest);
    ConditionStep(path, op, PrintValue(v) + rest, v, rest);
  }

  // ---- Sentences of the grammar ----

  /** A condition as it is written, with its parentheses. */
  datatype Expr =
    | Leaf(p: Predicate)
    | Negated(inner: Expr)
    | Parens(inner: Expr)
    | Both(left: Expr, right: Expr)
    | Either(left: Expr, right: Expr)

  function Rank(e: Expr): nat { if e.Either? then 0 else if e.Both? then 1 else 2 }

  /** `and` binds tighter than `or`, both to the left; `not` takes an operand without either. */
  predicate Proper(e: Expr)
  {
    match e
    case Leaf(p) => Canonical(p) && (p.PCompare? || p.PContains? || p.PExists?)
    case Negated(inner) => Proper(inner) && Rank(inner) == 2
    case Parens(inner) => Proper(inner)
    case Both(left, right) => Proper(left) && Proper(right) && Rank(left) >= 1 && Rank(right) == 2
    case Either(left, right) => Proper(left) && Proper(right) && Rank(right) >= 1
  }

  /** Its tokens. */
  function Spelled(e: Expr): seq<L.Tok>
    requires Proper(e)
  {
    match e
    case Leaf(p) => Bare(p)
    case Negated(inner) => [L.Not] + Spelled(inner)
    case Parens(inner) => [L.LParen] + (Spelled(inner) + [L.RParen])
    case Both(left, right) => Spelled(left) + ([L.And] + Spelled(right))
    case Either(left, right) => Spelled(left) + ([L.Or] + Spelled(right))
  }

  /** The predicate it stands for. */
  function Reads(e: Expr): (p: Predicate)
    requires Proper(e)
    ensures Canonical(p)
  {
    match e
    case Leaf(p) => p
    case Negated(inner) => PNot(Reads(inner))
    case Parens(inner) => Reads(inner)
    case Both(left, right) => PAnd([Reads(left), Reads(right)])
    case Either(left, right) => POr([Reads(left), Reads(right)])
  }

  lemma {:induction false} OperandParses(e: Expr, rest: seq<L.Tok>)
    requires Proper(e) && Rank(e) == 2 && !Starts(rest, L.Dot)
    ensures ParseNot(Spelled(e) + rest) == Got(Reads(e), rest)
    decreases e, 0
  {
    match e
    case Leaf(p) => LeafParses(p, rest);
    case Negated(inner) =>
      OperandParses(inner, rest);
      NotStep(Spelled(inner), Reads(inner), rest);
    case Parens(inner) =>
      DisjunctionParses(inner, [L.RParen] + rest);
      Parenthesised(Spelled(inner), Reads(inner), rest);
  }

  /** Parentheses reset the level. */
  lemma Parenthesised(ts: seq<L.Tok>, p: Predicate, rest: seq<L.Tok>)
    requires Canonical(p) && ParseOr(ts + ([L.RParen] + rest)) == OrTail(p, [L.RParen] + rest)
    ensures ParseNot([L.LParen] + (ts + [L.RParen]) + rest) == Got(p, rest)
  {
    assert [L.LParen] + (ts + [L.RParen]) + rest == [L.LParen] + (ts + ([L.RParen] + rest));
    assert OrTail(p, [L.RParen] + rest) == Got(p, [L.RParen] + rest);
    ParenStep(ts + ([L.RParen] + rest), p, rest);
  }

  lemma {:induction false} ConjunctionParses(e: Expr, rest: seq<L.Tok>)
    requires Proper(e) && Rank(e) >= 1 && !Starts(rest, L.Dot)
    ensures ParseAnd(Spelled(e) + rest) == AndTail(Reads(e), rest)
    decreases e, 1
  {
    if e.Both? {
      var more := [L.And] + (Spelled(e.right) + rest);
      assert Spelled(e) + rest == Spelled(e.left) + more;
      ConjunctionParses(e.left, more);
      assert more[1..] == Spelled(e.right) + rest;
      OperandParses(e.right, rest);
    } else {
      OperandParses(e, rest);
    }
  }

  lemma {:induction false} DisjunctionParses(e: Expr, rest: seq<L.Tok>)
    requires Proper(e) && !Starts(rest, L.Dot) && !Starts(rest, L.And)
    ensures ParseOr(Spelled(e) + rest) == OrTail(Reads(e), rest)
    decreases e, 2
  {
    if e.Either? {
      var more := [L.Or] + (Spelled(e.right) + rest);
      assert Spelled(e) + rest == Spelled(e.left) + more;
      DisjunctionParses(e.left, more);
      assert more[1..] == Spelled(e.right) + rest;
      ConjunctionParses(e.right, rest);
      assert AndTail(Reads(e.right), rest) == Got(Reads(e.right), rest);
    } else {
      ConjunctionParses(e, rest);
      assert AndTail(Reads(e), rest) == Got(Reads(e), rest);
    }
  }

  /** The printer's way to write a predicate. */
  function Bared(p: Predicate): (e: Expr)
    requires Canonical(p)
    ensures Proper(e) && Rank(e) == Precedence(p)
    decreases p, 0
  {
    match p
    case POr(items) => Either(WrittenAt(items[0], 0), WrittenAt(items[1], 1))
    case PAnd(items) => Both(WrittenAt(items[0], 1), WrittenAt(items[1], 2))
    case PNot(inner) => Negated(WrittenAt(inner, 2))
    case _ => Leaf(p)
  }

  function WrittenAt(p: Predicate, level: nat): (e: Expr)
    requires Canonical(p) && level <= 2
    ensures Proper(e) && Rank(e) >= level
    decreases p, 1
  {
    if Precedence(p) < level then Parens(Bared(p)) else Bared(p)
  }

  lemma {:induction false} PrintedIsSpelled(p: Predicate, level: nat)
    requires Canonical(p) && level <= 2
    ensures Spelled(WrittenAt(p, level)) == PrintAt(p, level) && Reads(WrittenAt(p, level)) == p
    decreases p, 1
  {
    BareIsSpelled(p);
  }

  lemma {:induction false} BareIsSpelled(p: Predicate)
    requires Canonical(p)
    ensures Spelled(Bared(p)) == Bare(p) && Reads(Bared(p)) == p
    decreases p, 0
  {
    match p
    case POr(items) =>
      PrintedIsSpelled(items[0], 0);
      PrintedIsSpelled(items[1], 1);
      assert items == [items[0], items[1]];
    case PAnd(items) =>
      PrintedIsSpelled(items[0], 1);
      PrintedIsSpelled(items[1], 2);
      assert items == [items[0], items[1]];
    case PNot(inner) => PrintedIsSpelled(inner, 2);
    case _ =>
  }

  // ---- Whole queries ----

  lemma {:induction false} PathsParse(done: seq<FieldPath>, more: seq<FieldPath>, rest: seq<L.Tok>)
    requires done != [] && (forall i :: 0 <= i < |done| ==> done[i] != []) && forall i :: 0 <= i < |more| ==>
               more[i] != []
    requires !Starts(rest, L.Dot) && !Starts(rest, L.Comma)
    ensures FieldsTail(done, PrintPaths(more) + rest) == Got(Fields(done + more), rest)
    decreases |more|
  {
    if more == [] {
      assert done + more == done && PrintPaths(more) + rest == rest;
    } else {
      NextFieldParses(done, more[0], PrintPaths(more[1..]), rest);
      PathsParse(done + [more[0]], more[1..], rest);
      Shift(done, more);
    }
  }

  lemma Shift<T>(done: seq<T>, more: seq<T>)
    requires more != []
    ensures done + [more[0]] + more[1..] == done + more
  {
  }

  lemma NextFieldParses(done: seq<FieldPath>, path: FieldPath, more: seq<L.Tok>, rest: seq<L.Tok>)
    requires done != [] && (forall i :: 0 <= i < |done| ==> done[i] != []) && path != []
    requires !Starts(rest, L.Dot) && (more != [] ==> more[0] == L.Comma)
    ensures FieldsTail(done, [L.Comma] + (PrintPath(path) + more) + rest) == FieldsTail(done + [path], more + rest)
  {
    assert !Starts(more + rest, L.Dot);
    PathParses(path, more + rest);
    Regroup([L.Comma], PrintPath(path), more, rest);
  }

  lemma ProjectionParses(p: Projection, rest: seq<L.Tok>)
    requires p.Fields? && CanonicalQuery(Query(p, PTrue)) && !Starts(rest, L.Dot) && !Starts(rest, L.Comma)
    ensures Starts(PrintProjection(p) + rest, L.Select)
    ensures ParseProjection((PrintProjection(p) + rest)[1..]) == Got(p, rest)
  {
    var first, others := p.paths[0], p.paths[1..];
    FieldListParses(first, others, rest);
    assert [first] + others == p.paths;
    Regroup([L.Select], PrintPath(first), PrintPaths(others), rest);
  }

  lemma FieldListParses(first: FieldPath, others: seq<FieldPath>, rest: seq<L.Tok>)
    requires first != [] && forall i :: 0 <= i < |others| ==> others[i] != []
    requires !Starts(rest, L.Dot) && !Starts(rest, L.Comma)
    ensures ParseProjection(PrintPath(first) + (PrintPaths(others) + rest)) == Got(Fields([first] + others), rest)
  {
    var next := PrintPaths(others) + rest;
    assert (PrintPath(first) + next)[0] == L.Ident(first[0]);
    assert !Starts(next, L.Dot);
    PathParses(first, next);
    PathsParse([first], others, rest);
  }

  lemma ConditionIsParsed(p: Predicate)
    requires Canonical(p)
    ensures ParseOr(PrintCondition(p)[1..]) == Got(p, [])
  {
    assert PrintCondition(p)[1..] == PrintAt(p, 0) + [];
    PrintedIsSpelled(p, 0);
    DisjunctionParses(WrittenAt(p, 0), []);
  }

  /** Parsing inverts printing, for every query the grammar can express. */
  lemma ParseInvertsPrint(q: Query)
    requires CanonicalQuery(q)
    ensures ParseQuery(PrintQuery(q)) == Got(q, [])
  {
    if q.condition != PTrue {
      ConditionIsParsed(q.condition);
    }
    if q.projection.Fields? {
      ProjectionParses(q.projection, PrintCondition(q.condition));
    } else {
      assert PrintQuery(q) == PrintCondition(q.condition);
    }
  }

  /** Hence printing what was parsed and parsing it again changes nothing, and two queries never print alike. */
  lemma ParsedQueriesReprint(ts: seq<L.Tok>, other: Query)
    requires ParseQuery(ts).Got?
    ensures ParseQuery(PrintQuery(ParseQuery(ts).value)) == ParseQuery(ts)
    ensures CanonicalQuery(other) && PrintQuery(other) == PrintQuery(ParseQuery(ts).value) ==>
              other == ParseQuery(ts).value
  {
    ParseInvertsPrint(ParseQuery(ts).value);
    if CanonicalQuery(other) {
      ParseInvertsPrint(other);
    }
  }
}
