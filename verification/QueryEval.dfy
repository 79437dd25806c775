/** Evaluating predicates over JSON documents (`query/eval.rs`). */
module QueryEval {
  import opened Wrappers
  import opened Documents
  import opened QueryAst

  predicate JsonEq(j: Json, c: Literal)
  {
    match (j, c)
    case (String(a), TextLit(b)) => a == b
    case (Number(a), NumberLit(b)) => a == b
    case (Bool(a), BoolLit(b)) => a == b
    case (Null, NullLit) => true
    case _ => false
  }

  /** Strings are ordered by code point, which is also the order of their UTF-8 bytes. */
  predicate TextLess(a: string, b: string)
  {
    b != "" && (a == "" || a[0] < b[0] || (a[0] == b[0] && TextLess(a[1..], b[1..])))
  }

  predicate IsOrdering(op: ComparisonOp) { op == OpLt || op == OpLe || op == OpGt || op == OpGe }

  predicate Ordered(op: ComparisonOp, less: bool, same: bool)
    requires IsOrdering(op)
  {
    match op
    case OpLt => less
    case OpLe => less || same
    case OpGt => !less && !same
    case OpGe => !less
  }

  predicate Compare(op: ComparisonOp, got: Option<Json>, rhs: Literal)
  {
    match op
    case OpEq => if got.Some? then JsonEq(got.value, rhs) else rhs.NullLit?
    case OpNe => if got.Some? then !JsonEq(got.value, rhs) else !rhs.NullLit?
    case OpLike => got.Some? && got.value.String? && rhs.TextLit? && Glob(rhs.text, got.value.text)
    case OpInSet => rhs.ArrayLit? && got.Some? && exists i :: 0 <= i < |rhs.items| && JsonEq(got.value, rhs.items[i])
    case _ =>
      if got.Some? && got.value.Number? && rhs.NumberLit? then
        Ordered(op, got.value.num < rhs.num, got.value.num == rhs.num)
      else if got.Some? && got.value.String? && rhs.TextLit? then
        Ordered(op, TextLess(got.value.text, rhs.text), got.value.text == rhs.text)
      else false
  }

  /** What a predicate means: every conjunct, some disjunct. */
  predicate Holds(p: Predicate, t: Json)
  {
    match p
    case PTrue => true
    case PFalse => false
    case PAnd(items) => forall i :: 0 <= i < |items| ==> Holds(items[i], t)
    case POr(items) => exists i :: 0 <= i < |items| && Holds(items[i], t)
    case PNot(inner) => !Holds(inner, t)
    case PCompare(left, op, right) => Compare(op, Lookup(left, t), right)
    case PContains(path, value) =>
      var found := Lookup(path, t);
      && found.Some? && found.value.Array?
      && exists i :: 0 <= i < |found.value.items| && JsonEq(found.value.items[i], value)
    case PExists(path) => Lookup(path, t).Some?
  }

  datatype QueryError = ParseFailure | InvalidPath | UnknownField | EvalFailure

  /** Evaluation with early exit gives the meaning, and never an error. */
  method Evaluate(p: Predicate, t: Json) returns (r: Result<bool, QueryError>)
    ensures r == Ok(Holds(p, t))
    decreases p
  {
    match p
    case PTrue => r := Ok(true);
    case PFalse => r := Ok(false);
    case PAnd(items) =>
      for i := 0 to |items|
        invariant forall j :: 0 <= j < i ==> Holds(items[j], t)
      {
        r := Evaluate(items[i], t);
        if r.Err? || !r.value {
          return;
        }
      }
      r := Ok(true);
    case POr(items) =>
      for i := 0 to |items|
        invariant forall j :: 0 <= j < i ==> !Holds(items[j], t)
      {
        r := Evaluate(items[i], t);
        if r.Err? || r.value {
          return;
        }
      }
      r := Ok(false);
    case PNot(inner) =>
      r := Evaluate(inner, t);
      if r.Ok? {
        r := Ok(!r.value);
      }
    case PCompare(left, op, right) =>
      var got := Walk(left, t);
      r := Ok(Compare(op, got, right));
    case PContains(path, value) =>
      var got := Walk(path, t);
      r := Ok(&& got.Some? && got.value.Array?
              && exists i :: 0 <= i < |got.value.items| && JsonEq(got.value.items[i], value));
    case PExists(path) =>
      var got := Walk(path, t);
      r := Ok(got.Some?);
  }

  // ---- The order on strings is a strict total order ----

  lemma {:induction false} TextOrderIsTotal(a: string, b: string)
    ensures TextLess(a, b) || a == b || TextLess(b, a)
    ensures TextLess(a, b) ==> a != b && !TextLess(b, a)
  {
    if a != "" && b != "" && a[0] == b[0] {
      TextOrderIsTotal(a[1..], b[1..]);
      assert a == [a[0]] + a[1..] && b == [b[0]] + b[1..];
    }
  }

  lemma {:induction false} TextOrderIsTransitive(a: string, b: string, c: string)
    requires TextLess(a, b) && TextLess(b, c)
    ensures TextLess(a, c)
  {
    if a != "" && a[0] == b[0] == c[0] {
      TextOrderIsTransitive(a[1..], b[1..], c[1..]);
    }
  }

  /** `<` negates `>=`, `<=` negates `>`, and `!=` negates `=`, on any operands that `=` could compare in order. */
  lemma OperatorsAreDual(got: Json, rhs: Literal)
    ensures Compare(OpNe, Some(got), rhs) <==> !Compare(OpEq, Some(got), rhs)
    ensures (got.Number? && rhs.NumberLit?) || (got.String? && rhs.TextLit?) ==>
              && (Compare(OpLt, Some(got), rhs) <==> !Compare(OpGe, Some(got), rhs))
              && (Compare(OpLe, Some(got), rhs) <==> !Compare(OpGt, Some(got), rhs))
              && (Compare(OpEq, Some(got), rhs) <==> Compare(OpLe, Some(got), rhs) && Compare(OpGe, Some(got), rhs))
  {
    if got.String? && rhs.TextLit? {
      TextOrderIsTotal(got.text, rhs.text);
    }
  }

  // ---- Glob patterns ----

  /** The backtracking helper of `glob_match`. */
  predicate Glob(p: string, s: string)
    decreases |p| + |s|
  {
    if p == "" then s == ""
    else if p[0] == '*' then Glob(p[1..], s) || (s != "" && Glob(p, s[1..]))
    else s != "" && (p[0] == '?' || p[0] == s[0]) && Glob(p[1..], s[1..])
  }

  function Joined(runs: seq<string>): string
  {
    if runs == [] then "" else runs[0] + Joined(runs[1..])
  }

  predicate Takes(c: char, run: string)
  {
    if c == '*' then true else |run| == 1 && (c == '?' || run[0] == c)
  }

  /** One run of the text per pattern character. */
  ghost predicate SplitsInto(p: string, s: string, runs: seq<string>)
  {
    |runs| == |p| && Joined(runs) == s && forall i :: 0 <= i < |p| ==> Takes(p[i], runs[i])
  }

  /** The declarative meaning of a glob: the text splits into one run per pattern character. */
  ghost predicate GlobMeans(p: string, s: string) { exists runs :: SplitsInto(p, s, runs) }

  lemma {:induction false} GlobSplits(p: string, s: string) returns (runs: seq<string>)
    requires Glob(p, s)
    ensures SplitsInto(p, s, runs)
    decreases |p| + |s|
  {
    if p == "" {
      runs := [];
    } else if p[0] == '*' && Glob(p[1..], s) {
      var more := GlobSplits(p[1..], s);
      runs := [""] + more;
    } else if p[0] == '*' {
      var longer := GlobSplits(p, s[1..]);
      runs := [[s[0]] + longer[0]] + longer[1..];
      assert Joined(runs) == [s[0]] + Joined(longer) && s == [s[0]] + s[1..];
    } else {
      var more := GlobSplits(p[1..], s[1..]);
      runs := [[s[0]]] + more;
      assert s == [s[0]] + s[1..];
    }
  }

  lemma {:induction false} SplitsGlob(p: string, s: string, runs: seq<string>)
    requires SplitsInto(p, s, runs)
    ensures Glob(p, s)
    decreases |p| + |s|
  {
    if p != "" {
      assert s == runs[0] + Joined(runs[1..]);
      if p[0] == '*' && runs[0] != "" {
        var shorter := [runs[0][1..]] + runs[1..];
        assert shorter[1..] == runs[1..] && s[1..] == Joined(shorter);
        SplitsGlob(p, s[1..], shorter);
      } else {
        assert s[|runs[0]|..] == Joined(runs[1..]);
        SplitsGlob(p[1..], s[|runs[0]|..], runs[1..]);
      }
    }
  }

  lemma GlobIsDeclarative(p: string, s: string)
    ensures Glob(p, s) <==> GlobMeans(p, s)
  {
    if Glob(p, s) {
      var runs := GlobSplits(p, s);
    }
    if GlobMeans(p, s) {
      var runs :| SplitsInto(p, s, runs);
      SplitsGlob(p, s, runs);
    }
  }

  // ---- What comparisons say ----

  /** The document that equals the literal; no document equals a list literal. */
  function ValueOf(c: Literal): Option<Json>
  {
    match c
    case TextLit(text) => Some(String(text))
    case NumberLit(num) => Some(Number(num))
    case BoolLit(bit) => Some(Bool(bit))
    case NullLit => Some(Null)
    case ArrayLit(_) => None
  }

  /** A common prefix, and then `a` ends or has the smaller character. */
  ghost predicate TextBefore(a: string, b: string)
  {
    exists k :: PartsAt(a, b, k)
  }

  ghost predicate PartsAt(a: string, b: string, k: nat)
  {
    k <= |a| && k < |b| && a[..k] == b[..k] && (k == |a| || a[k] < b[k])
  }

  lemma {:induction false} TextLessMeans(a: string, b: string)
    ensures TextLess(a, b) <==> TextBefore(a, b)
  {
    if b != "" && a != "" && a[0] == b[0] {
      TextLessMeans(a[1..], b[1..]);
      if k: nat :| PartsAt(a, b, k) {
        assert k > 0 && a[..k][1..] == a[1..][..k - 1] && b[..k][1..] == b[1..][..k - 1];
        assert PartsAt(a[1..], b[1..], k - 1);
      }
      if k: nat :| PartsAt(a[1..], b[1..], k) {
        assert a[..k + 1] == [a[0]] + a[1..][..k] && b[..k + 1] == [b[0]] + b[1..][..k];
        assert PartsAt(a, b, k + 1);
      }
    } else if b != "" && (a == "" || a[0] < b[0]) {
      assert a[..0] == b[..0];
      assert PartsAt(a, b, 0);
    } else {
      forall k: nat ensures !PartsAt(a, b, k) {
        if 0 < k <= |a| && k < |b| { assert a[..k][0] == a[0] && b[..k][0] == b[0]; }
      }
    }
  }

  /** The value is smaller than the literal, both numbers or both strings. */
  ghost predicate Below(v: Json, c: Literal)
  {
    (v.Number? && c.NumberLit? && v.num < c.num) || (v.String? && c.TextLit? && TextBefore(v.text, c.text))
  }

  ghost predicate Above(v: Json, c: Literal)
  {
    (v.Number? && c.NumberLit? && c.num < v.num) || (v.String? && c.TextLit? && TextBefore(c.text, v.text))
  }

  /**
   What an operator says of a field: values of different kinds and missing
   fields are never ordered, and a missing field equals null only.
   */
  ghost predicate Says(op: ComparisonOp, got: Option<Json>, c: Literal)
  {
    match op
    case OpEq => ValueOf(c) == Some(if got.Some? then got.value else Null)
    case OpNe => ValueOf(c) != Some(if got.Some? then got.value else Null)
    case OpLt => got.Some? && Below(got.value, c)
    case OpGt => got.Some? && Above(got.value, c)
    case OpLe => got.Some? && (Below(got.value, c) || (Sortable(c) && ValueOf(c) == got))
    case OpGe => got.Some? && (Above(got.value, c) || (Sortable(c) && ValueOf(c) == got))
    case OpLike => got.Some? && got.value.String? && c.TextLit? && GlobMeans(c.text, got.value.text)
    case OpInSet => got.Some? && c.ArrayLit? && exists item :: item in c.items && ValueOf(item) == got
  }

  lemma ComparisonsMean(path: FieldPath, op: ComparisonOp, c: Literal, t: Json)
    ensures Holds(PCompare(path, op, c), t) <==> Says(op, Lookup(path, t), c)
  {
    var got := Lookup(path, t);
    if got.Some? && got.value.String? && c.TextLit? {
      TextsCompare(got.value.text, c.text);
      GlobIsDeclarative(c.text, got.value.text);
    }
    if got.Some? && c.ArrayLit? {
      MembersCompare(got.value, c.items);
    }
  }

  predicate Sortable(c: Literal) { c.NumberLit? || c.TextLit? }

  lemma TextsCompare(a: string, b: string)
    ensures TextBefore(a, b) <==> TextLess(a, b)
    ensures TextBefore(b, a) <==> !TextLess(a, b) && a != b
  {
    TextLessMeans(a, b);
    TextLessMeans(b, a);
    TextOrderIsTotal(a, b);
  }

  lemma MembersCompare(v: Json, items: seq<Literal>)
    ensures (exists i :: 0 <= i < |items| && JsonEq(v, items[i])) <==>
            (exists item :: item in items && ValueOf(item) == Some(v))
  {
    if i :| 0 <= i < |items| && JsonEq(v, items[i]) { assert items[i] in items; }
    if item :| item in items && ValueOf(item) == Some(v) {
      var i :| 0 <= i < |items| && items[i] == item;
      assert JsonEq(v, items[i]);
    }
  }

  /** A list of conjuncts or disjuncts grows by one; the empty ones are true and false. */
  lemma ConnectivesFold(items: seq<Predicate>, p: Predicate, t: Json)
    ensures Holds(PAnd([]), t) && !Holds(POr([]), t) && Holds(PTrue, t) && !Holds(PFalse, t)
    ensures Holds(PAnd(items + [p]), t) <==> Holds(PAnd(items), t) && Holds(p, t)
    ensures Holds(POr(items + [p]), t) <==> Holds(POr(items), t) || Holds(p, t)
    ensures Holds(PNot(p), t) <==> !Holds(p, t)
  {
    AndFolds(items, p, t);
    OrFolds(items, p, t);
  }

  lemma AndFolds(items: seq<Predicate>, p: Predicate, t: Json)
    ensures Holds(PAnd(items + [p]), t) <==> Holds(PAnd(items), t) && Holds(p, t)
  {
    var more := items + [p];
    assert more[|items|] == p;
    if Holds(PAnd(more), t) {
      forall i | 0 <= i < |items| ensures Holds(items[i], t) { assert more[i] == items[i]; }
    }
  }

  lemma OrFolds(items: seq<Predicate>, p: Predicate, t: Json)
    ensures Holds(POr(items + [p]), t) <==> Holds(POr(items), t) || Holds(p, t)
  {
    var more := items + [p];
    assert more[|items|] == p;
    if Holds(POr(items), t) {
      var i :| 0 <= i < |items| && Holds(items[i], t);
      assert Holds(more[i], t);
    }
  }

  /** `contains` asks for an array with an equal element, and `exists` for any value, null included. */
  lemma FieldTestsMean(path: FieldPath, c: Literal, t: Json)
    ensures Holds(PExists(path), t) <==> exists v :: Lookup(path, t) == Some(v)
    ensures Holds(PContains(path, c), t) <==>
            exists items, v :: Lookup(path, t) == Some(Array(items)) && v in items && ValueOf(c) == Some(v)
  {
    if Lookup(path, t).Some? && Lookup(path, t).value.Array? {
      var items := Lookup(path, t).value.items;
      if i :| 0 <= i < |items| && JsonEq(items[i], c) { assert items[i] in items && ValueOf(c) == Some(items[i]); }
      if v :| v in items && ValueOf(c) == Some(v) {
        var i :| 0 <= i < |items| && items[i] == v;
        assert JsonEq(items[i], c);
      }
    }
  }
}
