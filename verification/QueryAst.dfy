/** The query syntax tree (`query/ast.rs`). */
module QueryAst {
  import opened Documents

  datatype Literal =
    | TextLit(text: string)
    | NumberLit(num: real)
    | BoolLit(bit: bool)
    | NullLit
    | ArrayLit(items: seq<Literal>)

  datatype ComparisonOp = OpEq | OpNe | OpLt | OpLe | OpGt | OpGe | OpLike | OpInSet

  datatype Predicate =
    | PTrue
    | PFalse
    | PAnd(items: seq<Predicate>)
    | POr(items: seq<Predicate>)
    | PNot(inner: Predicate)
    | PCompare(left: FieldPath, op: ComparisonOp, right: Literal)
    | PContains(path: FieldPath, value: Literal)
    | PExists(path: FieldPath)

  datatype Projection = All | Fields(paths: seq<FieldPath>)

  datatype Query = Query(projection: Projection, condition: Predicate)

  /** The predicates that the grammar can express: binary connectives over comparisons with non-empty paths. */
  predicate Canonical(p: Predicate)
  {
    match p
    case PTrue => false
    case PFalse => false
    case PAnd(items) => |items| == 2 && Canonical(items[0]) && Canonical(items[1])
    case POr(items) => |items| == 2 && Canonical(items[0]) && Canonical(items[1])
    case PNot(inner) => Canonical(inner)
    case PCompare(left, _, _) => left != []
    case PContains(path, value) => path != [] && !value.ArrayLit?
    case PExists(path) => path != []
  }

  predicate CanonicalQuery(q: Query)
  {
    && (q.condition == PTrue || Canonical(q.condition))
    && (q.projection.Fields? ==>
          && q.projection.paths != []
          && forall i :: 0 <= i < |q.projection.paths| ==> q.projection.paths[i] != [])
  }
}
