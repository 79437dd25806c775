/**
 JSON documents and the dotted paths that address values inside them
 (`query/ast.rs`, `query/eval.rs`).  Numbers are an ordered type; rounding is
 not modelled.
 */
module Documents {
  import opened Wrappers

  datatype Json =
    | Null
    | Bool(bit: bool)
    | Number(num: real)
    | String(text: string)
    | Array(items: seq<Json>)
    | Object(fields: map<string, Json>)

  /** A parsed field path: the segments between the dots. */
  type FieldPath = seq<string>

  /** The value a path names, walking objects only. */
  function Lookup(path: FieldPath, target: Json): Option<Json>
  {
    if path == [] then Some(target)
    else if target.Object? && path[0] in target.fields then Lookup(path[1..], target.fields[path[0]])
    else None
  }

  /** The cursor walk of `lookup` and `FieldPath::extract`: a miss or a non-object ends it early. */
  method Walk(path: FieldPath, target: Json) returns (found: Option<Json>)
    ensures found == Lookup(path, target)
  {
    var cursor := target;
    for i := 0 to |path|
      invariant Lookup(path, target) == Lookup(path[i..], cursor)
    {
      if !cursor.Object? || path[i] !in cursor.fields {
        return None;
      }
      assert path[i..][1..] == path[i + 1..];
      cursor := cursor.fields[path[i]];
    }
    return Some(cursor);
  }

  /** Walking a longer path is walking its two parts in turn. */
  lemma {:induction false} LookupConcat(p: FieldPath, q: FieldPath, target: Json)
    ensures Lookup(p + q, target) ==
            match Lookup(p, target) { case None => None case Some(v) => Lookup(q, v) }
    ensures |p| == 1 ==> forall v :: Lookup(p, target) == Some(v) <==>
              target.Object? && p[0] in target.fields && target.fields[p[0]] == v
  {
    if p == [] {
      assert p + q == q;
    } else {
      assert (p + q)[0] == p[0] && (p + q)[1..] == p[1..] + q;
      if target.Object? && p[0] in target.fields {
        LookupConcat(p[1..], q, target.fields[p[0]]);
      }
    }
  }
}
