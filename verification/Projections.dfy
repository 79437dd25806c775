/**
 Projection (`query/eval.rs`): `project` rebuilds a JSON tree path by path.  It
 is proved equal to restricting the target to a set of paths, which does not
 depend on their order.
 */
module Projections {
  import opened Wrappers
  import opened Documents
  import opened QueryAst
  import opened QueryEval

  // ---- The code ----

  /** `insert_path`: puts a value under a path, adding objects on the way and stopping at a non-object. */
  function InsertPath(out: map<string, Json>, segs: FieldPath, value: Json): map<string, Json>
    decreases |segs|
  {
    if segs == [] then out
    else if |segs| == 1 then out[segs[0] := value]
    else
      var next := if segs[0] in out then out[segs[0]] else Object(map[]);
      out[segs[0] := if next.Object? then Object(InsertPath(next.fields, segs[1..], value)) else next]
  }

  method Project(p: Projection, target: Json) returns (r: Json)
    ensures r == Projected(p, target)
  {
    if p.All? {
      return target;
    }
    var out: map<string, Json> := map[];
    for i := 0 to |p.paths|
      invariant Object(out) == Restrict(Wanted(p.paths[..i]), target)
    {
      var path := p.paths[i];
      WantedNext(p.paths, i);
      var found := Walk(path, target);
      if found.Some? {
        out := InsertPath(out, path, found.value);
        if path != [] {
          InsertRestricts(Wanted(p.paths[..i]), path, target);
        }
      } else {
        MissesAddNothing(Wanted(p.paths[..i]), path, target);
      }
    }
    assert p.paths[..|p.paths|] == p.paths;
    r := Object(out);
  }

  // ---- The meaning ----

  /** The requested paths, without the empty one. */
  function Wanted(paths: seq<FieldPath>): set<FieldPath>
  {
    set i | 0 <= i < |paths| && paths[i] != [] :: paths[i]
  }

  /** What is left of the paths that enter field `k`. */
  function Under(paths: set<FieldPath>, k: string): set<FieldPath>
  {
    set p | p in paths && p != [] && p[0] == k :: p[1..]
  }

  predicate Reaches(paths: set<FieldPath>, v: Json) { exists p :: p in paths && Lookup(p, v).Some? }

  /**
   The part of a document that the paths name: whole values at their ends, the objects on
   the way to them, nothing else.
   */
  function Restrict(paths: set<FieldPath>, v: Json): Json
    decreases v
  {
    if [] in paths then v
    else if !v.Object? then Object(map[])
    else
      Object(map k | k in v.fields && Reaches(Under(paths, k), v.fields[k]) ::
             Restrict(Under(paths, k), v.fields[k]))
  }

  function Projected(p: Projection, target: Json): Json
  {
    if p.All? then target else Restrict(Wanted(p.paths), target)
  }

  // ---- One insertion ----

  lemma Unreached(paths: set<FieldPath>, v: Json)
    requires !Reaches(paths, v)
    ensures Restrict(paths, v) == Object(map[])
  {
    assert Lookup([], v).Some?;
    if v.Object? {
      forall k | k in v.fields ensures !Reaches(Under(paths, k), v.fields[k]) {
        forall q | q in Under(paths, k) ensures Lookup(q, v.fields[k]).None? {
          var p :| p in paths && p != [] && p[0] == k && p[1..] == q;
          assert Lookup(p, v).None?;
        }
      }
    }
  }

  lemma UnderAdd(paths: set<FieldPath>, p: FieldPath, k: string)
    requires p != []
    ensures Under(paths + {p}, k) == if p[0] == k then Under(paths, k) + {p[1..]} else Under(paths, k)
  {
  }

  lemma WantedNext(paths: seq<FieldPath>, i: nat)
    requires i < |paths|
    ensures Wanted(paths[..i + 1]) == if paths[i] == [] then Wanted(paths[..i]) else Wanted(paths[..i]) + {paths[i]}
    ensures [] !in Wanted(paths[..i])
  {
    assert paths[..i + 1] == paths[..i] + [paths[i]];
    forall p | p in Wanted(paths[..i]) ensures p in Wanted(paths[..i + 1]) {
      var j :| 0 <= j < i && paths[..i][j] == p;
      assert paths[..i + 1][j] == p;
    }
    if paths[i] != [] {
      assert paths[..i + 1][i] == paths[i];
    }
  }

  /** Putting back what is already there changes nothing. */
  lemma {:induction false} InsertExisting(out: map<string, Json>, p: FieldPath)
    requires p != [] && Lookup(p, Object(out)).Some?
    ensures InsertPath(out, p, Lookup(p, Object(out)).value) == out
    decreases |p|
  {
    var v := out[p[0]];
    if |p| > 1 {
      InsertExisting(v.fields, p[1..]);
    }
  }

  /** A path that misses names nothing. */
  lemma {:induction false} MissesAddNothing(paths: set<FieldPath>, p: FieldPath, v: Json)
    requires Lookup(p, v).None?
    ensures Restrict(paths + {p}, v) == Restrict(paths, v)
    decreases |p|
  {
    if [] !in paths && v.Object? {
      forall k | k in v.fields
        ensures Reaches(Under(paths + {p}, k), v.fields[k]) <==> Reaches(Under(paths, k), v.fields[k])
        ensures Restrict(Under(paths + {p}, k), v.fields[k]) == Restrict(Under(paths, k), v.fields[k])
      {
        UnderAdd(paths, p, k);
        if p[0] == k {
          MissesAddNothing(Under(paths, k), p[1..], v.fields[k]);
        }
      }
    }
  }

  /** Inserting the value at a path that resolves is restricting to one more path. */
  lemma {:induction false} InsertRestricts(paths: set<FieldPath>, p: FieldPath, v: Json)
    requires p != [] && Lookup(p, v).Some? && [] !in paths
    ensures v.Object? && Restrict(paths, v).Object?
    ensures Object(InsertPath(Restrict(paths, v).fields, p, Lookup(p, v).value)) == Restrict(paths + {p}, v)
    decreases |p|
  {
    var k := p[0];
    var out, all := Restrict(paths, v).fields, Restrict(paths + {p}, v).fields;
    forall j | j != k
      ensures (j in all <==> j in out) && (j in all ==> all[j] == out[j])
    {
      UnderAdd(paths, p, j);
    }
    InsertAtField(paths, p, v);
    SameMap(InsertPath(out, p, Lookup(p, v).value), all, k);
  }

  lemma SameMap(a: map<string, Json>, b: map<string, Json>, k: string)
    requires k in a && k in b && a[k] == b[k]
    requires forall j :: j != k ==> (j in a <==> j in b) && (j in a ==> a[j] == b[j])
    ensures a == b
  {
  }

  lemma {:induction false} InsertAtField(paths: set<FieldPath>, p: FieldPath, v: Json)
    requires p != [] && Lookup(p, v).Some? && [] !in paths && v.Object?
    ensures var out := Restrict(paths, v).fields; var all := Restrict(paths + {p}, v).fields;
            var now := InsertPath(out, p, Lookup(p, v).value);
            p[0] in now && p[0] in all && now[p[0]] == all[p[0]]
    decreases |p|, 0
  {
    var k, sub := p[0], v.fields[p[0]];
    UnderAdd(paths, p, k);
    assert p[1..] in Under(paths + {p}, k);
    if |p| > 1 {
      if [] in Under(paths, k) {
        InsertExisting(sub.fields, p[1..]);
      } else {
        InsertRestricts(Under(paths, k), p[1..], sub);
        if !Reaches(Under(paths, k), sub) {
          Unreached(Under(paths, k), sub);
        }
      }
    }
  }

  // ---- What a projection keeps ----

  /** The result depends on which paths are requested, not on their order or repetition. */
  lemma ProjectionIsConfluent(a: seq<FieldPath>, b: seq<FieldPath>, target: Json)
    requires forall p :: p != [] ==> (p in a <==> p in b)
    ensures Projected(Fields(a), target) == Projected(Fields(b), target)
  {
    WantedIsMembership(a);
    WantedIsMembership(b);
    assert Wanted(a) == Wanted(b);
  }

  lemma WantedIsMembership(paths: seq<FieldPath>)
    ensures forall p :: p in Wanted(paths) <==> p in paths && p != []
  {
  }

  /** Every requested path reads the same in the projection. */
  lemma {:induction false} RequestedIsKept(paths: set<FieldPath>, p: FieldPath, v: Json)
    requires p in paths
    ensures Lookup(p, Restrict(paths, v)) == Lookup(p, v)
    decreases |p|
  {
    if p != [] && [] !in paths && v.Object? && p[0] in v.fields {
      var k := p[0];
      assert p[1..] in Under(paths, k);
      if Reaches(Under(paths, k), v.fields[k]) {
        RequestedIsKept(Under(paths, k), p[1..], v.fields[k]);
      }
    }
  }

  predicate IsPrefix(p: FieldPath, q: FieldPath) { |p| <= |q| && q[..|p|] == p }

  /**
   A path resolves in the projection exactly when it resolves in the target and a requested
   path passes or ends on it.
   */
  ghost predicate Named(paths: set<FieldPath>, q: FieldPath, v: Json)
  {
    || (exists p :: p in paths && IsPrefix(p, q))
    || (exists p :: p in paths && IsPrefix(q, p) && Lookup(p, v).Some?)
  }

  lemma {:induction false} ResolvesIff(paths: set<FieldPath>, q: FieldPath, v: Json)
    requires q != []
    ensures Lookup(q, Restrict(paths, v)).Some? <==> Lookup(q, v).Some? && Named(paths, q, v)
    decreases |q|
  {
    if [] in paths {
      assert IsPrefix([], q);
    } else if !v.Object? || q[0] !in v.fields {
      assert Lookup(q, v).None?;
    } else {
      NamedUnder(paths, q, v);
      var k, sub := q[0], v.fields[q[0]];
      if |q| == 1 {
        assert q[1..] == [];
      } else {
        ResolvesIff(Under(paths, k), q[1..], sub);
        if Lookup(q[1..], sub).Some? && !Reaches(Under(paths, k), sub) {
          UnreachedNotNamed(Under(paths, k), q[1..], sub);
        }
      }
    }
  }

  lemma NamedUnder(paths: set<FieldPath>, q: FieldPath, v: Json)
    requires q != [] && [] !in paths && v.Object? && q[0] in v.fields
    ensures Named(paths, q, v) <==> Named(Under(paths, q[0]), q[1..], v.fields[q[0]])
  {
    forall p | p in paths && (IsPrefix(p, q) || IsPrefix(q, p))
      ensures p[0] == q[0] && p[1..] in Under(paths, q[0])
      ensures IsPrefix(p, q) ==> IsPrefix(p[1..], q[1..])
      ensures IsPrefix(q, p) ==> IsPrefix(q[1..], p[1..])
    {
    }
    forall r | r in Under(paths, q[0]) && (IsPrefix(r, q[1..]) || IsPrefix(q[1..], r))
      ensures exists p ::
                && p in paths && p != [] && p[0] == q[0] && p[1..] == r
                && (IsPrefix(r, q[1..]) ==> IsPrefix(p, q)) && (IsPrefix(q[1..], r) ==> IsPrefix(q, p))
    {
      var p :| p in paths && p != [] && p[0] == q[0] && p[1..] == r;
      assert p == [q[0]] + r && q == [q[0]] + q[1..];
    }
  }

  lemma UnreachedNotNamed(paths: set<FieldPath>, q: FieldPath, v: Json)
    requires !Reaches(paths, v) && Lookup(q, v).Some?
    ensures !Named(paths, q, v)
  {
    forall p | p in paths ensures !IsPrefix(p, q) {
      PrefixResolves(p, q, v);
    }
  }

  lemma PrefixResolves(p: FieldPath, q: FieldPath, v: Json)
    requires Lookup(q, v).Some?
    ensures IsPrefix(p, q) ==> Lookup(p, v).Some?
  {
    if IsPrefix(p, q) {
      LookupConcat(p, q[|p|..], v);
      assert q == p + q[|p|..];
    }
  }

  /** Whatever lies at or below a requested path reads the same. */
  lemma BelowRequestedIsKept(paths: set<FieldPath>, p: FieldPath, more: FieldPath, v: Json)
    requires p in paths
    ensures Lookup(p + more, Restrict(paths, v)) == Lookup(p + more, v)
  {
    RequestedIsKept(paths, p, v);
    LookupConcat(p, more, v);
    LookupConcat(p, more, Restrict(paths, v));
  }

  /** The same document, or an object with some of the fields and part of each. */
  predicate Part(a: Json, b: Json)
  {
    a == b || (a.Object? && b.Object? && forall k :: k in a.fields ==> k in b.fields && Part(a.fields[k], b.fields[k]))
  }

  /**
   A projection holds nothing that the target does not; of a value that is no
   object and that no path names, it leaves an empty object.
   */
  lemma {:induction false} NothingIsAdded(paths: set<FieldPath>, v: Json)
    ensures if v.Object? || [] in paths then Part(Restrict(paths, v), v) else Restrict(paths, v) == Object(map[])
    decreases v
  {
    if [] !in paths && v.Object? {
      forall k | k in Restrict(paths, v).fields ensures Part(Restrict(paths, v).fields[k], v.fields[k]) {
        NothingIsAdded(Under(paths, k), v.fields[k]);
        assert v.fields[k].Object? || [] in Under(paths, k);
      }
    }
  }

  /** Projecting again to some of the paths is projecting to them at once; in particular projection is idempotent. */
  lemma {:induction false} ProjectingTwice(some: set<FieldPath>, paths: set<FieldPath>, v: Json)
    requires some <= paths
    ensures Restrict(some, Restrict(paths, v)) == Restrict(some, v)
    decreases v
  {
    if [] !in paths && v.Object? {
      var r := Restrict(paths, v);
      forall k | k in v.fields
        ensures Reaches(Under(some, k), v.fields[k]) <==> k in r.fields && Reaches(Under(some, k), r.fields[k])
        ensures k in r.fields ==> Restrict(Under(some, k), r.fields[k]) == Restrict(Under(some, k), v.fields[k])
      {
        assert Under(some, k) <= Under(paths, k);
        ProjectingTwice(Under(some, k), Under(paths, k), v.fields[k]);
        ReachesAgree(Under(some, k), Under(paths, k), v.fields[k]);
      }
      assert Restrict(some, r).fields == Restrict(some, v).fields;
    }
  }

  lemma ReachesAgree(some: set<FieldPath>, paths: set<FieldPath>, v: Json)
    requires some <= paths
    ensures Reaches(some, Restrict(paths, v)) <==> Reaches(some, v)
    ensures Reaches(some, v) ==> Reaches(paths, v)
  {
    forall p | p in some ensures Lookup(p, Restrict(paths, v)) == Lookup(p, v) {
      RequestedIsKept(paths, p, v);
    }
  }

  /** The projection laws for the lists that queries carry. */
  lemma ProjectionLaws(paths: seq<FieldPath>, target: Json)
    ensures var p := Fields(paths);
            && Projected(p, Projected(p, target)) == Projected(p, target)
            && (if target.Object? then Part(Projected(p, target), target) else Projected(p, target) == Object(map[]))
            && (forall q :: q in paths && q != [] ==> Lookup(q, Projected(p, target)) == Lookup(q, target))
  {
    WantedIsMembership(paths);
    ProjectingTwice(Wanted(paths), Wanted(paths), target);
    NothingIsAdded(Wanted(paths), target);
    forall q | q in paths && q != [] ensures Lookup(q, Projected(Fields(paths), target)) == Lookup(q, target) {
      RequestedIsKept(Wanted(paths), q, target);
    }
  }

  /** A requested path is kept for every target exactly when it is not the empty path, which `insert_path` ignores. */
  lemma KeptForEveryTargetIff(paths: seq<FieldPath>, q: FieldPath)
    requires q in paths
    ensures (forall target :: Lookup(q, Projected(Fields(paths), target)) == Lookup(q, target)) <==> q != []
  {
    if q == [] {
      WantedIsMembership(paths);
      assert Lookup(q, Projected(Fields(paths), Null)) != Lookup(q, Null);
    } else {
      forall target
        ensures Lookup(q, Projected(Fields(paths), target)) == Lookup(q, target)
      {
        ProjectionLaws(paths, target);
      }
    }
  }

  // ---- Selection and projection ----

  /** The paths a predicate reads. */
  function Mentions(p: Predicate): set<FieldPath>
  {
    match p
    case PAnd(items) => set i, q | 0 <= i < |items| && q in Mentions(items[i]) :: q
    case POr(items) => set i, q | 0 <= i < |items| && q in Mentions(items[i]) :: q
    case PNot(inner) => Mentions(inner)
    case PCompare(left, _, _) => {left}
    case PContains(path, _) => {path}
    case PExists(path) => {path}
    case _ => {}
  }

  /** A predicate depends only on the values at the paths it reads. */
  lemma {:induction false} HoldsReadsMentions(p: Predicate, a: Json, b: Json)
    requires forall q :: q in Mentions(p) ==> Lookup(q, a) == Lookup(q, b)
    ensures Holds(p, a) <==> Holds(p, b)
    decreases p, 1
  {
    match p
    case PAnd(items) => ItemsReadMentions(p, items, a, b);
    case POr(items) => ItemsReadMentions(p, items, a, b);
    case PNot(inner) => HoldsReadsMentions(inner, a, b);
    case PCompare(left, _, _) => assert left in Mentions(p);
    case PContains(path, _) => assert path in Mentions(p);
    case PExists(path) => assert path in Mentions(p);
    case _ =>
  }

  lemma {:induction false} ItemsReadMentions(p: Predicate, items: seq<Predicate>, a: Json, b: Json)
    requires p == PAnd(items) || p == POr(items)
    requires forall q :: q in Mentions(p) ==> Lookup(q, a) == Lookup(q, b)
    ensures forall i :: 0 <= i < |items| ==> (Holds(items[i], a) <==> Holds(items[i], b))
    decreases p, 0
  {
    forall i | 0 <= i < |items| ensures Holds(items[i], a) <==> Holds(items[i], b) {
      HoldsReadsMentions(items[i], a, b);
    }
  }

  /** Filtering before or after a projection that keeps every path of the predicate is the same. */
  lemma SelectionCommutesWithProjection(p: Predicate, projection: Projection, target: Json)
    requires projection.Fields? ==> forall q :: q in Mentions(p) ==> q in projection.paths && q != []
    ensures Holds(p, Projected(projection, target)) <==> Holds(p, target)
  {
    if projection.Fields? {
      ProjectionLaws(projection.paths, target);
      HoldsReadsMentions(p, Projected(projection, target), target);
    }
  }

  /** The empty path is not kept: `insert_path` ignores it, so a predicate on the whole document can change. */
  lemma EmptyPathIsNotKept()
    ensures var p := PCompare([], OpEq, NullLit);
            Mentions(p) == {[]} && Holds(p, Null) && !Holds(p, Projected(Fields([[]]), Null))
  {
    assert Wanted([[]]) == {};
    assert Projected(Fields([[]]), Null) == Object(map[]);
  }
}
