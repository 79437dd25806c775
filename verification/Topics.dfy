/** Topic patterns and how they match (`events/topic.rs`). */
module Topics {
  import opened Wrappers
  import opened Documents
  import opened QueryAst
  import opened Envelopes
  import E = QueryEval

  /** A regular-expression segment is known by the strings it accepts. */
  datatype Segment = Literal(text: string) | SingleWild | MultiWild | Regex(accepts: string -> bool)

  predicate TakesOne(seg: Segment, part: string)
    requires !seg.MultiWild?
  {
    match seg
    case Literal(text) => part == text
    case SingleWild => true
    case Regex(accepts) => accepts(part)
  }

  // ---- Declarative meaning ----

  function Joined(runs: seq<seq<string>>): seq<string>
  {
    if runs == [] then [] else runs[0] + Joined(runs[1..])
  }

  /** `**` takes one or more parts; every other segment takes one. */
  predicate Takes(seg: Segment, run: seq<string>)
  {
    if seg.MultiWild? then run != [] else |run| == 1 && TakesOne(seg, run[0])
  }

  ghost predicate SplitsInto(pat: seq<Segment>, parts: seq<string>, runs: seq<seq<string>>)
  {
    |runs| == |pat| && Joined(runs) == parts && forall i :: 0 <= i < |pat| ==> Takes(pat[i], runs[i])
  }

  /** The topic splits into consecutive runs, one per segment. */
  ghost predicate Means(pat: seq<Segment>, parts: seq<string>) { exists runs :: SplitsInto(pat, parts, runs) }

  // ---- The matcher ----

  /** The search of `matches_at`, with its shortcut for a trailing `**`. */
  predicate Matches(pat: seq<Segment>, parts: seq<string>)
    decreases |pat|
  {
    if pat == [] then parts == []
    else if pat[0].MultiWild? then
      if |pat| == 1 then parts != []
      else exists consume :: 1 <= consume <= |parts| && Matches(pat[1..], parts[consume..])
    else parts != [] && TakesOne(pat[0], parts[0]) && Matches(pat[1..], parts[1..])
  }

  method MatchesAt(pat: seq<Segment>, parts: seq<string>) returns (matched: bool)
    ensures matched <==> Matches(pat, parts)
    decreases |pat|
  {
    if pat == [] {
      return parts == [];
    }
    if pat[0].MultiWild? {
      if |pat| == 1 {
        return parts != [];
      }
      for consume := 1 to |parts| + 1
        invariant forall c :: 1 <= c < consume ==> !Matches(pat[1..], parts[c..])
      {
        var here := MatchesAt(pat[1..], parts[consume..]);
        if here {
          return true;
        }
      }
      return false;
    }
    if parts == [] || !TakesOne(pat[0], parts[0]) {
      return false;
    }
    matched := MatchesAt(pat[1..], parts[1..]);
  }

  lemma {:induction false} MatchSplits(pat: seq<Segment>, parts: seq<string>) returns (runs: seq<seq<string>>)
    requires Matches(pat, parts)
    ensures SplitsInto(pat, parts, runs)
    decreases |pat|
  {
    if pat == [] {
      runs := [];
    } else {
      var consume := 1;
      if |pat| == 1 && pat[0].MultiWild? {
        consume := |parts|;
      } else if pat[0].MultiWild? {
        consume :| 1 <= consume <= |parts| && Matches(pat[1..], parts[consume..]);
      }
      var more := MatchSplits(pat[1..], parts[consume..]);
      runs := [parts[..consume]] + more;
      assert runs[1..] == more && parts == parts[..consume] + parts[consume..];
    }
  }

  lemma {:induction false} SplitsMatch(pat: seq<Segment>, parts: seq<string>, runs: seq<seq<string>>)
    requires SplitsInto(pat, parts, runs)
    ensures Matches(pat, parts)
    decreases |pat|
  {
    if pat != [] {
      var consume := |runs[0]|;
      assert parts == runs[0] + Joined(runs[1..]);
      assert parts[consume..] == Joined(runs[1..]);
      SplitsMatch(pat[1..], parts[consume..], runs[1..]);
    }
  }

  /** The matcher holds exactly when the topic splits into runs assigned to the segments. */
  lemma MatchingIsDeclarative(pat: seq<Segment>, parts: seq<string>)
    ensures Matches(pat, parts) <==> Means(pat, parts)
  {
    if Matches(pat, parts) {
      var runs := MatchSplits(pat, parts);
    }
    if Means(pat, parts) {
      var runs :| SplitsInto(pat, parts, runs);
      SplitsMatch(pat, parts, runs);
    }
  }

  /** The shortcut for a trailing `**` decides what the general search would. */
  lemma TrailingShortcutIsGeneral(pat: seq<Segment>, parts: seq<string>)
    requires pat != [] && pat[0].MultiWild?
    ensures Matches(pat, parts) <==> exists consume :: 1 <= consume <= |parts| && Matches(pat[1..], parts[consume..])
  {
    if |pat| == 1 && parts != [] {
      assert Matches(pat[1..], parts[|parts|..]);
    }
  }

  lemma {:induction false} JoinedConcat(a: seq<seq<string>>, b: seq<seq<string>>)
    ensures Joined(a + b) == Joined(a) + Joined(b)
  {
    if a == [] {
      assert a + b == b;
    } else {
      assert (a + b)[0] == a[0] && (a + b)[1..] == a[1..] + b;
      JoinedConcat(a[1..], b);
    }
  }

  /** A pattern is matched in two halves: some cut of the topic matches each. */
  lemma MatchesConcat(a: seq<Segment>, b: seq<Segment>, parts: seq<string>)
    ensures Matches(a + b, parts) <==>
            exists cut :: 0 <= cut <= |parts| && Matches(a, parts[..cut]) && Matches(b, parts[cut..])
  {
    if Matches(a + b, parts) {
      var cut := CutOfMatch(a, b, parts);
    }
    if cut :| 0 <= cut <= |parts| && Matches(a, parts[..cut]) && Matches(b, parts[cut..]) {
      MatchOfCut(a, b, parts, cut);
    }
  }

  lemma SplitsApart(a: seq<Segment>, b: seq<Segment>, parts: seq<string>, runs: seq<seq<string>>)
    requires SplitsInto(a + b, parts, runs)
    ensures parts == Joined(runs[..|a|]) + Joined(runs[|a|..])
    ensures SplitsInto(a, Joined(runs[..|a|]), runs[..|a|]) && SplitsInto(b, Joined(runs[|a|..]), runs[|a|..])
  {
    assert runs == runs[..|a|] + runs[|a|..];
    JoinedConcat(runs[..|a|], runs[|a|..]);
    forall i | 0 <= i < |a| ensures Takes(a[i], runs[i]) { assert (a + b)[i] == a[i]; }
    forall i | 0 <= i < |b| ensures Takes(b[i], runs[|a| + i]) { assert (a + b)[|a| + i] == b[i]; }
  }

  lemma SplitsTogether(a: seq<Segment>, b: seq<Segment>, front: seq<seq<string>>, back: seq<seq<string>>)
    requires SplitsInto(a, Joined(front), front) && SplitsInto(b, Joined(back), back)
    ensures SplitsInto(a + b, Joined(front) + Joined(back), front + back)
  {
    JoinedConcat(front, back);
  }

  lemma CutOfMatch(a: seq<Segment>, b: seq<Segment>, parts: seq<string>) returns (cut: nat)
    requires Matches(a + b, parts)
    ensures cut <= |parts| && Matches(a, parts[..cut]) && Matches(b, parts[cut..])
  {
    var runs := MatchSplits(a + b, parts);
    SplitsApart(a, b, parts, runs);
    var front, back := Joined(runs[..|a|]), Joined(runs[|a|..]);
    SplitsMatch(a, front, runs[..|a|]);
    SplitsMatch(b, back, runs[|a|..]);
    cut := |front|;
    assert parts[..cut] == front && parts[cut..] == back;
  }

  lemma MatchOfCut(a: seq<Segment>, b: seq<Segment>, parts: seq<string>, cut: nat)
    requires cut <= |parts| && Matches(a, parts[..cut]) && Matches(b, parts[cut..])
    ensures Matches(a + b, parts)
  {
    var front := MatchSplits(a, parts[..cut]);
    var back := MatchSplits(b, parts[cut..]);
    SplitsTogether(a, b, front, back);
    assert parts == parts[..cut] + parts[cut..];
    SplitsMatch(a + b, parts, front + back);
  }

  lemma WildPair(parts: seq<string>)
    ensures Matches([MultiWild, SingleWild], parts) <==> |parts| >= 2
    ensures Matches([SingleWild, MultiWild], parts) <==> |parts| >= 2
  {
    var one := [SingleWild];
    assert [MultiWild, SingleWild][1..] == one && [SingleWild, MultiWild][1..] == [MultiWild];
    forall ps: seq<string> ensures Matches(one, ps) <==> |ps| == 1 { WildAlone(ps); }
    if |parts| >= 2 { assert Matches(one, parts[|parts| - 1..]); }
  }

  lemma WildAlone(parts: seq<string>)
    ensures Matches([SingleWild], parts) <==> |parts| == 1
  {
    var one := [SingleWild];
    assert one[1..] == [];
    if parts != [] { assert Matches([], parts[1..]) <==> parts[1..] == []; }
  }

  /** `**` next to a `*` may be swapped with it anywhere in a pattern. */
  lemma WildcardsCommute(before: seq<Segment>, after: seq<Segment>, parts: seq<string>)
    ensures Matches(before + ([MultiWild, SingleWild] + after), parts) <==>
            Matches(before + ([SingleWild, MultiWild] + after), parts)
  {
    WildcardsCommuteFirst(after);
    MatchesConcat(before, [MultiWild, SingleWild] + after, parts);
    MatchesConcat(before, [SingleWild, MultiWild] + after, parts);
  }

  lemma WildcardsCommuteFirst(after: seq<Segment>)
    ensures forall parts :: Matches([MultiWild, SingleWild] + after, parts) <==>
            Matches([SingleWild, MultiWild] + after, parts)
  {
    forall parts
      ensures Matches([MultiWild, SingleWild] + after, parts) <==> Matches([SingleWild, MultiWild] + after, parts)
    {
      MatchesConcat([MultiWild, SingleWild], after, parts);
      MatchesConcat([SingleWild, MultiWild], after, parts);
      forall cut | 0 <= cut <= |parts|
        ensures Matches([MultiWild, SingleWild], parts[..cut]) <==> Matches([SingleWild, MultiWild], parts[..cut])
      {
        WildPair(parts[..cut]);
      }
    }
  }

  // ---- Topic strings ----

  /** The pieces between the slashes; always at least one. */
  function Split(s: string): (parts: seq<string>)
    ensures parts != []
  {
    if s == "" then [""] else Grow(s[0], Split(s[1..]))
  }

  function Grow(c: char, parts: seq<string>): (r: seq<string>)
    requires parts != []
    ensures r != []
  {
    if c == '/' then [""] + parts else [[c] + parts[0]] + parts[1..]
  }

  lemma GrowConcat(c: char, a: seq<string>, b: seq<string>)
    requires a != []
    ensures Grow(c, a + b) == Grow(c, a) + b
  {
    assert (a + b)[0] == a[0] && (a + b)[1..] == a[1..] + b;
  }

  predicate SlashFree(s: string) { forall i :: 0 <= i < |s| ==> s[i] != '/' }

  function Slashed(a: string, b: string): string { a + "/" + b }

  lemma {:induction false} SplitSlashed(a: string, b: string)
    ensures Split(Slashed(a, b)) == Split(a) + Split(b)
    decreases |a|
  {
    var s := Slashed(a, b);
    if a == "" {
      assert s[0] == '/' && s[1..] == b;
    } else {
      SplitSlashed(a[1..], b);
      assert s[0] == a[0] && s[1..] == Slashed(a[1..], b);
      GrowConcat(a[0], Split(a[1..]), Split(b));
    }
  }

  /** A string is one piece exactly when it has no slash, and then the piece is the string. */
  lemma {:induction false} SplitOne(s: string)
    ensures |Split(s)| == 1 <==> SlashFree(s)
    ensures SlashFree(s) ==> Split(s) == [s]
    ensures forall i :: 0 <= i < |Split(s)| ==> SlashFree(Split(s)[i])
  {
    if s != "" {
      SplitOne(s[1..]);
      assert s == [s[0]] + s[1..];
    }
  }

  /**
   Splitting a topic of two halves into as many pieces as one half and one more piece finds
   the slash between them.
   */
  lemma SplitHead(a: string, b: string, first: string, others: seq<string>)
    requires others != [] && |Split(b)| >= |others|
    ensures Split(Slashed(a, b)) == [first] + others <==> a == first && SlashFree(first) && Split(b) == others
  {
    SplitSlashed(a, b);
    SplitOne(a);
    if Split(Slashed(a, b)) == [first] + others {
      assert |Split(a)| == 1;
      assert (Split(a) + Split(b))[0] == Split(a)[0] && (Split(a) + Split(b))[1..] == Split(b);
      assert ([first] + others)[1..] == others;
    }
  }

  function Topic(node: string, kind: string, resource: string, stream: string): string
  {
    Slashed(node, Slashed(kind, Slashed(resource, stream)))
  }

  lemma SplitTopic(node: string, kind: string, resource: string, stream: string, n: string, k: string, r: string,
                   s: string)
    ensures Split(Topic(node, kind, resource, stream)) == [n, k, r, s] <==>
            && node == n && kind == k && resource == r && stream == s
            && SlashFree(n) && SlashFree(k) && SlashFree(r) && SlashFree(s)
  {
    SplitOne(stream);
    SplitSlashed(resource, stream);
    SplitSlashed(kind, Slashed(resource, stream));
    SplitHead(resource, stream, r, [s]);
    SplitHead(kind, Slashed(resource, stream), k, [r, s]);
    SplitHead(node, Slashed(kind, Slashed(resource, stream)), n, [k, r, s]);
    assert [r] + [s] == [r, s] && [k] + [r, s] == [k, r, s] && [n] + [k, r, s] == [n, k, r, s];
    if Split(stream) == [s] { assert |Split(stream)| == 1 && [s][0] == s; }
  }

  lemma SplitFive(a: string, b: string, c: string, d: string, e: string, v: string, w: string, x: string, y: string,
                  z: string)
    ensures Split(Slashed(a, Topic(b, c, d, e))) == [v, w, x, y, z] <==>
            && a == v && b == w && c == x && d == y && e == z
            && SlashFree(v) && SlashFree(w) && SlashFree(x) && SlashFree(y) && SlashFree(z)
  {
    SplitTopic(b, c, d, e, w, x, y, z);
    SplitSlashed(d, e);
    SplitSlashed(c, Slashed(d, e));
    SplitSlashed(b, Slashed(c, Slashed(d, e)));
    SplitHead(a, Topic(b, c, d, e), v, [w, x, y, z]);
    assert [v] + [w, x, y, z] == [v, w, x, y, z];
  }

  // ---- Parsing a pattern ----

  /** `regex::Regex::new` and what the compiled expression accepts. */
  type Compiler = string -> Option<string -> bool>

  /** One segment of a pattern, unless it is a regular expression that does not compile. */
  function SegmentOf(seg: string, compile: Compiler): Option<Segment>
  {
    if seg == "*" then Some(SingleWild)
    else if seg == "**" then Some(MultiWild)
    else if |seg| >= 2 && seg[0] == '{' && seg[|seg| - 1] == '}' then
      match compile(seg[1..|seg| - 1]) { case None => None case Some(accepts) => Some(Regex(accepts)) }
    else Some(Literal(seg))
  }

  datatype Pattern = Pattern(segments: seq<Segment>, filter: Option<Query>)

  datatype TopicError = Empty | BadRegex(index: nat) | BadFilter(suffix: string)

  /** The segments are those of the path, piece by piece. */
  ghost predicate FromPath(segments: seq<Segment>, path: string, compile: Compiler)
  {
    && |segments| == |Split(path)|
    && forall i :: 0 <= i < |segments| ==> SegmentOf(Split(path)[i], compile) == Some(segments[i])
  }

  predicate Braced(piece: string) { |piece| >= 2 && piece[0] == '{' && piece[|piece| - 1] == '}' }

  /** A regular expression that does not compile. */
  ghost predicate BadPiece(piece: string, compile: Compiler)
  {
    Braced(piece) && compile(piece[1..|piece| - 1]).None?
  }

  ghost predicate FirstBad(parts: seq<string>, index: nat, compile: Compiler)
  {
    && index < |parts| && BadPiece(parts[index], compile)
    && forall i :: 0 <= i < index ==> !BadPiece(parts[i], compile)
  }

  // ---- From pattern text to topic text ----

  /**
   What a piece of the pattern's text takes: `*` one part, `**` one or more, an
   expression in braces one part that it accepts, and any other piece itself.
   */
  ghost predicate PieceTakes(piece: string, run: seq<string>, compile: Compiler)
  {
    if piece == "*" then |run| == 1
    else if piece == "**" then |run| >= 1
    else if Braced(piece) then
      exists accepts, part :: compile(piece[1..|piece| - 1]) == Some(accepts) && run == [part] && accepts(part)
    else run == [piece]
  }

  ghost predicate TextSplits(path: string, topic: string, runs: seq<seq<string>>, compile: Compiler)
  {
    && |runs| == |Split(path)| && Joined(runs) == Split(topic)
    && forall i :: 0 <= i < |runs| ==> PieceTakes(Split(path)[i], runs[i], compile)
  }

  lemma SegmentTakes(piece: string, run: seq<string>, compile: Compiler)
    requires SegmentOf(piece, compile).Some?
    ensures Takes(SegmentOf(piece, compile).value, run) <==> PieceTakes(piece, run, compile)
  {
    if |run| == 1 { assert run == [run[0]]; }
  }

  /**
   A parsed path matches a topic exactly when the parts of the topic split into
   runs, one for each piece of the path's text.
   */
  lemma TextMatchesText(segments: seq<Segment>, path: string, topic: string, compile: Compiler)
    requires FromPath(segments, path, compile)
    ensures Matches(segments, Split(topic)) <==> exists runs :: TextSplits(path, topic, runs, compile)
  {
    MatchingIsDeclarative(segments, Split(topic));
    forall runs | |runs| == |segments|
      ensures SplitsInto(segments, Split(topic), runs) <==> TextSplits(path, topic, runs, compile)
    {
      forall i | 0 <= i < |runs| ensures Takes(segments[i], runs[i]) <==> PieceTakes(Split(path)[i], runs[i], compile) {
        SegmentTakes(Split(path)[i], runs[i], compile);
      }
    }
  }

  /** The path part of a pattern: every segment in order, or the first that does not compile. */
  method ParsePath(path: string, compile: Compiler) returns (r: Result<seq<Segment>, TopicError>)
    ensures r.Ok? ==> FromPath(r.value, path, compile)
    ensures r.Ok? ==> forall topic :: Matches(r.value, Split(topic)) <==>
              exists runs :: TextSplits(path, topic, runs, compile)
    ensures r.Err? ==> r.error.BadRegex? && FirstBad(Split(path), r.error.index, compile)
  {
    var parts := Split(path);
    var segments: seq<Segment> := [];
    for i := 0 to |parts|
      invariant |segments| == i
      invariant forall j :: 0 <= j < i ==> SegmentOf(parts[j], compile) == Some(segments[j])
    {
      var seg := SegmentOf(parts[i], compile);
      if seg.None? {
        return Err(BadRegex(i));
      }
      segments := segments + [seg.value];
    }
    forall topic
      ensures Matches(segments, Split(topic)) <==> exists runs :: TextSplits(path, topic, runs, compile)
    {
      TextMatchesText(segments, path, topic, compile);
    }
    r := Ok(segments);
  }

  /** The text before the first question mark. */
  function BeforeQuestion(input: string): (n: nat)
    ensures n <= |input| && (forall i :: 0 <= i < n ==> input[i] != '?') && (n < |input| ==> input[n] == '?')
  {
    if input == "" || input[0] == '?' then 0 else 1 + BeforeQuestion(input[1..])
  }

  /** What the `ql` parameter of a suffix decodes and parses to, if it is there and well formed. */
  type FilterReader = string -> Option<Query>

  /** A whole pattern: the filter after the first question mark is read before the path. */
  method ParsePattern(input: string, compile: Compiler, readFilter: FilterReader) returns (r: Result<Pattern,
                      TopicError>)
    ensures input == "" <==> r == Err(Empty)
    ensures r.Ok? ==>
              var n := BeforeQuestion(input);
              && FromPath(r.value.segments, input[..n], compile)
              && (forall topic :: Matches(r.value.segments, Split(topic)) <==>
                    exists runs :: TextSplits(input[..n], topic, runs, compile))
              && r.value.filter == (if n == |input| then None else readFilter(input[n + 1..]))
              && (n < |input| ==> r.value.filter.Some?)
    ensures r.Err? && r.error.BadFilter? ==>
              var n := BeforeQuestion(input);
              n < |input| && r.error.suffix == input[n + 1..] && readFilter(input[n + 1..]).None?
    ensures r.Err? && r.error.BadRegex? ==>
              var n := BeforeQuestion(input);
              && (n < |input| ==> readFilter(input[n + 1..]).Some?)
              && FirstBad(Split(input[..n]), r.error.index, compile)
  {
    if input == "" {
      return Err(Empty);
    }
    var n := BeforeQuestion(input);
    var filter := None;
    if n < |input| {
      filter := readFilter(input[n + 1..]);
      if filter.None? {
        return Err(BadFilter(input[n + 1..]));
      }
    }
    var segments := ParsePath(input[..n], compile);
    r := if segments.Err? then Err(segments.error) else Ok(Pattern(segments.value, filter));
  }

  predicate MatchesEvent(p: Pattern, topic: string, payload: Json)
  {
    Matches(p.segments, Split(topic)) && (p.filter.Some? ==> E.Holds(p.filter.value.condition, payload))
  }

  /** Without a filter a pattern wants the topics its text matches; a filter narrows them by the payload. */
  lemma WantedMeans(p: Pattern, path: string, topic: string, payload: Json, compile: Compiler)
    requires FromPath(p.segments, path, compile)
    ensures MatchesEvent(p.(filter := None), topic, payload) <==> exists runs :: TextSplits(path, topic, runs, compile)
    ensures forall q :: MatchesEvent(p.(filter := Some(q)), topic, payload) <==>
              MatchesEvent(p.(filter := None), topic, payload) && E.Holds(q.condition, payload)
  {
    TextMatchesText(p.segments, path, topic, compile);
  }

  /** `matches_event`: the filter is evaluated only when the topic matches, and counts as false if it errs. */
  method WantsEvent(p: Pattern, topic: string, payload: Json) returns (wanted: bool)
    ensures wanted <==> MatchesEvent(p, topic, payload)
  {
    wanted := MatchesAt(p.segments, Split(topic));
    if wanted && p.filter.Some? {
      var held := E.Evaluate(p.filter.value.condition, payload);
      wanted := held.Ok? && held.value;
    }
  }

  // ---- Concrete topics name one stream ----

  function StreamIdFor(node: string, resource: string, stream: string): StreamId
  {
    "bw://" + node + "/resources/" + resource + "/streams/" + stream
  }

  /** The stream whose replay ring a pattern names, when it is four non-empty literals. */
  function StreamOf(segments: seq<Segment>): Option<StreamId>
  {
    if |segments| != 4 || exists i :: 0 <= i < 4 && (!segments[i].Literal? || segments[i].text == "") then None
    else Some(StreamIdFor(segments[0].text, segments[2].text, segments[3].text))
  }

  /** A path can be replayed exactly when its text is four pieces, none empty, a wildcard or an expression. */
  lemma ReplayableIff(segments: seq<Segment>, path: string, compile: Compiler)
    requires FromPath(segments, path, compile)
    ensures var parts := Split(path);
            && (StreamOf(segments).Some? <==> |parts| == 4 && forall i :: 0 <= i < 4 ==> Concrete(parts[i]))
            && (StreamOf(segments).Some? ==> StreamOf(segments) == Some(StreamIdFor(parts[0], parts[2], parts[3])))
  {
    var parts := Split(path);
    forall i | 0 <= i < |parts|
      ensures segments[i].Literal? && segments[i].text != "" <==> Concrete(parts[i])
      ensures Concrete(parts[i]) ==> segments[i].text == parts[i]
    {
      assert SegmentOf(parts[i], compile) == Some(segments[i]);
    }
  }

  predicate Concrete(piece: string) { piece != "" && piece != "*" && piece != "**" && !Braced(piece) }

  lemma StreamIdIsSlashed(node: string, resource: string, stream: string)
    ensures StreamIdFor(node, resource, stream) ==
            "bw://" + Slashed(node, Topic("resources", resource, "streams", stream))
  {
    assert "/resources/" == "/" + "resources" + "/" && "/streams/" == "/" + "streams" + "/";
  }

  lemma StreamIdsAreInjective(n: string, r: string, s: string, node: string, resource: string, stream: string)
    requires SlashFree(n) && SlashFree(r) && SlashFree(s)
    requires StreamIdFor(node, resource, stream) == StreamIdFor(n, r, s)
    ensures node == n && resource == r && stream == s
  {
    var a := Slashed(n, Topic("resources", r, "streams", s));
    var b := Slashed(node, Topic("resources", resource, "streams", stream));
    StreamIdIsSlashed(n, r, s);
    StreamIdIsSlashed(node, resource, stream);
    assert ("bw://" + a)[5..] == a && ("bw://" + b)[5..] == b;
    SplitFive(n, "resources", r, "streams", s, n, "resources", r, "streams", s);
    SplitFive(node, "resources", resource, "streams", stream, n, "resources", r, "streams", s);
  }

  lemma LiteralsMatch(n: string, k: string, r: string, s: string, parts: seq<string>)
    ensures Matches([Literal(n), Literal(k), Literal(r), Literal(s)], parts) <==> parts == [n, k, r, s]
  {
    LiteralFirst(n, [Literal(k), Literal(r), Literal(s)], parts);
    if parts != [] {
      LiteralFirst(k, [Literal(r), Literal(s)], parts[1..]);
      if |parts| > 1 {
        LiteralFirst(r, [Literal(s)], parts[1..][1..]);
        if |parts| > 2 { LiteralFirst(s, [], parts[1..][1..][1..]); }
      }
    }
  }

  lemma LiteralFirst(text: string, more: seq<Segment>, parts: seq<string>)
    ensures Matches([Literal(text)] + more, parts) <==> parts != [] && parts[0] == text && Matches(more, parts[1..])
  {
    assert ([Literal(text)] + more)[1..] == more;
  }

  lemma LiteralsAreSlashFree(segments: seq<Segment>, path: string, compile: Compiler)
    requires FromPath(segments, path, compile)
    ensures forall i :: 0 <= i < |segments| && segments[i].Literal? ==> SlashFree(segments[i].text)
  {
    SplitOne(path);
  }

  /**
   A replayable topic wants exactly the envelopes of the stream whose ring is
   snapshotted, among the envelopes of its kind.
   */
  lemma ConcreteTopicIsOneStream(segments: seq<Segment>, path: string, compile: Compiler, env: Envelope)
    requires FromPath(segments, path, compile) && StreamOf(segments).Some?
    requires env.streamId == StreamIdFor(env.nodeId, env.resourceId, env.stream)
    ensures Matches(segments, Split(Topic(env.nodeId, env.resourceKind, env.resourceId, env.stream))) <==>
            env.streamId == StreamOf(segments).value && env.resourceKind == segments[1].text
  {
    LiteralsAreSlashFree(segments, path, compile);
    var n, k, r, s := segments[0].text, segments[1].text, segments[2].text, segments[3].text;
    assert segments == [Literal(n), Literal(k), Literal(r), Literal(s)];
    LiteralsMatch(n, k, r, s, Split(Topic(env.nodeId, env.resourceKind, env.resourceId, env.stream)));
    SplitTopic(env.nodeId, env.resourceKind, env.resourceId, env.stream, n, k, r, s);
    if env.streamId == StreamOf(segments).value {
      StreamIdsAreInjective(n, r, s, env.nodeId, env.resourceId, env.stream);
    }
  }
}
