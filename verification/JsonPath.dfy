// Paths into JSON values, as http_probe invariants use them. Decoding is not modelled: a text
// is given by the value it decodes to, or by nothing when it is not JSON.
module JsonPath {
  import opened Prelude
  import opened Decimal
  import opened Text

  datatype Json =
    | Null | Bool(b: bool) | Number(n: real) | String(s: string)
    | List(items: seq<Json>) | Object(fields: map<string, Json>)

  datatype Problem = BadJSON | BadPath | EmptySegment | BadSegment

  datatype Lookup = Found(value: Json) | Missing | Invalid(problem: Problem)

  // ----- segments ------------------------------------------------------------

  datatype Segment = Segment(name: string, indexes: seq<int>)

  // A run of [n] and nothing else; n is what Atoi accepts, a sign included.
  function ParseIndexes(rest: string): Option<seq<int>>
    decreases |rest|
  {
    if rest == "" then Some([])
    else if rest[0] != '[' then None
    else
      var end := IndexOf(rest, ']');
      if end == |rest| then None
      else
        var n, more := ParseInt(rest[1..end]), ParseIndexes(rest[end + 1..]);
        if n.None? || more.None? then None else Some([n.value] + more.value)
  }

  function SegmentOf(text: string): Option<Segment> {
    var i := IndexOf(text, '[');
    var indexes := ParseIndexes(text[i..]);
    if indexes.None? then None else Some(Segment(text[..i], indexes.value))
  }

  function After(read: seq<int>, more: Option<seq<int>>): Option<seq<int>> {
    if more.None? then None else Some(read + more.value)
  }

  lemma AfterOne(read: seq<int>, n: int, more: Option<seq<int>>)
    ensures After(read + [n], more) == After(read, After([n], more))
    ensures After([], more) == more
  {
    if more.Some? {
      assert read + [n] + more.value == read + ([n] + more.value);
      assert [] + more.value == more.value;
    }
  }

  method ParseSegment(segment: string) returns (r: Option<Segment>)
    ensures r == SegmentOf(segment)
  {
    var name, indexes := segment, [];
    var idx := IndexOf(segment, '[');
    if idx < |segment| {
      name := segment[..idx];
      var rest := segment[idx..];
      AfterOne([], 0, ParseIndexes(rest));
      while rest != ""
        invariant ParseIndexes(segment[idx..]) == After(indexes, ParseIndexes(rest))
        decreases |rest|
      {
        if rest[0] != '[' {
          return None;
        }
        var end := IndexOf(rest, ']');
        if end == |rest| {
          return None;
        }
        var n := ParseInt(rest[1..end]);
        if n.None? {
          return None;
        }
        AfterOne(indexes, n.value, ParseIndexes(rest[end + 1..]));
        indexes := indexes + [n.value];
        rest := rest[end + 1..];
      }
      assert indexes + [] == indexes;
    } else {
      assert segment[..|segment|] == segment && segment[|segment|..] == "";
    }
    r := Some(Segment(name, indexes));
  }

  function PrintIndexes(indexes: seq<int>): string {
    if |indexes| == 0 then "" else "[" + FormatInt(indexes[0]) + "]" + PrintIndexes(indexes[1..])
  }

  function Print(s: Segment): string {
    s.name + PrintIndexes(s.indexes)
  }

  predicate Fits(indexes: seq<int>) {
    forall n | n in indexes :: MIN_INT64 <= n <= MAX_INT64
  }

  lemma NoBracketInInt(n: int)
    ensures ']' !in FormatInt(n)
  {
    assert AllDigits(FormatNat(if n < 0 then -n else n));
  }

  lemma BracketParts(digits: string, rest: string)
    requires ']' !in digits
    ensures var text, n := "[" + digits + "]" + rest, |digits| + 1;
            IndexOf(text, ']') == n && text[1..n] == digits && text[n + 1..] == rest
  {
    var first := "[" + digits;
    var text := first + "]" + rest;
    assert text[..|first|] == first;
    IndexOfIs(text, ']', |first|);
  }

  lemma {:induction false} IndexesRoundTrip(indexes: seq<int>)
    requires Fits(indexes)
    ensures ParseIndexes(PrintIndexes(indexes)) == Some(indexes)
  {
    if |indexes| > 0 {
      hide FormatInt, ParseInt, IndexOf;
      NoBracketInInt(indexes[0]);
      BracketParts(FormatInt(indexes[0]), PrintIndexes(indexes[1..]));
      assert indexes[0] in indexes;
      ParseOfFormat(indexes[0]);
      assert forall n | n in indexes[1..] :: n in indexes;
      IndexesRoundTrip(indexes[1..]);
      assert indexes == [indexes[0]] + indexes[1..];
    }
  }

  // Printing a segment and parsing it gives the segment back exactly when its name has no
  // opening bracket.
  lemma SegmentRoundTripIff(s: Segment)
    requires Fits(s.indexes)
    ensures SegmentOf(Print(s)) == Some(s) <==> '[' !in s.name
  {
    var text := Print(s);
    if '[' !in s.name {
      assert text[..|s.name|] == s.name && text[|s.name|..] == PrintIndexes(s.indexes);
      if |s.indexes| > 0 {
        IndexOfIs(text, '[', |s.name|);
      } else {
        IndexOfAbsent(text, '[');
      }
      IndexesRoundTrip(s.indexes);
    }
  }

  // ----- looking up ----------------------------------------------------------

  function Index(v: Json, indexes: seq<int>): (r: Lookup)
    ensures !r.Invalid?
    decreases |indexes|
  {
    if |indexes| == 0 then Found(v)
    else if !v.List? || !(0 <= indexes[0] < |v.items|) then Missing
    else Index(v.items[indexes[0]], indexes[1..])
  }

  function Follow(v: Json, s: Segment): Lookup {
    if s.name == "" then Index(v, s.indexes)
    else if !v.Object? || s.name !in v.fields then Missing
    else Index(v.fields[s.name], s.indexes)
  }

  function Step(v: Json, segment: string): Lookup {
    if segment == "" then Invalid(EmptySegment)
    else if segment == "length" then (if v.List? then Found(Number(|v.items| as real)) else Missing)
    else
      var s := SegmentOf(segment);
      if s.None? then Invalid(BadSegment) else Follow(v, s.value)
  }

  function Walk(v: Json, segments: seq<string>): Lookup
    decreases |segments|
  {
    if |segments| == 0 then Found(v)
    else
      var next := Step(v, segments[0]);
      if next.Found? then Walk(next.value, segments[1..]) else next
  }

  function LookupPath(json: Option<Json>, path: string): Lookup {
    if path == "" || path == "$" then (if json.None? then Invalid(BadJSON) else Found(json.value))
    else if !("$." <= path) then Invalid(BadPath)
    else if json.None? then Invalid(BadJSON)
    else Walk(json.value, Split(path[2..], '.'))
  }

  method FollowIndexes(v: Json, indexes: seq<int>) returns (r: Lookup)
    ensures r == Index(v, indexes)
  {
    var current := v;
    for i := 0 to |indexes|
      invariant Index(v, indexes) == Index(current, indexes[i..])
    {
      if !current.List? || indexes[i] < 0 || indexes[i] >= |current.items| {
        return Missing;
      }
      current := current.items[indexes[i]];
    }
    return Found(current);
  }

  method LookupJSONPath(json: Option<Json>, path: string) returns (r: Lookup)
    ensures r == LookupPath(json, path)
  {
    if path == "" || path == "$" {
      return if json.None? then Invalid(BadJSON) else Found(json.value);
    }
    if !("$." <= path) {
      return Invalid(BadPath);
    }
    if json.None? {
      return Invalid(BadJSON);
    }
    hide Split, SegmentOf, Index;
    var current, segments := json.value, Split(path[2..], '.');
    assert segments[0..] == segments;
    for i := 0 to |segments|
      invariant LookupPath(json, path) == Walk(current, segments[i..])
    {
      var segment := segments[i];
      if segment == "" {
        return Invalid(EmptySegment);
      }
      if segment == "length" {
        if !current.List? {
          return Missing;
        }
        current := Number(|current.items| as real);
        continue;
      }
      var parsed := ParseSegment(segment);
      if parsed.None? {
        return Invalid(BadSegment);
      }
      var next := current;
      if parsed.value.name != "" {
        if !current.Object? || parsed.value.name !in current.fields {
          return Missing;
        }
        next := current.fields[parsed.value.name];
      }
      var reached := FollowIndexes(next, parsed.value.indexes);
      if !reached.Found? {
        return Missing;
      }
      current := reached.value;
    }
    return Found(current);
  }

  // ----- what a path means ---------------------------------------------------

  // One elementary access.
  datatype Access = Field(name: string) | At(index: int) | Length

  function Apply(v: Json, a: Access): Option<Json> {
    match a
    case Field(name) => if v.Object? && name in v.fields then Some(v.fields[name]) else None
    case At(index) => if v.List? && 0 <= index < |v.items| then Some(v.items[index]) else None
    case Length => if v.List? then Some(Number(|v.items| as real)) else None
  }

  function Select(v: Json, accesses: seq<Access>): Option<Json>
    decreases |accesses|
  {
    if |accesses| == 0 then Some(v)
    else
      var next := Apply(v, accesses[0]);
      if next.None? then None else Select(next.value, accesses[1..])
  }

  function Ats(indexes: seq<int>): seq<Access> {
    seq(|indexes|, i requires 0 <= i < |indexes| => At(indexes[i]))
  }

  predicate Readable(segment: string) {
    segment != "" && (segment == "length" || SegmentOf(segment).Some?)
  }

  function AccessesOf(segment: string): seq<Access>
    requires Readable(segment)
  {
    if segment == "length" then [Length]
    else
      var s := SegmentOf(segment).value;
      (if s.name == "" then [] else [Field(s.name)]) + Ats(s.indexes)
  }

  function AllAccesses(segments: seq<string>): seq<Access>
    requires forall i | 0 <= i < |segments| :: Readable(segments[i])
  {
    if |segments| == 0 then [] else AccessesOf(segments[0]) + AllAccesses(segments[1..])
  }

  function Outcome(found: Option<Json>): Lookup {
    if found.Some? then Found(found.value) else Missing
  }

  lemma {:induction false} SelectConcat(v: Json, a: seq<Access>, b: seq<Access>)
    ensures Select(v, a + b) == var mid := Select(v, a); if mid.None? then None else Select(mid.value, b)
    decreases |a|
  {
    if |a| == 0 {
      assert a + b == b;
    } else {
      assert (a + b)[1..] == a[1..] + b;
      if Apply(v, a[0]).Some? {
        SelectConcat(Apply(v, a[0]).value, a[1..], b);
      }
    }
  }

  lemma {:induction false} IndexSelects(v: Json, indexes: seq<int>)
    ensures Index(v, indexes) == Outcome(Select(v, Ats(indexes)))
    decreases |indexes|
  {
    if |indexes| > 0 {
      assert Ats(indexes)[1..] == Ats(indexes[1..]);
      if v.List? && 0 <= indexes[0] < |v.items| {
        IndexSelects(v.items[indexes[0]], indexes[1..]);
      }
    }
  }

  lemma StepSelects(v: Json, segment: string)
    requires Readable(segment)
    ensures Step(v, segment) == Outcome(Select(v, AccessesOf(segment)))
  {
    if segment == "length" {
      assert [Length][1..] == [];
    } else {
      var s := SegmentOf(segment).value;
      IndexSelects(v, s.indexes);
      if s.name == "" {
        assert [] + Ats(s.indexes) == Ats(s.indexes);
      } else {
        SelectConcat(v, [Field(s.name)], Ats(s.indexes));
        assert [Field(s.name)][1..] == [];
        if v.Object? && s.name in v.fields {
          IndexSelects(v.fields[s.name], s.indexes);
        }
      }
    }
  }

  // How many segments come before the first that cannot be read.
  function ReadablePrefix(segments: seq<string>): (n: nat)
    ensures n <= |segments| && (forall i | 0 <= i < n :: Readable(segments[i]))
    ensures n < |segments| ==> !Readable(segments[n])
    decreases |segments|
  {
    if |segments| == 0 || !Readable(segments[0]) then 0
    else ReadablePrefix(segments[1..]) + 1
  }

  // A walk makes the accesses of its segments from left to right. It is missing what one of
  // them does not find; only a walk that gets as far as an unreadable segment is invalid.
  lemma {:induction false} WalkSelects(v: Json, segments: seq<string>)
    ensures var n := ReadablePrefix(segments);
            var found := Select(v, AllAccesses(segments[..n]));
            Walk(v, segments) ==
            if found.None? then Missing
            else if n == |segments| then Found(found.value)
            else Invalid(if segments[n] == "" then EmptySegment else BadSegment)
    decreases |segments|
  {
    hide SegmentOf, AccessesOf, Follow;
    if |segments| > 0 && Readable(segments[0]) {
      var n := ReadablePrefix(segments);
      var rest := segments[1..];
      assert segments[..n][1..] == rest[..n - 1];
      StepSelects(v, segments[0]);
      SelectConcat(v, AccessesOf(segments[0]), AllAccesses(rest[..n - 1]));
      if Step(v, segments[0]).Found? {
        WalkSelects(Step(v, segments[0]).value, rest);
      }
    }
  }

  // What each path finds: the whole value for the two short paths, no path at all without the
  // prefix, and otherwise what the accesses of its segments find, as far as they can be read.
  lemma LookupMeaning(json: Option<Json>, path: string)
    ensures path == "" || path == "$" ==> LookupPath(json, path) == if json.Some? then Found(json.value) else Invalid(BadJSON)
    ensures |path| > 0 && path[0] == '$' && json.Some? && (|path| > 1 ==> path[1] == '.') ==> LookupPath(json, path) != Invalid(BadPath)
    ensures |path| > 0 && (path[0] != '$' || (|path| > 1 && path[1] != '.')) ==> LookupPath(json, path) == Invalid(BadPath)
    ensures |path| > 1 && path[0] == '$' && path[1] == '.' ==>
              var segments := Split(path[2..], '.');
              var n := ReadablePrefix(segments);
              LookupPath(json, path) ==
              if json.None? then Invalid(BadJSON)
              else
                var found := Select(json.value, AllAccesses(segments[..n]));
                if found.None? then Missing
                else if n == |segments| then Found(found.value)
                else Invalid(if segments[n] == "" then EmptySegment else BadSegment)
  {
    hide Split, Walk, ReadablePrefix, AllAccesses, Select;
    assert "$." <= path <==> |path| > 1 && path[0] == '$' && path[1] == '.';
    if |path| > 1 && json.Some? {
      WalkSelects(json.value, Split(path[2..], '.'));
    }
  }

  lemma {:induction false} WalkConcat(v: Json, a: seq<string>, b: seq<string>)
    ensures Walk(v, a + b) == var mid := Walk(v, a); if mid.Found? then Walk(mid.value, b) else mid
    decreases |a|
  {
    hide Step;
    if |a| == 0 {
      assert a + b == b;
    } else {
      assert (a + b)[1..] == a[1..] + b;
      if Step(v, a[0]).Found? {
        WalkConcat(Step(v, a[0]).value, a[1..], b);
      }
    }
  }

  // Looking up a joined path is looking up its tail in what its head finds.
  lemma LookupComposes(v: Json, head: string, tail: string)
    ensures LookupPath(Some(v), "$." + head + "." + tail) ==
            var mid := LookupPath(Some(v), "$." + head);
            if mid.Found? then LookupPath(Some(mid.value), "$." + tail) else mid
  {
    hide Split, Walk;
    var whole := "$." + head + "." + tail;
    assert whole[2..] == head + ['.'] + tail;
    assert ("$." + head)[2..] == head && ("$." + tail)[2..] == tail;
    SplitAt(head, tail, '.');
    WalkConcat(v, Split(head, '.'), Split(tail, '.'));
  }

  // ----- printing whole paths ------------------------------------------------

  predicate Printable(s: Segment) {
    '.' !in s.name && '[' !in s.name && Fits(s.indexes) && Print(s) != "" && Print(s) != "length"
  }

  function PrintAll(segments: seq<Segment>): (r: seq<string>)
    ensures |r| == |segments| && forall i | 0 <= i < |r| :: r[i] == Print(segments[i])
  {
    seq(|segments|, i requires 0 <= i < |segments| => Print(segments[i]))
  }

  function PrintPath(segments: seq<Segment>): string
    requires |segments| > 0
  {
    "$." + Join(PrintAll(segments), '.')
  }

  function FollowAll(v: Json, segments: seq<Segment>): Lookup
    decreases |segments|
  {
    if |segments| == 0 then Found(v)
    else
      var next := Follow(v, segments[0]);
      if next.Found? then FollowAll(next.value, segments[1..]) else next
  }

  lemma {:induction false} NoDotInIndexes(indexes: seq<int>)
    ensures '.' !in PrintIndexes(indexes)
  {
    if |indexes| > 0 {
      NoDotInIndexes(indexes[1..]);
      assert AllDigits(FormatNat(if indexes[0] < 0 then -indexes[0] else indexes[0]));
    }
  }

  lemma {:induction false} WalkPrinted(v: Json, segments: seq<Segment>)
    requires forall s | s in segments :: Printable(s)
    ensures Walk(v, PrintAll(segments)) == FollowAll(v, segments)
    decreases |segments|
  {
    if |segments| > 0 {
      hide SegmentOf, Follow, Print;
      assert segments[0] in segments;
      SegmentRoundTripIff(segments[0]);
      assert PrintAll(segments)[1..] == PrintAll(segments[1..]);
      assert forall s | s in segments[1..] :: s in segments;
      if Follow(v, segments[0]).Found? {
        WalkPrinted(Follow(v, segments[0]).value, segments[1..]);
      }
    }
  }

  // A printed path splits into the segments it was printed from, each parses back, and looking
  // the path up follows exactly those segments.
  lemma PathRoundTrip(v: Json, segments: seq<Segment>)
    requires |segments| > 0 && forall s | s in segments :: Printable(s)
    ensures Split(PrintPath(segments)[2..], '.') == PrintAll(segments)
    ensures forall s | s in segments :: SegmentOf(Print(s)) == Some(s)
    ensures LookupPath(Some(v), PrintPath(segments)) == FollowAll(v, segments)
  {
    hide Split, SegmentOf, FollowAll, Walk;
    var parts := PrintAll(segments);
    forall p | p in parts
      ensures '.' !in p
    {
      var i :| 0 <= i < |parts| && parts[i] == p;
      assert segments[i] in segments;
      NoDotInIndexes(segments[i].indexes);
    }
    forall s | s in segments
      ensures SegmentOf(Print(s)) == Some(s)
    {
      SegmentRoundTripIff(s);
    }
    assert PrintPath(segments)[2..] == Join(parts, '.');
    SplitOfJoin(parts, '.');
    WalkPrinted(v, segments);
  }
}
