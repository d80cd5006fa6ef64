// os.ExpandEnv of Go's standard library, which every scenario text passes through: $name,
// ${name}, the one-letter special names, badly formed references, which are dropped, and a
// dollar that starts no reference, which stays.
module Environment {

  type Environment = map<string, string>

  // A variable that is not set reads as empty.
  function Getenv(env: Environment, name: string): string {
    if name in env then env[name] else ""
  }

  predicate IsSpecial(c: char) {
    c in "*#$@!?-" || '0' <= c <= '9'
  }

  predicate IsAlphaNum(c: char) {
    c == '_' || '0' <= c <= '9' || 'a' <= c <= 'z' || 'A' <= c <= 'Z'
  }

  function RunLength(s: string): (n: nat)
    ensures n <= |s|
    ensures forall i | 0 <= i < n :: IsAlphaNum(s[i])
    ensures n < |s| ==> !IsAlphaNum(s[n])
  {
    if |s| == 0 || !IsAlphaNum(s[0]) then 0 else 1 + RunLength(s[1..])
  }

  // The place of the first closing brace, or the length.
  function Brace(s: string): (n: nat)
    ensures n <= |s|
    ensures '}' !in s[..n] && (n < |s| ==> s[n] == '}')
  {
    if |s| == 0 || s[0] == '}' then 0 else 1 + Brace(s[1..])
  }

  // The name that the text after a dollar starts with, and how much of the text it takes.
  function ShellName(s: string): (r: (string, nat))
    requires |s| > 0
    ensures r.1 <= |s|
  {
    if s[0] == '{' then
      var n := Brace(s[1..]);
      if n == |s| - 1 then ("", 1) else (s[1..n + 1], n + 2)
    else if IsSpecial(s[0]) then (s[..1], 1)
    else (s[..RunLength(s)], RunLength(s))
  }

  // The first piece of a text: a character, or a dollar with its reference.
  function PieceLength(s: string): (n: nat)
    requires |s| > 0
    ensures 0 < n <= |s|
  {
    if s[0] == '$' && |s| > 1 then 1 + ShellName(s[1..]).1 else 1
  }

  function Piece(env: Environment, s: string): string
    requires |s| > 0
  {
    if s[0] == '$' && |s| > 1 then
      var (name, width) := ShellName(s[1..]);
      if name != "" then Getenv(env, name) else if width > 0 then "" else "$"
    else s[..1]
  }

  function Expand(env: Environment, s: string): string {
    if |s| == 0 then "" else Piece(env, s) + Expand(env, s[PieceLength(s)..])
  }

  // ----- texts that expand piece by piece ------------------------------------

  // The first piece stays what it is whatever text follows.
  predicate Complete(s: string) {
    |s| > 0 &&
    (s[0] == '$' ==>
       && |s| > 1
       && (if s[1] == '{' then '}' in s[2..] else IsSpecial(s[1]) || RunLength(s[1..]) < |s| - 1))
  }

  // Nothing that follows the text can become part of a reference in it.
  predicate Closed(s: string) {
    |s| == 0 || (Complete(s) && Closed(s[PieceLength(s)..]))
  }

  predicate Plain(s: string) {
    '$' !in s
  }

  lemma {:induction false} RunLengthStays(s: string, t: string)
    requires RunLength(s) < |s|
    ensures RunLength(s + t) == RunLength(s)
  {
    if IsAlphaNum(s[0]) {
      assert (s + t)[1..] == s[1..] + t;
      RunLengthStays(s[1..], t);
    }
  }

  lemma {:induction false} BraceStays(s: string, t: string)
    requires '}' in s
    ensures Brace(s + t) == Brace(s) < |s|
  {
    if s[0] != '}' {
      assert (s + t)[1..] == s[1..] + t;
      BraceStays(s[1..], t);
    }
  }

  lemma BracedNameStays(s: string, t: string)
    requires |s| > 0 && s[0] == '{' && '}' in s[1..]
    ensures ShellName(s + t) == ShellName(s)
  {
    hide Brace;
    var u, n := s + t, Brace(s[1..]);
    assert u[1..] == s[1..] + t;
    BraceStays(s[1..], t);
    assert u[1..n + 1] == s[1..n + 1];
  }

  lemma BareNameStays(s: string, t: string)
    requires |s| > 0 && s[0] != '{' && (IsSpecial(s[0]) || RunLength(s) < |s|)
    ensures ShellName(s + t) == ShellName(s)
  {
    hide Brace, RunLength;
    var u := s + t;
    if IsSpecial(s[0]) {
      assert u[..1] == s[..1];
    } else {
      RunLengthStays(s, t);
      assert u[..RunLength(s)] == s[..RunLength(s)];
    }
  }

  lemma CompleteStays(env: Environment, s: string, t: string)
    requires Complete(s)
    ensures PieceLength(s + t) == PieceLength(s) && Piece(env, s + t) == Piece(env, s)
  {
    if s[0] == '$' {
      assert (s + t)[1..] == s[1..] + t;
      assert s[1..][1..] == s[2..];
      hide ShellName;
      if s[1] == '{' {
        BracedNameStays(s[1..], t);
      } else {
        BareNameStays(s[1..], t);
      }
    } else {
      assert (s + t)[..1] == s[..1];
    }
  }

  lemma PieceFirst(env: Environment, s: string, t: string)
    requires Complete(s)
    ensures Expand(env, s + t) == Piece(env, s) + Expand(env, s[PieceLength(s)..] + t)
  {
    CompleteStays(env, s, t);
    hide Complete, Piece, PieceLength;
    assert (s + t)[PieceLength(s)..] == s[PieceLength(s)..] + t;
  }

  // What follows a closed text is expanded by itself.
  lemma {:induction false} ClosedExpands(env: Environment, s: string, t: string)
    requires Closed(s)
    ensures Expand(env, s + t) == Expand(env, s) + Expand(env, t)
    decreases |s|
  {
    if |s| == 0 {
      assert s + t == t;
    } else {
      PieceFirst(env, s, t);
      ClosedExpands(env, s[PieceLength(s)..], t);
    }
  }

  // Text without a dollar is left as it is.
  lemma {:induction false} PlainExpands(env: Environment, s: string)
    requires Plain(s)
    ensures Closed(s) && Expand(env, s) == s
    decreases |s|
  {
    if |s| > 0 {
      assert PieceLength(s) == 1;
      PlainExpands(env, s[1..]);
    }
  }

  // ----- references ----------------------------------------------------------

  const DIGITS := "0123456789"
  const NAME_CHARS := "ABCDEFGHIJKLMNOPQRSTUVWXYZ" + "abcdefghijklmnopqrstuvwxyz" + DIGITS + "_"
  const SPECIALS := "*#$@!?-" + DIGITS

  lemma InRun(c: char, first: char, chars: string)
    requires forall i | 0 <= i < |chars| :: chars[i] as int == first as int + i
    ensures c in chars <==> first as int <= c as int < first as int + |chars|
  {
    if first as int <= c as int < first as int + |chars| {
      assert chars[c as int - first as int] == c;
    }
  }

  lemma Alphabets(c: char)
    ensures IsAlphaNum(c) <==> c in NAME_CHARS
    ensures IsSpecial(c) <==> c in SPECIALS
  {
    var upper, lower := "ABCDEFGHIJKLMNOPQRSTUVWXYZ", "abcdefghijklmnopqrstuvwxyz";
    InRun(c, 'A', upper);
    InRun(c, 'a', lower);
    InRun(c, '0', DIGITS);
    assert c in NAME_CHARS <==> c in upper || c in lower || c in DIGITS || c == '_';
  }

  lemma {:induction false} RunLengthOf(name: string, rest: string)
    requires forall c | c in name :: IsAlphaNum(c)
    requires rest == "" || !IsAlphaNum(rest[0])
    ensures RunLength(name + rest) == |name|
  {
    var s := name + rest;
    if |name| > 0 {
      assert s[1..] == name[1..] + rest && s[0] == name[0] && name[0] in name;
      assert forall c | c in name[1..] :: c in name;
      RunLengthOf(name[1..], rest);
    } else {
      assert s == rest;
    }
  }

  lemma DollarStarts(env: Environment, after: string)
    requires |after| > 0
    ensures var (name, width) := ShellName(after);
            Expand(env, "$" + after) ==
            (if name != "" then Getenv(env, name) else if width > 0 then "" else "$") + Expand(env, after[width..])
  {
    hide ShellName;
    var s := "$" + after;
    assert s[1..] == after && s[PieceLength(s)..] == after[ShellName(after).1..];
  }

  // $name reads the variable of that name, which is as long as letters, digits and underscores go
  // on and does not begin with a digit. A variable that is not set reads as nothing.
  lemma NamedReference(env: Environment, name: string, rest: string)
    requires |name| > 0 && name[0] !in SPECIALS && forall c | c in name :: c in NAME_CHARS
    requires rest == "" || rest[0] !in NAME_CHARS
    ensures Expand(env, "$" + (name + rest)) == (if name in env then env[name] else "") + Expand(env, rest)
  {
    hide Expand, RunLength;
    forall c {
      Alphabets(c);
    }
    RunLengthOf(name, rest);
    var after := name + rest;
    assert after[0] == name[0] && name[0] in name && name[0] != '{' by { BraceIsNoName(); }
    DollarStarts(env, after);
    assert after[..|name|] == name && after[|name|..] == rest;
  }

  lemma BraceIsNoName()
    ensures '{' !in NAME_CHARS && '{' !in SPECIALS
  {
    Alphabets('{');
  }

  // A special character or a digit is a name of one character.
  lemma SpecialReference(env: Environment, c: char, rest: string)
    requires c in SPECIALS
    ensures Expand(env, "$" + ([c] + rest)) == (if [c] in env then env[[c]] else "") + Expand(env, rest)
  {
    hide Expand;
    Alphabets(c);
    BraceIsNoName();
    DollarStarts(env, [c] + rest);
    assert ([c] + rest)[..1] == [c] && ([c] + rest)[1..] == rest;
  }

  // A dollar before any other character stays, as does one at the end; empty braces and braces that
  // do not close are dropped, of which the latter leave what is in them.
  lemma BadReferences(env: Environment, c: char, rest: string)
    ensures c !in NAME_CHARS && c !in SPECIALS && c != '{' ==> Expand(env, "$" + ([c] + rest)) == "$" + Expand(env, [c] + rest)
    ensures Expand(env, "$") == "$"
    ensures Expand(env, "$" + ("{}" + rest)) == Expand(env, rest)
    ensures '}' !in rest ==> Expand(env, "$" + ("{" + rest)) == Expand(env, rest)
  {
    LastDollar(env);
    StrayDollar(env, c, rest);
    EmptyBraces(env, rest);
    if '}' !in rest {
      OpenBrace(env, rest);
    }
  }

  lemma LastDollar(env: Environment)
    ensures Expand(env, "$") == "$"
  {
    assert Expand(env, "$") == Piece(env, "$") + Expand(env, "");
  }

  lemma StrayDollar(env: Environment, c: char, rest: string)
    ensures c !in NAME_CHARS && c !in SPECIALS && c != '{' ==> Expand(env, "$" + ([c] + rest)) == "$" + Expand(env, [c] + rest)
  {
    hide Expand;
    Alphabets(c);
    DollarStarts(env, [c] + rest);
    assert ([c] + rest)[0..] == [c] + rest;
  }

  lemma EmptyBraces(env: Environment, rest: string)
    ensures Expand(env, "$" + ("{}" + rest)) == Expand(env, rest)
  {
    hide Expand;
    var after := "{}" + rest;
    DollarStarts(env, after);
    assert after[1..] == "}" + rest && after[2..] == rest && after[1..1] == "";
  }

  lemma OpenBrace(env: Environment, rest: string)
    requires '}' !in rest
    ensures Expand(env, "$" + ("{" + rest)) == Expand(env, rest)
  {
    hide Expand;
    var after := "{" + rest;
    DollarStarts(env, after);
    assert after[1..] == rest;
    assert Brace(rest) == |rest|;
  }

  // ----- expanding twice -----------------------------------------------------

  // Every value that a reference can reach is closed and expands to itself. A name with a
  // closing brace in it cannot be written in a reference.
  predicate Reachable(name: string) {
    name != "" && '}' !in name
  }

  predicate Inert(env: Environment, value: string) {
    Closed(value) && Expand(env, value) == value
  }

  ghost predicate StableEnvironment(env: Environment) {
    forall name | name in env && Reachable(name) :: Inert(env, env[name])
  }

  ghost predicate IdempotentOn(env: Environment, s: string) {
    Expand(env, Expand(env, s)) == Expand(env, s)
  }

  lemma {:induction false} BraceOf(name: string, rest: string)
    requires '}' !in name
    ensures Brace(name + "}" + rest) == |name|
  {
    var s := name + "}" + rest;
    if |name| > 0 {
      assert s[0] == name[0] && s[1..] == name[1..] + "}" + rest;
      BraceOf(name[1..], rest);
    }
  }

  // A reference in braces reads the variable of that name.
  lemma BracedReference(env: Environment, name: string)
    requires Reachable(name)
    ensures Closed("${" + name + "}") && Expand(env, "${" + name + "}") == Getenv(env, name)
  {
    var s := "${" + name + "}";
    assert s[1..][1..] == name + "}" + "";
    BraceOf(name, "");
    assert s[1..][1..|name| + 1] == name;
    assert s[2..][|name|] == '}';
    assert s[PieceLength(s)..] == "";
  }

  lemma NamesAreReachable(s: string)
    requires |s| > 0
    ensures var (name, width) := ShellName(s); name == "" || Reachable(name)
  {
    var (name, width) := ShellName(s);
    if s[0] == '{' {
      var n := Brace(s[1..]);
      assert n < |s| - 1 ==> name == s[1..][..n];
    }
  }

  lemma InertConcat(env: Environment, p: string, t: string)
    requires Inert(env, p)
    requires Expand(env, t) == t
    ensures Expand(env, p + t) == p + t
  {
    ClosedExpands(env, p, t);
  }

  lemma EmptyIsInert(env: Environment)
    ensures Inert(env, "")
  {
  }

  // A dollar that starts no reference still starts none in the expanded text.
  lemma LoneDollar(env: Environment, s: string)
    requires |s| > 1 && s[0] == '$' && ShellName(s[1..]) == ("", 0)
    ensures Inert(env, s[..2]) && Expand(env, s) == s[..2] + Expand(env, s[2..])
  {
    var t := s[..2];
    assert t[1..] == [s[1]] && RunLength(s[1..]) == 0;
    assert !IsSpecial(s[1]) && !IsAlphaNum(s[1]) && s[1] != '{' && s[1] != '$';
    assert RunLength([s[1]]) == 0;
    PlainExpands(env, [s[1]]);
    assert t[PieceLength(t)..] == [s[1]];
    assert Piece(env, t) == "$" && Closed(t) && Expand(env, t) == "$" + [s[1]] == t;
    ClosedExpands(env, t, s[2..]);
    assert s == t + s[2..];
  }

  lemma PieceIsInert(env: Environment, s: string)
    requires StableEnvironment(env) && |s| > 0
    requires s[0] == '$' ==> |s| > 1 && ShellName(s[1..]) != ("", 0)
    ensures Inert(env, Piece(env, s))
  {
    if s[0] == '$' {
      NamesAreReachable(s[1..]);
      EmptyIsInert(env);
    } else {
      PlainExpands(env, s[..1]);
    }
  }

  lemma {:induction false} StableMeansIdempotent(env: Environment, s: string)
    requires StableEnvironment(env)
    ensures IdempotentOn(env, s)
    decreases |s|
  {
    hide StableEnvironment, Inert, ShellName;
    if |s| == 0 {
    } else if s == "$" {
      assert Expand(env, s) == Piece(env, s) + Expand(env, "") == s;
    } else if s[0] == '$' && ShellName(s[1..]) == ("", 0) {
      LoneDollar(env, s);
      StableMeansIdempotent(env, s[2..]);
      InertConcat(env, s[..2], Expand(env, s[2..]));
    } else {
      var rest := s[PieceLength(s)..];
      PieceIsInert(env, s);
      StableMeansIdempotent(env, rest);
      InertConcat(env, Piece(env, s), Expand(env, rest));
    }
  }

  // ----- an unstable environment shows ---------------------------------------

  // Where a text is not closed, a dollar starts a reference that the end of the text cuts off.
  // What stands before it is expanded whatever follows.
  lemma {:induction false} OpenEnd(env: Environment, s: string) returns (before: string, open: string)
    requires !Closed(s)
    ensures |open| > 0 && open[0] == '$' && !Complete(open)
    ensures forall t :: Expand(env, s + t) == before + Expand(env, open + t)
    decreases |s|
  {
    hide Expand, Piece, PieceLength;
    if Complete(s) {
      var n := PieceLength(s);
      var rest;
      rest, open := OpenEnd(env, s[n..]);
      before := Piece(env, s) + rest;
      forall t {
        PieceFirst(env, s, t);
      }
    } else {
      before, open := "", s;
    }
  }

  lemma {:induction false} LongestName(env: Environment) returns (n: nat)
    ensures forall name | name in env :: |name| < n
    decreases |env|
  {
    if env == map[] {
      n := 0;
    } else {
      var k :| k in env;
      var rest := LongestName(env - {k});
      n := if |k| < rest then rest else |k| + 1;
      assert forall name | name in env :: name == k || name in env - {k};
    }
  }

  function Filler(n: nat): (r: string)
    ensures |r| == n && (forall i | 0 <= i < n :: r[i] == 'x')
  {
    if n == 0 then "" else "x" + Filler(n - 1)
  }

  lemma {:induction false} RunOf(s: string)
    requires forall i | 0 <= i < |s| :: IsAlphaNum(s[i])
    ensures RunLength(s) == |s|
  {
    if |s| > 0 {
      RunOf(s[1..]);
    }
  }

  // A text that is one reference and no more.
  lemma OneReference(env: Environment, s: string, name: string)
    requires |s| > 1 && s[0] == '$' && ShellName(s[1..]) == (name, |s| - 1) && name != ""
    ensures Expand(env, s) == Getenv(env, name)
  {
    hide ShellName;
    assert PieceLength(s) == |s| && s[|s|..] == "";
  }

  lemma BraceCloses(env: Environment, open: string, filler: string)
    requires |open| > 1 && open[0] == '$' && open[1] == '{' && '}' !in open[2..]
    requires |filler| > 0 && '}' !in filler
    ensures Expand(env, open + filler + "}") == Getenv(env, open[2..] + filler)
  {
    hide Brace;
    var s, name := open + filler + "}", open[2..] + filler;
    assert s[1..][1..] == name + "}" + "";
    BraceOf(name, "");
    assert s[1..][1..|name| + 1] == name;
    OneReference(env, s, name);
  }

  lemma RunCloses(env: Environment, open: string, filler: string)
    requires |open| > 0 && open[0] == '$' && !Complete(open) && (|open| > 1 ==> open[1] != '{')
    requires |filler| > 0 && filler[0] == 'x' && forall i | 0 <= i < |filler| :: IsAlphaNum(filler[i])
    ensures Expand(env, open + filler) == Getenv(env, open[1..] + filler)
  {
    hide RunLength;
    var s, name := open + filler, open[1..] + filler;
    assert s[1..] == name && name[..|name|] == name;
    assert |open| > 1 ==> RunLength(open[1..]) == |open| - 1;
    RunOf(name);
    assert name[0] == if |open| > 1 then open[1] else 'x';
    OneReference(env, s, name);
  }

  // Text that makes the cut-off reference a reference to a variable that is not set.
  lemma CloseUnset(env: Environment, open: string, n: nat) returns (t: string)
    requires |open| > 0 && open[0] == '$' && !Complete(open)
    requires n > 0 && forall name | name in env :: |name| < n
    ensures Plain(t) && |t| >= n && Expand(env, open + t) == ""
  {
    var filler := Filler(n);
    hide Expand, Filler;
    if |open| > 1 && open[1] == '{' {
      t := filler + "}";
      BraceCloses(env, open, filler);
      assert open + t == open + filler + "}";
    } else {
      t := filler;
      RunCloses(env, open, filler);
    }
  }

  // A value that ends inside a reference swallows the text after it.
  lemma OpenValueShows(env: Environment, v: string) returns (t: string)
    requires !Closed(v) && Expand(env, v) == v
    ensures Plain(t) && Expand(env, v + t) != v + t
  {
    hide Closed, Expand, Complete;
    var before, open := OpenEnd(env, v);
    var n := LongestName(env);
    t := CloseUnset(env, open, n + 1);
    assert v + "" == v && open + "" == open;
    assert v == before + Expand(env, open);
  }

  // A text that is expanded further the second time.
  lemma NotInertShows(env: Environment, name: string) returns (s: string)
    requires name in env && Reachable(name) && !Inert(env, env[name])
    ensures !IdempotentOn(env, s)
  {
    hide Closed, Expand;
    s := "${" + name + "}";
    BracedReference(env, name);
    if Expand(env, env[name]) == env[name] {
      var t := OpenValueShows(env, env[name]);
      ClosedExpands(env, s, t);
      PlainExpands(env, t);
      s := s + t;
    }
  }

  // Expanding twice is expanding once for every text exactly when the environment is stable.
  lemma IdempotentIff(env: Environment)
    ensures (forall s :: IdempotentOn(env, s)) <==> StableEnvironment(env)
  {
    hide IdempotentOn, Inert;
    if forall s :: IdempotentOn(env, s) {
      forall name | name in env && Reachable(name)
        ensures Inert(env, env[name])
      {
        if !Inert(env, env[name]) {
          var s := NotInertShows(env, name);
          assert false;
        }
      }
    }
    if StableEnvironment(env) {
      forall s {
        StableMeansIdempotent(env, s);
      }
    }
  }

  // An environment without a dollar in its values is stable.
  lemma PlainValuesAreStable(env: Environment)
    requires forall name | name in env :: Plain(env[name])
    ensures StableEnvironment(env)
  {
    forall name | name in env && Reachable(name) {
      PlainExpands(env, env[name]);
    }
  }

  // Two variables, one of them read through the other, are enough for an unstable environment.
  const CHAINED: Environment := map["A" := "$B", "B" := "x"]

  lemma ChainedIsUnstable()
    ensures Expand(CHAINED, "$A") == "$B" && Expand(CHAINED, "$B") == "x"
    ensures !StableEnvironment(CHAINED)
  {
    WholeReference(CHAINED, "A");
    WholeReference(CHAINED, "B");
    assert Reachable("A") && CHAINED["A"] == "$B";
  }

  lemma WholeReference(env: Environment, name: string)
    requires |name| > 0 && !IsSpecial(name[0]) && forall i | 0 <= i < |name| :: IsAlphaNum(name[i])
    ensures Expand(env, "$" + name) == Getenv(env, name)
  {
    RunOf(name);
    assert ("$" + name)[1..] == name && name[..|name|] == name;
    OneReference(env, "$" + name, name);
  }
}
