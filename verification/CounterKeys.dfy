// The keys of the per-request, per-status counters: printed by the compiler with Go's %q, read
// back from the summary with a regular expression.
module CounterKeys {
  import opened Prelude
  import opened Decimal
  import opened Text

  // unicode.IsPrint beyond ASCII.
  type Printable = char -> bool

  predicate IsPrint(c: char, printable: Printable) {
    if c as int < 0x80 then 0x20 <= c as int < 0x7f else printable(c)
  }

  // Characters that %q leaves as they are.
  predicate IsPlain(c: char, printable: Printable) {
    c != '"' && c != '\\' && IsPrint(c, printable)
  }

  predicate AllPlain(s: string, printable: Printable) {
    forall c | c in s :: IsPlain(c, printable)
  }

  // ----- printing ------------------------------------------------------------

  function HexDigit(n: nat): char
    requires n < 16
  {
    "0123456789abcdef"[n]
  }

  function Pow16(width: nat): nat {
    if width == 0 then 1 else 16 * Pow16(width - 1)
  }

  function Hex(n: nat, width: nat): (s: string)
    ensures |s| == width && ',' !in s && '"' !in s
  {
    if width == 0 then "" else Hex(n / 16, width - 1) + [HexDigit(n % 16)]
  }

  function Letter(c: char): Option<char> {
    match c as int
    case 7 => Some('a')
    case 8 => Some('b')
    case 9 => Some('t')
    case 10 => Some('n')
    case 11 => Some('v')
    case 12 => Some('f')
    case 13 => Some('r')
    case _ => None
  }

  function Escape(c: char, printable: Printable): (s: string)
    ensures |s| >= 1 && (s == [c] <==> IsPlain(c, printable)) && (!IsPlain(c, printable) ==> |s| >= 2 && s[0] == '\\')
    ensures c != ',' ==> ',' !in s
  {
    if IsPlain(c, printable) then [c]
    else if c == '"' || c == '\\' then ['\\', c]
    else if Letter(c).Some? then ['\\', Letter(c).value]
    else if c as int < 0x80 then "\\x" + Hex(c as int, 2)
    else if c as int < 0x10000 then "\\u" + Hex(c as int, 4)
    else "\\U" + Hex(c as int, 8)
  }

  function Escapes(name: string, printable: Printable): string {
    if |name| == 0 then "" else Escape(name[0], printable) + Escapes(name[1..], printable)
  }

  function Quote(name: string, printable: Printable): string {
    "\"" + Escapes(name, printable) + "\""
  }

  const HEAD := "http_reqs{name:"
  const STATUS := ",status:"

  // "http_reqs{name:%q,status:%d}"
  function Key(name: string, code: int, printable: Printable): string {
    HEAD + Quote(name, printable) + STATUS + FormatInt(code) + "}"
  }

  // ----- reading -------------------------------------------------------------

  // ,status:(\d+)}$
  function TailDigits(tail: string): Option<string> {
    if |tail| < |STATUS| + 2 || tail[..|STATUS|] != STATUS || tail[|tail| - 1] != '}' then None
    else
      var digits := tail[|STATUS|..|tail| - 1];
      if AllDigits(digits) then Some(digits) else None
  }

  datatype Match = Match(name: string, digits: string)

  // "([^"]+)" and the tail
  function QuotedName(rest: string): Option<Match> {
    if |rest| == 0 || rest[0] != '"' then None
    else
      var i := IndexOf(rest[1..], '"');
      if i == 0 || i == |rest| - 1 then None
      else
        var digits := TailDigits(rest[i + 2..]);
        if digits.None? then None else Some(Match(rest[1..i + 1], digits.value))
  }

  // ([^,]+) and the tail
  function BareName(rest: string): Option<Match> {
    var i := IndexOf(rest, ',');
    if i == 0 then None
    else
      var digits := TailDigits(rest[i..]);
      if digits.None? then None else Some(Match(rest[..i], digits.value))
  }

  // The expression tries the quoted form first.
  function FindSubmatch(key: string): Option<Match> {
    if !(HEAD <= key) then None
    else
      var quoted := QuotedName(key[|HEAD|..]);
      if quoted.Some? then quoted else BareName(key[|HEAD|..])
  }

  // strconv.Atoi with its error dropped: a value out of range is cut off at the largest.
  function Atoi(digits: string): nat
    requires AllDigits(digits)
  {
    if Value(digits) <= MAX_INT64 then Value(digits) else MAX_INT64
  }

  // ----- the expression, declaratively ---------------------------------------

  ghost predicate QuotedMatch(key: string, m: Match) {
    && |m.name| > 0 && '"' !in m.name && |m.digits| > 0 && AllDigits(m.digits)
    && key == HEAD + ("\"" + m.name + "\"" + (STATUS + m.digits + "}"))
  }

  ghost predicate BareMatch(key: string, m: Match) {
    && |m.name| > 0 && ',' !in m.name && |m.digits| > 0 && AllDigits(m.digits)
    && key == HEAD + (m.name + (STATUS + m.digits + "}"))
  }

  lemma TailDigitsIff(tail: string, digits: string)
    ensures TailDigits(tail) == Some(digits) <==> |digits| > 0 && AllDigits(digits) && tail == STATUS + digits + "}"
  {
    if TailDigits(tail) == Some(digits) {
      assert tail == tail[..|STATUS|] + tail[|STATUS|..|tail| - 1] + tail[|tail| - 1..];
    }
    if tail == STATUS + digits + "}" && AllDigits(digits) && |digits| > 0 {
      assert tail[|STATUS|..|tail| - 1] == digits && tail[..|STATUS|] == STATUS;
    }
  }

  lemma QuotedParts(rest: string, name: string, tail: string)
    requires rest == "\"" + name + "\"" + tail && '"' !in name
    ensures IndexOf(rest[1..], '"') == |name|
    ensures rest[1..|name| + 1] == name && rest[|name| + 2..] == tail
  {
    assert rest[1..] == name + "\"" + tail;
    assert rest[1..][..|name|] == name;
    IndexOfIs(rest[1..], '"', |name|);
  }

  lemma SameHead(a: string, b: string)
    requires HEAD + a == HEAD + b
    ensures a == b
  {
    assert (HEAD + a)[|HEAD|..] == a && (HEAD + b)[|HEAD|..] == b;
  }

  lemma QuotedSound(rest: string, m: Match)
    requires QuotedName(rest) == Some(m)
    ensures QuotedMatch(HEAD + rest, m)
  {
    hide TailDigits;
    var i := IndexOf(rest[1..], '"');
    TailDigitsIff(rest[i + 2..], m.digits);
    assert m.name == rest[1..][..i];
    assert rest == "\"" + rest[1..i + 1] + "\"" + rest[i + 2..];
    assert rest == "\"" + m.name + "\"" + (STATUS + m.digits + "}");
  }

  lemma QuotedComplete(rest: string, m: Match)
    requires QuotedMatch(HEAD + rest, m)
    ensures QuotedName(rest) == Some(m)
  {
    hide TailDigits;
    var tail := STATUS + m.digits + "}";
    SameHead(rest, "\"" + m.name + "\"" + tail);
    QuotedParts(rest, m.name, tail);
    TailDigitsIff(tail, m.digits);
  }

  lemma QuotedIff(rest: string, m: Match)
    ensures QuotedName(rest) == Some(m) <==> QuotedMatch(HEAD + rest, m)
  {
    hide QuotedName, QuotedMatch;
    if QuotedName(rest) == Some(m) {
      QuotedSound(rest, m);
    }
    if QuotedMatch(HEAD + rest, m) {
      QuotedComplete(rest, m);
    }
  }

  lemma BareIff(rest: string, m: Match)
    ensures BareName(rest) == Some(m) <==> BareMatch(HEAD + rest, m)
  {
    var i := IndexOf(rest, ',');
    TailDigitsIff(rest[i..], m.digits);
    if BareName(rest) == Some(m) {
      assert rest == rest[..i] + rest[i..];
    }
    if BareMatch(HEAD + rest, m) {
      var tail := STATUS + m.digits + "}";
      assert rest == (HEAD + rest)[|HEAD|..] == m.name + tail;
      assert rest[..|m.name|] == m.name && rest[|m.name|] == tail[0];
      IndexOfIs(rest, ',', |m.name|);
      assert rest[|m.name|..] == tail;
    }
  }

  // What the parser finds: a quoted match if there is one, otherwise a bare match. Either kind
  // is unique.
  lemma FindSubmatchIff(key: string, m: Match)
    ensures FindSubmatch(key) == Some(m) <==>
            QuotedMatch(key, m) || (BareMatch(key, m) && !exists q :: QuotedMatch(key, q))
  {
    if HEAD <= key {
      var rest := key[|HEAD|..];
      assert key == HEAD + rest;
      hide QuotedName, BareName, QuotedMatch, BareMatch;
      QuotedIff(rest, m);
      BareIff(rest, m);
      if QuotedName(rest).Some? {
        QuotedIff(rest, QuotedName(rest).value);
      }
      if q :| QuotedMatch(key, q) {
        QuotedIff(rest, q);
      }
    }
  }

  // ----- printing and reading undo each other --------------------------------

  lemma {:induction false} PlainEscapes(name: string, printable: Printable)
    ensures |Escapes(name, printable)| >= |name|
    ensures AllPlain(name, printable) <==> |Escapes(name, printable)| == |name|
    ensures AllPlain(name, printable) ==> Escapes(name, printable) == name
  {
    if |name| > 0 {
      hide Escape;
      PlainEscapes(name[1..], printable);
      assert name == [name[0]] + name[1..];
      assert AllPlain(name, printable) <==> IsPlain(name[0], printable) && AllPlain(name[1..], printable);
    }
  }

  lemma {:induction false} CommasStay(name: string, printable: Printable)
    requires ',' !in name
    ensures ',' !in Escapes(name, printable)
  {
    if |name| > 0 {
      hide Escape;
      CommasStay(name[1..], printable);
    }
  }

  lemma DigitsOf(code: int)
    requires code >= 0
    ensures AllDigits(FormatInt(code)) && |FormatInt(code)| > 0 && Value(FormatInt(code)) == code
  {
    ValueOfFormat(code);
  }

  predicate ReadsBack(name: string, code: int, printable: Printable) {
    var m := FindSubmatch(Key(name, code, printable));
    m.Some? && m.value.name == name && AllDigits(m.value.digits) && Atoi(m.value.digits) == code
  }

  lemma GoodKeyReadsBack(name: string, code: int, printable: Printable)
    requires |name| > 0 && AllPlain(name, printable) && 0 <= code <= MAX_INT64
    ensures FindSubmatch(Key(name, code, printable)) == Some(Match(name, FormatInt(code)))
    ensures ReadsBack(name, code, printable)
  {
    hide FindSubmatch, Escapes, FormatInt;
    PlainEscapes(name, printable);
    DigitsOf(code);
    var m := Match(name, FormatInt(code));
    assert Key(name, code, printable) == HEAD + ("\"" + name + "\"" + (STATUS + FormatInt(code) + "}"));
    FindSubmatchIff(Key(name, code, printable), m);
  }

  lemma NoQuoteAfter(a: string, s: string)
    requires '"' !in s
    ensures var u := a + "\"" + s; u[|a|] == '"' && forall j | |a| < j < |u| :: u[j] != '"'
  {
    var u := a + "\"" + s;
    assert forall j | |a| < j < |u| :: u[j] == s[j - |a| - 1];
  }

  // The last quote of a text is in one place.
  lemma SameLastQuote(a: string, b: string, s: string, t: string)
    requires a + "\"" + s == b + "\"" + t && '"' !in s && '"' !in t
    ensures |a| == |b|
  {
    NoQuoteAfter(a, s);
    NoQuoteAfter(b, t);
  }

  lemma SameFirstComma(a: string, b: string, s: string, t: string)
    requires a + s == b + t && |s| > 0 && |t| > 0 && s[0] == ',' && t[0] == ',' && ',' !in a && ',' !in b
    ensures a == b
  {
    var u := a + s;
    assert u[..|a|] == a && u[..|b|] == b;
    IndexOfIs(u, ',', |a|);
    IndexOfIs(u, ',', |b|);
  }

  lemma IntHasNoQuote(code: int)
    ensures '"' !in FormatInt(code) && ',' !in FormatInt(code)
  {
    assert AllDigits(FormatNat(if code < 0 then -code else code));
  }

  lemma OnlyGoodKeysReadBack(name: string, code: int, printable: Printable)
    requires ReadsBack(name, code, printable)
    ensures |name| > 0 && AllPlain(name, printable) && 0 <= code <= MAX_INT64
  {
    hide FindSubmatch, Escapes, FormatInt;
    var key := Key(name, code, printable);
    var m, quoted := FindSubmatch(key).value, Quote(name, printable);
    var tail, found := STATUS + FormatInt(code) + "}", STATUS + m.digits + "}";
    FindSubmatchIff(key, m);
    PlainEscapes(name, printable);
    IntHasNoQuote(code);
    assert key == HEAD + (quoted + tail);
    if QuotedMatch(key, m) {
      SameHead(quoted + tail, "\"" + name + "\"" + found);
      var all := quoted + tail;
      assert all == ("\"" + Escapes(name, printable)) + "\"" + tail;
      assert all == ("\"" + name) + "\"" + found;
      DigitsHaveNoQuote(m.digits);
      SameLastQuote("\"" + Escapes(name, printable), "\"" + name, tail, found);
    } else {
      SameHead(quoted + tail, name + found);
      CommasStay(name, printable);
      SameFirstComma(quoted, name, tail, found);
    }
  }

  lemma DigitsHaveNoQuote(digits: string)
    requires AllDigits(digits)
    ensures '"' !in digits
  {
  }

  // Printing and reading undo each other exactly for nonempty names that %q leaves alone and
  // for codes that are not negative. Other names come back altered or not at all.
  lemma ReadsBackIff(name: string, code: int, printable: Printable)
    requires MIN_INT64 <= code <= MAX_INT64
    ensures ReadsBack(name, code, printable) <==> |name| > 0 && AllPlain(name, printable) && code >= 0
  {
    hide ReadsBack;
    if |name| > 0 && AllPlain(name, printable) && code >= 0 {
      GoodKeyReadsBack(name, code, printable);
    }
    if ReadsBack(name, code, printable) {
      OnlyGoodKeysReadBack(name, code, printable);
    }
  }

  // By its characters: from the blank to the tilde without quote and backslash, or printable beyond
  // ASCII.
  lemma CharactersReadBackIff(name: string, code: int, printable: Printable)
    requires MIN_INT64 <= code <= MAX_INT64
    ensures ReadsBack(name, code, printable) <==>
            && name != "" && code >= 0
            && forall c | c in name :: (' ' <= c <= '~' && c != '"' && c != '\\') || (c as int >= 0x80 && printable(c))
  {
    hide ReadsBack;
    ReadsBackIff(name, code, printable);
  }

  // ----- quoting, read the other way -----------------------------------------

  function HexDigitValue(c: char): Option<nat> {
    if '0' <= c <= '9' then Some(c as int - '0' as int)
    else if 'a' <= c <= 'f' then Some(c as int - 'a' as int + 10)
    else None
  }

  function HexValue(s: string): Option<nat> {
    if |s| == 0 then Some(0)
    else
      var front, last := HexValue(s[..|s| - 1]), HexDigitValue(s[|s| - 1]);
      if front.None? || last.None? then None else Some(16 * front.value + last.value)
  }

  // The code of the first character of a Go string literal's inside, and how much it takes, by the
  // escape sequences of the Go language specification, section "Rune literals".
  function Unescape(s: string): Option<(int, nat)> {
    if |s| == 0 then None
    else if s[0] != '\\' then Some((s[0] as int, 1))
    else if |s| == 1 then None
    else
      match s[1]
      case 'a' => Some((0x07, 2))
      case 'b' => Some((0x08, 2))
      case 'f' => Some((0x0c, 2))
      case 'n' => Some((0x0a, 2))
      case 'r' => Some((0x0d, 2))
      case 't' => Some((0x09, 2))
      case 'v' => Some((0x0b, 2))
      case '\\' => Some((0x5c, 2))
      case '"' => Some((0x22, 2))
      case 'x' => HexEscape(s, 2)
      case 'u' => HexEscape(s, 4)
      case 'U' => HexEscape(s, 8)
      case _ => None
  }

  function HexEscape(s: string, width: nat): Option<(int, nat)> {
    if |s| < width + 2 || HexValue(s[2..width + 2]).None? then None else Some((HexValue(s[2..width + 2]).value, width + 2))
  }

  lemma {:induction false} HexReadsBack(n: nat, width: nat)
    requires n < Pow16(width)
    ensures HexValue(Hex(n, width)) == Some(n)
  {
    if width > 0 {
      var s := Hex(n, width);
      assert s[..|s| - 1] == Hex(n / 16, width - 1) && s[|s| - 1] == HexDigit(n % 16);
      hide Hex;
      HexReadsBack(n / 16, width - 1);
      HexDigitReadsBack(n % 16);
    }
  }

  lemma HexDigitReadsBack(n: nat)
    requires n < 16
    ensures HexDigitValue(HexDigit(n)) == Some(n)
  {
  }

  lemma HexEscapeReadsBack(kind: char, n: nat, width: nat, rest: string)
    requires n < Pow16(width)
    ensures HexEscape(['\\', kind] + Hex(n, width) + rest, width) == Some((n, width + 2))
  {
    var s := ['\\', kind] + Hex(n, width) + rest;
    assert s[2..width + 2] == Hex(n, width);
    HexReadsBack(n, width);
  }

  // Every escape reads back as its character, whatever follows, so that %q prints what the Go
  // language reads.
  lemma EscapeReadsBack(c: char, printable: Printable, rest: string)
    ensures Unescape(Escape(c, printable) + rest) == Some((c as int, |Escape(c, printable)|))
    ensures |Escape(c, printable)| ==
            if IsPlain(c, printable) then 1
            else if c == '"' || c == '\\' || 0x07 <= c as int <= 0x0d then 2
            else if c as int < 0x80 then 4
            else if c as int < 0x10000 then 6
            else 10
  {
    hide Hex, HexEscape, Pow16;
    Pow16Values();
    var e := Escape(c, printable);
    if !IsPlain(c, printable) && c != '"' && c != '\\' && Letter(c).None? {
      var width := |e| - 2;
      assert e[..2] == ['\\', e[1]] && e == ['\\', e[1]] + Hex(c as int, width);
      HexEscapeReadsBack(e[1], c as int, width, rest);
    }
    assert (e + rest)[0] == e[0] && (|e| > 1 ==> (e + rest)[1] == e[1]);
  }

  // ----- distinct pairs have distinct keys -----------------------------------

  lemma HexDigitInjective(m: nat, n: nat)
    requires m < 16 && n < 16 && HexDigit(m) == HexDigit(n)
    ensures m == n
  {
  }

  lemma {:induction false} HexInjective(m: nat, n: nat, width: nat)
    requires m < Pow16(width) && n < Pow16(width) && Hex(m, width) == Hex(n, width)
    ensures m == n
  {
    if width > 0 {
      hide HexDigit;
      var a, b := Hex(m, width), Hex(n, width);
      assert a[..width - 1] == Hex(m / 16, width - 1) && b[..width - 1] == Hex(n / 16, width - 1);
      HexInjective(m / 16, n / 16, width - 1);
      assert a[width - 1] == HexDigit(m % 16) && b[width - 1] == HexDigit(n % 16);
      HexDigitInjective(m % 16, n % 16);
    }
  }

  lemma Pow16Values()
    ensures Pow16(2) == 0x100 && Pow16(4) == 0x10000 && Pow16(8) == 0x1_0000_0000
  {
    assert Pow16(1) == 16 && Pow16(3) == 0x1000 && Pow16(5) == 0x100000 && Pow16(6) == 0x1000000;
  }

  // Only the plain character stands for itself, and the second character tells which kind of
  // escape it is, so no escape begins another.
  lemma EscapeUnique(c: char, d: char, s: string, t: string, printable: Printable)
    requires Escape(c, printable) + s == Escape(d, printable) + t
    ensures c == d && s == t
  {
    var a, b := Escape(c, printable), Escape(d, printable);
    assert (a + s)[0] == a[0] && (b + t)[0] == b[0];
    if IsPlain(c, printable) || IsPlain(d, printable) {
      assert c == d;
    } else {
      assert (a + s)[1] == a[1] && (b + t)[1] == b[1];
      assert |a| == |b|;
      assert a == (a + s)[..|a|] && b == (b + t)[..|b|];
      EscapeInjective(c, d, printable);
    }
    assert (a + s)[|a|..] == s && (b + t)[|b|..] == t;
  }

  lemma EscapeInjective(c: char, d: char, printable: Printable)
    requires Escape(c, printable) == Escape(d, printable)
    ensures c == d
  {
    hide Hex, Pow16;
    Pow16Values();
    var a, b := Escape(c, printable), Escape(d, printable);
    if |a| > 2 {
      var width := |a| - 2;
      assert a[2..] == Hex(c as int, width) && b[2..] == Hex(d as int, width);
      HexInjective(c as int, d as int, width);
    }
  }

  lemma {:induction false} EscapesUnique(a: string, b: string, s: string, t: string, printable: Printable)
    requires Escapes(a, printable) + "\"" + s == Escapes(b, printable) + "\"" + t
    ensures a == b && s == t
    decreases |a|
  {
    hide Escape;
    if |a| > 0 && |b| > 0 {
      var restA, restB := Escapes(a[1..], printable) + "\"" + s, Escapes(b[1..], printable) + "\"" + t;
      assert Escapes(a, printable) + "\"" + s == Escape(a[0], printable) + restA;
      assert Escapes(b, printable) + "\"" + t == Escape(b[0], printable) + restB;
      EscapeUnique(a[0], b[0], restA, restB, printable);
      EscapesUnique(a[1..], b[1..], s, t, printable);
      assert a == [a[0]] + a[1..] && b == [b[0]] + b[1..];
    } else {
      FirstOfEscapes(a, s, printable);
      FirstOfEscapes(b, t, printable);
      assert (Escapes(a, printable) + "\"" + s)[0] == (Escapes(b, printable) + "\"" + t)[0];
      assert ("\"" + s)[1..] == s && ("\"" + t)[1..] == t;
      assert "" + "\"" + s == "\"" + s && "" + "\"" + t == "\"" + t;
    }
  }

  lemma FirstOfEscapes(name: string, s: string, printable: Printable)
    ensures (Escapes(name, printable) + "\"" + s)[0] == '"' <==> |name| == 0
  {
    if |name| > 0 {
      assert (Escapes(name, printable) + "\"" + s)[0] == Escape(name[0], printable)[0];
    }
  }

  lemma SignOf(n: int)
    ensures FormatInt(n)[0] == '-' <==> n < 0
  {
    assert n >= 0 ==> FormatInt(n)[0] in FormatNat(n);
  }

  lemma FormatIntInjective(m: int, n: int)
    requires FormatInt(m) == FormatInt(n)
    ensures m == n
  {
    SignOf(m);
    SignOf(n);
    assert m < 0 ==> FormatInt(m)[1..] == FormatNat(-m) && FormatInt(n)[1..] == FormatNat(-n);
    FormatNatInjective(if m < 0 then -m else m, if n < 0 then -n else n);
  }

  lemma KeyInjective(a: string, m: int, b: string, n: int, printable: Printable)
    requires Key(a, m, printable) == Key(b, n, printable)
    ensures a == b && m == n
  {
    hide Escapes, FormatInt;
    var s, t := STATUS + FormatInt(m) + "}", STATUS + FormatInt(n) + "}";
    var first, second := Escapes(a, printable) + "\"" + s, Escapes(b, printable) + "\"" + t;
    assert Key(a, m, printable) == HEAD + ("\"" + first) && Key(b, n, printable) == HEAD + ("\"" + second);
    SameHead("\"" + first, "\"" + second);
    assert ("\"" + first)[1..] == first && ("\"" + second)[1..] == second;
    EscapesUnique(a, b, s, t, printable);
    assert s[|STATUS|..|s| - 1] == FormatInt(m) && t[|STATUS|..|t| - 1] == FormatInt(n);
    FormatIntInjective(m, n);
  }
}
