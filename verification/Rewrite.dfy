/** The rewriting of tarball URLs in a packument: a byte replacement on the raw
    document, and what it does to the JSON. */
module Rewrite {
  import opened Common
  import Text

  // ----------------------------------------------------------- bytes.ReplaceAll

  /** Non-overlapping matches, from the left. */
  function ReplaceAll(s: string, pat: string, repl: string): string
    requires pat != ""
  {
    if |s| < |pat| then s
    else if pat <= s then repl + ReplaceAll(s[|pat|..], pat, repl)
    else [s[0]] + ReplaceAll(s[1..], pat, repl)
  }

  lemma SkipOne(s: string, pat: string, repl: string)
    requires pat != "" && s != "" && !(pat <= s)
    ensures ReplaceAll(s, pat, repl) == [s[0]] + ReplaceAll(s[1..], pat, repl)
  {}

  /** Where nothing starts to match, nothing changes. */
  lemma {:induction false} Skip(s: string, pat: string, repl: string, k: nat)
    requires pat != "" && k <= |s| && forall q | 0 <= q < k :: !(pat <= s[q..])
    ensures ReplaceAll(s, pat, repl) == s[..k] + ReplaceAll(s[k..], pat, repl)
    decreases k
  {
    hide ReplaceAll;
    assert s[0..] == s;
    if k > 0 {
      SkipOne(s, pat, repl);
      SkipRest(s, pat, k);
      Skip(s[1..], pat, repl, k - 1);
      SkipJoins(s, k, ReplaceAll(s[k..], pat, repl));
    }
  }

  lemma SkipRest(s: string, pat: string, k: nat)
    requires 0 < k <= |s| && forall q | 0 <= q < k :: !(pat <= s[q..])
    ensures forall q | 0 <= q < k - 1 :: !(pat <= s[1..][q..])
  {
    forall q | 0 <= q < k - 1 ensures !(pat <= s[1..][q..]) { assert s[1..][q..] == s[q + 1..]; }
  }

  lemma SkipJoins(s: string, k: nat, rest: string)
    requires 0 < k <= |s|
    ensures s[1..][k - 1..] == s[k..] && [s[0]] + (s[1..][..k - 1] + rest) == s[..k] + rest
  {
    assert [s[0]] + s[1..][..k - 1] == s[..k];
  }

  // ---------------------------------------------------------- JSON as it is written

  /** A string between its quotes, a structural character or a character of white
      space, and a number or a literal name (section 2 of RFC 8259). */
  datatype Token = Str(raw: string) | Mark(c: char) | Word(text: string)

  const MARKS: string := "{}[]:, \t\n\r"

  /** A string as section 7 of RFC 8259 has it: a quote or a backslash is escaped. */
  predicate Escaped(raw: string) {
    if raw == "" then true
    else if raw[0] == '\\' then |raw| >= 2 && Escaped(raw[2..])
    else raw[0] != '"' && Escaped(raw[1..])
  }

  predicate Plain(s: string) { '"' !in s && '\\' !in s }

  predicate TokenOk(t: Token) {
    match t
    case Str(raw) => Escaped(raw)
    case Mark(c) => c in MARKS
    case Word(text) => text != "" && Plain(text) && forall i | 0 <= i < |text| :: text[i] !in MARKS
  }

  function Print(t: Token): (s: string)
    requires TokenOk(t)
    ensures s != ""
  {
    match t
    case Str(raw) => "\"" + raw + "\""
    case Mark(c) => [c]
    case Word(text) => text
  }

  /** Where in the document the next token stands. */
  datatype Ctx = Free | AfterWord | AfterKey | Colon | KeyColon | AfterValue

  /** The raw name of the key is `tarball`, or ends in an escaped quote and that. */
  predicate KeyMatches(raw: string) { raw == "tarball" || (|raw| >= 8 && raw[|raw| - 8..] == "\"tarball") }

  /** None: no JSON text has this token there. Two words are never side by side, and a
      string after a colon is a value, with no colon after it. */
  function Next(ctx: Ctx, t: Token): Option<Ctx> {
    match t
    case Word(_) => if ctx in {AfterWord, AfterKey, AfterValue} then None else Some(AfterWord)
    case Str(raw) =>
      if ctx in {AfterWord, AfterKey, AfterValue} then None
      else if ctx in {Colon, KeyColon} then Some(AfterValue)
      else Some(if KeyMatches(raw) then AfterKey else AfterWord)
    case Mark(c) =>
      if c != ':' then Some(Free)
      else if ctx == AfterValue then None
      else Some(if ctx == AfterKey then KeyColon else Colon)
  }

  predicate Lawful(ctx: Ctx, ts: seq<Token>)
    decreases |ts|
  {
    ts == [] || (TokenOk(ts[0]) && Next(ctx, ts[0]).Some? && Lawful(Next(ctx, ts[0]).value, ts[1..]))
  }

  function Flat(ctx: Ctx, ts: seq<Token>): string
    requires Lawful(ctx, ts)
    decreases |ts|
  {
    if ts == [] then "" else Print(ts[0]) + Flat(Next(ctx, ts[0]).value, ts[1..])
  }

  // ------------------------------------------------------------------ the rewriting

  /** One token: the value of a tarball key that starts with `from` starts with `to`
      instead. */
  function Edit(ctx: Ctx, t: Token, from: string, to: string): Token {
    if ctx == KeyColon && t.Str? && from <= t.raw then Str(to + t.raw[|from|..]) else t
  }

  function Edited(ctx: Ctx, ts: seq<Token>, from: string, to: string): (es: seq<Token>)
    requires Lawful(ctx, ts)
    ensures |es| == |ts|
    decreases |ts|
  {
    if ts == [] then [] else [Edit(ctx, ts[0], from, to)] + Edited(Next(ctx, ts[0]).value, ts[1..], from, to)
  }

  /** How the key of a tarball and the start of its value are written. */
  function Head(): string { "\"tarball\":\"" }

  lemma {:induction false} QuotesAreEscaped(raw: string, k: nat)
    requires Escaped(raw) && k < |raw| && raw[k] == '"'
    ensures k > 0 && raw[k - 1] == '\\'
    decreases |raw|
  {
    if raw[0] == '\\' {
      if k >= 2 { QuotesAreEscaped(raw[2..], k - 2); }
    } else {
      QuotesAreEscaped(raw[1..], k - 1);
    }
  }

  lemma {:induction false} EscapedJoin(a: string, b: string)
    requires Plain(a)
    ensures Escaped(a + b) <==> Escaped(b)
  {
    if a == "" {
      assert a + b == b;
    } else {
      EscapedJoin(a[1..], b);
      assert (a + b)[1..] == a[1..] + b;
    }
  }

  lemma {:induction false} EscapedEnds(a: string, b: string)
    requires Escaped(a)
    ensures Escaped(a + b) <==> Escaped(b)
    decreases |a|
  {
    if a == "" {
      assert a + b == b;
    } else {
      var k := if a[0] == '\\' then 2 else 1;
      EscapedEnds(a[k..], b);
      assert (a + b)[k..] == a[k..] + b;
    }
  }

  /** A character that is neither a quote nor a backslash, or a backslash and one more. */
  predicate Piece(p: string) {
    (|p| == 1 && p[0] != '"' && p[0] != '\\') || (|p| == 2 && p[0] == '\\')
  }

  ghost predicate Pieces(ps: seq<string>) { forall i | 0 <= i < |ps| :: Piece(ps[i]) }

  lemma {:induction false} PiecesAreEscaped(ps: seq<string>)
    requires Pieces(ps)
    ensures Escaped(Concat(ps))
  {
    if ps != [] {
      var init, p := ps[..|ps| - 1], ps[|ps| - 1];
      PiecesAreEscaped(init);
      PieceIsEscaped(p);
      EscapedEnds(Concat(init), p);
    }
  }

  lemma PieceIsEscaped(p: string)
    requires Piece(p)
    ensures Escaped(p)
  {
    if |p| == 1 { assert p[1..] == ""; } else { assert p[2..] == ""; }
  }

  lemma {:induction false} ConcatFirst(p: string, ps: seq<string>)
    ensures Concat([p] + ps) == p + Concat(ps)
  {
    if ps == [] {
      assert [p] + ps == [] + [p];
      ConcatAppend([], p);
      assert Concat<char>([]) == "" && "" + p == p + "";
    } else {
      var init, last := ps[..|ps| - 1], ps[|ps| - 1];
      ConcatFirst(p, init);
      assert [p] + ps == [p] + init + [last];
      ConcatAppend([p] + init, last);
    }
  }

  lemma {:induction false} EscapedInPieces(raw: string) returns (ps: seq<string>)
    requires Escaped(raw)
    ensures Pieces(ps) && Concat(ps) == raw
  {
    if raw == "" {
      ps := [];
    } else {
      var k := if raw[0] == '\\' then 2 else 1;
      ps := EscapedInPieces(raw[k..]);
      ConcatFirst(raw[..k], ps);
      ps := [raw[..k]] + ps;
    }
  }

  /** What stands between two quotes is exactly such pieces one after the other. */
  lemma EscapedIs(raw: string)
    ensures Escaped(raw) <==> exists ps :: Pieces(ps) && Concat(ps) == raw
  {
    hide Escaped, Concat;
    if Escaped(raw) { var ps := EscapedInPieces(raw); }
    forall ps | Pieces(ps) && Concat(ps) == raw ensures Escaped(raw) { PiecesAreEscaped(ps); }
  }

  lemma Letters(k: nat)
    ensures |Head()| == 11 && (1 <= k < 8 ==> Head()[k] != '"')
    ensures Head()[0] == Head()[8] == '"' && Head()[7] == 'l'
    ensures Head()[..8] == "\"tarball" && Head()[9..] == ":\""
  {}

  lemma MatchPlace(raw: string, s: string, q: nat)
    requires Escaped(raw) && q <= |raw| && |s| >= |raw| + 2 && |s| >= q + 11
    requires s[1..|raw| + 1] == raw && s[|raw| + 1] == '"' && s[q..q + 11] == Head()
    ensures q + 8 == |raw| + 1
  {
    hide Head, Escaped;
    var k := |raw| + 1 - q;
    Letters(k);
    assert k < 11 ==> s[q..q + 11][k] == s[|raw| + 1];
    assert s[q..q + 11][8] == s[q + 8] && s[q..q + 11][7] == s[q + 7];
    if q + 8 <= |raw| {
      assert s[1..|raw| + 1][q + 7] == s[q + 8];
      assert s[1..|raw| + 1][q + 6] == s[q + 7];
      QuotesAreEscaped(raw, q + 7);
    }
  }

  lemma KeyAt(raw: string, s: string, q: nat)
    requires |raw| >= 7 && q == |raw| - 7 && |s| >= |raw| + 2
    requires s[0] == '"' && s[1..|raw| + 1] == raw && s[q..q + 8] == "\"tarball"
    ensures KeyMatches(raw)
  {
    if q == 0 {
      assert raw == s[0..8][1..] == "tarball";
    } else {
      assert raw[|raw| - 8..] == s[q..q + 8];
    }
  }

  lemma Slices(s: string, q: nat, n: nat, a: nat)
    requires q + n <= |s| && a <= n
    ensures s[q..][n..] == s[q + n..] && s[q..][..n] == s[q..q + n]
    ensures s[q..q + n][a..] == s[q + a..q + n] && s[q..q + n][..a] == s[q..q + a]
  {}

  lemma Quoted(raw: string, rest: string)
    ensures var s := "\"" + raw + "\"" + rest;
      |s| == |raw| + 2 + |rest| && s[0] == '"' && s[1..|raw| + 1] == raw && s[|raw| + 1] == '"' &&
        s[|raw| + 2..] == rest
  {}

  lemma RestOfMatch(s: string, q: nat, from: string)
    requires q + 11 <= |s| && s[q..q + 11] == Head() && from <= s[q + 11..]
    ensures ":\"" + from <= s[q + 9..]
  {
    hide Head;
    Letters(0);
    var rest := s[q + 9..];
    Slices(s, q, 11, 9);
    Slices(s, q + 9, 2, 0);
    PrefixSplit(":\"", from, rest);
  }

  /** A match that starts in a string token ends that token, which is a key, and opens
      the string that follows its colon. */
  lemma MatchInString(raw: string, rest: string, from: string, q: nat)
    requires Escaped(raw) && q <= |raw|
    requires var s := "\"" + raw + "\"" + rest; Head() + from <= s[q..]
    ensures KeyMatches(raw) && q == |raw| - 7 && ":\"" + from <= rest
  {
    hide Head, Escaped, KeyMatches;
    var s := "\"" + raw + "\"" + rest;
    Quoted(raw, rest);
    Letters(0);
    MatchIn(s, raw, from, q);
  }

  lemma MatchIn(s: string, raw: string, from: string, q: nat)
    requires Escaped(raw) && q <= |raw| && |s| >= |raw| + 2
    requires s[0] == '"' && s[1..|raw| + 1] == raw && s[|raw| + 1] == '"' && Head() + from <= s[q..]
    ensures KeyMatches(raw) && q == |raw| - 7 && ":\"" + from <= s[|raw| + 2..]
  {
    hide Head, Escaped, KeyMatches;
    HeadAt(s, q, from);
    MatchPlace(raw, s, q);
    KeyAt(raw, s, q);
    RestOfMatch(s, q, from);
  }

  lemma HeadAt(s: string, q: nat, from: string)
    requires q <= |s| && Head() + from <= s[q..]
    ensures q + 11 <= |s| && s[q..q + 11] == Head() && s[q..q + 8] == "\"tarball" && from <= s[q + 11..]
  {
    hide Head;
    Letters(0);
    PrefixSplit(Head(), from, s[q..]);
    Slices(s, q, 11, 8);
  }

  /** What may come right after a string. */
  predicate Follows(rest: string) { rest == "" || rest[0] in MARKS }

  lemma ClosingQuote(rest: string, from: string)
    requires Follows(rest)
    ensures !(Head() + from <= "\"" + rest)
  {
    assert (Head() + from)[1] == 't';
    if rest != "" { assert ("\"" + rest)[1] == rest[0]; }
  }

  lemma NoMatchIn(raw: string, rest: string, from: string, q: nat)
    requires Escaped(raw) && Follows(rest) && q < |raw| + 2
    requires !(KeyMatches(raw) && ":\"" + from <= rest)
    ensures !(Head() + from <= ("\"" + raw + "\"" + rest)[q..])
  {
    hide Escaped, KeyMatches;
    var s := "\"" + raw + "\"" + rest;
    Quoted(raw, rest);
    ClosingQuote(rest, from);
    if q > |raw| { assert s[q..] == "\"" + rest; }
    else if Head() + from <= s[q..] { MatchInString(raw, rest, from, q); }
  }

  /** After a string no word can come, and after a value no colon. */
  lemma AfterString(ctx: Ctx, ts: seq<Token>)
    requires Lawful(ctx, ts) && ctx in {AfterWord, AfterKey, AfterValue}
    ensures Follows(Flat(ctx, ts))
    ensures ctx == AfterValue ==> !(":" <= Flat(ctx, ts))
  {}

  /** No match starts in this token. */
  lemma TokenSkips(ctx: Ctx, ts: seq<Token>, from: string, to: string)
    requires ts != [] && Lawful(ctx, ts)
    requires var ctx' := Next(ctx, ts[0]).value;
      ts[0].Str? ==> !(KeyMatches(ts[0].raw) && ":\"" + from <= Flat(ctx', ts[1..]))
    ensures var ctx' := Next(ctx, ts[0]).value;
      ReplaceAll(Flat(ctx, ts), Head() + from, Head() + to)
        == Print(ts[0]) + ReplaceAll(Flat(ctx', ts[1..]), Head() + from, Head() + to)
  {
    hide ReplaceAll, Escaped, KeyMatches, Head;
    var ctx', s, p := Next(ctx, ts[0]).value, Flat(ctx, ts), Print(ts[0]);
    var rest := Flat(ctx', ts[1..]);
    Letters(0);
    if ts[0].Str? { AfterString(ctx', ts[1..]); }
    forall q | 0 <= q < |p| ensures !(Head() + from <= s[q..]) {
      if ts[0].Str? {
        NoMatchIn(ts[0].raw, rest, from, q);
      } else {
        assert s[q..][0] == p[q] != '"' && (Head() + from)[0] == '"';
      }
    }
    Skip(s, Head() + from, Head() + to, |p|);
    assert s[|p|..] == rest && s[..|p|] == p;
  }

  /** No match is under way where the token stands. */
  ghost predicate Idle(ctx: Ctx, ts: seq<Token>, from: string)
    requires Lawful(ctx, ts)
  {
    && (ctx == AfterKey ==> !(":\"" + from <= Flat(ctx, ts)))
    && (ctx == KeyColon ==> !("\"" + from <= Flat(ctx, ts)))
  }

  lemma {:induction false} PlainFits(from: string, raw: string, rest: string)
    requires Plain(from) && from <= raw + "\"" + rest
    ensures from <= raw
  {
    if from != "" {
      assert (raw + "\"" + rest)[0] == from[0] != '"';
      assert (raw + "\"" + rest)[1..] == raw[1..] + "\"" + rest;
      PlainFits(from[1..], raw[1..], rest);
    }
  }

  lemma FlatFirst(ctx: Ctx, ts: seq<Token>)
    requires ts != [] && Lawful(ctx, ts)
    ensures TokenOk(ts[0]) && Next(ctx, ts[0]).Some? && Lawful(Next(ctx, ts[0]).value, ts[1..])
    ensures Flat(ctx, ts) == Print(ts[0]) + Flat(Next(ctx, ts[0]).value, ts[1..])
  {}

  lemma NotEmpty(ctx: Ctx, ts: seq<Token>)
    requires Lawful(ctx, ts) && Flat(ctx, ts) != ""
    ensures ts != []
  {}

  lemma OpensString(ts: seq<Token>, from: string)
    requires Lawful(KeyColon, ts) && "\"" + from <= Flat(KeyColon, ts) && Plain(from)
    ensures ts != [] && ts[0].Str? && from <= ts[0].raw && Lawful(AfterValue, ts[1..])
  {
    hide Escaped, Flat, Lawful, KeyMatches;
    var s := Flat(KeyColon, ts);
    PrefixSplit("\"", from, s);
    assert s[0] == '"';
    NotEmpty(KeyColon, ts);
    FlatFirst(KeyColon, ts);
    QuoteStarts(ts[0], Flat(Next(KeyColon, ts[0]).value, ts[1..]), s);
    PlainFits(from, ts[0].raw, Flat(AfterValue, ts[1..]));
  }

  lemma QuoteStarts(t: Token, rest: string, s: string)
    requires TokenOk(t) && s == Print(t) + rest && s[0] == '"'
    ensures t.Str? && s[1..] == t.raw + "\"" + rest
  {
    hide Escaped;
    assert s[0] == Print(t)[0];
    if t.Str? { Quoted(t.raw, rest); }
  }

  lemma OpensColon(ctx: Ctx, ts: seq<Token>, tail: string)
    requires Lawful(ctx, ts) && ctx == AfterKey && ":" + tail <= Flat(ctx, ts)
    ensures ts != [] && ts[0] == Mark(':') && Lawful(KeyColon, ts[1..]) && tail <= Flat(KeyColon, ts[1..])
  {
    hide Escaped, KeyMatches;
    PrefixSplit(":", tail, Flat(ctx, ts));
    assert Flat(ctx, ts)[0] == ':';
    assert Flat(ctx, ts)[1..] == Flat(KeyColon, ts[1..]);
  }

  /** The three tokens of a match: a key that ends in the right name, its colon, and a
      string that starts with `from`. */
  lemma MatchedTokens(ts: seq<Token>, from: string)
    requires Lawful(AfterKey, ts) && Plain(from) && ":\"" + from <= Flat(AfterKey, ts)
    ensures |ts| >= 2 && ts[0] == Mark(':') && ts[1].Str? && from <= ts[1].raw
    ensures Lawful(KeyColon, ts[1..]) && Lawful(AfterValue, ts[2..])
  {
    hide Escaped, KeyMatches, Flat, Lawful;
    assert ":\"" + from == ":" + ("\"" + from);
    OpensColon(AfterKey, ts, "\"" + from);
    OpensString(ts[1..], from);
    assert ts[1..][1..] == ts[2..];
  }

  lemma KeyTail(key: string, q: string)
    requires KeyMatches(key) && q == "\"" + key
    ensures |key| >= 7 && q[|key| - 7..] == "\"tarball"
  {
    if key == "tarball" { assert q == "\"tarball"; } else { assert q[|key| - 7..] == key[|key| - 8..]; }
  }

  lemma HeadParts()
    ensures Head() == "\"tarball" + "\":\""
  {}

  lemma KeyEnds(key: string)
    requires KeyMatches(key)
    ensures |key| >= 7 && ("\"" + key)[..|key| - 7] + Head() == "\"" + key + "\":\""
  {
    hide Head, KeyMatches;
    var q := "\"" + key;
    KeyTail(key, q);
    HeadParts();
    Assembled(q, q[..|key| - 7], q[|key| - 7..], "\":\"", Head());
  }

  lemma Assembled(q: string, a: string, b: string, c: string, head: string)
    requires q == a + b && head == b + c
    ensures a + head == q + c
  {}

  /** What is left of a value after its start has no match in it. */
  lemma RestOfValue(v: string, k: nat, tail: string, from: string, to: string)
    requires Escaped(v) && k <= |v| && Follows(tail) && !(":" <= tail)
    ensures ReplaceAll(v[k..] + "\"" + tail, Head() + from, Head() + to) ==
      v[k..] + "\"" + ReplaceAll(tail, Head() + from, Head() + to)
  {
    hide ReplaceAll, Escaped, Head, KeyMatches;
    Letters(0);
    var s, whole := v[k..] + "\"" + tail, "\"" + v + "\"" + tail;
    assert !(":\"" + from <= tail) by {
      assert ":\"" + from == ":" + ("\"" + from);
      PrefixSplit(":", "\"" + from, tail);
    }
    forall q | 0 <= q < |v| - k + 1 ensures !(Head() + from <= s[q..]) {
      assert s[q..] == whole[1 + k + q..];
      NoMatchIn(v, tail, from, 1 + k + q);
    }
    Skip(s, Head() + from, Head() + to, |v| - k + 1);
    assert s[|v| - k + 1..] == tail && s[..|v| - k + 1] == v[k..] + "\"";
  }

  lemma ReplaceHere(p: string, n: string, rest: string)
    requires p != ""
    ensures ReplaceAll(p + rest, p, n) == n + ReplaceAll(rest, p, n)
  {
    assert (p + rest)[|p|..] == rest;
  }

  /** Up to the match in a key nothing matches. */
  lemma KeySkips(key: string, rest: string, from: string, to: string)
    requires Escaped(key) && KeyMatches(key)
    ensures |key| >= 7
    ensures var s, pre := "\"" + key + "\":\"" + rest, ("\"" + key)[..|key| - 7];
      ReplaceAll(s, Head() + from, Head() + to) == pre + ReplaceAll(Head() + rest, Head() + from, Head() + to)
  {
    hide ReplaceAll, Escaped, Head, KeyMatches;
    Letters(0);
    KeyEnds(key);
    var s, pre := "\"" + key + "\":\"" + rest, ("\"" + key)[..|key| - 7];
    assert s == "\"" + key + "\"" + (":\"" + rest);
    forall q | 0 <= q < |key| - 7 ensures !(Head() + from <= s[q..]) {
      if Head() + from <= s[q..] { MatchInString(key, ":\"" + rest, from, q); }
    }
    Skip(s, Head() + from, Head() + to, |key| - 7);
    assert s == pre + (Head() + rest);
    assert s[..|key| - 7] == pre && s[|key| - 7..] == Head() + rest;
  }

  lemma Joined(pre: string, head: string, to: string, done: string, open: string)
    requires pre + head == open
    ensures pre + ((head + to) + done) == open + to + done
  {}

  lemma Parted(head: string, from: string, v: string, end: string, tail: string)
    requires from <= v
    ensures head + (v + end + tail) == (head + from) + (v[|from|..] + end + tail)
  {
    assert v == from + v[|from|..];
  }

  /** A match, and the rest of its value: `open` is the key up to the opening quote. */
  lemma MatchReplaced(key: string, open: string, v: string, tail: string, from: string, to: string)
    requires open == "\"" + key + "\":\""
    requires Escaped(key) && KeyMatches(key) && from <= v && Escaped(v) && Follows(tail) && !(":" <= tail)
    ensures ReplaceAll(open + (v + "\"" + tail), Head() + from, Head() + to)
      == open + to + (v[|from|..] + "\"" + ReplaceAll(tail, Head() + from, Head() + to))
  {
    hide ReplaceAll, Escaped, Head, KeyMatches, Follows;
    Letters(0);
    KeyEnds(key);
    KeySkips(key, v + "\"" + tail, from, to);
    Parted(Head(), from, v, "\"", tail);
    ReplaceHere(Head() + from, Head() + to, v[|from|..] + "\"" + tail);
    RestOfValue(v, |from|, tail, from, to);
    Joined(("\"" + key)[..|key| - 7], Head(), to, v[|from|..] + "\"" + ReplaceAll(tail, Head() + from, Head() + to),
      open);
  }

  /** Editing a token leaves it well formed and what may follow it the same. */
  lemma EditKeeps(ctx: Ctx, t: Token, from: string, to: string)
    requires TokenOk(t) && Next(ctx, t).Some? && Plain(from) && Plain(to)
    ensures TokenOk(Edit(ctx, t, from, to)) && Next(ctx, Edit(ctx, t, from, to)) == Next(ctx, t)
  {
    if ctx == KeyColon && t.Str? && from <= t.raw {
      var rest := t.raw[|from|..];
      assert t.raw == from + rest;
      EscapedJoin(from, rest);
      EscapedJoin(to, rest);
    }
  }

  lemma {:induction false} EditedLawful(ctx: Ctx, ts: seq<Token>, from: string, to: string)
    requires Lawful(ctx, ts) && Plain(from) && Plain(to)
    ensures Lawful(ctx, Edited(ctx, ts, from, to))
    decreases |ts|
  {
    hide TokenOk, Next, Edit;
    if ts != [] {
      EditKeeps(ctx, ts[0], from, to);
      EditedLawful(Next(ctx, ts[0]).value, ts[1..], from, to);
      var es := Edited(ctx, ts, from, to);
      assert es[0] == Edit(ctx, ts[0], from, to) && es[1..] == Edited(Next(ctx, ts[0]).value, ts[1..], from, to);
    }
  }

  /** Idle means that the token is not edited, and stays so past it. */
  lemma IdleStep(ctx: Ctx, ts: seq<Token>, from: string, to: string)
    requires ts != [] && Lawful(ctx, ts) && Idle(ctx, ts, from)
    requires var ctx' := Next(ctx, ts[0]).value;
      ts[0].Str? ==> !(KeyMatches(ts[0].raw) && ":\"" + from <= Flat(ctx', ts[1..]))
    ensures Edit(ctx, ts[0], from, to) == ts[0]
    ensures Idle(Next(ctx, ts[0]).value, ts[1..], from)
  {
    hide Escaped, KeyMatches, Flat, Lawful;
    FlatFirst(ctx, ts);
    var ctx', rest := Next(ctx, ts[0]).value, Flat(Next(ctx, ts[0]).value, ts[1..]);
    if ctx == KeyColon && ts[0].Str? { ValueOpens(ts[0].raw, rest, from); }
    if ctx' == KeyColon { ColonOpens(rest, from); }
  }

  lemma ValueOpens(raw: string, rest: string, from: string)
    ensures from <= raw ==> "\"" + from <= "\"" + raw + "\"" + rest
  {}

  lemma ColonOpens(rest: string, from: string)
    ensures "\"" + from <= rest ==> ":\"" + from <= [':'] + rest
  {
    assert ":\"" + from == ":" + ("\"" + from);
  }

  lemma ThreePrints(k: string, v: string, tail: string)
    ensures "\"" + k + "\"" + ([':'] + ("\"" + v + "\"" + tail)) == ("\"" + k + "\":\"") + (v + "\"" + tail)
  {
    assert "\"" + k + "\"" + [':'] + "\"" == "\"" + k + "\":\"";
  }

  ghost predicate Matching(ts: seq<Token>) {
    |ts| >= 3 && ts[0].Str? && KeyMatches(ts[0].raw) && ts[1] == Mark(':') && ts[2].Str?
  }

  lemma FlatThree(ts: seq<Token>)
    requires Matching(ts) && Lawful(Free, ts)
    ensures Lawful(AfterValue, ts[3..])
    ensures Flat(Free, ts) == ("\"" + ts[0].raw + "\":\"") + (ts[2].raw + "\"" + Flat(AfterValue, ts[3..]))
  {
    hide KeyMatches, Escaped, Flat, Lawful;
    FlatFirst(Free, ts);
    FlatFirst(AfterKey, ts[1..]);
    assert ts[1..][1..] == ts[2..] && ts[2..][1..] == ts[3..];
    FlatFirst(KeyColon, ts[2..]);
    ThreePrints(ts[0].raw, ts[2].raw, Flat(AfterValue, ts[3..]));
  }

  lemma EditedFirst(ctx: Ctx, ts: seq<Token>, from: string, to: string)
    requires ts != [] && Lawful(ctx, ts)
    ensures Next(ctx, ts[0]).Some? && Lawful(Next(ctx, ts[0]).value, ts[1..])
    ensures Edited(ctx, ts, from, to) ==
      [Edit(ctx, ts[0], from, to)] + Edited(Next(ctx, ts[0]).value, ts[1..], from, to)
  {}

  lemma EditedThree(ts: seq<Token>, from: string, to: string)
    requires Matching(ts) && Lawful(Free, ts) && from <= ts[2].raw && Lawful(AfterValue, ts[3..])
    ensures var es := Edited(Free, ts, from, to);
      && |es| >= 3 && es[0] == ts[0] && es[1] == ts[1] && es[2] == Str(to + ts[2].raw[|from|..])
      && es[3..] == Edited(AfterValue, ts[3..], from, to)
  {
    hide KeyMatches, Escaped, Edited, Lawful;
    EditedFirst(Free, ts, from, to);
    EditedFirst(AfterKey, ts[1..], from, to);
    assert ts[1..][1..] == ts[2..] && ts[2..][1..] == ts[3..];
    EditedFirst(KeyColon, ts[2..], from, to);
  }

  lemma MatchStep(ts: seq<Token>, from: string, to: string)
    requires Matching(ts) && Lawful(Free, ts) && from <= ts[2].raw && Plain(from) && Plain(to)
    requires Lawful(AfterValue, ts[3..]) && Lawful(AfterValue, Edited(AfterValue, ts[3..], from, to))
    requires ReplaceAll(Flat(AfterValue, ts[3..]), Head() + from, Head() + to) ==
      Flat(AfterValue, Edited(AfterValue, ts[3..], from, to))
    ensures Lawful(Free, Edited(Free, ts, from, to))
    ensures ReplaceAll(Flat(Free, ts), Head() + from, Head() + to) == Flat(Free, Edited(Free, ts, from, to))
  {
    EditedLawful(Free, ts, from, to);
    hide ReplaceAll, Escaped, Head, KeyMatches, Flat, Edited, Lawful, Follows;
    var key, v, tail := ts[0].raw, ts[2].raw, Flat(AfterValue, ts[3..]);
    var es := Edited(Free, ts, from, to);
    AfterString(AfterValue, ts[3..]);
    FlatFirst(Free, ts);
    ThirdIsOk(ts);
    MatchReplaced(key, "\"" + key + "\":\"", v, tail, from, to);
    FlatThree(ts);
    EditedThree(ts, from, to);
    FlatThree(es);
    Regroup("\"" + key + "\":\"", to, v[|from|..], "\"", Flat(AfterValue, es[3..]));
  }

  lemma Regroup(open: string, to: string, r: string, end: string, tail: string)
    ensures open + to + (r + end + tail) == open + ((to + r) + end + tail)
  {}

  lemma ThirdIsOk(ts: seq<Token>)
    requires Matching(ts) && Lawful(Free, ts)
    ensures Escaped(ts[2].raw)
  {
    hide KeyMatches, Escaped, Flat, Lawful;
    FlatFirst(Free, ts);
    FlatFirst(AfterKey, ts[1..]);
    assert ts[1..][1..] == ts[2..];
    FlatFirst(KeyColon, ts[2..]);
  }

  /** The byte replacement does to the document what editing does to its tokens. */
  lemma {:induction false} BytesAreTokens(ctx: Ctx, ts: seq<Token>, from: string, to: string)
    requires Lawful(ctx, ts) && Plain(from) && Plain(to) && Idle(ctx, ts, from)
    ensures Lawful(ctx, Edited(ctx, ts, from, to))
    ensures ReplaceAll(Flat(ctx, ts), Head() + from, Head() + to) == Flat(ctx, Edited(ctx, ts, from, to))
    decreases |ts|
  {
    hide ReplaceAll, Escaped, Head, KeyMatches, Flat, Idle;
    if ts == [] {
      NothingReplaced(ctx, from, to);
    } else {
      EditedLawful(ctx, ts, from, to);
      var ctx' := Next(ctx, ts[0]).value;
      if ts[0].Str? && KeyMatches(ts[0].raw) && ":\"" + from <= Flat(ctx', ts[1..]) {
        KeyIsFree(ctx, ts, from);
        MatchedTokens(ts[1..], from);
        assert ts[1..][2..] == ts[3..] && ts[1] == Mark(':') && ts[2] == ts[1..][1];
        NowIdle(ts[3..], from);
        BytesAreTokens(AfterValue, ts[3..], from, to);
        MatchStep(ts, from, to);
      } else {
        IdleStep(ctx, ts, from, to);
        TokenSkips(ctx, ts, from, to);
        BytesAreTokens(ctx', ts[1..], from, to);
        FlatFirst(ctx, Edited(ctx, ts, from, to));
      }
    }
  }

  lemma NothingReplaced(ctx: Ctx, from: string, to: string)
    ensures Lawful(ctx, []) && Edited(ctx, [], from, to) == []
    ensures ReplaceAll(Flat(ctx, []), Head() + from, Head() + to) == Flat(ctx, [])
  {}

  lemma NowIdle(ts: seq<Token>, from: string)
    requires Lawful(AfterValue, ts)
    ensures Idle(AfterValue, ts, from)
  {}

  /** A string with a colon right after it is a key. */
  lemma KeyIsFree(ctx: Ctx, ts: seq<Token>, from: string)
    requires ts != [] && Lawful(ctx, ts) && ts[0].Str? && KeyMatches(ts[0].raw)
    requires ":\"" + from <= Flat(Next(ctx, ts[0]).value, ts[1..])
    ensures ctx == Free && Next(ctx, ts[0]).value == AfterKey
  {
    hide KeyMatches, Escaped;
    assert ":\"" + from == ":" + ("\"" + from);
    PrefixSplit(":", "\"" + from, Flat(Next(ctx, ts[0]).value, ts[1..]));
    AfterString(Next(ctx, ts[0]).value, ts[1..]);
  }

  // --------------------------------------------------------------- token by token

  /** Where token i stands. */
  function CtxAt(ctx: Ctx, ts: seq<Token>, i: nat): Ctx
    requires Lawful(ctx, ts) && i <= |ts|
    decreases i
  {
    if i == 0 then ctx else CtxAt(Next(ctx, ts[0]).value, ts[1..], i - 1)
  }

  lemma {:induction false} CtxStep(ctx: Ctx, ts: seq<Token>, i: nat)
    requires Lawful(ctx, ts) && i < |ts|
    ensures Next(CtxAt(ctx, ts, i), ts[i]).Some? && CtxAt(ctx, ts, i + 1) == Next(CtxAt(ctx, ts, i), ts[i]).value
    decreases i
  {
    hide Next, TokenOk;
    if i > 0 { CtxStep(Next(ctx, ts[0]).value, ts[1..], i - 1); }
  }

  lemma CtxFirst(ctx: Ctx, ts: seq<Token>, i: nat)
    requires ts != [] && Lawful(ctx, ts) && 0 < i <= |ts|
    ensures Next(ctx, ts[0]).Some? && Lawful(Next(ctx, ts[0]).value, ts[1..])
    ensures CtxAt(ctx, ts, i) == CtxAt(Next(ctx, ts[0]).value, ts[1..], i - 1)
  {}

  lemma CtxNow(ctx: Ctx, ts: seq<Token>)
    requires Lawful(ctx, ts)
    ensures CtxAt(ctx, ts, 0) == ctx
  {}

  lemma {:induction false} EditedAt(ctx: Ctx, ts: seq<Token>, from: string, to: string, i: nat)
    requires Lawful(ctx, ts) && i < |ts| && Plain(from) && Plain(to)
    ensures Edited(ctx, ts, from, to)[i] == Edit(CtxAt(ctx, ts, i), ts[i], from, to)
    ensures Lawful(ctx, Edited(ctx, ts, from, to)) && CtxAt(ctx, Edited(ctx, ts, from, to), i) == CtxAt(ctx, ts, i)
    decreases i
  {
    hide Next, TokenOk, Edit, Flat, Lawful, CtxAt, Edited, Plain;
    var es := Edited(ctx, ts, from, to);
    EditedLawful(ctx, ts, from, to);
    EditedFirst(ctx, ts, from, to);
    FlatFirst(ctx, ts);
    EditKeeps(ctx, ts[0], from, to);
    if i == 0 {
      CtxNow(ctx, ts);
      CtxNow(ctx, es);
    } else {
      EditedAt(Next(ctx, ts[0]).value, ts[1..], from, to, i - 1);
      CtxFirst(ctx, ts, i);
      CtxFirst(ctx, es, i);
      assert es[1..] == Edited(Next(ctx, ts[0]).value, ts[1..], from, to);
    }
  }

  /** Only the string right after the colon right after a tarball key is ever edited. */
  lemma ValueOfKey(ts: seq<Token>, i: nat)
    requires Lawful(Free, ts) && i < |ts| && CtxAt(Free, ts, i) == KeyColon
    ensures i >= 2 && ts[i - 1] == Mark(':') && ts[i - 2].Str? && KeyMatches(ts[i - 2].raw)
  {
    hide KeyMatches, TokenOk;
    assert CtxAt(Free, ts, 0) == Free;
    CtxStep(Free, ts, i - 1);
    if i >= 2 { CtxStep(Free, ts, i - 2); }
  }

  /** No tarball value starts with `from`. */
  ghost predicate NoneLeft(ts: seq<Token>, from: string)
    requires Lawful(Free, ts)
  {
    forall i | 0 <= i < |ts| && CtxAt(Free, ts, i) == KeyColon && ts[i].Str? :: !(from <= ts[i].raw)
  }

  lemma EditLeavesNone(ts: seq<Token>, from: string, to: string, other: string)
    requires Lawful(Free, ts) && Plain(from) && Plain(to)
    requires !(other <= to) && !(to <= other) && (other == from || NoneLeft(ts, other))
    ensures Lawful(Free, Edited(Free, ts, from, to)) && NoneLeft(Edited(Free, ts, from, to), other)
  {
    EditedLawful(Free, ts, from, to);
    var es := Edited(Free, ts, from, to);
    forall i | 0 <= i < |es| && CtxAt(Free, es, i) == KeyColon && es[i].Str? ensures !(other <= es[i].raw) {
      EditedAt(Free, ts, from, to, i);
      if ts[i].Str? && from <= ts[i].raw && other <= es[i].raw { PrefixesMeet(other, to, ts[i].raw[|from|..]); }
    }
  }

  // ------------------------------------------------------------- rewriteTarballs

  /** The registry's address as documents write it. */
  function Registries(upstream: string): seq<string> {
    var reg := Text.TrimSlash(upstream);
    if "https://" <= reg then [reg + "/", "http://" + reg[8..] + "/"] else [reg + "/"]
  }

  function ReplaceEach(body: string, froms: seq<string>, to: string): string
    decreases |froms|
  {
    if froms == [] then body else ReplaceEach(ReplaceAll(body, Head() + froms[0], Head() + to), froms[1..], to)
  }

  function EditEach(ts: seq<Token>, froms: seq<string>, to: string): (es: seq<Token>)
    requires Lawful(Free, ts) && Plain(to) && forall i | 0 <= i < |froms| :: Plain(froms[i])
    ensures Lawful(Free, es) && |es| == |ts|
    decreases |froms|
  {
    if froms == [] then ts else
    EditedLawful(Free, ts, froms[0], to);
    EditEach(Edited(Free, ts, froms[0], to), froms[1..], to)
  }

  /** What becomes of the value of a tarball key. */
  function EditValue(raw: string, froms: seq<string>, to: string): string
    decreases |froms|
  {
    if froms == [] then raw
    else EditValue(if froms[0] <= raw then to + raw[|froms[0]|..] else raw, froms[1..], to)
  }

  /** Through every address: a tarball's value becomes that, and all else is as it was. */
  lemma {:induction false} EditEachAt(ts: seq<Token>, froms: seq<string>, to: string, i: nat)
    requires Lawful(Free, ts) && i < |ts| && Plain(to) && forall k | 0 <= k < |froms| :: Plain(froms[k])
    ensures EditEach(ts, froms, to)[i] ==
      if CtxAt(Free, ts, i) == KeyColon && ts[i].Str? then Str(EditValue(ts[i].raw, froms, to)) else ts[i]
    decreases |froms|
  {
    hide Lawful, CtxAt, Edited, Plain;
    if froms != [] {
      EditedAt(Free, ts, froms[0], to, i);
      EditEachAt(Edited(Free, ts, froms[0], to), froms[1..], to, i);
    }
  }

  /** bytes.Contains. */
  predicate Contains(s: string, part: string) { exists q :: 0 <= q <= |s| && part <= s[q..] }

  lemma NotContained(s: string, part: string, repl: string)
    requires part != "" && !Contains(s, part)
    ensures ReplaceAll(s, part, repl) == s
  {
    forall q | 0 <= q < |s| ensures !(part <= s[q..]) {}
    Skip(s, part, repl, |s|);
    assert s[..|s|] + "" == s && s[|s|..] == "";
  }

  method RewriteTarballs(body: string, upstream: string, base: string) returns (out: string)
    ensures out == ReplaceEach(body, Registries(upstream), base + "/")
  {
    hide ReplaceAll, Head;
    Letters(0);
    var reg := Text.TrimSlash(upstream);
    var from := [reg + "/"];
    if |reg| >= 8 && reg[..8] == "https://" {
      from := from + ["http://" + reg[8..] + "/"];
    }
    assert from == Registries(upstream);
    var to := base + "/";
    out := body;
    var i := 0;
    while i < |from|
      invariant 0 <= i <= |from|
      invariant ReplaceEach(body, from, to) == ReplaceEach(out, from[i..], to)
    {
      assert from[i..][1..] == from[i + 1..];
      if Contains(out, Head() + from[i]) {
        out := ReplaceAll(out, Head() + from[i], Head() + to);
      } else {
        NotContained(out, Head() + from[i], Head() + to);
      }
      i := i + 1;
    }
  }

  lemma NowFree(ts: seq<Token>, from: string)
    requires Lawful(Free, ts)
    ensures Idle(Free, ts, from)
  {}

  /** On a JSON document the byte replacement changes exactly the values of tarball keys
      that start with a registry address, and in them only that. */
  lemma {:induction false} RewritingIsEditing(ts: seq<Token>, froms: seq<string>, to: string)
    requires Lawful(Free, ts) && Plain(to) && forall i | 0 <= i < |froms| :: Plain(froms[i])
    ensures ReplaceEach(Flat(Free, ts), froms, to) == Flat(Free, EditEach(ts, froms, to))
    decreases |froms|
  {
    hide Idle, Flat, Head, ReplaceAll, Lawful, Plain;
    if froms != [] {
      NowFree(ts, froms[0]);
      BytesAreTokens(Free, ts, froms[0], to);
      RewritingIsEditing(Edited(Free, ts, froms[0], to), froms[1..], to);
    }
  }

  /** If no registry address is a prefix of the base address or the other way round,
      none is left. */
  lemma {:induction false} NoRegistryIsLeft(ts: seq<Token>, froms: seq<string>, to: string, other: string)
    requires Lawful(Free, ts) && Plain(to) && forall i | 0 <= i < |froms| :: Plain(froms[i])
    requires !(other <= to) && !(to <= other) && (other in froms || NoneLeft(ts, other))
    ensures NoneLeft(EditEach(ts, froms, to), other)
    decreases |froms|
  {
    hide Lawful, Plain, NoneLeft, Edited;
    if froms != [] {
      var es := Edited(Free, ts, froms[0], to);
      EditedLawful(Free, ts, froms[0], to);
      if other == froms[0] || NoneLeft(ts, other) { EditLeavesNone(ts, froms[0], to, other); }
      NoRegistryIsLeft(es, froms[1..], to, other);
    }
  }
}
