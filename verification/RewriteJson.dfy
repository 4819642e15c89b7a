/** The rewriting of tarball URLs, on JSON values with all their white space. */
module RewriteJson {
  import opened Common
  import opened Rewrite
  import Text

  datatype Json = Scalar(text: string) | Text(raw: string) | Arr(gap: string, items: Items) | Obj(gap: string,
      members: Members)

  datatype Items = NoItems | Item(before: string, value: Json, after: string, rest: Items)

  datatype Members = NoMembers | Member(before: string, key: string, mid: string, pre: string, value: Json,
      after: string, rest: Members)

  predicate IsGap(s: string) { forall i | 0 <= i < |s| :: s[i] in " \t\n\r" }

  predicate JsonOk(v: Json) {
    match v
    case Scalar(text) => TokenOk(Word(text))
    case Text(raw) => Escaped(raw)
    case Arr(gap, items) => IsGap(gap) && ItemsOk(items)
    case Obj(gap, members) => IsGap(gap) && MembersOk(members)
  }

  predicate ItemsOk(items: Items) {
    items.Item? ==> IsGap(items.before) && JsonOk(items.value) && IsGap(items.after) && ItemsOk(items.rest)
  }

  predicate MembersOk(ms: Members) {
    ms.Member? ==>
      && IsGap(ms.before) && Escaped(ms.key) && IsGap(ms.mid) && IsGap(ms.pre)
      && JsonOk(ms.value) && IsGap(ms.after) && MembersOk(ms.rest)
  }

  function Gap(s: string): seq<Token> { if s == "" then [] else [Mark(s[0])] + Gap(s[1..]) }

  function Tokens(v: Json): seq<Token> {
    match v
    case Scalar(text) => [Word(text)]
    case Text(raw) => [Str(raw)]
    case Arr(gap, items) => [Mark('[')] + (Gap(gap) + (ItemTokens(items) + [Mark(']')]))
    case Obj(gap, members) => [Mark('{')] + (Gap(gap) + (MemberTokens(members) + [Mark('}')]))
  }

  function Comma(last: bool): seq<Token> { if last then [] else [Mark(',')] }

  function ItemTokens(items: Items): seq<Token> {
    match items
    case NoItems => []
    case Item(before, value, after, rest) =>
      Gap(before) + (Tokens(value) + (Gap(after) + (Comma(rest.NoItems?) + ItemTokens(rest))))
  }

  function MemberTokens(ms: Members): seq<Token> {
    match ms
    case NoMembers => []
    case Member(before, key, mid, pre, value, after, rest) =>
      Gap(before) + ([Str(key)] + (Gap(mid) + ([Mark(':')] + (Gap(pre) +
        (Tokens(value) + (Gap(after) + (Comma(rest.NoMembers?) + MemberTokens(rest))))))))
  }

  /** The member is a tarball's, written with no space around its colon. */
  predicate Keyed(key: string, mid: string, pre: string) { KeyMatches(key) && mid == "" && pre == "" }

  /** `keyed`: the value is a tarball member's. */
  function EditJson(v: Json, keyed: bool, from: string, to: string): Json {
    match v
    case Scalar(_) => v
    case Text(raw) => if keyed && from <= raw then Text(to + raw[|from|..]) else v
    case Arr(gap, items) => Arr(gap, EditItems(items, from, to))
    case Obj(gap, members) => Obj(gap, EditMembers(members, from, to))
  }

  function EditItems(items: Items, from: string, to: string): Items {
    match items
    case NoItems => NoItems
    case Item(before, value, after, rest) => Item(before, EditJson(value, false, from, to), after,
      EditItems(rest, from, to))
  }

  function EditMembers(ms: Members, from: string, to: string): Members {
    match ms
    case NoMembers => NoMembers
    case Member(before, key, mid, pre, value, after, rest) =>
      Member(before, key, mid, pre, EditJson(value, Keyed(key, mid, pre), from, to), after, EditMembers(rest, from, to))
  }

  // --------------------------------------------------------------- runs of tokens

  /** Where these tokens lead. */
  function After(ctx: Ctx, ts: seq<Token>): Ctx
    requires Lawful(ctx, ts)
    decreases |ts|
  {
    if ts == [] then ctx else After(Next(ctx, ts[0]).value, ts[1..])
  }

  /** From ctx to ctx', ts is lawful and edits to es. */
  ghost predicate Turns(ctx: Ctx, ts: seq<Token>, ctx': Ctx, es: seq<Token>, from: string, to: string) {
    Lawful(ctx, ts) && After(ctx, ts) == ctx' && Edited(ctx, ts, from, to) == es
  }

  lemma {:induction false} TurnsOn(a: Ctx, ts: seq<Token>, b: Ctx, es: seq<Token>, ts': seq<Token>, c: Ctx,
      es': seq<Token>, from: string, to: string)
    requires Turns(a, ts, b, es, from, to) && Turns(b, ts', c, es', from, to)
    ensures Turns(a, ts + ts', c, es + es', from, to)
    decreases |ts|
  {
    hide Next, TokenOk, Edit;
    if ts == [] {
      assert ts + ts' == ts' && es + es' == es';
    } else {
      assert (ts + ts')[1..] == ts[1..] + ts';
      TurnsOn(Next(a, ts[0]).value, ts[1..], b, es[1..], ts', c, es', from, to);
      assert es + es' == [es[0]] + (es[1..] + es');
    }
  }

  lemma TurnOne(ctx: Ctx, t: Token, from: string, to: string)
    requires TokenOk(t) && Next(ctx, t).Some?
    ensures Turns(ctx, [t], Next(ctx, t).value, [Edit(ctx, t, from, to)], from, to)
  {
    hide TokenOk, Next, Edit;
    assert [t][1..] == [];
    TurnNone(Next(ctx, t).value, from, to);
    assert Lawful(ctx, [t]);
    assert Edited(ctx, [t], from, to) == [Edit(ctx, t, from, to)] + [];
  }

  lemma TurnNone(ctx: Ctx, from: string, to: string)
    ensures Turns(ctx, [], ctx, [], from, to)
  {}

  lemma {:induction false} TurnGap(ctx: Ctx, gap: string, from: string, to: string)
    requires IsGap(gap)
    ensures Turns(ctx, Gap(gap), if gap == "" then ctx else Free, Gap(gap), from, to)
    decreases |gap|
  {
    if gap == "" {
      TurnNone(ctx, from, to);
    } else {
      TurnOne(ctx, Mark(gap[0]), from, to);
      TurnGap(Free, gap[1..], from, to);
      TurnsOn(ctx, [Mark(gap[0])], Free, [Mark(gap[0])], Gap(gap[1..]), Free, Gap(gap[1..]), from, to);
    }
  }

  /** Where a value can stand: at the start, after a bracket, a comma, white space or a
      colon. */
  predicate Open(ctx: Ctx) { ctx in {Free, Colon, KeyColon} }

  ghost predicate Good(from: string, to: string) { Plain(from) && Plain(to) }

  lemma {:induction false} ValueTurns(ctx: Ctx, v: Json, from: string, to: string) returns (ctx': Ctx)
    requires JsonOk(v) && Open(ctx) && Good(from, to)
    ensures Turns(ctx, Tokens(v), ctx', Tokens(EditJson(v, ctx == KeyColon, from, to)), from, to)
    decreases v
  {
    hide Turns, Escaped, KeyMatches, Good, Gap;
    match v
    case Scalar(text) => ctx' := One(ctx, Word(text), from, to);
    case Text(raw) => ctx' := One(ctx, Str(raw), from, to);
    case Arr(gap, items) =>
      var c := ItemsTurn(items, from, to);
      Bracket(ctx, '[', gap, ItemTokens(items), c, ItemTokens(EditItems(items, from, to)), ']', from, to);
      ctx' := Free;
    case Obj(gap, members) =>
      var c := MembersTurn(members, from, to);
      Bracket(ctx, '{', gap, MemberTokens(members), c, MemberTokens(EditMembers(members, from, to)), '}', from, to);
      ctx' := Free;
  }

  lemma One(ctx: Ctx, t: Token, from: string, to: string) returns (ctx': Ctx)
    requires Open(ctx) && (t.Word? || t.Str?) && TokenOk(t)
    ensures Turns(ctx, [t], ctx', [Edit(ctx, t, from, to)], from, to)
  {
    hide Escaped, KeyMatches, Turns;
    TurnOne(ctx, t, from, to);
    ctx' := Next(ctx, t).value;
  }

  lemma TurnMark(ctx: Ctx, c: char, from: string, to: string)
    requires c in MARKS && c != ':'
    ensures Turns(ctx, [Mark(c)], Free, [Mark(c)], from, to)
  {
    TurnOne(ctx, Mark(c), from, to);
  }

  lemma Bracket(ctx: Ctx, open: char, gap: string, ts: seq<Token>, c: Ctx, es: seq<Token>, close: char, from: string,
      to: string)
    requires IsGap(gap) && Turns(Free, ts, c, es, from, to) && open in "[{" && close in "]}"
    ensures Turns(ctx, [Mark(open)] + (Gap(gap) + (ts + [Mark(close)])), Free,
      [Mark(open)] + (Gap(gap) + (es + [Mark(close)])), from, to)
  {
    hide Turns, Gap;
    TurnMark(ctx, open, from, to);
    TurnGap(Free, gap, from, to);
    TurnMark(c, close, from, to);
    TurnsOn(Free, ts, c, es, [Mark(close)], Free, [Mark(close)], from, to);
    TurnsOn(Free, Gap(gap), Free, Gap(gap), ts + [Mark(close)], Free, es + [Mark(close)], from, to);
    TurnsOn(ctx, [Mark(open)], Free, [Mark(open)], Gap(gap) + (ts + [Mark(close)]), Free,
      Gap(gap) + (es + [Mark(close)]), from, to);
  }

  /** White space, a comma, and what comes after it. */
  lemma Rest(ctx: Ctx, after: string, last: bool, ts: seq<Token>, c: Ctx, es: seq<Token>, from: string, to: string)
      returns (ctx': Ctx)
    requires IsGap(after) && (last ==> ts == [] && es == []) && Turns(Free, ts, c, es, from, to)
    ensures Turns(ctx, Gap(after) + (Comma(last) + ts), ctx', Gap(after) + (Comma(last) + es), from, to)
  {
    hide Turns, Gap;
    TurnGap(ctx, after, from, to);
    var mid := if after == "" then ctx else Free;
    if last {
      TurnNone(mid, from, to);
      assert Comma(last) + ts == [] && Comma(last) + es == [];
      TurnsOn(ctx, Gap(after), mid, Gap(after), [], mid, [], from, to);
      ctx' := mid;
    } else {
      TurnMark(mid, ',', from, to);
      TurnsOn(mid, [Mark(',')], Free, [Mark(',')], ts, c, es, from, to);
      TurnsOn(ctx, Gap(after), mid, Gap(after), [Mark(',')] + ts, c, [Mark(',')] + es, from, to);
      ctx' := c;
    }
  }

  lemma {:induction false} ItemsTurn(items: Items, from: string, to: string) returns (ctx': Ctx)
    requires ItemsOk(items) && Good(from, to)
    ensures Turns(Free, ItemTokens(items), ctx', ItemTokens(EditItems(items, from, to)), from, to)
    decreases items
  {
    hide Turns, Escaped, KeyMatches, Good, Gap, Comma;
    match items
    case NoItems =>
      TurnNone(Free, from, to);
      ctx' := Free;
    case Item(before, value, after, rest) =>
      TurnGap(Free, before, from, to);
      var c1 := ValueTurns(Free, value, from, to);
      var c2 := ItemsTurn(rest, from, to);
      var c3 := Rest(c1, after, rest.NoItems?, ItemTokens(rest), c2, ItemTokens(EditItems(rest, from, to)), from, to);
      var tail, tail' := Gap(after) + (Comma(rest.NoItems?) + ItemTokens(rest)),
        Gap(after) + (Comma(rest.NoItems?) + ItemTokens(EditItems(rest, from, to)));
      TurnsOn(Free, Tokens(value), c1, Tokens(EditJson(value, false, from, to)), tail, c3, tail', from, to);
      TurnsOn(Free, Gap(before), Free, Gap(before), Tokens(value) + tail, c3,
        Tokens(EditJson(value, false, from, to)) + tail', from, to);
      ctx' := c3;
  }

  /** Where a member's value stands. */
  function ValueCtx(key: string, mid: string, pre: string): (ctx: Ctx)
    ensures Open(ctx) && (ctx == KeyColon <==> Keyed(key, mid, pre))
  {
    if pre != "" then Free else if mid == "" && KeyMatches(key) then KeyColon else Colon
  }

  /** A key, its colon, and the white space around it. */
  lemma KeyTurns(before: string, key: string, mid: string, pre: string, ts: seq<Token>, c: Ctx, es: seq<Token>,
      from: string, to: string)
    requires IsGap(before) && Escaped(key) && IsGap(mid) && IsGap(pre)
    requires Turns(ValueCtx(key, mid, pre), ts, c, es, from, to)
    ensures
      Turns(Free, Gap(before) + ([Str(key)] + (Gap(mid) + ([Mark(':')] + (Gap(pre) + ts)))), c,
                  Gap(before) + ([Str(key)] + (Gap(mid) + ([Mark(':')] + (Gap(pre) + es)))), from, to)
  {
    hide Turns, Gap, Escaped, KeyMatches, Keyed;
    var k := if KeyMatches(key) then AfterKey else AfterWord;
    TurnGap(Free, before, from, to);
    TurnOne(Free, Str(key), from, to);
    TurnGap(k, mid, from, to);
    var m := if mid == "" then k else Free;
    var colon := if m == AfterKey then KeyColon else Colon;
    TurnOne(m, Mark(':'), from, to);
    TurnGap(colon, pre, from, to);
    var at := ValueCtx(key, mid, pre);
    TurnsOn(colon, Gap(pre), at, Gap(pre), ts, c, es, from, to);
    TurnsOn(m, [Mark(':')], colon, [Mark(':')], Gap(pre) + ts, c, Gap(pre) + es, from, to);
    TurnsOn(k, Gap(mid), m, Gap(mid), [Mark(':')] + (Gap(pre) + ts), c, [Mark(':')] + (Gap(pre) + es), from, to);
    var ts', es' := Gap(mid) + ([Mark(':')] + (Gap(pre) + ts)), Gap(mid) + ([Mark(':')] + (Gap(pre) + es));
    TurnsOn(Free, [Str(key)], k, [Str(key)], ts', c, es', from, to);
    TurnsOn(Free, Gap(before), Free, Gap(before), [Str(key)] + ts', c, [Str(key)] + es', from, to);
  }

  lemma {:induction false} MembersTurn(ms: Members, from: string, to: string) returns (ctx': Ctx)
    requires MembersOk(ms) && Good(from, to)
    ensures Turns(Free, MemberTokens(ms), ctx', MemberTokens(EditMembers(ms, from, to)), from, to)
    decreases ms
  {
    hide Turns, Escaped, KeyMatches, Good, Gap, Comma, Keyed, ValueCtx;
    match ms
    case NoMembers =>
      TurnNone(Free, from, to);
      ctx' := Free;
    case Member(before, key, mid, pre, value, after, rest) =>
      var at := ValueCtx(key, mid, pre);
      var c1 := ValueTurns(at, value, from, to);
      var c2 := MembersTurn(rest, from, to);
      var c3 := Rest(c1, after, rest.NoMembers?, MemberTokens(rest), c2, MemberTokens(EditMembers(rest, from, to)),
        from, to);
      var tail, tail' := Gap(after) + (Comma(rest.NoMembers?) + MemberTokens(rest)),
        Gap(after) + (Comma(rest.NoMembers?) + MemberTokens(EditMembers(rest, from, to)));
      var val := EditJson(value, Keyed(key, mid, pre), from, to);
      TurnsOn(at, Tokens(value), c1, Tokens(val), tail, c3, tail', from, to);
      KeyTurns(before, key, mid, pre, Tokens(value) + tail, c3, Tokens(val) + tail', from, to);
      ctx' := c3;
  }

  // -------------------------------------------------------------- whole documents

  /** A JSON text: a value with white space around it. */
  function DocTokens(before: string, v: Json, after: string): seq<Token> { Gap(before) + (Tokens(v) + Gap(after)) }

  lemma DocTurns(before: string, v: Json, after: string, from: string, to: string) returns (c: Ctx)
    requires IsGap(before) && JsonOk(v) && IsGap(after) && Good(from, to)
    ensures Turns(Free, DocTokens(before, v, after), c, DocTokens(before, EditJson(v, false, from, to), after), from,
      to)
  {
    hide Turns, Gap, Tokens, EditJson;
    TurnGap(Free, before, from, to);
    var c1 := ValueTurns(Free, v, from, to);
    TurnGap(c1, after, from, to);
    c := if after == "" then c1 else Free;
    var v' := EditJson(v, false, from, to);
    TurnsOn(Free, Tokens(v), c1, Tokens(v'), Gap(after), c, Gap(after), from, to);
    TurnsOn(Free, Gap(before), Free, Gap(before), Tokens(v) + Gap(after), c, Tokens(v') + Gap(after), from, to);
  }

  /** The text of a JSON document. */
  function Document(before: string, v: Json, after: string): string
    requires IsGap(before) && JsonOk(v) && IsGap(after)
  {
    DocLawful(before, v, after);
    Flat(Free, DocTokens(before, v, after))
  }

  lemma DocLawful(before: string, v: Json, after: string)
    requires IsGap(before) && JsonOk(v) && IsGap(after)
    ensures Lawful(Free, DocTokens(before, v, after))
  {
    var c := DocTurns(before, v, after, "", "");
  }

  lemma {:induction false} EditJsonOk(v: Json, keyed: bool, from: string, to: string)
    requires JsonOk(v) && Good(from, to)
    ensures JsonOk(EditJson(v, keyed, from, to))
    decreases v
  {
    hide Keyed, Escaped, IsGap, TokenOk;
    match v
    case Scalar(_) =>
    case Text(raw) => if keyed && from <= raw { TextOk(raw, from, to); }
    case Arr(_, items) => EditItemsOk(items, from, to);
    case Obj(_, members) => EditMembersOk(members, from, to);
  }

  lemma TextOk(raw: string, from: string, to: string)
    requires Escaped(raw) && from <= raw && Good(from, to)
    ensures Escaped(to + raw[|from|..])
  {
    assert raw == from + raw[|from|..];
    EscapedJoin(from, raw[|from|..]);
    EscapedJoin(to, raw[|from|..]);
  }

  lemma {:induction false} EditItemsOk(items: Items, from: string, to: string)
    requires ItemsOk(items) && Good(from, to)
    ensures ItemsOk(EditItems(items, from, to))
    decreases items
  {
    hide IsGap;
    if items.Item? {
      EditJsonOk(items.value, false, from, to);
      EditItemsOk(items.rest, from, to);
    }
  }

  lemma {:induction false} EditMembersOk(ms: Members, from: string, to: string)
    requires MembersOk(ms) && Good(from, to)
    ensures MembersOk(EditMembers(ms, from, to))
    decreases ms
  {
    hide IsGap, Keyed, Escaped;
    if ms.Member? {
      EditJsonOk(ms.value, Keyed(ms.key, ms.mid, ms.pre), from, to);
      EditMembersOk(ms.rest, from, to);
    }
  }

  function EditJsonEach(v: Json, froms: seq<string>, to: string): Json
    decreases |froms|
  {
    if froms == [] then v else EditJsonEach(EditJson(v, false, froms[0], to), froms[1..], to)
  }

  /** rewriteTarballs on a packument is an edit of its JSON value: the same members in
      the same places and white space, and of the tarball members the strings that start
      with a registry address start with the base address instead. */
  lemma {:induction false} RewritingEditsJson(before: string, v: Json, after: string, froms: seq<string>, to: string)
    requires IsGap(before) && JsonOk(v) && IsGap(after) && Plain(to) && forall i | 0 <= i < |froms| :: Plain(froms[i])
    ensures JsonOk(EditJsonEach(v, froms, to))
    ensures ReplaceEach(Document(before, v, after), froms, to) == Document(before, EditJsonEach(v, froms, to), after)
    decreases |froms|
  {
    hide Flat, Head, ReplaceAll, Plain, IsGap, JsonOk, EditJson, DocTokens, Lawful, Idle, Edited;
    if froms != [] {
      assert Good(froms[0], to) && Plain(froms[0]);
      DocEdited(before, v, after, froms[0], to);
      RewritingEditsJson(before, EditJson(v, false, froms[0], to), after, froms[1..], to);
    }
  }

  lemma DocEdited(before: string, v: Json, after: string, from: string, to: string)
    requires IsGap(before) && JsonOk(v) && IsGap(after) && Plain(from) && Plain(to)
    ensures JsonOk(EditJson(v, false, from, to))
    ensures ReplaceAll(Document(before, v, after), Head() + from, Head() + to) ==
      Document(before, EditJson(v, false, from, to), after)
  {
    hide Flat, Head, ReplaceAll, Plain, IsGap, JsonOk, EditJson, DocTokens, Lawful, Idle, Edited;
    EditJsonOk(v, false, from, to);
    DocLawful(before, v, after);
    var c := DocTurns(before, v, after, from, to);
    NowFree(DocTokens(before, v, after), from);
    BytesAreTokens(Free, DocTokens(before, v, after), from, to);
  }

  lemma PlainRegistries(upstream: string)
    requires Plain(upstream)
    ensures forall i | 0 <= i < |Registries(upstream)| :: Plain(Registries(upstream)[i])
  {
    var reg := Text.TrimSlash(upstream);
    assert Plain(reg);
    assert "https://" <= reg ==> Plain(reg[8..]);
  }

  /** What rewriteTarballs answers for a packument, a registry's URL and an address. */
  lemma PackumentIsEdited(before: string, v: Json, after: string, upstream: string, base: string)
    requires IsGap(before) && JsonOk(v) && IsGap(after) && Plain(upstream) && Plain(base)
    ensures JsonOk(EditJsonEach(v, Registries(upstream), base + "/"))
    ensures ReplaceEach(Document(before, v, after), Registries(upstream), base + "/")
      == Document(before, EditJsonEach(v, Registries(upstream), base + "/"), after)
  {
    hide IsGap, JsonOk, Registries, Document, EditJsonEach;
    PlainRegistries(upstream);
    assert Plain(base + "/");
    RewritingEditsJson(before, v, after, Registries(upstream), base + "/");
  }
}
