/** Which members of a packument the rewriting of tarball URLs changes. */
module TarballMembers {
  import opened Common
  import opened Rewrite
  import opened RewriteJson
  import Text

  /** The member at which a value stands is edited. `exact`: only if its key is `tarball`;
      otherwise also if it only looks like it in the bytes. */
  predicate Chosen(exact: bool, key: string, mid: string, pre: string) {
    Keyed(key, mid, pre) && (exact ==> key == "tarball")
  }

  /** All the addresses in one pass over the value. */
  function Edits(v: Json, chosen: bool, exact: bool, froms: seq<string>, to: string): Json {
    match v
    case Scalar(_) => v
    case Text(raw) => if chosen then Json.Text(EditValue(raw, froms, to)) else v
    case Arr(gap, items) => Arr(gap, EditsItems(items, exact, froms, to))
    case Obj(gap, members) => Obj(gap, EditsMembers(members, exact, froms, to))
  }

  function EditsItems(items: Items, exact: bool, froms: seq<string>, to: string): Items {
    match items
    case NoItems => NoItems
    case Item(before, value, after, rest) =>
      Item(before, Edits(value, false, exact, froms, to), after, EditsItems(rest, exact, froms, to))
  }

  function EditsMembers(ms: Members, exact: bool, froms: seq<string>, to: string): Members {
    match ms
    case NoMembers => NoMembers
    case Member(before, key, mid, pre, value, after, rest) =>
      Member(before, key, mid, pre, Edits(value, Chosen(exact, key, mid, pre), exact, froms, to), after,
             EditsMembers(rest, exact, froms, to))
  }

  // ------------------------------------------------- one pass is as good as one for each

  lemma {:induction false} NoneEdits(v: Json, chosen: bool, to: string)
    ensures Edits(v, chosen, false, [], to) == v
    decreases v
  {
    match v
    case Scalar(_) =>
    case Text(_) =>
    case Arr(_, items) => NoneEditsItems(items, to);
    case Obj(_, members) => NoneEditsMembers(members, to);
  }

  lemma {:induction false} NoneEditsItems(items: Items, to: string)
    ensures EditsItems(items, false, [], to) == items
    decreases items
  {
    if items.Item? {
      NoneEdits(items.value, false, to);
      NoneEditsItems(items.rest, to);
    }
  }

  lemma {:induction false} NoneEditsMembers(ms: Members, to: string)
    ensures EditsMembers(ms, false, [], to) == ms
    decreases ms
  {
    hide Keyed;
    if ms.Member? {
      NoneEdits(ms.value, Keyed(ms.key, ms.mid, ms.pre), to);
      NoneEditsMembers(ms.rest, to);
    }
  }

  lemma {:induction false} FirstEdits(v: Json, chosen: bool, froms: seq<string>, to: string)
    requires froms != []
    ensures Edits(EditJson(v, chosen, froms[0], to), chosen, false, froms[1..], to) ==
      Edits(v, chosen, false, froms, to)
    decreases v
  {
    match v
    case Scalar(_) =>
    case Text(_) =>
    case Arr(_, items) => FirstEditsItems(items, froms, to);
    case Obj(_, members) => FirstEditsMembers(members, froms, to);
  }

  lemma {:induction false} FirstEditsItems(items: Items, froms: seq<string>, to: string)
    requires froms != []
    ensures EditsItems(EditItems(items, froms[0], to), false, froms[1..], to) == EditsItems(items, false, froms, to)
    decreases items
  {
    if items.Item? {
      FirstEdits(items.value, false, froms, to);
      FirstEditsItems(items.rest, froms, to);
    }
  }

  lemma {:induction false} FirstEditsMembers(ms: Members, froms: seq<string>, to: string)
    requires froms != []
    ensures EditsMembers(EditMembers(ms, froms[0], to), false, froms[1..], to) == EditsMembers(ms, false, froms, to)
    decreases ms
  {
    hide Keyed;
    if ms.Member? {
      FirstEdits(ms.value, Keyed(ms.key, ms.mid, ms.pre), froms, to);
      FirstEditsMembers(ms.rest, froms, to);
    }
  }

  lemma {:induction false} EachIsOne(v: Json, froms: seq<string>, to: string)
    ensures EditJsonEach(v, froms, to) == Edits(v, false, false, froms, to)
    decreases |froms|
  {
    hide Edits, EditJson;
    if froms == [] {
      NoneEdits(v, false, to);
    } else {
      EachIsOne(EditJson(v, false, froms[0], to), froms[1..], to);
      FirstEdits(v, false, froms, to);
    }
  }

  // ---------------------------------------------------------------- lookalike members

  /** The value starts with no registry address, unless with one that is the base's own. */
  predicate Foreign(raw: string, froms: seq<string>, to: string) {
    forall k | 0 <= k < |froms| && froms[k] <= raw :: froms[k] == to
  }

  predicate Lookalike(ms: Members)
    requires ms.Member?
  {
    Keyed(ms.key, ms.mid, ms.pre) && ms.key != "tarball"
  }

  /** Anywhere in the value, no lookalike member holds a registry's address. */
  predicate NoneHeld(v: Json, froms: seq<string>, to: string) {
    match v
    case Scalar(_) => true
    case Text(_) => true
    case Arr(_, items) => NoneHeldItems(items, froms, to)
    case Obj(_, members) => NoneHeldMembers(members, froms, to)
  }

  predicate NoneHeldItems(items: Items, froms: seq<string>, to: string) {
    items.Item? ==> NoneHeld(items.value, froms, to) && NoneHeldItems(items.rest, froms, to)
  }

  predicate NoneHeldMembers(ms: Members, froms: seq<string>, to: string) {
    ms.Member? ==>
      && (Lookalike(ms) && ms.value.Text? ==> Foreign(ms.value.raw, froms, to))
      && NoneHeld(ms.value, froms, to) && NoneHeldMembers(ms.rest, froms, to)
  }

  /** An edit changes just the values that are not foreign. */
  ghost predicate Telling(froms: seq<string>, to: string) {
    forall raw :: EditValue(raw, froms, to) == raw <==> Foreign(raw, froms, to)
  }

  predicate HttpUrl(base: string) { "http://" <= base || "https://" <= base }

  lemma RegistriesTell(upstream: string, base: string)
    requires HttpUrl(base)
    ensures Telling(Registries(upstream), base + "/")
  {
    hide EditValue;
    forall raw
      ensures EditValue(raw, Registries(upstream), base + "/") == raw <==>
        Foreign(raw, Registries(upstream), base + "/")
    {
      ValueTells(raw, upstream, base);
    }
  }

  lemma ValueTells(raw: string, upstream: string, base: string)
    requires HttpUrl(base)
    ensures EditValue(raw, Registries(upstream), base + "/") == raw <==> Foreign(raw, Registries(upstream), base + "/")
  {
    hide EditValue;
    var froms, to, reg := Registries(upstream), base + "/", Text.TrimSlash(upstream);
    if "https://" <= reg {
      TwoTell(raw, froms, to);
    } else {
      OneTells(raw, froms[0], to);
    }
  }

  /** What one pass does to a value. */
  function Pass(raw: string, from: string, to: string): string { if from <= raw then to + raw[|from|..] else raw }

  lemma PassTells(raw: string, from: string, to: string)
    ensures Pass(raw, from, to) == raw <==> !(from <= raw) || from == to
  {
    if from <= raw {
      assert raw == from + raw[|from|..];
      if to + raw[|from|..] == raw { assert |to| == |from| && raw[..|to|] == to; }
    }
  }

  lemma OneTells(raw: string, from: string, to: string)
    ensures EditValue(raw, [from], to) == raw <==> Foreign(raw, [from], to)
  {
    PassTells(raw, from, to);
    assert EditValue(raw, [from], to) == EditValue(Pass(raw, from, to), [], to);
  }

  lemma TwoTell(raw: string, froms: seq<string>, to: string)
    requires |froms| == 2 && "https:/" <= froms[0] && "http:/" <= froms[1] && ("https:/" <= to || "http:/" <= to)
    ensures EditValue(raw, froms, to) == raw <==> Foreign(raw, froms, to)
  {
    var once := Pass(raw, froms[0], to);
    var last := Pass(once, froms[1], to);
    assert froms[1..] == [froms[1]] && [froms[1]][1..] == [];
    assert EditValue(raw, froms, to) == EditValue(once, [froms[1]], to) == last;
    PassTells(raw, froms[0], to);
    PassTells(once, froms[1], to);
    if froms[0] <= raw { assert raw[4] == 's'; }
    if froms[1] <= once { assert once[4] == ':' && last[4] == to[4]; }
  }

  lemma {:induction false} ExactIff(v: Json, chosen: bool, froms: seq<string>, to: string)
    requires Telling(froms, to)
    ensures Edits(v, chosen, false, froms, to) == Edits(v, chosen, true, froms, to) <==> NoneHeld(v, froms, to)
    decreases v
  {
    hide Telling, EditValue;
    match v
    case Scalar(_) =>
    case Text(_) =>
    case Arr(_, items) => ExactItemsIff(items, froms, to);
    case Obj(_, members) => ExactMembersIff(members, froms, to);
  }

  lemma {:induction false} ExactItemsIff(items: Items, froms: seq<string>, to: string)
    requires Telling(froms, to)
    ensures EditsItems(items, false, froms, to) == EditsItems(items, true, froms, to) <==>
      NoneHeldItems(items, froms, to)
    decreases items
  {
    hide Telling, Edits;
    if items.Item? {
      ExactIff(items.value, false, froms, to);
      ExactItemsIff(items.rest, froms, to);
    }
  }

  lemma {:induction false} ExactMembersIff(ms: Members, froms: seq<string>, to: string)
    requires Telling(froms, to)
    ensures EditsMembers(ms, false, froms, to) == EditsMembers(ms, true, froms, to) <==> NoneHeldMembers(ms, froms, to)
    decreases ms
  {
    hide Telling, Edits, Keyed, Foreign;
    if ms.Member? {
      ExactIff(ms.value, Chosen(true, ms.key, ms.mid, ms.pre), froms, to);
      ChosenIff(ms.value, Lookalike(ms), Chosen(true, ms.key, ms.mid, ms.pre), froms, to);
      ExactMembersIff(ms.rest, froms, to);
    }
  }

  /** Choosing a value changes it only if it is a string that is not foreign. */
  lemma ChosenIff(v: Json, lookalike: bool, chosen: bool, froms: seq<string>, to: string)
    requires Telling(froms, to) && (lookalike ==> !chosen)
    ensures var all, only := Edits(v, chosen || lookalike, false, froms, to), Edits(v, chosen, true, froms, to);
      all == only <==>
        Edits(v, chosen, false, froms, to) == only && (lookalike && v.Text? ==> Foreign(v.raw, froms, to))
  {}

  /** The rewriting of a packument edits the members that are named `tarball`, and no
      others, if and only if no lookalike member of it, one whose name ends in a quote and
      that word, holds a registry's address. */
  lemma OnlyTarballsChangeIff(before: string, v: Json, after: string, upstream: string, base: string)
    requires IsGap(before) && JsonOk(v) && IsGap(after) && Plain(upstream) && Plain(base) && HttpUrl(base)
    ensures var froms, to := Registries(upstream), base + "/";
      var out := Edits(v, false, false, froms, to);
      && JsonOk(out) && ReplaceEach(Document(before, v, after), froms, to) == Document(before, out, after)
      && (out == Edits(v, false, true, froms, to) <==> NoneHeld(v, froms, to))
  {
    hide IsGap, JsonOk, Registries, Document, EditJsonEach, Edits, ReplaceEach, NoneHeld;
    PackumentIsEdited(before, v, after, upstream, base);
    EachIsOne(v, Registries(upstream), base + "/");
    RegistriesTell(upstream, base);
    ExactIff(v, false, Registries(upstream), base + "/");
  }

  /** One that does: an object with a single member, whose key is any characters, an
      escaped quote, and `tarball`. */
  lemma LookalikeKeyIsRewritten(x: string, rest: string, upstream: string, base: string)
    requires Escaped(x) && Escaped(rest) && Plain(upstream) && Plain(base) && HttpUrl(base)
    ensures var key, from := x + "\\\"tarball", Text.TrimSlash(upstream) + "/";
      var raw := from + rest;
      var v, out := Lone(key, raw), Lone(key, EditValue(raw, Registries(upstream), base + "/"));
      && JsonOk(v) && JsonOk(out)
      && ReplaceEach(Document("", v, ""), Registries(upstream), base + "/") == Document("", out, "")
      && (out == v <==> from == base + "/")
  {
    hide EditValue, Document, ReplaceEach, Registries, EditJsonEach;
    var key, from, froms, to := x + "\\\"tarball", Text.TrimSlash(upstream) + "/", Registries(upstream), base + "/";
    var raw := from + rest;
    KeyOk(x, key);
    PlainRegistries(upstream);
    FirstRegistry(upstream);
    EscapedJoin(from, rest);
    LoneOk(key, raw);
    PackumentIsEdited("", Lone(key, raw), "", upstream, base);
    EachIsOne(Lone(key, raw), froms, to);
    RegistriesTell(upstream, base);
    LoneEdits(key, raw, froms, to);
    OnlyFirst(raw, upstream, to);
  }

  function Lone(key: string, raw: string): Json { Obj("", Member("", key, "", "", Json.Text(raw), "", NoMembers)) }

  lemma FirstRegistry(upstream: string)
    ensures Registries(upstream) != [] && Registries(upstream)[0] == Text.TrimSlash(upstream) + "/"
  {}

  lemma OnlyFirst(raw: string, upstream: string, to: string)
    requires Registries(upstream)[0] <= raw
    ensures Foreign(raw, Registries(upstream), to) <==> Registries(upstream)[0] == to
  {
    var froms := Registries(upstream);
    if |froms| == 2 { assert raw[4] == froms[0][4] == 's' && froms[1][4] == ':'; }
  }

  lemma LoneEdits(key: string, raw: string, froms: seq<string>, to: string)
    requires KeyMatches(key)
    ensures Edits(Lone(key, raw), false, false, froms, to) == Lone(key, EditValue(raw, froms, to))
  {
    hide EditValue, KeyMatches;
    var one := Member("", key, "", "", Json.Text(raw), "", NoMembers);
    assert EditsMembers(one, false, froms, to) == one.(value := Edits(one.value, true, false, froms, to));
  }

  lemma LoneOk(key: string, raw: string)
    requires Escaped(key) && Escaped(raw)
    ensures JsonOk(Lone(key, raw))
  {
    hide Escaped;
    assert MembersOk(Member("", key, "", "", Json.Text(raw), "", NoMembers));
  }

  lemma KeyOk(x: string, key: string)
    requires Escaped(x) && key == x + "\\\"tarball"
    ensures Escaped(key) && KeyMatches(key) && key != "tarball"
  {
    hide Escaped;
    EndEscaped();
    EscapedEnds(x, "\\\"tarball");
    assert key[|key| - 8..] == "\"tarball";
    assert |key| > 7;
  }

  lemma EndEscaped()
    ensures Escaped("\\\"tarball")
  {
    assert "\\\"tarball"[2..] == "tarball";
    EscapedJoin("tarball", "");
    assert "tarball" + "" == "tarball";
  }
}
