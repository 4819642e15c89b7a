/** Front-ends that are served at the root of a host name of their own. */
module Hosts {
  import opened Common
  import opened Text

  function Lower(c: char): char { if 'A' <= c <= 'Z' then c - 'A' + 'a' else c }

  /** strings.ToLower, of the characters a Host header can hold. */
  function ToLower(s: string): (r: string)
    ensures |r| == |s| && forall i | 0 <= i < |s| :: r[i] == Lower(s[i])
  {
    seq(|s|, i requires 0 <= i < |s| => Lower(s[i]))
  }

  predicate ValidHostName(s: string) { s != "" && AllIn(s, ".-:") }

  function TrimDot(s: string): string { if s != "" && s[|s| - 1] == '.' then s[..|s| - 1] else s }

  function TrimOpening(s: string): string { if s != "" && s[0] in "[]" then TrimOpening(s[1..]) else s }

  function TrimBrackets(s: string): string {
    if s != "" && s[|s| - 1] in "[]" then TrimBrackets(s[..|s| - 1]) else TrimOpening(s)
  }

  /** The host of net.SplitHostPort, when it does not fail. */
  function SplitHostPort(s: string): Option<string> {
    var i := LastIndex(s, ':');
    if i < 0 then None
    else if s[0] == '[' then
      var end := IndexOf(s, ']');
      if end == |s| || end + 1 != i || '[' in s[1..] || ']' in s[end + 1..] then None else Some(s[1..end])
    else if ':' in s[..i] || '[' in s || ']' in s then None
    else Some(s[..i])
  }

  function HostPart(s: string): string {
    var t := TrimSpace(s);
    match SplitHostPort(t) case None => t case Some(host) => host
  }

  function NormalizeHost(s: string): string { TrimBrackets(TrimDot(ToLower(HostPart(s)))) }

  // ----------------------------------------------------------- host names, lower case

  predicate Plainly(s: string) { forall i | 0 <= i < |s| :: s[i] !in "[]" && !IsSpace(s[i]) }

  lemma LowerPlain(s: string)
    requires ValidHostName(ToLower(s))
    ensures Plainly(s) && Plainly(ToLower(s)) && s != ""
  {
    forall i | 0 <= i < |s|
      ensures s[i] !in "[]" && !IsSpace(s[i]) && ToLower(s)[i] !in "[]" && !IsSpace(ToLower(s)[i])
    {
      assert IsAlnum(ToLower(s)[i]) || ToLower(s)[i] in ".-:";
    }
  }

  lemma NoTrim(s: string)
    requires Plainly(s)
    ensures TrimSpace(s) == s && TrimBrackets(s) == s
  {}

  lemma LowerSlice(s: string, i: nat)
    requires i <= |s|
    ensures ToLower(s[..i]) == ToLower(s)[..i]
  {}

  lemma LowerTwice(s: string)
    ensures ToLower(ToLower(s)) == ToLower(s)
  {}

  lemma {:induction false} LowerColon(s: string)
    ensures LastIndex(ToLower(s), ':') == LastIndex(s, ':')
    ensures ':' in ToLower(s) <==> ':' in s
  {
    if s != "" {
      LowerSlice(s, |s| - 1);
      LowerColon(s[..|s| - 1]);
      var init := s[..|s| - 1];
      assert s == init + [s[|s| - 1]] && ToLower(s) == ToLower(init) + [Lower(s[|s| - 1])];
    }
  }

  /** The host without its port, when there is one colon. */
  function WithoutPort(s: string): string {
    var i := LastIndex(s, ':');
    if i < 0 || ':' in s[..i] then s else s[..i]
  }

  lemma NormalOf(s: string)
    requires ValidHostName(ToLower(s))
    ensures NormalizeHost(s) == TrimDot(ToLower(WithoutPort(s)))
  {
    LowerPlain(s);
    NoTrim(s);
    var h := WithoutPort(s);
    assert SplitHostPort(s) == (if LastIndex(s, ':') < 0 || ':' in s[..LastIndex(s, ':')] then None else Some(h));
    assert Plainly(TrimDot(ToLower(h))) by { HostPlain(s); }
    NoTrim(TrimDot(ToLower(h)));
  }

  lemma HostPlain(s: string)
    requires ValidHostName(ToLower(s))
    ensures Plainly(TrimDot(ToLower(WithoutPort(s))))
  {
    LowerPlain(s);
    var h := WithoutPort(s);
    assert h <= s;
    assert forall i | 0 <= i < |h| :: ToLower(h)[i] == ToLower(s)[i];
  }

  /** Case does not matter. */
  lemma NormalLower(s: string)
    requires ValidHostName(ToLower(s))
    ensures NormalizeHost(ToLower(s)) == NormalizeHost(s)
  {
    LowerTwice(s);
    NormalOf(s);
    NormalOf(ToLower(s));
    LowerColon(s);
    var i := LastIndex(s, ':');
    if i >= 0 {
      LowerSlice(s, i);
      LowerColon(s[..i]);
      LowerTwice(s[..i]);
    }
  }

  // ------------------------------------------------------------------- the routing

  datatype Route = Route(root: string, tolerant: bool)

  const ROOTS: map<string, string> :=
    map["nix" := "/nix", "maven" := "/maven", "gradle" := "/gradle/cache", "npm" := "/npm"]

  function EnsureSlash(p: string): string { if "/" <= p then p else "/" + p }

  /** withHostRouting: the path the handlers see, and whether the request arrived at a
      front-end's own root. */
  function Routed(routes: map<string, Route>, host: string, path: string): (string, bool) {
    var h := NormalizeHost(host);
    if h in routes && (!routes[h].tolerant || !(routes[h].root + "/" <= path))
    then (routes[h].root + EnsureSlash(path), true) else (path, false)
  }

  ghost predicate RoutesOk(routes: map<string, Route>) {
    forall h | h in routes :: exists kind :: kind in ROOTS && routes[h] == Route(ROOTS[kind], kind == "nix")
  }

  // ---------------------------------------------------------------- the -hosts flag

  function ParseEntry(entry: string): Option<(string, string)> {
    var i := IndexOf(entry, '=');
    if i == |entry| || entry[..i] !in ROOTS then None else
    var host := TrimDot(ToLower(TrimSpace(entry[i + 1..])));
    if !ValidHostName(host) || ':' in host then None else Some((entry[..i], host))
  }

  ghost predicate HostsOk(byKind: map<string, string>) {
    && (forall k | k in byKind ::
      k in ROOTS && ValidHostName(byKind[k]) && ':' !in byKind[k] && ToLower(byKind[k]) == byKind[k])
    && (forall k, l | k in byKind && l in byKind && byKind[k] == byKind[l] :: k == l)
  }

  ghost predicate Gives(entries: seq<string>, kind: string, host: string) {
    exists i ::
      0 <= i < |entries| && TrimSpace(entries[i]) != "" && ParseEntry(TrimSpace(entries[i])) == Some((kind, host))
  }

  /** What was there is as it was, and what came is what the entries give. */
  ghost predicate TakenOver(was: map<string, string>, now: map<string, string>, entries: seq<string>) {
    && (forall k | k in was :: k in now && now[k] == was[k])
    && (forall k | k in now && k !in was :: Gives(entries, k, now[k]))
    && (forall i | 0 <= i < |entries| && TrimSpace(entries[i]) != "" ::
          var e := ParseEntry(TrimSpace(entries[i]));
          e.Some? && e.value.0 !in was && e.value.0 in now && now[e.value.0] == e.value.1)
  }

  /** No entry, or one for a kind or a host that is given already. */
  ghost predicate Refused(now: map<string, string>, entry: string) {
    && TrimSpace(entry) != ""
    && var e := ParseEntry(TrimSpace(entry));
       e.None? || e.value.0 in now || e.value.1 in now.Values
  }

  /** The first entries are taken over, and the one after them is refused. */
  ghost predicate Stopped(was: map<string, string>, now: map<string, string>, entries: seq<string>) {
    exists i :: 0 <= i < |entries| && TakenOver(was, now, entries[..i]) && Refused(now, entries[i])
  }

  lemma Stops(was: map<string, string>, now: map<string, string>, entries: seq<string>, i: nat)
    requires i < |entries| && TakenOver(was, now, entries[..i]) && TrimSpace(entries[i]) != ""
    requires var e := ParseEntry(TrimSpace(entries[i])); e.None? || e.value.0 in now || e.value.1 in now.Values
    ensures Stopped(was, now, entries)
  {
    hide TrimSpace, ParseEntry, TakenOver;
  }

  lemma NothingTaken(now: map<string, string>)
    ensures TakenOver(now, now, [])
  {}

  lemma GivesMore(entries: seq<string>, entry: string, kind: string, host: string)
    requires Gives(entries, kind, host)
    ensures Gives(entries + [entry], kind, host)
  {
    hide TrimSpace, ParseEntry;
    var i :| 0 <= i < |entries| && TrimSpace(entries[i]) != "" &&
      ParseEntry(TrimSpace(entries[i])) == Some((kind, host));
    assert (entries + [entry])[i] == entries[i];
  }

  lemma BlankTaken(was: map<string, string>, now: map<string, string>, entries: seq<string>, entry: string)
    requires TakenOver(was, now, entries) && TrimSpace(entry) == ""
    ensures TakenOver(was, now, entries + [entry])
  {
    hide TrimSpace, ParseEntry, Gives;
    forall k | k in now && k !in was
      ensures Gives(entries + [entry], k, now[k])
    {
      GivesMore(entries, entry, k, now[k]);
    }
  }

  lemma EntryTaken(was: map<string, string>, now: map<string, string>, entries: seq<string>, entry: string)
    requires TakenOver(was, now, entries) && TrimSpace(entry) != "" && !Refused(now, entry)
    ensures var (kind, host) := ParseEntry(TrimSpace(entry)).value; TakenOver(was, now[kind := host], entries + [entry])
  {
    hide TrimSpace, ParseEntry, Gives;
    var (kind, host) := ParseEntry(TrimSpace(entry)).value;
    LastGives(entries, entry, kind, host);
    forall k | k in now && k !in was
      ensures Gives(entries + [entry], k, now[k])
    {
      GivesMore(entries, entry, k, now[k]);
    }
  }

  lemma LastGives(entries: seq<string>, entry: string, kind: string, host: string)
    requires TrimSpace(entry) != "" && ParseEntry(TrimSpace(entry)) == Some((kind, host))
    ensures Gives(entries + [entry], kind, host)
  {
    hide TrimSpace, ParseEntry;
    assert (entries + [entry])[|entries|] == entry;
  }

  class HostMap {
    var byKind: map<string, string> // kind to normalised host

    ghost predicate Valid()
      reads this
    {
      HostsOk(byKind)
    }

    constructor ()
      ensures Valid() && byKind == map[]
    {
      byKind := map[];
    }

    /** Every entry but empty ones is taken over, nothing else is and nothing is lost. If
        one cannot be, those before it have been and none after it. */
    method Set(v: string) returns (ok: bool)
      requires Valid()
      modifies this
      ensures Valid()
      ensures ok ==> TakenOver(old(byKind), byKind, Split(v, ','))
      ensures !ok ==> Stopped(old(byKind), byKind, Split(v, ','))
    {
      hide TrimSpace, Split, TakenOver, ParseEntry, Stopped;
      var entries := Split(v, ',');
      var i := 0;
      NothingTaken(byKind);
      while i < |entries|
        invariant 0 <= i <= |entries| && Valid()
        invariant TakenOver(old(byKind), byKind, entries[..i])
      {
        var entry := TrimSpace(entries[i]);
        assert entries[..i + 1] == entries[..i] + [entries[i]];
        if entry == "" {
          BlankTaken(old(byKind), byKind, entries[..i], entries[i]);
          i := i + 1;
          continue;
        }
        var parsed := ParseEntry(entry);
        if parsed.None? || parsed.value.0 in byKind || parsed.value.1 in byKind.Values {
          Stops(old(byKind), byKind, entries, i);
          return false;
        }
        var (kind, host) := parsed.value;
        ParsedKeeps(byKind, entry);
        EntryTaken(old(byKind), byKind, entries[..i], entries[i]);
        byKind := byKind[kind := host];
        i := i + 1;
      }
      assert entries[..i] == entries;
      return true;
    }

    /** Every configured host is routed to its own front-end's root, and no other is. */
    method Routes() returns (out: map<string, Route>)
      requires Valid()
      ensures out.Keys == byKind.Values && RoutesOk(out)
      ensures forall k | k in byKind :: byKind[k] in out && out[byKind[k]] == Route(ROOTS[k], k == "nix")
    {
      hide ValidHostName;
      out := map[];
      var left := byKind.Keys;
      while left != {}
        invariant left <= byKind.Keys
        invariant forall h | h in out :: exists k ::
          k in byKind && k !in left && byKind[k] == h && out[h] == Route(ROOTS[k], k == "nix")
        invariant forall k | k in byKind && k !in left ::
          byKind[k] in out && out[byKind[k]] == Route(ROOTS[k], k == "nix")
        decreases |left|
      {
        var kind :| kind in left;
        out := out[byKind[kind] := Route(ROOTS[kind], kind == "nix")];
        left := left - {kind};
      }
    }
  }

  lemma ParsedLower(entry: string)
    requires ParseEntry(entry).Some?
    ensures var (kind, host) := ParseEntry(entry).value;
      kind in ROOTS && ValidHostName(host) && ':' !in host && ToLower(host) == host
  {
    hide TrimSpace, ValidHostName;
    var s := TrimSpace(entry[IndexOf(entry, '=') + 1..]);
    LowerTwice(s);
    if s != "" { LowerSlice(ToLower(s), |s| - 1); }
  }

  lemma ParsedKeeps(byKind: map<string, string>, entry: string)
    requires HostsOk(byKind) && ParseEntry(entry).Some?
    requires var (kind, host) := ParseEntry(entry).value; kind !in byKind && host !in byKind.Values
    ensures var (kind, host) := ParseEntry(entry).value; HostsOk(byKind[kind := host])
  {
    hide ParseEntry, ValidHostName;
    ParsedLower(entry);
  }

  // ---------------------------------------------------------- which requests reach one

  predicate Brackets(s: string) { forall i | 0 <= i < |s| :: s[i] in "[]" }

  predicate EndsInDot(s: string) { s != "" && s[|s| - 1] == '.' }

  /** The ways to spell a host name: in brackets of any kind and number, and with a
      trailing dot or, if it does not end in one itself, without. */
  ghost predicate Spells(x: string, h: string) {
    exists before, after | Brackets(before) && Brackets(after) ::
      x == before + h + after + "." || (x == before + h + after && !EndsInDot(x))
  }

  lemma TrimDotIs(x: string, y: string)
    ensures TrimDot(x) == y <==> x == y + "." || (x == y && !EndsInDot(x))
  {}

  lemma {:induction false} OpeningParts(s: string) returns (before: string)
    ensures Brackets(before) && s == before + TrimOpening(s)
  {
    if s != "" && s[0] in "[]" {
      before := OpeningParts(s[1..]);
      before := [s[0]] + before;
    } else {
      before := "";
    }
  }

  lemma {:induction false} TrimmedParts(s: string) returns (before: string, after: string)
    ensures Brackets(before) && Brackets(after) && s == before + TrimBrackets(s) + after
  {
    if s != "" && s[|s| - 1] in "[]" {
      before, after := TrimmedParts(s[..|s| - 1]);
      after := after + [s[|s| - 1]];
    } else {
      before := OpeningParts(s);
      after := "";
    }
  }

  lemma {:induction false} TrimOpened(before: string, h: string)
    requires Brackets(before) && h != "" && h[0] !in "[]"
    ensures TrimOpening(before + h) == h
  {
    if before == "" {
      assert before + h == h;
    } else {
      assert (before + h)[1..] == before[1..] + h;
      TrimOpened(before[1..], h);
    }
  }

  lemma {:induction false} TrimsTo(before: string, h: string, after: string)
    requires Brackets(before) && Brackets(after) && h != "" && h[0] !in "[]" && h[|h| - 1] !in "[]"
    ensures TrimBrackets(before + h + after) == h
    decreases |after|
  {
    var s := before + h + after;
    if after == "" {
      assert s == before + h && s[|s| - 1] == h[|h| - 1];
      TrimOpened(before, h);
    } else {
      assert s[..|s| - 1] == before + h + after[..|after| - 1] && s[|s| - 1] == after[|after| - 1];
      TrimsTo(before, h, after[..|after| - 1]);
    }
  }

  /** A request reaches a configured host if and only if the host of its Host header, a
      port and outer spaces taken off and in lower case, spells it. */
  lemma HostsAreFound(byKind: map<string, string>, k: string, host: string)
    requires HostsOk(byKind) && k in byKind
    ensures NormalizeHost(host) == byKind[k] <==> Spells(ToLower(HostPart(host)), byKind[k])
  {
    hide HostPart, ToLower, TrimDot, TrimBrackets, EndsInDot;
    var h, x := byKind[k], ToLower(HostPart(host));
    NameEnds(h);
    TrimDotIs(x, TrimDot(x));
    if NormalizeHost(host) == h {
      var before, after := TrimmedParts(TrimDot(x));
      assert TrimDot(x) == before + h + after;
    }
    if Spells(x, h) {
      var before, after :| Brackets(before) && Brackets(after) &&
        (x == before + h + after + "." || (x == before + h + after && !EndsInDot(x)));
      TrimDotIs(x, before + h + after);
      TrimsTo(before, h, after);
    }
  }

  lemma NameEnds(h: string)
    requires ValidHostName(h)
    ensures h[0] !in "[]" && h[|h| - 1] !in "[]"
  {
    assert IsAlnum(h[0]) || h[0] in ".-:";
    assert IsAlnum(h[|h| - 1]) || h[|h| - 1] in ".-:";
  }

  /** For a Host that is a name, with no port, this is: the configured host with a dot
      after it or, if it does not end in one, the configured host. */
  lemma NamesAreFound(h: string, name: string)
    requires ValidHostName(ToLower(name)) && ':' !in name
    ensures NormalizeHost(name) == h <==> ToLower(name) == h + "." || (ToLower(name) == h && !EndsInDot(h))
  {
    hide ToLower, ValidHostName, TrimDot;
    NormalOf(name);
    NoLastIndex(name, ':');
    TrimDotIs(ToLower(name), h);
  }

  predicate Unbracketed(s: string) { forall i | 0 <= i < |s| :: s[i] !in "[]" }

  /** Which Hosts reach a name, when there are no brackets to take off. */
  lemma PlainNormal(host: string, h: string)
    requires Unbracketed(HostPart(host))
    ensures var x := ToLower(HostPart(host)); NormalizeHost(host) == h <==> x == h + "." || (x == h && !EndsInDot(x))
  {
    hide HostPart;
    var x := ToLower(HostPart(host));
    forall i | 0 <= i < |x| ensures x[i] !in "[]" { assert HostPart(host)[i] !in "[]"; }
    NothingToTrim(TrimDot(x));
    TrimDotIs(x, h);
  }

  lemma NothingToTrim(s: string)
    requires Unbracketed(s)
    ensures TrimBrackets(s) == s
  {}

  /** An entry with two trailing dots is taken over with one. Of the Hosts whose name is
      not in brackets, with a port or without, only those with both dots reach it; one in
      brackets reaches it as it is. */
  lemma TwoDotsAreOneTooMany(kind: string, name: string, host: string)
    requires kind in ROOTS && ValidHostName(name) && ':' !in name && ToLower(name) == name && !EndsInDot(name)
    ensures ParseEntry(kind + "=" + name + "..") == Some((kind, name + "."))
    ensures NormalizeHost(host) == name + "." <==> Spells(ToLower(HostPart(host)), name + ".")
    ensures Unbracketed(HostPart(host)) ==>
      (NormalizeHost(host) == name + "." <==> ToLower(HostPart(host)) == name + "..")
    ensures NormalizeHost("[" + name + ".]") == name + "."
  {
    hide TrimSpace, NormalizeHost, ValidHostName, ToLower, HostPart, Spells, Unbracketed;
    var two, one := name + "..", name + ".";
    TwoDotsLower(name);
    EntryOf(kind, two);
    assert kind + "=" + name + ".." == kind + "=" + two;
    var byKind := map[kind := one];
    OneHost(kind, one);
    HostsAreFound(byKind, kind, host);
    if Unbracketed(HostPart(host)) { PlainNormal(host, one); }
    assert one + "." == two && EndsInDot(one);
    HostsAreFound(byKind, kind, "[" + one + "]");
    InBrackets(one);
    assert "[" + name + ".]" == "[" + one + "]";
  }

  lemma OneHost(kind: string, host: string)
    requires kind in ROOTS && ValidHostName(host) && ToLower(host) == host && ':' !in host
    ensures HostsOk(map[kind := host])
  {
    hide ValidHostName;
  }

  /** A host in brackets, without a port, is compared as what is in them. */
  lemma InBrackets(host: string)
    requires ValidHostName(host) && ToLower(host) == host && ':' !in host
    ensures Spells(ToLower(HostPart("[" + host + "]")), host)
  {
    hide ValidHostName, ToLower;
    var s := "[" + host + "]";
    BracketsStay(host);
    NoLastIndex(s, ':');
    assert HostPart(s) == s;
    LowerAround(host);
    assert !EndsInDot(s) && Brackets("[") && Brackets("]");
  }

  lemma LowerAround(host: string)
    requires ToLower(host) == host
    ensures ToLower("[" + host + "]") == "[" + host + "]"
  {
    var s := "[" + host + "]";
    forall i | 0 <= i < |s| ensures ToLower(s)[i] == s[i] { assert 0 < i <= |host| ==> ToLower(host)[i - 1] == s[i]; }
  }

  lemma BracketsStay(host: string)
    ensures TrimSpace("[" + host + "]") == "[" + host + "]"
  {}

  lemma TwoDotsLower(name: string)
    requires ValidHostName(name) && ToLower(name) == name
    ensures var two, one := name + "..", name + ".";
      && ToLower(two) == two && ToLower(one) == one && ValidHostName(two) && ValidHostName(one) && TrimDot(two) == one
  {}

  /** An entry with a plain host. */
  lemma EntryOf(kind: string, host: string)
    requires kind in ROOTS && ValidHostName(host) && ToLower(host) == host
    requires ValidHostName(TrimDot(host)) && ':' !in host
    ensures ParseEntry(kind + "=" + host) == Some((kind, TrimDot(host)))
  {
    hide TrimSpace, ValidHostName, ToLower;
    LowerPlain(host);
    NoTrim(host);
    var entry := kind + "=" + host;
    KindsHaveNone(kind);
    assert entry == kind + ['='] + host;
    IndexOfHere(kind, '=', host);
    assert entry[..|kind|] == kind && entry[|kind| + 1..] == host;
  }

  lemma KindsHaveNone(kind: string)
    requires kind in ROOTS
    ensures '=' !in kind
  {}
}
