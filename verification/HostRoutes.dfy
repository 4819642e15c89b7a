/** What a request's Host and an entry of the -hosts flag are read as, and where a
    request for a front-end's own host goes. */
module HostRoutes {
  import opened Common
  import opened Text
  import opened Hosts

  /** The literal roots: the Host of one front-end leads to that front-end. */
  lemma RootsAre(byKind: map<string, string>, routes: map<string, Route>, kind: string, host: string, path: string)
    requires HostsOk(byKind) && kind in byKind && NormalizeHost(host) == byKind[kind]
    requires routes.Keys == byKind.Values
    requires forall k | k in byKind :: byKind[k] in routes && routes[byKind[k]] == Route(ROOTS[k], k == "nix")
    ensures kind in ["nix", "maven", "gradle", "npm"]
    ensures var p := if "/" <= path then path else "/" + path;
      Routed(routes, host, path) ==
        if kind == "nix" then (if "/nix/" <= path then (path, false) else ("/nix" + p, true))
        else if kind == "maven" then ("/maven" + p, true)
        else if kind == "gradle" then ("/gradle/cache" + p, true)
        else ("/npm" + p, true)
  {
    hide NormalizeHost, ValidHostName;
    assert "/nix" + "/" == "/nix/";
  }

  /** A Host that no front-end has goes where it went. */
  lemma OthersStay(byKind: map<string, string>, routes: map<string, Route>, host: string, path: string)
    requires routes.Keys == byKind.Values && NormalizeHost(host) !in byKind.Values
    ensures Routed(routes, host, path) == (path, false)
  {
    hide NormalizeHost;
  }

  // ------------------------------------------------------------------ the Host header

  /** Capital letters become the small ones, and nothing else changes. */
  lemma LowerPairs(i: nat, c: char)
    ensures i < 26 ==> Lower(UPPER[i]) == LOWER[i]
    ensures c !in UPPER ==> Lower(c) == c
  {
    UpperIs(c);
    if i < 26 { PairAt(i); }
  }

  lemma PairAt(i: nat)
    requires i < 26
    ensures UPPER[i] == 'A' + i as char && LOWER[i] == 'a' + i as char
  {}

  predicate PlainHost(s: string) { forall i | 0 <= i < |s| :: s[i] !in ":[]" && !IsSpace(s[i]) }

  lemma PlainColon(s: string)
    requires PlainHost(s)
    ensures ':' !in s && '[' !in s && ']' !in s && Bare(s)
  {}

  /** Outer spaces and one port are taken off. */
  lemma HostPartIs(a: string, name: string, port: string, b: string)
    requires Blank(a) && PlainHost(name) && PlainHost(port) && Blank(b)
    ensures HostPart(a + name + b) == name && HostPart(a + (name + ":" + port) + b) == name
  {
    hide TrimSpace, IsSpace, LastIndex;
    PlainColon(name);
    PlainColon(port);
    SpacesAreTrimmed(a, name, b);
    NoLastIndex(name, ':');
    var s := name + ":" + port;
    assert s == name + [':'] + port;
    NoSpace(':');
    assert Bare(s);
    SpacesAreTrimmed(a, s, b);
    LastIndexHere(name, ':', port);
    assert s[..|name|] == name;
  }

  lemma NoSpace(c: char)
    requires c in ":[]"
    ensures !IsSpace(c)
  {}

  /** With a port, an address in brackets is what is in them. */
  lemma BracketedIs(address: string, port: string)
    requires '[' !in address && ']' !in address && PlainHost(port)
    ensures HostPart("[" + address + "]:" + port) == address
  {
    hide TrimSpace, IsSpace, SplitHostPort;
    var s := "[" + address + "]:" + port;
    PlainColon(port);
    NoSpace('[');
    NoSpace(':');
    assert s[0] == '[' && s[|s| - 1] == if port == "" then ':' else port[|port| - 1];
    assert Blank("") && Bare(s) && "" + s + "" == s;
    SpacesAreTrimmed("", s, "");
    SplitBracketed(address, port);
  }

  lemma SplitBracketed(address: string, port: string)
    requires '[' !in address && ']' !in address && ':' !in port && '[' !in port && ']' !in port
    ensures SplitHostPort("[" + address + "]:" + port) == Some(address)
  {
    hide LastIndex, IndexOf;
    var s := "[" + address + "]:" + port;
    assert s == ("[" + address + "]") + [':'] + port;
    LastIndexHere("[" + address + "]", ':', port);
    assert s == ("[" + address) + [']'] + (":" + port);
    IndexOfHere("[" + address, ']', ":" + port);
    assert s[1..|address| + 1] == address;
    assert s[|address| + 2..] == ":" + port;
    assert s[1..] == address + "]:" + port;
  }

  // ------------------------------------------------------------------- the -hosts flag

  /** A host name without a port, in any case, with one more dot after it or none and
      with spaces around it. */
  ghost predicate Reads(text: string, host: string) {
    && host != "" && (forall i | 0 <= i < |host| :: IsAlnum(host[i]) || host[i] in ".-")
    && exists a, x, b :: Blank(a) && Blank(b) && Bare(x) && text == a + x + b
        && (ToLower(x) == host + "." || (ToLower(x) == host && !EndsInDot(host)))
  }

  lemma ReadsIs(text: string, host: string)
    ensures Reads(text, host) <==>
      TrimDot(ToLower(TrimSpace(text))) == host && ValidHostName(host) && ':' !in host
  {
    hide TrimSpace, IsSpace, IsAlnum, TrimDot, ToLower, ValidHostName, Blank, Bare;
    NameChars(host);
    var x := TrimSpace(text);
    TrimDotIs(ToLower(x), host);
    if Reads(text, host) {
      var a, y, b :| Blank(a) && Blank(b) && Bare(y) && text == a + y + b
        && (ToLower(y) == host + "." || (ToLower(y) == host && !EndsInDot(host)));
      SpacesAreTrimmed(a, y, b);
    }
    var a, b := TrimmedFrom(text);
    assert text == a + x + b;
  }

  /** An entry is one of the four kinds, an equals sign and a host name. */
  lemma EntryIs(kind: string, text: string, host: string)
    requires '=' !in kind
    ensures ParseEntry(kind + "=" + text) == Some((kind, host)) <==>
      kind in ["nix", "maven", "gradle", "npm"] && Reads(text, host)
    ensures ParseEntry(kind).None?
    ensures ParseEntry(kind + "=" + text).Some? ==> ParseEntry(kind + "=" + text).value.0 == kind
  {
    hide TrimSpace, TrimDot, ToLower, ValidHostName, Reads;
    KindHasNoSign(kind);
    var entry := kind + "=" + text;
    assert entry == kind + ['='] + text;
    IndexOfHere(kind, '=', text);
    assert entry[..|kind|] == kind && entry[|kind| + 1..] == text;
    ReadsIs(text, host);
  }

  lemma KindHasNoSign(kind: string)
    ensures kind in ROOTS <==> kind in ["nix", "maven", "gradle", "npm"]
    ensures kind in ROOTS ==> '=' !in kind
  {}

  lemma NameChars(host: string)
    ensures ValidHostName(host) && ':' !in host <==>
      host != "" && forall i | 0 <= i < |host| :: IsAlnum(host[i]) || host[i] in ".-"
  {
    forall i | 0 <= i < |host| && ':' !in host ensures host[i] != ':' { assert host[i] in host; }
  }
}
