/** The way of a tarball's address: from the registry's document, rewritten for the
    client, and back through the routes to the registry. */
module TarballAddress {
  import opened Common
  import opened Text
  import opened Hosts
  import N = NpmNames
  import K = StoreKeys
  import R = Rewrite
  import J = RewriteJson
  import M = TarballMembers

  datatype Request = Request(tls: bool, forwardedProto: string, host: string, path: string)

  function Scheme(r: Request): string {
    var p := ToLower(TrimSpace(Split(r.forwardedProto, ',')[0]));
    if p == "http" || p == "https" then p else if r.tls then "https" else "http"
  }

  /** The port a scheme does not need to name. */
  predicate DefaultPort(scheme: string, port: string) {
    (scheme == "https" && port == "443") || (scheme == "http" && port == "80")
  }

  function PublicHost(scheme: string, host: string): string {
    var i := IndexOf(host, ':');
    if i < |host| && DefaultPort(scheme, host[i + 1..]) then host[..i] else host
  }

  /** publicBase. */
  function PublicBase(r: Request, atRoot: bool): Option<string> {
    var host := PublicHost(Scheme(r), ToLower(r.host));
    if !ValidHostName(host) then None
    else Some(Scheme(r) + "://" + host + (if atRoot then "" else "/npm"))
  }

  /** What a gateway said first of the scheme, with spaces around it and in any case, counts
      if it is one of the two; otherwise the connection does. */
  lemma SchemeIs(r: Request, a: string, x: string, b: string, rest: string)
    requires r.forwardedProto == a + x + b + rest && ',' !in a + x + b && (rest == "" || rest[0] == ',')
    requires Blank(a) && Bare(x) && Blank(b)
    ensures Scheme(r) ==
      if ToLower(x) == "http" then "http" else if ToLower(x) == "https" then "https"
      else if r.tls then "https" else "http"
  {
    hide TrimSpace, ToLower, Split, IsSpace;
    var first := a + x + b;
    SpacesAreTrimmed(a, x, b);
    SplitOne(first, ',');
    if rest == "" {
      assert r.forwardedProto == first;
    } else {
      SplitConcat(first, rest[1..], ',');
      assert r.forwardedProto == first + [','] + rest[1..];
    }
  }

  /** A host is in lower case and without the port that its scheme has by default. */
  lemma PublicHostIs(scheme: string, name: string, port: string)
    requires ':' !in name
    ensures PublicHost(scheme, ToLower(name)) == ToLower(name)
    ensures PublicHost(scheme, ToLower(name + ":" + port)) ==
      if (scheme == "https" && port == "443") || (scheme == "http" && port == "80") then ToLower(name)
      else ToLower(name + ":" + port)
  {
    hide ToLower, IndexOf;
    var h := ToLower(name + ":" + port);
    LowerColon(name);
    NotThere(ToLower(name));
    LowerWithPort(name, port);
    IndexOfHere(ToLower(name), ':', ToLower(port));
    assert h[..|name|] == ToLower(name) && h[|name| + 1..] == ToLower(port);
    LowerDigits(port, "443");
    LowerDigits(port, "80");
  }

  lemma LowerWithPort(name: string, port: string)
    ensures ToLower(name + ":" + port) == ToLower(name) + [':'] + ToLower(port)
  {}

  lemma LowerDigits(s: string, digits: string)
    requires digits in ["443", "80"]
    ensures ToLower(s) == digits <==> s == digits
  {
    if ToLower(s) == digits {
      forall i | 0 <= i < |s| ensures s[i] == digits[i] { assert Lower(s[i]) == digits[i]; }
    }
  }

  /** The address that a client used. */
  lemma PublicBaseIs(r: Request, name: string, port: string, atRoot: bool)
    requires ':' !in name && (r.host == name || r.host == name + ":" + port)
    ensures var scheme := Scheme(r);
      var bare := r.host == name || (scheme == "https" && port == "443") || (scheme == "http" && port == "80");
      var host := ToLower(if bare then name else r.host);
      PublicBase(r, atRoot) ==
        if !ValidHostName(host) then None
        else if atRoot then Some(scheme + "://" + host) else Some(scheme + "://" + host + "/npm")
    ensures PublicBase(r, atRoot).Some? ==> M.HttpUrl(PublicBase(r, atRoot).value)
  {
    hide Scheme, ValidHostName, ToLower, PublicHost;
    SchemeIsHttp(r);
    PublicHostIs(Scheme(r), name, port);
    var base := Scheme(r) + "://" + PublicHost(Scheme(r), ToLower(r.host));
    assert base + "" == base && base + "/npm" == Scheme(r) + ("://" + PublicHost(Scheme(r), ToLower(r.host)) + "/npm");
  }

  lemma NotThere(s: string)
    requires ':' !in s
    ensures IndexOf(s, ':') == |s|
  {}

  lemma SchemeIsHttp(r: Request)
    ensures Scheme(r) == "http" || Scheme(r) == "https"
  {}

  /** The host and the path that a client takes from a URL. */
  function Target(scheme: string, url: string): (string, string)
    requires scheme + "://" <= url
  {
    var rest := url[|scheme| + 3..];
    var i := IndexOf(rest, '/');
    (rest[..i], rest[i..])
  }

  /** Leaving out a default port does not change which host it is. */
  lemma SameHost(scheme: string, host: string)
    requires ValidHostName(PublicHost(scheme, ToLower(host)))
    ensures NormalizeHost(PublicHost(scheme, ToLower(host))) == NormalizeHost(host)
  {
    hide ValidHostName, NormalizeHost, LastIndex, IndexOf;
    var h := ToLower(host);
    var p, i := PublicHost(scheme, h), IndexOf(h, ':');
    if p != h {
      var port := h[i + 1..];
      assert h == p + [':'] + port;
      ValidWithPort(p, port);
      LastIndexHere(p, ':', port);
      assert h[..|p|] == p && ':' !in p;
      LowerTwice(host);
      LowerPrefix(h, p);
      NoLastIndex(p, ':');
      NormalOf(h);
      NormalOf(p);
      NormalLower(host);
    } else {
      LowerTwice(host);
      NormalLower(host);
    }
  }

  lemma ValidWithPort(p: string, port: string)
    requires ValidHostName(p) && (port == "443" || port == "80")
    ensures ValidHostName(p + [':'] + port) && ':' !in port
  {}

  lemma LowerPrefix(h: string, p: string)
    requires ToLower(h) == h && p <= h
    ensures ToLower(p) == p
  {
    LowerSlice(h, |p|);
  }

  /** A request that reaches the npm front-end came to its own host, or to one that is
      no front-end's. */
  lemma ReachedNpm(routes: map<string, Route>, host: string, path: string)
    requires RoutesOk(routes) && "/npm/" <= Routed(routes, host, path).0
    ensures var h := NormalizeHost(host);
      if Routed(routes, host, path).1 then h in routes && routes[h] == Route("/npm", false) else h !in routes
  {
    hide NormalizeHost;
    var h, p := NormalizeHost(host), Routed(routes, host, path).0;
    assert p[1] == 'n' && p[2] == 'p';
    if h in routes {
      var kind :| kind in ROOTS && routes[h] == Route(ROOTS[kind], kind == "nix");
      assert ROOTS[kind][1] == 'n' && ROOTS[kind][2] == 'p' <==> kind == "npm";
      assert "/nix/" <= path ==> path[2] == 'i';
    }
  }

  function TarballPath(name: string, file: string): string { "/" + name + "/-/" + file }

  lemma TargetOf(scheme: string, host: string, path: string)
    requires '/' !in host && path != "" && path[0] == '/'
    ensures scheme + "://" <= scheme + "://" + host + path
    ensures Target(scheme, scheme + "://" + host + path) == (host, path)
  {
    hide IndexOf;
    var rest := host + path;
    assert scheme + "://" + host + path == scheme + "://" + rest;
    IndexOfHere(host, '/', path[1..]);
    assert rest == host + ['/'] + path[1..];
    assert (scheme + "://" + rest)[|scheme| + 3..] == rest;
  }

  lemma RoutesToTarball(name: string, file: string, abbreviated: bool)
    requires N.IsName(name) && N.ValidTarball(name, file)
    ensures K.RouteNpm(TarballPath(name, file), abbreviated) == Some(K.Tarball(name, file))
  {
    hide N.ValidTarball, N.SplitName, N.ValidElement, Split, Join;
    var p, tail := TarballPath(name, file), ["-", file];
    N.NameElements(name);
    N.TarballPlain(name, file);
    K.JoinTwo(file);
    N.NameThenTail(name, tail);
    assert p[1..] == name + "/" + ("-/" + file);
    assert p[1] == name[0];
  }

  /** The registry's address, as documents write it. */
  function Registry(registry: K.Url): string { TrimSlash(registry.origin + registry.path) }

  predicate UrlOk(registry: K.Url) {
    registry.origin != "" && registry.origin[|registry.origin| - 1] != '/' &&
      (registry.path == "" || registry.path[0] == '/')
  }

  lemma RegistryIs(registry: K.Url)
    requires UrlOk(registry)
    ensures Registry(registry) == registry.origin + TrimSlash(registry.path)
  {
    var whole := registry.origin + registry.path;
    if registry.path == "" {
      assert whole == registry.origin;
    } else {
      assert whole[|whole| - 1] == registry.path[|registry.path| - 1];
    }
  }

  /** The address that the registry gives a tarball. */
  function Original(registry: K.Url, name: string, file: string): string {
    Registry(registry) + TarballPath(name, file)
  }

  /** The form of the registry's address that old documents have. */
  function HttpForm(reg: string): string
    requires "https://" <= reg
  {
    "http://" + reg[8..] + "/"
  }

  /** The second pass of the rewriting strikes the address that the first has written.
      `tail` is the tarball's path without its slash. */
  predicate StruckTwice(reg: string, base: string, tail: string) {
    "https://" <= reg && HttpForm(reg) != base + "/" && HttpForm(reg) <= base + "/" + tail
  }

  function Tail(name: string, file: string): string { name + "/-/" + file }

  /** What the rewriting leaves behind the base address. */
  function Left(reg: string, base: string, tail: string): string {
    if StruckTwice(reg, base, tail) then (base + "/" + tail)[|HttpForm(reg)|..] else tail
  }

  lemma FinalIs(upstream: string, base: string, tail: string)
    ensures var reg := TrimSlash(upstream);
      R.EditValue(reg + "/" + tail, R.Registries(upstream), base + "/") == base + "/" + Left(reg, base, tail)
  {
    var reg, to := TrimSlash(upstream), base + "/";
    var froms, raw := R.Registries(upstream), reg + "/" + tail;
    assert raw == (reg + "/") + tail && raw[|reg| + 1..] == tail;
    assert froms[0] == reg + "/";
    if "https://" <= reg {
      assert froms[1] == HttpForm(reg);
      TwoPasses(raw, froms, to);
      assert (to + tail)[|to|..] == tail;
    } else {
      OnePass(raw, froms, to);
    }
  }

  lemma OnePass(raw: string, froms: seq<string>, to: string)
    requires |froms| == 1 && froms[0] <= raw
    ensures R.EditValue(raw, froms, to) == to + raw[|froms[0]|..]
  {}

  lemma TwoPasses(raw: string, froms: seq<string>, to: string)
    requires |froms| == 2 && froms[0] <= raw
    ensures var once := to + raw[|froms[0]|..];
      R.EditValue(raw, froms, to) == if froms[1] <= once then to + once[|froms[1]|..] else once
  {
    var once := to + raw[|froms[0]|..];
    var rest := froms[1..];
    assert rest == [froms[1]] && rest[1..] == [];
    assert R.EditValue(raw, froms, to) == R.EditValue(once, rest, to);
    if froms[1] <= once { OnePass(once, rest, to); }
  }

  /** The part of the service that answers a client which follows an address, when that
      is the npm front-end. */
  function Lands(routes: map<string, Route>, scheme: string, url: string, abbreviated: bool): Option<K.Use> {
    if !(scheme + "://" <= url) then None else
    var (host, path) := Target(scheme, url);
    var p := Routed(routes, host, path).0;
    if "/npm/" <= p then K.RouteNpm(p[4..], abbreviated) else None
  }

  /** Every address under a base that a packument was given leads back to the npm
      front-end, at the npm host's own root and under /npm alike. */
  lemma LandsUnderBase(routes: map<string, Route>, first: Request, left: string, abbreviated: bool)
    requires RoutesOk(routes) && "/npm/" <= Routed(routes, first.host, first.path).0
    requires PublicBase(first, Routed(routes, first.host, first.path).1).Some?
    ensures var base := PublicBase(first, Routed(routes, first.host, first.path).1).value;
      Lands(routes, Scheme(first), base + "/" + left, abbreviated) == K.RouteNpm("/" + left, abbreviated)
  {
    hide NormalizeHost, Scheme, PublicHost, K.RouteNpm, ValidHostName, Target, RoutesOk;
    var atRoot, scheme := Routed(routes, first.host, first.path).1, Scheme(first);
    var host := PublicHost(scheme, ToLower(first.host));
    var path := if atRoot then "/" + left else "/npm" + ("/" + left);
    HostHasNoSlash(host);
    TargetOf(scheme, host, path);
    SameHost(scheme, first.host);
    ReachedNpm(routes, first.host, first.path);
    Joined(scheme, host, atRoot, left);
    assert Routed(routes, host, path).0 == "/npm" + ("/" + left);
    assert ("/npm" + ("/" + left))[4..] == "/" + left;
    assert "/npm" + ("/" + left) == "/npm/" + left;
  }

  lemma Joined(scheme: string, host: string, atRoot: bool, left: string)
    ensures (scheme + "://" + host + (if atRoot then "" else "/npm")) + "/" + left
      == scheme + "://" + host + (if atRoot then "/" + left else "/npm" + ("/" + left))
  {}

  /** Only a tarball's own path is routed to it. */
  lemma OnlyItsPath(c: K.Config, left: string, name: string, file: string, abbreviated: bool)
    requires N.IsName(name) && N.ValidTarball(name, file)
    ensures K.RouteNpm("/" + left, abbreviated) == Some(K.Tarball(name, file)) <==> left == Tail(name, file)
  {
    hide K.RouteNpm, N.IsName, N.ValidTarball;
    assert TarballPath(name, file) == "/" + Tail(name, file);
    RoutesToTarball(name, file, abbreviated);
    if K.RouteNpm("/" + left, abbreviated) == Some(K.Tarball(name, file)) {
      K.NpmRoutes(c, "/" + left, abbreviated);
      assert ("/" + left)[1..] == left && TarballPath(name, file)[1..] == Tail(name, file);
    }
  }

  lemma StruckIsElsewhere(reg: string, base: string, tail: string)
    ensures Left(reg, base, tail) == tail <==> !StruckTwice(reg, base, tail)
  {
    if StruckTwice(reg, base, tail) {
      var whole, h, to := base + "/" + tail, HttpForm(reg), base + "/";
      assert whole[..|h|] == h && whole[..|to|] == to;
    }
  }

  predicate PlainUrl(registry: K.Url) { R.Plain(registry.origin) && R.Plain(registry.path) }

  lemma PlainBase(first: Request, atRoot: bool)
    requires PublicBase(first, atRoot).Some?
    ensures R.Plain(PublicBase(first, atRoot).value + "/")
  {
    hide Scheme, PublicHost;
    assert R.Plain(Scheme(first)) by { PlainScheme(first); }
  }

  lemma PlainScheme(first: Request)
    ensures R.Plain(Scheme(first))
  {
    hide Split, TrimSpace;
    assert Scheme(first) == "http" || Scheme(first) == "https";
  }

  /** The tarball's address in the rewritten packument. */
  lemma RewrittenAt(ts: seq<R.Token>, i: nat, registry: K.Url, base: string, name: string, file: string)
    requires PlainUrl(registry) && R.Plain(base + "/")
    requires R.Lawful(R.Free, ts) && i < |ts| && R.CtxAt(R.Free, ts, i) == R.KeyColon
    requires ts[i] == R.Str(Original(registry, name, file))
    ensures var froms := R.Registries(registry.origin + registry.path);
      && (forall k | 0 <= k < |froms| :: R.Plain(froms[k]))
      && var es := R.EditEach(ts, froms, base + "/");
      && R.ReplaceEach(R.Flat(R.Free, ts), froms, base + "/") == R.Flat(R.Free, es)
      && es[i] == R.Str(base + "/" + Left(Registry(registry), base, Tail(name, file)))
  {
    hide R.EditEach, R.Lawful, R.CtxAt, R.Flat, R.Plain, R.Registries, Left, R.ReplaceEach, R.EditValue, TrimSlash;
    var upstream, tail := registry.origin + registry.path, Tail(name, file);
    PlainSum(registry);
    J.PlainRegistries(upstream);
    R.RewritingIsEditing(ts, R.Registries(upstream), base + "/");
    R.EditEachAt(ts, R.Registries(upstream), base + "/", i);
    assert Original(registry, name, file) == Registry(registry) + "/" + tail;
    FinalIs(upstream, base, tail);
  }

  lemma ChainIs(c: K.Config, name: string, file: string)
    requires UrlOk(c.registry)
    ensures K.Chain(c, K.Tarball(name, file)) == [Original(c.registry, name, file)]
  {
    hide TrimSlash;
    RegistryIs(c.registry);
    assert K.JoinUrl(c.registry, TarballPath(name, file)) == Registry(c.registry) + TarballPath(name, file);
  }

  /** A packument `ts` with a tarball's address in it, rewritten byte by byte for a
      client: the address that the client then has leads back through the routes to that
      tarball if and only if the second pass of the rewriting did not strike it, and
      upstream is then asked for exactly the address that the registry gave. */
  lemma TarballsComeBack(c: K.Config, routes: map<string, Route>, first: Request, ts: seq<R.Token>, i: nat,
    name: string, file: string, abbreviated: bool)
    requires RoutesOk(routes) && UrlOk(c.registry) && PlainUrl(c.registry) && N.IsName(name)
    requires N.ValidTarball(name, file)
    requires "/npm/" <= Routed(routes, first.host, first.path).0
    requires PublicBase(first, Routed(routes, first.host, first.path).1).Some?
    requires R.Lawful(R.Free, ts) && i < |ts| && R.CtxAt(R.Free, ts, i) == R.KeyColon
    requires ts[i] == R.Str(Original(c.registry, name, file))
    ensures var base := PublicBase(first, Routed(routes, first.host, first.path).1).value;
      var froms := R.Registries(c.registry.origin + c.registry.path);
      && R.Plain(base + "/") && (forall k | 0 <= k < |froms| :: R.Plain(froms[k]))
      && var es := R.EditEach(ts, froms, base + "/");
      && R.ReplaceEach(R.Flat(R.Free, ts), froms, base + "/") == R.Flat(R.Free, es)
      && es[i].Str?
      && (Lands(routes, Scheme(first), es[i].raw, abbreviated) == Some(K.Tarball(name, file))
          <==> !StruckTwice(Registry(c.registry), base, Tail(name, file)))
    ensures K.Chain(c, K.Tarball(name, file)) == [Original(c.registry, name, file)]
  {
    hide N.IsName, N.ValidTarball, Scheme, PublicBase, K.RouteNpm, R.EditEach, R.Lawful, R.CtxAt, R.Flat, RoutesOk,
      Routed, R.Plain, R.Registries, R.ReplaceEach, StruckTwice, Left, Lands, K.Chain, Original, Tail, Registry, UrlOk,
      PlainUrl;
    var base := PublicBase(first, Routed(routes, first.host, first.path).1).value;
    var left := Left(Registry(c.registry), base, Tail(name, file));
    PlainBase(first, Routed(routes, first.host, first.path).1);
    RewrittenAt(ts, i, c.registry, base, name, file);
    LandsUnderBase(routes, first, left, abbreviated);
    OnlyItsPath(c, left, name, file, abbreviated);
    StruckIsElsewhere(Registry(c.registry), base, Tail(name, file));
    ChainIs(c, name, file);
  }

  lemma PlainSum(registry: K.Url)
    requires PlainUrl(registry)
    ensures R.Plain(registry.origin + registry.path)
  {}

  lemma HostHasNoSlash(host: string)
    requires ValidHostName(host)
    ensures '/' !in host
  {}

  /** The address of an old document, in the registry's http form, is struck once only
      and always comes back: to the tarball on https. */
  lemma OldAddressesComeBack(c: K.Config, routes: map<string, Route>, first: Request, name: string, file: string,
      abbreviated: bool)
    requires RoutesOk(routes) && "https://" <= Registry(c.registry) && N.IsName(name) && N.ValidTarball(name, file)
    requires "/npm/" <= Routed(routes, first.host, first.path).0
    requires PublicBase(first, Routed(routes, first.host, first.path).1).Some?
    ensures var base := PublicBase(first, Routed(routes, first.host, first.path).1).value;
      var froms := R.Registries(c.registry.origin + c.registry.path);
      var last := R.EditValue(HttpForm(Registry(c.registry)) + Tail(name, file), froms, base + "/");
      Lands(routes, Scheme(first), last, abbreviated) == Some(K.Tarball(name, file))
  {
    hide N.IsName, N.ValidTarball, Scheme, PublicBase, RoutesOk, Routed, Lands, TrimSlash, R.EditValue;
    var base := PublicBase(first, Routed(routes, first.host, first.path).1).value;
    OldFinalIs(Registry(c.registry), R.Registries(c.registry.origin + c.registry.path), base + "/", Tail(name, file));
    LandsUnderBase(routes, first, Tail(name, file), abbreviated);
    OnlyItsPath(c, Tail(name, file), name, file, abbreviated);
  }

  lemma OldFinalIs(reg: string, froms: seq<string>, to: string, tail: string)
    requires "https://" <= reg && froms == [reg + "/", HttpForm(reg)]
    ensures R.EditValue(HttpForm(reg) + tail, froms, to) == to + tail
  {
    var raw := HttpForm(reg) + tail;
    assert raw[4] == ':' && (reg + "/")[4] == 's';
    assert froms[1..] == [HttpForm(reg)];
    OnePass(raw, [HttpForm(reg)], to);
  }

  // ------------------------------------------------------ addresses that are lost

  /** A registry on https, and a client that calls itself its namesake on http: every
      address is struck twice. */
  lemma NamesakeIsStruck(host: string, tail: string)
    ensures var reg, base := "https://" + host, "http://" + host + "/npm";
      StruckTwice(reg, base, tail) && Left(reg, base, tail) == "npm/" + tail
  {
    var reg, base := "https://" + host, "http://" + host + "/npm";
    assert reg[8..] == host;
    var whole := base + "/" + tail;
    assert whole == HttpForm(reg) + ("npm/" + tail);
  }

  /** So is a package whose name goes on where the client's address ends and the
      registry's does not. */
  lemma ContinuationIsStruck(host: string, name: string, file: string)
    ensures var reg, base := "https://" + host + "/" + name, "http://" + host;
      StruckTwice(reg, base, Tail(name, file)) && Left(reg, base, Tail(name, file)) == "-/" + file
  {
    var reg, base := "https://" + host + "/" + name, "http://" + host;
    assert reg == "https://" + (host + "/" + name);
    assert reg[8..] == host + "/" + name;
    var whole := base + "/" + Tail(name, file);
    assert HttpForm(reg) == base + "/" + (name + "/");
    assert whole == HttpForm(reg) + ("-/" + file);
    assert |HttpForm(reg)| > |base + "/"|;
  }

  /** Nothing is struck twice when neither address, with its slash, goes on where the
      other ends: not for any package. */
  lemma ApartIsNeverStruck(reg: string, base: string, tail: string)
    requires "https://" <= reg ==>
      HttpForm(reg) == base + "/" || !(HttpForm(reg) <= base + "/" || base + "/" <= HttpForm(reg))
    ensures !StruckTwice(reg, base, tail)
  {
    if "https://" <= reg && HttpForm(reg) <= base + "/" + tail { PrefixesMeet(HttpForm(reg), base + "/", tail); }
  }
}
