/** Where every front-end keeps what it serves: the way from a request's path to a
    store key and the upstreams that are asked for it. */
module StoreKeys {
  import opened Common
  import opened Text
  import opened NpmNames
  import I = NarIndex
  import Nix32

  /** A base URL: `https://host`, and the path. */
  datatype Url = Url(origin: string, path: string)

  /** joinURL. */
  function JoinUrl(base: Url, p: string): string { base.origin + TrimSlash(base.path) + p }

  datatype Front = Nix | Go | Maven | Gradle | Npm

  datatype Prefixed = Prefixed(on: bool, val: string)

  datatype Config = Config(
    nix: Prefixed, nixUpstream: Url,
    go: Prefixed, goUpstream: Url, sumdb: string, sumdbUpstream: Url,
    maven: Prefixed, repos: map<string, seq<Url>>,
    gradle: Prefixed,
    npm: Prefixed, registry: Url)

  function Prefixes(c: Config): seq<Prefixed> { [c.nix, c.go, c.maven, c.gradle, c.npm] }

  function Number(f: Front): nat {
    match f case Nix => 0 case Go => 1 case Maven => 2 case Gradle => 3 case Npm => 4
  }

  // ------------------------------------------------------------ the configuration

  predicate Overlap(a: string, b: string) { a <= b || b <= a }

  /** What validate asks of the prefixes. */
  ghost predicate Apart(all: seq<Prefixed>) {
    && (forall i | 0 <= i < |all| && all[i].on :: all[i].val != "")
    && (forall i, j | 0 <= i < j < |all| && all[i].on && all[j].on :: !Overlap(all[i].val, all[j].val))
  }

  datatype Problem = EmptyPrefix | Overlapping(a: string, b: string)

  function Kept(all: seq<Prefixed>): seq<string> {
    if all == [] then [] else
    var p := all[|all| - 1];
    Kept(all[..|all| - 1]) + (if p.on && p.val != "" then [p.val] else [])
  }

  ghost predicate KeptApart(vals: seq<string>) { forall i, j | 0 <= i < j < |vals| :: !Overlap(vals[i], vals[j]) }

  ghost predicate NoneEmpty(all: seq<Prefixed>) { forall i | 0 <= i < |all| && all[i].on :: all[i].val != "" }

  /** v is the prefix of a front-end that is on. */
  ghost predicate Uses(all: seq<Prefixed>, v: string) { exists i :: 0 <= i < |all| && all[i].on && all[i].val == v }

  lemma UsesLast(all: seq<Prefixed>, v: string)
    requires all != []
    ensures var p := all[|all| - 1]; Uses(all, v) <==> Uses(all[..|all| - 1], v) || (p.on && p.val == v)
  {
    var init := all[..|all| - 1];
    if Uses(init, v) {
      var i :| 0 <= i < |init| && init[i].on && init[i].val == v;
      assert all[i] == init[i];
    }
    if Uses(all, v) {
      var i :| 0 <= i < |all| && all[i].on && all[i].val == v;
      assert i < |init| ==> init[i] == all[i];
    }
  }

  lemma {:induction false} KeptUses(all: seq<Prefixed>)
    requires NoneEmpty(all)
    ensures forall v :: v in Kept(all) <==> Uses(all, v)
  {
    hide Uses;
    if all == [] {
      forall v ensures !Uses([], v) { UsesNothing(v); }
    } else {
      KeptUses(all[..|all| - 1]);
      forall v ensures v in Kept(all) <==> Uses(all, v) { UsesLast(all, v); }
    }
  }

  lemma UsesNothing(v: string)
    ensures !Uses([], v)
  {}

  lemma {:induction false} KeptMeans(all: seq<Prefixed>)
    requires NoneEmpty(all)
    ensures KeptApart(Kept(all)) <==> Apart(all)
  {
    hide Overlap, Uses, KeptApart, Apart, Kept;
    if all == [] {
      NothingApart();
    } else {
      var init, p := all[..|all| - 1], all[|all| - 1];
      KeptMeans(init);
      KeptUses(init);
      KeptNext(all, |all| - 1);
      assert all[..|all|] == all;
      ApartLast(all);
      if p.on { KeptAppend(Kept(init), p.val); } else { assert Kept(init) + [] == Kept(init); }
    }
  }

  lemma NothingApart()
    ensures KeptApart(Kept([])) && Apart([])
  {}

  lemma KeptAppend(vals: seq<string>, v: string)
    ensures KeptApart(vals + [v]) <==> KeptApart(vals) && forall u | u in vals :: !Overlap(u, v)
  {
    hide Overlap;
    var all := vals + [v];
    if KeptApart(all) {
      forall i, j | 0 <= i < j < |vals|
        ensures !Overlap(vals[i], vals[j])
      {
        assert all[i] == vals[i] && all[j] == vals[j];
      }
      forall u | u in vals ensures !Overlap(u, v) {
        var i :| 0 <= i < |vals| && vals[i] == u;
        assert all[i] == u && all[|vals|] == v;
      }
    }
  }

  lemma ApartLast(all: seq<Prefixed>)
    requires all != [] && NoneEmpty(all)
    ensures var init, p := all[..|all| - 1], all[|all| - 1];
      Apart(all) <==> Apart(init) && (p.on ==> forall v | Uses(init, v) :: !Overlap(v, p.val))
  {
    hide Overlap;
    var init, last := all[..|all| - 1], |all| - 1;
    assert forall i | 0 <= i < last :: init[i] == all[i];
    if Apart(all) {
      forall i, j | 0 <= i < j < last && init[i].on && init[j].on
        ensures !Overlap(init[i].val, init[j].val)
      {
        assert !Overlap(all[i].val, all[j].val);
      }
      forall v | all[last].on && Uses(init, v) ensures !Overlap(v, all[last].val) {
        var i :| 0 <= i < |init| && init[i].on && init[i].val == v;
        assert !Overlap(all[i].val, all[last].val);
      }
    }
    if Apart(init) && (all[last].on ==> forall v | Uses(init, v) :: !Overlap(v, all[last].val)) {
      forall i, j | 0 <= i < j < |all| && all[i].on && all[j].on ensures !Overlap(all[i].val, all[j].val) {
        if j < last { assert !Overlap(init[i].val, init[j].val); } else { assert Uses(init, all[i].val); }
      }
    }
  }

  /** The part of validate that is about the prefixes: no problem exactly when no two
      front-ends that are on can share a key by their prefixes. */
  method ValidatePrefixes(all: seq<Prefixed>) returns (problems: seq<Problem>)
    ensures problems == [] <==> Apart(all)
  {
    hide Overlap, Kept;
    problems := [];
    var prefixes: seq<string> := [];
    KeptNone();
    var k := 0;
    while k < |all|
      invariant 0 <= k <= |all|
      invariant prefixes == Kept(all[..k])
      invariant problems == [] <==> forall i | 0 <= i < k && all[i].on :: all[i].val != ""
    {
      KeptNext(all, k);
      var p := all[k];
      k := k + 1;
      if !p.on { continue; }
      if p.val == "" {
        problems := problems + [EmptyPrefix];
        continue;
      }
      prefixes := prefixes + [p.val];
    }
    assert all[..k] == all;
    if problems == [] { KeptMeans(all); }
    ghost var first := problems;
    var i := 0;
    while i < |prefixes|
      invariant 0 <= i <= |prefixes|
      invariant problems == [] <==> first == [] && forall a, b | 0 <= a < i && a < b < |prefixes| ::
        !Overlap(prefixes[a], prefixes[b])
    {
      var j := i + 1;
      while j < |prefixes|
        invariant i + 1 <= j <= |prefixes|
        invariant problems == [] <==>
          && first == [] && (forall a, b | 0 <= a < i && a < b < |prefixes| :: !Overlap(prefixes[a], prefixes[b]))
          && (forall b | i < b < j :: !Overlap(prefixes[i], prefixes[b]))
      {
        if Overlap(prefixes[i], prefixes[j]) {
          problems := problems + [Overlapping(prefixes[i], prefixes[j])];
        }
        j := j + 1;
      }
      i := i + 1;
    }
  }

  lemma KeptNone()
    ensures Kept([]) == []
  {}

  lemma KeptNext(all: seq<Prefixed>, k: nat)
    requires k < |all|
    ensures Kept(all[..k + 1]) == Kept(all[..k]) + (if all[k].on && all[k].val != "" then [all[k].val] else [])
    ensures all[..0] == []
  {
    assert all[..k + 1][..k] == all[..k];
  }

  // ------------------------------------------------- what a request is a request for

  datatype Use =
    | Narinfo(hash: string)
    | Nar(file: string)
    | NarRecord(url: string)              // the index's own object
    | Module(path: string)
    | Tile(sub: string)
    | MavenFile(repo: string, rest: string)
    | Entry(key: string)
    | Tarball(name: string, file: string)
    | Packument(name: string, abbreviated: bool) // the stored copy of a mutable document

  function FrontOf(u: Use): Front {
    match u
    case Narinfo(_) => Nix case Nar(_) => Nix case NarRecord(_) => Nix
    case Module(_) => Go case Tile(_) => Go
    case MavenFile(_, _) => Maven
    case Entry(_) => Gradle
    case Tarball(_, _) => Npm case Packument(_, _) => Npm
  }

  function PrefixOf(c: Config, f: Front): Prefixed { Prefixes(c)[Number(f)] }

  /** The object's key under its front-end's prefix. */
  function Name(c: Config, u: Use): string {
    match u
    case Narinfo(hash) => hash + ".narinfo"
    case Nar(file) => "nar/" + file
    case NarRecord(url) => "nar-index/" + url + ".json"
    case Module(path) => path
    case Tile(sub) => "sumdb/" + c.sumdb + "/" + sub
    case MavenFile(repo, rest) => repo + "/" + rest
    case Entry(key) => key
    case Tarball(name, file) => name + "/-/" + file
    case Packument(name, abbreviated) => "_meta/" + name + "." + (if abbreviated then "abbreviated" else "full")
  }

  function Key(c: Config, u: Use): string { PrefixOf(c, FrontOf(u)).val + Name(c, u) }

  /** The upstream URLs asked for it, in order. */
  function Chain(c: Config, u: Use): seq<string> {
    match u
    case Narinfo(_) => [JoinUrl(c.nixUpstream, "/" + Name(c, u))]
    case Nar(_) => [JoinUrl(c.nixUpstream, "/" + Name(c, u))]
    case NarRecord(_) => []
    case Module(path) => [JoinUrl(c.goUpstream, "/" + path)]
    case Tile(sub) => [JoinUrl(c.sumdbUpstream, "/" + sub)]
    case MavenFile(repo, rest) =>
      var bases := if repo in c.repos then c.repos[repo] else [];
      seq(|bases|, i requires 0 <= i < |bases| => JoinUrl(bases[i], "/" + rest))
    case Entry(_) => []
    case Tarball(name, file) => [JoinUrl(c.registry, "/" + name + "/-/" + file)]
    case Packument(name, _) => [JoinUrl(c.registry, "/" + WireName(name))]
  }

  /** npmWireName. */
  function WireName(name: string): string {
    var i := IndexOf(name, '/');
    if i < |name| then name[..i] + "%2f" + name[i + 1..] else name
  }

  predicate PlainPath(p: string) {
    && p != "" && p[0] == '/'
    && (forall i | 0 <= i < |Split(p[1..], '/')| :: Split(p[1..], '/')[i] !in ["", ".", ".."])
    && AllIn(p, "/._~!+@-")
  }

  predicate GradleKey(k: string) {
    32 <= |k| <= 128 && forall i | 0 <= i < |k| :: '0' <= k[i] <= '9' || 'a' <= k[i] <= 'f'
  }

  /** What the rest of the model does not look into: module.UnescapePath, a canonical
      semantic version, and the expression that tiles match. */
  datatype GoRules = GoRules(modulePath: string -> bool, canonical: string -> bool, tile: string -> bool)

  predicate HasSuffix(s: string, suffix: string) { |s| >= |suffix| && s[|s| - |suffix|..] == suffix }

  /** strings.LastIndex(p, part). */
  function LastPart(p: string, part: string): (i: int)
    ensures i < 0 || (i + |part| <= |p| && p[i..i + |part|] == part)
  {
    if HasSuffix(p, part) then |p| - |part| else if p == "" then -1 else LastPart(p[..|p| - 1], part)
  }

  /** path.Ext. */
  function Ext(file: string): string {
    var i := LastIndex(file, '.');
    if i > LastIndex(file, '/') then file[i..] else ""
  }

  /** The nixFrontend, after its mount point has been taken off. */
  function RouteNix(p: string): Option<Use> {
    if p == "/nix-cache-info" then None
    else if p != "" && p[0] == '/' && HasSuffix(p[1..], ".narinfo") && |p| == 41 && Nix32.Printable(p[1..33]) then
      Some(Narinfo(p[1..33]))
    else if "/nar/" <= p && I.NarFile(p[5..]) then Some(Nar(p[5..]))
    else None
  }

  /** sumdb: the tiles of the one database that is configured. */
  function RouteSumdb(c: Config, g: GoRules, rest: string): Option<Use> {
    var i := IndexOf(rest, '/');
    if i == |rest| || rest[..i] != c.sumdb then None else
    var sub := rest[i + 1..];
    if sub == "supported" || sub == "latest" || "lookup/" <= sub || !g.tile(sub) then None else Some(Tile(sub))
  }

  function RouteModule(g: GoRules, p: string): Option<Use> {
    if p == "" || (HasSuffix(p, "/@latest") && g.modulePath(p[..|p| - 8])) then None else
    var i := LastPart(p, "/@v/");
    if i < 1 || !g.modulePath(p[..i]) then None else
    var file := p[i + 4..];
    var ext := Ext(file);
    if file != "list" && ext in [".info", ".mod", ".zip"] && |ext| <= |file| && g.canonical(file[..|file| - |ext|])
    then Some(Module(p[1..])) else None
  }

  /** The goFrontend's immutable answers. */
  function RouteGo(c: Config, g: GoRules, p: string): Option<Use> {
    if !PlainPath(p) then None
    else if "/sumdb/" <= p then RouteSumdb(c, g, p[7..])
    else RouteModule(g, p)
  }

  predicate Snapshot(rest: string) {
    var els := Split(rest, '/');
    exists i :: 0 <= i < |els| - 1 && HasSuffix(els[i], "-SNAPSHOT")
  }

  /** mutableMavenPath. */
  predicate MutableMaven(rest: string) {
    var els := Split(rest, '/');
    var file := els[|els| - 1];
    Snapshot(rest) || "maven-metadata" <= file || HasSuffix(file, "-index.xml") || "archetype-catalog" <= file
  }

  /** The mavenFrontend's immutable answers. */
  function RouteMaven(c: Config, p: string): Option<Use> {
    if p == "" || p == "/" then None else
    var q := p[1..];
    var i := IndexOf(q, '/');
    if i == |q| || q[..i] !in c.repos || c.repos[q[..i]] == [] || !PlainPath("/" + q[i + 1..]) ||
      MutableMaven(q[i + 1..]) then None
    else Some(MavenFile(q[..i], q[i + 1..]))
  }

  const GRADLE: string := "/gradle/cache/"

  /** The gradleFrontend's entries. */
  function RouteGradle(p: string): Option<Use> {
    if GRADLE <= p && GradleKey(p[|GRADLE|..]) then Some(Entry(p[|GRADLE|..])) else None
  }

  const FIXED: seq<string> := ["", "/", "/-/ping", "/-/v1/search",
    "/-/npm/v1/security/advisories/bulk", "/-/npm/v1/security/audits", "/-/npm/v1/security/audits/quick"]

  /** The npmFrontend's packuments and tarballs. */
  function RouteNpm(p: string, abbreviated: bool): Option<Use> {
    if p in FIXED || "/-/" <= p || p == "" then None else
    match SplitName(p[1..])
    case None => None
    case Some((name, tail)) =>
      if tail == [] then Some(Packument(name, abbreviated))
      else if |tail| == 2 && tail[0] == "-" && ValidTarball(name, tail[1]) then Some(Tarball(name, tail[1]))
      else None
  }

  /** What every route makes sure of. */
  predicate Valid(c: Config, u: Use) {
    match u
    case Narinfo(hash) => |hash| == 32 && Nix32.Printable(hash)
    case Nar(file) => I.NarFile(file)
    case NarRecord(url) => I.NarPath(url)
    case Module(path) => !("sumdb/" <= path)
    case Tile(_) => true
    case MavenFile(repo, _) => '/' !in repo
    case Entry(key) => GradleKey(key)
    case Tarball(name, file) => IsName(name) && ValidTarball(name, file)
    case Packument(name, _) => IsName(name)
  }

  // ------------------------------------------------- the keys the source builds

  /** A narinfo and a NAR are kept under the path they were asked by. */
  lemma NixRoutes(c: Config, p: string)
    requires RouteNix(p).Some?
    ensures var u := RouteNix(p).value;
      Valid(c, u) && FrontOf(u) == Nix && Key(c, u) == c.nix.val + p[1..] && Chain(c, u) == [JoinUrl(c.nixUpstream, p)]
  {
    var u := RouteNix(p).value;
    if u.Narinfo? {
      assert p[1..] == p[1..33] + p[1..][32..];
      assert p == "/" + p[1..];
    } else {
      assert p == "/" + ("nar/" + p[5..]);
    }
  }

  lemma TileRoute(c: Config, g: GoRules, rest: string)
    requires RouteSumdb(c, g, rest).Some?
    ensures var u := RouteSumdb(c, g, rest).value;
      u.Tile? && rest == c.sumdb + "/" + u.sub
  {
    var i := IndexOf(rest, '/');
    assert rest == rest[..i] + "/" + rest[i + 1..];
  }

  lemma TilePath(p: string, rest: string, sumdb: string, sub: string)
    requires "/sumdb/" <= p && p[7..] == rest == sumdb + "/" + sub
    ensures "/sumdb/" + sumdb <= p && p[7 + |sumdb|..] == "/" + sub && p[1..] == "sumdb/" + sumdb + "/" + sub
  {
    assert p == "/sumdb/" + sumdb + ("/" + sub);
  }

  lemma GoRoutes(c: Config, g: GoRules, p: string)
    requires RouteGo(c, g, p).Some?
    ensures var u := RouteGo(c, g, p).value;
      && Valid(c, u) && FrontOf(u) == Go && Key(c, u) == c.go.val + p[1..]
      && (u.Module? ==> Chain(c, u) == [JoinUrl(c.goUpstream, p)])
      && (u.Tile? ==> "/sumdb/" + c.sumdb <= p && Chain(c, u) == [JoinUrl(c.sumdbUpstream, p[7 + |c.sumdb|..])])
  {
    hide PlainPath, LastPart, Ext, HasSuffix, RouteSumdb, JoinUrl;
    var u := RouteGo(c, g, p).value;
    PlainStart(p);
    if "/sumdb/" <= p {
      TileRoute(c, g, p[7..]);
      TilePath(p, p[7..], c.sumdb, u.sub);
    } else {
      SumdbStart(p);
      assert p == "/" + p[1..];
    }
  }

  lemma SumdbStart(p: string)
    requires p != "" && p[0] == '/' && !("/sumdb/" <= p)
    ensures !("sumdb/" <= p[1..])
  {
    PrefixSplit("/", "sumdb/", p);
    assert "/" + "sumdb/" == "/sumdb/";
  }

  lemma PlainStart(p: string)
    requires PlainPath(p)
    ensures p != "" && p[0] == '/'
  {}

  lemma MavenRoutes(c: Config, p: string)
    requires RouteMaven(c, p).Some? && p[0] == '/'
    ensures var u := RouteMaven(c, p).value;
      && Valid(c, u) && FrontOf(u) == Maven && Key(c, u) == c.maven.val + p[1..]
      && "/" + u.repo <= p && u.repo in c.repos && |Chain(c, u)| == |c.repos[u.repo]| > 0
      && (forall i | 0 <= i < |Chain(c, u)| :: Chain(c, u)[i] == JoinUrl(c.repos[u.repo][i], p[1 + |u.repo|..]))
  {
    hide PlainPath, MutableMaven, JoinUrl;
    var q := p[1..];
    var i := IndexOf(q, '/');
    assert q == q[..i] + "/" + q[i + 1..];
    assert p == "/" + q[..i] + ("/" + q[i + 1..]);
  }

  /** An entry is kept under the last element of its path, and has no upstream. */
  lemma GradleRoutes(c: Config, p: string)
    requires RouteGradle(p).Some?
    ensures var u := RouteGradle(p).value;
      && Valid(c, u) && FrontOf(u) == Gradle && Chain(c, u) == []
      && p == GRADLE + u.key && '/' !in u.key && Key(c, u) == c.gradle.val + p[LastIndex(p, '/') + 1..]
  {
    var u := RouteGradle(p).value;
    assert p == "/gradle/cache" + ['/'] + u.key;
    LastIndexHere("/gradle/cache", '/', u.key);
  }

  lemma NpmRoutes(c: Config, p: string, abbreviated: bool)
    requires RouteNpm(p, abbreviated).Some? && p[0] == '/'
    ensures var u := RouteNpm(p, abbreviated).value;
      && Valid(c, u) && FrontOf(u) == Npm
      && (u.Tarball? ==>
        p == "/" + u.name + "/-/" + u.file && Key(c, u) == c.npm.val + p[1..] &&
          Chain(c, u) == [JoinUrl(c.registry, p)])
      && (u.Packument? ==> p == "/" + u.name && u.abbreviated == abbreviated)
      && (u.Packument? ==> Key(c, u) == c.npm.val + "_meta" + p + "." + (if abbreviated then "abbreviated" else "full"))
      && (u.Packument? ==> Chain(c, u) == [JoinUrl(c.registry, "/" + WireName(p[1..]))] && '/' !in WireName(p[1..]))
  {
    hide SplitName, ValidTarball, IsName, Join, JoinUrl, WireName;
    SplitIsName(p[1..]);
    var u := RouteNpm(p, abbreviated).value;
    assert p == "/" + p[1..];
    if u.Tarball? {
      var tail := SplitName(p[1..]).value.1;
      assert tail == ["-", u.file];
      JoinTwo(u.file);
      TarballPath(p, u.name, u.file);
    } else {
      assert p[1..] == u.name;
      PackumentKey(c, u);
      WireIsOneElement(u.name);
    }
  }

  lemma PackumentKey(c: Config, u: Use)
    requires u.Packument?
    ensures Key(c, u) == c.npm.val + "_meta" + ("/" + u.name) + "." + (if u.abbreviated then "abbreviated" else "full")
  {
    assert "_meta/" + u.name == "_meta" + ("/" + u.name);
  }

  /** A scoped name has one slash, which is escaped. */
  lemma WireIsOneElement(name: string)
    requires IsName(name)
    ensures '/' !in WireName(name)
  {
    hide IsName;
    var els := Split(name, '/');
    NameElements(name);
    SplitJoins(name, '/');
    if |els| == 2 {
      assert els[..1] == [els[0]];
      assert name == els[0] + ['/'] + els[1];
      IndexOfHere(els[0], '/', els[1]);
      assert name[..|els[0]|] == els[0] && name[|els[0]| + 1..] == els[1];
    }
  }

  lemma JoinTwo(file: string)
    ensures Join(["-", file], '/') == "-/" + file
  {
    assert ["-", file][..1] == ["-"];
  }

  lemma TarballPath(p: string, name: string, file: string)
    requires p == "/" + (name + "/" + ("-/" + file))
    ensures p == "/" + name + "/-/" + file && p[1..] == name + "/-/" + file
  {}

  // ------------------------------------------------------------- no two collide

  lemma NixNames(c: Config, a: Use, b: Use)
    requires Valid(c, a) && Valid(c, b) && FrontOf(a) == FrontOf(b) == Nix && Name(c, a) == Name(c, b)
    ensures a == b
  {
    hide Name, Valid;
    NixShape(c, a);
    NixShape(c, b);
  }

  lemma NixShape(c: Config, u: Use)
    requires Valid(c, u) && FrontOf(u) == Nix
    ensures var n := Name(c, u);
      match u
      case Narinfo(hash) => |n| == 40 && n[..32] == hash && '/' !in n
      case Nar(file) => |n| >= 4 && n[3] == '/' && n[4..] == file && '/' in n
      case NarRecord(url) => |n| >= 15 && n[3] == '-' && n[10..|n| - 5] == url && '/' in n
  {
    hide I.NarFile;
    var n := Name(c, u);
    match u
    case Narinfo(hash) => PrintablePlain(hash);
    case Nar(file) => assert n[3] == '/';
    case NarRecord(url) => assert n[9] == '/';
  }

  lemma PrintablePlain(h: string)
    requires Nix32.Printable(h)
    ensures '/' !in h
  {
    hide Nix32.IsNix32Char;
    forall i | 0 <= i < |h| ensures h[i] != '/' { Nix32.CharsAreTheAlphabet(h[i]); SlashIsNot(h[i]); }
  }

  lemma SlashIsNot(x: char)
    ensures Nix32.IsNix32Char(x) ==> x != '/'
  {}

  lemma GoNames(c: Config, a: Use, b: Use)
    requires Valid(c, a) && Valid(c, b) && FrontOf(a) == FrontOf(b) == Go && Name(c, a) == Name(c, b)
    ensures a == b
  {
    GoShape(c, a);
    GoShape(c, b);
    if a.Tile? {
      var head := "sumdb/" + c.sumdb + "/";
      assert Name(c, a)[|head|..] == a.sub && Name(c, b)[|head|..] == b.sub;
    }
  }

  lemma GoShape(c: Config, u: Use)
    requires Valid(c, u) && FrontOf(u) == Go
    ensures u.Tile? <==> "sumdb/" <= Name(c, u)
    ensures u.Tile? ==> Name(c, u) == "sumdb/" + c.sumdb + "/" + u.sub
  {
    if u.Tile? { assert Name(c, u) == "sumdb/" + (c.sumdb + "/" + u.sub); }
  }

  lemma NpmNamesApart(c: Config, a: Use, b: Use)
    requires Valid(c, a) && Valid(c, b) && FrontOf(a) == FrontOf(b) == Npm && Name(c, a) == Name(c, b)
    ensures a == b
  {
    hide IsName, ValidTarball;
    NpmShape(c, a);
    NpmShape(c, b);
    if a.Tarball? {
      assert Name(c, a) == (a.name + "/-") + ['/'] + a.file && Name(c, b) == (b.name + "/-") + ['/'] + b.file;
      LastCutsAgree(a.name + "/-", b.name + "/-", a.file, b.file, '/');
      assert (a.name + "/-")[..|a.name|] == a.name && (b.name + "/-")[..|b.name|] == b.name;
    } else {
      MetaNames(c, a, b);
    }
  }

  /** Names do not begin with the underscore that the packuments' directory does. */
  lemma NpmShape(c: Config, u: Use)
    requires Valid(c, u) && FrontOf(u) == Npm
    ensures u.Packument? <==> "_" <= Name(c, u)
    ensures u.Tarball? ==> '/' !in u.file
  {
    hide ValidTarball;
    NameElements(u.name);
    if u.Tarball? {
      TarballPlain(u.name, u.file);
      assert Name(c, u)[0] == u.name[0];
    }
  }

  lemma MetaNames(c: Config, a: Use, b: Use)
    requires a.Packument? && b.Packument? && Name(c, a) == Name(c, b)
    ensures a == b
  {
    MetaEnd(c, a);
    MetaEnd(c, b);
    var n, k := Name(c, a), if a.abbreviated then 12 else 5;
    assert n[6..|n| - k] == a.name && n[6..|n| - k] == b.name;
  }

  lemma MetaEnd(c: Config, u: Use)
    requires u.Packument?
    ensures var n, k := Name(c, u), if u.abbreviated then 12 else 5;
      |n| == 6 + |u.name| + k && n[6..|n| - k] == u.name && n[|n| - 1] == if u.abbreviated then 'd' else 'l'
  {}

  lemma NamesAreInjective(c: Config, a: Use, b: Use)
    requires Valid(c, a) && Valid(c, b) && FrontOf(a) == FrontOf(b) && Name(c, a) == Name(c, b)
    ensures a == b
  {
    hide Valid, Name;
    match FrontOf(a)
    case Nix => NixNames(c, a, b);
    case Go => GoNames(c, a, b);
    case Maven => MavenNames(c, a, b);
    case Gradle => EntryNames(c, a, b);
    case Npm => NpmNamesApart(c, a, b);
  }

  lemma MavenNames(c: Config, a: Use, b: Use)
    requires Valid(c, a) && Valid(c, b) && FrontOf(a) == FrontOf(b) == Maven && Name(c, a) == Name(c, b)
    ensures a == b
  {
    assert a.repo + "/" + a.rest == a.repo + ['/'] + a.rest && b.repo + "/" + b.rest == b.repo + ['/'] + b.rest;
    CutsAgree(a.repo, b.repo, a.rest, b.rest, '/');
  }

  lemma EntryNames(c: Config, a: Use, b: Use)
    requires FrontOf(a) == FrontOf(b) == Gradle && Name(c, a) == Name(c, b)
    ensures a == b
  {}

  predicate On(c: Config, u: Use) { PrefixOf(c, FrontOf(u)).on }

  /** In a configuration that validate accepts, two objects with the same key are the
      same object of the same front-end, fetched from the same upstreams. */
  lemma KeysAreInjective(c: Config, a: Use, b: Use)
    requires Apart(Prefixes(c)) && On(c, a) && On(c, b) && Valid(c, a) && Valid(c, b)
    requires Key(c, a) == Key(c, b)
    ensures a == b && FrontOf(a) == FrontOf(b) && Chain(c, a) == Chain(c, b)
  {
    hide Valid, Name, Chain, FrontOf;
    var p, q := PrefixOf(c, FrontOf(a)).val, PrefixOf(c, FrontOf(b)).val;
    if FrontOf(a) == FrontOf(b) {
      assert Key(c, a)[|p|..] == Name(c, a) && Key(c, b)[|p|..] == Name(c, b);
      NamesAreInjective(c, a, b);
    } else {
      assert p <= q + Name(c, b);
      PrefixesMeet(p, q, Name(c, b));
      FrontsApart(c, FrontOf(a), FrontOf(b));
    }
  }

  lemma FrontsApart(c: Config, f: Front, g: Front)
    requires Apart(Prefixes(c)) && f != g && PrefixOf(c, f).on && PrefixOf(c, g).on
    ensures !Overlap(PrefixOf(c, f).val, PrefixOf(c, g).val)
  {
    var i, j := Number(f), Number(g);
    if i < j {
      assert !Overlap(Prefixes(c)[i].val, Prefixes(c)[j].val);
    } else {
      assert !Overlap(Prefixes(c)[j].val, Prefixes(c)[i].val);
    }
  }

  /** Nothing but the index itself writes where the index looks, whatever it looks for. */
  lemma IndexIsAlone(c: Config, u: Use)
    requires Apart(Prefixes(c)) && c.nix.on && On(c, u) && Valid(c, u) && !u.NarRecord?
    ensures forall url: string :: Key(c, u) != I.Key(c.nix.val, url)
    ensures forall url: string :: Key(c, NarRecord(url)) == I.Key(c.nix.val, url)
  {
    hide Valid, Chain;
    forall url: string ensures Key(c, NarRecord(url)) == I.Key(c.nix.val, url) {
      assert c.nix.val + ("nar-index/" + url + ".json") == c.nix.val + "nar-index/" + url + ".json";
    }
    forall url: string ensures Key(c, u) != Key(c, NarRecord(url)) { NotTheRecord(c, u, url); }
  }

  lemma NotTheRecord(c: Config, u: Use, url: string)
    requires Apart(Prefixes(c)) && c.nix.on && On(c, u) && Valid(c, u) && !u.NarRecord?
    ensures Key(c, u) != Key(c, NarRecord(url))
  {
    hide Valid, Chain;
    var p, q, r := PrefixOf(c, FrontOf(u)).val, c.nix.val, NarRecord(url);
    if FrontOf(u) == Nix {
      NixShape(c, u);
      RecordShape(c, url);
      assert Key(c, u)[|q|..] == Name(c, u) && Key(c, r)[|q|..] == Name(c, r);
    } else {
      FrontsApart(c, FrontOf(u), Nix);
      if Key(c, u) == Key(c, r) {
        assert p <= q + Name(c, r);
        PrefixesMeet(p, q, Name(c, r));
      }
    }
  }

  lemma RecordShape(c: Config, url: string)
    ensures var n := Name(c, NarRecord(url)); '/' in n && n[3] == '-'
  {
    assert Name(c, NarRecord(url))[9] == '/';
  }
}
