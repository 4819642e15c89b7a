/** Which paths are kept objects, told from the parts of the path. */
module StoreRoutes {
  import opened Common
  import opened Text
  import opened NpmNames
  import opened StoreKeys
  import I = NarIndex
  import Nix32

  ghost predicate Ends(s: string, suffix: string) { exists head: string :: s == head + suffix }

  lemma SuffixIsEnd(s: string, suffix: string)
    ensures HasSuffix(s, suffix) <==> Ends(s, suffix)
  {
    if HasSuffix(s, suffix) { assert s == s[..|s| - |suffix|] + suffix; }
  }

  predicate OneOf(c: char, extra: string) { c in LOWER || c in UPPER || c in DIGITS || c in extra }

  /** Only letters, digits and these. */
  predicate Only(s: string, extra: string) { forall i | 0 <= i < |s| :: OneOf(s[i], extra) }

  lemma OnlyIs(s: string, extra: string)
    ensures Only(s, extra) <==> AllIn(s, extra)
  {
    hide IsAlnum;
    forall i | 0 <= i < |s| ensures IsAlnum(s[i]) || s[i] in extra <==> OneOf(s[i], extra) { AlnumIs(s[i]); }
  }

  // ----------------------------------------------------------------- Nix, Gradle

  predicate PlainFile(f: string) { f != "" && f[0] != '.' && Only(f, "._+-") }

  lemma PlainFileIs(f: string)
    ensures PlainFile(f) <==> I.NarFile(f)
  {
    OnlyIs(f, "._+-");
  }

  predicate StoreHash(h: string) { |h| == 32 && forall i | 0 <= i < |h| :: h[i] in "0123456789abcdfghijklmnpqrsvwxyz" }

  lemma StoreHashIs(h: string)
    ensures StoreHash(h) <==> |h| == 32 && Nix32.Printable(h)
  {
    hide Nix32.IsLetter;
    forall i | 0 <= i < |h| ensures Nix32.IsLetter(h[i]) <==> h[i] in "0123456789abcdfghijklmnpqrsvwxyz" {
      LetterIs(h[i]);
    }
  }

  lemma LetterIs(c: char)
    ensures Nix32.IsLetter(c) <==> c in "0123456789abcdfghijklmnpqrsvwxyz"
  {}

  /** Narinfos and NARs, and nothing else. */
  lemma NixIff(p: string)
    ensures forall h :: RouteNix(p) == Some(Narinfo(h)) <==> p == "/" + h + ".narinfo" && StoreHash(h)
    ensures forall f :: RouteNix(p) == Some(Nar(f)) <==> p == "/nar/" + f && PlainFile(f)
    ensures RouteNix(p).Some? ==> RouteNix(p).value.Narinfo? || RouteNix(p).value.Nar?
  {
    hide I.NarFile, Nix32.Printable, StoreHash, PlainFile;
    forall f ensures PlainFile(f) <==> I.NarFile(f) { PlainFileIs(f); }
    if |p| == 41 {
      StoreHashIs(p[1..33]);
      if p[0] == '/' && HasSuffix(p[1..], ".narinfo") { assert p == "/" + p[1..33] + ".narinfo"; }
    }
    forall h | StoreHash(h) && p == "/" + h + ".narinfo" ensures RouteNix(p) == Some(Narinfo(h)) { NarinfoIsRouted(h); }
    forall f | I.NarFile(f) && p == "/nar/" + f ensures RouteNix(p) == Some(Nar(f)) { NarIsRouted(f); }
    if "/nar/" <= p { assert p == "/nar/" + p[5..]; }
  }

  lemma NarinfoIsRouted(h: string)
    requires StoreHash(h)
    ensures RouteNix("/" + h + ".narinfo") == Some(Narinfo(h))
  {
    var p := "/" + h + ".narinfo";
    StoreHashIs(h);
    assert p[1..33] == h && p[1..] == h + ".narinfo";
  }

  lemma NarIsRouted(f: string)
    requires I.NarFile(f)
    ensures RouteNix("/nar/" + f) == Some(Nar(f))
  {
    hide Nix32.Printable;
    var p := "/nar/" + f;
    assert p[5..] == f && p[2] == 'a' && "/nar/" <= p;
    if HasSuffix(p[1..], ".narinfo") && |p| == 41 {
      assert p[1..33][3] == '/';
      SlashIsNoLetter(p[1..33], 3);
    }
  }

  lemma SlashIsNoLetter(h: string, i: nat)
    requires i < |h| && h[i] == '/'
    ensures !Nix32.Printable(h)
  {
    LetterIs(h[i]);
  }

  lemma HexIs(c: char)
    ensures '0' <= c <= '9' || 'a' <= c <= 'f' <==> c in "0123456789abcdef"
  {
    if '0' <= c <= '9' || 'a' <= c <= 'f' {
      assert "0123456789abcdef"[if c <= '9' then c as int - '0' as int else 10 + c as int - 'a' as int] == c;
    }
  }

  lemma GradleKeyIs(key: string)
    ensures GradleKey(key) <==> 32 <= |key| <= 128 && forall i | 0 <= i < |key| :: key[i] in "0123456789abcdef"
  {
    forall i | 0 <= i < |key|
      ensures '0' <= key[i] <= '9' || 'a' <= key[i] <= 'f' <==> key[i] in "0123456789abcdef"
    {
      HexIs(key[i]);
    }
  }

  lemma GradleIff(p: string, key: string)
    ensures RouteGradle(p) == Some(Entry(key)) <==>
      && p == "/gradle/cache/" + key
      && 32 <= |key| <= 128 && forall i | 0 <= i < |key| :: key[i] in "0123456789abcdef"
    ensures RouteGradle(p).Some? ==> RouteGradle(p).value.Entry?
  {
    hide GradleKey;
    GradleKeyIs(key);
    if GRADLE <= p { assert p == "/gradle/cache/" + p[|GRADLE|..]; }
  }

  // ----------------------------------------------------------------- plain paths

  predicate PlainElement(el: string) {
    el !in ["", ".", ".."] && Only(el, "._~!+@-")
  }

  ghost predicate Elements(els: seq<string>) { els != [] && forall i | 0 <= i < |els| :: '/' !in els[i] }

  lemma {:induction false} JoinedChars(els: seq<string>)
    requires Elements(els)
    ensures AllIn(Join(els, '/'), "/._~!+@-") <==> forall i | 0 <= i < |els| :: Only(els[i], "._~!+@-")
  {
    hide AllIn, Only;
    if |els| == 1 {
      ElementChars(els[0]);
    } else {
      var init, last := els[..|els| - 1], els[|els| - 1];
      JoinedChars(init);
      ElementChars(last);
      AllInAppend(Join(init, '/'), "/" + last, "/._~!+@-");
      AllInAppend("/", last, "/._~!+@-");
      SlashIn();
      assert Join(els, '/') == Join(init, '/') + ("/" + last);
      assert els == init + [last];
    }
  }

  lemma ElementChars(el: string)
    requires '/' !in el
    ensures AllIn(el, "/._~!+@-") <==> Only(el, "._~!+@-")
  {
    hide IsAlnum;
    OnlyIs(el, "._~!+@-");
    forall k | 0 <= k < |el| ensures el[k] in "/._~!+@-" <==> el[k] in "._~!+@-" {
      assert el[k] in el;
    }
  }

  lemma AllInAppend(a: string, b: string, extra: string)
    ensures AllIn(a + b, extra) <==> AllIn(a, extra) && AllIn(b, extra)
  {
    hide IsAlnum;
    forall i | 0 <= i < |a| && AllIn(a + b, extra) ensures IsAlnum(a[i]) || a[i] in extra {
      assert (a + b)[i] == a[i];
    }
    forall i | 0 <= i < |b| && AllIn(a + b, extra) ensures IsAlnum(b[i]) || b[i] in extra {
      assert (a + b)[|a| + i] == b[i];
    }
  }

  /** A path is plain exactly when each of its elements is. */
  lemma PlainIff(els: seq<string>)
    requires Elements(els)
    ensures PlainPath("/" + Join(els, '/')) <==> forall i | 0 <= i < |els| :: PlainElement(els[i])
  {
    hide AllIn, Only, Join, Split;
    var p := "/" + Join(els, '/');
    JoinSplits(els, '/');
    JoinedChars(els);
    AllInAppend("/", Join(els, '/'), "/._~!+@-");
    SlashIn();
    assert p[1..] == Join(els, '/');
  }

  lemma SlashIn()
    ensures AllIn("/", "/._~!+@-")
  {}

  // ----------------------------------------------------------------------- Maven

  /** A file whose content changes in place, or any file of a snapshot. */
  ghost predicate Changing(els: seq<string>)
    requires els != []
  {
    var file := els[|els| - 1];
    || (exists i :: 0 <= i < |els| - 1 && Ends(els[i], "-SNAPSHOT"))
    || "maven-metadata" <= file || Ends(file, "-index.xml") || "archetype-catalog" <= file
  }

  lemma ChangingIs(els: seq<string>)
    requires Elements(els)
    ensures MutableMaven(Join(els, '/')) <==> Changing(els)
  {
    hide HasSuffix, Ends, Join, Split;
    JoinSplits(els, '/');
    forall i | 0 <= i < |els| ensures HasSuffix(els[i], "-SNAPSHOT") <==> Ends(els[i], "-SNAPSHOT") {
      SuffixIsEnd(els[i], "-SNAPSHOT");
    }
    SuffixIsEnd(els[|els| - 1], "-index.xml");
  }

  /** A file of a repository is kept exactly when the repository is configured, the path
      is plain and the file is not one that changes. */
  lemma MavenIff(c: Config, repo: string, els: seq<string>)
    requires '/' !in repo && Elements(els)
    ensures var rest := Join(els, '/');
      RouteMaven(c, "/" + repo + "/" + rest) ==
        if repo in c.repos && c.repos[repo] != [] && !Changing(els) && forall i | 0 <= i < |els| :: PlainElement(els[i])
        then Some(MavenFile(repo, rest)) else None
  {
    hide Changing, PlainElement, PlainPath, MutableMaven, Join, RouteMaven;
    PlainIff(els);
    ChangingIs(els);
    MavenCut(c, repo, Join(els, '/'));
  }

  lemma MavenCut(c: Config, repo: string, rest: string)
    requires '/' !in repo
    ensures RouteMaven(c, "/" + repo + "/" + rest) ==
      if repo in c.repos && c.repos[repo] != [] && PlainPath("/" + rest) && !MutableMaven(rest)
      then Some(MavenFile(repo, rest)) else None
  {
    hide PlainPath, MutableMaven, IndexOf;
    var p := "/" + repo + "/" + rest;
    assert p[1..] == repo + ['/'] + rest;
    IndexOfHere(repo, '/', rest);
    assert p[1..][..|repo|] == repo && p[1..][|repo| + 1..] == rest;
  }

  /** Without a second slash no repository's file is named. */
  lemma MavenNone(c: Config, p: string)
    requires p == "" || '/' !in p[1..]
    ensures RouteMaven(c, p).None?
  {}

  // -------------------------------------------------------------------------- Go

  /** The tiles of the one database, and nothing else of it. */
  lemma TileIff(c: Config, g: GoRules, name: string, sub: string)
    requires '/' !in name
    ensures var p := "/sumdb/" + name + "/" + sub;
      RouteGo(c, g, p) ==
        if PlainPath(p) && name == c.sumdb && sub !in ["supported", "latest"] && !("lookup/" <= sub) && g.tile(sub)
        then Some(Tile(sub)) else None
  {
    hide PlainPath;
    var p := "/sumdb/" + name + "/" + sub;
    assert p == "/sumdb/" + (name + ['/'] + sub) && p[7..] == name + ['/'] + sub;
    IndexOfHere(name, '/', sub);
    assert p[7..][..|name|] == name && p[7..][|name| + 1..] == sub;
  }

  lemma TileNone(c: Config, g: GoRules, rest: string)
    requires '/' !in rest
    ensures RouteGo(c, g, "/sumdb/" + rest).None?
  {
    assert ("/sumdb/" + rest)[7..] == rest;
  }

  predicate At(p: string, j: nat) { j + 4 <= |p| && p[j..j + 4] == "/@v/" }

  /** The last place of "/@v/". */
  ghost predicate LastAt(p: string, at: nat) { At(p, at) && forall j: nat | j > at :: !At(p, j) }

  lemma {:induction false} LastPartIs(p: string, at: nat)
    requires LastAt(p, at)
    ensures LastPart(p, "/@v/") == at
    decreases |p|
  {
    if at + 4 < |p| {
      EndIs(p);
      var init := p[..|p| - 1];
      InitIs(p, init);
      LastPartIs(init, at);
    } else {
      EndIs(p);
    }
  }

  lemma EndIs(p: string)
    ensures HasSuffix(p, "/@v/") <==> |p| >= 4 && At(p, |p| - 4)
  {
    if |p| >= 4 { assert p[|p| - 4..] == p[|p| - 4..|p| - 4 + 4]; }
  }

  lemma InitIs(p: string, init: string)
    requires p != "" && init == p[..|p| - 1]
    ensures forall j: nat :: At(init, j) <==> At(p, j) && j + 4 < |p|
  {
    forall j: nat ensures At(init, j) <==> At(p, j) && j + 4 < |p| {
      if j + 4 < |p| { assert init[j..j + 4] == p[j..j + 4]; }
    }
  }

  lemma ExtIs(v: string, ext: string)
    requires ext in [".info", ".mod", ".zip"]
    ensures Ext(v + ext) == ext
  {
    var head, tail := v, ext[1..];
    assert v + ext == v + ['.'] + tail && '.' !in tail && '/' !in tail;
    LastIndexHere(v, '.', tail);
    NoSlashAfter(v, ext);
    assert (v + ext)[|v|..] == ext;
  }

  lemma {:induction false} NoSlashAfter(v: string, ext: string)
    requires '/' !in ext
    ensures LastIndex(v + ext, '/') < |v|
    decreases |ext|
  {
    if ext == "" {
      assert v + ext == v;
    } else {
      assert (v + ext)[..|v + ext| - 1] == v + ext[..|ext| - 1];
      assert (v + ext)[|v + ext| - 1] == ext[|ext| - 1];
      NoSlashAfter(v, ext[..|ext| - 1]);
    }
  }

  /** The file is a canonical version's. */
  ghost predicate Versioned(g: GoRules, file: string) {
    exists v, ext :: ext in [".info", ".mod", ".zip"] && file == v + ext && g.canonical(v)
  }

  lemma VersionedIs(g: GoRules, file: string)
    ensures var ext := Ext(file);
      Versioned(g, file) <==>
        file != "list" && ext in [".info", ".mod", ".zip"] && |ext| <= |file| && g.canonical(file[..|file| - |ext|])
  {
    hide Ext;
    if Versioned(g, file) {
      var v, ext :| ext in [".info", ".mod", ".zip"] && file == v + ext && g.canonical(v);
      ExtIs(v, ext);
      assert file[..|file| - |ext|] == v;
      NotTheList(v, ext);
    }
    var ext := Ext(file);
    if |ext| <= |file| && ext in [".info", ".mod", ".zip"] {
      ExtEnds(file);
      assert file == file[..|file| - |ext|] + ext;
    }
  }

  lemma NotTheList(v: string, ext: string)
    requires ext in [".info", ".mod", ".zip"]
    ensures v + ext != "list"
  {
    var file := v + ext;
    assert file[|file| - 1] == ext[|ext| - 1] != 't' && "list"[3] == 't';
  }

  lemma ExtEnds(file: string)
    requires Ext(file) != ""
    ensures |Ext(file)| <= |file| && file[|file| - |Ext(file)|..] == Ext(file)
  {}

  /** What a module's version keeps: its info, its go.mod and its zip. */
  lemma ModuleIff(c: Config, g: GoRules, p: string, at: nat)
    requires LastAt(p, at) && !("/sumdb/" <= p)
    ensures RouteGo(c, g, p) ==
      if PlainPath(p) && at > 0 && g.modulePath(p[..at]) && Versioned(g, p[at + 4..])
        && !(Ends(p, "/@latest") && g.modulePath(p[..|p| - 8]))
      then Some(Module(p[1..])) else None
  {
    hide PlainPath, LastPart, Ext, HasSuffix, Versioned, Ends;
    LastPartIs(p, at);
    VersionedIs(g, p[at + 4..]);
    SuffixIsEnd(p, "/@latest");
  }

  lemma {:induction false} NoLastPart(p: string)
    requires forall j: nat :: !At(p, j)
    ensures LastPart(p, "/@v/") < 0
  {
    hide At, HasSuffix;
    EndIs(p);
    if p != "" {
      var init := p[..|p| - 1];
      InitIs(p, init);
      NoLastPart(init);
    }
  }

  lemma ModuleNone(c: Config, g: GoRules, p: string)
    requires !("/sumdb/" <= p) && forall j: nat :: !At(p, j)
    ensures RouteGo(c, g, p).None?
  {
    hide PlainPath, HasSuffix;
    NoLastPart(p);
  }

  // ------------------------------------------------------------------- upstreams

  /** A base URL with a trailing slash and the same without are one upstream. */
  lemma BaseSlash(origin: string, base: string, p: string)
    requires base == "" || base[|base| - 1] != '/'
    ensures JoinUrl(Url(origin, base), p) == JoinUrl(Url(origin, base + "/"), p) == origin + base + p
  {
    assert (base + "/")[..|base|] == base;
  }

  /** The registry is asked for a scoped name with its slash escaped. */
  lemma WireIs(scope: string, name: string)
    requires '/' !in scope
    ensures WireName(scope + "/" + name) == scope + "%2f" + name
    ensures WireName(scope) == scope
  {
    IndexOfHere(scope, '/', name);
    assert scope + "/" + name == scope + ['/'] + name;
    assert (scope + "/" + name)[..|scope|] == scope && (scope + "/" + name)[|scope| + 1..] == name;
  }

  // ------------------------------------------------------------------------- npm

  predicate NameElement(s: string) { s != "" && s[0] !in "._-" && Only(s, "._~-!*'()") }

  /** A package name: one element, or a scope and one. */
  ghost predicate Package(name: string) {
    || NameElement(name)
    || exists scope, base :: NameElement(scope) && NameElement(base) && name == "@" + scope + "/" + base
  }

  lemma ElementIs(s: string)
    ensures ValidElement(s) <==> NameElement(s)
    ensures NameElement(s) ==> s != "" && '/' !in s && '@' !in s
  {
    OnlyIs(s, "._~-!*'()");
    if NameElement(s) {
      AllInPlain(s, "._~-!*'()", '/');
      AllInPlain(s, "._~-!*'()", '@');
    }
  }

  lemma PackageIs(name: string)
    ensures IsName(name) <==> Package(name)
  {
    hide NameElement, ValidElement, Split, Join;
    if IsName(name) { NameIsPackage(name); }
    if NameElement(name) {
      OneElementIsName(name);
    } else if Package(name) {
      var scope, base :| NameElement(scope) && NameElement(base) && name == "@" + scope + "/" + base;
      ScopedIsName(scope, base);
    }
  }

  lemma NameIsPackage(name: string)
    requires IsName(name)
    ensures Package(name)
  {
    hide NameElement, ValidElement, Split, Join;
    var els := Split(name, '/');
    NameElements(name);
    if |els| == 2 {
      JoinOfTwo(els);
      assert els[0] == "@" + els[0][1..];
      ElementIs(els[0][1..]);
      ElementIs(els[1]);
      assert name == "@" + els[0][1..] + "/" + els[1];
    } else {
      JoinOfOne(els);
      ElementIs(els[0]);
    }
  }

  lemma JoinOfOne(els: seq<string>)
    requires |els| == 1
    ensures Join(els, '/') == els[0]
  {}

  lemma JoinOfTwo(els: seq<string>)
    requires |els| == 2
    ensures Join(els, '/') == els[0] + "/" + els[1]
  {
    assert els[..1] == [els[0]];
  }

  lemma OneElementIsName(name: string)
    requires NameElement(name)
    ensures IsName(name)
  {
    hide NameElement, ValidElement;
    ElementIs(name);
    SplitOne(name, '/');
    assert [name][..1] == [name] && [name][1..] == [];
    assert name[0] in name;
  }

  lemma ScopedIsName(scope: string, base: string)
    requires NameElement(scope) && NameElement(base)
    ensures IsName("@" + scope + "/" + base)
  {
    hide NameElement, ValidElement, Split, Join;
    var els := ["@" + scope, base];
    ElementIs(scope);
    ElementIs(base);
    JoinOfTwo(els);
    JoinSplits(els, '/');
    assert els[..2] == els && els[2..] == [] && ("@" + scope)[1..] == scope;
  }

  /** The file of a package's version. */
  ghost predicate VersionFile(base: string, file: string) {
    exists version :: version != "" && Only(version, "._+-") && file == base + "-" + version + ".tgz"
  }

  lemma VersionFileIs(name: string, file: string)
    ensures ValidTarball(name, file) <==> VersionFile(Base(name), file)
  {
    hide Only, AllIn, Base;
    var base := Base(name);
    if VersionFile(base, file) {
      var version :| version != "" && Only(version, "._+-") && file == base + "-" + version + ".tgz";
      OnlyIs(version, "._+-");
      assert file == base + "-" + (version + ".tgz");
      assert file[|base| + 1..] == version + ".tgz" && (version + ".tgz")[..|version|] == version;
    }
    if ValidTarball(name, file) {
      var rest := file[|base| + 1..];
      var version := rest[..|rest| - 4];
      OnlyIs(version, "._+-");
      assert file == base + "-" + rest && rest == version + ".tgz";
      assert file == base + "-" + version + ".tgz";
    }
  }

  lemma BaseIs(scope: string, base: string)
    requires '/' !in base
    ensures Base(scope + "/" + base) == base && Base(base) == base
  {
    hide LastIndex;
    LastIndexHere(scope, '/', base);
    NoLastIndex(base, '/');
    assert scope + "/" + base == scope + ['/'] + base;
    assert (scope + ['/'] + base)[|scope| + 1..] == base;
  }

  /** Packuments are the paths that are a name, tarballs those of a name and a file. */
  lemma NpmIff(p: string, abbreviated: bool, name: string, file: string)
    requires "/" <= p
    ensures RouteNpm(p, abbreviated) == Some(Packument(name, abbreviated)) <==> p == "/" + name && Package(name)
    ensures RouteNpm(p, abbreviated) == Some(Tarball(name, file)) <==>
      p == "/" + name + "/-/" + file && Package(name) && VersionFile(Base(name), file)
    ensures RouteNpm(p, abbreviated).Some? ==>
      var u := RouteNpm(p, abbreviated).value; u.Tarball? || (u.Packument? && u.abbreviated == abbreviated)
  {
    hide IsName, ValidTarball, SplitName, Join, Package, VersionFile, Base;
    PackageIs(name);
    VersionFileIs(name, file);
    if IsName(name) && p == "/" + name { PackumentIsRouted(name, abbreviated); }
    if IsName(name) && ValidTarball(name, file) && p == "/" + name + "/-/" + file {
      TarballIsRouted(name, file, abbreviated);
    }
    if RouteNpm(p, abbreviated).Some? { RoutedIsNamed(p, abbreviated); }
  }

  lemma PackumentIsRouted(name: string, abbreviated: bool)
    requires IsName(name)
    ensures RouteNpm("/" + name, abbreviated) == Some(Packument(name, abbreviated))
  {
    hide SplitName, IsName, ValidName, Join, Split;
    NameElements(name);
    SplitOfName(name);
    NameIsNotFixed(name);
    assert ("/" + name)[1..] == name;
  }

  lemma SplitOfName(name: string)
    requires IsName(name)
    ensures SplitName(name) == Some((name, []))
  {
    hide SplitName;
  }

  lemma NameIsNotFixed(name: string)
    requires name != "" && name[0] != '-'
    ensures "/" + name !in FIXED && !("/-/" <= "/" + name)
  {
    assert ("/" + name)[1] == name[0];
  }

  lemma TarballIsRouted(name: string, file: string, abbreviated: bool)
    requires IsName(name) && ValidTarball(name, file)
    ensures RouteNpm("/" + name + "/-/" + file, abbreviated) == Some(Tarball(name, file))
  {
    hide ValidTarball, SplitName, Join;
    var p, tail := "/" + name + "/-/" + file, ["-", file];
    NameElements(name);
    TarballPlain(name, file);
    JoinTwo(file);
    NameThenTail(name, tail);
    assert p[1..] == name + "/" + ("-/" + file);
    assert p[1] == name[0];
  }

  lemma RoutedIsNamed(p: string, abbreviated: bool)
    requires "/" <= p && RouteNpm(p, abbreviated).Some?
    ensures var u := RouteNpm(p, abbreviated).value;
      && (u.Packument? ==> p == "/" + u.name && IsName(u.name) && u.abbreviated == abbreviated)
      && (u.Tarball? ==> p == "/" + u.name + "/-/" + u.file && IsName(u.name) && ValidTarball(u.name, u.file))
      && (u.Packument? || u.Tarball?)
  {
    hide IsName, ValidTarball, SplitName, Join;
    SplitIsName(p[1..]);
    var u := RouteNpm(p, abbreviated).value;
    assert p == "/" + p[1..];
    if u.Tarball? {
      assert SplitName(p[1..]).value.1 == ["-", u.file];
      JoinTwo(u.file);
      TarballPath(p, u.name, u.file);
    }
  }
}
