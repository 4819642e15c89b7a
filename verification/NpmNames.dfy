/** Package names and tarball file names of the npm front-end. */
module NpmNames {
  import opened Common
  import opened Text

  predicate ValidElement(s: string) { s != "" && s[0] !in "._-" && AllIn(s, "._~-!*'()") }

  function TrimPrefix(s: string, prefix: string): string { if prefix <= s then s[|prefix|..] else s }

  /** How many path elements the package name has. */
  function NameLength(els: seq<string>): nat
    requires els != []
  {
    if "@" <= els[0] then 2 else 1
  }

  predicate ValidName(els: seq<string>) {
    if |els| == 2 then ValidElement(TrimPrefix(els[0], "@")) && ValidElement(els[1])
      else |els| == 1 && ValidElement(els[0])
  }

  /** splitNpmName: the package name that a path starts with, and the elements after it. */
  function SplitName(p: string): Option<(string, seq<string>)> {
    var els := Split(p, '/');
    var n := NameLength(els);
    if |els| < n || !ValidName(els[..n]) then None else Some((Join(els[..n], '/'), els[n..]))
  }

  predicate IsName(name: string) { SplitName(name) == Some((name, [])) }

  function Base(name: string): string { name[LastIndex(name, '/') + 1..] }

  const TGZ: string := ".tgz"

  /** validTarballFile: `<basename>-<version>.tgz`. */
  predicate ValidTarball(name: string, file: string) {
    var head := Base(name) + "-";
    && head <= file
    && var rest := file[|head|..];
    && |rest| > 4 && rest[|rest| - 4..] == TGZ && AllIn(rest[..|rest| - 4], "._+-")
  }

  /** A name is one element, or a scope and one. */
  lemma NameElements(name: string)
    requires IsName(name)
    ensures var els := Split(name, '/');
      |els| == NameLength(els) && ValidName(els) && Join(els, '/') == name && name != "" && name[0] !in "._-"
  {
    var els := Split(name, '/');
    SplitJoins(name, '/');
    var n := NameLength(els);
    assert els[n..] == [] && els[..n] == els;
    if n == 2 {
      assert els[..1] == [els[0]];
      assert Join(els, '/') == els[0] + ['/'] + els[1];
    }
  }

  /** The first element tells how long the name is, whatever comes after it. */
  lemma NameThenTail(name: string, tail: seq<string>)
    requires IsName(name) && tail != [] && forall i | 0 <= i < |tail| :: '/' !in tail[i]
    ensures SplitName(name + "/" + Join(tail, '/')) == Some((name, tail))
  {
    hide ValidName, Join, Split;
    var els := Split(name, '/');
    NameElements(name);
    SplitConcat(name, Join(tail, '/'), '/');
    JoinSplits(tail, '/');
    assert name + ['/'] + Join(tail, '/') == name + "/" + Join(tail, '/');
    assert (els + tail)[..|els|] == els && (els + tail)[|els|..] == tail;
  }

  /** What splitNpmName finds is a name, and the path is that name and the tail. */
  lemma SplitIsName(p: string)
    requires SplitName(p).Some?
    ensures IsName(SplitName(p).value.0)
    ensures var (name, tail) := SplitName(p).value;
      p == if tail == [] then name else name + "/" + Join(tail, '/')
  {
    hide ValidName, Join, Split;
    var els := Split(p, '/');
    var n := NameLength(els);
    SplitJoins(p, '/');
    JoinSplits(els[..n], '/');
    assert els == els[..n] + els[n..];
    assert els[..n][..n] == els[..n] && els[..n][n..] == [] && NameLength(els[..n]) == n;
    if els[n..] != [] {
      JoinConcat(els[..n], els[n..], '/');
    } else {
      assert els[..n] == els;
    }
  }

  lemma AllInPlain(s: string, extra: string, c: char)
    requires AllIn(s, extra) && c !in extra && !IsAlnum(c)
    ensures c !in s
  {}

  lemma PlainParts(file: string, base: string, version: string)
    requires file == base + "-" + version + TGZ && '/' !in base && '/' !in version
    ensures '/' !in file
  {}

  lemma TarballPlain(name: string, file: string)
    requires IsName(name) && ValidTarball(name, file)
    ensures '/' !in file
  {
    hide ValidElement, IsName, AllIn, Base;
    var base, rest := Base(name), file[|Base(name)| + 1..];
    BasePlain(name);
    AllInPlain(rest[..|rest| - 4], "._+-", '/');
    assert rest == rest[..|rest| - 4] + TGZ;
    PlainParts(file, base, rest[..|rest| - 4]);
  }

  lemma BasePlain(name: string)
    requires IsName(name)
    ensures '/' !in Base(name)
  {
    hide LastIndex;
    var els := Split(name, '/');
    NameElements(name);
    SplitJoins(name, '/');
    if |els| == 1 {
      NoLastIndex(name, '/');
    } else {
      assert els[..1] == [els[0]] && name == els[0] + ['/'] + els[1];
      LastIndexHere(els[0], '/', els[1]);
    }
  }
}
