/** What ties a NAR to the narinfo that announced it: the parsing of a narinfo, and
    the index that replicas share through the store. */
module NarIndex {
  import opened Common
  import opened Text
  import Nix32
  import Reading

  datatype Record = Record(url: string, fileHash: string, fileSize: int)

  // --------------------------------------------------------- the text of a narinfo

  /** strings.Cut(line, ":"), when there is a colon. */
  function CutLine(line: string): Option<(string, string)> {
    var i := IndexOf(line, ':');
    if i < |line| then Some((line[..i], line[i + 1..])) else None
  }

  predicate HasKey(line: string, key: string) { CutLine(line).Some? && CutLine(line).value.0 == key }

  /** The value that the last line with this key gives; "" without one. */
  function LastValue(lines: seq<string>, key: string): string {
    if lines == [] then ""
    else if HasKey(lines[|lines| - 1], key) then TrimSpace(CutLine(lines[|lines| - 1]).value.1)
    else LastValue(lines[..|lines| - 1], key)
  }

  const INT64_MAX: int := 0x7fff_ffff_ffff_ffff

  function Digits(s: string): Option<nat> {
    if s == "" then Some(0) else
    var init, c := Digits(s[..|s| - 1]), s[|s| - 1];
    if init.Some? && '0' <= c <= '9' then Some(10 * init.value + (c as int - '0' as int)) else None
  }

  /** strconv.ParseInt(s, 10, 64). */
  function ParseInt(s: string): Option<int> {
    var negative := s != "" && s[0] == '-';
    var digits := if s != "" && (s[0] == '-' || s[0] == '+') then s[1..] else s;
    if digits == "" || Digits(digits).None? then None else
    var n: int := Digits(digits).value;
    if negative && n <= INT64_MAX + 1 then Some(-n) else if !negative && n <= INT64_MAX then Some(n) else None
  }

  predicate NarFile(f: string) {
    f != "" && f[0] != '.' && forall i | 0 <= i < |f| :: IsAlnum(f[i]) || f[i] in "._+-"
  }

  predicate NarPath(url: string) { |url| >= 4 && url[..4] == "nar/" && NarFile(url[4..]) }

  predicate IsHash(h: string) { |h| == 52 && Nix32.Printable(h) }

  /** The narinfo names this file, with this size and this SHA-256. */
  ghost predicate Announces(body: string, rec: Record) {
    var lines := Split(body, '\n');
    && LastValue(lines, "URL") == rec.url && NarPath(rec.url)
    && LastValue(lines, "FileHash") == "sha256:" + rec.fileHash && IsHash(rec.fileHash)
    && ParseInt(LastValue(lines, "FileSize")) == Some(rec.fileSize) && rec.fileSize >= 0
  }

  lemma AnnouncesOne(body: string, a: Record, b: Record)
    requires Announces(body, a) && Announces(body, b)
    ensures a == b
  {
    assert ("sha256:" + a.fileHash)[7..] == a.fileHash && ("sha256:" + b.fileHash)[7..] == b.fileHash;
  }

  lemma NothingElse(body: string, rec: Record)
    requires Announces(body, rec)
    ensures forall other :: Announces(body, other) <==> other == rec
  {
    hide Announces;
    forall other | Announces(body, other) ensures other == rec { AnnouncesOne(body, other, rec); }
  }

  method IsNarFile(f: string) returns (ok: bool)
    ensures ok <==> NarFile(f)
  {
    if f == "" || f[0] == '.' { return false; }
    var i := 0;
    while i < |f|
      invariant 0 <= i <= |f| && forall k | 0 <= k < i :: IsAlnum(f[k]) || f[k] in "._+-"
    {
      if !IsAlnum(f[i]) && f[i] !in "._+-" { return false; }
      i := i + 1;
    }
    return true;
  }

  /** parseNarinfo finds what the narinfo announces, if it announces anything. */
  method ParseNarinfo(body: string) returns (found: Option<Record>)
    ensures forall rec :: Announces(body, rec) <==> found == Some(rec)
  {
    hide TrimSpace, CutLine, Split, ParseInt, Nix32.Printable, NarFile;
    var lines := Split(body, '\n');
    var url, hash, size := "", "", "";
    var i := 0;
    assert lines[..0] == [];
    while i < |lines|
      invariant 0 <= i <= |lines|
      invariant url == LastValue(lines[..i], "URL")
      invariant hash == LastValue(lines[..i], "FileHash")
      invariant size == LastValue(lines[..i], "FileSize")
    {
      assert lines[..i + 1][..i] == lines[..i];
      var cut := CutLine(lines[i]);
      if cut.Some? {
        var v := TrimSpace(cut.value.1);
        if cut.value.0 == "URL" { url := v; }
        else if cut.value.0 == "FileHash" { hash := v; }
        else if cut.value.0 == "FileSize" { size := v; }
      }
      i := i + 1;
    }
    assert lines[..i] == lines;
    forall h: string ensures |"sha256:" + h| >= 7 && ("sha256:" + h)[..7] == "sha256:" && ("sha256:" + h)[7..] == h {}
    if |hash| < 7 || hash[..7] != "sha256:" { return None; }
    assert hash == "sha256:" + hash[7..];
    var isHash := Nix32.IsNix32(hash[7..], 52);
    var n := ParseInt(size);
    if !isHash || n.None? || n.value < 0 { return None; }
    if |url| < 4 || url[..4] != "nar/" { return None; }
    var isNar := IsNarFile(url[4..]);
    if !isNar { return None; }
    found := Some(Record(url, hash[7..], n.value));
    NothingElse(body, found.value);
  }

  // ------------------------------------------------------------ the shared index

  /** The JSON form of a record; `decode` accepts more than `encode` prints. */
  datatype Codec = Codec(encode: Record -> seq<byte>, decode: seq<byte> -> Option<Record>)

  /** What a narinfo can announce comes back from its JSON form. */
  ghost predicate CodecOk(c: Codec) {
    forall body, rec | Announces(body, rec) :: c.decode(c.encode(rec)) == Some(rec)
  }

  function Key(prefix: string, url: string): string { prefix + "nar-index/" + url + ".json" }

  lemma KeyInjective(prefix: string, a: string, b: string)
    requires Key(prefix, a) == Key(prefix, b)
    ensures a == b
  {
    var head := |prefix + "nar-index/"|;
    assert Key(prefix, a)[head..|Key(prefix, a)| - 5] == a;
    assert Key(prefix, b)[head..|Key(prefix, b)| - 5] == b;
  }

  /** decodeRecord, and the check that the record is about the NAR asked for. */
  function Decoded(c: Codec, raw: seq<byte>, url: string): Option<Reading.Expectation> {
    match c.decode(raw)
    case None => None
    case Some(rec) =>
      if IsHash(rec.fileHash) && rec.fileSize >= 0 && rec.url == url
      then Some(Reading.Expectation(rec.fileSize, rec.fileHash)) else None
  }

  /** How far one call of record, or of lookup, is. */
  datatype Task =
    | Checking(rec: Record)
    | Writing(rec: Record)
    | Keeping(rec: Record)
    | Recorded
    | Asking(url: string)
    | Fetching(url: string)
    | Copying(url: string, raw: seq<byte>)
    | Answered(url: string, found: Option<Reading.Expectation>)
    | Failed

  datatype Agent = Agent(replica: nat, task: Task)

  /** `mem`: each replica's copies; `store`: the one bucket; `served`: the narinfos
      that any replica has served. */
  datatype Net = Net(
    agents: seq<Agent>,
    mem: map<(nat, string), seq<byte>>,
    store: map<string, seq<byte>>,
    served: seq<string>)

  datatype Label =
    | Serve(replica: nat, body: string, parsed: Option<Record>)
    | Want(replica: nat, url: string)
    | Checked(i: nat, forgotten: bool)
    | Written(i: nat, applied: bool)
    | Kept(i: nat, kept: bool)
    | Asked(i: nat, forgotten: bool)
    | Fetched(i: nat, fail: bool)
    | Copied(i: nat, kept: bool)
    | Foreign(key: string, bytes: seq<byte>)

  ghost predicate Can(prefix: string, s: Net, l: Label) {
    match l
    case Serve(_, body, parsed) => if parsed.Some? then Announces(body, parsed.value) else forall rec ::
      !Announces(body, rec)
    case Want(_, _) => true
    case Checked(i, _) => i < |s.agents| && s.agents[i].task.Checking?
    case Written(i, _) => i < |s.agents| && s.agents[i].task.Writing?
    case Kept(i, _) => i < |s.agents| && s.agents[i].task.Keeping?
    case Asked(i, _) => i < |s.agents| && s.agents[i].task.Asking?
    case Fetched(i, _) => i < |s.agents| && s.agents[i].task.Fetching?
    case Copied(i, _) => i < |s.agents| && s.agents[i].task.Copying?
    // The other front-ends write other keys.
    case Foreign(key, _) => forall url :: key != Key(prefix, url)
  }

  function Goto(s: Net, i: nat, task: Task): Net
    requires i < |s.agents|
  {
    s.(agents := s.agents[i := s.agents[i].(task := task)])
  }

  function Remember(s: Net, replica: nat, url: string, raw: seq<byte>, kept: bool): Net {
    if kept then s.(mem := s.mem[(replica, url) := raw]) else s
  }

  function Recall(s: Net, replica: nat, url: string, forgotten: bool): Option<seq<byte>> {
    if !forgotten && (replica, url) in s.mem then Some(s.mem[(replica, url)]) else None
  }

  ghost function Step(c: Codec, prefix: string, s: Net, l: Label): Net
    requires Can(prefix, s, l)
  {
    match l
    case Serve(replica, body, parsed) =>
      s.(served := s.served + [body],
         agents := if parsed.Some? then s.agents + [Agent(replica, Checking(parsed.value))] else s.agents)
    case Want(replica, url) => s.(agents := s.agents + [Agent(replica, Asking(url))])
    case Checked(i, forgotten) =>
      var rec := s.agents[i].task.rec;
      Goto(s, i, if Recall(s, s.agents[i].replica, rec.url, forgotten) == Some(c.encode(rec)) then Recorded
        else Writing(rec))
    case Written(i, applied) =>
      var rec := s.agents[i].task.rec;
      Goto(if applied then s.(store := s.store[Key(prefix, rec.url) := c.encode(rec)]) else s, i, Keeping(rec))
    case Kept(i, kept) =>
      var rec := s.agents[i].task.rec;
      Goto(Remember(s, s.agents[i].replica, rec.url, c.encode(rec), kept), i, Recorded)
    case Asked(i, forgotten) =>
      var url := s.agents[i].task.url;
      var copy := Recall(s, s.agents[i].replica, url, forgotten);
      Goto(s, i, if copy.Some? && Decoded(c, copy.value, url).Some? then Answered(url, Decoded(c, copy.value, url))
        else Fetching(url))
    case Fetched(i, fail) =>
      var url := s.agents[i].task.url;
      var key := Key(prefix, url);
      Goto(s, i,
        if fail then Failed
        else if key !in s.store || Decoded(c, s.store[key], url).None? then Answered(url, None)
        else Copying(url, s.store[key]))
    case Copied(i, kept) =>
      var url, raw := s.agents[i].task.url, s.agents[i].task.raw;
      Goto(Remember(s, s.agents[i].replica, url, raw, kept), i, Answered(url, Decoded(c, raw, url)))
    case Foreign(key, bytes) => s.(store := s.store[key := bytes])
  }

  /** Some narinfo that was served announces this record. */
  ghost predicate Known(served: seq<string>, rec: Record) { exists b :: b in served && Announces(b, rec) }

  /** These bytes are the record, about `url`, that some narinfo announced. */
  ghost predicate Genuine(c: Codec, served: seq<string>, url: string, raw: seq<byte>) {
    exists rec :: Known(served, rec) && rec.url == url && raw == c.encode(rec)
  }

  /** An expectation is what some narinfo announced of `url`. */
  ghost predicate Expected(served: seq<string>, url: string, e: Reading.Expectation) {
    Known(served, Record(url, e.sha256, e.size))
  }

  ghost predicate TaskOk(c: Codec, served: seq<string>, task: Task) {
    match task
    case Checking(rec) => Known(served, rec)
    case Writing(rec) => Known(served, rec)
    case Keeping(rec) => Known(served, rec)
    case Copying(url, raw) => Genuine(c, served, url, raw)
    case Answered(url, found) => found.Some? ==> Expected(served, url, found.value)
    case _ => true
  }

  ghost predicate Inv(c: Codec, prefix: string, s: Net) {
    && (forall i | 0 <= i < |s.agents| :: TaskOk(c, s.served, s.agents[i].task))
    && (forall r, url | (r, url) in s.mem :: Genuine(c, s.served, url, s.mem[(r, url)]))
    && (forall url | Key(prefix, url) in s.store :: Genuine(c, s.served, url, s.store[Key(prefix, url)]))
  }

  lemma ServedGrows(c: Codec, served: seq<string>, body: string)
    ensures forall rec | Known(served, rec) :: Known(served + [body], rec)
    ensures forall url, raw | Genuine(c, served, url, raw) :: Genuine(c, served + [body], url, raw)
    ensures forall task | TaskOk(c, served, task) :: TaskOk(c, served + [body], task)
  {
    forall rec | Known(served, rec) ensures Known(served + [body], rec) {
      var b :| b in served && Announces(b, rec);
      assert b in served + [body];
    }
  }

  /** Genuine bytes decode to what was announced. */
  lemma GenuineDecodes(c: Codec, served: seq<string>, url: string, raw: seq<byte>)
    requires CodecOk(c) && Genuine(c, served, url, raw)
    ensures Decoded(c, raw, url).Some? && Expected(served, url, Decoded(c, raw, url).value)
  {
    var rec :| Known(served, rec) && rec.url == url && raw == c.encode(rec);
    assert c.decode(c.encode(rec)) == Some(rec);
    var b :| b in served && Announces(b, rec);
    assert rec == Record(url, rec.fileHash, rec.fileSize);
  }

  lemma StepKeeps(c: Codec, prefix: string, s: Net, l: Label)
    requires CodecOk(c) && Inv(c, prefix, s) && Can(prefix, s, l)
    ensures Inv(c, prefix, Step(c, prefix, s, l))
  {
    hide Announces, Decoded;
    match l
    case Serve(_, body, parsed) => ServedGrows(c, s.served, body);
    case Want(_, _) =>
    case Foreign(_, _) =>
    case Written(i, _) => WrittenKeeps(c, prefix, s, l);
    case _ => CallKeeps(c, prefix, s, l);
  }

  lemma WrittenKeeps(c: Codec, prefix: string, s: Net, l: Label)
    requires CodecOk(c) && Inv(c, prefix, s) && Can(prefix, s, l) && l.Written?
    ensures Inv(c, prefix, Step(c, prefix, s, l))
  {
    hide Announces, Decoded, Key, Known;
    var rec, t := s.agents[l.i].task.rec, Step(c, prefix, s, l);
    assert TaskOk(c, s.served, s.agents[l.i].task);
    forall url | Key(prefix, url) in t.store ensures Genuine(c, t.served, url, t.store[Key(prefix, url)]) {
      if Key(prefix, url) == Key(prefix, rec.url) { KeyInjective(prefix, url, rec.url); }
    }
  }

  lemma CallKeeps(c: Codec, prefix: string, s: Net, l: Label)
    requires CodecOk(c) && Inv(c, prefix, s) && Can(prefix, s, l)
    requires l.Checked? || l.Kept? || l.Asked? || l.Fetched? || l.Copied?
    ensures Inv(c, prefix, Step(c, prefix, s, l))
  {
    hide Announces, Decoded, Key, Known;
    var task := s.agents[l.i].task;
    assert TaskOk(c, s.served, task);
    match l
    case Asked(i, _) =>
      if (s.agents[i].replica, task.url) in s.mem {
        GenuineDecodes(c, s.served, task.url, s.mem[(s.agents[i].replica, task.url)]);
      }
    case Fetched(_, _) =>
    case Copied(_, _) => GenuineDecodes(c, s.served, task.url, task.raw);
    case _ =>
  }

  ghost predicate Runs(c: Codec, prefix: string, s: Net, ls: seq<Label>, t: Net)
    decreases |ls|
  {
    if ls == [] then s == t
    else Can(prefix, s, ls[0]) && Runs(c, prefix, Step(c, prefix, s, ls[0]), ls[1..], t)
  }

  ghost predicate Init(prefix: string, s: Net) {
    s.agents == [] && s.mem == map[] && s.served == [] && forall url :: Key(prefix, url) !in s.store
  }

  lemma {:induction false} RunKeeps(c: Codec, prefix: string, s: Net, ls: seq<Label>, t: Net)
    requires CodecOk(c) && Inv(c, prefix, s) && Runs(c, prefix, s, ls, t)
    ensures Inv(c, prefix, t)
    decreases |ls|
  {
    hide Inv, Can, Step;
    if ls != [] {
      StepKeeps(c, prefix, s, ls[0]);
      RunKeeps(c, prefix, Step(c, prefix, s, ls[0]), ls[1..], t);
    }
  }

  /** However the calls of every replica interleave, whatever the memories forget and
      whichever writes fail: a lookup of a NAR finds only what some served narinfo
      announced of it, and so does everything it is found in. */
  lemma OnlyAnnouncedIsFound(c: Codec, prefix: string, s: Net, ls: seq<Label>, t: Net)
    requires CodecOk(c) && Init(prefix, s) && Runs(c, prefix, s, ls, t)
    ensures forall i | 0 <= i < |t.agents| && t.agents[i].task.Answered? && t.agents[i].task.found.Some? ::
      Expected(t.served, t.agents[i].task.url, t.agents[i].task.found.value)
    ensures forall r, url | (r, url) in t.mem :: Genuine(c, t.served, url, t.mem[(r, url)])
    ensures forall url | Key(prefix, url) in t.store :: Genuine(c, t.served, url, t.store[Key(prefix, url)])
  {
    hide Runs, Genuine, Expected;
    RunKeeps(c, prefix, s, ls, t);
    forall i | 0 <= i < |t.agents| ensures TaskOk(c, t.served, t.agents[i].task) {}
  }

  // ------------------------------------------------- what was recorded is found

  /** The index has url, and if request j asks for it, it has not missed it. */
  ghost predicate NotMissed(prefix: string, s: Net, url: string, j: nat) {
    && Key(prefix, url) in s.store
    && (j < |s.agents| && s.agents[j].task.Answered? && s.agents[j].task.url == url ==> s.agents[j].task.found.Some?)
  }

  lemma StepNotMissed(c: Codec, prefix: string, s: Net, l: Label, url: string, j: nat)
    requires CodecOk(c) && Inv(c, prefix, s) && Can(prefix, s, l) && NotMissed(prefix, s, url, j)
    ensures NotMissed(prefix, Step(c, prefix, s, l), url, j)
  {
    hide Announces, Decoded, Key, Known, CodecOk;
    if l.Fetched? && l.i == j && s.agents[j].task.url == url {
      GenuineDecodes(c, s.served, url, s.store[Key(prefix, url)]);
    }
    if l.Copied? && l.i == j {
      assert TaskOk(c, s.served, s.agents[j].task);
      GenuineDecodes(c, s.served, s.agents[j].task.url, s.agents[j].task.raw);
    }
  }

  lemma {:induction false} RunNotMissed(c: Codec, prefix: string, s: Net, ls: seq<Label>, t: Net, url: string, j: nat)
    requires CodecOk(c) && Inv(c, prefix, s) && Runs(c, prefix, s, ls, t) && NotMissed(prefix, s, url, j)
    ensures NotMissed(prefix, t, url, j)
    decreases |ls|
  {
    hide Inv, Can, Step, CodecOk, NotMissed;
    if ls != [] {
      StepKeeps(c, prefix, s, ls[0]);
      StepNotMissed(c, prefix, s, ls[0], url, j);
      RunNotMissed(c, prefix, Step(c, prefix, s, ls[0]), ls[1..], t, url, j);
    }
  }

  /** Once any replica has written a record, no replica misses it again: in every run, a
      lookup of its URL that was not answered by then and is answered later finds what
      some served narinfo announces of it. If those announce nothing else of it, that
      is the record. */
  lemma RecordThenLookup(
    c: Codec, prefix: string, s0: Net, before: seq<Label>, s: Net, i: nat, ls: seq<Label>, t: Net, j: nat)
    requires CodecOk(c) && Init(prefix, s0) && Runs(c, prefix, s0, before, s)
    requires Can(prefix, s, Written(i, true)) && Runs(c, prefix, Step(c, prefix, s, Written(i, true)), ls, t)
    requires j < |s.agents| ==> !s.agents[j].task.Answered?
    requires j < |t.agents| && t.agents[j].task.Answered? && t.agents[j].task.url == s.agents[i].task.rec.url
    ensures var rec, found := s.agents[i].task.rec, t.agents[j].task.found;
      && found.Some? && Expected(t.served, rec.url, found.value)
      && ((forall other | Known(t.served, other) && other.url == rec.url :: other == rec) ==>
            found == Some(Reading.Expectation(rec.fileSize, rec.fileHash)))
  {
    hide Runs, Known, Announces;
    RunKeeps(c, prefix, s0, before, s);
    StepKeeps(c, prefix, s, Written(i, true));
    var u := Step(c, prefix, s, Written(i, true));
    RunNotMissed(c, prefix, u, ls, t, s.agents[i].task.rec.url, j);
    RunKeeps(c, prefix, u, ls, t);
    assert TaskOk(c, t.served, t.agents[j].task);
  }

  lemma RunOn(c: Codec, prefix: string, s: Net, ls: seq<Label>, t: Net, l: Label)
    requires Runs(c, prefix, s, ls, t) && Can(prefix, t, l)
    ensures Runs(c, prefix, s, ls + [l], Step(c, prefix, t, l))
    decreases |ls|
  {
    hide Can, Step;
    if ls == [] {
      RunOne(c, prefix, s, l);
    } else {
      RunOn(c, prefix, Step(c, prefix, s, ls[0]), ls[1..], t, l);
      assert (ls + [l])[1..] == ls[1..] + [l] && (ls + [l])[0] == ls[0];
    }
  }

  lemma RunOne(c: Codec, prefix: string, s: Net, l: Label)
    requires Can(prefix, s, l)
    ensures Runs(c, prefix, s, [l], Step(c, prefix, s, l))
  {
    hide Can, Step;
    assert [l][1..] == [];
  }

  /** A replica serves a narinfo and records what it announces, nothing failing. */
  lemma Records(c: Codec, prefix: string, s: Net, ls: seq<Label>, t: Net, replica: nat, body: string, rec: Record)
    returns (ls': seq<Label>, t': Net)
    requires Runs(c, prefix, s, ls, t) && Announces(body, rec) && (replica, rec.url) !in t.mem
    ensures var n := |t.agents|;
      ls' == ls + [Serve(replica, body, Some(rec)), Checked(n, false), Written(n, true), Kept(n, true)]
    ensures Runs(c, prefix, s, ls', t') && |t'.agents| == |t.agents| + 1
    ensures t'.mem == t.mem[(replica, rec.url) := c.encode(rec)]
  {
    hide Announces, Runs, Key;
    var n := |t.agents|;
    ls', t' := ls, t;
    RunOn(c, prefix, s, ls', t', Serve(replica, body, Some(rec)));
    ls', t' := ls' + [Serve(replica, body, Some(rec))], Step(c, prefix, t', Serve(replica, body, Some(rec)));
    RunOn(c, prefix, s, ls', t', Checked(n, false));
    ls', t' := ls' + [Checked(n, false)], Step(c, prefix, t', Checked(n, false));
    RunOn(c, prefix, s, ls', t', Written(n, true));
    ls', t' := ls' + [Written(n, true)], Step(c, prefix, t', Written(n, true));
    RunOn(c, prefix, s, ls', t', Kept(n, true));
    ls', t' := ls' + [Kept(n, true)], Step(c, prefix, t', Kept(n, true));
  }

  /** If narinfos announce two records of one URL it need not be: replica 0 records one,
      replica 1 then records the other, and replica 0, which asks last and with nothing
      having failed, still finds the first. */
  lemma OldCopyIsFound(c: Codec, prefix: string, s: Net, a: string, ra: Record, b: string, rb: Record)
    returns (ls: seq<Label>, t: Net)
    requires CodecOk(c) && Init(prefix, s) && Announces(a, ra) && Announces(b, rb) && ra.url == rb.url
    ensures Runs(c, prefix, s, ls, t)
    ensures ls == [Serve(0, a, Some(ra)), Checked(0, false), Written(0, true), Kept(0, true),
                   Serve(1, b, Some(rb)), Checked(1, false), Written(1, true), Kept(1, true),
                   Want(0, ra.url), Asked(2, false)]
    ensures |t.agents| == 3
    ensures t.agents[2] == Agent(0, Answered(ra.url, Some(Reading.Expectation(ra.fileSize, ra.fileHash))))
  {
    hide Announces, Runs, Key;
    assert Runs(c, prefix, s, [], s) by { RunNone(c, prefix, s); }
    ls, t := Records(c, prefix, s, [], s, 0, a, ra);
    ls, t := Records(c, prefix, s, ls, t, 1, b, rb);
    RunOn(c, prefix, s, ls, t, Want(0, ra.url));
    ls, t := ls + [Want(0, ra.url)], Step(c, prefix, t, Want(0, ra.url));
    RunOn(c, prefix, s, ls, t, Asked(2, false));
    ls, t := ls + [Asked(2, false)], Step(c, prefix, t, Asked(2, false));
    AnnouncedDecodes(c, a, ra);
  }

  lemma RunNone(c: Codec, prefix: string, s: Net)
    ensures Runs(c, prefix, s, [], s)
  {}

  lemma AnnouncedDecodes(c: Codec, body: string, rec: Record)
    requires CodecOk(c) && Announces(body, rec)
    ensures Decoded(c, c.encode(rec), rec.url) == Some(Reading.Expectation(rec.fileSize, rec.fileHash))
  {}

  // -------------------------------------------------- the source's own object

  datatype Looked = Found(e: Reading.Expectation) | Unknown | StoreError

  /** What lookup answers from this replica's copy and the store. */
  function Lookup(c: Codec, prefix: string, copy: Option<seq<byte>>, store: map<string, seq<byte>>, url: string,
      fail: bool): Looked {
    if copy.Some? && Decoded(c, copy.value, url).Some? then Found(Decoded(c, copy.value, url).value)
    else if fail then StoreError
    else if Key(prefix, url) !in store then Unknown
    else match Decoded(c, store[Key(prefix, url)], url)
      case None => Unknown
      case Some(e) => Found(e)
  }

  predicate Usable(c: Codec, copy: Option<seq<byte>>, url: string) { copy.Some? && Decoded(c, copy.value, url).Some? }

  /** Which copy this replica has of url after a lookup: the store's, if its own was
      of no use and the store's is. */
  function CopyAfter(c: Codec, prefix: string, copy: Option<seq<byte>>, store: map<string, seq<byte>>, url: string,
      fail: bool):
    Option<seq<byte>>
  {
    if Usable(c, copy, url) || !Lookup(c, prefix, copy, store, url, fail).Found? then copy
      else Some(store[Key(prefix, url)])
  }

  class Bucket {
    var objects: map<string, seq<byte>>

    constructor ()
      ensures objects == map[]
    {
      objects := map[];
    }
  }

  class Index {
    const codec: Codec
    const prefix: string
    const store: Bucket
    var mem: map<string, seq<byte>>

    constructor (codec: Codec, prefix: string, store: Bucket)
      ensures this.codec == codec && this.prefix == prefix && this.store == store && mem == map[]
    {
      this.codec, this.prefix, this.store, mem := codec, prefix, store, map[];
    }

    function Copy(url: string): Option<seq<byte>>
      reads this
    {
      if url in mem then Some(mem[url]) else None
    }

    /** Nothing to do when this replica holds the record; otherwise it is written,
        unless the store fails, and remembered all the same. */
    method Record(rec: Record, applied: bool)
      modifies this`mem, store
      ensures old(Copy(rec.url)) == Some(codec.encode(rec)) ==> mem == old(mem) && store.objects == old(store.objects)
      ensures old(Copy(rec.url)) != Some(codec.encode(rec)) ==>
        && mem == old(mem)[rec.url := codec.encode(rec)]
        && store.objects == if applied then old(store.objects)[Key(prefix, rec.url) := codec.encode(rec)]
          else old(store.objects)
    {
      var b := codec.encode(rec);
      if rec.url in mem && mem[rec.url] == b { return; }
      if applied {
        store.objects := store.objects[Key(prefix, rec.url) := b];
      }
      mem := mem[rec.url := b];
    }

    method Find(url: string, fail: bool) returns (r: Looked)
      modifies this`mem
      ensures r == Lookup(codec, prefix, old(Copy(url)), store.objects, url, fail)
      ensures Copy(url) == CopyAfter(codec, prefix, old(Copy(url)), store.objects, url, fail)
      ensures mem - {url} == old(mem) - {url}
    {
      if url in mem {
        var e := Decoded(codec, mem[url], url);
        if e.Some? { return Found(e.value); }
      }
      if fail { return StoreError; }
      var key := Key(prefix, url);
      if key !in store.objects { return Unknown; }
      var raw := store.objects[key];
      var e := Decoded(codec, raw, url);
      if e.None? { return Unknown; }
      mem := mem[url := raw];
      return Found(e.value);
    }
  }

  // ------------------------------------------------- its calls are runs of the labels

  /** A task that has had this answer. */
  function Outcome(url: string, r: Looked): Task {
    match r
    case Found(e) => Answered(url, Some(e))
    case Unknown => Answered(url, None)
    case StoreError => Failed
  }

  /** Find, on the replica of agent i, is its labels with nothing between them. */
  lemma FindIsARun(c: Codec, prefix: string, s: Net, i: nat, fail: bool) returns (ls: seq<Label>, t: Net)
    requires i < |s.agents| && s.agents[i].task.Asking?
    ensures Runs(c, prefix, s, ls, t) && forall l | l in ls :: l in {Asked(i, false), Fetched(i, fail), Copied(i, true)}
    ensures var r, url := s.agents[i].replica, s.agents[i].task.url;
      var copy := Recall(s, r, url, false);
      && t.agents == s.agents[i := Agent(r, Outcome(url, Lookup(c, prefix, copy, s.store, url, fail)))]
      && t.store == s.store && t.served == s.served && t.mem - {(r, url)} == s.mem - {(r, url)}
      && Recall(t, r, url, false) == CopyAfter(c, prefix, copy, s.store, url, fail)
  {
    hide Runs, Key, Decoded;
    RunNone(c, prefix, s);
    RunOn(c, prefix, s, [], s, Asked(i, false));
    ls, t := [] + [Asked(i, false)], Step(c, prefix, s, Asked(i, false));
    if t.agents[i].task.Fetching? {
      RunOn(c, prefix, s, ls, t, Fetched(i, fail));
      ls, t := ls + [Fetched(i, fail)], Step(c, prefix, t, Fetched(i, fail));
      if t.agents[i].task.Copying? {
        RunOn(c, prefix, s, ls, t, Copied(i, true));
        ls, t := ls + [Copied(i, true)], Step(c, prefix, t, Copied(i, true));
      }
    }
  }

  /** So is Record, as the contract of that method says of the copy and of the bucket. */
  lemma RecordIsARun(c: Codec, prefix: string, s: Net, i: nat, applied: bool) returns (ls: seq<Label>, t: Net)
    requires i < |s.agents| && s.agents[i].task.Checking?
    ensures Runs(c, prefix, s, ls, t)
    ensures forall l | l in ls :: l in {Checked(i, false), Written(i, applied), Kept(i, true)}
    ensures var r, rec := s.agents[i].replica, s.agents[i].task.rec;
      && t.agents == s.agents[i := Agent(r, Recorded)] && t.served == s.served
      && if Recall(s, r, rec.url, false) == Some(c.encode(rec)) then t.mem == s.mem && t.store == s.store
         else
           && t.mem == s.mem[(r, rec.url) := c.encode(rec)]
           && t.store == if applied then s.store[Key(prefix, rec.url) := c.encode(rec)] else s.store
  {
    hide Runs, Key;
    RunNone(c, prefix, s);
    RunOn(c, prefix, s, [], s, Checked(i, false));
    ls, t := [] + [Checked(i, false)], Step(c, prefix, s, Checked(i, false));
    if t.agents[i].task.Writing? {
      RunOn(c, prefix, s, ls, t, Written(i, applied));
      ls, t := ls + [Written(i, applied)], Step(c, prefix, t, Written(i, applied));
      RunOn(c, prefix, s, ls, t, Kept(i, true));
      ls, t := ls + [Kept(i, true)], Step(c, prefix, t, Kept(i, true));
    }
  }
}
