/** When the replicas have settled on one record of a NAR. */
module NarSettled {
  import opened Common
  import opened NarIndex
  import Reading

  /** No narinfo that announces another record of the URL is served. */
  ghost predicate NoneElse(rec: Record, l: Label) {
    l.Serve? && l.parsed.Some? && l.parsed.value.url == rec.url ==> l.parsed.value == rec
  }

  ghost predicate Quiet(rec: Record, ls: seq<Label>) { forall l | l in ls :: NoneElse(rec, l) }

  function Expected(rec: Record): Reading.Expectation { Reading.Expectation(rec.fileSize, rec.fileHash) }

  /** However the run goes on without such a narinfo, every lookup of the URL that is not
      answered yet finds exactly this record. */
  ghost predicate Found(c: Codec, prefix: string, s: Net, rec: Record) {
    forall ls, t, j: nat |
      && Runs(c, prefix, s, ls, t) && Quiet(rec, ls)
      && (j < |s.agents| ==> !s.agents[j].task.Answered?) && Answers(t, j, rec.url) ::
      t.agents[j].task.found == Some(Expected(rec))
  }

  predicate Answers(t: Net, j: nat, url: string) {
    j < |t.agents| && t.agents[j].task.Answered? && t.agents[j].task.url == url
  }

  ghost predicate TaskSettled(c: Codec, rec: Record, task: Task) {
    match task
    case Checking(x) => x.url == rec.url ==> x == rec
    case Writing(x) => x.url == rec.url ==> x == rec
    case Keeping(x) => x.url == rec.url ==> x == rec
    case Copying(url, raw) => url == rec.url ==> raw == c.encode(rec)
    case _ => true
  }

  ghost predicate StoreSettled(c: Codec, prefix: string, s: Net, rec: Record) {
    Key(prefix, rec.url) in s.store && s.store[Key(prefix, rec.url)] == c.encode(rec)
  }

  ghost predicate MemSettled(c: Codec, s: Net, rec: Record) {
    forall r | (r, rec.url) in s.mem :: s.mem[(r, rec.url)] == c.encode(rec)
  }

  /** The store has the record, and neither a memory nor a call under way has another. */
  ghost predicate SettledOn(c: Codec, prefix: string, s: Net, rec: Record) {
    && StoreSettled(c, prefix, s, rec) && MemSettled(c, s, rec)
    && forall i | 0 <= i < |s.agents| :: TaskSettled(c, rec, s.agents[i].task)
  }

  // --------------------------------------------------------- what is settled stays so

  /** Lookup j, which had no answer, has none of this URL or has the record. */
  ghost predicate RightSoFar(s: Net, rec: Record, j: nat) {
    Answers(s, j, rec.url) ==> s.agents[j].task.found == Some(Expected(rec))
  }

  lemma KnownDecodes(c: Codec, served: seq<string>, rec: Record)
    requires CodecOk(c) && Known(served, rec)
    ensures Decoded(c, c.encode(rec), rec.url) == Some(Expected(rec))
  {
    hide Announces, Decoded;
    var b :| b in served && Announces(b, rec);
    AnnouncedDecodes(c, b, rec);
  }

  lemma StepSettled(c: Codec, prefix: string, s: Net, l: Label, rec: Record, j: nat)
    requires CodecOk(c) && Known(s.served, rec) && SettledOn(c, prefix, s, rec) && RightSoFar(s, rec, j)
    requires Can(prefix, s, l) && NoneElse(rec, l)
    ensures var t := Step(c, prefix, s, l);
      SettledOn(c, prefix, t, rec) && RightSoFar(t, rec, j) && Known(t.served, rec)
  {
    hide Announces, Decoded, Key, CodecOk;
    KnownDecodes(c, s.served, rec);
    match l
    case Serve(_, body, _) => ServedGrows(c, s.served, body);
    case Written(i, _) =>
      var x := s.agents[i].task.rec;
      if Key(prefix, x.url) == Key(prefix, rec.url) { KeyInjective(prefix, x.url, rec.url); }
      assert TaskSettled(c, rec, s.agents[i].task);
    case Want(_, _) =>
    case Foreign(_, _) =>
    case Checked(i, _) => assert TaskSettled(c, rec, s.agents[i].task);
    case Kept(i, _) => assert TaskSettled(c, rec, s.agents[i].task);
    case Asked(i, _) =>
    case Fetched(i, _) =>
    case Copied(i, _) => assert TaskSettled(c, rec, s.agents[i].task);
  }

  lemma {:induction false} RunSettled(c: Codec, prefix: string, s: Net, ls: seq<Label>, t: Net, rec: Record, j: nat)
    requires CodecOk(c) && Known(s.served, rec) && SettledOn(c, prefix, s, rec) && RightSoFar(s, rec, j)
    requires Runs(c, prefix, s, ls, t) && Quiet(rec, ls)
    ensures RightSoFar(t, rec, j)
    decreases |ls|
  {
    hide CodecOk, Known, SettledOn, RightSoFar, Can, Step, NoneElse;
    if ls != [] {
      StepSettled(c, prefix, s, ls[0], rec, j);
      RunSettled(c, prefix, Step(c, prefix, s, ls[0]), ls[1..], t, rec, j);
    }
  }

  // ------------------------------------------------------- what is not settled shows

  /** One label that serves nothing else. */
  lemma FoundAfter(c: Codec, prefix: string, s: Net, l: Label, rec: Record)
    requires Found(c, prefix, s, rec) && Can(prefix, s, l) && NoneElse(rec, l)
    ensures Found(c, prefix, Step(c, prefix, s, l), rec)
  {
    hide NoneElse, Can, Step, Runs, Quiet;
    var u := Step(c, prefix, s, l);
    forall ls, t, j: nat |
      && Runs(c, prefix, u, ls, t) && Quiet(rec, ls)
      && (j < |u.agents| ==> !u.agents[j].task.Answered?) && Answers(t, j, rec.url)
      ensures t.agents[j].task.found == Some(Expected(rec))
    {
      AnsweredStays(c, prefix, s, l, j);
      RunFrom(c, prefix, s, l, ls, t);
      QuietFrom(rec, l, ls);
      assert j < |s.agents| ==> !s.agents[j].task.Answered?;
    }
  }

  lemma QuietFrom(rec: Record, l: Label, ls: seq<Label>)
    requires NoneElse(rec, l) && Quiet(rec, ls)
    ensures Quiet(rec, [l] + ls)
  {
    hide NoneElse;
  }

  lemma RunFrom(c: Codec, prefix: string, s: Net, l: Label, ls: seq<Label>, t: Net)
    requires Can(prefix, s, l) && Runs(c, prefix, Step(c, prefix, s, l), ls, t)
    ensures Runs(c, prefix, s, [l] + ls, t)
  {
    hide Can, Step;
    assert ([l] + ls)[1..] == ls;
  }

  lemma AnsweredStays(c: Codec, prefix: string, s: Net, l: Label, j: nat)
    requires Can(prefix, s, l)
    ensures var t := Step(c, prefix, s, l);
      j < |s.agents| && s.agents[j].task.Answered? ==> j < |t.agents| && t.agents[j] == s.agents[j]
  {
    hide Announces, Decoded, Key;
  }

  /** With nothing more to happen, an answer that comes with one label is right. */
  lemma FoundNow(c: Codec, prefix: string, s: Net, l: Label, rec: Record, j: nat)
    requires Found(c, prefix, s, rec) && Can(prefix, s, l) && NoneElse(rec, l)
    requires (j < |s.agents| ==> !s.agents[j].task.Answered?) && Answers(Step(c, prefix, s, l), j, rec.url)
    ensures Step(c, prefix, s, l).agents[j].task.found == Some(Expected(rec))
  {
    hide NoneElse, Can, Step, Runs;
    RunOne(c, prefix, s, l);
    assert Quiet(rec, [l]);
  }

  /** What some narinfo announced of the URL and decodes to the record is its JSON. */
  lemma OnlyItsBytes(c: Codec, served: seq<string>, rec: Record, raw: seq<byte>)
    requires CodecOk(c) && Genuine(c, served, rec.url, raw) && Decoded(c, raw, rec.url) == Some(Expected(rec))
    ensures raw == c.encode(rec)
  {
    hide Announces, Decoded;
    var x :| Known(served, x) && x.url == rec.url && raw == c.encode(x);
    KnownDecodes(c, served, x);
    assert x == rec;
  }

  lemma StoreIsSettled(c: Codec, prefix: string, s: Net, rec: Record)
    requires CodecOk(c) && Inv(c, prefix, s) && Found(c, prefix, s, rec)
    ensures StoreSettled(c, prefix, s, rec)
  {
    hide Announces, Decoded, Key, Known, CodecOk, Found, Answers, Runs;
    var n := |s.agents|;
    var l0, l1, l2, l3 := Want(0, rec.url), Asked(n, true), Fetched(n, false), Copied(n, false);
    FoundAfter(c, prefix, s, l0, rec);
    var s1 := Step(c, prefix, s, l0);
    FoundAfter(c, prefix, s1, l1, rec);
    var s2 := Step(c, prefix, s1, l1);
    assert s2.agents[n].task == Fetching(rec.url) && s2.store == s.store;
    var s3 := Step(c, prefix, s2, l2);
    if s3.agents[n].task.Answered? {
      AnswersNow(s3, n, rec.url);
      FoundNow(c, prefix, s2, l2, rec, n);
    }
    var raw := s.store[Key(prefix, rec.url)];
    GenuineDecodes(c, s.served, rec.url, raw);
    FoundAfter(c, prefix, s2, l2, rec);
    AnswersNow(Step(c, prefix, s3, l3), n, rec.url);
    FoundNow(c, prefix, s3, l3, rec, n);
    OnlyItsBytes(c, s.served, rec, raw);
  }

  lemma AnswersNow(s: Net, j: nat, url: string)
    requires j < |s.agents| && s.agents[j].task.Answered? && s.agents[j].task.url == url
    ensures Answers(s, j, url)
  {}

  lemma MemIsSettled(c: Codec, prefix: string, s: Net, rec: Record, r: nat)
    requires CodecOk(c) && Inv(c, prefix, s) && Found(c, prefix, s, rec) && (r, rec.url) in s.mem
    ensures s.mem[(r, rec.url)] == c.encode(rec)
  {
    hide Announces, Decoded, Key, Known, CodecOk, Found, Answers, Runs;
    var n, raw := |s.agents|, s.mem[(r, rec.url)];
    GenuineDecodes(c, s.served, rec.url, raw);
    FoundAfter(c, prefix, s, Want(r, rec.url), rec);
    var s1 := Step(c, prefix, s, Want(r, rec.url));
    AnswersNow(Step(c, prefix, s1, Asked(n, false)), n, rec.url);
    FoundNow(c, prefix, s1, Asked(n, false), rec, n);
    OnlyItsBytes(c, s.served, rec, raw);
  }

  /** Known records of one JSON form are one record. */
  lemma SameBytes(c: Codec, served: seq<string>, x: Record, rec: Record)
    requires CodecOk(c) && Known(served, x) && Known(served, rec) && c.encode(x) == c.encode(rec)
    ensures x == rec
  {
    hide Announces;
    var a :| a in served && Announces(a, x);
    var b :| b in served && Announces(b, rec);
    assert Some(x) == c.decode(c.encode(x)) == Some(rec);
  }

  lemma WritingIsSettled(c: Codec, prefix: string, s: Net, rec: Record, i: nat)
    requires CodecOk(c) && Inv(c, prefix, s) && Found(c, prefix, s, rec) && Known(s.served, rec)
    requires i < |s.agents| && s.agents[i].task.Writing? && s.agents[i].task.rec.url == rec.url
    ensures s.agents[i].task.rec == rec
  {
    hide Announces, Decoded, Known, CodecOk, Found, Genuine, Key;
    assert TaskOk(c, s.served, s.agents[i].task);
    StepKeeps(c, prefix, s, Written(i, true));
    FoundAfter(c, prefix, s, Written(i, true), rec);
    StoreIsSettled(c, prefix, Step(c, prefix, s, Written(i, true)), rec);
    SameBytes(c, s.served, s.agents[i].task.rec, rec);
  }

  lemma TaskIsSettled(c: Codec, prefix: string, s: Net, rec: Record, i: nat)
    requires CodecOk(c) && Inv(c, prefix, s) && Found(c, prefix, s, rec) && Known(s.served, rec) && i < |s.agents|
    ensures TaskSettled(c, rec, s.agents[i].task)
  {
    hide Announces, Decoded, Known, CodecOk, Found, Genuine, Key, Answers;
    var task := s.agents[i].task;
    assert TaskOk(c, s.served, task);
    match task
    case Checking(x) =>
      if x.url == rec.url {
        StepKeeps(c, prefix, s, Checked(i, true));
        FoundAfter(c, prefix, s, Checked(i, true), rec);
        WritingIsSettled(c, prefix, Step(c, prefix, s, Checked(i, true)), rec, i);
      }
    case Writing(x) => if x.url == rec.url { WritingIsSettled(c, prefix, s, rec, i); }
    case Keeping(x) =>
      if x.url == rec.url {
        var l := Kept(i, true);
        StepKeeps(c, prefix, s, l);
        FoundAfter(c, prefix, s, l, rec);
        MemIsSettled(c, prefix, Step(c, prefix, s, l), rec, s.agents[i].replica);
        SameBytes(c, s.served, x, rec);
      }
    case Copying(url, raw) =>
      if url == rec.url {
        AnswersNow(Step(c, prefix, s, Copied(i, false)), i, url);
        FoundNow(c, prefix, s, Copied(i, false), rec, i);
        OnlyItsBytes(c, s.served, rec, raw);
      }
    case _ =>
  }

  /** A record that some narinfo announced is what every later lookup of its URL finds, in
      every run in which no other record of that URL is announced any more, if and only if
      the replicas have settled on it: the store has it, and neither a memory nor a call
      that is under way has another. */
  lemma FoundIffSettled(c: Codec, prefix: string, s: Net, rec: Record)
    requires CodecOk(c) && Inv(c, prefix, s) && Known(s.served, rec)
    ensures Found(c, prefix, s, rec) <==> SettledOn(c, prefix, s, rec)
  {
    hide CodecOk, Inv, Known, Runs, NoneElse;
    if Found(c, prefix, s, rec) {
      StoreIsSettled(c, prefix, s, rec);
      forall r | (r, rec.url) in s.mem
        ensures s.mem[(r, rec.url)] == c.encode(rec)
      {
        MemIsSettled(c, prefix, s, rec, r);
      }
      forall i | 0 <= i < |s.agents|
        ensures TaskSettled(c, rec, s.agents[i].task)
      {
        TaskIsSettled(c, prefix, s, rec, i);
      }
    }
    if SettledOn(c, prefix, s, rec) {
      forall ls, t, j: nat |
        && Runs(c, prefix, s, ls, t) && Quiet(rec, ls)
        && (j < |s.agents| ==> !s.agents[j].task.Answered?) && Answers(t, j, rec.url)
        ensures t.agents[j].task.found == Some(Expected(rec))
      {
        RunSettled(c, prefix, s, ls, t, rec, j);
      }
    }
  }
}
