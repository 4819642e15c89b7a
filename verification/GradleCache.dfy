/** The Gradle build cache's PUT: a check that the entry is not there, then an upload of
    the request's body. */
module GradleCache {
  import opened Common
  import Reading
  import U = Upload
  import O = UploadOutcome
  import S = PullThroughSafety

  /** How far a PUT is; `status` is what it was answered. */
  datatype Pc = Start | Writing(u: U.Up) | Done(status: int)

  /** A PUT of `key`; `length` is its Content-Length, -1 without one, `data` what of its
      body arrives and `plan` how: the server hands on no more than was announced. */
  datatype Put = Put(key: string, length: int, data: seq<byte>, plan: seq<Reading.Turn>, pc: Pc)

  datatype World = World(maxEntry: int, partSize: nat, concurrency: nat, hash: seq<byte> -> string)

  ghost predicate WorldOk(w: World) { w.partSize > 0 && w.concurrency > 0 }

  datatype Sys = Sys(puts: seq<Put>, store: map<string, seq<byte>>)

  /** `fail`: the store fails. */
  datatype Label = Checked(i: nat, fail: bool) | Uploaded(i: nat, l: U.Label) | Answered(i: nat)

  ghost predicate Can(s: Sys, l: Label) {
    l.i < |s.puts| &&
    match l
    case Checked(i, _) => s.puts[i].pc == Start
    case Uploaded(i, ul) => s.puts[i].pc.Writing? && U.Can(s.puts[i].pc.u, ul) && Reading.Ready(s.puts[i].pc.u.reader)
    case Answered(i) => s.puts[i].pc.Writing? && s.puts[i].pc.u.pc.Done?
  }

  function Goto(s: Sys, i: nat, pc: Pc): Sys
    requires i < |s.puts|
  {
    s.(puts := s.puts[i := s.puts[i].(pc := pc)])
  }

  /** The request's body: if fewer bytes arrive than were announced, the server ends it in
      an error. */
  function BodyOf(p: Put): Reading.Body {
    Reading.Body(p.data, 0, if |p.data| == p.length then Reading.CleanEnd else Reading.Broken, p.plan)
  }

  function ReaderOf(w: World, p: Put): Reading.Reader {
    Reading.Open(BodyOf(p), -1, None, w.hash, Reading.Client(false, [], []))
  }

  function Step(w: World, s: Sys, l: Label): Sys
    requires Can(s, l)
  {
    var p := s.puts[l.i];
    match l
    case Checked(i, fail) =>
      Goto(s, i,
        if p.length < 0 then Done(411)
        else if p.length > w.maxEntry then Done(413)
        else if fail then Done(502)
        else if p.key in s.store then Done(204)
        else Writing(U.Begin(w.partSize, w.concurrency, ReaderOf(w, p))))
    case Uploaded(i, ul) =>
      var u := U.Step(p.pc.u, ul);
      var t := Goto(s, i, Writing(u));
      if (ul.SinglePut? || ul.Completed?) && u.s3.visible.Some? then t.(store := s.store[p.key := u.s3.visible.value])
        else t
    case Answered(i) => Goto(s, i, Done(if p.pc.u.pc.res.Stored? then 204 else 502))
  }

  /** What a PUT is answered: 411 without a length, 413 if it is too large, 502 if the store
      fails, 204 if the entry is there or has been stored. */
  lemma AnswersAre(w: World, s: Sys, i: nat, fail: bool)
    ensures Can(s, Checked(i, fail)) ==>
      var p, pc := s.puts[i], Step(w, s, Checked(i, fail)).puts[i].pc;
      && (pc == Done(411) <==> p.length < 0)
      && (pc == Done(413) <==> p.length >= 0 && p.length > w.maxEntry)
      && (pc == Done(502) <==> 0 <= p.length <= w.maxEntry && fail)
      && (pc == Done(204) <==> 0 <= p.length <= w.maxEntry && !fail && p.key in s.store)
      && (pc.Writing? <==> 0 <= p.length <= w.maxEntry && !fail && p.key !in s.store)
      && (pc.Done? ==> pc.status in {411, 413, 502, 204})
    ensures Can(s, Answered(i)) ==>
      Step(w, s, Answered(i)).puts[i].pc == Done(if s.puts[i].pc.u.pc.res.Stored? then 204 else 502)
  {}

  ghost predicate Runs(w: World, s: Sys, ls: seq<Label>, t: Sys)
    decreases |ls|
  {
    if ls == [] then s == t else Can(s, ls[0]) && Runs(w, Step(w, s, ls[0]), ls[1..], t)
  }

  // ------------------------------------------------------------- what every step keeps

  /** What a PUT's upload is known to be. */
  ghost predicate UploadOk(w: World, p: Put, u: U.Up)
    requires Reading.Ready(ReaderOf(w, p))
  {
    && U.Inv(u) && O.Tracks(u, ReaderOf(w, p), w.partSize) && Reading.Same(ReaderOf(w, p), u.reader)
    && (u.upErr ==> u.sent != [])
  }

  ghost predicate PutOk(w: World, p: Put) { p.pc.Writing? ==> 0 <= p.length <= w.maxEntry && UploadOk(w, p, p.pc.u) }

  ghost predicate Inv(w: World, s: Sys) { WorldOk(w) && forall i | 0 <= i < |s.puts| :: PutOk(w, s.puts[i]) }

  lemma BegunOk(w: World, p: Put)
    requires WorldOk(w)
    ensures UploadOk(w, p, U.Begin(w.partSize, w.concurrency, ReaderOf(w, p)))
  {
    Reading.OpenOk(BodyOf(p), -1, None, w.hash, Reading.Client(false, [], []));
    U.BeginOk(w.partSize, w.concurrency, ReaderOf(w, p));
  }

  lemma UploadKeeps(w: World, p: Put, u: U.Up, l: U.Label)
    requires UploadOk(w, p, u) && U.Can(u, l) && Reading.Ready(u.reader)
    ensures UploadOk(w, p, U.Step(u, l))
  {
    hide U.Inv, U.Step, O.Tracks;
    U.StepKeeps(u, l);
    O.StepTracks(u, l, ReaderOf(w, p), w.partSize);
    ErrorsAreParts(u, l);
  }

  /** An upload fails in a part only if it has one, and its reader stays the same one's. */
  lemma ErrorsAreParts(u: U.Up, l: U.Label)
    requires U.Inv(u) && U.Can(u, l) && Reading.Ready(u.reader)
    ensures var v := U.Step(u, l);
      Reading.Same(u.reader, v.reader) && (v.upErr ==> u.upErr || v.sent != []) && |v.sent| >= |u.sent|
  {
    hide Reading.Fill, Sum, U.Sorted, U.Assemble, U.PartsOk, U.Owned, U.BytesOk, U.CallsOk, U.EveryPartIn;
    U.StepKeeps(u, l);
  }

  lemma PutKeeps(w: World, s: Sys, l: Label)
    requires Inv(w, s) && Can(s, l)
    ensures PutOk(w, Step(w, s, l).puts[l.i])
  {
    hide UploadOk, U.Can, U.Step;
    var p := s.puts[l.i];
    match l
    case Checked(_, _) =>
      BegunOk(w, p);
      SamePut(w, p, U.Begin(w.partSize, w.concurrency, ReaderOf(w, p)));
    case Uploaded(_, ul) =>
      UploadKeeps(w, p, p.pc.u, ul);
      SamePut(w, p, U.Step(p.pc.u, ul));
    case Answered(_) =>
  }

  /** What is known of a PUT's upload does not depend on how far the PUT is. */
  lemma SamePut(w: World, p: Put, u: U.Up)
    requires UploadOk(w, p, u)
    ensures UploadOk(w, p.(pc := Writing(u)), u)
  {
    hide U.Inv;
    assert ReaderOf(w, p.(pc := Writing(u))) == ReaderOf(w, p);
  }

  lemma StepKeeps(w: World, s: Sys, l: Label)
    requires Inv(w, s) && Can(s, l)
    ensures Inv(w, Step(w, s, l))
  {
    hide PutOk, U.Can, U.Step;
    PutKeeps(w, s, l);
    OthersStay(w, s, l);
  }

  lemma OthersStay(w: World, s: Sys, l: Label)
    requires Can(s, l)
    ensures var t := Step(w, s, l);
      && |t.puts| == |s.puts| && t.puts == s.puts[l.i := t.puts[l.i]]
      && t.puts[l.i] == s.puts[l.i].(pc := t.puts[l.i].pc)
  {
    hide U.Can, U.Step;
  }

  // ---------------------------------------------------------------- entries are whole

  /** A PUT that announced exactly these bytes, and no more than may be stored. */
  ghost predicate Sent(w: World, puts: seq<Put>, key: string, data: seq<byte>) {
    exists i :: 0 <= i < |puts| && puts[i].key == key && puts[i].data == data && |data| == puts[i].length <= w.maxEntry
  }

  /** The PUTs are the same ones, further on. */
  ghost predicate SamePuts(a: seq<Put>, b: seq<Put>) {
    |a| == |b| && forall i | 0 <= i < |a| :: b[i] == a[i].(pc := b[i].pc)
  }

  lemma SentStays(w: World, a: seq<Put>, b: seq<Put>, key: string, data: seq<byte>)
    requires SamePuts(a, b) && Sent(w, a, key, data)
    ensures Sent(w, b, key, data)
  {
    var i :| 0 <= i < |a| && a[i].key == key && a[i].data == data && |data| == a[i].length <= w.maxEntry;
    assert b[i].key == key && b[i].data == data;
  }

  ghost predicate EntriesOk(w: World, s: Sys, before: map<string, seq<byte>>) {
    forall k | k in s.store :: (k in before && s.store[k] == before[k]) || Sent(w, s.puts, k, s.store[k])
  }

  /** What an upload shows is the PUT's whole body. */
  lemma ShowsWhole(w: World, p: Put, u: U.Up, l: U.Label)
    requires UploadOk(w, p, u) && U.Can(u, l) && Reading.Ready(u.reader) && U.Step(u, l).s3.visible.Some?
    ensures U.Step(u, l).s3.visible.value == p.data && |p.data| == p.length
    ensures !(l.SinglePut? || l.Completed?) ==> u.s3.visible.Some?
  {
    hide U.Inv, U.Step, U.Can, O.Tracks, Reading.Verdict;
    S.UploadShows(u, l);
  }

  lemma StepEntries(w: World, s: Sys, l: Label, before: map<string, seq<byte>>)
    requires Inv(w, s) && Can(s, l) && EntriesOk(w, s, before)
    ensures EntriesOk(w, Step(w, s, l), before)
  {
    hide U.Can, U.Step, UploadOk, Sent;
    var t, p := Step(w, s, l), s.puts[l.i];
    OthersStay(w, s, l);
    forall k | k in t.store ensures (k in before && t.store[k] == before[k]) || Sent(w, t.puts, k, t.store[k]) {
      if k in s.store && t.store[k] == s.store[k] {
        if Sent(w, s.puts, k, s.store[k]) { SentStays(w, s.puts, t.puts, k, s.store[k]); }
      } else {
        ShowsWhole(w, p, p.pc.u, l.l);
        SentBy(w, t.puts, l.i);
      }
    }
  }

  lemma SentBy(w: World, puts: seq<Put>, i: nat)
    requires i < |puts| && |puts[i].data| == puts[i].length <= w.maxEntry
    ensures Sent(w, puts, puts[i].key, puts[i].data)
  {}

  /** Whatever is in the store is one PUT's body, whole and small enough, or was there
      before: however its bytes arrive, whatever S3 does, and however PUTs interleave. */
  lemma {:induction false} EntriesAreWhole(w: World, s: Sys, ls: seq<Label>, t: Sys, before: map<string, seq<byte>>)
    requires Inv(w, s) && EntriesOk(w, s, before) && Runs(w, s, ls, t)
    ensures EntriesOk(w, t, before)
    decreases |ls|
  {
    hide Inv, EntriesOk, Step, Can;
    if ls != [] {
      StepEntries(w, s, ls[0], before);
      StepKeeps(w, s, ls[0]);
      EntriesAreWhole(w, Step(w, s, ls[0]), ls[1..], t, before);
    }
  }

  // -------------------------------------------------------------- which writes can win

  /** Nothing has gone wrong with the upload. */
  predicate Alive(u: U.Up) {
    !u.upErr && !u.pc.Aborting? && !u.pc.Done? && !(u.pc.Wait? && u.pc.why.Some?)
  }

  /** The body is whole, and its end comes within the parts there can be. */
  ghost predicate Storable(w: World, p: Put)
    requires Reading.Ready(ReaderOf(w, p))
  {
    O.Filled(ReaderOf(w, p), w.partSize, U.MAX_PARTS).err == Some(Reading.Eof)
  }

  lemma DeadStays(u: U.Up, l: U.Label)
    requires U.Inv(u) && U.Can(u, l) && Reading.Ready(u.reader) && Alive(U.Step(u, l))
    ensures Alive(u)
  {
    hide Reading.Fill, Sum, U.Sorted, U.Assemble, U.PartsOk, U.Owned, U.BytesOk, U.EveryPartIn;
  }

  /** Only an upload that was alive shows anything, and only of a body that can be stored. */
  lemma ShowsStorable(w: World, p: Put, u: U.Up, l: U.Label)
    requires UploadOk(w, p, u) && U.Can(u, l) && Reading.Ready(u.reader) && U.Step(u, l).s3.visible.Some?
    requires l.SinglePut? || l.Completed?
    ensures Alive(u) && Storable(w, p)
  {
    hide U.Inv, U.Step, O.Filled;
    UploadKeeps(w, p, u, l);
    CallsAlive(u, l);
    EndsInEof(U.Step(u, l));
    SizeOk(u);
    O.FilledStays(ReaderOf(w, p), w.partSize, U.Step(u, l).num, U.MAX_PARTS);
  }

  lemma CallsAlive(u: U.Up, l: U.Label)
    requires U.Inv(u) && U.Can(u, l) && (l.SinglePut? || l.Completed?) && (u.upErr ==> u.sent != [])
    ensures Alive(u)
  {
    hide Sum, U.Sorted, U.Assemble, U.PartsOk, U.Owned, U.BytesOk, U.EveryPartIn;
  }

  lemma SizeOk(u: U.Up)
    requires U.Inv(u)
    ensures u.partSize > 0
  {}

  lemma EndsInEof(u: U.Up)
    requires U.Inv(u) && u.s3.visible.Some?
    ensures u.reader.err == Some(Reading.Eof)
  {
    hide Sum, U.PartsOk, U.Owned, U.BytesOk, U.EveryPartIn;
  }

  /** A PUT of other bytes that is past its check, with nothing gone wrong so far. */
  ghost predicate Rival(w: World, s: Sys, key: string, i: nat) {
    && i < |s.puts| && s.puts[i].key == key && s.puts[i].pc.Writing? && Alive(s.puts[i].pc.u)
    && Storable(w, s.puts[i]) && key in s.store && s.puts[i].data != s.store[key]
  }

  /** Whatever happens, the entry stays. */
  ghost predicate Safe(w: World, s: Sys, key: string) {
    key in s.store && forall ls, t | Runs(w, s, ls, t) :: key in t.store && t.store[key] == s.store[key]
  }

  lemma StepSame(w: World, s: Sys, l: Label, key: string)
    requires Inv(w, s) && Can(s, l) && key in s.store && !Rival(w, s, key, l.i)
    ensures var t := Step(w, s, l); key in t.store && t.store[key] == s.store[key]
  {
    hide U.Can, U.Step, UploadOk, Storable, Alive;
    var p := s.puts[l.i];
    if l.Uploaded? && (l.l.SinglePut? || l.l.Completed?) && U.Step(p.pc.u, l.l).s3.visible.Some? {
      ShowsWhole(w, p, p.pc.u, l.l);
      ShowsStorable(w, p, p.pc.u, l.l);
    }
  }

  lemma RivalBefore(w: World, s: Sys, l: Label, key: string, i: nat)
    requires Inv(w, s) && Can(s, l) && key in s.store && !Rival(w, s, key, l.i) && Rival(w, Step(w, s, l), key, i)
    ensures Rival(w, s, key, i)
  {
    hide U.Can, U.Step, Alive, U.Inv, O.Tracks, Storable;
    OthersStay(w, s, l);
    StepSame(w, s, l, key);
    if i == l.i {
      StorableSame(w, s.puts[i], Step(w, s, l).puts[i]);
      DeadStays(s.puts[i].pc.u, l.l);
    }
  }

  lemma StorableSame(w: World, p: Put, q: Put)
    requires q == p.(pc := q.pc)
    ensures Storable(w, p) <==> Storable(w, q)
  {
    hide O.Filled;
    assert ReaderOf(w, p) == ReaderOf(w, q);
  }

  lemma {:induction false} OnlyTheSame(w: World, s: Sys, ls: seq<Label>, t: Sys, key: string)
    requires Inv(w, s) && key in s.store && Runs(w, s, ls, t)
    requires !exists i :: Rival(w, s, key, i)
    ensures key in t.store && t.store[key] == s.store[key]
    decreases |ls|
  {
    hide Inv, Step, Can, Rival;
    if ls != [] {
      var u := Step(w, s, ls[0]);
      StepSame(w, s, ls[0], key);
      StepKeeps(w, s, ls[0]);
      forall i | Rival(w, u, key, i) ensures Rival(w, s, key, i) { RivalBefore(w, s, ls[0], key, i); }
      OnlyTheSame(w, u, ls[1..], t, key);
    }
  }

  // ------------------------------------------------------------------- a rival can win

  lemma RunOn(w: World, s: Sys, l: Label, ls: seq<Label>, t: Sys)
    requires Can(s, l) && Runs(w, Step(w, s, l), ls, t)
    ensures Runs(w, s, [l] + ls, t)
  {
    hide Can, Step;
    assert ([l] + ls)[1..] == ls;
  }

  lemma {:induction false} RunJoin(w: World, s: Sys, ls: seq<Label>, t: Sys, ls': seq<Label>, u: Sys)
    requires Runs(w, s, ls, t) && Runs(w, t, ls', u)
    ensures Runs(w, s, ls + ls', u)
    decreases |ls|
  {
    hide Can, Step;
    if ls == [] {
      assert ls + ls' == ls';
    } else {
      assert (ls + ls')[1..] == ls[1..] + ls';
      RunJoin(w, Step(w, s, ls[0]), ls[1..], t, ls', u);
    }
  }

  /** The entry has the PUT's bytes if the upload shows anything. */
  predicate Shown(s: Sys, i: nat)
    requires i < |s.puts| && s.puts[i].pc.Writing?
  {
    s.puts[i].pc.u.s3.visible.Some? ==> s.puts[i].key in s.store && s.store[s.puts[i].key] == s.puts[i].data
  }

  lemma StepShown(w: World, s: Sys, i: nat, l: U.Label)
    requires Inv(w, s) && Can(s, Uploaded(i, l)) && Shown(s, i)
    ensures Shown(Step(w, s, Uploaded(i, l)), i)
  {
    hide U.Can, U.Step, UploadOk;
    var p := s.puts[i];
    if U.Step(p.pc.u, l).s3.visible.Some? { ShowsWhole(w, p, p.pc.u, l); }
  }

  lemma UploadStep(w: World, s: Sys, i: nat, l: U.Label)
    requires i < |s.puts| && s.puts[i].pc.Writing? && U.Can(s.puts[i].pc.u, l) && Inv(w, s)
    ensures Can(s, Uploaded(i, l))
    ensures var t := Step(w, s, Uploaded(i, l));
      && Inv(w, t) && t.puts == s.puts[i := s.puts[i].(pc := Writing(U.Step(s.puts[i].pc.u, l)))]
  {
    hide U.Can, U.Step;
    U.InvReady(s.puts[i].pc.u);
    StepKeeps(w, s, Uploaded(i, l));
  }

  /** A run of a PUT's upload is a run of the service. */
  lemma {:induction false} Lift(w: World, s: Sys, i: nat, uls: seq<U.Label>, v: U.Up) returns (ls: seq<Label>, t: Sys)
    requires Inv(w, s) && i < |s.puts| && s.puts[i].pc.Writing? && U.Inv(s.puts[i].pc.u) && Shown(s, i)
    requires U.Runs(s.puts[i].pc.u, uls, v)
    ensures Runs(w, s, ls, t) && Inv(w, t) && t.puts == s.puts[i := s.puts[i].(pc := Writing(v))] && Shown(t, i)
    decreases |uls|
  {
    hide U.Inv, U.Step, U.Can, Inv, Step, Can, Shown, Runs;
    if uls == [] {
      ls, t := [], s;
      RunNone(w, s);
      assert s.puts[i].(pc := Writing(v)) == s.puts[i];
    } else {
      var u, l := s.puts[i].pc.u, uls[0];
      U.StepKeeps(u, l);
      UploadStep(w, s, i, l);
      StepShown(w, s, i, l);
      var rest;
      rest, t := Lift(w, Step(w, s, Uploaded(i, l)), i, uls[1..], v);
      ls := [Uploaded(i, l)] + rest;
      RunOn(w, s, Uploaded(i, l), rest, t);
    }
  }

  lemma RunNone(w: World, s: Sys)
    ensures Runs(w, s, [], s)
  {}

  lemma NotShownYet(u: U.Up)
    requires U.Inv(u) && Alive(u)
    ensures u.s3.visible.None? && O.Why(u)
  {
    hide Sum, U.PartsOk, U.Owned, U.BytesOk, U.EveryPartIn;
  }

  lemma StoredShows(u: U.Up)
    requires U.Inv(u) && u.pc.Done? && u.pc.res.Stored?
    ensures u.s3.visible.Some?
  {
    hide Sum, U.PartsOk, U.Owned, U.BytesOk, U.EveryPartIn;
  }

  /** An upload with nothing gone wrong, of a body that can be stored, can be run to its
      end, and then the PUT's bytes are the entry. */
  lemma Wins(w: World, s: Sys, i: nat) returns (ls: seq<Label>, t: Sys)
    requires Inv(w, s) && i < |s.puts| && s.puts[i].pc.Writing? && Alive(s.puts[i].pc.u) && Storable(w, s.puts[i])
    ensures Runs(w, s, ls, t) && Inv(w, t) && s.puts[i].key in t.store && t.store[s.puts[i].key] == s.puts[i].data
    ensures |t.puts| == |s.puts| && t.puts == s.puts[i := s.puts[i].(pc := Done(204))]
  {
    hide U.Inv, O.Tracks, Runs, Storable, Inv, U.Runs, Reading.Same, Alive;
    var p, u := s.puts[i], s.puts[i].pc.u;
    KnowPut(w, s, i);
    U.InvReady(u);
    NotShownYet(u);
    var uls, v := O.CompleteRun(u);
    O.RunWhy(u, uls, v);
    O.RunTracks(u, uls, v, ReaderOf(w, p), w.partSize);
    U.RunKeeps(u, uls, v);
    StoredIf(w, p, v);
    StoredShows(v);
    ls, t := Lift(w, s, i, uls, v);
    var l, last := Answered(i), Step(w, t, Answered(i));
    StepKeeps(w, t, l);
    RunNone(w, last);
    RunOn(w, t, l, [], last);
    RunJoin(w, s, ls, t, [l] + [], last);
    ls, t := ls + ([l] + []), last;
  }

  lemma KnowPut(w: World, s: Sys, i: nat)
    requires Inv(w, s) && i < |s.puts| && s.puts[i].pc.Writing?
    ensures w.partSize > 0 && UploadOk(w, s.puts[i], s.puts[i].pc.u)
  {
    hide UploadOk;
    assert PutOk(w, s.puts[i]);
  }

  lemma StoredIf(w: World, p: Put, v: U.Up)
    requires w.partSize > 0 && O.Tracks(v, ReaderOf(w, p), w.partSize) && U.Inv(v) && O.Why(v) && v.pc.Done?
    ensures v.pc.res.Stored? <==> Storable(w, p)
  {
    hide U.Inv, O.Tracks, O.Filled, O.Why;
    O.OutcomeOf(U.Begin(w.partSize, w.concurrency, ReaderOf(w, p)), v);
  }

  /** The first write of a key wins, as promised, exactly when no PUT of other bytes, whole
      ones, was then past its check with nothing gone wrong. */
  lemma FirstWriteWinsIff(w: World, s: Sys, key: string)
    requires Inv(w, s) && key in s.store
    ensures Safe(w, s, key) <==> !exists i :: Rival(w, s, key, i)
  {
    hide Inv, Runs;
    if i :| Rival(w, s, key, i) {
      var ls, t := Wins(w, s, i);
    } else {
      forall ls, t | Runs(w, s, ls, t) ensures key in t.store && t.store[key] == s.store[key] {
        OnlyTheSame(w, s, ls, t, key);
      }
    }
  }

  /** A whole body below the limit of the parts can be stored. */
  lemma SmallIsStorable(w: World, p: Put)
    requires w.partSize > 0 && |p.data| == p.length && |p.data| < U.MAX_PARTS * w.partSize
    ensures Storable(w, p)
  {
    hide O.Filled;
    Reading.OpenOk(BodyOf(p), -1, None, w.hash, Reading.Client(false, [], []));
    O.Limits(ReaderOf(w, p), w.partSize);
  }

  /** Both look before either has written. */
  lemma BothCheck(w: World, s: Sys, key: string, a: Put, b: Put) returns (t: Sys)
    requires WorldOk(w) && s.puts == [a, b] && a.pc == b.pc == Start && a.key == b.key == key && key !in s.store
    requires 0 <= a.length <= w.maxEntry && 0 <= b.length <= w.maxEntry
    ensures Inv(w, s) && Inv(w, t) && Runs(w, s, [Checked(0, false), Checked(1, false)], t) && t.store == s.store
    ensures var begun := (p: Put) => p.(pc := Writing(U.Begin(w.partSize, w.concurrency, ReaderOf(w, p))));
      t.puts == [begun(a), begun(b)]
  {
    hide UploadOk, U.Begin;
    var l0, l1 := Checked(0, false), Checked(1, false);
    var s1 := Step(w, s, l0);
    StepKeeps(w, s, l0);
    StepKeeps(w, s1, l1);
    t := Step(w, s1, l1);
    RunNone(w, t);
    RunOn(w, s1, l1, [], t);
    RunOn(w, s, l0, [l1], t);
  }

  /** It need not: two PUTs of one key with other bytes, nothing failing. Both find it
      absent, the first is stored and answered 204, and so is the second, in its place. */
  lemma LastWriteWins(w: World, s: Sys, key: string, a: Put, b: Put)
    returns (ls: seq<Label>, mid: Sys, ls': seq<Label>, t: Sys)
    requires WorldOk(w) && s.puts == [a, b] && a.pc == b.pc == Start && a.key == b.key == key && key !in s.store
    requires |a.data| == a.length <= w.maxEntry && |b.data| == b.length <= w.maxEntry && a.data != b.data
    requires |a.data| < U.MAX_PARTS * w.partSize && |b.data| < U.MAX_PARTS * w.partSize
    ensures Runs(w, s, ls, mid) && |mid.puts| == 2 && mid.puts[0].pc == Done(204)
    ensures key in mid.store && mid.store[key] == a.data && Rival(w, mid, key, 1)
    ensures Runs(w, mid, ls', t) && |t.puts| == 2 && t.puts[0].pc == t.puts[1].pc == Done(204)
    ensures key in t.store && t.store[key] == b.data
  {
    hide Runs, Inv, Storable, ReaderOf;
    var both := BothCheck(w, s, key, a, b);
    SmallIsStorable(w, both.puts[0]);
    SmallIsStorable(w, both.puts[1]);
    ls, mid := Wins(w, both, 0);
    RunJoin(w, s, [Checked(0, false), Checked(1, false)], both, ls, mid);
    ls := [Checked(0, false), Checked(1, false)] + ls;
    ls', t := Wins(w, mid, 1);
  }
}
