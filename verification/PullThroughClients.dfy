/** What the leader's client can and cannot influence. */
module PullThroughClients {
  import opened Common
  import opened Reading
  import U = Upload
  import opened PullThrough
  import opened PullThroughSafety

  /** The same system with another request in place i. */
  function With(s: Sys, i: nat, x: Req): Sys
    requires i < |s.reqs|
  {
    s.(reqs := s.reqs[i := x])
  }

  lemma GotoLocal(s: Sys, i: nat, x: Req, j: nat)
    requires i < |s.reqs| && j < |s.reqs| && i != j
    ensures forall pc :: Goto(With(s, i, x), j, pc) == With(Goto(s, j, pc), i, x)
  {
    forall pc ensures Goto(With(s, i, x), j, pc) == With(Goto(s, j, pc), i, x) {
      var q := s.reqs[j].(pc := pc);
      assert s.reqs[i := x][j := q] == s.reqs[j := q][i := x];
    }
  }

  /** A leader's notes do not depend on the other requests. */
  lemma NotesLocal(s: Sys, i: nat, x: Req, j: nat)
    requires i < |s.reqs| && j < |s.reqs| && i != j && s.reqs[j].pc.Lead?
    ensures forall res, stored :: Note(With(s, i, x), j, res, stored) == With(Note(s, j, res, stored), i, x)
    ensures NoteStored(With(s, i, x), j) == With(NoteStored(s, j), i, x)
    ensures CountFetch(With(s, i, x), j) == With(CountFetch(s, j), i, x)
    ensures |CountFetch(s, j).reqs| == |NoteStored(s, j).reqs| == |s.reqs|
    ensures CountFetch(s, j).reqs == NoteStored(s, j).reqs == s.reqs
    ensures forall res, stored :: Note(s, j, res, stored).reqs == s.reqs
  {}

  lemma PlainLocal(w: World, s: Sys, i: nat, x: Req, l: Label)
    requires i < |s.reqs| && Can(w, s, l) && ReadersReady(s, l.i) && l.i != i
    requires l.HitNeg? || l.HitMem? || l.Presigned? || l.Woken? || l.Left? || l.Looked?
    requires Can(w, With(s, i, x), l) && ReadersReady(With(s, i, x), l.i) && i < |Step(w, s, l).reqs|
    ensures Step(w, With(s, i, x), l) == With(Step(w, s, l), i, x)
  {
    hide Goto, Follow, Served;
    GotoLocal(s, i, x, l.i);
  }

  lemma ProbedLocal(w: World, s: Sys, i: nat, x: Req, l: Label)
    requires i < |s.reqs| && Can(w, s, l) && l.i != i && l.Probed?
    ensures Probe(w, With(s, i, x), l.i, l.fail, l.kept, l.proxied) ==
      With(Probe(w, s, l.i, l.fail, l.kept, l.proxied), i, x)
  {
    hide Goto, ProbePc;
    GotoLocal(s, i, x, l.i);
    assert ProbePc(w, With(s, i, x), s.reqs[l.i], l.fail, l.proxied) ==
      ProbePc(w, s, s.reqs[l.i], l.fail, l.proxied) by { ProbePcLocal(w, s, i, x, l); }
  }

  lemma ProbePcLocal(w: World, s: Sys, i: nat, x: Req, l: Label)
    requires i < |s.reqs| && l.Probed? && l.i < |s.reqs|
    ensures ProbePc(w, With(s, i, x), s.reqs[l.i], l.fail, l.proxied) == ProbePc(w, s, s.reqs[l.i], l.fail, l.proxied)
  {
    hide Served;
  }

  lemma LockedLocal(s: Sys, i: nat, x: Req, j: nat)
    requires i < |s.reqs| && j < |s.reqs| && i != j
    requires i < |JoinOrLead(s, j).reqs|
    ensures With(s, i, x).reqs[j] == s.reqs[j]
    ensures JoinOrLead(With(s, i, x), j) == With(JoinOrLead(s, j), i, x)
  {
    hide Goto;
    GotoLocal(s, i, x, j);
  }

  lemma ClosedLocal(s: Sys, i: nat, x: Req, j: nat)
    requires i < |s.reqs| && j < |s.reqs| && i != j && s.reqs[j].pc.Lead? && s.reqs[j].pc.act.Close?
    requires i < |CloseFlight(s, j).reqs|
    ensures With(s, i, x).reqs[j] == s.reqs[j]
    ensures CloseFlight(With(s, i, x), j) == With(CloseFlight(s, j), i, x)
  {
    hide Goto;
    GotoLocal(s, i, x, j);
  }

  lemma FlightLocal(w: World, s: Sys, i: nat, x: Req, l: Label)
    requires i < |s.reqs| && Can(w, s, l) && ReadersReady(s, l.i) && l.i != i && (l.Locked? || l.Closed?)
    requires Can(w, With(s, i, x), l) && ReadersReady(With(s, i, x), l.i) && i < |Step(w, s, l).reqs|
    ensures Step(w, With(s, i, x), l) == With(Step(w, s, l), i, x)
  {
    hide Goto, JoinOrLead, CloseFlight, U.Can;
    if l.Locked? { LockedLocal(s, i, x, l.i); } else { ClosedLocal(s, i, x, l.i); }
  }

  lemma SlotLocal(w: World, s: Sys, i: nat, x: Req, l: Label)
    requires i < |s.reqs| && Can(w, s, l) && ReadersReady(s, l.i) && l.i != i
    requires l.Acquired? || l.Released? || l.Removed?
    requires Can(w, With(s, i, x), l) && ReadersReady(With(s, i, x), l.i) && i < |Step(w, s, l).reqs|
    ensures Step(w, With(s, i, x), l) == With(Step(w, s, l), i, x)
  {
    hide Goto, U.Can, Taken;
    GotoLocal(s, i, x, l.i);
    TakenLocal(s, i, x, s.reqs[l.i].replica);
  }

  lemma TakenLocal(s: Sys, i: nat, x: Req, p: nat)
    requires i < |s.reqs|
    ensures Taken(With(s, i, x), p) == Taken(s, p)
  {}

  lemma SettledLocal(s: Sys, i: nat, x: Req, j: nat)
    requires i < |s.reqs| && j < |s.reqs| && i != j && s.reqs[j].pc.Lead? && s.reqs[j].pc.act.Settling?
    requires i < |Settle(s, j).reqs|
    ensures With(s, i, x).reqs[j] == s.reqs[j]
    ensures Settle(With(s, i, x), j) == With(Settle(s, j), i, x)
  {
    hide Goto, Note, Streamed;
    NotesLocal(s, i, x, j);
    GotoLocal(s, i, x, j);
    GotoLocal(Note(s, j, Ok200([]), false), i, x, j);
    GotoLocal(Note(s, j, Ok200([]), s.reqs[j].pc.act.stored), i, x, j);
  }

  lemma FetchLocal(w: World, s: Sys, i: nat, x: Req, l: Label)
    requires i < |s.reqs| && Can(w, s, l) && ReadersReady(s, l.i) && l.i != i
    requires l.FetchFailed? || l.FetchGone? || l.Fetched? || l.Settled?
    requires Can(w, With(s, i, x), l) && ReadersReady(With(s, i, x), l.i) && i < |Step(w, s, l).reqs|
    ensures Step(w, With(s, i, x), l) == With(Step(w, s, l), i, x)
  {
    hide Goto, Note, CountFetch, StartFetched, Settle, U.Can;
    if l.Settled? {
      SettledLocal(s, i, x, l.i);
    } else {
      NotesLocal(s, i, x, l.i);
      var s1 := CountFetch(s, l.i);
      GotoLocal(s1, i, x, l.i);
      NotesLocal(s1, i, x, l.i);
      GotoLocal(Note(s1, l.i, Gone, false), i, x, l.i);
    }
  }

  lemma PutLocal(s: Sys, i: nat, x: Req, j: nat, kept: bool)
    requires i < |s.reqs| && j < |s.reqs| && i != j && s.reqs[j].pc.Lead?
    requires var a := s.reqs[j].pc.act; (a.Uploading? || a.Storing?) && a.u.pc.Done?
    requires i < |PutReturned(s, j, kept).reqs|
    ensures With(s, i, x).reqs[j] == s.reqs[j]
    ensures PutReturned(With(s, i, x), j, kept) == With(PutReturned(s, j, kept), i, x)
  {
    hide Goto, NoteStored;
    NotesLocal(s, i, x, j);
    GotoLocal(s, i, x, j);
    var q, s1 := s.reqs[j], NoteStored(s, j);
    GotoLocal(s1, i, x, j);
    GotoLocal(Remember(s1, SiteOf(q), q.pc.act.u.reader.body.data, kept), i, x, j);
  }

  lemma UploadLocal(s: Sys, i: nat, x: Req, j: nat, l: U.Label)
    requires i < |s.reqs| && j < |s.reqs| && i != j && s.reqs[j].pc.Lead?
    requires var a := s.reqs[j].pc.act; (a.Uploading? || a.Storing?) && U.Can(a.u, l) && Ready(a.u.reader)
    requires i < |UploadMore(s, j, l).reqs|
    ensures With(s, i, x).reqs[j] == s.reqs[j]
    ensures UploadMore(With(s, i, x), j, l) == With(UploadMore(s, j, l), i, x)
  {
    hide Goto, U.Step, U.Can, Ready, With;
    WithLocal(s, i, x, j);
    var q := s.reqs[j];
    var u := U.Step(q.pc.act.u, l);
    var act := if q.pc.act.Uploading? then Uploading(u) else Storing(u, q.pc.act.answer);
    if (l.SinglePut? || l.Completed?) && u.s3.visible.Some? {
      StoreLocal(s, i, x, q.key, u.s3.visible.value);
      var s1 := s.(store := s.store[q.key := u.s3.visible.value]);
      GotoLocal(s1, i, x, j);
      assert UploadMore(s, j, l) == Goto(s1, j, Lead(q.pc.f, act));
    } else {
      GotoLocal(s, i, x, j);
      assert UploadMore(s, j, l) == Goto(s, j, Lead(q.pc.f, act));
    }
  }

  lemma WithLocal(s: Sys, i: nat, x: Req, j: nat)
    requires i < |s.reqs| && j < |s.reqs| && i != j
    ensures var t := With(s, i, x); |t.reqs| == |s.reqs| && t.reqs[j] == s.reqs[j] && t.store == s.store
  {}

  lemma StoreLocal(s: Sys, i: nat, x: Req, k: Key, b: seq<byte>)
    requires i < |s.reqs|
    ensures With(s.(store := s.store[k := b]), i, x) == With(s, i, x).(store := s.store[k := b])
  {}

  lemma WorkLocal(w: World, s: Sys, i: nat, x: Req, l: Label)
    requires i < |s.reqs| && Can(w, s, l) && ReadersReady(s, l.i) && l.i != i && (l.UploadStep? || l.UploadDone?)
    requires Can(w, With(s, i, x), l) && ReadersReady(With(s, i, x), l.i) && i < |Step(w, s, l).reqs|
    ensures Step(w, With(s, i, x), l) == With(Step(w, s, l), i, x)
  {
    hide UploadMore, PutReturned, U.Can;
    match l
    case UploadStep(_, ul) => UploadLocal(s, i, x, l.i, ul);
    case UploadDone(_, kept) => PutLocal(s, i, x, l.i, kept);
  }

  lemma SmallReadLocal(w: World, s: Sys, i: nat, x: Req, j: nat, res: ReadResult)
    requires i < |s.reqs| && j < |s.reqs| && i != j && s.reqs[j].pc.Lead?
    ensures SmallRead(w, With(s, i, x), j, res) == With(SmallRead(w, s, j, res), i, x)
  {
    hide Goto, Note, StoreBytes, Served;
    NotesLocal(s, i, x, j);
    GotoLocal(s, i, x, j);
    var r := res.reader;
    var body := if r.n <= |r.body.data| then r.body.data[..r.n] else [];
    GotoLocal(Note(s, j, Ok200(body), false), i, x, j);
  }

  lemma LargeReadLocal(s: Sys, i: nat, x: Req, j: nat, res: ReadResult)
    requires i < |s.reqs| && j < |s.reqs| && i != j && s.reqs[j].pc.Lead?
    ensures PassedRead(With(s, i, x), j, res) == With(PassedRead(s, j, res), i, x)
    ensures DrainedRead(With(s, i, x), j, res) == With(DrainedRead(s, j, res), i, x)
  {
    hide Goto, Note, Streamed;
    NotesLocal(s, i, x, j);
    GotoLocal(s, i, x, j);
    GotoLocal(Note(s, j, Ok200([]), false), i, x, j);
  }

  lemma MoreLocal(w: World, s: Sys, i: nat, x: Req, j: nat, room: nat)
    requires i < |s.reqs| && j < |s.reqs| && i != j && s.reqs[j].pc.Lead?
    requires var a := s.reqs[j].pc.act; (a.Reading? || a.Copying? || a.Draining?) && Ready(a.r)
    requires i < |ReadMore(w, s, j, room).reqs|
    ensures With(s, i, x).reqs[j] == s.reqs[j]
    ensures ReadMore(w, With(s, i, x), j, room) == With(ReadMore(w, s, j, room), i, x)
  {
    hide SmallRead, PassedRead, DrainedRead, Next;
    var act := s.reqs[j].pc.act;
    var res := Next(act.r, room);
    SmallReadLocal(w, s, i, x, j, res);
    LargeReadLocal(s, i, x, j, res);
  }

  lemma CanLocal(w: World, s: Sys, i: nat, x: Req, l: Label)
    requires i < |s.reqs| && Can(w, s, l) && ReadersReady(s, l.i) && l.i != i
    ensures Can(w, With(s, i, x), l) && ReadersReady(With(s, i, x), l.i)
  {
    hide U.Can;
    var t := With(s, i, x);
    assert t.reqs[l.i] == s.reqs[l.i] && forall p: nat :: Taken(t, p) == Taken(s, p);
  }

  /** What one request does does not depend on where the others are. */
  lemma StepLocal(w: World, s: Sys, i: nat, x: Req, l: Label)
    requires i < |s.reqs| && Can(w, s, l) && ReadersReady(s, l.i) && l.i != i
    ensures Can(w, With(s, i, x), l) && ReadersReady(With(s, i, x), l.i)
    ensures |Step(w, s, l).reqs| == |s.reqs| && Step(w, s, l).reqs[i] == s.reqs[i]
    ensures Step(w, With(s, i, x), l) == With(Step(w, s, l), i, x)
  {
    hide Step, Can, ReadersReady;
    CanLocal(w, s, i, x, l);
    StepFrame(w, s, l);
    match l
    case Probed(_, _, _, _) => ProbedStepLocal(w, s, i, x, l);
    case More(_, _) => MoreStepLocal(w, s, i, x, l);
    case UploadStep(_, _) => WorkLocal(w, s, i, x, l);
    case UploadDone(_, _) => WorkLocal(w, s, i, x, l);
    case Locked(_) => FlightLocal(w, s, i, x, l);
    case Acquired(_) => SlotLocal(w, s, i, x, l);
    case Released(_) => SlotLocal(w, s, i, x, l);
    case Removed(_) => SlotLocal(w, s, i, x, l);
    case Closed(_) => FlightLocal(w, s, i, x, l);
    case FetchFailed(_) => FetchLocal(w, s, i, x, l);
    case FetchGone(_) => FetchLocal(w, s, i, x, l);
    case Fetched(_, _, _, _) => FetchLocal(w, s, i, x, l);
    case Settled(_) => FetchLocal(w, s, i, x, l);
    case _ => PlainLocal(w, s, i, x, l);
  }

  lemma ProbedStepLocal(w: World, s: Sys, i: nat, x: Req, l: Label)
    requires i < |s.reqs| && Can(w, s, l) && ReadersReady(s, l.i) && l.i != i && l.Probed?
    ensures Can(w, With(s, i, x), l) && ReadersReady(With(s, i, x), l.i)
    ensures Step(w, With(s, i, x), l) == With(Step(w, s, l), i, x)
  {
    hide Probe;
    CanLocal(w, s, i, x, l);
    ProbedLocal(w, s, i, x, l);
  }

  lemma StepMore(w: World, s: Sys, l: Label)
    requires Can(w, s, l) && ReadersReady(s, l.i) && l.More?
    ensures l.i < |s.reqs| && s.reqs[l.i].pc.Lead?
    ensures var a := s.reqs[l.i].pc.act; (a.Reading? || a.Copying? || a.Draining?) && Ready(a.r)
    ensures Step(w, s, l) == ReadMore(w, s, l.i, l.room)
  {
    hide ReadMore, Ready;
  }

  lemma MoreStepLocal(w: World, s: Sys, i: nat, x: Req, l: Label)
    requires i < |s.reqs| && Can(w, s, l) && ReadersReady(s, l.i) && l.i != i && l.More?
    requires Can(w, With(s, i, x), l) && ReadersReady(With(s, i, x), l.i) && i < |Step(w, s, l).reqs|
    ensures Step(w, With(s, i, x), l) == With(Step(w, s, l), i, x)
  {
    hide Step, Can, ReadersReady, ReadMore, With, Ready;
    StepMore(w, s, l);
    StepMore(w, With(s, i, x), l);
    MoreLocal(w, s, i, x, l.i, l.room);
  }

  /** A step moves only its own request. */
  lemma StepFrame(w: World, s: Sys, l: Label)
    requires Can(w, s, l) && ReadersReady(s, l.i)
    ensures OthersStay(s, Step(w, s, l), l.i)
  {
    hide Goto, Go, Note, NoteStored, CountFetch, Probe, ReadMore, UploadMore, PutReturned, Settle, StartFetched, Follow,
      Served, OthersStay, U.Can;
    GoFrame(s, l.i);
    match l
    case Probed(_, fail, kept, proxied) => ProbeFrame(w, s, l.i, fail, kept, proxied);
    case More(_, room) => ReadFrame(w, s, l.i, room);
    case UploadStep(_, ul) => UploadFrame(s, l.i, ul);
    case UploadDone(_, kept) => PutFrame(s, l.i, kept);
    case Settled(_) => SettleFrame(s, l.i);
    case _ => PlainFrame(w, s, l);
  }

  ghost predicate OthersStay(s: Sys, t: Sys, i: nat) {
    |t.reqs| == |s.reqs| && forall j | 0 <= j < |s.reqs| && j != i :: t.reqs[j] == s.reqs[j]
  }

  lemma GoFrame(s: Sys, i: nat)
    requires i < |s.reqs|
    ensures forall pc :: OthersStay(s, Goto(s, i, pc), i)
    ensures s.reqs[i].pc.Lead? ==> forall act :: OthersStay(s, Go(s, i, act), i)
    ensures s.reqs[i].pc.Lead? ==> forall res, stored, act :: OthersStay(s, Go(Note(s, i, res, stored), i, act), i)
  {}

  lemma ProbeFrame(w: World, s: Sys, i: nat, fail: bool, kept: bool, proxied: Answer)
    requires i < |s.reqs|
    ensures OthersStay(s, Probe(w, s, i, fail, kept, proxied), i)
  {
    hide ProbePc;
  }

  lemma PlainFrame(w: World, s: Sys, l: Label)
    requires Can(w, s, l) && ReadersReady(s, l.i)
    requires !l.Probed? && !l.More? && !l.UploadStep? && !l.UploadDone? && !l.Settled?
    ensures OthersStay(s, Step(w, s, l), l.i)
  {
    hide StartFetched, Follow, Served, U.Can, CountFetch, Go, Goto, OthersStay;
    GoFrame(s, l.i);
    if l.FetchFailed? || l.FetchGone? || l.Fetched? {
      CountFrame(s, l.i);
    } else if l.Acquired? || l.Released? || l.Removed? {
      SlotFrame(w, s, l);
    } else if l.Locked? {
      LockedFrame(s, l.i);
    } else if l.Closed? {
      ClosedFrame(s, l.i);
    }
  }

  lemma CountFrame(s: Sys, i: nat)
    requires i < |s.reqs| && s.reqs[i].pc.Lead?
    ensures CountFetch(s, i).reqs == s.reqs
    ensures forall act :: OthersStay(s, Go(CountFetch(s, i), i, act), i)
    ensures forall act, neg ::
      OthersStay(s, Go(Note(CountFetch(s, i), i, Gone, false), i, act).(neg := neg), i)
  {}

  lemma SlotFrame(w: World, s: Sys, l: Label)
    requires Can(w, s, l) && ReadersReady(s, l.i) && (l.Acquired? || l.Released? || l.Removed?)
    ensures OthersStay(s, Step(w, s, l), l.i)
  {
    hide U.Can, Taken;
  }

  lemma LockedFrame(s: Sys, i: nat)
    requires i < |s.reqs|
    ensures OthersStay(s, JoinOrLead(s, i), i)
  {}

  lemma ClosedFrame(s: Sys, i: nat)
    requires i < |s.reqs| && s.reqs[i].pc.Lead? && s.reqs[i].pc.act.Close?
    ensures OthersStay(s, CloseFlight(s, i), i)
  {}

  lemma ReadFrame(w: World, s: Sys, i: nat, room: nat)
    requires i < |s.reqs| && s.reqs[i].pc.Lead?
    requires var a := s.reqs[i].pc.act; (a.Reading? || a.Copying? || a.Draining?) && Ready(a.r)
    ensures OthersStay(s, ReadMore(w, s, i, room), i)
  {
    hide Go, Note, Next, StoreBytes, Streamed, Served, OthersStay;
    GoFrame(s, i);
  }

  lemma UploadFrame(s: Sys, i: nat, l: U.Label)
    requires i < |s.reqs| && s.reqs[i].pc.Lead?
    requires var a := s.reqs[i].pc.act; (a.Uploading? || a.Storing?) && U.Can(a.u, l) && Ready(a.u.reader)
    ensures OthersStay(s, UploadMore(s, i, l), i)
  {
    hide U.Step, U.Can;
  }

  lemma PutFrame(s: Sys, i: nat, kept: bool)
    requires i < |s.reqs| && s.reqs[i].pc.Lead?
    requires var a := s.reqs[i].pc.act; (a.Uploading? || a.Storing?) && a.u.pc.Done?
    ensures OthersStay(s, PutReturned(s, i, kept), i)
  {}

  lemma SettleFrame(s: Sys, i: nat)
    requires i < |s.reqs| && s.reqs[i].pc.Lead? && s.reqs[i].pc.act.Settling?
    ensures OthersStay(s, Settle(s, i), i)
  {
    hide Go, Note, Streamed, OthersStay;
    GoFrame(s, i);
  }

  /** The same act, but for the client at the end of the line. */
  ghost predicate SameAct(a: Act, b: Act) {
    match a
    case Copying(r) => b.Copying? && b.r == WithClient(r, b.r.client)
    case Uploading(u) => b.Uploading? && b.u == U.Facing(u, b.u.reader.client)
    case Draining(r) => b.Draining? && b.r == WithClient(r, b.r.client)
    case Settling(r, stored) => b.Settling? && b.r == WithClient(r, b.r.client) && b.stored == stored
    case Release(_) => b.Release?
    case Remove(_) => b.Remove?
    case Close(_) => b.Close?
    case _ => a == b
  }

  ghost predicate SamePc(a: Pc, b: Pc) {
    match a
    case Lead(f, act) => b.Lead? && b.f == f && SameAct(act, b.act)
    case Finished(_) => b.Finished?
    case _ => a == b
  }

  /** Two systems that differ only in what the client of request i does and gets. */
  ghost predicate Twin(s: Sys, t: Sys, i: nat) {
    && i < |s.reqs| && |t.reqs| == |s.reqs|
    && t == With(s, i, s.reqs[i].(pc := t.reqs[i].pc)) && SamePc(s.reqs[i].pc, t.reqs[i].pc)
  }

  ghost predicate SameLabel(a: Label, b: Label, i: nat) {
    a == b || (a.Fetched? && b.Fetched? && a.i == i && b == a.(moods := b.moods))
  }

  /** Twins that go to acts that are the same but for the client stay twins. */
  lemma TwinGo(s: Sys, t: Sys, i: nat, a: Act, b: Act)
    requires Twin(s, t, i) && s.reqs[i].pc.Lead? && SameAct(a, b)
    ensures Twin(Go(s, i, a), Go(t, i, b), i)
    ensures forall res, stored :: Twin(Go(Note(s, i, res, stored), i, a), Go(Note(t, i, res, stored), i, b), i)
  {
    hide SameAct;
    var x, y := s.reqs[i].(pc := Lead(s.reqs[i].pc.f, a)), s.reqs[i].(pc := Lead(s.reqs[i].pc.f, b));
    assert s.reqs[i := x][i := y] == s.reqs[i := y] == t.reqs[i := y];
  }

  lemma TwinCopying(s: Sys, t: Sys, i: nat, a: ReadResult, b: ReadResult)
    requires Twin(s, t, i) && s.reqs[i].pc.Lead? && SameAct(Copying(a.reader), Copying(b.reader)) && a.err == b.err
    ensures Twin(PassedRead(s, i, a), PassedRead(t, i, b), i)
  {
    hide Streamed, Go, Note, Twin;
    TwinIndex(s, t, i);
    TwinGo(s, t, i, Copying(a.reader), Copying(b.reader));
    TwinGo(s, t, i, Release(Streamed(a.reader)), Release(Streamed(b.reader)));
    TwinGo(s, t, i, Release(Aborted), Release(Aborted));
  }

  lemma TwinDraining(s: Sys, t: Sys, i: nat, a: ReadResult, b: ReadResult)
    requires Twin(s, t, i) && s.reqs[i].pc.Lead? && SameAct(Copying(a.reader), Copying(b.reader)) && a.err == b.err
    ensures Twin(DrainedRead(s, i, a), DrainedRead(t, i, b), i)
  {
    hide Streamed, Go, Note, Twin;
    TwinIndex(s, t, i);
    TwinGo(s, t, i, Draining(a.reader), Draining(b.reader));
    TwinGo(s, t, i, Settling(a.reader, false), Settling(b.reader, false));
  }

  lemma TwinIndex(s: Sys, t: Sys, i: nat)
    requires Twin(s, t, i)
    ensures i < |s.reqs| == |t.reqs| && (s.reqs[i].pc.Lead? <==> t.reqs[i].pc.Lead?)
  {
    hide SameAct;
  }

  lemma TwinLarge(s: Sys, t: Sys, i: nat, room: nat)
    requires Twin(s, t, i) && s.reqs[i].pc.Lead? && (s.reqs[i].pc.act.Copying? || s.reqs[i].pc.act.Draining?)
    requires Ready(s.reqs[i].pc.act.r) && Ready(t.reqs[i].pc.act.r)
    ensures var a, b := Next(s.reqs[i].pc.act.r, room), Next(t.reqs[i].pc.act.r, room);
      && (s.reqs[i].pc.act.Copying? ==> Twin(PassedRead(s, i, a), PassedRead(t, i, b), i))
      && (s.reqs[i].pc.act.Draining? ==> Twin(DrainedRead(s, i, a), DrainedRead(t, i, b), i))
  {
    hide Next, PassedRead, DrainedRead, With;
    var p, q := s.reqs[i].pc.act.r, t.reqs[i].pc.act.r;
    ReadIgnoresClient(p, q.client, room);
    var a, b := Next(p, room), Next(q, room);
    TwinCopying(s, t, i, a, b);
    TwinDraining(s, t, i, a, b);
  }

  lemma TwinUpload(s: Sys, t: Sys, i: nat, l: U.Label)
    requires Twin(s, t, i) && s.reqs[i].pc.Lead? && s.reqs[i].pc.act.Uploading?
    requires U.Can(s.reqs[i].pc.act.u, l) && Ready(s.reqs[i].pc.act.u.reader) && Ready(t.reqs[i].pc.act.u.reader)
    ensures U.Can(t.reqs[i].pc.act.u, l) && Twin(UploadMore(s, i, l), UploadMore(t, i, l), i)
  {
    hide U.Step, U.Can, Go;
    var u, c := s.reqs[i].pc.act.u, t.reqs[i].pc.act.u.reader.client;
    var c' := U.StepIgnoresClient(u, c, l);
    var a, b := U.Step(u, l), U.Step(U.Facing(u, c), l);
    var s1, t1 := s, t;
    if (l.SinglePut? || l.Completed?) && a.s3.visible.Some? {
      s1 := s.(store := s.store[s.reqs[i].key := a.s3.visible.value]);
      t1 := t.(store := t.store[t.reqs[i].key := a.s3.visible.value]);
    }
    TwinGo(s1, t1, i, Uploading(a), Uploading(b));
  }

  lemma TwinUploaded(s: Sys, t: Sys, i: nat, kept: bool)
    requires Twin(s, t, i) && s.reqs[i].pc.Lead? && s.reqs[i].pc.act.Uploading? && s.reqs[i].pc.act.u.pc.Done?
    ensures Twin(PutReturned(s, i, kept), PutReturned(t, i, kept), i)
  {
    hide Go;
    var u, v := s.reqs[i].pc.act.u, t.reqs[i].pc.act.u;
    TwinGo(s, t, i, Draining(u.reader), Draining(v.reader));
    TwinGo(s, t, i, Settling(u.reader, u.pc.res.Stored?), Settling(v.reader, u.pc.res.Stored?));
  }

  lemma TwinSettle(s: Sys, t: Sys, i: nat)
    requires Twin(s, t, i) && s.reqs[i].pc.Lead? && s.reqs[i].pc.act.Settling?
    ensures Twin(Settle(s, i), Settle(t, i), i)
  {
    hide Go, Note, Streamed;
    var p, q := s.reqs[i].pc.act.r, t.reqs[i].pc.act.r;
    TwinGo(s, t, i, Release(Streamed(p)), Release(Streamed(q)));
    TwinGo(s, t, i, Release(Aborted), Release(Aborted));
  }

  lemma TwinFetched(w: World, s: Sys, i: nat, l: Label, l': Label)
    requires Can(w, s, l) && ReadersReady(s, l.i) && l.i == i && l.Fetched? && SameLabel(l, l', i)
    ensures Can(w, s, l') && Twin(Step(w, s, l), Step(w, s, l'), i)
  {
    hide Go, CountFetch, U.Can, Open;
    var s1 := CountFetch(s, i);
    NoteReqs(s, i);
    var a, b := StartFetched(w, s.reqs[i], l.body, l.want, l.moods),
      StartFetched(w, s.reqs[i], l.body, l.want, l'.moods);
    assert SameAct(a, b) by { OpenFacing(l.body, l.want, s.reqs[i].pc.act.expected, w.hash, l.moods, l'.moods); }
    TwinSelf(s1, i);
    TwinGo(s1, s1, i, a, b);
  }

  lemma NoteReqs(s: Sys, i: nat)
    requires i < |s.reqs| && s.reqs[i].pc.Lead?
    ensures CountFetch(s, i).reqs == s.reqs
  {}

  lemma OpenFacing(body: Body, want: int, expected: Option<Expectation>, hash: seq<byte> -> string, moods: seq<bool>,
      moods': seq<bool>)
    ensures var a, b := Open(body, want, expected, hash, Client(true, moods, [])),
      Open(body, want, expected, hash, Client(true, moods', []));
      b == WithClient(a, b.client)
  {}

  lemma TwinSelf(s: Sys, i: nat)
    requires i < |s.reqs|
    ensures Twin(s, s, i)
  {}

  lemma TwinReleased(w: World, s: Sys, t: Sys, l: Label)
    requires Can(w, s, l) && ReadersReady(s, l.i) && Twin(s, t, l.i) && l.Released?
    ensures Can(w, t, l) && ReadersReady(t, l.i) && Twin(Step(w, s, l), Step(w, t, l), l.i)
  {
    hide U.Can, Go;
    TwinGo(s, t, l.i, Remove(s.reqs[l.i].pc.act.answer), Remove(t.reqs[l.i].pc.act.answer));
  }

  lemma TwinRemoved(w: World, s: Sys, t: Sys, l: Label)
    requires Can(w, s, l) && ReadersReady(s, l.i) && Twin(s, t, l.i) && l.Removed?
    ensures Can(w, t, l) && ReadersReady(t, l.i) && Twin(Step(w, s, l), Step(w, t, l), l.i)
  {
    hide U.Can, Go;
    TwinGo(s, t, l.i, Close(s.reqs[l.i].pc.act.answer), Close(t.reqs[l.i].pc.act.answer));
  }

  lemma TwinClosed(w: World, s: Sys, t: Sys, l: Label)
    requires Can(w, s, l) && ReadersReady(s, l.i) && Twin(s, t, l.i) && l.Closed?
    ensures Can(w, t, l) && ReadersReady(t, l.i) && Twin(Step(w, s, l), Step(w, t, l), l.i)
  {
    hide U.Can, CloseFlight;
    TwinClose(s, t, l.i);
  }

  lemma TwinClose(s: Sys, t: Sys, i: nat)
    requires Twin(s, t, i) && s.reqs[i].pc.Lead? && s.reqs[i].pc.act.Close?
    ensures Twin(CloseFlight(s, i), CloseFlight(t, i), i)
  {
    hide Goto, With;
    TwinGoto(s, t, i, Finished(s.reqs[i].pc.act.answer), Finished(t.reqs[i].pc.act.answer));
    var f := s.reqs[i].pc.f;
    var table := if f < |s.table| then s.table[f := s.table[f].(closes := s.table[f].closes + 1)] else s.table;
    TwinTable(Goto(s, i, Finished(s.reqs[i].pc.act.answer)), Goto(t, i, Finished(t.reqs[i].pc.act.answer)), i, table);
  }

  lemma TwinGoto(s: Sys, t: Sys, i: nat, a: Pc, b: Pc)
    requires Twin(s, t, i) && SamePc(a, b)
    ensures Twin(Goto(s, i, a), Goto(t, i, b), i) && Goto(s, i, a).table == Goto(t, i, b).table == s.table == t.table
  {
    hide SamePc;
    var x, y := s.reqs[i].(pc := a), s.reqs[i].(pc := b);
    assert s.reqs[i := x][i := y] == s.reqs[i := y] == t.reqs[i := y];
  }

  lemma TwinTable(s: Sys, t: Sys, i: nat, table: seq<Flight>)
    requires Twin(s, t, i)
    ensures Twin(s.(table := table), t.(table := table), i)
  {}

  /** Acts that hold no client are the same in both. */
  ghost predicate Faced(pc: Pc) {
    match pc
    case Lead(_, act) => act.Copying? || act.Uploading? || act.Draining? || act.Settling? || act.Release? ||
      act.Remove? || act.Close?
    case Finished(_) => true
    case _ => false
  }

  lemma TwinSame(s: Sys, t: Sys, i: nat)
    requires Twin(s, t, i) && !Faced(s.reqs[i].pc)
    ensures s == t
  {
    assert s.reqs[i].(pc := t.reqs[i].pc) == s.reqs[i];
  }

  lemma TwinOwn(w: World, s: Sys, t: Sys, l: Label)
    requires Can(w, s, l) && ReadersReady(s, l.i) && Twin(s, t, l.i) && Faced(s.reqs[l.i].pc)
    ensures Can(w, t, l) && ReadersReady(t, l.i) && Twin(Step(w, s, l), Step(w, t, l), l.i)
  {
    hide ReadMore, UploadMore, PutReturned, Settle, U.Can, Twin, Step;
    match l
    case More(_, room) => TwinMore(w, s, t, l);
    case UploadStep(_, ul) => TwinUploadStep(w, s, t, l);
    case UploadDone(_, kept) => TwinUploadDone(w, s, t, l);
    case Settled(_) => TwinSettled(w, s, t, l);
    case Released(_) => TwinReleased(w, s, t, l);
    case Removed(_) => TwinRemoved(w, s, t, l);
    case Closed(_) => TwinClosed(w, s, t, l);
  }

  lemma TwinMore(w: World, s: Sys, t: Sys, l: Label)
    requires Can(w, s, l) && ReadersReady(s, l.i) && Twin(s, t, l.i) && Faced(s.reqs[l.i].pc) && l.More?
    ensures Can(w, t, l) && ReadersReady(t, l.i) && Twin(Step(w, s, l), Step(w, t, l), l.i)
  {
    hide PassedRead, DrainedRead, SmallRead, Next, U.Can;
    TwinLarge(s, t, l.i, l.room);
  }

  lemma TwinUploadStep(w: World, s: Sys, t: Sys, l: Label)
    requires Can(w, s, l) && ReadersReady(s, l.i) && Twin(s, t, l.i) && Faced(s.reqs[l.i].pc) && l.UploadStep?
    ensures Can(w, t, l) && ReadersReady(t, l.i) && Twin(Step(w, s, l), Step(w, t, l), l.i)
  {
    hide UploadMore, U.Can;
    TwinUpload(s, t, l.i, l.l);
  }

  lemma TwinUploadDone(w: World, s: Sys, t: Sys, l: Label)
    requires Can(w, s, l) && ReadersReady(s, l.i) && Twin(s, t, l.i) && Faced(s.reqs[l.i].pc) && l.UploadDone?
    ensures Can(w, t, l) && ReadersReady(t, l.i) && Twin(Step(w, s, l), Step(w, t, l), l.i)
  {
    hide PutReturned, U.Can;
    TwinUploaded(s, t, l.i, l.kept);
  }

  lemma TwinSettled(w: World, s: Sys, t: Sys, l: Label)
    requires Can(w, s, l) && ReadersReady(s, l.i) && Twin(s, t, l.i) && Faced(s.reqs[l.i].pc) && l.Settled?
    ensures Can(w, t, l) && ReadersReady(t, l.i) && Twin(Step(w, s, l), Step(w, t, l), l.i)
  {
    hide Settle, U.Can;
    TwinSettle(s, t, l.i);
  }

  lemma TwinOther(w: World, s: Sys, t: Sys, i: nat, l: Label)
    requires Can(w, s, l) && ReadersReady(s, l.i) && Twin(s, t, i) && l.i != i
    ensures Can(w, t, l) && ReadersReady(t, l.i) && Twin(Step(w, s, l), Step(w, t, l), i)
  {
    hide Step, Can, ReadersReady, SamePc;
    StepLocal(w, s, i, t.reqs[i], l);
  }

  lemma TwinStep(w: World, s: Sys, t: Sys, i: nat, l: Label, l': Label)
    requires Can(w, s, l) && ReadersReady(s, l.i) && Twin(s, t, i) && SameLabel(l, l', i)
    ensures Can(w, t, l') && l'.i == l.i && ReadersReady(t, l.i) && Twin(Step(w, s, l), Step(w, t, l'), i)
  {
    hide Step, ReadersReady, U.Can, SameAct;
    if l.i != i {
      TwinOther(w, s, t, i, l);
    } else if Faced(s.reqs[i].pc) {
      TwinOwn(w, s, t, l);
    } else {
      TwinSame(s, t, i);
      if l.Fetched? {
        TwinFetched(w, s, i, l, l');
      } else {
        StepFrame(w, s, l);
        TwinSelf(Step(w, s, l), i);
      }
    }
  }

  ghost predicate SameLabels(ls: seq<Label>, ls': seq<Label>, i: nat) {
    |ls'| == |ls| && forall k | 0 <= k < |ls| :: SameLabel(ls[k], ls'[k], i)
  }

  /** Take any run, and let the client of request i take or refuse other writes: the
      same run is still possible, and everything but what that client gets is as it
      was - the store, the flights and their outcomes, the memory, every other
      request's answer. */
  lemma {:induction false} ClientsAreHarmless(w: World, s: Sys, t: Sys, i: nat, ls: seq<Label>, ls': seq<Label>,
      s': Sys) returns (t': Sys)
    requires Inv(w, s) && Inv(w, t) && Twin(s, t, i) && Runs(w, s, ls, s') && SameLabels(ls, ls', i)
    ensures Runs(w, t, ls', t') && Twin(s', t', i)
    decreases |ls|
  {
    hide Inv, Step, Can, Twin, SameLabel;
    if ls == [] { t' := t; } else {
      assert SameLabel(ls[0], ls'[0], i);
      ReadyFor(w, s, ls[0]);
      TwinStep(w, s, t, i, ls[0], ls'[0]);
      StepKeeps(w, s, ls[0]);
      StepKeeps(w, t, ls'[0]);
      t' := ClientsAreHarmless(w, Step(w, s, ls[0]), Step(w, t, ls'[0]), i, ls[1..], ls'[1..], s');
    }
  }

  lemma ReadyFor(w: World, s: Sys, l: Label)
    requires Inv(w, s) && Can(w, s, l)
    ensures l.i < |s.reqs| && ReadersReady(s, l.i)
  {
    hide FlightsOk, SlotsOk, ContentsOk, U.Can, ReadersReady;
    InvReaders(w, s, l.i);
  }

  /** The same, spelled out for a run from one state. */
  lemma OnlyTheClientNotices(w: World, s: Sys, i: nat, ls: seq<Label>, ls': seq<Label>, s': Sys) returns (t': Sys)
    requires Inv(w, s) && i < |s.reqs| && Runs(w, s, ls, s') && SameLabels(ls, ls', i)
    ensures Runs(w, s, ls', t')
    ensures t'.store == s'.store && t'.table == s'.table && t'.flights == s'.flights
    ensures t'.sem == s'.sem && t'.mem == s'.mem && t'.neg == s'.neg
    ensures |t'.reqs| == |s'.reqs| && forall j | 0 <= j < |s'.reqs| && j != i :: t'.reqs[j] == s'.reqs[j]
  {
    hide Inv, Runs, SameLabels;
    TwinSelf(s, i);
    t' := ClientsAreHarmless(w, s, s, i, ls, ls', s');
  }
}
