/** What clients are answered: a HEAD gets no body, everything else gets the object's, and
    which outcome leads to which answer. */
module PullThroughAnswers {
  import opened Common
  import opened Reading
  import U = Upload
  import opened PullThrough
  import opened PullThroughSafety
  import C = PullThroughClients

  /** Bodies for GETs, bare headers for HEADs. */
  predicate Fits(q: Req, a: Answer) { (a.Clean? ==> !q.head) && (a.HeadOnly? ==> q.head) }

  ghost predicate ActFits(q: Req, act: Act) {
    match act
    case Storing(_, a) => Fits(q, a)
    case Release(a) => Fits(q, a)
    case Remove(a) => Fits(q, a)
    case Close(a) => Fits(q, a)
    case _ => true
  }

  /** A HEAD for a large object never comes to the lock. */
  ghost predicate PcFits(w: World, q: Req) {
    match q.pc
    case Lock => !(w.large(q.key) && q.head)
    case Waiting(_) => !(w.large(q.key) && q.head)
    case Lead(_, act) => !(w.large(q.key) && q.head) && ActFits(q, act)
    case Finished(a) => Fits(q, a)
    case _ => true
  }

  ghost predicate AllFit(w: World, s: Sys) { forall i | 0 <= i < |s.reqs| :: PcFits(w, s.reqs[i]) }

  /** Request i is as it was, but for its program point, which fits. */
  ghost predicate FitsAt(w: World, s: Sys, t: Sys, i: nat)
    requires i < |s.reqs|
  {
    i < |t.reqs| && t.reqs[i] == s.reqs[i].(pc := t.reqs[i].pc) && PcFits(w, t.reqs[i])
  }

  lemma GoFits(w: World, s: Sys, i: nat)
    requires i < |s.reqs| && s.reqs[i].pc.Lead? && PcFits(w, s.reqs[i])
    ensures forall act | ActFits(s.reqs[i], act) :: FitsAt(w, s, Go(s, i, act), i)
    ensures forall res, stored, act | ActFits(s.reqs[i], act) :: FitsAt(w, s, Go(Note(s, i, res, stored), i, act), i)
    ensures CountFetch(s, i).reqs == s.reqs && Note(CountFetch(s, i), i, Gone, false).reqs == s.reqs
    ensures forall act | ActFits(s.reqs[i], act) :: FitsAt(w, s, Go(CountFetch(s, i), i, act), i)
    ensures forall act | ActFits(s.reqs[i], act) :: FitsAt(w, s, Go(Note(CountFetch(s, i), i, Gone, false), i, act), i)
  {
    forall act | ActFits(s.reqs[i], act) ensures PcFits(w, s.reqs[i].(pc := Lead(s.reqs[i].pc.f, act))) {
      SameFits(s.reqs[i], s.reqs[i].(pc := Lead(s.reqs[i].pc.f, act)), act);
    }
  }

  lemma SameFits(q: Req, q': Req, act: Act)
    requires q'.head == q.head
    ensures ActFits(q, act) <==> ActFits(q', act)
  {}

  lemma GoFit(w: World, s: Sys, i: nat, act: Act)
    requires i < |s.reqs| && s.reqs[i].pc.Lead? && PcFits(w, s.reqs[i]) && ActFits(s.reqs[i], act)
    ensures FitsAt(w, s, Go(s, i, act), i)
  {
    hide FitsAt, PcFits, Go, ActFits;
    GoFits(w, s, i);
  }

  lemma NoteFit(w: World, s: Sys, i: nat, res: Res, stored: bool, act: Act)
    requires i < |s.reqs| && s.reqs[i].pc.Lead? && PcFits(w, s.reqs[i]) && ActFits(s.reqs[i], act)
    ensures Note(s, i, res, stored).reqs == s.reqs && FitsAt(w, s, Go(Note(s, i, res, stored), i, act), i)
  {
    hide FitsAt, PcFits, Go, ActFits;
    GoFits(w, s, i);
  }

  lemma SmallFits(w: World, s: Sys, i: nat, res: ReadResult)
    requires i < |s.reqs| && s.reqs[i].pc.Lead? && PcFits(w, s.reqs[i])
    ensures FitsAt(w, s, SmallRead(w, s, i, res), i)
  {
    hide Go, Goto, Note, StoreBytes, FitsAt;
    NoteReqs(s, i);
    var r := res.reader;
    if r.n > MAX_SMALL || (res.err.Some? && res.err != Some(Eof)) {
      GoFit(w, s, i, Release(BadGateway));
    } else if res.err.None? {
      GoFit(w, s, i, Reading(r));
    } else {
      var body := if r.n <= |r.body.data| then r.body.data[..r.n] else [];
      NoteFit(w, s, i, Ok200(body), false, Storing(StoreBytes(w, body), Served(s.reqs[i], body)));
    }
  }

  lemma PassedFits(w: World, s: Sys, i: nat, res: ReadResult)
    requires i < |s.reqs| && s.reqs[i].pc.Lead? && PcFits(w, s.reqs[i]) && !s.reqs[i].head
    ensures FitsAt(w, s, PassedRead(s, i, res), i)
  {
    hide Go, Goto, Note, FitsAt;
    NoteReqs(s, i);
    if res.err.None? {
      GoFit(w, s, i, Copying(res.reader));
    } else if res.err == Some(Eof) {
      NoteFit(w, s, i, Ok200([]), false, Release(Streamed(res.reader)));
    } else {
      GoFit(w, s, i, Release(Aborted));
    }
  }

  lemma ReadFits(w: World, s: Sys, i: nat, room: nat)
    requires i < |s.reqs| && s.reqs[i].pc.Lead? && PcFits(w, s.reqs[i])
    requires var a := s.reqs[i].pc.act; (a.Reading? || a.Copying? || a.Draining?) && Ready(a.r)
    requires s.reqs[i].pc.act.Copying? ==> !s.reqs[i].head
    ensures FitsAt(w, s, ReadMore(w, s, i, room), i)
  {
    hide Go, Next, SmallRead, PassedRead, FitsAt;
    var res := Next(s.reqs[i].pc.act.r, room);
    match s.reqs[i].pc.act
    case Reading(_) => SmallFits(w, s, i, res);
    case Copying(_) => PassedFits(w, s, i, res);
    case Draining(_) =>
      GoFit(w, s, i, Draining(res.reader));
      GoFit(w, s, i, Settling(res.reader, false));
  }

  lemma SettleFits(w: World, s: Sys, i: nat)
    requires i < |s.reqs| && s.reqs[i].pc.Lead? && s.reqs[i].pc.act.Settling? && PcFits(w, s.reqs[i]) && !s.reqs[i].head
    ensures FitsAt(w, s, Settle(s, i), i)
  {
    hide Go, Goto, Note, FitsAt;
    NoteReqs(s, i);
    var r, stored := s.reqs[i].pc.act.r, s.reqs[i].pc.act.stored;
    NoteFit(w, s, i, Ok200([]), false, Release(Streamed(r)));
    NoteFit(w, s, i, Ok200([]), stored, Release(Streamed(r)));
    GoFit(w, s, i, Release(Aborted));
  }

  lemma UploadFits(w: World, s: Sys, i: nat, l: U.Label)
    requires i < |s.reqs| && s.reqs[i].pc.Lead? && PcFits(w, s.reqs[i])
    requires var a := s.reqs[i].pc.act; (a.Uploading? || a.Storing?) && U.Can(a.u, l) && Ready(a.u.reader)
    ensures FitsAt(w, s, UploadMore(s, i, l), i)
  {
    hide U.Step, U.Can;
  }

  lemma PutFits(w: World, s: Sys, i: nat, kept: bool)
    requires i < |s.reqs| && s.reqs[i].pc.Lead? && PcFits(w, s.reqs[i])
    requires var a := s.reqs[i].pc.act; (a.Uploading? || a.Storing?) && a.u.pc.Done?
    ensures FitsAt(w, s, PutReturned(s, i, kept), i)
  {}

  /** What a leader of a large object has a body for is a GET. */
  lemma LargeIsGet(w: World, s: Sys, i: nat)
    requires Inv(w, s) && i < |s.reqs| && s.reqs[i].pc.Lead? && PcFits(w, s.reqs[i])
    ensures s.reqs[i].pc.act.Copying? || s.reqs[i].pc.act.Settling? ==> !s.reqs[i].head
  {
    hide FlightsOk, SlotsOk, U.Inv, FromOrigin;
    LeaderAct(w, s, i);
  }

  lemma ProbeFits(w: World, s: Sys, l: Label)
    requires Can(w, s, l) && l.Probed?
    ensures FitsAt(w, s, Probe(w, s, l.i, l.fail, l.kept, l.proxied), l.i)
  {}

  lemma EarlyFits(w: World, s: Sys, l: Label)
    requires Can(w, s, l) && ReadersReady(s, l.i) && PcFits(w, s.reqs[l.i])
    requires !l.Probed? && !l.More? && !l.UploadStep? && !l.UploadDone? && !l.Settled?
    ensures FitsAt(w, s, Step(w, s, l), l.i)
  {
    hide StartFetched, U.Can, Go, CountFetch, Note, FitsAt;
    if s.reqs[l.i].pc.Lead? {
      GoFits(w, s, l.i);
      if l.Fetched? { StartFits(w, s.reqs[l.i], l); }
      if l.Closed? { CloseFits(w, s, l.i); }
      if l.Acquired? || l.Released? || l.Removed? { SlotFits(w, s, l); }
      if l.FetchGone? { GoneFits(w, s, l.i); }
    } else {
      PlainFits(w, s, l);
    }
  }

  lemma StartFits(w: World, q: Req, l: Label)
    requires q.pc.Lead? && q.pc.act.Fetching? && l.Fetched?
    ensures ActFits(q, StartFetched(w, q, l.body, l.want, l.moods))
  {}

  lemma GoneFits(w: World, s: Sys, i: nat)
    requires i < |s.reqs| && s.reqs[i].pc.Lead? && PcFits(w, s.reqs[i])
    ensures forall t, neg | FitsAt(w, s, t, i) :: FitsAt(w, s, t.(neg := neg), i)
  {}

  lemma SlotFits(w: World, s: Sys, l: Label)
    requires Can(w, s, l) && ReadersReady(s, l.i) && PcFits(w, s.reqs[l.i])
    requires l.Acquired? || l.Released? || l.Removed?
    ensures FitsAt(w, s, Step(w, s, l), l.i)
  {
    hide U.Can, Taken;
  }

  lemma CloseFits(w: World, s: Sys, i: nat)
    requires i < |s.reqs| && s.reqs[i].pc.Lead? && s.reqs[i].pc.act.Close? && PcFits(w, s.reqs[i])
    ensures FitsAt(w, s, CloseFlight(s, i), i)
  {}

  lemma PlainFits(w: World, s: Sys, l: Label)
    requires Can(w, s, l) && ReadersReady(s, l.i) && PcFits(w, s.reqs[l.i]) && !s.reqs[l.i].pc.Lead? && !l.Probed?
    ensures FitsAt(w, s, Step(w, s, l), l.i)
  {
    hide U.Can;
  }

  lemma StepFits(w: World, s: Sys, l: Label)
    requires Inv(w, s) && Can(w, s, l) && ReadersReady(s, l.i) && AllFit(w, s)
    ensures AllFit(w, Step(w, s, l))
  {
    hide Inv, Goto, Go, Note, NoteStored, CountFetch, ReadMore, UploadMore, PutReturned, Settle, Probe, PcFits, U.Can;
    C.StepFrame(w, s, l);
    assert PcFits(w, s.reqs[l.i]);
    if s.reqs[l.i].pc.Lead? { LargeIsGet(w, s, l.i); }
    match l
    case Probed(_, _, _, _) => ProbeFits(w, s, l);
    case More(i, room) => ReadFits(w, s, i, room);
    case UploadStep(i, ul) => UploadFits(w, s, i, ul);
    case UploadDone(i, kept) => PutFits(w, s, i, kept);
    case Settled(i) => SettleFits(w, s, i);
    case _ => EarlyFits(w, s, l);
  }

  lemma {:induction false} RunFits(w: World, s: Sys, ls: seq<Label>, t: Sys)
    requires Inv(w, s) && Runs(w, s, ls, t) && AllFit(w, s)
    ensures AllFit(w, t)
    decreases |ls|
  {
    hide Inv, Step, Can, AllFit;
    if ls != [] {
      C.ReadyFor(w, s, ls[0]);
      StepKeeps(w, s, ls[0]);
      StepFits(w, s, ls[0]);
      RunFits(w, Step(w, s, ls[0]), ls[1..], t);
    }
  }

  /** In every run only GETs are answered with a body, and only HEADs with bare headers. */
  lemma HeadsGetNoBody(w: World, s: Sys, ls: seq<Label>, t: Sys, i: nat)
    requires Init(w, s) && (InitOk(w, s); Runs(w, s, ls, t)) && i < |t.reqs| && t.reqs[i].pc.Finished?
    ensures t.reqs[i].pc.answer.Clean? ==> !t.reqs[i].head
    ensures t.reqs[i].pc.answer.HeadOnly? ==> t.reqs[i].head
  {
    hide Inv, Runs, PcFits;
    InitOk(w, s);
    NoneAnswered(w, s);
    RunFits(w, s, ls, t);
    KnowFit(w, t, i);
  }

  lemma NoneAnswered(w: World, s: Sys)
    requires Init(w, s)
    ensures AllFit(w, s)
  {}

  lemma KnowFit(w: World, t: Sys, i: nat)
    requires AllFit(w, t) && i < |t.reqs| && t.reqs[i].pc.Finished?
    ensures Fits(t.reqs[i], t.reqs[i].pc.answer)
  {
    assert PcFits(w, t.reqs[i]);
  }

  // ------------------------------------------------------------------ answers from a hit

  /** An object as its client is to have it. */
  function Whole200(head: bool, body: seq<byte>): Pc { Finished(if head then HeadOnly else Clean(body)) }

  /** A look at the store that does not fail answers a small object that is there and not
      too large, sends a GET for a large one to be redirected and answers its HEAD, and
      leads to the lock for what is not there, but for a large object's HEAD, which is
      answered as upstream answers it; one that fails, or finds a small object too large,
      is a 502. */
  lemma ProbedIs(w: World, s: Sys, i: nat, fail: bool, kept: bool, proxied: Answer)
    requires Can(w, s, Probed(i, fail, kept, proxied)) && ReadersReady(s, i)
    ensures var q, t := s.reqs[i], Step(w, s, Probed(i, fail, kept, proxied));
      var pc, there := t.reqs[i].pc, q.key in s.store;
      && (fail ==> pc == Finished(BadGateway))
      && (!fail && there && !w.large(q.key) && |s.store[q.key]| <= 8388608 ==> pc == Whole200(q.head, s.store[q.key]))
      && (!fail && there && !w.large(q.key) && |s.store[q.key]| > 8388608 ==> pc == Finished(BadGateway))
      && (!fail && there && w.large(q.key) ==> pc == if q.head then Finished(HeadOnly) else Presign)
      && (!fail && !there && w.large(q.key) && q.head ==> pc == Finished(proxied))
      && (!fail && !there && !(w.large(q.key) && q.head) ==> pc == Lock)
    ensures var q, t := s.reqs[i], Step(w, s, Probed(i, fail, kept, proxied));
      var hit := !fail && !w.large(q.key) && q.key in s.store && |s.store[q.key]| <= 8388608;
      t.mem == if hit && kept then s.mem[(q.replica, q.key) := s.store[q.key]] else s.mem
  {}

  lemma MemoryIs(w: World, s: Sys, i: nat)
    ensures Can(w, s, HitMem(i)) && ReadersReady(s, i) ==>
      var q := s.reqs[i];
      Step(w, s, HitMem(i)).reqs[i].pc == Whole200(q.head, s.mem[(q.replica, q.key)])
    ensures Can(w, s, HitNeg(i)) && ReadersReady(s, i) ==> Step(w, s, HitNeg(i)).reqs[i].pc == Finished(NotFound)
  {
    hide U.Can;
  }

  /** A follower has what its flight's outcome says: the small body, or a redirect if the
      large one was stored, the 404, another turn at the lock if a large body was whole and
      not stored, and a 502 otherwise. */
  lemma WokenIs(w: World, s: Sys, i: nat)
    requires Can(w, s, Woken(i)) && ReadersReady(s, i)
    ensures var q, fl, pc := s.reqs[i], s.table[s.reqs[i].pc.f], Step(w, s, Woken(i)).reqs[i].pc;
      match fl.res
      case Failed => pc == Finished(BadGateway)
      case Gone => pc == Finished(NotFound)
      case Ok200(body) => pc == if !w.large(q.key) then Whole200(q.head, body) else if fl.stored then Presign else Lock
  {
    hide U.Can;
  }

  lemma PresignedIs(w: World, s: Sys, i: nat, ok: bool)
    requires Can(w, s, Presigned(i, ok)) && ReadersReady(s, i)
    ensures Step(w, s, Presigned(i, ok)).reqs[i].pc == Finished(if ok then Redirect else BadGateway)
  {}
}
