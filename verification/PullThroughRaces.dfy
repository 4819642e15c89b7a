/** Two looks that are not one step: a request may lead for a key that is committed
    already, and a leader that goes away takes its followers down. */
module PullThroughRaces {
  import opened Common
  import opened Reading
  import U = Upload
  import opened PullThrough
  import opened PullThroughSafety
  import C = PullThroughClients

  predicate LeadsNow(s: Sys, i: nat) { i < |s.reqs| && s.reqs[i].pc.Lead? }

  /** Request i does nothing. */
  ghost predicate Rests(ls: seq<Label>, i: nat) { forall m | 0 <= m < |ls| :: ls[m].i != i }

  lemma {:induction false} RestsIn(w: World, s: Sys, ls: seq<Label>, t: Sys, i: nat)
    requires Inv(w, s) && Runs(w, s, ls, t) && Rests(ls, i) && i < |s.reqs|
    ensures |t.reqs| == |s.reqs| && t.reqs[i] == s.reqs[i]
    decreases |ls|
  {
    hide Inv, Step, Can;
    if ls != [] {
      C.ReadyFor(w, s, ls[0]);
      C.StepFrame(w, s, ls[0]);
      StepKeeps(w, s, ls[0]);
      RestsIn(w, Step(w, s, ls[0]), ls[1..], t, i);
    }
  }

  /** A look at the store leaves the request to lead if it finds nothing. */
  predicate Misses(w: World, s: Sys, l: Label)
    requires l.Probed? && l.i < |s.reqs|
  {
    !l.fail && s.reqs[l.i].key !in s.store && !(w.large(s.reqs[l.i].key) && s.reqs[l.i].head)
  }

  /** Its flight stored nothing, as far as the flight knows. */
  predicate Unserved(w: World, s: Sys, l: Label)
    requires l.Woken? && l.i < |s.reqs| && s.reqs[l.i].pc.Waiting? && s.reqs[l.i].pc.f < |s.table|
  {
    var fl := s.table[s.reqs[l.i].pc.f];
    w.large(s.reqs[l.i].key) && fl.res.Ok200? && !fl.stored
  }

  lemma LookPc(w: World, s: Sys, l: Label)
    requires Inv(w, s) && Can(w, s, l) && (l.Probed? || l.Woken?)
    ensures l.i < |s.reqs| && (l.Woken? ==> s.reqs[l.i].pc.Waiting? && s.reqs[l.i].pc.f < |s.table|)
    ensures ReadersReady(s, l.i)
    ensures var t := Step(w, s, l);
      && l.i < |t.reqs| && t.reqs[l.i].key == s.reqs[l.i].key && t.reqs[l.i].replica == s.reqs[l.i].replica
      && (t.reqs[l.i].pc == Lock <==> if l.Probed? then Misses(w, s, l) else Unserved(w, s, l))
      && t.store == s.store
  {
    hide Inv, Served, U.Can;
    C.ReadyFor(w, s, l);
  }

  lemma LockedLeads(w: World, s: Sys, i: nat)
    requires Inv(w, s) && i < |s.reqs|
    ensures Can(w, s, Locked(i)) <==> s.reqs[i].pc == Lock
    ensures Can(w, s, Locked(i)) ==> ReadersReady(s, i)
    ensures Can(w, s, Locked(i)) ==> (LeadsNow(Step(w, s, Locked(i)), i) <==> SiteOf(s.reqs[i]) !in s.flights)
  {
    hide Inv;
  }

  /** Single flight is one at a time, not one ever. A request that does nothing between its
      look at the store and the lock leads for a key that is committed by then if and only
      if the look missed it, its commit lies between the look and the lock, and no flight
      for the key is listed at the lock. One that was woken does so if and only if its
      flight had stored nothing as far as it knew, the commit lies anywhere before the
      lock, and no flight is listed there. */
  lemma LeadsForCommittedIff(w: World, s: Sys, l: Label, ls: seq<Label>, t: Sys)
    requires Inv(w, s) && Can(w, s, l) && (l.Probed? || l.Woken?)
    requires (LookPc(w, s, l); StepKeeps(w, s, l); Runs(w, Step(w, s, l), ls, t)) && Rests(ls, l.i)
    ensures l.i < |s.reqs| && l.i < |t.reqs| && t.reqs[l.i].key == s.reqs[l.i].key && Inv(w, t)
    ensures var key := s.reqs[l.i].key;
      (Can(w, t, Locked(l.i)) && (LockedLeads(w, t, l.i); LeadsNow(Step(w, t, Locked(l.i)), l.i)) && key in t.store)
      <==>
      (LookPc(w, s, l); StepKeeps(w, s, l);
       var between := CommittedIn(w, Step(w, s, l), ls, key);
       if l.Probed? then Misses(w, s, l) && between else Unserved(w, s, l) && (key in s.store || between))
        && SiteOf(t.reqs[l.i]) !in t.flights
  {
    hide Inv, Step, Can, Unserved, CommittedIn;
    LookPc(w, s, l);
    StepKeeps(w, s, l);
    RestsIn(w, Step(w, s, l), ls, t, l.i);
    RunKeeps(w, Step(w, s, l), ls, t);
    LockedLeads(w, t, l.i);
    StoredIff(w, Step(w, s, l), ls, t, s.reqs[l.i].key);
  }

  // ------------------------------------------------------------- where a commit lies

  /** With this label the store has the key for the first time. */
  ghost predicate Commits(w: World, s: Sys, l: Label, key: Key)
    requires Can(w, s, l) && ReadersReady(s, l.i)
  {
    key !in s.store && key in Step(w, s, l).store
  }

  ghost predicate CommittedIn(w: World, s: Sys, ls: seq<Label>, key: Key)
    requires Inv(w, s)
    decreases |ls|
  {
    ls != [] && Can(w, s, ls[0]) &&
    (StepKeeps(w, s, ls[0]); Commits(w, s, ls[0], key) || CommittedIn(w, Step(w, s, ls[0]), ls[1..], key))
  }

  /** The store has a key if and only if it had it or it was committed in the run. */
  lemma {:induction false} StoredIff(w: World, s: Sys, ls: seq<Label>, t: Sys, key: Key)
    requires Inv(w, s) && Runs(w, s, ls, t)
    ensures key in t.store <==> key in s.store || CommittedIn(w, s, ls, key)
    decreases |ls|
  {
    hide Inv, Step, Can;
    if ls != [] {
      C.ReadyFor(w, s, ls[0]);
      StepKeeps(w, s, ls[0]);
      StoreGrows(w, s, ls[0]);
      StoredIff(w, Step(w, s, ls[0]), ls[1..], t, key);
    }
  }

  lemma GoStore(s: Sys, i: nat)
    requires i < |s.reqs| && s.reqs[i].pc.Lead?
    ensures forall act :: Go(s, i, act).store == s.store
    ensures forall res, stored, act :: Go(Note(s, i, res, stored), i, act).store == s.store
    ensures CountFetch(s, i).reqs == s.reqs && Note(CountFetch(s, i), i, Gone, false).reqs == s.reqs
    ensures forall act :: Go(CountFetch(s, i), i, act).store == s.store
    ensures forall act :: Go(Note(CountFetch(s, i), i, Gone, false), i, act).store == s.store
  {}

  lemma ReadStore(w: World, s: Sys, i: nat, room: nat)
    requires i < |s.reqs| && s.reqs[i].pc.Lead?
    requires var a := s.reqs[i].pc.act; (a.Reading? || a.Copying? || a.Draining?) && Ready(a.r)
    ensures ReadMore(w, s, i, room).store == s.store
  {
    hide Go, Note, Next, StoreBytes, Streamed, Served;
    GoStore(s, i);
  }

  lemma SettleStore(s: Sys, i: nat)
    requires i < |s.reqs| && s.reqs[i].pc.Lead? && s.reqs[i].pc.act.Settling?
    ensures Settle(s, i).store == s.store
  {
    hide Go, Note, Streamed;
    GoStore(s, i);
  }

  lemma PutStore(s: Sys, i: nat, kept: bool)
    requires i < |s.reqs| && s.reqs[i].pc.Lead?
    requires var a := s.reqs[i].pc.act; (a.Uploading? || a.Storing?) && a.u.pc.Done?
    ensures PutReturned(s, i, kept).store == s.store
  {
    hide Go, NoteStored;
    GoStore(s, i);
    NotedStore(s, i);
  }

  lemma NotedStore(s: Sys, i: nat)
    requires i < |s.reqs| && s.reqs[i].pc.Lead?
    ensures NoteStored(s, i).reqs == s.reqs
    ensures forall site, body, kept :: Remember(NoteStored(s, i), site, body, kept).reqs == s.reqs
    ensures forall site, body, kept, act :: Go(Remember(NoteStored(s, i), site, body, kept), i, act).store == s.store
  {}

  lemma FlightStore(s: Sys, i: nat)
    requires i < |s.reqs|
    ensures JoinOrLead(s, i).store == s.store
    ensures s.reqs[i].pc.Lead? && s.reqs[i].pc.act.Close? ==> CloseFlight(s, i).store == s.store
  {}

  lemma ProbeStore(w: World, s: Sys, i: nat, fail: bool, kept: bool, proxied: Answer)
    requires i < |s.reqs|
    ensures Probe(w, s, i, fail, kept, proxied).store == s.store
  {
    hide ProbePc;
  }

  lemma OtherStore(w: World, s: Sys, l: Label)
    requires Can(w, s, l) && ReadersReady(s, l.i) && !l.More? && !l.UploadStep? && !l.UploadDone? && !l.Settled?
    requires !l.FetchFailed? && !l.FetchGone? && !l.Fetched?
    ensures Step(w, s, l).store == s.store
  {
    hide Follow, Served, U.Can, Probe, JoinOrLead, CloseFlight, Goto, Go;
    if l.Probed? {
      ProbeStore(w, s, l.i, l.fail, l.kept, l.proxied);
    } else if l.Locked? || l.Closed? {
      FlightStore(s, l.i);
    } else {
      GotoStore(s, l.i);
    }
  }

  lemma GotoStore(s: Sys, i: nat)
    requires i < |s.reqs|
    ensures forall pc :: Goto(s, i, pc).store == s.store
    ensures s.reqs[i].pc.Lead? ==> forall act :: Go(s, i, act).store == s.store
  {}

  lemma UploadStore(s: Sys, i: nat, l: U.Label)
    requires i < |s.reqs| && s.reqs[i].pc.Lead?
    requires var a := s.reqs[i].pc.act; (a.Uploading? || a.Storing?) && U.Can(a.u, l) && Ready(a.u.reader)
    ensures var t := UploadMore(s, i, l);
      s.store.Keys <= t.store.Keys && forall k | k in t.store && k !in s.store ::
        k == s.reqs[i].key && (l.SinglePut? || l.Completed?)
  {
    hide U.Step, U.Can;
  }

  /** The store only grows, and by nothing but a leader's PutObject or its upload being
      completed, each of its own key. */
  lemma StoreGrows(w: World, s: Sys, l: Label)
    requires Can(w, s, l) && ReadersReady(s, l.i)
    ensures s.store.Keys <= Step(w, s, l).store.Keys
    ensures forall key | Commits(w, s, l, key) ::
      l.UploadStep? && (l.l.SinglePut? || l.l.Completed?) && s.reqs[l.i].pc.Lead? && s.reqs[l.i].key == key
  {
    hide Go, Note, CountFetch, ReadMore, UploadMore, PutReturned, Settle, StartFetched, U.Can;
    match l
    case More(i, room) => ReadStore(w, s, i, room);
    case UploadStep(i, ul) => UploadStore(s, i, ul);
    case UploadDone(i, kept) => PutStore(s, i, kept);
    case Settled(i) => SettleStore(s, i);
    case FetchFailed(i) => GoStore(s, i);
    case FetchGone(i) => GoStore(s, i);
    case Fetched(i, _, _, _) => GoStore(s, i);
    case _ => OtherStore(w, s, l);
  }

  // ------------------------------------------------------ no other way to the lock

  /** Request i leads, or is done. */
  predicate Past(s: Sys, i: nat) { i < |s.reqs| && (s.reqs[i].pc.Lead? || s.reqs[i].pc.Finished?) }

  lemma GoPast(s: Sys, i: nat)
    requires i < |s.reqs| && s.reqs[i].pc.Lead?
    ensures forall act :: Past(Go(s, i, act), i)
    ensures forall res, stored, act :: Past(Go(Note(s, i, res, stored), i, act), i)
  {}

  lemma ReadPast(w: World, s: Sys, i: nat, room: nat)
    requires i < |s.reqs| && s.reqs[i].pc.Lead?
    requires var a := s.reqs[i].pc.act; (a.Reading? || a.Copying? || a.Draining?) && Ready(a.r)
    ensures Past(ReadMore(w, s, i, room), i)
  {
    hide Go, Note, Next, StoreBytes, Streamed, Served, Past;
    GoPast(s, i);
  }

  lemma UploadPast(s: Sys, i: nat, l: U.Label)
    requires i < |s.reqs| && s.reqs[i].pc.Lead?
    requires var a := s.reqs[i].pc.act; (a.Uploading? || a.Storing?) && U.Can(a.u, l) && Ready(a.u.reader)
    ensures Past(UploadMore(s, i, l), i)
  {
    hide U.Step, U.Can;
  }

  lemma PutPast(s: Sys, i: nat, kept: bool)
    requires i < |s.reqs| && s.reqs[i].pc.Lead?
    requires var a := s.reqs[i].pc.act; (a.Uploading? || a.Storing?) && a.u.pc.Done?
    ensures Past(PutReturned(s, i, kept), i)
  {}

  lemma SettlePast(s: Sys, i: nat)
    requires i < |s.reqs| && s.reqs[i].pc.Lead? && s.reqs[i].pc.act.Settling?
    ensures Past(Settle(s, i), i)
  {
    hide Go, Note, Streamed, Past;
    GoPast(s, i);
  }

  lemma LeaderStays(w: World, s: Sys, l: Label)
    requires Can(w, s, l) && ReadersReady(s, l.i) && s.reqs[l.i].pc.Lead?
    ensures Past(Step(w, s, l), l.i)
  {
    hide Goto, Go, Note, NoteStored, CountFetch, ReadMore, UploadMore, PutReturned, Settle, StartFetched, Past, U.Can;
    match l
    case More(_, room) => ReadPast(w, s, l.i, room);
    case UploadStep(_, ul) => UploadPast(s, l.i, ul);
    case UploadDone(_, kept) => PutPast(s, l.i, kept);
    case Settled(_) => SettlePast(s, l.i);
    case _ => EarlyPast(w, s, l);
  }

  lemma EarlyPast(w: World, s: Sys, l: Label)
    requires Can(w, s, l) && ReadersReady(s, l.i) && s.reqs[l.i].pc.Lead?
    requires !l.More? && !l.UploadStep? && !l.UploadDone? && !l.Settled?
    ensures Past(Step(w, s, l), l.i)
  {
    hide StartFetched, U.Can, Goto, Go, CountFetch, Note, Past;
    GoPast(s, l.i);
    if l.FetchFailed? || l.FetchGone? || l.Fetched? {
      CountPast(s, l.i);
    } else if l.Acquired? || l.Released? || l.Removed? {
      SlotPast(s, l.i);
    } else if l.Closed? {
      ClosePast(s, l.i);
    }
  }

  lemma CountPast(s: Sys, i: nat)
    requires i < |s.reqs| && s.reqs[i].pc.Lead?
    ensures CountFetch(s, i).reqs == s.reqs && Note(CountFetch(s, i), i, Gone, false).reqs == s.reqs
    ensures forall act :: Past(Go(CountFetch(s, i), i, act), i)
    ensures forall act, neg :: Past(Go(Note(CountFetch(s, i), i, Gone, false), i, act).(neg := neg), i)
  {}

  lemma SlotPast(s: Sys, i: nat)
    requires i < |s.reqs| && s.reqs[i].pc.Lead?
    ensures forall act, sem :: Past(Go(s, i, act).(sem := sem), i)
    ensures forall act, flights :: Past(Go(s, i, act).(flights := flights), i)
  {}

  lemma ClosePast(s: Sys, i: nat)
    requires i < |s.reqs| && s.reqs[i].pc.Lead? && s.reqs[i].pc.act.Close?
    ensures Past(CloseFlight(s, i), i)
  {}

  lemma EntersLock(w: World, s: Sys, l: Label)
    requires Can(w, s, l) && ReadersReady(s, l.i) && l.i < |Step(w, s, l).reqs| && Step(w, s, l).reqs[l.i].pc == Lock
    ensures l.Probed? || l.Woken?
  {
    hide U.Can, ProbePc, Follow;
    if s.reqs[l.i].pc.Lead? { LeaderStays(w, s, l); }
  }

  /** A request that is at the lock and has done anything came there by a look, or by
      being woken, and has rested since. */
  lemma {:induction false} LockComesFrom(w: World, s: Sys, ls: seq<Label>, t: Sys, i: nat) returns (m: nat)
    requires Inv(w, s) && Runs(w, s, ls, t) && i < |s.reqs| && !Rests(ls, i)
    requires i < |t.reqs| && t.reqs[i].pc == Lock
    ensures m < |ls| && ls[m].i == i && (ls[m].Probed? || ls[m].Woken?) && Rests(ls[m + 1..], i)
    decreases |ls|
  {
    hide Inv, Step, Can, Rests;
    SomeLabel(ls, i);
    C.ReadyFor(w, s, ls[0]);
    C.StepFrame(w, s, ls[0]);
    StepKeeps(w, s, ls[0]);
    var u := Step(w, s, ls[0]);
    if Rests(ls[1..], i) {
      RestsAfter(ls, i);
      RestsIn(w, u, ls[1..], t, i);
      EntersLock(w, s, ls[0]);
      m := 0;
    } else {
      m := LockComesFrom(w, u, ls[1..], t, i);
      assert ls[1..][m + 1..] == ls[m + 2..];
      m := m + 1;
    }
  }

  lemma SomeLabel(ls: seq<Label>, i: nat)
    requires !Rests(ls, i)
    ensures ls != []
  {}

  lemma RestsAfter(ls: seq<Label>, i: nat)
    requires ls != []
    ensures Rests(ls, i) <==> ls[0].i != i && Rests(ls[1..], i)
  {
    if ls[0].i != i && Rests(ls[1..], i) {
      forall m | 0 <= m < |ls| ensures ls[m].i != i { assert m > 0 ==> ls[1..][m - 1] == ls[m]; }
    }
    if Rests(ls, i) {
      forall m | 0 <= m < |ls[1..]| ensures ls[1..][m].i != i { assert ls[1..][m] == ls[m + 1]; }
    }
  }

  // ------------------------------------------------------------------- two runs

  /** One label more. */
  lemma {:induction false} RunOn(w: World, s: Sys, ls: seq<Label>, t: Sys, l: Label)
    requires Inv(w, s) && Runs(w, s, ls, t) && Can(w, t, l)
    ensures Inv(w, t) && ReadersReady(t, l.i) && Runs(w, s, ls + [l], Step(w, t, l))
    decreases |ls|
  {
    hide Inv, Step, Can;
    RunKeeps(w, s, ls, t);
    StepKeeps(w, t, l);
    if ls == [] {
      RunsNone(w, Step(w, s, l));
      RunsFirst(w, s, [l], Step(w, s, l));
    } else {
      StepKeeps(w, s, ls[0]);
      RunOn(w, Step(w, s, ls[0]), ls[1..], t, l);
      assert (ls + [l])[1..] == ls[1..] + [l] && (ls + [l])[0] == ls[0];
      RunsFirst(w, s, ls + [l], Step(w, t, l));
    }
  }

  lemma RunsNone(w: World, s: Sys)
    requires Inv(w, s)
    ensures Runs(w, s, [], s)
  {
    hide Inv;
  }

  lemma RunsFirst(w: World, s: Sys, ls: seq<Label>, t: Sys)
    requires Inv(w, s) && ls != [] && Can(w, s, ls[0])
    requires (StepKeeps(w, s, ls[0]); Runs(w, Step(w, s, ls[0]), ls[1..], t))
    ensures Runs(w, s, ls, t)
  {
    hide Inv, Can, Step;
  }

  /** Two requests of one replica for one key that the store does not have. */
  ghost predicate Pair(w: World, s: Sys, k: Key) {
    && Init(w, s) && |s.reqs| == 2 && SiteOf(s.reqs[0]) == SiteOf(s.reqs[1]) && s.reqs[0].key == k && k !in s.store
    && !w.large(k)
  }

  /** Where the two are: their program points, the flight listed for their site, every
      flight, the slots taken, and whether the object is committed. */
  ghost predicate View(s: Sys, t: Sys, pc0: Pc, pc1: Pc, listed: Option<nat>, table: seq<Flight>, taken: nat,
      stored: bool)
    requires |s.reqs| == 2
  {
    var site := SiteOf(s.reqs[0]);
    && t.reqs == [s.reqs[0].(pc := pc0), s.reqs[1].(pc := pc1)] && t.table == table
    && (site in t.flights <==> listed.Some?) && (listed.Some? && site in t.flights ==> t.flights[site] == listed.value)
    && Taken(t, site.0) == taken && (stored <==> site.1 in t.store)
  }

  function FlightOf(s: Sys, leader: nat, fetches: nat, closes: nat, res: Res, stored: bool): Flight
    requires |s.reqs| == 2
  {
    Flight(SiteOf(s.reqs[0]), leader, fetches, closes, res, stored)
  }

  function BothLook(): seq<Label> { [Probed(0, false, false, NotFound), Probed(1, false, false, NotFound)] }

  lemma BothMiss(w: World, s: Sys, k: Key) returns (ls: seq<Label>, t: Sys)
    requires Pair(w, s, k)
    ensures (InitOk(w, s); Runs(w, s, ls, t)) && View(s, t, Lock, Lock, None, [], 0, false)
    ensures ls == BothLook()
  {
    hide Inv, Runs;
    InitOk(w, s);
    RunsNone(w, s);
    var l0, l1 := Probed(0, false, false, NotFound), Probed(1, false, false, NotFound);
    RunOn(w, s, [], s, l0);
    t := Step(w, s, l0);
    assert View(s, t, Lock, Arrive, None, [], 0, false);
    RunOn(w, s, [] + [l0], t, l1);
    t := Step(w, t, l1);
    ls := [] + [l0] + [l1];
  }

  /** The first takes the lock and leads. */
  lemma FirstLeads(w: World, s: Sys, k: Key) returns (ls: seq<Label>, t: Sys)
    requires Pair(w, s, k)
    ensures (InitOk(w, s); Runs(w, s, ls, t))
    ensures View(s, t, Lead(0, Queued), Lock, Some(0), [FlightOf(s, 0, 0, 0, Failed, false)], 0, false)
    ensures ls == BothLook() + [Locked(0)]
  {
    hide Inv, Runs, Init;
    ls, t := BothMiss(w, s, k);
    InitOk(w, s);
    RunOn(w, s, ls, t, Locked(0));
    ls, t := ls + [Locked(0)], Step(w, t, Locked(0));
  }

  lemma SecondWaits(w: World, s: Sys, k: Key) returns (ls: seq<Label>, t: Sys)
    requires Pair(w, s, k)
    ensures (InitOk(w, s); Runs(w, s, ls, t))
    ensures View(s, t, Lead(0, Queued), Waiting(0), Some(0), [FlightOf(s, 0, 0, 0, Failed, false)], 0, false)
    ensures ls == BothLook() + [Locked(0), Locked(1)]
  {
    hide Inv, Runs, Init;
    ls, t := FirstLeads(w, s, k);
    InitOk(w, s);
    RunOn(w, s, ls, t, Locked(1));
    ls, t := ls + [Locked(1)], Step(w, t, Locked(1));
  }

  /** The first goes away while it queues. */
  lemma FirstLeaves(w: World, s: Sys, k: Key) returns (ls: seq<Label>, t: Sys)
    requires Pair(w, s, k)
    ensures (InitOk(w, s); Runs(w, s, ls, t))
    ensures View(s, t, Lead(0, Remove(Lost)), Waiting(0), Some(0), [FlightOf(s, 0, 0, 0, Failed, false)], 0, false)
    ensures ls == BothLook() + [Locked(0), Locked(1), Left(0)]
  {
    hide Inv, Runs, Init;
    ls, t := SecondWaits(w, s, k);
    InitOk(w, s);
    RunOn(w, s, ls, t, Left(0));
    ls, t := ls + [Left(0)], Step(w, t, Left(0));
  }

  lemma FirstCloses(w: World, s: Sys, k: Key) returns (ls: seq<Label>, t: Sys)
    requires Pair(w, s, k)
    ensures (InitOk(w, s); Runs(w, s, ls, t))
    ensures View(s, t, Finished(Lost), Waiting(0), None, [FlightOf(s, 0, 0, 1, Failed, false)], 0, false)
    ensures ls == BothLook() + [Locked(0), Locked(1), Left(0), Removed(0), Closed(0)]
  {
    hide Inv, Runs, Init;
    ls, t := FirstLeaves(w, s, k);
    InitOk(w, s);
    RunOn(w, s, ls, t, Removed(0));
    ls, t := ls + [Removed(0)], Step(w, t, Removed(0));
    RunOn(w, s, ls, t, Closed(0));
    ls, t := ls + [Closed(0)], Step(w, t, Closed(0));
  }

  /** Two requests for one key, nothing of upstream or the store having failed: the first
      leads and goes away while it queues for a slot, and the second, whose client is
      there, is answered with a 502. */
  lemma LeavingFailsFollower(w: World, s: Sys, k: Key) returns (ls: seq<Label>, t: Sys)
    requires Pair(w, s, k)
    ensures (InitOk(w, s); Runs(w, s, ls, t))
    ensures |t.reqs| == 2 && t.reqs[1].pc == Finished(BadGateway) && t.table == [FlightOf(s, 0, 0, 1, Failed, false)]
    ensures ls == BothLook() + [Locked(0), Locked(1), Left(0), Removed(0), Closed(0), Woken(1)]
  {
    hide Inv, Runs, Init;
    ls, t := FirstCloses(w, s, k);
    InitOk(w, s);
    RunOn(w, s, ls, t, Woken(1));
    ls, t := ls + [Woken(1)], Step(w, t, Woken(1));
  }

  // ------------------------------------------------------ a second fetch of one key

  /** What upstream sends: an empty body that ends cleanly. */
  function Empty(): Body { Body([], 0, CleanEnd, []) }

  function Response(i: nat): Label { Fetched(i, Empty(), -1, []) }

  function Reads(w: World): Reader { Open(Empty(), -1, None, w.hash, Client(false, [], [])) }

  /** A slot, and the response to the fetch. */
  lemma Fetches(w: World, s: Sys, ls: seq<Label>, t: Sys, k: Key, i: nat) returns (ls': seq<Label>, t': Sys)
    requires Pair(w, s, k) && w.origin(k, []) && (InitOk(w, s); Runs(w, s, ls, t))
    requires i < |t.reqs| && SiteOf(t.reqs[i]) == SiteOf(s.reqs[0]) && Taken(t, t.reqs[i].replica) == 0
    requires t.reqs[i].pc == Lead(i, Queued) && i < |t.table| && t.table[i].fetches == 0
    ensures (InitOk(w, s); Runs(w, s, ls', t')) && ls' == ls + [Acquired(i), Response(i)]
    ensures t'.reqs == t.reqs[i := t.reqs[i].(pc := Lead(i, Reading(Reads(w))))]
    ensures t'.flights == t.flights && t'.store == t.store && t'.table == t.table[i := t.table[i].(fetches := 1)]
    ensures Taken(t', t.reqs[i].replica) == 1
  {
    hide Inv, Runs;
    InitOk(w, s);
    var u := Step(w, t, Acquired(i));
    RunOn(w, s, ls, t, Acquired(i));
    RunOn(w, s, ls + [Acquired(i)], u, Response(i));
    t' := Step(w, u, Response(i));
    ls' := ls + [Acquired(i)] + [Response(i)];
  }

  /** The leader has read the end, has answered, and stores the body. */
  lemma ReadsAll(w: World, s: Sys, k: Key) returns (ls: seq<Label>, t: Sys)
    requires Pair(w, s, k) && w.origin(k, [])
    ensures (InitOk(w, s); Runs(w, s, ls, t))
    ensures View(s, t, Lead(0, Storing(StoreBytes(w, []), Served(s.reqs[0], []))), Lock, Some(0),
                 [FlightOf(s, 0, 1, 0, Ok200([]), false)], 1, false)
    ensures ls == BothLook() + [Locked(0), Acquired(0), Response(0), More(0, 1)]
  {
    hide Inv, Runs, Init;
    ls, t := FirstLeads(w, s, k);
    InitOk(w, s);
    ls, t := Fetches(w, s, ls, t, k, 0);
    RunOn(w, s, ls, t, More(0, 1));
    ReadsEnd(w);
    ls, t := ls + [More(0, 1)], Step(w, t, More(0, 1));
  }

  lemma ReadsEnd(w: World)
    ensures var res := Next(Reads(w), 1); res.err == Some(Eof) && res.reader.n == 0 && res.reader.body.data == []
  {}

  /** An empty body is stored by one PutObject. */
  lemma EmptyPut(w: World) returns (u1: U.Up, u2: U.Up, u3: U.Up)
    requires WorldOk(w)
    ensures var u := StoreBytes(w, []);
      && Ready(u.reader) && U.Can(u, U.First(0)) && u1 == U.Step(u, U.First(0)) && u.s3.visible.None?
      && Ready(u1.reader) && U.Can(u1, U.Decided) && u2 == U.Step(u1, U.Decided)
      && Ready(u2.reader) && U.Can(u2, U.SinglePut(true, true)) && u3 == U.Step(u2, U.SinglePut(true, true))
      && u3.pc == U.Done(U.Stored(0)) && u3.s3.visible == Some([]) && u3.reader.body.data == []
  {
    u1 := U.Step(StoreBytes(w, []), U.First(0));
    assert u1.pc == U.Decide(Some(Eof)) && u1.chunk == 0 && U.InHand(u1) == [];
    u2 := U.Step(u1, U.Decided);
    u3 := U.Step(u2, U.SinglePut(true, true));
  }

  /** A step of the upload in it that shows the bucket nothing. */
  lemma StoringOn(w: World, s: Sys, ls: seq<Label>, t: Sys, k: Key, u: U.Up, l: U.Label) returns (t': Sys)
    requires Pair(w, s, k) && (InitOk(w, s); Runs(w, s, ls, t)) && U.Can(u, l) && Ready(u.reader)
    requires 0 < |t.reqs| && t.reqs[0].key == k && t.reqs[0].pc.Lead? && t.reqs[0].pc.act.Storing?
    requires t.reqs[0].pc.act.u == u
    ensures (InitOk(w, s); Runs(w, s, ls + [UploadStep(0, l)], t'))
    ensures var v := U.Step(u, l);
      t' == Go(t, 0, Storing(v, t.reqs[0].pc.act.answer)).(
        store := if (l.SinglePut? || l.Completed?) && v.s3.visible.Some? then t.store[k := v.s3.visible.value]
          else t.store)
  {
    hide Inv, Runs, Init, U.Can, U.Step;
    InitOk(w, s);
    RunOn(w, s, ls, t, UploadStep(0, l));
    t' := Step(w, t, UploadStep(0, l));
  }

  /** The first request has stored the object, and is done. */
  lemma FirstCommits(w: World, s: Sys, k: Key) returns (ls: seq<Label>, t: Sys)
    requires Pair(w, s, k) && w.origin(k, [])
    ensures (InitOk(w, s); Runs(w, s, ls, t))
    ensures View(s, t, Finished(Served(s.reqs[0], [])), Lock, None, [FlightOf(s, 0, 1, 1, Ok200([]), true)], 0, true)
    ensures ls == BothLook() + [Locked(0), Acquired(0), Response(0), More(0, 1)] + Stores()
  {
    hide Inv, Runs, Init, U.Step, U.Can, StoreBytes;
    ls, t := ReadsAll(w, s, k);
    InitOk(w, s);
    RunKeeps(w, s, ls, t);
    KnowWorld(w, t);
    var u1, u2, u3 := EmptyPut(w);
    t := StoringOn(w, s, ls, t, k, StoreBytes(w, []), U.First(0));
    ls := ls + [UploadStep(0, U.First(0))];
    t := StoringOn(w, s, ls, t, k, u1, U.Decided);
    ls := ls + [UploadStep(0, U.Decided)];
    t := StoringOn(w, s, ls, t, k, u2, U.SinglePut(true, true));
    ls := ls + [UploadStep(0, U.SinglePut(true, true))];
    assert View(s, t, Lead(0, Storing(u3, Served(s.reqs[0], []))), Lock, Some(0),
      [FlightOf(s, 0, 1, 0, Ok200([]), false)], 1, true);
    ls, t := Finishes(w, s, ls, t, k, u3);
  }

  lemma KnowWorld(w: World, t: Sys)
    requires Inv(w, t)
    ensures WorldOk(w)
  {}

  function Ending(): seq<Label> { [UploadDone(0, false), Released(0), Removed(0), Closed(0)] }

  function Stores(): seq<Label> {
    [UploadStep(0, U.First(0)), UploadStep(0, U.Decided), UploadStep(0, U.SinglePut(true, true))] + Ending()
  }

  lemma Releases(w: World, s: Sys, ls: seq<Label>, t: Sys, k: Key, u: U.Up) returns (ls': seq<Label>, t': Sys)
    requires Pair(w, s, k) && (InitOk(w, s); Runs(w, s, ls, t)) && u.pc.Done? && u.pc.res.Stored?
    requires var a := Served(s.reqs[0], []);
      View(s, t, Lead(0, Storing(u, a)), Lock, Some(0), [FlightOf(s, 0, 1, 0, Ok200([]), false)], 1, true)
    ensures (InitOk(w, s); Runs(w, s, ls', t')) && ls' == ls + [UploadDone(0, false), Released(0)]
    ensures var a := Served(s.reqs[0], []);
      View(s, t', Lead(0, Remove(a)), Lock, Some(0), [FlightOf(s, 0, 1, 0, Ok200([]), true)], 0, true)
  {
    hide Inv, Runs, Init, Served;
    InitOk(w, s);
    RunOn(w, s, ls, t, UploadDone(0, false));
    var v := Step(w, t, UploadDone(0, false));
    RunOn(w, s, ls + [UploadDone(0, false)], v, Released(0));
    ls', t' := ls + [UploadDone(0, false)] + [Released(0)], Step(w, v, Released(0));
  }

  lemma Finishes(w: World, s: Sys, ls: seq<Label>, t: Sys, k: Key, u: U.Up) returns (ls': seq<Label>, t': Sys)
    requires Pair(w, s, k) && (InitOk(w, s); Runs(w, s, ls, t)) && u.pc.Done? && u.pc.res.Stored?
    requires var a := Served(s.reqs[0], []);
      View(s, t, Lead(0, Storing(u, a)), Lock, Some(0), [FlightOf(s, 0, 1, 0, Ok200([]), false)], 1, true)
    ensures (InitOk(w, s); Runs(w, s, ls', t')) && ls' == ls + Ending()
    ensures View(s, t', Finished(Served(s.reqs[0], [])), Lock, None, [FlightOf(s, 0, 1, 1, Ok200([]), true)], 0, true)
  {
    hide Inv, Runs, Init, Served;
    ls', t' := Releases(w, s, ls, t, k, u);
    InitOk(w, s);
    RunOn(w, s, ls', t', Removed(0));
    ls', t' := ls' + [Removed(0)], Step(w, t', Removed(0));
    RunOn(w, s, ls', t', Closed(0));
    ls', t' := ls' + [Closed(0)], Step(w, t', Closed(0));
  }

  /** Two requests of one replica for one key, nothing having failed: both look before
      the first commits the object, and the second takes the lock when the first is done.
      It leads, and upstream is asked again for what the store already has. */
  lemma CommittedKeyIsFetchedAgain(w: World, s: Sys, k: Key) returns (ls: seq<Label>, t: Sys)
    requires Pair(w, s, k) && w.origin(k, [])
    ensures (InitOk(w, s); Runs(w, s, ls, t))
    ensures ls ==
      BothLook() + [Locked(0), Acquired(0), Response(0), More(0, 1)] + Stores() + [Locked(1), Acquired(1), Response(1)]
    ensures k in t.store && |t.table| == 2
    ensures t.table[0] == FlightOf(s, 0, 1, 1, Ok200([]), true) && t.table[1] == FlightOf(s, 1, 1, 0, Failed, false)
  {
    hide Inv, Runs, Init;
    ls, t := FirstCommits(w, s, k);
    InitOk(w, s);
    RunOn(w, s, ls, t, Locked(1));
    ls, t := ls + [Locked(1)], Step(w, t, Locked(1));
    ls, t := Fetches(w, s, ls, t, k, 1);
  }
}
