/** Every request is answered: no run goes on for ever, and none gets stuck. */
module PullThroughEnds {
  import opened Common
  import opened Reading
  import U = Upload
  import opened PullThrough
  import opened PullThroughSafety

  // ------------------------------------------------------ every request is answered

  /** May still start a flight, or has one listed. */
  function Pending(q: Req): nat {
    if q.pc.Arrive? || q.pc.Lock? || q.pc.Waiting? || Leads(q) then 1 else 0
  }

  /** Flights that can still end. */
  function Supply(s: Sys): nat { Sum(s.reqs, Pending) }

  /** How far a request that does not lead is from its answer; each time it comes
      back to the lock a flight has ended meanwhile. */
  function Distance(supply: nat, flights: map<Site, nat>): Req -> nat {
    (q: Req) =>
      match q.pc
      case Arrive => 2 * supply + 4
      case Presign => 1
      case Lock => 2 * supply + 1
      case Waiting(f) => if SiteOf(q) in flights && flights[SiteOf(q)] == f then 2 * supply else 2 * supply + 2
      case Lead(_, _) => 0
      case Finished(_) => 0
  }

  function ToFetch(q: Req): nat {
    if !q.pc.Lead? then 0 else
    match q.pc.act case Queued => 3 case Expecting => 2 case Fetching(_, _) => 1 case _ => 0
  }

  function ToEnd(q: Req): nat { if q.pc.Lead? then ActToEnd(q.pc.act) else 0 }

  function ActToEnd(act: Act): nat {
    match act
    case Reading(r) => if Ready(r) then 40 * |r.body.data| + 80 + Fuel(r) else 0
    case Storing(u, _) => if Ready(u.reader) then 10 + U.Rank(u) else 0
    case Copying(r) => if Ready(r) then 5 + Fuel(r) else 0
    case Uploading(u) => if Ready(u.reader) then 10 + U.Rank(u) else 0
    case Draining(r) => if Ready(r) then 5 + Fuel(r) else 0
    case Settling(_, _) => 4
    case Release(_) => 3
    case Remove(_) => 2
    case Close(_) => 1
    case _ => 0
  }

  ghost function W1(s: Sys): nat { Sum(s.reqs, Distance(Supply(s), s.flights)) }
  ghost function W2(s: Sys): nat { Sum(s.reqs, ToFetch) }
  ghost function W3(s: Sys): nat { Sum(s.reqs, ToEnd) }

  lemma {:induction false} SumLess<T>(a: seq<T>, b: seq<T>, f: T -> nat, g: T -> nat, i: nat)
    requires |a| == |b| && i < |a| && forall j | 0 <= j < |a| :: f(a[j]) <= g(b[j])
    ensures Sum(a, f) <= Sum(b, g)
    ensures f(a[i]) < g(b[i]) ==> Sum(a, f) < Sum(b, g)
  {
    var last := |a| - 1;
    if last > 0 { SumLess(a[..last], b[..last], f, g, if i < last then i else 0); }
  }

  ghost predicate Closer(s: Sys, t: Sys) {
    W1(t) < W1(s) || (W1(t) == W1(s) && (W2(t) < W2(s) || (W2(t) == W2(s) && W3(t) < W3(s))))
  }

  /** A request that leads nothing comes closer. */
  lemma PlainCloser(s: Sys, t: Sys, i: nat)
    requires i < |s.reqs| == |t.reqs| && t.reqs == s.reqs[i := t.reqs[i]] && t.flights == s.flights
    requires Pending(t.reqs[i]) <= Pending(s.reqs[i])
    requires Distance(Supply(s), s.flights)(t.reqs[i]) < Distance(Supply(s), s.flights)(s.reqs[i])
    ensures W1(t) < W1(s)
  {
    SumUpdate(s.reqs, i, t.reqs[i], Pending);
    SumLess(t.reqs, s.reqs, Distance(Supply(t), t.flights), Distance(Supply(s), s.flights), i);
  }

  /** A request takes the lead, the flight it starts being the newest. */
  lemma StartCloser(s: Sys, i: nat)
    requires FlightsOk(s) && i < |s.reqs| && s.reqs[i].pc == Lock && SiteOf(s.reqs[i]) !in s.flights
    ensures W1(JoinOrLead(s, i)) < W1(s)
  {
    var t := JoinOrLead(s, i);
    SumUpdate(s.reqs, i, t.reqs[i], Pending);
    forall j | 0 <= j < |s.reqs|
      ensures Distance(Supply(t), t.flights)(t.reqs[j]) <= Distance(Supply(s), s.flights)(s.reqs[j])
    {
      assert ReqOk(s.flights, s.table, s.reqs[j], j);
    }
    SumLess(t.reqs, s.reqs, Distance(Supply(t), t.flights), Distance(Supply(s), s.flights), i);
  }

  /** A leader goes on; who waits for it is no further away. */
  lemma LeaderCloser(s: Sys, t: Sys, i: nat)
    requires i < |s.reqs| == |t.reqs| && t.reqs == s.reqs[i := t.reqs[i]] && s.reqs[i].pc.Lead?
    requires t.reqs[i].pc.Lead? || t.reqs[i].pc.Finished?
    requires t.flights == s.flights && Pending(t.reqs[i]) == Pending(s.reqs[i])
    requires ToFetch(t.reqs[i]) < ToFetch(s.reqs[i]) ||
      (ToFetch(t.reqs[i]) == ToFetch(s.reqs[i]) && ToEnd(t.reqs[i]) < ToEnd(s.reqs[i]))
    ensures Closer(s, t)
  {
    hide ToEnd;
    SumUpdate(s.reqs, i, t.reqs[i], Pending);
    SumUpdate(s.reqs, i, t.reqs[i], ToFetch);
    SumUpdate(s.reqs, i, t.reqs[i], ToEnd);
    SumLess(t.reqs, s.reqs, Distance(Supply(t), t.flights), Distance(Supply(s), s.flights), i);
  }

  /** A flight is unlisted: that is what pays for its followers coming back. */
  lemma RemoveCloser(s: Sys, i: nat)
    requires FlightsOk(s) && i < |s.reqs| && s.reqs[i].pc.Lead? && s.reqs[i].pc.act.Remove?
    ensures Closer(s, Go(s, i, Close(s.reqs[i].pc.act.answer)).(flights := s.flights - {SiteOf(s.reqs[i])}))
  {
    hide FlightsOk, Sum;
    var t := Go(s, i, Close(s.reqs[i].pc.act.answer)).(flights := s.flights - {SiteOf(s.reqs[i])});
    SumUpdate(s.reqs, i, t.reqs[i], Pending);
    assert Supply(t) == Supply(s) - 1;
    SumUpdate(s.reqs, i, t.reqs[i], ToFetch);
    SumUpdate(s.reqs, i, t.reqs[i], ToEnd);
    forall j | 0 <= j < |s.reqs|
      ensures Distance(Supply(t), t.flights)(t.reqs[j]) <= Distance(Supply(s), s.flights)(s.reqs[j])
    {
    }
    SumLess(t.reqs, s.reqs, Distance(Supply(t), t.flights), Distance(Supply(s), s.flights), i);
  }

  lemma StoreRank(w: World, body: seq<byte>)
    ensures ActToEnd(Storing(StoreBytes(w, body), Aborted)) <= 40 * |body| + 31
  {}

  lemma ReadCloser(w: World, s: Sys, l: Label)
    requires Inv(w, s) && Can(w, s, l) && ReadersReady(s, l.i) && l.More?
    ensures Closer(s, ReadMore(w, s, l.i, l.room))
  {
    hide Inv, Next, Sum, Closer, StoreBytes, ActToEnd, Fuel, Same, LeaderKnown, FromOrigin;
    var i, t := l.i, ReadMore(w, s, l.i, l.room);
    var r := s.reqs[i].pc.act.r;
    MoreShrinks(w, s, l);
    var res := Next(r, l.room);
    ReadShape(w, s, i, res, t);
    ReadRank(w, r, res.reader, s.reqs[i].pc.act, t.reqs[i].pc.act);
    LeaderCloser(s, t, i);
  }

  lemma MoreShrinks(w: World, s: Sys, l: Label)
    requires Inv(w, s) && Can(w, s, l) && ReadersReady(s, l.i) && l.More?
    ensures var r := s.reqs[l.i].pc.act.r; var r' := Next(r, l.room).reader;
      Ok(r) && Ok(r') && r.body.data == r'.body.data && Fuel(r') < Fuel(r)
  {
    hide Inv, Next, Verdict, Matches, U.Inv;
    Know(w, s, l.i);
    ReadKeeps(s.reqs[l.i].pc.act.r, l.room);
  }

  /** Request i leads on with act'; the flights are as they were. */
  ghost predicate WentOn(s: Sys, t: Sys, i: nat, act': Act)
    requires i < |s.reqs| && s.reqs[i].pc.Lead?
  {
    t.flights == s.flights && t.reqs == s.reqs[i := s.reqs[i].(pc := Lead(s.reqs[i].pc.f, act'))]
  }

  lemma SmallReadShape(w: World, s: Sys, i: nat, res: ReadResult)
    requires i < |s.reqs| && s.reqs[i].pc.Lead? && res.reader.n <= |res.reader.body.data|
    ensures var t, r := SmallRead(w, s, i, res), res.reader;
      WentOn(s, t, i, Release(BadGateway)) || WentOn(s, t, i, Reading(r)) ||
      WentOn(s, t, i, Storing(StoreBytes(w, r.body.data[..r.n]), Served(s.reqs[i], r.body.data[..r.n])))
  {
    hide StoreBytes, Served;
  }

  lemma LargeReadShape(s: Sys, i: nat, res: ReadResult)
    requires i < |s.reqs| && s.reqs[i].pc.Lead?
    ensures var r, t := res.reader, PassedRead(s, i, res);
      WentOn(s, t, i, Copying(r)) || WentOn(s, t, i, Release(Streamed(r))) || WentOn(s, t, i, Release(Aborted))
    ensures var r, t := res.reader, DrainedRead(s, i, res);
      WentOn(s, t, i, Draining(r)) || WentOn(s, t, i, Settling(r, false))
  {
    hide Streamed;
  }

  lemma ReadShape(w: World, s: Sys, i: nat, res: ReadResult, t: Sys)
    requires i < |s.reqs| && s.reqs[i].pc.Lead? && res.reader.n <= |res.reader.body.data|
    requires var a := s.reqs[i].pc.act;
      (a.Reading? && t == SmallRead(w, s, i, res)) || (a.Copying? && t == PassedRead(s, i, res)) ||
        (a.Draining? && t == DrainedRead(s, i, res))
    ensures |t.reqs| == |s.reqs| && t.reqs[i].pc.Lead? && WentOn(s, t, i, t.reqs[i].pc.act)
    ensures var act, act', r' := s.reqs[i].pc.act, t.reqs[i].pc.act, res.reader;
      act'.Release? || act'.Settling? || (act.Reading? && act' == Reading(r')) || (act.Copying? && act' == Copying(r'))
         || (act.Draining? && act' == Draining(r')) ||
           (act.Reading? && act'.Storing? && act'.u == StoreBytes(w, r'.body.data[..r'.n]))
  {
    hide StoreBytes, SmallRead, PassedRead, DrainedRead, Served, Streamed;
    if s.reqs[i].pc.act.Reading? { SmallReadShape(w, s, i, res); } else { LargeReadShape(s, i, res); }
  }

  lemma ReadRank(w: World, r: Reader, r': Reader, act: Act, act': Act)
    requires Ok(r) && Ok(r') && r.body.data == r'.body.data && Fuel(r') < Fuel(r)
    requires act == Reading(r) || act == Copying(r) || act == Draining(r)
    requires act'.Release? || act'.Settling? || (act.Reading? && act' == Reading(r')) ||
      (act.Copying? && act' == Copying(r'))
      || (act.Draining? && act' == Draining(r')) ||
        (act.Reading? && act'.Storing? && act'.u == StoreBytes(w, r'.body.data[..r'.n]))
    ensures ActToEnd(act') < ActToEnd(act)
  {
    if act'.Storing? {
      StoreRank(w, r'.body.data[..r'.n]);
      SameRank(act'.u, act'.answer, Aborted);
    }
  }

  lemma SameRank(u: U.Up, a: Answer, b: Answer)
    ensures ActToEnd(Storing(u, a)) == ActToEnd(Storing(u, b))
  {}

  lemma UploadCloser(w: World, s: Sys, l: Label)
    requires Inv(w, s) && Can(w, s, l) && ReadersReady(s, l.i) && l.UploadStep?
    ensures Closer(s, UploadMore(s, l.i, l.l))
  {
    hide Inv, U.Inv, U.Step, U.Can, U.Rank, Ready, Sum, Closer;
    Know(w, s, l.i);
    var u := s.reqs[l.i].pc.act.u;
    U.StepShrinks(u, l.l);
    LeaderCloser(s, UploadMore(s, l.i, l.l), l.i);
  }

  lemma PutShape(s: Sys, i: nat, u: U.Up, answer: Answer, kept: bool)
    requires i < |s.reqs| && s.reqs[i].pc.Lead? && u.pc.Done?
    ensures WentOn(s, LargePut(s, i, u), i, Draining(u.reader)) ||
      WentOn(s, LargePut(s, i, u), i, Settling(u.reader, u.pc.res.Stored?))
    ensures WentOn(s, SmallPut(s, i, u, answer, kept), i, Release(answer))
  {}

  lemma UploadDoneCloser(w: World, s: Sys, l: Label)
    requires Inv(w, s) && Can(w, s, l) && ReadersReady(s, l.i) && l.UploadDone?
    ensures Closer(s, PutReturned(s, l.i, l.kept))
  {
    hide Inv, Sum, Closer, ActToEnd, LargePut, SmallPut;
    var act, t := s.reqs[l.i].pc.act, PutReturned(s, l.i, l.kept);
    PutShape(s, l.i, act.u, if act.Storing? then act.answer else Aborted, l.kept);
    UploadDoneRank(act, t.reqs[l.i].pc.act);
    LeaderCloser(s, t, l.i);
  }

  lemma UploadDoneRank(act: Act, act': Act)
    requires (act.Uploading? || act.Storing?) && Ready(act.u.reader)
    requires act'.Settling? || act'.Release? || act' == Draining(act.u.reader)
    ensures ActToEnd(act') < ActToEnd(act)
  {
    hide Sum, Fuel;
  }

  lemma EndRanks(act: Act, act': Act)
    requires act.Settling? && act'.Release?
    ensures ActToEnd(act') < ActToEnd(act)
  {}

  lemma SettleShape(s: Sys, i: nat)
    requires i < |s.reqs| && s.reqs[i].pc.Lead? && s.reqs[i].pc.act.Settling?
    ensures WentOn(s, Settle(s, i), i, Release(Streamed(s.reqs[i].pc.act.r))) ||
      WentOn(s, Settle(s, i), i, Release(Aborted))
  {
    hide Streamed;
  }

  lemma SettledCloser(w: World, s: Sys, i: nat)
    requires Inv(w, s) && Can(w, s, Settled(i))
    ensures Closer(s, Settle(s, i))
  {
    hide Inv, Sum, Closer, ActToEnd, Streamed, Settle;
    SettleShape(s, i);
    EndRanks(s.reqs[i].pc.act, Settle(s, i).reqs[i].pc.act);
    LeaderCloser(s, Settle(s, i), i);
  }

  lemma DeferredCloser(w: World, s: Sys, l: Label)
    requires Inv(w, s) && Can(w, s, l) && ReadersReady(s, l.i) && (l.Released? || l.Closed?)
    ensures Closer(s, Step(w, s, l))
  {
    hide Inv, Sum, Closer;
    LeaderCloser(s, Step(w, s, l), l.i);
  }

  lemma FetchShape(s: Sys, i: nat, res: Res, act: Act)
    requires i < |s.reqs| && s.reqs[i].pc.Lead?
    ensures WentOn(s, Go(CountFetch(s, i), i, act), i, act)
    ensures WentOn(s, Go(Note(CountFetch(s, i), i, res, false), i, act), i, act)
  {}

  lemma FetchCloser(w: World, s: Sys, l: Label)
    requires Inv(w, s) && Can(w, s, l) && ReadersReady(s, l.i) && (l.FetchFailed? || l.FetchGone? || l.Fetched?)
    ensures Closer(s, Step(w, s, l))
  {
    hide Inv, Sum, Closer, ActToEnd, StartFetched, CountFetch, Note, Go;
    var i, t := l.i, Step(w, s, l);
    if l.Fetched? { FetchedAct(w, s.reqs[i], l); }
    FetchShape(s, i, Gone, if l.Fetched? then StartFetched(w, s.reqs[i], l.body, l.want, l.moods)
      else if l.FetchGone? then Release(NotFound) else Release(BadGateway));
    LeaderCloser(s, t, i);
  }

  lemma EarlyCloser(w: World, s: Sys, l: Label)
    requires Inv(w, s) && Can(w, s, l) && ReadersReady(s, l.i) && s.reqs[l.i].pc.Lead?
    requires l.Acquired? || l.Looked? || l.Left?
    ensures Closer(s, Step(w, s, l))
  {
    hide Inv, Sum, Closer, ActToEnd;
    LeaderCloser(s, Step(w, s, l), l.i);
  }

  /** Every step of every request brings the whole system closer to rest. */
  lemma StepCloser(w: World, s: Sys, l: Label)
    requires Inv(w, s) && Can(w, s, l)
    ensures ReadersReady(s, l.i) && Closer(s, Step(w, s, l))
  {
    hide Closer, Sum, ContentsOk, SlotsOk, FlightsOk, JoinOrLead, U.Can;
    InvReaders(w, s, l.i);
    var i := l.i;
    match l
    case Locked(_) => LockedCloser(s, i);
    case More(_, _) => ReadCloser(w, s, l);
    case UploadStep(_, _) => UploadCloser(w, s, l);
    case UploadDone(_, _) => UploadDoneCloser(w, s, l);
    case Removed(_) => RemoveCloser(s, i);
    case Acquired(_) => EarlyCloser(w, s, l);
    case Looked(_, _) => EarlyCloser(w, s, l);
    case FetchFailed(_) => FetchCloser(w, s, l);
    case FetchGone(_) => FetchCloser(w, s, l);
    case Fetched(_, _, _, _) => FetchCloser(w, s, l);
    case Settled(_) => SettledCloser(w, s, i);
    case Released(_) => DeferredCloser(w, s, l);
    case Closed(_) => DeferredCloser(w, s, l);
    case Woken(_) => WokenCloser(w, s, i);
    case Probed(_, _, _, _) => ProbedCloser(w, s, l);
    case Left(_) => if s.reqs[i].pc.Lead? { EarlyCloser(w, s, l); } else { PlainLabelCloser(w, s, l); }
    case _ => PlainLabelCloser(w, s, l);
  }

  lemma LockedCloser(s: Sys, i: nat)
    requires FlightsOk(s) && i < |s.reqs| && s.reqs[i].pc == Lock
    ensures Closer(s, JoinOrLead(s, i))
  {
    hide Closer, Sum;
    if SiteOf(s.reqs[i]) in s.flights { PlainCloser(s, JoinOrLead(s, i), i); } else { StartCloser(s, i); }
    CloserW1(s, JoinOrLead(s, i));
  }

  lemma CloserW1(s: Sys, t: Sys)
    requires W1(t) < W1(s)
    ensures Closer(s, t)
  {}

  lemma PlainLabelCloser(w: World, s: Sys, l: Label)
    requires Inv(w, s) && Can(w, s, l) && ReadersReady(s, l.i)
    requires l.HitNeg? || l.HitMem? || l.Presigned? || (l.Left? && s.reqs[l.i].pc.Waiting?)
    ensures Closer(s, Step(w, s, l))
  {
    hide Inv, Sum, Closer;
    SumTerm(s.reqs, l.i, Pending);
    PlainCloser(s, Step(w, s, l), l.i);
    CloserW1(s, Step(w, s, l));
  }

  lemma ProbedCloser(w: World, s: Sys, l: Label)
    requires Can(w, s, l) && l.Probed?
    ensures Closer(s, Probe(w, s, l.i, l.fail, l.kept, l.proxied))
  {
    hide Sum, Closer, Served;
    var t := Probe(w, s, l.i, l.fail, l.kept, l.proxied);
    PlainCloser(s, t, l.i);
    CloserW1(s, t);
  }

  lemma WokenCloser(w: World, s: Sys, i: nat)
    requires Inv(w, s) && Can(w, s, Woken(i))
    ensures Closer(s, Goto(s, i, Follow(w, s.reqs[i], s.table[s.reqs[i].pc.f])))
  {
    hide Sum, Closer, ContentsOk, SlotsOk;
    var t := Goto(s, i, Follow(w, s.reqs[i], s.table[s.reqs[i].pc.f]));
    ClosedIsUnlisted(s, i);
    PlainCloser(s, t, i);
    CloserW1(s, t);
  }

  /** A closed flight is no longer listed. */
  lemma ClosedIsUnlisted(s: Sys, i: nat)
    requires FlightsOk(s) && i < |s.reqs| && s.reqs[i].pc.Waiting? && s.reqs[i].pc.f < |s.table|
    requires s.table[s.reqs[i].pc.f].closes > 0
    ensures SiteOf(s.reqs[i]) in s.flights ==> s.flights[SiteOf(s.reqs[i])] != s.reqs[i].pc.f
  {
    var f := s.reqs[i].pc.f;
    assert FlightOk(s.reqs, s.table[f], f);
    if SiteOf(s.reqs[i]) in s.flights {
      assert SiteOk(s.reqs, s.table, SiteOf(s.reqs[i]), s.flights[SiteOf(s.reqs[i])]);
    }
  }

  /** No run goes on for ever: whatever labels are tried, at some point the next one
      is not possible. So followers that come back to the lock finish too. */
  lemma {:induction false} EveryRunEnds(w: World, run: nat -> Sys, labels: nat -> Label, from: nat) returns (n: nat)
    requires Inv(w, run(from))
    ensures n >= from && Inv(w, run(n))
    ensures !(Can(w, run(n), labels(n)) && ReadersReady(run(n), labels(n).i) &&
      run(n + 1) == Step(w, run(n), labels(n)))
    decreases W1(run(from)), W2(run(from)), W3(run(from))
  {
    hide Inv, Can, Step, W1, W2, W3, ReadersReady;
    if Can(w, run(from), labels(from)) {
      StepCloser(w, run(from), labels(from));
      StepKeeps(w, run(from), labels(from));
      if run(from + 1) == Step(w, run(from), labels(from)) {
        n := EveryRunEnds(w, run, labels, from + 1);
      } else { n := from; }
    } else { n := from; }
  }

  /** A leader's upload goes on, or its Put returns. */
  lemma UploaderCanGo(w: World, s: Sys, j: nat, u: U.Up) returns (l: Label)
    requires j < |s.reqs| && s.reqs[j].pc.Lead? && U.Inv(u)
    requires var a := s.reqs[j].pc.act; (a.Uploading? || a.Storing?) && a.u == u
    ensures Can(w, s, l) && !l.Left? && !l.Acquired?
  {
    hide U.Inv, U.Can;
    if u.pc.Done? {
      l := UploadDone(j, true);
    } else {
      var ul := U.NeverStuck(u);
      l := UploadStep(j, ul);
    }
  }

  /** What a leader that is not waiting for a slot does next. */
  lemma LeaderCanGo(w: World, s: Sys, j: nat) returns (l: Label)
    requires Inv(w, s) && j < |s.reqs| && s.reqs[j].pc.Lead? && s.reqs[j].pc.act != Queued
    ensures Can(w, s, l) && !l.Left? && !l.Acquired?
  {
    hide FlightsOk, SlotsOk, U.Inv, U.Can, StoreOk, MemOk, FromOrigin, AnswerOk, Announced;
    var q := s.reqs[j];
    assert PcOk(w, s.store.Keys, q);
    match q.pc.act
    case Expecting => l := Looked(j, LookNone);
    case Fetching(_, _) => l := FetchFailed(j);
    case Reading(_) => l := More(j, 1);
    case Storing(u, _) => l := UploaderCanGo(w, s, j, u);
    case Copying(_) => l := More(j, 1);
    case Uploading(u) => l := UploaderCanGo(w, s, j, u);
    case Draining(_) => l := More(j, 1);
    case Settling(_, _) => l := Settled(j);
    case Release(_) => l := Released(j);
    case Remove(_) => l := Removed(j);
    case Close(_) => l := Closed(j);
  }

  lemma QueueMoves(w: World, s: Sys, j: nat) returns (l: Label)
    requires Inv(w, s) && j < |s.reqs| && s.reqs[j].pc.Lead? && s.reqs[j].pc.act == Queued
    ensures Can(w, s, l) && !l.Left?
  {
    hide FlightsOk, ContentsOk;
    var p := s.reqs[j].replica;
    if Taken(s, p) < w.maxFetches { l := Acquired(j); } else {
      assert Taken(s, p) == Sum(s.reqs, SlotOf(p));
      var h := SumWitness(s.reqs, SlotOf(p));
      l := LeaderCanGo(w, s, h);
    }
  }

  /** No deadlock: while any request is unanswered something can happen that is not
      a client giving up. */
  lemma NeverStuck(w: World, s: Sys, i: nat) returns (l: Label)
    requires Inv(w, s) && i < |s.reqs| && !s.reqs[i].pc.Finished?
    ensures Can(w, s, l) && !l.Left?
  {
    hide SlotsOk, ContentsOk;
    match s.reqs[i].pc
    case Arrive => l := Probed(i, false, true, BadGateway);
    case Presign => l := Presigned(i, true);
    case Lock => l := Locked(i);
    case Waiting(f) =>
      WaitingSite(s, i);
      assert FlightOk(s.reqs, s.table[f], f);
      var j := s.table[f].leader;
      if s.table[f].closes > 0 { l := Woken(i); }
      else if s.reqs[j].pc.act == Queued { l := QueueMoves(w, s, j); }
      else { l := LeaderCanGo(w, s, j); }
    case Lead(_, act) => if act == Queued { l := QueueMoves(w, s, i); } else { l := LeaderCanGo(w, s, i); }
  }
}
