/** The fetch slots that the pull-through and the refreshes of packuments share. */
module SharedSlots {
  import opened Common
  import Reading
  import U = Upload
  import P = PullThrough
  import S = PullThroughSafety
  import E = PullThroughEnds
  import K = Packuments
  import KE = PackumentEnds

  datatype Both = Both(pull: P.Sys, meta: K.Sys)

  datatype Label = Pull(p: P.Label) | Refresh(k: K.Label)

  /** A refresh holds a slot from before it loads its copy until upstream has answered. */
  function HoldsSlot(replica: nat): K.Flight -> nat {
    (f: K.Flight) => if f.site.0 == replica && f.phase.Asking? then 1 else 0
  }

  function Held(k: K.Sys, replica: nat): nat { Sum(k.table, HoldsSlot(replica)) }

  function Taken(s: Both, replica: nat): nat { P.Taken(s.pull, replica) + Held(s.meta, replica) }

  /** Either may do what it can, but only take a slot while one is free. */
  ghost predicate Can(w: P.World, v: K.World, s: Both, l: Label) {
    match l
    case Pull(p) => P.Can(w, s.pull, p) && (p.Acquired? ==> Taken(s, s.pull.reqs[p.i].replica) < w.maxFetches)
    case Refresh(k) => K.Can(v, s.meta, k) && (k.Loaded? ==> Taken(s, s.meta.table[k.f].site.0) < w.maxFetches)
  }

  ghost predicate Inv(w: P.World, s: Both) {
    && S.Inv(w, s.pull) && K.FlightsOk(s.meta.reqs, s.meta.flights, s.meta.table)
    && forall r: nat :: Taken(s, r) <= w.maxFetches
  }

  ghost predicate Ready(s: Both, l: Label) { l.Pull? ==> l.p.i < |s.pull.reqs| && P.ReadersReady(s.pull, l.p.i) }

  ghost function Step(w: P.World, v: K.World, s: Both, l: Label): Both
    requires Can(w, v, s, l) && Ready(s, l)
  {
    match l
    case Pull(p) => s.(pull := P.Step(w, s.pull, p))
    case Refresh(k) => s.(meta := K.Step(v, s.meta, k))
  }

  // ---------------------------------------------------------------------- the bound

  lemma GoSlots(s: P.Sys, i: nat)
    requires i < |s.reqs| && s.reqs[i].pc.Lead?
    ensures forall act :: P.Go(s, i, act).sem == s.sem
    ensures forall res, stored, act :: P.Go(P.Note(s, i, res, stored), i, act).sem == s.sem
  {}

  lemma ReadSlots(w: P.World, s: P.Sys, i: nat, room: nat)
    requires i < |s.reqs| && s.reqs[i].pc.Lead?
    requires var a := s.reqs[i].pc.act; (a.Reading? || a.Copying? || a.Draining?) && Reading.Ready(a.r)
    ensures P.ReadMore(w, s, i, room).sem == s.sem
  {
    hide P.Go, P.Note, Reading.Next, P.StoreBytes, P.Streamed, P.Served;
    GoSlots(s, i);
  }

  lemma SettleSlots(s: P.Sys, i: nat)
    requires i < |s.reqs| && s.reqs[i].pc.Lead? && s.reqs[i].pc.act.Settling?
    ensures P.Settle(s, i).sem == s.sem
  {
    hide P.Go, P.Note, P.Streamed;
    GoSlots(s, i);
  }

  lemma UploadSlots(s: P.Sys, i: nat, l: U.Label, kept: bool)
    requires i < |s.reqs| && s.reqs[i].pc.Lead? && (s.reqs[i].pc.act.Uploading? || s.reqs[i].pc.act.Storing?)
    ensures var u := s.reqs[i].pc.act.u; U.Can(u, l) && Reading.Ready(u.reader) ==> P.UploadMore(s, i, l).sem == s.sem
    ensures s.reqs[i].pc.act.u.pc.Done? ==> P.PutReturned(s, i, kept).sem == s.sem
  {
    hide U.Can, U.Step;
  }

  lemma ProbeSlots(w: P.World, s: P.Sys, i: nat, fail: bool, kept: bool, proxied: P.Answer)
    requires i < |s.reqs|
    ensures P.Probe(w, s, i, fail, kept, proxied).sem == s.sem
  {
    hide P.ProbePc;
  }

  /** Only Acquired takes one of the pull-through's. */
  lemma PullTakes(w: P.World, s: P.Sys, l: P.Label, r: nat)
    requires P.Can(w, s, l) && P.ReadersReady(s, l.i)
    ensures P.Taken(P.Step(w, s, l), r) <= P.Taken(s, r) + (if l.Acquired? && r == s.reqs[l.i].replica then 1 else 0)
  {
    hide P.Goto, P.Go, P.CountFetch, P.Note, P.StartFetched, P.Follow, P.Served, U.Can;
    hide P.ReadMore, P.UploadMore, P.PutReturned, P.Settle, P.Probe, P.JoinOrLead, P.CloseFlight;
    match l
    case Probed(i, fail, kept, proxied) => ProbeSlots(w, s, i, fail, kept, proxied);
    case More(i, room) => ReadSlots(w, s, i, room);
    case UploadStep(i, ul) => UploadSlots(s, i, ul, false);
    case UploadDone(i, kept) => UploadSlots(s, i, U.Waited, kept);
    case Settled(i) => SettleSlots(s, i);
    case FetchFailed(_) => FetchSlots(w, s, l);
    case FetchGone(_) => FetchSlots(w, s, l);
    case Fetched(_, _, _, _) => FetchSlots(w, s, l);
    case Acquired(_) => SlotTaken(w, s, l, r);
    case Released(_) => SlotTaken(w, s, l, r);
    case Locked(i) => FlightSlots(s, i);
    case Closed(i) => FlightSlots(s, i);
    case _ => PlainSlots(w, s, l);
  }

  lemma SlotTaken(w: P.World, s: P.Sys, l: P.Label, r: nat)
    requires P.Can(w, s, l) && P.ReadersReady(s, l.i) && (l.Acquired? || l.Released?)
    ensures P.Taken(P.Step(w, s, l), r) <= P.Taken(s, r) + (if l.Acquired? && r == s.reqs[l.i].replica then 1 else 0)
  {
    hide U.Can;
  }

  lemma FlightSlots(s: P.Sys, i: nat)
    requires i < |s.reqs|
    ensures P.JoinOrLead(s, i).sem == s.sem
    ensures s.reqs[i].pc.Lead? && s.reqs[i].pc.act.Close? ==> P.CloseFlight(s, i).sem == s.sem
  {}

  lemma FetchSlots(w: P.World, s: P.Sys, l: P.Label)
    requires P.Can(w, s, l) && P.ReadersReady(s, l.i) && (l.FetchFailed? || l.FetchGone? || l.Fetched?)
    ensures P.Step(w, s, l).sem == s.sem
  {
    hide P.StartFetched, U.Can, P.Go, P.CountFetch, P.Note;
    CountSlots(s, l.i);
  }

  lemma CountSlots(s: P.Sys, i: nat)
    requires i < |s.reqs| && s.reqs[i].pc.Lead?
    ensures P.CountFetch(s, i).reqs == s.reqs && P.Note(P.CountFetch(s, i), i, P.Gone, false).reqs == s.reqs
    ensures forall act :: P.Go(P.CountFetch(s, i), i, act).sem == s.sem
    ensures forall act :: P.Go(P.Note(P.CountFetch(s, i), i, P.Gone, false), i, act).sem == s.sem
  {}

  lemma PlainSlots(w: P.World, s: P.Sys, l: P.Label)
    requires P.Can(w, s, l) && P.ReadersReady(s, l.i)
    requires l.HitNeg? || l.HitMem? || l.Presigned? || l.Left? || l.Woken? || l.Looked? || l.Removed?
    ensures P.Step(w, s, l).sem == s.sem
  {
    hide P.Follow, P.Served, U.Can;
  }

  /** Only Loaded takes one of a refresh's, of its own replica. */
  lemma RefreshTakes(v: K.World, s: K.Sys, l: K.Label, r: nat)
    requires K.Can(v, s, l)
    ensures Held(K.Step(v, s, l), r) <= Held(s, r) + (if l.Loaded? && r == s.table[l.f].site.0 then 1 else 0)
  {
    hide K.Hear, K.FromStore, K.Decide, Sum;
    var t := K.Step(v, s, l);
    match l
    case Answered(f, response, now, kept) =>
      K.HearShape(v, s, f, s.table[f].phase.prev, response, now, kept);
      SumUpdate(s.table, f, t.table[f], HoldsSlot(r));
    case Loaded(f, _) => SumUpdate(s.table, f, t.table[f], HoldsSlot(r));
    case Removed(f) => SumUpdate(s.table, f, t.table[f], HoldsSlot(r));
    case Joined(i) => JoinHolds(s, i, r);
    case _ =>
  }

  lemma JoinHolds(s: K.Sys, i: nat, r: nat)
    requires i < |s.reqs| && s.reqs[i].pc.Refreshing?
    ensures Held(K.Join(s, i, s.reqs[i].pc.prev), r) == Held(s, r)
  {
    hide Sum;
    SumAppend(s.table, K.Flight(s.reqs[i].site, K.Starting(s.reqs[i].pc.prev)), HoldsSlot(r));
  }

  lemma StepKeeps(w: P.World, v: K.World, s: Both, l: Label)
    requires Inv(w, s) && Can(w, v, s, l)
    ensures Ready(s, l) && Inv(w, Step(w, v, s, l))
  {
    hide S.Inv, K.FlightsOk, P.Can, P.Step, K.Can, K.Step, P.Taken, Held, P.ReadersReady;
    match l
    case Pull(p) =>
      S.StepKeeps(w, s.pull, p);
      IndexOf(w, s.pull, p);
      forall r: nat ensures Taken(Step(w, v, s, l), r) <= w.maxFetches {
        assert Taken(s, r) <= w.maxFetches;
        PullTakes(w, s.pull, p, r);
      }
    case Refresh(k) =>
      K.StepFlights(v, s.meta, k);
      forall r: nat ensures Taken(Step(w, v, s, l), r) <= w.maxFetches {
        assert Taken(s, r) <= w.maxFetches;
        RefreshTakes(v, s.meta, k, r);
      }
  }

  lemma IndexOf(w: P.World, s: P.Sys, l: P.Label)
    requires P.Can(w, s, l)
    ensures l.i < |s.reqs|
  {
    hide U.Can;
  }

  ghost predicate Runs(w: P.World, v: K.World, s: Both, ls: seq<Label>, t: Both)
    requires Inv(w, s)
    decreases |ls|
  {
    if ls == [] then s == t
    else Can(w, v, s, ls[0]) && (StepKeeps(w, v, s, ls[0]); Runs(w, v, Step(w, v, s, ls[0]), ls[1..], t))
  }

  lemma InitOk(w: P.World, v: K.World, s: Both)
    requires S.Init(w, s.pull) && K.Init(v, s.meta)
    ensures Inv(w, s)
  {
    hide S.Inv, S.StoreOk, K.WorldOk;
    S.InitOk(w, s.pull);
  }

  /** Leaders and refreshes together never hold more slots of a replica than there are. */
  lemma {:induction false} SlotsAreBounded(w: P.World, v: K.World, s: Both, ls: seq<Label>, t: Both)
    requires Inv(w, s) && Runs(w, v, s, ls, t)
    ensures Inv(w, t) && forall r: nat :: Sum(t.pull.reqs, S.SlotOf(r)) + Held(t.meta, r) <= w.maxFetches
    decreases |ls|
  {
    hide Step, Can, K.FlightsOk, Held, S.FlightsOk, S.ContentsOk;
    if ls != [] {
      StepKeeps(w, v, s, ls[0]);
      SlotsAreBounded(w, v, Step(w, v, s, ls[0]), ls[1..], t);
    } else {
      forall r: nat ensures Sum(t.pull.reqs, S.SlotOf(r)) + Held(t.meta, r) <= w.maxFetches {
        assert P.Taken(t.pull, r) == Sum(t.pull.reqs, S.SlotOf(r)) && Taken(t, r) <= w.maxFetches;
      }
    }
  }

  // --------------------------------------------------------------- no one waits for ever

  /** If no slot is free, one that is held can be given up. */
  lemma HolderMoves(w: P.World, v: K.World, s: Both, r: nat) returns (l: Label)
    requires Inv(w, s) && Taken(s, r) >= w.maxFetches
    ensures Can(w, v, s, l) && (l.Pull? ==> !l.p.Left?) && (l.Refresh? ==> !l.k.Left? && !l.k.Forgot?)
  {
    hide K.FlightsOk, S.FlightsOk, S.ContentsOk, P.Can, Sum;
    assert w.maxFetches > 0;
    if Held(s.meta, r) > 0 {
      var f := SumWitness(s.meta.table, HoldsSlot(r));
      l := Refresh(K.Answered(f, K.Failure, 0, true));
    } else {
      assert P.Taken(s.pull, r) == Sum(s.pull.reqs, S.SlotOf(r));
      var h := SumWitness(s.pull.reqs, S.SlotOf(r));
      var p := E.LeaderCanGo(w, s.pull, h);
      l := Pull(p);
    }
  }

  /** While a request of either kind is unanswered, something can happen that is neither a
      client going away nor a copy being forgotten, slots or no slots. */
  lemma NeverStuck(w: P.World, v: K.World, s: Both) returns (l: Label)
    requires Inv(w, s)
    requires (exists i :: 0 <= i < |s.pull.reqs| && !s.pull.reqs[i].pc.Finished?)
      || (exists i :: 0 <= i < |s.meta.reqs| && !s.meta.reqs[i].pc.Done?)
    ensures Can(w, v, s, l) && (l.Pull? ==> !l.p.Left?) && (l.Refresh? ==> !l.k.Left? && !l.k.Forgot?)
  {
    hide K.FlightsOk, S.Inv, P.Can, K.Can, P.Taken, Held;
    if i :| 0 <= i < |s.pull.reqs| && !s.pull.reqs[i].pc.Finished? {
      var p := E.NeverStuck(w, s.pull, i);
      IndexOf(w, s.pull, p);
      l := Pull(p);
      if p.Acquired? && Taken(s, s.pull.reqs[p.i].replica) >= w.maxFetches {
        l := HolderMoves(w, v, s, s.pull.reqs[p.i].replica);
      }
    } else {
      var i :| 0 <= i < |s.meta.reqs| && !s.meta.reqs[i].pc.Done?;
      var k := KE.NeverStuck(v, s.meta, i);
      l := Refresh(k);
      if k.Loaded? { l := LoadedOrHolder(w, v, s, k); }
    }
  }

  lemma LoadedOrHolder(w: P.World, v: K.World, s: Both, k: K.Label) returns (l: Label)
    requires Inv(w, s) && K.Can(v, s.meta, k) && k.Loaded?
    ensures Can(w, v, s, l) && (l.Pull? ==> !l.p.Left?) && (l.Refresh? ==> !l.k.Left? && !l.k.Forgot?)
  {
    hide K.FlightsOk, S.Inv, P.Can, P.Taken, Held;
    l := Refresh(k);
    var r := s.meta.table[k.f].site.0;
    if Taken(s, r) >= w.maxFetches { l := HolderMoves(w, v, s, r); }
  }

  /** When nothing else can happen, every request of either kind has been answered. */
  lemma EndedIsAnswered(w: P.World, v: K.World, s: Both, ls: seq<Label>, t: Both)
    requires Inv(w, s) && Runs(w, v, s, ls, t)
    requires forall l | Can(w, v, t, l) :: (l.Pull? && l.p.Left?) || (l.Refresh? && (l.k.Left? || l.k.Forgot?))
    ensures forall i | 0 <= i < |t.pull.reqs| :: t.pull.reqs[i].pc.Finished?
    ensures forall i | 0 <= i < |t.meta.reqs| :: t.meta.reqs[i].pc.Done?
  {
    hide Inv, Runs, Can;
    SlotsAreBounded(w, v, s, ls, t);
    if (exists i :: 0 <= i < |t.pull.reqs| && !t.pull.reqs[i].pc.Finished?)
      || (exists i :: 0 <= i < |t.meta.reqs| && !t.meta.reqs[i].pc.Done?)
    {
      var l := NeverStuck(w, v, t);
    }
  }

  /** And every run ends. */
  lemma {:induction false} EveryRunEnds(w: P.World, v: K.World, run: nat -> Both, labels: nat -> Label, from: nat)
    returns (n: nat)
    requires Inv(w, run(from))
    ensures n >= from && Inv(w, run(n))
    ensures !(Can(w, v, run(n), labels(n)) && Ready(run(n), labels(n)) && run(n + 1) == Step(w, v, run(n), labels(n)))
    decreases E.W1(run(from).pull), E.W2(run(from).pull), E.W3(run(from).pull), KE.Rank(run(from).meta)
  {
    hide S.Inv, K.FlightsOk, P.Can, P.Step, K.Can, K.Step, E.W1, E.W2, E.W3, KE.Rank, P.Taken, Held, P.ReadersReady;
    n := from;
    if Can(w, v, run(from), labels(from)) {
      StepKeeps(w, v, run(from), labels(from));
      match labels(from) {
        case Pull(p) => E.StepCloser(w, run(from).pull, p);
        case Refresh(k) => KE.StepLess(v, run(from).meta, k);
      }
      if run(from + 1) == Step(w, v, run(from), labels(from)) { n := EveryRunEnds(w, v, run, labels, from + 1); }
    }
  }
}
