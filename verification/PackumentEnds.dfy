/** Every refresh ends, and whoever waits for one is answered. */
module PackumentEnds {
  import opened Common
  import opened Packuments
  import F = PackumentFrame

  function ReqRank(q: Req): nat {
    match q.pc case Arrive => 8 case Refreshing(_) => 7 case Waiting(_) => 1 case Done(_) => 0
  }

  function FlightRank(f: Flight): nat {
    match f.phase case Starting(_) => 5 case Asking(_) => 4 case Removing(_) => 1 case Closed(_) => 0
  }

  /** How much can still happen. */
  function Rank(s: Sys): nat { Sum(s.reqs, ReqRank) + Sum(s.table, FlightRank) + |s.saves| + |s.mem| }

  lemma GotoRank(s: Sys, i: nat, pc: Pc)
    requires i < |s.reqs|
    ensures Rank(Goto(s, i, pc)) + ReqRank(s.reqs[i]) == Rank(s) + ReqRank(Req(s.reqs[i].site, pc))
  {
    SumUpdate(s.reqs, i, Req(s.reqs[i].site, pc), ReqRank);
  }

  lemma EnterRank(s: Sys, f: nat, phase: Phase)
    requires f < |s.table|
    ensures Rank(Enter(s, f, phase)) + FlightRank(s.table[f]) == Rank(s) + FlightRank(Flight(s.table[f].site, phase))
  {
    SumUpdate(s.table, f, Flight(s.table[f].site, phase), FlightRank);
  }

  lemma JoinRank(s: Sys, i: nat)
    requires i < |s.reqs| && s.reqs[i].pc.Refreshing?
    ensures Rank(Join(s, i, s.reqs[i].pc.prev)) < Rank(s)
  {
    hide Sum;
    var t, site := Join(s, i, s.reqs[i].pc.prev), s.reqs[i].site;
    SumUpdate(s.reqs, i, t.reqs[i], ReqRank);
    if site !in s.flights { SumAppend(s.table, Flight(site, Starting(s.reqs[i].pc.prev)), FlightRank); }
  }

  lemma RememberSize(s: Sys, site: Site, e: Entry, kept: bool)
    ensures var t := Remember(s, site, e, kept);
      |t.mem| <= |s.mem| + 1 && t.reqs == s.reqs && t.table == s.table && t.saves == s.saves
  {
    assert s.mem[site := e].Keys == s.mem.Keys + {site};
    assert |s.mem[site := e].Keys| <= |s.mem.Keys| + 1;
  }

  /** An answer is one entry more, and one save more, at the most. */
  lemma HearRank(w: World, s: Sys, f: nat, response: Response, now: int, kept: bool)
    requires f < |s.table| && s.table[f].phase.Asking?
    ensures Rank(Hear(w, s, f, s.table[f].phase.prev, response, now, kept)) < Rank(s)
  {
    hide Sum, Remember, F.Frame, DocOf, Changed;
    var prev := s.table[f].phase.prev;
    var t := Hear(w, s, f, prev, response, now, kept);
    forall site, e ensures var u := Remember(s, site, e, kept);
      |u.mem| <= |s.mem| + 1 && u.reqs == s.reqs && u.table == s.table && u.saves == s.saves
    {
      RememberSize(s, site, e, kept);
    }
    assert t.reqs == s.reqs && |t.mem| <= |s.mem| + 1 && |t.saves| <= |s.saves| + 1;
    assert t.table == s.table[f := t.table[f]] && t.table[f].phase.Removing?;
    SumUpdate(s.table, f, t.table[f], FlightRank);
  }

  lemma RemoveRank(s: Sys, f: nat)
    requires f < |s.table| && s.table[f].phase.Removing?
    ensures Rank(Remove(s, f)) < Rank(s)
  {
    hide Sum;
    SumUpdate(s.table, f, Flight(s.table[f].site, Closed(s.table[f].phase.res)), FlightRank);
  }

  lemma SaveRank(w: World, s: Sys, j: nat, applied: bool)
    requires j < |s.saves|
    ensures Rank(Save(w, s, j, applied)) < Rank(s)
  {
    hide Sum, F.Frame;
  }

  lemma ForgetRank(s: Sys, site: Site)
    requires site in s.mem
    ensures Rank(s.(mem := s.mem - {site})) < Rank(s)
  {
    hide Sum;
    assert (s.mem - {site}).Keys == s.mem.Keys - {site};
    assert |(s.mem - {site}).Keys| == |s.mem.Keys| - 1;
  }

  /** Every step, forgetting included, leaves less that can happen. */
  lemma StepLess(w: World, s: Sys, l: Label)
    requires Can(w, s, l)
    ensures Rank(Step(w, s, l)) < Rank(s)
  {
    hide Rank, Hear, Join, Remove, Save, Goto, Enter, FromStore;
    match l
    case NegHit(i) => GotoRank(s, i, Done(NotFound));
    case Arrived(i, now, forgotten) => GotoRank(s, i, Decide(w, s, i, now, forgotten));
    case Joined(i) => JoinRank(s, i);
    case Left(i) => GotoRank(s, i, Done(Lost));
    case Woken(i) => GotoRank(s, i, Done(s.table[s.reqs[i].pc.f].phase.res));
    case Loaded(f, fail) =>
      var prev := s.table[f].phase.prev;
      EnterRank(s, f, Asking(if prev.Some? then prev else FromStore(w, s, s.table[f].site.1, fail)));
    case Answered(f, response, now, kept) => HearRank(w, s, f, response, now, kept);
    case Removed(f) => RemoveRank(s, f);
    case Saved(j, applied) => SaveRank(w, s, j, applied);
    case Forgot(site) => ForgetRank(s, site);
  }

  /** So refreshes end: a run is no longer than that. */
  lemma {:induction false} RunsAreBounded(w: World, s: Sys, ls: seq<Label>, t: Sys)
    requires Runs(w, s, ls, t)
    ensures |ls| + Rank(t) <= Rank(s)
    decreases |ls|
  {
    hide Can, Step, Rank;
    if ls != [] {
      StepLess(w, s, ls[0]);
      RunsAreBounded(w, Step(w, s, ls[0]), ls[1..], t);
    }
  }

  /** While a request has no answer something can happen that is neither a client going
      away nor a copy being forgotten. */
  lemma NeverStuck(w: World, s: Sys, i: nat) returns (l: Label)
    requires FlightsOk(s.reqs, s.flights, s.table) && i < |s.reqs| && !s.reqs[i].pc.Done?
    ensures Can(w, s, l) && !l.Left? && !l.Forgot?
  {
    match s.reqs[i].pc
    case Arrive => l := Arrived(i, 0, false);
    case Refreshing(_) => l := Joined(i);
    case Waiting(f) =>
      match s.table[f].phase
      case Starting(_) => l := Loaded(f, false);
      case Asking(_) => l := Answered(f, Failure, 0, true);
      case Removing(_) => l := Removed(f);
      case Closed(_) => l := Woken(i);
  }

  lemma {:induction false} RunFlights(w: World, s: Sys, ls: seq<Label>, t: Sys)
    requires FlightsOk(s.reqs, s.flights, s.table) && Runs(w, s, ls, t)
    ensures FlightsOk(t.reqs, t.flights, t.table)
    decreases |ls|
  {
    hide FlightsOk, Can, Step;
    if ls != [] {
      StepFlights(w, s, ls[0]);
      RunFlights(w, Step(w, s, ls[0]), ls[1..], t);
    }
  }

  /** Every run, wherever it goes, comes to where nothing can happen but clients going away
      and copies being forgotten, and then every request has been answered. */
  lemma EndedIsAnswered(w: World, s: Sys, ls: seq<Label>, t: Sys)
    requires FlightsOk(s.reqs, s.flights, s.table) && Runs(w, s, ls, t)
    ensures |ls| + Rank(t) <= Rank(s)
    ensures (forall l | Can(w, t, l) :: l.Left? || l.Forgot?) ==> forall i | 0 <= i < |t.reqs| :: t.reqs[i].pc.Done?
  {
    hide FlightsOk, Runs, Can, Rank;
    RunsAreBounded(w, s, ls, t);
    RunFlights(w, s, ls, t);
    if i :| 0 <= i < |t.reqs| && !t.reqs[i].pc.Done? { var l := NeverStuck(w, t, i); }
  }

  /** Such a run there always is: every run can be taken on to one in which every request is answered. */
  lemma {:induction false} AllAreAnswered(w: World, s: Sys) returns (ls: seq<Label>, t: Sys)
    requires FlightsOk(s.reqs, s.flights, s.table)
    ensures Runs(w, s, ls, t) && (forall i | 0 <= i < |t.reqs| :: t.reqs[i].pc.Done?)
    ensures forall l | l in ls :: !l.Left? && !l.Forgot?
    decreases Rank(s)
  {
    hide Can, Step, Rank, FlightsOk;
    if i :| 0 <= i < |s.reqs| && !s.reqs[i].pc.Done? {
      var l := NeverStuck(w, s, i);
      StepLess(w, s, l);
      StepFlights(w, s, l);
      var rest;
      rest, t := AllAreAnswered(w, Step(w, s, l));
      ls := [l] + rest;
      assert ls[1..] == rest;
    } else {
      ls, t := [], s;
    }
  }
}
