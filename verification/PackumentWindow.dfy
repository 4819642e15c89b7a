/** How long a packument whose refresh failed is served from the copy held. */
module PackumentWindow {
  import opened Common
  import F = PackumentFrame
  import opened Packuments

  /** Flight f fell back to its copy: upstream failed, or sent too much. */
  predicate Fails(response: Response) { response == Failure || (response.Ok? && |response.body| > F.MAX) }

  /** The copy of `site` is in memory, as a refresh that failed at `now` left it. */
  ghost predicate Left(w: World, s: Sys, site: Site, now: int) {
    site in s.mem && s.mem[site].fetched == now + FAILURE_WINDOW - w.freshFor
  }

  ghost predicate SitesKept(s: Sys, t: Sys) {
    && |t.reqs| == |s.reqs| && (forall i | 0 <= i < |s.reqs| :: t.reqs[i].site == s.reqs[i].site)
    && |s.table| <= |t.table| && (forall f | 0 <= f < |s.table| :: t.table[f].site == s.table[f].site)
  }

  /** The copy stays where requests for the site can see it, and none comes for it from
      `until` on. */
  ghost predicate Patient(reqs: seq<Req>, site: Site, until: int, l: Label) {
    && (l.Arrived? && l.i < |reqs| && reqs[l.i].site == site ==> !l.forgotten && l.now < until)
    && (l.Forgot? ==> l.site != site)
  }

  ghost predicate AllPatient(reqs: seq<Req>, site: Site, until: int, ls: seq<Label>) {
    forall k | 0 <= k < |ls| :: Patient(reqs, site, until, ls[k])
  }

  lemma StepSites(w: World, s: Sys, l: Label)
    requires Can(w, s, l)
    ensures SitesKept(s, Step(w, s, l))
  {
    hide Hear, FromStore, Decide, F.Frame;
    match l
    case Answered(f, response, now, kept) => HearShape(w, s, f, s.table[f].phase.prev, response, now, kept);
    case _ =>
  }

  /** Some request for the site has looked at memory and is about to refresh. */
  ghost predicate Looked(s: Sys, site: Site) {
    exists i :: 0 <= i < |s.reqs| && s.reqs[i].site == site && s.reqs[i].pc.Refreshing?
  }

  /** Nothing refreshes the site or is about to. */
  ghost predicate Calm(w: World, s: Sys, site: Site, now: int) {
    Left(w, s, site, now) && site !in s.flights && !Looked(s, site) && FlightsOk(s.reqs, s.flights, s.table)
  }

  lemma CalmStays(w: World, s: Sys, l: Label, site: Site, now: int)
    requires Calm(w, s, site, now) && Can(w, s, l) && Patient(s.reqs, site, now + FAILURE_WINDOW, l)
    ensures Calm(w, Step(w, s, l), site, now)
    ensures forall f | |s.table| <= f < |Step(w, s, l).table| :: Step(w, s, l).table[f].site != site
  {
    hide Hear, FromStore, F.Frame, FlightsOk, Remove;
    StepFlights(w, s, l);
    match l
    case Answered(f, response, n, kept) =>
      OtherSite(s, f, site);
      HearShape(w, s, f, s.table[f].phase.prev, response, n, kept);
      HearElsewhere(w, s, f, s.table[f].phase.prev, response, n, kept, site);
    case Removed(f) =>
      OtherSite(s, f, site);
      RemoveShape(s, f);
    case Arrived(i, n, forgotten) =>
      assert s.reqs[i].site == site ==> Decide(w, s, i, n, forgotten).Done?;
    case Joined(i) => assert s.reqs[i].site != site;
    case _ =>
  }

  lemma RemoveShape(s: Sys, f: nat)
    requires f < |s.table| && s.table[f].phase.Removing?
    ensures var t := Remove(s, f);
      t.reqs == s.reqs && t.mem == s.mem && |t.table| == |s.table| && t.flights == s.flights - {s.table[f].site}
  {}

  /** A flight that is not over is another site's when this one is not listed. */
  lemma OtherSite(s: Sys, f: nat, site: Site)
    requires FlightsOk(s.reqs, s.flights, s.table) && site !in s.flights && f < |s.table| && !s.table[f].phase.Closed?
    ensures s.table[f].site != site
  {
    assert Listed(s.flights, s.table, f);
  }

  /** A flight's answer leaves the memory of other sites alone. */
  lemma HearElsewhere(w: World, s: Sys, f: nat, prev: Option<Entry>, response: Response, now: int, kept: bool,
      site: Site)
    requires f < |s.table| && s.table[f].site != site
    ensures var t := Hear(w, s, f, prev, response, now, kept);
      (site in t.mem <==> site in s.mem) && (site in s.mem ==> t.mem[site] == s.mem[site])
  {
    hide F.Frame, DocOf, Changed;
  }

  /** No flight for the site has started since there were n. */
  ghost predicate NoneSince(table: seq<Flight>, n: nat, site: Site) {
    forall f | n <= f < |table| :: table[f].site != site
  }

  lemma {:induction false} CalmRuns(w: World, s: Sys, ls: seq<Label>, t: Sys, site: Site, now: int)
    requires Calm(w, s, site, now) && Runs(w, s, ls, t) && AllPatient(s.reqs, site, now + FAILURE_WINDOW, ls)
    ensures |s.table| <= |t.table| && NoneSince(t.table, |s.table|, site)
    decreases |ls|
  {
    hide Calm, Step, Can;
    if ls != [] {
      var u := Step(w, s, ls[0]);
      StepSites(w, s, ls[0]);
      CalmStays(w, s, ls[0], site, now);
      forall k | 0 <= k < |ls[1..]| ensures Patient(u.reqs, site, now + FAILURE_WINDOW, ls[1..][k]) {
        assert Patient(s.reqs, site, now + FAILURE_WINDOW, ls[k + 1]);
      }
      CalmRuns(w, u, ls[1..], t, site, now);
      RunSites(w, u, ls[1..], t);
      forall f | |s.table| <= f < |t.table| ensures t.table[f].site != site {
        if f < |u.table| { assert t.table[f].site == u.table[f].site; }
      }
    }
  }

  lemma {:induction false} RunSites(w: World, s: Sys, ls: seq<Label>, t: Sys)
    requires Runs(w, s, ls, t)
    ensures SitesKept(s, t)
    decreases |ls|
  {
    hide Step, Can;
    if ls != [] {
      StepSites(w, s, ls[0]);
      RunSites(w, Step(w, s, ls[0]), ls[1..], t);
    }
  }

  /** However the run goes on, no flight for the site starts before `until`. */
  ghost predicate Spared(w: World, s: Sys, site: Site, until: int) {
    forall ls, t | Runs(w, s, ls, t) && AllPatient(s.reqs, site, until, ls) :: NoneSince(t.table, |s.table|, site)
  }

  /** Between the failing flight's answer and its removal its copy stays. */
  ghost predicate Ending(w: World, s: Sys, f: nat, site: Site, now: int) {
    && f < |s.table| && s.table[f].site == site && s.table[f].phase.Removing?
    && Left(w, s, site, now) && FlightsOk(s.reqs, s.flights, s.table)
  }

  lemma EndingStays(w: World, s: Sys, f: nat, l: Label, site: Site, now: int)
    requires Ending(w, s, f, site, now) && Can(w, s, l) && l != Forgot(site) && l != Removed(f)
    ensures Ending(w, Step(w, s, l), f, site, now)
  {
    hide Hear, FromStore, F.Frame, FlightsOk, Decide, Join;
    StepFlights(w, s, l);
    StepSites(w, s, l);
    match l
    case Answered(g, response, n, kept) =>
      OneOfSite(s, f, g);
      HearShape(w, s, g, s.table[g].phase.prev, response, n, kept);
      HearElsewhere(w, s, g, s.table[g].phase.prev, response, n, kept, site);
    case Joined(i) => JoinShape(s, i, s.reqs[i].pc.prev, f);
    case _ =>
  }

  lemma JoinShape(s: Sys, i: nat, prev: Option<Entry>, f: nat)
    requires i < |s.reqs| && f < |s.table|
    ensures var t := Join(s, i, prev); t.mem == s.mem && |t.table| >= |s.table| && t.table[f] == s.table[f]
  {}

  lemma OneOfSite(s: Sys, f: nat, g: nat)
    requires FlightsOk(s.reqs, s.flights, s.table) && f < |s.table| && g < |s.table| && f != g
    requires !s.table[f].phase.Closed? && !s.table[g].phase.Closed?
    ensures s.table[f].site != s.table[g].site
  {
    assert Listed(s.flights, s.table, f) && Listed(s.flights, s.table, g);
  }

  lemma {:induction false} EndingRuns(w: World, s: Sys, ls: seq<Label>, t: Sys, f: nat, site: Site, now: int)
    requires Ending(w, s, f, site, now) && Runs(w, s, ls, t) && Forgot(site) !in ls && Removed(f) !in ls
    ensures Ending(w, t, f, site, now)
    decreases |ls|
  {
    hide Ending, Step, Can;
    if ls != [] {
      EndingStays(w, s, f, ls[0], site, now);
      EndingRuns(w, Step(w, s, ls[0]), ls[1..], t, f, site, now);
    }
  }

  lemma FailureEnds(w: World, s: Sys, f: nat, response: Response, now: int)
    requires FlightsOk(s.reqs, s.flights, s.table) && f < |s.table| && s.table[f].phase.Asking?
    requires s.table[f].phase.prev.Some?
    requires Fails(response) && Can(w, s, Answered(f, response, now, true))
    ensures Ending(w, Step(w, s, Answered(f, response, now, true)), f, s.table[f].site, now)
  {
    hide F.Frame, FlightsOk;
    StepFlights(w, s, Answered(f, response, now, true));
  }

  lemma RemovedIs(w: World, s: Sys, f: nat, site: Site, now: int)
    requires Ending(w, s, f, site, now)
    ensures var t := Step(w, s, Removed(f));
      && Left(w, t, site, now) && site !in t.flights && FlightsOk(t.reqs, t.flights, t.table)
      && t.reqs == s.reqs && |t.table| == |s.table|
  {
    hide FlightsOk;
    StepFlights(w, s, Removed(f));
  }

  /** A request that has looked already starts a flight when it goes on. */
  lemma LookedStarts(w: World, s: Sys, site: Site, until: int, i: nat)
    requires i < |s.reqs| && s.reqs[i].site == site && s.reqs[i].pc.Refreshing? && site !in s.flights
    ensures !Spared(w, s, site, until)
  {
    var l := Joined(i);
    var t := Step(w, s, l);
    assert [l][1..] == [] && Runs(w, t, [], t);
    assert Runs(w, s, [l], t);
    assert AllPatient(s.reqs, site, until, [l]);
    assert t.table[|s.table|].site == site;
  }

  /** A refresh fails at `now` and its copy stays in memory. From its flight's removal
      on, upstream is spared for exactly 15 seconds, whatever the freshness: no flight
      for the packument starts before that, if and only if no request was then between
      its look at the memory and its refresh; and a request that looks from then on
      refreshes if and only if the 15 seconds are over. */
  lemma FailureWindowIsExact(w: World, s: Sys, f: nat, response: Response, now: int, ls: seq<Label>, u: Sys)
    requires FlightsOk(s.reqs, s.flights, s.table) && f < |s.table| && s.table[f].phase.Asking?
    requires s.table[f].phase.prev.Some?
    requires Fails(response) && Can(w, s, Answered(f, response, now, true))
    requires Runs(w, Step(w, s, Answered(f, response, now, true)), ls, u)
    requires Forgot(s.table[f].site) !in ls && Removed(f) !in ls
    ensures Can(w, u, Removed(f))
    ensures var site, t := s.table[f].site, Step(w, u, Removed(f));
      && (Spared(w, t, site, now + FAILURE_WINDOW) <==> !Looked(u, site))
      && (forall i, later | 0 <= i < |t.reqs| && t.reqs[i].site == site ::
            Decide(w, t, i, later, false).Refreshing? <==> later >= now + FAILURE_WINDOW)
  {
    hide Ending, FlightsOk, Runs, Step, AllPatient, NoneSince;
    var site := s.table[f].site;
    FailureEnds(w, s, f, response, now);
    EndingRuns(w, Step(w, s, Answered(f, response, now, true)), ls, u, f, site, now);
    EndingCan(w, u, f, site, now);
    var t := Step(w, u, Removed(f));
    RemovedIs(w, u, f, site, now);
    if i :| 0 <= i < |u.reqs| && u.reqs[i].site == site && u.reqs[i].pc.Refreshing? {
      LookedStarts(w, t, site, now + FAILURE_WINDOW, i);
    } else {
      forall ls', t' | Runs(w, t, ls', t') && AllPatient(t.reqs, site, now + FAILURE_WINDOW, ls')
        ensures NoneSince(t'.table, |t.table|, site)
      {
        CalmRuns(w, t, ls', t', site, now);
      }
    }
  }

  lemma EndingCan(w: World, s: Sys, f: nat, site: Site, now: int)
    requires Ending(w, s, f, site, now)
    ensures Can(w, s, Removed(f))
  {}

  // ------------------------------------------------------------- it can be asked at once

  lemma RunsCons(w: World, s: Sys, l: Label, ls: seq<Label>, t: Sys)
    requires Can(w, s, l) && Runs(w, Step(w, s, l), ls, t)
    ensures Runs(w, s, [l] + ls, t)
  {
    assert ([l] + ls)[1..] == ls;
  }

  lemma {:induction false} RunsJoin(w: World, s: Sys, ls: seq<Label>, t: Sys, ls': seq<Label>, u: Sys)
    requires Runs(w, s, ls, t) && Runs(w, t, ls', u)
    ensures Runs(w, s, ls + ls', u)
    decreases |ls|
  {
    hide Can, Step;
    if ls == [] {
      assert ls + ls' == ls';
    } else {
      assert (ls + ls')[1..] == ls[1..] + ls';
      RunsJoin(w, Step(w, s, ls[0]), ls[1..], t, ls', u);
    }
  }

  /** Requests i and j for a packument that is not being refreshed find a stale copy of it
      in memory. */
  ghost predicate BothStale(w: World, s: Sys, i: nat, j: nat, site: Site, now: int) {
    && i < |s.reqs| && j < |s.reqs| && i != j && s.reqs[i] == Req(site, Arrive) && s.reqs[j] == Req(site, Arrive)
    && site in s.mem && now - s.mem[site].fetched >= w.freshFor && site !in s.flights
  }

  /** Both look. */
  lemma BothLook(w: World, s: Sys, i: nat, j: nat, site: Site, now: int) returns (ls: seq<Label>, t: Sys)
    requires BothStale(w, s, i, j, site, now)
    ensures Runs(w, s, ls, t) && |t.reqs| == |s.reqs| && t.flights == s.flights && t.table == s.table
    ensures t.reqs[i] == t.reqs[j] == Req(site, Refreshing(Some(s.mem[site])))
  {
    var l0, l1 := Arrived(i, now, false), Arrived(j, now, false);
    var s1 := Step(w, s, l0);
    t := Step(w, s1, l1);
    assert Runs(w, t, [], t);
    RunsCons(w, s1, l1, [], t);
    RunsCons(w, s, l0, [l1], t);
    ls := [l0] + [l1];
  }

  /** The refresh of one request fails at `now` and is over. */
  lemma RefreshFails(w: World, s: Sys, i: nat, site: Site, e: Entry, now: int) returns (ls: seq<Label>, t: Sys)
    requires i < |s.reqs| && s.reqs[i] == Req(site, Refreshing(Some(e))) && site !in s.flights
    ensures Runs(w, s, ls, t) && Left(w, t, site, now) && t.mem[site].doc == e.doc && site !in t.flights
    ensures |t.reqs| == |s.reqs| && forall j | 0 <= j < |s.reqs| && j != i :: t.reqs[j] == s.reqs[j]
    ensures |ls| == 4 && ls[2] == Answered(|s.table|, Failure, now, true)
  {
    hide F.Frame, FromStore;
    var n := |s.table|;
    var l0, l1, l2, l3 := Joined(i), Loaded(n, false), Answered(n, Failure, now, true), Removed(n);
    var s1 := Step(w, s, l0);
    assert s1.table[n] == Flight(site, Starting(Some(e)));
    var s2 := Step(w, s1, l1);
    var s3 := Step(w, s2, l2);
    t := Step(w, s3, l3);
    assert Runs(w, t, [], t);
    RunsCons(w, s3, l3, [], t);
    RunsCons(w, s2, l2, [l3], t);
    RunsCons(w, s1, l1, [l2] + [l3], t);
    RunsCons(w, s, l0, [l1] + ([l2] + [l3]), t);
    ls := [l0] + ([l1] + ([l2] + [l3]));
  }

  /** A request that looked before asks upstream again, with the copy of the failed refresh
      in memory and no time gone by. */
  lemma LookedAsks(w: World, s: Sys, j: nat, site: Site, now: int) returns (ls: seq<Label>, t: Sys)
    requires Left(w, s, site, now) && site !in s.flights && j < |s.reqs| && s.reqs[j].site == site
    requires s.reqs[j].pc.Refreshing?
    ensures Runs(w, s, ls, t) && Left(w, t, site, now)
    ensures |t.table| == |s.table| + 1 && t.table[|s.table|].site == site && t.table[|s.table|].phase.Asking?
  {
    hide F.Frame, FromStore;
    var l0, l1 := Joined(j), Loaded(|s.table|, false);
    var s1 := Step(w, s, l0);
    t := Step(w, s1, l1);
    assert Runs(w, t, [], t);
    RunsCons(w, s1, l1, [], t);
    RunsCons(w, s, l0, [l1], t);
    ls := [l0] + [l1];
  }

  /** A first refresh fills the memory. */
  lemma FirstAnswer(w: World, s: Sys, k: nat, site: Site, etag: F.Bytes, ctype: F.Bytes, body: F.Bytes, at: int)
    returns (ls: seq<Label>, t: Sys)
    requires Init(w, s) && k < |s.reqs| && s.reqs[k].site == site && w.answers(site.1, etag, ctype, body)
    requires |body| <= F.MAX
    ensures Runs(w, s, ls, t) && site in t.mem && t.mem[site] == Entry(DocOf(etag, ctype, body), at)
    ensures site !in t.flights
    ensures |t.reqs| == |s.reqs| && forall i | 0 <= i < |s.reqs| && i != k :: t.reqs[i] == s.reqs[i]
  {
    hide F.Frame, WorldOk;
    var l0, l1, l2 := Arrived(k, at, false), Joined(k), Loaded(0, false);
    var l3, l4 := Answered(0, Ok(etag, ctype, body), at, true), Removed(0);
    var s1 := Step(w, s, l0);
    var s2 := Step(w, s1, l1);
    assert s2.table == [Flight(site, Starting(None))];
    var s3 := Step(w, s2, l2);
    assert s3.table == [Flight(site, Asking(None))];
    var s4 := Step(w, s3, l3);
    t := Step(w, s4, l4);
    assert Runs(w, t, [], t);
    RunsCons(w, s4, l4, [], t);
    RunsCons(w, s3, l3, [l4], t);
    RunsCons(w, s2, l2, [l3] + [l4], t);
    RunsCons(w, s1, l1, [l2] + ([l3] + [l4]), t);
    RunsCons(w, s, l0, [l1] + ([l2] + ([l3] + [l4])), t);
    ls := [l0] + ([l1] + ([l2] + ([l3] + [l4])));
  }

  /** The window is not exact for requests that have looked: three requests of one replica
      for one packument, and a run of them from the start in which a refresh fails at
      `now`, leaves its copy in memory, and upstream is asked again at once. */
  lemma AskedAgainAtOnce(w: World, s: Sys, site: Site, etag: F.Bytes, ctype: F.Bytes, body: F.Bytes, at: int, now: int)
    returns (ls: seq<Label>, t: Sys)
    requires Init(w, s) && s.reqs == [Req(site, Arrive), Req(site, Arrive), Req(site, Arrive)]
    requires w.answers(site.1, etag, ctype, body) && |body| <= F.MAX && now - at >= w.freshFor
    ensures Runs(w, s, ls, t) && Left(w, t, site, now)
    ensures exists f :: 0 <= f < |t.table| && t.table[f].site == site && t.table[f].phase.Asking?
  {
    hide Runs, Init, Step, Can;
    var ls1, s1 := FirstAnswer(w, s, 2, site, etag, ctype, body, at);
    var ls2, s2 := BothLook(w, s1, 0, 1, site, now);
    var ls3, s3 := RefreshFails(w, s2, 0, site, s1.mem[site], now);
    var ls4;
    ls4, t := LookedAsks(w, s3, 1, site, now);
    RunsJoin(w, s2, ls3, s3, ls4, t);
    RunsJoin(w, s1, ls2, s2, ls3 + ls4, t);
    RunsJoin(w, s, ls1, s1, ls2 + (ls3 + ls4), t);
    ls := ls1 + (ls2 + (ls3 + ls4));
    assert t.table[|s3.table|].phase.Asking?;
  }
}
