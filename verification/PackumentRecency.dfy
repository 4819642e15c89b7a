/** When the newest document of a packument stays the one that is served. */
module PackumentRecency {
  import opened Common
  import F = PackumentFrame
  import opened Packuments
  import W = PackumentWindow

  /** A 200 that is kept. */
  predicate Accepted(response: Response) { response.Ok? && |response.body| <= F.MAX }

  /** Upstream gives no further document for the packument to any replica, and the copy
      stays where requests of the site can see it. */
  ghost predicate Quiet(s: Sys, site: Site, l: Label) {
    && (l.Answered? && l.f < |s.table| && s.table[l.f].site.1 == site.1 ==> !Accepted(l.response))
    && (l.Arrived? && l.i < |s.reqs| && s.reqs[l.i].site == site ==> !l.forgotten)
    && l != Forgot(site)
  }

  ghost predicate QuietRuns(w: World, s: Sys, ls: seq<Label>, t: Sys, site: Site)
    decreases |ls|
  {
    if ls == [] then s == t
    else Can(w, s, ls[0]) && Quiet(s, site, ls[0]) && QuietRuns(w, Step(w, s, ls[0]), ls[1..], t, site)
  }

  ghost predicate Holds(s: Sys, site: Site, doc: F.Doc) { site in s.mem && s.mem[site].doc == doc }

  /** However such a run goes on, the document stays. */
  ghost predicate Stays(w: World, s: Sys, site: Site, doc: F.Doc) {
    forall ls, t | QuietRuns(w, s, ls, t, site) :: Holds(t, site, doc)
  }

  // -------------------------------------------------------------- what can bring another

  /** What load makes of a stored frame. */
  ghost predicate Reads(w: World, frame: F.Bytes, doc: F.Doc) {
    F.Load(w.gzip, frame).Some? ==> F.Load(w.gzip, frame).value == doc
  }

  /** Neither the store nor a save under way has another document for the key. */
  ghost predicate StoreAgrees(w: World, s: Sys, key: Key, doc: F.Doc) {
    && (key in s.store ==> Reads(w, s.store[key], doc))
    && (forall j | 0 <= j < |s.saves| && s.saves[j].0 == key :: Reads(w, F.Frame(w.gzip, s.saves[j].1), doc))
  }

  /** A copy that a refresh would fall back to: it has the document, or it is to come
      from a store that has no other. */
  ghost predicate CopyAgrees(w: World, s: Sys, key: Key, prev: Option<Entry>, doc: F.Doc) {
    if prev.Some? then prev.value.doc == doc else StoreAgrees(w, s, key, doc)
  }

  /** Every request of the site that has looked at the memory, and not refreshed yet, would
      fall back to the document. */
  ghost predicate LookersAgree(w: World, s: Sys, site: Site, doc: F.Doc) {
    forall i | 0 <= i < |s.reqs| && s.reqs[i].site == site && s.reqs[i].pc.Refreshing? ::
      CopyAgrees(w, s, site.1, s.reqs[i].pc.prev, doc)
  }

  ghost predicate FlightAgrees(w: World, s: Sys, f: Flight, doc: F.Doc) {
    match f.phase
    case Starting(prev) => CopyAgrees(w, s, f.site.1, prev, doc)
    case Asking(prev) => prev.Some? ==> prev.value.doc == doc
    case _ => true
  }

  ghost predicate FlightsAgree(w: World, s: Sys, site: Site, doc: F.Doc) {
    forall f | 0 <= f < |s.table| && s.table[f].site == site :: FlightAgrees(w, s, s.table[f], doc)
  }

  /** Nothing can bring another document. */
  ghost predicate Settled(w: World, s: Sys, site: Site, doc: F.Doc) {
    Holds(s, site, doc) && LookersAgree(w, s, site, doc) && FlightsAgree(w, s, site, doc)
  }

  // --------------------------------------------------------------------- it stays

  /** The store and the saves are as they were, or one save has ended. */
  lemma StoreStays(w: World, s: Sys, t: Sys, key: Key, doc: F.Doc)
    requires StoreAgrees(w, s, key, doc) && t.store == s.store && t.saves == s.saves
    ensures StoreAgrees(w, t, key, doc)
  {}

  lemma SavedAgrees(w: World, s: Sys, j: nat, applied: bool, key: Key, doc: F.Doc)
    requires StoreAgrees(w, s, key, doc) && j < |s.saves|
    ensures StoreAgrees(w, Save(w, s, j, applied), key, doc)
  {
    hide F.Frame, Reads;
    var t := Save(w, s, j, applied);
    forall k | 0 <= k < |t.saves| && t.saves[k].0 == key ensures Reads(w, F.Frame(w.gzip, t.saves[k].1), doc) {
      assert t.saves[k] == if k < j then s.saves[k] else s.saves[k + 1];
    }
  }

  /** An answer that is not a further document saves nothing for its key. */
  lemma HeardAgrees(w: World, s: Sys, f: nat, prev: Option<Entry>, response: Response, now: int, kept: bool, key: Key,
      doc: F.Doc)
    requires f < |s.table| && StoreAgrees(w, s, key, doc) && (s.table[f].site.1 == key ==> !Accepted(response))
    ensures StoreAgrees(w, Hear(w, s, f, prev, response, now, kept), key, doc)
  {
    hide F.Frame, Reads, DocOf, Changed;
    HearShape(w, s, f, prev, response, now, kept);
    HearSaves(w, s, f, prev, response, now, kept);
  }

  lemma HearSaves(w: World, s: Sys, f: nat, prev: Option<Entry>, response: Response, now: int, kept: bool)
    requires f < |s.table|
    ensures var t := Hear(w, s, f, prev, response, now, kept);
      && |s.saves| <= |t.saves| && t.saves[..|s.saves|] == s.saves
      && (!Accepted(response) ==> t.saves == s.saves)
      && (forall j | |s.saves| <= j < |t.saves| :: t.saves[j].0 == s.table[f].site.1)
  {
    hide F.Frame, DocOf, Changed;
  }

  /** A flight of the site that gets no further document leaves the one there is, if its
      copy has it. */
  lemma HeardHolds(w: World, s: Sys, f: nat, response: Response, now: int, kept: bool, site: Site, doc: F.Doc)
    requires f < |s.table| && Holds(s, site, doc) && s.table[f].phase.Asking?
    requires s.table[f].site == site ==> !Accepted(response) && FlightAgrees(w, s, s.table[f], doc)
    ensures Holds(Hear(w, s, f, s.table[f].phase.prev, response, now, kept), site, doc)
  {
    hide F.Frame, DocOf, Changed;
  }

  ghost predicate Grown(w: World, s: Sys, t: Sys, key: Key, doc: F.Doc) {
    StoreAgrees(w, s, key, doc) ==> StoreAgrees(w, t, key, doc)
  }

  lemma StepStore(w: World, s: Sys, l: Label, site: Site, doc: F.Doc)
    requires Can(w, s, l) && Quiet(s, site, l)
    ensures Grown(w, s, Step(w, s, l), site.1, doc)
  {
    hide StoreAgrees, Hear, F.Frame, FromStore, Decide;
    if StoreAgrees(w, s, site.1, doc) {
      match l
      case Saved(j, applied) => SavedAgrees(w, s, j, applied, site.1, doc);
      case Answered(f, response, now, kept) =>
        HeardAgrees(w, s, f, s.table[f].phase.prev, response, now, kept, site.1, doc);
      case _ => StoreStays(w, s, Step(w, s, l), site.1, doc);
    }
  }

  /** What a flight loads has the document. */
  lemma LoadedAgrees(w: World, s: Sys, key: Key, prev: Option<Entry>, fail: bool, doc: F.Doc)
    requires CopyAgrees(w, s, key, prev, doc)
    ensures var e := if prev.Some? then prev else FromStore(w, s, key, fail); e.Some? ==> e.value.doc == doc
  {
    hide F.Load, F.Frame;
  }

  lemma CopyStays(w: World, s: Sys, t: Sys, key: Key, prev: Option<Entry>, doc: F.Doc)
    requires CopyAgrees(w, s, key, prev, doc) && Grown(w, s, t, key, doc)
    ensures CopyAgrees(w, t, key, prev, doc)
  {
    hide StoreAgrees;
  }

  lemma StepFlight(w: World, s: Sys, l: Label, site: Site, doc: F.Doc, f: nat)
    requires Settled(w, s, site, doc) && Can(w, s, l) && Grown(w, s, Step(w, s, l), site.1, doc)
    requires f < |Step(w, s, l).table| && Step(w, s, l).table[f].site == site
    ensures FlightAgrees(w, Step(w, s, l), Step(w, s, l).table[f], doc)
  {
    hide StoreAgrees, F.Frame, Hear, FromStore, Decide;
    var t := Step(w, s, l);
    W.StepSites(w, s, l);
    if f < |s.table| { assert FlightAgrees(w, s, s.table[f], doc); }
    match l
    case Answered(g, response, now, kept) => HearShape(w, s, g, s.table[g].phase.prev, response, now, kept);
    case Loaded(g, fail) => if g == f { LoadedAgrees(w, s, site.1, s.table[f].phase.prev, fail, doc); }
    case Joined(i) =>
      if f == |s.table| {
        assert s.reqs[i].site == site;
        assert CopyAgrees(w, s, site.1, s.reqs[i].pc.prev, doc);
      }
    case _ =>
  }

  lemma StepLooker(w: World, s: Sys, l: Label, site: Site, doc: F.Doc, i: nat)
    requires Settled(w, s, site, doc) && Can(w, s, l) && Quiet(s, site, l) && Grown(w, s, Step(w, s, l), site.1, doc)
    requires i < |Step(w, s, l).reqs| && Step(w, s, l).reqs[i].site == site && Step(w, s, l).reqs[i].pc.Refreshing?
    ensures CopyAgrees(w, Step(w, s, l), site.1, Step(w, s, l).reqs[i].pc.prev, doc)
  {
    hide StoreAgrees, F.Frame, Hear, FromStore;
    match l
    case Answered(g, response, now, kept) => HearShape(w, s, g, s.table[g].phase.prev, response, now, kept);
    case _ =>
  }

  lemma StepHolds(w: World, s: Sys, l: Label, site: Site, doc: F.Doc)
    requires Settled(w, s, site, doc) && Can(w, s, l) && Quiet(s, site, l)
    ensures Holds(Step(w, s, l), site, doc)
  {
    hide StoreAgrees, F.Frame, Hear, FromStore, Decide;
    match l
    case Answered(f, response, now, kept) =>
      assert s.table[f].site == site ==> FlightAgrees(w, s, s.table[f], doc);
      HeardHolds(w, s, f, response, now, kept, site, doc);
    case _ =>
  }

  lemma StepSettled(w: World, s: Sys, l: Label, site: Site, doc: F.Doc)
    requires Settled(w, s, site, doc) && Can(w, s, l) && Quiet(s, site, l)
    ensures Settled(w, Step(w, s, l), site, doc)
  {
    hide Step, Can, Quiet, CopyAgrees, FlightAgrees, Grown, Holds;
    var t := Step(w, s, l);
    StepStore(w, s, l, site, doc);
    StepHolds(w, s, l, site, doc);
    forall f | 0 <= f < |t.table| && t.table[f].site == site ensures FlightAgrees(w, t, t.table[f], doc) {
      StepFlight(w, s, l, site, doc, f);
    }
    forall i | 0 <= i < |t.reqs| && t.reqs[i].site == site && t.reqs[i].pc.Refreshing?
      ensures CopyAgrees(w, t, site.1, t.reqs[i].pc.prev, doc)
    {
      StepLooker(w, s, l, site, doc, i);
    }
  }

  lemma {:induction false} RunSettled(w: World, s: Sys, ls: seq<Label>, t: Sys, site: Site, doc: F.Doc)
    requires Settled(w, s, site, doc) && QuietRuns(w, s, ls, t, site)
    ensures Holds(t, site, doc)
    decreases |ls|
  {
    hide Can, Step, Quiet, LookersAgree, FlightsAgree, Holds;
    if ls != [] {
      StepSettled(w, s, ls[0], site, doc);
      RunSettled(w, Step(w, s, ls[0]), ls[1..], t, site, doc);
    }
  }

  // --------------------------------------------------------------- or another comes

  lemma StaysAfter(w: World, s: Sys, l: Label, site: Site, doc: F.Doc)
    requires Stays(w, s, site, doc) && Can(w, s, l) && Quiet(s, site, l)
    ensures Stays(w, Step(w, s, l), site, doc)
  {
    hide Can, Step, Quiet, Holds, QuietRuns;
    forall ls, t | QuietRuns(w, Step(w, s, l), ls, t, site) ensures Holds(t, site, doc) {
      QuietFrom(w, s, l, ls, t, site);
    }
  }

  lemma QuietFrom(w: World, s: Sys, l: Label, ls: seq<Label>, t: Sys, site: Site)
    requires Can(w, s, l) && Quiet(s, site, l) && QuietRuns(w, Step(w, s, l), ls, t, site)
    ensures QuietRuns(w, s, [l] + ls, t, site)
  {
    hide Can, Step, Quiet;
    assert ([l] + ls)[1..] == ls;
  }

  lemma StaysNow(w: World, s: Sys, site: Site, doc: F.Doc)
    requires Stays(w, s, site, doc)
    ensures Holds(s, site, doc)
  {
    assert QuietRuns(w, s, [], s, site);
  }

  /** A request that has looked refreshes, upstream fails, and its copy is in memory. */
  lemma LookerShows(w: World, s: Sys, site: Site, doc: F.Doc, i: nat)
    requires Stays(w, s, site, doc) && site !in s.flights && i < |s.reqs| && s.reqs[i].site == site
    requires s.reqs[i].pc.Refreshing?
    ensures var prev := s.reqs[i].pc.prev;
      var e := if prev.Some? then prev else FromStore(w, s, site.1, false); e.Some? ==> e.value.doc == doc
  {
    hide F.Frame, FromStore, Stays;
    var n, prev := |s.table|, s.reqs[i].pc.prev;
    StaysAfter(w, s, Joined(i), site, doc);
    var s1 := Step(w, s, Joined(i));
    assert s1.table[n] == Flight(site, Starting(prev));
    StaysAfter(w, s1, Loaded(n, false), site, doc);
    var s2 := Step(w, s1, Loaded(n, false));
    SameStore(w, s, s1, site.1);
    assert s2.table[n].phase == Asking(if prev.Some? then prev else FromStore(w, s, site.1, false));
    StaysAfter(w, s2, Answered(n, Failure, 0, true), site, doc);
    StaysNow(w, Step(w, s2, Answered(n, Failure, 0, true)), site, doc);
  }

  lemma SameStore(w: World, s: Sys, t: Sys, key: Key)
    requires t.store == s.store
    ensures FromStore(w, t, key, false) == FromStore(w, s, key, false)
  {}

  /** A save under way ends before the request refreshes. */
  lemma SaveShows(w: World, s: Sys, site: Site, doc: F.Doc, i: nat, j: nat)
    requires Stays(w, s, site, doc) && site !in s.flights && i < |s.reqs| && s.reqs[i].site == site
    requires s.reqs[i].pc == Refreshing(None) && j < |s.saves| && s.saves[j].0 == site.1
    ensures Reads(w, F.Frame(w.gzip, s.saves[j].1), doc)
  {
    hide F.Frame, F.Load, Stays;
    var t := Step(w, s, Saved(j, true));
    StaysAfter(w, s, Saved(j, true), site, doc);
    LookerShows(w, t, site, doc, i);
    assert t.store[site.1] == F.Frame(w.gzip, s.saves[j].1);
  }

  lemma LookerAgrees(w: World, s: Sys, site: Site, doc: F.Doc, i: nat)
    requires Stays(w, s, site, doc) && site !in s.flights && i < |s.reqs| && s.reqs[i].site == site
    requires s.reqs[i].pc.Refreshing?
    ensures CopyAgrees(w, s, site.1, s.reqs[i].pc.prev, doc)
  {
    hide F.Frame, F.Load, Stays;
    LookerShows(w, s, site, doc, i);
    if s.reqs[i].pc.prev.None? {
      forall j | 0 <= j < |s.saves| && s.saves[j].0 == site.1 ensures Reads(w, F.Frame(w.gzip, s.saves[j].1), doc) {
        SaveShows(w, s, site, doc, i, j);
      }
    }
  }

  /** Of a site that no flight refreshes. */
  lemma StaysIff(w: World, s: Sys, site: Site, doc: F.Doc)
    requires FlightsOk(s.reqs, s.flights, s.table) && site !in s.flights && Holds(s, site, doc)
    ensures Stays(w, s, site, doc) <==> LookersAgree(w, s, site, doc)
  {
    hide FlightsOk, CopyAgrees, QuietRuns;
    if Stays(w, s, site, doc) {
      forall i | 0 <= i < |s.reqs| && s.reqs[i].site == site && s.reqs[i].pc.Refreshing?
        ensures CopyAgrees(w, s, site.1, s.reqs[i].pc.prev, doc)
      {
        LookerAgrees(w, s, site, doc, i);
      }
    }
    if LookersAgree(w, s, site, doc) {
      NoFlights(w, s, site, doc);
      forall ls, t | QuietRuns(w, s, ls, t, site) ensures Holds(t, site, doc) { RunSettled(w, s, ls, t, site, doc); }
    }
  }

  lemma NoFlights(w: World, s: Sys, site: Site, doc: F.Doc)
    requires FlightsOk(s.reqs, s.flights, s.table) && site !in s.flights
    ensures FlightsAgree(w, s, site, doc)
  {
    hide CopyAgrees;
    forall f | 0 <= f < |s.table| && s.table[f].site == site
      ensures FlightAgrees(w, s, s.table[f], doc)
    {
      OnlyClosed(s, f);
    }
  }

  /** Flights of a site that none is listed for are over. */
  lemma OnlyClosed(s: Sys, f: nat)
    requires FlightsOk(s.reqs, s.flights, s.table) && f < |s.table| && s.table[f].site !in s.flights
    ensures s.table[f].phase.Closed?
  {}

  // ------------------------------------------------------------- after a refresh

  /** Between a flight's answer and its removal the document it brought stays. */
  ghost predicate Ending(s: Sys, f: nat, site: Site, doc: F.Doc) {
    && f < |s.table| && s.table[f].site == site && s.table[f].phase.Removing?
    && Holds(s, site, doc) && FlightsOk(s.reqs, s.flights, s.table)
  }

  lemma EndingStays(w: World, s: Sys, f: nat, l: Label, site: Site, doc: F.Doc)
    requires Ending(s, f, site, doc) && Can(w, s, l) && l != Forgot(site) && l != Removed(f)
    ensures Ending(Step(w, s, l), f, site, doc)
  {
    hide Hear, FromStore, F.Frame, FlightsOk, Decide, Join;
    StepFlights(w, s, l);
    W.StepSites(w, s, l);
    match l
    case Answered(g, response, n, kept) =>
      W.OneOfSite(s, f, g);
      HearShape(w, s, g, s.table[g].phase.prev, response, n, kept);
      W.HearElsewhere(w, s, g, s.table[g].phase.prev, response, n, kept, site);
    case Joined(i) => W.JoinShape(s, i, s.reqs[i].pc.prev, f);
    case _ =>
  }

  lemma {:induction false} EndingRuns(w: World, s: Sys, ls: seq<Label>, t: Sys, f: nat, site: Site, doc: F.Doc)
    requires Ending(s, f, site, doc) && Runs(w, s, ls, t) && Forgot(site) !in ls && Removed(f) !in ls
    ensures Ending(t, f, site, doc)
    decreases |ls|
  {
    hide Ending, Step, Can;
    if ls != [] {
      EndingStays(w, s, f, ls[0], site, doc);
      EndingRuns(w, Step(w, s, ls[0]), ls[1..], t, f, site, doc);
    }
  }

  lemma AcceptEnds(w: World, s: Sys, f: nat, response: Response, now: int)
    requires FlightsOk(s.reqs, s.flights, s.table) && f < |s.table| && s.table[f].phase.Asking?
    requires Accepted(response) && Can(w, s, Answered(f, response, now, true))
    ensures Ending(Step(w, s, Answered(f, response, now, true)), f, s.table[f].site,
      DocOf(response.etag, response.ctype, response.body))
  {
    hide F.Frame, FlightsOk, DocOf, Changed;
    StepFlights(w, s, Answered(f, response, now, true));
  }

  lemma RemovedIs(w: World, s: Sys, f: nat, site: Site, doc: F.Doc)
    requires Ending(s, f, site, doc)
    ensures Can(w, s, Removed(f))
    ensures var t := Step(w, s, Removed(f));
      && Holds(t, site, doc) && site !in t.flights && FlightsOk(t.reqs, t.flights, t.table)
      && t.reqs == s.reqs && t.store == s.store && t.saves == s.saves
  {
    hide FlightsOk;
    StepFlights(w, s, Removed(f));
  }

  /** The document of a 200 that is kept is what stays in memory, in every run in which
      upstream gives no further one and the copy is not forgotten, if and only if, when its
      flight is taken off the list, every request of the site that has looked at the memory
      and not refreshed yet would fall back to that document: the copy it found has it, or it
      found none and neither the store nor a save under way has another. */
  lemma NewestStaysIff(w: World, s: Sys, f: nat, response: Response, now: int, ls: seq<Label>, u: Sys)
    requires FlightsOk(s.reqs, s.flights, s.table) && f < |s.table| && s.table[f].phase.Asking?
    requires Accepted(response) && Can(w, s, Answered(f, response, now, true))
    requires Runs(w, Step(w, s, Answered(f, response, now, true)), ls, u)
    requires Forgot(s.table[f].site) !in ls && Removed(f) !in ls
    ensures Can(w, u, Removed(f))
    ensures var site, doc := s.table[f].site, DocOf(response.etag, response.ctype, response.body);
      Stays(w, Step(w, u, Removed(f)), site, doc) <==> LookersAgree(w, u, site, doc)
  {
    hide Ending, FlightsOk, Runs, Step, CopyAgrees, Stays;
    var site, doc := s.table[f].site, DocOf(response.etag, response.ctype, response.body);
    AcceptEnds(w, s, f, response, now);
    EndingRuns(w, Step(w, s, Answered(f, response, now, true)), ls, u, f, site, doc);
    RemovedIs(w, u, f, site, doc);
    var t := Step(w, u, Removed(f));
    StaysIff(w, t, site, doc);
    SameCopies(w, u, t, site.1, doc);
  }

  lemma SameCopies(w: World, s: Sys, t: Sys, key: Key, doc: F.Doc)
    requires t.store == s.store && t.saves == s.saves
    ensures forall prev :: CopyAgrees(w, s, key, prev, doc) <==> CopyAgrees(w, t, key, prev, doc)
  {}

  // -------------------------------------------------------------- an older one comes back

  /** The refresh of one request brings a document and is over. */
  lemma RefreshBrings(w: World, s: Sys, i: nat, site: Site, e: Entry, response: Response, now: int)
    returns (ls: seq<Label>, t: Sys)
    requires i < |s.reqs| && s.reqs[i] == Req(site, Refreshing(Some(e))) && site !in s.flights
    requires Accepted(response) && w.answers(site.1, response.etag, response.ctype, response.body)
    ensures Runs(w, s, ls, t) && Holds(t, site, DocOf(response.etag, response.ctype, response.body))
    ensures site !in t.flights
    ensures |t.reqs| == |s.reqs| && forall j | 0 <= j < |s.reqs| && j != i :: t.reqs[j] == s.reqs[j]
    ensures |ls| == 4 && ls[2] == Answered(|s.table|, response, now, true)
  {
    hide F.Frame, FromStore, DocOf, Changed;
    var n := |s.table|;
    var l0, l1, l2, l3 := Joined(i), Loaded(n, false), Answered(n, response, now, true), Removed(n);
    var s1 := Step(w, s, l0);
    assert s1.table[n] == Flight(site, Starting(Some(e)));
    var s2 := Step(w, s1, l1);
    var s3 := Step(w, s2, l2);
    t := Step(w, s3, l3);
    assert Runs(w, t, [], t);
    W.RunsCons(w, s3, l3, [], t);
    W.RunsCons(w, s2, l2, [l3], t);
    W.RunsCons(w, s1, l1, [l2] + [l3], t);
    W.RunsCons(w, s, l0, [l1] + ([l2] + [l3]), t);
    ls := [l0] + ([l1] + ([l2] + [l3]));
  }

  /** It need not be: three requests of one replica for one packument, and a run of them
      from the start in which upstream gives one document, then, at `now`, another, and then
      fails. The first is in memory again, and is served for as long as a copy is left
      alone after a failure. */
  lemma OlderComesBack(w: World, s: Sys, site: Site, first: Response, second: Response, at: int, now: int)
    returns (ls: seq<Label>, t: Sys)
    requires Init(w, s) && s.reqs == [Req(site, Arrive), Req(site, Arrive), Req(site, Arrive)]
    requires Accepted(first) && w.answers(site.1, first.etag, first.ctype, first.body)
    requires Accepted(second) && w.answers(site.1, second.etag, second.ctype, second.body) && now - at >= w.freshFor
    ensures Runs(w, s, ls, t) && Holds(t, site, DocOf(first.etag, first.ctype, first.body))
    ensures W.Left(w, t, site, now)
    ensures exists f, g ::
      0 <= f < g < |ls| && ls[f].Answered? && ls[f].response == second && ls[g].Answered? && ls[g].response == Failure
  {
    hide Runs, Init, Step, Can, DocOf;
    var ls1, s1 := W.FirstAnswer(w, s, 2, site, first.etag, first.ctype, first.body, at);
    var ls2, s2 := W.BothLook(w, s1, 0, 1, site, now);
    var ls3, s3 := RefreshBrings(w, s2, 0, site, s1.mem[site], second, now);
    var ls4;
    ls4, t := W.RefreshFails(w, s3, 1, site, s1.mem[site], now);
    W.RunsJoin(w, s2, ls3, s3, ls4, t);
    W.RunsJoin(w, s1, ls2, s2, ls3 + ls4, t);
    W.RunsJoin(w, s, ls1, s1, ls2 + (ls3 + ls4), t);
    ls := ls1 + (ls2 + (ls3 + ls4));
    assert ls[|ls1| + |ls2| + 2] == ls3[2] && ls[|ls1| + |ls2| + |ls3| + 2] == ls4[2];
  }
}
