/** The npm front-end's packuments: a copy in each replica's memory and one in the
    store, one refresh at a time for each, and saves that race. */
module Packuments {
  import opened Common
  import F = PackumentFrame

  type Key = string // of one package and one variant

  type Site = (nat, Key) // in one replica

  /** `answers(key, etag, ctype, body)`: a 200 of upstream's for this key said this at
      some time; ctype is empty when it had no Content-Type. */
  datatype World = World(
    answers: (Key, F.Bytes, F.Bytes, F.Bytes) -> bool,
    gzip: F.Gzip,
    freshFor: int)

  /** failureWindow, in seconds. */
  const FAILURE_WINDOW: int := 15

  /** "application/json". */
  const JSON_TYPE: F.Bytes := [97, 112, 112, 108, 105, 99, 97, 116, 105, 111, 110, 47, 106, 115, 111, 110]

  datatype Entry = Entry(doc: F.Doc, fetched: int)

  datatype Answer = Served(doc: F.Doc) | NotFound | BadGateway | Lost

  datatype Pc =
    | Arrive
    | Refreshing(prev: Option<Entry>)   // about to call refresh, with the copy in memory
    | Waiting(f: nat)
    | Done(answer: Answer)

  datatype Req = Req(site: Site, pc: Pc)

  datatype Phase =
    | Starting(prev: Option<Entry>)
    | Asking(prev: Option<Entry>)       // the copy, from memory or the store
    | Removing(res: Answer)
    | Closed(res: Answer)

  datatype Flight = Flight(site: Site, phase: Phase)

  datatype Sys = Sys(
    reqs: seq<Req>,
    flights: map<Site, nat>,
    table: seq<Flight>,
    mem: map<Site, Entry>,
    neg: set<Site>,
    saves: seq<(Key, F.Doc)>,
    store: map<Key, F.Bytes>)

  datatype Response = NotModified | Ok(etag: F.Bytes, ctype: F.Bytes, body: F.Bytes) | Missing | Failure

  datatype Label =
    | NegHit(i: nat)
    | Arrived(i: nat, now: int, forgotten: bool)
    | Joined(i: nat)
    | Left(i: nat)
    | Woken(i: nat)
    | Loaded(f: nat, fail: bool)
    | Answered(f: nat, response: Response, now: int, kept: bool)
    | Removed(f: nat)
    | Saved(j: nat, applied: bool) // whatever the store said
    | Forgot(site: Site)

  ghost predicate Can(w: World, s: Sys, l: Label) {
    match l
    case NegHit(i) => i < |s.reqs| && s.reqs[i].pc == Arrive && s.reqs[i].site in s.neg
    case Arrived(i, _, _) => i < |s.reqs| && s.reqs[i].pc == Arrive
    case Joined(i) => i < |s.reqs| && s.reqs[i].pc.Refreshing?
    case Left(i) => i < |s.reqs| && s.reqs[i].pc.Waiting?
    case Woken(i) => i < |s.reqs| && s.reqs[i].pc.Waiting? && s.reqs[i].pc.f < |s.table| &&
      s.table[s.reqs[i].pc.f].phase.Closed?
    case Loaded(f, _) => f < |s.table| && s.table[f].phase.Starting?
    case Answered(f, response, _, _) => f < |s.table| && s.table[f].phase.Asking? &&
      (response.Ok? ==> w.answers(s.table[f].site.1, response.etag, response.ctype, response.body))
    case Removed(f) => f < |s.table| && s.table[f].phase.Removing?
    case Saved(j, _) => j < |s.saves|
    case Forgot(site) => site in s.mem
  }

  function Goto(s: Sys, i: nat, pc: Pc): Sys
    requires i < |s.reqs|
  {
    s.(reqs := s.reqs[i := s.reqs[i].(pc := pc)])
  }

  function Enter(s: Sys, f: nat, phase: Phase): Sys
    requires f < |s.table|
  {
    s.(table := s.table[f := s.table[f].(phase := phase)])
  }

  function Remember(s: Sys, site: Site, e: Entry, kept: bool): Sys {
    if kept then s.(mem := s.mem[site := e]) else s
  }

  /** packument, up to the refresh. */
  function Decide(w: World, s: Sys, i: nat, now: int, forgotten: bool): Pc
    requires i < |s.reqs|
  {
    var site := s.reqs[i].site;
    if site in s.mem && !forgotten then
      if now - s.mem[site].fetched >= w.freshFor then Refreshing(Some(s.mem[site])) else Done(Served(s.mem[site].doc))
    else Refreshing(None)
  }

  /** refresh: join the flight there is, or start one. */
  function Join(s: Sys, i: nat, prev: Option<Entry>): Sys
    requires i < |s.reqs|
  {
    var site := s.reqs[i].site;
    if site in s.flights then Goto(s, i, Waiting(s.flights[site]))
    else Goto(s, i, Waiting(|s.table|)).(
      flights := s.flights[site := |s.table|],
      table := s.table + [Flight(site, Starting(prev))])
  }

  /** The copy in the store, whose age is not known: `fetched` is the zero time. */
  const ZERO_TIME: int := -62135596800

  function FromStore(w: World, s: Sys, key: Key, fail: bool): Option<Entry> {
    if fail || key !in s.store then None
    else match F.Load(w.gzip, s.store[key])
      case None => None
      case Some(doc) => Some(Entry(doc, ZERO_TIME))
  }

  function DocOf(etag: F.Bytes, ctype: F.Bytes, body: F.Bytes): F.Doc {
    F.Doc(etag, if ctype == [] then JSON_TYPE else ctype, body)
  }

  /** A document differs from the copy as far as its validator tells. */
  function Changed(prev: Option<Entry>, doc: F.Doc): bool {
    prev.None? || prev.value.doc.etag != doc.etag || (doc.etag == [] && prev.value.doc.body != doc.body)
  }

  function Accept(s: Sys, f: nat, prev: Option<Entry>, doc: F.Doc, now: int, kept: bool): Sys
    requires f < |s.table|
  {
    var site := s.table[f].site;
    var s1 := Remember(s, site, Entry(doc, now), kept);
    var s2 := if Changed(prev, doc) then s1.(saves := s1.saves + [(site.1, doc)]) else s1;
    Enter(s2, f, Removing(Served(doc)))
  }

  /** The fallback: the copy, not to be asked about again for a moment. */
  function FallBack(w: World, s: Sys, f: nat, prev: Option<Entry>, now: int, kept: bool): Sys
    requires f < |s.table|
  {
    match prev
    case None => Enter(s, f, Removing(BadGateway))
    case Some(e) =>
      Enter(Remember(s, s.table[f].site, e.(fetched := now + FAILURE_WINDOW - w.freshFor), kept), f,
        Removing(Served(e.doc)))
  }

  function Hear(w: World, s: Sys, f: nat, prev: Option<Entry>, response: Response, now: int, kept: bool): Sys
    requires f < |s.table|
  {
    match response
    case NotModified =>
      if prev.None? then FallBack(w, s, f, prev, now, kept)
      else Enter(Remember(s, s.table[f].site, prev.value.(fetched := now), kept), f, Removing(Served(prev.value.doc)))
    case Ok(etag, ctype, body) =>
      if |body| > F.MAX then FallBack(w, s, f, prev, now, kept)
      else Accept(s, f, prev, DocOf(etag, ctype, body), now, kept)
    case Missing => Enter(s.(neg := s.neg + {s.table[f].site}), f, Removing(NotFound))
    case Failure => FallBack(w, s, f, prev, now, kept)
  }

  function Remove(s: Sys, f: nat): Sys
    requires f < |s.table| && s.table[f].phase.Removing?
  {
    Enter(s, f, Closed(s.table[f].phase.res)).(flights := s.flights - {s.table[f].site})
  }

  /** One of the saves under way ends. */
  function Save(w: World, s: Sys, j: nat, applied: bool): Sys
    requires j < |s.saves|
  {
    s.(store := if applied then s.store[s.saves[j].0 := F.Frame(w.gzip, s.saves[j].1)] else s.store,
       saves := s.saves[..j] + s.saves[j + 1..])
  }

  ghost function Step(w: World, s: Sys, l: Label): Sys
    requires Can(w, s, l)
  {
    match l
    case NegHit(i) => Goto(s, i, Done(NotFound))
    case Arrived(i, now, forgotten) => Goto(s, i, Decide(w, s, i, now, forgotten))
    case Joined(i) => Join(s, i, s.reqs[i].pc.prev)
    case Left(i) => Goto(s, i, Done(Lost))
    case Woken(i) => Goto(s, i, Done(s.table[s.reqs[i].pc.f].phase.res))
    case Loaded(f, fail) =>
      var prev := s.table[f].phase.prev;
      Enter(s, f, Asking(if prev.Some? then prev else FromStore(w, s, s.table[f].site.1, fail)))
    case Answered(f, response, now, kept) => Hear(w, s, f, s.table[f].phase.prev, response, now, kept)
    case Removed(f) => Remove(s, f)
    case Saved(j, applied) => Save(w, s, j, applied)
    case Forgot(site) => s.(mem := s.mem - {site})
  }

  // ---------------------------------------------------------------- provenance

  /** The ETag, the media type and the document come from one 200 for this key. */
  ghost predicate Own(w: World, key: Key, doc: F.Doc) {
    exists ctype :: w.answers(key, doc.etag, ctype, doc.body) && doc.ctype == (if ctype == [] then JSON_TYPE else ctype)
  }

  /** They do, or they are what `load` makes of a 200 whose ETag holds a tab. */
  ghost predicate Paired(w: World, key: Key, doc: F.Doc) {
    Own(w, key, doc) || exists own :: Own(w, key, own) && F.TAB in own.etag && doc == F.ReadBack(own)
  }

  /** Upstream's header values have no newline in them (section 5.5 of RFC 9110). */
  ghost predicate WorldOk(w: World) {
    && F.GzipOk(w.gzip)
    && forall key, etag, ctype, body | w.answers(key, etag, ctype, body) ::
         F.NEWLINE !in etag && F.NEWLINE !in ctype
  }

  ghost predicate PairedAnswer(w: World, key: Key, a: Answer) {
    a.Served? ==> Paired(w, key, a.doc) && |a.doc.body| <= F.MAX
  }

  ghost predicate PairedEntry(w: World, key: Key, e: Option<Entry>) {
    e.Some? ==> Paired(w, key, e.value.doc) && |e.value.doc.body| <= F.MAX
  }

  ghost predicate PcOk(w: World, q: Req) {
    match q.pc
    case Refreshing(prev) => PairedEntry(w, q.site.1, prev)
    case Done(answer) => PairedAnswer(w, q.site.1, answer)
    case _ => true
  }

  ghost predicate FlightOk(w: World, f: Flight) {
    match f.phase
    case Starting(prev) => PairedEntry(w, f.site.1, prev)
    case Asking(prev) => PairedEntry(w, f.site.1, prev)
    case Removing(res) => PairedAnswer(w, f.site.1, res)
    case Closed(res) => PairedAnswer(w, f.site.1, res)
  }

  /** A stored frame is a document's own; nothing else is at a packument's key. */
  ghost predicate FrameOk(w: World, key: Key, frame: F.Bytes) {
    exists doc :: Own(w, key, doc) && |doc.body| <= F.MAX && frame == F.Frame(w.gzip, doc)
  }

  ghost predicate ContentsOk(w: World, s: Sys) {
    && (forall i | 0 <= i < |s.reqs| :: PcOk(w, s.reqs[i]))
    && (forall f | 0 <= f < |s.table| :: FlightOk(w, s.table[f]))
    && (forall site | site in s.mem :: PairedEntry(w, site.1, Some(s.mem[site])))
    && (forall j | 0 <= j < |s.saves| :: Own(w, s.saves[j].0, s.saves[j].1) && |s.saves[j].1.body| <= F.MAX)
    && (forall key | key in s.store :: FrameOk(w, key, s.store[key]))
  }

  ghost predicate Listed(flights: map<Site, nat>, table: seq<Flight>, f: nat)
    requires f < |table|
  {
    table[f].site in flights && flights[table[f].site] == f
  }

  /** The flights listed are those not over yet, and a request waits for one of its
      own site. */
  ghost predicate FlightsOk(reqs: seq<Req>, flights: map<Site, nat>, table: seq<Flight>) {
    && (forall site | site in flights ::
      flights[site] < |table| && table[flights[site]].site == site && !table[flights[site]].phase.Closed?)
    && (forall f | 0 <= f < |table| :: table[f].phase.Closed? || Listed(flights, table, f))
    && (forall i | 0 <= i < |reqs| && reqs[i].pc.Waiting? ::
      reqs[i].pc.f < |table| && table[reqs[i].pc.f].site == reqs[i].site)
  }

  ghost predicate Inv(w: World, s: Sys) { ContentsOk(w, s) && FlightsOk(s.reqs, s.flights, s.table) }

  /** A document read back from the store is the one that was saved. */
  lemma LoadedIsPaired(w: World, s: Sys, key: Key, fail: bool)
    requires WorldOk(w) && ContentsOk(w, s)
    ensures PairedEntry(w, key, FromStore(w, s, key, fail))
  {
    hide F.Load, FrameOk, Paired;
    if !fail && key in s.store { FrameLoads(w, key, s.store[key]); }
  }

  lemma EnterContents(w: World, s: Sys, f: nat, phase: Phase)
    requires ContentsOk(w, s) && f < |s.table| && FlightOk(w, Flight(s.table[f].site, phase))
    ensures ContentsOk(w, Enter(s, f, phase))
  {
    hide Paired, FrameOk;
  }

  lemma GotoContents(w: World, s: Sys, i: nat, pc: Pc)
    requires ContentsOk(w, s) && i < |s.reqs| && PcOk(w, Req(s.reqs[i].site, pc))
    ensures ContentsOk(w, Goto(s, i, pc))
  {
    hide Paired, FrameOk;
  }

  lemma RememberContents(w: World, s: Sys, site: Site, e: Entry, kept: bool)
    requires ContentsOk(w, s) && PairedEntry(w, site.1, Some(e))
    ensures ContentsOk(w, Remember(s, site, e, kept))
  {
    hide Paired, FrameOk;
  }

  lemma AcceptContents(w: World, s: Sys, f: nat, prev: Option<Entry>, doc: F.Doc, now: int, kept: bool)
    requires ContentsOk(w, s) && f < |s.table| && Own(w, s.table[f].site.1, doc) && |doc.body| <= F.MAX
    ensures ContentsOk(w, Accept(s, f, prev, doc, now, kept))
  {
    hide ContentsOk, Remember, Enter, Own;
    var site := s.table[f].site;
    var s1 := Remember(s, site, Entry(doc, now), kept);
    RememberShape(s, site, Entry(doc, now), kept);
    RememberContents(w, s, site, Entry(doc, now), kept);
    var s2 := if Changed(prev, doc) then s1.(saves := s1.saves + [(site.1, doc)]) else s1;
    SavesContents(w, s1, site.1, doc);
    EnterContents(w, s2, f, Removing(Served(doc)));
  }

  lemma RememberShape(s: Sys, site: Site, e: Entry, kept: bool)
    ensures Remember(s, site, e, kept) == s.(mem := Remember(s, site, e, kept).mem)
  {}

  lemma SavesContents(w: World, s: Sys, key: Key, doc: F.Doc)
    requires ContentsOk(w, s) && Own(w, key, doc) && |doc.body| <= F.MAX
    ensures ContentsOk(w, s.(saves := s.saves + [(key, doc)]))
  {
    hide Paired, FrameOk;
  }

  lemma FallBackContents(w: World, s: Sys, f: nat, prev: Option<Entry>, now: int, kept: bool)
    requires ContentsOk(w, s) && f < |s.table| && PairedEntry(w, s.table[f].site.1, prev)
    ensures ContentsOk(w, FallBack(w, s, f, prev, now, kept))
  {
    hide ContentsOk, Remember, Enter, Paired;
    match prev
    case None => EnterContents(w, s, f, Removing(BadGateway));
    case Some(e) =>
      var e' := e.(fetched := now + FAILURE_WINDOW - w.freshFor);
      RememberShape(s, s.table[f].site, e', kept);
      RememberContents(w, s, s.table[f].site, e', kept);
      EnterContents(w, Remember(s, s.table[f].site, e', kept), f, Removing(Served(e.doc)));
  }

  lemma HearContents(w: World, s: Sys, f: nat, response: Response, now: int, kept: bool)
    requires ContentsOk(w, s) && f < |s.table| && s.table[f].phase.Asking?
    requires response.Ok? ==> w.answers(s.table[f].site.1, response.etag, response.ctype, response.body)
    ensures ContentsOk(w, Hear(w, s, f, s.table[f].phase.prev, response, now, kept))
  {
    assert FlightOk(w, s.table[f]);
    hide ContentsOk, Remember, Enter, Accept, FallBack, FrameOk;
    var prev := s.table[f].phase.prev;
    FallBackContents(w, s, f, prev, now, kept);
    match response
    case NotModified =>
      if prev.Some? {
        var e' := prev.value.(fetched := now);
        RememberShape(s, s.table[f].site, e', kept);
        RememberContents(w, s, s.table[f].site, e', kept);
        EnterContents(w, Remember(s, s.table[f].site, e', kept), f, Removing(Served(e'.doc)));
      }
    case Ok(etag, ctype, body) =>
      var doc := DocOf(etag, ctype, body);
      assert Own(w, s.table[f].site.1, doc);
      if |body| <= F.MAX { AcceptContents(w, s, f, prev, doc, now, kept); }
    case Missing =>
      var s1 := s.(neg := s.neg + {s.table[f].site});
      NegContents(w, s, s1.neg);
      EnterContents(w, s1, f, Removing(NotFound));
    case Failure =>
  }

  lemma NegContents(w: World, s: Sys, neg: set<Site>)
    requires ContentsOk(w, s)
    ensures ContentsOk(w, s.(neg := neg))
  {}

  lemma JoinContents(w: World, s: Sys, i: nat, prev: Option<Entry>)
    requires ContentsOk(w, s) && i < |s.reqs| && PairedEntry(w, s.reqs[i].site.1, prev)
    ensures ContentsOk(w, Join(s, i, prev))
  {
    hide Paired, FrameOk;
  }

  lemma StepContents(w: World, s: Sys, l: Label)
    requires WorldOk(w) && Inv(w, s) && Can(w, s, l)
    ensures ContentsOk(w, Step(w, s, l))
  {
    hide Hear, Paired, F.Frame, FromStore, Goto, Enter, FrameOk;
    match l
    case Loaded(f, fail) =>
      assert FlightOk(w, s.table[f]);
      LoadedIsPaired(w, s, s.table[f].site.1, fail);
      var prev := s.table[f].phase.prev;
      EnterContents(w, s, f, Asking(if prev.Some? then prev else FromStore(w, s, s.table[f].site.1, fail)));
    case Answered(f, response, now, kept) => HearContents(w, s, f, response, now, kept);
    case Saved(j, applied) => SaveContents(w, s, j, applied);
    case Woken(i) =>
      assert FlightOk(w, s.table[s.reqs[i].pc.f]);
      GotoContents(w, s, i, Done(s.table[s.reqs[i].pc.f].phase.res));
    case Joined(i) =>
      assert PcOk(w, s.reqs[i]);
      JoinContents(w, s, i, s.reqs[i].pc.prev);
    case Removed(f) =>
      assert FlightOk(w, s.table[f]);
      EnterContents(w, s, f, Closed(s.table[f].phase.res));
      FlightsContents(w, Enter(s, f, Closed(s.table[f].phase.res)), Step(w, s, l).flights);
    case Arrived(i, now, forgotten) =>
      if s.reqs[i].site in s.mem { assert PairedEntry(w, s.reqs[i].site.1, Some(s.mem[s.reqs[i].site])); }
      GotoContents(w, s, i, Decide(w, s, i, now, forgotten));
    case NegHit(i) => GotoContents(w, s, i, Done(NotFound));
    case Left(i) => GotoContents(w, s, i, Done(Lost));
    case Forgot(_) =>
  }

  lemma FlightsContents(w: World, s: Sys, flights: map<Site, nat>)
    requires ContentsOk(w, s)
    ensures ContentsOk(w, s.(flights := flights))
  {}

  lemma SaveContents(w: World, s: Sys, j: nat, applied: bool)
    requires ContentsOk(w, s) && j < |s.saves|
    ensures ContentsOk(w, Save(w, s, j, applied))
  {
    hide F.Frame, Paired;
    assert FrameOk(w, s.saves[j].0, F.Frame(w.gzip, s.saves[j].1));
  }

  // ------------------------------------------------------------------- flights

  /** An answer touches its own flight, the memory, the saves and the not-founds. */
  lemma HearShape(w: World, s: Sys, f: nat, prev: Option<Entry>, response: Response, now: int, kept: bool)
    requires f < |s.table|
    ensures var t := Hear(w, s, f, prev, response, now, kept);
      && t.reqs == s.reqs && t.flights == s.flights && t.store == s.store
      && |t.table| == |s.table| && t.table[f].phase.Removing?
      && t.table == s.table[f := Flight(s.table[f].site, t.table[f].phase)]
  {
    hide F.Frame, DocOf, Changed;
  }

  lemma EnterFlights(reqs: seq<Req>, flights: map<Site, nat>, table: seq<Flight>, f: nat, phase: Phase)
    requires FlightsOk(reqs, flights, table) && f < |table| && !table[f].phase.Closed? && !phase.Closed?
    ensures FlightsOk(reqs, flights, table[f := Flight(table[f].site, phase)])
  {
    var t := table[f := Flight(table[f].site, phase)];
    forall g | 0 <= g < |t| ensures t[g].phase.Closed? || Listed(flights, t, g) {
      assert table[g].phase.Closed? || Listed(flights, table, g);
    }
  }

  lemma GotoFlights(reqs: seq<Req>, flights: map<Site, nat>, table: seq<Flight>, i: nat, pc: Pc)
    requires FlightsOk(reqs, flights, table) && i < |reqs| && !pc.Waiting?
    ensures FlightsOk(reqs[i := reqs[i].(pc := pc)], flights, table)
  {}

  lemma JoinFlights(s: Sys, i: nat, prev: Option<Entry>)
    requires FlightsOk(s.reqs, s.flights, s.table) && i < |s.reqs|
    ensures var t := Join(s, i, prev); FlightsOk(t.reqs, t.flights, t.table)
  {
    var t := Join(s, i, prev);
    forall g | 0 <= g < |s.table| ensures t.table[g].phase.Closed? || Listed(t.flights, t.table, g) {
      assert s.table[g].phase.Closed? || Listed(s.flights, s.table, g);
    }
  }

  lemma RemoveFlights(s: Sys, f: nat)
    requires FlightsOk(s.reqs, s.flights, s.table) && f < |s.table| && s.table[f].phase.Removing?
    ensures var t := Remove(s, f); FlightsOk(t.reqs, t.flights, t.table)
  {
    var t := Remove(s, f);
    assert Listed(s.flights, s.table, f);
    forall g | 0 <= g < |t.table| ensures t.table[g].phase.Closed? || Listed(t.flights, t.table, g) {
      assert s.table[g].phase.Closed? || Listed(s.flights, s.table, g);
    }
  }

  lemma StepFlights(w: World, s: Sys, l: Label)
    requires FlightsOk(s.reqs, s.flights, s.table) && Can(w, s, l)
    ensures var t := Step(w, s, l); FlightsOk(t.reqs, t.flights, t.table)
  {
    hide FlightsOk, Hear, Join, Remove, FromStore, F.Frame;
    match l
    case Answered(f, response, now, kept) =>
      HearShape(w, s, f, s.table[f].phase.prev, response, now, kept);
      EnterFlights(s.reqs, s.flights, s.table, f, Step(w, s, l).table[f].phase);
    case Loaded(f, _) => EnterFlights(s.reqs, s.flights, s.table, f, Step(w, s, l).table[f].phase);
    case Joined(i) => JoinFlights(s, i, s.reqs[i].pc.prev);
    case Removed(f) => RemoveFlights(s, f);
    case Arrived(i, now, forgotten) => GotoFlights(s.reqs, s.flights, s.table, i, Decide(w, s, i, now, forgotten));
    case NegHit(i) => GotoFlights(s.reqs, s.flights, s.table, i, Done(NotFound));
    case Left(i) => GotoFlights(s.reqs, s.flights, s.table, i, Done(Lost));
    case Woken(i) => GotoFlights(s.reqs, s.flights, s.table, i, Step(w, s, l).reqs[i].pc);
    case Saved(_, _) =>
    case Forgot(_) =>
  }

  lemma StepKeeps(w: World, s: Sys, l: Label)
    requires WorldOk(w) && Inv(w, s) && Can(w, s, l)
    ensures Inv(w, Step(w, s, l))
  {
    hide ContentsOk, FlightsOk, Step, Can;
    StepContents(w, s, l);
    StepFlights(w, s, l);
  }

  ghost predicate Init(w: World, s: Sys) {
    && WorldOk(w) && (forall i | 0 <= i < |s.reqs| :: s.reqs[i].pc == Arrive)
    && s.flights == map[] && s.table == [] && s.mem == map[] && s.saves == [] && s.store == map[]
  }

  lemma InitOk(w: World, s: Sys)
    requires Init(w, s)
    ensures WorldOk(w) && Inv(w, s)
  {}

  ghost predicate Runs(w: World, s: Sys, ls: seq<Label>, t: Sys)
    decreases |ls|
  {
    if ls == [] then s == t else Can(w, s, ls[0]) && Runs(w, Step(w, s, ls[0]), ls[1..], t)
  }

  lemma {:induction false} RunKeeps(w: World, s: Sys, ls: seq<Label>, t: Sys)
    requires WorldOk(w) && Inv(w, s) && Runs(w, s, ls, t)
    ensures Inv(w, t)
    decreases |ls|
  {
    hide Inv, Step, Can, WorldOk;
    if ls != [] {
      StepKeeps(w, s, ls[0]);
      RunKeeps(w, Step(w, s, ls[0]), ls[1..], t);
    }
  }

  /** Every packument that is served, remembered or stored has the ETag, the media
      type and the document of one 200 of upstream's for that key: across refreshes
      that share a flight, 304s, failures, replicas and saves that race. Only where an ETag
      held a tab and was read from the store is it cut there. */
  lemma PairsStayTogether(w: World, s: Sys, ls: seq<Label>, t: Sys)
    requires Init(w, s) && Runs(w, s, ls, t)
    ensures forall i | 0 <= i < |t.reqs| && t.reqs[i].pc.Done? && t.reqs[i].pc.answer.Served? ::
      Paired(w, t.reqs[i].site.1, t.reqs[i].pc.answer.doc)
    ensures forall site | site in t.mem :: Paired(w, site.1, t.mem[site].doc)
    ensures forall key | key in t.store && F.Load(w.gzip, t.store[key]).Some? ::
      Paired(w, key, F.Load(w.gzip, t.store[key]).value)
    ensures forall key | key in t.store :: F.Load(w.gzip, t.store[key]).Some? <==> |t.store[key]| <= F.MAX + 1
  {
    hide Paired, FrameOk, Runs, F.Load, FlightsOk, WorldOk;
    InitOk(w, s);
    RunKeeps(w, s, ls, t);
    forall i | 0 <= i < |t.reqs| ensures PcOk(w, t.reqs[i]) {}
    forall key | key in t.store
      ensures F.Load(w.gzip, t.store[key]).Some? <==> |t.store[key]| <= F.MAX + 1
      ensures F.Load(w.gzip, t.store[key]).Some? ==> Paired(w, key, F.Load(w.gzip, t.store[key]).value)
    {
      FrameLoads(w, key, t.store[key]);
    }
  }

  /** A stored frame reads back as its document, or, when it is too large, not at all. */
  lemma FrameLoads(w: World, key: Key, frame: F.Bytes)
    requires WorldOk(w) && FrameOk(w, key, frame)
    ensures F.Load(w.gzip, frame).Some? <==> |frame| <= F.MAX + 1
    ensures F.Load(w.gzip, frame).Some? ==>
      Paired(w, key, F.Load(w.gzip, frame).value) && |F.Load(w.gzip, frame).value.body| <= F.MAX
  {
    hide F.Frame, F.Load, F.Meta;
    var doc :| Own(w, key, doc) && |doc.body| <= F.MAX && frame == F.Frame(w.gzip, doc);
    var ctype :| w.answers(key, doc.etag, ctype, doc.body) && doc.ctype == (if ctype == [] then JSON_TYPE else ctype);
    F.FrameLoads(w.gzip, doc);
    F.ReadBackOf(doc);
  }

  /** At any moment one refresh at most runs for a packument in a replica. */
  lemma OneRefreshAtATime(w: World, s: Sys, ls: seq<Label>, t: Sys)
    requires Init(w, s) && Runs(w, s, ls, t)
    ensures forall f, g | 0 <= f < g < |t.table| && !t.table[f].phase.Closed? && !t.table[g].phase.Closed? ::
      t.table[f].site != t.table[g].site
  {
    hide ContentsOk, Runs, WorldOk;
    InitOk(w, s);
    RunKeeps(w, s, ls, t);
    forall f | 0 <= f < |t.table| ensures t.table[f].phase.Closed? || Listed(t.flights, t.table, f) {}
  }
}
