/** What every step of every request keeps, and what follows for whole runs. */
module PullThroughSafety {
  import opened Common
  import opened Reading
  import U = Upload
  import opened PullThrough

  // ------------------------------------------------------- invariant: the flights

  /** From taking the lock until delete(c.flights, key). */
  predicate Registered(act: Act) { !act.Close? }

  predicate Slotted(act: Act) { act != Queued && !act.Remove? && !act.Close? }

  predicate HoldsSlot(q: Req) { q.pc.Lead? && Slotted(q.pc.act) }

  function SlotOf(replica: nat): Req -> nat { (q: Req) => if q.replica == replica && HoldsSlot(q) then 1 else 0 }

  predicate BeforeFetch(act: Act) { act == Queued || act == Expecting || act.Fetching? }

  ghost predicate ReqOk(flights: map<Site, nat>, table: seq<Flight>, q: Req, i: nat) {
    match q.pc
    case Waiting(f) => f < |table| && table[f].site == SiteOf(q)
    case Lead(f, act) =>
      && f < |table| && table[f].leader == i && table[f].site == SiteOf(q) && table[f].closes == 0
      && (BeforeFetch(act) ==> table[f].fetches == 0)
      && (Registered(act) ==> SiteOf(q) in flights && flights[SiteOf(q)] == f)
    case _ => true
  }

  ghost predicate FlightOk(reqs: seq<Req>, fl: Flight, f: nat) {
    && fl.leader < |reqs| && SiteOf(reqs[fl.leader]) == fl.site && fl.closes <= 1 && fl.fetches <= 1
    && (fl.closes == 0 ==> reqs[fl.leader].pc.Lead? && reqs[fl.leader].pc.f == f)
    && (fl.closes == 1 ==> reqs[fl.leader].pc.Finished?)
  }

  ghost predicate SiteOk(reqs: seq<Req>, table: seq<Flight>, site: Site, f: nat) {
    f < |table| && table[f].site == site && table[f].leader < |reqs| &&
    var q := reqs[table[f].leader];
    q.pc.Lead? && q.pc.f == f && Registered(q.pc.act)
  }

  ghost predicate FlightsOk(s: Sys) {
    && (forall i | 0 <= i < |s.reqs| :: ReqOk(s.flights, s.table, s.reqs[i], i))
    && (forall f | 0 <= f < |s.table| :: FlightOk(s.reqs, s.table[f], f))
    && (forall f, g | 0 <= f < g < |s.table| :: s.table[f].leader != s.table[g].leader)
    && (forall site | site in s.flights :: SiteOk(s.reqs, s.table, site, s.flights[site]))
  }

  ghost predicate SlotsOk(w: World, s: Sys) {
    forall p: nat :: Taken(s, p) == Sum(s.reqs, SlotOf(p)) <= w.maxFetches
  }

  // ------------------------------------------------------ invariant: the contents

  /** What may be stored at k: a whole upstream body; of a NAR, one that has the size
      and the hash some narinfo announced for it. */
  ghost predicate Good(w: World, k: Key, b: seq<byte>) {
    w.origin(k, b) && (w.checked(k) ==> exists e :: w.announced(k, e) && Matches(b, Some(e), w.hash))
  }

  ghost predicate AnswerOk(w: World, stored: set<Key>, q: Req, a: Answer) {
    match a
    case Clean(b) => w.origin(q.key, b)
    case Redirect => q.key in stored
    case _ => true
  }

  ghost predicate FromOrigin(w: World, k: Key, r: Reader) {
    Ok(r) && r.hash == w.hash && (WholeReader(r) ==> w.origin(k, r.body.data))
  }

  ghost predicate Announced(w: World, k: Key, expected: Option<Expectation>) {
    && (expected.Some? ==> w.announced(k, expected.value))
    && (w.checked(k) ==> expected.Some?)
  }

  ghost predicate ActOk(w: World, stored: set<Key>, q: Req, act: Act) {
    var k := q.key;
    match act
    case Queued => true
    case Expecting => true
    case Fetching(e, pass) => if pass then e.None? else Announced(w, k, e)
    case Reading(r) => FromOrigin(w, k, r) && !w.large(k) && r.expected.None? && r.err.None? && r.n <= MAX_SMALL
    case Storing(u, a) =>
      U.Inv(u) && !w.large(k) && w.origin(k, u.reader.body.data) && AnswerOk(w, stored, q, a) &&
        (u.s3.visible.Some? ==> k in stored)
    case Copying(r) => FromOrigin(w, k, r) && w.large(k) && r.expected.None? && r.err.None?
    case Uploading(u) =>
      U.Inv(u) && w.large(k) && FromOrigin(w, k, u.reader) && Announced(w, k, u.reader.expected) &&
        (u.s3.visible.Some? ==> k in stored)
    case Draining(r) => FromOrigin(w, k, r) && w.large(k) && r.err.None?
    case Settling(r, st) => FromOrigin(w, k, r) && w.large(k) && r.err.Some? &&
      (st ==> r.err == Some(Eof) && k in stored)
    case Release(a) => AnswerOk(w, stored, q, a)
    case Remove(a) => AnswerOk(w, stored, q, a)
    case Close(a) => AnswerOk(w, stored, q, a)
  }

  ghost predicate PcOk(w: World, stored: set<Key>, q: Req) {
    match q.pc
    case Presign => q.key in stored
    case Lead(_, act) => ActOk(w, stored, q, act)
    case Finished(a) => AnswerOk(w, stored, q, a)
    case _ => true
  }

  ghost predicate OutcomeOk(w: World, stored: set<Key>, fl: Flight) {
    && (fl.res.Ok200? && !w.large(fl.site.1) ==> w.origin(fl.site.1, fl.res.body))
    && (fl.stored ==> fl.site.1 in stored)
  }

  ghost predicate StoreOk(w: World, store: map<Key, seq<byte>>) { forall k | k in store :: Good(w, k, store[k]) }

  ghost predicate MemOk(w: World, mem: map<Site, seq<byte>>) {
    forall site | site in mem :: w.origin(site.1, mem[site])
  }

  ghost predicate ContentsOk(w: World, s: Sys) {
    && StoreOk(w, s.store) && MemOk(w, s.mem)
    && (forall i | 0 <= i < |s.reqs| :: PcOk(w, s.store.Keys, s.reqs[i]))
    && (forall f | 0 <= f < |s.table| :: OutcomeOk(w, s.store.Keys, s.table[f]))
  }

  ghost predicate Inv(w: World, s: Sys) { WorldOk(w) && FlightsOk(s) && SlotsOk(w, s) && ContentsOk(w, s) }

  // --------------------------------------------------------- keeping the flights

  lemma SlotsMove(w: World, s: Sys, i: nat, q: Req)
    requires SlotsOk(w, s) && i < |s.reqs| && q.replica == s.reqs[i].replica
    ensures forall p: nat ::
      Sum(s.reqs[i := q], SlotOf(p)) == Sum(s.reqs, SlotOf(p)) - SlotOf(p)(s.reqs[i]) + SlotOf(p)(q)
  {
    forall p: nat
      ensures Sum(s.reqs[i := q], SlotOf(p)) == Sum(s.reqs, SlotOf(p)) - SlotOf(p)(s.reqs[i]) + SlotOf(p)(q)
    {
      SumUpdate(s.reqs, i, q, SlotOf(p));
    }
  }

  /** A request that leads nothing goes on and still leads nothing. */
  lemma PlainFlights(w: World, s: Sys, t: Sys, i: nat, pc: Pc)
    requires FlightsOk(s) && SlotsOk(w, s) && i < |s.reqs| && !s.reqs[i].pc.Lead? && !s.reqs[i].pc.Finished?
    requires !pc.Lead? && ReqOk(s.flights, s.table, s.reqs[i].(pc := pc), i)
    requires t.reqs == s.reqs[i := s.reqs[i].(pc := pc)] && t.flights == s.flights && t.table == s.table
    requires t.sem == s.sem
    ensures FlightsOk(t) && SlotsOk(w, t)
  {
    SlotsMove(w, s, i, t.reqs[i]);
    forall f | 0 <= f < |t.table| ensures FlightOk(t.reqs, t.table[f], f) { assert FlightOk(s.reqs, s.table[f], f); }
    forall site | site in t.flights
      ensures SiteOk(t.reqs, t.table, site, t.flights[site])
    {
      assert SiteOk(s.reqs, s.table, site, s.flights[site]);
    }
    forall j | 0 <= j < |t.reqs|
      ensures ReqOk(t.flights, t.table, t.reqs[j], j)
    {
      assert ReqOk(s.flights, s.table, s.reqs[j], j);
    }
  }

  /** The same flight, but for its result. */
  ghost predicate SameFlight(a: Flight, b: Flight) { a.site == b.site && a.leader == b.leader && a.closes == b.closes }

  /** A registered leader goes on and stays registered. */
  lemma LeadFlights(w: World, s: Sys, t: Sys, i: nat, act: Act)
    requires FlightsOk(s) && SlotsOk(w, s) && i < |s.reqs| && s.reqs[i].pc.Lead? && Registered(s.reqs[i].pc.act)
    requires Registered(act)
    requires t.reqs == s.reqs[i := s.reqs[i].(pc := Lead(s.reqs[i].pc.f, act))] && t.flights == s.flights
    requires |t.table| == |s.table|
    requires forall f | 0 <= f < |s.table| ::
      if f == s.reqs[i].pc.f then SameFlight(s.table[f], t.table[f]) else s.table[f] == t.table[f]
    requires var f := s.reqs[i].pc.f; f < |s.table| ==>
      t.table[f].fetches <= 1 &&
        (BeforeFetch(act) ==> BeforeFetch(s.reqs[i].pc.act) && t.table[f].fetches == s.table[f].fetches)
    requires forall p: nat ::
      Taken(t, p) <= w.maxFetches && Taken(t, p) + SlotOf(p)(s.reqs[i]) == Taken(s, p) + SlotOf(p)(t.reqs[i])
    ensures FlightsOk(t) && SlotsOk(w, t)
  {
    hide Sum;
    LeadSlots(w, s, t, i);
    forall f | 0 <= f < |t.table| ensures FlightOk(t.reqs, t.table[f], f) { assert FlightOk(s.reqs, s.table[f], f); }
    forall site | site in t.flights
      ensures SiteOk(t.reqs, t.table, site, t.flights[site])
    {
      assert SiteOk(s.reqs, s.table, site, s.flights[site]);
    }
    forall j | 0 <= j < |t.reqs|
      ensures ReqOk(t.flights, t.table, t.reqs[j], j)
    {
      assert ReqOk(s.flights, s.table, s.reqs[j], j);
    }
  }

  lemma LeadSlots(w: World, s: Sys, t: Sys, i: nat)
    requires SlotsOk(w, s) && i < |s.reqs| == |t.reqs| && t.reqs == s.reqs[i := t.reqs[i]]
    requires t.reqs[i].replica == s.reqs[i].replica
    requires forall p: nat ::
      Taken(t, p) <= w.maxFetches && Taken(t, p) + SlotOf(p)(s.reqs[i]) == Taken(s, p) + SlotOf(p)(t.reqs[i])
    ensures SlotsOk(w, t)
  {
    SlotsMove(w, s, i, t.reqs[i]);
  }

  /** One that held none goes on and holds none. */
  lemma NoSlots(w: World, s: Sys, t: Sys, i: nat)
    requires SlotsOk(w, s) && i < |s.reqs| == |t.reqs| && t.reqs == s.reqs[i := t.reqs[i]]
    requires t.reqs[i].replica == s.reqs[i].replica
    requires t.sem == s.sem && !HoldsSlot(s.reqs[i]) && !HoldsSlot(t.reqs[i])
    ensures SlotsOk(w, t)
  {
    SlotsMove(w, s, i, t.reqs[i]);
  }

  lemma StartedFlights(s: Sys, i: nat)
    requires FlightsOk(s) && i < |s.reqs| && s.reqs[i].pc == Lock && SiteOf(s.reqs[i]) !in s.flights
    ensures FlightsOk(JoinOrLead(s, i))
  {
    hide SiteOk;
    var t, n := JoinOrLead(s, i), |s.table|;
    forall f | 0 <= f < n ensures FlightOk(t.reqs, t.table[f], f) && t.table[f].leader != i {
      assert FlightOk(s.reqs, s.table[f], f);
      assert t.table[f] == s.table[f];
    }
    forall site | site in t.flights ensures SiteOk(t.reqs, t.table, site, t.flights[site]) { StartedSites(s, i, site); }
    forall j | 0 <= j < |t.reqs| ensures ReqOk(t.flights, t.table, t.reqs[j], j) { StartedReqs(s, i, j); }
  }

  lemma StartedReqs(s: Sys, i: nat, j: nat)
    requires FlightsOk(s) && i < |s.reqs| && s.reqs[i].pc == Lock && SiteOf(s.reqs[i]) !in s.flights && j < |s.reqs|
    ensures var t := JoinOrLead(s, i); ReqOk(t.flights, t.table, t.reqs[j], j)
  {
    hide SiteOk, FlightOk;
    assert ReqOk(s.flights, s.table, s.reqs[j], j);
  }

  lemma StartedSites(s: Sys, i: nat, site: Site)
    requires FlightsOk(s) && i < |s.reqs| && s.reqs[i].pc == Lock && SiteOf(s.reqs[i]) !in s.flights
    requires site in JoinOrLead(s, i).flights
    ensures var t := JoinOrLead(s, i); SiteOk(t.reqs, t.table, site, t.flights[site])
  {
    hide ReqOk, FlightOk;
    if site in s.flights {
      assert SiteOk(s.reqs, s.table, site, s.flights[site]);
      assert JoinOrLead(s, i).table[s.flights[site]] == s.table[s.flights[site]];
    }
  }

  lemma LockedFlights(w: World, s: Sys, i: nat)
    requires FlightsOk(s) && SlotsOk(w, s) && i < |s.reqs| && s.reqs[i].pc == Lock
    ensures FlightsOk(JoinOrLead(s, i)) && SlotsOk(w, JoinOrLead(s, i))
  {
    var t, q := JoinOrLead(s, i), s.reqs[i];
    if SiteOf(q) in s.flights {
      assert SiteOk(s.reqs, s.table, SiteOf(q), s.flights[SiteOf(q)]);
      PlainFlights(w, s, t, i, Waiting(s.flights[SiteOf(q)]));
    } else {
      StartedFlights(s, i);
      StartedSlots(w, s, i);
    }
  }

  lemma StartedSlots(w: World, s: Sys, i: nat)
    requires SlotsOk(w, s) && i < |s.reqs| && s.reqs[i].pc == Lock && SiteOf(s.reqs[i]) !in s.flights
    ensures SlotsOk(w, JoinOrLead(s, i))
  {
    SlotsMove(w, s, i, JoinOrLead(s, i).reqs[i]);
  }

  lemma RemovedFlights(w: World, s: Sys, i: nat)
    requires FlightsOk(s) && SlotsOk(w, s) && i < |s.reqs| && s.reqs[i].pc.Lead? && s.reqs[i].pc.act.Remove?
    ensures var t := Go(s, i, Close(s.reqs[i].pc.act.answer)).(flights := s.flights - {SiteOf(s.reqs[i])});
      FlightsOk(t) && SlotsOk(w, t)
  {
    var t := Go(s, i, Close(s.reqs[i].pc.act.answer)).(flights := s.flights - {SiteOf(s.reqs[i])});
    hide SlotsOk;
    NoSlots(w, s, t, i);
    assert ReqOk(s.flights, s.table, s.reqs[i], i);
    forall f | 0 <= f < |t.table| ensures FlightOk(t.reqs, t.table[f], f) { assert FlightOk(s.reqs, s.table[f], f); }
    forall site | site in t.flights
      ensures SiteOk(t.reqs, t.table, site, t.flights[site])
    {
      assert SiteOk(s.reqs, s.table, site, s.flights[site]);
    }
    forall j | 0 <= j < |t.reqs| ensures ReqOk(t.flights, t.table, t.reqs[j], j) {
      assert ReqOk(s.flights, s.table, s.reqs[j], j);
      assert j != i && s.reqs[j].pc.Lead? && Registered(s.reqs[j].pc.act) ==> SiteOf(s.reqs[j]) != SiteOf(s.reqs[i]);
    }
  }

  lemma ClosedFlights(w: World, s: Sys, i: nat)
    requires FlightsOk(s) && SlotsOk(w, s) && i < |s.reqs| && s.reqs[i].pc.Lead? && s.reqs[i].pc.act.Close?
    ensures FlightsOk(CloseFlight(s, i)) && SlotsOk(w, CloseFlight(s, i))
  {
    var t := CloseFlight(s, i);
    hide SlotsOk;
    NoSlots(w, s, t, i);
    assert ReqOk(s.flights, s.table, s.reqs[i], i);
    forall f | 0 <= f < |t.table| ensures FlightOk(t.reqs, t.table[f], f) { assert FlightOk(s.reqs, s.table[f], f); }
    forall site | site in t.flights
      ensures SiteOk(t.reqs, t.table, site, t.flights[site])
    {
      assert SiteOk(s.reqs, s.table, site, s.flights[site]);
    }
    forall j | 0 <= j < |t.reqs|
      ensures ReqOk(t.flights, t.table, t.reqs[j], j)
    {
      assert ReqOk(s.flights, s.table, s.reqs[j], j);
    }
  }

  // -------------------------------------------------------- keeping the contents

  /** Request i goes on; what the store shows only grows; flights and memory gain
      nothing bad. */
  lemma ContentsMove(w: World, s: Sys, t: Sys, i: nat)
    requires ContentsOk(w, s) && i < |s.reqs| == |t.reqs|
    requires forall j | 0 <= j < |s.reqs| && j != i :: t.reqs[j] == s.reqs[j]
    requires StoreOk(w, t.store) && s.store.Keys <= t.store.Keys && MemOk(w, t.mem)
    requires PcOk(w, t.store.Keys, t.reqs[i])
    requires forall f | 0 <= f < |t.table| ::
      (f < |s.table| && t.table[f] == s.table[f]) || OutcomeOk(w, t.store.Keys, t.table[f])
    ensures ContentsOk(w, t)
  {
    hide U.Inv, FromOrigin;
    forall j | 0 <= j < |t.reqs| ensures PcOk(w, t.store.Keys, t.reqs[j]) {
      if j != i { assert PcOk(w, s.store.Keys, s.reqs[j]); }
    }
    forall f | 0 <= f < |t.table| ensures OutcomeOk(w, t.store.Keys, t.table[f]) {
      if f < |s.table| { assert OutcomeOk(w, s.store.Keys, s.table[f]); }
    }
  }

  lemma InvReaders(w: World, s: Sys, i: nat)
    requires ContentsOk(w, s) && i < |s.reqs|
    ensures ReadersReady(s, i)
  {
    assert PcOk(w, s.store.Keys, s.reqs[i]);
    if s.reqs[i].pc.Lead? && (s.reqs[i].pc.act.Uploading? || s.reqs[i].pc.act.Storing?) {
      U.InvReady(s.reqs[i].pc.act.u);
    }
  }

  lemma StreamedOk(r: Reader)
    requires Ok(r) && r.err.Some?
    ensures r.err.value in {Eof, Mismatch} <==> WholeReader(r)
    ensures WholeReader(r) ==> Streamed(r) == (if r.client.open then Clean(r.body.data) else Lost)
  {
    EndMeans(r);
  }

  /** A request that leads nothing goes on. */
  lemma PlainMove(w: World, s: Sys, t: Sys, i: nat, pc: Pc)
    requires Inv(w, s) && i < |s.reqs| && !s.reqs[i].pc.Lead? && !s.reqs[i].pc.Finished? && !pc.Lead? && !pc.Waiting?
    requires t == s.(reqs := s.reqs[i := s.reqs[i].(pc := pc)], mem := t.mem) && MemOk(w, t.mem)
    requires PcOk(w, s.store.Keys, s.reqs[i].(pc := pc))
    ensures Inv(w, t)
  {
    hide U.Inv, FlightsOk, SlotsOk;
    PlainFlights(w, s, t, i, pc);
    ContentsMove(w, s, t, i);
  }

  lemma PlainKeeps(w: World, s: Sys, l: Label)
    requires Inv(w, s) && Can(w, s, l) && ReadersReady(s, l.i)
    requires l.HitNeg? || l.HitMem? || l.Presigned? || (l.Left? && s.reqs[l.i].pc.Waiting?)
    ensures Inv(w, Step(w, s, l))
  {
    hide U.Inv, FlightsOk, SlotsOk;
    assert PcOk(w, s.store.Keys, s.reqs[l.i]);
    PlainMove(w, s, Step(w, s, l), l.i, Step(w, s, l).reqs[l.i].pc);
  }

  lemma ProbedKeeps(w: World, s: Sys, l: Label)
    requires Inv(w, s) && Can(w, s, l) && l.Probed?
    ensures Inv(w, Probe(w, s, l.i, l.fail, l.kept, l.proxied))
  {
    hide U.Inv, FlightsOk, SlotsOk, StoreOk, PcOk, ProbePc;
    var q, t := s.reqs[l.i], Probe(w, s, l.i, l.fail, l.kept, l.proxied);
    var pc := ProbePc(w, s, q, l.fail, l.proxied);
    if q.key in s.store { StoredGood(w, s.store, q.key); }
    ProbedPc(w, s, l);
    PlainMove(w, s, t, l.i, pc);
  }

  lemma ProbedPc(w: World, s: Sys, l: Label)
    requires Can(w, s, l) && l.Probed? && StoreOk(w, s.store)
    ensures var q := s.reqs[l.i]; var pc := ProbePc(w, s, q, l.fail, l.proxied);
      PcOk(w, s.store.Keys, q.(pc := pc)) && !q.pc.Lead? && !q.pc.Finished? && !pc.Lead? && !pc.Waiting?
  {}

  lemma StoredGood(w: World, store: map<Key, seq<byte>>, k: Key)
    requires StoreOk(w, store) && k in store
    ensures w.origin(k, store[k])
  {}

  lemma WokenKeeps(w: World, s: Sys, i: nat)
    requires Inv(w, s) && Can(w, s, Woken(i))
    ensures Inv(w, Goto(s, i, Follow(w, s.reqs[i], s.table[s.reqs[i].pc.f])))
  {
    hide U.Inv, FlightsOk, SlotsOk, StoreOk;
    var q := s.reqs[i];
    WaitingSite(s, i);
    assert OutcomeOk(w, s.store.Keys, s.table[q.pc.f]);
    PlainMove(w, s, Goto(s, i, Follow(w, q, s.table[q.pc.f])), i, Follow(w, q, s.table[q.pc.f]));
  }

  lemma WaitingSite(s: Sys, i: nat)
    requires FlightsOk(s) && i < |s.reqs| && s.reqs[i].pc.Waiting?
    ensures s.reqs[i].pc.f < |s.table| && s.table[s.reqs[i].pc.f].site == SiteOf(s.reqs[i])
  {
    assert ReqOk(s.flights, s.table, s.reqs[i], i);
  }

  /** What the flight of a leader is known to be. */
  lemma LeaderFlight(s: Sys, i: nat)
    requires FlightsOk(s) && i < |s.reqs| && s.reqs[i].pc.Lead?
    ensures var f := s.reqs[i].pc.f; f < |s.table| && s.table[f].site == SiteOf(s.reqs[i]) && s.table[f].fetches <= 1
    ensures BeforeFetch(s.reqs[i].pc.act) ==> s.table[s.reqs[i].pc.f].fetches == 0
  {
    assert ReqOk(s.flights, s.table, s.reqs[i], i);
    assert FlightOk(s.reqs, s.table[s.reqs[i].pc.f], s.reqs[i].pc.f);
  }

  /** A leader that goes on without touching slots. */
  lemma GoKeeps(w: World, s: Sys, t: Sys, i: nat, act: Act)
    requires Inv(w, s) && i < |s.reqs| && s.reqs[i].pc.Lead? && Registered(s.reqs[i].pc.act) && Registered(act)
    requires HoldsSlot(s.reqs[i]) <==> HoldsSlot(s.reqs[i].(pc := Lead(s.reqs[i].pc.f, act)))
    requires t.reqs == s.reqs[i := s.reqs[i].(pc := Lead(s.reqs[i].pc.f, act))] && t.flights == s.flights
    requires t.sem == s.sem
    requires |t.table| == |s.table| && forall f | 0 <= f < |s.table| ::
      if f == s.reqs[i].pc.f then
        SameFlight(s.table[f], t.table[f]) && (s.table[f] == t.table[f] || OutcomeOk(w, t.store.Keys, t.table[f]))
      else s.table[f] == t.table[f]
    requires var f := s.reqs[i].pc.f; f < |s.table| ==>
      t.table[f].fetches <= 1 &&
        (BeforeFetch(act) ==> BeforeFetch(s.reqs[i].pc.act) && t.table[f].fetches == s.table[f].fetches)
    requires StoreOk(w, t.store) && s.store.Keys <= t.store.Keys && MemOk(w, t.mem)
    requires ActOk(w, t.store.Keys, s.reqs[i], act)
    ensures Inv(w, t)
  {
    hide U.Inv, FlightsOk, FromOrigin;
    forall p: nat
      ensures Taken(t, p) <= w.maxFetches && Taken(t, p) + SlotOf(p)(s.reqs[i]) == Taken(s, p) + SlotOf(p)(t.reqs[i])
    {
      assert Taken(t, p) == Taken(s, p) == Sum(s.reqs, SlotOf(p)) <= w.maxFetches;
    }
    LeadFlights(w, s, t, i, act);
    SameKeyAct(w, t.store.Keys, s.reqs[i], t.reqs[i], act);
    ContentsMove(w, s, t, i);
  }

  /** The same for the two ways to do so: with its flight as it is, and with a note. */
  lemma GoOn(w: World, s: Sys, i: nat, act: Act)
    requires Inv(w, s) && LeaderKnown(w, s, i) && Registered(act) && (Slotted(act) <==> Slotted(s.reqs[i].pc.act))
    requires BeforeFetch(act) ==> BeforeFetch(s.reqs[i].pc.act)
    requires ActOk(w, s.store.Keys, s.reqs[i], act)
    ensures Inv(w, Go(s, i, act))
  {
    hide Inv, ActOk, OutcomeOk, StoreOk, MemOk, Slotted, BeforeFetch;
    GoKeeps(w, s, Go(s, i, act), i, act);
  }

  lemma NoteOn(w: World, s: Sys, i: nat, res: Res, stored: bool, act: Act)
    requires Inv(w, s) && LeaderKnown(w, s, i) && Registered(act) && (Slotted(act) <==> Slotted(s.reqs[i].pc.act))
    requires !BeforeFetch(act) && ActOk(w, s.store.Keys, s.reqs[i], act)
    requires OutcomeOk(w, s.store.Keys, s.table[s.reqs[i].pc.f].(res := res, stored := stored))
    ensures Note(s, i, res, stored).reqs == s.reqs && Inv(w, Go(Note(s, i, res, stored), i, act))
  {
    hide Inv, ActOk, OutcomeOk, StoreOk, MemOk, Slotted, BeforeFetch;
    GoKeeps(w, s, Go(Note(s, i, res, stored), i, act), i, act);
  }

  lemma NoteReqs(s: Sys, i: nat)
    requires i < |s.reqs| && s.reqs[i].pc.Lead?
    ensures forall res, stored :: Note(s, i, res, stored).reqs == s.reqs
  {}

  lemma SameKeyAct(w: World, stored: set<Key>, q: Req, q': Req, act: Act)
    requires q.key == q'.key && ActOk(w, stored, q, act)
    ensures ActOk(w, stored, q', act)
  {
    hide U.Inv, FromOrigin;
  }

  lemma SlotKeeps(w: World, s: Sys, t: Sys, i: nat, act: Act)
    requires Inv(w, s) && i < |s.reqs| && s.reqs[i].pc.Lead? && Registered(s.reqs[i].pc.act) && Registered(act)
    requires HoldsSlot(s.reqs[i]) ==> Taken(s, s.reqs[i].replica) > 0
    requires var q, taken := s.reqs[i], Taken(s, s.reqs[i].replica);
      t == Go(s, i, act).(sem := s.sem[q.replica := if HoldsSlot(q) then taken - 1 else taken + 1])
    requires HoldsSlot(s.reqs[i]) <==> !HoldsSlot(t.reqs[i])
    requires !HoldsSlot(s.reqs[i]) ==> Taken(s, s.reqs[i].replica) < w.maxFetches
    requires BeforeFetch(act) ==> BeforeFetch(s.reqs[i].pc.act)
    requires ActOk(w, s.store.Keys, s.reqs[i], act)
    ensures Inv(w, t)
  {
    hide U.Inv, FlightsOk, FromOrigin, ContentsOk;
    LeaderFlight(s, i);
    LeaderAct(w, s, i);
    var q := s.reqs[i];
    SumTerm(s.reqs, i, SlotOf(q.replica));
    forall p: nat
      ensures Taken(t, p) <= w.maxFetches && Taken(t, p) + SlotOf(p)(q) == Taken(s, p) + SlotOf(p)(t.reqs[i])
    {
      assert Taken(s, p) == Sum(s.reqs, SlotOf(p));
    }
    LeadFlights(w, s, t, i, act);
    SameKeyAct(w, t.store.Keys, q, t.reqs[i], act);
    ContentsMove(w, s, t, i);
  }

  lemma AcquiredKeeps(w: World, s: Sys, l: Label)
    requires Inv(w, s) && Can(w, s, l) && ReadersReady(s, l.i) && l.Acquired?
    ensures Inv(w, Step(w, s, l))
  {
    hide U.Inv, FlightsOk, SlotsOk, ContentsOk;
    SlotKeeps(w, s, Step(w, s, l), l.i, Step(w, s, l).reqs[l.i].pc.act);
  }

  lemma ReleasedKeeps(w: World, s: Sys, l: Label)
    requires Inv(w, s) && Can(w, s, l) && ReadersReady(s, l.i) && l.Released?
    ensures Inv(w, Step(w, s, l))
  {
    hide U.Inv, FlightsOk;
    var q := s.reqs[l.i];
    assert PcOk(w, s.store.Keys, q);
    SumTerm(s.reqs, l.i, SlotOf(q.replica));
    assert Taken(s, q.replica) == Sum(s.reqs, SlotOf(q.replica));
    SlotKeeps(w, s, Step(w, s, l), l.i, Remove(q.pc.act.answer));
  }

  lemma LookedKeeps(w: World, s: Sys, l: Label)
    requires Inv(w, s) && Can(w, s, l) && ReadersReady(s, l.i) && (l.Looked? || (l.Left? && s.reqs[l.i].pc.Lead?))
    ensures Inv(w, Step(w, s, l))
  {
    hide U.Inv, FlightsOk, SlotsOk;
    LeaderFlight(s, l.i);
    assert PcOk(w, s.store.Keys, s.reqs[l.i]);
    GoKeeps(w, s, Step(w, s, l), l.i, Step(w, s, l).reqs[l.i].pc.act);
  }

  lemma FetchKeeps(w: World, s: Sys, l: Label)
    requires Inv(w, s) && Can(w, s, l) && ReadersReady(s, l.i) && (l.FetchFailed? || l.FetchGone? || l.Fetched?)
    ensures Inv(w, Step(w, s, l))
  {
    hide Inv, StartFetched, ActOk, U.Can, Go, Goto, CountFetch, Note;
    Know(w, s, l.i);
    Counted(s, l.i);
    match l
    case FetchFailed(i) =>
      FailedAct(w, s.store.Keys, s.reqs[i]);
      CountOn(w, s, i, Release(BadGateway));
    case FetchGone(i) => GoneKeeps(w, s, i);
    case Fetched(i, body, want, moods) =>
      FetchedOk(w, s, l);
      FetchedAct(w, s.reqs[i], l);
      CountOn(w, s, i, StartFetched(w, s.reqs[i], body, want, moods));
  }

  lemma Counted(s: Sys, i: nat)
    requires i < |s.reqs| && s.reqs[i].pc.Lead?
    ensures CountFetch(s, i).reqs == s.reqs
    ensures forall res, stored :: Note(CountFetch(s, i), i, res, stored).reqs == s.reqs
  {}

  lemma FailedAct(w: World, stored: set<Key>, q: Req)
    ensures ActOk(w, stored, q, Release(BadGateway)) && ActOk(w, stored, q, Release(NotFound))
  {}

  /** A fetch is counted, and the leader goes on. */
  lemma CountOn(w: World, s: Sys, i: nat, act: Act)
    requires Inv(w, s) && LeaderKnown(w, s, i) && s.reqs[i].pc.act.Fetching? && Registered(act) && Slotted(act)
    requires !BeforeFetch(act)
    requires ActOk(w, s.store.Keys, s.reqs[i], act)
    ensures CountFetch(s, i).reqs == s.reqs && Inv(w, Go(CountFetch(s, i), i, act))
  {
    hide Inv, ActOk, StoreOk, MemOk;
    NotFetched(w, s, i);
    GoKeeps(w, s, Go(CountFetch(s, i), i, act), i, act);
  }

  lemma NotFetched(w: World, s: Sys, i: nat)
    requires Inv(w, s) && i < |s.reqs| && s.reqs[i].pc.Lead? && BeforeFetch(s.reqs[i].pc.act)
    ensures s.reqs[i].pc.f < |s.table| && s.table[s.reqs[i].pc.f].fetches == 0
  {
    hide FlightsOk, SlotsOk, ContentsOk;
    LeaderFlight(s, i);
  }

  lemma GoneKeeps(w: World, s: Sys, i: nat)
    requires Inv(w, s) && LeaderKnown(w, s, i) && s.reqs[i].pc.act.Fetching?
    ensures Note(CountFetch(s, i), i, Gone, false).reqs == s.reqs
    ensures Inv(w,
      Go(Note(CountFetch(s, i), i, Gone, false), i, Release(NotFound)).(neg := s.neg + {SiteOf(s.reqs[i])}))
  {
    hide Inv, StoreOk, MemOk;
    NotFetched(w, s, i);
    var t := Go(Note(CountFetch(s, i), i, Gone, false), i, Release(NotFound)).(neg := s.neg + {SiteOf(s.reqs[i])});
    GoKeeps(w, s, t, i, Release(NotFound));
  }

  lemma FlightOutcome(w: World, s: Sys, i: nat)
    requires ContentsOk(w, s) && i < |s.reqs| && s.reqs[i].pc.Lead? && s.reqs[i].pc.f < |s.table|
    ensures OutcomeOk(w, s.store.Keys, s.table[s.reqs[i].pc.f])
  {}

  lemma FetchedAct(w: World, q: Req, l: Label)
    requires q.pc.Lead? && q.pc.act.Fetching? && l.Fetched?
    ensures var a := StartFetched(w, q, l.body, l.want, l.moods); a.Reading? || a.Copying? || a.Uploading?
  {}

  lemma SettledKeeps(w: World, s: Sys, l: Label)
    requires Inv(w, s) && Can(w, s, l) && ReadersReady(s, l.i) && l.Settled?
    ensures Inv(w, Settle(s, l.i))
  {
    hide Inv, Ok, Matches, Verdict, WholeReader, U.Can, Go, Note, Goto;
    Know(w, s, l.i);
    NoteReqs(s, l.i);
    var i, r, stored := l.i, s.reqs[l.i].pc.act.r, s.reqs[l.i].pc.act.stored;
    StreamedOk(r);
    if r.err == Some(Mismatch) {
      NoteOn(w, s, i, Ok200([]), false, Release(Streamed(r)));
    } else if r.err == Some(Eof) {
      NoteOn(w, s, i, Ok200([]), stored, Release(Streamed(r)));
    } else {
      GoOn(w, s, i, Release(Aborted));
    }
  }

  lemma FetchedOk(w: World, s: Sys, l: Label)
    requires Inv(w, s) && Can(w, s, l) && l.Fetched?
    ensures ActOk(w, s.store.Keys, s.reqs[l.i], StartFetched(w, s.reqs[l.i], l.body, l.want, l.moods))
  {
    var q := s.reqs[l.i];
    assert PcOk(w, s.store.Keys, q);
    OpenOk(l.body, l.want, None, w.hash, Client(false, [], []));
    OpenOk(l.body, l.want, q.pc.act.expected, w.hash, Client(true, l.moods, []));
    if w.large(q.key) && !q.pc.act.pass {
      U.BeginOk(w.partSize, w.concurrency, Open(l.body, l.want, q.pc.act.expected, w.hash, Client(true, l.moods, [])));
    }
  }

  /** What every proof about a leader starts from. */
  ghost predicate LeaderKnown(w: World, s: Sys, i: nat) {
    && i < |s.reqs| && s.reqs[i].pc.Lead? && Registered(s.reqs[i].pc.act)
    && var f := s.reqs[i].pc.f;
    && f < |s.table| && s.table[f].site == SiteOf(s.reqs[i]) && s.table[f].fetches <= 1
    && OutcomeOk(w, s.store.Keys, s.table[f]) && ActOk(w, s.store.Keys, s.reqs[i], s.reqs[i].pc.act)
    && StoreOk(w, s.store) && MemOk(w, s.mem)
  }

  lemma Know(w: World, s: Sys, i: nat)
    requires Inv(w, s) && i < |s.reqs| && s.reqs[i].pc.Lead? && Registered(s.reqs[i].pc.act)
    ensures LeaderKnown(w, s, i)
  {
    hide FlightsOk, ContentsOk, ActOk, OutcomeOk;
    LeaderFlight(s, i);
    FlightOutcome(w, s, i);
    LeaderAct(w, s, i);
  }

  lemma SmallReadKeeps(w: World, s: Sys, i: nat, res: ReadResult)
    requires Inv(w, s) && LeaderKnown(w, s, i) && s.reqs[i].pc.act.Reading?
    requires FromOrigin(w, s.reqs[i].key, res.reader) && res.reader.expected.None? && res.err == res.reader.err
    ensures Inv(w, SmallRead(w, s, i, res))
  {
    hide Inv, U.Inv, Ok, WholeReader, Matches, StoreBytes, Go, Note, Goto;
    KnowWorld(w, s);
    NoteReqs(s, i);
    var r := res.reader;
    StoreBytesOk(w, r);
    if r.n > MAX_SMALL || (res.err.Some? && res.err != Some(Eof)) {
      GoOn(w, s, i, Release(BadGateway));
    } else if res.err.None? {
      GoOn(w, s, i, Reading(r));
    } else {
      EndMeans(r);
      var body := r.body.data[..r.n];
      NoteOn(w, s, i, Ok200(body), false, Storing(StoreBytes(w, body), Served(s.reqs[i], body)));
    }
  }

  lemma KnowWorld(w: World, s: Sys)
    requires Inv(w, s)
    ensures WorldOk(w)
  {}

  lemma PassedReadKeeps(w: World, s: Sys, i: nat, res: ReadResult)
    requires Inv(w, s) && LeaderKnown(w, s, i) && s.reqs[i].pc.act.Copying?
    requires FromOrigin(w, s.reqs[i].key, res.reader) && res.reader.expected.None? && res.err == res.reader.err
    ensures Inv(w, PassedRead(s, i, res))
  {
    hide Inv, Verdict, Matches, Ok, WholeReader, Go, Note, Goto;
    NoteReqs(s, i);
    var r := res.reader;
    if res.err.None? {
      GoOn(w, s, i, Copying(r));
    } else {
      StreamedOk(r);
      if res.err == Some(Eof) {
        NoteOn(w, s, i, Ok200([]), false, Release(Streamed(r)));
      } else {
        GoOn(w, s, i, Release(Aborted));
      }
    }
  }

  lemma DrainedReadKeeps(w: World, s: Sys, i: nat, res: ReadResult)
    requires Inv(w, s) && LeaderKnown(w, s, i) && s.reqs[i].pc.act.Draining?
    requires FromOrigin(w, s.reqs[i].key, res.reader) && res.err == res.reader.err
    ensures Inv(w, DrainedRead(s, i, res))
  {
    hide U.Inv, FlightsOk, SlotsOk, ContentsOk, StoreOk, MemOk, FromOrigin;
    var t := DrainedRead(s, i, res);
    GoKeeps(w, s, t, i, t.reqs[i].pc.act);
  }

  lemma MoreKeeps(w: World, s: Sys, l: Label)
    requires Inv(w, s) && Can(w, s, l) && ReadersReady(s, l.i) && l.More?
    ensures Inv(w, ReadMore(w, s, l.i, l.room))
  {
    hide Inv, Next, SmallRead, PassedRead, DrainedRead, OutcomeOk, StoreOk, MemOk, U.Inv, Verdict, Matches, SiteOf;
    var i := l.i;
    Know(w, s, i);
    var r := s.reqs[i].pc.act.r;
    ReadKeeps(r, l.room);
    var res := Next(r, l.room);
    match s.reqs[i].pc.act
    case Reading(_) => SmallReadKeeps(w, s, i, res);
    case Copying(_) => PassedReadKeeps(w, s, i, res);
    case Draining(_) => DrainedReadKeeps(w, s, i, res);
  }

  lemma LeaderAct(w: World, s: Sys, i: nat)
    requires ContentsOk(w, s) && i < |s.reqs| && s.reqs[i].pc.Lead?
    ensures ActOk(w, s.store.Keys, s.reqs[i], s.reqs[i].pc.act) && StoreOk(w, s.store) && MemOk(w, s.mem)
  {
    assert PcOk(w, s.store.Keys, s.reqs[i]);
  }

  lemma StoreBytesOk(w: World, r: Reader)
    requires WorldOk(w) && Ok(r)
    ensures r.n <= |r.body.data|
    ensures var u := StoreBytes(w, r.body.data[..r.n]);
      U.Inv(u) && u.s3.visible.None? && u.reader.body.data == r.body.data[..r.n]
    ensures r.n == |r.body.data| ==> r.body.data[..r.n] == r.body.data
  {
    var body := r.body.data[..r.n];
    var reader := Open(InMemory(body, w.partSize), -1, None, w.hash, Client(false, [], []));
    OpenOk(reader.body, -1, None, w.hash, reader.client);
    U.BeginOk(w.partSize, w.concurrency, reader);
  }

  /** What an upload step does to the bucket: nothing, or the whole body appears. */
  lemma UploadShows(u: U.Up, l: U.Label)
    requires U.Inv(u) && U.Can(u, l) && Ready(u.reader)
    ensures var v := U.Step(u, l);
      && U.Inv(v) && Same(u.reader, v.reader)
      && (!(l.SinglePut? || l.Completed?) ==> v.s3.visible == u.s3.visible)
      && (v.s3.visible.Some? ==>
        v.s3.visible.value == v.reader.body.data && WholeReader(v.reader) &&
          Matches(v.reader.body.data, v.reader.expected, v.reader.hash))
      && Ok(v.reader)
  {
    hide Verdict, Matches, U.Sorted, U.Assemble, U.BytesOk, U.PartsOk, U.Owned, U.EveryPartIn, U.InHandOk;
    U.StepKeeps(u, l);
    var v := U.Step(u, l);
    if v.s3.visible.Some? { EndMeans(v.reader); }
  }

  lemma UploadKeeps(w: World, s: Sys, l: Label)
    requires Inv(w, s) && Can(w, s, l) && ReadersReady(s, l.i) && l.UploadStep?
    ensures Inv(w, UploadMore(s, l.i, l.l))
  {
    hide U.Inv, U.Step, U.Can, FlightsOk, SlotsOk, ContentsOk, FromOrigin;
    var i, t := l.i, UploadMore(s, l.i, l.l);
    LeaderFlight(s, i);
    FlightOutcome(w, s, i);
    LeaderAct(w, s, i);
    UploadAct(w, s, l);
    GoKeeps(w, s, t, i, t.reqs[i].pc.act);
  }

  /** An act goes on with its upload, and more may be stored. */
  lemma ActStep(w: World, stored: set<Key>, stored': set<Key>, q: Req, act: Act, v: U.Up)
    requires (act.Uploading? || act.Storing?) && ActOk(w, stored, q, act) && stored <= stored'
    requires U.Inv(v) && Ok(v.reader) && Same(act.u.reader, v.reader) && (v.s3.visible.Some? ==> q.key in stored')
    ensures ActOk(w, stored', q, if act.Uploading? then Uploading(v) else Storing(v, act.answer))
  {
    hide U.Inv, Ok;
  }

  lemma UploadStore(w: World, s: Sys, l: Label)
    requires WorldOk(w) && StoreOk(w, s.store) && Can(w, s, l) && ReadersReady(s, l.i) && l.UploadStep?
    requires ActOk(w, s.store.Keys, s.reqs[l.i], s.reqs[l.i].pc.act)
    ensures var t, v := UploadMore(s, l.i, l.l), U.Step(s.reqs[l.i].pc.act.u, l.l);
      && StoreOk(w, t.store) && s.store.Keys <= t.store.Keys && (v.s3.visible.Some? ==> s.reqs[l.i].key in t.store)
  {
    hide U.Inv, U.Step, U.Can, Verdict, Good, Matches, Ok;
    var u := s.reqs[l.i].pc.act.u;
    UploadShows(u, l.l);
    var v := U.Step(u, l.l);
    if v.s3.visible.Some? { VisibleGood(w, s.reqs[l.i].key, v.reader, s.reqs[l.i].pc.act.Uploading?); }
  }

  lemma UploadAct(w: World, s: Sys, l: Label)
    requires WorldOk(w) && ContentsOk(w, s) && Can(w, s, l) && ReadersReady(s, l.i) && l.UploadStep?
    ensures var t := UploadMore(s, l.i, l.l);
      && t.reqs[l.i].pc.Lead? && ActOk(w, t.store.Keys, s.reqs[l.i], t.reqs[l.i].pc.act)
      && StoreOk(w, t.store) && s.store.Keys <= t.store.Keys
  {
    hide U.Step, U.Can, ContentsOk, StoreOk, ActOk, U.Inv;
    LeaderAct(w, s, l.i);
    var u, t := s.reqs[l.i].pc.act.u, UploadMore(s, l.i, l.l);
    UploadInv(w, s.store.Keys, s.reqs[l.i], s.reqs[l.i].pc.act);
    UploadShows(u, l.l);
    UploadStore(w, s, l);
    ActStep(w, s.store.Keys, t.store.Keys, s.reqs[l.i], s.reqs[l.i].pc.act, U.Step(u, l.l));
  }

  lemma UploadInv(w: World, stored: set<Key>, q: Req, act: Act)
    requires ActOk(w, stored, q, act) && (act.Uploading? || act.Storing?)
    ensures U.Inv(act.u)
  {
    hide U.Inv;
  }

  /** A body that ended in EOF may be stored. */
  lemma VisibleGood(w: World, k: Key, r: Reader, streamed: bool)
    requires WorldOk(w) && Matches(r.body.data, r.expected, r.hash) && w.origin(k, r.body.data)
    requires if streamed then r.hash == w.hash && Announced(w, k, r.expected) else !w.large(k)
    ensures Good(w, k, r.body.data)
  {
    if w.checked(k) { assert w.announced(k, r.expected.value); }
  }

  lemma LargePutKeeps(w: World, s: Sys, i: nat, u: U.Up)
    requires Inv(w, s) && LeaderKnown(w, s, i) && s.reqs[i].pc.act == Uploading(u) && u.pc.Done?
    ensures Inv(w, LargePut(s, i, u))
  {
    hide U.Inv, FlightsOk, SlotsOk, ContentsOk, StoreOk, MemOk, FromOrigin;
    UploadResult(u);
    var t := LargePut(s, i, u);
    GoKeeps(w, s, t, i, t.reqs[i].pc.act);
  }

  lemma SmallPutKeeps(w: World, s: Sys, i: nat, u: U.Up, answer: Answer, kept: bool)
    requires Inv(w, s) && LeaderKnown(w, s, i) && s.reqs[i].pc.act == Storing(u, answer) && u.pc.Done?
    ensures Inv(w, SmallPut(s, i, u, answer, kept))
  {
    hide Inv, U.Inv, StoreOk, Go, Goto, NoteStored;
    if u.pc.res.Failed? {
      GoOn(w, s, i, Release(answer));
    } else {
      UploadResult(u);
      StoredOn(w, s, i, u.reader.body.data, answer, kept);
    }
  }

  /** An object that is stored is remembered, or not. */
  lemma StoredOn(w: World, s: Sys, i: nat, body: seq<byte>, answer: Answer, kept: bool)
    requires Inv(w, s) && LeaderKnown(w, s, i) && s.reqs[i].pc.act.Storing?
    requires s.reqs[i].key in s.store && w.origin(s.reqs[i].key, body) && AnswerOk(w, s.store.Keys, s.reqs[i], answer)
    ensures NoteStored(s, i).reqs == s.reqs
    ensures Remember(NoteStored(s, i), SiteOf(s.reqs[i]), body, kept).reqs == s.reqs
    ensures Inv(w, Go(Remember(NoteStored(s, i), SiteOf(s.reqs[i]), body, kept), i, Release(answer)))
  {
    hide Inv, StoreOk, MemOk, ActOk, OutcomeOk, SiteOf;
    var t := Go(Remember(NoteStored(s, i), SiteOf(s.reqs[i]), body, kept), i, Release(answer));
    StoredAct(w, s, i, body, answer);
    GoKeeps(w, s, t, i, Release(answer));
  }

  lemma StoredAct(w: World, s: Sys, i: nat, body: seq<byte>, answer: Answer)
    requires LeaderKnown(w, s, i) && s.reqs[i].key in s.store && w.origin(s.reqs[i].key, body)
    requires AnswerOk(w, s.store.Keys, s.reqs[i], answer)
    ensures ActOk(w, s.store.Keys, s.reqs[i], Release(answer)) && MemOk(w, s.mem[SiteOf(s.reqs[i]) := body])
    ensures OutcomeOk(w, s.store.Keys, s.table[s.reqs[i].pc.f].(stored := true))
  {
    hide AnswerOk, StoreOk;
  }

  lemma UploadDoneKeeps(w: World, s: Sys, l: Label)
    requires Inv(w, s) && Can(w, s, l) && ReadersReady(s, l.i) && l.UploadDone?
    ensures Inv(w, PutReturned(s, l.i, l.kept))
  {
    hide Inv, LeaderKnown, LargePut, SmallPut;
    Know(w, s, l.i);
    match s.reqs[l.i].pc.act
    case Uploading(u) => LargePutKeeps(w, s, l.i, u);
    case Storing(u, a) => SmallPutKeeps(w, s, l.i, u, a, l.kept);
  }

  lemma UploadResult(u: U.Up)
    requires U.Inv(u) && u.pc.Done?
    ensures u.pc.res.Stored? ==> u.s3.visible.Some? && u.reader.err == Some(Eof)
  {
    hide U.BytesOk, U.PartsOk, U.Owned, U.EveryPartIn, U.InHandOk;
  }

  /** Every step of every request keeps everything. */
  lemma StepKeeps(w: World, s: Sys, l: Label)
    requires Inv(w, s) && Can(w, s, l)
    ensures ReadersReady(s, l.i) && Inv(w, Step(w, s, l))
  {
    hide FlightsOk, SlotsOk, ContentsOk;
    InvReaders(w, s, l.i);
    match l
    case HitNeg(_) => PlainKeeps(w, s, l);
    case HitMem(_) => PlainKeeps(w, s, l);
    case Probed(_, _, _, _) => ProbedKeeps(w, s, l);
    case Presigned(_, _) => PlainKeeps(w, s, l);
    case Locked(i) => LockedKeeps(w, s, i);
    case Left(_) => if s.reqs[l.i].pc.Waiting? { PlainKeeps(w, s, l); } else { LookedKeeps(w, s, l); }
    case Woken(i) => WokenKeeps(w, s, i);
    case Acquired(_) => AcquiredKeeps(w, s, l);
    case Looked(_, _) => LookedKeeps(w, s, l);
    case FetchFailed(_) => FetchKeeps(w, s, l);
    case FetchGone(_) => FetchKeeps(w, s, l);
    case Fetched(_, _, _, _) => FetchKeeps(w, s, l);
    case More(_, _) => MoreKeeps(w, s, l);
    case UploadStep(_, _) => UploadKeeps(w, s, l);
    case UploadDone(_, _) => UploadDoneKeeps(w, s, l);
    case Settled(_) => SettledKeeps(w, s, l);
    case Released(_) => ReleasedKeeps(w, s, l);
    case Removed(i) => RemovedKeeps(w, s, i);
    case Closed(i) => ClosedKeeps(w, s, i);
  }

  lemma LockedKeeps(w: World, s: Sys, i: nat)
    requires Inv(w, s) && i < |s.reqs| && s.reqs[i].pc == Lock
    ensures Inv(w, JoinOrLead(s, i))
  {
    hide U.Inv, FlightsOk, SlotsOk;
    LockedFlights(w, s, i);
    ContentsMove(w, s, JoinOrLead(s, i), i);
  }

  lemma RemovedKeeps(w: World, s: Sys, i: nat)
    requires Inv(w, s) && i < |s.reqs| && s.reqs[i].pc.Lead? && s.reqs[i].pc.act.Remove?
    ensures Inv(w, Go(s, i, Close(s.reqs[i].pc.act.answer)).(flights := s.flights - {SiteOf(s.reqs[i])}))
  {
    hide U.Inv, FlightsOk, SlotsOk;
    RemovedFlights(w, s, i);
    LeaderAct(w, s, i);
    ContentsMove(w, s, Go(s, i, Close(s.reqs[i].pc.act.answer)).(flights := s.flights - {SiteOf(s.reqs[i])}), i);
  }

  lemma ClosedKeeps(w: World, s: Sys, i: nat)
    requires Inv(w, s) && i < |s.reqs| && s.reqs[i].pc.Lead? && s.reqs[i].pc.act.Close?
    ensures Inv(w, CloseFlight(s, i))
  {
    hide U.Inv, FlightsOk, SlotsOk;
    ClosedFlights(w, s, i);
    LeaderFlight(s, i);
    FlightOutcome(w, s, i);
    LeaderAct(w, s, i);
    ContentsMove(w, s, CloseFlight(s, i), i);
  }

  // ------------------------------------------------------------------- runs

  /** Nobody has asked yet; the store holds what earlier runs left. */
  ghost predicate Init(w: World, s: Sys) {
    && WorldOk(w) && (forall i | 0 <= i < |s.reqs| :: s.reqs[i].pc == Arrive)
    && s.flights == map[] && s.table == [] && s.sem == map[] && s.mem == map[] && StoreOk(w, s.store)
  }

  lemma InitOk(w: World, s: Sys)
    requires Init(w, s)
    ensures Inv(w, s)
  {
    forall p: nat ensures Sum(s.reqs, SlotOf(p)) == 0 { NoneHold(s.reqs, SlotOf(p)); }
  }

  lemma {:induction false} NoneHold(reqs: seq<Req>, f: Req -> nat)
    requires forall i | 0 <= i < |reqs| :: f(reqs[i]) == 0
    ensures Sum(reqs, f) == 0
  {
    if reqs != [] { NoneHold(reqs[..|reqs| - 1], f); }
  }

  ghost predicate Runs(w: World, s: Sys, ls: seq<Label>, t: Sys)
    requires Inv(w, s)
    decreases |ls|
  {
    if ls == [] then s == t
    else Can(w, s, ls[0]) && (StepKeeps(w, s, ls[0]); Runs(w, Step(w, s, ls[0]), ls[1..], t))
  }

  lemma {:induction false} RunKeeps(w: World, s: Sys, ls: seq<Label>, t: Sys)
    requires Inv(w, s) && Runs(w, s, ls, t)
    ensures Inv(w, t)
    decreases |ls|
  {
    hide Inv, Step, Can;
    if ls != [] {
      StepKeeps(w, s, ls[0]);
      RunKeeps(w, Step(w, s, ls[0]), ls[1..], t);
    }
  }

  /** Commit safety. In every run, whatever the store shows at a key is one upstream
      body that ended whole, and a NAR has the size and hash a narinfo announced. */
  lemma OnlyWholeBodiesAreStored(w: World, s: Sys, ls: seq<Label>, t: Sys, k: Key)
    requires Init(w, s) && (InitOk(w, s); Runs(w, s, ls, t)) && k in t.store
    ensures w.origin(k, t.store[k])
    ensures w.checked(k) ==> exists e :: w.announced(k, e) && |t.store[k]| == e.size && w.hash(t.store[k]) == e.sha256
  {
    hide U.Inv, FlightsOk, SlotsOk;
    InitOk(w, s);
    RunKeeps(w, s, ls, t);
    if w.checked(k) {
      var e :| w.announced(k, e) && Matches(t.store[k], Some(e), w.hash);
    }
  }

  /** Transparency. If upstream only ever has one body for a key, every request for
      it that ends in a clean 200 got exactly that body, from whatever layer or
      fetch, and a redirect leads to it. */
  lemma AnswersAreTransparent(w: World, s: Sys, ls: seq<Label>, t: Sys, i: nat, body: seq<byte>)
    requires Init(w, s) && (InitOk(w, s); Runs(w, s, ls, t))
    requires i < |t.reqs| && t.reqs[i].pc.Finished?
    requires forall b :: w.origin(t.reqs[i].key, b) ==> b == body
    ensures t.reqs[i].pc.answer.Clean? ==> t.reqs[i].pc.answer.bytes == body
    ensures t.reqs[i].pc.answer.Redirect? ==> t.reqs[i].key in t.store && t.store[t.reqs[i].key] == body
  {
    hide U.Inv, FlightsOk, SlotsOk;
    InitOk(w, s);
    RunKeeps(w, s, ls, t);
    assert PcOk(w, t.store.Keys, t.reqs[i]);
  }

  predicate Leads(q: Req) { q.pc.Lead? && Registered(q.pc.act) }

  ghost predicate ClosedWithLeader(reqs: seq<Req>, fl: Flight) {
    fl.closes <= 1 && fl.leader < |reqs| && (fl.closes == 1 <==> reqs[fl.leader].pc.Finished?)
  }

  lemma LeaderListed(s: Sys, i: nat)
    requires FlightsOk(s) && i < |s.reqs| && Leads(s.reqs[i])
    ensures SiteOf(s.reqs[i]) in s.flights
    ensures var f := s.flights[SiteOf(s.reqs[i])]; f < |s.table| && s.table[f].leader == i
  {
    assert ReqOk(s.flights, s.table, s.reqs[i], i);
  }

  lemma ListedLeads(s: Sys, site: Site) returns (i: nat)
    requires FlightsOk(s) && site in s.flights
    ensures i < |s.reqs| && Leads(s.reqs[i]) && SiteOf(s.reqs[i]) == site
  {
    assert SiteOk(s.reqs, s.table, site, s.flights[site]);
    i := s.table[s.flights[site]].leader;
    assert ReqOk(s.flights, s.table, s.reqs[i], i);
  }

  lemma ClosedOnce(s: Sys, f: nat)
    requires FlightsOk(s) && f < |s.table|
    ensures ClosedWithLeader(s.reqs, s.table[f])
  {
    assert FlightOk(s.reqs, s.table[f], f);
  }

  /** Single flight: per replica and key at most one leader at a time; a flight is
      listed exactly while its leader runs; no more than MaxFetches leaders of a
      replica hold a slot; and a flight is closed exactly when its leader is done. */
  lemma OneLeaderAtATime(w: World, s: Sys, ls: seq<Label>, t: Sys)
    requires Init(w, s) && (InitOk(w, s); Runs(w, s, ls, t))
    ensures forall i, j | 0 <= i < j < |t.reqs| && Leads(t.reqs[i]) && Leads(t.reqs[j]) ::
      SiteOf(t.reqs[i]) != SiteOf(t.reqs[j])
    ensures forall site :: site in t.flights <==> exists i ::
      0 <= i < |t.reqs| && Leads(t.reqs[i]) && SiteOf(t.reqs[i]) == site
    ensures forall p: nat :: Sum(t.reqs, SlotOf(p)) <= w.maxFetches
    ensures forall f | 0 <= f < |t.table| :: ClosedWithLeader(t.reqs, t.table[f])
  {
    hide U.Inv, ContentsOk, Taken, FlightsOk, ClosedWithLeader, Init, Runs, Leads, SiteOf;
    InitOk(w, s);
    RunKeeps(w, s, ls, t);
    forall i, j | 0 <= i < j < |t.reqs| && Leads(t.reqs[i]) && Leads(t.reqs[j])
      ensures SiteOf(t.reqs[i]) != SiteOf(t.reqs[j])
    {
      LeaderListed(t, i);
      LeaderListed(t, j);
    }
    forall site
      ensures site in t.flights <==> exists i :: 0 <= i < |t.reqs| && Leads(t.reqs[i]) && SiteOf(t.reqs[i]) == site
    {
      if site in t.flights { var i := ListedLeads(t, site); }
      if i :| 0 <= i < |t.reqs| && Leads(t.reqs[i]) && SiteOf(t.reqs[i]) == site { LeaderListed(t, i); }
    }
    forall f | 0 <= f < |t.table| ensures ClosedWithLeader(t.reqs, t.table[f]) { ClosedOnce(t, f); }
    forall p: nat ensures Sum(t.reqs, SlotOf(p)) <= w.maxFetches { assert Taken(t, p) == Sum(t.reqs, SlotOf(p)); }
  }

  function FetchesOf(fl: Flight): nat { fl.fetches }

  /** A request leads at most one flight and a flight fetches at most once, so n
      requests cost upstream at most n fetches, even when nothing is ever stored. */
  lemma FetchesAreBounded(w: World, s: Sys, ls: seq<Label>, t: Sys)
    requires Init(w, s) && (InitOk(w, s); Runs(w, s, ls, t))
    ensures forall f, g | 0 <= f < g < |t.table| :: t.table[f].leader != t.table[g].leader
    ensures Sum(t.table, FetchesOf) <= |t.table| <= |t.reqs|
  {
    hide U.Inv, ContentsOk, SlotsOk;
    InitOk(w, s);
    RunKeeps(w, s, ls, t);
    forall f | 0 <= f < |t.table|
      ensures t.table[f].leader < |t.reqs| && t.table[f].fetches <= 1
    {
      assert FlightOk(t.reqs, t.table[f], f);
    }
    AtMostOneEach(t.table);
    var leaders := LeadersOf(t.table);
    BoundedSet(leaders, |t.reqs|);
  }

  lemma {:induction false} AtMostOneEach(table: seq<Flight>)
    requires forall f | 0 <= f < |table| :: table[f].fetches <= 1
    ensures Sum(table, FetchesOf) <= |table|
  {
    if table != [] { AtMostOneEach(table[..|table| - 1]); }
  }

  lemma {:induction false} LeadersOf(table: seq<Flight>) returns (leaders: set<nat>)
    requires forall f, g | 0 <= f < g < |table| :: table[f].leader != table[g].leader
    ensures |leaders| == |table| && forall x :: x in leaders <==> exists f :: 0 <= f < |table| && table[f].leader == x
  {
    leaders := {};
    if table != [] {
      var last := |table| - 1;
      var rest := LeadersOf(table[..last]);
      leaders := rest + {table[last].leader};
      forall x ensures x in leaders <==> exists f :: 0 <= f < |table| && table[f].leader == x {
        if f :| 0 <= f < |table| && table[f].leader == x { assert f == last || table[..last][f].leader == x; }
        if x in rest { var f :| 0 <= f < last && table[..last][f].leader == x; assert table[f].leader == x; }
      }
    }
  }

  lemma {:induction false} BoundedSet(s: set<nat>, n: nat)
    requires forall x | x in s :: x < n
    ensures |s| <= n
  {
    if n > 0 { BoundedSet(s - {n - 1}, n - 1); }
  }
}
