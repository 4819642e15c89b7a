/** What a request for a packument is answered, and what a refresh leaves behind. */
module PackumentAnswers {
  import opened Common
  import F = PackumentFrame
  import opened Packuments

  /** A 200 that is not too large is the document; its media type is JSON when it has none. */
  ghost predicate Says(response: Response, doc: F.Doc) {
    && response.Ok? && |response.body| <= F.MAX && doc.etag == response.etag && doc.body == response.body
    && (response.ctype != [] ==> doc.ctype == response.ctype)
    && (response.ctype == [] ==>
      doc.ctype == [97, 112, 112, 108, 105, 99, 97, 116, 105, 111, 110, 47, 106, 115, 111, 110])
  }

  /** Nothing new from upstream: it is the same, it failed, or it is too large. */
  predicate FellBack(response: Response) {
    response == NotModified || response == Failure || (response.Ok? && |response.body| > F.MAX)
  }

  /** What waits for a refresh that had this copy is answered: a document that upstream
      sent; the copy, when upstream says that it is the same, fails, or sends too much; 502
      only if there was no copy; and 404 only if upstream said so. */
  ghost predicate Answers(prev: Option<Entry>, response: Response, a: Answer) {
    match a
    case Served(doc) =>
      Says(response, doc) || (FellBack(response) && prev.Some? && doc == prev.value.doc)
    case BadGateway => FellBack(response) && prev.None?
    case NotFound => response == Missing
    case Lost => false
  }

  /** The memory afterwards: what was served, from now on when upstream said so, and for the
      failure window when it did not. */
  ghost predicate Keeps(w: World, prev: Option<Entry>, response: Response, now: int, was: Option<Entry>,
      after: Option<Entry>) {
    if response.Ok? && |response.body| <= F.MAX then
      after.Some? && Says(response, after.value.doc) && after.value.fetched == now
    else if response == Missing || prev.None? then after == was
    else after == Some(Entry(prev.value.doc, if response == NotModified then now else now + 15 - w.freshFor))
  }

  function Copy(s: Sys, site: Site): Option<Entry> { if site in s.mem then Some(s.mem[site]) else None }

  /** A document is saved exactly if it is one that upstream sent and the copy was of another
      ETag, or neither has one and they differ. */
  ghost predicate Saves(prev: Option<Entry>, response: Response, doc: F.Doc) {
    && Says(response, doc)
    && (prev.Some? ==> prev.value.doc.etag != doc.etag || (doc.etag == [] && prev.value.doc.body != doc.body))
  }

  /** What an answer does to a flight of `site` that had this copy. */
  ghost predicate Heard(w: World, s: Sys, f: nat, prev: Option<Entry>, response: Response, now: int, kept: bool, t: Sys)
    requires f < |s.table|
  {
    var site := s.table[f].site;
    && |t.table| == |s.table| && t.table[f].phase.Removing? && Answers(prev, response, t.table[f].phase.res)
    && (if kept then Keeps(w, prev, response, now, Copy(s, site), Copy(t, site)) else t.mem == s.mem)
    && (forall other | other != site :: Copy(t, other) == Copy(s, other))
    && t.neg == (if response == Missing then s.neg + {site} else s.neg)
    && (t.saves == s.saves || exists doc :: Saves(prev, response, doc) && t.saves == s.saves + [(site.1, doc)])
    && ((exists doc :: Saves(prev, response, doc)) ==> t.saves != s.saves)
  }

  lemma FellIs(w: World, s: Sys, f: nat, prev: Option<Entry>, response: Response, now: int, kept: bool)
    requires f < |s.table| && FellBack(response) && (response == NotModified ==> prev.None?)
    ensures Heard(w, s, f, prev, response, now, kept, FallBack(w, s, f, prev, now, kept))
  {}

  lemma SameIs(w: World, s: Sys, f: nat, prev: Option<Entry>, now: int, kept: bool)
    requires f < |s.table| && prev.Some?
    ensures Heard(w, s, f, prev, NotModified, now, kept, Hear(w, s, f, prev, NotModified, now, kept))
  {}

  lemma MissingIs(w: World, s: Sys, f: nat, prev: Option<Entry>, now: int, kept: bool)
    requires f < |s.table|
    ensures Heard(w, s, f, prev, Missing, now, kept, Hear(w, s, f, prev, Missing, now, kept))
  {}

  lemma AcceptIs(w: World, s: Sys, f: nat, prev: Option<Entry>, response: Response, now: int, kept: bool)
    requires f < |s.table| && response.Ok? && |response.body| <= F.MAX
    ensures var doc := DocOf(response.etag, response.ctype, response.body);
      Heard(w, s, f, prev, response, now, kept, Accept(s, f, prev, doc, now, kept))
  {
    var doc := DocOf(response.etag, response.ctype, response.body);
    OneDoc(response, doc);
    hide DocOf, Says;
    if Changed(prev, doc) { assert Saves(prev, response, doc); }
  }

  /** A 200 is one document. */
  lemma OneDoc(response: Response, doc: F.Doc)
    requires response.Ok? && |response.body| <= F.MAX && doc == DocOf(response.etag, response.ctype, response.body)
    ensures forall d :: Says(response, d) <==> d == doc
  {}

  lemma HeardIs(w: World, s: Sys, f: nat, response: Response, now: int, kept: bool)
    requires f < |s.table| && s.table[f].phase.Asking?
    ensures var prev := s.table[f].phase.prev;
      Heard(w, s, f, prev, response, now, kept, Hear(w, s, f, prev, response, now, kept))
  {
    hide Heard, FallBack, Accept, DocOf;
    var prev := s.table[f].phase.prev;
    match response
    case NotModified =>
      if prev.Some? { SameIs(w, s, f, prev, now, kept); } else { FellIs(w, s, f, prev, response, now, kept); }
    case Missing => MissingIs(w, s, f, prev, now, kept);
    case Failure => FellIs(w, s, f, prev, response, now, kept);
    case Ok(_, _, body) =>
      if |body| > F.MAX {
        FellIs(w, s, f, prev, response, now, kept);
      } else {
        AcceptIs(w, s, f, prev, response, now, kept);
      }
  }

  // ------------------------------------------------------- over runs, for every waiter

  /** Once a flight has its answer it stays so. */
  predicate Has(s: Sys, f: nat, a: Answer) {
    f < |s.table| && s.table[f].phase in {Removing(a), Closed(a)}
  }

  lemma StepHas(w: World, s: Sys, l: Label, f: nat, a: Answer)
    requires Can(w, s, l) && Has(s, f, a)
    ensures Has(Step(w, s, l), f, a)
  {
    hide Hear, FromStore, Decide, F.Frame;
    match l
    case Answered(g, response, now, kept) => HearShape(w, s, g, s.table[g].phase.prev, response, now, kept);
    case _ =>
  }

  lemma {:induction false} RunHas(w: World, s: Sys, ls: seq<Label>, t: Sys, f: nat, a: Answer)
    requires Runs(w, s, ls, t) && Has(s, f, a)
    ensures Has(t, f, a)
    decreases |ls|
  {
    hide Can, Step, Has;
    if ls != [] {
      StepHas(w, s, ls[0], f, a);
      RunHas(w, Step(w, s, ls[0]), ls[1..], t, f, a);
    }
  }

  /** Every request that waits for a refresh, however long it takes to wake, is answered by
      what upstream said and the copy that the refresh had, all of them alike. */
  lemma WaitersAreAnswered(w: World, s: Sys, f: nat, response: Response, now: int, kept: bool, ls: seq<Label>, t: Sys,
      i: nat)
    requires Can(w, s, Answered(f, response, now, kept))
    requires Runs(w, Step(w, s, Answered(f, response, now, kept)), ls, t)
    requires Can(w, t, Woken(i)) && t.reqs[i].pc.f == f
    ensures f < |t.table| && var pc := Step(w, t, Woken(i)).reqs[i].pc;
      pc.Done? && Answers(s.table[f].phase.prev, response, pc.answer) && pc == Done(t.table[f].phase.res)
  {
    hide Hear, Answers, Runs;
    HeardIs(w, s, f, response, now, kept);
    var u := Step(w, s, Answered(f, response, now, kept));
    RunHas(w, u, ls, t, f, u.table[f].phase.res);
  }

  /** A request is answered from memory at once if and only if the copy is there and not
      stale; otherwise it refreshes, with the copy if there is one. */
  lemma ArrivedIs(w: World, s: Sys, i: nat, now: int, forgotten: bool)
    requires Can(w, s, Arrived(i, now, forgotten))
    ensures var site := s.reqs[i].site;
      var copy := if forgotten then None else Copy(s, site);
      Step(w, s, Arrived(i, now, forgotten)).reqs[i].pc ==
        if copy.None? then Refreshing(None)
        else if now < copy.value.fetched + w.freshFor then Done(Served(copy.value.doc))
        else Refreshing(copy)
  {}

  /** The copy that a refresh has: its first request's, or else what the store's frame reads
      back as. */
  lemma LoadedIs(w: World, s: Sys, f: nat, fail: bool)
    requires Can(w, s, Loaded(f, fail))
    ensures var prev, key := s.table[f].phase.prev, s.table[f].site.1;
      var has := Step(w, s, Loaded(f, fail)).table[f].phase.prev;
      && (prev.Some? ==> has == prev)
      && (prev.None? ==>
        (has.Some? <==> !fail && key in s.store && F.Load(w.gzip, s.store[key]).Some?)
        && (has.Some? ==> F.Load(w.gzip, s.store[key]) == Some(has.value.doc)))
  {
    hide F.Load;
  }
}
