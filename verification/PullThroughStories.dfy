/** What decides a leader's answer and its flight's outcome: one thing that the leader did
    or that upstream sent it. */
module PullThroughStories {
  import opened Common
  import opened Reading
  import U = Upload
  import opened PullThrough
  import opened PullThroughSafety
  import C = PullThroughClients

  /** Broke: it went away, or its look or its request to upstream failed. */
  datatype Story = Untold | Broke | NotThere | Got(body: Body, want: int, moods: seq<bool>)

  /** Request j's story after a label. */
  function Tell(story: Story, l: Label, j: nat): Story {
    if l.i != j then story else
    match l
    case Left(_) => Broke
    case Looked(_, look) => if look.LookFailed? then Broke else story
    case FetchFailed(_) => Broke
    case FetchGone(_) => NotThere
    case Fetched(_, body, want, moods) => Got(body, want, moods)
    case _ => story
  }

  function StoryOf(story: Story, ls: seq<Label>, j: nat): Story
    decreases |ls|
  {
    if ls == [] then story else StoryOf(Tell(story, ls[0], j), ls[1..], j)
  }

  /** The response cannot be an answer: not whole, or too large to be kept in memory. */
  ghost predicate Spoiled(w: World, key: Key, body: Body, want: int) {
    !Whole(body.data, body.end, want) || (!w.large(key) && |body.data| > MAX_SMALL)
  }

  ghost predicate Bad(w: World, key: Key, story: Story) {
    story.Broke? || (story.Got? && Spoiled(w, key, story.body, story.want))
  }

  ghost predicate From(r: Reader, story: Story) {
    story.Got? && r.want == story.want && r.body.data == story.body.data && r.body.end == story.body.end
  }

  /** A reader of it that feeds the leader's client, who is there while it takes all. */
  ghost predicate Feeds(r: Reader, story: Story) { From(r, story) && (Takes(story.moods) ==> Willing(r.client)) }

  /** A response decides what its request is answered. */
  ghost predicate AnswerTells(w: World, q: Req, story: Story, a: Answer) {
    story.Got? ==>
      var data, whole := story.body.data, Whole(story.body.data, story.body.end, story.want);
      if w.large(q.key) then
        && (a == Aborted <==> !whole) && (whole ==> a == Lost || a == Clean(data))
        && (whole && Takes(story.moods) ==> a == Clean(data))
      else a == if Spoiled(w, q.key, story.body, story.want) then BadGateway else Served(q, data)
  }

  ghost predicate ActTells(w: World, q: Req, story: Story, act: Act, res: Res) {
    match act
    case Reading(r) => From(r, story) && res == Failed
    case Copying(r) => Feeds(r, story) && res == Failed
    case Uploading(u) => Feeds(u.reader, story) && res == Failed
    case Draining(r) => Feeds(r, story) && res == Failed
    case Settling(r, _) => Feeds(r, story) && res == Failed
    case Storing(_, a) => story.Got? && !Bad(w, q.key, story) && res.Ok200? && AnswerTells(w, q, story, a)
    case Release(a) => AnswerTells(w, q, story, a) && (res.Failed? <==> Bad(w, q.key, story))
    case Remove(a) => AnswerTells(w, q, story, a) && (res.Failed? <==> Bad(w, q.key, story))
    case Close(a) => AnswerTells(w, q, story, a) && (res.Failed? <==> Bad(w, q.key, story))
    case _ => story == Untold && res == Failed
  }

  /** What request j's story says of it, and of flight f that it leads. */
  ghost predicate PcTells(w: World, q: Req, story: Story) {
    match q.pc
    case Lead(_, _) => true
    case Finished(a) => AnswerTells(w, q, story, a)
    case _ => story == Untold
  }

  ghost predicate FlightTells(w: World, q: Req, story: Story, res: Res) {
    match q.pc
    case Lead(_, act) => ActTells(w, q, story, act, res)
    case Finished(_) => res.Failed? <==> Bad(w, q.key, story)
    case _ => false
  }

  ghost predicate Tells(w: World, s: Sys, j: nat, story: Story) {
    && j < |s.reqs| && PcTells(w, s.reqs[j], story)
    && forall f | 0 <= f < |s.table| && s.table[f].leader == j :: FlightTells(w, s.reqs[j], story, s.table[f].res)
  }

  // ------------------------------------------------------------ the steps of others

  /** A step leaves every flight alone but the one its request leads, or starts. */
  ghost predicate TableStays(s: Sys, t: Sys, i: nat)
    requires i < |s.reqs|
  {
    && |t.table| >= |s.table|
    && (forall f | 0 <= f < |s.table| :: t.table[f].leader == s.table[f].leader)
    && (forall f | 0 <= f < |s.table| && !(s.reqs[i].pc.Lead? && s.reqs[i].pc.f == f) :: t.table[f] == s.table[f])
    && (forall f | |s.table| <= f < |t.table| :: t.table[f].leader == i)
  }

  lemma GoTable(s: Sys, i: nat)
    requires i < |s.reqs|
    ensures forall pc :: TableStays(s, Goto(s, i, pc), i)
    ensures s.reqs[i].pc.Lead? ==> forall act :: TableStays(s, Go(s, i, act), i)
    ensures s.reqs[i].pc.Lead? ==> forall res, stored, act :: TableStays(s, Go(Note(s, i, res, stored), i, act), i)
  {}

  lemma ReadTable(w: World, s: Sys, i: nat, room: nat)
    requires i < |s.reqs| && s.reqs[i].pc.Lead?
    requires var a := s.reqs[i].pc.act; (a.Reading? || a.Copying? || a.Draining?) && Ready(a.r)
    ensures TableStays(s, ReadMore(w, s, i, room), i)
  {
    hide Go, Note, Next, StoreBytes, Streamed, Served, TableStays;
    GoTable(s, i);
  }

  lemma UploadTable(s: Sys, i: nat, l: U.Label)
    requires i < |s.reqs| && s.reqs[i].pc.Lead?
    requires var a := s.reqs[i].pc.act; (a.Uploading? || a.Storing?) && U.Can(a.u, l) && Ready(a.u.reader)
    ensures TableStays(s, UploadMore(s, i, l), i)
  {
    hide U.Step, U.Can;
  }

  lemma PutTable(s: Sys, i: nat, kept: bool)
    requires i < |s.reqs| && s.reqs[i].pc.Lead?
    requires var a := s.reqs[i].pc.act; (a.Uploading? || a.Storing?) && a.u.pc.Done?
    ensures TableStays(s, PutReturned(s, i, kept), i)
  {}

  lemma SettleTable(s: Sys, i: nat)
    requires i < |s.reqs| && s.reqs[i].pc.Lead? && s.reqs[i].pc.act.Settling?
    ensures TableStays(s, Settle(s, i), i)
  {
    hide Go, Note, Streamed, TableStays;
    GoTable(s, i);
  }

  lemma PlainTable(w: World, s: Sys, l: Label)
    requires Can(w, s, l) && ReadersReady(s, l.i)
    requires !l.Probed? && !l.More? && !l.UploadStep? && !l.UploadDone? && !l.Settled?
    ensures TableStays(s, Step(w, s, l), l.i)
  {
    hide StartFetched, Follow, Served, U.Can, Go, Goto, TableStays, JoinOrLead, CloseFlight;
    GoTable(s, l.i);
    if l.FetchFailed? || l.FetchGone? || l.Fetched? {
      CountTable(s, l.i);
    } else if l.Acquired? || l.Released? || l.Removed? {
      SlotTable(w, s, l);
    } else if l.Locked? {
      LockedTable(s, l.i);
    } else if l.Closed? {
      ClosedTable(s, l.i);
    }
  }

  lemma CountTable(s: Sys, i: nat)
    requires i < |s.reqs| && s.reqs[i].pc.Lead?
    ensures CountFetch(s, i).reqs == s.reqs
    ensures forall act :: TableStays(s, Go(CountFetch(s, i), i, act), i)
    ensures forall act, neg :: TableStays(s, Go(Note(CountFetch(s, i), i, Gone, false), i, act).(neg := neg), i)
  {}

  lemma SlotTable(w: World, s: Sys, l: Label)
    requires Can(w, s, l) && ReadersReady(s, l.i) && (l.Acquired? || l.Released? || l.Removed?)
    ensures TableStays(s, Step(w, s, l), l.i)
  {
    hide U.Can, Taken;
  }

  lemma LockedTable(s: Sys, i: nat)
    requires i < |s.reqs|
    ensures TableStays(s, JoinOrLead(s, i), i)
  {}

  lemma ClosedTable(s: Sys, i: nat)
    requires i < |s.reqs| && s.reqs[i].pc.Lead? && s.reqs[i].pc.act.Close?
    ensures TableStays(s, CloseFlight(s, i), i)
  {}

  lemma StepTable(w: World, s: Sys, l: Label)
    requires Can(w, s, l) && ReadersReady(s, l.i)
    ensures TableStays(s, Step(w, s, l), l.i)
  {
    hide Goto, Go, Note, NoteStored, CountFetch, ReadMore, UploadMore, PutReturned, Settle, StartFetched, Follow,
      Served;
    hide TableStays, U.Can, ProbePc;
    match l
    case Probed(_, fail, kept, proxied) => ProbeTable(w, s, l.i, fail, kept, proxied);
    case More(_, room) => ReadTable(w, s, l.i, room);
    case UploadStep(_, ul) => UploadTable(s, l.i, ul);
    case UploadDone(_, kept) => PutTable(s, l.i, kept);
    case Settled(_) => SettleTable(s, l.i);
    case _ => PlainTable(w, s, l);
  }

  lemma ProbeTable(w: World, s: Sys, i: nat, fail: bool, kept: bool, proxied: Answer)
    requires i < |s.reqs|
    ensures TableStays(s, Probe(w, s, i, fail, kept, proxied), i)
  {
    hide ProbePc;
  }

  lemma CanIndex(w: World, s: Sys, l: Label)
    requires Can(w, s, l)
    ensures l.i < |s.reqs|
  {
    hide U.Can;
  }

  /** What others do tells nothing of j. */
  lemma OthersTell(w: World, s: Sys, l: Label, j: nat, story: Story)
    requires Inv(w, s) && Can(w, s, l) && ReadersReady(s, l.i) && Tells(w, s, j, story) && l.i != j
    ensures Tells(w, Step(w, s, l), j, story)
  {
    hide Step, Can, ReadersReady, PcTells, FlightTells, SlotsOk, ContentsOk;
    CanIndex(w, s, l);
    StepTable(w, s, l);
    C.StepFrame(w, s, l);
    if s.reqs[l.i].pc.Lead? { assert ReqOk(s.flights, s.table, s.reqs[l.i], l.i); }
  }

  // ------------------------------------------------------------- a leader's own steps

  /** Leader j of flight f goes on with `act`, its flight's outcome being `res`. */
  ghost predicate Leads(s: Sys, t: Sys, j: nat, act: Act, res: Res)
    requires j < |s.reqs| && s.reqs[j].pc.Lead?
  {
    var f := s.reqs[j].pc.f;
    && f < |s.table| == |t.table| && |t.reqs| == |s.reqs| && t.reqs[j] == s.reqs[j].(pc := Lead(f, act))
    && t.table[f].res == res
  }

  lemma LeaderIs(w: World, s: Sys, j: nat)
    requires Inv(w, s) && j < |s.reqs| && s.reqs[j].pc.Lead?
    ensures var f := s.reqs[j].pc.f;
      f < |s.table| && s.table[f].leader == j && forall g | 0 <= g < |s.table| && s.table[g].leader == j :: g == f
    ensures ActOk(w, s.store.Keys, s.reqs[j], s.reqs[j].pc.act)
  {
    hide SlotsOk, U.Inv, ActOk;
    assert ReqOk(s.flights, s.table, s.reqs[j], j);
    assert PcOk(w, s.store.Keys, s.reqs[j]);
  }

  lemma LeadTells(w: World, s: Sys, t: Sys, j: nat, story: Story, act: Act, res: Res)
    requires Inv(w, s) && j < |s.reqs| && s.reqs[j].pc.Lead? && Leads(s, t, j, act, res) && TableStays(s, t, j)
    requires ActTells(w, s.reqs[j], story, act, res)
    ensures Tells(w, t, j, story)
  {
    hide Inv, Spoiled, From;
    LeaderIs(w, s, j);
  }

  lemma LeaderTold(w: World, s: Sys, j: nat, story: Story)
    requires Inv(w, s) && Tells(w, s, j, story) && s.reqs[j].pc.Lead?
    ensures s.reqs[j].pc.f < |s.table| && ActTells(w, s.reqs[j], story, s.reqs[j].pc.act, s.table[s.reqs[j].pc.f].res)
  {
    hide Inv, ActTells;
    LeaderIs(w, s, j);
  }

  /** The two ways to go on: with the flight as it is, and with a note. */
  lemma GoTells(w: World, s: Sys, j: nat, story: Story, act: Act)
    requires Inv(w, s) && j < |s.reqs| && s.reqs[j].pc.Lead? && s.reqs[j].pc.f < |s.table|
    requires ActTells(w, s.reqs[j], story, act, s.table[s.reqs[j].pc.f].res)
    ensures Tells(w, Go(s, j, act), j, story)
  {
    hide Inv, ActTells, Tells;
    GoTable(s, j);
    LeadTells(w, s, Go(s, j, act), j, story, act, s.table[s.reqs[j].pc.f].res);
  }

  lemma NoteTells(w: World, s: Sys, j: nat, story: Story, res: Res, stored: bool, act: Act)
    requires Inv(w, s) && j < |s.reqs| && s.reqs[j].pc.Lead? && s.reqs[j].pc.f < |s.table|
    requires ActTells(w, s.reqs[j], story, act, res)
    ensures Note(s, j, res, stored).reqs == s.reqs && Tells(w, Go(Note(s, j, res, stored), j, act), j, story)
  {
    hide Inv, ActTells, Tells;
    GoTable(s, j);
    LeadTells(w, s, Go(Note(s, j, res, stored), j, act), j, story, act, res);
  }

  lemma EarlyTells(w: World, s: Sys, l: Label, j: nat, story: Story)
    requires Inv(w, s) && Can(w, s, l) && ReadersReady(s, l.i) && Tells(w, s, j, story) && l.i == j
    requires s.reqs[j].pc.Lead?
    requires l.Left? || l.Acquired? || l.Looked? || l.FetchFailed? || l.FetchGone?
    ensures Tells(w, Step(w, s, l), j, Tell(story, l, j))
  {
    hide Inv, Tells, From, Spoiled, TableStays, U.Can;
    LeaderTold(w, s, j, story);
    StepTable(w, s, l);
    var t, f := Step(w, s, l), s.reqs[j].pc.f;
    LeadTells(w, s, t, j, Tell(story, l, j), t.reqs[j].pc.act, t.table[f].res);
  }

  lemma FetchTells(w: World, s: Sys, l: Label, j: nat, story: Story)
    requires Inv(w, s) && Can(w, s, l) && ReadersReady(s, l.i) && Tells(w, s, j, story) && l.i == j && l.Fetched?
    ensures Tells(w, Step(w, s, l), j, Tell(story, l, j))
  {
    hide Inv, Tells, Spoiled, TableStays, U.Can, ReadersReady;
    LeaderTold(w, s, j, story);
    StepTable(w, s, l);
    var t, f := Step(w, s, l), s.reqs[j].pc.f;
    LeadTells(w, s, t, j, Got(l.body, l.want, l.moods), StartFetched(w, s.reqs[j], l.body, l.want, l.moods), Failed);
  }

  /** A reader's end tells of the response, when nothing is asked of it but to be whole. */
  lemma EndTells(r: Reader, story: Story)
    requires Ok(r) && r.err.Some? && From(r, story)
    ensures r.err.value in {Eof, Mismatch} <==> Whole(story.body.data, story.body.end, story.want)
    ensures r.expected.None? ==> r.err.value != Mismatch
    ensures r.err.value in {Eof, Mismatch} ==> r.n == |story.body.data| && Streamed(r) in {Lost, Clean(story.body.data)}
    ensures r.err.value in {Eof, Mismatch} && r.client.open ==> Streamed(r) == Clean(story.body.data)
  {
    hide Ok, Matches;
    EndMeans(r);
    StreamedOk(r);
    assert WholeReader(r) == Whole(story.body.data, story.body.end, story.want);
    if r.expected.None? { NothingExpected(r); }
  }

  lemma NothingExpected(r: Reader)
    requires r.expected.None?
    ensures Matches(r.body.data, r.expected, r.hash)
  {}

  lemma SmallReadTells(w: World, s: Sys, j: nat, room: nat, story: Story)
    requires Inv(w, s) && Can(w, s, More(j, room)) && s.reqs[j].pc.act.Reading? && Ready(s.reqs[j].pc.act.r)
    requires Tells(w, s, j, story)
    ensures Tells(w, SmallRead(w, s, j, Next(s.reqs[j].pc.act.r, room)), j, story)
  {
    hide Inv, Tells, U.Can, Next, Ok, StoreBytes, Streamed, Go, Note, Goto;
    LeaderTold(w, s, j, story);
    LeaderIs(w, s, j);
    NoteReqs(s, j);
    var r, res := s.reqs[j].pc.act.r, Next(s.reqs[j].pc.act.r, room);
    ReadKeeps(r, room);
    SmallReads(w, s, j, res, story);
  }

  lemma SmallReads(w: World, s: Sys, j: nat, res: ReadResult, story: Story)
    requires Inv(w, s) && j < |s.reqs| && s.reqs[j].pc.Lead? && s.reqs[j].pc.f < |s.table| && !w.large(s.reqs[j].key)
    requires From(res.reader, story) && Ok(res.reader) && res.err == res.reader.err && res.reader.expected.None?
    requires s.table[s.reqs[j].pc.f].res == Failed
    ensures Tells(w, SmallRead(w, s, j, res), j, story)
  {
    hide Inv, Tells, Ok, StoreBytes, Streamed, Go, Note, Goto;
    NoteReqs(s, j);
    var r := res.reader;
    OkBound(r);
    if res.err.Some? { EndTells(r, story); }
    if r.n > MAX_SMALL || (res.err.Some? && res.err != Some(Eof)) {
      GoTells(w, s, j, story, Release(BadGateway));
    } else if res.err.None? {
      GoTells(w, s, j, story, Reading(r));
    } else {
      var body := r.body.data[..r.n];
      NoteTells(w, s, j, story, Ok200(body), false, Storing(StoreBytes(w, body), Served(s.reqs[j], body)));
    }
  }

  lemma OkBound(r: Reader)
    requires Ok(r)
    ensures r.n <= |r.body.data| && (r.n == |r.body.data| ==> r.body.data[..r.n] == r.body.data)
  {}

  lemma LargeReadTells(w: World, s: Sys, j: nat, room: nat, story: Story)
    requires Inv(w, s) && Can(w, s, More(j, room)) && (s.reqs[j].pc.act.Copying? || s.reqs[j].pc.act.Draining?)
    requires Ready(s.reqs[j].pc.act.r) && Tells(w, s, j, story)
    ensures var act, res := s.reqs[j].pc.act, Next(s.reqs[j].pc.act.r, room);
      Tells(w, if act.Copying? then PassedRead(s, j, res) else DrainedRead(s, j, res), j, story)
  {
    hide Inv, Tells, U.Can, Next, Ok, PassedRead, DrainedRead, Willing, Takes;
    LeaderTold(w, s, j, story);
    LeaderIs(w, s, j);
    var r, res := s.reqs[j].pc.act.r, Next(s.reqs[j].pc.act.r, room);
    ReadKeeps(r, room);
    if Takes(story.moods) { ReadWilling(r, room); }
    if s.reqs[j].pc.act.Copying? { PassedTells(w, s, j, res, story); } else { DrainedTells(w, s, j, res, story); }
  }

  /** What is known of a large body's leader and of its read. */
  ghost predicate Reads(w: World, s: Sys, j: nat, res: ReadResult, story: Story) {
    && j < |s.reqs| && s.reqs[j].pc.Lead? && s.reqs[j].pc.f < |s.table| && w.large(s.reqs[j].key)
    && s.table[s.reqs[j].pc.f].res == Failed
    && Feeds(res.reader, story) && Ok(res.reader) && res.err == res.reader.err
  }

  lemma PassedTells(w: World, s: Sys, j: nat, res: ReadResult, story: Story)
    requires Inv(w, s) && Reads(w, s, j, res, story) && res.reader.expected.None?
    ensures Tells(w, PassedRead(s, j, res), j, story)
  {
    hide Inv, Tells, Ok, Streamed, Go, Note, Goto;
    NoteReqs(s, j);
    var r := res.reader;
    if res.err.None? {
      GoTells(w, s, j, story, Copying(r));
    } else {
      EndTells(r, story);
      if res.err == Some(Eof) {
        NoteTells(w, s, j, story, Ok200([]), false, Release(Streamed(r)));
      } else {
        GoTells(w, s, j, story, Release(Aborted));
      }
    }
  }

  lemma DrainedTells(w: World, s: Sys, j: nat, res: ReadResult, story: Story)
    requires Inv(w, s) && Reads(w, s, j, res, story)
    ensures Tells(w, DrainedRead(s, j, res), j, story)
  {
    hide Inv, Tells, Ok, Go, Note, Goto, From, Willing, Takes;
    if res.err.None? {
      GoTells(w, s, j, story, Draining(res.reader));
    } else {
      GoTells(w, s, j, story, Settling(res.reader, false));
    }
  }

  lemma UploadTells(w: World, s: Sys, j: nat, ul: U.Label, story: Story)
    requires Inv(w, s) && Can(w, s, UploadStep(j, ul)) && Ready(s.reqs[j].pc.act.u.reader) && Tells(w, s, j, story)
    ensures Tells(w, UploadMore(s, j, ul), j, story)
  {
    hide Inv, Tells, TableStays, U.Can, U.Step, U.Inv, Spoiled;
    LeaderTold(w, s, j, story);
    LeaderIs(w, s, j);
    U.StepKeeps(s.reqs[j].pc.act.u, ul);
    if s.reqs[j].pc.act.Uploading? && Takes(story.moods) { U.StepWilling(s.reqs[j].pc.act.u, ul); }
    UploadTable(s, j, ul);
    var t := UploadMore(s, j, ul);
    LeadTells(w, s, t, j, story, t.reqs[j].pc.act, t.table[s.reqs[j].pc.f].res);
  }

  lemma LargePutTells(w: World, s: Sys, j: nat, story: Story)
    requires Inv(w, s) && j < |s.reqs| && s.reqs[j].pc.Lead? && s.reqs[j].pc.act.Uploading?
    requires s.reqs[j].pc.act.u.pc.Done?
    requires Tells(w, s, j, story)
    ensures Tells(w, LargePut(s, j, s.reqs[j].pc.act.u), j, story)
  {
    hide Inv, Tells, TableStays, ActOk, From, AnswerTells, Bad;
    LeaderTold(w, s, j, story);
    LeaderIs(w, s, j);
    GoTable(s, j);
    var t := LargePut(s, j, s.reqs[j].pc.act.u);
    LeadTells(w, s, t, j, story, t.reqs[j].pc.act, t.table[s.reqs[j].pc.f].res);
  }

  lemma SmallPutTells(w: World, s: Sys, j: nat, kept: bool, story: Story)
    requires Inv(w, s) && j < |s.reqs| && s.reqs[j].pc.Lead? && s.reqs[j].pc.act.Storing? && s.reqs[j].pc.act.u.pc.Done?
    requires Tells(w, s, j, story)
    ensures var act := s.reqs[j].pc.act; Tells(w, SmallPut(s, j, act.u, act.answer, kept), j, story)
  {
    hide Inv, Tells, TableStays, ActOk, From, AnswerTells, Bad;
    LeaderTold(w, s, j, story);
    LeaderIs(w, s, j);
    var act := s.reqs[j].pc.act;
    var t := SmallPut(s, j, act.u, act.answer, kept);
    SmallPutTable(s, j, act.u, act.answer, kept);
    LeadTells(w, s, t, j, story, t.reqs[j].pc.act, t.table[s.reqs[j].pc.f].res);
  }

  lemma SmallPutTable(s: Sys, i: nat, u: U.Up, answer: Answer, kept: bool)
    requires i < |s.reqs| && s.reqs[i].pc.Lead? && u.pc.Done?
    ensures TableStays(s, SmallPut(s, i, u, answer, kept), i)
  {}

  lemma PutTells(w: World, s: Sys, j: nat, kept: bool, story: Story)
    requires Inv(w, s) && Can(w, s, UploadDone(j, kept)) && Tells(w, s, j, story)
    ensures Tells(w, PutReturned(s, j, kept), j, story)
  {
    hide Inv, Tells, LargePut, SmallPut, U.Can;
    if s.reqs[j].pc.act.Uploading? { LargePutTells(w, s, j, story); } else { SmallPutTells(w, s, j, kept, story); }
  }

  lemma SettleTells(w: World, s: Sys, j: nat, story: Story)
    requires Inv(w, s) && Can(w, s, Settled(j)) && Tells(w, s, j, story)
    ensures Tells(w, Settle(s, j), j, story)
  {
    hide Inv, Tells, U.Can, U.Inv, Ok, Streamed, Go, Note, Goto;
    LeaderTold(w, s, j, story);
    LeaderIs(w, s, j);
    NoteReqs(s, j);
    var r, stored := s.reqs[j].pc.act.r, s.reqs[j].pc.act.stored;
    EndTells(r, story);
    if r.err == Some(Mismatch) {
      NoteTells(w, s, j, story, Ok200([]), false, Release(Streamed(r)));
    } else if r.err == Some(Eof) {
      NoteTells(w, s, j, story, Ok200([]), stored, Release(Streamed(r)));
    } else {
      GoTells(w, s, j, story, Release(Aborted));
    }
  }

  lemma DeferredTells(w: World, s: Sys, l: Label, j: nat, story: Story)
    requires Inv(w, s) && Can(w, s, l) && ReadersReady(s, l.i) && Tells(w, s, j, story) && l.i == j
    requires l.Released? || l.Removed?
    ensures Tells(w, Step(w, s, l), j, story)
  {
    hide Inv, Tells, TableStays, U.Can, Spoiled, From;
    LeaderTold(w, s, j, story);
    StepTable(w, s, l);
    var t := Step(w, s, l);
    LeadTells(w, s, t, j, story, t.reqs[j].pc.act, t.table[s.reqs[j].pc.f].res);
  }

  lemma ClosedTells(w: World, s: Sys, j: nat, story: Story)
    requires Inv(w, s) && Can(w, s, Closed(j)) && Tells(w, s, j, story)
    ensures Tells(w, CloseFlight(s, j), j, story)
  {
    hide Inv, U.Can, Spoiled, From, AnswerTells, Bad, ActOk;
    LeaderTold(w, s, j, story);
    LeaderIs(w, s, j);
    SameAnswer(w, s.reqs[j], CloseFlight(s, j).reqs[j], story, s.reqs[j].pc.act.answer);
  }

  lemma SameAnswer(w: World, q: Req, q': Req, story: Story, a: Answer)
    requires q'.key == q.key && q'.head == q.head
    ensures AnswerTells(w, q, story, a) <==> AnswerTells(w, q', story, a)
  {
    hide Spoiled;
  }

  // ------------------------------------------------------ steps of one that does not lead

  /** It leads no flight, and its story has not begun. */
  lemma FollowerTells(w: World, s: Sys, l: Label, j: nat, story: Story)
    requires Inv(w, s) && Can(w, s, l) && ReadersReady(s, l.i) && Tells(w, s, j, story) && l.i == j
    requires !s.reqs[j].pc.Lead?
    ensures Tells(w, Step(w, s, l), j, Tell(story, l, j))
  {
    hide Inv, U.Can, ProbePc, Served, Follow, Spoiled;
    FollowPc(w, s, l);
  }

  lemma FollowPc(w: World, s: Sys, l: Label)
    requires Can(w, s, l)
    ensures l.Woken? ==> !Follow(w, s.reqs[l.i], s.table[s.reqs[l.i].pc.f]).Lead?
    ensures l.Probed? ==> !ProbePc(w, s, s.reqs[l.i], l.fail, l.proxied).Lead?
  {
    hide U.Can, Served;
  }

  /** Every step of every request keeps to j's story. */
  lemma StepTells(w: World, s: Sys, l: Label, j: nat, story: Story)
    requires Inv(w, s) && Can(w, s, l) && ReadersReady(s, l.i) && Tells(w, s, j, story)
    ensures Tells(w, Step(w, s, l), j, Tell(story, l, j))
  {
    hide Inv, Tells, ReadMore, UploadMore, PutReturned, Settle, CloseFlight, U.Can, Goto, Go, Note, Probe, JoinOrLead,
      CountFetch;
    if l.i != j { OthersTell(w, s, l, j, story); return; }
    TellsIndex(w, s, j, story);
    if !s.reqs[j].pc.Lead? { FollowerTells(w, s, l, j, story); return; }
    match l
    case More(_, room) => ReadTells(w, s, j, room, story);
    case UploadStep(_, ul) => UploadTells(w, s, j, ul, story);
    case UploadDone(_, kept) => PutTells(w, s, j, kept, story);
    case Settled(_) => SettleTells(w, s, j, story);
    case Closed(_) => ClosedTells(w, s, j, story);
    case Released(_) => DeferredTells(w, s, l, j, story);
    case Removed(_) => DeferredTells(w, s, l, j, story);
    case Fetched(_, _, _, _) => FetchTells(w, s, l, j, story);
    case _ => EarlyTells(w, s, l, j, story);
  }

  lemma ReadTells(w: World, s: Sys, j: nat, room: nat, story: Story)
    requires Inv(w, s) && Can(w, s, More(j, room)) && ReadersReady(s, j) && Tells(w, s, j, story)
    ensures Tells(w, ReadMore(w, s, j, room), j, story)
  {
    hide Inv, Tells, SmallRead, PassedRead, DrainedRead, Next, U.Can, Ready;
    if s.reqs[j].pc.act.Reading? {
      SmallReadTells(w, s, j, room, story);
    } else {
      LargeReadTells(w, s, j, room, story);
    }
  }

  lemma TellsIndex(w: World, s: Sys, j: nat, story: Story)
    requires Tells(w, s, j, story)
    ensures j < |s.reqs|
  {}

  lemma {:induction false} RunTells(w: World, s: Sys, ls: seq<Label>, t: Sys, j: nat, story: Story)
    requires Inv(w, s) && Runs(w, s, ls, t) && Tells(w, s, j, story)
    ensures Tells(w, t, j, StoryOf(story, ls, j))
    decreases |ls|
  {
    hide Inv, Step, Can, Tells;
    if ls != [] {
      C.ReadyFor(w, s, ls[0]);
      StepKeeps(w, s, ls[0]);
      StepTells(w, s, ls[0], j, story);
      RunTells(w, Step(w, s, ls[0]), ls[1..], t, j, Tell(story, ls[0], j));
    }
  }

  // ------------------------------------------------------------- one thing decides

  /** What has been told is not told again. */
  lemma ToldOnce(w: World, s: Sys, l: Label, j: nat, story: Story)
    requires Inv(w, s) && Can(w, s, l) && Tells(w, s, j, story) && story != Untold
    ensures Tell(story, l, j) == story
  {
    hide Inv, U.Can, Spoiled, AnswerTells;
    if l.i == j && s.reqs[j].pc.Lead? { LeaderTold(w, s, j, story); }
  }

  lemma {:induction false} StoryStays(w: World, s: Sys, ls: seq<Label>, t: Sys, j: nat, story: Story)
    requires Inv(w, s) && Runs(w, s, ls, t) && Tells(w, s, j, story) && story != Untold
    ensures StoryOf(story, ls, j) == story
    decreases |ls|
  {
    hide Inv, Step, Can, Tells, Tell;
    if ls != [] {
      C.ReadyFor(w, s, ls[0]);
      StepKeeps(w, s, ls[0]);
      StepTells(w, s, ls[0], j, story);
      ToldOnce(w, s, ls[0], j, story);
      StoryStays(w, Step(w, s, ls[0]), ls[1..], t, j, story);
    }
  }

  /** Leader j spoils its flight: it goes away, its look or its request to upstream fails,
      or the response it gets is not whole, or too large. */
  ghost predicate Spoils(w: World, key: Key, l: Label, j: nat) {
    l.i == j &&
    (l.Left? || (l.Looked? && l.look.LookFailed?) || l.FetchFailed? || (l.Fetched? && Spoiled(w, key, l.body, l.want)))
  }

  ghost predicate SpoiledBy(w: World, key: Key, ls: seq<Label>, j: nat) {
    exists m :: 0 <= m < |ls| && Spoils(w, key, ls[m], j)
  }

  lemma SpoiledFirst(w: World, key: Key, ls: seq<Label>, j: nat)
    requires ls != []
    ensures SpoiledBy(w, key, ls, j) <==> Spoils(w, key, ls[0], j) || SpoiledBy(w, key, ls[1..], j)
  {
    hide Spoils;
    if m :| 0 <= m < |ls[1..]| && Spoils(w, key, ls[1..][m], j) { assert Spoils(w, key, ls[m + 1], j); }
    if m :| 0 <= m < |ls| && Spoils(w, key, ls[m], j) { assert m > 0 ==> ls[1..][m - 1] == ls[m]; }
  }

  /** A story is bad if and only if its leader did such a thing. */
  lemma {:induction false} BadStory(w: World, s: Sys, ls: seq<Label>, t: Sys, j: nat, story: Story, key: Key)
    requires Inv(w, s) && Runs(w, s, ls, t) && Tells(w, s, j, story)
    ensures Bad(w, key, StoryOf(story, ls, j)) <==> Bad(w, key, story) || SpoiledBy(w, key, ls, j)
    decreases |ls|
  {
    hide Inv, Step, Can, Tells, Spoiled, SpoiledBy;
    if ls == [] {
      NothingSpoiled(w, key, j);
    } else {
      C.ReadyFor(w, s, ls[0]);
      StepKeeps(w, s, ls[0]);
      StepTells(w, s, ls[0], j, story);
      if story != Untold { ToldOnce(w, s, ls[0], j, story); }
      if story != Untold { ToldSpoils(w, s, ls[0], j, story, key); }
      BadStory(w, Step(w, s, ls[0]), ls[1..], t, j, Tell(story, ls[0], j), key);
      SpoiledFirst(w, key, ls, j);
    }
  }

  lemma NothingSpoiled(w: World, key: Key, j: nat)
    ensures !SpoiledBy(w, key, [], j)
  {}

  lemma ToldSpoils(w: World, s: Sys, l: Label, j: nat, story: Story, key: Key)
    requires Inv(w, s) && Can(w, s, l) && Tells(w, s, j, story) && story != Untold
    ensures !Spoils(w, key, l, j)
  {
    hide Inv, U.Can, Spoiled, AnswerTells;
    if l.i == j && s.reqs[j].pc.Lead? { LeaderTold(w, s, j, story); }
  }

  lemma InitTells(w: World, s: Sys, j: nat)
    requires Init(w, s) && j < |s.reqs|
    ensures Tells(w, s, j, Untold)
  {}

  /** The response that upstream has begun is the story. */
  lemma {:induction false} FetchedStory(w: World, s: Sys, ls: seq<Label>, t: Sys, j: nat, story: Story, m: nat)
    requires Inv(w, s) && Runs(w, s, ls, t) && Tells(w, s, j, story) && m < |ls| && ls[m].Fetched? && ls[m].i == j
    ensures StoryOf(story, ls, j) == Got(ls[m].body, ls[m].want, ls[m].moods)
    decreases |ls|
  {
    hide Inv, Step, Can, Tells;
    C.ReadyFor(w, s, ls[0]);
    StepKeeps(w, s, ls[0]);
    StepTells(w, s, ls[0], j, story);
    var u := Step(w, s, ls[0]);
    if m == 0 {
      StoryStays(w, u, ls[1..], t, j, Got(ls[0].body, ls[0].want, ls[0].moods));
    } else {
      FetchedStory(w, u, ls[1..], t, j, Tell(story, ls[0], j), m - 1);
    }
  }

  /** A response that upstream has begun decides its leader's answer, whatever the client,
      the store and all other requests do: for a large object, an unindexed NAR that is
      passed through included, the answer is broken off if and only if the body was not
      whole, and otherwise the client has all of it, or has itself refused a write; for a small
      one it is a 502 if and only if the body was not whole or too large. */
  lemma IncompleteBodiesBreakTheResponse(w: World, s: Sys, ls: seq<Label>, t: Sys, m: nat, i: nat, body: Body,
      want: int, moods: seq<bool>)
    requires Init(w, s) && (InitOk(w, s); Runs(w, s, ls, t))
    requires m < |ls| && ls[m] == Fetched(i, body, want, moods) && i < |t.reqs| && t.reqs[i].pc.Finished?
    ensures var q, a, data := t.reqs[i], t.reqs[i].pc.answer, body.data;
      if w.large(q.key) then
        && (a == Aborted <==> !Whole(data, body.end, want))
        && (Whole(data, body.end, want) ==> a == Lost || a == Clean(data))
        && (Whole(data, body.end, want) && Takes(moods) ==> a == Clean(data))
      else a == if Spoiled(w, q.key, body, want) then BadGateway else if q.head then HeadOnly else Clean(data)
  {
    hide Inv, Step, Can, Runs, Init, Tells, Spoiled;
    InitOk(w, s);
    RunReqs(w, s, ls, t);
    InitTells(w, s, i);
    RunTells(w, s, ls, t, i, Untold);
    FetchedStory(w, s, ls, t, i, Untold, m);
    FinishedTells(w, t, i, Got(body, want, moods));
  }

  lemma FinishedTells(w: World, t: Sys, i: nat, story: Story)
    requires Tells(w, t, i, story) && t.reqs[i].pc.Finished?
    ensures AnswerTells(w, t.reqs[i], story, t.reqs[i].pc.answer)
  {}

  lemma {:induction false} RunReqs(w: World, s: Sys, ls: seq<Label>, t: Sys)
    requires Inv(w, s) && Runs(w, s, ls, t)
    ensures |t.reqs| == |s.reqs|
    decreases |ls|
  {
    hide Inv, Step, Can;
    if ls != [] {
      C.ReadyFor(w, s, ls[0]);
      C.StepFrame(w, s, ls[0]);
      StepKeeps(w, s, ls[0]);
      RunReqs(w, Step(w, s, ls[0]), ls[1..], t);
    }
  }

  /** Whoever waited for a flight gets a 502 from it if and only if its leader went away
      while it queued for a slot, or its look at the index failed, or its request to
      upstream did, or what upstream sent was not whole, or too large. */
  lemma FollowersFailIff(w: World, s: Sys, ls: seq<Label>, t: Sys, i: nat)
    requires Init(w, s) && (InitOk(w, s); Runs(w, s, ls, t)) && Can(w, t, Woken(i))
    ensures var leader := t.table[t.reqs[i].pc.f].leader;
      Follow(w, t.reqs[i], t.table[t.reqs[i].pc.f]) == Finished(BadGateway) <==> SpoiledBy(w, t.reqs[i].key, ls, leader)
  {
    hide Inv, Step, Runs, Tells, SpoiledBy, U.Can;
    InitOk(w, s);
    RunKeeps(w, s, ls, t);
    var f, key := t.reqs[i].pc.f, t.reqs[i].key;
    var j := t.table[f].leader;
    ClosedFlight(w, t, i);
    RunReqs(w, s, ls, t);
    InitTells(w, s, j);
    RunTells(w, s, ls, t, j, Untold);
    BadStory(w, s, ls, t, j, Untold, key);
    ClosedIsTold(w, t, f, StoryOf(Untold, ls, j));
  }

  /** The flight a woken request waited for: its leader is done, and was of the same site. */
  lemma ClosedFlight(w: World, t: Sys, i: nat)
    requires Inv(w, t) && Can(w, t, Woken(i))
    ensures var fl := t.table[t.reqs[i].pc.f];
      fl.leader < |t.reqs| && t.reqs[fl.leader].pc.Finished? && t.reqs[fl.leader].key == t.reqs[i].key
  {
    hide SlotsOk, ContentsOk, U.Can;
    assert ReqOk(t.flights, t.table, t.reqs[i], i);
    assert FlightOk(t.reqs, t.table[t.reqs[i].pc.f], t.reqs[i].pc.f);
  }

  lemma ClosedIsTold(w: World, t: Sys, f: nat, story: Story)
    requires f < |t.table| && Tells(w, t, t.table[f].leader, story) && t.reqs[t.table[f].leader].pc.Finished?
    ensures t.table[f].res.Failed? <==> Bad(w, t.reqs[t.table[f].leader].key, story)
  {
    hide Bad, AnswerTells;
  }
}
