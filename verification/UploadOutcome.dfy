/** What decides whether Put succeeds, when S3 does what it is asked. */
module UploadOutcome {
  import opened Common
  import opened Reading
  import opened Upload

  ghost predicate FailOk(u: Up, fail: Fail) {
    match fail
    case FromReader(stop) => u.reader.err == Some(stop) && stop != Eof
    case FromStore => false
    case TooManyParts => u.reader.err.None? && u.num == MAX_PARTS
  }

  /** While S3 agrees, every failure has its reason in the reader or the part limit. */
  ghost predicate Why(u: Up) {
    && !u.upErr
    && (u.pc.Wait? && u.pc.why.Some? ==> FailOk(u, u.pc.why.value))
    && (u.pc.Aborting? ==> FailOk(u, u.pc.fail))
    && (u.pc.Done? && u.pc.res.Failed? ==> FailOk(u, u.pc.res.fail))
    && (u.pc.Done? && u.pc.res.Stored? ==> u.reader.err == Some(Eof))
  }

  lemma StepWhy(u: Up, l: Label)
    requires Inv(u) && Why(u) && Can(u, l) && Agrees(l)
    ensures Why(Step(u, l))
  {
    hide Fill, Verdict, Matches, Sum, Sorted, Assemble, PartsOk, Owned, CallsOk, EveryPartIn, Concat, Contents;
  }

  lemma {:induction false} RunWhy(u: Up, ls: seq<Label>, v: Up)
    requires Inv(u) && Why(u) && Runs(u, ls, v) && forall l | l in ls :: Agrees(l)
    ensures Why(v)
    decreases |ls|
  {
    hide Inv, Step, Can, Why;
    if ls != [] {
      InvReady(u);
      StepKeeps(u, ls[0]);
      StepWhy(u, ls[0]);
      RunWhy(Step(u, ls[0]), ls[1..], v);
    }
  }

  lemma SameVerdict(a: Reader, b: Reader)
    requires Same(a, b)
    ensures Verdict(a) == Verdict(b)
  {}

  // ------------------------------------------------- told before the call

  /** The reader after k buffers of `size` bytes have been filled from it. */
  function Filled(r: Reader, size: nat, k: nat): (f: Reader)
    requires Ready(r)
    ensures Ready(f)
  {
    if k == 0 then r else
    FillReady(Filled(r, size, k - 1), size);
    Fill(Filled(r, size, k - 1), size).reader
  }

  lemma {:induction false} FillReady(r: Reader, room: nat)
    requires Ready(r)
    ensures Ready(Fill(r, room).reader)
    decreases room, |r.body.plan|
  {
    hide Next;
    FillUnfold(r, room);
    if room > 0 && Next(r, room).err.None? { FillReady(Next(r, room).reader, room - |Next(r, room).bytes|); }
  }

  lemma {:induction false} FilledKeeps(r: Reader, size: nat, k: nat)
    requires Ok(r) && Ready(r) && r.n == 0 && size > 0
    ensures var f := Filled(r, size, k);
      Ok(f) && Same(r, f) && f.n <= k * size && (f.err.None? && r.err.None? ==> f.n == k * size)
  {
    hide Fill, Ok;
    if k > 0 {
      var p := Filled(r, size, k - 1);
      FilledKeeps(r, size, k - 1);
      FillKeeps(p, size);
      FillSticky(p, size);
      assert (k - 1) * size + size == k * size;
      FillCount(p, size);
    } else {
      assert Same(r, r);
    }
  }

  /** A reader that has ended stays as it is. */
  lemma FillSticky(r: Reader, room: nat)
    requires Ready(r) && room > 0
    ensures r.err.Some? ==> Fill(r, room).reader == r
  {
    FillUnfold(r, room);
  }

  lemma FillCount(r: Reader, room: nat)
    requires Ok(r)
    ensures var f := Fill(r, room).reader; f.n <= r.n + room && (f.err.None? ==> r.err.Some? || f.n == r.n + room)
  {
    hide Fill;
    FillKeeps(r, room);
    FillEnds(r, room);
    var res := Fill(r, room);
    assert |res.bytes| == res.reader.n - r.n by { BytesBetween(res.reader.body.data, r.n, res.reader.n); }
  }

  lemma BytesBetween(s: seq<byte>, i: nat, j: nat)
    requires i <= j <= |s|
    ensures |s[i..j]| == j - i
  {}

  lemma FillEnds(r: Reader, room: nat)
    requires Ok(r)
    ensures Fill(r, room).reader.n <= |Fill(r, room).reader.body.data|
    ensures Fill(r, room).err.Some? ==> Fill(r, room).reader.err.Some?
  {
    hide Fill;
    FillKeeps(r, room);
  }

  lemma {:induction false} FilledStays(r: Reader, size: nat, j: nat, k: nat)
    requires Ready(r) && size > 0 && j <= k && Filled(r, size, j).err.Some?
    ensures Filled(r, size, k) == Filled(r, size, j)
    decreases k
  {
    hide Fill;
    if j < k {
      FilledStays(r, size, j, k - 1);
      FillSticky(Filled(r, size, k - 1), size);
    }
  }

  /** The upload has filled `num` buffers from the reader it was given. */
  ghost predicate Tracks(u: Up, r: Reader, size: nat)
    requires Ready(r)
  {
    u.partSize == size && u.num <= MAX_PARTS && u.reader == Filled(r, size, u.num)
  }

  lemma StepTracks(u: Up, l: Label, r: Reader, size: nat)
    requires Ready(r) && Inv(u) && Can(u, l) && Tracks(u, r, size) && Ready(u.reader)
    ensures Tracks(Step(u, l), r, size)
  {
    hide Inv, Fill, Sum, Sorted, Assemble;
    RefillRoom(u);
    assert Filled(r, size, u.num + 1) == Fill(Filled(r, size, u.num), size).reader;
  }

  /** A buffer is only taken while there is a part for it. */
  lemma RefillRoom(u: Up)
    requires Inv(u)
    ensures u.pc == Start || u.pc == Refill ==> u.num < MAX_PARTS
  {
    hide Owned, PartsOk, CallsOk, EveryPartIn, Sum, Concat;
  }

  lemma {:induction false} RunTracks(u: Up, ls: seq<Label>, v: Up, r: Reader, size: nat)
    requires Ready(r) && Inv(u) && Runs(u, ls, v) && Tracks(u, r, size)
    ensures Tracks(v, r, size)
    decreases |ls|
  {
    hide Inv, Step, Can, Tracks;
    if ls != [] {
      InvReady(u);
      StepKeeps(u, ls[0]);
      StepTracks(u, ls[0], r, size);
      RunTracks(Step(u, ls[0]), ls[1..], v, r, size);
    }
  }

  /** When S3 does its part, the outcome of Put is told by the reader it was given: it
      stores exactly when filling MAX_PARTS buffers would end in EOF, fails with the
      reader's error when that would come up, and otherwise refuses the body as too
      long. Below the limit that is the verdict on the response, above it nothing is
      stored, and at the limit the end must have come with the last bytes. */
  lemma PutDecides(u: Up, ls: seq<Label>, v: Up)
    requires Inv(u) && u.pc == Start && !u.upErr && Runs(u, ls, v) && v.pc.Done? && forall l | l in ls :: Agrees(l)
    ensures Ready(u.reader)
    ensures var end := Filled(u.reader, u.partSize, MAX_PARTS).err;
      && (v.pc.res.Stored? <==> end == Some(Eof))
      && (v.pc.res == Failed(TooManyParts) <==> end == None)
      && (end.Some? && end != Some(Eof) ==> v.pc.res == Failed(FromReader(end.value)))
    ensures var size, limit := |u.reader.body.data|, MAX_PARTS * u.partSize;
      && (size < limit ==> (v.pc.res.Stored? <==> Verdict(u.reader) == Eof))
      && (size > limit ==> !v.pc.res.Stored?)
      && (size == limit ==>
        (v.pc.res.Stored? <==> Verdict(u.reader) == Eof && Filled(u.reader, u.partSize, MAX_PARTS).err.Some?))
  {
    hide Inv, Verdict, Matches;
    assert Why(u);
    StartTracks(u);
    RunTracks(u, ls, v, u.reader, u.partSize);
    RunKeeps(u, ls, v);
    RunWhy(u, ls, v);
    OutcomeOf(u, v);
    Limits(u.reader, u.partSize);
  }

  lemma StartTracks(u: Up)
    requires Inv(u) && u.pc == Start
    ensures Ok(u.reader) && Ready(u.reader) && u.reader.n == 0 && u.reader.err.None? && u.partSize > 0
    ensures Tracks(u, u.reader, u.partSize)
  {
    hide Owned, PartsOk, CallsOk, EveryPartIn, Sum, Concat;
  }

  lemma OutcomeOf(u: Up, v: Up)
    requires Ready(u.reader) && u.partSize > 0 && Tracks(v, u.reader, u.partSize) && Inv(v) && Why(v) && v.pc.Done?
    ensures var end := Filled(u.reader, u.partSize, MAX_PARTS).err;
      && (v.pc.res.Stored? <==> end == Some(Eof))
      && (v.pc.res == Failed(TooManyParts) <==> end == None)
      && (end.Some? && end != Some(Eof) ==> v.pc.res == Failed(FromReader(end.value)))
  {
    hide Inv, Filled;
    if v.reader.err.Some? { FilledStays(u.reader, u.partSize, v.num, MAX_PARTS); }
  }

  /** What the reader's end says of the size of the body. */
  lemma Limits(r: Reader, size: nat)
    requires Ok(r) && Ready(r) && r.n == 0 && r.err.None? && size > 0
    ensures var f, limit := Filled(r, size, MAX_PARTS), MAX_PARTS * size;
      && (f.err.Some? ==> f.err.value == Verdict(r) && (f.err.value == Eof ==> |r.body.data| <= limit))
      && (f.err.None? ==> |r.body.data| >= limit)
  {
    hide Filled, Verdict;
    FilledKeeps(r, size, MAX_PARTS);
    SameVerdict(r, Filled(r, size, MAX_PARTS));
    EndIsVerdict(Filled(r, size, MAX_PARTS));
  }

  lemma EndIsVerdict(r: Reader)
    requires Ok(r)
    ensures r.n <= |r.body.data|
    ensures r.err.Some? ==> r.err.value == Verdict(r)
    ensures r.err == Some(Eof) ==> r.n == |r.body.data|
  {}

  // ------------------------------------------------- a run that is refused

  /** With S3 agreeing, an upload can always be run to its end. */
  lemma {:induction false} CompleteRun(u: Up) returns (ls: seq<Label>, v: Up)
    requires Inv(u) && Ready(u.reader)
    ensures Runs(u, ls, v) && v.pc.Done? && forall l | l in ls :: Agrees(l)
    decreases Rank(u)
  {
    hide Inv, Step, Can, Rank;
    if u.pc.Done? {
      ls, v := [], u;
    } else {
      var l := NeverStuck(u);
      StepKeeps(u, l);
      StepShrinks(u, l);
      var rest;
      rest, v := CompleteRun(Step(u, l));
      ls := [l] + rest;
      assert ls[0] == l && ls[1..] == rest;
    }
  }

  /** A body that comes in full buffers, its end only after the last of them. */
  ghost predicate LateEnd(r: Reader, size: nat, left: nat) {
    && Ready(r) && r.err.None? && r.body.plan == seq(left, _ => Turn(size, false))
    && r.body.pos + left * size == |r.body.data| && r.n == r.body.pos
    && (r.want == -1 || r.want == |r.body.data|)
  }

  lemma LateEndFill(r: Reader, size: nat, left: nat)
    requires LateEnd(r, size, left) && left > 0 && size > 0
    ensures LateEnd(Fill(r, size).reader, size, left - 1)
  {
    hide Fill;
    assert left * size == size + (left - 1) * size;
    assert (left - 1) * size >= 0;
    FillUnfold(r, size);
    var one := Next(r, size);
    FillUnfold(one.reader, 0);
    assert r.body.plan[1..] == seq(left - 1, _ => Turn(size, false));
  }

  lemma {:induction false} LateEndFilled(r: Reader, size: nat, k: nat, all: nat)
    requires LateEnd(r, size, all) && Ready(r) && k <= all && size > 0
    ensures LateEnd(Filled(r, size, k), size, all - k)
    decreases k
  {
    hide Fill, LateEnd;
    if k > 0 {
      LateEndFilled(r, size, k - 1, all);
      LateEndFill(Filled(r, size, k - 1), size, all - k + 1);
    }
  }

  /** A whole body of exactly the limit, its end reported by a read of its own: an upload
      of it runs to the end with S3 doing all it is asked, and it is refused. */
  lemma LateEndIsRefused(size: nat, concurrency: nat, data: seq<byte>, hash: seq<byte> -> string, client: Client)
    returns (u: Up, ls: seq<Label>, v: Up)
    requires size > 0 && concurrency > 0 && |data| == MAX_PARTS * size && (client.open ==> client.got == [])
    ensures u == Begin(size, concurrency,
      Open(Body(data, 0, CleanEnd, seq(MAX_PARTS, _ => Turn(size, false))), |data|, None, hash, client))
    ensures Verdict(u.reader) == Eof && Inv(u)
    ensures Runs(u, ls, v) && (forall l | l in ls :: Agrees(l)) && v.pc == Done(Failed(TooManyParts))
  {
    hide Inv, Fill, Filled;
    var body := Body(data, 0, CleanEnd, seq(MAX_PARTS, _ => Turn(size, false)));
    OpenOk(body, |data|, None, hash, client);
    u := Begin(size, concurrency, Open(body, |data|, None, hash, client));
    BeginOk(size, concurrency, u.reader);
    ls, v := CompleteRun(u);
    LateEndFilled(u.reader, size, MAX_PARTS, MAX_PARTS);
    PutDecides(u, ls, v);
  }

  // --------------------------------------------------- an upload that is left open

  /** S3 has put the parts together, whatever it answered. */
  ghost predicate Assembled(ls: seq<Label>) { Completed(true, true) in ls || Completed(false, true) in ls }

  /** What the labels say of the upload, told from a state on. */
  ghost predicate LeftBy(pc: Pc, open: bool, ls: seq<Label>) {
    || Created(false, true) in ls
    || (Aborted(false) in ls && !Assembled(ls) && (pc.Aborting? ==> open))
    || (pc.Done? && open)
  }

  lemma NothingAfter(u: Up, ls: seq<Label>, v: Up)
    requires Inv(u) && u.pc.Done? && Runs(u, ls, v)
    ensures ls == [] && v == u
  {
    hide Owned, PartsOk, BytesOk, CallsOk, EveryPartIn, Sum, Concat;
  }

  /** What the calls that are not about the upload as a whole leave as it is. */
  lemma OpenStays(u: Up, l: Label)
    requires Inv(u) && Can(u, l) && Ready(u.reader) && !l.Created? && !l.Completed? && !l.Aborted?
    ensures Step(u, l).s3.open == u.s3.open
    ensures Step(u, l).pc.Done? ==> !u.s3.open && !u.pc.Aborting? && !u.pc.Done?
    ensures Step(u, l).pc.Aborting? && !u.pc.Aborting? ==> u.s3.open
    ensures u.pc.Aborting? ==> Step(u, l).pc.Aborting?
  {
    hide Fill, Verdict, Matches, Sum, Sorted, Assemble, PartsOk, Owned, EveryPartIn, Concat, Contents, BytesOk;
  }

  lemma OpenMoves(u: Up, l: Label)
    requires Inv(u) && Can(u, l) && Ready(u.reader) && (l.Created? || l.Completed? || l.Aborted?)
    ensures var v := Step(u, l);
      match l
      case Created(ok, applied) =>
        (ok ==> applied) && u.pc.Create? && v.s3.open == applied && (if ok then v.pc.Loop? else v.pc.Done?)
      case Completed(ok, applied) =>
        (ok ==> applied) && u.pc == Completing && v.s3.open == !applied && (if ok then v.pc.Done? else v.pc.Aborting?)
      case Aborted(applied) => v.s3.open == (u.s3.open && !applied) && v.pc.Done? && u.pc.Aborting?
      case _ => true
  {
    hide Fill, Verdict, Matches, Sum, Sorted, Assemble, PartsOk, Owned, EveryPartIn, Concat, Contents, BytesOk;
  }

  lemma {:induction false} LeftFrom(u: Up, ls: seq<Label>, v: Up)
    requires Inv(u) && Runs(u, ls, v) && v.pc.Done?
    ensures v.s3.open <==> LeftBy(u.pc, u.s3.open, ls)
    decreases |ls|
  {
    hide Inv, Step, Can;
    if ls != [] {
      InvReady(u);
      var l, u' := ls[0], Step(u, ls[0]);
      StepKeeps(u, l);
      LeftFrom(u', ls[1..], v);
      FirstOrRest(ls);
      if u'.pc.Done? { NothingAfter(u', ls[1..], v); }
      NotDone(u, l);
      if l.Created? || l.Completed? || l.Aborted? { OpenMoves(u, l); } else { OpenStays(u, l); }
    }
  }

  lemma FirstOrRest(ls: seq<Label>)
    requires ls != []
    ensures forall l :: l in ls <==> l == ls[0] || l in ls[1..]
  {
    assert ls == [ls[0]] + ls[1..];
  }

  lemma NotDone(u: Up, l: Label)
    requires Inv(u) && Can(u, l)
    ensures !u.pc.Done?
  {
    hide Owned, PartsOk, BytesOk, CallsOk, EveryPartIn, Sum, Concat;
  }

  /** A Put leaves an upload open at S3 if and only if S3 created it and answered with an
      error, or was asked to abort it and did not, without having completed it before. */
  lemma LeftOpenIff(u: Up, ls: seq<Label>, v: Up)
    requires Inv(u) && u.pc == Start && Runs(u, ls, v) && v.pc.Done?
    ensures v.s3.open <==> Created(false, true) in ls || (Aborted(false) in ls && !Assembled(ls))
  {
    hide Inv, Runs;
    LeftFrom(u, ls, v);
  }

  /** So S3, if it does what it is asked, is left with none, whether Put succeeds or not. */
  lemma AgreedLeavesNone(u: Up, ls: seq<Label>, v: Up)
    requires Inv(u) && u.pc == Start && Runs(u, ls, v) && v.pc.Done? && forall l | l in ls :: Agrees(l)
    ensures !v.s3.open
  {
    hide Inv, Runs;
    LeftOpenIff(u, ls, v);
    assert !Agrees(Created(false, true)) && !Agrees(Aborted(false));
  }

  // ------------------------------------------------------------- two runs that do so

  lemma {:induction false} RunOn(u: Up, ls: seq<Label>, v: Up, l: Label)
    requires Inv(u) && Runs(u, ls, v) && Can(v, l)
    ensures Inv(v) && Ready(v.reader) && Inv(Step(v, l)) && Runs(u, ls + [l], Step(v, l))
    decreases |ls|
  {
    hide Inv, Step, Can;
    RunKeeps(u, ls, v);
    InvReady(v);
    StepKeeps(v, l);
    if ls == [] {
      assert u == v && [] + [l] == [l] && [l][1..] == [];
      assert Runs(Step(u, l), [], Step(u, l));
    } else {
      InvReady(u);
      StepKeeps(u, ls[0]);
      RunOn(Step(u, ls[0]), ls[1..], v, l);
      assert (ls + [l])[1..] == ls[1..] + [l] && (ls + [l])[0] == ls[0];
    }
  }

  /** A body that fills its first buffer is to be a multipart upload. */
  lemma FirstFills(u: Up) returns (ls: seq<Label>, v: Up)
    requires Inv(u) && u.pc == Start && Ready(u.reader) && Fill(u.reader, u.partSize).err.None?
    ensures ls == [First(0), Decided] && Runs(u, ls, v)
    ensures v.pc == Create(None) && v.cur == Some(0) && v.chunk > 0 && v.sent == [] && v.num == 1
    ensures v.concurrency > 0 && v.reader.err.None? && v.s3.creates == 0
  {
    hide Inv, Fill, Sum, Sorted, Assemble;
    NothingOut(u);
    FillsUp(u);
    RunOn(u, [], u, First(0));
    var u1 := Step(u, First(0));
    RunOn(u, [] + [First(0)], u1, Decided);
    ls, v := [] + [First(0)] + [Decided], Step(u1, Decided);
    NoneCreated(v);
  }

  lemma NoneCreated(v: Up)
    requires Inv(v) && v.pc.Create?
    ensures v.s3.creates == 0
  {}

  /** Before it takes its first buffer a Put holds none. */
  lemma NothingOut(u: Up)
    requires Inv(u) && u.pc == Start
    ensures u.pool.out == {} && u.sent == [] && u.num == 0 && u.concurrency > 0 && u.partSize > 0
  {
    hide PartsOk, CallsOk, EveryPartIn, Sum, Concat;
    assert forall b | b in u.pool.out :: u.cur == Some(b) || Holder(u.sent, b);
  }

  lemma FillsUp(u: Up)
    requires Inv(u) && Ready(u.reader) && Fill(u.reader, u.partSize).err.None? && u.pc == Start
    ensures |Fill(u.reader, u.partSize).bytes| == u.partSize && Fill(u.reader, u.partSize).reader.err.None?
  {
    hide Fill, PartsOk, CallsOk, EveryPartIn, Sum, Concat, Owned;
    FillKeeps(u.reader, u.partSize);
  }

  /** S3 creates the upload and answers with an error: it is left open, and S3 is not even
      asked to abort it. */
  lemma CreateLeavesOpen(u: Up) returns (ls: seq<Label>, v: Up)
    requires Inv(u) && u.pc == Start && Ready(u.reader) && Fill(u.reader, u.partSize).err.None?
    ensures ls == [First(0), Decided, Created(false, true)] && Runs(u, ls, v)
    ensures v.pc == Done(Failed(FromStore)) && v.s3.open && v.s3.aborts == 0
  {
    hide Inv, Runs, Sum, Sorted, Assemble;
    var v1;
    ls, v1 := FirstFills(u);
    var l := Created(false, true);
    RunOn(u, ls, v1, l);
    ls, v := ls + [l], Step(v1, l);
    NoneAborted(v);
  }

  lemma NoneAborted(v: Up)
    requires Inv(v) && v.pc.Done? && v.s3.open
    ensures v.s3.creates == 0 ==> v.s3.aborts == 0
  {}

  /** One part has been handed over, and is at this stage. */
  predicate OnePart(v: Up, pc: Pc, stage: Stage) {
    v.pc == pc && |v.sent| == 1 && v.sent[0].stage == stage && v.s3.open
  }

  lemma PartSent(u: Up) returns (ls: seq<Label>, v: Up)
    requires Inv(u) && u.pc == Start && Ready(u.reader) && Fill(u.reader, u.partSize).err.None?
    ensures ls == [First(0), Decided, Created(true, true), Turned, Sent] && Runs(u, ls, v)
    ensures OnePart(v, Check(None), Sending)
  {
    hide Inv, Runs, Sorted, Assemble;
    ls, v := FirstFills(u);
    RunOn(u, ls, v, Created(true, true));
    ls, v := ls + [Created(true, true)], Step(v, Created(true, true));
    RunOn(u, ls, v, Turned);
    ls, v := ls + [Turned], Step(v, Turned);
    RunOn(u, ls, v, Sent);
    ls, v := ls + [Sent], Step(v, Sent);
  }

  /** What a failing part's goroutine does after each stage. */
  function Failing(stage: Stage): Label
    requires stage != Gone
  {
    match stage
    case Sending => PartAnswered(0, false) case Answered => PartBuffer(0)
    case BufferBack => PartSlot(0) case SlotFree => PartGone(0)
  }

  function After(stage: Stage): Stage {
    match stage
    case Sending => Answered case Answered => BufferBack
    case BufferBack => SlotFree case SlotFree => Gone case Gone => Gone
  }

  lemma FailingMoves(v: Up, stage: Stage)
    requires OnePart(v, Check(None), stage) && stage != Gone && Ready(v.reader)
    ensures Can(v, Failing(stage)) && OnePart(Step(v, Failing(stage)), Check(None), After(stage))
    ensures stage == Sending || v.upErr ==> Step(v, Failing(stage)).upErr
  {
    hide Sum, Sorted, Assemble;
  }

  lemma PartFails(u: Up) returns (ls: seq<Label>, v: Up)
    requires Inv(u) && u.pc == Start && Ready(u.reader) && Fill(u.reader, u.partSize).err.None?
    ensures ls == [First(0), Decided, Created(true, true), Turned, Sent,
                   PartAnswered(0, false), PartBuffer(0), PartSlot(0), PartGone(0)] && Runs(u, ls, v)
    ensures OnePart(v, Check(None), Gone) && v.upErr
  {
    hide Inv, Runs, Step, Can, OnePart;
    ls, v := PartSent(u);
    ls, v := Fails(u, ls, v, Sending);
    ls, v := Fails(u, ls, v, Answered);
    ls, v := Fails(u, ls, v, BufferBack);
    ls, v := Fails(u, ls, v, SlotFree);
  }

  lemma Fails(u: Up, ls: seq<Label>, v: Up, stage: Stage) returns (ls': seq<Label>, v': Up)
    requires Inv(u) && Runs(u, ls, v) && OnePart(v, Check(None), stage) && stage != Gone
    requires stage != Sending ==> v.upErr
    ensures ls' == ls + [Failing(stage)] && Runs(u, ls', v') && OnePart(v', Check(None), After(stage)) && v'.upErr
  {
    hide Inv, Runs, Step, Can, OnePart;
    RunKeeps(u, ls, v);
    InvReady(v);
    FailingMoves(v, stage);
    RunOn(u, ls, v, Failing(stage));
    ls', v' := ls + [Failing(stage)], Step(v, Failing(stage));
  }

  /** The loop sees the failure, and waits for the part, which is gone. */
  lemma FailureMoves(v: Up)
    requires OnePart(v, Check(None), Gone) && v.upErr && Ready(v.reader)
    ensures Can(v, Checked) && var v1 := Step(v, Checked);
      && Ready(v1.reader) && Can(v1, Waited) && var v2 := Step(v1, Waited);
      && Ready(v2.reader) && Can(v2, Aborted(false)) && var v3 := Step(v2, Aborted(false));
      v3.pc == Done(Failed(FromStore)) && v3.s3.open
  {
    hide Sum, Sorted, Assemble;
  }

  /** A part fails, S3 is asked to abort the upload and does not: Put is over, and the upload
      is left open though its creation was acknowledged. */
  lemma AbortLeavesOpen(u: Up) returns (ls: seq<Label>, v: Up)
    requires Inv(u) && u.pc == Start && Ready(u.reader) && Fill(u.reader, u.partSize).err.None?
    ensures ls == [First(0), Decided, Created(true, true), Turned, Sent,
                   PartAnswered(0, false), PartBuffer(0), PartSlot(0), PartGone(0),
                   Checked, Waited, Aborted(false)] && Runs(u, ls, v)
    ensures v.pc == Done(Failed(FromStore)) && v.s3.open
  {
    hide Inv, Runs, Step, Can;
    ls, v := PartFails(u);
    RunKeeps(u, ls, v);
    InvReady(v);
    FailureMoves(v);
    RunOn(u, ls, v, Checked);
    ls, v := ls + [Checked], Step(v, Checked);
    RunOn(u, ls, v, Waited);
    ls, v := ls + [Waited], Step(v, Waited);
    RunOn(u, ls, v, Aborted(false));
    ls, v := ls + [Aborted(false)], Step(v, Aborted(false));
  }
}
