/** The S3 store's Put: one PutObject for a body that fits a buffer, otherwise a
    multipart upload whose parts are in flight together and finish in any order.
    A state is everything one call owns; a label is one thing that happens next. */
module Upload {
  import opened Common
  import opened Reading

  /** S3's limit on the parts of one upload. */
  const MAX_PARTS: nat := 10000

  datatype Fail = FromReader(stop: Stop) | FromStore | TooManyParts

  /** The life of one part's goroutine, its deferred calls in the order they run:
      the answer is recorded, the buffer returned, the slot freed, Done called. */
  datatype Stage = Sending | Answered | BufferBack | SlotFree | Gone

  /** `size` bytes of buffer `buf` are sent as one part; `content` is what was in
      them then, `held` what S3 has of the part once it has accepted it. */
  datatype Part = Part(buf: nat, size: nat, content: seq<byte>, stage: Stage, held: Option<seq<byte>>)

  datatype Pc =
    | Start
    | Decide(err: Option<Stop>)   // the first buffer is read
    | PutOne                      // PutObject called
    | Create(err: Option<Stop>)   // CreateMultipartUpload called
    | Loop(err: Option<Stop>)     // top of the loop, a filled buffer in hand
    | Send(err: Option<Stop>)     // waiting for a slot
    | Check(err: Option<Stop>)    // the buffer is handed over
    | Refill                      // about to take and fill the next buffer
    | Wait(why: Option<Fail>)    // wg.Wait
    | Completing
    | Aborting(fail: Fail)
    | Done(res: Result)

  datatype Result = Stored(total: nat) | Failed(fail: Fail)

  /** The buffers: those taken and not yet returned, what is in them, and how many
      calls of getBuf and putBuf there have been. */
  datatype Pool = Pool(out: set<nat>, heap: map<nat, seq<byte>>, taken: nat, returned: nat)

  /** The calls made for this key, and what the bucket shows because of them. */
  datatype Bucket = Bucket(
    creates: nat, // uploads created, as far as the caller knows
    completes: nat,
    aborts: nat,
    open: bool,   // S3 holds an upload that is neither completed nor aborted
    visible: Option<seq<byte>>)

  datatype Up = Up(
    partSize: nat,
    concurrency: nat,
    reader: Reader,
    pc: Pc,
    pool: Pool,
    cur: Option<nat>,   // the buffer this goroutine holds
    chunk: nat,         // n: how much of it is filled
    num: nat,
    total: nat,
    sent: seq<Part>,
    parts: seq<nat>,    // part numbers, in the order they succeeded
    upErr: bool,
    s3: Bucket)

  function Begin(partSize: nat, concurrency: nat, reader: Reader): Up {
    Up(partSize, concurrency, reader, Start, Pool({}, map[], 0, 0), None, 0, 0, 0, [], [], false,
      Bucket(0, 0, 0, false, None))
  }

  datatype Label =
    | First(buf: nat)
    | Decided
    | SinglePut(ok: bool, applied: bool) // `applied`: S3 did it, whatever it answered
    | Created(ok: bool, applied: bool)
    | Turned
    | Sent
    | Checked
    | Refilled(buf: nat)
    | PartAnswered(part: nat, ok: bool)
    | PartBuffer(part: nat)
    | PartSlot(part: nat)
    | PartGone(part: nat)
    | Waited
    | Completed(ok: bool, applied: bool)
    | Aborted(applied: bool)

  function UsesSlot(p: Part): nat { if p.stage in {Sending, Answered, BufferBack} then 1 else 0 }

  function Slots(u: Up): nat { Sum(u.sent, UsesSlot) }

  predicate HoldsBuffer(p: Part) { p.stage in {Sending, Answered} }

  predicate PartAt(u: Up, i: nat, stage: Stage) { i < |u.sent| && u.sent[i].stage == stage }

  /** What may happen next. */
  predicate Can(u: Up, l: Label) {
    match l
    case First(b) => u.pc == Start && b !in u.pool.out
    case Decided => u.pc.Decide?
    case SinglePut(ok, applied) => u.pc == PutOne && (ok ==> applied)
    case Created(ok, applied) => u.pc.Create? && (ok ==> applied)
    case Turned => u.pc.Loop?
    case Sent => u.pc.Send? && Slots(u) < u.concurrency
    case Checked => u.pc.Check?
    case Refilled(b) => u.pc == Refill && b !in u.pool.out
    case PartAnswered(i, _) => PartAt(u, i, Sending)
    case PartBuffer(i) => PartAt(u, i, Answered)
    case PartSlot(i) => PartAt(u, i, BufferBack)
    case PartGone(i) => PartAt(u, i, SlotFree)
    case Waited => u.pc.Wait? && forall i | 0 <= i < |u.sent| :: u.sent[i].stage == Gone
    case Completed(ok, applied) => u.pc == Completing && (ok ==> applied)
    case Aborted(_) => u.pc.Aborting?
  }

  function Take(pool: Pool, b: nat, bytes: seq<byte>): Pool {
    pool.(out := pool.out + {b}, taken := pool.taken + 1, heap := pool.heap[b := bytes])
  }

  function Return(pool: Pool, b: nat): Pool { pool.(out := pool.out - {b}, returned := pool.returned + 1) }

  /** getBuf, then readFull into it. */
  function TakeAndFill(u: Up, b: nat): (v: Up)
    requires Ready(u.reader)
  {
    var res := Fill(u.reader, u.partSize);
    u.(reader := res.reader, pool := Take(u.pool, b, res.bytes), cur := Some(b), chunk := |res.bytes|,
       pc := if u.pc == Start then Decide(res.err) else Loop(res.err), num := u.num + 1)
  }

  /** putBuf of the buffer in hand. */
  function Release(u: Up): Up { if u.cur.Some? then u.(pool := Return(u.pool, u.cur.value), cur := None) else u }

  function Buffer(pool: Pool, b: nat): seq<byte> { if b in pool.heap then pool.heap[b] else [] }

  function InHand(u: Up): seq<byte> { if u.cur.Some? then Buffer(u.pool, u.cur.value) else [] }

  /** The switch at the end of Put. */
  function DecideNext(u: Up): Up
    requires u.pc.Decide?
  {
    if u.pc.err == Some(Eof) && u.chunk < u.partSize then u.(pc := PutOne)
    else if u.pc.err.Some? && u.pc.err != Some(Eof) then Release(u).(pc := Done(Failed(FromReader(u.pc.err.value))))
    else u.(pc := Create(u.pc.err))
  }

  function TurnNext(u: Up): Up
    requires u.pc.Loop?
  {
    if u.pc.err.Some? && u.pc.err != Some(Eof) then Release(u).(pc := Wait(Some(FromReader(u.pc.err.value))))
    else if u.chunk > 0 then u.(pc := Send(u.pc.err), total := u.total + u.chunk)
    else Release(u).(pc := Check(u.pc.err))
  }

  function SendNext(u: Up): Up
    requires u.pc.Send?
  {
    if u.cur.None? then u else
    u.(pc := Check(u.pc.err), cur := None,
       sent := u.sent + [Part(u.cur.value, u.chunk, InHand(u), Sending, None)])
  }

  function CheckNext(u: Up): Up
    requires u.pc.Check?
  {
    if u.pc.err.Some? then u.(pc := Wait(None))
    else if u.upErr then u.(pc := Wait(Some(FromStore)))
    else if u.num == MAX_PARTS then u.(pc := Wait(Some(TooManyParts)))
    else u.(pc := Refill)
  }

  function Staged(u: Up, i: nat, stage: Stage): Up
    requires i < |u.sent|
  {
    u.(sent := u.sent[i := u.sent[i].(stage := stage)])
  }

  /** S3 read the part's bytes from its buffer; `ok` is what it answered. */
  function AnswerNext(u: Up, i: nat, ok: bool): Up
    requires i < |u.sent|
  {
    var p := u.sent[i];
    if ok
    then u.(sent := u.sent[i := p.(stage := Answered, held := Some(Buffer(u.pool, p.buf)))], parts := u.parts + [i + 1])
    else u.(sent := u.sent[i := p.(stage := Answered)], upErr := true)
  }

  function WaitNext(u: Up): Up
    requires u.pc.Wait?
  {
    var fail := if u.pc.why.None? && u.upErr then Some(FromStore) else u.pc.why;
    u.(pc := if fail.Some? then Aborting(fail.value) else Completing)
  }

  function Insert(x: nat, s: seq<nat>): seq<nat> {
    if s == [] || x <= s[0] then [x] + s else [s[0]] + Insert(x, s[1..])
  }

  /** sort.Slice by part number. */
  function Sorted(s: seq<nat>): seq<nat> {
    if s == [] then [] else Insert(s[|s| - 1], Sorted(s[..|s| - 1]))
  }

  /** What S3 makes of a list of part numbers: the parts it holds, in that order. */
  function Assemble(sent: seq<Part>, nums: seq<nat>): seq<byte> {
    if nums == [] then [] else
    var n := nums[|nums| - 1];
    Assemble(sent, nums[..|nums| - 1]) +
    (if 0 < n <= |sent| && sent[n - 1].held.Some? then sent[n - 1].held.value else [])
  }

  function CompleteNext(u: Up, ok: bool, applied: bool): Up {
    u.(s3 := u.s3.(completes := u.s3.completes + 1,
                   open := u.s3.open && !applied,
                   visible := if applied then Some(Assemble(u.sent, Sorted(u.parts))) else u.s3.visible),
       pc := if ok then Done(Stored(u.total)) else Aborting(FromStore))
  }

  function Step(u: Up, l: Label): Up
    requires Can(u, l) && Ready(u.reader)
  {
    match l
    case First(b) => TakeAndFill(u, b)
    case Decided => DecideNext(u)
    case SinglePut(ok, applied) =>
      Release(u).(s3 := u.s3.(visible := if applied then Some(InHand(u)) else u.s3.visible),
                  pc := Done(if ok then Stored(u.chunk) else Failed(FromStore)))
    case Created(ok, applied) =>
      if ok then u.(s3 := u.s3.(creates := u.s3.creates + 1, open := true), pc := Loop(u.pc.err))
      else Release(u).(s3 := u.s3.(open := u.s3.open || applied), pc := Done(Failed(FromStore)))
    case Turned => TurnNext(u)
    case Sent => SendNext(u)
    case Checked => CheckNext(u)
    case Refilled(b) => TakeAndFill(u, b)
    case PartAnswered(i, ok) => AnswerNext(u, i, ok)
    case PartBuffer(i) => Staged(u, i, BufferBack).(pool := Return(u.pool, u.sent[i].buf))
    case PartSlot(i) => Staged(u, i, SlotFree)
    case PartGone(i) => Staged(u, i, Gone)
    case Waited => WaitNext(u)
    case Completed(ok, applied) => CompleteNext(u, ok, applied)
    case Aborted(applied) =>
      u.(s3 := u.s3.(aborts := u.s3.aborts + 1, open := u.s3.open && !applied), pc := Done(Failed(u.pc.fail)))
  }

  /** What the first buffer decides: one call for a body that ends before it is full, an
      upload in parts if it is full, and nothing sent if the reader failed. */
  lemma FirstDecides(partSize: nat, concurrency: nat, reader: Reader, b: nat)
    requires Ok(reader)
    ensures var first := Step(Begin(partSize, concurrency, reader), First(b));
      first.pc.Decide? && Ready(first.reader) &&
      var res, pc := Fill(reader, partSize), Step(first, Decided).pc;
      && (pc == PutOne <==> res.err == Some(Eof) && |res.bytes| < partSize)
      && (pc.Create? <==> res.err.None? || (res.err == Some(Eof) && |res.bytes| == partSize))
      && (res.err.Some? && res.err != Some(Eof) ==> pc == Done(Failed(FromReader(res.err.value))))
  {
    hide Fill;
    FillKeeps(reader, partSize);
  }

  // ---------------------------------------------------------------- invariant

  function Contents(sent: seq<Part>): seq<seq<byte>> { seq(|sent|, i requires 0 <= i < |sent| => sent[i].content) }

  /** Every buffer out of the pool is held exactly once: by this goroutine or by one
      part that S3 may still be reading. */
  ghost predicate Owned(out: set<nat>, cur: Option<nat>, sent: seq<Part>) {
    && (cur.Some? ==> cur.value in out)
    && (forall i | 0 <= i < |sent| && HoldsBuffer(sent[i]) :: sent[i].buf in out && cur != Some(sent[i].buf))
    && (forall i, j | 0 <= i < j < |sent| && HoldsBuffer(sent[i]) && HoldsBuffer(sent[j]) :: sent[i].buf != sent[j].buf)
    && (forall b | b in out :: cur == Some(b) || Holder(sent, b))
  }

  ghost predicate Holder(sent: seq<Part>, b: nat) {
    exists i :: 0 <= i < |sent| && HoldsBuffer(sent[i]) && sent[i].buf == b
  }

  ghost predicate InHandOk(u: Up) {
    && (u.cur.Some? ==> u.cur.value in u.pool.heap && u.chunk == |u.pool.heap[u.cur.value]|)
    && (u.cur.Some? <==> u.pc.Decide? || u.pc == PutOne || u.pc.Create? || u.pc.Loop? || u.pc.Send?)
  }

  /** Part number i + 1. */
  ghost predicate PartOk(partSize: nat, heap: map<nat, seq<byte>>, p: Part, number: nat, parts: seq<nat>, upErr: bool) {
    && 0 < p.size == |p.content| <= partSize
    && (p.stage == Sending ==> p.buf in heap && heap[p.buf] == p.content && number !in parts)
    && (number in parts ==> p.held == Some(p.content))
    && (p.stage != Sending && number !in parts ==> upErr)
  }

  ghost predicate PartsOk(partSize: nat, heap: map<nat, seq<byte>>, sent: seq<Part>, parts: seq<nat>, upErr: bool) {
    && (forall i | 0 <= i < |sent| :: PartOk(partSize, heap, sent[i], i + 1, parts, upErr))
    && (forall k | k in parts :: 0 < k <= |sent|)
    && (forall a, b | 0 <= a < b < |parts| :: parts[a] != parts[b])
    && |sent| <= MAX_PARTS
    && (forall i | 0 <= i < |sent| - 1 :: sent[i].size == partSize)
  }

  ghost function SentBytes(u: Up): seq<byte> { Concat(Contents(u.sent)) }

  ghost predicate LastFull(contents: seq<seq<byte>>, partSize: nat) {
    contents != [] ==> |contents[|contents| - 1]| == partSize
  }

  /** Where the bytes read so far are, and what the loop variables mean: `hand` is
      the filled part of the buffer in hand, `contents` the parts handed over. */
  ghost predicate BytesOk(pc: Pc, r: Reader, partSize: nat, hand: seq<byte>, contents: seq<seq<byte>>, num: nat,
      total: nat)
    requires r.n <= |r.body.data|
  {
    var data, seen, gone := r.body.data, r.body.data[..r.n], Concat(contents);
    match pc
    case Start => contents == [] && r.n == 0 && r.err.None? && num == 0 && total == 0
    case Decide(err) =>
      && contents == [] && hand == seen && num == 1 && total == 0
      && err == r.err && |hand| <= partSize && (err.None? ==> |hand| == partSize)
    case PutOne => contents == [] && hand == data && r.err == Some(Eof)
    case Create(err) =>
      && contents == [] && hand == seen && num == 1 && total == 0
      && err == r.err && |hand| == partSize && (err.Some? ==> err == Some(Eof))
    case Loop(err) =>
      && gone + hand == seen && total == |gone| && LastFull(contents, partSize) && num == |contents| + 1 <= MAX_PARTS
      && (contents == [] ==> |hand| == partSize) && err == r.err && |hand| <= partSize
      && (err.None? ==> |hand| == partSize)
    case Send(err) =>
      && gone + hand == seen && total == |gone| + |hand| && LastFull(contents, partSize)
      && num == |contents| + 1 <= MAX_PARTS
      && err == r.err && 0 < |hand| <= partSize && (err.None? ==> |hand| == partSize)
      && (err.Some? ==> err == Some(Eof))
    case Check(err) =>
      && contents != [] && gone == seen && total == |gone| && (err.Some? ==> err == Some(Eof))
      && err == r.err && (err.None? ==> LastFull(contents, partSize) && num == |contents|)
    case Refill => contents != [] && gone == seen && total == |gone| && LastFull(contents, partSize) &&
      num == |contents| < MAX_PARTS && r.err.None?
    case Wait(why) => why.None? ==> contents != [] && gone == data && total == |data| && r.err == Some(Eof)
    case Completing => contents != [] && gone == data && total == |data| && r.err == Some(Eof)
    case Aborting(_) => true
    case Done(_) => true
  }

  ghost predicate AllGone(sent: seq<Part>) { forall i | 0 <= i < |sent| :: sent[i].stage == Gone }

  /** What has been asked of S3, and what the bucket shows for it. */
  ghost predicate CallsOk(pc: Pc, r: Reader, upErr: bool, s3: Bucket) {
    && (s3.visible.Some? ==> r.err == Some(Eof) && s3.visible.value == r.body.data)
    && (!(pc.Aborting? || pc.Done?) ==> s3.visible.None? && s3.completes == 0 && s3.aborts == 0)
    && (pc in {Start, PutOne} || pc.Decide? || pc.Create? ==> s3.creates == 0)
    && (pc.Loop? || pc.Send? || pc.Check? || pc == Refill || pc.Wait? || pc == Completing || pc.Aborting? ==>
      s3.creates == 1)
    && (pc.Aborting? ==> s3.aborts == 0 && s3.completes <= 1)
    && (pc == Completing ==> !upErr)
    && (pc.Done? ==> s3.creates <= 1 && s3.completes <= 1)
    && (s3.completes == 0 && s3.creates == 1 && !pc.Done? ==> s3.open)
    && (s3.creates == 0 && !pc.Done? ==> !s3.open)
    && (pc.Done? && pc.res.Stored? ==> !s3.open)
    && (pc.Done? && s3.creates == 1 ==> s3.aborts == (if pc.res.Stored? then 0 else 1))
    && (pc.Done? && s3.creates == 0 ==> s3.aborts == s3.completes == 0)
    && (pc.Done? && pc.res.Stored? ==> s3.visible.Some? && pc.res.total == |r.body.data|)
  }

  /** Which parts there can be: none before the upload is created, and none left
      running once it is over. */
  ghost predicate PhaseOk(pc: Pc, sent: seq<Part>) {
    && (pc in {Start, PutOne} || pc.Decide? || pc.Create? ==> sent == [])
    && (pc == Completing || pc.Aborting? || pc.Done? ==> AllGone(sent))
  }

  /** S3 was asked to complete exactly the parts 1..k, each full but the last, which
      together are every byte of a body that ended whole. */
  ghost predicate EveryPartIn(r: Reader, partSize: nat, sent: seq<Part>, parts: seq<nat>, total: nat) {
    && r.err == Some(Eof) && total == |r.body.data|
    && Sorted(parts) == Upto(|sent|) && 0 < |sent| <= MAX_PARTS
    && (forall i | 0 <= i < |sent| :: sent[i].held == Some(sent[i].content) && 0 < |sent[i].content| <= partSize)
    && (forall i | 0 <= i < |sent| - 1 :: |sent[i].content| == partSize)
    && Concat(Contents(sent)) == r.body.data
  }

  ghost function Upto(k: nat): seq<nat> { seq(k, i => i + 1) }

  ghost predicate Inv(u: Up) {
    && u.partSize > 0 && u.concurrency > 0 && Ok(u.reader)
    && Owned(u.pool.out, u.cur, u.sent) && u.pool.taken == u.pool.returned + |u.pool.out| && InHandOk(u)
    && Slots(u) <= u.concurrency
    && PartsOk(u.partSize, u.pool.heap, u.sent, u.parts, u.upErr)
    && BytesOk(u.pc, u.reader, u.partSize, InHand(u), Contents(u.sent), u.num, u.total)
    && CallsOk(u.pc, u.reader, u.upErr, u.s3) && PhaseOk(u.pc, u.sent)
    && (u.s3.completes > 0 ==>
      (u.pc.Aborting? || u.pc.Done?) && EveryPartIn(u.reader, u.partSize, u.sent, u.parts, u.total))
  }

  // ------------------------------------------------------------------ sorting

  ghost predicate Increasing(s: seq<nat>) { forall i, j | 0 <= i < j < |s| :: s[i] < s[j] }

  lemma {:induction false} InsertKeeps(x: nat, s: seq<nat>)
    requires Increasing(s) && x !in s
    ensures Increasing(Insert(x, s))
    ensures forall y :: y in Insert(x, s) <==> y == x || y in s
  {
    if s == [] || x <= s[0] {
    } else {
      InsertKeeps(x, s[1..]);
      var rest := Insert(x, s[1..]);
      assert s == [s[0]] + s[1..];
      forall j | 0 <= j < |rest| ensures s[0] < rest[j] {
        assert rest[j] in rest;
      }
    }
  }

  lemma {:induction false} SortedKeeps(s: seq<nat>)
    requires forall a, b | 0 <= a < b < |s| :: s[a] != s[b]
    ensures Increasing(Sorted(s))
    ensures forall y :: y in Sorted(s) <==> y in s
  {
    if s != [] {
      var init := s[..|s| - 1];
      SortedKeeps(init);
      assert s == init + [s[|s| - 1]];
      InsertKeeps(s[|s| - 1], Sorted(init));
    }
  }

  lemma {:induction false} IncreasingAt(s: seq<nat>, k: nat, i: nat)
    requires Increasing(s) && (forall y :: y in s <==> 0 < y <= k) && i < |s|
    ensures forall m | 0 <= m <= i :: s[m] == m + 1
  {
    if i > 0 {
      IncreasingAt(s, k, i - 1);
      assert s[i - 1] < s[i];
    }
    assert s[i] in s && i + 1 in s;
    var j :| 0 <= j < |s| && s[j] == i + 1;
  }

  /** An increasing list of exactly the numbers 1..k is 1, 2, ..., k. */
  lemma IncreasingIsUpto(s: seq<nat>, k: nat)
    requires Increasing(s) && forall y :: y in s <==> 0 < y <= k
    ensures s == Upto(k)
  {
    forall i | 0 <= i < |s| ensures s[i] == i + 1 { IncreasingAt(s, k, i); }
    assert k > 0 ==> k in s;
    assert |s| > 0 ==> s[|s| - 1] in s;
  }

  /** The parts 1..k assembled are the contents sent, in order. */
  lemma {:induction false} AssembleInOrder(sent: seq<Part>, k: nat)
    requires k <= |sent| && forall i | 0 <= i < k :: sent[i].held == Some(sent[i].content)
    ensures Assemble(sent, Upto(k)) == Concat(Contents(sent[..k]))
  {
    if k > 0 {
      assert Upto(k)[..k - 1] == Upto(k - 1);
      AssembleInOrder(sent, k - 1);
      assert Contents(sent[..k])[..k - 1] == Contents(sent[..k - 1]);
    }
  }

  // ------------------------------------------------------- what every step keeps

  lemma InvReady(u: Up)
    requires Inv(u)
    ensures Ready(u.reader)
  {}

  lemma FillStepKeeps(u: Up, b: nat)
    requires Inv(u) && (u.pc == Start || u.pc == Refill) && b !in u.pool.out
    ensures Inv(TakeAndFill(u, b))
    ensures Fuel(TakeAndFill(u, b).reader) < Fuel(u.reader)
    ensures Same(u.reader, TakeAndFill(u, b).reader)
  {
    hide Fill, Fuel, Ok, Sum, Concat, PartsOk, BytesOk, EveryPartIn, Contents, Owned, InHandOk;
    InvReady(u);
    FillKeeps(u.reader, u.partSize);
    FillBytes(u, b);
    FillParts(u, b, Fill(u.reader, u.partSize).bytes);
    FillOwned(u, b);
  }

  lemma FillOwned(u: Up, b: nat)
    requires Ready(u.reader) && Owned(u.pool.out, u.cur, u.sent) && InHandOk(u) && (u.pc == Start || u.pc == Refill)
    requires b !in u.pool.out
    ensures var v := TakeAndFill(u, b);
      Owned(v.pool.out, v.cur, v.sent) && InHandOk(v) && |v.pool.out| == |u.pool.out| + 1
  {
    hide Fill;
  }

  lemma FillBytes(u: Up, b: nat)
    requires Inv(u) && (u.pc == Start || u.pc == Refill)
    ensures var v := TakeAndFill(u, b);
      v.reader.n <= |v.reader.body.data| &&
        BytesOk(v.pc, v.reader, v.partSize, InHand(v), Contents(v.sent), v.num, v.total)
    ensures u.reader.err.None?
  {
    hide Fill, Fuel, Verdict, Matches, Sum, Concat, Sorted, Assemble, PartsOk, Owned, CallsOk, EveryPartIn;
    FillKeeps(u.reader, u.partSize);
    var v := TakeAndFill(u, b);
    assert v.reader.body.data[..u.reader.n] + InHand(v) == v.reader.body.data[..v.reader.n];
    if u.pc == Start { assert InHand(v) == v.reader.body.data[..v.reader.n]; }
  }

  /** Writing a buffer nobody holds disturbs no part in flight. */
  lemma FillParts(u: Up, b: nat, bytes: seq<byte>)
    requires PartsOk(u.partSize, u.pool.heap, u.sent, u.parts, u.upErr) && Owned(u.pool.out, u.cur, u.sent)
    requires b !in u.pool.out
    ensures PartsOk(u.partSize, u.pool.heap[b := bytes], u.sent, u.parts, u.upErr)
  {
    forall i | 0 <= i < |u.sent|
      ensures PartOk(u.partSize, u.pool.heap[b := bytes], u.sent[i], i + 1, u.parts, u.upErr)
    {
      assert PartOk(u.partSize, u.pool.heap, u.sent[i], i + 1, u.parts, u.upErr);
    }
  }

  /** At EOF the reader has handed over the whole body. */
  lemma EndWhole(r: Reader)
    requires Ok(r)
    ensures r.err == Some(Eof) ==> r.body.data[..r.n] == r.body.data && r.n == |r.body.data|
  {}

  lemma NothingSent()
    ensures Concat(Contents([])) == []
  {}

  /** A holder stays one while nobody touches its part. */
  lemma HolderStays(sent: seq<Part>, sent': seq<Part>, b: nat)
    requires |sent| <= |sent'| && Holder(sent, b)
    requires forall i | 0 <= i < |sent| && sent[i].buf == b && HoldsBuffer(sent[i]) ::
      sent'[i].buf == b && HoldsBuffer(sent'[i])
    ensures Holder(sent', b)
  {
    var i :| 0 <= i < |sent| && HoldsBuffer(sent[i]) && sent[i].buf == b;
    assert HoldsBuffer(sent'[i]);
  }

  lemma DecidedKeeps(u: Up)
    requires Inv(u) && Can(u, Decided)
    ensures Inv(Step(u, Decided))
  {
    hide Fill, Verdict, Matches, Sum, Concat, Sorted, Assemble;
    EndWhole(u.reader);
  }

  lemma CreatedKeeps(u: Up, ok: bool, applied: bool)
    requires Inv(u) && Can(u, Created(ok, applied))
    ensures Inv(Step(u, Created(ok, applied)))
  {
    hide Fill, Verdict, Matches, Sum, Concat, Sorted, Assemble;
    NothingSent();
    assert [] + InHand(u) == InHand(u);
  }

  lemma TurnedKeeps(u: Up)
    requires Inv(u) && Can(u, Turned)
    ensures Inv(Step(u, Turned))
  {
    hide Inv;
    if u.pc.err.Some? && u.pc.err != Some(Eof) { TurnedFails(u); }
    else if u.chunk > 0 { TurnedSends(u); }
    else { TurnedEnds(u); }
  }

  /** The reader failed: the buffer goes back, and the parts are waited for. */
  lemma TurnedFails(u: Up)
    requires Inv(u) && u.pc.Loop? && u.pc.err.Some? && u.pc.err != Some(Eof)
    ensures Inv(TurnNext(u))
  {
    hide Fill, Verdict, Matches, Sum, Concat, Sorted, Assemble, PartsOk, EveryPartIn, Ok, Upto;
    var v := TurnNext(u);
    assert Owned(v.pool.out, v.cur, v.sent) && InHandOk(v);
  }

  lemma TurnedSends(u: Up)
    requires Inv(u) && u.pc.Loop? && !(u.pc.err.Some? && u.pc.err != Some(Eof)) && u.chunk > 0
    ensures Inv(TurnNext(u))
  {
    hide Fill, Verdict, Matches, Sum, Concat, Sorted, Assemble, PartsOk, Owned, EveryPartIn, Ok, Upto;
    var v := TurnNext(u);
    assert InHand(v) == InHand(u) && Contents(v.sent) == Contents(u.sent);
  }

  /** The reader ended with the part before. */
  lemma TurnedEnds(u: Up)
    requires Inv(u) && u.pc.Loop? && !(u.pc.err.Some? && u.pc.err != Some(Eof)) && u.chunk == 0
    ensures Inv(TurnNext(u))
  {
    hide Fill, Verdict, Matches, Sum, Concat, Sorted, Assemble, PartsOk, EveryPartIn, Ok, Upto;
    var v := TurnNext(u);
    assert Owned(v.pool.out, v.cur, v.sent) && InHandOk(v);
    assert InHand(u) == [] && SentBytes(u) + [] == SentBytes(u);
  }

  lemma SinglePutKeeps(u: Up, ok: bool, applied: bool)
    requires Inv(u) && Can(u, SinglePut(ok, applied))
    ensures Inv(Step(u, SinglePut(ok, applied)))
  {
    hide Fill, Verdict, Matches, Sum, Concat, Sorted, Assemble, PartsOk;
    var v := Step(u, SinglePut(ok, applied));
    assert Owned(v.pool.out, v.cur, v.sent);
    assert InHand(u) == u.reader.body.data;
    assert CallsOk(v.pc, v.reader, v.upErr, v.s3);
  }

  lemma AbortedKeeps(u: Up, applied: bool)
    requires Inv(u) && Can(u, Aborted(applied))
    ensures Inv(Step(u, Aborted(applied)))
  {
    hide Fill, Verdict, Matches, Sum, Concat, Sorted, Assemble, PartsOk, Owned, Upto;
    var v := Step(u, Aborted(applied));
    assert InHandOk(v);
    assert CallsOk(v.pc, v.reader, v.upErr, v.s3);
  }

  lemma CheckedKeeps(u: Up)
    requires Inv(u) && Can(u, Checked)
    ensures Inv(Step(u, Checked))
  {
    hide Fill, Verdict, Matches, Sum, Concat, Sorted, Assemble, Owned;
    EndWhole(u.reader);
    var v := Step(u, Checked);
    assert BytesOk(v.pc, v.reader, v.partSize, InHand(v), Contents(v.sent), v.num, v.total);
  }

  lemma WaitedKeeps(u: Up)
    requires Inv(u) && Can(u, Waited)
    ensures Inv(Step(u, Waited))
  {
    hide Fill, Verdict, Matches, Sum, Concat, Sorted, Assemble, PartsOk, Owned;
    var v := Step(u, Waited);
    assert BytesOk(v.pc, v.reader, v.partSize, InHand(v), Contents(v.sent), v.num, v.total);
    assert CallsOk(v.pc, v.reader, v.upErr, v.s3);
  }

  lemma SentKeeps(u: Up)
    requires Inv(u) && Can(u, Sent)
    ensures Inv(SendNext(u))
  {
    hide Fill, Verdict, Matches, Sum, Concat, Sorted, Assemble;
    var p := Part(u.cur.value, u.chunk, InHand(u), Sending, None);
    var v := SendNext(u);
    SumAppend(u.sent, p, UsesSlot);
    assert Contents(v.sent) == Contents(u.sent) + [p.content];
    ConcatAppend(Contents(u.sent), p.content);
    SentOwned(u.pool.out, p, u.sent);
    SentParts(u, p);
  }

  lemma SentOwned(out: set<nat>, p: Part, sent: seq<Part>)
    requires Owned(out, Some(p.buf), sent) && HoldsBuffer(p)
    ensures Owned(out, None, sent + [p])
  {
    var sent' := sent + [p];
    assert HoldsBuffer(sent'[|sent|]);
    forall b | b in out ensures Holder(sent', b) {
      if b != p.buf { HolderStays(sent, sent', b); }
    }
  }

  lemma SentParts(u: Up, p: Part)
    requires PartsOk(u.partSize, u.pool.heap, u.sent, u.parts, u.upErr) && |u.sent| < MAX_PARTS
    requires LastFull(Contents(u.sent), u.partSize)
    requires p.stage == Sending && p.buf in u.pool.heap && u.pool.heap[p.buf] == p.content
    requires 0 < p.size == |p.content| <= u.partSize
    ensures PartsOk(u.partSize, u.pool.heap, u.sent + [p], u.parts, u.upErr)
  {
    var sent' := u.sent + [p];
    forall i | 0 <= i < |sent'| ensures PartOk(u.partSize, u.pool.heap, sent'[i], i + 1, u.parts, u.upErr) {
      if i < |u.sent| { assert sent'[i] == u.sent[i]; }
    }
    if u.sent != [] {
      var last := |u.sent| - 1;
      assert PartOk(u.partSize, u.pool.heap, u.sent[last], last + 1, u.parts, u.upErr);
      assert Contents(u.sent)[last] == u.sent[last].content;
    }
  }

  /** A part's goroutine moves on: what it does touches nobody else's buffer. */
  /** What the goroutine of a part does to everything but the parts: it returns a buffer. */
  lemma PartFrame(u: Up, l: Label)
    requires Can(u, l) && Ready(u.reader) && (l.PartAnswered? || l.PartBuffer? || l.PartSlot? || l.PartGone?)
    ensures l.part < |u.sent|
    ensures var v, i := Step(u, l), l.part;
      && v == u.(pool := v.pool, sent := v.sent, parts := v.parts, upErr := v.upErr)
      && v.pool == (if l.PartBuffer? then Return(u.pool, u.sent[i].buf) else u.pool)
      && |v.sent| == |u.sent| && v.sent == u.sent[i := v.sent[i]]
      && v.sent[i].buf == u.sent[i].buf && v.sent[i].content == u.sent[i].content
      && UsesSlot(v.sent[i]) <= UsesSlot(u.sent[i])
      && (HoldsBuffer(u.sent[i]) && !HoldsBuffer(v.sent[i]) <==> l.PartBuffer?)
      && (HoldsBuffer(v.sent[i]) ==> HoldsBuffer(u.sent[i]))
      && u.sent[i].stage != Gone
  {}

  lemma PartPhase(pc: Pc, sent: seq<Part>, after: seq<Part>, i: nat)
    requires PhaseOk(pc, sent) && i < |sent| && sent[i].stage != Gone
    ensures PhaseOk(pc, after)
    ensures !(pc.Aborting? || pc.Done?) && pc != Completing
  {
    assert !AllGone(sent);
  }

  lemma PartKeeps(u: Up, l: Label)
    requires Inv(u) && Can(u, l) && (l.PartAnswered? || l.PartBuffer? || l.PartSlot? || l.PartGone?)
    ensures Inv(Step(u, l))
  {
    hide Fill, Verdict, Matches, Sum, Concat, Sorted, Assemble, BytesOk, PartsOk, Owned, EveryPartIn, Step, Can,
      UsesSlot, HoldsBuffer, PhaseOk, Ok;
    InvReady(u);
    var i, v := l.part, Step(u, l);
    PartFrame(u, l);
    SumUpdate(u.sent, i, v.sent[i], UsesSlot);
    assert Contents(v.sent) == Contents(u.sent);
    PartPhase(u.pc, u.sent, v.sent, i);
    PartOwned(u, v, i);
    PartParts(u, l);
    PartCalls(u, v);
  }

  lemma PartCalls(u: Up, v: Up)
    requires CallsOk(u.pc, u.reader, u.upErr, u.s3) && !(u.pc.Aborting? || u.pc.Done?) && u.pc != Completing
    ensures CallsOk(u.pc, u.reader, v.upErr, u.s3)
  {}

  lemma PartOwned(u: Up, v: Up, i: nat)
    requires Owned(u.pool.out, u.cur, u.sent) && i < |u.sent| == |v.sent|
    requires HoldsBuffer(v.sent[i]) ==> HoldsBuffer(u.sent[i])
    requires v.sent == u.sent[i := v.sent[i]] && v.sent[i].buf == u.sent[i].buf && v.cur == u.cur
    requires v.pool.out ==
      (if HoldsBuffer(u.sent[i]) && !HoldsBuffer(v.sent[i]) then u.pool.out - {u.sent[i].buf} else u.pool.out)
    ensures Owned(v.pool.out, v.cur, v.sent)
    ensures HoldsBuffer(u.sent[i]) && !HoldsBuffer(v.sent[i]) ==> |v.pool.out| == |u.pool.out| - 1
  {
    forall b | b in v.pool.out && v.cur != Some(b) ensures Holder(v.sent, b) { HolderStays(u.sent, v.sent, b); }
  }

  lemma PartParts(u: Up, l: Label)
    requires PartsOk(u.partSize, u.pool.heap, u.sent, u.parts, u.upErr)
    requires Can(u, l) && (l.PartAnswered? || l.PartBuffer? || l.PartSlot? || l.PartGone?) && Ready(u.reader)
    ensures var v := Step(u, l); PartsOk(v.partSize, v.pool.heap, v.sent, v.parts, v.upErr)
  {
    var v := Step(u, l);
    forall k | 0 <= k < |v.sent| ensures PartOk(v.partSize, v.pool.heap, v.sent[k], k + 1, v.parts, v.upErr) {
      assert PartOk(u.partSize, u.pool.heap, u.sent[k], k + 1, u.parts, u.upErr);
    }
    assert PartOk(u.partSize, u.pool.heap, u.sent[l.part], l.part + 1, u.parts, u.upErr);
  }

  lemma AllParts(u: Up)
    requires PartsOk(u.partSize, u.pool.heap, u.sent, u.parts, u.upErr) && !u.upErr
    requires forall i | 0 <= i < |u.sent| :: u.sent[i].stage == Gone
    ensures Sorted(u.parts) == Upto(|u.sent|)
    ensures Assemble(u.sent, Sorted(u.parts)) == SentBytes(u)
    ensures forall i | 0 <= i < |u.sent| ::
      u.sent[i].held == Some(u.sent[i].content) && 0 < u.sent[i].size <= u.partSize
  {
    var k := |u.sent|;
    SortedKeeps(u.parts);
    forall i | 0 <= i < k
      ensures i + 1 in u.parts && u.sent[i].held == Some(u.sent[i].content) && 0 < u.sent[i].size <= u.partSize
    {
      assert PartOk(u.partSize, u.pool.heap, u.sent[i], i + 1, u.parts, u.upErr);
    }
    forall y ensures y in Sorted(u.parts) <==> 0 < y <= k {
      if 0 < y <= k { assert u.sent[y - 1].held.Some?; }
    }
    IncreasingIsUpto(Sorted(u.parts), k);
    AssembleInOrder(u.sent, k);
    assert u.sent[..k] == u.sent;
  }

  lemma CompletedKeeps(u: Up, ok: bool, applied: bool)
    requires Inv(u) && Can(u, Completed(ok, applied))
    ensures Inv(CompleteNext(u, ok, applied))
  {
    hide Fill, Verdict, Matches, Sum, Concat, Sorted, Assemble, Upto;
    AllParts(u);
    NothingSent();
  }

  // ----------------------------------------------------------- whole uploads

  lemma BeginOk(partSize: nat, concurrency: nat, reader: Reader)
    requires partSize > 0 && concurrency > 0 && Ok(reader) && reader.n == 0 && reader.err.None?
    ensures Inv(Begin(partSize, concurrency, reader))
  {
    assert Contents([]) == [];
  }

  // ------------------------------------------------------------------- main

  lemma SameSelf(r: Reader)
    ensures Same(r, r)
  {}

  lemma StepKeeps(u: Up, l: Label)
    requires Inv(u) && Can(u, l)
    ensures Inv(Step(u, l)) && Same(u.reader, Step(u, l).reader)
  {
    hide Inv, Sum, TakeAndFill, Same;
    InvReady(u);
    SameSelf(u.reader);
    match l
    case First(b) => FillStepKeeps(u, b);
    case Decided => DecidedKeeps(u);
    case SinglePut(ok, applied) => SinglePutKeeps(u, ok, applied);
    case Created(ok, applied) => CreatedKeeps(u, ok, applied);
    case Turned => TurnedKeeps(u);
    case Sent => SentKeeps(u);
    case Checked => CheckedKeeps(u);
    case Refilled(b) => FillStepKeeps(u, b);
    case PartAnswered(_, _) => PartKeeps(u, l);
    case PartBuffer(_) => PartKeeps(u, l);
    case PartSlot(_) => PartKeeps(u, l);
    case PartGone(_) => PartKeeps(u, l);
    case Waited => WaitedKeeps(u);
    case Completed(ok, applied) => CompletedKeeps(u, ok, applied);
    case Aborted(applied) => AbortedKeeps(u, applied);
  }

  /** A run: labels taken one after the other. */
  ghost predicate Runs(u: Up, ls: seq<Label>, v: Up)
    requires Inv(u)
    decreases |ls|
  {
    if ls == [] then u == v
    else Can(u, ls[0]) && (StepKeeps(u, ls[0]); Runs(Step(u, ls[0]), ls[1..], v))
  }

  lemma {:induction false} RunKeeps(u: Up, ls: seq<Label>, v: Up)
    requires Inv(u) && Runs(u, ls, v)
    ensures Inv(v) && Same(u.reader, v.reader)
    decreases |ls|
  {
    hide Inv, Step, Can;
    if ls != [] {
      InvReady(u);
      StepKeeps(u, ls[0]);
      RunKeeps(Step(u, ls[0]), ls[1..], v);
    }
  }

  /** Store.Put's contract, over every run: whatever the order in which parts finish
      and whatever S3 answers, the key shows nothing of this call or the whole of a
      body that ended in EOF; Put reports success only for what it made visible; S3
      is asked to complete at most once, with every part; an upload that S3 said it created
      is completed, or S3 is asked exactly once to abort it; one that it created and did
      not say so it is never asked to abort; and a success leaves no upload open. */
  lemma PutCommitsWholeOnly(u: Up, ls: seq<Label>, v: Up)
    requires Inv(u) && u.pc == Start && Runs(u, ls, v)
    ensures v.s3.visible.Some? ==>
      && v.s3.visible.value == u.reader.body.data
      && WholeReader(u.reader) && Matches(u.reader.body.data, u.reader.expected, u.reader.hash)
    ensures v.s3.completes <= 1 && (v.s3.completes == 1 ==> EveryPartIn(v.reader, v.partSize, v.sent, v.parts, v.total))
    ensures v.pc.Done? && v.pc.res.Stored? ==>
      v.s3.visible.Some? && v.pc.res.total == |u.reader.body.data| && v.s3.aborts == 0
    ensures v.pc.Done? && v.pc.res.Failed? ==> v.s3.aborts == v.s3.creates <= 1
    ensures v.pc.Done? && v.pc.res.Stored? ==> !v.s3.open
  {
    RunKeeps(u, ls, v);
    if v.reader.err == Some(Eof) { EndMeans(v.reader); }
  }

  // ------------------------------------------------------------------ buffers

  lemma HolderSplit(sent: seq<Part>, b: nat)
    requires sent != []
    ensures var last := |sent| - 1;
      Holder(sent, b) <==> Holder(sent[..last], b) || (HoldsBuffer(sent[last]) && sent[last].buf == b)
  {
    var last := |sent| - 1;
    if Holder(sent[..last], b) { HolderStays(sent[..last], sent, b); }
    if i :| 0 <= i < |sent| && HoldsBuffer(sent[i]) && sent[i].buf == b {
      assert i == last || (HoldsBuffer(sent[..last][i]) && sent[..last][i].buf == b);
    }
  }

  lemma {:induction false} HeldAtMostSlots(sent: seq<Part>) returns (held: set<nat>)
    ensures forall b :: b in held <==> Holder(sent, b)
    ensures |held| <= Sum(sent, UsesSlot)
  {
    held := {};
    if sent != [] {
      var last := |sent| - 1;
      var rest := HeldAtMostSlots(sent[..last]);
      held := if HoldsBuffer(sent[last]) then rest + {sent[last].buf} else rest;
      forall b ensures b in held <==> Holder(sent, b) { HolderSplit(sent, b); }
    }
  }

  /** At every moment of every run: no more than concurrency + 1 buffers are out;
      none of them was handed back twice; one that S3 may still read is not in the
      pool and still holds what is being sent; when Put returns all are back. */
  lemma BuffersAreLinear(u: Up, ls: seq<Label>, v: Up)
    requires Inv(u) && Runs(u, ls, v)
    ensures |v.pool.out| <= v.concurrency + 1
    ensures v.pool.taken == v.pool.returned + |v.pool.out|
    ensures forall i | 0 <= i < |v.sent| && v.sent[i].stage == Sending ::
      v.sent[i].buf in v.pool.out && v.cur != Some(v.sent[i].buf) && Buffer(v.pool, v.sent[i].buf) == v.sent[i].content
    ensures v.pc.Done? ==> v.pool.out == {} && v.pool.taken == v.pool.returned
  {
    RunKeeps(u, ls, v);
    var held := HeldAtMostSlots(v.sent);
    var mine := if v.cur.Some? then {v.cur.value} else {};
    assert v.pool.out <= held + mine;
    SubsetSize(v.pool.out, held + mine);
    forall i | 0 <= i < |v.sent| && v.sent[i].stage == Sending
      ensures Buffer(v.pool, v.sent[i].buf) == v.sent[i].content
    {
      assert PartOk(v.partSize, v.pool.heap, v.sent[i], i + 1, v.parts, v.upErr);
    }
    if v.pc.Done? { assert forall b | b in v.pool.out :: Holder(v.sent, b); }
  }

  lemma {:induction false} SubsetSize(a: set<nat>, b: set<nat>)
    requires a <= b
    ensures |a| <= |b|
  {
    if x :| x in a { SubsetSize(a - {x}, b - {x}); }
  }

  // -------------------------------------------------------------- every Put ends

  function StageRank(p: Part): nat {
    match p.stage case Sending => 4 case Answered => 3 case BufferBack => 2 case SlotFree => 1 case Gone => 0
  }

  function PcRank(pc: Pc): nat {
    match pc
    case Start => 1
    case Decide(_) => 17
    case PutOne => 16
    case Create(_) => 16
    case Loop(_) => 12
    case Send(_) => 11
    case Check(_) => 6
    case Refill => 5
    case Wait(_) => 4
    case Completing => 3
    case Aborting(_) => 2
    case Done(_) => 0
  }

  /** How many more steps an upload can take at the most. */
  function Rank(u: Up): nat
    requires Ready(u.reader)
  {
    20 * Fuel(u.reader) + PcRank(u.pc) + Sum(u.sent, StageRank)
  }

  lemma SentShrinks(u: Up)
    requires Inv(u) && Can(u, Sent)
    ensures Rank(SendNext(u)) < Rank(u)
  {
    hide Fill, Fuel, Verdict, Matches, Sum, BytesOk, PartsOk, Owned, CallsOk, EveryPartIn;
    SumAppend(u.sent, Part(u.cur.value, u.chunk, InHand(u), Sending, None), StageRank);
  }

  lemma PartShrinks(u: Up, l: Label)
    requires Inv(u) && Can(u, l) && (l.PartAnswered? || l.PartBuffer? || l.PartSlot? || l.PartGone?)
    ensures Rank(Step(u, l)) < Rank(u)
  {
    hide Fill, Fuel, Verdict, Matches, Sum, BytesOk, PartsOk, Owned, CallsOk, EveryPartIn;
    SumUpdate(u.sent, l.part, Step(u, l).sent[l.part], StageRank);
  }

  lemma PcShrinks(u: Up, v: Up)
    requires Ready(u.reader) && v.reader == u.reader && v.sent == u.sent && PcRank(v.pc) < PcRank(u.pc)
    ensures Rank(v) < Rank(u)
  {
    hide Fuel, Sum;
  }

  lemma CallShrinks(u: Up, l: Label)
    requires Ready(u.reader) && Can(u, l) && (l.SinglePut? || l.Created? || l.Completed? || l.Aborted?)
    ensures Rank(Step(u, l)) < Rank(u)
  {
    hide Rank, Sum, Assemble, Sorted, Ready;
    PcShrinks(u, Step(u, l));
  }

  lemma LoopShrinks(u: Up, l: Label)
    requires Ready(u.reader) && Can(u, l) && (l.Decided? || l.Turned? || l.Checked? || l.Waited?)
    ensures Rank(Step(u, l)) < Rank(u)
  {
    hide Rank, Sum, Ready;
    PcShrinks(u, Step(u, l));
  }

  lemma FillShrinks(u: Up, b: nat)
    requires Inv(u) && (u.pc == Start || u.pc == Refill) && b !in u.pool.out
    ensures Ready(TakeAndFill(u, b).reader) && Rank(TakeAndFill(u, b)) < Rank(u)
  {
    hide Fuel, Sum, Fill, BytesOk, PartsOk, Owned, CallsOk, EveryPartIn, InHandOk;
    FillStepKeeps(u, b);
  }

  lemma StepShrinks(u: Up, l: Label)
    requires Inv(u) && Can(u, l)
    ensures Ready(Step(u, l).reader) && Rank(Step(u, l)) < Rank(u)
  {
    hide Inv, Rank, Sum, TakeAndFill, DecideNext, TurnNext, SendNext, CheckNext, AnswerNext, WaitNext, CompleteNext;
    InvReady(u);
    StepKeeps(u, l);
    InvReady(Step(u, l));
    match l
    case First(b) => FillShrinks(u, b);
    case Refilled(b) => FillShrinks(u, b);
    case Sent => SentShrinks(u);
    case PartAnswered(_, _) => PartShrinks(u, l);
    case PartBuffer(_) => PartShrinks(u, l);
    case PartSlot(_) => PartShrinks(u, l);
    case PartGone(_) => PartShrinks(u, l);
    case SinglePut(_, _) => CallShrinks(u, l);
    case Created(_, _) => CallShrinks(u, l);
    case Completed(_, _) => CallShrinks(u, l);
    case Aborted(_) => CallShrinks(u, l);
    case _ => LoopShrinks(u, l);
  }

  /** S3 does what it is asked. */
  predicate Agrees(l: Label) {
    match l
    case SinglePut(ok, _) => ok
    case Created(ok, _) => ok
    case PartAnswered(_, ok) => ok
    case Completed(ok, _) => ok
    case Aborted(applied) => applied
    case _ => true
  }

  /** What a part's goroutine does next. */
  function PartLabel(i: nat, stage: Stage): Label
    requires stage != Gone
  {
    match stage
    case Sending => PartAnswered(i, true) case Answered => PartBuffer(i)
    case BufferBack => PartSlot(i) case SlotFree => PartGone(i)
  }

  /** No upload is ever stuck: a full set of slots always has a part to wait for. */
  lemma NeverStuck(u: Up) returns (l: Label)
    requires Inv(u) && !u.pc.Done?
    ensures Can(u, l) && Agrees(l)
  {
    hide Fill, Verdict, Matches, Sorted, Assemble, BytesOk, PartsOk, Owned, CallsOk, EveryPartIn;
    match u.pc
    case Start => l := First(Fresh(u.pool.out));
    case Refill => l := Refilled(Fresh(u.pool.out));
    case Decide(_) => l := Decided;
    case PutOne => l := SinglePut(true, true);
    case Create(_) => l := Created(true, true);
    case Loop(_) => l := Turned;
    case Check(_) => l := Checked;
    case Completing => l := Completed(true, true);
    case Aborting(_) => l := Aborted(true);
    case Send(_) =>
      if Slots(u) < u.concurrency { l := Sent; } else {
        var i := SumWitness(u.sent, UsesSlot);
        l := PartLabel(i, u.sent[i].stage);
      }
    case Wait(_) =>
      if i :| 0 <= i < |u.sent| && u.sent[i].stage != Gone { l := PartLabel(i, u.sent[i].stage); } else { l := Waited; }
  }

  ghost function Fresh(s: set<nat>): (b: nat)
    ensures b !in s
  {
    FreshExists(s);
    var b: nat :| b !in s;
    b
  }

  lemma {:induction false} FreshExists(s: set<nat>)
    ensures exists b: nat :: b !in s
  {
    var top := Above(s);
    assert top !in s;
  }

  lemma {:induction false} Above(s: set<nat>) returns (top: nat)
    ensures forall b | b in s :: b < top
  {
    top := 0;
    if x :| x in s {
      var rest := Above(s - {x});
      top := if rest <= x then x + 1 else rest;
      assert s == (s - {x}) + {x};
    }
  }

  /** Every run is finite, by a bound known when it starts. */
  lemma {:induction false} RunsAreBounded(u: Up, ls: seq<Label>, v: Up)
    requires Inv(u) && Runs(u, ls, v)
    ensures |ls| <= Rank(u)
    decreases |ls|
  {
    hide Inv, Step, Can, Rank;
    if ls != [] {
      InvReady(u);
      StepKeeps(u, ls[0]);
      StepShrinks(u, ls[0]);
      RunsAreBounded(Step(u, ls[0]), ls[1..], v);
    }
  }

  // ------------------------------------------------------------- client-blind

  function Facing(u: Up, c: Client): Up { u.(reader := WithClient(u.reader, c)) }

  /** A client that takes every write stays. */
  lemma StepWilling(u: Up, l: Label)
    requires Ready(u.reader) && Can(u, l) && Willing(u.reader.client)
    ensures Willing(Step(u, l).reader.client)
  {
    hide Fill, Sum, Sorted, Assemble, Willing;
    FillWilling(u.reader, u.partSize);
  }

  lemma FillLabelIgnoresClient(u: Up, c: Client, l: Label) returns (c': Client)
    requires Ready(u.reader) && Can(u, l) && (l.First? || l.Refilled?)
    ensures Can(Facing(u, c), l) && Step(Facing(u, c), l) == Facing(Step(u, l), c')
  {
    hide Fill, Sum;
    FillIgnoresClient(u.reader, c, u.partSize);
    c' := Fill(WithClient(u.reader, c), u.partSize).reader.client;
  }

  lemma PartIgnoresClient(u: Up, c: Client, l: Label)
    requires Ready(u.reader) && Can(u, l) && (l.PartAnswered? || l.PartBuffer? || l.PartSlot? || l.PartGone?)
    ensures Can(Facing(u, c), l) && Step(Facing(u, c), l) == Facing(Step(u, l), c)
  {
    hide Sum;
  }

  lemma CallIgnoresClient(u: Up, c: Client, l: Label)
    requires Ready(u.reader) && Can(u, l) && (l.Created? || l.Completed? || l.Aborted?)
    ensures Step(Facing(u, c), l) == Facing(Step(u, l), c)
  {
    hide Sum, Sorted, Assemble, Release, CompleteNext;
    ReleaseIgnoresClient(u, c);
    if l.Completed? { CompletedIgnoresClient(u, c, l.ok, l.applied); }
  }

  lemma CompletedIgnoresClient(u: Up, c: Client, ok: bool, applied: bool)
    ensures CompleteNext(Facing(u, c), ok, applied) == Facing(CompleteNext(u, ok, applied), c)
  {
    hide Sum, Sorted, Assemble;
  }

  lemma SinglePutIgnoresClient(u: Up, c: Client, l: Label)
    requires Ready(u.reader) && Can(u, l) && l.SinglePut?
    ensures Step(Facing(u, c), l) == Facing(Step(u, l), c)
  {
    hide Sum;
  }

  lemma ReleaseIgnoresClient(u: Up, c: Client)
    ensures Release(Facing(u, c)) == Facing(Release(u), c)
  {}

  lemma DecidedIgnoresClient(u: Up, c: Client)
    requires u.pc.Decide?
    ensures DecideNext(Facing(u, c)) == Facing(DecideNext(u), c)
  {
    hide Release;
    ReleaseIgnoresClient(u, c);
  }

  lemma TurnedIgnoresClient(u: Up, c: Client)
    requires u.pc.Loop?
    ensures TurnNext(Facing(u, c)) == Facing(TurnNext(u), c)
  {
    hide Release;
    ReleaseIgnoresClient(u, c);
  }

  lemma LoopIgnoresClient(u: Up, c: Client, l: Label)
    requires Ready(u.reader) && Can(u, l) && (l.Sent? || l.Checked? || l.Waited?)
    ensures Step(Facing(u, c), l) == Facing(Step(u, l), c)
  {
    hide Sum;
  }

  lemma StepIgnoresClient(u: Up, c: Client, l: Label) returns (c': Client)
    requires Ready(u.reader) && Can(u, l)
    ensures Can(Facing(u, c), l) && Step(Facing(u, c), l) == Facing(Step(u, l), c')
  {
    hide Sum, TakeAndFill, Release, DecideNext, TurnNext, SendNext, CheckNext, AnswerNext, WaitNext, CompleteNext;
    c' := c;
    match l
    case First(_) => c' := FillLabelIgnoresClient(u, c, l);
    case Decided => DecidedIgnoresClient(u, c);
    case SinglePut(_, _) => SinglePutIgnoresClient(u, c, l);
    case Created(_, _) => CallIgnoresClient(u, c, l);
    case Turned => TurnedIgnoresClient(u, c);
    case Sent => LoopIgnoresClient(u, c, l);
    case Checked => LoopIgnoresClient(u, c, l);
    case Refilled(_) => c' := FillLabelIgnoresClient(u, c, l);
    case PartAnswered(_, _) => PartIgnoresClient(u, c, l);
    case PartBuffer(_) => PartIgnoresClient(u, c, l);
    case PartSlot(_) => PartIgnoresClient(u, c, l);
    case PartGone(_) => PartIgnoresClient(u, c, l);
    case Waited => LoopIgnoresClient(u, c, l);
    case Completed(_, _) => CallIgnoresClient(u, c, l);
    case Aborted(_) => CallIgnoresClient(u, c, l);
  }

  /** Whatever the leader's client does, the upload can do exactly the same things
      and ends in the same state: same parts, same bucket, same result. */
  lemma {:induction false} RunIgnoresClient(u: Up, c: Client, ls: seq<Label>, v: Up) returns (c': Client)
    requires Inv(u) && Inv(Facing(u, c)) && Runs(u, ls, v)
    ensures Runs(Facing(u, c), ls, Facing(v, c'))
    decreases |ls|
  {
    hide Inv, Step, Can;
    if ls == [] { c' := c; } else {
      InvReady(u);
      InvReady(Facing(u, c));
      StepKeeps(u, ls[0]);
      var c1 := StepIgnoresClient(u, c, ls[0]);
      StepKeeps(Facing(u, c), ls[0]);
      c' := RunIgnoresClient(Step(u, ls[0]), c1, ls[1..], v);
    }
  }
}
