/** The cache's core: requests that share one upstream fetch per key. A state holds
    every request of every replica with its program point, the replicas' flights,
    fetch slots and memory, and the one object store; a label is one thing that
    happens next, to one request. Upstream, the store and the clients may do
    anything at any moment. */
module PullThrough {
  import opened Common
  import opened Reading
  import U = Upload

  type Key = string

  /** maxSmall. */
  const MAX_SMALL: nat := 8388608

  /** What surrounds the service. `origin(k, b)`: an upstream response for k ended
      whole with body b at some time. `announced(k, e)`: a narinfo said of k what e
      says. `checked(k)`: k is a NAR, to be verified before it is stored. */
  datatype World = World(
    large: Key -> bool,
    checked: Key -> bool,
    origin: (Key, seq<byte>) -> bool,
    announced: (Key, Expectation) -> bool,
    hash: seq<byte> -> string,
    maxFetches: nat,
    partSize: nat,
    concurrency: nat)

  ghost predicate WorldOk(w: World) {
    && w.maxFetches > 0 && w.partSize > 0 && w.concurrency > 0
    && (forall k :: w.checked(k) ==> w.large(k))
  }

  /** How a request was answered, as its client sees it. A 200 whose client stopped
      taking bytes, or left, is Lost. */
  datatype Answer = Clean(bytes: seq<byte>) | HeadOnly | Redirect | NotFound | BadGateway | Aborted | Lost

  /** How far a leader is; the last three are its deferred calls. */
  datatype Act =
    | Queued
    | Expecting
    | Fetching(expected: Option<Expectation>, pass: bool)
    | Reading(r: Reader)                       // leadSmall reads the body
    | Storing(u: U.Up, answer: Answer)         // leadSmall has answered and stores it
    | Copying(r: Reader)                       // leadLarge, nothing known of the body
    | Uploading(u: U.Up)
    | Draining(r: Reader)                      // the store failed, upstream has not
    | Settling(r: Reader, stored: bool)
    | Release(answer: Answer)
    | Remove(answer: Answer)
    | Close(answer: Answer)

  datatype Pc = Arrive | Presign | Lock | Waiting(f: nat) | Lead(f: nat, act: Act) | Finished(answer: Answer)

  datatype Req = Req(replica: nat, key: Key, head: bool, pc: Pc)

  /** A flight's result; a large object's carries no bytes. */
  datatype Res = Failed | Ok200(body: seq<byte>) | Gone

  datatype Flight = Flight(site: Site, leader: nat, fetches: nat, closes: nat, res: Res, stored: bool)

  type Site = (nat, Key)

  datatype Sys = Sys(
    reqs: seq<Req>,
    flights: map<Site, nat>,
    table: seq<Flight>,      // every flight there has been
    sem: map<nat, nat>,      // slots taken, by replica
    store: map<Key, seq<byte>>,
    mem: map<Site, seq<byte>>,
    neg: set<Site>)

  function SiteOf(q: Req): Site { (q.replica, q.key) }

  datatype Look = LookFailed | LookNone | LookFound(e: Expectation)

  datatype Label =
    | HitNeg(i: nat)
    | HitMem(i: nat)
    | Probed(i: nat, fail: bool, kept: bool, proxied: Answer)
    | Presigned(i: nat, ok: bool)
    | Locked(i: nat)
    | Left(i: nat)
    | Woken(i: nat)
    | Acquired(i: nat)
    | Looked(i: nat, look: Look)
    | FetchFailed(i: nat)
    | FetchGone(i: nat)
    | Fetched(i: nat, body: Body, want: int, moods: seq<bool>)
    | More(i: nat, room: nat)
    | UploadStep(i: nat, l: U.Label)
    | UploadDone(i: nat, kept: bool)
    | Settled(i: nat)
    | Released(i: nat)
    | Removed(i: nat)
    | Closed(i: nat)

  function Taken(s: Sys, replica: nat): nat { if replica in s.sem then s.sem[replica] else 0 }

  /** What may happen next. A memory layer may have forgotten anything, so a hit is
      possible when it holds the key and never certain. */
  ghost predicate Can(w: World, s: Sys, l: Label) {
    l.i < |s.reqs| &&
    var q := s.reqs[l.i];
    match l
    case HitNeg(_) => q.pc == Arrive && SiteOf(q) in s.neg
    case HitMem(_) => q.pc == Arrive && !w.large(q.key) && SiteOf(q) in s.mem
    case Probed(_, _, _, a) => q.pc == Arrive && a in {HeadOnly, NotFound, BadGateway}
    case Presigned(_, _) => q.pc == Presign
    case Locked(_) => q.pc == Lock
    case Left(_) => q.pc.Waiting? || (q.pc.Lead? && q.pc.act == Queued)
    case Woken(_) => q.pc.Waiting? && q.pc.f < |s.table| && s.table[q.pc.f].closes > 0
    case Acquired(_) => q.pc.Lead? && q.pc.act == Queued && Taken(s, q.replica) < w.maxFetches
    case Looked(_, look) => q.pc.Lead? && q.pc.act == Expecting && (look.LookFound? ==> w.announced(q.key, look.e))
    case FetchFailed(_) => q.pc.Lead? && q.pc.act.Fetching?
    case FetchGone(_) => q.pc.Lead? && q.pc.act.Fetching?
    case Fetched(_, b, want, _) => q.pc.Lead? && q.pc.act.Fetching? && b.pos == 0 &&
      (Whole(b.data, b.end, want) ==> w.origin(q.key, b.data))
    case More(_, room) => q.pc.Lead? && room > 0 &&
      ((q.pc.act.Reading? && q.pc.act.r.n + room <= MAX_SMALL + 1) || q.pc.act.Copying? || q.pc.act.Draining?)
    case UploadStep(_, ul) => q.pc.Lead? &&
      ((q.pc.act.Uploading? && U.Can(q.pc.act.u, ul)) || (q.pc.act.Storing? && U.Can(q.pc.act.u, ul)))
    case UploadDone(_, _) => q.pc.Lead? && (q.pc.act.Uploading? || q.pc.act.Storing?) && q.pc.act.u.pc.Done?
    case Settled(_) => q.pc.Lead? && q.pc.act.Settling?
    case Released(_) => q.pc.Lead? && q.pc.act.Release?
    case Removed(_) => q.pc.Lead? && q.pc.act.Remove?
    case Closed(_) => q.pc.Lead? && q.pc.act.Close?
  }

  // ------------------------------------------------------------------- effects

  function Goto(s: Sys, i: nat, pc: Pc): Sys
    requires i < |s.reqs|
  {
    s.(reqs := s.reqs[i := s.reqs[i].(pc := pc)])
  }

  /** The leader of flight f goes on. */
  function Go(s: Sys, i: nat, act: Act): Sys
    requires i < |s.reqs| && s.reqs[i].pc.Lead?
  {
    Goto(s, i, Lead(s.reqs[i].pc.f, act))
  }

  /** Its flight's outcome so far. */
  function Note(s: Sys, i: nat, res: Res, stored: bool): Sys
    requires i < |s.reqs| && s.reqs[i].pc.Lead?
  {
    var f := s.reqs[i].pc.f;
    if f < |s.table| then s.(table := s.table[f := s.table[f].(res := res, stored := stored)]) else s
  }

  /** f.stored = true, its result as it is. */
  function NoteStored(s: Sys, i: nat): Sys
    requires i < |s.reqs| && s.reqs[i].pc.Lead?
  {
    var f := s.reqs[i].pc.f;
    if f < |s.table| then s.(table := s.table[f := s.table[f].(stored := true)]) else s
  }

  /** writeCached of a 200. */
  function Served(q: Req, body: seq<byte>): Answer { if q.head then HeadOnly else Clean(body) }

  /** What the client of a streamed 200 is left with when the handler returns. */
  function Streamed(r: Reader): Answer { if r.client.open then Clean(r.client.got) else Lost }

  /** Where the lookup in the store leaves a request. */
  function ProbePc(w: World, s: Sys, q: Req, fail: bool, proxied: Answer): Pc {
    if fail then Finished(BadGateway)
    else if w.large(q.key) then
      if q.key in s.store then (if q.head then Finished(HeadOnly) else Presign)
      else (if q.head then Finished(proxied) else Lock)
    else if q.key !in s.store then Lock
    else if |s.store[q.key]| > MAX_SMALL then Finished(BadGateway)
    else Finished(Served(q, s.store[q.key]))
  }

  function Probe(w: World, s: Sys, i: nat, fail: bool, kept: bool, proxied: Answer): Sys
    requires i < |s.reqs|
  {
    var q := s.reqs[i];
    var t := Goto(s, i, ProbePc(w, s, q, fail, proxied));
    if !fail && !w.large(q.key) && q.key in s.store && |s.store[q.key]| <= MAX_SMALL
    then Remember(t, SiteOf(q), s.store[q.key], kept) else t
  }

  function Remember(s: Sys, site: Site, body: seq<byte>, kept: bool): Sys {
    if kept then s.(mem := s.mem[site := body]) else s
  }

  /** The lock of pullThrough: join the flight there is, or start one. */
  function JoinOrLead(s: Sys, i: nat): Sys
    requires i < |s.reqs|
  {
    var site := SiteOf(s.reqs[i]);
    if site in s.flights then Goto(s, i, Waiting(s.flights[site]))
    else Goto(s, i, Lead(|s.table|, Queued)).(
      flights := s.flights[site := |s.table|],
      table := s.table + [Flight(site, i, 0, 0, Failed, false)])
  }

  function Follow(w: World, q: Req, f: Flight): Pc {
    if f.res.Ok200? && !w.large(q.key) then Finished(Served(q, f.res.body))
    else if f.res.Ok200? && f.stored then Presign
    else if f.res.Gone? then Finished(NotFound)
    else if f.res.Ok200? then Lock
    else Finished(BadGateway)
  }

  function StartFetched(w: World, q: Req, body: Body, want: int, moods: seq<bool>): Act
    requires q.pc.Lead? && q.pc.act.Fetching?
  {
    if !w.large(q.key) then Reading(Open(body, want, None, w.hash, Client(false, [], [])))
    else
      var r := Open(body, want, q.pc.act.expected, w.hash, Client(true, moods, []));
      if q.pc.act.pass then Copying(r) else Uploading(U.Begin(w.partSize, w.concurrency, r))
  }

  /** bytes.NewReader(body), as a Put reads it: every read gets all it has room for, and
      the end is a read of its own. */
  function InMemory(body: seq<byte>, partSize: nat): Body {
    Body(body, 0, CleanEnd, seq(Parts(|body|, partSize), _ => Turn(partSize, false)))
  }

  function Parts(size: nat, partSize: nat): (n: nat)
    ensures n <= size
  {
    if size == 0 || partSize == 0 then 0 else if size <= partSize then 1 else 1 + Parts(size - partSize, partSize)
  }

  /** Put(bytes.NewReader(body)). */
  function StoreBytes(w: World, body: seq<byte>): U.Up {
    var reader := Open(InMemory(body, w.partSize), -1, None, w.hash, Client(false, [], []));
    U.Begin(w.partSize, w.concurrency, reader)
  }

  /** One read of leadSmall's ReadAll; `res` is what it returned. */
  function SmallRead(w: World, s: Sys, i: nat, res: ReadResult): Sys
    requires i < |s.reqs| && s.reqs[i].pc.Lead?
  {
    var r := res.reader;
    if r.n > MAX_SMALL || (res.err.Some? && res.err != Some(Eof)) then Go(s, i, Release(BadGateway))
    else if res.err.None? then Go(s, i, Reading(r))
    else
      var body := if r.n <= |r.body.data| then r.body.data[..r.n] else [];
      Go(Note(s, i, Ok200(body), false), i, Storing(StoreBytes(w, body), Served(s.reqs[i], body)))
  }

  /** One read of a body that is passed through. */
  function PassedRead(s: Sys, i: nat, res: ReadResult): Sys
    requires i < |s.reqs| && s.reqs[i].pc.Lead?
  {
    if res.err.None? then Go(s, i, Copying(res.reader))
    else if res.err == Some(Eof) then Go(Note(s, i, Ok200([]), false), i, Release(Streamed(res.reader)))
    else Go(s, i, Release(Aborted))
  }

  /** One read of the rest of a body the store has given up. */
  function DrainedRead(s: Sys, i: nat, res: ReadResult): Sys
    requires i < |s.reqs| && s.reqs[i].pc.Lead?
  {
    if res.err.None? then Go(s, i, Draining(res.reader)) else Go(s, i, Settling(res.reader, false))
  }

  function ReadMore(w: World, s: Sys, i: nat, room: nat): Sys
    requires i < |s.reqs| && s.reqs[i].pc.Lead?
    requires var a := s.reqs[i].pc.act; (a.Reading? || a.Copying? || a.Draining?) && Ready(a.r)
  {
    var res := Next(s.reqs[i].pc.act.r, room);
    match s.reqs[i].pc.act
    case Reading(_) => SmallRead(w, s, i, res)
    case Copying(_) => PassedRead(s, i, res)
    case Draining(_) => DrainedRead(s, i, res)
  }

  function UploadMore(s: Sys, i: nat, l: U.Label): Sys
    requires i < |s.reqs| && s.reqs[i].pc.Lead?
    requires var a := s.reqs[i].pc.act; (a.Uploading? || a.Storing?) && U.Can(a.u, l) && Ready(a.u.reader)
  {
    var q := s.reqs[i];
    var u := U.Step(q.pc.act.u, l);
    var s1 :=
      if (l.SinglePut? || l.Completed?) && u.s3.visible.Some? then s.(store := s.store[q.key := u.s3.visible.value])
      else s;
    Go(s1, i, if q.pc.act.Uploading? then Uploading(u) else Storing(u, q.pc.act.answer))
  }

  /** After leadLarge's Put has returned. */
  function LargePut(s: Sys, i: nat, u: U.Up): Sys
    requires i < |s.reqs| && s.reqs[i].pc.Lead? && u.pc.Done?
  {
    var drain := u.pc.res.Failed? && u.reader.err.None?;
    Go(s, i, if drain then Draining(u.reader) else Settling(u.reader, u.pc.res.Stored?))
  }

  /** After leadSmall's Put has returned. */
  function SmallPut(s: Sys, i: nat, u: U.Up, answer: Answer, kept: bool): Sys
    requires i < |s.reqs| && s.reqs[i].pc.Lead? && u.pc.Done?
  {
    if u.pc.res.Failed? then Go(s, i, Release(answer))
    else Go(Remember(NoteStored(s, i), SiteOf(s.reqs[i]), u.reader.body.data, kept), i, Release(answer))
  }

  function PutReturned(s: Sys, i: nat, kept: bool): Sys
    requires i < |s.reqs| && s.reqs[i].pc.Lead?
    requires var a := s.reqs[i].pc.act; (a.Uploading? || a.Storing?) && a.u.pc.Done?
  {
    match s.reqs[i].pc.act
    case Uploading(u) => LargePut(s, i, u)
    case Storing(u, a) => SmallPut(s, i, u, a, kept)
  }

  /** The end of leadLarge. */
  function Settle(s: Sys, i: nat): Sys
    requires i < |s.reqs| && s.reqs[i].pc.Lead? && s.reqs[i].pc.act.Settling?
  {
    var r, stored := s.reqs[i].pc.act.r, s.reqs[i].pc.act.stored;
    if r.err == Some(Mismatch) then Go(Note(s, i, Ok200([]), false), i, Release(Streamed(r)))
    else if r.err == Some(Eof) then Go(Note(s, i, Ok200([]), stored), i, Release(Streamed(r)))
    else Go(s, i, Release(Aborted))
  }

  function CountFetch(s: Sys, i: nat): Sys
    requires i < |s.reqs| && s.reqs[i].pc.Lead?
  {
    var f := s.reqs[i].pc.f;
    if f < |s.table| then s.(table := s.table[f := s.table[f].(fetches := s.table[f].fetches + 1)]) else s
  }

  function CloseFlight(s: Sys, i: nat): Sys
    requires i < |s.reqs| && s.reqs[i].pc.Lead? && s.reqs[i].pc.act.Close?
  {
    var f := s.reqs[i].pc.f;
    var s1 := Goto(s, i, Finished(s.reqs[i].pc.act.answer));
    if f < |s.table| then s1.(table := s.table[f := s.table[f].(closes := s.table[f].closes + 1)]) else s1
  }

  ghost predicate ReadersReady(s: Sys, i: nat)
    requires i < |s.reqs|
  {
    s.reqs[i].pc.Lead? ==>
      var a := s.reqs[i].pc.act;
      && (a.Reading? || a.Copying? || a.Draining? ==> Ready(a.r))
      && (a.Uploading? || a.Storing? ==> Ready(a.u.reader))
  }

  ghost function Step(w: World, s: Sys, l: Label): Sys
    requires Can(w, s, l) && ReadersReady(s, l.i)
  {
    var i, q := l.i, s.reqs[l.i];
    match l
    case HitNeg(_) => Goto(s, i, Finished(NotFound))
    case HitMem(_) => Goto(s, i, Finished(Served(q, s.mem[SiteOf(q)])))
    case Probed(_, fail, kept, proxied) => Probe(w, s, i, fail, kept, proxied)
    case Presigned(_, ok) => Goto(s, i, Finished(if ok then Redirect else BadGateway))
    case Locked(_) => JoinOrLead(s, i)
    case Left(_) => if q.pc.Waiting? then Goto(s, i, Finished(Lost)) else Go(s, i, Remove(Lost))
    case Woken(_) => Goto(s, i, Follow(w, q, s.table[q.pc.f]))
    case Acquired(_) =>
      var act := if w.checked(q.key) then Expecting else Fetching(None, false);
      Go(s, i, act).(sem := s.sem[q.replica := Taken(s, q.replica) + 1])
    case Looked(_, look) =>
      Go(s, i, match look
                 case LookFailed => Release(BadGateway)
                 case LookNone => Fetching(None, true)
                 case LookFound(e) => Fetching(Some(e), false))
    case FetchFailed(_) => Go(CountFetch(s, i), i, Release(BadGateway))
    case FetchGone(_) => Go(Note(CountFetch(s, i), i, Gone, false), i, Release(NotFound)).(neg := s.neg + {SiteOf(q)})
    case Fetched(_, body, want, moods) => Go(CountFetch(s, i), i, StartFetched(w, q, body, want, moods))
    case More(_, room) => ReadMore(w, s, i, room)
    case UploadStep(_, ul) => UploadMore(s, i, ul)
    case UploadDone(_, kept) => PutReturned(s, i, kept)
    case Settled(_) => Settle(s, i)
    case Released(_) =>
      var taken := Taken(s, q.replica);
      Go(s, i, Remove(q.pc.act.answer)).(sem := s.sem[q.replica := if taken > 0 then taken - 1 else 0])
    case Removed(_) => Go(s, i, Close(q.pc.act.answer)).(flights := s.flights - {SiteOf(q)})
    case Closed(_) => CloseFlight(s, i)
  }
}
