/** The reader that stands between an upstream body and everything that consumes
    it: the store's upload, the client, or a buffer. It ends in EOF only when the
    body is whole and, where an expectation is given, is the body expected. */
module Reading {
  import opened Common

  // ---------------------------------------------------------------- upstream

  /** How the connection under a response body ends. */
  datatype End = CleanEnd | Broken

  /** One turn of the network: at most `size` bytes arrive, and `joined` says that
      the end of the body, if this turn reaches it, is reported with these bytes
      rather than by a later read. */
  datatype Turn = Turn(size: nat, joined: bool)

  /** A response body with everything that will ever happen to it. Reads follow
      `plan`; once that is used up every read gets all it has room for. */
  datatype Body = Body(data: seq<byte>, pos: nat, end: End, plan: seq<Turn>)

  datatype Delivery = Delivery(bytes: seq<byte>, end: Option<End>, body: Body)

  function Deliver(b: Body, room: nat): (d: Delivery)
    requires b.pos <= |b.data|
    ensures d.body.pos <= |d.body.data| && |d.bytes| <= room
  {
    var turn := if b.plan == [] then Turn(room, true) else b.plan[0];
    var n := Min(Min(turn.size, room), |b.data| - b.pos);
    Delivery(b.data[b.pos..b.pos + n],
             if b.pos + n == |b.data| && turn.joined then Some(b.end) else None,
             b.(pos := b.pos + n, plan := if b.plan == [] then [] else b.plan[1..]))
  }

  // ------------------------------------------------------------------ reader

  /** What a NAR's body must be for it to be committed. */
  datatype Expectation = Expectation(size: int, sha256: string)

  /** How a reader ended. */
  datatype Stop = Eof | TooLong | Truncated | Mismatch | Upstream

  /** The leader's client. `moods` says which of the coming writes succeed (all of
      them, once it is used up); a failed write makes the reader forget the client. */
  datatype Client = Client(open: bool, moods: seq<bool>, got: seq<byte>)

  function Feed(c: Client, chunk: seq<byte>): Client {
    if !c.open || chunk == [] then c
    else if c.moods == [] then c.(got := c.got + chunk)
    else if c.moods[0] then c.(moods := c.moods[1..], got := c.got + chunk)
    else c.(open := false, moods := c.moods[1..])
  }

  /** The fields of a fetchReader. `hash` prints a body's SHA-256 in Nix base 32;
      `sum` is what has been written into the running hash, when there is one. */
  datatype Reader = Reader(
    body: Body,
    want: int, // -1: no Content-Length
    expected: Option<Expectation>,
    hash: seq<byte> -> string,
    n: nat,
    sum: Option<seq<byte>>,
    client: Client,
    err: Option<Stop>)

  function Open(body: Body, want: int, expected: Option<Expectation>, hash: seq<byte> -> string,
      client: Client): Reader {
    Reader(body, want, expected, hash, 0, if expected.Some? then Some([]) else None, client, None)
  }

  /** What the types of the source's fields say by themselves. */
  predicate Ready(r: Reader) { r.body.pos <= |r.body.data| && (r.expected.Some? <==> r.sum.Some?) }

  function Finish(r: Reader): Stop
    requires r.expected.Some? <==> r.sum.Some?
  {
    if r.want >= 0 && r.n != r.want then Truncated
    else if r.sum.Some? && r.n != r.expected.value.size then Mismatch
    else if r.sum.Some? && r.hash(r.sum.value) != r.expected.value.sha256 then Mismatch
    else Eof
  }

  datatype ReadResult = ReadResult(bytes: seq<byte>, err: Option<Stop>, reader: Reader)

  function Next(r: Reader, room: nat): (res: ReadResult)
    requires Ready(r)
    ensures |res.bytes| <= room && Ready(res.reader)
    // io.Reader's contract that readFull leans on: no end, then progress.
    ensures room > 0 && res.err.None? ==> res.bytes != [] || |res.reader.body.plan| < |r.body.plan|
  {
    if r.err.Some? then ReadResult([], r.err, r) else
    var d := Deliver(r.body, room);
    var r1 := r.(body := d.body, n := r.n + |d.bytes|,
                 sum := if r.sum.Some? then Some(r.sum.value + d.bytes) else None,
                 client := Feed(r.client, d.bytes));
    var err :=
      if |d.bytes| > 0 && r.want >= 0 && r1.n > r.want then Some(TooLong)
      else match d.end
        case None => None
        case Some(Broken) => Some(Upstream)
        case Some(CleanEnd) => Some(Finish(r1));
    ReadResult(d.bytes, err, r1.(err := err))
  }

  // ----------------------------------------------------------- what it means

  /** The upstream response ended whole: the connection ended cleanly and brought
      exactly the bytes announced (section 8 of RFC 9112). */
  ghost predicate Whole(data: seq<byte>, end: End, want: int) {
    end == CleanEnd && (want >= 0 ==> |data| == want)
  }

  ghost predicate Matches(data: seq<byte>, expected: Option<Expectation>, hash: seq<byte> -> string) {
    expected.Some? ==> |data| == expected.value.size && hash(data) == expected.value.sha256
  }

  /** How the reader must end, told from the response alone: not from the sizes of
      the reads, not from the client. */
  ghost function Verdict(r: Reader): Stop {
    if 0 <= r.want < |r.body.data| then TooLong
    else if r.body.end == Broken then Upstream
    else if 0 <= r.want && |r.body.data| != r.want then Truncated
    else if !Matches(r.body.data, r.expected, r.hash) then Mismatch
    else Eof
  }

  ghost predicate WholeReader(r: Reader) { Whole(r.body.data, r.body.end, r.want) }

  /** What every read keeps. */
  ghost predicate Ok(r: Reader) {
    && r.n == r.body.pos <= |r.body.data|
    && r.sum == (if r.expected.Some? then Some(r.body.data[..r.n]) else None)
    && (r.client.open ==> r.client.got == r.body.data[..r.n])
    && (r.err.None? ==> !(0 <= r.want < r.n))
    && (r.err.Some? ==> r.err.value == Verdict(r) && (r.err.value != TooLong ==> r.n == |r.body.data|))
  }

  /** What never changes about a reader. */
  ghost predicate Same(a: Reader, b: Reader) {
    && a.body.data == b.body.data && a.body.end == b.body.end
    && a.want == b.want && a.expected == b.expected && a.hash == b.hash
  }

  /** Reads left before the reader must end. */
  function Fuel(r: Reader): (f: nat)
    requires r.body.pos <= |r.body.data|
  {
    |r.body.plan| + |r.body.data| - r.body.pos + (if r.err.None? then 1 else 0)
  }

  lemma OpenOk(body: Body, want: int, expected: Option<Expectation>, hash: seq<byte> -> string, client: Client)
    requires body.pos == 0 && (client.open ==> client.got == [])
    ensures Ok(Open(body, want, expected, hash, client))
  {}

  /** One read: the bytes are the next ones of the body, the end, once reported, is
      the verdict on the whole response, and progress is made. */
  lemma ReadKeeps(r: Reader, room: nat)
    requires Ok(r) && room > 0
    ensures var res := Next(r, room);
      && Ok(res.reader) && Same(r, res.reader)
      && res.bytes == r.body.data[r.n..res.reader.n]
      && r.n <= res.reader.n
      && res.err == res.reader.err
      && (r.err.Some? ==> res.reader == r)
      && (r.err.None? ==> Fuel(res.reader) < Fuel(r))
  {
    if r.err.None? {
      var d := Deliver(r.body, room);
      var res := Next(r, room);
      assert r.body.data[..r.n] + d.bytes == r.body.data[..res.reader.n];
      if res.err == Some(Eof) || res.err == Some(Mismatch) || res.err == Some(Truncated) {
        assert r.body.data[..res.reader.n] == r.body.data;
      }
    }
  }

  /** EOF means whole and expected; a mismatch means whole but not expected;
      everything else means the response was not whole. */
  lemma EndMeans(r: Reader)
    requires Ok(r) && r.err.Some?
    ensures r.err.value == Eof <==> WholeReader(r) && Matches(r.body.data, r.expected, r.hash)
    ensures r.err.value == Mismatch <==> WholeReader(r) && !Matches(r.body.data, r.expected, r.hash)
    ensures r.err.value in {Eof, Mismatch} ==> r.n == |r.body.data| && (r.client.open ==> r.client.got == r.body.data)
  {
    if r.n == |r.body.data| { assert r.body.data[..r.n] == r.body.data; }
  }

  // -------------------------------------------------------------- client-blind

  /** A reader as it would be with another client. */
  function WithClient(r: Reader, c: Client): Reader { r.(client := c) }

  /** No behaviour of the client changes what a read returns or what the reader
      becomes, its client field aside. */
  lemma ReadIgnoresClient(r: Reader, c: Client, room: nat)
    requires Ready(r)
    ensures var a, b := Next(r, room), Next(WithClient(r, c), room);
      a.bytes == b.bytes && a.err == b.err && b.reader == WithClient(a.reader, b.reader.client)
  {}

  /** The client is there and will take every write to come. */
  predicate Willing(c: Client) { c.open && Takes(c.moods) }

  predicate Takes(moods: seq<bool>) { forall k | 0 <= k < |moods| :: moods[k] }

  lemma ReadWilling(r: Reader, room: nat)
    requires Ready(r) && Willing(r.client)
    ensures Willing(Next(r, room).reader.client)
  {}

  // ---------------------------------------------------------------- readFull

  /** What filling a buffer of `room` bytes from `r` yields. */
  function Fill(r: Reader, room: nat): (res: ReadResult)
    requires Ready(r)
    ensures |res.bytes| <= room
    decreases room, |r.body.plan|
  {
    if room == 0 then ReadResult([], None, r) else
    var one := Next(r, room);
    if one.err.Some? then one else
    var rest := Fill(one.reader, room - |one.bytes|);
    ReadResult(one.bytes + rest.bytes, rest.err, rest.reader)
  }

  /** A filled buffer holds the next bytes of the body; without an error it is
      full, and an error is the reader's own. */
  lemma {:induction false} FillKeeps(r: Reader, room: nat)
    requires Ok(r)
    ensures var res := Fill(r, room);
      && Ok(res.reader) && Same(r, res.reader)
      && r.n <= res.reader.n && res.bytes == r.body.data[r.n..res.reader.n]
      && (res.err.None? ==> |res.bytes| == room && (r.err.None? ==> res.reader.err.None?))
      && (res.err.Some? ==> res.err == res.reader.err)
      && (room > 0 && r.err.None? ==> Fuel(res.reader) < Fuel(r))
    decreases room, |r.body.plan|
  {
    hide Next;
    if room == 0 {
    } else {
      ReadKeeps(r, room);
      var one := Next(r, room);
      if one.err.None? {
        var rest := Fill(one.reader, room - |one.bytes|);
        FillKeeps(one.reader, room - |one.bytes|);
        assert Fill(r, room) == ReadResult(one.bytes + rest.bytes, rest.err, rest.reader);
      }
    }
  }

  /** A buffer that ended in EOF ends a whole response; one that did not fill up ended
      in an error. */
  lemma FillMeans(r: Reader, room: nat)
    requires Ok(r) && r.err.None?
    ensures var res := Fill(r, room);
      && (res.err == Some(Eof) ==>
        WholeReader(r) && Matches(r.body.data, r.expected, r.hash) && r.body.data[..r.n] + res.bytes == r.body.data)
      && (|res.bytes| < room ==> res.err.Some?)
  {
    hide Fill, WholeReader, Matches, Verdict;
    FillKeeps(r, room);
    var res := Fill(r, room);
    if res.err == Some(Eof) {
      EndMeans(res.reader);
      SameMeans(r, res.reader);
      assert r.body.data[..r.n] + r.body.data[r.n..] == r.body.data;
      assert r.body.data[r.n..|r.body.data|] == r.body.data[r.n..];
    }
  }

  lemma SameMeans(a: Reader, b: Reader)
    requires Same(a, b)
    ensures WholeReader(a) == WholeReader(b)
    ensures Matches(a.body.data, a.expected, a.hash) == Matches(b.body.data, b.expected, b.hash)
  {}

  /** One turn of readFull's loop. */
  lemma FillUnfold(r: Reader, room: nat)
    requires Ready(r)
    ensures Fill(r, room) ==
      if room == 0 then ReadResult([], None, r) else
      var one := Next(r, room);
      if one.err.Some? then one else
      var rest := Fill(one.reader, room - |one.bytes|);
      ReadResult(one.bytes + rest.bytes, rest.err, rest.reader)
  {}

  lemma {:induction false} FillWilling(r: Reader, room: nat)
    requires Ready(r) && Willing(r.client)
    ensures Willing(Fill(r, room).reader.client)
    decreases room, |r.body.plan|
  {
    hide Next, Willing;
    FillUnfold(r, room);
    if room > 0 {
      ReadWilling(r, room);
      if Next(r, room).err.None? { FillWilling(Next(r, room).reader, room - |Next(r, room).bytes|); }
    }
  }

  lemma {:induction false} FillIgnoresClient(r: Reader, c: Client, room: nat)
    requires Ready(r)
    ensures var a, b := Fill(r, room), Fill(WithClient(r, c), room);
      a.bytes == b.bytes && a.err == b.err && b.reader == WithClient(a.reader, b.reader.client)
    decreases room, |r.body.plan|
  {
    hide Next;
    if room > 0 {
      ReadIgnoresClient(r, c, room);
      var a, b := Next(r, room), Next(WithClient(r, c), room);
      if a.err.None? {
        var rest, rest' := Fill(a.reader, room - |a.bytes|), Fill(b.reader, room - |a.bytes|);
        FillIgnoresClient(a.reader, b.reader.client, room - |a.bytes|);
        assert Fill(r, room) == ReadResult(a.bytes + rest.bytes, rest.err, rest.reader);
        assert Fill(WithClient(r, c), room) == ReadResult(b.bytes + rest'.bytes, rest'.err, rest'.reader);
      }
    }
  }

  // -------------------------------------------------- the source's own objects

  lemma NextEnded(r: Reader, room: nat)
    requires Ready(r) && r.err.Some?
    ensures Next(r, room) == ReadResult([], r.err, r)
  {}

  lemma NextLive(r: Reader, room: nat)
    requires Ready(r) && r.err.None?
    ensures var d := Deliver(r.body, room);
      var r1 := r.(body := d.body, n := r.n + |d.bytes|,
                   sum := if r.sum.Some? then Some(r.sum.value + d.bytes) else None,
                   client := Feed(r.client, d.bytes));
      var err :=
        if |d.bytes| > 0 && r.want >= 0 && r1.n > r.want then Some(TooLong)
        else match d.end
          case None => None
          case Some(Broken) => Some(Upstream)
          case Some(CleanEnd) => Some(Finish(r1));
      Next(r, room) == ReadResult(d.bytes, err, r1.(err := err))
  {}

  lemma FeedNothing(c: Client, chunk: seq<byte>)
    requires chunk == []
    ensures Feed(c, chunk) == c
  {}

  lemma FinishIs(r: Reader, stop: Stop)
    requires r.expected.Some? <==> r.sum.Some?
    requires stop in {Truncated, Mismatch, Eof} && (stop == Truncated <==> r.want >= 0 && r.n != r.want)
    requires var off := r.expected.Some? &&
      (r.n != r.expected.value.size || r.hash(r.sum.value) != r.expected.value.sha256);
      (stop == Mismatch ==> off) && (stop == Eof ==> !off)
    ensures stop == Finish(r)
  {}

  class FetchReader {
    var body: Body
    const want: int
    const expected: Option<Expectation>
    const hash: seq<byte> -> string
    var n: nat
    var sum: Option<seq<byte>>
    var client: Client
    var err: Option<Stop>

    function Model(): Reader
      reads this
    {
      Reader(body, want, expected, hash, n, sum, client, err)
    }

    constructor (body: Body, want: int, expected: Option<Expectation>, hash: seq<byte> -> string, client: Client)
      requires body.pos == 0 && (client.open ==> client.got == [])
      ensures Ok(Model()) && Model() == Open(body, want, expected, hash, client)
    {
      this.body, this.want, this.expected, this.hash := body, want, expected, hash;
      this.n, this.client, this.err := 0, client, None;
      this.sum := if expected.Some? then Some([]) else None;
    }

    method ToClient(chunk: seq<byte>)
      modifies this`client
      ensures client == Feed(old(client), chunk)
    {
      if chunk != [] && client.open {
        if client.moods == [] || client.moods[0] {
          client := client.(got := client.got + chunk);
        } else {
          client := client.(open := false);
        }
        if client.moods != [] {
          client := client.(moods := client.moods[1..]);
        }
      }
    }

    /** What arrives is counted, hashed and passed on. */
    method Account(chunk: seq<byte>)
      modifies this`n, this`sum, this`client
      ensures n == old(n) + |chunk| && client == Feed(old(client), chunk)
      ensures sum == if old(sum).Some? then Some(old(sum).value + chunk) else None
    {
      n := n + |chunk|;
      if sum.Some? { sum := Some(sum.value + chunk); }
      ToClient(chunk);
    }

    /** Truncated if the length announced has not come, a mismatch if what came is not what
        was expected. Once all of a body has come and its connection has ended cleanly, EOF
        says that the response is whole and is the one expected. */
    method Finished() returns (stop: Stop)
      requires Ready(Model())
      ensures stop in {Truncated, Mismatch, Eof}
      ensures stop == Truncated <==> want >= 0 && n != want
      ensures stop == Mismatch ==>
        expected.Some? && (n != expected.value.size || hash(sum.value) != expected.value.sha256)
      ensures stop == Eof && expected.Some? ==> n == expected.value.size && hash(sum.value) == expected.value.sha256
      ensures n == |body.data| && body.end == CleanEnd && (sum.Some? ==> sum.value == body.data) ==>
        && (stop == Eof <==> Whole(body.data, body.end, want) && Matches(body.data, expected, hash))
        && (stop == Truncated <==> !Whole(body.data, body.end, want))
    {
      if want >= 0 && n != want { return Truncated; }
      if sum.Some? {
        if n != expected.value.size { return Mismatch; }
        if hash(sum.value) != expected.value.sha256 { return Mismatch; }
      }
      return Eof;
    }

    /** Reads into p[from..]; the rest of p is left alone. */
    method Read(p: array<byte>, from: nat) returns (m: nat, e: Option<Stop>)
      requires from <= p.Length && Ready(Model())
      modifies this, p
      ensures var res := Next(old(Model()), p.Length - from);
        && Model() == res.reader && m == |res.bytes| && e == res.err
        && p[..] == old(p[..from]) + res.bytes + old(p[from + m..])
    {
      hide Next, Deliver, Feed, Finish;
      ghost var was, orig := Model(), p[..];
      if err.Some? {
        NextEnded(was, p.Length - from);
        return 0, err;
      }
      NextLive(was, p.Length - from);
      var d := Deliver(body, p.Length - from);
      m, body := |d.bytes|, d.body;
      forall i | 0 <= i < m { p[from + i] := d.bytes[i]; }
      assert p[..] == orig[..from] + d.bytes + orig[from + m..];
      assert p[from..from + m] == d.bytes;
      e := None;
      if m > 0 {
        Account(p[from..from + m]);
      } else {
        FeedNothing(client, d.bytes);
        assert sum.Some? ==> sum.value + d.bytes == sum.value;
      }
      if m > 0 && want >= 0 && n > want {
        e := Some(TooLong);
      } else if d.end == Some(Broken) {
        e := Some(Upstream);
      } else if d.end == Some(CleanEnd) {
        var stop := Finished();
        FinishIs(Model(), stop);
        e := Some(stop);
      }
      err := e;
    }
  }

  /** Fills buf from r and returns r's own error unchanged; what is behind the filled
      part stays. FillKeeps and FillMeans say what it is filled with. */
  method ReadFull(r: FetchReader, buf: array<byte>) returns (m: nat, e: Option<Stop>)
    requires Ready(r.Model())
    modifies r, buf
    ensures var res := Fill(old(r.Model()), buf.Length);
      && r.Model() == res.reader && m == |res.bytes| && e == res.err
      && buf[..m] == res.bytes && buf[m..] == old(buf[m..])
  {
    hide Next, Fill, Ready, FetchReader.Model;
    ghost var was, orig := r.Model(), buf[..];
    m := 0;
    ghost var got: seq<byte> := [];
    while m < buf.Length
      invariant m == |got| <= buf.Length && Ready(r.Model())
      invariant buf[..] == got + orig[m..]
      invariant Before(was, buf.Length, got, r.Model())
      decreases buf.Length - m, |r.Model().body.plan|
    {
      ghost var bytes := Next(r.Model(), buf.Length - m).bytes;
      FillTurn(was, buf.Length, got, r.Model());
      Spliced(got, orig, m, bytes);
      var k, err := r.Read(buf, m);
      got := got + bytes;
      m := m + k;
      if err.Some? {
        Filled(buf[..], got, orig, m);
        return m, err;
      }
    }
    FillDone(was, buf.Length, got, r.Model());
    Filled(buf[..], got, orig, m);
    e := None;
  }

  /** After `got`, filling `room` bytes from `was` goes on as filling the rest from r. */
  ghost predicate Before(was: Reader, room: nat, got: seq<byte>, r: Reader)
    requires Ready(was) && Ready(r) && |got| <= room
  {
    var rest := Fill(r, room - |got|);
    Fill(was, room) == ReadResult(got + rest.bytes, rest.err, rest.reader)
  }

  lemma FillTurn(was: Reader, room: nat, got: seq<byte>, r: Reader)
    requires Ready(was) && Ready(r) && |got| < room && Before(was, room, got, r)
    ensures var one := Next(r, room - |got|);
      if one.err.Some? then Fill(was, room) == ReadResult(got + one.bytes, one.err, one.reader)
      else Before(was, room, got + one.bytes, one.reader)
  {
    hide Next, Ready, Fill;
    FillUnfold(r, room - |got|);
    var one := Next(r, room - |got|);
    if one.err.None? {
      var rest := Fill(one.reader, room - |got| - |one.bytes|);
      assert got + (one.bytes + rest.bytes) == (got + one.bytes) + rest.bytes;
    }
  }

  lemma FillDone(was: Reader, room: nat, got: seq<byte>, r: Reader)
    requires Ready(was) && Ready(r) && |got| == room && Before(was, room, got, r)
    ensures Fill(was, room) == ReadResult(got, None, r)
  {
    hide Fill, Ready;
    FillUnfold(r, 0);
    assert got + [] == got;
  }

  /** What a read does to a buffer whose first m bytes are `got`. */
  lemma Spliced(got: seq<byte>, orig: seq<byte>, m: nat, bytes: seq<byte>)
    requires |got| == m && m + |bytes| <= |orig|
    ensures var whole := got + orig[m..];
      whole[..m] + bytes + whole[m + |bytes|..] == (got + bytes) + orig[m + |bytes|..]
  {}

  lemma Filled(whole: seq<byte>, got: seq<byte>, orig: seq<byte>, m: nat)
    requires |got| == m <= |orig| && whole == got + orig[m..]
    ensures whole[..m] == got && whole[m..] == orig[m..]
  {}
}
