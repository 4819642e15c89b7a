/** The watchdog's line feed: a byte stream cut into lines, each offered to a bounded
    queue without waiting. */
module LineFeed {
  import opened Common

  const NEWLINE: byte := 10
  const MAX_LINE: nat := 16384

  type Line = seq<byte>

  // ------------------------------------------------------- the lines of a stream

  /** What follows the last newline. */
  function Tail(s: seq<byte>): Line {
    if s == [] || s[|s| - 1] == NEWLINE then [] else Tail(s[..|s| - 1]) + [s[|s| - 1]]
  }

  /** The terminated lines, without their newlines. */
  function Terminated(s: seq<byte>): seq<Line> {
    if s == [] then []
    else if s[|s| - 1] == NEWLINE then Terminated(s[..|s| - 1]) + [Tail(s[..|s| - 1])]
    else Terminated(s[..|s| - 1])
  }

  function Cut(line: Line): Line { if |line| > MAX_LINE then line[..MAX_LINE] else line }

  function CutAll(lines: seq<Line>): seq<Line> { seq(|lines|, i requires 0 <= i < |lines| => Cut(lines[i])) }

  /** What the stream s amounts to when it has ended. */
  function AllLines(s: seq<byte>): seq<Line> { CutAll(Terminated(s) + (if Tail(s) == [] then [] else [Tail(s)])) }

  function Unsplit(lines: seq<Line>): seq<byte> {
    if lines == [] then [] else Unsplit(lines[..|lines| - 1]) + lines[|lines| - 1] + [NEWLINE]
  }

  predicate Plain(line: Line) { NEWLINE !in line }

  lemma {:induction false} TailPlain(s: seq<byte>)
    ensures Plain(Tail(s)) && forall l | l in Terminated(s) :: Plain(l)
  {
    if s != [] { TailPlain(s[..|s| - 1]); }
  }

  lemma {:induction false} SplitJoins(s: seq<byte>)
    ensures Unsplit(Terminated(s)) + Tail(s) == s
  {
    if s != [] {
      var init := s[..|s| - 1];
      SplitJoins(init);
      if s[|s| - 1] == NEWLINE {
        assert (Terminated(init) + [Tail(init)])[..|Terminated(init)|] == Terminated(init);
        assert Unsplit(Terminated(s)) == init + [NEWLINE] == s;
      }
    }
  }

  /** Plain bytes go to the tail. */
  lemma {:induction false} PlainAppend(s: seq<byte>, p: seq<byte>)
    requires Plain(p)
    ensures Tail(s + p) == Tail(s) + p && Terminated(s + p) == Terminated(s)
  {
    if p == [] {
      assert s + p == s && Tail(s) + p == Tail(s);
    } else {
      var init := p[..|p| - 1];
      PlainAppend(s, init);
      assert (s + p)[..|s + p| - 1] == s + init;
      assert Tail(s) + p == Tail(s) + init + [p[|p| - 1]];
    }
  }

  lemma NewlineAppend(s: seq<byte>)
    ensures Tail(s + [NEWLINE]) == [] && Terminated(s + [NEWLINE]) == Terminated(s) + [Tail(s)]
  {
    assert (s + [NEWLINE])[..|s|] == s;
  }

  /** There is one way to cut a stream at its newlines. */
  lemma {:induction false} SplitIsUnique(lines: seq<Line>, tail: Line)
    requires Plain(tail) && forall l | l in lines :: Plain(l)
    ensures Terminated(Unsplit(lines) + tail) == lines && Tail(Unsplit(lines) + tail) == tail
  {
    PlainAppend(Unsplit(lines), tail);
    if lines == [] {
      assert [] + tail == tail;
    } else {
      var init, last := lines[..|lines| - 1], lines[|lines| - 1];
      SplitIsUnique(init, last);
      NewlineAppend(Unsplit(init) + last);
      assert [] + tail == tail;
    }
  }

  lemma CutAllAppend(lines: seq<Line>, l: Line)
    ensures CutAll(lines + [l]) == CutAll(lines) + [Cut(l)]
  {}

  /** What a stream of lines is offered as: every line, and what comes after the last
      newline if there is anything, each cut to its first MAX_LINE bytes. */
  lemma LinesAreOffered(lines: seq<Line>, tail: Line)
    requires Plain(tail) && forall l | l in lines :: Plain(l)
    ensures AllLines(Unsplit(lines) + tail) == CutAll(lines) + (if tail == [] then [] else [Cut(tail)])
  {
    SplitIsUnique(lines, tail);
    CutAllAppend(lines, tail);
    assert lines + [] == lines && CutAll(lines) + [] == CutAll(lines);
  }

  /** Adding to a line that is already cut, or is cut by what is added. */
  lemma CutExtends(tail: Line, p: seq<byte>)
    ensures var room := MAX_LINE - |Cut(tail)|;
      Cut(tail + p) == if |tail| > MAX_LINE then Cut(tail) else if |p| > room then Cut(tail) + p[..room]
        else Cut(tail) + p
  {}

  // ------------------------------------------------------------------ the queue

  /** Of `offered`, what the queue had room for. */
  function Kept(offered: seq<Line>, accepts: nat -> bool): (kept: seq<Line>)
    ensures |kept| <= |offered|
  {
    if offered == [] then [] else
    var last := |offered| - 1;
    Kept(offered[..last], accepts) + (if accepts(last) then [offered[last]] else [])
  }

  /** The lines before the n-th that the queue had room for. */
  function Roomy(n: nat, accepts: nat -> bool): set<nat> { set k: nat | k < n && accepts(k) }

  /** The queue holds exactly the lines there was room for, in the order offered. */
  lemma {:induction false} KeptAre(offered: seq<Line>, accepts: nat -> bool)
    ensures var kept := Kept(offered, accepts);
      && |kept| == |Roomy(|offered|, accepts)|
      && forall k | 0 <= k < |offered| && accepts(k) ::
          |Roomy(k, accepts)| < |kept| && kept[|Roomy(k, accepts)|] == offered[k]
  {
    if offered != [] {
      var last := |offered| - 1;
      KeptAre(offered[..last], accepts);
      RoomyNext(last, accepts);
    } else {
      assert Roomy(0, accepts) == {};
    }
  }

  lemma RoomyNext(n: nat, accepts: nat -> bool)
    ensures |Roomy(n + 1, accepts)| == |Roomy(n, accepts)| + if accepts(n) then 1 else 0
  {
    assert n !in Roomy(n, accepts);
    assert Roomy(n + 1, accepts) == Roomy(n, accepts) + if accepts(n) then {n} else {};
  }

  // ------------------------------------------------------------------- the feed

  /** `accepts(k)` says whether the queue has room for the k-th line offered. */
  class Feed {
    const accepts: nat -> bool
    var buf: seq<byte>
    var cut: bool
    var queue: seq<Line>
    var dropped: nat
    ghost var offered: seq<Line>

    constructor (accepts: nat -> bool)
      ensures this.accepts == accepts && Fed([]) && offered == [] && Counted()
    {
      this.accepts := accepts;
      buf, cut, queue, dropped, offered := [], false, [], 0, [];
    }

    /** Every line offered was queued or counted as dropped. */
    ghost predicate Counted()
      reads this
    {
      queue == Kept(offered, accepts) && dropped + |queue| == |offered|
    }

    /** The feed has been given s, however it was cut into writes. */
    ghost predicate Fed(s: seq<byte>)
      reads this
    {
      && offered == CutAll(Terminated(s))
      && buf == Cut(Tail(s)) && (cut <==> |Tail(s)| > MAX_LINE)
    }

    method Add(p: seq<byte>, ghost s: seq<byte>)
      requires Fed(s) && Plain(p) && Counted()
      modifies this`buf, this`cut
      ensures Fed(s + p) && Counted()
    {
      PlainAppend(s, p);
      CutExtends(Tail(s), p);
      if cut { return; }
      var more := p;
      var room := MAX_LINE - |buf|;
      if |more| > room {
        more := more[..room];
        cut := true;
      }
      buf := buf + more;
    }

    method Emit()
      requires Counted()
      modifies this`buf, this`cut, this`queue, this`dropped, this`offered
      ensures Counted() && offered == old(offered) + [old(buf)] && buf == [] && !cut
    {
      var line := buf;
      buf, cut := [], false;
      assert (offered + [line])[..|offered|] == offered;
      if accepts(|queue| + dropped) {
        queue := queue + [line];
      } else {
        dropped := dropped + 1;
      }
      offered := offered + [line];
    }

    method Write(p: seq<byte>, ghost s: seq<byte>)
      requires Fed(s) && Counted()
      modifies this`buf, this`cut, this`queue, this`dropped, this`offered
      ensures Fed(s + p) && Counted()
    {
      hide Counted, Tail, Terminated, Cut, CutAll;
      var rest := p;
      ghost var done := s;
      assert s + p == done + rest;
      while |rest| > 0
        invariant done + rest == s + p && Fed(done) && Counted()
        decreases |rest|
      {
        var i := IndexByte(rest);
        if i < 0 {
          Add(rest, done);
          return;
        }
        Add(rest[..i], done);
        done := done + rest[..i];
        NewlineAppend(done);
        CutAllAppend(Terminated(done), Tail(done));
        Emit();
        EmptyCut();
        assert done + [NEWLINE] + rest[i + 1..] == s + p by { assert rest == rest[..i] + [NEWLINE] + rest[i + 1..]; }
        done := done + [NEWLINE];
        rest := rest[i + 1..];
      }
      assert done + rest == done;
    }

    /** Offers the last line, if it had no newline. */
    method Flush(ghost s: seq<byte>)
      requires Fed(s) && Counted()
      modifies this`buf, this`cut, this`queue, this`dropped, this`offered
      ensures offered == AllLines(s) && Counted()
    {
      CutAllAppend(Terminated(s), Tail(s));
      assert Terminated(s) + [] == Terminated(s);
      if |buf| > 0 || cut {
        Emit();
      }
    }
  }

  lemma EmptyCut()
    ensures Cut([]) == []
  {}

  /** bytes.IndexByte(p, '\n'). */
  method IndexByte(p: seq<byte>) returns (i: int)
    ensures i < 0 ==> Plain(p)
    ensures i >= 0 ==> i < |p| && p[i] == NEWLINE && Plain(p[..i])
  {
    i := 0;
    while i < |p|
      invariant 0 <= i <= |p| && Plain(p[..i])
    {
      if p[i] == NEWLINE { return; }
      i := i + 1;
    }
    assert p[..i] == p;
    return -1;
  }

  // -------------------------------------------------------------------- copyTee

  /** Where the copy goes; `takes(k)` bounds what its k-th write accepts. */
  class Sink {
    const takes: nat -> nat
    var written: seq<byte>
    var writes: nat

    constructor (takes: nat -> nat)
      ensures this.takes == takes && written == [] && writes == 0
    {
      this.takes, written, writes := takes, [], 0;
    }

    method Write(p: seq<byte>)
      modifies this
      ensures writes == old(writes) + 1
      ensures written == old(written) + p[..Min(takes(old(writes)), |p|)]
    {
      written := written + p[..Min(takes(writes), |p|)];
      writes := writes + 1;
    }
  }

  lemma ConcatNothing<T>()
    ensures Concat<T>([]) == []
  {}

  /** `chunks` is what r.Read returned, the last one with its error. */
  method CopyTee(chunks: seq<seq<byte>>, w: Sink, f: Feed)
    requires f.Fed([]) && f.Counted()
    modifies w, f`buf, f`cut, f`queue, f`dropped, f`offered
    ensures f.offered == AllLines(Concat(chunks)) && f.Counted()
    ensures (forall k: nat, i | 0 <= i < |chunks| :: w.takes(k) >= |chunks[i]|) ==>
      w.written == old(w.written) + Concat(chunks)
  {
    hide Tail, Terminated, Cut, CutAll, AllLines, Kept, Concat, Feed.Fed, Feed.Counted;
    var k := 0;
    assert chunks[..0] == [];
    ConcatNothing<byte>();
    assert w.written + [] == w.written;
    while k < |chunks|
      invariant 0 <= k <= |chunks|
      invariant f.Fed(Concat(chunks[..k])) && f.Counted()
      invariant (forall k: nat, i | 0 <= i < |chunks| :: w.takes(k) >= |chunks[i]|) ==>
        w.written == old(w.written) + Concat(chunks[..k])
    {
      var chunk := chunks[k];
      ghost var s := Concat(chunks[..k]);
      assert chunks[..k + 1] == chunks[..k] + [chunk];
      ConcatAppend(chunks[..k], chunk);
      assert chunk == [] ==> s + chunk == s;
      if |chunk| > 0 {
        w.Write(chunk);
        f.Write(chunk, s);
      }
      k := k + 1;
    }
    assert chunks[..k] == chunks;
    f.Flush(Concat(chunks));
  }
}
