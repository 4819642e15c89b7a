/** The index and the pull-through together: what a stored NAR is. */
module Nars {
  import opened Common
  import opened Reading
  import I = NarIndex
  import N = Nix32
  import P = PullThrough
  import S = PullThroughSafety

  /** Every expectation that the pull-through uses is the answer of some lookup. */
  ghost predicate LooksUp(w: P.World, prefix: string, net: I.Net) {
    forall k, e | w.announced(k, e) :: exists i ::
      0 <= i < |net.agents| && net.agents[i].task.Answered? && net.agents[i].task.found == Some(e)
      && k == prefix + net.agents[i].task.url
  }

  /** fr.finish prints the digest in Nix base 32. */
  ghost predicate Hashes(w: P.World, sha256: seq<byte> -> seq<byte>) {
    forall b :: |sha256(b)| == 32 && w.hash(b) == N.Encoded(sha256(b))
  }

  // ------------------------------------------------------------ what onBody is given

  /** The body that a step gives to onBody: from memory, from the store, or as a leader has
      read it; a HEAD's too. */
  function Handed(w: P.World, s: P.Sys, l: P.Label): Option<seq<byte>>
    requires l.i < |s.reqs|
    requires l.More? && s.reqs[l.i].pc.Lead? && s.reqs[l.i].pc.act.Reading? ==> Ready(s.reqs[l.i].pc.act.r)
  {
    var q := s.reqs[l.i];
    if w.large(q.key) then None else
    match l
    case HitMem(_) => if P.SiteOf(q) in s.mem then Some(s.mem[P.SiteOf(q)]) else None
    case Probed(_, fail, _, _) =>
      if !fail && q.key in s.store && |s.store[q.key]| <= P.MAX_SMALL then Some(s.store[q.key]) else None
    case More(_, room) =>
      if q.pc.Lead? && q.pc.act.Reading? then
        var res := Next(q.pc.act.r, room);
        if res.err == Some(Eof) && res.reader.n <= P.MAX_SMALL && res.reader.n <= |res.reader.body.data|
        then Some(res.reader.body.data[..res.reader.n]) else None
      else None
    case _ => None
  }

  /** It is a body that upstream sent whole for that key. */
  lemma HandedIsWhole(w: P.World, s: P.Sys, l: P.Label)
    requires S.Inv(w, s) && P.Can(w, s, l)
    ensures l.i < |s.reqs| && P.ReadersReady(s, l.i)
    ensures Handed(w, s, l).Some? ==> w.origin(s.reqs[l.i].key, Handed(w, s, l).value)
  {
    hide S.FlightsOk, S.SlotsOk, Next;
    S.InvReaders(w, s, l.i);
    match l
    case HitMem(_) =>
    case Probed(_, _, _, _) =>
    case More(i, room) => if s.reqs[i].pc.act.Reading? { ReadIsWhole(w, s, i, room); }
    case _ =>
  }

  lemma ReadIsWhole(w: P.World, s: P.Sys, i: nat, room: nat)
    requires S.Inv(w, s) && P.Can(w, s, P.More(i, room)) && s.reqs[i].pc.act.Reading? && Ready(s.reqs[i].pc.act.r)
    ensures var res := Next(s.reqs[i].pc.act.r, room);
      res.err == Some(Eof) && res.reader.n <= |res.reader.body.data| ==>
        w.origin(s.reqs[i].key, res.reader.body.data[..res.reader.n])
  {
    hide S.FlightsOk, S.SlotsOk, Next, Verdict, Matches;
    S.LeaderAct(w, s, i);
    var r := s.reqs[i].pc.act.r;
    ReadKeeps(r, room);
    var res := Next(r, room);
    if res.err == Some(Eof) {
      EndMeans(res.reader);
      assert res.reader.body.data[..res.reader.n] == res.reader.body.data;
    }
  }

  /** Somewhere in the run these bytes were given to onBody for this key. */
  ghost predicate HandedIn(w: P.World, s: P.Sys, ls: seq<P.Label>, k: P.Key, b: seq<byte>)
    requires S.Inv(w, s)
    decreases |ls|
  {
    ls != [] && P.Can(w, s, ls[0]) &&
    (HandedIsWhole(w, s, ls[0]); S.StepKeeps(w, s, ls[0]);
     (s.reqs[ls[0].i].key == k && Handed(w, s, ls[0]) == Some(b)) || HandedIn(w, P.Step(w, s, ls[0]), ls[1..], k, b))
  }

  lemma {:induction false} HandedWhole(w: P.World, s: P.Sys, ls: seq<P.Label>, k: P.Key, b: seq<byte>)
    requires S.Inv(w, s) && HandedIn(w, s, ls, k, b)
    ensures w.origin(k, b)
    decreases |ls|
  {
    hide S.Inv, P.Can, P.Step, Handed;
    HandedIsWhole(w, s, ls[0]);
    S.StepKeeps(w, s, ls[0]);
    if !(s.reqs[ls[0].i].key == k && Handed(w, s, ls[0]) == Some(b)) {
      HandedWhole(w, P.Step(w, s, ls[0]), ls[1..], k, b);
    }
  }

  /** Every narinfo that the index is told of was given to onBody, for a narinfo's key;
      `text` is Go's string(body). */
  ghost predicate Serves(w: P.World, s: P.Sys, ls: seq<P.Label>, net: I.Net, narinfo: P.Key -> bool,
      text: seq<byte> -> string)
    requires S.Inv(w, s)
  {
    forall body | body in net.served :: exists k, b :: narinfo(k) && text(b) == body && HandedIn(w, s, ls, k, b)
  }

  /** A NAR in the store is whole, and named in a narinfo that is itself a body which
      upstream sent whole for a narinfo's key: with exactly its size and its SHA-256, and
      anything else with that FileHash has the same digest. */
  lemma StoredNarsAreAnnounced(
    c: I.Codec, prefix: string, net: I.Net, steps: seq<I.Label>, net': I.Net,
    w: P.World, sha256: seq<byte> -> seq<byte>, narinfo: P.Key -> bool, text: seq<byte> -> string,
    s: P.Sys, ls: seq<P.Label>, t: P.Sys, k: P.Key)
    returns (from: P.Key, body: seq<byte>, rec: I.Record)
    requires I.CodecOk(c) && I.Init(prefix, net) && I.Runs(c, prefix, net, steps, net')
    requires S.Init(w, s) && (S.InitOk(w, s); S.Runs(w, s, ls, t))
    requires LooksUp(w, prefix, net') && Hashes(w, sha256)
    requires (S.InitOk(w, s); Serves(w, s, ls, net', narinfo, text))
    requires k in t.store && w.checked(k)
    ensures w.origin(k, t.store[k])
    ensures narinfo(from) && w.origin(from, body)
    ensures text(body) in net'.served && I.Announces(text(body), rec) && k == prefix + rec.url
    ensures |t.store[k]| == rec.fileSize && N.Encoded(sha256(t.store[k])) == rec.fileHash
    ensures forall b :: N.Encoded(sha256(b)) == rec.fileHash ==> sha256(b) == sha256(t.store[k])
  {
    hide S.Init, S.Runs, S.Inv, I.Init, I.Runs, I.Announces, N.Encoded, HandedIn;
    S.InitOk(w, s);
    S.OnlyWholeBodiesAreStored(w, s, ls, t, k);
    I.OnlyAnnouncedIsFound(c, prefix, net, steps, net');
    var e :| w.announced(k, e) && |t.store[k]| == e.size && w.hash(t.store[k]) == e.sha256;
    var i :| 0 <= i < |net'.agents| && net'.agents[i].task.Answered? && net'.agents[i].task.found == Some(e)
      && k == prefix + net'.agents[i].task.url;
    assert I.Expected(net'.served, net'.agents[i].task.url, e);
    rec := I.Record(net'.agents[i].task.url, e.sha256, e.size);
    var told :| told in net'.served && I.Announces(told, rec);
    from, body :| narinfo(from) && text(body) == told && HandedIn(w, s, ls, from, body);
    HandedWhole(w, s, ls, from, body);
    forall b | N.Encoded(sha256(b)) == rec.fileHash ensures sha256(b) == sha256(t.store[k]) {
      N.PrintsTellApart(sha256(b), sha256(t.store[k]));
    }
  }
}
