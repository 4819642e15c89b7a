/** The stored copy of a packument: a line with the validator and the media type,
    then the document, compressed. */
module PackumentFrame {
  import opened Common

  type Bytes = seq<byte>

  const NEWLINE: byte := 10
  const TAB: byte := 9
  const SPACE: byte := 32

  /** maxPackument. */
  const MAX: nat := 67108864

  /** "cr-npm1 ". */
  const MAGIC: Bytes := [99, 114, 45, 110, 112, 109, 49, 32]

  /** What one upstream 200 said: its ETag, its media type and its document. */
  datatype Doc = Doc(etag: Bytes, ctype: Bytes, body: Bytes)

  /** compress/gzip. */
  datatype Gzip = Gzip(zip: Bytes -> Bytes, unzip: Bytes -> Option<Bytes>)

  /** What is compressed is read back, and no part of it is taken for the whole. */
  ghost predicate GzipOk(g: Gzip) {
    && (forall b :: g.unzip(g.zip(b)) == Some(b))
    && (forall b, n: nat | n < |g.zip(b)| :: g.unzip(g.zip(b)[..n]) == None)
  }

  function Spaced(s: Bytes): (r: Bytes)
    ensures |r| == |s| && NEWLINE !in r
    ensures r == s <==> NEWLINE !in s
    ensures TAB in r <==> TAB in s
  {
    if s == [] then [] else
    var c := if s[0] == NEWLINE then SPACE else s[0];
    var rest := Spaced(s[1..]);
    assert s == [s[0]] + s[1..];
    [c] + rest
  }

  function Line(d: Doc): Bytes { MAGIC + Spaced(d.etag) + [TAB] + d.ctype }

  function Frame(g: Gzip, d: Doc): Bytes { Line(d) + [NEWLINE] + g.zip(d.body) }

  /** The two halves of a line without its magic. */
  function Meta(meta: Bytes): (Bytes, Bytes) {
    var i := IndexOf(meta, TAB);
    if i < |meta| then (meta[..i], meta[i + 1..]) else (meta, [])
  }

  /** A document as its stored form reads back, if there is no newline in its headers. */
  function ReadBack(d: Doc): Doc {
    var meta := Meta(d.etag + [TAB] + d.ctype);
    Doc(meta.0, meta.1, d.body)
  }

  /** An ETag that holds a tab is cut there, and its rest goes before the media type. */
  lemma ReadBackOf(d: Doc)
    requires NEWLINE !in d.etag
    ensures Meta(Spaced(d.etag) + [TAB] + d.ctype) == Meta(d.etag + [TAB] + d.ctype)
    ensures ReadBack(d) == d <==> TAB !in d.etag
    ensures ReadBack(d).body == d.body && ReadBack(d).etag <= d.etag && TAB !in ReadBack(d).etag
  {
    hide Meta;
    MetaOf(d.etag, d.ctype);
    MetaCut(d.etag, d.ctype);
  }

  lemma MetaCut(etag: Bytes, ctype: Bytes)
    ensures var cut := Meta(etag + [TAB] + ctype).0; cut <= etag && TAB !in cut
  {
    var meta := etag + [TAB] + ctype;
    assert meta[|etag|] == TAB;
    var i := IndexOf(meta, TAB);
    assert i <= |etag| && meta[..i] == etag[..i];
    forall j | 0 <= j < i ensures meta[..i][j] != TAB {}
  }

  /** What load reads of an object. */
  function Head(stored: Bytes): Bytes { stored[..Min(|stored|, MAX + 1)] }

  function Load(g: Gzip, stored: Bytes): Option<Doc> {
    var raw := Head(stored);
    var i := IndexOf(raw, NEWLINE);
    if i == |raw| || !(MAGIC <= raw[..i]) then None else
    var meta := Meta(raw[..i][|MAGIC|..]);
    match g.unzip(raw[i + 1..])
    case None => None
    case Some(body) => if |body| > MAX then None else Some(Doc(meta.0, meta.1, body))
  }

  /** The ETags that section 8.8.3 of RFC 9110 allows have no such bytes in them, and
      no field value has a newline. */
  predicate Plain(d: Doc) { NEWLINE !in d.etag && TAB !in d.etag && NEWLINE !in d.ctype }

  lemma MetaOf(etag: Bytes, ctype: Bytes)
    ensures TAB !in etag ==> Meta(etag + [TAB] + ctype) == (etag, ctype)
    ensures TAB in etag ==> |Meta(etag + [TAB] + ctype).0| < |etag|
  {
    var meta := etag + [TAB] + ctype;
    if TAB !in etag {
      IndexOfHere(etag, TAB, ctype);
      assert meta[..|etag|] == etag && meta[|etag| + 1..] == ctype;
    } else {
      var j :| 0 <= j < |etag| && etag[j] == TAB;
      assert meta[j] == TAB;
    }
  }

  /** Where the line of a frame ends, if that much of it is read. */
  lemma LineOf(g: Gzip, d: Doc)
    requires NEWLINE !in d.ctype
    ensures var raw, n := Head(Frame(g, d)), |Line(d)|;
      if n < |raw| then
        IndexOf(raw, NEWLINE) == n && raw[..n] == Line(d) && |raw| - n - 1 <= |g.zip(d.body)| &&
          raw[n + 1..] == g.zip(d.body)[..|raw| - n - 1]
      else IndexOf(raw, NEWLINE) == |raw|
  {
    LinePlain(d);
    var raw, n := Head(Frame(g, d)), |Line(d)|;
    if n < |raw| {
      var rest := g.zip(d.body)[..|raw| - n - 1];
      assert raw == Line(d) + [NEWLINE] + rest;
      IndexOfHere(Line(d), NEWLINE, rest);
    } else {
      assert raw == Line(d)[..|raw|];
    }
  }

  lemma LinePlain(d: Doc)
    requires NEWLINE !in d.ctype
    ensures NEWLINE !in Line(d)
  {
    assert NEWLINE !in MAGIC;
  }

  lemma LineHead(d: Doc)
    ensures MAGIC <= Line(d) && Line(d)[|MAGIC|..] == Spaced(d.etag) + [TAB] + d.ctype
  {}

  /** A frame without a newline in its media type: read back if it and its document are
      not too large, and not at all otherwise. */
  lemma FrameLoads(g: Gzip, d: Doc)
    requires GzipOk(g) && NEWLINE !in d.ctype
    ensures var meta := Meta(Spaced(d.etag) + [TAB] + d.ctype);
      Load(g, Frame(g, d)) == if |Frame(g, d)| <= MAX + 1 && |d.body| <= MAX then Some(Doc(meta.0, meta.1, d.body))
        else None
  {
    hide Line, Meta;
    LineOf(g, d);
    LineHead(d);
    var raw, zip := Head(Frame(g, d)), g.zip(d.body);
    assert |Frame(g, d)| == |Line(d)| + 1 + |zip|;
    if |Frame(g, d)| <= MAX + 1 {
      assert zip[..|zip|] == zip && g.unzip(zip) == Some(d.body);
    } else if |Line(d)| < |raw| {
      assert g.unzip(zip[..|raw| - |Line(d)| - 1]) == None;
    }
  }

  lemma BrokenAt(raw: Bytes, head: Bytes, ctype: Bytes, rest: Bytes)
    requires raw <= head + ctype + rest && NEWLINE !in head && NEWLINE in ctype && IndexOf(raw, NEWLINE) < |raw|
    ensures |head| <= IndexOf(raw, NEWLINE) < |head| + |ctype|
  {
    var whole, i := head + ctype + rest, IndexOf(raw, NEWLINE);
    var j :| 0 <= j < |ctype| && ctype[j] == NEWLINE;
    assert whole[|head| + j] == NEWLINE && head <= whole;
    NoneBefore(raw, head, whole, i);
    assert |head| + j < |raw| ==> raw[|head| + j] == NEWLINE;
  }

  lemma MetaSize(meta: Bytes)
    requires TAB in meta
    ensures |Meta(meta).0| + |Meta(meta).1| + 1 == |meta|
  {}

  /** With a newline in the media type the line ends inside it. */
  lemma BrokenLine(g: Gzip, d: Doc)
    requires NEWLINE in d.ctype && Load(g, Frame(g, d)).Some?
    ensures |Load(g, Frame(g, d)).value.etag| + |Load(g, Frame(g, d)).value.ctype| < |d.etag| + |d.ctype|
  {
    hide IndexOf, Meta;
    var head, raw := MAGIC + Spaced(d.etag) + [TAB], Head(Frame(g, d));
    var rest := [NEWLINE] + g.zip(d.body);
    assert Frame(g, d) == head + d.ctype + rest;
    BrokenAt(raw, head, d.ctype, rest);
    var meta := raw[..IndexOf(raw, NEWLINE)][|MAGIC|..];
    assert meta[|d.etag|] == head[|head| - 1] == TAB;
    MetaSize(meta);
  }

  lemma {:induction false} NoneBefore(raw: Bytes, head: Bytes, whole: Bytes, i: nat)
    requires head <= whole && raw <= whole && NEWLINE !in head && i < |raw| && raw[i] == NEWLINE
    ensures |head| <= i
    decreases |head|
  {
    if head != [] {
      assert head[0] == whole[0] == raw[0] && head[0] in head;
      assert i > 0;
      NoneBefore(raw[1..], head[1..], whole[1..], i - 1);
    }
  }

  /** save, then load: a document comes back with its own ETag and media type exactly when
      these hold no separator and neither it nor its frame is over what load reads. */
  lemma RoundTrip(g: Gzip, d: Doc)
    requires GzipOk(g)
    ensures Load(g, Frame(g, d)) == Some(d) <==> Plain(d) && |d.body| <= MAX && |Frame(g, d)| <= MAX + 1
  {
    hide Load, Frame;
    if NEWLINE in d.ctype {
      if Load(g, Frame(g, d)).Some? { BrokenLine(g, d); }
    } else {
      FrameLoads(g, d);
      MetaOf(Spaced(d.etag), d.ctype);
    }
  }
}
