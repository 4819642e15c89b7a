/** The watchdog's verdict on a runner: a fold over its log lines, and the statement
    about whole histories that the fold computes. */
module Matcher {
  import opened Common

  /** time.Time{}, which the fold also uses to say that nothing is armed. */
  const ZERO: int := 0

  datatype Signature = Signature(name: string, matches: string -> bool)

  /** The regular expressions, as what they accept. */
  datatype Rules = Rules(started: string -> bool, completed: string -> bool, signatures: seq<Signature>)

  datatype Kind = Started | Completed | Sig(name: string) | Other

  datatype Event = Line(kind: Kind, at: int) | Eval(at: int)

  type History = seq<Event>

  /** strings.TrimRight(line, "\r"). */
  function TrimReturns(line: string): string {
    if line != "" && line[|line| - 1] == '\r' then TrimReturns(line[..|line| - 1]) else line
  }

  function FirstMatch(signatures: seq<Signature>, line: string): Option<string> {
    if signatures == [] then None
    else if signatures[0].matches(line) then Some(signatures[0].name)
    else FirstMatch(signatures[1..], line)
  }

  function KindOf(rules: Rules, line: string): Kind {
    var l := TrimReturns(line);
    if rules.started(l) then Started
    else if rules.completed(l) then Completed
    else match FirstMatch(rules.signatures, l)
      case None => Other
      case Some(name) => Sig(name)
  }

  function Returns(n: nat): string { seq(n, _ => '\r') }

  /** The line as the runner wrote it, and what is left of its end. */
  ghost predicate Ends(line: string, l: string) {
    && (l != "" ==> l[|l| - 1] != '\r')
    && exists n: nat :: line == l + Returns(n)
  }

  lemma {:induction false} TrimmedEnds(line: string)
    ensures Ends(line, TrimReturns(line))
  {
    if line != "" && line[|line| - 1] == '\r' {
      var l := TrimReturns(line);
      TrimmedEnds(line[..|line| - 1]);
      var n: nat :| line[..|line| - 1] == l + Returns(n);
      assert line == l + Returns(n + 1);
    } else {
      assert line == line + Returns(0);
    }
  }

  lemma {:induction false} OneEnd(line: string, l: string, n: nat)
    requires (l != "" ==> l[|l| - 1] != '\r') && line == l + Returns(n)
    ensures TrimReturns(line) == l
    decreases n
  {
    if n > 0 {
      assert line[..|line| - 1] == l + Returns(n - 1);
      OneEnd(line[..|line| - 1], l, n - 1);
    } else {
      assert line == l;
    }
  }

  /** Signature k is the first that matches. */
  ghost predicate MatchesFirst(signatures: seq<Signature>, l: string, k: nat) {
    k < |signatures| && signatures[k].matches(l) && forall j | 0 <= j < k :: !signatures[j].matches(l)
  }

  lemma {:induction false} FirstMatchIs(signatures: seq<Signature>, l: string)
    ensures FirstMatch(signatures, l).None? <==> forall k | 0 <= k < |signatures| :: !signatures[k].matches(l)
    ensures forall k: nat | MatchesFirst(signatures, l, k) :: FirstMatch(signatures, l) == Some(signatures[k].name)
    ensures FirstMatch(signatures, l).Some? ==>
      exists k: nat :: MatchesFirst(signatures, l, k) && signatures[k].name == FirstMatch(signatures, l).value
  {
    if signatures != [] {
      var rest := signatures[1..];
      FirstMatchIs(rest, l);
      assert forall k | 0 < k < |signatures| :: signatures[k] == rest[k - 1];
      if signatures[0].matches(l) {
        assert MatchesFirst(signatures, l, 0);
      } else {
        forall k: nat ensures MatchesFirst(signatures, l, k) <==> k > 0 && MatchesFirst(rest, l, k - 1) {
          LaterMatch(signatures, l, k);
        }
        if FirstMatch(rest, l).Some? {
          var k: nat :| MatchesFirst(rest, l, k) && rest[k].name == FirstMatch(rest, l).value;
          assert MatchesFirst(signatures, l, k + 1);
        }
      }
    }
  }

  lemma LaterMatch(signatures: seq<Signature>, l: string, k: nat)
    requires signatures != [] && !signatures[0].matches(l)
    ensures MatchesFirst(signatures, l, k) <==> k > 0 && MatchesFirst(signatures[1..], l, k - 1)
  {
    var rest := signatures[1..];
    assert forall j | 0 < j < |signatures| :: signatures[j] == rest[j - 1];
    if k > 0 && MatchesFirst(rest, l, k - 1) {
      forall j | 0 <= j < k ensures !signatures[j].matches(l) { assert j > 0 ==> !rest[j - 1].matches(l); }
    }
    if MatchesFirst(signatures, l, k) {
      forall j | 0 <= j < k - 1 ensures !rest[j].matches(l) { assert !signatures[j + 1].matches(l); }
    }
  }

  /** Which lines are of which kind: a start is told first, then a completion, then the first
      signature that matches, each without the returns at the line's end. */
  lemma KindIs(rules: Rules, line: string, l: string)
    requires Ends(line, l)
    ensures KindOf(rules, line) == Started <==> rules.started(l)
    ensures KindOf(rules, line) == Completed <==> !rules.started(l) && rules.completed(l)
    ensures forall name :: KindOf(rules, line) == Sig(name) <==>
      && !rules.started(l) && !rules.completed(l)
      && exists k: nat :: MatchesFirst(rules.signatures, l, k) && rules.signatures[k].name == name
    ensures KindOf(rules, line) == Other <==>
      !rules.started(l) && !rules.completed(l) && forall k | 0 <= k < |rules.signatures| ::
        !rules.signatures[k].matches(l)
  {
    hide FirstMatch, MatchesFirst;
    var n: nat :| line == l + Returns(n);
    OneEnd(line, l, n);
    FirstMatchIs(rules.signatures, l);
  }

  // --------------------------------------------------------- histories, at a glance

  /** A job is running: the last start has no completion after it. */
  ghost predicate Running(h: History) {
    exists i :: 0 <= i < |h| && IsStart(h[i]) && forall k | i < k < |h| :: !IsEnd(h[k])
  }

  predicate IsStart(e: Event) { e.Line? && e.kind == Started }

  predicate IsEnd(e: Event) { e.Line? && e.kind == Completed }

  ghost predicate NoStart(h: History, from: nat, to: nat)
    requires to <= |h|
  {
    forall k | from <= k < to :: !IsStart(h[k])
  }

  /** `any`: whatever the clock said; otherwise only when it did not say ZERO. */
  ghost predicate IdleSignature(h: History, i: nat, any: bool)
    requires i < |h|
  {
    h[i].Line? && h[i].kind.Sig? && !Running(h[..i]) && (any || h[i].at != ZERO)
  }

  /** Line i is the first signature seen while idle since the last job start. */
  ghost predicate FirstIdle(h: History, i: nat, any: bool) {
    && i < |h| && IdleSignature(h, i, any) && NoStart(h, i, |h|)
    && forall j | 0 <= j < i && IdleSignature(h, j, any) :: !NoStart(h, j, i)
  }

  /** The verdict as the documentation gives it. */
  ghost predicate Stuck(h: History, grace: int, now: int) {
    !Running(h) && exists i: nat :: FirstIdle(h, i, true) && now - h[i].at >= grace
  }

  // ------------------------------------------------------------ the same, by steps

  predicate Busy(h: History) {
    if h == [] then false
    else if IsStart(h[|h| - 1]) then true
    else if IsEnd(h[|h| - 1]) then false
    else Busy(h[..|h| - 1])
  }

  function Armed(h: History, any: bool): (armed: Option<nat>)
    ensures armed.Some? ==> armed.value < |h| && h[armed.value].Line? && h[armed.value].kind.Sig?
    ensures armed.Some? && !any ==> h[armed.value].at != ZERO
  {
    if h == [] then None else
    var init, e := h[..|h| - 1], h[|h| - 1];
    if IsStart(e) then None
    else if e.Line? && e.kind.Sig? && !Busy(init) && (any || e.at != ZERO) && Armed(init, any).None? then Some(|init|)
    else Armed(init, any)
  }

  lemma {:induction false} BusyIsRunning(h: History)
    ensures Busy(h) <==> Running(h)
  {
    if h != [] {
      var init, last := h[..|h| - 1], |h| - 1;
      BusyIsRunning(init);
      if IsStart(h[last]) {
      } else if !IsEnd(h[last]) {
        hide Running;
        RunningOn(h);
      }
    }
  }

  /** Line i starts a job, and no completion follows before line n. */
  ghost predicate StartedAt(h: History, i: nat, n: nat)
    requires n <= |h|
  {
    i < n && IsStart(h[i]) && forall k | i < k < n :: !IsEnd(h[k])
  }

  lemma StartedAtInit(h: History, i: nat)
    requires h != []
    ensures var n := |h| - 1; StartedAt(h[..n], i, n) <==> StartedAt(h, i, n)
  {
    assert forall k | 0 <= k < |h| - 1 :: h[..|h| - 1][k] == h[k];
  }

  lemma RunningAt(h: History)
    ensures Running(h) <==> exists i: nat :: StartedAt(h, i, |h|)
  {
    if Running(h) {
      var i :| 0 <= i < |h| && IsStart(h[i]) && forall k | i < k < |h| :: !IsEnd(h[k]);
      assert StartedAt(h, i, |h|);
    }
  }

  /** What neither starts nor ends a job changes nothing. */
  lemma RunningOn(h: History)
    requires h != [] && !IsStart(h[|h| - 1]) && !IsEnd(h[|h| - 1])
    ensures Running(h) <==> Running(h[..|h| - 1])
  {
    hide IsStart, IsEnd, Running;
    var init := h[..|h| - 1];
    RunningAt(h);
    RunningAt(init);
    forall i: nat ensures StartedAt(h, i, |h|) <==> StartedAt(init, i, |init|) { StartedAtInit(h, i); }
  }

  /** Whether a line is an idle signature depends only on what came before it. */
  lemma IdlePrefix(h: History, i: nat, n: nat, any: bool)
    requires i < n <= |h|
    ensures IdleSignature(h[..n], i, any) <==> IdleSignature(h, i, any)
  {
    assert h[..n][..i] == h[..i];
  }

  lemma FirstUnique(h: History, i: nat, j: nat, any: bool)
    requires FirstIdle(h, i, any) && FirstIdle(h, j, any)
    ensures i == j
  {}

  lemma {:induction false} ArmedIsFirst(h: History, any: bool)
    ensures Armed(h, any).Some? ==> FirstIdle(h, Armed(h, any).value, any)
    ensures Armed(h, any).None? ==> forall j | 0 <= j < |h| && IdleSignature(h, j, any) :: !NoStart(h, j, |h|)
  {
    hide Running, IdleSignature;
    if h != [] {
      var init, e := h[..|h| - 1], h[|h| - 1];
      ArmedIsFirst(init, any);
      BusyIsRunning(init);
      forall j | 0 <= j < |init|
        ensures IdleSignature(init, j, any) <==> IdleSignature(h, j, any)
      {
        IdlePrefix(h, j, |init|, any);
      }
      LastIdle(h, any);
      if IsStart(e) {
      } else if e.Line? && e.kind.Sig? && !Busy(init) && (any || e.at != ZERO) && Armed(init, any).None? {
        forall j | 0 <= j < |init| && IdleSignature(h, j, any) ensures !NoStart(h, j, |init|) { StartPrefix(h, j); }
      } else {
        forall j | 0 <= j < |init| ensures NoStart(init, j, |init|) <==> NoStart(h, j, |h|) { StartPrefix(h, j); }
        if Armed(init, any).Some? {
          var i := Armed(init, any).value;
          forall j | 0 <= j < i && IdleSignature(h, j, any) ensures !NoStart(h, j, i) { StartWithin(h, j, i); }
        }
      }
    }
  }

  lemma LastIdle(h: History, any: bool)
    requires h != []
    ensures var init, e := h[..|h| - 1], h[|h| - 1];
      IdleSignature(h, |h| - 1, any) <==> e.Line? && e.kind.Sig? && !Busy(init) && (any || e.at != ZERO)
  {
    BusyIsRunning(h[..|h| - 1]);
  }

  lemma StartPrefix(h: History, j: nat)
    requires j < |h| - 1
    ensures var init := h[..|h| - 1];
      && (NoStart(h, j, |init|) <==> NoStart(init, j, |init|))
      && (NoStart(h, j, |h|) <==> NoStart(init, j, |init|) && !IsStart(h[|h| - 1]))
  {}

  lemma StartWithin(h: History, j: nat, i: nat)
    requires j <= i < |h|
    ensures NoStart(h[..|h| - 1], j, i) <==> NoStart(h, j, i)
  {}

  // ------------------------------------------------------------------ what follows

  /** What Evaluate answers. */
  predicate Verdict(h: History, grace: int, now: int) {
    !Busy(h) && Armed(h, false).Some? && now - h[Armed(h, false).value].at >= grace
  }

  /** The answer is the documented one at every moment exactly when a job is running,
      nothing has been seen while idle, or the first of it was not seen at ZERO. */
  lemma VerdictIsStuck(h: History, grace: int)
    ensures (forall now :: Verdict(h, grace, now) <==> Stuck(h, grace, now)) <==>
      Running(h) || !(exists i: nat :: FirstIdle(h, i, true) && h[i].at == ZERO)
  {
    BusyIsRunning(h);
    ArmedIsFirst(h, true);
    ArmedIsFirst(h, false);
    forall now
      ensures Stuck(h, grace, now) <==> !Busy(h) && Armed(h, true).Some? && now - h[Armed(h, true).value].at >= grace
    {
      StuckByArmed(h, grace, now);
    }
    SameArmed(h);
    var first, armed := Armed(h, true), Armed(h, false);
    if !Busy(h) && first.Some? && h[first.value].at == ZERO {
      // It counts from ZERO by the documentation, and from a later signature, or
      // not at all, by the fold.
      var now := if armed.Some? && h[armed.value].at < 0 then grace + h[armed.value].at else grace;
      assert Verdict(h, grace, now) != Stuck(h, grace, now);
    }
    FirstIsArmed(h);
  }

  lemma FirstIsArmed(h: History)
    ensures (exists i: nat :: FirstIdle(h, i, true) && h[i].at == ZERO) <==>
      Armed(h, true).Some? && h[Armed(h, true).value].at == ZERO
  {
    ArmedIsFirst(h, true);
    if i: nat :| FirstIdle(h, i, true) && h[i].at == ZERO { ArmedIs(h, i); }
  }

  lemma ArmedIs(h: History, i: nat)
    requires FirstIdle(h, i, true)
    ensures Armed(h, true) == Some(i)
  {
    hide Running, IdleSignature;
    ArmedIsFirst(h, true);
    if Armed(h, true).Some? { FirstUnique(h, i, Armed(h, true).value, true); }
  }

  lemma StuckByArmed(h: History, grace: int, now: int)
    ensures Stuck(h, grace, now) <==> !Busy(h) && Armed(h, true).Some? && now - h[Armed(h, true).value].at >= grace
  {
    BusyIsRunning(h);
    ArmedIsFirst(h, true);
    if Stuck(h, grace, now) {
      var i: nat :| FirstIdle(h, i, true) && now - h[i].at >= grace;
      ArmedIs(h, i);
    }
  }

  /** Ignoring lines seen at ZERO changes nothing unless such a line came first. */
  lemma {:induction false} SameArmed(h: History)
    ensures Armed(h, true).None? || h[Armed(h, true).value].at != ZERO ==> Armed(h, false) == Armed(h, true)
  {
    if h != [] { SameArmed(h[..|h| - 1]); }
  }

  /** Seen at the zero time, a signature is forgotten: the runner is never stuck. */
  lemma ZeroTimeIsMissed(name: string, now: int, grace: int)
    requires now >= grace
    ensures var h := [Line(Sig(name), ZERO)]; Stuck(h, grace, now) && !Verdict(h, grace, now)
  {
    var h := [Line(Sig(name), ZERO)];
    assert h[..0] == [];
    StuckByArmed(h, grace, now);
  }

  /** With a clock that does not go back, stuck stays stuck until a job starts. */
  lemma {:induction false} StuckStays(h: History, more: History, grace: int, now: int, later: int)
    requires Verdict(h, grace, now) && now <= later && forall e | e in more :: !IsStart(e)
    ensures Verdict(h + more, grace, later)
    decreases |more|
  {
    if more == [] {
      assert h + more == h;
    } else {
      var init := more[..|more| - 1];
      StuckStays(h, init, grace, now, later);
      assert (h + more)[..|h + more| - 1] == h + init;
      assert more[|more| - 1] in more;
    }
  }

  // --------------------------------------------------------- the signature that is shown

  /** The signature in a snapshot. */
  function Shown(h: History): string {
    if h == [] then "" else
    var init, e := h[..|h| - 1], h[|h| - 1];
    if IsStart(e) then ""
    else if e.Line? && e.kind.Sig? && !Busy(init) && Armed(init, false).None? then e.kind.name
    else Shown(init)
  }

  /** Line i is an idle signature since the last job start. */
  ghost predicate IdleSince(h: History, i: nat) { i < |h| && IdleSignature(h, i, true) && NoStart(h, i, |h|) }

  /** The last one. */
  ghost predicate LastSince(h: History, i: nat) {
    IdleSince(h, i) && forall j: nat | i < j < |h| :: !IdleSince(h, j)
  }

  lemma SinceInit(h: History, i: nat)
    requires i < |h|
    ensures i < |h| - 1 ==> (IdleSince(h, i) <==> IdleSince(h[..|h| - 1], i) && !IsStart(h[|h| - 1]))
    ensures var init, e := h[..|h| - 1], h[|h| - 1];
      i == |h| - 1 ==> (IdleSince(h, i) <==> e.Line? && e.kind.Sig? && !Busy(init))
  {
    hide Running;
    LastIdle(h, true);
    if i < |h| - 1 {
      IdlePrefix(h, i, |h| - 1, true);
      StartPrefix(h, i);
    }
  }

  lemma LastInit(h: History, i: nat)
    requires h != [] && LastSince(h, i) && i < |h| - 1
    ensures LastSince(h[..|h| - 1], i) && !IdleSince(h, |h| - 1)
  {
    hide IdleSince;
    var init := h[..|h| - 1];
    SinceInit(h, i);
    forall j: nat | i < j < |init| ensures !IdleSince(init, j) { SinceInit(h, j); }
  }

  /** What a snapshot shows when none is armed: the last idle signature since the last
      job start, which was seen at ZERO. */
  lemma {:induction false} ShownLast(h: History, i: nat)
    requires Armed(h, false).None? && LastSince(h, i)
    ensures i < |h| && h[i].Line? && h[i].kind.Sig? && h[i].at == ZERO && Shown(h) == h[i].kind.name
    decreases |h|
  {
    hide LastSince, IdleSignature, NoStart;
    LastKnown(h, i);
    SinceInit(h, i);
    SinceInit(h, |h| - 1);
    if i < |h| - 1 {
      LastInit(h, i);
      ShownLast(h[..|h| - 1], i);
    }
  }

  lemma LastKnown(h: History, i: nat)
    requires LastSince(h, i)
    ensures i < |h| && IdleSince(h, i) && h[i].Line? && h[i].kind.Sig?
  {}

  /** Nothing if there are none, and the armed one if one is armed. */
  lemma {:induction false} ShownArmed(h: History)
    ensures Armed(h, false).Some? ==> Shown(h) == h[Armed(h, false).value].kind.name
    ensures (forall i: nat | i < |h| :: !IdleSince(h, i)) ==> Shown(h) == ""
  {
    hide IdleSince;
    if h != [] {
      var init, e := h[..|h| - 1], h[|h| - 1];
      ShownArmed(init);
      SinceInit(h, |init|);
      forall i: nat | i < |init| ensures IdleSince(h, i) <==> IdleSince(init, i) && !IsStart(e) { SinceInit(h, i); }
    }
  }

  // ------------------------------------------------------------------- the counters

  /** How many lines are of one kind. */
  function Count(h: History, kind: Kind): nat {
    if h == [] then 0 else
    var e := h[|h| - 1];
    Count(h[..|h| - 1], kind) + (if e.Line? && e.kind == kind then 1 else 0)
  }

  function Lines(h: History): nat {
    if h == [] then 0 else Lines(h[..|h| - 1]) + (if h[|h| - 1].Line? then 1 else 0)
  }

  /** The verdicts given so far, in order. */
  function Verdicts(h: History, grace: int): seq<bool> {
    if h == [] then [] else
    var init, e := h[..|h| - 1], h[|h| - 1];
    Verdicts(init, grace) + (if e.Eval? then [Verdict(init, grace, e.at)] else [])
  }

  function Last(vs: seq<bool>): bool { vs != [] && vs[|vs| - 1] }

  /** How often the verdict went from false to true. */
  function Rises(vs: seq<bool>): nat {
    if vs == [] then 0 else
    var init := vs[..|vs| - 1];
    Rises(init) + (if vs[|vs| - 1] && !Last(init) then 1 else 0)
  }

  lemma RiseAppend(vs: seq<bool>, v: bool)
    ensures Rises(vs + [v]) == Rises(vs) + (if v && !Last(vs) then 1 else 0) && Last(vs + [v]) == v
  {
    assert (vs + [v])[..|vs|] == vs;
  }

  function LastJob(h: History): int {
    if h == [] then ZERO
    else if IsStart(h[|h| - 1]) || IsEnd(h[|h| - 1]) then h[|h| - 1].at
    else LastJob(h[..|h| - 1])
  }

  function LastLine(h: History): int {
    if h == [] then ZERO else if h[|h| - 1].Line? then h[|h| - 1].at else LastLine(h[..|h| - 1])
  }

  /** It is the last line's moment, and ZERO before any. */
  lemma {:induction false} LastLineIs(h: History, i: nat)
    requires i < |h| && h[i].Line? && forall k | i < k < |h| :: !h[k].Line?
    ensures LastLine(h) == h[i].at
  {
    if i < |h| - 1 { LastLineIs(h[..|h| - 1], i); }
  }

  lemma {:induction false} LastJobIs(h: History, i: nat)
    requires i < |h| && (IsStart(h[i]) || IsEnd(h[i])) && forall k | i < k < |h| :: !IsStart(h[k]) && !IsEnd(h[k])
    ensures LastJob(h) == h[i].at
  {
    if i < |h| - 1 { LastJobIs(h[..|h| - 1], i); }
  }

  lemma {:induction false} NothingYet(h: History)
    ensures (forall e | e in h :: !e.Line?) ==> LastLine(h) == ZERO
    ensures (forall e | e in h :: !IsStart(e) && !IsEnd(e)) ==> LastJob(h) == ZERO
  {
    if h != [] {
      NothingYet(h[..|h| - 1]);
      assert h == h[..|h| - 1] + [h[|h| - 1]];
    }
  }

  /** How long ago: never less than nothing, and since the watchdog's start before any. */
  lemma SinceIs(now: int, t: int, start: int)
    ensures t != ZERO && now >= t ==> Since(now, t, start) == now - t
    ensures t == ZERO && now >= start ==> Since(now, t, start) == now - start
    ensures now < (if t == ZERO then start else t) ==> Since(now, t, start) == 0
  {}

  function Since(now: int, t: int, fallback: int): nat {
    var d := now - (if t == ZERO then fallback else t);
    if d > 0 then d else 0
  }

  // ----------------------------------------------------------------------- the fold

  datatype Snapshot = Snapshot(
    now: int,
    grace: int,
    stuck: bool,
    signature: string,
    armedFor: int,
    jobRunning: bool,
    jobsStarted: nat,
    jobsCompleted: nat,
    detections: nat,
    lines: nat,
    sinceLastLine: int,
    sinceLastJob: int,
    sigCounts: map<string, nat>)

  /** The fields that a line moves. */
  datatype Fold = Fold(
    running: bool,
    started: nat,
    completed: nat,
    lastJob: int,
    at: int,
    name: string,
    stuck: bool,
    detections: nat,
    lines: nat,
    lastLine: int,
    counts: map<string, nat>)

  /** What one line does to them. */
  function Moved(f: Fold, kind: Kind, now: int): Fold {
    var g := f.(lines := f.lines + 1, lastLine := now);
    match kind
    case Started => g.(running := true, started := f.started + 1, lastJob := now, at := ZERO, name := "")
    case Completed => g.(running := false, completed := f.completed + 1, lastJob := now)
    case Other => g
    case Sig(name) =>
      var counted := if name in f.counts then g.(counts := f.counts[name := f.counts[name] + 1]) else g;
      if !f.running && f.at == ZERO then counted.(at := now, name := name) else counted
  }

  /** What a line does to the fields, told from the expressions. Of several signatures that
      match only the first is counted, and it arms if no job runs and none is armed. */
  ghost predicate Told(rules: Rules, l: string, was: Fold, after: Fold, now: int) {
    var starts, ends := rules.started(l), !rules.started(l) && rules.completed(l);
    && after.running == (starts || (was.running && !ends))
    && after.started == was.started + (if starts then 1 else 0)
    && after.completed == was.completed + (if ends then 1 else 0)
    && after.lastJob == (if starts || ends then now else was.lastJob)
    && after.lines == was.lines + 1 && after.lastLine == now
    && after.stuck == was.stuck && after.detections == was.detections && after.counts.Keys == was.counts.Keys
    && (starts ==> after.at == ZERO && after.name == "")
    && (starts || ends || (forall k | 0 <= k < |rules.signatures| :: !rules.signatures[k].matches(l)) ==>
      after.counts == was.counts && (!starts ==> after.at == was.at && after.name == was.name))
    && (forall k: nat | !starts && !ends && MatchesFirst(rules.signatures, l, k) ::
      var name := rules.signatures[k].name;
      && name in was.counts && after.counts == was.counts[name := was.counts[name] + 1]
      && (if !was.running && was.at == ZERO then after.at == now && after.name == name
          else after.at == was.at && after.name == was.name))
  }

  lemma MovedIs(rules: Rules, line: string, l: string, was: Fold, now: int)
    requires Ends(line, l) && (KindOf(rules, line).Sig? ==> KindOf(rules, line).name in was.counts)
    ensures Told(rules, l, was, Moved(was, KindOf(rules, line), now), now)
  {
    hide FirstMatch, TrimReturns, KindOf, MatchesFirst, Ends;
    KindIs(rules, line, l);
    MatchIsOne(rules.signatures, l);
  }

  /** There is one first match at the most. */
  lemma MatchIsOne(signatures: seq<Signature>, l: string)
    ensures forall j: nat, k: nat | MatchesFirst(signatures, l, j) && MatchesFirst(signatures, l, k) :: j == k
    ensures forall k: nat | MatchesFirst(signatures, l, k) :: k < |signatures| && signatures[k].matches(l)
  {}

  ghost predicate FoldOk(h: History, signatures: seq<Signature>, grace: int, f: Fold) {
    && JobsOk(h, f.running, f.started, f.completed, f.lastJob)
    && ArmedOk(h, f.at, f.name)
    && VerdictsOk(h, grace, f.stuck, f.detections)
    && f.lines == Lines(h) && f.lastLine == LastLine(h)
    && CountsOk(h, signatures, f.counts)
  }

  lemma LineMoves(h: History, signatures: seq<Signature>, grace: int, f: Fold, kind: Kind, now: int)
    requires FoldOk(h, signatures, grace, f)
    requires kind.Sig? ==> exists k :: 0 <= k < |signatures| && signatures[k].name == kind.name
    ensures FoldOk(h + [Line(kind, now)], signatures, grace, Moved(f, kind, now))
    ensures kind.Sig? ==> kind.name in f.counts
  {
    hide JobsOk, ArmedOk, VerdictsOk, CountsOk, Lines, LastLine;
    var e := Line(kind, now);
    LineCounted(h, e);
    JobsMove(h, kind, now, f.running, f.started, f.completed, f.lastJob);
    ArmedMoves(h, kind, now, f.at, f.name, f.running, f.started, f.completed, f.lastJob);
    VerdictsStay(h, e, grace, f.stuck, f.detections);
    CountsMove(h, e, signatures, f.counts);
    if kind.Sig? { CountKnown(h, signatures, f.counts, kind.name); }
  }

  class Matcher {
    const rules: Rules
    const grace: int
    const start: int
    var jobRunning: bool
    var jobsStarted: nat
    var jobsCompleted: nat
    var lastJob: int
    var armedAt: int
    var armedSig: string
    var stuck: bool
    var detections: nat
    var lines: nat
    var lastLine: int
    var sigCounts: map<string, nat>
    ghost var seen: History

    ghost predicate Valid()
      reads this
    {
      FoldOk(seen, rules.signatures, grace, Fields())
    }

    ghost function Fields(): Fold
      reads this
    {
      Fold(jobRunning, jobsStarted, jobsCompleted, lastJob, armedAt, armedSig, stuck, detections, lines, lastLine,
        sigCounts)
    }

    constructor (rules: Rules, grace: int, start: int)
      ensures Valid() && seen == [] && this.rules == rules && this.grace == grace && this.start == start
    {
      this.rules, this.grace, this.start := rules, grace, start;
      jobRunning, jobsStarted, jobsCompleted, lastJob := false, 0, 0, ZERO;
      armedAt, armedSig, stuck, detections := ZERO, "", false, 0;
      lines, lastLine, seen := 0, ZERO, [];
      var counts: map<string, nat> := map[];
      var i := 0;
      while i < |rules.signatures|
        invariant 0 <= i <= |rules.signatures|
        invariant forall k | 0 <= k < i :: rules.signatures[k].name in counts
        invariant forall name | name in counts :: counts[name] == 0
      {
        counts := counts[rules.signatures[i].name := 0];
        i := i + 1;
      }
      sigCounts := counts;
    }

    /** The verdict at `now` is the documented one's, each change into it is counted
        once, and the snapshot says what the history is. */
    method Evaluate(now: int) returns (s: Snapshot, changed: bool)
      requires Valid()
      modifies this`stuck, this`detections, this`seen
      ensures Valid() && seen == old(seen) + [Eval(now)]
      ensures s.stuck == stuck == Verdict(old(seen), grace, now) && changed == (stuck != old(stuck))
      ensures s.now == now && s.grace == grace && s.jobRunning == Busy(old(seen)) && s.lines == Lines(old(seen))
      ensures s.jobsStarted == Count(old(seen), Started) && s.jobsCompleted == Count(old(seen), Completed)
      ensures s.detections == Rises(Verdicts(seen, grace)) && s.sigCounts == sigCounts
      ensures s.sinceLastLine == Since(now, LastLine(old(seen)), start)
      ensures s.sinceLastJob == Since(now, LastJob(old(seen)), start)
      ensures s.signature == Shown(old(seen))
      ensures s.armedFor == match Armed(old(seen), false) case None => 0 case Some(i) => now - old(seen)[i].at
    {
      hide Busy, LastJob, Count, LastLine, Lines, Verdicts, Rises, Armed, Shown;
      EvalMoves(seen, now, grace, jobRunning, jobsStarted, jobsCompleted, lastJob, armedAt, armedSig, stuck,
        detections);
      LineCounted(seen, Eval(now));
      CountsMove(seen, Eval(now), rules.signatures, sigCounts);
      var verdict := !jobRunning && armedAt != ZERO && now - armedAt >= grace;
      changed := false;
      if verdict != stuck {
        changed := true;
        if verdict { detections := detections + 1; }
        stuck := verdict;
      }
      s := Snapshot(now, grace, stuck, armedSig, 0, jobRunning, jobsStarted, jobsCompleted, detections, lines,
                    Since(now, lastLine, start), Since(now, lastJob, start), sigCounts);
      if armedAt != ZERO { s := s.(armedFor := now - armedAt); }
      seen := seen + [Eval(now)];
    }

    method Observe(line: string, now: int)
      requires Valid()
      modifies this
      ensures Valid() && seen == old(seen) + [Line(KindOf(rules, line), now)]
      ensures forall l | Ends(line, l) :: Told(rules, l, old(Fields()), Fields(), now)
    {
      hide FoldOk, Moved, Told, KindOf;
      var kind := Kinded(line);
      LineMoves(seen, rules.signatures, grace, Fields(), kind, now);
      forall l | Ends(line, l) ensures Told(rules, l, Fields(), Moved(Fields(), kind, now), now) {
        MovedIs(rules, line, l, Fields(), now);
      }
      Move(kind, now);
      seen := seen + [Line(kind, now)];
    }

    /** The switch over the expressions, and the loop over the signatures. */
    method Kinded(line: string) returns (kind: Kind)
      ensures kind == KindOf(rules, line)
      ensures kind.Sig? ==> exists k :: 0 <= k < |rules.signatures| && rules.signatures[k].name == kind.name
    {
      hide FirstMatch, TrimReturns;
      var l := TrimReturns(line);
      if rules.started(l) { return Started; }
      if rules.completed(l) { return Completed; }
      var name := FirstSignature(rules.signatures, l);
      Named(rules.signatures, l);
      return match name case None => Other case Some(n) => Sig(n);
    }

    /** What a line of one kind does to the fields. */
    method Move(kind: Kind, now: int)
      requires kind.Sig? ==> kind.name in sigCounts
      modifies this
      ensures Fields() == Moved(old(Fields()), kind, now) && seen == old(seen)
    {
      lines := lines + 1;
      lastLine := now;
      match kind
      case Started =>
        jobRunning := true;
        jobsStarted := jobsStarted + 1;
        lastJob := now;
        armedAt, armedSig := ZERO, "";
      case Completed =>
        jobRunning := false;
        jobsCompleted := jobsCompleted + 1;
        lastJob := now;
      case Sig(name) =>
        sigCounts := sigCounts[name := sigCounts[name] + 1];
        if !jobRunning && armedAt == ZERO {
          armedAt, armedSig := now, name;
        }
      case Other =>
    }
  }

  // ------------------------------------------------ what each line does to the fold

  ghost predicate JobsOk(h: History, running: bool, started: nat, completed: nat, last: int) {
    running == Busy(h) && last == LastJob(h) && started == Count(h, Started) && completed == Count(h, Completed)
  }

  ghost predicate ArmedOk(h: History, at: int, name: string) {
    && name == Shown(h)
    && match Armed(h, false)
       case None => at == ZERO
       case Some(i) => at == h[i].at
  }

  ghost predicate VerdictsOk(h: History, grace: int, stuck: bool, detections: nat) {
    stuck == Last(Verdicts(h, grace)) && detections == Rises(Verdicts(h, grace))
  }

  ghost predicate CountsOk(h: History, signatures: seq<Signature>, counts: map<string, nat>) {
    && (forall k | 0 <= k < |signatures| :: signatures[k].name in counts)
    && (forall name | name in counts :: counts[name] == Count(h, Sig(name)))
  }

  lemma JobsMove(h: History, kind: Kind, now: int, running: bool, started: nat, completed: nat, last: int)
    requires JobsOk(h, running, started, completed, last)
    ensures var h' := h + [Line(kind, now)];
      match kind
      case Started => JobsOk(h', true, started + 1, completed, now)
      case Completed => JobsOk(h', false, started, completed + 1, now)
      case _ => JobsOk(h', running, started, completed, last)
  {
    assert (h + [Line(kind, now)])[..|h|] == h;
  }

  lemma ArmedMoves(h: History, kind: Kind, now: int, at: int, name: string, running: bool, started: nat, completed: nat,
      last: int)
    requires ArmedOk(h, at, name) && JobsOk(h, running, started, completed, last)
    ensures var h' := h + [Line(kind, now)];
      match kind
      case Started => ArmedOk(h', ZERO, "")
      case Sig(s) => if !running && at == ZERO then ArmedOk(h', now, s) else ArmedOk(h', at, name)
      case _ => ArmedOk(h', at, name)
  {
    assert (h + [Line(kind, now)])[..|h|] == h;
  }

  lemma VerdictsStay(h: History, e: Event, grace: int, stuck: bool, detections: nat)
    requires VerdictsOk(h, grace, stuck, detections) && e.Line?
    ensures VerdictsOk(h + [e], grace, stuck, detections)
  {
    assert (h + [e])[..|h|] == h;
    assert Verdicts(h, grace) + [] == Verdicts(h, grace);
  }

  lemma CountsMove(h: History, e: Event, signatures: seq<Signature>, counts: map<string, nat>)
    requires CountsOk(h, signatures, counts)
    ensures !(e.Line? && e.kind.Sig?) ==> CountsOk(h + [e], signatures, counts)
    ensures e.Line? && e.kind.Sig? && e.kind.name in counts ==>
      CountsOk(h + [e], signatures, counts[e.kind.name := counts[e.kind.name] + 1])
  {
    assert (h + [e])[..|h|] == h;
  }

  lemma CountKnown(h: History, signatures: seq<Signature>, counts: map<string, nat>, name: string)
    requires CountsOk(h, signatures, counts) && exists k :: 0 <= k < |signatures| && signatures[k].name == name
    ensures name in counts
  {}

  lemma LineCounted(h: History, e: Event)
    ensures Lines(h + [e]) == Lines(h) + (if e.Line? then 1 else 0)
    ensures LastLine(h + [e]) == if e.Line? then e.at else LastLine(h)
  {
    assert (h + [e])[..|h|] == h;
  }

  /** An evaluation leaves jobs, arms and counts as they are. */
  lemma EvalMoves(h: History, now: int, grace: int, running: bool, started: nat, completed: nat, last: int, at: int,
      name: string, stuck: bool, detections: nat)
    requires JobsOk(h, running, started, completed, last) && ArmedOk(h, at, name)
    requires VerdictsOk(h, grace, stuck, detections)
    ensures var h', v := h + [Eval(now)], !running && at != ZERO && now - at >= grace;
      && v == Verdict(h, grace, now)
      && JobsOk(h', running, started, completed, last) && ArmedOk(h', at, name)
      && VerdictsOk(h', grace, v, detections + (if v && !stuck then 1 else 0))
  {
    assert (h + [Eval(now)])[..|h|] == h;
    RiseAppend(Verdicts(h, grace), Verdict(h, grace, now));
  }

  lemma {:induction false} Named(signatures: seq<Signature>, line: string)
    ensures FirstMatch(signatures, line).Some? ==>
      exists k :: 0 <= k < |signatures| && signatures[k].name == FirstMatch(signatures, line).value
  {
    if signatures != [] && !signatures[0].matches(line) && FirstMatch(signatures, line).Some? {
      Named(signatures[1..], line);
      var k :| 0 <= k < |signatures[1..]| && signatures[1..][k].name == FirstMatch(signatures, line).value;
      assert signatures[k + 1].name == FirstMatch(signatures, line).value;
    }
  }

  /** The loop over the signatures. */
  method FirstSignature(signatures: seq<Signature>, line: string) returns (name: Option<string>)
    ensures name == FirstMatch(signatures, line)
  {
    hide FirstMatch;
    var i := 0;
    assert signatures[0..] == signatures;
    while i < |signatures|
      invariant 0 <= i <= |signatures|
      invariant FirstMatch(signatures, line) == FirstMatch(signatures[i..], line)
    {
      FirstMatchStep(signatures, i, line);
      if signatures[i].matches(line) { return Some(signatures[i].name); }
      i := i + 1;
    }
    assert signatures[i..] == [];
    FirstMatchNone(line);
    return None;
  }

  lemma FirstMatchStep(signatures: seq<Signature>, i: nat, line: string)
    requires i < |signatures|
    ensures FirstMatch(signatures[i..], line) ==
      if signatures[i].matches(line) then Some(signatures[i].name) else FirstMatch(signatures[i + 1..], line)
  {
    assert signatures[i..][1..] == signatures[i + 1..];
  }

  lemma FirstMatchNone(line: string)
    ensures FirstMatch([], line) == None
  {}
}
