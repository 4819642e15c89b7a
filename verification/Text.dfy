/** String functions that several front-ends use. */
module Text {
  import opened Common

  predicate IsAlnum(c: char) { 'a' <= c <= 'z' || 'A' <= c <= 'Z' || '0' <= c <= '9' }

  const LOWER: string := "abcdefghijklmnopqrstuvwxyz"
  const UPPER: string := "ABCDEFGHIJKLMNOPQRSTUVWXYZ"
  const DIGITS: string := "0123456789"

  lemma LowerIs(c: char)
    ensures 'a' <= c <= 'z' <==> c in LOWER
  {
    if 'a' <= c <= 'z' { assert LOWER[c as int - 'a' as int] == c; }
  }

  lemma UpperIs(c: char)
    ensures 'A' <= c <= 'Z' <==> c in UPPER
  {
    if 'A' <= c <= 'Z' { assert UPPER[c as int - 'A' as int] == c; }
  }

  lemma DigitIs(c: char)
    ensures '0' <= c <= '9' <==> c in DIGITS
  {
    if '0' <= c <= '9' { assert DIGITS[c as int - '0' as int] == c; }
  }

  lemma AlnumIs(c: char)
    ensures IsAlnum(c) <==> c in LOWER || c in UPPER || c in DIGITS
  {
    LowerIs(c);
    UpperIs(c);
    DigitIs(c);
  }

  predicate AllIn(s: string, extra: string) { forall i | 0 <= i < |s| :: IsAlnum(s[i]) || s[i] in extra }

  /** unicode.IsSpace. */
  predicate IsSpace(c: char) {
    || '\t' <= c <= '\r' || c == ' ' || c == '\U{0085}' || c == '\U{00A0}' || c == '\U{1680}'
    || '\U{2000}' <= c <= '\U{200A}' || c in ['\U{2028}', '\U{2029}', '\U{202F}', '\U{205F}', '\U{3000}']
  }

  function TrimSlash(s: string): string { if s != "" && s[|s| - 1] == '/' then s[..|s| - 1] else s }

  function TrimLeft(s: string): string { if s != "" && IsSpace(s[0]) then TrimLeft(s[1..]) else s }

  function TrimRight(s: string): string { if s != "" && IsSpace(s[|s| - 1]) then TrimRight(s[..|s| - 1]) else s }

  function TrimSpace(s: string): string { TrimRight(TrimLeft(s)) }

  predicate Blank(s: string) { forall i | 0 <= i < |s| :: IsSpace(s[i]) }

  predicate Bare(s: string) { s != "" ==> !IsSpace(s[0]) && !IsSpace(s[|s| - 1]) }

  lemma {:induction false} LeftIsTrimmed(a: string, t: string)
    requires Blank(a) && (t != "" ==> !IsSpace(t[0]))
    ensures TrimLeft(a + t) == t
  {
    hide IsSpace;
    if a == "" { assert a + t == t; } else {
      LeftIsTrimmed(a[1..], t);
      assert (a + t)[1..] == a[1..] + t;
    }
  }

  lemma {:induction false} RightIsTrimmed(t: string, b: string)
    requires Blank(b) && (t != "" ==> !IsSpace(t[|t| - 1]))
    ensures TrimRight(t + b) == t
  {
    hide IsSpace;
    if b == "" { assert t + b == t; } else {
      RightIsTrimmed(t, b[..|b| - 1]);
      assert (t + b)[..|t + b| - 1] == t + b[..|b| - 1];
    }
  }

  lemma {:induction false} LeftTrim(s: string) returns (a: string)
    ensures Blank(a) && s == a + TrimLeft(s) && (TrimLeft(s) != "" ==> !IsSpace(TrimLeft(s)[0]))
  {
    hide IsSpace;
    if s != "" && IsSpace(s[0]) {
      a := LeftTrim(s[1..]);
      a := [s[0]] + a;
    } else {
      a := "";
    }
  }

  lemma {:induction false} RightTrim(s: string) returns (b: string)
    ensures Blank(b) && s == TrimRight(s) + b && (TrimRight(s) != "" ==> !IsSpace(TrimRight(s)[|TrimRight(s)| - 1]))
  {
    hide IsSpace;
    if s != "" && IsSpace(s[|s| - 1]) {
      b := RightTrim(s[..|s| - 1]);
      b := b + [s[|s| - 1]];
    } else {
      b := "";
    }
  }

  /** All the spaces on both sides go, and nothing else. */
  lemma SpacesAreTrimmed(a: string, t: string, b: string)
    requires Blank(a) && Bare(t) && Blank(b)
    ensures TrimSpace(a + t + b) == t
  {
    hide IsSpace;
    assert a + t + b == a + (t + b);
    if t == "" {
      LeftIsTrimmed(a + t + b, "");
      assert a + t + b + "" == a + t + b;
    } else {
      LeftIsTrimmed(a, t + b);
      RightIsTrimmed(t, b);
    }
  }

  lemma TrimmedFrom(s: string) returns (a: string, b: string)
    ensures Blank(a) && Blank(b) && Bare(TrimSpace(s)) && s == a + TrimSpace(s) + b
  {
    hide IsSpace;
    a := LeftTrim(s);
    b := RightTrim(TrimLeft(s));
    assert TrimSpace(s) != "" ==> TrimLeft(s)[0] == TrimSpace(s)[0];
  }

  /** strings.Split(s, string(c)). */
  function Split(s: string, c: char): (parts: seq<string>)
    ensures parts != []
  {
    if s == "" then [""]
    else if s[|s| - 1] == c then Split(s[..|s| - 1], c) + [""]
    else var parts := Split(s[..|s| - 1], c); parts[|parts| - 1 := parts[|parts| - 1] + [s[|s| - 1]]]
  }

  function Join(parts: seq<string>, c: char): string {
    if parts == [] then "" else if |parts| == 1 then parts[0]
      else Join(parts[..|parts| - 1], c) + [c] + parts[|parts| - 1]
  }

  lemma {:induction false} SplitJoins(s: string, c: char)
    ensures Join(Split(s, c), c) == s
    ensures forall i | 0 <= i < |Split(s, c)| :: c !in Split(s, c)[i]
  {
    if s != "" {
      var init, parts := s[..|s| - 1], Split(s[..|s| - 1], c);
      SplitJoins(init, c);
      if s[|s| - 1] == c {
        assert (parts + [""])[..|parts|] == parts;
        assert Split(s, c) == parts + [""] && Join(parts + [""], c) == Join(parts, c) + [c] + "";
      } else {
        var last := parts[|parts| - 1] + [s[|s| - 1]];
        assert parts[|parts| - 1 := last][..|parts| - 1] == parts[..|parts| - 1];
      }
    }
  }

  /** Text without the separator belongs to the last part. */
  lemma {:induction false} SplitPlain(s: string, t: string, c: char)
    requires c !in t
    ensures var parts := Split(s, c); Split(s + t, c) == parts[|parts| - 1 := parts[|parts| - 1] + t]
  {
    var parts := Split(s, c);
    if t == "" {
      assert s + t == s && parts[|parts| - 1] + t == parts[|parts| - 1];
    } else {
      var init := t[..|t| - 1];
      SplitPlain(s, init, c);
      assert (s + t)[..|s + t| - 1] == s + init;
      assert parts[|parts| - 1] + t == parts[|parts| - 1] + init + [t[|t| - 1]];
    }
  }

  lemma SplitAppend(s: string, last: string, c: char)
    requires c !in last
    ensures Split(s + [c] + last, c) == Split(s, c) + [last]
  {
    assert (s + [c])[..|s|] == s;
    SplitPlain(s + [c], last, c);
    assert "" + last == last;
  }

  lemma {:induction false} JoinSplits(parts: seq<string>, c: char)
    requires parts != [] && forall i | 0 <= i < |parts| :: c !in parts[i]
    ensures Split(Join(parts, c), c) == parts
  {
    hide Split;
    if |parts| == 1 {
      SplitOne(parts[0], c);
    } else {
      var init, last := parts[..|parts| - 1], parts[|parts| - 1];
      JoinSplits(init, c);
      SplitAppend(Join(init, c), last, c);
    }
  }

  lemma SplitOne(s: string, c: char)
    requires c !in s
    ensures Split(s, c) == [s]
  {
    SplitPlain("", s, c);
    assert "" + s == s;
  }

  /** A separator that is not in the first parts tells where they end. */
  lemma CutsAgree(a: string, b: string, x: string, y: string, c: char)
    requires a + [c] + x == b + [c] + y && c !in a && c !in b
    ensures a == b && x == y
  {
    hide IndexOf;
    var s := a + [c] + x;
    IndexOfHere(a, c, x);
    IndexOfHere(b, c, y);
    assert s[..|a|] == a && s[..|b|] == b;
    assert s[|a| + 1..] == x && s[|b| + 1..] == y;
  }

  /** The last place of c in s, or -1. */
  function LastIndex(s: string, c: char): (i: int)
    ensures -1 <= i < |s| && (i >= 0 ==> s[i] == c)
  {
    if s == "" then -1 else if s[|s| - 1] == c then |s| - 1 else LastIndex(s[..|s| - 1], c)
  }

  lemma {:induction false} LastIndexHere(a: string, c: char, x: string)
    requires c !in x
    ensures LastIndex(a + [c] + x, c) == |a|
    decreases |x|
  {
    var s := a + [c] + x;
    if x != "" {
      assert s[..|s| - 1] == a + [c] + x[..|x| - 1];
      LastIndexHere(a, c, x[..|x| - 1]);
    }
  }

  lemma {:induction false} NoLastIndex(s: string, c: char)
    requires c !in s
    ensures LastIndex(s, c) == -1
  {
    if s != "" { NoLastIndex(s[..|s| - 1], c); }
  }

  /** Nor does one that is not in the last parts. */
  lemma LastCutsAgree(a: string, b: string, x: string, y: string, c: char)
    requires a + [c] + x == b + [c] + y && c !in x && c !in y
    ensures a == b && x == y
  {
    hide LastIndex;
    var s := a + [c] + x;
    LastIndexHere(a, c, x);
    LastIndexHere(b, c, y);
    assert s[..|a|] == a && s[..|b|] == b;
    assert s[|a| + 1..] == x && s[|b| + 1..] == y;
  }

  lemma {:induction false} SplitConcat(s: string, x: string, c: char)
    ensures Split(s + [c] + x, c) == Split(s, c) + Split(x, c)
    decreases |x|
  {
    var whole := s + [c] + x;
    if x == "" {
      assert whole[..|whole| - 1] == s;
    } else {
      SplitConcat(s, x[..|x| - 1], c);
      assert whole[..|whole| - 1] == s + [c] + x[..|x| - 1];
    }
  }

  lemma {:induction false} JoinConcat(a: seq<string>, b: seq<string>, c: char)
    requires a != [] && b != []
    ensures Join(a + b, c) == Join(a, c) + [c] + Join(b, c)
    decreases |b|
  {
    assert (a + b)[..|a + b| - 1] == a + b[..|b| - 1];
    if |b| == 1 {
      assert a + b[..0] == a;
    } else {
      JoinConcat(a, b[..|b| - 1], c);
    }
  }
}
