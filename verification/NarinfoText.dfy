/** A narinfo as text: which lines, numbers and spaces say what is read from it. */
module NarinfoText {
  import opened Common
  import opened Text
  import opened NarIndex

  // ------------------------------------------------------------------- numbers

  function Digit(n: nat): char
    requires n < 10
  {
    "0123456789"[n]
  }

  /** How a number is written. */
  function Decimal(n: nat): (s: string)
    ensures s != ""
  {
    if n < 10 then [Digit(n)] else Decimal(n / 10) + [Digit(n % 10)]
  }

  predicate Zeros(s: string) { forall i | 0 <= i < |s| :: s[i] == '0' }

  lemma DigitsSnoc(s: string, c: char)
    ensures Digits(s + [c]) ==
      if Digits(s).Some? && '0' <= c <= '9' then Some(10 * Digits(s).value + (c as int - '0' as int)) else None
  {
    assert (s + [c])[..|s|] == s;
  }

  lemma {:induction false} ZerosAreNothing(zeros: string)
    requires Zeros(zeros)
    ensures Digits(zeros) == Some(0)
  {
    if zeros != "" { ZerosAreNothing(zeros[..|zeros| - 1]); }
  }

  lemma DigitIs(n: nat)
    requires n < 10
    ensures '0' <= Digit(n) <= '9' && Digit(n) as int - '0' as int == n
  {
    assert Digit(n) == ("0123456789")[n];
  }

  lemma {:induction false} DecimalIsRead(zeros: string, n: nat)
    requires Zeros(zeros)
    ensures Digits(zeros + Decimal(n)) == Some(n)
  {
    DigitIs(n % 10);
    if n < 10 {
      ZerosAreNothing(zeros);
      DigitsSnoc(zeros, Digit(n));
    } else {
      DecimalIsRead(zeros, n / 10);
      DigitsSnoc(zeros + Decimal(n / 10), Digit(n % 10));
      assert zeros + Decimal(n) == zeros + Decimal(n / 10) + [Digit(n % 10)];
    }
  }

  lemma DecimalSnoc(n: nat, d: nat)
    requires d < 10
    ensures Decimal(10 * n + d) == if n == 0 then [Digit(d)] else Decimal(n) + [Digit(d)]
  {
    assert (10 * n + d) / 10 == n && (10 * n + d) % 10 == d;
  }

  lemma CharIsDigit(c: char)
    requires '0' <= c <= '9'
    ensures Digit(c as int - '0' as int) == c
  {}

  lemma {:induction false} ReadIsDecimal(s: string) returns (zeros: string)
    requires s != "" && Digits(s).Some?
    ensures Zeros(zeros) && s == zeros + Decimal(Digits(s).value)
  {
    hide Decimal;
    var init, c := s[..|s| - 1], s[|s| - 1];
    CharIsDigit(c);
    assert s == init + [c];
    DecimalSnoc(Digits(init).value, c as int - '0' as int);
    if init == "" {
      zeros := "";
    } else {
      zeros := ReadIsDecimal(init);
      if Digits(init).value == 0 {
        DecimalSnoc(0, 0);
        zeros := zeros + "0";
      } else {
        assert s == zeros + (Decimal(Digits(init).value) + [c]);
      }
    }
  }

  /** Any zeros before it, in decimal. */
  ghost predicate Figures(s: string, n: nat) { exists zeros :: Zeros(zeros) && s == zeros + Decimal(n) }

  /** `s` is this number, written in decimal with a sign or none. */
  ghost predicate Writes(s: string, v: int) {
    if s != "" && s[0] == '-' then v <= 0 && Figures(s[1..], -v)
    else v >= 0 && Figures(if s != "" && s[0] == '+' then s[1..] else s, v)
  }

  lemma FiguresAreRead(s: string, n: nat)
    ensures s != "" && Digits(s) == Some(n) <==> Figures(s, n)
  {
    hide Zeros, Decimal, Digits;
    if Figures(s, n) {
      var zeros :| Zeros(zeros) && s == zeros + Decimal(n);
      DecimalIsRead(zeros, n);
    }
    if s != "" && Digits(s) == Some(n) { var zeros := ReadIsDecimal(s); }
  }

  /** Exactly the decimal numbers of 64 bits are read, as themselves. */
  lemma NumbersAreRead(s: string, v: int)
    ensures ParseInt(s) == Some(v) <==> Writes(s, v) && -INT64_MAX - 1 <= v <= INT64_MAX
  {
    hide Figures, Digits;
    var digits := if s != "" && (s[0] == '-' || s[0] == '+') then s[1..] else s;
    if digits != "" && Digits(digits).Some? { FiguresAreRead(digits, Digits(digits).value); }
    FiguresAreRead(digits, if v < 0 then -v else v);
  }

  // --------------------------------------------------------------------- lines

  /** The line is the key, a colon, and this value with any spaces around it. */
  ghost predicate Says(line: string, key: string, v: string) {
    Bare(v) && exists a, b :: Blank(a) && Blank(b) && line == key + ":" + a + v + b
  }

  /** The last line about the key says this; "" when no line is about it. */
  ghost predicate Gives(lines: seq<string>, key: string, v: string) {
    if forall line | line in lines :: !(key + ":" <= line) then v == ""
    else exists i :: 0 <= i < |lines| && Says(lines[i], key, v) && forall j | i < j < |lines| ::
      !(key + ":" <= lines[j])
  }

  /** strings.Cut cuts at the first colon. */
  lemma CutsAtColon(line: string, key: string)
    requires ':' !in key
    ensures HasKey(line, key) <==> key + ":" <= line
    ensures HasKey(line, key) ==> CutLine(line).value.1 == line[|key| + 1..]
  {
    if key + ":" <= line {
      var rest := line[|key| + 1..];
      assert line == key + [':'] + rest;
      IndexOfHere(key, ':', rest);
    }
  }

  lemma SaidIsTrimmed(line: string, key: string, v: string)
    requires key + ":" <= line
    ensures Says(line, key, v) <==> TrimSpace(line[|key| + 1..]) == v
  {
    hide IsSpace, TrimSpace;
    var rest := line[|key| + 1..];
    assert line == key + ":" + rest;
    if Says(line, key, v) {
      var a, b :| Blank(a) && Blank(b) && line == key + ":" + a + v + b;
      assert rest == a + v + b;
      SpacesAreTrimmed(a, v, b);
    }
    var a, b := TrimmedFrom(rest);
    assert line == key + ":" + a + TrimSpace(rest) + b;
  }

  lemma SaidIsAbout(line: string, key: string, v: string)
    requires Says(line, key, v)
    ensures key + ":" <= line
  {}

  lemma {:induction false} LastLineGives(lines: seq<string>, key: string, v: string)
    requires ':' !in key
    ensures LastValue(lines, key) == v <==> Gives(lines, key, v)
  {
    hide Says, TrimSpace, HasKey, CutLine;
    if lines != [] {
      var init, last := lines[..|lines| - 1], lines[|lines| - 1];
      assert lines == init + [last];
      CutsAtColon(last, key);
      if key + ":" <= last {
        SaidIsTrimmed(last, key, v);
        assert last in lines;
        LastSays(lines, key, v);
      } else {
        LastLineGives(init, key, v);
        OthersGive(init, last, key, v);
      }
    }
  }

  lemma LastSays(lines: seq<string>, key: string, v: string)
    requires lines != [] && key + ":" <= lines[|lines| - 1]
    ensures Gives(lines, key, v) <==> Says(lines[|lines| - 1], key, v)
  {
    hide Says;
    assert lines[|lines| - 1] in lines;
  }

  lemma OthersGive(init: seq<string>, last: string, key: string, v: string)
    requires !(key + ":" <= last)
    ensures Gives(init + [last], key, v) <==> Gives(init, key, v)
  {
    hide Says;
    var lines := init + [last];
    assert forall i | 0 <= i < |init| :: lines[i] == init[i];
    assert forall line | line in init :: line in lines;
    if line :| line in init && key + ":" <= line {
      if Gives(lines, key, v) {
        var i :| 0 <= i < |lines| && Says(lines[i], key, v) && forall j | i < j < |lines| :: !(key + ":" <= lines[j]);
        SaidIsAbout(lines[i], key, v);
        assert Says(init[i], key, v);
      }
    }
  }

  // ------------------------------------------------------------------ the whole

  /** The text names this record: its lines say where the NAR is, its SHA-256 and its
      size in decimal. */
  ghost predicate Names(lines: seq<string>, rec: Record) {
    && Gives(lines, "URL", rec.url) && NarPath(rec.url)
    && Gives(lines, "FileHash", "sha256:" + rec.fileHash) && IsHash(rec.fileHash)
    && 0 <= rec.fileSize <= INT64_MAX
    && exists size :: Writes(size, rec.fileSize) && Gives(lines, "FileSize", size)
  }

  /** A text announces exactly the record that its lines name. */
  lemma AnnouncesWhatIsNamed(lines: seq<string>, rec: Record)
    requires lines != [] && forall i | 0 <= i < |lines| :: '\n' !in lines[i]
    ensures Announces(Join(lines, '\n'), rec) <==> Names(lines, rec)
  {
    hide LastValue, ParseInt, Gives, Writes, NarPath, IsHash, Join, Split;
    JoinSplits(lines, '\n');
    LastLineGives(lines, "URL", rec.url);
    LastLineGives(lines, "FileHash", "sha256:" + rec.fileHash);
    forall v ensures LastValue(lines, "FileSize") == v <==> Gives(lines, "FileSize", v) {
      LastLineGives(lines, "FileSize", v);
    }
    NumbersAreRead(LastValue(lines, "FileSize"), rec.fileSize);
  }

  /** The last line about the key has one space after the colon and then `v`. */
  ghost predicate Written(lines: seq<string>, key: string, v: string) {
    exists i :: 0 <= i < |lines| && lines[i] == key + ": " + v && forall j | i < j < |lines| :: !(key + ":" <= lines[j])
  }

  lemma WrittenIsGiven(lines: seq<string>, key: string, v: string)
    requires Written(lines, key, v) && Bare(v)
    ensures Gives(lines, key, v)
  {
    var i :| 0 <= i < |lines| && lines[i] == key + ": " + v && forall j | i < j < |lines| :: !(key + ":" <= lines[j]);
    assert IsSpace(' ');
    assert Blank(" ") && Blank("") && lines[i] == key + ":" + " " + v + "";
    assert key + ":" <= lines[i] && lines[i] in lines;
  }

  lemma NarPathIsBare(url: string)
    requires NarPath(url)
    ensures Bare(url)
  {
    assert url[|url| - 1] == url[4..][|url| - 5];
  }

  lemma HashIsBare(h: string)
    requires IsHash(h)
    ensures Bare("sha256:" + h)
  {
    assert ("sha256:" + h)[0] == 's' && ("sha256:" + h)[6 + |h|] == h[|h| - 1];
  }

  lemma DecimalIsWritten(n: nat)
    ensures Bare(Decimal(n)) && Writes(Decimal(n), n)
  {
    hide Decimal;
    DecimalIsRead("", n);
    assert "" + Decimal(n) == Decimal(n) && Zeros("");
    AllDigits(Decimal(n));
    var s := Decimal(n);
    assert s[0] != '-' && s[0] != '+' && Figures(s, n);
  }

  lemma {:induction false} AllDigits(s: string)
    requires Digits(s).Some?
    ensures forall i | 0 <= i < |s| :: '0' <= s[i] <= '9'
  {
    if s != "" { AllDigits(s[..|s| - 1]); }
  }

  /** What a narinfo writes about a NAR is announced, and nothing else is, whatever its
      other lines are. */
  lemma RecordComesBack(lines: seq<string>, rec: Record)
    requires forall i | 0 <= i < |lines| :: '\n' !in lines[i]
    requires NarPath(rec.url) && IsHash(rec.fileHash) && 0 <= rec.fileSize <= INT64_MAX
    requires Written(lines, "URL", rec.url) && Written(lines, "FileHash", "sha256:" + rec.fileHash)
    requires Written(lines, "FileSize", Decimal(rec.fileSize))
    ensures forall other :: Announces(Join(lines, '\n'), other) <==> other == rec
  {
    hide Announces, Written, Names, NarPath, IsHash, Decimal, Join;
    SomeLine(lines, "URL", rec.url);
    RecordIsNamed(lines, rec);
    AnnouncesWhatIsNamed(lines, rec);
    NothingElse(Join(lines, '\n'), rec);
  }

  lemma RecordIsNamed(lines: seq<string>, rec: Record)
    requires NarPath(rec.url) && IsHash(rec.fileHash) && 0 <= rec.fileSize <= INT64_MAX
    requires Written(lines, "URL", rec.url) && Written(lines, "FileHash", "sha256:" + rec.fileHash)
    requires Written(lines, "FileSize", Decimal(rec.fileSize))
    ensures Names(lines, rec)
  {
    hide Written, Gives, Writes, NarPath, IsHash, Bare, Decimal;
    NarPathIsBare(rec.url);
    HashIsBare(rec.fileHash);
    DecimalIsWritten(rec.fileSize);
    WrittenIsGiven(lines, "URL", rec.url);
    WrittenIsGiven(lines, "FileHash", "sha256:" + rec.fileHash);
    WrittenIsGiven(lines, "FileSize", Decimal(rec.fileSize));
  }

  lemma SomeLine(lines: seq<string>, key: string, v: string)
    requires Written(lines, key, v)
    ensures lines != []
  {}
}
