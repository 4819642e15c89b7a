/** How Nix prints a hash in base 32, and the check that a string is such a print. */
module Nix32 {
  import opened Common

  const ALPHABET: string := "0123456789abcdfghijklmnpqrsvwxyz"

  function Letter(d: nat): char
    requires d < 32
  {
    ALPHABET[d]
  }

  predicate IsLetter(c: char) { c in ALPHABET }

  // -------------------------------------------------- integers as Go shifts them

  /** v >> n. */
  function Shr(v: nat, n: nat): nat { if n == 0 then v else Shr(v / 2, n - 1) }

  /** v << n. */
  function Shl(v: nat, n: nat): nat
    decreases n
  {
    if n == 0 then v else Shl(2 * v, n - 1)
  }

  /** a | b. */
  function Or(a: nat, b: nat): nat {
    if a == 0 && b == 0 then 0 else 2 * Or(a / 2, b / 2) + (if a % 2 == 1 || b % 2 == 1 then 1 else 0)
  }

  /** a & b. */
  function And(a: nat, b: nat): nat {
    if a == 0 && b == 0 then 0 else 2 * And(a / 2, b / 2) + (if a % 2 == 1 && b % 2 == 1 then 1 else 0)
  }

  lemma {:induction false} ShrAdd(v: nat, m: nat, n: nat)
    ensures Shr(v, m + n) == Shr(Shr(v, m), n)
    decreases m
  {
    if m > 0 { ShrAdd(v / 2, m - 1, n); }
  }

  lemma {:induction false} OrZero(a: nat)
    ensures Or(a, 0) == a
  {
    if a > 0 { OrZero(a / 2); }
  }

  lemma {:induction false} AndZero(a: nat)
    ensures And(a, 0) == 0
  {
    if a > 0 { AndZero(a / 2); }
  }

  /** Bits that do not meet add up. */
  lemma {:induction false} OrOfDisjoint(a: nat, b: nat, k: nat)
    requires Shr(a, k) == 0
    ensures Or(a, Shl(b, k)) == a + Shl(b, k)
    decreases k
  {
    if k == 0 {
      ZeroOr(b);
    } else {
      ShlDouble(b, k - 1);
      OrOfDisjoint(a / 2, b, k - 1);
    }
  }

  lemma {:induction false} ZeroOr(b: nat)
    ensures Or(0, b) == b
  {
    if b > 0 { ZeroOr(b / 2); }
  }

  lemma {:induction false} ShlDouble(v: nat, n: nat)
    ensures Shl(2 * v, n) == 2 * Shl(v, n)
    decreases n
  {
    if n > 0 { ShlDouble(2 * v, n - 1); }
  }

  /** n ones. */
  function Ones(n: nat): nat { if n == 0 then 0 else 2 * Ones(n - 1) + 1 }

  function LowBits(c: nat, n: nat): nat { if n == 0 then 0 else 2 * LowBits(c / 2, n - 1) + c % 2 }

  lemma {:induction false} AndOnes(c: nat, n: nat)
    ensures And(c, Ones(n)) == LowBits(c, n)
    decreases n
  {
    if n == 0 { AndZero(c); } else { AndOnes(c / 2, n - 1); }
  }

  function Two(n: nat): (p: nat)
    ensures p > 0
  {
    if n == 0 then 1 else 2 * Two(n - 1)
  }

  lemma Grows(a: int, d: nat)
    ensures a >= 1 ==> a * d >= d
    ensures a <= -1 ==> a * d + d <= 0
  {}

  lemma Remainder(x: nat, q: nat, d: nat, r: nat)
    requires x == q * d + r && r < d
    ensures x % d == r
  {
    Grows(q - x / d, d);
    assert (q - x / d) * d == q * d - x / d * d;
  }

  lemma ModDouble(x: nat, m: nat)
    requires m > 0
    ensures x % (2 * m) == 2 * (x / 2 % m) + x % 2
  {
    var q, r := x / 2 / m, x / 2 % m;
    assert x / 2 == q * m + r;
    assert x == q * (2 * m) + (2 * r + x % 2);
    Remainder(x, q, 2 * m, 2 * r + x % 2);
  }

  lemma {:induction false} LowBitsMod(c: nat, n: nat)
    ensures LowBits(c, n) == c % Two(n)
    decreases n
  {
    if n > 0 {
      LowBitsMod(c / 2, n - 1);
      ModDouble(c, Two(n - 1));
    }
  }

  lemma LowFiveBits(c: nat)
    ensures And(c, 0x1f) == c % 32
  {
    hide And, LowBits;
    assert Ones(2) == 3 && Ones(4) == 15;
    assert Two(2) == 4 && Two(4) == 16;
    AndOnes(c, 5);
    LowBitsMod(c, 5);
  }

  // ------------------------------------------------- what the bytes and digits are

  /** The little-endian integer of b. */
  function Value(b: seq<byte>): nat { if b == [] then 0 else b[0] + 256 * Value(b[1..]) }

  function ToBytes(v: nat, n: nat): seq<byte> { if n == 0 then [] else [v % 256] + ToBytes(v / 256, n - 1) }

  /** Five bits of v from bit `5 * i`. */
  function Digit(v: nat, i: nat): (d: nat)
    ensures d < 32
  {
    Shr(v, 5 * i) % 32
  }

  /** The fewest digits of five bits that hold as many bytes. */
  function DigitsFor(bytes: nat): (n: nat)
    ensures 5 * n - 5 < 8 * bytes <= 5 * n
  {
    (bytes * 8 + 4) / 5
  }

  lemma LowByte(low: nat, high: nat)
    requires low < 256
    ensures (low + 256 * high) % 256 == low && (low + 256 * high) / 256 == high
  {}

  lemma {:induction false} ValueRoundTrip(b: seq<byte>)
    ensures ToBytes(Value(b), |b|) == b
  {
    if b != [] {
      ValueRoundTrip(b[1..]);
      LowByte(b[0], Value(b[1..]));
    }
  }

  lemma ShrNibble(v: nat)
    ensures Shr(v, 4) == v / 16
  {
    ShrAdd(v, 1, 1);
    ShrAdd(v, 2, 1);
    ShrAdd(v, 3, 1);
    assert Shr(v, 1) == v / 2;
    assert Shr(v / 2, 1) == v / 4;
    assert Shr(v / 4, 1) == v / 8;
    assert Shr(v / 8, 1) == v / 16;
  }

  lemma ShrByte(v: nat)
    ensures Shr(v, 8) == v / 256
  {
    hide Shr;
    ShrAdd(v, 4, 4);
    ShrNibble(v);
    ShrNibble(v / 16);
  }

  lemma ShrNone(v: nat)
    ensures Shr(v, 0) == v
  {}

  lemma {:induction false} ShrBytes(b: seq<byte>, j: nat)
    requires j <= |b|
    ensures Shr(Value(b), 8 * j) == Value(b[j..])
  {
    hide Shr;
    if j == 0 {
      ShrNone(Value(b));
      assert b[0..] == b;
    } else {
      ShrByte(Value(b));
      ShrAdd(Value(b), 8, 8 * (j - 1));
      ShrBytes(b[1..], j - 1);
      assert b[1..][j - 1..] == b[j..];
    }
  }

  /** The bits that the loop body puts together for digit i. */
  function Window(b: seq<byte>, bit: nat): nat
    requires bit < 8 * |b|
  {
    var j, k := bit / 8, bit % 8;
    var c := Shr(b[j], k);
    if j + 1 < |b| then Or(c, Shl(b[j + 1], 8 - k)) else c
  }

  /** Shifting out low bits below a multiple of 2^n. */
  lemma {:induction false} ShrSum(x: nat, y: nat, k: nat, n: nat)
    requires k <= n
    ensures Shr(x + Shl(y, n), k) == Shr(x, k) + Shl(y, n - k)
    decreases k
  {
    if k > 0 {
      ShlDouble(y, n - 1);
      ShrSum(x / 2, y, k - 1, n - 1);
      assert (x + Shl(y, n)) / 2 == x / 2 + Shl(y, n - 1);
    }
  }

  lemma {:induction false} ShlSum(x: nat, y: nat, n: nat)
    ensures Shl(x + y, n) == Shl(x, n) + Shl(y, n)
    decreases n
  {
    if n > 0 { ShlSum(2 * x, 2 * y, n - 1); }
  }

  lemma {:induction false} ShlMultiple(v: nat, n: nat)
    requires v % 32 == 0
    ensures Shl(v, n) % 32 == 0
    decreases n
  {
    if n > 0 { ShlMultiple(2 * v, n - 1); }
  }

  lemma ShlByte(v: nat)
    ensures Shl(v, 8) == 256 * v
  {
    assert Shl(v, 2) == 4 * v && Shl(v, 1) == 2 * v;
    ShlDouble(v, 2);
    ShlDouble(v, 3);
    ShlDouble(v, 4);
    ShlDouble(v, 5);
    ShlDouble(v, 6);
    ShlDouble(v, 7);
  }

  lemma DigitBits(b: seq<byte>, i: nat, j: nat, k: nat)
    requires 5 * i == 8 * j + k && k < 8 && j < |b|
    ensures Digit(Value(b), i) == (Shr(b[j], k) + Shl(Value(b[j + 1..]), 8 - k)) % 32
  {
    hide Shr, Shl;
    ShrAdd(Value(b), 8 * j, k);
    ShrBytes(b, j);
    assert b[j..][1..] == b[j + 1..];
    ShlByte(Value(b[j + 1..]));
    ShrSum(b[j], Value(b[j + 1..]), k, 8);
  }

  /** Of the bytes above, only the next one reaches into the digit. */
  lemma OnlyNextByte(rest: seq<byte>, k: nat)
    requires k < 8
    ensures Shl(Value(rest), 8 - k) % 32 == (if rest == [] then 0 else Shl(rest[0], 8 - k)) % 32
  {
    hide Shl;
    if rest == [] {
      ShlNothing(8 - k);
    } else {
      ShlSum(rest[0], 256 * Value(rest[1..]), 8 - k);
      ShlMultiple(256 * Value(rest[1..]), 8 - k);
    }
  }

  lemma WindowSum(b: seq<byte>, bit: nat)
    requires bit < 8 * |b|
    ensures var j, k := bit / 8, bit % 8;
      Window(b, bit) == Shr(b[j], k) + (if j + 1 < |b| then Shl(b[j + 1], 8 - k) else 0)
  {
    hide Shr, Shl, Or;
    var j, k := bit / 8, bit % 8;
    if j + 1 < |b| {
      ShrAdd(b[j], k, 8 - k);
      ShrByte(b[j]);
      OrOfDisjoint(Shr(b[j], k), b[j + 1], 8 - k);
    }
  }

  /** The loop body reads digit i of the integer. */
  lemma WindowIsDigit(b: seq<byte>, i: nat)
    requires 5 * i < 8 * |b|
    ensures And(Window(b, 5 * i), 0x1f) == Digit(Value(b), i)
  {
    hide Shr, Shl, Or, And, Window, Digit, Value;
    var j, k := 5 * i / 8, 5 * i % 8;
    DigitBits(b, i, j, k);
    OnlyNextByte(b[j + 1..], k);
    WindowSum(b, 5 * i);
    LowFiveBits(Window(b, 5 * i));
    SumMod(Shr(b[j], k), Shl(Value(b[j + 1..]), 8 - k), if j + 1 < |b| then Shl(b[j + 1], 8 - k) else 0);
  }

  lemma SumMod(a: nat, x: nat, y: nat)
    requires x % 32 == y % 32
    ensures (a + x) % 32 == (a + y) % 32
  {}

  lemma {:induction false} ShlNothing(n: nat)
    ensures Shl(0, n) == 0
    decreases n
  {
    if n > 0 { ShlNothing(n - 1); }
  }

  // ------------------------------------------------------------------ the encoder

  /** Digits n - 1 down to 0 of v, as characters. */
  function Print(v: nat, n: nat): (s: string)
    ensures |s| == n
  {
    if n == 0 then "" else [Letter(Digit(v, n - 1))] + Print(v, n - 1)
  }

  method Nix32(b: seq<byte>) returns (out: string)
    ensures |out| == DigitsFor(|b|) && out == Print(Value(b), DigitsFor(|b|))
  {
    hide Digit, Window, And, Value;
    var n := (|b| * 8 + 4) / 5;
    out := "";
    var i := n - 1;
    while i >= 0
      invariant -1 <= i < n
      invariant Print(Value(b), n) == out + Print(Value(b), i + 1)
      decreases i
    {
      var bit := i * 5;
      var j, k := bit / 8, bit % 8;
      var c := Shr(b[j], k);
      if j + 1 < |b| {
        c := Or(c, Shl(b[j + 1], 8 - k));
      }
      WindowIs(b, bit, c);
      WindowIsDigit(b, i);
      out := out + [ALPHABET[And(c, 0x1f)]];
      i := i - 1;
    }
  }

  lemma WindowIs(b: seq<byte>, bit: nat, c: nat)
    requires bit < 8 * |b|
    requires var j, k := bit / 8, bit % 8;
      c == if j + 1 < |b| then Or(Shr(b[j], k), Shl(b[j + 1], 8 - k)) else Shr(b[j], k)
    ensures c == Window(b, bit)
  {}

  // ------------------------------------------------------------------ the decoder

  function Index(c: char): (i: int)
    ensures c in ALPHABET ==> 0 <= i < 32 && ALPHABET[i] == c
  {
    IndexFrom(c, 0)
  }

  function IndexFrom(c: char, from: nat): (i: int)
    requires from <= 32
    ensures (exists k :: from <= k < 32 && ALPHABET[k] == c) ==> from <= i < 32 && ALPHABET[i] == c
    decreases 32 - from
  {
    if from == 32 then -1 else if ALPHABET[from] == c then from else IndexFrom(c, from + 1)
  }

  /** Reads the most significant digit first. */
  function Parse(s: string): int {
    if s == "" then 0 else 32 * Parse(s[..|s| - 1]) + Index(s[|s| - 1])
  }

  predicate Printable(s: string) { forall i | 0 <= i < |s| :: IsLetter(s[i]) }

  function Encoded(b: seq<byte>): string { Print(Value(b), DigitsFor(|b|)) }

  lemma ShrFive(v: nat)
    ensures Shr(v, 5) == v / 32
  {
    ShrAdd(v, 4, 1);
    ShrNibble(v);
    assert Shr(v / 16, 1) == v / 32;
  }

  lemma DigitShift(v: nat, i: nat)
    ensures Digit(v, i + 1) == Digit(v / 32, i) && Digit(v, 0) == v % 32
  {
    ShrAdd(v, 5, 5 * i);
    ShrFive(v);
  }

  /** The last character is the lowest digit. */
  lemma {:induction false} PrintLast(v: nat, n: nat)
    requires n > 0
    ensures Print(v, n) == Print(v / 32, n - 1) + [Letter(v % 32)]
  {
    hide Digit, Letter;
    DigitShift(v, 0);
    if n > 1 {
      PrintLast(v, n - 1);
      DigitShift(v, n - 2);
    }
  }

  lemma LetterIndex(c: char)
    requires IsLetter(c)
    ensures 0 <= Index(c) < 32 && Letter(Index(c)) == c
  {}

  lemma IndexOfAlphabet(d: nat)
    requires d < 32
    ensures Index(Letter(d)) == d
  {
    forall i, j | 0 <= i < j < 32 ensures ALPHABET[i] != ALPHABET[j] { Ascending(i, j); }
  }

  lemma Ascending(i: nat, j: nat)
    requires i < j < 32
    ensures ALPHABET[i] < ALPHABET[j]
    decreases j
  {
    assert forall k: nat | k < 31 :: ALPHABET[k] < ALPHABET[k + 1];
    if i < j - 1 { Ascending(i, j - 1); }
  }

  /** Reading back gives the integer, when its digits are all there. */
  lemma {:induction false} PrintReads(v: nat, n: nat)
    requires Shr(v, 5 * n) == 0
    ensures Parse(Print(v, n)) == v && Printable(Print(v, n))
    decreases n
  {
    hide Index, Letter, IsLetter, IsNix32Char;
    if n > 0 {
      PrintLast(v, n);
      ShrAdd(v, 5, 5 * (n - 1));
      ShrFive(v);
      PrintReads(v / 32, n - 1);
      IndexOfAlphabet(v % 32);
      LetterAt(v % 32);
      assert (Print(v / 32, n - 1) + [Letter(v % 32)])[..n - 1] == Print(v / 32, n - 1);
    }
  }

  lemma {:induction false} ShrOfNothing(n: nat)
    ensures Shr(0, n) == 0
  {
    if n > 0 { ShrOfNothing(n - 1); }
  }

  lemma EnoughDigits(b: seq<byte>)
    ensures Shr(Value(b), 5 * DigitsFor(|b|)) == 0
  {
    hide Shr, Value;
    ShrBytes(b, |b|);
    NoBytes();
    ShrAdd(Value(b), 8 * |b|, 5 * DigitsFor(|b|) - 8 * |b|);
    ShrOfNothing(5 * DigitsFor(|b|) - 8 * |b|);
  }

  lemma NoBytes()
    ensures Value([]) == 0
  {}

  /** The print of b is the base-32 number that b is, most significant digit first,
      and decoding it gives b back. */
  lemma DecodesBack(b: seq<byte>)
    ensures Printable(Encoded(b)) && Parse(Encoded(b)) == Value(b)
    ensures ToBytes(Parse(Encoded(b)), |b|) == b
  {
    hide Shr, Print, ToBytes, Value;
    EnoughDigits(b);
    PrintReads(Value(b), DigitsFor(|b|));
    ValueRoundTrip(b);
  }

  lemma ParseLast(s: string)
    requires s != ""
    ensures Parse(s) == 32 * Parse(s[..|s| - 1]) + Index(s[|s| - 1])
  {}

  lemma OneMoreDigit(v: nat, d: nat, s: string)
    requires d < 32 && Print(v, |s|) == s
    ensures Print(32 * v + d, |s| + 1) == s + [Letter(d)]
  {
    hide Print, Letter;
    PrintLast(32 * v + d, |s| + 1);
    assert (32 * v + d) / 32 == v && (32 * v + d) % 32 == d;
  }

  lemma PrintNothing()
    ensures Parse("") == 0 && Print(0, 0) == ""
  {}

  /** Every string of alphabet characters is the print of the number it reads as. */
  lemma {:induction false} PrintsAreUnique(s: string)
    requires Printable(s)
    ensures Parse(s) >= 0 && Print(Parse(s), |s|) == s
    decreases |s|
  {
    hide Index, Digit, Print, Parse, Letter, IsLetter;
    if s == "" {
      PrintNothing();
    } else {
      var init, c := s[..|s| - 1], s[|s| - 1];
      PrintsAreUnique(init);
      LetterIndex(c);
      ParseLast(s);
      OneMoreDigit(Parse(init), Index(c), init);
      assert s == init + [c];
    }
  }

  /** Equal prints of equally long values mean equal values. */
  lemma PrintsTellApart(a: seq<byte>, b: seq<byte>)
    requires |a| == |b| && Encoded(a) == Encoded(b)
    ensures a == b
  {
    DecodesBack(a);
    DecodesBack(b);
  }

  // -------------------------------------------------------------------- the check

  predicate IsNix32Char(c: char) {
    if '0' <= c <= '9' then true
    else if 'a' <= c <= 'z' then c != 'e' && c != 'o' && c != 'u' && c != 't'
    else false
  }

  function Place(c: char): nat
    requires IsNix32Char(c)
  {
    if c <= '9' then c as int - '0' as int
    else if c <= 'd' then c as int - 'a' as int + 10
    else if c <= 'n' then c as int - 'f' as int + 14
    else if c <= 's' then c as int - 'p' as int + 23
    else c as int - 'v' as int + 27
  }

  lemma PlaceOf(c: char)
    requires IsNix32Char(c)
    ensures Place(c) < 32 && Letter(Place(c)) == c && IsLetter(c)
  {}

  lemma LetterAt(k: nat)
    requires k < 32
    ensures IsNix32Char(Letter(k)) && IsLetter(Letter(k))
  {}

  lemma CharsAreTheAlphabet(c: char)
    ensures IsNix32Char(c) <==> IsLetter(c)
  {
    hide IsNix32Char, Place, Index;
    if IsNix32Char(c) { PlaceOf(c); }
    if IsLetter(c) {
      LetterIndex(c);
      LetterAt(Index(c));
    }
  }

  method IsNix32(s: string, n: int) returns (ok: bool)
    ensures ok <==> |s| == n && Printable(s)
  {
    hide IsNix32Char, IsLetter;
    if |s| != n { return false; }
    var i := 0;
    while i < |s|
      invariant 0 <= i <= |s| && Printable(s[..i])
    {
      CharsAreTheAlphabet(s[i]);
      if !IsNix32Char(s[i]) { return false; }
      i := i + 1;
    }
    return true;
  }

  /** A SHA-256 always prints as what isNix32(_, 52) accepts. */
  lemma HashesAreAccepted(b: seq<byte>)
    requires |b| == 32
    ensures |Encoded(b)| == 52 && Printable(Encoded(b))
  {
    DecodesBack(b);
  }
}
