/** What the other modules share: options, bytes, and sequences as sets and sums. */
module Common {

  datatype Option<+T> = None | Some(value: T)

  type byte = b: int | 0 <= b < 256

  function Min(a: int, b: int): int { if a <= b then a else b }

  /** The concatenation of `parts`, in order. */
  function Concat<T>(parts: seq<seq<T>>): seq<T> {
    if parts == [] then [] else Concat(parts[..|parts| - 1]) + parts[|parts| - 1]
  }

  lemma ConcatAppend<T>(parts: seq<seq<T>>, last: seq<T>)
    ensures Concat(parts + [last]) == Concat(parts) + last
  {
    assert (parts + [last])[..|parts|] == parts;
  }

  /** The sum of `f` over `s`. */
  function Sum<T>(s: seq<T>, f: T -> nat): (n: nat) {
    if s == [] then 0 else Sum(s[..|s| - 1], f) + f(s[|s| - 1])
  }

  lemma SumAppend<T>(s: seq<T>, x: T, f: T -> nat)
    ensures Sum(s + [x], f) == Sum(s, f) + f(x)
  {
    assert (s + [x])[..|s|] == s;
  }

  lemma {:induction false} SumUpdate<T>(s: seq<T>, i: nat, x: T, f: T -> nat)
    requires i < |s|
    ensures Sum(s[i := x], f) + f(s[i]) == Sum(s, f) + f(x)
  {
    var last := |s| - 1;
    if i == last {
      assert s[i := x][..last] == s[..last];
    } else {
      assert s[i := x][..last] == s[..last][i := x];
      SumUpdate(s[..last], i, x, f);
    }
  }

  lemma {:induction false} SumTerm<T>(s: seq<T>, i: nat, f: T -> nat)
    requires i < |s|
    ensures f(s[i]) <= Sum(s, f)
  {
    if i < |s| - 1 { SumTerm(s[..|s| - 1], i, f); }
  }

  lemma {:induction false} SumWitness<T>(s: seq<T>, f: T -> nat) returns (i: nat)
    requires Sum(s, f) > 0
    ensures i < |s| && f(s[i]) > 0
  {
    if f(s[|s| - 1]) > 0 { i := |s| - 1; } else { i := SumWitness(s[..|s| - 1], f); }
  }

  /** The first place of x in s, or |s|. */
  function IndexOf<T(==)>(s: seq<T>, x: T): (i: nat)
    ensures i <= |s| && (i < |s| ==> s[i] == x) && forall j | 0 <= j < i :: s[j] != x
  {
    if s == [] || s[0] == x then 0 else IndexOf(s[1..], x) + 1
  }

  lemma IndexOfHere<T>(before: seq<T>, x: T, after: seq<T>)
    requires x !in before
    ensures IndexOf(before + [x] + after, x) == |before|
  {
    assert (before + [x] + after)[|before|] == x;
  }

  /** Two prefixes of one sequence: one is a prefix of the other. */
  lemma PrefixesMeet<T>(a: seq<T>, b: seq<T>, rest: seq<T>)
    requires a <= b + rest
    ensures a <= b || b <= a
  {
    if |a| <= |b| { assert (b + rest)[..|a|] == b[..|a|]; } else { assert a[..|b|] == (b + rest)[..|b|] == b; }
  }

  lemma PrefixSplit<T>(a: seq<T>, b: seq<T>, s: seq<T>)
    ensures a + b <= s <==> a <= s && b <= s[|a|..]
  {
    if a + b <= s { assert (a + b)[|a|..] == b; }
  }
}
