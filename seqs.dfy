/** Shapes of sequences the proofs rewrite by. They are stated once for any
    element type, so that their proofs stay clear of what the elements are
    (strings, JSON pairs, events), which is where equality of nested
    sequences gets expensive. */
module Seqs {

  lemma AppendEmpty<T>(a: seq<T>)
    ensures a + [] == a
  {
  }

  lemma Assoc<T>(x: seq<T>, y: seq<T>, z: seq<T>)
    ensures (x + y) + z == x + (y + z)
  {
  }

  /** A non-empty sequence is its front and its last element. */
  lemma SnocSplit<T>(a: seq<T>, b: seq<T>)
    requires b != []
    ensures b == b[..|b| - 1] + [b[|b| - 1]]
    ensures a + b == (a + b[..|b| - 1]) + [b[|b| - 1]]
  {
  }

  lemma SnocPrefix<T>(a: seq<T>, x: T)
    ensures (a + [x])[..|a|] == a && (a + [x])[|a|] == x
  {
  }

  /** One element more of a prefix. */
  lemma TakeSnoc<T>(s: seq<T>, i: nat)
    requires i < |s|
    ensures s[..i + 1] == s[..i] + [s[i]]
    ensures s[..i + 1][..i] == s[..i] && s[..i + 1][i] == s[i]
  {
  }

  lemma TakeAll<T>(s: seq<T>)
    ensures s[..|s|] == s
  {
  }

  lemma TakeDrop<T>(s: seq<T>, i: nat)
    requires i <= |s|
    ensures s[..i] + s[i..] == s
  {
  }

  /** Taking and dropping past the head of a sequence. */
  lemma ConsSplit<T>(s: seq<T>, j: nat)
    requires 0 < j <= |s|
    ensures s[1..][j - 1..] == s[j..]
    ensures [s[0]] + s[1..][..j - 1] == s[..j]
  {
  }

  lemma SliceOfSlice<T>(s: seq<T>, a: nat, b: nat, i: nat, j: nat)
    requires a <= b <= |s| && i <= j <= b - a
    ensures s[a..b][i..j] == s[a + i..a + j]
  {
    assert |s[a..b][i..j]| == j - i == |s[a + i..a + j]|;
    forall k | 0 <= k < j - i
      ensures s[a..b][i..j][k] == s[a + i..a + j][k]
    {
    }
  }

  /** What a sequence lacks, each of its slices lacks. */
  lemma NotInSlice<T>(s: seq<T>, a: nat, b: nat, x: T)
    requires a <= b <= |s| && x !in s
    ensures x !in s[a..b]
  {
    forall j | 0 <= j < b - a
      ensures s[a..b][j] != x
    {
      assert s[a..b][j] == s[a + j];
    }
  }

  lemma ConsIndex<T>(x: T, r: seq<T>, k: nat)
    requires k <= |r|
    ensures ([x] + r)[k] == if k == 0 then x else r[k - 1]
  {
  }
}
