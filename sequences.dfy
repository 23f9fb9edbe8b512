/** Reversal of sequences, which both the header prepend loop and the certificate-chain ordering produce. */
module Sequences {

  /** The elements of `s` in the opposite order. */
  function Reversed<T>(s: seq<T>): (r: seq<T>)
    ensures |r| == |s|
    decreases |s|
  {
    if s == [] then [] else Reversed(s[1..]) + [s[0]]
  }

  /** Position `i` of the reversal holds position `|s| - 1 - i` of the original. */
  lemma {:induction false} ReversedAt<T>(s: seq<T>, i: int)
    requires 0 <= i < |s|
    ensures Reversed(s)[i] == s[|s| - 1 - i]
    decreases |s|
  {
    if i < |s| - 1 {
      ReversedAt(s[1..], i);
    }
  }

  lemma ReversedIndexing<T>(s: seq<T>)
    ensures forall i :: 0 <= i < |s| ==> Reversed(s)[i] == s[|s| - 1 - i]
  {
    forall i | 0 <= i < |s|
      ensures Reversed(s)[i] == s[|s| - 1 - i]
    {
      ReversedAt(s, i);
    }
  }

  /** Reversing twice gives the original back. */
  lemma ReversedInvolution<T>(s: seq<T>)
    ensures Reversed(Reversed(s)) == s
  {
    ReversedIndexing(s);
    ReversedIndexing(Reversed(s));
  }

  /** Reversal only reorders. */
  lemma {:induction false} ReversedPermutation<T>(s: seq<T>)
    ensures multiset(Reversed(s)) == multiset(s)
    decreases |s|
  {
    if s != [] {
      ReversedPermutation(s[1..]);
      assert s == [s[0]] + s[1..];
    }
  }

  /** Prepending one more element extends the reversal at its front. */
  lemma ReversedSnoc<T>(s: seq<T>, x: T)
    ensures Reversed(s + [x]) == [x] + Reversed(s)
  {
    ReversedIndexing(s + [x]);
    ReversedIndexing(s);
  }

  /** Regrouping appends, stated once so that callers need no extensionality proof. */
  lemma AppendAssoc<T>(o: seq<T>, a: seq<T>, b: seq<T>)
    ensures o + a + b == o + (a + b)
  {
  }

  /** The same for a chain of three appends. */
  lemma AppendWrap<T>(s: seq<T>, a: seq<T>, b: seq<T>, c: seq<T>, e: seq<T>)
    ensures s + a + (b + c + e) == s + (a + b + c) + e
  { }

  lemma AppendRegroup<T>(o: seq<T>, a: seq<T>, b: seq<T>, c: seq<T>)
    ensures o + a + b + c == o + (a + b + c)
  {
  }
}
