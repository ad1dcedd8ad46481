/** Facts about sequence concatenation, stated for any element type so that a
  * proof can use them without looking inside the sequences it joins. */
module Seqs {
  function Min(a: nat, b: nat): nat {
    if a < b then a else b
  }

  ghost predicate NoDuplicates<T>(s: seq<T>) {
    forall i, j :: 0 <= i < j < |s| ==> s[i] != s[j]
  }

  lemma Assoc<T>(a: seq<T>, b: seq<T>, c: seq<T>)
    ensures a + b + c == a + (b + c)
  {
  }

  lemma TakeDrop<T>(a: seq<T>, n: nat)
    requires n <= |a|
    ensures a[..n] + a[n..] == a
  {
  }

  lemma DropWithin<T>(a: seq<T>, b: seq<T>, n: nat)
    requires n <= |a|
    ensures (a + b)[n..] == a[n..] + b
  {
  }

  lemma DropBeyond<T>(a: seq<T>, b: seq<T>, n: nat)
    requires |a| <= n <= |a| + |b|
    ensures (a + b)[n..] == b[n - |a|..]
  {
  }

  lemma DropAcross<T>(a: seq<T>, b: seq<T>, n: nat)
    requires n <= |a| + |b|
    ensures (a + b)[n..] == a[Min(n, |a|)..] + b[if n > |a| then n - |a| else 0..]
  {
  }

  lemma DropPrefix<T>(s: seq<T>, n: nat, a: seq<T>, b: seq<T>)
    requires n <= |s| && s[n..] == a + b
    ensures n + |a| <= |s| && s[n + |a|..] == b
  {
    assert |s[n..]| == |a| + |b|;
    forall i | 0 <= i < |b|
      ensures s[n + |a| + i] == b[i]
    {
      assert s[n..][|a| + i] == (a + b)[|a| + i];
    }
  }

  /** `a + b` and what follows `b`'s first `n` elements make up `a + b + c`. */
  lemma TakeInto<T>(a: seq<T>, b: seq<T>, c: seq<T>, n: nat)
    requires n <= |b|
    ensures a + b[..n] <= a + (b + c)
    ensures a + b[..n] == (a + (b + c))[..|a| + n]
    ensures n == |b| ==> a + b[..n] + c == a + (b + c)
  {
  }
}
