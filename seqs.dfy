/** Reading scripted oracle queues: the element at a position (with a
    fallback past the end) and what is left after some elements were taken. */
module Seqs {

  function At<T>(s: seq<T>, i: nat, default: T): T {
    if i < |s| then s[i] else default
  }

  function Drop<T>(s: seq<T>, n: nat): seq<T> {
    if n >= |s| then [] else s[n..]
  }

  /** Taking one more element from what is left after `n`. */
  lemma DropStep<T>(s: seq<T>, n: nat, default: T)
    ensures At(Drop(s, n), 0, default) == At(s, n, default)
    ensures Drop(Drop(s, n), 1) == Drop(s, n + 1)
  {
  }

  /** A prefix one element longer is the shorter prefix and that element. */
  lemma PrefixStep<T>(s: seq<T>, i: nat)
    requires i < |s|
    ensures s[..i + 1] == s[..i] + [s[i]] && s[..i + 1][..i] == s[..i]
  {
  }

  /** Appending one element after a concatenation. */
  lemma AppendOne<T>(a: seq<T>, b: seq<T>, x: T)
    ensures a + (b + [x]) == a + b + [x]
  {
  }
}
