/** Facts about sequences that several proofs share. */
module Sequences {
  /** Concatenation is associative. */
  lemma ConcatAssoc<T>(a: seq<T>, b: seq<T>, c: seq<T>)
    ensures a + (b + c) == (a + b) + c
  { }

  /** Taking `k` more elements after the first `i`. */
  lemma PrefixGrows<T>(s: seq<T>, i: nat, k: nat)
    requires i + k <= |s|
    ensures s[..i + k] == s[..i] + s[i..][..k]
    ensures s[i..][k..] == s[i + k..]
  { }
}
