// Generic facts about sequences shared by the proofs.

module Sequences {
  /** Concatenation is associative. */
  lemma AppendAssoc<T>(a: seq<T>, b: seq<T>, c: seq<T>)
    ensures a + (b + c) == (a + b) + c
  {
  }

  /** A slice of a suffix is a slice of the whole sequence. */
  lemma SliceOfSuffix<T>(s: seq<T>, a: nat, b: nat, k: nat)
    requires a <= |s| && b + k <= |s| - a
    ensures s[a..][b .. b + k] == s[a + b .. a + b + k]
  {
  }

  /** When `pre + b` starts `all`, then in `header + all + footer` the part
      `b` sits right after `header` and `pre`. */
  lemma InfixAt<T>(header: seq<T>, pre: seq<T>, b: seq<T>, all: seq<T>, footer: seq<T>)
    requires pre + b <= all
    ensures var p := header + all + footer; var off := |header| + |pre|;
      off + |b| <= |p| && p[off .. off + |b|] == b
  {
    var p := header + all + footer;
    var off := |header| + |pre|;
    forall j | 0 <= j < |b|
      ensures p[off + j] == b[j]
    {
      assert p[off + j] == all[|pre| + j] == (pre + b)[|pre| + j];
    }
  }
}
