/** Facts about sequences shared by the aggregation of search results and the assembly of the
    report context: concatenation of blocks, and occurrence of a subsequence at an index. */
module Seqs {

  /** The smaller of two integers. */
  function Min(a: int, b: int): (m: int)
    ensures m <= a && m <= b
    ensures m == a || m == b
  {
    if a <= b then a else b
  }

  /** The sum of the lengths of a sequence of sequences. */
  function TotalLength<T>(ss: seq<seq<T>>): nat
  {
    if ss == [] then 0 else TotalLength(ss[..|ss| - 1]) + |ss[|ss| - 1]|
  }

  /** Concatenation of a sequence of sequences, built left to right as an accumulating loop does. */
  function Flatten<T>(ss: seq<seq<T>>): (all: seq<T>)
    ensures |all| == TotalLength(ss)
  {
    if ss == [] then [] else Flatten(ss[..|ss| - 1]) + ss[|ss| - 1]
  }

  /** Adding one more block appends that block, duplicates included. */
  lemma {:induction false} FlattenSnoc<T>(ss: seq<seq<T>>, s: seq<T>)
    ensures Flatten(ss + [s]) == Flatten(ss) + s
    ensures multiset(Flatten(ss + [s])) == multiset(Flatten(ss)) + multiset(s)
  {
    assert (ss + [s])[..|ss|] == ss;
  }

  /** A prefix of the blocks flattens to a prefix of the whole. */
  lemma {:induction false} FlattenPrefix<T>(ss: seq<seq<T>>, j: nat)
    requires j <= |ss|
    ensures Flatten(ss[..j]) <= Flatten(ss)
    decreases |ss| - j
  {
    if j < |ss| {
      FlattenPrefix(ss, j + 1);
      assert ss[..j + 1] == ss[..j] + [ss[j]];
      FlattenSnoc(ss[..j], ss[j]);
    } else {
      assert ss[..j] == ss;
    }
  }

  /** Blocks 0..k-1 followed by block k form a prefix of the flattened sequence. */
  lemma {:induction false} FlattenBlockPrefix<T>(ss: seq<seq<T>>, k: nat)
    requires k < |ss|
    ensures Flatten(ss[..k]) + ss[k] <= Flatten(ss)
  {
    FlattenPrefix(ss, k + 1);
    assert ss[..k + 1] == ss[..k] + [ss[k]];
    FlattenSnoc(ss[..k], ss[k]);
  }

  /** Blocks that are all empty flatten to nothing. */
  lemma {:induction false} FlattenOfEmptyBlocks<T>(ss: seq<seq<T>>)
    requires forall k :: 0 <= k < |ss| ==> ss[k] == []
    ensures Flatten(ss) == []
  {
    if ss != [] {
      FlattenOfEmptyBlocks(ss[..|ss| - 1]);
    }
  }

  lemma AppendAssoc<T>(a: seq<T>, b: seq<T>, c: seq<T>)
    ensures a + (b + c) == (a + b) + c
  {
  }

  /** Putting the same sequence in front of both sides keeps a prefix a prefix. */
  lemma PrependKeepsPrefix<T>(h: seq<T>, a: seq<T>, b: seq<T>)
    requires a <= b
    ensures h + a <= h + b
  {
    assert (h + b)[..|h + a|] == h + b[..|a|];
  }

  /** Applies `f` to every element, keeping the order. */
  function MapSeq<A, B>(f: A -> B, xs: seq<A>): (ys: seq<B>)
    ensures |ys| == |xs|
    ensures forall i :: 0 <= i < |xs| ==> ys[i] == f(xs[i])
  {
    seq(|xs|, i requires 0 <= i < |xs| => f(xs[i]))
  }

  lemma MapSeqSnoc<A, B>(f: A -> B, xs: seq<A>, x: A)
    ensures MapSeq(f, xs + [x]) == MapSeq(f, xs) + [f(x)]
  {
  }

  lemma MapSeqPrefix<A, B>(f: A -> B, xs: seq<A>, j: nat)
    requires j <= |xs|
    ensures MapSeq(f, xs[..j]) == MapSeq(f, xs)[..j]
  {
  }

  /** `sub` occurs in `s` starting at index `k`. */
  predicate ContainsAt<T(==)>(s: seq<T>, sub: seq<T>, k: int)
  {
    0 <= k && k + |sub| <= |s| && forall j :: 0 <= j < |sub| ==> s[k + j] == sub[j]
  }

  /** Block k occurs in the flattened sequence right after blocks 0..k-1, unchanged. */
  lemma {:induction false} BlockAtOffset<T>(ss: seq<seq<T>>, k: nat)
    requires k < |ss|
    ensures TotalLength(ss[..k]) == |Flatten(ss[..k])|
    ensures ContainsAt(Flatten(ss), ss[k], TotalLength(ss[..k]))
  {
    FlattenBlockPrefix(ss, k);
    PrefixThenBlock(Flatten(ss), Flatten(ss[..k]), ss[k]);
  }

  /** An occurrence inside an occurrence is an occurrence. */
  lemma {:induction false} ContainsAtTrans<T>(s: seq<T>, mid: seq<T>, sub: seq<T>, k: int, j: int)
    requires ContainsAt(s, mid, k) && ContainsAt(mid, sub, j)
    ensures ContainsAt(s, sub, k + j)
  {
    forall x | 0 <= x < |sub|
      ensures s[k + j..k + j + |sub|][x] == sub[x]
    {
      assert s[k + j + x] == mid[j + x];
    }
  }

  /** Each part of a three-part concatenation occurs where the parts before it end. */
  lemma {:induction false} ConcatParts<T>(a: seq<T>, b: seq<T>, c: seq<T>)
    ensures ContainsAt(a + b + c, a, 0)
    ensures ContainsAt(a + b + c, b, |a|)
    ensures ContainsAt(a + b + c, c, |a| + |b|)
  {
    assert (a + b + c)[..|a|] == a;
    assert (a + b + c)[|a|..|a| + |b|] == b;
    assert (a + b + c)[|a| + |b|..|a| + |b| + |c|] == c;
  }

  /** The block that follows a prefix occurs where the prefix ends. */
  lemma {:induction false} PrefixThenBlock<T>(big: seq<T>, pre: seq<T>, blk: seq<T>)
    requires pre + blk <= big
    ensures ContainsAt(big, blk, |pre|)
  {
    assert big[|pre|..|pre| + |blk|] == (pre + blk)[|pre|..];
  }

  /** A value written between a tag and a suffix occurs right after the tag. */
  lemma {:induction false} TaggedValue<T>(s: seq<T>, off: int, tag: seq<T>, value: seq<T>, suffix: seq<T>)
    requires ContainsAt(s, tag + value + suffix, off)
    ensures ContainsAt(s, value, off + |tag|)
  {
    ConcatParts(tag, value, suffix);
    ContainsAtTrans(s, tag + value + suffix, value, off, |tag|);
  }

  /** What occurs in a prefix occurs, at the same index, in the whole. */
  lemma {:induction false} PrefixContains<T>(big: seq<T>, pre: seq<T>, v: seq<T>, k: int)
    requires pre <= big && ContainsAt(pre, v, k)
    ensures ContainsAt(big, v, k)
  {
    assert big[k..k + |v|] == pre[k..k + |v|];
  }
}
