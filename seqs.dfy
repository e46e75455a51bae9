/**
 * Sequence operations the Java code gets from streams and from Apache Commons
 * (`map`, `filter`, `flatMap`, `ListUtils.partition`), with the facts the pipeline
 * relies on.
 */
module Seqs {

  /** `flatMap(List::stream)`: the chunks concatenated in order. */
  function Flatten<T>(ss: seq<seq<T>>): (r: seq<T>)
  {
    if ss == [] then [] else ss[0] + Flatten(ss[1..])
  }

  lemma {:induction false} FlattenMember<T>(ss: seq<seq<T>>, i: nat, x: T)
    requires i < |ss| && x in ss[i]
    ensures x in Flatten(ss)
  {
    if i > 0 {
      FlattenMember(ss[1..], i - 1, x);
    }
  }

  lemma {:induction false} FlattenMemberInverse<T>(ss: seq<seq<T>>, x: T)
    requires x in Flatten(ss)
    ensures exists i :: 0 <= i < |ss| && x in ss[i]
  {
    if x !in ss[0] {
      FlattenMemberInverse(ss[1..], x);
      var i :| 0 <= i < |ss[1..]| && x in ss[1..][i];
      assert x in ss[i + 1];
    }
  }

  /** `stream().map(f).collect(toList())`: one result per element, in order. */
  function Map<A, B>(s: seq<A>, f: A -> B): (r: seq<B>)
    ensures |r| == |s| && forall i :: 0 <= i < |s| ==> r[i] == f(s[i])
  {
    seq(|s|, i requires 0 <= i < |s| => f(s[i]))
  }

  /**
   * `stream().filter(p).collect(toList())`. The contract says the result keeps
   * exactly the elements that satisfy `p`; `FilterIsSubsequence` says it keeps
   * them in their original order.
   */
  function Filter<T>(s: seq<T>, p: T -> bool): (r: seq<T>)
    ensures |r| <= |s|
    ensures forall x :: x in r ==> x in s && p(x)
    ensures forall x :: x in s && p(x) ==> x in r
  {
    if s == [] then []
    else (if p(s[0]) then [s[0]] else []) + Filter(s[1..], p)
  }

  /** `a` is `b` with some elements removed and the rest left in order. */
  ghost predicate SubsequenceOf<T>(a: seq<T>, b: seq<T>)
    decreases |b|
  {
    if a == [] then true
    else if b == [] then false
    else (a[0] == b[0] && SubsequenceOf(a[1..], b[1..])) || SubsequenceOf(a, b[1..])
  }

  lemma {:induction false} FilterIsSubsequence<T>(s: seq<T>, p: T -> bool)
    ensures SubsequenceOf(Filter(s, p), s)
  {
    if s != [] {
      FilterIsSubsequence(s[1..], p);
      var r := Filter(s, p);
      if p(s[0]) {
        assert r[0] == s[0] && r[1..] == Filter(s[1..], p);
      } else {
        assert r == Filter(s[1..], p);
      }
    }
  }

  /** The kept and the dropped elements together account for every element. */
  lemma {:induction false} FilterComplementLength<T>(s: seq<T>, p: T -> bool)
    ensures |Filter(s, p)| + |Filter(s, x => !p(x))| == |s|
  {
    if s != [] {
      FilterComplementLength(s[1..], p);
    }
  }

  /** Filtering keeps a sequence whose every element passes. */
  lemma {:induction false} FilterAll<T>(s: seq<T>, p: T -> bool)
    requires forall x :: x in s ==> p(x)
    ensures Filter(s, p) == s
  {
    if s != [] {
      FilterAll(s[1..], p);
      assert s == [s[0]] + s[1..];
    }
  }

  /** Filtering depends only on the values of the condition. */
  lemma {:induction false} FilterSameCondition<T>(s: seq<T>, p: T -> bool, q: T -> bool)
    requires forall x :: p(x) == q(x)
    ensures Filter(s, p) == Filter(s, q)
  {
    if s != [] {
      FilterSameCondition(s[1..], p, q);
    }
  }

  ghost predicate NoDuplicates<T>(s: seq<T>)
  {
    forall i, j :: 0 <= i < j < |s| ==> s[i] != s[j]
  }

  /**
   * `ListUtils.partition(list, size)`: consecutive sublists of `size`
   * elements, the last one possibly shorter; an empty list gives no sublist.
   * `size` must be positive (Commons throws otherwise).
   */
  function Partition<T>(s: seq<T>, size: nat): (chunks: seq<seq<T>>)
    requires size > 0
    ensures forall i :: 0 <= i < |chunks| ==> 0 < |chunks[i]| <= size
    ensures forall i :: 0 <= i < |chunks| - 1 ==> |chunks[i]| == size
    decreases |s|
  {
    if s == [] then []
    else if |s| <= size then [s]
    else [s[..size]] + Partition(s[size..], size)
  }

  /** The chunks of a partition, concatenated, are the input. */
  lemma {:induction false} PartitionFlattens<T>(s: seq<T>, size: nat)
    requires size > 0
    ensures Flatten(Partition(s, size)) == s
    decreases |s|
  {
    if |s| > size {
      var rest := Partition(s[size..], size);
      PartitionFlattens(s[size..], size);
      FlattenCons(s[..size], rest);
      assert s == s[..size] + s[size..];
    } else if s != [] {
      FlattenCons(s, []);
      assert s + [] == s;
    }
  }

  lemma FlattenCons<T>(head: seq<T>, rest: seq<seq<T>>)
    ensures Flatten([head] + rest) == head + Flatten(rest)
  {
    assert ([head] + rest)[1..] == rest;
  }

  /**
   * The number of chunks is ceil(|s| / size): the least count whose
   * capacity holds `s`.
   */
  lemma {:induction false} PartitionCount<T>(s: seq<T>, size: nat)
    requires size > 0
    ensures |s| <= |Partition(s, size)| * size < |s| + size
    decreases |s|
  {
    if |s| > size {
      var m := |Partition(s[size..], size)|;
      PartitionCount(s[size..], size);
      assert |Partition(s, size)| == m + 1;
      assert (m + 1) * size == m * size + size;
    }
  }

  /** Every element of a chunk is an element of the concatenation. */
  lemma {:induction false} ChunkInFlatten<T>(ss: seq<seq<T>>, i: nat)
    requires i < |ss|
    ensures forall x :: x in ss[i] ==> x in Flatten(ss)
  {
    forall x | x in ss[i] ensures x in Flatten(ss) {
      FlattenMember(ss, i, x);
    }
  }

  /** In a duplicate-free sequence, a prefix and the matching suffix share nothing. */
  lemma PrefixSuffixDisjoint<T>(s: seq<T>, k: nat)
    requires k <= |s| && NoDuplicates(s)
    ensures forall x :: x in s[..k] ==> x !in s[k..]
  {
    forall x | x in s[..k] ensures x !in s[k..] {
      var a :| 0 <= a < k && s[..k][a] == x;
      forall b | 0 <= b < |s[k..]| ensures s[k..][b] != x {
        assert s[k..][b] == s[b + k] && s[..k][a] == s[a];
      }
    }
  }

  lemma SuffixNoDuplicates<T>(s: seq<T>, k: nat)
    requires k <= |s| && NoDuplicates(s)
    ensures NoDuplicates(s[k..])
  {
    forall a, b | 0 <= a < b < |s[k..]| ensures s[k..][a] != s[k..][b] {
      assert s[k..][a] == s[a + k] && s[k..][b] == s[b + k];
    }
  }

  /**
   * Disjointness of the partition: on a duplicate-free input no element
   * appears in two chunks, so every input element is in exactly one chunk.
   */
  lemma PartitionDisjoint<T>(s: seq<T>, size: nat)
    requires size > 0 && NoDuplicates(s)
    ensures forall i, j, x :: 0 <= i < j < |Partition(s, size)| && x in Partition(s, size)[i]
              ==> x !in Partition(s, size)[j]
  {
    var chunks := Partition(s, size);
    forall i, j, x | 0 <= i < j < |chunks| && x in chunks[i] ensures x !in chunks[j] {
      ChunksDisjoint(s, size, i, j, x);
    }
  }

  lemma {:induction false} ChunksDisjoint<T>(s: seq<T>, size: nat, i: nat, j: nat, x: T)
    requires size > 0 && NoDuplicates(s)
    requires i < j < |Partition(s, size)| && x in Partition(s, size)[i]
    ensures x !in Partition(s, size)[j]
    decreases |s|
  {
    var rest := Partition(s[size..], size);
    assert |s| > size;
    assert Partition(s, size)[j] == rest[j - 1];
    if i == 0 {
      assert Partition(s, size)[0] == s[..size];
      ChunkInFlatten(rest, j - 1);
      PartitionFlattens(s[size..], size);
      PrefixSuffixDisjoint(s, size);
    } else {
      assert Partition(s, size)[i] == rest[i - 1];
      SuffixNoDuplicates(s, size);
      ChunksDisjoint(s[size..], size, i - 1, j - 1, x);
    }
  }
}
