/** Value types and sequence facts shared by every component of the model. */
module Prelude {

  datatype Option<+T> = None | Some(value: T)

  /** Outcome of replacing a file by temp file, rename and directory sync. The sync comes after the rename, so a
      replacement that reports failure may still have happened. */
  datatype Commit = Durable | FailedOld | FailedNew

  newtype Byte = x: int | 0 <= x < 256

  type Bytes = seq<Byte>

  const U64_MAX: nat := 0xFFFF_FFFF_FFFF_FFFF

  function Last<T>(s: seq<T>): (r: T)
    requires s != []
  {
    s[|s| - 1]
  }

  /** The last `n` elements of `s`, or all of them when there are fewer. */
  function LastN<T>(s: seq<T>, n: nat): (r: seq<T>)
  {
    if |s| <= n then s else s[|s| - n..]
  }

  /** `a` can be obtained from `b` by deleting elements. */
  predicate Subseq<T(==)>(a: seq<T>, b: seq<T>)
    decreases |b|
  {
    a == [] ||
    (b != [] &&
     ((Last(a) == Last(b) && Subseq(a[..|a| - 1], b[..|b| - 1])) || Subseq(a, b[..|b| - 1])))
  }

  lemma {:induction false} SubseqMember<T>(a: seq<T>, b: seq<T>, x: T)
    requires Subseq(a, b) && x in a
    ensures x in b
    decreases |b|
  {
    var b' := b[..|b| - 1];
    assert b == b' + [Last(b)];
    if Subseq(a, b') {
      SubseqMember(a, b', x);
    } else if x != Last(a) {
      assert a == a[..|a| - 1] + [Last(a)];
      SubseqMember(a[..|a| - 1], b', x);
    }
  }

  lemma {:induction false} SubseqOfPrefix<T>(a: seq<T>, b: seq<T>, c: seq<T>)
    requires Subseq(a, b)
    ensures Subseq(a, b + c)
    decreases |c|
  {
    if c == [] {
      assert b + c == b;
    } else {
      SubseqOfPrefix(a, b, c[..|c| - 1]);
      assert (b + c)[..|b + c| - 1] == b + c[..|c| - 1];
    }
  }

  lemma {:induction false} SubseqExtend<T>(a: seq<T>, b: seq<T>, x: T)
    requires Subseq(a, b)
    ensures Subseq(a + [x], b + [x])
  {
  }

  /** Keys strictly increase along `s`. */
  predicate Increasing<T>(s: seq<T>, key: T -> int)
  {
    forall i, j :: 0 <= i < j < |s| ==> key(s[i]) < key(s[j])
  }

  /** A strictly sorted selection of members of a strictly sorted sequence is a subsequence of it. */
  lemma {:induction false} SortedMembersAreSubseq<T>(a: seq<T>, b: seq<T>, key: T -> int)
    requires Increasing(a, key) && Increasing(b, key)
    requires forall x :: x in a ==> x in b
    ensures Subseq(a, b)
    decreases |b|
  {
    if a != [] {
      assert Last(a) in b;
      var b' := b[..|b| - 1];
      assert b == b' + [Last(b)];
      var a' := a[..|a| - 1];
      assert a == a' + [Last(a)];
      if Last(a) == Last(b) {
        forall x | x in a' ensures x in b' {
          assert key(x) < key(Last(a));
          assert x in a && x in b;
        }
        SortedMembersAreSubseq(a', b', key);
      } else {
        forall x | x in a ensures x in b' {
          var i :| 0 <= i < |a| && a[i] == x;
          var j :| 0 <= j < |b| && b[j] == Last(a);
          assert key(x) <= key(Last(a)) < key(Last(b));
          assert x in b;
        }
        SortedMembersAreSubseq(a, b', key);
      }
    }
  }

  /** The total of a map's values. */
  ghost function Total<K(!new)>(m: map<K, nat>): (r: nat)
    decreases m.Keys
  {
    if m.Keys == {} then 0 else
      var k :| k in m;
      m[k] + Total(m - {k})
  }

  /** Any key may be split off the total first. */
  lemma {:induction false} TotalSplit<K(!new)>(m: map<K, nat>, k: K)
    requires k in m
    ensures Total(m) == m[k] + Total(m - {k})
    decreases m.Keys
  {
    var j :| j in m && Total(m) == m[j] + Total(m - {j});
    if j != k {
      TotalSplit(m - {j}, k);
      TotalSplit(m - {k}, j);
      assert m - {j} - {k} == m - {k} - {j};
    }
  }

  lemma {:induction false} TotalUpdate<K(!new)>(m: map<K, nat>, k: K, v: nat)
    ensures Total(m[k := v]) == Total(m - {k}) + v
    ensures Total(m) == Total(m - {k}) + (if k in m then m[k] else 0)
  {
    var m' := m[k := v];
    TotalSplit(m', k);
    assert m' - {k} == m - {k};
    if k in m {
      TotalSplit(m, k);
    } else {
      assert m - {k} == m;
    }
  }
}
