/** Facts about sequences used by several models. */
module Sequences {
  import opened Common

  lemma SplitAt<T>(s: seq<T>, i: nat)
    requires i < |s|
    ensures s == s[..i] + [s[i]] + s[i+1..]
    ensures s[..i+1] == s[..i] + [s[i]]
  {
  }

  /** The k-th element of s singled out between p and q. */
  lemma Around<T>(p: seq<T>, s: seq<T>, q: seq<T>, k: nat)
    requires k < |s|
    ensures p + (s + q) == (p + s[..k]) + ([s[k]] + (s[k+1..] + q))
    ensures (p + s[..k]) + [s[k]] == p + s[..k+1]
  {
    SplitAt(s, k);
    Assoc(s[..k], [s[k]], s[k+1..]);
    Assoc(s[..k], [s[k]] + s[k+1..], q);
    Assoc([s[k]], s[k+1..], q);
    Assoc(p, s[..k], [s[k]] + (s[k+1..] + q));
    Assoc(p, s[..k], [s[k]]);
  }

  lemma Assoc<T>(a: seq<T>, b: seq<T>, c: seq<T>)
    ensures (a + b) + c == a + (b + c)
  {
  }

  lemma TakeNext<T>(a: seq<T>, b: seq<T>, j: nat)
    requires j < |b|
    ensures a + b[..j+1] == a + b[..j] + [b[j]]
  {
  }

  function Flatten<T>(ss: seq<seq<T>>): seq<T> {
    if ss == [] then [] else Flatten(ss[..|ss|-1]) + ss[|ss|-1]
  }

  /** The number of elements before the i-th sequence. */
  function Before<T>(ss: seq<seq<T>>, i: nat): nat
    requires i <= |ss|
  {
    if i == 0 then 0 else Before(ss, i - 1) + |ss[i-1]|
  }

  lemma {:induction false} BeforeIsLocal<T>(ss: seq<seq<T>>, k: nat, i: nat)
    requires i <= k <= |ss|
    ensures Before(ss[..k], i) == Before(ss, i)
  {
    if i > 0 {
      BeforeIsLocal(ss, k, i - 1);
    }
  }

  /** Element j of the i-th sequence is at the position counting those before it. */
  lemma {:induction false} FlattenAt<T>(ss: seq<seq<T>>, i: nat, j: nat)
    requires i < |ss| && j < |ss[i]|
    ensures |Flatten(ss)| == Before(ss, |ss|)
    ensures Before(ss, i) + j < Before(ss, |ss|)
    ensures Flatten(ss)[Before(ss, i) + j] == ss[i][j]
    decreases |ss|
  {
    var n := |ss| - 1;
    FlattenLength(ss[..n]);
    BeforeIsLocal(ss, n, n);
    BeforeIsLocal(ss, n, i);
    if i < n {
      FlattenAt(ss[..n], i, j);
    }
  }

  lemma {:induction false} FlattenLength<T>(ss: seq<seq<T>>)
    ensures |Flatten(ss)| == Before(ss, |ss|)
  {
    if ss != [] {
      var n := |ss| - 1;
      FlattenLength(ss[..n]);
      BeforeIsLocal(ss, n, n);
    }
  }

  lemma FlattenNext<T>(ss: seq<seq<T>>, s: seq<T>)
    ensures Flatten(ss + [s]) == Flatten(ss) + s
  {
    assert (ss + [s])[..|ss|] == ss;
  }

  lemma SwapLast<T>(x: T, y: T, z: T)
    ensures multiset([x, y, z]) == multiset([x, z, y])
  {
  }

  lemma WithoutMultiset<T>(s: seq<T>, i: nat)
    requires i < |s|
    ensures multiset(s[..i] + s[i+1..]) == multiset(s) - multiset{s[i]}
  {
    assert s == s[..i] + ([s[i]] + s[i+1..]);
  }

  lemma TailMultiset<T>(s: seq<T>)
    requires s != []
    ensures multiset(s[1..]) == multiset(s) - multiset{s[0]}
  {
    assert s == [s[0]] + s[1..];
  }

  lemma Occurs<T>(s: seq<T>, x: T) returns (i: nat)
    requires x in multiset(s)
    ensures i < |s| && s[i] == x
  {
    i :| 0 <= i < |s| && s[i] == x;
  }

  /** The first element of a permutation found in the other one, and both without
      it still permutations. */
  lemma PermutationStep<T>(s: seq<T>, t: seq<T>) returns (i: nat)
    requires s != [] && multiset(s) == multiset(t)
    ensures i < |t| && t[i] == s[0] && multiset(s[1..]) == multiset(t[..i] + t[i+1..])
  {
    assert s[0] in multiset(s);
    i := Occurs(t, s[0]);
    TailMultiset(s);
    WithoutMultiset(t, i);
  }

  /** The values present, in order. */
  function Somes<T>(s: seq<Option<T>>): seq<T>
    decreases |s|
  {
    if s == [] then []
    else Somes(s[..|s|-1]) + if s[|s|-1].Some? then [s[|s|-1].value] else []
  }

  /** The number of values present before position i. */
  function Rank<T>(s: seq<Option<T>>, i: nat): nat
    requires i <= |s|
  {
    if i == 0 then 0 else Rank(s, i - 1) + if s[i-1].Some? then 1 else 0
  }

  lemma {:induction false} RankIsLocal<T>(s: seq<Option<T>>, k: nat, i: nat)
    requires i <= k <= |s|
    ensures Rank(s[..k], i) == Rank(s, i)
  {
    if i > 0 {
      RankIsLocal(s, k, i - 1);
    }
  }

  /** Each value present appears once, at the position counting those before it. */
  lemma {:induction false} SomesAt<T>(s: seq<Option<T>>)
    ensures |Somes(s)| == Rank(s, |s|)
    ensures forall i :: 0 <= i < |s| && s[i].Some? ==> Rank(s, i) < |Somes(s)| && Somes(s)[Rank(s, i)] == s[i].value
    decreases |s|
  {
    if s != [] {
      var k := |s| - 1;
      SomesAt(s[..k]);
      RankIsLocal(s, k, k);
      forall i | 0 <= i < |s| && s[i].Some? ensures Rank(s, i) < |Somes(s)| && Somes(s)[Rank(s, i)] == s[i].value {
        if i < k {
          RankIsLocal(s, k, i);
          assert s[..k][i] == s[i];
        }
      }
    }
  }

  lemma SomesHas<T>(s: seq<Option<T>>, i: nat, x: Option<T>)
    requires i < |s| && s[i] == x
    ensures |Somes(s)| == Rank(s, |s|)
    ensures x.Some? ==> Rank(s, i) < |Somes(s)| && Somes(s)[Rank(s, i)] == x.value
  {
    SomesAt(s);
  }

  lemma SomesNext<T>(s: seq<Option<T>>, x: Option<T>)
    ensures Somes(s + [x]) == Somes(s) + if x.Some? then [x.value] else []
  {
    assert (s + [x])[..|s|] == s;
  }

  /** A set with perhaps one more element. */
  lemma OneMore<T>(a: set<T>, b: set<T>, x: T, more: bool)
    requires x !in a && forall y :: y in b <==> y in a || (y == x && more)
    ensures |b| == |a| + if more then 1 else 0
  {
    assert b == if more then a + {x} else a;
  }
}
