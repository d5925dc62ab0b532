/** Sequence and map vocabulary used by several components. */
module Collections {

  /** No value occurs twice. */
  ghost predicate Distinct<T>(s: seq<T>) {
    forall i, j :: 0 <= i < j < |s| ==> s[i] != s[j]
  }

  ghost predicate Increasing(at: seq<nat>) {
    forall i, j :: 0 <= i < j < |at| ==> at[i] < at[j]
  }

  lemma AppendPosition(at: seq<nat>, n: nat)
    requires Increasing(at) && forall i :: i in at ==> i < n
    ensures Increasing(at + [n])
    ensures forall i :: i in at + [n] <==> i in at || i == n
    ensures forall k :: 0 <= k < |at| ==> at[k] < n
  {
    assert forall k :: 0 <= k < |at| ==> at[k] in at;
    assert multiset(at + [n]) == multiset(at) + multiset{n};
    forall i ensures i in at + [n] <==> i in at || i == n {
      assert i in at + [n] <==> i in multiset(at + [n]);
    }
  }

  /** `s` with the first occurrence of `x` taken out, if there is one. */
  function Without<T(==)>(s: seq<T>, x: T): seq<T> {
    if s == [] then []
    else if s[0] == x then s[1..]
    else [s[0]] + Without(s[1..], x)
  }

  lemma {:induction false} WithoutAt<T>(s: seq<T>, x: T, i: nat)
    requires i < |s| && s[i] == x && x !in s[..i]
    ensures Without(s, x) == s[..i] + s[i + 1..]
  {
    if i > 0 {
      var tail := s[1..];
      assert s[0] in s[..i];
      assert tail[..i - 1] == s[..i][1..];
      WithoutAt(tail, x, i - 1);
      assert [s[0]] + tail[..i - 1] == s[..i] && tail[i..] == s[i + 1..];
      assert Without(s, x) == [s[0]] + (tail[..i - 1] + tail[i..]);
    }
  }

  lemma {:induction false} WithoutAbsent<T>(s: seq<T>, x: T)
    requires x !in s
    ensures Without(s, x) == s
  {
    if s != [] {
      WithoutAbsent(s[1..], x);
    }
  }

  /** Taking one occurrence out lowers the multiplicity of `x` by one and of nothing else. */
  lemma {:induction false} WithoutMultiset<T>(s: seq<T>, x: T)
    requires x in s
    ensures multiset(Without(s, x)) == multiset(s) - multiset{x}
  {
    assert s == [s[0]] + s[1..];
    if s[0] != x {
      WithoutMultiset(s[1..], x);
    }
  }

  function Count<T(==)>(s: seq<T>, x: T): nat {
    if s == [] then 0 else Count(s[..|s| - 1], x) + if s[|s| - 1] == x then 1 else 0
  }

  lemma {:induction false} CountIsMembership<T>(s: seq<T>, x: T)
    ensures Count(s, x) > 0 <==> x in s
  {
    if s != [] {
      CountIsMembership(s[..|s| - 1], x);
      assert s == s[..|s| - 1] + [s[|s| - 1]];
    }
  }

  /** The sum of the values of `m` over the keys in `keys`. */
  ghost function SumOver<K(!new)>(m: map<K, nat>, keys: set<K>): nat
    requires keys <= m.Keys
  {
    if keys == {} then 0
    else
      var k :| k in keys;
      m[k] + SumOver(m, keys - {k})
  }

  ghost function MapSum<K(!new)>(m: map<K, nat>): nat {
    SumOver(m, m.Keys)
  }

  /** Any key may be taken out first. */
  lemma {:induction false} SumPick<K(!new)>(m: map<K, nat>, keys: set<K>, k: K)
    requires keys <= m.Keys && k in keys
    ensures SumOver(m, keys) == m[k] + SumOver(m, keys - {k})
    decreases keys
  {
    var first :| first in keys && SumOver(m, keys) == m[first] + SumOver(m, keys - {first});
    if first != k {
      SumPick(m, keys - {first}, k);
      SumPick(m, keys - {k}, first);
      assert keys - {first} - {k} == keys - {k} - {first};
    }
  }

  lemma {:induction false} SumAgree<K(!new)>(a: map<K, nat>, b: map<K, nat>, keys: set<K>)
    requires keys <= a.Keys && keys <= b.Keys
    requires forall k :: k in keys ==> a[k] == b[k]
    ensures SumOver(a, keys) == SumOver(b, keys)
    decreases keys
  {
    if keys != {} {
      var k :| k in keys;
      SumPick(a, keys, k);
      SumPick(b, keys, k);
      SumAgree(a, b, keys - {k});
    }
  }

  /** Setting one key moves the sum by the difference at that key. */
  lemma MapSumUpdate<K(!new)>(m: map<K, nat>, k: K, v: nat)
    ensures MapSum(m[k := v]) == MapSum(m) - (if k in m then m[k] else 0) + v
  {
    var n := m[k := v];
    SumPick(n, n.Keys, k);
    SumAgree(n, m, m.Keys - {k});
    assert n.Keys - {k} == m.Keys - {k};
    if k in m {
      SumPick(m, m.Keys, k);
    } else {
      assert m.Keys - {k} == m.Keys;
    }
  }
}
