/** Small facts about sequences and maps that several components share. */
module Common {

  datatype Option<+T> = None | Some(value: T)

  /** The address of an instance; a type of its own, as in the network interface of the provider. */
  datatype IP = IP(text: string)

  /** A Go map of strings: an object that several owners may hold. */
  class StringMap {
    var m: map<string, string>

    constructor ()
      ensures m == map[]
    {
      m := map[];
    }
  }

  /** A deployment request; either map may be absent, and both are held by reference. */
  datatype Deployment = Deployment(service: string, image: string, namespace: string,
                                   labels: StringMap?, annotations: StringMap?)

  /** The number of values of a Go `uint64`. */
  const TWO64: nat := 0x1_0000_0000_0000_0000

  /** Go's unsigned arithmetic: the result is reduced modulo 2^64. */
  function Wrap(n: int): nat {
    n % TWO64
  }

  ghost predicate NoDup<T>(s: seq<T>) {
    forall i, j :: 0 <= i < j < |s| ==> s[i] != s[j]
  }

  /** How often `x` occurs in `s`. */
  function Count<T(==)>(s: seq<T>, x: T): nat {
    if s == [] then 0 else (if s[0] == x then 1 else 0) + Count(s[1..], x)
  }

  /** The elements of `s` other than `x`, in order. */
  function Without<T(==)>(s: seq<T>, x: T): seq<T> {
    if s == [] then [] else (if s[0] == x then [] else [s[0]]) + Without(s[1..], x)
  }

  lemma {:induction false} CountWithout<T>(s: seq<T>, x: T)
    ensures |Without(s, x)| + Count(s, x) == |s|
    ensures Count(s, x) > 0 <==> x in s
    ensures forall y :: y in Without(s, x) <==> y in s && y != x
  {
    if s != [] {
      CountWithout(s[1..], x);
      assert forall y :: y in s <==> y == s[0] || y in s[1..];
    }
  }

  lemma {:induction false} CountSnoc<T>(s: seq<T>, y: T, x: T)
    ensures Count(s + [y], x) == Count(s, x) + if y == x then 1 else 0
    ensures Without(s + [y], x) == Without(s, x) + if y == x then [] else [y]
  {
    if s == [] {
      assert s + [y] == [y];
    } else {
      CountSnoc(s[1..], y, x);
      assert (s + [y])[1..] == s[1..] + [y];
    }
  }

  /** On a list without duplicates `Without` takes out the one occurrence and nothing else moves. */
  lemma {:induction false} WithoutUnique<T>(s: seq<T>, i: nat)
    requires NoDup(s) && i < |s|
    ensures Without(s, s[i]) == s[..i] + s[i + 1..]
    ensures Count(s, s[i]) == 1
    ensures NoDup(Without(s, s[i]))
  {
    if i == 0 {
      WithoutAbsent(s[1..], s[0]);
    } else {
      WithoutUnique(s[1..], i - 1);
      assert s[1..][i - 1] == s[i];
      assert s[..i] + s[i + 1..] == [s[0]] + (s[1..][..i - 1] + s[1..][i..]);
    }
    var r := s[..i] + s[i + 1..];
    assert forall k :: 0 <= k < |r| ==> r[k] == if k < i then s[k] else s[k + 1];
  }

  lemma {:induction false} WithoutAbsent<T>(s: seq<T>, x: T)
    requires x !in s
    ensures Without(s, x) == s && Count(s, x) == 0
  {
    if s != [] {
      WithoutAbsent(s[1..], x);
    }
  }

  /** A list without duplicates is as long as the set it lists is large. */
  lemma {:induction false} NoDupSize<T>(s: seq<T>, elements: set<T>)
    requires NoDup(s) && forall x :: x in s <==> x in elements
    ensures |s| == |elements|
  {
    if s == [] {
      assert elements == {};
    } else {
      assert s[0] in elements;
      assert forall x :: x in s[1..] ==> x in s;
      assert s[0] !in s[1..];
      forall x | x in elements - {s[0]} ensures x in s[1..] {
        assert x in s;
      }
      NoDupSize(s[1..], elements - {s[0]});
    }
  }

  lemma {:induction false} SubsetSize<T>(a: set<T>, b: set<T>)
    requires a <= b
    ensures |a| <= |b|
  {
    if a != {} {
      var x :| x in a;
      SubsetSize(a - {x}, b - {x});
    }
  }

  /** Sum of the lengths of the lists in a table. */
  ghost function Total<K, T>(m: map<K, seq<T>>): nat {
    if m == map[] then 0
    else
      var k :| k in m;
      |m[k]| + Total(m - {k})
  }

  lemma {:induction false} TotalRemove<K, T>(m: map<K, seq<T>>, k: K)
    requires k in m
    ensures Total(m) == |m[k]| + Total(m - {k})
    decreases |m|
  {
    var j :| j in m && Total(m) == |m[j]| + Total(m - {j});
    if j != k {
      TotalRemove(m - {j}, k);
      TotalRemove(m - {k}, j);
      assert (m - {j}) - {k} == (m - {k}) - {j};
    }
  }

  /** Replacing (or adding) one list changes the total by the difference of the lengths. */
  lemma TotalUpdate<K, T>(m: map<K, seq<T>>, k: K, v: seq<T>)
    ensures Total(m[k := v]) == Total(m) + |v| - if k in m then |m[k]| else 0
  {
    TotalRemove(m[k := v], k);
    if k in m {
      TotalRemove(m, k);
      assert m[k := v] - {k} == m - {k};
    } else {
      assert m[k := v] - {k} == m;
    }
  }
}
