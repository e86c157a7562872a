/** Options, results and the few facts about finite sequences that the other modules share. */
module Collections {

  datatype Option<+T> = None | Some(value: T)

  datatype Result<+T> = Ok(value: T) | Err(message: string)

  ghost predicate NoDuplicates<T>(s: seq<T>) {
    forall i, j :: 0 <= i < j < |s| ==> s[i] != s[j]
  }

  /** The elements of s that satisfy keep, in their order. */
  function Filter<T(!new)>(s: seq<T>, keep: T -> bool): (r: seq<T>)
    ensures forall x :: x in r <==> x in s && keep(x)
  {
    if s == [] then []
    else Filter(s[..|s| - 1], keep) + if keep(s[|s| - 1]) then [s[|s| - 1]] else []
  }

  function Take<T>(s: seq<T>, n: nat): seq<T> { if n <= |s| then s[..n] else s }

  lemma FilterPush<T(!new)>(s: seq<T>, x: T, keep: T -> bool)
    ensures Filter(s + [x], keep) == Filter(s, keep) + if keep(x) then [x] else []
  {
    assert (s + [x])[..|s|] == s;
  }

  /** One more element of a prefix is one more step of the filter. */
  lemma FilterPrefix<T(!new)>(s: seq<T>, n: nat, keep: T -> bool)
    requires n < |s|
    ensures Filter(s[..n + 1], keep) == Filter(s[..n], keep) + if keep(s[n]) then [s[n]] else []
  {
    assert s[..n + 1] == s[..n] + [s[n]];
    FilterPush(s[..n], s[n], keep);
  }

  lemma {:induction false} FilterNoDuplicates<T(!new)>(s: seq<T>, keep: T -> bool)
    requires NoDuplicates(s)
    ensures NoDuplicates(Filter(s, keep))
  {
    if s != [] {
      FilterNoDuplicates(s[..|s| - 1], keep);
      assert s[|s| - 1] !in s[..|s| - 1];
    }
  }

  lemma {:induction false} FilterAgree<T(!new)>(s: seq<T>, p: T -> bool, q: T -> bool)
    requires forall x :: x in s ==> p(x) == q(x)
    ensures Filter(s, p) == Filter(s, q)
  {
    if s != [] {
      FilterAgree(s[..|s| - 1], p, q);
    }
  }

  lemma {:induction false} FilterAll<T(!new)>(s: seq<T>, p: T -> bool)
    requires forall x :: x in s ==> p(x)
    ensures Filter(s, p) == s
  {
    if s != [] {
      assert s == s[..|s| - 1] + [s[|s| - 1]];
      FilterAll(s[..|s| - 1], p);
    }
  }

  lemma {:induction false} FilterNone<T(!new)>(s: seq<T>, p: T -> bool)
    requires forall x :: x in s ==> !p(x)
    ensures Filter(s, p) == []
  {
    if s != [] {
      FilterNone(s[..|s| - 1], p);
    }
  }

  function Count(b: bool): nat { if b then 1 else 0 }

  /** Subtraction that stops at zero. */
  function SaturatingSub(a: nat, b: nat): nat { if a >= b then a - b else 0 }

  function AtLeastOne(n: nat): nat { if n == 0 then 1 else n }

  /** Two filters that differ at one element of a duplicate-free sequence differ in length by that element. */
  lemma {:induction false} FilterChangeOne<T(!new)>(s: seq<T>, p: T -> bool, q: T -> bool, x: T)
    requires NoDuplicates(s)
    requires forall y :: y in s && y != x ==> p(y) == q(y)
    ensures |Filter(s, q)| + Count(x in s && p(x)) == |Filter(s, p)| + Count(x in s && q(x))
  {
    if s != [] {
      var front, last := s[..|s| - 1], s[|s| - 1];
      assert last !in front;
      FilterChangeOne(front, p, q, x);
    }
  }

  /** Where x first occurs in s. */
  function IndexOf<T(==)>(s: seq<T>, x: T): (i: nat)
    requires x in s
    ensures i < |s| && s[i] == x && x !in s[..i]
  {
    if s[0] == x then 0
    else
      var i := IndexOf(s[1..], x);
      assert s[..1 + i] == [s[0]] + s[1..][..i];
      1 + i
  }

  /** The sequence without the first occurrence of x. */
  function RemoveFirst<T(==)>(s: seq<T>, x: T): seq<T> {
    if x in s then var i := IndexOf(s, x); s[..i] + s[i + 1..] else s
  }

  lemma RemoveFirstMembers<T>(s: seq<T>, x: T)
    requires NoDuplicates(s)
    ensures NoDuplicates(RemoveFirst(s, x))
    ensures forall y :: y in RemoveFirst(s, x) <==> y in s && y != x
  {
    var r := RemoveFirst(s, x);
    if x in s {
      var i := IndexOf(s, x);
      forall y | y in s && y != x ensures y in r {
        var k :| 0 <= k < |s| && s[k] == y;
        assert r[if k < i then k else k - 1] == y;
      }
      forall y | y in r ensures y in s && y != x {
        var k :| 0 <= k < |r| && r[k] == y;
        assert s[if k < i then k else k + 1] == y;
      }
    }
  }

  lemma FirstIndex<T>(s: seq<T>, i: nat, x: T)
    requires i < |s| && s[i] == x && forall m :: 0 <= m < i ==> s[m] != x
    ensures IndexOf(s, x) == i
  {
    var k := IndexOf(s, x);
    assert forall m :: 0 <= m < k ==> s[..k][m] == s[m];
  }

  lemma IndexOfUnique<T>(s: seq<T>, i: nat)
    requires NoDuplicates(s) && i < |s|
    ensures IndexOf(s, s[i]) == i
  {
  }

  lemma ConcatNoDuplicates<T>(a: seq<T>, b: seq<T>)
    requires NoDuplicates(a) && NoDuplicates(b)
    requires forall x :: x in a ==> x !in b
    ensures NoDuplicates(a + b)
  {
    forall i, j | 0 <= i < j < |a + b| ensures (a + b)[i] != (a + b)[j] {
      if i < |a| <= j {
        assert a[i] in a && b[j - |a|] in b;
      }
    }
  }

  /** Strictly increasing keys and equal members leave no freedom: the sequences are equal. */
  lemma {:induction false} SortedUnique<T>(a: seq<T>, b: seq<T>, key: T -> int)
    requires forall i, j :: 0 <= i < j < |a| ==> key(a[i]) < key(a[j])
    requires forall i, j :: 0 <= i < j < |b| ==> key(b[i]) < key(b[j])
    requires forall x :: x in a <==> x in b
    ensures a == b
    decreases |a|
  {
    assert b != [] ==> b[0] in a;
    if a != [] {
      assert a[|a| - 1] in b;
      assert b[|b| - 1] in a;
      var a', b' := a[..|a| - 1], b[..|b| - 1];
      assert a[|a| - 1] == b[|b| - 1];
      forall x ensures x in a' <==> x in b' {
        if x in a' {
          assert x in b;
        }
        if x in b' {
          assert x in a;
        }
      }
      SortedUnique(a', b', key);
      assert a == a' + [a[|a| - 1]];
      assert b == b' + [b[|b| - 1]];
    }
  }

  /** The elements of t stand in the order in which s lists them. */
  ghost predicate InOrderOf<T>(t: seq<T>, s: seq<T>) {
    && (forall x :: x in t ==> x in s)
    && (forall i, j :: 0 <= i < j < |t| ==> IndexOf(s, t[i]) < IndexOf(s, t[j]))
  }

  lemma InOrderOfItself<T>(s: seq<T>)
    requires NoDuplicates(s)
    ensures InOrderOf(s, s)
  {
    forall i | 0 <= i < |s| ensures IndexOf(s, s[i]) == i {
      IndexOfUnique(s, i);
    }
  }

  /** The same elements in the same order are the same sequence. */
  lemma InOrderEqual<T>(t: seq<T>, s: seq<T>)
    requires NoDuplicates(s) && InOrderOf(t, s) && forall x :: x in s ==> x in t
    ensures t == s
  {
    InOrderOfItself(s);
    SortedUnique(t, s, x => if x in s then IndexOf(s, x) else 0);
  }

  lemma {:induction false} CardinalityOfDistinct<T>(s: seq<T>)
    requires NoDuplicates(s)
    ensures |set x | x in s| == |s|
  {
    if s != [] {
      var front, last := s[..|s| - 1], s[|s| - 1];
      CardinalityOfDistinct(front);
      assert (set x | x in s) == (set x | x in front) + {last};
      assert last !in front;
    }
  }

  lemma {:induction false} MultiplicityOfDistinct<T>(s: seq<T>, x: T)
    requires NoDuplicates(s)
    ensures multiset(s)[x] == Count(x in s)
  {
    if s != [] {
      var front, last := s[..|s| - 1], s[|s| - 1];
      MultiplicityOfDistinct(front, x);
      assert s == front + [last];
    }
  }

  function Range(n: nat): seq<nat> { seq(n, i => i) }

  lemma InRange(n: nat, i: nat)
    ensures i in Range(n) <==> i < n
  {
    if i < n {
      assert Range(n)[i] == i;
    }
  }

  ghost function Below(n: nat): (r: set<nat>)
    ensures |r| == n && forall i: nat :: i in r <==> i < n
  {
    if n == 0 then {} else Below(n - 1) + {n - 1}
  }

  /** Distinct numbers below n are at most n many. */
  lemma DistinctBelow(s: seq<nat>, n: nat)
    requires NoDuplicates(s) && forall x :: x in s ==> x < n
    ensures |s| <= n
  {
    var members := set x | x in s;
    CardinalityOfDistinct(s);
    SubsetSize(members, Below(n));
  }

  lemma SubsetSize<T>(a: set<T>, b: set<T>)
    requires a <= b
    ensures |a| <= |b|
  {
    assert b == a + (b - a);
  }
}
