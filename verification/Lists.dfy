/** Lists without duplicates, and removing an element from them. */
module Lists {
  predicate NoDuplicates<T(==)>(s: seq<T>) {
    forall i, j :: 0 <= i < j < |s| ==> s[i] != s[j]
  }

  function Without<T(==)>(s: seq<T>, x: T): seq<T> {
    if s == [] then [] else (if s[0] == x then [] else [s[0]]) + Without(s[1..], x)
  }

  lemma SplitAt<T>(s: seq<T>, i: nat)
    requires i < |s|
    ensures s[..i] + [s[i]] + s[i + 1..] == s && [s[i]] + s[i + 1..] == s[i..]
  {}

  lemma {:induction false} WithoutAbsent<T>(s: seq<T>, x: T)
    requires x !in s
    ensures Without(s, x) == s
  {
    if s != [] { WithoutAbsent(s[1..], x); }
  }

  /** `Without` in one step on a list without duplicates: the elements around the position close up. */
  lemma {:induction false} WithoutAt<T>(s: seq<T>, i: nat)
    requires NoDuplicates(s) && i < |s|
    ensures Without(s, s[i]) == s[..i] + s[i + 1..]
  {
    if i == 0 {
      WithoutAbsent(s[1..], s[0]);
      assert s[..0] + s[1..] == s[1..];
    } else {
      WithoutAt(s[1..], i - 1);
      assert s[1..][i - 1] == s[i] && s[1..][i..] == s[i + 1..];
      assert [s[0]] + s[1..][..i - 1] == s[..i];
    }
  }

  lemma CutKeeps<T>(s: seq<T>, i: nat)
    requires NoDuplicates(s) && i < |s|
    ensures NoDuplicates(s[..i] + s[i + 1..]) && s[i] !in s[..i] + s[i + 1..]
    ensures forall x :: x in s && x != s[i] ==> x in s[..i] + s[i + 1..]
  {}

  /** Removing an element keeps the others ... */
  lemma WithoutMember<T>(s: seq<T>, x: T)
    requires NoDuplicates(s) && x in s
    ensures NoDuplicates(Without(s, x))
    ensures forall y <- Without(s, x) :: y in s && y != x
    ensures forall y <- s :: y != x ==> y in Without(s, x)
  {
    var i :| 0 <= i < |s| && s[i] == x;
    WithoutAt(s, i);
    CutKeeps(s, i);
  }

  lemma WithoutCount<T>(s: seq<T>, x: T)
    requires NoDuplicates(s) && x in s
    ensures multiset(Without(s, x)) + multiset{x} == multiset(s)
  {
    var i :| 0 <= i < |s| && s[i] == x;
    WithoutAt(s, i);
    SplitAt(s, i);
    calc {
      multiset(s);
      multiset(s[..i] + [x] + s[i + 1..]);
      multiset(s[..i]) + multiset([x]) + multiset(s[i + 1..]);
    }
  }

  /** ... and whatever stands before it. */
  lemma {:induction false} WithoutPrefix<T>(s: seq<T>, p: seq<T>, x: T)
    requires p <= s && x !in p
    ensures p <= Without(s, x)
  {
    if p != [] {
      WithoutPrefix(s[1..], p[1..], x);
      assert p == [p[0]] + p[1..];
    }
  }

  lemma PartsNoDuplicates<T>(a: seq<T>, b: seq<T>)
    requires NoDuplicates(a + b)
    ensures NoDuplicates(a) && NoDuplicates(b) && forall x <- a :: x !in b
  {
    assert forall i :: 0 <= i < |a| ==> (a + b)[i] == a[i];
    assert forall i :: 0 <= i < |b| ==> (a + b)[|a| + i] == b[i];
    forall x | x in a
      ensures x !in b
    {
      var i :| 0 <= i < |a| && a[i] == x;
      assert (a + b)[i] == x;
      assert forall k :: 0 <= k < |b| ==> b[k] != x;
    }
  }

  function Elements<T>(s: seq<T>): set<T> { set x | x in s }

  lemma ElementsFirst<T>(s: seq<T>)
    requires s != []
    ensures Elements(s) == Elements(s[1..]) + {s[0]}
  {
    assert s == [s[0]] + s[1..];
  }

  lemma {:induction false} CountNoDuplicates<T>(s: seq<T>)
    requires NoDuplicates(s)
    ensures |Elements(s)| == |s|
  {
    if s == [] {
      assert Elements(s) == {};
    } else {
      CountNoDuplicates(s[1..]);
      assert s[0] !in s[1..];
      assert Elements(s) == Elements(s[1..]) + {s[0]};
    }
  }
}
