/**
 Equality of slices disregarding order.
 */
module SlicesEqual {
  /** The elements of s whose mark is set. */
  ghost function Taken<T>(s: seq<T>, found: seq<int>): multiset<T>
    requires |s| == |found|
  {
    if s == [] then multiset{}
    else
      var n := |s| - 1;
      Taken(s[..n], found[..n]) + (if found[n] == 1 then multiset{s[n]} else multiset{})
  }

  lemma {:induction false} TakenMore<T>(s: seq<T>, found: seq<int>, j: nat)
    requires |s| == |found| && j < |s| && found[j] != 1
    ensures Taken(s, found[j := 1]) == Taken(s, found) + multiset{s[j]}
  {
    var n := |s| - 1;
    if j == n {
      assert found[j := 1][..n] == found[..n];
    } else {
      TakenMore(s[..n], found[..n], j);
      assert found[j := 1][..n] == found[..n][j := 1];
    }
  }

  /** Of a value every occurrence of which is marked, all are taken; of any value, no more than there are. */
  lemma {:induction false} TakenAll<T>(s: seq<T>, found: seq<int>, x: T)
    requires |s| == |found|
    ensures Taken(s, found)[x] <= multiset(s)[x]
    ensures (forall j | 0 <= j < |s| && s[j] == x :: found[j] == 1) ==> Taken(s, found)[x] == multiset(s)[x]
  {
    if s != [] {
      var n := |s| - 1;
      TakenAll(s[..n], found[..n], x);
      assert s == s[..n] + [s[n]];
    }
  }

  lemma {:induction false} NoneTaken<T>(s: seq<T>, found: seq<int>)
    requires |s| == |found| && forall j | 0 <= j < |found| :: found[j] == 0
    ensures Taken(s, found) == multiset{}
  {
    if s != [] { NoneTaken(s[..|s| - 1], found[..|s| - 1]); }
  }

  /** A part as large as the whole is the whole. */
  lemma SameSize<T>(part: multiset<T>, all: multiset<T>)
    requires part <= all && |part| == |all|
    ensures part == all
  {
    var rest := all - part;
    assert all == part + rest;
    assert |rest| == 0;
  }

  lemma PrefixCount<T>(s: seq<T>, i: nat)
    requires i < |s|
    ensures multiset(s[..i + 1]) == multiset(s[..i]) + multiset{s[i]}
    ensures multiset(s)[s[i]] >= multiset(s[..i])[s[i]] + 1
  {
    assert s[..i + 1] == s[..i] + [s[i]];
    assert s == s[..i + 1] + s[i + 1..];
  }

  /** Looks for an unused element equal to x, from the front. */
  method FindUnused<T(==)>(x: T, s: seq<T>, found: array<int>) returns (j: nat)
    requires found.Length == |s|
    ensures j <= |s|
    ensures j < |s| ==> s[j] == x && found[j] != 1
    ensures j == |s| ==> forall k | 0 <= k < |s| && s[k] == x :: found[k] == 1
  {
    j := 0;
    while j < |s|
      invariant j <= |s|
      invariant forall k | 0 <= k < j && s[k] == x :: found[k] == 1
    {
      if found[j] == 1 {
        j := j + 1;
        continue;
      }
      if x == s[j] { return; }
      j := j + 1;
    }
  }

  /** Greedy matching with the first unused equal element decides equality as multisets. */
  method SlicesDeepEqual<T(==)>(s1: seq<T>, s2: seq<T>) returns (equal: bool)
    ensures equal <==> multiset(s1) == multiset(s2)
  {
    if |s1| != |s2| {
      assert |multiset(s1)| != |multiset(s2)|;
      return false;
    }
    if |s1| == 0 { return true; }
    var found := new int[|s2|](_ => 0);
    NoneTaken(s2, found[..]);
    for i := 0 to |s1|
      invariant Taken(s2, found[..]) == multiset(s1[..i])
    {
      var j := FindUnused(s1[i], s2, found);
      if j == |s2| {
        Unmatched(s1, i, s2, found[..]);
        return false;
      }
      ghost var marks := found[..];
      found[j] := 1;
      assert found[..] == marks[j := 1];
      Matched(s1, i, s2, marks, j);
    }
    AllMatched(s1, s2, found[..]);
    return true;
  }

  lemma Unmatched<T>(s1: seq<T>, i: nat, s2: seq<T>, marks: seq<int>)
    requires i < |s1| && |s2| == |marks| && Taken(s2, marks) == multiset(s1[..i])
    requires forall k | 0 <= k < |s2| && s2[k] == s1[i] :: marks[k] == 1
    ensures multiset(s1) != multiset(s2)
  {
    PrefixCount(s1, i);
    TakenAll(s2, marks, s1[i]);
    assert multiset(s1)[s1[i]] > multiset(s2)[s1[i]];
  }

  lemma Matched<T>(s1: seq<T>, i: nat, s2: seq<T>, marks: seq<int>, j: nat)
    requires i < |s1| && |s2| == |marks| && Taken(s2, marks) == multiset(s1[..i])
    requires j < |s2| && s2[j] == s1[i] && marks[j] != 1
    ensures Taken(s2, marks[j := 1]) == multiset(s1[..i + 1])
  {
    PrefixCount(s1, i);
    TakenMore(s2, marks, j);
  }

  lemma AllMatched<T>(s1: seq<T>, s2: seq<T>, marks: seq<int>)
    requires |s1| == |s2| == |marks| && Taken(s2, marks) == multiset(s1[..|s1|])
    ensures multiset(s1) == multiset(s2)
  {
    assert s1[..|s1|] == s1;
    forall x | x in multiset(s1) ensures multiset(s1)[x] <= multiset(s2)[x] { TakenAll(s2, marks, x); }
    SameSize(multiset(s1), multiset(s2));
  }
}
