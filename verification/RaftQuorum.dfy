/** The counting behind elections and commits. */
module RaftQuorum {
  import opened FiniteSets
  import opened RaftModel

  function CountAtLeast(s: seq<int>, x: int): nat
  {
    if s == [] then 0 else CountAtLeast(s[1..], x) + if s[0] >= x then 1 else 0
  }

  predicate Ascending(s: seq<int>)
  {
    forall i, j :: 0 <= i < j < |s| ==> s[i] <= s[j]
  }

  lemma {:induction false} InsertCounts(a: int, s: seq<int>, x: int)
    ensures CountAtLeast(Insert(a, s), x) == CountAtLeast(s, x) + if a >= x then 1 else 0
  {
    if s == [] || a <= s[0] {
      assert ([a] + s)[1..] == s;
    } else {
      InsertCounts(a, s[1..], x);
      assert Insert(a, s)[1..] == Insert(a, s[1..]);
    }
  }

  lemma {:induction false} InsertAscending(a: int, s: seq<int>)
    requires Ascending(s)
    ensures Ascending(Insert(a, s))
  {
    if s != [] && a > s[0] {
      var r := Insert(a, s[1..]);
      InsertAscending(a, s[1..]);
      forall i: nat | i < |r|
        ensures s[0] <= r[i]
      {
        InsertedFrom(a, s[1..], i);
      }
      AscendingAfter(s[0], r);
    }
  }

  lemma InsertedFrom(a: int, s: seq<int>, i: nat)
    requires i < |Insert(a, s)|
    ensures Insert(a, s)[i] == a || Insert(a, s)[i] in s
  {
    hide Insert;
    var x := Insert(a, s)[i];
    assert x in multiset(Insert(a, s));
    assert x in multiset(s) || x == a;
  }

  lemma AscendingAfter(first: int, r: seq<int>)
    requires Ascending(r) && forall i :: 0 <= i < |r| ==> first <= r[i]
    ensures Ascending([first] + r)
  {
  }

  lemma {:induction false} SortCorrect(s: seq<int>, x: int)
    ensures Ascending(SortInts(s)) && CountAtLeast(SortInts(s), x) == CountAtLeast(s, x)
  {
    if s != [] {
      SortCorrect(s[1..], x);
      InsertAscending(s[0], SortInts(s[1..]));
      InsertCounts(s[0], SortInts(s[1..]), x);
    }
  }

  lemma {:induction false} AscendingTail(s: seq<int>, k: nat)
    requires Ascending(s) && k < |s|
    ensures CountAtLeast(s, s[k]) >= |s| - k
  {
    if k == 0 {
      AllCounted(s, s[0]);
    } else {
      AscendingTail(s[1..], k - 1);
    }
  }

  lemma {:induction false} AllCounted(s: seq<int>, x: int)
    requires forall i :: 0 <= i < |s| ==> s[i] >= x
    ensures CountAtLeast(s, x) == |s|
  {
    if s != [] {
      AllCounted(s[1..], x);
    }
  }

  /** The servers whose match index reaches `x`. */
  function Reaching(matchIndex: seq<int>, x: int): set<nat>
  {
    set i: nat | i < |matchIndex| && matchIndex[i] >= x
  }

  lemma {:induction false} ReachingSize(s: seq<int>, x: int)
    ensures |Reaching(s, x)| == CountAtLeast(s, x)
  {
    if s != [] {
      var rest := Reaching(s[1..], x);
      ReachingSize(s[1..], x);
      ShiftedSize(rest);
      ReachingFirst(s, x);
      hide Reaching, Shifted;
      if s[0] >= x {
        assert |Shifted(rest) + {0}| == |Shifted(rest)| + 1;
      }
    }
  }

  lemma ReachingFirst(s: seq<int>, x: int)
    requires s != []
    ensures var later := Shifted(Reaching(s[1..], x)); 0 !in later && Reaching(s, x) == if s[0] >= x then later + {0} else later
  {
    forall i | i in Reaching(s, x) && i > 0
      ensures i in Shifted(Reaching(s[1..], x))
    {
      assert i - 1 in Reaching(s[1..], x);
    }
  }

  function Shifted(a: set<nat>): set<nat>
  {
    set i | i in a :: i + 1
  }

  lemma {:induction false} ShiftedSize(a: set<nat>)
    ensures |Shifted(a)| == |a|
  {
    if a != {} {
      var x :| x in a;
      ShiftedSize(a - {x});
      assert Shifted(a) == Shifted(a - {x}) + {x + 1} by {
        assert x + 1 in Shifted(a);
        forall i | i in Shifted(a) && i != x + 1
          ensures i in Shifted(a - {x})
        {
          assert i - 1 in a - {x};
        }
      }
      assert x + 1 !in Shifted(a - {x});
    }
  }

  /** For every cluster size, odd or even: the commit point is reached by at least n - n/2 servers. */
  lemma CommitPointReached(matchIndex: seq<int>)
    requires matchIndex != []
    ensures |Reaching(matchIndex, CommitPoint(matchIndex))| >= |matchIndex| - |matchIndex| / 2
  {
    var sorted, k := SortInts(matchIndex), |matchIndex| / 2;
    SortCorrect(matchIndex, sorted[k]);
    AscendingTail(sorted, k);
    ReachingSize(matchIndex, sorted[k]);
  }

  /** So every voting majority contains a server that has reached it. */
  lemma CommitMeetsVotes(matchIndex: seq<int>, voters: set<nat>) returns (x: nat)
    requires matchIndex != [] && (forall v :: v in voters ==> v < |matchIndex|) && |voters| > |matchIndex| / 2
    ensures x in voters && x < |matchIndex| && matchIndex[x] >= CommitPoint(matchIndex)
  {
    CommitPointReached(matchIndex);
    x := Meet(|matchIndex|, Reaching(matchIndex, CommitPoint(matchIndex)), voters);
  }

  lemma CommitPointMember(matchIndex: seq<int>)
    requires matchIndex != []
    ensures CommitPoint(matchIndex) in matchIndex
  {
    hide SortInts;
    assert CommitPoint(matchIndex) in multiset(SortInts(matchIndex));
  }

  lemma {:induction false} AscendingHead(s: seq<int>, k: nat, x: int)
    requires Ascending(s) && k < |s| && s[k] < x
    ensures CountAtLeast(s, x) < |s| - k
  {
    if k > 0 {
      AscendingHead(s[1..], k - 1, x);
    } else {
      CountBound(s[1..], x);
    }
  }

  lemma {:induction false} CountBound(s: seq<int>, x: int)
    ensures CountAtLeast(s, x) <= |s|
  {
    if s != [] {
      CountBound(s[1..], x);
    }
  }

  lemma {:induction false} CountFalls(s: seq<int>, x: int, y: int)
    requires x <= y
    ensures CountAtLeast(s, y) <= CountAtLeast(s, x)
  {
    if s != [] {
      CountFalls(s[1..], x, y);
    }
  }

  /** The commit point is the largest index that enough servers have reached. */
  lemma CommitPointIs(matchIndex: seq<int>, x: int)
    requires matchIndex != [] && CountAtLeast(matchIndex, x) >= |matchIndex| - |matchIndex| / 2 > CountAtLeast(matchIndex, x + 1)
    ensures CommitPoint(matchIndex) == x
  {
    hide SortInts, CountAtLeast, Ascending;
    var s, k := SortInts(matchIndex), |matchIndex| / 2;
    SortCorrect(matchIndex, x);
    SortCorrect(matchIndex, x + 1);
    SortCorrect(matchIndex, s[k]);
    AscendingTail(s, k);
    if s[k] < x {
      AscendingHead(s, k, x);
    } else if s[k] > x {
      CountFalls(s, x + 1, s[k]);
    }
  }

  lemma CountOne(s: seq<int>, x: int)
    requires s != []
    ensures CountAtLeast(s, x) == CountAtLeast(s[1..], x) + if s[0] >= x then 1 else 0
  {
  }

  lemma CountThree(a: int, b: int, c: int, x: int)
    ensures CountAtLeast([a, b, c], x) == (if a >= x then 1 else 0) + (if b >= x then 1 else 0) + (if c >= x then 1 else 0)
  {
    hide CountAtLeast;
    CountOne([a, b, c], x);
    assert [a, b, c][1..] == [b, c];
    CountOne([b, c], x);
    assert [b, c][1..] == [c];
    CountOne([c], x);
    CountNone(x);
    assert [c][1..] == [];
  }

  lemma CountNone(x: int)
    ensures CountAtLeast([], x) == 0
  {
  }

  lemma CountFive(a: int, b: int, c: int, d: int, e: int, x: int)
    ensures CountAtLeast([a, b, c, d, e], x) ==
            (if a >= x then 1 else 0) + (if b >= x then 1 else 0) + CountAtLeast([c, d, e], x)
  {
    hide CountAtLeast;
    CountOne([a, b, c, d, e], x);
    assert [a, b, c, d, e][1..] == [b, c, d, e];
    CountOne([b, c, d, e], x);
    assert [b, c, d, e][1..] == [c, d, e];
  }
}
