/** Re-ranking and eviction of one population: a stable sort by descending
    utility followed by the capacity cut of TaskletScheduler.java:81-93. */
module Ranking {
  import opened Tasklets

  /** The hard capacity of each population after ranking. */
  const Capacity: nat := 20000

  /** The utility of every tasklet at the current time, as an integer key. */
  type Utility = Tasklet -> int

  function Min(a: int, b: int): int
  {
    if a <= b then a else b
  }

  /** Non-increasing utility from front to back. */
  ghost predicate SortedDesc(s: seq<Tasklet>, utility: Utility)
  {
    forall i, j :: 0 <= i < j < |s| ==> utility(s[i]) >= utility(s[j])
  }

  /** The tasklets of `s` whose utility is exactly `u`, in their order in `s`. */
  function OfUtility(s: seq<Tasklet>, utility: Utility, u: int): seq<Tasklet>
  {
    if s == [] then []
    else (if utility(s[0]) == u then [s[0]] else []) + OfUtility(s[1..], utility, u)
  }

  /** Places `x` in front of the first tasklet whose utility does not exceed
      its own, so that `x` precedes every tasklet of equal utility. */
  function Insert(x: Tasklet, s: seq<Tasklet>, utility: Utility): seq<Tasklet>
  {
    if s == [] || utility(x) >= utility(s[0]) then [x] + s
    else [s[0]] + Insert(x, s[1..], utility)
  }

  /** Inserting gives a permutation of the list plus the new tasklet. */
  lemma {:induction false} InsertPermutes(x: Tasklet, s: seq<Tasklet>, utility: Utility)
    ensures multiset(Insert(x, s, utility)) == multiset(s) + multiset{x}
  {
    if s != [] && utility(x) < utility(s[0]) {
      InsertPermutes(x, s[1..], utility);
      assert s == [s[0]] + s[1..];
    }
  }

  /** The list order produced by the library's stable sort with the
      descending-utility comparator of TaskletScheduler.java:88. */
  function SortByUtility(s: seq<Tasklet>, utility: Utility): (r: seq<Tasklet>)
    ensures multiset(r) == multiset(s)
    ensures |r| == |s|
  {
    if s == [] then []
    else
      assert s == [s[0]] + s[1..];
      InsertPermutes(s[0], SortByUtility(s[1..], utility), utility);
      Insert(s[0], SortByUtility(s[1..], utility), utility)
  }

  /** The effect of removing index Capacity - 1 while the list is longer than
      Capacity: the first Capacity - 1 tasklets and the last one survive. */
  function Truncated(s: seq<Tasklet>): seq<Tasklet>
  {
    if |s| <= Capacity then s else s[..Capacity - 1] + [s[|s| - 1]]
  }

  lemma ConsSorted(h: Tasklet, q: seq<Tasklet>, utility: Utility)
    requires SortedDesc(q, utility)
    requires forall k :: 0 <= k < |q| ==> utility(q[k]) <= utility(h)
    ensures SortedDesc([h] + q, utility)
  {
    var r := [h] + q;
    forall i, j | 0 <= i < j < |r| ensures utility(r[i]) >= utility(r[j]) {
      assert r[j] == q[j - 1];
      if i > 0 {
        assert r[i] == q[i - 1];
      }
    }
  }

  lemma {:induction false} InsertBelow(x: Tasklet, s: seq<Tasklet>, utility: Utility, bound: int)
    requires utility(x) <= bound
    requires forall k :: 0 <= k < |s| ==> utility(s[k]) <= bound
    ensures forall k :: 0 <= k < |Insert(x, s, utility)| ==> utility(Insert(x, s, utility)[k]) <= bound
  {
    if s != [] && utility(x) < utility(s[0]) {
      InsertBelow(x, s[1..], utility, bound);
      var q := Insert(x, s[1..], utility);
      assert Insert(x, s, utility) == [s[0]] + q;
    }
  }

  lemma {:induction false} InsertSorted(x: Tasklet, s: seq<Tasklet>, utility: Utility)
    requires SortedDesc(s, utility)
    ensures SortedDesc(Insert(x, s, utility), utility)
  {
    if s == [] || utility(x) >= utility(s[0]) {
      ConsSorted(x, s, utility);
    } else {
      var t := s[1..];
      assert SortedDesc(t, utility);
      InsertSorted(x, t, utility);
      InsertBelow(x, t, utility, utility(s[0]));
      ConsSorted(s[0], Insert(x, t, utility), utility);
    }
  }

  /** The sort's result is ordered by non-increasing utility. */
  lemma {:induction false} SortedByUtility(s: seq<Tasklet>, utility: Utility)
    ensures SortedDesc(SortByUtility(s, utility), utility)
  {
    if s != [] {
      SortedByUtility(s[1..], utility);
      InsertSorted(s[0], SortByUtility(s[1..], utility), utility);
    }
  }

  /** Filtering a list with a given head is filtering the head, then the rest. */
  lemma OfUtilityCons(h: Tasklet, q: seq<Tasklet>, utility: Utility, u: int)
    ensures OfUtility([h] + q, utility, u) == (if utility(h) == u then [h] else []) + OfUtility(q, utility, u)
  {
    assert ([h] + q)[1..] == q;
  }

  lemma {:induction false} InsertStable(x: Tasklet, s: seq<Tasklet>, utility: Utility, u: int)
    ensures OfUtility(Insert(x, s, utility), utility, u)
         == (if utility(x) == u then [x] else []) + OfUtility(s, utility, u)
  {
    if s == [] || utility(x) >= utility(s[0]) {
      OfUtilityCons(x, s, utility, u);
    } else {
      // x has lower utility than s[0], so at most one of them has utility u.
      var t := s[1..];
      var q := Insert(x, t, utility);
      var hs := if utility(s[0]) == u then [s[0]] else [];
      var xs := if utility(x) == u then [x] else [];
      assert OfUtility(q, utility, u) == xs + OfUtility(t, utility, u) by {
        InsertStable(x, t, utility, u);
      }
      assert OfUtility(Insert(x, s, utility), utility, u) == hs + OfUtility(q, utility, u) by {
        assert Insert(x, s, utility) == [s[0]] + q;
        OfUtilityCons(s[0], q, utility, u);
      }
      assert OfUtility(s, utility, u) == hs + OfUtility(t, utility, u);
      assert hs == [] || xs == [];
    }
  }

  /** Stability: for every utility value, the tasklets with that value keep
      their relative order. */
  lemma {:induction false} SortIsStable(s: seq<Tasklet>, utility: Utility, u: int)
    ensures OfUtility(SortByUtility(s, utility), utility, u) == OfUtility(s, utility, u)
  {
    if s != [] {
      SortIsStable(s[1..], utility, u);
      InsertStable(s[0], SortByUtility(s[1..], utility), utility, u);
    }
  }

  /** The capacity cut: at most Capacity tasklets, all taken from the input,
      order kept; above the capacity the last tasklet replaces the one at
      index Capacity - 1. */
  lemma TruncatedProperties(s: seq<Tasklet>, utility: Utility)
    ensures |Truncated(s)| == Min(|s|, Capacity)
    ensures multiset(Truncated(s)) <= multiset(s)
    ensures SortedDesc(s, utility) ==> SortedDesc(Truncated(s), utility)
    ensures |s| <= Capacity ==> Truncated(s) == s
    ensures |s| > Capacity ==>
      Truncated(s)[..Capacity - 1] == s[..Capacity - 1] && Truncated(s)[Capacity - 1] == s[|s| - 1]
  {
    if |s| > Capacity {
      var n := |s|;
      var r := Truncated(s);
      assert s == s[..Capacity - 1] + s[Capacity - 1..n - 1] + [s[n - 1]];
      assert r[..Capacity - 1] == s[..Capacity - 1];
      if SortedDesc(s, utility) {
        forall i, j | 0 <= i < j < |r| ensures utility(r[i]) >= utility(r[j]) {
          assert r[i] == s[i];
          if j < Capacity - 1 {
            assert r[j] == s[j];
          } else {
            assert r[j] == s[n - 1];
          }
        }
      }
    }
  }

  /** What ranking keeps: at most Capacity tasklets, ordered by non-increasing
      utility, each taken from the input. */
  lemma RankedProperties(s: seq<Tasklet>, utility: Utility)
    ensures var r := Truncated(SortByUtility(s, utility));
      |r| == Min(|s|, Capacity) && SortedDesc(r, utility) &&
      multiset(r) <= multiset(s) && forall t :: t in r ==> t in s
  {
    var r := Truncated(SortByUtility(s, utility));
    SortedByUtility(s, utility);
    TruncatedProperties(SortByUtility(s, utility), utility);
    forall t | t in r ensures t in s {
      assert t in multiset(r);
    }
  }

  /** Ranks one population: sorts it by descending utility and cuts it to the
      capacity by repeatedly removing index Capacity - 1. */
  method SortByUtilityAndLimitSize(tasklets: seq<Tasklet>, utility: Utility) returns (r: seq<Tasklet>)
    ensures r == Truncated(SortByUtility(tasklets, utility))
    ensures |r| == Min(|tasklets|, Capacity)
    ensures SortedDesc(r, utility)
    ensures forall t :: t in r ==> t in tasklets
  {
    var sorted := SortByUtility(tasklets, utility);
    var n := |sorted|;
    r := sorted;
    while |r| > Capacity
      invariant n <= Capacity ==> r == sorted
      invariant n > Capacity ==>
        Capacity <= |r| <= n && r == sorted[..Capacity - 1] + sorted[n - (|r| - (Capacity - 1))..]
      decreases |r|
    {
      ghost var tail := sorted[n - (|r| - (Capacity - 1))..];
      assert r[Capacity..] == tail[1..];
      r := r[..Capacity - 1] + r[Capacity..];
      assert tail[1..] == sorted[n - (|r| - (Capacity - 1))..];
    }
    assert n > Capacity ==> sorted[n - 1..] == [sorted[n - 1]];
    assert r == Truncated(sorted);
    RankedProperties(tasklets, utility);
  }
}
