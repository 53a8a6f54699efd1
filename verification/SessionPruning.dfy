/** What pruning leaves: every unfinished session, at most 20 finished ones, and none older than a dropped one. */
module SessionPruning {
  import opened Wrappers
  import opened SessionModel

  predicate Distinct(ids: seq<Id>) { forall i, j :: 0 <= i < j < |ids| ==> ids[i] != ids[j] }

  predicate Sorted(all: map<Id, Session>, ids: seq<Id>)
  {
    forall i, j :: 0 <= i < j < |ids| ==> AgeOf(all, ids[i]) <= AgeOf(all, ids[j])
  }

  lemma LastCounts(ids: seq<Id>)
    requires ids != []
    ensures multiset(ids) == multiset(ids[..|ids| - 1]) + multiset{ids[|ids| - 1]}
  {
    assert ids == ids[..|ids| - 1] + [ids[|ids| - 1]];
  }

  lemma {:induction false} InsertRearranges(all: map<Id, Session>, ids: seq<Id>, id: Id)
    ensures multiset(Insert(all, ids, id)) == multiset(ids) + multiset{id}
  {
    var r := Insert(all, ids, id);
    if ids == [] || AgeOf(all, ids[|ids| - 1]) <= AgeOf(all, id) {
      assert r == ids + [id];
    } else {
      InsertRearranges(all, ids[..|ids| - 1], id);
      LastCounts(ids);
      assert r == Insert(all, ids[..|ids| - 1], id) + [ids[|ids| - 1]];
    }
  }

  lemma {:induction false} ByAgeRearranges(all: map<Id, Session>, ids: seq<Id>)
    ensures multiset(ByAge(all, ids)) == multiset(ids)
  {
    if ids == [] {
      assert |ByAge(all, ids)| == 0;
    } else {
      var init := ids[..|ids| - 1];
      ByAgeRearranges(all, init);
      InsertRearranges(all, ByAge(all, init), ids[|ids| - 1]);
      LastCounts(ids);
    }
  }

  lemma {:induction false} InsertSorts(all: map<Id, Session>, ids: seq<Id>, id: Id)
    requires Sorted(all, ids)
    ensures Sorted(all, Insert(all, ids, id))
  {
    if ids != [] && !(AgeOf(all, ids[|ids| - 1]) <= AgeOf(all, id)) {
      var init, last := ids[..|ids| - 1], ids[|ids| - 1];
      InsertSorts(all, init, id);
      InsertRearranges(all, init, id);
      var r := Insert(all, init, id);
      forall other | other in r
        ensures AgeOf(all, other) <= AgeOf(all, last)
      {
        assert other in multiset(r);
        assert other in init || other == id;
      }
    }
  }

  lemma {:induction false} ByAgeSorts(all: map<Id, Session>, ids: seq<Id>)
    ensures Sorted(all, ByAge(all, ids))
  {
    if ids != [] {
      ByAgeSorts(all, ids[..|ids| - 1]);
      InsertSorts(all, ByAge(all, ids[..|ids| - 1]), ids[|ids| - 1]);
    }
  }

  lemma {:induction false} FinishedIsDistinct(all: map<Id, Session>, order: seq<Id>)
    requires Distinct(order)
    ensures Distinct(Finished(all, order))
  {
    if order != [] {
      var init, last := order[..|order| - 1], order[|order| - 1];
      FinishedIsDistinct(all, init);
      assert last !in init;
      assert last !in Finished(all, init);
    }
  }

  function Elements(ids: seq<Id>): set<Id> { set id | id in ids }

  lemma {:induction false} DistinctCounts(ids: seq<Id>)
    requires Distinct(ids)
    ensures |Elements(ids)| == |ids|
  {
    if ids == [] {
      assert Elements(ids) == {};
    } else {
      var init, last := ids[..|ids| - 1], ids[|ids| - 1];
      DistinctCounts(init);
      assert last !in init && ids == init + [last];
      assert Elements(ids) == Elements(init) + {last};
    }
  }

  lemma {:induction false} DistinctOnce(ids: seq<Id>, x: Id)
    requires Distinct(ids)
    ensures multiset(ids)[x] <= 1
  {
    if ids != [] {
      var init, last := ids[..|ids| - 1], ids[|ids| - 1];
      DistinctOnce(init, x);
      assert ids == init + [last];
      assert last !in init;
    }
  }

  lemma RearrangedIsDistinct(ids: seq<Id>, other: seq<Id>)
    requires Distinct(ids) && multiset(ids) == multiset(other)
    ensures Distinct(other)
  {
    forall i, j | 0 <= i < j < |other|
      ensures other[i] != other[j]
    {
      var x := other[j];
      DistinctOnce(ids, x);
      assert other == other[..j] + other[j..];
      assert multiset(other)[x] == multiset(other[..j])[x] + multiset(other[j..])[x];
      assert x == other[j..][0] && x in other[j..];
      assert x !in multiset(other[..j]);
      assert other[i] == other[..j][i] && other[i] in other[..j];
    }
  }

  lemma {:induction false} WithoutIsDistinct(order: seq<Id>, dropped: seq<Id>)
    requires Distinct(order)
    ensures Distinct(Without(order, dropped))
  {
    if order != [] {
      WithoutIsDistinct(order[..|order| - 1], dropped);
      assert order[|order| - 1] !in order[..|order| - 1];
      assert order[|order| - 1] !in Without(order[..|order| - 1], dropped);
    }
  }

  lemma {:induction false} FinishedWithout(all: map<Id, Session>, order: seq<Id>, dropped: seq<Id>)
    ensures Finished(all, Without(order, dropped)) == Without(Finished(all, order), dropped)
  {
    if order != [] {
      var init, last := order[..|order| - 1], order[|order| - 1];
      FinishedWithout(all, init, dropped);
      var kept, finished := Without(init, dropped), Finished(all, init);
      assert (kept + [last])[..|kept|] == kept && (finished + [last])[..|finished|] == finished;
    }
  }

  lemma WithoutCounts(ids: seq<Id>, dropped: seq<Id>)
    requires Distinct(ids) && Distinct(dropped) && forall id :: id in dropped ==> id in ids
    ensures |Without(ids, dropped)| == |ids| - |dropped|
  {
    WithoutIsDistinct(ids, dropped);
    DistinctCounts(ids);
    DistinctCounts(dropped);
    DistinctCounts(Without(ids, dropped));
    assert Elements(Without(ids, dropped)) == Elements(ids) - Elements(dropped);
    assert Elements(ids) * Elements(dropped) == Elements(dropped);
  }

  /** The front of the sorted sessions: distinct, some of them, and none younger than one behind. */
  lemma FrontIsOldest(all: map<Id, Session>, ids: seq<Id>, sorted: seq<Id>, n: nat)
    requires Distinct(ids) && Sorted(all, sorted) && multiset(sorted) == multiset(ids) && n <= |sorted|
    ensures Distinct(sorted[..n])
    ensures forall id :: id in sorted[..n] ==> id in ids
    ensures forall gone, kept :: gone in sorted[..n] && kept in ids && kept !in sorted[..n] ==>
        AgeOf(all, gone) <= AgeOf(all, kept)
  {
    RearrangedIsDistinct(ids, sorted);
    forall id | id in sorted[..n]
      ensures id in ids
    {
      assert id in multiset(sorted);
    }
    forall gone, kept | gone in sorted[..n] && kept in ids && kept !in sorted[..n]
      ensures AgeOf(all, gone) <= AgeOf(all, kept)
    {
      assert kept in multiset(sorted);
      var i :| 0 <= i < n && sorted[i] == gone;
      var j :| 0 <= j < |sorted| && sorted[j] == kept;
      assert forall k :: 0 <= k < n ==> sorted[..n][k] == sorted[k] && sorted[k] in sorted[..n];
      assert j >= n;
    }
  }

  /** `gone` are ids of `ids`, none of them younger than one that is not among them. */
  predicate Oldest(all: map<Id, Session>, gone: seq<Id>, ids: seq<Id>) {
    && (forall id :: id in gone ==> id in ids)
    && (forall a, b :: a in gone && b in ids && b !in gone ==> AgeOf(all, a) <= AgeOf(all, b))
  }

  lemma DroppedOfSorted(all: map<Id, Session>, ids: seq<Id>, sorted: seq<Id>, gone: seq<Id>)
    requires Distinct(ids) && Sorted(all, sorted) && multiset(sorted) == multiset(ids) && |sorted| == |ids|
    requires gone == if |ids| <= MAX_RETAINED then [] else sorted[..|ids| - MAX_RETAINED]
    ensures Distinct(gone) && Oldest(all, gone, ids)
  {
    if |ids| > MAX_RETAINED { FrontIsOldest(all, ids, sorted, |ids| - MAX_RETAINED); }
  }

  /** The dropped sessions are distinct, as many as are in excess, and the oldest of the finished ones. */
  lemma DroppedAreTheOldest(all: map<Id, Session>, order: seq<Id>)
    requires Registered(all, order)
    ensures Distinct(Dropped(all, order)) && Oldest(all, Dropped(all, order), Finished(all, order))
    ensures |Dropped(all, order)| == if |Finished(all, order)| <= MAX_RETAINED then 0
            else |Finished(all, order)| - MAX_RETAINED
  {
    FinishedIsDistinct(all, order);
    ByAgeRearranges(all, Finished(all, order));
    ByAgeSorts(all, Finished(all, order));
    DroppedOfSorted(all, Finished(all, order), ByAge(all, Finished(all, order)), Dropped(all, order));
  }

  /** Pruning keeps every unfinished session and exactly the newest finished ones, at most 20, in their
      old order. */
  lemma PruneKeepsTheNewest(all: map<Id, Session>, order: seq<Id>)
    requires Registered(all, order)
    ensures var kept := Prune(all, order);
            && Registered(all, kept)
            && (forall id :: id in order && !IsFinished(all, id) ==> id in kept)
            && (forall id :: id in kept ==> id in order)
            && |Finished(all, kept)| == (if |Finished(all, order)| <= MAX_RETAINED then |Finished(all, order)|
                                         else MAX_RETAINED)
            && (forall gone, stays :: gone in order && gone !in kept && stays in kept && IsFinished(all, stays) ==>
                  IsFinished(all, gone) && AgeOf(all, gone) <= AgeOf(all, stays))
  {
    var dropped := Dropped(all, order);
    DroppedAreTheOldest(all, order);
    WithoutIsDistinct(order, dropped);
    FinishedWithout(all, order, dropped);
    FinishedIsDistinct(all, order);
    WithoutCounts(Finished(all, order), dropped);
  }

  /** Where only one session may have become finished, at most one more is counted. */
  lemma {:induction false} FinishedGrowsByOne(all: map<Id, Session>, all': map<Id, Session>, order: seq<Id>, id: Id)
    requires Distinct(order)
    requires forall other :: other in order && other != id && IsFinished(all', other) ==> IsFinished(all, other)
    ensures |Finished(all', order)| <= |Finished(all, order)| + (if id in order && IsFinished(all', id)
                                                                 && !IsFinished(all, id) then 1 else 0)
  {
    if order != [] {
      var init, last := order[..|order| - 1], order[|order| - 1];
      FinishedGrowsByOne(all, all', init, id);
      assert last !in init;
    }
  }
}
