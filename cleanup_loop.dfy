/** What the plugin's cleanup loop, a Python for-loop over a list that the
    body shrinks with list.remove, does after each iteration. The loop keeps
    an index into the live list; this module states the loop's state in
    terms of the list it started from. */
module CleanupLoop {
  import opened HandleList

  /** The state after the loop has visited orig[..m]:
      - `deleted` holds the ids passed to delete and
        `kept` the handles the index stepped over;
      - `live` is the list being iterated and `i` the iteration index;
      - `evens` and `odds` stand for Evens(orig) and Odds(orig). */
  ghost predicate Visited<T>(orig: seq<T>, evens: seq<T>, odds: seq<T>, m: int, kept: seq<T>,
                             deleted: seq<T>, live: seq<T>, i: int)
  {
    0 <= m <= |orig| &&
    deleted + Evens(orig[m..]) == evens &&
    kept + Odds(orig[m..]) == odds &&
    |live| == |kept| + |orig| - m &&
    live[|kept|..] == orig[m..] &&
    multiset(live[..|kept|]) == multiset(kept) &&
    multiset(kept) <= multiset(orig[..m]) &&
    (Distinct(orig) ==> live[..|kept|] == kept) &&
    (m == |orig| || m == 2 * i) &&
    (i == |kept| || (m == |orig| && i == |kept| + 1))
  }

  /** Before the first iteration nothing has been visited. */
  lemma VisitStart<T>(orig: seq<T>)
    ensures Visited(orig, Evens(orig), Odds(orig), 0, [], [], orig, 0)
  {
    assert orig[0..] == orig && orig[..0] == [];
  }

  /** One iteration: it deletes live[i], which is orig[m], removes it
      from live and moves the index on; the loop has then visited m' of the
      handles of orig, having stepped over the next one if there is one. */
  lemma VisitStep<T>(orig: seq<T>, evens: seq<T>, odds: seq<T>, m: int, kept: seq<T>,
                    deleted: seq<T>, live: seq<T>, i: int)
    returns (m': int, kept': seq<T>)
    requires Visited(orig, evens, odds, m, kept, deleted, live, i) && 0 <= i < |live|
    ensures live[i] == orig[m] && m < m'
    ensures Visited(orig, evens, odds, m', kept', deleted + [live[i]], Remove(live, live[i]), i + 1)
  {
    if m + 1 < |orig| {
      VisitPair(orig, evens, odds, m, kept, deleted, live, i);
      m', kept' := m + 2, kept + [orig[m + 1]];
    } else {
      VisitLast(orig, evens, odds, m, kept, deleted, live, i);
      m', kept' := m + 1, kept;
    }
  }

  /** An iteration with a handle after the visited one: it deletes live[i],
      removes it from live, and the index then steps over the next handle of
      orig. */
  lemma VisitPair<T>(orig: seq<T>, evens: seq<T>, odds: seq<T>, m: int, kept: seq<T>,
                    deleted: seq<T>, live: seq<T>, i: int)
    requires Visited(orig, evens, odds, m, kept, deleted, live, i) && 0 <= i < |live| && m + 1 < |orig|
    ensures live[i] == orig[m]
    ensures Visited(orig, evens, odds, m + 2, kept + [orig[m + 1]], deleted + [live[i]],
                    Remove(live, live[i]), i + 1)
  {
    assert i == |kept| && live[i] == orig[m];
    SkipPair(orig, evens, odds, m, kept, deleted);
    PairLive(orig, m, kept, live, i);
    if Distinct(orig) {
      DistinctPair(orig, m, kept, live, i);
    }
  }

  /** Visiting positions m and m+1 moves one handle to each side. */
  lemma SkipPair<T>(orig: seq<T>, evens: seq<T>, odds: seq<T>, m: int, kept: seq<T>, deleted: seq<T>)
    requires 0 <= m && m + 1 < |orig|
    requires deleted + Evens(orig[m..]) == evens && kept + Odds(orig[m..]) == odds
    ensures deleted + [orig[m]] + Evens(orig[m + 2..]) == evens
    ensures kept + [orig[m + 1]] + Odds(orig[m + 2..]) == odds
  {
    var t, u := orig[m..], orig[m + 2..];
    assert t[2..] == u && t[0] == orig[m] && t[1] == orig[m + 1];
    EvensOddsStep(t);
    assert deleted + [orig[m]] + Evens(u) == deleted + Evens(t);
    assert kept + [orig[m + 1]] + Odds(u) == kept + Odds(t);
  }

  /** The live list after the handle at i = |kept| is removed: the unvisited
      tail now starts at i + 1 with orig[m + 2], and orig[m + 1] has joined
      the stepped-over part. */
  lemma PairLive<T>(orig: seq<T>, m: int, kept: seq<T>, live: seq<T>, i: int)
    requires 0 <= m && m + 1 < |orig| && i == |kept| && i < |live|
    requires |live| == |kept| + |orig| - m && live[|kept|..] == orig[m..]
    requires multiset(live[..|kept|]) == multiset(kept) && multiset(kept) <= multiset(orig[..m])
    ensures
      var live', kept' := Remove(live, live[i]), kept + [orig[m + 1]];
      |live'| == |kept'| + |orig| - (m + 2) && live'[|kept'|..] == orig[m + 2..] &&
      multiset(live'[..|kept'|]) == multiset(kept') && multiset(kept') <= multiset(orig[..m + 2])
  {
    var x := live[i];
    var live' := Remove(live, x);
    RemoveVisited(live, i, x);
    assert x == orig[m];
    assert live'[i..] == orig[m + 1..];
    assert live'[i + 1..] == orig[m + 2..];
    assert live'[..i + 1] == live'[..i] + [orig[m + 1]];
    assert orig[..m + 2] == orig[..m] + [orig[m]] + [orig[m + 1]];
  }

  /** With distinct handles list.remove takes out the visited one itself, so
      the part before the index is exactly what was stepped over. */
  lemma DistinctPair<T>(orig: seq<T>, m: int, kept: seq<T>, live: seq<T>, i: int)
    requires Distinct(orig) && 0 <= m && m + 1 < |orig| && i == |kept| && i < |live|
    requires |live| == |kept| + |orig| - m && live[|kept|..] == orig[m..]
    requires live[..|kept|] == kept && multiset(kept) <= multiset(orig[..m])
    ensures Remove(live, live[i])[..i + 1] == kept + [orig[m + 1]]
  {
    var x := live[i];
    RemoveVisited(live, i, x);
    assert x == orig[m];
    DistinctNotBefore(orig, m, kept);
    var live' := Remove(live, x);
    assert live'[i] == orig[m + 1];
    assert live'[..i + 1] == live'[..i] + [live'[i]];
  }

  /** The iteration that visits the last handle of orig deletes it. */
  lemma VisitLast<T>(orig: seq<T>, evens: seq<T>, odds: seq<T>, m: int, kept: seq<T>,
                    deleted: seq<T>, live: seq<T>, i: int)
    requires Visited(orig, evens, odds, m, kept, deleted, live, i) && 0 <= i < |live| && m + 1 == |orig|
    ensures live[i] == orig[m]
    ensures Visited(orig, evens, odds, m + 1, kept, deleted + [live[i]], Remove(live, live[i]), i + 1)
  {
    assert i == |kept| && live[i] == orig[m];
    assert orig[m..] == [orig[m]] && orig[m + 1..] == [];
    LastLive(orig, m, kept, live, i);
  }

  /** The live list after the last handle of orig is removed from it: only
      the stepped-over part is left. */
  lemma LastLive<T>(orig: seq<T>, m: int, kept: seq<T>, live: seq<T>, i: int)
    requires 0 <= m && m + 1 == |orig| && i == |kept| && i < |live|
    requires |live| == |kept| + 1 && live[|kept|..] == [orig[m]]
    requires multiset(live[..|kept|]) == multiset(kept) && multiset(kept) <= multiset(orig[..m])
    requires Distinct(orig) ==> live[..|kept|] == kept
    ensures
      var live' := Remove(live, live[i]);
      |live'| == |kept| && live'[|kept|..] == [] &&
      multiset(live'[..|kept|]) == multiset(kept) && multiset(kept) <= multiset(orig[..m + 1]) &&
      (Distinct(orig) ==> live'[..|kept|] == kept)
  {
    var x := live[i];
    RemoveVisited(live, i, x);
    assert x == orig[m];
    assert orig[..m + 1] == orig[..m] + [orig[m]];
    if Distinct(orig) {
      DistinctNotBefore(orig, m, kept);
    }
  }

  /** Once the index has run past the live list every position of orig has
      been visited: the even-position handles were deleted and the
      odd-position ones are what is left. */
  lemma VisitDone<T>(orig: seq<T>, m: int, kept: seq<T>, deleted: seq<T>, live: seq<T>, i: int)
    requires Visited(orig, Evens(orig), Odds(orig), m, kept, deleted, live, i) && i >= |live|
    ensures deleted == Evens(orig)
    ensures multiset(deleted) + multiset(live) == multiset(orig)
    ensures multiset(live) == multiset(Odds(orig))
    ensures Distinct(orig) ==> live == Odds(orig)
    ensures |live| == |orig| / 2
  {
    VisitEnd(orig, Evens(orig), Odds(orig), m, kept, deleted, live, i);
    EvensOddsLength(orig);
    EvensOddsPartition(orig);
  }

  /** When the loop exits it has visited all of orig: what was stepped over
      is all that is left, and the deleted and the kept handles are the two
      halves. */
  lemma VisitEnd<T>(orig: seq<T>, evens: seq<T>, odds: seq<T>, m: int, kept: seq<T>,
                   deleted: seq<T>, live: seq<T>, i: int)
    requires Visited(orig, evens, odds, m, kept, deleted, live, i) && i >= |live|
    ensures deleted == evens && kept == odds
    ensures |live| == |kept| && multiset(live) == multiset(kept)
    ensures Distinct(orig) ==> live == kept
  {
    assert m == |orig| && orig[m..] == [];
    assert live == live[..|kept|];
  }

  /** With distinct handles the one at position m was not among those
      stepped over before it. */
  lemma DistinctNotBefore<T>(orig: seq<T>, m: nat, kept: seq<T>)
    requires Distinct(orig) && m < |orig|
    requires multiset(kept) <= multiset(orig[..m])
    ensures orig[m] !in kept
  {
    var x := orig[m];
    DistinctOnce(orig, x);
    assert orig == orig[..m] + orig[m..];
    assert x in multiset(orig[m..]) by {
      assert orig[m..][0] == x;
    }
    assert multiset(orig[..m])[x] == 0;
    assert multiset(kept)[x] == 0;
  }
}
