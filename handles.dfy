/** The list of created-record handles the authenticator keeps between
    perform and cleanup: Python's list.remove on it, and the position
    functions used to state what the cleanup loop does to it. */
module HandleList {

  /** No handle occurs twice. */
  ghost predicate Distinct<T>(s: seq<T>)
  {
    forall i, j :: 0 <= i < j < |s| ==> s[i] != s[j]
  }

  /** Python's list.remove: takes out the first occurrence of x. */
  function Remove<T(==)>(s: seq<T>, x: T): (r: seq<T>)
    requires x in s
    ensures |r| == |s| - 1
    ensures multiset(r) == multiset(s) - multiset{x}
  {
    assert s == [s[0]] + s[1..];
    if s[0] == x then s[1..] else [s[0]] + Remove(s[1..], x)
  }

  /** The occurrence list.remove takes out is the first one. */
  lemma {:induction false} RemoveAt<T>(s: seq<T>, i: nat, x: T)
    requires i < |s| && s[i] == x && x !in s[..i]
    ensures Remove(s, x) == s[..i] + s[i + 1..]
  {
    if i > 0 {
      assert s[0] == s[..i][0];
      assert s[1..][..i - 1] == s[1..i];
      assert s[1..i] == s[..i][1..];
      RemoveAt(s[1..], i - 1, x);
      assert s[..i] == [s[0]] + s[1..i];
    }
  }

  /** What list.remove does to the list being iterated when it removes the
      value found at the iteration index i: everything after i shifts down
      by one; the part before i keeps its elements as a multiset (a
      duplicate of x there is the copy taken out, replaced by s[i] itself),
      and is untouched when x does not occur there. */
  lemma {:induction false} RemoveVisited<T>(s: seq<T>, i: nat, x: T)
    requires i < |s| && s[i] == x
    ensures x in s
    ensures Remove(s, x)[i..] == s[i + 1..]
    ensures multiset(Remove(s, x)[..i]) == multiset(s[..i])
    ensures x !in s[..i] ==> Remove(s, x)[..i] == s[..i]
  {
    var r := Remove(s, x);
    if s[0] == x {
      RemoveFirstVisited(s, i, x);
    } else {
      var t := s[1..];
      assert t[i - 1] == x;
      RemoveVisited(t, i - 1, x);
      assert r == [s[0]] + Remove(t, x);
      assert r[i..] == Remove(t, x)[i - 1..];
      assert r[..i] == [s[0]] + Remove(t, x)[..i - 1];
      assert s[..i] == [s[0]] + t[..i - 1];
    }
  }

  /** RemoveVisited when the value also stands first: list.remove then takes
      out the head, and s[1..i + 1] has the elements of s[..i]. */
  lemma RemoveFirstVisited<T>(s: seq<T>, i: nat, x: T)
    requires i < |s| && s[i] == x && s[0] == x
    ensures Remove(s, x) == s[1..]
    ensures multiset(s[1..][..i]) == multiset(s[..i])
    ensures x !in s[..i] ==> i == 0
  {
    if i > 0 {
      RotateMultiset(s, i);
      assert s[..i][0] == x;
    }
  }

  /** Moving the head of s[..i + 1] to its end keeps its elements, and when
      s[i] == s[0] that is dropping s[i] instead of s[0]. */
  lemma RotateMultiset<T>(s: seq<T>, i: nat)
    requires 0 < i < |s| && s[i] == s[0]
    ensures multiset(s[1..][..i]) == multiset(s[..i])
  {
    var mid := s[1..i];
    assert s[..i] == [s[0]] + mid;
    assert s[1..][..i] == mid + [s[i]];
  }

  /** The elements at even positions 0, 2, 4, ... in order. */
  function Evens<T>(s: seq<T>): seq<T>
  {
    if |s| <= 1 then s else [s[0]] + Evens(s[2..])
  }

  /** The elements at odd positions 1, 3, 5, ... in order. */
  function Odds<T>(s: seq<T>): seq<T>
  {
    if |s| <= 1 then [] else [s[1]] + Odds(s[2..])
  }

  /** The first two elements go one to each side. */
  lemma EvensOddsStep<T>(s: seq<T>)
    requires |s| >= 2
    ensures Evens(s) == [s[0]] + Evens(s[2..]) && Odds(s) == [s[1]] + Odds(s[2..])
  {
  }

  lemma {:induction false} EvensOddsLength<T>(s: seq<T>)
    ensures |Evens(s)| == (|s| + 1) / 2 && |Odds(s)| == |s| / 2
  {
    if |s| > 1 {
      EvensOddsLength(s[2..]);
    }
  }

  /** Evens picks exactly the even positions. */
  lemma {:induction false} EvensAt<T>(s: seq<T>, k: nat)
    requires k < (|s| + 1) / 2
    ensures |Evens(s)| == (|s| + 1) / 2 && Evens(s)[k] == s[2 * k]
  {
    EvensOddsLength(s);
    if k > 0 {
      EvensAt(s[2..], k - 1);
    }
  }

  /** Odds picks exactly the odd positions. */
  lemma {:induction false} OddsAt<T>(s: seq<T>, k: nat)
    requires k < |s| / 2
    ensures |Odds(s)| == |s| / 2 && Odds(s)[k] == s[2 * k + 1]
  {
    EvensOddsLength(s);
    if k > 0 {
      OddsAt(s[2..], k - 1);
    }
  }

  /** Together the two halves hold every element exactly as often as s does. */
  lemma {:induction false} EvensOddsPartition<T>(s: seq<T>)
    ensures multiset(Evens(s)) + multiset(Odds(s)) == multiset(s)
  {
    if |s| > 1 {
      var t := s[2..];
      EvensOddsStep(s);
      EvensOddsPartition(t);
      PairMultiset(s, Evens(t), Odds(t));
    }
  }

  /** Splitting off one element on each side of a partition of s[2..] gives
      a partition of s. */
  lemma PairMultiset<T>(s: seq<T>, e: seq<T>, o: seq<T>)
    requires |s| >= 2 && multiset(e) + multiset(o) == multiset(s[2..])
    ensures multiset([s[0]] + e) + multiset([s[1]] + o) == multiset(s)
  {
    assert s == [s[0]] + ([s[1]] + s[2..]);
  }

  /** In a list without repetitions every element occurs once. */
  lemma {:induction false} DistinctOnce<T>(s: seq<T>, x: T)
    requires Distinct(s)
    ensures multiset(s)[x] <= 1
  {
    if s != [] {
      assert s == [s[0]] + s[1..];
      assert Distinct(s[1..]) by {
        forall i, j | 0 <= i < j < |s[1..]| ensures s[1..][i] != s[1..][j] {
          assert s[1..][i] == s[i + 1] && s[1..][j] == s[j + 1];
        }
      }
      DistinctOnce(s[1..], x);
      assert s[0] !in s[1..] by {
        forall j | 0 <= j < |s[1..]| ensures s[1..][j] != s[0] {
          assert s[1..][j] == s[j + 1];
        }
      }
    }
  }
}
