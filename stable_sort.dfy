/** A stable sort by a natural-number rank, the behaviour the table relies on
    from `Array.prototype.sort`: it permutes its input, leaves ranks in
    ascending order and keeps the input order of elements of equal rank.
    The sort is defined as an insertion sort, each element inserted after every
    element of rank not above its own. */
module StableSort {

  /** `x` inserted into `t` after the last element whose rank is not above
      `rank(x)`, scanning from the end. */
  function Insert<T>(t: seq<T>, x: T, rank: T -> nat): (r: seq<T>)
    ensures |r| == |t| + 1
    decreases |t|
  {
    if |t| == 0 || rank(t[|t| - 1]) <= rank(x) then t + [x]
    else Insert(t[..|t| - 1], x, rank) + [t[|t| - 1]]
  }

  /** The position at which `Insert` places `x`. */
  function InsertPoint<T>(t: seq<T>, x: T, rank: T -> nat): (p: nat)
    ensures p <= |t|
    decreases |t|
  {
    if |t| == 0 || rank(t[|t| - 1]) <= rank(x) then |t|
    else InsertPoint(t[..|t| - 1], x, rank)
  }

  /** The stable sort: the elements inserted one by one, in input order. */
  function SortByRank<T>(s: seq<T>, rank: T -> nat): (r: seq<T>)
    ensures |r| == |s|
    decreases |s|
  {
    if |s| == 0 then []
    else Insert(SortByRank(s[..|s| - 1], rank), s[|s| - 1], rank)
  }

  /** The elements of `s` whose rank is `k`, in order. */
  function Stratum<T>(s: seq<T>, rank: T -> nat, k: nat): seq<T>
    decreases |s|
  {
    if |s| == 0 then []
    else Stratum(s[..|s| - 1], rank, k) + (if rank(s[|s| - 1]) == k then [s[|s| - 1]] else [])
  }

  /** Ranks never decrease along `s`. */
  ghost predicate Ascending<T>(s: seq<T>, rank: T -> nat)
  {
    forall i, j :: 0 <= i < j < |s| ==> rank(s[i]) <= rank(s[j])
  }

  /** Insertion adds exactly one copy of `x`. */
  lemma {:induction false} InsertPermutation<T>(t: seq<T>, x: T, rank: T -> nat)
    ensures multiset(Insert(t, x, rank)) == multiset(t) + multiset{x}
    decreases |t|
  {
    if |t| > 0 && rank(t[|t| - 1]) > rank(x) {
      var n := |t| - 1;
      InsertPermutation(t[..n], x, rank);
      assert t == t[..n] + [t[n]];
    }
  }

  /** Insertion splits `t` at the insertion point and puts `x` in between. */
  lemma {:induction false} InsertSplits<T>(t: seq<T>, x: T, rank: T -> nat)
    ensures var p := InsertPoint(t, x, rank);
            Insert(t, x, rank) == t[..p] + [x] + t[p..]
    decreases |t|
  {
    var p := InsertPoint(t, x, rank);
    if |t| > 0 && rank(t[|t| - 1]) > rank(x) {
      var n := |t| - 1;
      InsertSplits(t[..n], x, rank);
      assert t[..n][..p] == t[..p];
      assert t[..n][p..] + [t[n]] == t[p..];
    } else {
      assert t[p..] == [];
    }
  }

  /** Everything after the insertion point ranks above `x`; the element just
      before it does not. */
  lemma {:induction false} InsertPointRanks<T>(t: seq<T>, x: T, rank: T -> nat)
    ensures var p := InsertPoint(t, x, rank);
            (forall i :: p <= i < |t| ==> rank(x) < rank(t[i])) &&
            (0 < p ==> rank(t[p - 1]) <= rank(x))
    decreases |t|
  {
    if |t| > 0 && rank(t[|t| - 1]) > rank(x) {
      var n := |t| - 1;
      InsertPointRanks(t[..n], x, rank);
      var p := InsertPoint(t, x, rank);
      forall i | p <= i < |t|
        ensures rank(x) < rank(t[i])
      {
        if i < n {
          assert t[i] == t[..n][i];
        }
      }
      if 0 < p {
        assert t[p - 1] == t[..n][p - 1];
      }
    }
  }

  /** Inserting into an ascending sequence keeps it ascending. */
  lemma InsertAscending<T>(t: seq<T>, x: T, rank: T -> nat)
    requires Ascending(t, rank)
    ensures Ascending(Insert(t, x, rank), rank)
  {
    var p := InsertPoint(t, x, rank);
    InsertSplits(t, x, rank);
    InsertPointRanks(t, x, rank);
    forall i | 0 <= i < p
      ensures rank(t[i]) <= rank(x)
    {
      assert rank(t[i]) <= rank(t[p - 1]);
    }
    SpliceAscending(t, p, x, rank);
  }

  /** Putting `x` between an ascending prefix of ranks not above its own and
      a suffix of ranks above it gives an ascending sequence. */
  lemma SpliceAscending<T>(t: seq<T>, p: nat, x: T, rank: T -> nat)
    requires p <= |t| && Ascending(t, rank)
    requires forall i :: 0 <= i < p ==> rank(t[i]) <= rank(x)
    requires forall i :: p <= i < |t| ==> rank(x) < rank(t[i])
    ensures Ascending(t[..p] + [x] + t[p..], rank)
  {
    var r := t[..p] + [x] + t[p..];
    forall i, j | 0 <= i < j < |r|
      ensures rank(r[i]) <= rank(r[j])
    {
      var ti := if i < p then i else i - 1;
      var tj := if j <= p then j else j - 1;
      if i == p {
        assert r[i] == x && r[j] == t[tj];
      } else if j == p {
        assert r[j] == x && r[i] == t[ti];
      } else {
        assert r[i] == t[ti] && r[j] == t[tj];
      }
    }
  }

  /** The strata of a concatenation are the strata of its parts. */
  lemma {:induction false} StratumAppend<T>(a: seq<T>, b: seq<T>, rank: T -> nat, k: nat)
    ensures Stratum(a + b, rank, k) == Stratum(a, rank, k) + Stratum(b, rank, k)
    decreases |b|
  {
    if |b| == 0 {
      assert a + b == a;
    } else {
      var n := |b| - 1;
      StratumAppend(a, b[..n], rank, k);
      assert (a + b)[..|a + b| - 1] == a + b[..n];
      assert (a + b)[|a + b| - 1] == b[n];
    }
  }

  /** Insertion adds `x` at the end of its own stratum and changes no other:
      it only moves `x` past elements of higher rank. */
  lemma {:induction false} InsertStratum<T>(t: seq<T>, x: T, rank: T -> nat, k: nat)
    ensures Stratum(Insert(t, x, rank), rank, k) == Stratum(t + [x], rank, k)
    decreases |t|
  {
    if |t| > 0 && rank(t[|t| - 1]) > rank(x) {
      var n := |t| - 1;
      InsertStratum(t[..n], x, rank, k);
      StratumAppend(Insert(t[..n], x, rank), [t[n]], rank, k);
      StratumAppend(t[..n] + [x], [t[n]], rank, k);
      StratumAppend(t[..n] + [t[n]], [x], rank, k);
      StratumAppend(t[..n], [x], rank, k);
      StratumAppend(t[..n], [t[n]], rank, k);
      assert t[..n] + [t[n]] == t;
    }
  }

  /** The sort rearranges its input: same elements, same multiplicities. */
  lemma {:induction false} SortPermutation<T>(s: seq<T>, rank: T -> nat)
    ensures multiset(SortByRank(s, rank)) == multiset(s)
    decreases |s|
  {
    if |s| > 0 {
      var n := |s| - 1;
      SortPermutation(s[..n], rank);
      InsertPermutation(SortByRank(s[..n], rank), s[n], rank);
      assert s == s[..n] + [s[n]];
    }
  }

  /** The sort leaves ranks in ascending order. */
  lemma {:induction false} SortAscending<T>(s: seq<T>, rank: T -> nat)
    ensures Ascending(SortByRank(s, rank), rank)
    decreases |s|
  {
    if |s| > 0 {
      var n := |s| - 1;
      SortAscending(s[..n], rank);
      InsertAscending(SortByRank(s[..n], rank), s[n], rank);
    }
  }

  /** The sort is stable: each stratum keeps its input order. */
  lemma {:induction false} SortStable<T>(s: seq<T>, rank: T -> nat, k: nat)
    ensures Stratum(SortByRank(s, rank), rank, k) == Stratum(s, rank, k)
    decreases |s|
  {
    if |s| > 0 {
      var n := |s| - 1;
      var t := SortByRank(s[..n], rank);
      SortStable(s[..n], rank, k);
      InsertStratum(t, s[n], rank, k);
      StratumAppend(t, [s[n]], rank, k);
      StratumAppend(s[..n], [s[n]], rank, k);
      assert s[..n] + [s[n]] == s;
    }
  }

  /** A stratum holds exactly the elements of that rank. */
  lemma {:induction false} StratumMembers<T>(s: seq<T>, rank: T -> nat, k: nat, x: T)
    ensures x in Stratum(s, rank, k) <==> x in s && rank(x) == k
    decreases |s|
  {
    if |s| > 0 {
      var n := |s| - 1;
      StratumMembers(s[..n], rank, k, x);
      assert s == s[..n] + [s[n]];
    }
  }

  /** Three elements of strictly falling rank come out reversed. */
  lemma SortThreeFalling<T>(a: T, b: T, c: T, rank: T -> nat)
    requires rank(c) < rank(b) < rank(a)
    ensures SortByRank([a, b, c], rank) == [c, b, a]
  {
    assert [a, b, c][..2] == [a, b];
    assert [a, b][..1] == [a];
    assert [a][..0] == [];
    assert SortByRank([a], rank) == [a];
    assert Insert([a], b, rank) == Insert([], b, rank) + [a];
    assert SortByRank([a, b], rank) == [b, a];
    assert [b, a][..1] == [b];
    assert Insert([b, a], c, rank) == Insert([b], c, rank) + [a];
    assert Insert([b], c, rank) == [c, b];
  }
}
