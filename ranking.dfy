/**
 * Ordering of a frame's rows by a score column, as `DataFrame.sort_values(col,
 * ascending=False)` followed by `head(k)` does it. A frame with one row per
 * feature is represented by the sequence of its scores; a sorted frame is the
 * sequence of original row (column) indices in their new order.
 */
module Ranking {

  /** Every entry of `r` is a valid row index of `keys`. */
  predicate InBounds(keys: seq<real>, r: seq<nat>) {
    forall i :: 0 <= i < |r| ==> r[i] < |keys|
  }

  /** No row appears twice. */
  predicate Distinct(r: seq<nat>) {
    forall i, j :: 0 <= i < j < |r| ==> r[i] != r[j]
  }

  /** Scores never increase along `r`. */
  predicate NonIncreasing(keys: seq<real>, r: seq<nat>)
    requires InBounds(keys, r)
  {
    forall i, j :: 0 <= i < j < |r| ==> keys[r[i]] >= keys[r[j]]
  }

  /**
   * `r` lists every row index of `keys` exactly once, in non-increasing score
   * order. This is all that a descending sort promises: the order of rows with
   * equal scores is left open.
   */
  predicate IsDescendingRanking(keys: seq<real>, r: seq<nat>) {
    && |r| == |keys|
    && InBounds(keys, r)
    && (forall c :: 0 <= c < |keys| ==> c in r)
    && Distinct(r)
    && NonIncreasing(keys, r)
  }

  /**
   * Inserts row `x` into the already ranked rows `r`, after every row whose
   * score is at least that of `x`.
   */
  function InsertByKey(keys: seq<real>, x: nat, r: seq<nat>): (s: seq<nat>)
    requires x < |keys| && x !in r
    requires InBounds(keys, r) && Distinct(r)
    ensures |s| == |r| + 1
    ensures forall v :: v in s <==> v == x || v in r
    ensures InBounds(keys, s) && Distinct(s)
  {
    if r == [] then [x]
    else if keys[r[0]] < keys[x] then [x] + r
    else
      var rest := InsertByKey(keys, x, r[1..]);
      assert forall m :: 0 <= m < |r| - 1 ==> r[1..][m] == r[m + 1];
      assert r[0] !in rest;
      [r[0]] + rest
  }

  /** Inserting into rows ranked by non-increasing score keeps them ranked. */
  lemma {:induction false} InsertKeepsOrder(keys: seq<real>, x: nat, r: seq<nat>)
    requires x < |keys| && x !in r
    requires InBounds(keys, r) && Distinct(r) && NonIncreasing(keys, r)
    ensures NonIncreasing(keys, InsertByKey(keys, x, r))
  {
    if r != [] && keys[r[0]] >= keys[x] {
      var tail := r[1..];
      assert NonIncreasing(keys, tail);
      InsertKeepsOrder(keys, x, tail);
      var rest := InsertByKey(keys, x, tail);
      forall j | 0 <= j < |rest| ensures keys[r[0]] >= keys[rest[j]] {
        assert rest[j] in rest;
        if rest[j] != x {
          var m :| 0 <= m < |tail| && tail[m] == rest[j];
          assert r[m + 1] == rest[j];
        }
      }
    }
  }

  /**
   * The rows `0 .. n-1` of `keys` in non-increasing score order; rows with
   * equal scores keep their original relative order.
   */
  function SortPrefix(keys: seq<real>, n: nat): (r: seq<nat>)
    requires n <= |keys|
    ensures |r| == n
    ensures forall v: nat :: v in r <==> v < n
    ensures InBounds(keys, r) && Distinct(r) && NonIncreasing(keys, r)
  {
    if n == 0 then []
    else
      var prev := SortPrefix(keys, n - 1);
      assert n - 1 !in prev;
      var s := InsertByKey(keys, n - 1, prev);
      InsertKeepsOrder(keys, n - 1, prev);
      s
  }

  /** The rows of a frame after `sort_values(..., ascending=False)`. */
  function SortDescending(keys: seq<real>): (r: seq<nat>)
    ensures IsDescendingRanking(keys, r)
  {
    SortPrefix(keys, |keys|)
  }

  /** `head(k)`: the first `k` rows, or all of them when there are fewer. */
  function Head(r: seq<nat>, k: nat): (h: seq<nat>)
    ensures |h| == if k <= |r| then k else |r|
    ensures h <= r
  {
    if k <= |r| then r[..k] else r
  }

  /** Absolute value, the `key=abs` of the SHAP ranking. */
  function Abs(x: real): (y: real)
    ensures y >= 0.0 && (y == x || y == -x)
  {
    if x < 0.0 then -x else x
  }

  /** The score column after `key=abs` has been applied to it. */
  function AbsAll(values: seq<real>): (m: seq<real>)
    ensures |m| == |values|
    ensures forall i :: 0 <= i < |values| ==> m[i] == Abs(values[i])
  {
    seq(|values|, i requires 0 <= i < |values| => Abs(values[i]))
  }

  /**
   * The first `k` rows of any descending ranking are the top `k`: distinct, in
   * non-increasing order, and no row left out scores above the last one kept.
   */
  lemma {:induction false} TopKOfRanking(keys: seq<real>, r: seq<nat>, k: nat)
    requires IsDescendingRanking(keys, r)
    requires 0 < k <= |r|
    ensures Head(r, k) == r[..k]
    ensures Distinct(r[..k]) && InBounds(keys, r[..k]) && NonIncreasing(keys, r[..k])
    ensures forall c :: 0 <= c < |keys| && c !in r[..k] ==> keys[c] <= keys[r[k - 1]]
  {
    forall c | 0 <= c < |keys| && c !in r[..k]
      ensures keys[c] <= keys[r[k - 1]]
    {
      assert c in r;
      var m :| 0 <= m < |r| && r[m] == c;
    }
  }

  /** The set of rows that occur in `r`. */
  function Elements(r: seq<nat>): (e: set<nat>)
    ensures forall v :: v in e <==> v in r
  {
    set v | v in r
  }

  /** A sequence without repetitions has as many distinct elements as entries. */
  lemma {:induction false} DistinctElementCount(r: seq<nat>)
    requires Distinct(r)
    ensures |Elements(r)| == |r|
  {
    if r != [] {
      var tail := r[1..];
      assert Distinct(tail) by {
        forall i, j | 0 <= i < j < |tail| ensures tail[i] != tail[j] {
          assert tail[i] == r[i + 1] && tail[j] == r[j + 1];
        }
      }
      DistinctElementCount(tail);
      assert r == [r[0]] + tail;
      assert Elements(r) == Elements(tail) + {r[0]};
      assert r[0] !in Elements(tail);
    }
  }

  /**
   * At any position, a descending ranking cannot hold a higher score than
   * another descending ranking of the same scores.
   */
  lemma RankingScoreAtMost(keys: seq<real>, r1: seq<nat>, r2: seq<nat>, i: nat)
    requires IsDescendingRanking(keys, r1) && IsDescendingRanking(keys, r2)
    requires i < |keys|
    ensures keys[r1[i]] <= keys[r2[i]]
  {
    if keys[r1[i]] > keys[r2[i]] {
      var v := keys[r1[i]];
      var atLeast := set c: nat | c < |keys| && keys[c] >= v;
      var top1 := r1[..i + 1];
      var top2 := r2[..i];
      DistinctElementCount(top1);
      DistinctElementCount(top2);
      assert Elements(top1) <= atLeast;
      assert atLeast <= Elements(top2) by {
        forall c | c in atLeast ensures c in top2 {
          assert c in r2;
          var m :| 0 <= m < |r2| && r2[m] == c;
          if m >= i {
            assert false;
          }
          assert top2[m] == c;
        }
      }
      SubsetSize(Elements(top1), atLeast);
      SubsetSize(atLeast, Elements(top2));
      assert false;
    }
  }

  lemma SubsetSize(a: set<nat>, b: set<nat>)
    requires a <= b
    ensures |a| <= |b|
  {
    assert b == a + (b - a);
  }

  /**
   * Whatever order a descending sort leaves ties in, the score found at each
   * position is the same: only the identity of equally scored rows can differ.
   */
  lemma {:induction false} RankingScoresUnique(keys: seq<real>, r1: seq<nat>, r2: seq<nat>)
    requires IsDescendingRanking(keys, r1) && IsDescendingRanking(keys, r2)
    ensures forall i :: 0 <= i < |keys| ==> keys[r1[i]] == keys[r2[i]]
  {
    forall i | 0 <= i < |keys| ensures keys[r1[i]] == keys[r2[i]] {
      RankingScoreAtMost(keys, r1, r2, i);
      RankingScoreAtMost(keys, r2, r1, i);
    }
  }
}
