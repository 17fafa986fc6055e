/**
 * The pair enumeration of the comparison engine,
 * `itertools.combinations(range(n), 2)`: every `(i, j)` with `i < j < n`,
 * in lexicographic order.
 */
module Pairs {

  /** The pairs whose first index is `i`: `(i, i+1), ..., (i, n-1)`. */
  function PairsWithFirst(i: nat, n: nat): (r: seq<(nat, nat)>)
    requires i < n
    ensures |r| == n - i - 1
    ensures forall k :: 0 <= k < |r| ==> r[k] == (i, i + 1 + k)
  {
    seq(n - i - 1, k requires 0 <= k < n - i - 1 => (i, i + 1 + k))
  }

  /** The pairs whose first index is at least `i`. */
  function PairsFrom(i: nat, n: nat): (r: seq<(nat, nat)>)
    requires i <= n
    ensures 2 * |r| == (n - i) * (n - i - 1)
    ensures forall k :: 0 <= k < |r| ==> i <= r[k].0 < r[k].1 < n
    decreases n - i
  {
    if i == n then []
    else
      var r := PairsWithFirst(i, n) + PairsFrom(i + 1, n);
      assert (n - i) * (n - i - 1) == 2 * (n - i - 1) + (n - i - 1) * (n - i - 2);
      r
  }

  /** `combinations(range(n), 2)` */
  function Combinations2(n: nat): (r: seq<(nat, nat)>)
    ensures 2 * |r| == n * (n - 1)
    ensures forall k :: 0 <= k < |r| ==> r[k].0 < r[k].1 < n
  {
    PairsFrom(0, n)
  }

  predicate LexLess(p: (nat, nat), q: (nat, nat))
  {
    p.0 < q.0 || (p.0 == q.0 && p.1 < q.1)
  }

  ghost predicate StrictlyLexSorted(s: seq<(nat, nat)>)
  {
    forall a, b :: 0 <= a < b < |s| ==> LexLess(s[a], s[b])
  }

  lemma {:induction false} PairsFromSorted(i: nat, n: nat)
    requires i <= n
    ensures StrictlyLexSorted(PairsFrom(i, n))
    decreases n - i
  {
    if i < n {
      PairsFromSorted(i + 1, n);
      var row, rest := PairsWithFirst(i, n), PairsFrom(i + 1, n);
      var s := row + rest;
      assert s == PairsFrom(i, n);
      forall a, b | 0 <= a < b < |s|
        ensures LexLess(s[a], s[b])
      {
        if b < |row| {
          assert s[a] == row[a] && s[b] == row[b];
        } else if a < |row| {
          assert s[a] == row[a] && s[b] == rest[b - |row|];
        } else {
          assert s[a] == rest[a - |row|] && s[b] == rest[b - |row|];
        }
      }
    }
  }

  lemma {:induction false} PairsFromComplete(i: nat, n: nat, p: nat, q: nat)
    requires i <= p < q < n
    ensures (p, q) in PairsFrom(i, n)
    decreases n - i
  {
    var row := PairsWithFirst(i, n);
    if p == i {
      assert row[q - i - 1] == (p, q);
      assert PairsFrom(i, n)[q - i - 1] == (p, q);
    } else {
      PairsFromComplete(i + 1, n, p, q);
      var rest := PairsFrom(i + 1, n);
      var k :| 0 <= k < |rest| && rest[k] == (p, q);
      assert PairsFrom(i, n)[|row| + k] == (p, q);
    }
  }

  /** The comparisons come in lexicographic `(i, j)` order, without repetition. */
  lemma CombinationsSorted(n: nat)
    ensures StrictlyLexSorted(Combinations2(n))
  {
    PairsFromSorted(0, n);
  }

  /** Every pair `i < j < n` is compared. */
  lemma CombinationsComplete(n: nat, i: nat, j: nat)
    requires i < j < n
    ensures (i, j) in Combinations2(n)
  {
    PairsFromComplete(0, n, i, j);
  }
}
