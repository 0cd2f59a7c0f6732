/** Ranking of weighted entries, as `sorted(weights.items(), key=lambda x: -x[1])`
    does it: by weight descending, and, because the sort is stable and the
    entries arrive in declaration order, by position ascending among equal
    weights. Entries are identified by their position in the weight list. */
module Ranking {
  import opened Reals

  /** Position `i` comes before position `j` in the ranking of `ws`. */
  predicate Precedes(ws: seq<real>, i: nat, j: nat)
    requires i < |ws| && j < |ws|
  {
    ws[i] > ws[j] || (ws[i] == ws[j] && i < j)
  }

  /** Every entry of `r` is a position of `ws`, and `r` follows the ranking order strictly. */
  predicate Ranked(ws: seq<real>, r: seq<nat>)
  {
    && (forall a :: 0 <= a < |r| ==> r[a] < |ws|)
    && (forall a, b :: 0 <= a < b < |r| ==> Precedes(ws, r[a], r[b]))
  }

  /** Insert position `k` into a ranking at its place. */
  function Insert(ws: seq<real>, k: nat, r: seq<nat>): (s: seq<nat>)
    requires k < |ws| && k !in r
    requires Ranked(ws, r)
    ensures |s| == |r| + 1
    ensures forall x :: x in s <==> x == k || x in r
    ensures Ranked(ws, s)
  {
    if |r| == 0 then [k]
    else if Precedes(ws, k, r[0]) then
      [k] + r
    else
      var tail := Insert(ws, k, r[1..]);
      assert forall x :: x in tail ==> Precedes(ws, r[0], x) by {
        forall x | x in tail ensures Precedes(ws, r[0], x) {
          if x == k {
          } else {
            var b :| 0 <= b < |r[1..]| && r[1..][b] == x;
            assert r[1 + b] == x;
          }
        }
      }
      [r[0]] + tail
  }

  /** The ranking of positions `0 .. n-1` of `ws`. */
  function RankPrefix(ws: seq<real>, n: nat): (r: seq<nat>)
    requires n <= |ws|
    ensures |r| == n
    ensures forall x :: x in r <==> 0 <= x < n
    ensures Ranked(ws, r)
  {
    if n == 0 then [] else Insert(ws, n - 1, RankPrefix(ws, n - 1))
  }

  /** All positions of `ws`, best first: a permutation of `0 .. |ws|-1` in ranking order. */
  function Rank(ws: seq<real>): (r: seq<nat>)
    ensures |r| == |ws|
    ensures forall x :: x in r <==> 0 <= x < |ws|
    ensures Ranked(ws, r)
  {
    RankPrefix(ws, |ws|)
  }

  /** The best-ranked position is the first maximal one. */
  lemma RankHeadIsArgMax(ws: seq<real>)
    requires |ws| > 0
    ensures Rank(ws)[0] == ArgMaxFirst(ws)
  {
    var r := Rank(ws);
    var k := r[0];
    forall j | 0 <= j < |ws| && j != k
      ensures ws[j] <= ws[k] && (j < k ==> ws[j] < ws[k])
    {
      assert j in r;
      var b :| 0 <= b < |r| && r[b] == j;
      assert Precedes(ws, r[0], r[b]);
    }
    ArgMaxFirstUnique(ws, k);
  }

  /** The first `n` positions of the ranking (all of them if there are fewer). */
  function Top(ws: seq<real>, n: nat): (r: seq<nat>)
    ensures |r| == if n <= |ws| then n else |ws|
    ensures r == Rank(ws)[..|r|]
    ensures Ranked(ws, r)
    ensures forall x :: x in r ==> 0 <= x < |ws|
    ensures forall x, y :: x in r && 0 <= y < |ws| && y !in r ==> 0 <= x < |ws| && ws[y] <= ws[x]
  {
    var all := Rank(ws);
    var r: seq<nat> := if n <= |all| then all[..n] else all;
    forall x, y | x in r && 0 <= y < |ws| && y !in r
      ensures 0 <= x < |ws| && ws[y] <= ws[x]
    {
      var a :| 0 <= a < |r| && r[a] == x;
      assert y in all;
      var b :| 0 <= b < |all| && all[b] == y;
      assert a < b;
      assert Precedes(ws, all[a], all[b]);
    }
    r
  }
}
