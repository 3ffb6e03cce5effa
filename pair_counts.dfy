/** The number of colliding unordered pairs in a list of positions: the
    value one exhaustive collision scan returns. Defined recursively in the
    order the scan visits the pairs, and tied to an independent definition
    as the size of the set of colliding index pairs `(i, j)`, `i < j`. */
module PairCounts {
  import opened Particles

  /** How many of `qs` collide with `p`. */
  function CountWith(p: Position, qs: seq<Position>): (c: nat)
    ensures c <= |qs|
  {
    if qs == [] then 0 else (if Collides(p, qs[0]) then 1 else 0) + CountWith(p, qs[1..])
  }

  /** Colliding pairs `i < j` of `ps`: row 0 (particle 0 against every later
      one), then the pairs of the rest. */
  function PairCount(ps: seq<Position>): (c: nat)
    ensures 2 * c <= |ps| * (|ps| - 1)
  {
    if ps == [] then 0
    else
      var m := |ps| - 1;
      assert |ps| * (|ps| - 1) == (m + 1) * m == m * (m - 1) + 2 * m;
      CountWith(ps[0], ps[1..]) + PairCount(ps[1..])
  }

  /** Largest possible number of unordered pairs among `n` particles. */
  function MaxPairs(n: nat): nat {
    n * (n - 1) / 2
  }

  lemma {:induction false} PairCountBound(ps: seq<Position>)
    ensures PairCount(ps) <= MaxPairs(|ps|)
  {
  }

  lemma {:induction false} EvenProduct(n: nat)
    ensures (n * (n - 1)) % 2 == 0
  {
    if n > 1 {
      EvenProduct(n - 1);
      assert n * (n - 1) == (n - 1) * (n - 2) + 2 * (n - 1);
    }
  }

  /** Colliding index pairs of `ps` whose first index is at least `lo`. */
  ghost function PairsFrom(ps: seq<Position>, lo: nat): set<(int, int)> {
    set i, j | lo <= i < j < |ps| && Collides(ps[i], ps[j]) :: (i, j)
  }

  /** The set of colliding index pairs `(i, j)` with `i < j`. */
  ghost function CollidingPairs(ps: seq<Position>): set<(int, int)> {
    set i, j | 0 <= i < j < |ps| && Collides(ps[i], ps[j]) :: (i, j)
  }

  /** Colliding pairs `(i, j)` for one fixed `i` and `j >= lo`. */
  ghost function RowFrom(ps: seq<Position>, i: nat, lo: nat): set<(int, int)>
    requires i < |ps|
  {
    set j | lo <= j < |ps| && Collides(ps[i], ps[j]) :: (i, j)
  }

  lemma {:induction false} RowFromSize(ps: seq<Position>, i: nat, lo: nat)
    requires i < |ps| && lo <= |ps|
    ensures |RowFrom(ps, i, lo)| == CountWith(ps[i], ps[lo..])
    decreases |ps| - lo
  {
    if lo == |ps| {
      assert RowFrom(ps, i, lo) == {};
    } else {
      RowFromSize(ps, i, lo + 1);
      assert ps[lo..][0] == ps[lo] && ps[lo..][1..] == ps[lo + 1..];
      var head: set<(int, int)> := if Collides(ps[i], ps[lo]) then {(i, lo)} else {};
      assert RowFrom(ps, i, lo) == head + RowFrom(ps, i, lo + 1);
      assert (i, lo) !in RowFrom(ps, i, lo + 1);
    }
  }

  lemma {:induction false} PairsFromSize(ps: seq<Position>, lo: nat)
    requires lo <= |ps|
    ensures |PairsFrom(ps, lo)| == PairCount(ps[lo..])
    decreases |ps| - lo
  {
    if lo == |ps| {
      assert PairsFrom(ps, lo) == {};
    } else {
      PairsFromSize(ps, lo + 1);
      RowFromSize(ps, lo, lo + 1);
      assert ps[lo..][0] == ps[lo] && ps[lo..][1..] == ps[lo + 1..];
      var row := RowFrom(ps, lo, lo + 1);
      var rest := PairsFrom(ps, lo + 1);
      assert PairsFrom(ps, lo) == row + rest;
      assert row * rest == {};
    }
  }

  /** The recursive count is exactly the number of colliding pairs `i < j`:
      every such pair is counted, and counted once. */
  lemma PairCountIsNumberOfCollidingPairs(ps: seq<Position>)
    ensures PairCount(ps) == |CollidingPairs(ps)|
  {
    PairsFromSize(ps, 0);
    assert ps[0..] == ps;
    assert PairsFrom(ps, 0) == CollidingPairs(ps);
  }

  /** The bound is tight: when all particles share one position, every pair
      collides. */
  lemma {:induction false} PairCountOfOneSpot(p: Position, ps: seq<Position>)
    requires forall i :: 0 <= i < |ps| ==> ps[i] == p
    ensures PairCount(ps) == MaxPairs(|ps|)
  {
    if ps != [] {
      var m := |ps| - 1;
      PairCountOfOneSpot(p, ps[1..]);
      CountWithOneSpot(p, ps[1..]);
      EvenProduct(m);
      assert (m + 1) * m == m * (m - 1) + 2 * m;
      assert MaxPairs(|ps|) == MaxPairs(m) + m by {
        var h := m * (m - 1) / 2;
        assert m * (m - 1) == 2 * h;
        assert (m + 1) * m == 2 * (h + m);
      }
    }
  }

  lemma {:induction false} CountWithOneSpot(p: Position, qs: seq<Position>)
    requires forall i :: 0 <= i < |qs| ==> qs[i] == p
    ensures CountWith(p, qs) == |qs|
  {
    if qs != [] {
      CollidesReflexive(p);
      CountWithOneSpot(p, qs[1..]);
    }
  }
}
