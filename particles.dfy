/** A single point particle inside the square enclosure: its configuration
    constants, its bounded random walk (jitter, then clamp into the
    enclosure) and its proximity test. Shared by both programs, which
    declare `Particle` identically. */
module Particles {

  /** Number of particles a system is built with. */
  const NUM_OF_PARTICLES: nat := 100

  /** Side length of the square enclosure `[0, ENCLOSURE_SIZE] x [0, ENCLOSURE_SIZE]`. */
  const ENCLOSURE_SIZE: real := 10.0

  /** Two particles collide when their distance is strictly below this. */
  const COLLISION_THRESHOLD: real := 0.2

  /** A position `(x, y)`, as returned by the position accessor. */
  type Position = (real, real)

  /** A displacement `(dx, dy)` applied by one move. */
  type Delta = (real, real)

  predicate InEnclosure(p: Position) {
    0.0 <= p.0 <= ENCLOSURE_SIZE && 0.0 <= p.1 <= ENCLOSURE_SIZE
  }

  predicate AllInEnclosure(ps: seq<Position>) {
    forall i :: 0 <= i < |ps| ==> InEnclosure(ps[i])
  }

  /** Distance between two points of the real line. */
  function Dist(a: real, b: real): real {
    if a < b then b - a else a - b
  }

  /** The floating-point `clamp(lo, hi)` on reals: the point of `[lo, hi]`
      nearest to `v`. Both programs only ever clamp into `[0, ENCLOSURE_SIZE]`,
      so the panic on `lo > hi` is excluded by the precondition. */
  function Clamp(v: real, lo: real, hi: real): (r: real)
    requires lo <= hi
    ensures lo <= r <= hi
    ensures lo <= v <= hi ==> r == v
    ensures forall w :: lo <= w <= hi ==> Dist(r, v) <= Dist(w, v)
  {
    if v < lo then lo else if v > hi then hi else v
  }

  /** Maps a uniform draw `r` in `[0, 1)` to the jitter `(r - 0.5) * 2.0`. */
  function Jitter(r: real): (d: real)
    requires 0.0 <= r < 1.0
    ensures -1.0 <= d < 1.0
    ensures d == 0.0 <==> r == 0.5
  {
    (r - 0.5) * 2.0
  }

  /** Maps two uniform draws in `[0, 1)` to a fresh particle's position. */
  function Spawn(u: real, v: real): (p: Position)
    requires 0.0 <= u < 1.0 && 0.0 <= v < 1.0
    ensures InEnclosure(p)
    ensures p.0 < ENCLOSURE_SIZE && p.1 < ENCLOSURE_SIZE
  {
    (u * ENCLOSURE_SIZE, v * ENCLOSURE_SIZE)
  }

  /** Where one move takes a particle at `p`: each coordinate is shifted by
      its delta and clamped into the enclosure. */
  function Moved(p: Position, d: Delta): (q: Position)
    ensures InEnclosure(q)
    ensures 0.0 <= p.0 + d.0 <= ENCLOSURE_SIZE ==> q.0 == p.0 + d.0
    ensures 0.0 <= p.1 + d.1 <= ENCLOSURE_SIZE ==> q.1 == p.1 + d.1
  {
    (Clamp(p.0 + d.0, 0.0, ENCLOSURE_SIZE), Clamp(p.1 + d.1, 0.0, ENCLOSURE_SIZE))
  }

  /** A move by zero deltas leaves a particle of the enclosure where it is. */
  lemma MovedByZero(p: Position)
    requires InEnclosure(p)
    ensures Moved(p, (0.0, 0.0)) == p
  {
  }

  /** Clamping never takes a particle further than its jitter: starting
      inside the enclosure, each coordinate moves by at most its delta. */
  lemma MovedDisplacement(p: Position, d: Delta)
    requires InEnclosure(p)
    ensures Dist(Moved(p, d).0, p.0) <= Dist(d.0, 0.0)
    ensures Dist(Moved(p, d).1, p.1) <= Dist(d.1, 0.0)
  {
  }

  /** A move whose deltas come from two uniform draws shifts each coordinate
      by at most 1. */
  lemma JitteredMoveIsSmall(p: Position, ru: real, rv: real)
    requires InEnclosure(p)
    requires 0.0 <= ru < 1.0 && 0.0 <= rv < 1.0
    ensures Dist(Moved(p, (Jitter(ru), Jitter(rv))).0, p.0) <= 1.0
    ensures Dist(Moved(p, (Jitter(ru), Jitter(rv))).1, p.1) <= 1.0
  {
  }

  function SquaredDistance(p: Position, q: Position): (r: real)
    ensures r >= 0.0
  {
    (p.0 - q.0) * (p.0 - q.0) + (p.1 - q.1) * (p.1 - q.1)
  }

  /** The proximity test. The programs compare the Euclidean distance
      `sqrt(dx*dx + dy*dy)` with COLLISION_THRESHOLD; since both sides are
      non-negative and squaring is monotone there, the model compares the
      squared distance with the squared threshold instead, and
      CollidesIffDistanceBelowThreshold proves the two tests agree. */
  predicate Collides(p: Position, q: Position) {
    SquaredDistance(p, q) < COLLISION_THRESHOLD * COLLISION_THRESHOLD
  }

  lemma CollidesSymmetric(p: Position, q: Position)
    ensures Collides(p, q) == Collides(q, p)
  {
  }

  /** Every particle collides with itself (distance 0 is below the threshold). */
  lemma CollidesReflexive(p: Position)
    ensures Collides(p, p)
  {
  }

  /** For the true distance `d` (the non-negative square root of the squared
      distance), the squared test holds exactly when `d` is strictly below
      the threshold. */
  lemma CollidesIffDistanceBelowThreshold(p: Position, q: Position, d: real)
    requires d >= 0.0 && d * d == SquaredDistance(p, q)
    ensures Collides(p, q) <==> d < COLLISION_THRESHOLD
  {
    var t := COLLISION_THRESHOLD;
    if d < t {
      assert d * d <= d * t < t * t;
    } else {
      assert t * t <= t * d <= d * d;
    }
  }

  /** The test is strict: particles exactly COLLISION_THRESHOLD apart do not
      collide, while any distance below it does. */
  lemma CollidesIsStrict(p: Position, q: Position, d: real)
    requires d >= 0.0 && d * d == SquaredDistance(p, q)
    ensures d == COLLISION_THRESHOLD ==> !Collides(p, q)
    ensures d < COLLISION_THRESHOLD ==> Collides(p, q)
  {
    CollidesIffDistanceBelowThreshold(p, q, d);
  }

  /** A particle: a position updated in place by its moves. */
  class Particle {
    var x: real
    var y: real

    /** A particle at the position given by two uniform draws in `[0, 1)`. */
    constructor (u: real, v: real)
      requires 0.0 <= u < 1.0 && 0.0 <= v < 1.0
      ensures GetPosition() == Spawn(u, v)
      ensures InEnclosure(GetPosition())
    {
      x := u * ENCLOSURE_SIZE;
      y := v * ENCLOSURE_SIZE;
    }

    function GetPosition(): Position
      reads this
    {
      (x, y)
    }

    /** One step of the random walk, with the random deltas passed in. */
    method MoveParticle(dx: real, dy: real)
      modifies this
      ensures GetPosition() == Moved(old(GetPosition()), (dx, dy))
      ensures InEnclosure(GetPosition())
    {
      x := Clamp(x + dx, 0.0, ENCLOSURE_SIZE);
      y := Clamp(y + dy, 0.0, ENCLOSURE_SIZE);
    }

    predicate Collide(other: Particle)
      reads this, other
    {
      Collides(GetPosition(), other.GetPosition())
    }
  }
}
