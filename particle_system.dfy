/** The particle system: a fixed-length vector of particles moved in place
    and scanned for collisions, and the shared collision counter. Both
    programs declare the same system; the atomic one also keeps a handle to
    its counter in it. */
module ParticleSystems {
  import opened Particles
  import opened PairCounts

  /** Positions after one move of every particle, particle `i` by `ds[i]`. */
  function MoveAll(ps: seq<Position>, ds: seq<Delta>): (r: seq<Position>)
    requires |ds| == |ps|
    ensures |r| == |ps|
    ensures AllInEnclosure(r)
  {
    seq(|ps|, i requires 0 <= i < |ps| => Moved(ps[i], ds[i]))
  }

  /** Zero deltas for `n` particles. */
  function Still(n: nat): (ds: seq<Delta>)
    ensures |ds| == n
  {
    seq(n, i => (0.0, 0.0))
  }

  /** One move of the whole system: a delta for each of its particles. */
  type Deltas = ds: seq<Delta> | |ds| == NUM_OF_PARTICLES witness Still(NUM_OF_PARTICLES)

  /** A move with zero jitter leaves an enclosed layout, and therefore its
      collision count, as it was. */
  lemma MoveAllStill(ps: seq<Position>)
    requires AllInEnclosure(ps)
    ensures MoveAll(ps, Still(|ps|)) == ps
    ensures PairCount(MoveAll(ps, Still(|ps|))) == PairCount(ps)
  {
    forall i | 0 <= i < |ps|
      ensures MoveAll(ps, Still(|ps|))[i] == ps[i]
    {
      MovedByZero(ps[i]);
    }
  }

  /** The positions of particles built from uniform draws. */
  function InitialPositions(draws: seq<(real, real)>): (ps: seq<Position>)
    requires ValidDraws(draws)
    ensures |ps| == |draws|
    ensures AllInEnclosure(ps)
  {
    seq(|draws|, i requires 0 <= i < |draws| => Spawn(draws[i].0, draws[i].1))
  }

  /** One pair of uniform draws in `[0, 1)` per particle. */
  predicate ValidDraws(draws: seq<(real, real)>) {
    forall i :: 0 <= i < |draws| ==> 0.0 <= draws[i].0 < 1.0 && 0.0 <= draws[i].1 < 1.0
  }

  /** Total of a list of per-scan counts, added in order. */
  function Sum(cs: seq<nat>): nat {
    if cs == [] then 0 else Sum(cs[..|cs| - 1]) + cs[|cs| - 1]
  }

  /** A running total only grows: the total of a prefix is at most the
      total of the whole list. */
  lemma {:induction false} SumOfPrefix(cs: seq<nat>, k: nat)
    requires k <= |cs|
    ensures Sum(cs[..k]) <= Sum(cs)
    decreases |cs| - k
  {
    if k < |cs| {
      var m := |cs| - 1;
      assert cs[..m][..k] == cs[..k];
      SumOfPrefix(cs[..m], k);
    } else {
      assert cs[..k] == cs;
    }
  }

  lemma ConcatAssoc(a: seq<nat>, b: seq<nat>, c: seq<nat>)
    ensures (a + b) + c == a + (b + c)
  {
  }

  lemma {:induction false} SumOfConcat(a: seq<nat>, b: seq<nat>)
    ensures Sum(a + b) == Sum(a) + Sum(b)
    decreases |b|
  {
    if b == [] {
      assert a + b == a;
    } else {
      var m := |b| - 1;
      assert (a + b)[..|a + b| - 1] == a + b[..m];
      SumOfConcat(a, b[..m]);
    }
  }

  /** Each summand is at most `bound`, so the total is at most `|cs| * bound`. */
  lemma {:induction false} SumBound(cs: seq<nat>, bound: nat)
    requires forall k :: 0 <= k < |cs| ==> cs[k] <= bound
    ensures Sum(cs) <= |cs| * bound
  {
    if cs != [] {
      SumBound(cs[..|cs| - 1], bound);
    }
  }

  /** The shared collision counter: an integer cell that starts at 0 and is
      only ever added to. */
  class Counter {
    var value: nat

    constructor ()
      ensures value == 0
    {
      value := 0;
    }

    /** The atomic `fetch_add`, or `*counter += n` under the counter's lock. */
    method Add(n: nat)
      modifies this
      ensures value == old(value) + n
      ensures old(value) <= value
    {
      value := value + n;
    }

    function Load(): nat
      reads this
    {
      value
    }
  }

  class ParticleSystem {
    const particles: array<Particle>
    const collisionCount: Counter

    /** Exactly NUM_OF_PARTICLES distinct particles, all inside the enclosure. */
    ghost predicate Valid()
      reads this, particles, particles[..]
    {
      particles.Length == NUM_OF_PARTICLES &&
      (forall i, j :: 0 <= i < j < particles.Length ==> particles[i] != particles[j]) &&
      (forall i :: 0 <= i < particles.Length ==> InEnclosure(particles[i].GetPosition()))
    }

    /** A system of fresh particles placed by the given draws, with a fresh
        counter at 0. */
    constructor (draws: seq<(real, real)>)
      requires |draws| == NUM_OF_PARTICLES && ValidDraws(draws)
      ensures Valid()
      ensures GetParticlePositions() == InitialPositions(draws)
      ensures fresh(particles) && fresh(particles[..]) && fresh(collisionCount)
      ensures collisionCount.value == 0
    {
      var ps: seq<Particle> := [];
      var i := 0;
      while i < |draws|
        invariant 0 <= i <= |draws| && |ps| == i
        invariant forall k :: 0 <= k < i ==> fresh(ps[k])
        invariant forall k, l :: 0 <= k < l < i ==> ps[k] != ps[l]
        invariant forall k :: 0 <= k < i ==> ps[k].GetPosition() == Spawn(draws[k].0, draws[k].1)
      {
        var p := new Particle(draws[i].0, draws[i].1);
        ps := ps + [p];
        i := i + 1;
      }
      particles := new Particle[|ps|](k requires 0 <= k < |ps| => ps[k]);
      collisionCount := new Counter();
      new;
      assert particles[..] == ps;
    }

    /** The number of particles, fixed for the system's lifetime. */
    function GetParticleCount(): (n: nat)
      reads this, particles, particles[..]
      requires Valid()
      ensures n == NUM_OF_PARTICLES
      ensures n == |GetParticlePositions()|
    {
      particles.Length
    }

    /** The positions, index-aligned with the particles. */
    function GetParticlePositions(): (ps: seq<Position>)
      reads this, particles, particles[..]
      ensures |ps| == particles.Length
      ensures forall i :: 0 <= i < particles.Length ==> ps[i] == particles[i].GetPosition()
    {
      seq(particles.Length, i reads particles, particles[..] requires 0 <= i < particles.Length =>
        particles[i].GetPosition())
    }

    function GetCollisionCount(): nat
      reads this, collisionCount
    {
      collisionCount.Load()
    }

    /** Moves every particle once, particle `i` by `deltas[i]`, in place: the
        same particles stay in the same order, at their moved positions. */
    method MoveParticles(deltas: seq<Delta>)
      requires Valid()
      requires |deltas| == particles.Length
      modifies particles[..]
      ensures Valid()
      ensures particles[..] == old(particles[..])
      ensures GetParticlePositions() == MoveAll(old(GetParticlePositions()), deltas)
    {
      ghost var before := GetParticlePositions();
      var i := 0;
      while i < particles.Length
        invariant 0 <= i <= particles.Length
        invariant forall k :: 0 <= k < i ==> particles[k].GetPosition() == Moved(before[k], deltas[k])
        invariant forall k :: i <= k < particles.Length ==> particles[k].GetPosition() == before[k]
      {
        particles[i].MoveParticle(deltas[i].0, deltas[i].1);
        i := i + 1;
      }
      assert GetParticlePositions() == MoveAll(before, deltas);
    }

    /** Counts the colliding pairs `i < j` in one exhaustive scan, without
        changing anything. */
    method CheckCollisions() returns (count: nat)
      requires Valid()
      ensures count == PairCount(GetParticlePositions())
      ensures count <= MaxPairs(NUM_OF_PARTICLES)
    {
      ghost var ps := GetParticlePositions();
      var n := particles.Length;
      count := 0;
      var i := 0;
      while i < n
        invariant 0 <= i <= n
        invariant count + PairCount(ps[i..]) == PairCount(ps)
      {
        assert ps[i..][0] == ps[i] && ps[i..][1..] == ps[i + 1..];
        var j := i + 1;
        while j < n
          invariant i + 1 <= j <= n
          invariant count + CountWith(ps[i], ps[j..]) + PairCount(ps[i + 1..]) == PairCount(ps)
        {
          assert ps[j..][0] == ps[j] && ps[j..][1..] == ps[j + 1..];
          if particles[i].Collide(particles[j]) {
            count := count + 1;
          }
          j := j + 1;
        }
        i := i + 1;
      }
      assert ps[n..] == [];
      PairCountBound(ps);
    }
  }

  /** The layout of the four-particle scenario: only the first two particles,
      about 0.14 apart, are closer than the threshold. */
  function ScenarioLayout(): seq<Position> {
    [(0.0, 0.0), (0.1, 0.1), (5.0, 5.0), (9.0, 9.0)]
  }

  lemma ScenarioCount()
    ensures PairCount(ScenarioLayout()) == 1
    ensures PairCount(MoveAll(ScenarioLayout(), Still(4))) == 1
    ensures MoveAll(ScenarioLayout(), Still(4)) == ScenarioLayout()
  {
    var ps := ScenarioLayout();
    assert Collides(ps[0], ps[1]);
    assert !Collides(ps[0], ps[2]) && !Collides(ps[0], ps[3]);
    assert CountWith(ps[0], ps[3..]) == 0;
    assert CountWith(ps[0], ps[2..]) == 0;
    assert CountWith(ps[0], ps[1..]) == 1;
    assert CountWith(ps[1], ps[2..]) == 0;
    assert CountWith(ps[2], ps[3..]) == 0;
    assert PairCount(ps[3..]) == 0;
    ScenarioStill();
  }

  /** With zero jitter the scenario layout stays where it is. */
  lemma ScenarioStill()
    ensures MoveAll(ScenarioLayout(), Still(4)) == ScenarioLayout()
  {
    var ps := ScenarioLayout();
    assert AllInEnclosure(ps) by {
      forall i | 0 <= i < |ps|
        ensures InEnclosure(ps[i])
      {
      }
    }
    MoveAllStill(ps);
  }
}
