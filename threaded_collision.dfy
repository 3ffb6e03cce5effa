/** The collision program: one thread repeatedly moves every particle,
    scans the moved layout for collisions, and adds the count to a separate
    shared counter that starts at 0; the main thread joins it and then reads
    the total and the final positions. The loop's wall-clock bound becomes
    the number of iterations given, one list of deltas per iteration. */
module ThreadedCollision {
  import opened Particles
  import opened PairCounts
  import opened ParticleSystems

  /** Positions after moving every particle once per iteration. */
  function Iterate(ps: seq<Position>, iterations: seq<Deltas>): (r: seq<Position>)
    requires |ps| == NUM_OF_PARTICLES
    ensures |r| == NUM_OF_PARTICLES
    ensures iterations != [] || AllInEnclosure(ps) ==> AllInEnclosure(r)
    decreases |iterations|
  {
    if iterations == [] then ps else Iterate(MoveAll(ps, iterations[0]), iterations[1..])
  }

  /** The count each iteration adds to the counter: the pair count of the
      layout that iteration's move produced. */
  function IterationCounts(ps: seq<Position>, iterations: seq<Deltas>): (cs: seq<nat>)
    requires |ps| == NUM_OF_PARTICLES
    ensures |cs| == |iterations|
    ensures forall k :: 0 <= k < |cs| ==> cs[k] <= MaxPairs(NUM_OF_PARTICLES)
    decreases |iterations|
  {
    if iterations == [] then []
    else
      var moved := MoveAll(ps, iterations[0]);
      PairCountBound(moved);
      [PairCount(moved)] + IterationCounts(moved, iterations[1..])
  }

  /** One loop body, run while holding the system's lock: move every
      particle, scan the moved layout, add the count to the counter. */
  method MoveAndCount(system: ParticleSystem, counter: Counter, deltas: Deltas)
    returns (collisions: nat)
    requires system.Valid()
    modifies system.particles[..], counter
    ensures system.Valid()
    ensures system.GetParticlePositions() == MoveAll(old(system.GetParticlePositions()), deltas)
    ensures collisions == PairCount(system.GetParticlePositions())
    ensures counter.value == old(counter.value) + collisions
  {
    system.MoveParticles(deltas);
    collisions := system.CheckCollisions();
    counter.Add(collisions);
  }

  /** Running the iterations from `k` on is running iteration `k` and then
      the rest from `k + 1`. */
  lemma AdvanceRun(start: seq<Position>, here: seq<Position>, iterations: seq<Deltas>, k: nat, counts: seq<nat>)
    requires |here| == NUM_OF_PARTICLES && |start| == NUM_OF_PARTICLES
    requires k < |iterations|
    requires Iterate(here, iterations[k..]) == Iterate(start, iterations)
    requires counts + IterationCounts(here, iterations[k..]) == IterationCounts(start, iterations)
    ensures var moved := MoveAll(here, iterations[k]);
      Iterate(moved, iterations[k + 1..]) == Iterate(start, iterations) &&
      (counts + [PairCount(moved)]) + IterationCounts(moved, iterations[k + 1..]) == IterationCounts(start, iterations)
  {
    assert iterations[k..][0] == iterations[k] && iterations[k..][1..] == iterations[k + 1..];
    var moved := MoveAll(here, iterations[k]);
    var rest := IterationCounts(moved, iterations[k + 1..]);
    assert IterationCounts(here, iterations[k..]) == [PairCount(moved)] + rest;
    ConcatAssoc(counts, [PairCount(moved)], rest);
  }

  /** The mover thread's loop: move, scan, add the scan's count. */
  method MoveThread(system: ParticleSystem, counter: Counter, iterations: seq<Deltas>)
    returns (counts: seq<nat>)
    requires system.Valid()
    modifies system.particles[..], counter
    ensures system.Valid()
    ensures system.GetParticlePositions() == Iterate(old(system.GetParticlePositions()), iterations)
    ensures counts == IterationCounts(old(system.GetParticlePositions()), iterations)
    ensures counter.value == old(counter.value) + Sum(counts)
  {
    ghost var start := system.GetParticlePositions();
    ghost var here := start;
    counts := [];
    var k := 0;
    assert iterations[0..] == iterations;
    while k < |iterations|
      invariant 0 <= k <= |iterations|
      invariant system.Valid()
      invariant here == system.GetParticlePositions() && |here| == NUM_OF_PARTICLES
      invariant Iterate(here, iterations[k..]) == Iterate(start, iterations)
      invariant counts + IterationCounts(here, iterations[k..]) == IterationCounts(start, iterations)
      invariant counter.value == old(counter.value) + Sum(counts)
      decreases |iterations| - k
    {
      AdvanceRun(start, here, iterations, k, counts);
      var collisions := MoveAndCount(system, counter, iterations[k]);
      SumOfConcat(counts, [collisions]);
      counts := counts + [collisions];
      here := MoveAll(here, iterations[k]);
      k := k + 1;
    }
    assert iterations[k..] == [];
  }

  /** The whole program: build the system, report its initial positions,
      start the counter at 0, run and join the mover thread, then report the
      total and the final positions. */
  method SimulateRun(draws: seq<(real, real)>, iterations: seq<Deltas>)
    returns (initial: seq<Position>, total: nat, final: seq<Position>)
    requires |draws| == NUM_OF_PARTICLES && ValidDraws(draws)
    ensures initial == InitialPositions(draws)
    ensures total == Sum(IterationCounts(initial, iterations))
    ensures final == Iterate(initial, iterations)
    ensures |initial| == |final| == NUM_OF_PARTICLES
    ensures AllInEnclosure(initial) && AllInEnclosure(final)
  {
    var system := new ParticleSystem(draws);
    initial := system.GetParticlePositions();
    var counter := new Counter();
    var counts := MoveThread(system, counter, iterations);
    total := counter.Load();
    final := system.GetParticlePositions();
  }

  /** The first `k` iterations report the first `k` counts. */
  lemma {:induction false} IterationCountsOfPrefix(ps: seq<Position>, iterations: seq<Deltas>, k: nat)
    requires |ps| == NUM_OF_PARTICLES && k <= |iterations|
    ensures IterationCounts(ps, iterations[..k]) == IterationCounts(ps, iterations)[..k]
    decreases k
  {
    if k > 0 {
      var moved := MoveAll(ps, iterations[0]);
      assert iterations[..k][0] == iterations[0];
      assert iterations[..k][1..] == iterations[1..][..k - 1];
      IterationCountsOfPrefix(moved, iterations[1..], k - 1);
    }
  }

  /** Running `k` iterations and then the rest is running them all. */
  lemma {:induction false} IterateSplit(ps: seq<Position>, iterations: seq<Deltas>, k: nat)
    requires |ps| == NUM_OF_PARTICLES && k <= |iterations|
    ensures Iterate(Iterate(ps, iterations[..k]), iterations[k..]) == Iterate(ps, iterations)
    decreases k
  {
    if k == 0 {
      assert iterations[..k] == [] && iterations[k..] == iterations;
    } else {
      var moved := MoveAll(ps, iterations[0]);
      assert iterations[..k][0] == iterations[0];
      assert iterations[..k][1..] == iterations[1..][..k - 1];
      assert iterations[k..] == iterations[1..][k - 1..];
      IterateSplit(moved, iterations[1..], k - 1);
    }
  }

  /** Iteration `k` adds exactly the pair count of the layout its own move
      produced, i.e. of the positions after the first `k + 1` moves. */
  lemma IterationCountAt(ps: seq<Position>, iterations: seq<Deltas>, k: nat)
    requires |ps| == NUM_OF_PARTICLES && k < |iterations|
    ensures IterationCounts(ps, iterations)[k] == PairCount(Iterate(ps, iterations[..k + 1]))
  {
    IterationCountsOfPrefix(ps, iterations, k);
    IterationCountsOfPrefix(ps, iterations, k + 1);
    LastCount(ps, iterations[..k + 1]);
    assert IterationCounts(ps, iterations[..k + 1])[k] == IterationCounts(ps, iterations)[k];
  }

  /** The last count reported is the pair count of the final layout. */
  lemma {:induction false} LastCount(ps: seq<Position>, iterations: seq<Deltas>)
    requires |ps| == NUM_OF_PARTICLES && iterations != []
    ensures IterationCounts(ps, iterations)[|iterations| - 1] == PairCount(Iterate(ps, iterations))
    decreases |iterations|
  {
    var moved := MoveAll(ps, iterations[0]);
    if |iterations| > 1 {
      LastCount(moved, iterations[1..]);
    }
  }

  /** After `k` iterations the counter holds the sum of their `k` counts, and
      that running total never decreases from one iteration to the next. */
  lemma CounterAfterIterations(ps: seq<Position>, iterations: seq<Deltas>, k: nat)
    requires |ps| == NUM_OF_PARTICLES && k < |iterations|
    ensures Sum(IterationCounts(ps, iterations[..k + 1]))
         == Sum(IterationCounts(ps, iterations[..k])) + IterationCounts(ps, iterations)[k]
    ensures Sum(IterationCounts(ps, iterations[..k])) <= Sum(IterationCounts(ps, iterations[..k + 1]))
  {
    IterationCountsOfPrefix(ps, iterations, k);
    IterationCountsOfPrefix(ps, iterations, k + 1);
    var cs := IterationCounts(ps, iterations);
    assert cs[..k + 1][..k] == cs[..k];
  }

  /** The final total is at most one full set of pairs per iteration. */
  lemma TotalBound(ps: seq<Position>, iterations: seq<Deltas>)
    requires |ps| == NUM_OF_PARTICLES
    ensures Sum(IterationCounts(ps, iterations)) <= |iterations| * MaxPairs(NUM_OF_PARTICLES)
  {
    assert MaxPairs(NUM_OF_PARTICLES) == 4950;
    SumBound(IterationCounts(ps, iterations), 4950);
  }
}
