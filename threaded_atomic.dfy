/** The atomic-counter program: a mover thread and a collision thread share
    one system behind a single lock, and the collision thread adds each
    scan's count to the system's atomic counter. Each loop body runs while
    holding the lock, so every run is some interleaving of whole move
    bodies and whole scan-and-add bodies; the model takes that interleaving
    (a schedule) as input and runs it sequentially. */
module ThreadedAtomic {
  import opened Particles
  import opened PairCounts
  import opened ParticleSystems

  /** One critical section: the mover moving every particle by `deltas`, or
      the collision thread scanning and adding the count to the counter. */
  datatype Step = Move(deltas: Deltas) | Scan

  /** Positions after one critical section. */
  function After(ps: seq<Position>, step: Step): (r: seq<Position>)
    requires |ps| == NUM_OF_PARTICLES
    ensures |r| == NUM_OF_PARTICLES
    ensures AllInEnclosure(ps) ==> AllInEnclosure(r)
  {
    if step.Move? then MoveAll(ps, step.deltas) else ps
  }

  /** What one critical section adds to the counter: the pair count of the
      current layout for a scan, nothing for a move. */
  function Report(ps: seq<Position>, step: Step): (cs: seq<nat>)
    ensures |cs| <= 1
    ensures forall k :: 0 <= k < |cs| ==> cs[k] <= MaxPairs(|ps|)
  {
    PairCountBound(ps);
    if step.Scan? then [PairCount(ps)] else []
  }

  /** Positions after running `schedule` from `ps`. */
  function FinalPositions(ps: seq<Position>, schedule: seq<Step>): (r: seq<Position>)
    requires |ps| == NUM_OF_PARTICLES
    ensures |r| == NUM_OF_PARTICLES
    ensures AllInEnclosure(ps) ==> AllInEnclosure(r)
    decreases |schedule|
  {
    if schedule == [] then ps else FinalPositions(After(ps, schedule[0]), schedule[1..])
  }

  /** The counts the scans of `schedule` report, in order: each is the pair
      count of the positions at that point of the run. */
  function ScanCounts(ps: seq<Position>, schedule: seq<Step>): (cs: seq<nat>)
    requires |ps| == NUM_OF_PARTICLES
    ensures |cs| <= |schedule|
    ensures forall k :: 0 <= k < |cs| ==> cs[k] <= MaxPairs(NUM_OF_PARTICLES)
    decreases |schedule|
  {
    if schedule == [] then []
    else Report(ps, schedule[0]) + ScanCounts(After(ps, schedule[0]), schedule[1..])
  }

  /** One loop body of either thread, run while holding the system's lock. */
  method RunStep(system: ParticleSystem, step: Step) returns (reported: seq<nat>)
    requires system.Valid()
    modifies system.particles[..], system.collisionCount
    ensures system.Valid()
    ensures system.GetParticlePositions() == After(old(system.GetParticlePositions()), step)
    ensures reported == Report(old(system.GetParticlePositions()), step)
    ensures system.GetCollisionCount() == old(system.GetCollisionCount()) + Sum(reported)
  {
    match step
    case Move(ds) =>
      system.MoveParticles(ds);
      reported := [];
    case Scan =>
      var c := system.CheckCollisions();
      system.collisionCount.Add(c);
      reported := [c];
      assert reported[..0] == [];
  }

  /** Running the rest of a schedule from step `k` is running step `k`
      and then the rest from `k + 1`. */
  lemma AdvanceRun(start: seq<Position>, here: seq<Position>, schedule: seq<Step>, k: nat, counts: seq<nat>)
    requires |here| == NUM_OF_PARTICLES && |start| == NUM_OF_PARTICLES
    requires k < |schedule|
    requires FinalPositions(here, schedule[k..]) == FinalPositions(start, schedule)
    requires counts + ScanCounts(here, schedule[k..]) == ScanCounts(start, schedule)
    ensures var next := After(here, schedule[k]);
      FinalPositions(next, schedule[k + 1..]) == FinalPositions(start, schedule) &&
      (counts + Report(here, schedule[k])) + ScanCounts(next, schedule[k + 1..]) == ScanCounts(start, schedule)
  {
    assert schedule[k..][0] == schedule[k] && schedule[k..][1..] == schedule[k + 1..];
    var next := After(here, schedule[k]);
    var rep := Report(here, schedule[k]);
    var rest := ScanCounts(next, schedule[k + 1..]);
    assert ScanCounts(here, schedule[k..]) == rep + rest;
    ConcatAssoc(counts, rep, rest);
  }

  /** Runs the two threads' loop bodies in the order `schedule` gives. */
  method RunThreads(system: ParticleSystem, schedule: seq<Step>) returns (counts: seq<nat>)
    requires system.Valid()
    modifies system.particles[..], system.collisionCount
    ensures system.Valid()
    ensures system.GetParticlePositions() == FinalPositions(old(system.GetParticlePositions()), schedule)
    ensures counts == ScanCounts(old(system.GetParticlePositions()), schedule)
    ensures system.GetCollisionCount() == old(system.GetCollisionCount()) + Sum(counts)
  {
    ghost var start := system.GetParticlePositions();
    counts := [];
    var k := 0;
    assert schedule[0..] == schedule;
    while k < |schedule|
      invariant 0 <= k <= |schedule|
      invariant system.Valid()
      invariant Progress(start, system.GetParticlePositions(), schedule, k, counts)
      invariant system.GetCollisionCount() == old(system.GetCollisionCount()) + Sum(counts)
      decreases |schedule| - k
    {
      counts := RunNext(system, start, schedule, k, counts);
      k := k + 1;
    }
    assert schedule[k..] == [];
  }

  /** After the first `k` steps of a run from `start`, at `here`, having
      reported `counts`: what is left of the run finishes the whole run. */
  ghost predicate Progress(start: seq<Position>, here: seq<Position>, schedule: seq<Step>, k: nat, counts: seq<nat>) {
    |start| == NUM_OF_PARTICLES && |here| == NUM_OF_PARTICLES && k <= |schedule| &&
    FinalPositions(here, schedule[k..]) == FinalPositions(start, schedule) &&
    counts + ScanCounts(here, schedule[k..]) == ScanCounts(start, schedule)
  }

  /** Runs step `k` of the schedule, keeping the run on course. */
  method RunNext(system: ParticleSystem, ghost start: seq<Position>, schedule: seq<Step>, k: nat, counts: seq<nat>)
    returns (counts': seq<nat>)
    requires system.Valid() && k < |schedule|
    requires Progress(start, system.GetParticlePositions(), schedule, k, counts)
    modifies system.particles[..], system.collisionCount
    ensures system.Valid()
    ensures Progress(start, system.GetParticlePositions(), schedule, k + 1, counts')
    ensures system.GetCollisionCount() - Sum(counts') == old(system.GetCollisionCount()) - Sum(counts)
  {
    ghost var here := system.GetParticlePositions();
    AdvanceRun(start, here, schedule, k, counts);
    var reported := RunStep(system, schedule[k]);
    SumOfConcat(counts, reported);
    counts' := counts + reported;
  }

  /** The whole program: build the system, let both threads run, join them,
      and read the total. */
  method SimulateRun(draws: seq<(real, real)>, schedule: seq<Step>) returns (total: nat)
    requires |draws| == NUM_OF_PARTICLES && ValidDraws(draws)
    ensures total == Sum(ScanCounts(InitialPositions(draws), schedule))
  {
    var system := new ParticleSystem(draws);
    var counts := RunThreads(system, schedule);
    total := system.GetCollisionCount();
  }

  lemma PrefixOfConcat(a: seq<nat>, b: seq<nat>, c: seq<nat>)
    requires |b| <= |c| && b == c[..|b|]
    ensures |a + b| <= |a + c| && a + b == (a + c)[..|a + b|]
  {
  }

  /** Running a prefix of the schedule reports a prefix of the counts. */
  lemma {:induction false} ScanCountsOfPrefix(ps: seq<Position>, schedule: seq<Step>, k: nat)
    requires |ps| == NUM_OF_PARTICLES && k <= |schedule|
    ensures var pre := ScanCounts(ps, schedule[..k]);
      |pre| <= |ScanCounts(ps, schedule)| && pre == ScanCounts(ps, schedule)[..|pre|]
    decreases k
  {
    if k > 0 {
      var next := After(ps, schedule[0]);
      var rep := Report(ps, schedule[0]);
      assert schedule[..k][0] == schedule[0];
      assert schedule[..k][1..] == schedule[1..][..k - 1];
      ScanCountsOfPrefix(next, schedule[1..], k - 1);
      var pre := ScanCounts(next, schedule[1..][..k - 1]);
      var all := ScanCounts(next, schedule[1..]);
      assert ScanCounts(ps, schedule[..k]) == rep + pre;
      assert ScanCounts(ps, schedule) == rep + all;
      PrefixOfConcat(rep, pre, all);
    }
  }

  /** The counter never decreases: what it holds after any prefix of a run
      is at most what it holds after the whole run. */
  lemma CounterMonotone(ps: seq<Position>, schedule: seq<Step>, k: nat)
    requires |ps| == NUM_OF_PARTICLES && k <= |schedule|
    ensures Sum(ScanCounts(ps, schedule[..k])) <= Sum(ScanCounts(ps, schedule))
  {
    ScanCountsOfPrefix(ps, schedule, k);
    var all := ScanCounts(ps, schedule);
    SumOfPrefix(all, |ScanCounts(ps, schedule[..k])|);
  }

  /** The total is bounded by the number of critical sections times the
      largest possible per-scan count. */
  lemma TotalBound(ps: seq<Position>, schedule: seq<Step>)
    requires |ps| == NUM_OF_PARTICLES
    ensures Sum(ScanCounts(ps, schedule)) <= |schedule| * MaxPairs(NUM_OF_PARTICLES)
  {
    var cs := ScanCounts(ps, schedule);
    assert MaxPairs(NUM_OF_PARTICLES) == 4950;
    SumBound(cs, 4950);
  }

  /** Scans with no move in between see the same layout and report the same
      count, however many of them run in a row. */
  lemma {:induction false} ScansWithoutMovesAgree(ps: seq<Position>, scans: seq<Step>)
    requires |ps| == NUM_OF_PARTICLES
    requires forall k :: 0 <= k < |scans| ==> scans[k].Scan?
    ensures ScanCounts(ps, scans) == seq(|scans|, k => PairCount(ps))
    ensures FinalPositions(ps, scans) == ps
    decreases |scans|
  {
    if scans != [] {
      ScansWithoutMovesAgree(ps, scans[1..]);
    }
  }

  /** Running `a` and then `b` reports what `a` reports and then what `b`
      reports from where `a` left the particles. */
  lemma {:induction false} ScanCountsOfConcat(ps: seq<Position>, a: seq<Step>, b: seq<Step>)
    requires |ps| == NUM_OF_PARTICLES
    ensures ScanCounts(ps, a + b) == ScanCounts(ps, a) + ScanCounts(FinalPositions(ps, a), b)
    ensures FinalPositions(ps, a + b) == FinalPositions(FinalPositions(ps, a), b)
    decreases |a|
  {
    if a == [] {
      assert a + b == b;
    } else {
      var next := After(ps, a[0]);
      assert (a + b)[0] == a[0] && (a + b)[1..] == a[1..] + b;
      ScanCountsOfConcat(next, a[1..], b);
      ConcatAssoc(Report(ps, a[0]), ScanCounts(next, a[1..]), ScanCounts(FinalPositions(ps, a), b));
    }
  }

  /** At any point of a run, a block of scans with no move between them
      reports the pair count of the layout reached at that point, once per
      scan. */
  lemma ScansAnywhereAgree(ps: seq<Position>, before: seq<Step>, scans: seq<Step>, after: seq<Step>)
    requires |ps| == NUM_OF_PARTICLES
    requires forall k :: 0 <= k < |scans| ==> scans[k].Scan?
    ensures var here := FinalPositions(ps, before);
      ScanCounts(ps, before + scans + after)
        == ScanCounts(ps, before) + seq(|scans|, k => PairCount(here)) + ScanCounts(here, after)
  {
    var here := FinalPositions(ps, before);
    ScanCountsOfConcat(ps, before + scans, after);
    ScanCountsOfConcat(ps, before, scans);
    ScansWithoutMovesAgree(here, scans);
  }
}
