# Particles in an enclosure, with a collision counter

The repository holds two stages of one Rust program. Each builds a system of
100 point particles with random positions in a 10 x 10 enclosure. A mover
shifts every particle by a jitter in `[-1, 1)` per axis and clamps it back into
the enclosure. A collision check counts the unordered pairs `i < j` whose
distance is strictly below 0.2. The totals of those checks go into a shared
counter.

- `particles_threaded_atomic`: a mover thread and a collision thread share the
  system behind one `Mutex`. The collision thread adds each scan's count to an
  `AtomicUsize` held by the system.
- `particles_threaded_collision`: one thread moves, scans and adds each scan's
  count to a separate `Mutex<usize>` counter that starts at 0. The main thread
  then prints the total and the final positions.

The model has five modules:

- `Particles` (`particles.dfy`): the constants, the clamp, the jitter, the
  move of one particle, the proximity test, and the `Particle` class with its
  coordinates as `real` fields updated in place.
- `PairCounts` (`pair_counts.dfy`): the number of colliding pairs of a list of
  positions, defined recursively in the order the nested scan visits the
  pairs. It is proved equal to the size of the set of colliding index pairs,
  and bounded by `n(n-1)/2`.
- `ParticleSystems` (`particle_system.dfy`): the `ParticleSystem` class, whose
  fixed-length `array` of particles is moved in place and scanned by a nested
  loop. It also holds the `Counter` class, which models both the
  `AtomicUsize` and the `Mutex<usize>`.
- `ThreadedAtomic` (`threaded_atomic.dfy`): each loop body of either thread
  runs under the one lock, so every run is some interleaving of whole move
  bodies and whole scan-and-add bodies. The model takes that interleaving (a
  schedule of `Move`/`Scan` steps) as input and runs it step by step.
- `ThreadedCollision` (`threaded_collision.dfy`): the move, scan, add loop,
  run for a given list of iterations.

The two programs declare `Particle` and the system's methods identically, so
one model serves both. The rows below cite whichever file was clearer. The
twin lines are:

| atomic file | collision file |
|---|---|
| 22-26 | 21-25 |
| 29-35 | 28-34 |
| 38-43 | 37-42 |
| 59-65 | 57-62 |
| 68-72 | 65-69 |
| 75-77 | 72-74 |
| 80-82 | 77-79 |
| 84-94 | 82-92 |

`ParticleSystem` carries the atomic program's counter handle
(`collisionCount`). The collision program's system has no such field, and
`ThreadedCollision` never touches it. Its counter is the separate `Counter`
made at line 114.

Some members have no contract of their own and are used by the code and
contracts below:

- `Particles.Particle.GetPosition` (atomic 46-48): the `(x, y)` accessor.
- `Particles.Particle.Collide` (atomic 38-43): defined as `Particles.Collides`
  on the two positions.
- `ParticleSystems.ParticleSystem.GetCollisionCount` (atomic 97-99): reads the
  counter.
- `ParticleSystems.Counter.Load`: reads the counter value.

## Model

| member | source | states |
|---|---|---|
| `Particles.Clamp` | particles_threaded_atomic/src/main.rs:33-34 | The result lies in `[lo, hi]`. It is `v` itself when `v` is already in range. It is the point of `[lo, hi]` nearest to `v`. |
| `Particles.Jitter` | particles_threaded_atomic/src/main.rs:30-31 | A draw in `[0, 1)` becomes a delta in `[-1, 1)`. The delta is zero exactly for the draw 0.5. |
| `Particles.Spawn` | particles_threaded_atomic/src/main.rs:23-24 | Two draws in `[0, 1)` give a position in `[0, ENCLOSURE_SIZE)` on both axes. |
| `Particles.Moved` | particles_threaded_atomic/src/main.rs:33-34 | After a move with any deltas, both coordinates lie in `[0, ENCLOSURE_SIZE]`. Each coordinate is exactly `x+dx` (resp. `y+dy`) when that value is already in range. |
| `Particles.MovedByZero` | particles_threaded_collision/src/main.rs:32-33 | With zero deltas, a particle inside the enclosure stays where it is. |
| `Particles.MovedDisplacement` | particles_threaded_collision/src/main.rs:32-33 | Clamping never moves a coordinate further than its delta. |
| `Particles.JitteredMoveIsSmall` | particles_threaded_collision/src/main.rs:29-33 | A move driven by two draws shifts each coordinate by at most 1. |
| `Particles.CollidesSymmetric` | particles_threaded_atomic/src/main.rs:38-43 | `collide` is symmetric. |
| `Particles.CollidesReflexive` | particles_threaded_collision/src/main.rs:37-42 | Every particle collides with itself. |
| `Particles.CollidesIffDistanceBelowThreshold` | particles_threaded_atomic/src/main.rs:41-42 | For the non-negative square root `d` of the squared distance, the squared test holds exactly when `d < COLLISION_THRESHOLD`. This is the comparison the source makes. |
| `Particles.CollidesIsStrict` | particles_threaded_collision/src/main.rs:40-41 | Particles exactly `COLLISION_THRESHOLD` apart do not collide. Any smaller distance collides. |
| `Particles.Particle.constructor` | particles_threaded_collision/src/main.rs:21-25 | A new particle sits at the position its two draws give, inside the enclosure. |
| `Particles.Particle.MoveParticle` | particles_threaded_atomic/src/main.rs:29-35 | The particle's new position is the clamped move of its old one by `(dx, dy)`, inside the enclosure. |
| `PairCounts.CountWith` | particles_threaded_atomic/src/main.rs:87-91 | The inner loop's count of later particles colliding with particle `i` is at most the number of those particles. |
| `PairCounts.PairCount` | particles_threaded_atomic/src/main.rs:84-94 | Twice the number of colliding pairs among `n` positions is at most `n(n-1)`. |
| `PairCounts.PairCountBound` | particles_threaded_collision/src/main.rs:82-92 | The pair count is at most `n*(n-1)/2`. |
| `PairCounts.PairCountIsNumberOfCollidingPairs` | particles_threaded_atomic/src/main.rs:84-94 | The recursive count equals the number of index pairs `(i, j)` with `i < j` and `collide(p[i], p[j])`. Each pair is counted, and counted once. |
| `PairCounts.PairCountOfOneSpot` | particles_threaded_collision/src/main.rs:82-92 | The bound is reached: when all particles share one position, every pair collides. |
| `ParticleSystems.MoveAll` | particles_threaded_collision/src/main.rs:65-69 | Moving every particle keeps the count and leaves every particle inside the enclosure. |
| `ParticleSystems.MoveAllStill` | particles_threaded_atomic/src/main.rs:68-72 | A zero-jitter move leaves an enclosed layout, and its collision count, unchanged. |
| `ParticleSystems.InitialPositions` | particles_threaded_collision/src/main.rs:57-60 | One position per draw, all inside the enclosure. |
| `ParticleSystems.ScenarioCount` | particles_threaded_atomic/src/main.rs:84-94 | Four particles at `(0,0), (0.1,0.1), (5,5), (9,9)` give exactly one colliding pair. After a zero-jitter move, the layout and the count are unchanged. |
| `ParticleSystems.Counter.constructor` | particles_threaded_collision/src/main.rs:114 | The counter starts at 0. |
| `ParticleSystems.Counter.Add` | particles_threaded_atomic/src/main.rs:143 | `fetch_add(n)` raises the counter by exactly `n`, so it never decreases. |
| `ParticleSystems.ParticleSystem.constructor` | particles_threaded_atomic/src/main.rs:59-65 | A new system has `NUM_OF_PARTICLES` distinct fresh particles at the positions their draws give, all inside the enclosure. Its fresh collision counter is 0. |
| `ParticleSystems.ParticleSystem.GetParticleCount` | particles_threaded_collision/src/main.rs:72-74 | The particle count is `NUM_OF_PARTICLES` and equals the length of the position list. |
| `ParticleSystems.ParticleSystem.GetParticlePositions` | particles_threaded_atomic/src/main.rs:80-82 | The list has one entry per particle. Entry `i` is particle `i`'s own `(x, y)`. |
| `ParticleSystems.ParticleSystem.MoveParticles` | particles_threaded_collision/src/main.rs:65-69 | The same particles stay in the same order. Particle `i` is moved once, by its own deltas. All particles stay inside the enclosure, and the system stays valid. |
| `ParticleSystems.ParticleSystem.CheckCollisions` | particles_threaded_atomic/src/main.rs:84-94 | The result is exactly the number of colliding pairs `i < j` of the current positions, and at most `n*(n-1)/2`. The call changes nothing: it has no `modifies` clause. |
| `ThreadedAtomic.After` | particles_threaded_atomic/src/main.rs:127-128 | A critical section keeps the particle count and keeps the particles inside the enclosure. |
| `ThreadedAtomic.Report` | particles_threaded_atomic/src/main.rs:141-143 | A critical section adds at most one count, and that count is at most the number of pairs. |
| `ThreadedAtomic.FinalPositions` | particles_threaded_atomic/src/main.rs:121-131 | Any interleaving of moves keeps the count and keeps the particles inside the enclosure. |
| `ThreadedAtomic.ScanCounts` | particles_threaded_atomic/src/main.rs:134-146 | There is at most one reported count per critical section, and each is at most `n*(n-1)/2`. |
| `ThreadedAtomic.RunStep` | particles_threaded_atomic/src/main.rs:139-144 | A move body moves every particle. A scan body adds exactly the current pair count to the counter. |
| `ThreadedAtomic.RunThreads` | particles_threaded_atomic/src/main.rs:121-150 | Running an interleaving leaves the positions the schedule determines. It reports the scan counts in order. The counter ends at its start value plus their sum, so no update is lost. |
| `ThreadedAtomic.SimulateRun` | particles_threaded_atomic/src/main.rs:102-157 | The total that the final `get_collision_count` returns is the sum of the scan counts of the run (0 plus `Σ c_k`). |
| `ThreadedAtomic.CounterMonotone` | particles_threaded_atomic/src/main.rs:143 | The counter after any prefix of a run is at most the counter after the whole run. |
| `ThreadedAtomic.TotalBound` | particles_threaded_atomic/src/main.rs:139-144 | The total is at most the number of critical sections times `n*(n-1)/2`. |
| `ThreadedAtomic.ScansWithoutMovesAgree` | particles_threaded_atomic/src/main.rs:141-142 | Any number of scans in a row, with no move between them, each report the pair count of the layout they start from, and leave the layout as it is. |
| `ThreadedAtomic.ScanCountsOfConcat` | particles_threaded_atomic/src/main.rs:121-150 | Running one part of a schedule and then another reports the first part's counts, then the second part's counts from where the first left the particles. |
| `ThreadedAtomic.ScansAnywhereAgree` | particles_threaded_atomic/src/main.rs:134-146 | At any point of any run, a block of back-to-back scans reports the same count once per scan: the pair count of the layout reached at that point. |
| `ThreadedCollision.Iterate` | particles_threaded_collision/src/main.rs:125-128 | After any iterations the particle count is `NUM_OF_PARTICLES`. After at least one iteration, every particle is inside the enclosure. |
| `ThreadedCollision.IterationCounts` | particles_threaded_collision/src/main.rs:125-134 | There is one count per iteration, each at most `n*(n-1)/2`. |
| `ThreadedCollision.MoveAndCount` | particles_threaded_collision/src/main.rs:127-133 | One iteration moves every particle. It then adds the pair count of the just-moved positions to the counter. |
| `ThreadedCollision.MoveThread` | particles_threaded_collision/src/main.rs:121-135 | The loop leaves the positions of all iterations' moves and reports one count per iteration. The counter ends at its start value plus their sum. |
| `ThreadedCollision.SimulateRun` | particles_threaded_collision/src/main.rs:98-151 | The initial report lists particle `i`'s starting position. The total is the sum of the per-iteration counts, from 0. The final report lists particle `i`'s position after all moves. Both lists have `NUM_OF_PARTICLES` entries inside the enclosure. |
| `ThreadedCollision.IterationCountsOfPrefix` | particles_threaded_collision/src/main.rs:125-134 | The first `k` iterations report the first `k` counts. |
| `ThreadedCollision.IterateSplit` | particles_threaded_collision/src/main.rs:125-128 | Running `k` iterations and then the rest is the same as running them all. |
| `ThreadedCollision.IterationCountAt` | particles_threaded_collision/src/main.rs:127-133 | Iteration `k` adds exactly the pair count of the positions after the first `k + 1` moves, i.e. of the layout its own move produced. |
| `ThreadedCollision.CounterAfterIterations` | particles_threaded_collision/src/main.rs:125-134 | After `k + 1` iterations the counter is the counter after `k` plus iteration `k`'s count, so it never decreases. |
| `ThreadedCollision.TotalBound` | particles_threaded_collision/src/main.rs:125-134 | The total is at most the number of iterations times `n*(n-1)/2`. |

## Left out

- Random numbers (`rand::random`): the two uniform draws per particle are
  constructor parameters, and the move deltas are method parameters. `Jitter`
  states how a draw becomes a delta.
- `f32` arithmetic: coordinates are `real`. Rounding is not modelled. In
  particular, `x + dx` is rounded before the clamp, so in `f32` a move is
  exact only up to that rounded sum. NaN is not modelled either.
- `sqrt`: the collision test compares the squared distance with the squared
  threshold. `Particles.CollidesIffDistanceBelowThreshold` shows this agrees
  with the distance comparison.
- Threads, `Arc`, `Mutex`, `join` and lock poisoning (`unwrap` panics): the
  atomic program's two threads become a given interleaving of whole loop
  bodies, which is what the single lock allows. The collision program's one
  thread runs sequentially.
- `AtomicUsize` memory orderings: the counter is a plain field.
- `Instant` / `Duration` and `MOVE_DURATION`: how many loop bodies run within
  the time limit is an input (the length of the schedule or iteration list).
- `println!` reports and the commented-out code in the atomic program's
  `main`: the reports are modelled as the position lists and total that
  `SimulateRun` returns.
- `ParticleSystems.Counter.Add`: does not model `usize` wrap-around of
  `fetch_add`, nor the overflow panic of `+=`. The counter is an unbounded
  `nat`.
- `ThreadedAtomic.RunThreads`: models the mover's and the scanner's loop
  bodies under the single `Mutex` the code uses, not a reader-writer lock.
  The code adds to the counter while still holding that lock.
