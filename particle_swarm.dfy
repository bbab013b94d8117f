/**
 A model of the particle-swarm optimiser in PSO_SEE.py.

 The script's module-level lists become the fields of a `Swarm` and its
 initialisation the constructor. The main loop is `Run`; one pass of it is
 `IterateAndReport`, which calls `Iterate` (one iteration): `Sweep` (the
 loop over particles) and then `UpdateGlobalBest`. The sweep updates each
 particle with `UpdateParticle`, which is `MoveParticle` (the loop over
 dimensions) followed by `UpdatePersonalBest`. Python's `random.random()`
 is modelled as a stream: `rng(n)` is the value its n-th call returns, and
 `drawn` counts the calls made.
 */
module ParticleSwarm {

  // Parameters of the swarm.
  const NUM_PARTICLES: nat := 10
  const NUM_DIMENSIONS: nat := 2
  const MAX_ITER: nat := 5
  const W: real := 0.7
  const C1: real := 1.5
  const C2: real := 1.5
  const LOW: real := -10.0
  const HIGH: real := 10.0

  /** A value returned by `random.random()`. */
  type Unit = r: real | 0.0 <= r < 1.0

  /** The values successive calls of `random.random()` return. */
  type Rng = nat -> Unit

  /** A point of the search space, one coordinate per dimension. */
  type Position = seq<real>

  datatype Option<T> = None | Some(value: T)

  /**
   A product as a term of its own: the solver then reasons about its sign
   only through the lemmas below, which keeps the proofs about squares and
   scaled draws stable.
   */
  function Product(a: real, b: real): real {
    a * b
  }

  lemma ProductNonNegative(a: real, b: real)
    requires 0.0 <= a && 0.0 <= b
    ensures 0.0 <= Product(a, b)
  {
  }

  lemma ProductPositive(a: real, b: real)
    requires 0.0 < a && 0.0 < b
    ensures 0.0 < Product(a, b)
  {
  }

  lemma ProductOfNegations(a: real, b: real)
    ensures Product(-a, -b) == Product(a, b)
  {
  }

  /** The square `a ** 2`: never negative, and zero only at zero. */
  function Square(a: real): (s: real)
    ensures 0.0 <= s
    ensures s == 0.0 <==> a == 0.0
  {
    if a > 0.0 then
      ProductPositive(a, a);
      Product(a, a)
    else if a < 0.0 then
      ProductPositive(-a, -a);
      ProductOfNegations(a, a);
      Product(a, a)
    else
      Product(a, a)
  }

  /** The cost to minimise: the squared distance from (3, -5). */
  function Cost(position: Position): (c: real)
    requires |position| >= 2
    ensures 0.0 <= c
    ensures c == 0.0 <==> position[0] == 3.0 && position[1] == -5.0
  {
    Square(position[0] - 3.0) + Square(position[1] + 5.0)
  }

  /** `random.uniform(lo, hi)` computed from one draw of `random.random()`. */
  function Uniform(lo: real, hi: real, u: Unit): (r: real)
    ensures lo <= hi ==> lo <= r <= hi
    ensures lo < hi ==> r < hi
  {
    ScaleBelow(lo, hi, u);
    lo + (hi - lo) * u
  }

  lemma ScaleBelow(lo: real, hi: real, u: Unit)
    ensures lo <= hi ==> 0.0 <= (hi - lo) * u <= hi - lo
    ensures lo < hi ==> (hi - lo) * u < hi - lo
  {
    if lo <= hi {
      ProductNonNegative(hi - lo, u);
      ProductNonNegative(hi - lo, 1.0 - u);
      if lo < hi {
        ProductPositive(hi - lo, 1.0 - u);
      }
    }
  }

  /** Every coordinate lies within the bounds. */
  predicate InBounds(p: Position) {
    |p| == NUM_DIMENSIONS && forall d :: 0 <= d < |p| ==> LOW <= p[d] <= HIGH
  }

  /** The bound check applied after each position update. */
  function Clamp(x: real): (c: real)
    ensures LOW <= c <= HIGH
    ensures LOW <= x <= HIGH ==> c == x
    ensures x < LOW ==> c == LOW
    ensures x > HIGH ==> c == HIGH
  {
    if x < LOW then LOW else if x > HIGH then HIGH else x
  }

  /** The velocity update for one coordinate: inertia, cognitive and social terms. */
  function NewVelocity(v: real, personal: real, x: real, global: real, r1: Unit, r2: Unit): real {
    W * v + C1 * r1 * (personal - x) + C2 * r2 * (global - x)
  }

  /** The initial position of particle `i`, drawn coordinate by coordinate. */
  function InitialPosition(rng: Rng, i: nat): (p: Position)
    ensures InBounds(p)
  {
    var p := seq(NUM_DIMENSIONS, d requires 0 <= d < NUM_DIMENSIONS => Uniform(LOW, HIGH, rng(i * NUM_DIMENSIONS + d)));
    // The verifier does not look inside a sequence comprehension on its own;
    // naming its elements lets Uniform's range reach InBounds.
    assert forall d :: 0 <= d < NUM_DIMENSIONS ==> p[d] == Uniform(LOW, HIGH, rng(i * NUM_DIMENSIONS + d));
    p
  }

  /** The initial velocity of particle `i`, drawn after all the positions. */
  function InitialVelocity(rng: Rng, i: nat): (v: seq<real>)
    ensures |v| == NUM_DIMENSIONS
    ensures forall d :: 0 <= d < NUM_DIMENSIONS ==> -1.0 <= v[d] <= 1.0
  {
    var v := seq(NUM_DIMENSIONS, d requires 0 <= d < NUM_DIMENSIONS =>
      Uniform(-1.0, 1.0, rng(NUM_PARTICLES * NUM_DIMENSIONS + i * NUM_DIMENSIONS + d)));
    // As in InitialPosition: name the elements so Uniform's range applies.
    assert forall d :: 0 <= d < NUM_DIMENSIONS ==>
      v[d] == Uniform(-1.0, 1.0, rng(NUM_PARTICLES * NUM_DIMENSIONS + i * NUM_DIMENSIONS + d));
    v
  }

  /** The smallest element, as Python's `min` gives it. */
  function Min(xs: seq<real>): (m: real)
    requires |xs| > 0
    ensures m in xs
    ensures forall j :: 0 <= j < |xs| ==> m <= xs[j]
  {
    if |xs| == 1 then xs[0]
    else
      var rest := Min(xs[1..]);
      if xs[0] <= rest then xs[0] else rest
  }

  /** The position of the first occurrence, as Python's `list.index` gives it. */
  function IndexOf(xs: seq<real>, v: real): (k: nat)
    requires v in xs
    ensures k < |xs| && xs[k] == v
    ensures forall j :: 0 <= j < k ==> xs[j] != v
  {
    if xs[0] == v then 0 else 1 + IndexOf(xs[1..], v)
  }

  /** `xs.index(min(xs))`: the first position holding the minimum. */
  function FirstMinIndex(xs: seq<real>): (k: nat)
    requires |xs| > 0
    ensures k < |xs|
    ensures forall j :: 0 <= j < |xs| ==> xs[k] <= xs[j]
    ensures forall j :: 0 <= j < k ==> xs[k] < xs[j]
  {
    IndexOf(xs, Min(xs))
  }

  /**
   The effect of the inner loop over dimensions: coordinate `d` takes draws
   `n + 2 * d` and `n + 2 * d + 1` for the new velocity, then moves by it and
   is kept within the bounds.
   */
  predicate Moved(position: Position, velocity: seq<real>, personal: Position, global: Position, rng: Rng, n: nat,
                  newPosition: Position, newVelocity: seq<real>)
    requires |position| == NUM_DIMENSIONS && |velocity| == NUM_DIMENSIONS
    requires |personal| == NUM_DIMENSIONS && |global| == NUM_DIMENSIONS
    requires |newPosition| == NUM_DIMENSIONS && |newVelocity| == NUM_DIMENSIONS
  {
    forall d :: 0 <= d < NUM_DIMENSIONS ==>
      && newVelocity[d] == NewVelocity(velocity[d], personal[d], position[d], global[d],
                                       rng(n + 2 * d), rng(n + 2 * d + 1))
      && newPosition[d] == Clamp(position[d] + newVelocity[d])
  }

  /**
   What one pass of the sweep does to one particle: it moves as `Moved`
   says, and its personal best becomes the new position, with that
   position's cost, exactly when that cost is strictly below the old best
   fitness.
   */
  predicate Stepped(position: Position, velocity: seq<real>, best: Position, bestFitness: real,
                    global: Position, rng: Rng, n: nat,
                    newPosition: Position, newVelocity: seq<real>, newBest: Position, newBestFitness: real)
  {
    && |position| == NUM_DIMENSIONS && |velocity| == NUM_DIMENSIONS
    && |best| == NUM_DIMENSIONS && |global| == NUM_DIMENSIONS
    && |newPosition| == NUM_DIMENSIONS && |newVelocity| == NUM_DIMENSIONS
    && Moved(position, velocity, best, global, rng, n, newPosition, newVelocity)
    && (Cost(newPosition) < bestFitness ==> newBest == newPosition && newBestFitness == Cost(newPosition))
    && (Cost(newPosition) >= bestFitness ==> newBest == best && newBestFitness == bestFitness)
  }

  /**
   The inner loop over dimensions for one particle: each coordinate's
   velocity takes two draws starting at `n`, and the moved coordinate is
   kept within the bounds.
   */
  method Move(position: Position, velocity: seq<real>, personal: Position, global: Position, rng: Rng, n: nat)
    returns (newPosition: Position, newVelocity: seq<real>)
    requires |position| == NUM_DIMENSIONS && |velocity| == NUM_DIMENSIONS
    requires |personal| == NUM_DIMENSIONS && |global| == NUM_DIMENSIONS
    ensures InBounds(newPosition) && |newVelocity| == NUM_DIMENSIONS
    ensures Moved(position, velocity, personal, global, rng, n, newPosition, newVelocity)
  {
    newPosition, newVelocity := position, velocity;
    var k := n;
    for d := 0 to NUM_DIMENSIONS
      invariant |newPosition| == NUM_DIMENSIONS && |newVelocity| == NUM_DIMENSIONS
      invariant k == n + 2 * d
      invariant forall e :: 0 <= e < d ==>
                  && newVelocity[e] == NewVelocity(velocity[e], personal[e], position[e], global[e],
                                                   rng(n + 2 * e), rng(n + 2 * e + 1))
                  && newPosition[e] == Clamp(position[e] + newVelocity[e])
      invariant forall e :: d <= e < NUM_DIMENSIONS ==>
                  newPosition[e] == position[e] && newVelocity[e] == velocity[e]
    {
      var r1 := rng(k);
      var r2 := rng(k + 1);
      k := k + 2;
      newVelocity := newVelocity[d := W * newVelocity[d] + C1 * r1 * (personal[d] - newPosition[d])
                                       + C2 * r2 * (global[d] - newPosition[d])];
      newPosition := newPosition[d := newPosition[d] + newVelocity[d]];
      if newPosition[d] < LOW {
        newPosition := newPosition[d := LOW];
      } else if newPosition[d] > HIGH {
        newPosition := newPosition[d := HIGH];
      }
    }
  }

  /** A sequence of reals that never increases. */
  predicate NonIncreasing(s: seq<real>) {
    forall k :: 0 < k < |s| ==> s[k] <= s[k - 1]
  }

  /** A log of reported best fitnesses: never increasing, never negative. */
  predicate Reported(log: seq<real>) {
    NonIncreasing(log) && forall k :: 0 <= k < |log| ==> 0.0 <= log[k]
  }

  /** Appending a value no higher than the last, and not negative, keeps a log reported. */
  lemma ExtendLog(log: seq<real>, x: real)
    requires Reported(log)
    requires |log| > 0 ==> x <= log[|log| - 1]
    requires 0.0 <= x
    ensures Reported(log + [x])
    ensures (log + [x])[|log|] == x && (|log| > 0 ==> (log + [x])[0] == log[0])
  {
  }

  /** Pointwise, no fitness in `after` is worse (higher) than in `before`. */
  predicate NoWorse(before: seq<real>, after: seq<real>) {
    |before| == |after| && forall j :: 0 <= j < |before| ==> after[j] <= before[j]
  }

  /** Improvements compose across iterations. */
  lemma NoWorseTransitive(a: seq<real>, b: seq<real>, c: seq<real>)
    requires NoWorse(a, b) && NoWorse(b, c)
    ensures NoWorse(a, c)
  {
  }

  /** The four per-particle lists of the swarm, taken together. */
  datatype Rows = Rows(particles: seq<Position>, velocities: seq<seq<real>>, pbest: seq<Position>, pbestFitness: seq<real>)
  {
    predicate Sized() {
      |particles| == NUM_PARTICLES && |velocities| == NUM_PARTICLES
      && |pbest| == NUM_PARTICLES && |pbestFitness| == NUM_PARTICLES
    }
  }

  /** Particle `j` of `after` is particle `j` of `before` after its step in the sweep. */
  predicate StepAt(before: Rows, global: Position, rng: Rng, start: nat, j: nat, after: Rows)
    requires before.Sized() && after.Sized() && j < NUM_PARTICLES
  {
    Stepped(before.particles[j], before.velocities[j], before.pbest[j], before.pbestFitness[j],
            global, rng, start + 2 * NUM_DIMENSIONS * j,
            after.particles[j], after.velocities[j], after.pbest[j], after.pbestFitness[j])
  }

  /**
   The sweep has stepped the particles before `k`, starting at draw `start`
   against global best `global`, and not yet touched the others.
   */
  predicate SweptUpTo(before: Rows, global: Position, rng: Rng, start: nat, k: nat, after: Rows) {
    && before.Sized() && after.Sized() && k <= NUM_PARTICLES
    && (forall j :: 0 <= j < k ==> StepAt(before, global, rng, start, j, after))
    && (forall j :: k <= j < NUM_PARTICLES ==>
          && after.particles[j] == before.particles[j] && after.velocities[j] == before.velocities[j]
          && after.pbest[j] == before.pbest[j] && after.pbestFitness[j] == before.pbestFitness[j])
  }

  /**
   A whole sweep: every particle of `after` is the same particle of
   `before` after its step, particle `j` starting at draw
   `start + 2 * NUM_DIMENSIONS * j`.
   */
  predicate Swept(before: Rows, global: Position, rng: Rng, start: nat, after: Rows) {
    && before.Sized() && after.Sized()
    && forall j :: 0 <= j < NUM_PARTICLES ==> StepAt(before, global, rng, start, j, after)
  }

  /**
   `after` is `current` with particle `i`, and only it, stepped from draw `n`
   against global best `global`.
   */
  predicate StepOf(current: Rows, global: Position, rng: Rng, n: nat, i: nat, after: Rows) {
    && current.Sized() && after.Sized() && i < NUM_PARTICLES
    && after.particles == current.particles[i := after.particles[i]]
    && after.velocities == current.velocities[i := after.velocities[i]]
    && after.pbest == current.pbest[i := after.pbest[i]]
    && after.pbestFitness == current.pbestFitness[i := after.pbestFitness[i]]
    && Stepped(current.particles[i], current.velocities[i], current.pbest[i], current.pbestFitness[i],
               global, rng, n, after.particles[i], after.velocities[i], after.pbest[i], after.pbestFitness[i])
  }

  /** Stepping particle `i`, and only it, extends a sweep by one particle. */
  lemma {:induction false} SweepStep(before: Rows, global: Position, rng: Rng, start: nat, i: nat, n: nat,
                                     current: Rows, after: Rows)
    requires SweptUpTo(before, global, rng, start, i, current)
    requires n == start + 2 * NUM_DIMENSIONS * i
    requires StepOf(current, global, rng, n, i, after)
    ensures SweptUpTo(before, global, rng, start, i + 1, after)
  {
    forall j | 0 <= j < i
      ensures StepAt(before, global, rng, start, j, after)
    {
      assert StepAt(before, global, rng, start, j, current);
      assert after.particles[j] == current.particles[j] && after.velocities[j] == current.velocities[j];
      assert after.pbest[j] == current.pbest[j] && after.pbestFitness[j] == current.pbestFitness[j];
    }
    // Particle i had not been touched before its own step.
    assert current.particles[i] == before.particles[i] && current.velocities[i] == before.velocities[i];
    assert current.pbest[i] == before.pbest[i] && current.pbestFitness[i] == before.pbestFitness[i];
    assert StepAt(before, global, rng, start, i, after);
    forall j | i < j < NUM_PARTICLES
      ensures after.particles[j] == before.particles[j] && after.velocities[j] == before.velocities[j]
      ensures after.pbest[j] == before.pbest[j] && after.pbestFitness[j] == before.pbestFitness[j]
    {
      assert after.particles[j] == current.particles[j] && after.velocities[j] == current.velocities[j];
      assert after.pbest[j] == current.pbest[j] && after.pbestFitness[j] == current.pbestFitness[j];
    }
  }

  /** The personal-best fitness the global-best update picks: the least, first on ties. */
  function LeastFitness(rows: Rows): real
    requires rows.Sized()
  {
    rows.pbestFitness[FirstMinIndex(rows.pbestFitness)]
  }

  /**
   One iteration of the main loop from draw `start`: a sweep against the
   global best kept for `before` (its first personal best of least fitness),
   reporting the least personal-best fitness of `after`.
   */
  predicate Iteration(before: Rows, rng: Rng, start: nat, after: Rows, reported: real) {
    && before.Sized() && after.Sized()
    && Swept(before, before.pbest[FirstMinIndex(before.pbestFitness)], rng, start, after)
    && reported == LeastFitness(after)
  }

  /** `history[k + 1]` is `history[k]` after iteration `k`, which reported `log[k]`. */
  predicate IterationAt(history: seq<Rows>, log: seq<real>, rng: Rng, start: nat, k: nat)
    requires |history| == |log| + 1 && k < |log|
  {
    Iteration(history[k], rng, start + k * 2 * NUM_PARTICLES * NUM_DIMENSIONS, history[k + 1], log[k])
  }

  /** Each snapshot of `history` is the one before it after one iteration. */
  predicate Iterations(history: seq<Rows>, log: seq<real>, rng: Rng, start: nat) {
    && |history| == |log| + 1
    && forall k :: 0 <= k < |log| ==> IterationAt(history, log, rng, start, k)
  }

  /** One more iteration extends the history. */
  lemma ExtendIterations(history: seq<Rows>, log: seq<real>, rng: Rng, start: nat,
                         before: Rows, n: nat, after: Rows, reported: real)
    requires Iterations(history, log, rng, start)
    requires before == history[|log|] && n == start + |log| * 2 * NUM_PARTICLES * NUM_DIMENSIONS
    requires Iteration(before, rng, n, after, reported)
    ensures Iterations(history + [after], log + [reported], rng, start)
  {
    var hs, ls := history + [after], log + [reported];
    forall k | 0 <= k < |ls|
      ensures IterationAt(hs, ls, rng, start, k)
    {
      if k < |log| {
        assert IterationAt(history, log, rng, start, k);
        assert hs[k] == history[k] && hs[k + 1] == history[k + 1] && ls[k] == log[k];
      }
    }
  }

  /** A sweep never raises a personal-best fitness. */
  lemma SweptNoWorse(before: Rows, global: Position, rng: Rng, start: nat, after: Rows)
    requires Swept(before, global, rng, start, after)
    ensures NoWorse(before.pbestFitness, after.pbestFitness)
  {
    forall j | 0 <= j < NUM_PARTICLES
      ensures after.pbestFitness[j] <= before.pbestFitness[j]
    {
      assert StepAt(before, global, rng, start, j, after);
    }
  }

  /**
   The reported best fitness never rises: the personal best that gave
   `log[k]` is no worse after the next sweep, and `log[k + 1]` is the least.
   */
  lemma IterationsNonIncreasing(history: seq<Rows>, log: seq<real>, rng: Rng, start: nat)
    requires Iterations(history, log, rng, start)
    ensures NonIncreasing(log)
  {
    forall k | 0 < k < |log|
      ensures log[k] <= log[k - 1]
    {
      assert IterationAt(history, log, rng, start, k - 1);
      assert IterationAt(history, log, rng, start, k);
      SweptNoWorse(history[k], history[k].pbest[FirstMinIndex(history[k].pbestFitness)], rng,
                   start + k * 2 * NUM_PARTICLES * NUM_DIMENSIONS, history[k + 1]);
      var m := FirstMinIndex(history[k].pbestFitness);
      assert history[k + 1].pbestFitness[m] <= history[k].pbestFitness[m] == log[k - 1];
    }
  }

  class Swarm {
    const rng: Rng
    var drawn: nat
    var particles: seq<Position>
    var velocities: seq<seq<real>>
    var pbest: seq<Position>
    var pbestFitness: seq<real>
    var gbestIndex: nat
    var gbest: Position
    var bestFit: Option<real>

    /** Shapes and bounds, and each personal best's fitness cached for it. */
    ghost predicate Valid()
      reads this
    {
      && |particles| == NUM_PARTICLES && |velocities| == NUM_PARTICLES
      && |pbest| == NUM_PARTICLES && |pbestFitness| == NUM_PARTICLES
      && (forall i :: 0 <= i < NUM_PARTICLES ==>
            InBounds(particles[i]) && |velocities[i]| == NUM_DIMENSIONS && InBounds(pbest[i]))
      && (forall i :: 0 <= i < NUM_PARTICLES ==> pbestFitness[i] == Cost(pbest[i]))
      && gbestIndex < NUM_PARTICLES && InBounds(gbest)
    }

    /**
     The global best is the first personal best of least fitness, and the
     reported best fitness (once there is one) is its fitness. Holds between
     iterations; during the sweep over particles the personal bests move on.
     */
    ghost predicate GlobalBestCurrent()
      reads this
      requires Valid()
    {
      && gbestIndex == FirstMinIndex(pbestFitness)
      && gbest == pbest[gbestIndex]
      && (bestFit.Some? ==> bestFit.value == pbestFitness[gbestIndex])
    }

    /** The per-particle lists, as one value. */
    function Snapshot(): Rows
      reads this
    {
      Rows(particles, velocities, pbest, pbestFitness)
    }

    /** The initialisation: random positions and velocities, bests from them. */
    constructor (rng: Rng)
      ensures Valid() && GlobalBestCurrent()
      ensures this.rng == rng && drawn == 2 * NUM_PARTICLES * NUM_DIMENSIONS
      ensures forall i :: 0 <= i < NUM_PARTICLES ==>
                particles[i] == InitialPosition(rng, i) && velocities[i] == InitialVelocity(rng, i)
      ensures pbest == particles
      ensures forall i :: 0 <= i < NUM_PARTICLES ==> pbestFitness[i] == Cost(particles[i])
      ensures bestFit == None
    {
      this.rng := rng;
      var positions := seq(NUM_PARTICLES, i requires 0 <= i < NUM_PARTICLES => InitialPosition(rng, i));
      particles := positions;
      velocities := seq(NUM_PARTICLES, i requires 0 <= i < NUM_PARTICLES => InitialVelocity(rng, i));
      drawn := 2 * NUM_PARTICLES * NUM_DIMENSIONS;
      pbest := positions;
      var fitness := seq(NUM_PARTICLES, i requires 0 <= i < NUM_PARTICLES => Cost(positions[i]));
      pbestFitness := fitness;
      var index := FirstMinIndex(fitness);
      gbestIndex := index;
      gbest := positions[index];
      bestFit := None;
    }

    /**
     The inner loop over dimensions for particle `i`: new velocity and
     clamped position per dimension. Nothing else changes.
     */
    method MoveParticle(i: nat)
      requires Valid() && i < NUM_PARTICLES
      modifies this
      ensures Valid()
      ensures drawn == old(drawn) + 2 * NUM_DIMENSIONS
      ensures gbest == old(gbest) && gbestIndex == old(gbestIndex) && bestFit == old(bestFit)
      ensures pbest == old(pbest) && pbestFitness == old(pbestFitness)
      ensures particles == old(particles)[i := particles[i]]
      ensures velocities == old(velocities)[i := velocities[i]]
      ensures Moved(old(particles[i]), old(velocities[i]), pbest[i], gbest, rng, old(drawn),
                    particles[i], velocities[i])
    {
      // The rows particles[i] and velocities[i] are rebuilt by the inner loop and stored back.
      var position, velocity := Move(particles[i], velocities[i], pbest[i], gbest, rng, drawn);
      particles, velocities := particles[i := position], velocities[i := velocity];
      drawn := drawn + 2 * NUM_DIMENSIONS;
      // The other particles keep their rows.
      forall j | 0 <= j < NUM_PARTICLES && j != i
        ensures InBounds(particles[j]) && |velocities[j]| == NUM_DIMENSIONS
      {
        assert particles[j] == old(particles[j]) && velocities[j] == old(velocities[j]);
      }
    }

    /**
     The personal-best step for particle `i`: its best position and fitness
     are replaced exactly when its current position is strictly better.
     */
    method UpdatePersonalBest(i: nat)
      requires Valid() && i < NUM_PARTICLES
      modifies this
      ensures Valid()
      ensures particles == old(particles) && velocities == old(velocities) && drawn == old(drawn)
      ensures gbest == old(gbest) && gbestIndex == old(gbestIndex) && bestFit == old(bestFit)
      ensures Cost(particles[i]) < old(pbestFitness[i]) ==>
                pbest == old(pbest)[i := particles[i]] && pbestFitness == old(pbestFitness)[i := Cost(particles[i])]
      ensures Cost(particles[i]) >= old(pbestFitness[i]) ==>
                pbest == old(pbest) && pbestFitness == old(pbestFitness)
      ensures pbestFitness[i] <= old(pbestFitness[i])
    {
      var fit := Cost(particles[i]);
      if fit < pbestFitness[i] {
        pbest, pbestFitness := pbest[i := particles[i]], pbestFitness[i := fit];
        // The other particles keep their bests and cached fitness.
        forall j | 0 <= j < NUM_PARTICLES && j != i
          ensures InBounds(pbest[j]) && pbestFitness[j] == Cost(pbest[j])
        {
          assert pbest[j] == old(pbest[j]) && pbestFitness[j] == old(pbestFitness[j]);
        }
      }
    }

    /**
     One pass of the sweep over particles for particle `i`: move it, then
     update its personal best. Nothing of other particles and nothing global
     changes.
     */
    method UpdateParticle(i: nat)
      requires Valid() && i < NUM_PARTICLES
      modifies this
      ensures Valid()
      ensures drawn == old(drawn) + 2 * NUM_DIMENSIONS
      ensures gbest == old(gbest) && gbestIndex == old(gbestIndex) && bestFit == old(bestFit)
      ensures particles == old(particles)[i := particles[i]]
      ensures velocities == old(velocities)[i := velocities[i]]
      ensures Moved(old(particles[i]), old(velocities[i]), old(pbest[i]), gbest, rng, old(drawn),
                    particles[i], velocities[i])
      ensures Cost(particles[i]) < old(pbestFitness[i]) ==>
                pbest == old(pbest)[i := particles[i]] && pbestFitness == old(pbestFitness)[i := Cost(particles[i])]
      ensures Cost(particles[i]) >= old(pbestFitness[i]) ==>
                pbest == old(pbest) && pbestFitness == old(pbestFitness)
      ensures pbestFitness[i] <= old(pbestFitness[i])
      ensures pbest == old(pbest)[i := pbest[i]] && pbestFitness == old(pbestFitness)[i := pbestFitness[i]]
      ensures StepOf(old(Snapshot()), gbest, rng, old(drawn), i, Snapshot())
    {
      MoveParticle(i);
      UpdatePersonalBest(i);
    }

    /** Recomputes the global best from the personal bests and reports its fitness. */
    method UpdateGlobalBest()
      requires Valid()
      modifies this
      ensures Valid() && GlobalBestCurrent()
      ensures particles == old(particles) && velocities == old(velocities) && drawn == old(drawn)
      ensures pbest == old(pbest) && pbestFitness == old(pbestFitness)
      ensures bestFit == Some(pbestFitness[gbestIndex]) && 0.0 <= bestFit.value
      ensures forall j :: 0 <= j < NUM_PARTICLES ==> bestFit.value <= pbestFitness[j]
      ensures forall j :: 0 <= j < gbestIndex ==> bestFit.value < pbestFitness[j]
    {
      gbestIndex := IndexOf(pbestFitness, Min(pbestFitness));
      gbest := pbest[gbestIndex];
      bestFit := Some(pbestFitness[gbestIndex]);
    }

    /**
     The sweep over particles: each particle in turn moves towards the
     global best, which stays as it was before the sweep, and updates its
     personal best. Particle `j` uses the two draws per dimension that
     follow those of the particles before it.
     */
    method Sweep()
      requires Valid()
      modifies this
      ensures Valid()
      ensures drawn == old(drawn) + 2 * NUM_PARTICLES * NUM_DIMENSIONS
      ensures gbest == old(gbest) && gbestIndex == old(gbestIndex) && bestFit == old(bestFit)
      ensures NoWorse(old(pbestFitness), pbestFitness)
      ensures Swept(old(Snapshot()), gbest, rng, old(drawn), Snapshot())
    {
      ghost var start, before := drawn, Snapshot();
      for i := 0 to NUM_PARTICLES
        invariant Valid()
        invariant drawn == start + 2 * NUM_DIMENSIONS * i
        invariant gbest == old(gbest) && gbestIndex == old(gbestIndex) && bestFit == old(bestFit)
        invariant NoWorse(before.pbestFitness, pbestFitness)
        invariant SweptUpTo(before, gbest, rng, start, i, Snapshot())
      {
        ghost var current, n := Snapshot(), drawn;
        UpdateParticle(i);
        SweepStep(before, gbest, rng, start, i, n, current, Snapshot());
      }
    }

    /** One iteration: the sweep, then the global-best update. */
    method Iterate()
      requires Valid() && GlobalBestCurrent()
      modifies this
      ensures Valid() && GlobalBestCurrent()
      ensures drawn == old(drawn) + 2 * NUM_PARTICLES * NUM_DIMENSIONS
      ensures NoWorse(old(pbestFitness), pbestFitness)
      ensures bestFit.Some? && 0.0 <= bestFit.value <= old(pbestFitness[gbestIndex])
      ensures old(bestFit).Some? ==> bestFit.value <= old(bestFit).value
      ensures forall j :: 0 <= j < NUM_PARTICLES ==> bestFit.value <= pbestFitness[j]
      ensures Swept(old(Snapshot()), old(gbest), rng, old(drawn), Snapshot())
      ensures Iteration(old(Snapshot()), rng, old(drawn), Snapshot(), bestFit.value)
    {
      Sweep();
      ghost var oldIndex := gbestIndex;
      UpdateGlobalBest();
      assert bestFit.value <= pbestFitness[oldIndex];
    }

    /**
     The main loop's state after `k` iterations, starting from the rows
     `first`, with `start` values drawn and a best fitness of `firstBest`:
     `log` holds the best fitness reported after each iteration and
     `history` the rows before and after each.
     */
    ghost predicate RanFor(k: nat, first: Rows, start: nat, firstBest: real, log: seq<real>, history: seq<Rows>)
      reads this
    {
      && Valid() && GlobalBestCurrent()
      && drawn == start + k * 2 * NUM_PARTICLES * NUM_DIMENSIONS
      && |log| == k && Reported(log)
      && (k > 0 ==> bestFit == Some(log[k - 1]) && log[0] <= firstBest)
      && (k == 0 ==> pbestFitness[gbestIndex] == firstBest)
      && first.Sized() && NoWorse(first.pbestFitness, pbestFitness)
      && Iterations(history, log, rng, start) && history[0] == first && history[k] == Snapshot()
    }

    /**
     One pass of the main loop: the iteration, after which its best fitness
     is reported.
     */
    method IterateAndReport(ghost k: nat, ghost first: Rows, ghost start: nat, ghost firstBest: real,
                            log: seq<real>, ghost history: seq<Rows>)
      returns (newLog: seq<real>, ghost newHistory: seq<Rows>)
      requires RanFor(k, first, start, firstBest, log, history)
      modifies this
      ensures RanFor(k + 1, first, start, firstBest, newLog, newHistory)
      ensures newLog == log + [bestFit.value] && newHistory == history + [Snapshot()]
    {
      ghost var before, current, n := pbestFitness, Snapshot(), drawn;
      Iterate();
      NoWorseTransitive(first.pbestFitness, before, pbestFitness);
      ExtendLog(log, bestFit.value);
      ExtendIterations(history, log, rng, start, current, n, Snapshot(), bestFit.value);
      newLog, newHistory := log + [bestFit.value], history + [Snapshot()];
    }

    /**
     The main loop: MAX_ITER iterations. `log` holds the best fitness
     reported after each of them, and `history` the rows before and after
     each.
     */
    method Run() returns (log: seq<real>, ghost history: seq<Rows>)
      requires Valid() && GlobalBestCurrent()
      modifies this
      ensures Valid() && GlobalBestCurrent()
      ensures drawn == old(drawn) + MAX_ITER * 2 * NUM_PARTICLES * NUM_DIMENSIONS
      ensures NoWorse(old(pbestFitness), pbestFitness)
      ensures |log| == MAX_ITER && bestFit == Some(log[MAX_ITER - 1])
      ensures Reported(log) && log[0] <= old(pbestFitness[gbestIndex])
      ensures Iterations(history, log, rng, old(drawn))
      ensures history[0] == old(Snapshot()) && history[MAX_ITER] == Snapshot()
    {
      ghost var first, start, firstBest := Snapshot(), drawn, pbestFitness[gbestIndex];
      log, history := [], [first];
      for iteration := 0 to MAX_ITER
        invariant RanFor(iteration, first, start, firstBest, log, history)
      {
        log, history := IterateAndReport(iteration, first, start, firstBest, log, history);
      }
    }
  }

  /**
   The whole script: initialise a swarm from the stream, run it, and give
   back the final global best and its fitness, with the best fitness printed
   after each iteration (`log`) and the rows before and after each
   (`history`).
   */
  method RunScript(rng: Rng) returns (gbest: Position, bestFit: real, log: seq<real>, ghost history: seq<Rows>)
    ensures InBounds(gbest) && bestFit == Cost(gbest)
    ensures forall i :: 0 <= i < NUM_PARTICLES ==> bestFit <= Cost(InitialPosition(rng, i))
    ensures Iterations(history, log, rng, 2 * NUM_PARTICLES * NUM_DIMENSIONS)
    ensures |log| == MAX_ITER && bestFit == log[MAX_ITER - 1]
    ensures history[0].Sized() && history[MAX_ITER].Sized()
    ensures forall i :: 0 <= i < NUM_PARTICLES ==>
              && history[0].particles[i] == InitialPosition(rng, i)
              && history[0].velocities[i] == InitialVelocity(rng, i)
              && history[0].pbestFitness[i] == Cost(InitialPosition(rng, i))
    ensures history[0].pbest == history[0].particles
    ensures gbest == history[MAX_ITER].pbest[FirstMinIndex(history[MAX_ITER].pbestFitness)]
  {
    var swarm := new Swarm(rng);
    log, history := swarm.Run();
    gbest := swarm.gbest;
    bestFit := swarm.bestFit.value;
  }
}
