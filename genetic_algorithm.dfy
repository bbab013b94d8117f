/**
 A model of the real-valued genetic algorithm in Generic_algorithm.c.

 The objective `x * sin(10 * pi * x) + 1` is transcendental, so it is not
 written out: every member that evaluates fitness takes the objective as a
 parameter `f`, and everything proved here holds for any objective.

 The C library generator `rand()` is modelled as a stream: `rng(n)` is the
 value the n-th call returns after seeding. Operators receive the stream and
 the position of their first draw and give back the position after their
 last, so draws that the source takes only on one branch (the crossover
 weight, the mutation step) are consumed only on that branch.
 */
module GeneticAlgorithm {

  // Parameters of the algorithm.
  const POP_SIZE: nat := 50
  const NUM_GENERATIONS: nat := 100
  const CROSSOVER_RATE: real := 0.8
  const MUTATION_RATE: real := 0.1
  const MIN_X: real := 0.0
  const MAX_X: real := 1.0
  const TARGET_VALUE: real := 1.5
  const MUTATION_STRENGTH: real := 0.1

  /** Largest value `rand()` returns (the value of glibc's RAND_MAX). */
  const RAND_MAX: nat := 2147483647

  /** A value returned by one call of `rand()`. */
  type Raw = r: int | 0 <= r <= RAND_MAX

  /** The sequence of values successive calls of `rand()` return for one seed. */
  type Rng = nat -> Raw

  /** The function whose value should come close to TARGET_VALUE. */
  type Objective = real -> real

  function Abs(x: real): real {
    if x < 0.0 then -x else x
  }

  predicate InDomain(x: real) {
    MIN_X <= x <= MAX_X
  }

  /** `x` lies between `a` and `b`, in whichever order they come. */
  predicate Between(x: real, a: real, b: real) {
    (a <= x <= b) || (b <= x <= a)
  }

  /** Fitness of a gene: minus the distance of the objective from the target. */
  function Fitness(f: Objective, x: real): (r: real)
    ensures r <= 0.0
    ensures r == 0.0 <==> f(x) == TARGET_VALUE
  {
    -Abs(f(x) - TARGET_VALUE)
  }

  /** Scales one raw draw to the interval from `lo` to `hi`. */
  function RandomDouble(lo: real, hi: real, raw: Raw): (r: real)
    ensures lo <= hi ==> lo <= r <= hi
    ensures raw == 0 ==> r == lo
    ensures raw == RAND_MAX ==> r == hi
  {
    var t := (raw as real) / (RAND_MAX as real);
    ScaleBetween(t, lo, hi);
    lo + t * (hi - lo)
  }

  /** The sign of a product, a hint the solver needs for nonlinear steps. */
  lemma MulNonNegative(a: real, b: real)
    requires 0.0 <= a && 0.0 <= b
    ensures 0.0 <= a * b
  {
  }

  /** Scaling by a factor in [0, 1] stays within the width scaled. */
  lemma ScaleBetween(t: real, lo: real, hi: real)
    requires 0.0 <= t <= 1.0
    ensures lo <= hi ==> 0.0 <= t * (hi - lo) <= hi - lo
    ensures t == 0.0 ==> lo + t * (hi - lo) == lo
    ensures t == 1.0 ==> lo + t * (hi - lo) == hi
  {
    if lo <= hi {
      MulNonNegative(t, hi - lo);
      MulNonNegative(1.0 - t, hi - lo);
    }
  }

  /** A value computed from the stream, with the position after the draws it used. */
  datatype Drawn<T> = Drawn(value: T, next: nat)

  /** A candidate solution: a gene and the fitness cached for it. */
  datatype Individual = Individual(gene: real, fitness: real)
  {
    /** The cached fitness is the fitness of the current gene. */
    predicate Consistent(f: Objective) {
      fitness == Fitness(f, gene)
    }

    /** Recomputes the cached fitness from the gene. */
    function Evaluate(f: Objective): (e: Individual)
      ensures e.gene == gene
      ensures e.Consistent(f)
      ensures e.fitness <= 0.0
    {
      this.(fitness := Fitness(f, gene))
    }

    /** The comparison for sorting by descending fitness. */
    predicate Less(other: Individual) {
      fitness > other.fitness
    }
  }

  /** `Less` is a strict order: irreflexive and transitive. */
  lemma LessIsStrictOrder(a: Individual, b: Individual, c: Individual)
    ensures !a.Less(a)
    ensures a.Less(b) && b.Less(c) ==> a.Less(c)
    ensures a.Less(b) ==> !b.Less(a)
  {
  }

  /**
   Two-way tournament: draws two indices with replacement and returns the
   fitter individual, the second on a tie.
   */
  function TournamentSelection(population: seq<Individual>, rng: Rng, pos: nat): (r: Drawn<Individual>)
    requires |population| == POP_SIZE
    ensures r.next == pos + 2
    ensures r.value == population[rng(pos) % POP_SIZE] || r.value == population[rng(pos + 1) % POP_SIZE]
    ensures r.value.fitness >= population[rng(pos) % POP_SIZE].fitness
    ensures r.value.fitness >= population[rng(pos + 1) % POP_SIZE].fitness
    ensures population[rng(pos) % POP_SIZE].fitness == population[rng(pos + 1) % POP_SIZE].fitness ==>
              r.value == population[rng(pos + 1) % POP_SIZE]
  {
    var a := rng(pos) % POP_SIZE;
    var b := rng(pos + 1) % POP_SIZE;
    Drawn(if population[a].fitness > population[b].fitness then population[a] else population[b], pos + 2)
  }

  /** A convex combination of two values lies between them. */
  lemma ConvexBetween(alpha: real, a: real, b: real)
    requires 0.0 <= alpha <= 1.0
    ensures Between(alpha * a + (1.0 - alpha) * b, a, b)
  {
    var x := alpha * a + (1.0 - alpha) * b;
    assert x == b + alpha * (a - b) == a - (1.0 - alpha) * (a - b);
    if a >= b {
      MulNonNegative(alpha, a - b);
      MulNonNegative(1.0 - alpha, a - b);
    } else {
      MulNonNegative(alpha, b - a);
      MulNonNegative(1.0 - alpha, b - a);
    }
  }

  /**
   Arithmetic crossover. With the rate draw below CROSSOVER_RATE the children
   are the two convex combinations of the parents' genes under a second draw;
   otherwise they are copies of the parents. Fitness is copied, not recomputed.
   */
  function Crossover(p1: Individual, p2: Individual, rng: Rng, pos: nat): (r: Drawn<(Individual, Individual)>)
    ensures r.value.0.fitness == p1.fitness && r.value.1.fitness == p2.fitness
    ensures RandomDouble(0.0, 1.0, rng(pos)) >= CROSSOVER_RATE ==> r.value == (p1, p2) && r.next == pos + 1
    ensures RandomDouble(0.0, 1.0, rng(pos)) < CROSSOVER_RATE ==> r.next == pos + 2
    ensures Between(r.value.0.gene, p1.gene, p2.gene) && Between(r.value.1.gene, p1.gene, p2.gene)
    ensures r.value.0.gene + r.value.1.gene == p1.gene + p2.gene
  {
    if RandomDouble(0.0, 1.0, rng(pos)) < CROSSOVER_RATE then
      var alpha := RandomDouble(0.0, 1.0, rng(pos + 1));
      ConvexBetween(alpha, p1.gene, p2.gene);
      ConvexBetween(alpha, p2.gene, p1.gene);
      var c1 := p1.(gene := alpha * p1.gene + (1.0 - alpha) * p2.gene);
      var c2 := p2.(gene := alpha * p2.gene + (1.0 - alpha) * p1.gene);
      Drawn((c1, c2), pos + 2)
    else
      Drawn((p1, p2), pos + 1)
  }

  /** The two bound checks after a mutation step: below MIN_X, then above MAX_X. */
  function ClampGene(x: real): (c: real)
    ensures InDomain(c)
    ensures InDomain(x) ==> c == x
    ensures x < MIN_X ==> c == MIN_X
    ensures x > MAX_X ==> c == MAX_X
  {
    var low := if x < MIN_X then MIN_X else x;
    if low > MAX_X then MAX_X else low
  }

  /**
   Mutation: with the rate draw below MUTATION_RATE the gene moves by a second
   draw scaled to [-MUTATION_STRENGTH, MUTATION_STRENGTH] and is clamped to the
   domain; otherwise nothing changes. The cached fitness is left alone.
   */
  method Mutate(ind: Individual, rng: Rng, pos: nat) returns (mutated: Individual, next: nat)
    ensures mutated.fitness == ind.fitness
    ensures RandomDouble(0.0, 1.0, rng(pos)) >= MUTATION_RATE ==> mutated == ind && next == pos + 1
    ensures RandomDouble(0.0, 1.0, rng(pos)) < MUTATION_RATE ==> InDomain(mutated.gene) && next == pos + 2
    ensures RandomDouble(0.0, 1.0, rng(pos)) < MUTATION_RATE ==>
              mutated.gene == ClampGene(ind.gene + RandomDouble(-MUTATION_STRENGTH, MUTATION_STRENGTH, rng(pos + 1)))
    ensures InDomain(ind.gene) ==> InDomain(mutated.gene) && Abs(mutated.gene - ind.gene) <= MUTATION_STRENGTH
  {
    mutated, next := ind, pos + 1;
    if RandomDouble(0.0, 1.0, rng(pos)) < MUTATION_RATE {
      var delta := RandomDouble(-MUTATION_STRENGTH, MUTATION_STRENGTH, rng(pos + 1));
      next := pos + 2;
      mutated := mutated.(gene := mutated.gene + delta);
      if mutated.gene < MIN_X {
        mutated := mutated.(gene := MIN_X);
      }
      if mutated.gene > MAX_X {
        mutated := mutated.(gene := MAX_X);
      }
    }
  }

  /** Every member's gene lies in the domain. */
  predicate GenesInDomain(population: seq<Individual>) {
    forall i :: 0 <= i < |population| ==> InDomain(population[i].gene)
  }

  /** Every member's cached fitness is the fitness of its gene. */
  predicate Evaluated(f: Objective, population: seq<Individual>) {
    forall i :: 0 <= i < |population| ==> population[i].Consistent(f)
  }

  /**
   Seeding: a vector of POP_SIZE zero-initialised individuals, each given a
   gene drawn from the domain and then evaluated.
   */
  method InitialPopulation(f: Objective, rng: Rng, pos: nat) returns (population: seq<Individual>, next: nat)
    ensures |population| == POP_SIZE && next == pos + POP_SIZE
    ensures forall i :: 0 <= i < POP_SIZE ==> population[i].gene == RandomDouble(MIN_X, MAX_X, rng(pos + i))
    ensures GenesInDomain(population) && Evaluated(f, population)
  {
    population := seq(POP_SIZE, _ => Individual(0.0, 0.0));
    var i := 0;
    while i < POP_SIZE
      invariant 0 <= i <= POP_SIZE && |population| == POP_SIZE
      invariant forall j :: 0 <= j < i ==> population[j].gene == RandomDouble(MIN_X, MAX_X, rng(pos + j))
      invariant GenesInDomain(population[..i]) && Evaluated(f, population[..i])
    {
      var ind := population[i].(gene := RandomDouble(MIN_X, MAX_X, rng(pos + i)));
      ind := ind.Evaluate(f);
      population := population[i := ind];
      i := i + 1;
    }
    next := pos + POP_SIZE;
    assert population[..POP_SIZE] == population;
  }

  /**
   One generation: fills a fresh buffer, round by round, with one or two
   evaluated children of two tournament winners until it holds POP_SIZE.
   */
  method NextGeneration(f: Objective, population: seq<Individual>, rng: Rng, pos: nat)
    returns (newPopulation: seq<Individual>, next: nat, ghost rounds: nat)
    requires |population| == POP_SIZE
    ensures |newPopulation| == POP_SIZE
    ensures Evaluated(f, newPopulation)
    ensures GenesInDomain(population) ==> GenesInDomain(newPopulation)
    ensures rounds == (POP_SIZE + 1) / 2
    ensures pos + 7 * rounds <= next <= pos + 10 * rounds
  {
    newPopulation, next, rounds := [], pos, 0;
    while |newPopulation| < POP_SIZE
      invariant |newPopulation| == if 2 * rounds <= POP_SIZE then 2 * rounds else POP_SIZE
      invariant |newPopulation| < POP_SIZE ==> 2 * rounds < POP_SIZE
      invariant 2 * rounds <= POP_SIZE + 1
      invariant Evaluated(f, newPopulation)
      invariant GenesInDomain(population) ==> GenesInDomain(newPopulation)
      invariant pos + 7 * rounds <= next <= pos + 10 * rounds
      decreases POP_SIZE - |newPopulation|
    {
      var parent1 := TournamentSelection(population, rng, next);
      var parent2 := TournamentSelection(population, rng, parent1.next);
      var children := Crossover(parent1.value, parent2.value, rng, parent2.next);
      var child1, child2;
      child1, next := Mutate(children.value.0, rng, children.next);
      child2, next := Mutate(children.value.1, rng, next);
      child1 := child1.Evaluate(f);
      child2 := child2.Evaluate(f);
      newPopulation := newPopulation + [child1];
      if |newPopulation| < POP_SIZE {
        newPopulation := newPopulation + [child2];
      }
      rounds := rounds + 1;
    }
  }

  /** Position `k` holds the first of the fittest members. */
  predicate FirstFittest(population: seq<Individual>, k: int) {
    && 0 <= k < |population|
    && (forall j :: 0 <= j < |population| ==> population[j].fitness <= population[k].fitness)
    && (forall j :: 0 <= j < k ==> population[j].fitness < population[k].fitness)
  }

  /**
   The best-tracking scan: a member replaces the best seen only when its
   fitness is strictly greater.
   */
  method TrackBest(population: seq<Individual>, best: Individual) returns (newBest: Individual)
    ensures newBest.fitness >= best.fitness
    ensures forall i :: 0 <= i < |population| ==> population[i].fitness <= newBest.fitness
    ensures (forall i :: 0 <= i < |population| ==> population[i].fitness <= best.fitness) ==> newBest == best
    ensures (exists i :: 0 <= i < |population| && population[i].fitness > best.fitness)
              ==> exists k :: FirstFittest(population, k) && newBest == population[k]
  {
    newBest := best;
    ghost var k := -1;
    for i := 0 to |population|
      invariant newBest.fitness >= best.fitness
      invariant forall j :: 0 <= j < i ==> population[j].fitness <= newBest.fitness
      invariant k == -1 ==> newBest == best
      invariant k != -1 ==> 0 <= k < i && newBest == population[k] && newBest.fitness > best.fitness
      invariant k != -1 ==> forall j :: 0 <= j < k ==> population[j].fitness < newBest.fitness
    {
      if population[i].fitness > newBest.fitness {
        newBest := population[i];
        k := i;
      }
    }
    if exists i :: 0 <= i < |population| && population[i].fitness > best.fitness {
      assert FirstFittest(population, k);
    }
  }

  /** A sequence of reals that never decreases. */
  predicate NonDecreasing(s: seq<real>) {
    forall i :: 0 < i < |s| ==> s[i - 1] <= s[i]
  }

  /**
   `b` is the best fitness after scanning `generation` from a best of
   fitness `previous`: no lower than it or than any member, and equal to it
   or to some member's.
   */
  predicate ScannedTo(previous: real, generation: seq<Individual>, b: real) {
    && previous <= b
    && (forall i :: 0 <= i < |generation| ==> generation[i].fitness <= b)
    && (b == previous || exists i :: 0 <= i < |generation| && generation[i].fitness == b)
  }

  /** The best fitness before the scan of generation `g`. */
  function Before(seed: real, log: seq<real>, g: nat): real
    requires g <= |log|
  {
    if g == 0 then seed else log[g - 1]
  }

  /**
   `log[g]` is the best fitness after the scan of generation `g`, the scans
   starting from a best of fitness `seed`.
   */
  predicate BestHistory(seed: real, generations: seq<seq<Individual>>, log: seq<real>) {
    && |log| == |generations|
    && forall g {:trigger generations[g]} :: 0 <= g < |log| ==> ScannedTo(Before(seed, log, g), generations[g], log[g])
  }

  /** One more scan extends the history. */
  lemma ExtendHistory(seed: real, generations: seq<seq<Individual>>, log: seq<real>, generation: seq<Individual>, b: real)
    requires BestHistory(seed, generations, log)
    requires ScannedTo(Before(seed, log, |log|), generation, b)
    ensures BestHistory(seed, generations + [generation], log + [b])
  {
  }

  /**
   The best seen so far: after generation `g` the best fitness is at least
   the seed's and at least that of every member of generations `0..g`, and it
   never decreases.
   */
  lemma {:induction false} BestSeen(seed: real, generations: seq<seq<Individual>>, log: seq<real>, g: nat)
    requires BestHistory(seed, generations, log) && g < |log|
    ensures seed <= log[g]
    ensures forall h :: 0 <= h < g ==> log[h] <= log[g]
    ensures forall h, i :: 0 <= h <= g && 0 <= i < |generations[h]| ==> generations[h][i].fitness <= log[g]
  {
    assert ScannedTo(Before(seed, log, g), generations[g], log[g]);
    if g > 0 {
      BestSeen(seed, generations, log, g - 1);
      assert Before(seed, log, g) == log[g - 1];
      forall h, i | 0 <= h < g && 0 <= i < |generations[h]|
        ensures generations[h][i].fitness <= log[g]
      {
        assert generations[h][i].fitness <= log[g - 1];
      }
    }
  }

  /**
   The best fitness after generation `g` is never made up: it is the seed's
   or the fitness of a member of one of generations `0..g`.
   */
  lemma {:induction false} BestIsSeen(seed: real, generations: seq<seq<Individual>>, log: seq<real>, g: nat)
    requires BestHistory(seed, generations, log) && g < |log|
    ensures log[g] == seed || exists h, i :: 0 <= h <= g && 0 <= i < |generations[h]| && generations[h][i].fitness == log[g]
  {
    assert ScannedTo(Before(seed, log, g), generations[g], log[g]);
    if g > 0 && log[g] == log[g - 1] {
      BestIsSeen(seed, generations, log, g - 1);
    }
  }

  /** A population as the generational loop keeps it: full, evaluated and in the domain. */
  predicate Generation(f: Objective, population: seq<Individual>) {
    |population| == POP_SIZE && GenesInDomain(population) && Evaluated(f, population)
  }

  predicate AllGenerations(f: Objective, generations: seq<seq<Individual>>) {
    forall g :: 0 <= g < |generations| ==> Generation(f, generations[g])
  }

  /** `x` is a member of one of the generations. */
  predicate Member(x: Individual, generations: seq<seq<Individual>>) {
    exists g, i :: 0 <= g < |generations| && 0 <= i < |generations[g]| && x == generations[g][i]
  }

  /** Appending a generation keeps the old members and adds its own. */
  lemma ExtendGenerations(f: Objective, generations: seq<seq<Individual>>, population: seq<Individual>)
    requires AllGenerations(f, generations) && Generation(f, population)
    ensures AllGenerations(f, generations + [population])
    ensures forall x :: Member(x, generations) ==> Member(x, generations + [population])
    ensures forall x :: x in population ==> Member(x, generations + [population])
  {
    var gs := generations + [population];
    forall x | Member(x, generations)
      ensures Member(x, gs)
    {
      var g, i :| 0 <= g < |generations| && 0 <= i < |generations[g]| && x == generations[g][i];
      assert gs[g] == generations[g];
    }
    forall x | x in population
      ensures Member(x, gs)
    {
      var i :| 0 <= i < |population| && x == population[i];
      assert gs[|generations|] == population;
    }
  }

  /**
   The whole run: seed the population, start from its first member as the
   best, then NUM_GENERATIONS times replace the population and scan it.
   `log` holds the best fitness reported after each generation and
   `generations` the populations that were scanned.
   */
  method Run(f: Objective, rng: Rng)
    returns (population: seq<Individual>, best: Individual, log: seq<real>, ghost generations: seq<seq<Individual>>)
    ensures |population| == POP_SIZE && GenesInDomain(population) && Evaluated(f, population)
    ensures InDomain(best.gene) && best.Consistent(f)
    ensures forall i :: 0 <= i < |population| ==> population[i].fitness <= best.fitness
    ensures best.fitness >= Fitness(f, RandomDouble(MIN_X, MAX_X, rng(0)))
    ensures |log| == NUM_GENERATIONS && NonDecreasing(log)
    ensures log[NUM_GENERATIONS - 1] == best.fitness
    ensures forall g :: 0 <= g < |log| ==> log[g] <= 0.0
    ensures |generations| == NUM_GENERATIONS && generations[NUM_GENERATIONS - 1] == population
    ensures AllGenerations(f, generations)
    ensures BestHistory(Fitness(f, RandomDouble(MIN_X, MAX_X, rng(0))), generations, log)
    ensures best.gene == RandomDouble(MIN_X, MAX_X, rng(0)) || Member(best, generations)
  {
    var pos;
    population, pos := InitialPopulation(f, rng, 0);
    best := population[0];
    ghost var first := best.fitness;
    log, generations := [], [];
    for gen := 0 to NUM_GENERATIONS
      invariant |population| == POP_SIZE && GenesInDomain(population) && Evaluated(f, population)
      invariant InDomain(best.gene) && best.Consistent(f)
      invariant best.fitness >= first
      invariant gen > 0 ==> forall i :: 0 <= i < |population| ==> population[i].fitness <= best.fitness
      invariant |log| == gen && NonDecreasing(log)
      invariant best.fitness == if gen == 0 then first else log[gen - 1]
      invariant forall g :: 0 <= g < |log| ==> log[g] <= best.fitness
      invariant |generations| == gen && (gen > 0 ==> generations[gen - 1] == population)
      invariant AllGenerations(f, generations)
      invariant BestHistory(first, generations, log)
      invariant best.gene == RandomDouble(MIN_X, MAX_X, rng(0)) || Member(best, generations)
    {
      var newPopulation;
      ghost var rounds;
      newPopulation, pos, rounds := NextGeneration(f, population, rng, pos);
      population := newPopulation;
      var previous := best;
      best := TrackBest(population, best);
      assert best == previous || best in population;
      ExtendHistory(first, generations, log, population, best.fitness);
      ExtendGenerations(f, generations, population);
      log := log + [best.fitness];
      generations := generations + [population];
    }
  }
}
