# Two stochastic optimisers, modelled in Dafny

This project models the discrete skeleton of two small optimisers.

- `genetic_algorithm.dfy` (module `GeneticAlgorithm`) models the real-valued
  genetic algorithm in `Generic_algorithm.c`. It covers the fitness of a gene
  (minus the distance of `f(x)` from `TARGET_VALUE`), the `Individual` record
  with its cached fitness, two-way tournament selection, arithmetic crossover,
  clamped mutation, the seeding of the population, the generational loop that
  refills a fresh buffer to exactly `POP_SIZE`, and the running best
  individual.
- `particle_swarm.dfy` (module `ParticleSwarm`) models the particle-swarm
  script `PSO_SEE.py`. Its module-level lists (`particles`, `velocities`,
  `pbest`, `pbest_fitness`) and its globals (`gbest_index`, `gbest`,
  `best_fit`) are the fields of a `Swarm` object. The initialisation is the
  constructor. The main loop is `Run`, and its body is split into methods: the
  per-particle update, the sweep over all particles, the global-best update,
  the whole iteration, and one pass of the loop with its report.

How the parts that cannot be stated exactly are modelled:

- Randomness is an input. The successive values returned by C's `rand()`
  form a stream `rng: nat -> Raw`, with each value in `[0, RAND_MAX]`. Those
  of Python's `random.random()` form a stream `rng: nat -> Unit`, with each
  value in `[0, 1)`.
- Every operator reads its draws from the stream at a given position and
  reports how many it used. A draw that the source makes on one branch only
  is therefore consumed on that branch only. Examples are the crossover
  weight and the mutation step.
- The genetic algorithm's objective `x * sin(10 * pi * x) + 1` is
  transcendental, so it is a parameter `f: real -> real`. Everything proved
  about fitness holds for every `f`.
- The swarm's cost `(x - 3)**2 + (y + 5)**2` is written out exactly.
- `double` and Python `float` are modelled as `real`.

Properties proved:

- Fitness is never positive, and it is zero exactly at the target.
- The swarm's cost is never negative, and it is zero exactly at `(3, -5)`.
- A scaled draw lies in its interval.
- Tournament selection returns one of the two drawn members. The winner is
  at least as fit as both, and on a tie it is the second draw.
- Crossover copies the fitness fields. When the rate draw fails, it returns
  the parents unchanged. Each child's gene lies between the parents' genes,
  and the two children's genes add up to the parents' sum.
- Mutation leaves the fitness alone. When the rate draw fails, it changes
  nothing. Otherwise the gene becomes the old gene plus the scaled step
  draw, clamped into `[MIN_X, MAX_X]`, and an in-domain gene moves by at
  most `0.1`.
- Each generation holds exactly `POP_SIZE` members. Every member's fitness
  is the fitness of its gene, and genes stay in the domain.
- The best individual never gets worse. After each scan it is at least as
  fit as every member. It is either the previous best or the first of the
  fittest members.
- Over a whole run, the best fitness reported after generation `g` is at
  least that of every member of generations `0..g` and of the seed. It is
  always the fitness of the seed or of one of those members.
- The swarm's positions stay within `[LOW, HIGH]` after every update.
- A personal best is replaced only on strict improvement, its fitness never
  rises, and its cached fitness stays equal to the cost of its position.
- The global best is the first index of least personal-best fitness.
- Updating one particle changes nothing of the other particles. In a sweep,
  every particle is moved against the global best as it was before the
  sweep, particle `j` using the draws that start `2 * NUM_DIMENSIONS * j`
  after the sweep's first one. The reported best fitness never increases.
- Over a whole run, each iteration's rows are the previous rows after one
  sweep against the previous global best. Each reported fitness is the
  least personal-best fitness after that iteration, and these values never
  rise.

The first best individual is `population[0]` (Generic_algorithm.c:83). The
initial population is never scanned, so before the first generation the best
is not necessarily the fittest member.

## Model

| member | source | states |
|---|---|---|
| GeneticAlgorithm.Fitness | Generic_algorithm.c:19-22 | fitness is never positive, and it is zero exactly when the objective equals TARGET_VALUE, for any objective |
| GeneticAlgorithm.RandomDouble | Generic_algorithm.c:25-27 | for `lo <= hi`, a raw draw in `[0, RAND_MAX]` scales to a value in `[lo, hi]`; draw 0 gives `lo` and draw RAND_MAX gives `hi` |
| GeneticAlgorithm.Individual.Evaluate | Generic_algorithm.c:34-36 | evaluation keeps the gene and makes the cached fitness the fitness of that gene |
| GeneticAlgorithm.LessIsStrictOrder | Generic_algorithm.c:39-41 | the descending-fitness comparison is irreflexive, transitive and asymmetric |
| GeneticAlgorithm.TournamentSelection | Generic_algorithm.c:45-49 | uses two draws and returns the member at one of the two drawn indices (modulo POP_SIZE); the winner is at least as fit as both, and on equal fitness it is the second draw |
| GeneticAlgorithm.ConvexBetween | Generic_algorithm.c:55-57 | for a weight in `[0, 1]`, the blend of two genes lies between them |
| GeneticAlgorithm.Crossover | Generic_algorithm.c:52-60 | the children keep the parents' fitness fields; when the rate draw is at least CROSSOVER_RATE they are the parents themselves and one draw is used, otherwise two; each child gene lies between the parent genes, and the genes' sum is preserved |
| GeneticAlgorithm.ClampGene | Generic_algorithm.c:67-69 | the two bound checks give a gene in `[MIN_X, MAX_X]`; an in-domain gene is left alone, one below MIN_X becomes MIN_X and one above MAX_X becomes MAX_X |
| GeneticAlgorithm.Mutate | Generic_algorithm.c:63-71 | fitness is untouched; when the rate draw is at least MUTATION_RATE nothing changes and one draw is used; otherwise two draws are used and the new gene is the old gene plus the second draw scaled to `[-0.1, 0.1]`, clamped into `[MIN_X, MAX_X]`; an in-domain gene stays in the domain and moves by at most the mutation strength |
| GeneticAlgorithm.InitialPopulation | Generic_algorithm.c:77-81 | POP_SIZE members, member i with the gene scaled from the i-th draw into the domain, each evaluated |
| GeneticAlgorithm.NextGeneration | Generic_algorithm.c:87-112 | the fill loop ends with exactly POP_SIZE members after (POP_SIZE + 1) / 2 rounds of one or two children; every member is evaluated; genes in the domain stay in the domain; in all, between 7 and 10 draws per round are used |
| GeneticAlgorithm.TrackBest | Generic_algorithm.c:115-119 | the best never gets worse and ends at least as fit as every member; it stays the old best when nobody is strictly fitter, and otherwise becomes the first of the fittest members |
| GeneticAlgorithm.ExtendHistory | Generic_algorithm.c:114-119 | one more scan of a generation, from the last reported best, extends the record of best fitnesses by one generation |
| GeneticAlgorithm.BestSeen | Generic_algorithm.c:86-119 | across the generations, the best fitness after generation `g` is at least the seed's, at least every earlier reported value, and at least every member of generations `0..g` |
| GeneticAlgorithm.BestIsSeen | Generic_algorithm.c:83-119 | the best fitness after generation `g` is the seed's or the fitness of a member of one of generations `0..g` |
| GeneticAlgorithm.ExtendGenerations | Generic_algorithm.c:111-112 | appending a full, evaluated, in-domain population keeps every earlier member a member and makes each of its own members one |
| GeneticAlgorithm.Run | Generic_algorithm.c:73-125 | returns the NUM_GENERATIONS populations that were scanned, the last being the final population, each with POP_SIZE evaluated in-domain members; `log[g]` is the best fitness after scanning generation `g`, starting from the first seeded member: no lower than the previous value or any member, and equal to one of them; the best is the first seeded member or a member of some generation, is evaluated and in the domain, and is at least as fit as every final member; the log never decreases, ends at the best's fitness and is never positive |
| ParticleSwarm.Square | PSO_SEE.py:10 | a square is never negative, and it is zero only at zero |
| ParticleSwarm.Cost | PSO_SEE.py:6-10 | the cost is never negative, and it is zero exactly at position (3, -5) |
| ParticleSwarm.Uniform | PSO_SEE.py:26-27 | `random.uniform(lo, hi)` from a draw in `[0, 1)` lies in `[lo, hi]`, and below `hi` when `lo < hi` |
| ParticleSwarm.Clamp | PSO_SEE.py:48-51 | the bound check gives a value in `[LOW, HIGH]`; it leaves in-range values alone and maps values below LOW to LOW and values above HIGH to HIGH |
| ParticleSwarm.InitialPosition | PSO_SEE.py:26 | a particle's initial position has NUM_DIMENSIONS coordinates, all within the bounds |
| ParticleSwarm.InitialVelocity | PSO_SEE.py:27 | a particle's initial velocity has NUM_DIMENSIONS components, each in `[-1, 1]` |
| ParticleSwarm.Min | PSO_SEE.py:32 | `min` returns an element of the list that is at most every element |
| ParticleSwarm.IndexOf | PSO_SEE.py:32 | `list.index` returns a position holding the value, with no earlier position holding it |
| ParticleSwarm.FirstMinIndex | PSO_SEE.py:62 | `index(min(...))` is the smallest index whose value is at most every value |
| ParticleSwarm.Swarm.constructor | PSO_SEE.py:26-33 | positions and velocities come from consecutive draws; personal bests equal the positions; their fitness is the cost of each; the global best is the first index of least fitness, with the matching personal best |
| ParticleSwarm.Move | PSO_SEE.py:40-51 | for each dimension, the new velocity is the inertia, cognitive and social update from two consecutive draws, and the new coordinate is the old one plus that velocity, clamped into the bounds; the result is always within the bounds |
| ParticleSwarm.Swarm.MoveParticle | PSO_SEE.py:40-51 | particle i's velocity and position rows are replaced by the inner loop's result from the next 2 * NUM_DIMENSIONS draws; no other particle, no personal best and nothing global changes; positions stay within the bounds |
| ParticleSwarm.Swarm.UpdatePersonalBest | PSO_SEE.py:54-59 | the personal best of particle i becomes a copy of its position, with that position's cost, exactly when the cost is strictly below its best fitness; otherwise nothing changes; the best fitness never rises and stays the cost of the best position |
| ParticleSwarm.Swarm.UpdateParticle | PSO_SEE.py:40-59 | composes the two steps above: each coordinate gets the velocity update from two fresh draws and the clamped new position; only particle i changes; the global best is untouched; the personal best is replaced exactly on strict improvement, so its fitness never rises and stays the cost of its position |
| ParticleSwarm.Swarm.UpdateGlobalBest | PSO_SEE.py:62-64 | the global best becomes the first personal best of least fitness; the reported best fitness is at most every personal-best fitness and strictly below those at earlier indices |
| ParticleSwarm.SweepStep | PSO_SEE.py:39-59 | once particles `0..i-1` have taken their steps and particle `i` takes its own from the draws after theirs, particles `0..i` have taken their steps and the rest are untouched |
| ParticleSwarm.Swarm.Sweep | PSO_SEE.py:39-59 | the `for i` loop: every particle `j` gets the velocity and clamped position update from the draws starting `2 * NUM_DIMENSIONS * j` after the sweep's first, against the unchanged global best, and its personal best is replaced exactly on strict improvement; `2 * NUM_PARTICLES * NUM_DIMENSIONS` draws are used; the global best and the reported fitness do not change; no personal-best fitness rises |
| ParticleSwarm.SweptNoWorse | PSO_SEE.py:57-59 | after a sweep no personal-best fitness is higher than before it |
| ParticleSwarm.ExtendIterations | PSO_SEE.py:38-64 | one more iteration, from the last recorded rows and the draws that follow the earlier iterations', extends the record of iterations by one |
| ParticleSwarm.IterationsNonIncreasing | PSO_SEE.py:57-64 | in any record of iterations, the reported best fitness never rises: the personal best that gave one report is no worse after the next sweep, and the next report is the least |
| ParticleSwarm.Swarm.Iterate | PSO_SEE.py:39-64 | one iteration: every particle is moved and its personal best updated as in the sweep, all against the global best from before the iteration; then the global best is the first personal best of least fitness (and `gbest` is that personal best); every personal-best fitness is no higher; the reported best fitness is never negative, at most every personal-best fitness and no higher than the previous one; as one `Iteration`, the new rows are the old after a sweep against the old global best, and the reported value is the least personal-best fitness |
| ParticleSwarm.Swarm.IterateAndReport | PSO_SEE.py:38-66 | one pass of the main loop: the iteration, its draws following the earlier ones; the reported best fitness is appended to the log and the new rows to the history, which stay a record of iterations from the first rows; the log stays non-increasing and non-negative, and no personal-best fitness rises |
| ParticleSwarm.Swarm.Run | PSO_SEE.py:38-66 | returns the rows before and after each of the MAX_ITER iterations, starting with the initial rows and ending with the final ones; iteration `k` uses the draws after the first `k` iterations', moves every particle against the global best of the rows before it, and reports the least personal-best fitness after it as `log[k]`; the reported best fitnesses never increase, are never negative, start no higher than the initial best, and the last is the final best fitness |
| ParticleSwarm.RunScript | PSO_SEE.py:26-72 | returns the printed best fitnesses and the rows before and after each of the MAX_ITER iterations; the first rows are the initial draws (positions, velocities, personal bests equal to the positions, with their costs); each iteration is a sweep against the previous global best, on the draws that follow the initialisation's; the final `gbest` is the first personal best of least fitness in the final rows and `best_fit` the last printed value; `gbest` lies within the bounds, its fitness is its cost, and that fitness is at most the cost of every initial particle position |

## Left out

- Random number generation is left out. This covers `srand(time(0))`,
  `rand()`, `random.uniform` and `random.random`. Draws are inputs
  constrained to their ranges. Uniformity, and the probabilities of
  crossover and mutation, are not modelled; only which values are possible.
- RAND_MAX is platform-defined. The model uses glibc's value, 2147483647.
- `sin` and `M_PI` are not modelled: the objective is an arbitrary function
  parameter. For the same reason, the final `f(x)` computed for output at
  Generic_algorithm.c:128 is not modelled.
- IEEE-754 rounding is not modelled. Convex-combination closure and sum
  preservation in crossover hold over the reals, not necessarily for doubles.
  Over the reals, `random.uniform(lo, hi)` stays strictly below `hi`, though
  in floating point it may reach `hi`.
- Console output is not modelled (Generic_algorithm.c:122-132, PSO_SEE.py:66
  and 71-72). The `log` results of `Run` hold the best-fitness values that
  are printed each generation or iteration. Line 124 calls a member
  `fitnessFunction` that `Individual` does not have, so it is not modelled.
- `Individual` is a C++ value struct. `evaluate` and `mutate` update it in
  place; the model returns the updated value instead. `mutate` and the
  children's `evaluate` calls act on local copies (Generic_algorithm.c:98-103).
  The seeding loop's `evaluate` acts through a reference into `population`
  (Generic_algorithm.c:78-80); the model stores each evaluated member back
  into the population it builds.
- Python's lists of rows are modelled as sequence values. Updating
  `particles[i][d]` through the shared row is modelled as building the new
  row and storing it back. `pbest[i] = particles[i][:]` copies anyway.
- Velocities are not bounded, and nothing is claimed about convergence.
- Python raises an error on an empty list in `min`, on a missing value in
  `index`, and on a short position in `fitness`. The swarm never reaches
  these cases: it always has NUM_PARTICLES particles of NUM_DIMENSIONS
  coordinates. They appear as preconditions of `Min`, `IndexOf` and `Cost`.
- `best_fit` is unbound until the first iteration ends. It is
  `Option<real>`, `None` until then.
- The parameters are the source's fixed constants. Runs with other settings
  are not modelled. Examples are a zero crossover or mutation rate, or
  `POP_SIZE = 2`.
- NextGeneration: does not state which parents each child came from, only
  the size, evaluation and domain facts listed above. Tying each child to its
  tournament winners would need a function for a whole round of the fill
  loop, and the operators' own contracts already state it call by call.
- Run: in the genetic algorithm, does not state that each recorded
  generation is the one `NextGeneration` produces from the one before it,
  because that operator is a method whose result no contract can name. The
  run states what every generation satisfies and how the best is tracked
  across them.
