# Class scheduling by a genetic algorithm, modelled in Dafny

The program schedules the eleven activities of a course catalog. Each
activity gets a room, one of six hourly time slots and a facilitator. A
genetic algorithm evolves a population of such schedules. It ranks them with
a rule-based fitness function and breeds children by uniform crossover and
single-field mutation.

This project models the core of that program:

- the catalogs: nine rooms with capacities, six time slots, ten
  facilitators, and eleven activities with enrollments and preferred and
  other facilitators;
- the schedule object and its `fitness` method;
- the deterministic part of reproduction, with every random draw passed in
  as a parameter.

Modules:

- `Catalog` (catalog.dfy): the catalogs, `Activity`, one `Assignment` of an
  activity to a room, slot and facilitator, and `Aligned`, the shape every
  schedule keeps. A time slot is its index into `TIME_SLOTS`, so the
  program's `TIME_SLOTS.index(...)` is the slot itself.
- `Sums` (sums.dfy): finite sums over lists of keys. It proves that the
  order in which a dictionary or a set hands out its keys does not change
  a sum, and that a sum of an indicator counts the keys.
- `Sorting` (sorting.dfy): `sorted` on integer lists, and the collapse of
  runs of equal neighbours.
- `Scoring` (scoring.dfy): the fitness as pure functions, one per rule,
  with each rule's promise in its contract.
- `FitnessProperties` (properties.dfy): lemmas about those functions.
- `Evaluation` (evaluation.dfy): the loop-based evaluation, pass by pass,
  as the program makes it. A dictionary is a duplicate-free key list
  plus a map; the model does not fix the order of that list, and proves
  that the order does not change the score. Each pass is proved to add
  exactly its part of `Scoring.Fitness`.
- `Reproduction` (reproduction.dfy): crossover and mutation as functions of
  the parents and the draws, with their structural guarantees.
- `Genetic` (genetic.dfy): `class Schedule` with its `assignments` field.
  It has a constructor, `Fitness`, and the in-place crossover and mutation
  loops; `Offspring` makes two children the way one round of breeding does.

The score is an exact `real`. Every constant of the rules is a multiple of
0.05, so no rounding is modelled.

## Model

| member | source | states |
|---|---|---|
| Catalog.CatalogsComplete | main.py:5-17 | every room, time slot and facilitator appears in its catalog list, and appears there once |
| Scoring.RoomSizeTerm | main.py:88-95 | the four room-size outcomes split the capacities into four bands: too small, more than six times the enrollment, more than three times it, otherwise just right |
| Scoring.PreferenceTerm | main.py:98-103 | +0.5 exactly when the facilitator is preferred, +0.2 exactly when only in the other list, -0.1 exactly when in neither; preferred wins when in both |
| Scoring.ActivityScore | main.py:72-115 | each assignment adds one room-size term and one preference term, so the total lies between -0.6 and 0.8 per assignment |
| Scoring.LoadTerm | main.py:150-155 | a load over 4 costs 0.5; a load of 1 or 2 costs 0.4 exactly when the facilitator is not Tyler; loads 0, 3 and 4 cost nothing |
| Scoring.SpacingTerm | main.py:157-169 | the spacing rule applies only to a group of exactly two sections; the same slot gives -0.5, the first and last slot together give +0.5, any other pair gives 0 |
| Scoring.ProximityTerm | main.py:172-189 | slots one apart give +0.5, less 0.4 only when the SLA101 room is a specific room and the SLA191 room is not (the reverse test compares records with room names and never holds); two apart give +0.25; the same slot gives -0.25; further apart gives 0 |
| Scoring.InSlotPair | main.py:196-200 | an assignment is inspected for a slot pair exactly when it belongs to the facilitator and sits in one of the two slots |
| Scoring.GroupOf | main.py:109-112 | an activity is an SLA101 section exactly when its name starts with "SLA101", an SLA191 section exactly when it starts with "SLA191", and ungrouped otherwise; no name starts with both |
| Scoring.AdjacentTerm | main.py:193-207 | a pair of sorted slots scores only when consecutive: 0.5, or 0.1 exactly when the facilitator holds exactly two assignments in the two slots and exactly one of their rooms is a specific room |
| Sorting.Sort | main.py:192 | `sorted` returns an ascending permutation of its input |
| Sorting.SortPermutation | main.py:192 | sorting depends only on the multiset of the values, not on the order the slots were recorded in |
| Sorting.AscendingUnique | main.py:192 | two ascending lists with the same values are equal |
| Sorting.CollapseMembers | main.py:192-195 | collapsing runs of equal slots keeps exactly the slots present |
| Sorting.CollapseStrict | main.py:192-195 | collapsing an ascending slot list leaves it strictly ascending |
| Sums.SumSupport | main.py:139-147 | a sum over a duplicate-free key list equals the sum over any duplicate-free list with the same keys, so set and dictionary iteration order does not change the score |
| Sums.IndicatorSum | main.py:134-136 | a sum of a term that is c on the keys of a set and 0 elsewhere is c times the size of the set |
| FitnessProperties.RoomConflictPerRoom | main.py:129-136 | in one slot the room penalty is -0.5 times the number of rooms holding two or more assignments |
| FitnessProperties.OneChargePerSharedRoom | main.py:129-136 | two or more assignments in one room of one slot cost 0.5 in total, however many there are |
| FitnessProperties.FacilitatorSlotCounts | main.py:138-147 | in one slot the facilitator term is 0.2 times the facilitators booked once, less 0.2 times those booked more than once |
| FitnessProperties.LoadsCoverSchedule | main.py:105-106 | every assignment is counted in exactly one facilitator's load: the loads add up to the number of assignments |
| FitnessProperties.ChainIgnoresRepeats | main.py:193-195 | repeated slots in a facilitator's sorted list score nothing: collapsing them leaves the consecutive-slot score unchanged |
| FitnessProperties.ConsecutiveOverDistinctSlots | main.py:191-207 | the consecutive-slot score over the sorted list with repeats equals the score over the strictly ascending list of the distinct slots the facilitator teaches in |
| FitnessProperties.SlotPairFromSchedule | main.py:196-200 | the activities inspected for a slot pair are drawn from the schedule, none more often than the schedule holds it |
| FitnessProperties.SlotPairCount | main.py:196-201 | the activities inspected for the slots (lo, hi) number exactly the facilitator's assignments in lo plus those in hi |
| FitnessProperties.SectionsMembers | main.py:108-112 | the sections collected for a group are exactly the schedule's assignments in that group, each taken from the schedule |
| FitnessProperties.CatalogGroups | main.py:31-49 | the catalog holds two SLA101 sections, then two SLA191 sections, then seven ungrouped activities |
| FitnessProperties.CatalogSections | main.py:108-112 | in a schedule of the catalog the SLA101 sections are the first two assignments and the SLA191 sections the next two, so both spacing rules always apply |
| FitnessProperties.SectionsPair | main.py:108-112 | a schedule with exactly two assignments of a group, at positions i before j, collects exactly those two, in order |
| FitnessProperties.CrossScoreWithoutSections | main.py:171-189 | with no section in one of the groups the proximity rule adds nothing, so the test that both groups are non-empty changes no score |
| FitnessProperties.ConsecutivePairs | main.py:193-194 | the number of consecutive adjacent pairs of a slot list is at most one less than its length |
| FitnessProperties.ChainScoreBounds | main.py:193-207 | a facilitator's consecutive-slot term lies between 0.1 and 0.5 times the number of consecutive pairs in the sorted list, and is 0 when there are none |
| FitnessProperties.CatalogFitness | main.py:64-208 | the fitness of a catalog schedule is its activity, per-slot and load terms, the spacing term of the first two and of the next two assignments, the proximity terms of the four (SLA101, SLA191) pairs, and the consecutive-slot terms |
| Evaluation.AssignmentFitness | main.py:86-103 | one assignment's fitness is its room-size term plus its preference term |
| Evaluation.ScanAssignments | main.py:72-115 | the first loop adds every per-assignment term, groups the assignments by slot, counts every facilitator's load and collects the SLA101 and SLA191 sections in schedule order |
| Evaluation.GroupSlot | main.py:119-131 | grouping one slot's assignments by room keeps them in schedule order per room, and appends the slot once per assignment to that assignment's facilitator's list |
| Evaluation.RoomConflicts | main.py:133-136 | the loop over one slot's room groups adds exactly that slot's room-conflict term |
| Evaluation.FacilitatorBookings | main.py:138-147 | visiting the slot's distinct facilitators in any order adds exactly that slot's facilitator term |
| Evaluation.ScoreSlot | main.py:118-147 | one slot's pass adds its room and facilitator terms and records each assignment's slot for its facilitator |
| Evaluation.ScoreSlots | main.py:117-147 | the loop over the slot groups adds the per-slot terms of all six slots; each facilitator's recorded slots are the slots of its assignments, as a multiset |
| Evaluation.LoadPenalties | main.py:149-155 | the loop over the load dictionary adds every facilitator's load term |
| Evaluation.SpacingAdjustment | main.py:157-162 | the spacing checks add the group's spacing term |
| Evaluation.PairProximity | main.py:175-189 | the test on one (SLA101, SLA191) pair adds that pair's proximity term |
| Evaluation.ProximityAdjustment | main.py:171-189 | the nested loops add the proximity terms of every (SLA101, SLA191) pair |
| Evaluation.AdjacentAdjustment | main.py:194-207 | the test on one adjacent pair adds that pair's term |
| Evaluation.ChainBonus | main.py:193-207 | the scan of one sorted slot list adds every adjacent pair's term |
| Evaluation.FacilitatorChain | main.py:191-207 | sorting a facilitator's recorded slots and scanning them adds that facilitator's consecutive-slot term, whatever order the slots were recorded in |
| Evaluation.ConsecutiveBonus | main.py:191-207 | the loop over the facilitator-to-slots dictionary adds the consecutive-slot terms of all facilitators |
| Genetic.Schedule.constructor | main.py:53-62 | a new schedule holds one assignment per activity, in catalog order, with the given room, slot and facilitator |
| Genetic.Schedule.Fitness | main.py:64-208 | the evaluation passes together return exactly the fitness of the schedule's assignments |
| Genetic.Schedule.InheritFrom | main.py:238-247 | the crossover loop leaves the child equal to the uniform crossover of the parents under its coins; the parents do not change |
| Genetic.Schedule.Mutate | main.py:250-259 | the mutation loop leaves the child equal to the mutation of its previous assignments under the draws |
| Genetic.Offspring | main.py:236-259 | two fresh, distinct children, each the mutation of its own crossover of the parents, and each again a schedule of the catalog |
| Reproduction.Crossed | main.py:238-247 | a child has the parents' length and each of its genes is the gene at the same position of one parent |
| Reproduction.CrossoverKeepsAlignment | main.py:238-247 | a child of two catalog schedules is a catalog schedule: one assignment per activity, at the activity's position |
| Reproduction.CrossoverOfClones | main.py:238-247 | crossing a schedule with itself gives it back, whatever the coins |
| Reproduction.CrossoverSources | main.py:239-242 | a gene comes from parent1 exactly where its coin is below 0.5; all coins below 0.5 give parent1, none give parent2 |
| Reproduction.MutateOne | main.py:252-259 | the activity never changes; a roll not below the rate changes nothing; a roll below the rate sets the chosen field to the drawn catalog value and keeps the other two; a field that changes is the chosen one |
| Reproduction.MutationChangesOneField | main.py:253-259 | at most one of room, slot and facilitator changes |
| Reproduction.Mutated | main.py:250-259 | mutation keeps the length, keeps every assignment whose roll is not below the rate, and mutates every assignment whose roll is below it |
| Reproduction.MutationKeepsAlignment | main.py:250-259 | mutation keeps a catalog schedule a catalog schedule |
| Reproduction.ZeroRateKeepsSchedule | main.py:252 | with a mutation rate of 0 every child stays as crossover made it |
| Reproduction.FullRateRedrawsEveryAssignment | main.py:252-259 | with a mutation rate of 1 every assignment gets its chosen field redrawn and keeps its other two fields |

## Left out

- Selection: the softmax probabilities (main.py:218), the weighted draw with `np.random.choice` (main.py:228), and `random.sample` of the parents from the first half of the pool (main.py:234). These are floating point and library randomness. `Offspring` takes its two parents as given.
- The early-stopping test (main.py:221-226). It compares floating-point means.
- The generation loop, the population bookkeeping and the final `return population[0]` (main.py:210-267). Their only contract is stochastic. The returned schedule is the first of the last generation, not the fittest.
- The module-level run and all printing (main.py:270-279). These are I/O.
- The random choices of `Schedule()` (main.py:58-60). They become the `genes` parameter of the constructor. The children made at main.py:236-237 are fully overwritten by crossover, so their initial genes are a free parameter of `Offspring`.
- The coins and draws of `random.random()` and `random.choice`. They are parameters. Crossover takes one coin sequence per child, which is the program's interleaved draw order split by child. A `MutationDraw` carries a replacement value for every field, and only the chosen field's value is used.
- The unused `room`, `time_slot` and `facilitator` attributes of `Activity` (main.py:25-27). Nothing reads them.
- Floating-point arithmetic. The score is an exact real. The program's float sums can differ from it in the last bits, and the model does not capture that.
- Set iteration order (main.py:139-142). The model visits the slot's distinct facilitators in an order it does not fix, and proves that the order does not change the result.
- Object identity of the assignment dictionaries. Assignments are values here. The `.copy()` at main.py:240-247 keeps a child's later mutation from reaching its parents, and value semantics give the same isolation.
- Genetic.Schedule.InheritFrom: requires the child to differ from both parents. The program always crosses into freshly made children.
