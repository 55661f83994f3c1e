# Tasklet scheduler: a Dafny model

This project models `TaskletScheduler`, the resource-bounded scheduler that
OpenNARS uses for temporal induction. The scheduler keeps two populations of
tasklets. `secondarySingleEvents` holds single events, and `secondary` holds
sequences and other compositions. A tasklet wraps either a reasoner task,
which has an input flag, or a derived belief sentence.

Each call to `iterate` does the following:

1. It runs 100 sampling rounds that draw pairs of events, and then 25 rounds
   that draw a secondary tasklet together with an event. Each of these two
   phases starts with an empty set of index pairs already drawn.
2. Each drawn pair goes through a chain of checks: eternal exclusion,
   ordering by occurrence time, punctuation gates, an input gate and an
   evidence-overlap guard.
3. An eligible pair gets three derivation attempts. Every result is
   admitted at the head of the list it belongs to.
4. Both lists are sorted by descending utility and cut to 20000 tasklets.
   The step counter then goes up by one.

Layout, one module per file:

- `sentences.dfy` (`Sentences`): punctuation, term kind, stamp fields and
  the evidential base as `set<int>`. It holds `IsEvent` and the overlap test.
- `tasklets.dfy` (`Tasklets`): the `Tasklet` sum type
  `TaskT(sentence, isInput) | BeliefT(sentence)` and how a tasklet turns into a premise.
- `options.dfy` (`Options`): the optional result of the derivation processor.
- `combination.dfy` (`Combination`): admitting tasklets to the two lists,
  the eligibility chain of `combine2`, the three derivation attempts, and the
  effect of a combination on the populations.
- `ranking.dfy` (`Ranking`): the stable descending sort, the capacity cut
  and the method `SortByUtilityAndLimitSize`.
- `sampling.dfy` (`Sampling`): the random-source oracle, the dedup set,
  one sampling round, a phase of rounds, and the per-phase no-repeat theorem.
- `scheduler.dfy` (`Scheduler`): the class `TaskletScheduler`. Its fields are
  the two lists, the dedup set, the random source's state and `dbgStep`.
  Each method is proved to move `Model()` exactly as a function from the
  other modules says. The cycle function `Iterated` and its lemmas are here too.

External collaborators become parameters:

- The derivation processor is a function `Deriver` from a rule and two
  ordered premises to an optional sentence. The time source and the reasoner
  parameters of the cycle are fixed inside it.
- Utility is an integer key `Utility`, already evaluated at the cycle's time.
- The seeded `java.util.Random` and its retry loop (lines 107-120) are an
  `Oracle`. Given its state, the two list sizes and whether both
  indices are drawn from the same list, the oracle returns a
  pair that meets the loop's exit condition, together with its next state.
  Its initial state is the seed 43.

Every function here is deterministic. So two schedulers with the same oracle,
the same admissions and the same deriver and utility end in the same state.

Three behaviours of `TaskletScheduler.java` shape the model:

- Truncation. Line 91 removes index 19999 while the list is longer than
  20000. So for n > 20000 the cut keeps the first 19999 sorted tasklets plus
  the last one, not a plain prefix. `Ranking.Truncated` models this, and
  `Ranking.TruncatedProperties` states it.
- Dedup scope. Lines 63 and 68 clear the dedup map before each of the two
  phases, so a pair is deduplicated within one phase, not across the cycle.
- Positions. Dedup keys are positions in the lists, not tasklet identities.
  Lines 53 and 56 insert at index 0, so every tasklet derived during a phase
  moves every older tasklet one place back (`Combination.AddPrepends`,
  `Combination.CombinedGrowth`). The no-repeat theorem is therefore about
  index pairs. The same two tasklets can still be combined twice in one
  phase under different positions.

## Model

| member | source | states |
|---|---|---|
| Sentences.IsEvent | src/main/java/org/opennars/tasklet/TaskletScheduler.java:34-42 | false for every eternal sentence; for a non-eternal one, true exactly when the term is a similarity or an inheritance |
| Tasklets.Resolve | src/main/java/org/opennars/tasklet/TaskletScheduler.java:139-152 | a tasklet contributes its own sentence; the input flag is the task's flag for a task and false for a belief |
| Combination.Add | src/main/java/org/opennars/tasklet/TaskletScheduler.java:49-58 | admission of one tasklet; its properties are stated in Combination.AddPrepends |
| Combination.AddAll | src/main/java/org/opennars/tasklet/TaskletScheduler.java:233-235 | admission of the derived tasklets one after the other; its properties are stated in Combination.AddAllKeeps |
| Combination.AddPrepends | src/main/java/org/opennars/tasklet/TaskletScheduler.java:49-58 | admission puts the tasklet at index 0 of exactly the list chosen by IsEvent of its sentence; that list grows by one and shifts its old elements back by one; the other list is unchanged |
| Combination.AddAllKeeps | src/main/java/org/opennars/tasklet/TaskletScheduler.java:232-235 | admitting n tasklets in turn grows the two lists by n in total and keeps each list's old tasklets, in order, behind the new ones |
| Combination.OrderByTime | src/main/java/org/opennars/tasklet/TaskletScheduler.java:159-167 | the result is the pair or the pair swapped, with sentence and input flag kept together; the first has the earlier or equal occurrence time; equal times keep the given order |
| Combination.Admit | src/main/java/org/opennars/tasklet/TaskletScheduler.java:154-185 | an admitted pair is always the time-ordered pair (earlier, later) |
| Combination.EternalExclusion | src/main/java/org/opennars/tasklet/TaskletScheduler.java:155-157 | if either premise is eternal, the populations are unchanged |
| Combination.PunctuationGate | src/main/java/org/opennars/tasklet/TaskletScheduler.java:169-175 | if the later premise is neither a judgment nor a goal, or the earlier one is not a judgment, the populations are unchanged |
| Combination.InputGate | src/main/java/org/opennars/tasklet/TaskletScheduler.java:178-181 | if the later premise was not input, the populations are unchanged |
| Combination.OverlapExclusion | src/main/java/org/opennars/tasklet/TaskletScheduler.java:183-185 | if the evidential bases intersect, the populations are unchanged |
| Combination.AdmittedPair | src/main/java/org/opennars/tasklet/TaskletScheduler.java:187-235 | if every check passes, the derived sentences are admitted as beliefs in the order of the attempts |
| Combination.OrderIndependence | src/main/java/org/opennars/tasklet/TaskletScheduler.java:159-167 | with distinct occurrence times the outcome does not depend on the order in which the premises are given; with equal times the first given premise takes the earlier role |
| Combination.DerivedSentences | src/main/java/org/opennars/tasklet/TaskletScheduler.java:192-209 | the results of the three derivation attempts in issue order; its properties are stated in Combination.DerivedSentencesBound |
| Combination.DerivedSentencesBound | src/main/java/org/opennars/tasklet/TaskletScheduler.java:192-209 | every successful attempt contributes its sentence, in the order (S,E,a,b), (S,E,b,a), (E,E,a,b): the count is the number of successes (at most three), the first success comes first, the second follows the first's result, the third's is last; none exactly when all three fail; each sentence is one attempt's result |
| Combination.Beliefs | src/main/java/org/opennars/tasklet/TaskletScheduler.java:227-230 | one belief tasklet per derived sentence, at the same position |
| Combination.Combined | src/main/java/org/opennars/tasklet/TaskletScheduler.java:154-236 | the effect of combine2 on the populations; its properties are stated in Combination.CombinedGrowth, the four gate lemmas, Combination.AdmittedPair and Combination.OrderIndependence |
| Combination.CombinedGrowth | src/main/java/org/opennars/tasklet/TaskletScheduler.java:192-235 | a combination adds at most three tasklets and keeps all existing ones, in order, behind the new ones |
| Ranking.Insert | src/main/java/org/opennars/tasklet/TaskletScheduler.java:88 | one insertion step of the stable descending sort; its properties are stated in Ranking.InsertPermutes, Ranking.InsertSorted and Ranking.InsertStable |
| Ranking.InsertPermutes | src/main/java/org/opennars/tasklet/TaskletScheduler.java:88 | inserting into a list gives a permutation of the list plus the new tasklet |
| Ranking.SortByUtility | src/main/java/org/opennars/tasklet/TaskletScheduler.java:88 | the sort's result is a permutation of its input |
| Ranking.SortedByUtility | src/main/java/org/opennars/tasklet/TaskletScheduler.java:88 | the sort's result has non-increasing utility from front to back |
| Ranking.SortIsStable | src/main/java/org/opennars/tasklet/TaskletScheduler.java:88 | for each utility value, the tasklets with that value keep their input order, as the library's stable sort keeps them |
| Ranking.Truncated | src/main/java/org/opennars/tasklet/TaskletScheduler.java:90-92 | the result of the remove loop; its properties are stated in Ranking.TruncatedProperties |
| Ranking.TruncatedProperties | src/main/java/org/opennars/tasklet/TaskletScheduler.java:90-92 | the cut keeps min(n, 20000) tasklets, all taken from the input, and keeps the order sorted; for n > 20000 it keeps the first 19999 plus the last tasklet |
| Ranking.RankedProperties | src/main/java/org/opennars/tasklet/TaskletScheduler.java:81-93 | ranking gives at most 20000 tasklets sorted by non-increasing utility, a sub-multiset of the input |
| Ranking.SortByUtilityAndLimitSize | src/main/java/org/opennars/tasklet/TaskletScheduler.java:81-93 | the remove loop's result is exactly the cut of the sorted list; its length is min(n, 20000); it is sorted; every tasklet comes from the input |
| Sampling.AlreadySampled | src/main/java/org/opennars/tasklet/TaskletScheduler.java:122-128 | the value-keyed dedup check (the pair, or within one list its reverse, was recorded); Sampling.SampleStepProperties states that a round combines exactly when it does not hold |
| Sampling.HashCode | src/main/java/org/opennars/tasklet/TaskletScheduler.java:251-254 | the hash of a Tuple key, a + b; used by Sampling.ContainsKeyByIdentity |
| Sampling.ContainsKeyByIdentity | src/main/java/org/opennars/tasklet/TaskletScheduler.java:123 | containsKey with Tuple keys, which inherit identity equality: same hash and same object; its consequence is stated in Sampling.DedupNeverFiresAsWritten |
| Sampling.AlreadySampledAsWritten | src/main/java/org/opennars/tasklet/TaskletScheduler.java:122-128 | both lookups as written, on freshly allocated probes; Sampling.DedupNeverFiresAsWritten states that it never holds |
| Sampling.SampleStepAsWritten | src/main/java/org/opennars/tasklet/TaskletScheduler.java:97-136 | one round of sample as written, with identity-keyed Tuple keys; its properties are stated in Sampling.AsWrittenAlwaysCombines and Sampling.RepeatedPairCombinedTwiceAsWritten |
| Sampling.SampleStep | src/main/java/org/opennars/tasklet/TaskletScheduler.java:97-136 | a sampling round never changes the step counter; what a round draws, skips and combines is stated in Sampling.SampleStepProperties |
| Sampling.SampleStepProperties | src/main/java/org/opennars/tasklet/TaskletScheduler.java:97-136 | with the same list of fewer than two tasklets, or either list empty, nothing changes; otherwise the random source advances to the draw's next state and the drawn pair is combined if and only if it was not recorded before (in either order within one list); a combined pair is in bounds, distinct within one list, and is recorded afterwards; the lists then change only by combining the two tasklets at those indices; a skipped round changes neither lists nor dedup set |
| Sampling.DedupNeverFiresAsWritten | src/main/java/org/opennars/tasklet/TaskletScheduler.java:243-255 | with Tuple keys compared by identity, the dedup check never skips: a fresh probe never matches a stored key |
| Sampling.DedupCounterexample | src/main/java/org/opennars/tasklet/TaskletScheduler.java:122-129 | an illustration on one fixed input: after (1, 2) is recorded, the value-keyed check skips a repeated draw of (1, 2) and the identity-keyed one does not |
| Sampling.AsWrittenAlwaysCombines | src/main/java/org/opennars/tasklet/TaskletScheduler.java:122-134 | with identity-compared Tuple keys, every round whose lists allow a draw combines the drawn pair, whatever was recorded before, and all stored keys stay older than the next allocated tuple |
| Sampling.RepeatedPairCombinedTwiceAsWritten | src/main/java/org/opennars/tasklet/TaskletScheduler.java:122-134 | as written, a round that combined (1, 2) followed by one that draws (1, 2) again combines it a second time, while the value-keyed round skips that draw |
| Sampling.Run | src/main/java/org/opennars/tasklet/TaskletScheduler.java:63-71 | a phase of rounds leaves the step counter unchanged; what a phase combines is stated in Sampling.NoPairCombinedTwice |
| Sampling.NoPairCombinedTwice | src/main/java/org/opennars/tasklet/TaskletScheduler.java:122-129 | within one phase no index pair is combined twice; within one list, no pair is combined together with its reverse and no index with itself; every combined pair is recorded |
| Scheduler.Ranked | src/main/java/org/opennars/tasklet/TaskletScheduler.java:73-74 | both lists sorted and cut; its properties are stated in Ranking.RankedProperties and Scheduler.IterateBounds |
| Scheduler.Iterated | src/main/java/org/opennars/tasklet/TaskletScheduler.java:60-79 | one cycle: the two phases, both lists ranked, step + 1; its properties are stated in Scheduler.IterateBounds and Scheduler.IterateNoRepeats |
| Scheduler.IterateBounds | src/main/java/org/opennars/tasklet/TaskletScheduler.java:73-78 | after a cycle both lists have at most 20000 tasklets, sorted by non-increasing utility, taken from the lists after sampling; dbgStep grows by exactly 1 |
| Scheduler.IterateNoRepeats | src/main/java/org/opennars/tasklet/TaskletScheduler.java:63-71 | both phases of a cycle start from an empty dedup set, so neither phase combines an index pair twice |
| Scheduler.TaskletScheduler.constructor | src/main/java/org/opennars/tasklet/TaskletScheduler.java:25-32 | two empty lists, an empty dedup set, the random source at seed 43, step 0 |
| Scheduler.TaskletScheduler.AddTaskletByTask | src/main/java/org/opennars/tasklet/TaskletScheduler.java:45-47 | admits a task tasklet built from the given sentence and input flag |
| Scheduler.TaskletScheduler.AddTasklet | src/main/java/org/opennars/tasklet/TaskletScheduler.java:49-58 | prepends the tasklet to the events list when IsEvent holds of its sentence, and to the secondary list otherwise; the other list is untouched |
| Scheduler.TaskletScheduler.Iterate | src/main/java/org/opennars/tasklet/TaskletScheduler.java:60-79 | the new state is the cycle function of the old one: two phases, ranking of both lists, step + 1 |
| Scheduler.TaskletScheduler.SamplingPhase | src/main/java/org/opennars/tasklet/TaskletScheduler.java:63-71 | clears the dedup set and then runs the given number of rounds |
| Scheduler.TaskletScheduler.Sample | src/main/java/org/opennars/tasklet/TaskletScheduler.java:97-136 | the new state is one sampling round of the old one |
| Scheduler.TaskletScheduler.Combine | src/main/java/org/opennars/tasklet/TaskletScheduler.java:139-152 | combining two tasklets is combine2 on their resolved premises, whichever of the four task/belief cases applies |
| Scheduler.TaskletScheduler.Combine2 | src/main/java/org/opennars/tasklet/TaskletScheduler.java:154-236 | the lists change exactly as the eligibility chain and the three ordered attempts determine |

## Left out

- nars_test/nars/perf/NALPerfLoop.java: an endless profiling loop around an external reasoner builder. It has no scheduling logic.
- The internals of `java.util.Random(43)` and `nextInt`: library code. They are modelled as the in-range oracle described above.
- `Tasklet.calcUtility`, the float `cachedUtility` and the refresh loop at lines 83-85: the utility code is not part of this model, and floats are involved. Utility is a pure integer key, so refreshing a cache before sorting is the same as the sort reading the key directly. The float comparator's treatment of NaN is not modelled.
- `DerivationProcessor.processProgramForTemporal`, `Stamp.baseOverlap`, `DerivationContext`, `Parameters`, `Timable`: external collaborators. They become the `Deriver` parameter, the `BaseOverlap` intersection test and values fixed per cycle.
- The time captured by `new Tasklet(sentence, nal.time)` and `new Tasklet(task, timable)`: the Tasklet class is not part of this model. Only the payload is kept.
- `AddTaskletByTask`: takes the task's sentence and input flag in place of a `Task` object. The unused `EnumAddedToMemory` argument and the `timable` argument are dropped.
- The `System.out.println` diagnostics (lines 61, 212-224) and the unused local `debugHere`: they do not affect behaviour.
- In-place list mutation and aliasing: the lists are `seq` fields that the methods reassign. The identity test `taskletsA == taskletsB` becomes the `Pairing` argument. `Collections.sort` is modelled by a stable insertion sort, which gives the same order as any stable sort with that comparator.
- `dbgStep` is a Java `long`: its overflow after 2^63 steps is not modelled.
- Ranking.SortByUtilityAndLimitSize: its own ensures asks only that every kept tasklet occurs in the input. Multiset inclusion is proved separately in `Ranking.RankedProperties`, which keeps the method's contract cheap for callers.

## Findings

| source | as written | input that shows it | evidently intended | confidence | as-written member | corrected member |
|---|---|---|---|---|---|---|
| src/main/java/org/opennars/tasklet/TaskletScheduler.java:122-129 | `containsKey(new Tuple(idxA, idxB))` on a HashMap whose key class `Tuple` (lines 243-255) overrides `hashCode` but not `equals`. Keys are therefore compared by identity, and a freshly allocated probe never matches, so no sample is ever skipped. | (1, 2) is drawn and recorded, then drawn again in the same phase: the second draw is combined again | skip a pair (or, within one list, its reverse) already drawn in the phase, comparing pairs by value | high (not executed) | Sampling.RepeatedPairCombinedTwiceAsWritten | Sampling.NoPairCombinedTwice |
