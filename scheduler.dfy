/** The tasklet scheduler of TaskletScheduler.java: two populations of
    tasklets, the per-phase dedup set, the random source's state and the step
    counter, updated in place by its methods. Each method is proved against a
    function on `State` from the Sampling, Combination and Ranking modules. */
module Scheduler {
  import opened Options
  import opened Sentences
  import opened Tasklets
  import opened Ranking
  import opened Combination
  import opened Sampling

  /** Sampling rounds per cycle within the events list, and across lists. */
  const EventRounds: nat := 100
  const CrossRounds: nat := 25

  /** One scheduling cycle: a phase within the events list and a phase of
      secondary tasklets with events, each starting from an empty dedup set,
      then both lists ranked and cut, and the step counter advanced. */
  function Ranked(p: Populations, utility: Utility): Populations
  {
    Populations(Truncated(SortByUtility(p.secondary, utility)), Truncated(SortByUtility(p.events, utility)))
  }

  function Iterated(st: State, rng: Oracle, derive: Deriver, utility: Utility): State
  {
    var events := Run(st.(sampled := {}), WithinEvents, EventRounds, rng, derive).state;
    var cross := Run(events.(sampled := {}), CompositesWithEvents, CrossRounds, rng, derive).state;
    cross.(pops := Ranked(cross.pops, utility), step := st.step + 1)
  }

  /** After a cycle both lists are within capacity and ordered by
      non-increasing utility, each holds only tasklets it held after the
      sampling phases, and the step counter has grown by exactly one. */
  lemma IterateBounds(st: State, rng: Oracle, derive: Deriver, utility: Utility)
    ensures var r := Iterated(st, rng, derive, utility);
      |r.pops.secondary| <= Capacity && |r.pops.events| <= Capacity &&
      SortedDesc(r.pops.secondary, utility) && SortedDesc(r.pops.events, utility) &&
      r.step == st.step + 1
    ensures var events := Run(st.(sampled := {}), WithinEvents, EventRounds, rng, derive).state;
      var cross := Run(events.(sampled := {}), CompositesWithEvents, CrossRounds, rng, derive).state;
      var r := Iterated(st, rng, derive, utility);
      multiset(r.pops.secondary) <= multiset(cross.pops.secondary) &&
      multiset(r.pops.events) <= multiset(cross.pops.events)
  {
    var events := Run(st.(sampled := {}), WithinEvents, EventRounds, rng, derive).state;
    var cross := Run(events.(sampled := {}), CompositesWithEvents, CrossRounds, rng, derive).state;
    SortedByUtility(cross.pops.secondary, utility);
    SortedByUtility(cross.pops.events, utility);
    TruncatedProperties(SortByUtility(cross.pops.secondary, utility), utility);
    TruncatedProperties(SortByUtility(cross.pops.events, utility), utility);
  }

  /** Within each phase of a cycle no index pair is combined twice, and
      within the events phase no index is combined with itself and no pair
      together with its reverse. */
  lemma IterateNoRepeats(st: State, rng: Oracle, derive: Deriver)
    ensures var first := Run(st.(sampled := {}), WithinEvents, EventRounds, rng, derive);
      var second := Run(first.state.(sampled := {}), CompositesWithEvents, CrossRounds, rng, derive);
      NoRepeats(first.combined, true) && NoRepeats(second.combined, false) &&
      (forall q :: q in first.combined ==> q.0 != q.1)
  {
    var first := Run(st.(sampled := {}), WithinEvents, EventRounds, rng, derive);
    NoPairCombinedTwice(st.(sampled := {}), WithinEvents, EventRounds, rng, derive);
    NoPairCombinedTwice(first.state.(sampled := {}), CompositesWithEvents, CrossRounds, rng, derive);
  }

  /** Admitting the first i + 1 tasklets is admitting the first i, then the next. */
  lemma AddAllStep(p: Populations, ts: seq<Tasklet>, i: nat)
    requires i < |ts|
    ensures AddAll(p, ts[..i + 1]) == Add(AddAll(p, ts[..i]), ts[i])
  {
    assert ts[..i + 1][..i] == ts[..i];
  }

  /** A cycle's result from the states after its two sampling phases. */
  lemma IteratedAfterPhases(st: State, events: State, cross: State, rng: Oracle, derive: Deriver, utility: Utility)
    requires events == Run(st.(sampled := {}), WithinEvents, EventRounds, rng, derive).state
    requires cross == Run(events.(sampled := {}), CompositesWithEvents, CrossRounds, rng, derive).state
    ensures Iterated(st, rng, derive, utility)
         == State(Ranked(cross.pops, utility), cross.sampled, cross.rngState, st.step + 1)
  {
  }

  class TaskletScheduler {
    /** Sequences and other compositions. */
    var secondary: seq<Tasklet>
    /** Single events. */
    var secondarySingleEvents: seq<Tasklet>
    /** The index pairs drawn in the current phase. */
    var indicesAlreadySampled: set<(nat, nat)>
    /** The state of the random source. */
    var rngState: nat
    /** The current step number. */
    var dbgStep: nat
    /** The random source. */
    const rng: Oracle

    function Model(): State
      reads this
    {
      State(Populations(secondary, secondarySingleEvents), indicesAlreadySampled, rngState, dbgStep)
    }

    /** A scheduler with two empty lists and a freshly seeded random source. */
    constructor (rng: Oracle)
      ensures this.rng == rng
      ensures Model() == State(Populations([], []), {}, Seed, 0)
    {
      secondary := [];
      secondarySingleEvents := [];
      indicesAlreadySampled := {};
      rngState := Seed;
      dbgStep := 0;
      this.rng := rng;
    }

    /** Admits a task coming from the reasoner. */
    method AddTaskletByTask(sentence: Sentence, isInput: bool)
      modifies this
      ensures Model() == old(Model()).(pops := Add(old(Model()).pops, TaskT(sentence, isInput)))
    {
      AddTasklet(TaskT(sentence, isInput));
    }

    /** Puts a tasklet at the head of the events list when its sentence is an
        event, and at the head of the secondary list otherwise. */
    method AddTasklet(tasklet: Tasklet)
      modifies this
      ensures Model() == old(Model()).(pops := Add(old(Model()).pops, tasklet))
      ensures IsEvent(tasklet.sentence) ==>
        secondarySingleEvents == [tasklet] + old(secondarySingleEvents) && secondary == old(secondary)
      ensures !IsEvent(tasklet.sentence) ==>
        secondary == [tasklet] + old(secondary) && secondarySingleEvents == old(secondarySingleEvents)
    {
      var sentence := tasklet.sentence;
      if IsEvent(sentence) {
        secondarySingleEvents := [tasklet] + secondarySingleEvents;
      } else {
        secondary := [tasklet] + secondary;
      }
    }

    /** One scheduling cycle. */
    method Iterate(derive: Deriver, utility: Utility)
      modifies this
      ensures Model() == Iterated(old(Model()), rng, derive, utility)
    {
      ghost var before := Model();
      SamplingPhase(WithinEvents, EventRounds, derive);
      ghost var events := Model();
      SamplingPhase(CompositesWithEvents, CrossRounds, derive);
      ghost var cross := Model();

      secondary := SortByUtilityAndLimitSize(secondary, utility);
      secondarySingleEvents := SortByUtilityAndLimitSize(secondarySingleEvents, utility);
      assert Model().pops == Ranked(cross.pops, utility);

      dbgStep := dbgStep + 1;
      IteratedAfterPhases(before, events, cross, rng, derive, utility);
    }

    /** Clears the dedup set and runs the given number of sampling rounds. */
    method SamplingPhase(pairing: Pairing, rounds: nat, derive: Deriver)
      modifies this
      ensures Model() == Run(old(Model()).(sampled := {}), pairing, rounds, rng, derive).state
    {
      indicesAlreadySampled := {};
      ghost var start := Model();
      for iteration := 0 to rounds
        invariant Model() == Run(start, pairing, iteration, rng, derive).state
      {
        Sample(pairing, derive);
      }
    }

    /** One sampling round over the lists `pairing` names. */
    method Sample(pairing: Pairing, derive: Deriver)
      modifies this
      ensures Model() == SampleStep(old(Model()), pairing, rng, derive).state
    {
      var areSameTaskletLists := pairing == WithinEvents;
      var taskletsA := if areSameTaskletLists then secondarySingleEvents else secondary;
      var taskletsB := secondarySingleEvents;

      if areSameTaskletLists && |taskletsA| < 2 {
        return;
      } else if |taskletsA| < 1 || |taskletsB| < 1 {
        return;
      }

      var draw := rng(rngState, |taskletsA|, |taskletsB|, areSameTaskletLists);
      rngState := draw.next;
      var idxA, idxB := draw.idxA, draw.idxB;

      // The source keys its map by `Tuple` objects that override `hashCode`
      // but not `equals`, so there these two lookups never match (see
      // Sampling.AlreadySampledAsWritten). The set here compares pairs by value.
      if (idxA, idxB) in indicesAlreadySampled {
        return;
      }
      if areSameTaskletLists && (idxB, idxA) in indicesAlreadySampled {
        return;
      }
      indicesAlreadySampled := indicesAlreadySampled + {(idxA, idxB)};

      var taskletA := taskletsA[idxA];
      var taskletB := taskletsB[idxB];
      Combine(taskletA, taskletB, derive);
    }

    /** Combines two tasklets: a task contributes its sentence and input flag,
        a belief its sentence with the flag false. */
    method Combine(a: Tasklet, b: Tasklet, derive: Deriver)
      modifies this
      ensures Model() == old(Model()).(pops := Combined(old(Model()).pops, Resolve(a), Resolve(b), derive))
    {
      if a.TaskT? && b.BeliefT? {
        Combine2(a.sentence, a.isInput, b.sentence, false, derive);
      } else if a.BeliefT? && b.TaskT? {
        Combine2(a.sentence, false, b.sentence, b.isInput, derive);
      } else if a.TaskT? && b.TaskT? {
        Combine2(a.sentence, a.isInput, b.sentence, b.isInput, derive);
      } else {
        Combine2(a.sentence, false, b.sentence, false, derive);
      }
    }

    /** Checks a pair of premises and, when it is eligible, issues the three
        derivation attempts and admits every result as a belief tasklet. */
    method Combine2(a: Sentence, aIsInput: bool, b: Sentence, bIsInput: bool, derive: Deriver)
      modifies this
      ensures Model() == old(Model()).(pops := Combined(old(Model()).pops, Premise(a, aIsInput), Premise(b, bIsInput), derive))
    {
      var admitted := Admit(Premise(a, aIsInput), Premise(b, bIsInput));
      if admitted.None? {
        return;
      }
      var (earlier, later) := admitted.value;

      var derivedTerms: seq<Sentence> := [];
      var derivedSentence := derive(SequenceAndEvent, earlier.sentence, later.sentence);
      if derivedSentence.Some? {
        derivedTerms := derivedTerms + [derivedSentence.value];
      }
      derivedSentence := derive(SequenceAndEvent, later.sentence, earlier.sentence);
      if derivedSentence.Some? {
        derivedTerms := derivedTerms + [derivedSentence.value];
      }
      derivedSentence := derive(EventAndEvent, earlier.sentence, later.sentence);
      if derivedSentence.Some? {
        derivedTerms := derivedTerms + [derivedSentence.value];
      }
      assert derivedTerms == DerivedSentences(earlier.sentence, later.sentence, derive);

      var derivedTasklets: seq<Tasklet> := [];
      for i := 0 to |derivedTerms|
        invariant |derivedTasklets| == i
        invariant forall k :: 0 <= k < i ==> derivedTasklets[k] == BeliefT(derivedTerms[k])
      {
        derivedTasklets := derivedTasklets + [BeliefT(derivedTerms[i])];
      }
      assert derivedTasklets == Beliefs(derivedTerms);

      ghost var before := Model();
      assert before == old(Model());
      assert Combined(before.pops, Premise(a, aIsInput), Premise(b, bIsInput), derive)
          == AddAll(before.pops, Beliefs(DerivedSentences(earlier.sentence, later.sentence, derive)));
      for i := 0 to |derivedTasklets|
        invariant Model() == before.(pops := AddAll(before.pops, derivedTasklets[..i]))
      {
        AddTasklet(derivedTasklets[i]);
        AddAllStep(before.pops, derivedTasklets, i);
      }
      assert derivedTasklets[..|derivedTasklets|] == derivedTasklets;
    }
  }
}
