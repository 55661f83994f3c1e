/** One sampling round of `sample` (TaskletScheduler.java:97-136), the
    per-phase dedup set of drawn index pairs, and a phase of repeated rounds.
    The random source is an oracle; see `Oracle`. */
module Sampling {
  import opened Options
  import opened Tasklets
  import opened Combination

  /** The result of one pass through the retry loop: the two drawn indices and
      the random source's next state. */
  datatype Draw = Draw(idxA: nat, idxB: nat, next: nat)

  /** The list sizes with which the retry loop is entered. */
  predicate CanDraw(sizeA: nat, sizeB: nat, same: bool)
  {
    1 <= sizeA && 1 <= sizeB && (same ==> sizeA == sizeB && 2 <= sizeA)
  }

  /** The exit condition of the retry loop: indices in range, and distinct
      when both are drawn from the same list. */
  predicate ExitCondition(d: Draw, sizeA: nat, sizeB: nat, same: bool)
  {
    d.idxA < sizeA && d.idxB < sizeB && (same ==> d.idxA != d.idxB)
  }

  /** The seeded random source with its retry loop: given its state and the
      sizes of the two lists, it yields a pair satisfying the exit condition
      together with its next state. The same oracle and state always give the
      same draw. */
  type Oracle = f: (nat, nat, nat, bool) -> Draw |
    forall state, sizeA, sizeB, same :: CanDraw(sizeA, sizeB, same) ==>
      ExitCondition(f(state, sizeA, sizeB, same), sizeA, sizeB, same)
    witness (state: nat, sizeA: nat, sizeB: nat, same: bool) => Draw(0, if same then 1 else 0, state)

  /** The state of the random source on construction (`new Random(43)`). */
  const Seed: nat := 43

  /** The dedup check of TaskletScheduler.java:122-128, on a set of pairs
      compared by value: skip when (idxA, idxB) was drawn before, or, within
      one list, when (idxB, idxA) was. */
  predicate AlreadySampled(sampled: set<(nat, nat)>, idxA: nat, idxB: nat, same: bool)
  {
    (idxA, idxB) in sampled || (same && (idxB, idxA) in sampled)
  }

  /** A `Tuple` key object of TaskletScheduler.java:243-255: an object identity
      and the two index fields. */
  datatype TupleObject = TupleObject(identity: nat, a: int, b: int)

  function HashCode(t: TupleObject): int
  {
    t.a + t.b
  }

  /** `containsKey` on a hash map whose key class overrides `hashCode` but
      not `equals`: a probe matches a key only if the hashes agree and it is
      the very same object. */
  predicate ContainsKeyByIdentity(keys: set<TupleObject>, probe: TupleObject)
  {
    exists k :: k in keys && HashCode(k) == HashCode(probe) && k.identity == probe.identity
  }

  /** The dedup check as written: both probes are freshly allocated tuples,
      whose identities are `nextIdentity` and `nextIdentity + 1`. */
  predicate AlreadySampledAsWritten(keys: set<TupleObject>, nextIdentity: nat, idxA: nat, idxB: nat, same: bool)
  {
    ContainsKeyByIdentity(keys, TupleObject(nextIdentity, idxA, idxB)) ||
    (same && ContainsKeyByIdentity(keys, TupleObject(nextIdentity + 1, idxB, idxA)))
  }

  /** As written, the dedup check never skips: every stored key was allocated
      before the probes, so none is the same object as a probe. */
  lemma DedupNeverFiresAsWritten(keys: set<TupleObject>, nextIdentity: nat, idxA: nat, idxB: nat, same: bool)
    requires forall k :: k in keys ==> k.identity < nextIdentity
    ensures !AlreadySampledAsWritten(keys, nextIdentity, idxA, idxB, same)
  {
  }

  /** The pair (1, 2) has been recorded; the value-keyed check skips a second
      draw of it, the check as written does not. */
  lemma DedupCounterexample()
    ensures AlreadySampled({(1, 2)}, 1, 2, false)
    ensures !AlreadySampledAsWritten({TupleObject(0, 1, 2)}, 1, 1, 2, false)
  {
  }

  /** What the scheduler state holds between and during phases. */
  datatype State = State(pops: Populations, sampled: set<(nat, nat)>, rngState: nat, step: nat)

  /** Which lists a round draws from: events with events, or secondary
      (compositions) with events. */
  datatype Pairing = WithinEvents | CompositesWithEvents

  function ListA(p: Populations, pairing: Pairing): seq<Tasklet>
  {
    if pairing == WithinEvents then p.events else p.secondary
  }

  /** A round's new state and the index pair it combined, if any. */
  datatype Outcome = Outcome(state: State, combined: Option<(nat, nat)>)

  /** One sampling round. */
  function SampleStep(st: State, pairing: Pairing, rng: Oracle, derive: Deriver): (o: Outcome)
    ensures o.state.step == st.step
  {
    var a := ListA(st.pops, pairing);
    var b := st.pops.events;
    var same := pairing == WithinEvents;
    if same && |a| < 2 then Outcome(st, None)
    else if |a| < 1 || |b| < 1 then Outcome(st, None)
    else
      var d := rng(st.rngState, |a|, |b|, same);
      var drawn := st.(rngState := d.next);
      if AlreadySampled(st.sampled, d.idxA, d.idxB, same) then Outcome(drawn, None)
      else
        Outcome(drawn.(sampled := st.sampled + {(d.idxA, d.idxB)},
                       pops := Combined(st.pops, Resolve(a[d.idxA]), Resolve(b[d.idxB]), derive)),
                Some((d.idxA, d.idxB)))
  }

  /** A round changes nothing when the lists are too short to draw from.
      Otherwise it advances the random source and combines the drawn pair
      exactly when that pair was not recorded before. A combined pair has both indices in range, distinct within
      one list, had not been recorded (in either order within one list), is
      recorded afterwards, and the populations change only by combining the
      two tasklets at those indices. A skipped round leaves the populations
      and the dedup set as they were. */
  lemma SampleStepProperties(st: State, pairing: Pairing, rng: Oracle, derive: Deriver)
    ensures var o := SampleStep(st, pairing, rng, derive);
      (var a := ListA(st.pops, pairing);
       (pairing == WithinEvents && |a| < 2) || |a| < 1 || |st.pops.events| < 1 ==> o == Outcome(st, None)) &&
      (var a := ListA(st.pops, pairing);
       var same := pairing == WithinEvents;
       !((same && |a| < 2) || |a| < 1 || |st.pops.events| < 1) ==>
         var d := rng(st.rngState, |a|, |st.pops.events|, same);
         o.state.rngState == d.next &&
         (o.combined == Some((d.idxA, d.idxB)) <==> !AlreadySampled(st.sampled, d.idxA, d.idxB, same)) &&
         (o.combined.None? <==> AlreadySampled(st.sampled, d.idxA, d.idxB, same))) &&
      (o.combined.None? ==> o.state.pops == st.pops && o.state.sampled == st.sampled) &&
      (o.combined.Some? ==>
        var (i, j) := o.combined.value;
        var a := ListA(st.pops, pairing);
        var same := pairing == WithinEvents;
        i < |a| && j < |st.pops.events| && (same ==> i != j) &&
        !AlreadySampled(st.sampled, i, j, same) &&
        o.state.sampled == st.sampled + {(i, j)} &&
        o.state.pops == Combined(st.pops, Resolve(a[i]), Resolve(st.pops.events[j]), derive))
  {
  }

  /** The state of a round as written: the dedup map's keys are `Tuple`
      objects, and `nextIdentity` is the identity the next allocated tuple
      gets. */
  datatype KeyedState = KeyedState(pops: Populations, keys: set<TupleObject>, nextIdentity: nat, rngState: nat)

  /** Every stored key was allocated before the next tuple. */
  predicate KeysAllocated(ks: KeyedState)
  {
    forall k :: k in ks.keys ==> k.identity < ks.nextIdentity
  }

  datatype KeyedOutcome = KeyedOutcome(state: KeyedState, combined: Option<(nat, nat)>)

  /** One round of `sample` as written (TaskletScheduler.java:97-136): the two
      probes get identities `nextIdentity` and `nextIdentity + 1`, and the key
      stored by `put` gets `nextIdentity + 2`. */
  function SampleStepAsWritten(ks: KeyedState, pairing: Pairing, rng: Oracle, derive: Deriver): KeyedOutcome
  {
    var a := ListA(ks.pops, pairing);
    var b := ks.pops.events;
    var same := pairing == WithinEvents;
    if same && |a| < 2 then KeyedOutcome(ks, None)
    else if |a| < 1 || |b| < 1 then KeyedOutcome(ks, None)
    else
      var d := rng(ks.rngState, |a|, |b|, same);
      var drawn := ks.(rngState := d.next, nextIdentity := ks.nextIdentity + 2);
      if AlreadySampledAsWritten(ks.keys, ks.nextIdentity, d.idxA, d.idxB, same) then KeyedOutcome(drawn, None)
      else
        KeyedOutcome(drawn.(keys := ks.keys + {TupleObject(ks.nextIdentity + 2, d.idxA, d.idxB)},
                            nextIdentity := ks.nextIdentity + 3,
                            pops := Combined(ks.pops, Resolve(a[d.idxA]), Resolve(b[d.idxB]), derive)),
                     Some((d.idxA, d.idxB)))
  }

  /** As written, every round whose lists allow a draw combines the drawn
      pair, whatever was recorded before, and keeps every key older than the
      next tuple. */
  lemma AsWrittenAlwaysCombines(ks: KeyedState, pairing: Pairing, rng: Oracle, derive: Deriver)
    requires KeysAllocated(ks)
    ensures var o := SampleStepAsWritten(ks, pairing, rng, derive);
      var a := ListA(ks.pops, pairing);
      var same := pairing == WithinEvents;
      KeysAllocated(o.state) &&
      (!((same && |a| < 2) || |a| < 1 || |ks.pops.events| < 1) ==>
        var d := rng(ks.rngState, |a|, |ks.pops.events|, same);
        o.combined == Some((d.idxA, d.idxB)))
  {
    var a := ListA(ks.pops, pairing);
    var same := pairing == WithinEvents;
    if !((same && |a| < 2) || |a| < 1 || |ks.pops.events| < 1) {
      var d := rng(ks.rngState, |a|, |ks.pops.events|, same);
      DedupNeverFiresAsWritten(ks.keys, ks.nextIdentity, d.idxA, d.idxB, same);
    }
  }

  /** The input of the finding: a round as written combines (1, 2), and when
      the next round draws (1, 2) again it combines it a second time. The
      value-keyed round skips that second draw. */
  lemma RepeatedPairCombinedTwiceAsWritten(ks: KeyedState, pairing: Pairing, rng: Oracle, derive: Deriver)
    requires KeysAllocated(ks)
    requires SampleStepAsWritten(ks, pairing, rng, derive).combined == Some((1, 2))
    requires var mid := SampleStepAsWritten(ks, pairing, rng, derive).state;
      var a := ListA(mid.pops, pairing);
      var d := rng(mid.rngState, |a|, |mid.pops.events|, pairing == WithinEvents);
      d.idxA == 1 && d.idxB == 2
    ensures var mid := SampleStepAsWritten(ks, pairing, rng, derive).state;
      SampleStepAsWritten(mid, pairing, rng, derive).combined == Some((1, 2))
    ensures var mid := SampleStepAsWritten(ks, pairing, rng, derive).state;
      var st := State(mid.pops, {(1, 2)}, mid.rngState, 0);
      SampleStep(st, pairing, rng, derive).combined == None
  {
    var mid := SampleStepAsWritten(ks, pairing, rng, derive).state;
    var a := ListA(ks.pops, pairing);
    var d := rng(ks.rngState, |a|, |ks.pops.events|, pairing == WithinEvents);
    CombinedGrowth(ks.pops, Resolve(a[d.idxA]), Resolve(ks.pops.events[d.idxB]), derive);
    AsWrittenAlwaysCombines(ks, pairing, rng, derive);
    AsWrittenAlwaysCombines(mid, pairing, rng, derive);
  }

  /** A phase after some rounds: the state and the pairs combined, in order. */
  datatype Phase = Phase(state: State, combined: seq<(nat, nat)>)

  function Run(st: State, pairing: Pairing, rounds: nat, rng: Oracle, derive: Deriver): (ph: Phase)
    ensures ph.state.step == st.step
    decreases rounds
  {
    if rounds == 0 then Phase(st, [])
    else
      var prev := Run(st, pairing, rounds - 1, rng, derive);
      var o := SampleStep(prev.state, pairing, rng, derive);
      Phase(o.state, prev.combined + if o.combined.Some? then [o.combined.value] else [])
  }

  /** No pair is combined twice; within one list, neither is a pair together
      with its reverse. */
  ghost predicate NoRepeats(pairs: seq<(nat, nat)>, same: bool)
  {
    forall m, n :: 0 <= m < n < |pairs| ==>
      pairs[m] != pairs[n] && (same ==> pairs[n] != (pairs[m].1, pairs[m].0))
  }

  /** Within one phase no index pair is combined twice, no pair combines an
      index with itself, every combined pair is recorded, and no combined pair
      had been recorded (in either order, within one list) before the phase. */
  lemma {:induction false} NoPairCombinedTwice(st: State, pairing: Pairing, rounds: nat, rng: Oracle, derive: Deriver)
    ensures var ph := Run(st, pairing, rounds, rng, derive);
      var same := pairing == WithinEvents;
      NoRepeats(ph.combined, same) &&
      st.sampled <= ph.state.sampled &&
      ph.state.step == st.step &&
      (forall q :: q in ph.combined ==> q in ph.state.sampled && !AlreadySampled(st.sampled, q.0, q.1, same)) &&
      (same ==> forall q :: q in ph.combined ==> q.0 != q.1)
  {
    if rounds > 0 {
      var same := pairing == WithinEvents;
      NoPairCombinedTwice(st, pairing, rounds - 1, rng, derive);
      var prev := Run(st, pairing, rounds - 1, rng, derive);
      var o := SampleStep(prev.state, pairing, rng, derive);
      SampleStepProperties(prev.state, pairing, rng, derive);
      if o.combined.Some? {
        var p := o.combined.value;
        var cs := prev.combined + [p];
        assert cs == Run(st, pairing, rounds, rng, derive).combined;
        forall m, n | 0 <= m < n < |cs|
          ensures cs[m] != cs[n] && (same ==> cs[n] != (cs[m].1, cs[m].0))
        {
          assert cs[m] == prev.combined[m];
          if n < |prev.combined| {
            assert cs[n] == prev.combined[n];
          } else {
            assert cs[m] in prev.state.sampled;
          }
        }
        forall q | q in cs
          ensures q in o.state.sampled && !AlreadySampled(st.sampled, q.0, q.1, same)
        {
          if q != p {
            assert q in prev.combined;
          }
        }
      }
    }
  }
}
