/** The eligibility checks and derivation dispatch of `combine2`
    (TaskletScheduler.java:154-236), and the admission of tasklets into the
    two populations (TaskletScheduler.java:49-58), as functions on values. */
module Combination {
  import opened Options
  import opened Sentences
  import opened Tasklets

  /** The two populations: `secondary` holds sequences and other compositions,
      `events` the single events. */
  datatype Populations = Populations(secondary: seq<Tasklet>, events: seq<Tasklet>)

  function Size(p: Populations): nat
  {
    |p.secondary| + |p.events|
  }

  /** Admission of one tasklet: it is put at the head of the events list when
      its sentence is an event, and at the head of the secondary list
      otherwise. */
  function Add(p: Populations, t: Tasklet): Populations
  {
    if IsEvent(t.sentence) then p.(events := [t] + p.events)
    else p.(secondary := [t] + p.secondary)
  }

  /** Admission of several tasklets, one after the other. */
  function AddAll(p: Populations, ts: seq<Tasklet>): Populations
  {
    if ts == [] then p else Add(AddAll(p, ts[..|ts| - 1]), ts[|ts| - 1])
  }

  /** Admitting n tasklets grows the populations by n in total and keeps
      every list's old tasklets, in order, behind the new ones. */
  lemma {:induction false} AddAllKeeps(p: Populations, ts: seq<Tasklet>)
    ensures var r := AddAll(p, ts);
      Size(r) == Size(p) + |ts| &&
      |p.events| <= |r.events| && r.events[|r.events| - |p.events|..] == p.events &&
      |p.secondary| <= |r.secondary| && r.secondary[|r.secondary| - |p.secondary|..] == p.secondary
  {
    if ts != [] {
      var q := AddAll(p, ts[..|ts| - 1]);
      var t := ts[|ts| - 1];
      AddAllKeeps(p, ts[..|ts| - 1]);
      assert AddAll(p, ts) == Add(q, t);
      if IsEvent(t.sentence) {
        assert Add(q, t) == q.(events := [t] + q.events);
        SuffixOfPrepend(t, q.events, |p.events|);
      } else {
        assert Add(q, t) == q.(secondary := [t] + q.secondary);
        SuffixOfPrepend(t, q.secondary, |p.secondary|);
      }
    }
  }

  lemma SuffixOfPrepend(t: Tasklet, s: seq<Tasklet>, k: nat)
    requires k <= |s|
    ensures ([t] + s)[|s| + 1 - k..] == s[|s| - k..]
  {
  }

  /** Admitting a tasklet prepends it to exactly the list `IsEvent` picks:
      that list grows by one and its old elements move one position back;
      the other list is unchanged. */
  lemma AddPrepends(p: Populations, t: Tasklet)
    ensures var r := Add(p, t);
      if IsEvent(t.sentence) then
        r.secondary == p.secondary && |r.events| == |p.events| + 1 && r.events[0] == t &&
        forall i :: 0 <= i < |p.events| ==> r.events[i + 1] == p.events[i]
      else
        r.events == p.events && |r.secondary| == |p.secondary| + 1 && r.secondary[0] == t &&
        forall i :: 0 <= i < |p.secondary| ==> r.secondary[i + 1] == p.secondary[i]
  {
  }

  /** Orders two premises by occurrence time, swapping sentence and input flag
      together, and keeping the given order on equal times. */
  function OrderByTime(a: Premise, b: Premise): (r: (Premise, Premise))
    ensures r == (a, b) || r == (b, a)
    ensures r.0.sentence.occurrenceTime <= r.1.sentence.occurrenceTime
    ensures a.sentence.occurrenceTime == b.sentence.occurrenceTime ==> r == (a, b)
  {
    if a.sentence.occurrenceTime > b.sentence.occurrenceTime then (b, a) else (a, b)
  }

  /** The chain of eligibility checks: Some((earlier, later)) when the pair
      may be combined, None when a check rejects it. */
  function Admit(a: Premise, b: Premise): (r: Option<(Premise, Premise)>)
    ensures r.Some? ==> r.value == OrderByTime(a, b)
  {
    if a.sentence.eternal || b.sentence.eternal then None
    else
      var (x, y) := OrderByTime(a, b);
      if y.sentence.punctuation != Judgment && y.sentence.punctuation != Goal then None
      else if x.sentence.punctuation != Judgment then None
      else if !y.isInput then None
      else if BaseOverlap(x.sentence, y.sentence) then None
      else Some((x, y))
  }

  /** The programs of the derivation processor that the scheduler invokes. */
  datatype Program = CombineSequenceAndEvent | CombineEventAndEvent

  /** A rule template: the roles of the two premises and the program. */
  datatype Rule = Rule(first: string, second: string, program: Program)

  const SequenceAndEvent: Rule := Rule("S", "E", CombineSequenceAndEvent)
  const EventAndEvent: Rule := Rule("E", "E", CombineEventAndEvent)

  /** The external derivation processor, with the time source and the
      reasoner parameters of the current cycle fixed: a rule and two ordered
      premises give at most one derived sentence. */
  type Deriver = (Rule, Sentence, Sentence) -> Option<Sentence>

  function Results(d: Option<Sentence>): seq<Sentence>
  {
    if d.Some? then [d.value] else []
  }

  /** The sentences derived from an eligible ordered pair (a, b): the results
      of the three attempts, in the order they are issued. */
  function DerivedSentences(a: Sentence, b: Sentence, derive: Deriver): seq<Sentence>
  {
    Results(derive(SequenceAndEvent, a, b)) + Results(derive(SequenceAndEvent, b, a)) +
    Results(derive(EventAndEvent, a, b))
  }

  /** Every successful attempt contributes its sentence, in the order the
      attempts are issued: at most three sentences, none exactly when every
      attempt fails, and each one the result of one of the three attempts. */
  lemma DerivedSentencesBound(a: Sentence, b: Sentence, derive: Deriver)
    ensures var r := DerivedSentences(a, b, derive);
      var d1 := derive(SequenceAndEvent, a, b);
      var d2 := derive(SequenceAndEvent, b, a);
      var d3 := derive(EventAndEvent, a, b);
      |r| <= 3 &&
      |r| == |Results(d1)| + |Results(d2)| + |Results(d3)| &&
      (d1.Some? ==> r[0] == d1.value) &&
      (d2.Some? ==> r[|Results(d1)|] == d2.value) &&
      (d3.Some? ==> r[|r| - 1] == d3.value) &&
      (r == [] <==>
        derive(SequenceAndEvent, a, b).None? && derive(SequenceAndEvent, b, a).None? &&
        derive(EventAndEvent, a, b).None?) &&
      forall s :: s in r ==>
        derive(SequenceAndEvent, a, b) == Some(s) || derive(SequenceAndEvent, b, a) == Some(s) ||
        derive(EventAndEvent, a, b) == Some(s)
  {
  }

  /** Wraps each derived sentence as a belief tasklet. */
  function Beliefs(ss: seq<Sentence>): (r: seq<Tasklet>)
    ensures |r| == |ss|
    ensures forall i :: 0 <= i < |ss| ==> r[i] == BeliefT(ss[i])
  {
    seq(|ss|, i requires 0 <= i < |ss| => BeliefT(ss[i]))
  }

  /** The effect of `combine2` on the populations. */
  function Combined(p: Populations, a: Premise, b: Premise, derive: Deriver): Populations
  {
    match Admit(a, b)
    case None => p
    case Some((x, y)) => AddAll(p, Beliefs(DerivedSentences(x.sentence, y.sentence, derive)))
  }

  /** `r` holds every tasklet of `p`, each list's old tasklets in order
      behind its new ones, and at most `n` tasklets more in total. */
  predicate Extends(p: Populations, r: Populations, n: nat)
  {
    Size(p) <= Size(r) <= Size(p) + n &&
    |p.events| <= |r.events| && r.events[|r.events| - |p.events|..] == p.events &&
    |p.secondary| <= |r.secondary| && r.secondary[|r.secondary| - |p.secondary|..] == p.secondary
  }

  /** A combination adds at most three tasklets and keeps every tasklet that
      was already there, behind the new ones. */
  lemma CombinedGrowth(p: Populations, a: Premise, b: Premise, derive: Deriver)
    ensures Extends(p, Combined(p, a, b, derive), 3)
  {
    match Admit(a, b)
    case None =>
    case Some((x, y)) =>
      var ts := Beliefs(DerivedSentences(x.sentence, y.sentence, derive));
      DerivedAtMostThree(x.sentence, y.sentence, derive);
      AddAllGrowth(p, ts);
  }

  lemma AddAllGrowth(p: Populations, ts: seq<Tasklet>)
    requires |ts| <= 3
    ensures Extends(p, AddAll(p, ts), 3)
  {
    AddAllKeeps(p, ts);
  }

  lemma DerivedAtMostThree(a: Sentence, b: Sentence, derive: Deriver)
    ensures |DerivedSentences(a, b, derive)| <= 3
  {
  }

  /** Eternal exclusion: no derivation when either premise is eternal. */
  lemma EternalExclusion(p: Populations, a: Premise, b: Premise, derive: Deriver)
    requires a.sentence.eternal || b.sentence.eternal
    ensures Combined(p, a, b, derive) == p
  {
  }

  /** Punctuation gates: the later premise must be a judgment or a goal, the
      earlier one a judgment. */
  lemma PunctuationGate(p: Populations, a: Premise, b: Premise, derive: Deriver)
    requires var (x, y) := OrderByTime(a, b);
      y.sentence.punctuation !in {Judgment, Goal} || x.sentence.punctuation != Judgment
    ensures Combined(p, a, b, derive) == p
  {
  }

  /** Input gate: no derivation when the later premise was not input. */
  lemma InputGate(p: Populations, a: Premise, b: Premise, derive: Deriver)
    requires !OrderByTime(a, b).1.isInput
    ensures Combined(p, a, b, derive) == p
  {
  }

  /** Evidence-overlap exclusion: no derivation from premises whose
      evidential bases intersect. */
  lemma OverlapExclusion(p: Populations, a: Premise, b: Premise, derive: Deriver)
    requires BaseOverlap(a.sentence, b.sentence)
    ensures Combined(p, a, b, derive) == p
  {
    assert BaseOverlap(b.sentence, a.sentence) by {
      assert b.sentence.evidentialBase * a.sentence.evidentialBase
          == a.sentence.evidentialBase * b.sentence.evidentialBase;
    }
  }

  /** When every check passes, the three derivation results are admitted as
      beliefs, earlier premise first. */
  lemma AdmittedPair(p: Populations, a: Premise, b: Premise, derive: Deriver)
    requires !a.sentence.eternal && !b.sentence.eternal
    requires var (x, y) := OrderByTime(a, b);
      y.sentence.punctuation in {Judgment, Goal} && x.sentence.punctuation == Judgment &&
      y.isInput && !BaseOverlap(x.sentence, y.sentence)
    ensures var (x, y) := OrderByTime(a, b);
      Combined(p, a, b, derive) == AddAll(p, Beliefs(DerivedSentences(x.sentence, y.sentence, derive)))
  {
  }

  /** Temporal reordering: with distinct occurrence times the outcome does not
      depend on the order the premises are given in; with equal times the
      first given premise plays the earlier role. */
  lemma OrderIndependence(p: Populations, a: Premise, b: Premise, derive: Deriver)
    ensures a.sentence.occurrenceTime != b.sentence.occurrenceTime ==>
      Combined(p, a, b, derive) == Combined(p, b, a, derive)
    ensures a.sentence.occurrenceTime == b.sentence.occurrenceTime && Admit(a, b).Some? ==>
      Admit(a, b).value == (a, b)
  {
  }
}
