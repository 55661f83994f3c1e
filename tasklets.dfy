/** The scheduling unit: a tasklet wraps either a reasoner task or a bare
    belief sentence. */
module Tasklets {
  import opened Sentences

  /** A task carries its sentence and whether it came from input; a belief is a
      derived sentence and has no provenance flag of its own. */
  datatype Tasklet = TaskT(sentence: Sentence, isInput: bool) | BeliefT(sentence: Sentence)

  /** A premise as the combination step sees it: a sentence paired with the
      flag saying whether it was input. */
  datatype Premise = Premise(sentence: Sentence, isInput: bool)

  /** The premise a tasklet contributes: a task gives its sentence and its own
      input flag, a belief gives its sentence with the flag false. */
  function Resolve(t: Tasklet): (p: Premise)
    ensures p.sentence == t.sentence
    ensures p.isInput <==> t.TaskT? && t.isInput
  {
    match t
    case TaskT(s, input) => Premise(s, input)
    case BeliefT(s) => Premise(s, false)
  }
}
