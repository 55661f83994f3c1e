/** The parts of a sentence and its stamp that the tasklet scheduler inspects.
    Everything else about sentences (truth values, term structure, stamp
    construction) belongs to the surrounding reasoner. */
module Sentences {

  /** Punctuation marks of a sentence. */
  datatype Punctuation = Judgment | Goal | Question | Quest

  /** The shape of a sentence's term, as far as the scheduler distinguishes it:
      the two binary relations it treats as single events, and everything else
      (sequences, implications, other compounds, atoms). */
  datatype TermKind = Similarity | Inheritance | OtherTerm

  /** A term: its kind, and a name that only tells terms of the same kind
      apart. */
  datatype Term = Term(kind: TermKind, name: string)

  /** A sentence together with its stamp: an eternal marker, an occurrence time
      (meaningful only when not eternal) and the evidential base, a set of
      evidence identifiers. */
  datatype Sentence = Sentence(
    punctuation: Punctuation,
    term: Term,
    eternal: bool,
    occurrenceTime: int,
    evidentialBase: set<int>)

  /** Two stamps overlap when their evidential bases share an identifier. */
  predicate BaseOverlap(a: Sentence, b: Sentence)
  {
    a.evidentialBase * b.evidentialBase != {}
  }

  /** Whether a sentence is a single event: never for an eternal sentence,
      otherwise exactly when its term is a similarity or an inheritance. */
  function IsEvent(s: Sentence): (r: bool)
    ensures s.eternal ==> !r
    ensures !s.eternal ==> (r <==> s.term.kind != OtherTerm)
  {
    if s.eternal then false
    else s.term.kind == Similarity || s.term.kind == Inheritance
  }
}
