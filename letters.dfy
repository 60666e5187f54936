// The PDA answer key: the radio buttons carry the values 0..3, the question
// records name their correct answer by a letter 'A'..'D', and two fixed
// dictionaries convert between the two.
module Letters {

  /** Letter -> radio value, used to build the radio buttons. */
  const PdaOptionMapRev: map<char, int> := map['A' := 0, 'B' := 1, 'C' := 2, 'D' := 3]

  /** Radio value -> letter, used to check the selected answer. */
  const PdaOptionMapFwd: map<int, char> := map[0 := 'A', 1 := 'B', 2 := 'C', 3 := 'D']

  /** The two maps are mutual inverses between {0..3} and {A..D}. */
  lemma LetterMapsInverse()
    ensures PdaOptionMapFwd.Keys == {0, 1, 2, 3}
    ensures PdaOptionMapRev.Keys == {'A', 'B', 'C', 'D'}
    ensures forall v :: v in PdaOptionMapFwd ==>
      PdaOptionMapFwd[v] in PdaOptionMapRev && PdaOptionMapRev[PdaOptionMapFwd[v]] == v
    ensures forall c :: c in PdaOptionMapRev ==>
      PdaOptionMapRev[c] in PdaOptionMapFwd && PdaOptionMapFwd[PdaOptionMapRev[c]] == c
  {
  }

  /** A PDA question: a prompt, options keyed by letter, the correct letter. */
  datatype PdaQuestion = PdaQuestion(prompt: string, options: map<char, string>, correct: char)

  /** What a PDA question record must hold for the screens not to fail:
      every option letter has a radio value, and the correct letter is one
      of the options (its text is shown in the feedback). */
  predicate PdaWellFormed(q: PdaQuestion) {
    q.options.Keys <= PdaOptionMapRev.Keys && q.correct in q.options
  }

  /** The selected radio value is turned back into a letter and compared with
      the answer key.  Equivalently: the selection is the radio value of the
      correct letter. */
  function PdaIsCorrect(q: PdaQuestion, sel: int): (b: bool)
    requires sel in PdaOptionMapFwd
    ensures b ==> q.correct in PdaOptionMapRev
    ensures q.correct in PdaOptionMapRev ==> (b <==> sel == PdaOptionMapRev[q.correct])
  {
    PdaOptionMapFwd[sel] == q.correct
  }
}
