// The PDA evaluation: a fixed-size deck of 20 questions drawn from the PDA
// bank, each answer key a letter 'A'..'D'.
module Pda {
  import opened Common
  import opened Tiers
  import opened Sampling
  import opened Letters

  /** Every PDA session has exactly this many questions. */
  const DeckSize: nat := 20

  /** The feedback after a submitted answer: whether it was correct, and the
      letter and text of the correct option. */
  datatype PdaFeedback = PdaFeedback(correct: bool, letter: char, optionText: string)

  /** The PDA state of the application. */
  class PdaSession {
    /** The PDA bank, fixed once loaded. */
    const bank: seq<PdaQuestion>
    /** The current deck, in the order drawn. */
    var questions: seq<PdaQuestion>
    var idx: nat
    var score: nat
    /** The selected radio value 0..3; -1 means no selection. */
    var selected: int
    var screen: Screen
    /** The bank positions the deck was drawn from. */
    ghost var picks: seq<nat>

    ghost predicate Valid()
      reads this
    {
      && (forall i :: 0 <= i < |bank| ==> PdaWellFormed(bank[i]))
      && IsDraw(questions, bank, picks)
      && (questions != [] ==> DeckSize == |questions| <= |bank|)
      && idx <= |questions|
      && (selected == -1 || selected in PdaOptionMapFwd)
      && ((screen == Asking || screen == Answered) && selected != -1 ==>
            idx < |questions| && PdaOptionMapFwd[selected] in questions[idx].options)
      && (screen == Idle ==> questions == [] && idx == 0 && score == 0 && selected == -1)
      && (screen != Idle ==> questions != [])
      && (screen == Asking ==> idx < |questions| && score <= idx)
      && (screen == Answered ==> idx < |questions| && score <= idx + 1 && selected != -1)
      && (screen == Finished ==> idx == |questions| && score <= idx && selected == -1)
    }

    constructor (bank: seq<PdaQuestion>)
      requires forall i :: 0 <= i < |bank| ==> PdaWellFormed(bank[i])
      ensures Valid()
      ensures this.bank == bank && screen == Idle
    {
      this.bank := bank;
      questions, picks := [], [];
      idx, score, selected := 0, 0, -1;
      screen := Idle;
    }

    /** The question on display: while a question or its feedback is shown
        it is the bank question drawn for the current index, and once the
        results are shown (or before any start) there is none, never a stale
        question. */
    function CurrentQuestion(): (r: Option<PdaQuestion>)
      reads this
      ensures Valid() && (screen == Asking || screen == Answered) ==> r == Some(bank[picks[idx]])
      ensures Valid() && (screen == Finished || screen == Idle) ==> r == None
    {
      if idx >= |questions| then None else Some(questions[idx])
    }

    /** Resets the score, the index and the selection, and only then checks
        that the bank holds a full deck; if it does, draws 20 distinct bank
        questions, and otherwise keeps the previous deck. */
    method Start() returns (started: bool)
      requires Valid()
      modifies this
      ensures Valid()
      ensures score == 0 && idx == 0 && selected == -1
      ensures started <==> |bank| >= DeckSize
      ensures !started ==> questions == old(questions) && picks == old(picks) && screen == old(screen)
      ensures !started ==> questions == [] && screen == Idle
      ensures started ==> |questions| == DeckSize && IsDraw(questions, bank, picks) && screen == Asking
    {
      score, idx, selected := 0, 0, -1;
      if |bank| < DeckSize {
        return false;
      }
      var p, deck := Sample(bank, DeckSize);
      questions, picks := deck, p;
      ShowQuestion();
      started := true;
    }

    /** Decides between showing the current question and the results. */
    method ShowQuestion()
      requires questions != [] && idx <= |questions|
      modifies this`screen
      ensures screen == Finished <==> CurrentQuestion() == None
      ensures screen == Asking <==> CurrentQuestion() != None
    {
      if idx >= |questions| {
        screen := Finished;
      } else {
        screen := Asking;
      }
    }

    /** Clicking the radio button of the option with the given letter: its
        value is the letter's index. */
    method Choose(letter: char)
      requires Valid() && screen == Asking
      requires letter in questions[idx].options
      modifies this`selected
      ensures Valid() && selected == PdaOptionMapRev[letter]
      ensures PdaOptionMapFwd[selected] == letter
    {
      assert questions[idx] == bank[picks[idx]];
      selected := PdaOptionMapRev[letter];
      LetterMapsInverse();
    }

    /** Scores the current question by comparing letters.  Without a
        selection nothing changes; otherwise the score grows by one exactly
        when the selected letter is the answer key, and the index stays. */
    method CheckAnswer() returns (fb: Option<PdaFeedback>)
      requires Valid() && screen == Asking
      modifies this
      ensures Valid()
      ensures old(selected) == -1 ==> fb == None && unchanged(this)
      ensures old(selected) != -1 ==>
        var q := old(questions[idx]);
        var ok := PdaIsCorrect(q, old(selected));
        && questions == old(questions) && picks == old(picks)
        && idx == old(idx) && selected == old(selected)
        && score == old(score) + (if ok then 1 else 0)
        && screen == Answered
        && fb == Some(PdaFeedback(ok, q.correct, q.options[q.correct]))
    {
      if selected == -1 {
        return None;
      }
      var q := questions[idx];
      assert q == bank[picks[idx]];
      var letter := PdaOptionMapFwd[selected];
      var ok := letter == q.correct;
      if ok {
        score := score + 1;
        fb := Some(PdaFeedback(true, letter, q.options[q.correct]));
      } else {
        fb := Some(PdaFeedback(false, q.correct, q.options[q.correct]));
      }
      screen := Answered;
    }

    /** Moves to the next question, clearing the selection. */
    method NextQuestion()
      requires Valid() && screen == Answered
      modifies this
      ensures Valid()
      ensures idx == old(idx) + 1 && selected == -1 && score == old(score)
      ensures questions == old(questions) && picks == old(picks)
      ensures screen == (if idx == |questions| then Finished else Asking)
    {
      idx := idx + 1;
      selected := -1;
      ShowQuestion();
    }

    /** The results screen over the 20-question deck: the score never exceeds
        20, and the tier is readiness, potential or reflection by the 80/60
        thresholds on the percentage. */
    function Results(): (r: PdaReport)
      reads this
      requires Valid() && screen == Finished
      ensures r.summary.score == score <= r.summary.total == DeckSize
      ensures r.summary.percent * (DeckSize as real) == 100.0 * (score as real)
      ensures r.tier == Readiness <==> 100 * score >= 80 * DeckSize
      ensures r.tier == Potential <==> 60 * DeckSize <= 100 * score < 80 * DeckSize
      ensures r.tier == Reflection <==> 100 * score < 60 * DeckSize
    {
      PdaTierExact(score, |questions|);
      var s := PdaSummaryOf(score, |questions|);
      PdaReport(s, PdaTierOf(s.percent))
    }
  }
}
