// The general evaluation: a sample of the question bank whose size the user
// picks, answered one question at a time, each answer key an option index.
module Quiz {
  import opened Common
  import opened Tiers
  import opened Sampling

  /** A general question: a prompt, its options in display order, the index
      of the correct option and an explanation shown after answering. */
  datatype Question = Question(prompt: string, options: seq<string>, correct: int, explanation: string)

  /** The correct index names one of the options (its text is shown when the
      answer is wrong), counting from the end when it is negative. */
  predicate WellFormed(q: Question) {
    -|q.options| <= q.correct < |q.options|
  }

  /** Python's indexing of a list by an int: a negative index counts from the
      end, so the entry taken is the one at k modulo the length. */
  function OptionAt(options: seq<string>, k: int): (s: string)
    requires -|options| <= k < |options|
    ensures s == options[k % |options|]
  {
    if k < 0 then options[|options| + k] else options[k]
  }

  /** The feedback after a submitted answer. */
  datatype Feedback = Confirmed(explanation: string) | Mismatch(correctOption: string, explanation: string)

  /** The general-evaluation state of the application. */
  class QuizSession {
    /** The question bank, fixed once loaded. */
    const bank: seq<Question>
    /** The questions of the current session, in the order drawn. */
    var questions: seq<Question>
    var idx: nat
    var score: nat
    /** The selected radio value; -1 means no selection. */
    var selected: int
    var screen: Screen
    /** The bank positions the session's questions were drawn from. */
    ghost var picks: seq<nat>

    ghost predicate Valid()
      reads this
    {
      && (forall i :: 0 <= i < |bank| ==> WellFormed(bank[i]))
      && IsDraw(questions, bank, picks)
      && idx <= |questions|
      && selected >= -1
      && ((screen == Asking || screen == Answered) && selected != -1 ==>
            idx < |questions| && selected < |questions[idx].options|)
      && (screen == Idle ==> questions == [] && idx == 0 && score == 0 && selected == -1)
      && (screen != Idle ==> questions != [])
      && (screen == Asking ==> idx < |questions| && score <= idx)
      && (screen == Answered ==> idx < |questions| && score <= idx + 1 && selected != -1)
      && (screen == Finished ==> idx == |questions| && score <= idx && selected == -1)
    }

    constructor (bank: seq<Question>)
      requires forall i :: 0 <= i < |bank| ==> WellFormed(bank[i])
      ensures Valid()
      ensures this.bank == bank && screen == Idle
    {
      this.bank := bank;
      questions, picks := [], [];
      idx, score, selected := 0, 0, -1;
      screen := Idle;
    }

    /** The question on display: while a question or its feedback is shown
        it is the bank question drawn for the current index, and once the
        results are shown (or before any start) there is none, never a stale
        question. */
    function CurrentQuestion(): (r: Option<Question>)
      reads this
      ensures Valid() && (screen == Asking || screen == Answered) ==> r == Some(bank[picks[idx]])
      ensures Valid() && (screen == Finished || screen == Idle) ==> r == None
    {
      if idx >= |questions| then None else Some(questions[idx])
    }

    /** Checks the requested size, draws that many distinct bank questions
        and resets the score, the index and the selection.  A rejected size
        changes nothing. */
    method Start(n: int) returns (started: bool)
      requires Valid()
      modifies this
      ensures Valid()
      ensures started <==> 1 <= n <= |bank|
      ensures !started ==> unchanged(this)
      ensures started ==> && |questions| == n && IsDraw(questions, bank, picks)
                          && score == 0 && idx == 0 && selected == -1
                          && screen == Asking
    {
      if !(1 <= n <= |bank|) {
        return false;
      }
      var p, sample := Sample(bank, n);
      questions, picks := sample, p;
      score, idx, selected := 0, 0, -1;
      ShowQuestion();
      started := true;
    }

    /** Decides between showing the current question and the results. */
    method ShowQuestion()
      requires questions != [] && idx <= |questions|
      modifies this`screen
      ensures screen == Finished <==> CurrentQuestion() == None
      ensures screen == Asking <==> CurrentQuestion() != None
    {
      if idx >= |questions| {
        screen := Finished;
      } else {
        screen := Asking;
      }
    }

    /** Clicking the radio button of option v. */
    method Choose(v: int)
      requires Valid() && screen == Asking
      requires 0 <= v < |questions[idx].options|
      modifies this`selected
      ensures Valid() && selected == v
    {
      selected := v;
    }

    /** Scores the current question.  Without a selection nothing changes;
        otherwise the score grows by one exactly when the selected index is
        the correct one, and the index stays where it is. */
    method CheckAnswer() returns (fb: Option<Feedback>)
      requires Valid() && screen == Asking
      modifies this
      ensures Valid()
      ensures old(selected) == -1 ==> fb == None && unchanged(this)
      ensures old(selected) != -1 ==>
        var q := old(questions[idx]);
        && questions == old(questions) && picks == old(picks)
        && idx == old(idx) && selected == old(selected)
        && score == old(score) + (if selected == q.correct then 1 else 0)
        && (q.correct < 0 ==> score == old(score))
        && screen == Answered
        && fb == Some(if selected == q.correct then Confirmed(q.explanation)
                      else Mismatch(OptionAt(q.options, q.correct), q.explanation))
    {
      if selected == -1 {
        return None;
      }
      var q := questions[idx];
      assert q == bank[picks[idx]];
      if selected == q.correct {
        score := score + 1;
        fb := Some(Confirmed(q.explanation));
      } else {
        fb := Some(Mismatch(OptionAt(q.options, q.correct), q.explanation));
      }
      screen := Answered;
    }

    /** Moves to the next question, clearing the selection. */
    method NextQuestion()
      requires Valid() && screen == Answered
      modifies this
      ensures Valid()
      ensures idx == old(idx) + 1 && selected == -1 && score == old(score)
      ensures questions == old(questions) && picks == old(picks)
      ensures screen == (if idx == |questions| then Finished else Asking)
    {
      idx := idx + 1;
      selected := -1;
      ShowQuestion();
    }

    /** The results screen: the score never exceeds the number of questions,
        and the tier is mastery, acceptable or recalibration by the 85/60
        thresholds on the percentage. */
    function Results(): (r: QuizReport)
      reads this
      requires Valid() && screen == Finished
      ensures r.summary.score == score <= r.summary.total == |questions|
      ensures r.summary.percent * (|questions| as real) == 100.0 * (score as real)
      ensures r.tier == Mastery <==> 100 * score >= 85 * |questions|
      ensures r.tier == Acceptable <==> 60 * |questions| <= 100 * score < 85 * |questions|
      ensures r.tier == Recalibration <==> 100 * score < 60 * |questions|
    {
      QuizTierExact(score, |questions|);
      var s := QuizSummaryOf(score, |questions|);
      QuizReport(s, QuizTierOf(s.percent))
    }
  }
}
