// What a caller of the general evaluation can derive from the contracts of
// its operations alone: a user who always picks the correct option ends
// with a full score and the mastery tier.
module Scenarios {
  import opened Common
  import opened Tiers
  import opened Quiz

  /** Answers every remaining question with its correct option. */
  method PerfectRun(s: QuizSession) returns (r: QuizReport)
    requires s.Valid() && s.screen == Asking && s.score == s.idx
    requires forall i :: 0 <= i < |s.bank| ==> s.bank[i].correct >= 0
    modifies s
    ensures s.Valid() && s.screen == Finished && s.questions == old(s.questions)
    ensures r == s.Results()
    ensures r.summary.score == r.summary.total == |s.questions|
    ensures r.tier == Mastery
  {
    while s.screen != Finished
      invariant s.Valid() && (s.screen == Asking || s.screen == Finished)
      invariant s.score == s.idx && s.questions == old(s.questions)
      decreases |s.questions| - s.idx
    {
      assert s.questions[s.idx] == s.bank[s.picks[s.idx]];
      s.Choose(s.questions[s.idx].correct);
      var fb := s.CheckAnswer();
      s.NextQuestion();
    }
    r := s.Results();
  }

  /** Three of five bank questions, all answered correctly: 3/3, mastery. */
  method ThreeOfFive(bank: seq<Question>) returns (r: QuizReport)
    requires |bank| == 5 && forall i :: 0 <= i < |bank| ==> 0 <= bank[i].correct < |bank[i].options|
    ensures r.summary == Summary(3, 3, 100.0) && r.tier == Mastery
  {
    var s := new QuizSession(bank);
    var started := s.Start(3);
    r := PerfectRun(s);
    assert r.summary.percent * 3.0 == 300.0;
  }
}
