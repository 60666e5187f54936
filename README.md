# Attention Dynamics quiz sessions in Dafny

This project models the quiz-session logic of the Attention Dynamics desktop
trainer (`quiz.py`, class `AttentionApp`). The application runs two
evaluations that share one shape.

- **General evaluation.** The user picks a sample size. The application draws
  that many distinct questions from the general bank. The user answers them one
  at a time, and each answer key is an option index. At the end it shows the
  percentage and a tier by the 85/60 thresholds: mastery, acceptable or
  recalibration.
- **PDA evaluation.** This is a fixed deck of 20 questions drawn from the PDA
  bank. Each answer key is a letter A–D. The radio buttons carry the values
  0–3, and two fixed maps convert between values and letters. It ends with a
  tier by the 80/60 thresholds: readiness, potential or reflection.

Layout:

- `common.dfy` (module `Common`): `Option` and `Screen`. `Screen` says which
  widgets a tab shows: nothing yet, a question with its Submit button, the
  feedback with its Next button, or the results.
- `tiers.dfy` (module `Tiers`): the percentage, the summaries and both tier
  chains, all pure. Each threshold test is proved equal to an integer
  inequality, for example `percent >= 85` iff `100*score >= 85*total`.
- `letters.dfy` (module `Letters`): the PDA letter maps and letter-based
  correctness.
- `sampling.dfy` (module `Sampling`): `random.sample`, modelled as an
  arbitrary draw of distinct bank positions. The sample is proved to be a
  sub-multiset of the bank.
- `quiz_session.dfy` (module `Quiz`, class `QuizSession`): the general
  evaluation's fields and one method per operation.
- `pda_session.dfy` (module `Pda`, class `PdaSession`): the same for the PDA
  evaluation.
- `scenarios.dfy` (module `Scenarios`): a client that always picks the
  correct option. It shows the state machine reaches the results with a full
  score.

In the source both evaluations live in one `AttentionApp` object, but their
fields do not overlap. The model gives each evaluation its own class, and each
class holds its bank as a constant.

Each class invariant `Valid()` relates the fields:

- The session's questions are a draw without replacement from the bank: the
  ghost field `picks` holds distinct positions, and the questions are the bank
  entries at those positions.
- `idx <= |questions|`.
- The selection is -1 or the radio value of one of the current question's
  options. For the PDA evaluation that value maps to one of the current
  question's option letters.
- The score is at most the index, or at most the index plus one while the
  feedback is shown.

The score can never run ahead of the index because of the screens. Once an
answer is submitted, the Submit button is replaced by the Next button, so no
question is scored twice. `CheckAnswer` therefore requires the Asking screen,
and `NextQuestion` requires the Answered screen. These are the only screens on
which the source shows the buttons bound to those operations.

Four behaviours of the code that the model keeps as written:

- `start_pda_quiz` resets the score, index and selection before it checks the
  bank size. On failure it keeps the previous deck.
- The PDA results divide by the deck size with no zero guard. `PdaSummaryOf`
  therefore requires a non-empty deck, which only a successful start produces.
  The general results do guard the empty case and show 0/0 at 0%.
- Advancing is not guarded against running past the end. Only the Next button
  calls it, and after the last question the results are shown in its place.
- Submitting twice is neither rejected nor idempotent in the code. It cannot
  happen, because the Submit button disappears after one submission.

## Model

| member | source | states |
|---|---|---|
| Tiers.Percent | quiz.py:373 | percent times total is 100 times score; the percentage is non-negative and at most 100 when score ≤ total |
| Tiers.QuizSummaryOf | quiz.py:366-373 | an empty question list shows 0/0 at 0%; otherwise the score is kept and percent·total = 100·score |
| Tiers.PdaSummaryOf | quiz.py:403-404 | the PDA summary keeps score and deck size, with percent·total = 100·score (non-empty deck, as the unguarded division demands) |
| Tiers.QuizTierOf | quiz.py:377-382 | the general tier by bands of the percentage: mastery exactly from 85 up, acceptable exactly from 60 to below 85, recalibration exactly below 60 |
| Tiers.PdaTierOf | quiz.py:409-414 | the PDA tier by bands of the percentage: readiness exactly from 80 up, potential exactly from 60 to below 80, reflection exactly below 60 |
| Tiers.PercentAtLeast | quiz.py:377-379 | for a positive total, "percent ≥ c" holds exactly when 100·score ≥ c·total |
| Tiers.QuizTierExact | quiz.py:377-382 | mastery iff 100·score ≥ 85·total; acceptable iff 60·total ≤ 100·score < 85·total; recalibration iff below 60% or the list is empty (the tiers partition all scores) |
| Tiers.PdaTierExact | quiz.py:409-414 | readiness iff 100·score ≥ 80·total; potential iff 60·total ≤ 100·score < 80·total; reflection iff below 60% |
| Tiers.QuizTierMonotone | quiz.py:377-382 | a higher score never yields a worse general tier |
| Tiers.PdaTierMonotone | quiz.py:409-414 | a higher score never yields a worse PDA tier |
| Tiers.AllCorrectIsMastery | quiz.py:370-378 | 3 of 3 correct gives 3/3 at 100%, mastery |
| Tiers.SixteenOfTwentyIsReadiness | quiz.py:403-410 | 16 of 20 correct gives exactly 80%, readiness |
| Letters.LetterMapsInverse | quiz.py:68-69 | the radio-value → letter and letter → radio-value maps are mutual inverses between {0..3} and {A..D} |
| Letters.PdaIsCorrect | quiz.py:332-333 | a PDA answer is correct only for an A–D answer key, and then exactly when the selected value is that letter's radio value |
| Sampling.Sample | quiz.py:218 | a draw of k ≤ bank size yields exactly k distinct bank positions and the bank entries at them, in draw order |
| Sampling.ChosenSubBag | quiz.py:218 | a draw without replacement is a sub-multiset of the bank: no entry is taken more often than the bank holds it |
| Sampling.ChosenDistinct | quiz.py:235 | from a bank without duplicate entries, a draw has no duplicate entries |
| Quiz.QuizSession.constructor | quiz.py:57-62 | a new general session is idle with score 0, index 0, no selection and no questions |
| Quiz.QuizSession.CurrentQuestion | quiz.py:244-248 | while a question or its feedback is shown, the displayed question is the bank question drawn for the current index; on the results screen (or before any start) there is none, never a stale question |
| Quiz.QuizSession.Start | quiz.py:208-224 | started iff 1 ≤ n ≤ bank size (so never for an empty bank); a rejected size leaves every field unchanged; a started session has exactly n distinct bank questions, score 0, index 0, no selection, first question showing |
| Quiz.QuizSession.ShowQuestion | quiz.py:240-248 | the results screen is shown exactly when no question is left, the question screen otherwise |
| Quiz.QuizSession.Choose | quiz.py:256-261 | clicking option v's radio button selects v and keeps the invariant |
| Quiz.QuizSession.CheckAnswer | quiz.py:299-324 | no selection: nothing changes and no feedback; otherwise score +1 exactly when the selected index equals the correct index, index and questions unchanged, feedback shows the explanation and, when wrong, the correct option's text (a negative key counts from the end and is never scored correct) |
| Quiz.OptionAt | quiz.py:312 | Python list indexing: for a key in -len..len-1 the option taken is the one at key modulo the number of options |
| Quiz.QuizSession.NextQuestion | quiz.py:354-357 | the index grows by exactly 1, the selection is cleared, the score and questions are unchanged, and the results show once the index reaches the end |
| Quiz.QuizSession.Results | quiz.py:364-382 | score ≤ total = number of questions, percent·total = 100·score, and the tier is chosen by the 85/60 thresholds stated as integer inequalities |
| Pda.PdaSession.constructor | quiz.py:63-66 | a new PDA session is idle with score 0, index 0, no selection and an empty deck |
| Pda.PdaSession.CurrentQuestion | quiz.py:272-276 | while a question or its feedback is shown, the displayed question is the bank question drawn for the current index; on the results screen (or before any start) there is none, never a stale question |
| Pda.PdaSession.Start | quiz.py:226-238 | score, index and selection are reset whatever happens; started iff the bank holds ≥ 20 questions; on failure the deck stays as it was (empty); on success the deck is 20 distinct bank questions |
| Pda.PdaSession.ShowQuestion | quiz.py:268-276 | the results screen is shown exactly when no question is left, the question screen otherwise |
| Pda.PdaSession.Choose | quiz.py:284-292 | clicking the radio button of letter L (one of the current question's options) selects L's radio value, which maps back to L, and keeps the invariant that the selection names an option of the current question |
| Pda.PdaSession.CheckAnswer | quiz.py:326-352 | no selection: nothing changes; otherwise score +1 exactly when the selected value's letter is the answer key, index unchanged, feedback gives the correct letter and its text |
| Pda.PdaSession.NextQuestion | quiz.py:359-362 | the index grows by exactly 1, the selection is cleared, the score and deck are unchanged |
| Pda.PdaSession.Results | quiz.py:401-414 | score ≤ total = 20, percent·20 = 100·score, tier by the 80/60 thresholds stated as integer inequalities |
| Scenarios.PerfectRun | quiz.py:299-357 | a user who always selects the correct option ends on the results screen with score = number of questions and the mastery tier |
| Scenarios.ThreeOfFive | quiz.py:208-382 | with a bank of 5, a 3-question session answered correctly ends at 3/3, 100%, mastery |

## Left out

- All tkinter widgets, styling constants, canvas redrawing, the status bar and message boxes. They are presentation only. The one piece of widget state that matters, which buttons are showing, is modelled as `Screen`.
- `load_data_from_json`: file I/O and JSON decoding. Both banks are given to the constructors as sequences.
- `show_random_tip`: one random choice of a tip to display, with no session state.
- The random generator behind `random.sample`. A draw is any choice of distinct positions, not a uniform one.
- Floating-point percentages and their one-decimal formatting. The percentage is the exact rational value, and the tiers are stated as integer inequalities.
- The `tk.TclError` path for a non-numeric sample size. The size is an `int` parameter.
- Malformed question records. A general answer key outside -len(options)..len(options)-1, a PDA option letter outside A–D, or a PDA answer key that is not an option makes the source fail with an IndexError or a KeyError. The constructors require banks without such records. A negative general key from -len(options) to -1 does not fail: it is never scored correct, and the feedback shows the option it indexes from the end. The model keeps that behaviour. A question with no options cannot be answered at all: no radio button is drawn, so Submit only ever warns and the session never ends. Such records, general or PDA, are excluded too.
