/**
  The counter bookkeeping of a game session in game.js: `startGame`,
  `nextProblem`, `showHint` / `resetHints` and `checkAnswer`, with the DOM,
  sound and speech effects removed. The session is an immutable value threaded
  through the transitions.

  The source advances to the next problem from a timer that `checkAnswer`
  schedules; here that timer is the `pendingAdvance` flag and the advance is
  an explicit `NextProblem` step.
 */
module Session {
  import opened Problems
  import opened Hints
  import opened HintText

  /** `state.totalQuestions`, never changed. */
  const TotalQuestions: nat := 10

  /** `hintPenalty`: base points by the number of hints revealed. */
  const HintPenalty: seq<int> := [10, 7, 5, 3]

  datatype Option<T> = None | Some(value: T)

  datatype SessionState = SessionState(
    mode: Mode,
    difficulty: Difficulty,
    current: Option<Problem>,   // `currentProblem`, null before the first problem
    score: int,
    streak: nat,
    bestStreak: nat,
    questionNumber: nat,
    correctAnswers: nat,
    attempts: nat,              // attempts on the current problem
    hintStep: nat,              // hints revealed so far
    hintSteps: seq<string>,     // the current problem's hints
    pendingAdvance: bool)       // a `nextProblem` timer has been scheduled

  /** The initial `state` object. */
  const Initial := SessionState(Addition, Easy, None, 0, 0, 0, 0, 0, 0, 0, [], false)

  /** A problem as `generateProblem` produces it. */
  predicate WellFormed(p: Problem) {
    && p.kind != Mixed
    && 1 <= p.a && 1 <= p.b
    && (p.kind == Addition ==> p.operator == '+' && p.answer == p.a + p.b)
    && (p.kind == Subtraction ==> p.operator == '−' && p.answer == p.a - p.b && p.b <= p.a)
  }

  /** What every transition keeps true. */
  predicate Inv(s: SessionState) {
    && s.streak <= s.bestStreak
    && s.hintStep <= |s.hintSteps|
    && s.correctAnswers <= s.score <= 10 * s.correctAnswers
    && s.questionNumber <= TotalQuestions
    && (s.current.Some? ==>
          && WellFormed(s.current.value)
          && s.hintSteps == GetHints(s.current.value)
          && s.questionNumber >= 1)
    && (s.current.None? ==> s.hintSteps == [] && s.hintStep == 0)
  }

  /** Each question is counted as answered correctly at most once: while the
      current problem still waits for its answer it has not been counted. */
  predicate Consistent(s: SessionState) {
    && s.correctAnswers <= s.questionNumber
    && (s.current.Some? && !s.pendingAdvance ==> s.correctAnswers < s.questionNumber)
  }

  lemma InitialSatisfiesInvariants()
    ensures Inv(Initial) && Consistent(Initial)
  {
  }

  /** Points for a correct answer: the hint-penalty entry for the hints
      revealed, halved (rounded down, at least 1) after the first attempt. */
  function Points(hintStep: nat, attempts: nat): (p: int)
    requires attempts >= 1
    ensures 1 <= p <= 10
  {
    var base := HintPenalty[Min(hintStep, |HintPenalty| - 1)];
    if attempts == 1 then base else Max(base / 2, 1)
  }

  /** The full schedule: 10, 7, 5, 3 on the first attempt and 5, 3, 2, 1 later. */
  lemma PointsSchedule(h: nat, k: nat)
    requires k >= 1
    ensures k == 1 ==> Points(h, k) == (if h == 0 then 10 else if h == 1 then 7 else if h == 2 then 5 else 3)
    ensures k > 1 ==> Points(h, k) == (if h == 0 then 5 else if h == 1 then 3 else if h == 2 then 2 else 1)
  {
  }

  /** More hints or more attempts never earn more points. */
  lemma PointsNeverIncrease(h1: nat, h2: nat, k1: nat, k2: nat)
    requires h1 <= h2 && 1 <= k1 <= k2
    ensures Points(h2, k2) <= Points(h1, k1)
  {
  }

  /** `nextProblem`: after the last question the results are shown and the
      session is left as it is; otherwise a fresh problem with fresh hints. */
  function NextProblem(s: SessionState, d: Draws): (r: SessionState)
    requires DrawsFit(s.mode, s.difficulty, d)
    ensures r.mode == s.mode && r.difficulty == s.difficulty
    ensures s.questionNumber >= TotalQuestions ==> r == s
    ensures s.questionNumber < TotalQuestions ==>
              && r.questionNumber == s.questionNumber + 1
              && r.current == Some(GenerateProblem(s.mode, s.difficulty, d))
              && r.hintSteps == GetHints(r.current.value)
              && r.attempts == 0 && r.hintStep == 0 && !r.pendingAdvance
              && r.score == s.score && r.streak == s.streak && r.bestStreak == s.bestStreak
              && r.correctAnswers == s.correctAnswers
    ensures Inv(s) ==> Inv(r)
    ensures Consistent(s) ==> Consistent(r)
  {
    if s.questionNumber >= TotalQuestions then s
    else
      var p := GenerateProblem(s.mode, s.difficulty, d);
      s.(questionNumber := s.questionNumber + 1,
         attempts := 0,
         current := Some(p),
         hintSteps := GetHints(p),
         hintStep := 0,
         pendingAdvance := false)
  }

  /** `setDifficulty(diff)`: the tier the next generated problem is drawn from;
      nothing else in the session changes. */
  function SetDifficulty(s: SessionState, level: Difficulty): (r: SessionState)
    ensures r.difficulty == level
    ensures r.(difficulty := s.difficulty) == s
    ensures Inv(s) ==> Inv(r)
    ensures Consistent(s) ==> Consistent(r)
  {
    s.(difficulty := level)
  }

  /** `startGame(mode)`: reset the counters, then `nextProblem`. */
  function Start(s: SessionState, mode: Mode, d: Draws): (r: SessionState)
    requires DrawsFit(mode, s.difficulty, d)
    ensures r.mode == mode && r.difficulty == s.difficulty
    ensures r.score == 0 && r.streak == 0 && r.bestStreak == 0 && r.correctAnswers == 0
    ensures r.questionNumber == 1 && r.attempts == 0 && r.hintStep == 0
    ensures r.current == Some(GenerateProblem(mode, s.difficulty, d)) && !r.pendingAdvance
    ensures r.current.Some? && WellFormed(r.current.value)
    ensures mode != Mixed ==> r.current.value.kind == mode
    ensures Inv(r) && Consistent(r)
  {
    var reset := s.(mode := mode, score := 0, streak := 0, bestStreak := 0,
                    questionNumber := 0, correctAnswers := 0);
    NextProblem(reset, d)
  }

  /** Starting over forgets everything but the difficulty: replaying the same
      start from any two sessions gives the same session. */
  lemma StartForgetsHistory(s1: SessionState, s2: SessionState, mode: Mode, d: Draws)
    requires s1.difficulty == s2.difficulty
    requires DrawsFit(mode, s1.difficulty, d)
    ensures Start(s1, mode, d) == Start(s2, mode, d)
  {
  }

  /** `showHint`: reveal the next hint, nothing once they are all shown. */
  function RevealHint(s: SessionState): (r: SessionState)
    ensures s.hintStep >= |s.hintSteps| ==> r == s
    ensures s.hintStep < |s.hintSteps| ==> r == s.(hintStep := s.hintStep + 1)
    ensures Inv(s) ==> Inv(r)
    ensures Consistent(s) ==> Consistent(r)
  {
    if s.hintStep >= |s.hintSteps| then s else s.(hintStep := s.hintStep + 1)
  }

  /** `n` presses of the hint button. */
  function RevealTimes(s: SessionState, n: nat): SessionState
    decreases n
  {
    if n == 0 then s else RevealTimes(RevealHint(s), n - 1)
  }

  /** From any hint step within the list, n presses reveal min(step + n, |hints|)
      hints in all and leave the list itself unchanged. */
  lemma {:induction false} RevealTimesCount(s: SessionState, n: nat)
    requires s.hintStep <= |s.hintSteps|
    ensures RevealTimes(s, n).hintStep == Min(s.hintStep + n, |s.hintSteps|)
    ensures RevealTimes(s, n).hintSteps == s.hintSteps
    decreases n
  {
    if n > 0 {
      RevealTimesCount(RevealHint(s), n - 1);
    }
  }

  /** What one `checkAnswer` does to the counters, and whether it schedules the advance. */
  datatype Submission = Submission(state: SessionState, correct: bool, points: int, advance: bool)

  /** `checkAnswer` with a numeric answer, as written: it is judged even when an
      advance is already pending. */
  function Submit(s: SessionState, answer: int): (r: Submission)
    requires s.current.Some?
    ensures r.correct <==> answer == s.current.value.answer
    ensures r.state.attempts == s.attempts + 1
    ensures r.correct ==>
              && r.points == Points(s.hintStep, s.attempts + 1)
              && 1 <= r.points <= 10
              && r.state.score == s.score + r.points
              && r.state.streak == s.streak + 1
              && r.state.bestStreak == Max(s.bestStreak, s.streak + 1)
              && r.state.correctAnswers == s.correctAnswers + 1
    ensures !r.correct ==>
              && r.points == 0
              && r.state.score == s.score
              && r.state.streak == 0
              && r.state.bestStreak == s.bestStreak
              && r.state.correctAnswers == s.correctAnswers
    ensures r.advance <==> r.correct || s.attempts + 1 >= 3
    ensures r.state.pendingAdvance == (s.pendingAdvance || r.advance)
    ensures r.state.questionNumber == s.questionNumber && r.state.current == s.current
    ensures r.state.hintStep == s.hintStep && r.state.hintSteps == s.hintSteps
    ensures r.state.mode == s.mode && r.state.difficulty == s.difficulty
    ensures Inv(s) ==> Inv(r.state)
  {
    var attempts := s.attempts + 1;
    if answer == s.current.value.answer then
      var points := Points(s.hintStep, attempts);
      var streak := s.streak + 1;
      var best := if streak > s.bestStreak then streak else s.bestStreak;
      var t := s.(attempts := attempts, score := s.score + points, streak := streak,
                  correctAnswers := s.correctAnswers + 1, bestStreak := best,
                  pendingAdvance := true);
      Submission(t, true, points, true)
    else
      var advance := attempts >= 3;
      var t := s.(attempts := attempts, streak := 0,
                  pendingAdvance := s.pendingAdvance || advance);
      Submission(t, false, 0, advance)
  }

  /** As written, submitting the right answer twice before the advance counts
      the same problem twice: after all earlier questions were answered
      correctly, the count passes the number of questions. */
  lemma DoubleSubmitCountsTwice(s: SessionState)
    requires s.current.Some? && Consistent(s) && !s.pendingAdvance
    requires s.correctAnswers + 1 == s.questionNumber
    ensures var answer := s.current.value.answer;
            var twice := Submit(Submit(s, answer).state, answer).state;
            twice.correctAnswers == s.questionNumber + 1 && !Consistent(twice)
  {
  }

  /** The concrete case: Enter pressed twice on question 10 of 10 after nine
      correct answers leaves 11 correct answers out of 10. */
  lemma LastQuestionCountedTwice()
    ensures var s := SessionState(Addition, Easy, Some(Problem(2, 3, 5, '+', Addition)),
                                  90, 9, 9, 10, 9, 0, 0, GetHints(Problem(2, 3, 5, '+', Addition)), false);
            Submit(Submit(s, 5).state, 5).state.correctAnswers == TotalQuestions + 1
  {
  }

  /** `checkAnswer` as evidently intended: a submission while the advance is
      pending is ignored, so each question is judged correct at most once. */
  function SubmitOnce(s: SessionState, answer: int): (r: Submission)
    requires s.current.Some?
    ensures s.pendingAdvance ==> r.state == s && r.points == 0 && !r.correct && !r.advance
    ensures !s.pendingAdvance ==> r == Submit(s, answer)
    ensures Inv(s) ==> Inv(r.state)
    ensures Consistent(s) ==> Consistent(r.state)
  {
    if s.pendingAdvance then Submission(s, false, 0, false) else Submit(s, answer)
  }

  /** With the guard, the same double submission counts the problem once. */
  lemma SubmitOnceCountsOnce(s: SessionState)
    requires s.current.Some? && !s.pendingAdvance
    ensures var answer := s.current.value.answer;
            var twice := SubmitOnce(SubmitOnce(s, answer).state, answer).state;
            twice.correctAnswers == s.correctAnswers + 1
  {
  }

  /** The user and timer events of a session. */
  datatype Event =
    | ChooseDifficulty(level: Difficulty)
    | StartGame(mode: Mode, draws: Draws)
    | Advance(draws: Draws)
    | AskHint
    | Answer(value: int)

  /** The event can happen in this state: draws are values the random helpers
      can return, and answers come only once a problem is shown. */
  predicate Fits(s: SessionState, e: Event) {
    match e
    case ChooseDifficulty(_) => true
    case StartGame(mode, d) => DrawsFit(mode, s.difficulty, d)
    case Advance(d) => DrawsFit(s.mode, s.difficulty, d)
    case AskHint => true
    case Answer(_) => s.current.Some?
  }

  /** One event; an event that cannot happen in this state leaves it unchanged.
      Answers go through the corrected `SubmitOnce`, not the as-written `Submit`. */
  function Step(s: SessionState, e: Event): (r: SessionState)
    ensures !Fits(s, e) ==> r == s
    ensures Inv(s) ==> Inv(r)
    ensures Inv(s) && Consistent(s) ==> Consistent(r)
  {
    if !Fits(s, e) then s
    else
      match e
      case ChooseDifficulty(level) => SetDifficulty(s, level)
      case StartGame(mode, d) => Start(s, mode, d)
      case Advance(d) => NextProblem(s, d)
      case AskHint => RevealHint(s)
      case Answer(v) => SubmitOnce(s, v).state
  }

  function Run(s: SessionState, events: seq<Event>): SessionState
    decreases |events|
  {
    if |events| == 0 then s else Run(Step(s, events[0]), events[1..])
  }

  /** Every run of the corrected session (answers through `SubmitOnce`, see
      `Step`) keeps the invariants: streak never above the best streak, a
      score between 1 and 10 points per correct answer, well-formed problems,
      hints revealed within the ladder, and at most one correct answer per
      question, so never more correct answers than questions. */
  lemma {:induction false} RunKeepsInvariants(s: SessionState, events: seq<Event>)
    requires Inv(s) && Consistent(s)
    ensures Inv(Run(s, events)) && Consistent(Run(s, events))
    ensures Run(s, events).correctAnswers <= TotalQuestions
    decreases |events|
  {
    if |events| > 0 {
      RunKeepsInvariants(Step(s, events[0]), events[1..]);
    }
  }

  /** Replaying the same events after a start reproduces the same session,
      whatever came before. */
  lemma ReplayAfterStart(s1: SessionState, s2: SessionState, mode: Mode, d: Draws, events: seq<Event>)
    requires s1.difficulty == s2.difficulty
    requires DrawsFit(mode, s1.difficulty, d)
    ensures Run(s1, [StartGame(mode, d)] + events) == Run(s2, [StartGame(mode, d)] + events)
  {
    var evs := [StartGame(mode, d)] + events;
    assert evs[1..] == events;
    StartForgetsHistory(s1, s2, mode, d);
  }
}
