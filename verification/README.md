# Arithmetic practice game: generator, hint selector and scoring, in Dafny

A Dafny model of the logic in `game.js` of a browser arithmetic-practice game
for young learners. Everything that draws on the screen, plays sounds or
speaks has been removed. Three parts remain:

- **Problem generator** (`Problems`). This covers `RANGES`, the
  confidence-building pattern catalogue `CONFIDENCE_PATTERNS`, and
  `generateProblem`. Every random outcome is an explicit value in a `Draws`
  record. `DrawsFit` lists what `randomInt`, `randomChoice` and
  `Math.random() < p` can return on the path that uses each draw. `Random`
  models `randomInt`/`randomChoice` over an exact real `u` in [0, 1). It
  proves that each draw lies in its closed range, and that every value of
  that range can be drawn.
- **Hint strategy selector** (`Hints`, `HintText`).
  - `getAdditionHints` and `getSubtractionHints` become a classification of
    the operand pair (`ClassifyAddition`, `ClassifySubtraction`). The result
    is a tagged strategy together with the intermediate numbers its hint
    shows.
  - The contract has three parts. (1) The chosen branch is the first one, in
    source order, whose guard holds. (2) Those numbers agree with the exact
    sum or difference. (3) The cascades are total over all pairs of exact
    integers. JavaScript numbers are doubles; on the game's values (operands
    at most 99, results at most 198) double arithmetic is exact, so the two
    agree there.
  - `HintText` renders the exact strings of the source. `Decimal` prints
    numbers as `${n}` prints an integer of magnitude below 10^21, negative
    values included.
- **Session bookkeeping** (`Session`).
  - `SessionState` is an immutable record holding score, streak, best
    streak, question number, correct answers, attempts, hint step, hint list
    and current problem.
  - It is threaded through `Start`, `NextProblem`, `RevealHint` and `Submit`.
  - The source advances to the next problem on a timer. Here that timer is
    the `pendingAdvance` flag, and the advance is an explicit `NextProblem`
    step.

`game.js` has no two-digit carry/borrow hint branches, no Hard-tier draw
of one wide operand and one single-digit operand, no reward-currency ledger
and no visual aids, so the model has none either. The
source comment at game.js:623 speaks of a 50% chance. The code tosses a
coin (0.6 on Easy, 0.3 on Medium) and never takes the confidence path on
Hard; the model follows the code in which tiers can take that path, and
leaves the odds themselves out.

## Model

| member | source | states |
|---|---|---|
| `Decimal.NatToString` | game.js:396-399 | the text printed for a non-negative number is a non-empty digit string without leading zeros that denotes exactly that number |
| `Decimal.NatTextRoundTrip` | game.js:396-399 | every canonical digit string is the printed text of the number it denotes, so printing is a bijection onto canonical texts |
| `Decimal.IntToStringCorrect` | game.js:447-451 | a printed integer is canonical, starts with '-' exactly when it is negative (as `${a - 10}` is for a = 9), and denotes the integer |
| `Decimal.IntTextRoundTrip` | game.js:447-451 | every well-formed integer text is the printed text of the integer it denotes |
| `Random.RandomInt` | game.js:224-226 | `randomInt(min, max)` returns a value in the closed range [min, max] whenever min <= max |
| `Random.RandomIntReaches` | game.js:224-226 | every value of [min, max] is returned for some `Math.random()` value in [0, 1), so a draw can be any value of the range |
| `Random.RandomChoice` | game.js:228-230 | `randomChoice` returns an element of its non-empty array |
| `Random.RandomChoiceReaches` | game.js:228-230 | every element of the array can be chosen |
| `Problems.ResolveMode` | game.js:617-619 | the problem type is never 'mixed'; a fixed mode is kept; mixed becomes addition exactly when the coin comes up below 0.5 |
| `Problems.UseConfidence` | game.js:624-625 | the confidence path is taken only when its coin comes up, always then on Easy and Medium, and never on Hard |
| `Problems.ConfidenceProblem` | game.js:627-640 | a confidence-path problem keeps the resolved type |
| `Problems.GenerateProblem` | game.js:613-658 | type is addition or subtraction, following a fixed mode; answer is a + b with '+' or a − b with '−'; subtraction has a >= b and a non-negative answer; operands are at least 1 and at most the range maximum on the range path; on the confidence path b <= 10 and a <= 10 (addition) or 18 (subtraction); Easy additions never exceed 20 |
| `Problems.HardUsesRangeOnly` | game.js:624-625 | Hard never takes the confidence path, so both operands lie in [1, 99] |
| `Problems.SubtractionPatternsOrdered` | game.js:599-610 | every subtraction pattern yields a >= b for each of its draws, so the swap at game.js:637 never changes the problem |
| `Problems.EasyRedrawUnreachable` | game.js:641-646 | on Easy the redraw guard a + b > 20 never holds on the range path, and the problem does not depend on the redrawn value |
| `Hints.TensOnesSplit` | game.js:383-384 | when `Math.floor(b / 10) * 10` is positive, b is that multiple of ten plus its ones digit in [0, 9] |
| `Hints.AdditionBranch` | game.js:243-400 | the branch `getAdditionHints` returns from is one whose guard holds, and no branch before it in source order has a guard that holds |
| `Hints.AdditionStrategy` | game.js:296-399 | each branch's numbers agree with a + b: near doubles 2·min(a, b) + 1 or + 2, make ten 10 + leftover, break apart bTens + bOnes = b and step1 + bOnes, count-up larger + smaller |
| `Hints.ClassifyAddition` | game.js:243-400 | total over all pairs of exact integers (the game's own values are at most 198): the first branch whose guard holds wins, and every number the hint shows agrees with the sum |
| `Hints.AdditionPrecedence` | game.js:259-349 | (9,9) is a double; (9,1), (1,9) and (1,1) are plus-1 rather than make-ten or doubles; (2,2) is plus-2; (10,5) is add-10; (25,13) breaks 13 apart; (25,7) falls back to counting up |
| `Hints.BreakApartWhenNoEarlierRule` | game.js:381-393 | once no earlier rule applies and an operand exceeds 10, break apart is chosen exactly when b has both a tens and a ones digit |
| `Hints.EightLeftoverNeverNegative` | game.js:331-341 | for non-negative operands containing an 8, the `leftover >= 0` test never fails: the pair is settled at the make-ten-with-8 branch or earlier |
| `Hints.EightLeftoverNegativeOperand` | game.js:331-369 | for the negative operand pair (8, -1) the leftover test fails and the pair falls through to counting on |
| `Hints.CountOnOnlyForThree` | game.js:357-379 | for non-negative operands the count-on branches only ever count on by exactly 3 |
| `Hints.SubtractionBranch` | game.js:402-503 | the branch `getSubtractionHints` returns from is one whose guard holds, and no branch before it in source order has a guard that holds |
| `Hints.SubtractionStrategy` | game.js:437-502 | each branch's numbers agree with a − b: ten facts b + answer = 10, near ten (a − 10) + 1 or + 2, think addition b + answer = a, break apart bTens + bOnes = b and step1 − bOnes |
| `Hints.ClassifySubtraction` | game.js:402-503 | total over all pairs of exact integers (the game's own values are at most 198): the first branch whose guard holds wins, and every number the hint shows agrees with the difference |
| `Hints.SubtractionPrecedence` | game.js:411-461 | minus-itself precedes minus-1, so (1,1) gives the 0 explanation; a minuend of 10 gives ten facts before near ten for 9 and 8 |
| `Hints.NearTenIntermediateSign` | game.js:445-461 | for 0 <= b <= a, the shown a − 10 is negative exactly when a = 9 when subtracting 8, and at least 1 when subtracting 9 |
| `Hints.NineMinusEightShowsNegative` | game.js:454-461 | 9 − 8 gets the near-ten hint whose intermediate is −1 |
| `Hints.CountBackOnlyForThree` | game.js:463-473 | for a non-negative subtrahend the count-back branch only ever counts back exactly 3 |
| `HintText.RenderAddition` | game.js:243-400 | an addition strategy renders to as many steps as it has, 3 for doubles, near doubles, make ten and break apart and 2 otherwise |
| `HintText.RenderSubtraction` | game.js:402-503 | a subtraction strategy renders to as many steps as it has, 3 for minus itself, ten facts, near ten, think addition and break apart and 2 otherwise |
| `HintText.AdditionHints` | game.js:243-400 | `getAdditionHints` returns 2 or 3 steps for every integer input, as many as the selected strategy has |
| `HintText.SubtractionHints` | game.js:402-503 | `getSubtractionHints` returns 2 or 3 steps for every integer input, as many as the selected strategy has |
| `HintText.GetHints` | game.js:233-241 | `getHints` returns 2 or 3 steps; additions use the addition cascade and every other type the subtraction cascade |
| `HintText.CountingUpThree` | game.js:358-367 | counting on by 3 lists the next three numbers separated by "... " and ends with "!" |
| `HintText.CountingDownThree` | game.js:464-472 | counting back by 3 lists the previous three numbers separated by "... " and ends with "!" |
| `HintText.CountOnTextEndsOnSum` | game.js:357-379 | for non-negative operands the count-on hint's second step counts three numbers up from the other operand and ends on the sum |
| `HintText.CountBackTextEndsOnDifference` | game.js:463-473 | for a non-negative subtrahend the count-back hint's second step counts three numbers down from a and ends on the difference |
| `Session.InitialSatisfiesInvariants` | game.js:2-15 | the initial state satisfies the session invariants |
| `Session.Points` | game.js:716-718 | points for a correct answer always lie in [1, 10] |
| `Session.PointsSchedule` | game.js:716-718 | first attempt earns 10, 7, 5, 3 for 0, 1, 2, 3+ hints; later attempts earn 5, 3, 2, 1 |
| `Session.PointsNeverIncrease` | game.js:716-718 | more hints or more attempts never earn more points |
| `Session.NextProblem` | game.js:661-671 | after the last question the session is unchanged; otherwise the question number goes up by one, a generated problem whose hint list is `getHints` of it, with attempts, hint step and pending advance cleared; mode, difficulty and counters kept; invariants preserved |
| `Session.Start` | game.js:562-578 | starting zeroes score, streaks and correct answers, clears any pending advance, shows as question 1 the problem `generateProblem` builds from the draws for the chosen mode and the kept difficulty (well-formed, of the chosen mode when not mixed), and establishes the invariants from any state |
| `Session.StartForgetsHistory` | game.js:562-578 | starting from any two sessions with the same difficulty gives the same session |
| `Session.RevealHint` | game.js:506-523 | revealing a hint is a no-op once every hint is shown and otherwise advances the hint step by exactly 1; the invariants are preserved |
| `Session.RevealTimesCount` | game.js:506-523 | n presses reveal min(step + n, number of hints) hints and never change the hint list |
| `Session.Submit` | game.js:712-756 | a submission is correct exactly when it equals the answer, and always counts one attempt. A correct one awards points in [1, 10], raises streak and correct answers by one, and makes the best streak the running maximum. A wrong one resets the streak and changes no score. The advance is scheduled on a correct answer or on the third or a later wrong attempt. Question, problem, hints, mode and difficulty are unchanged. The invariants are preserved |
| `Session.DoubleSubmitCountsTwice` | game.js:712-750 | as written, the correct answer submitted twice before the advance is counted twice, which breaks the one-correct-answer-per-question invariant |
| `Session.LastQuestionCountedTwice` | game.js:712-750 | double submission on question 10 after nine correct answers leaves 11 correct answers out of 10 |
| `Session.SubmitOnce` | game.js:712-775 | with the advance pending a submission changes nothing; otherwise it is `Submit`; it keeps at most one correct answer per question |
| `Session.SubmitOnceCountsOnce` | game.js:712-750 | with the guard, a double submission of the correct answer counts once |
| `Session.RunKeepsInvariants` | game.js:506-775 | with answers judged by the corrected `SubmitOnce` (see "## Findings"; as written, `DoubleSubmitCountsTwice` breaks the bound), every sequence of difficulty, start, advance, hint and answer events keeps streak <= best streak, a score between 1 and 10 points per correct answer, hint steps within the list, well-formed problems, and correct answers <= questions <= 10 |
| `Session.SetDifficulty` | game.js:553-559 | choosing a tier sets the difficulty the next problems are drawn from and changes nothing else; the invariants are kept |
| `Session.Step` | game.js:553-775 | one difficulty choice, start, advance, hint or answer event keeps the invariants, with answers judged by the corrected `SubmitOnce` rather than the as-written `Submit`; an event that cannot occur in the state (draws outside the helpers' ranges, an answer before any problem) leaves the session unchanged |
| `Session.ReplayAfterStart` | game.js:562-578 | replaying the same events after a start gives the same final session, whatever the earlier state |

## Findings

| source | as written | input that shows it | evidently intended | confidence | as-written member | corrected member |
|---|---|---|---|---|---|---|
| game.js:712-750 | `checkAnswer` judges every submission. This holds even after a correct answer (or a third wrong one) has scheduled the move to the next problem, and the input still holds the answer until then. | On question 10, after nine correct answers, the correct answer is submitted twice within the 1.2 s delay. This gives 11 correct answers out of 10. | Each question is judged correct at most once, and submissions wait for the next problem. | medium, not executed | `Session.DoubleSubmitCountsTwice` | `Session.SubmitOnce` |

## Left out

- Sound effects (game.js:48-104) and text-to-speech with voice ranking (game.js:106-221) are left out. They are browser APIs with no game logic.
- Screens, DOM updates, the number pad, keyboard handling and the button highlighting of `setDifficulty` (game.js:547-559, 673-695, 778-846) are left out. They are presentation only; the difficulty write at game.js:555 is `SetDifficulty`. `playAgain` is `Start` with the current mode.
- The parsing of the typed answer (`parseInt`/`isNaN`, game.js:700-709) is left out. `Submit` takes the answer as an integer. A non-numeric entry changes nothing in the source.
- The timers (game.js:748-750, 762-773) are left out. They become the `pendingAdvance` flag and an explicit `NextProblem` step. A timer still pending when a new game starts is not modelled.
- The results screen is left out: percentage, title, star rating and confetti (game.js:860-972). It is floating-point display only.
- Encouragement messages, floating stars and the fixed '+10'/'+5' feedback text (game.js:25-45, 729-742, 812-823) are left out. They are display only. The feedback text does not show the points actually awarded.
- Session.Step: an event that cannot occur in the state is treated as ignored rather than excluded by a precondition, so that a run is defined for every event sequence.
- `Session.Submit` requires a current problem. The source would fail on a null problem, and the UI only offers answering after a problem is shown.
- Problems.UseConfidence: the coin biases (0.6 on Easy, 0.3 on Medium, 0.5 for mixed mode) are not modelled. Only which outcomes are possible is modelled.
- Decimal.IntToString and Hints: JavaScript numbers are doubles, while the model uses exact unbounded integers. Beyond 2^53, `a + b`, `a === b` and `Math.floor(b / 10)` stop being exact, and `${n}` prints 10^21 and above in exponent notation ("1e+21"). The model does not follow either. The game's operands are at most 99 and its sums at most 198, where doubles are exact and print as plain digits.
- Random.RandomInt: `Math.random()` is an exact real in [0, 1). Floating-point rounding of the product is not modelled.
- Problems.GenerateProblem: on the confidence path the contract states bounds common to all patterns (b <= 10, a <= 10 or 18). It does not state each pattern's own range.
- Problems.ConfidenceProblem: its contract only keeps the type. Its operand and answer guarantees are stated by `GenerateProblem` and `SubtractionPatternsOrdered`.
