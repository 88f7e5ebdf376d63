/**
  Problem generation of game.js: the difficulty ranges, the confidence-building
  pattern catalogue and `generateProblem`. Every random draw is an explicit
  value in a `Draws` record; `DrawsFit` says which values `randomInt`,
  `randomChoice` and `Math.random() < p` can produce on the path the draws
  are used on (see `Random.RandomIntReaches` for why any value of the closed
  range is possible).
 */
module Problems {

  /** `state.mode`; a generated problem's `type` uses the same values but is never `Mixed`. */
  datatype Mode = Addition | Subtraction | Mixed

  datatype Difficulty = Easy | Medium | Hard

  datatype Range = Range(min: int, max: int)

  /** `RANGES`. */
  function RangeOf(d: Difficulty): Range {
    match d
    case Easy => Range(1, 10)
    case Medium => Range(1, 50)
    case Hard => Range(1, 99)
  }

  /** One arithmetic fact; `kind` is the problem's `type`. */
  datatype Problem = Problem(a: int, b: int, answer: int, operator: char, kind: Mode)

  /** How a confidence pattern builds its operands from its one draw `n`. */
  datatype Shape =
    | Twin             // { a: n, b: n }
    | WithB(k: int)    // { a: n, b: k }
    | WithA(k: int)    // { a: k, b: n }
    | Predecessor      // { a: n, b: n - 1 }

  /** A confidence pattern: its draw is `randomInt(lo, hi)`. */
  datatype Pattern = Pattern(lo: int, hi: int, shape: Shape)

  datatype Operands = Operands(a: int, b: int)

  /** `CONFIDENCE_PATTERNS.addition`: doubles, plus 1, plus 2, 10 + X, near doubles, make 10 with 9. */
  const AdditionPatterns: seq<Pattern> := [
    Pattern(1, 10, Twin),
    Pattern(1, 9, WithB(1)),
    Pattern(1, 8, WithB(2)),
    Pattern(1, 9, WithA(10)),
    Pattern(2, 9, Predecessor),
    Pattern(1, 9, WithA(9))
  ]

  /** `CONFIDENCE_PATTERNS.subtraction`: minus 1, minus 2, minus itself, from 10, minus 9. */
  const SubtractionPatterns: seq<Pattern> := [
    Pattern(2, 10, WithB(1)),
    Pattern(3, 10, WithB(2)),
    Pattern(1, 10, Twin),
    Pattern(1, 9, WithA(10)),
    Pattern(10, 18, WithB(9))
  ]

  function PatternsFor(kind: Mode): seq<Pattern> {
    if kind == Addition then AdditionPatterns else SubtractionPatterns
  }

  /** The operands a pattern returns for its draw `n`. */
  function Apply(shape: Shape, n: int): Operands {
    match shape
    case Twin => Operands(n, n)
    case WithB(k) => Operands(n, k)
    case WithA(k) => Operands(k, n)
    case Predecessor => Operands(n, n - 1)
  }

  /** The `type` of the problem: `Mixed` is settled by `Math.random() < 0.5`,
      whose outcome is `heads`. */
  function ResolveMode(mode: Mode, heads: bool): (kind: Mode)
    ensures kind != Mixed
    ensures mode != Mixed ==> kind == mode
    ensures mode == Mixed ==> (kind == Addition <==> heads)
  {
    if mode == Mixed then (if heads then Addition else Subtraction) else mode
  }

  /** `useConfidence`: `coin` is the outcome of `Math.random() < 0.6` on Easy
      and of `Math.random() < 0.3` on Medium; Hard draws no coin. */
  function UseConfidence(d: Difficulty, coin: bool): (use: bool)
    ensures use ==> d != Hard
    ensures use ==> coin
    ensures coin && d != Hard ==> use
  {
    (d == Easy && coin) || (d == Medium && coin)
  }

  /** Every random outcome `generateProblem` may consume, in the order drawn. */
  datatype Draws = Draws(
    heads: bool,       // mixed mode: Math.random() < 0.5
    confident: bool,   // Math.random() < 0.6 (Easy) or < 0.3 (Medium)
    pattern: int,      // randomChoice(patterns), as an index
    n: int,            // the pattern's own randomInt draw
    first: int,        // a on the range path
    second: int,       // b on the range path
    redraw: int)       // b redrawn by the Easy-mode sum guard

  /** The upper end of the Easy-mode redraw: `10 - a > 0 ? 10 - a : range.min`. */
  function RedrawMax(r: Range, a: int): int {
    if 10 - a > 0 then 10 - a else r.min
  }

  /** The guard of the Easy-mode redraw. */
  predicate NeedsRedraw(d: Difficulty, a: int, b: int) {
    d == Easy && a + b > 20
  }

  /** The draws the random helpers can produce for this mode and difficulty,
      constrained only where `generateProblem` uses them. */
  predicate DrawsFit(mode: Mode, diff: Difficulty, d: Draws) {
    var kind := ResolveMode(mode, d.heads);
    var r := RangeOf(diff);
    if UseConfidence(diff, d.confident) then
      var ps := PatternsFor(kind);
      0 <= d.pattern < |ps| && ps[d.pattern].lo <= d.n <= ps[d.pattern].hi
    else if kind == Addition then
      && r.min <= d.first <= r.max
      && r.min <= d.second <= r.max
      && (NeedsRedraw(diff, d.first, d.second) ==> r.min <= d.redraw <= RedrawMax(r, d.first))
    else
      r.min <= d.first <= r.max && r.min <= d.second <= d.first
  }

  /** The confidence path: the pattern's operands, swapped for subtraction when `a < b`. */
  function ConfidenceProblem(kind: Mode, i: int, n: int): (p: Problem)
    requires kind != Mixed
    requires 0 <= i < |PatternsFor(kind)|
    ensures p.kind == kind
  {
    var ops := Apply(PatternsFor(kind)[i].shape, n);
    if kind == Addition then
      Problem(ops.a, ops.b, ops.a + ops.b, '+', Addition)
    else
      var a := if ops.a < ops.b then ops.b else ops.a;
      var b := if ops.a < ops.b then ops.a else ops.b;
      Problem(a, b, a - b, '−', Subtraction)
  }

  /** The range path for addition, with the Easy-mode redraw of `b`. */
  function RangeAddition(diff: Difficulty, a: int, b: int, redraw: int): Problem {
    var b' := if NeedsRedraw(diff, a, b) then redraw else b;
    Problem(a, b', a + b', '+', Addition)
  }

  /** The range path for subtraction: `b` was drawn from [range.min, a]. */
  function RangeSubtraction(a: int, b: int): Problem {
    Problem(a, b, a - b, '−', Subtraction)
  }

  /** `generateProblem`. */
  function GenerateProblem(mode: Mode, diff: Difficulty, d: Draws): (p: Problem)
    requires DrawsFit(mode, diff, d)
    ensures p.kind != Mixed
    ensures mode != Mixed ==> p.kind == mode
    ensures p.kind == Addition ==> p.operator == '+' && p.answer == p.a + p.b
    ensures p.kind == Subtraction ==> p.operator == '−' && p.answer == p.a - p.b
    ensures p.kind == Subtraction ==> p.b <= p.a && p.answer >= 0
    ensures 1 <= p.a && 1 <= p.b
    ensures !UseConfidence(diff, d.confident) ==>
              p.a <= RangeOf(diff).max && p.b <= RangeOf(diff).max
    ensures UseConfidence(diff, d.confident) ==>
              p.b <= 10 && p.a <= (if p.kind == Addition then 10 else 18)
    ensures diff == Easy && p.kind == Addition ==> p.answer <= 20
  {
    var kind := ResolveMode(mode, d.heads);
    if UseConfidence(diff, d.confident) then
      ConfidenceProblem(kind, d.pattern, d.n)
    else if kind == Addition then
      RangeAddition(diff, d.first, d.second, d.redraw)
    else
      RangeSubtraction(d.first, d.second)
  }

  /** Hard never takes the confidence path: its problems always come from [1, 99]. */
  lemma HardUsesRangeOnly(mode: Mode, d: Draws)
    requires DrawsFit(mode, Hard, d)
    ensures !UseConfidence(Hard, d.confident)
    ensures var p := GenerateProblem(mode, Hard, d);
            1 <= p.a <= 99 && 1 <= p.b <= 99
  {
  }

  /** The swap before a confidence subtraction never fires: every subtraction
      pattern already yields `a >= b`. */
  lemma SubtractionPatternsOrdered(i: int, n: int)
    requires 0 <= i < |SubtractionPatterns|
    requires SubtractionPatterns[i].lo <= n <= SubtractionPatterns[i].hi
    ensures var ops := Apply(SubtractionPatterns[i].shape, n);
            ops.b <= ops.a && ConfidenceProblem(Subtraction, i, n) ==
              Problem(ops.a, ops.b, ops.a - ops.b, '−', Subtraction)
  {
  }

  /** The Easy-mode redraw never happens: both operands come from [1, 10], so
      their sum is at most 20 and the redrawn value is never looked at. */
  lemma EasyRedrawUnreachable(mode: Mode, d: Draws, other: int)
    requires DrawsFit(mode, Easy, d)
    ensures !NeedsRedraw(Easy, d.first, d.second) || UseConfidence(Easy, d.confident)
    ensures DrawsFit(mode, Easy, d.(redraw := other))
    ensures GenerateProblem(mode, Easy, d) == GenerateProblem(mode, Easy, d.(redraw := other))
  {
  }
}
