/**
  The mental-math strategy selector of game.js (`getAdditionHints`,
  `getSubtractionHints`) as a classification of the operand pair.

  Each cascade is a fixed order of rules; the first rule whose guard holds
  wins. `AddRule`/`SubRule` name the rules, `AddRank`/`SubRank` give their
  order, `AddGuard`/`SubGuard` state each guard as the source tests it. The
  classifiers return the chosen strategy together with the intermediate
  numbers its hint text shows (`double`, `leftover`, `bTens`, `bOnes`,
  `step1`, `a - 10`), and promise that the chosen rule is the first one whose
  guard holds and that those numbers agree with the exact answer.

  The branch tests use only `a` and `b`; the `answer` argument of the source
  only appears in the rendered text (module HintText). Operands are exact,
  unbounded integers and the cascades are total; JavaScript numbers are
  doubles, which agree with them exactly on the game's values (at most 198).
 */
module Hints {

  function Abs(x: int): nat {
    if x < 0 then -x else x
  }

  function Min(x: int, y: int): int {
    if x <= y then x else y
  }

  function Max(x: int, y: int): int {
    if x <= y then y else x
  }

  /** `Math.floor(b / 10) * 10`. Dafny's `/` by a positive divisor rounds down
      for every sign of `b`, as `Math.floor` does. */
  function TensPart(b: int): int {
    (b / 10) * 10
  }

  /** `b % 10` in JavaScript: the remainder takes the sign of `b`. */
  function OnesPart(b: int): int {
    if b >= 0 then b % 10 else -((-b) % 10)
  }

  /** For a positive tens part, `b` splits into a multiple of ten and a ones digit. */
  lemma TensOnesSplit(b: int)
    requires TensPart(b) > 0
    ensures TensPart(b) + OnesPart(b) == b
    ensures TensPart(b) % 10 == 0 && TensPart(b) >= 10
    ensures 0 <= OnesPart(b) < 10
  {
  }

  /** Which operand a one-sided rule matched. */
  datatype Side = OnA | OnB

  /** The operand on the matched side, and the other one. */
  function Matched(side: Side, a: int, b: int): int {
    if side == OnA then a else b
  }

  function Other(side: Side, a: int, b: int): int {
    if side == OnA then b else a
  }

  // ---------------------------------------------------------------------------
  // Addition
  // ---------------------------------------------------------------------------

  /** The branches of `getAdditionHints`, in source order. */
  datatype AddRule =
    | ZeroB | ZeroA | OneB | OneA | TwoB | TwoA
    | Doubles | NearOne | NearTwo
    | NineMakesTen | EightMakesTen
    | TenA | TenB | SmallB | SmallA
    | BreakApartRule | CountUpRule

  function AddRank(q: AddRule): nat {
    match q
    case ZeroB => 0
    case ZeroA => 1
    case OneB => 2
    case OneA => 3
    case TwoB => 4
    case TwoA => 5
    case Doubles => 6
    case NearOne => 7
    case NearTwo => 8
    case NineMakesTen => 9
    case EightMakesTen => 10
    case TenA => 11
    case TenB => 12
    case SmallB => 13
    case SmallA => 14
    case BreakApartRule => 15
    case CountUpRule => 16
  }

  /** The condition under which a branch returns, as the source tests it. */
  predicate AddGuard(q: AddRule, a: int, b: int) {
    match q
    case ZeroB => b == 0
    case ZeroA => a == 0
    case OneB => b == 1
    case OneA => a == 1
    case TwoB => b == 2
    case TwoA => a == 2
    case Doubles => a == b
    case NearOne => Abs(a - b) == 1
    case NearTwo => Abs(a - b) == 2
    case NineMakesTen => a == 9 || b == 9
    case EightMakesTen => (a == 8 || b == 8) && (if a == 8 then b else a) - 2 >= 0
    case TenA => a == 10
    case TenB => b == 10
    case SmallB => b <= 3
    case SmallA => a <= 3
    case BreakApartRule => (a > 10 || b > 10) && TensPart(b) > 0 && OnesPart(b) > 0
    case CountUpRule => true
  }

  /** An addition strategy with the intermediate numbers its hint shows. */
  datatype AddHint =
    | AddZero(side: Side)
    | AddOne(side: Side)
    | AddTwo(side: Side)
    | Double
    | NearDouble(gap: int, smaller: int, bigger: int, double: int)
    | MakeTen(partner: int, other: int, leftover: int)
    | AddTen(side: Side)
    | CountOn(side: Side)
    | AddBreakApart(tens: int, ones: int, step1: int)
    | CountUp(larger: int, smaller: int)

  function AddRuleOf(h: AddHint): AddRule {
    match h
    case AddZero(s) => if s == OnB then ZeroB else ZeroA
    case AddOne(s) => if s == OnB then OneB else OneA
    case AddTwo(s) => if s == OnB then TwoB else TwoA
    case Double => Doubles
    case NearDouble(gap, _, _, _) => if gap == 1 then NearOne else NearTwo
    case MakeTen(partner, _, _) => if partner == 9 then NineMakesTen else EightMakesTen
    case AddTen(s) => if s == OnA then TenA else TenB
    case CountOn(s) => if s == OnB then SmallB else SmallA
    case AddBreakApart(_, _, _) => BreakApartRule
    case CountUp(_, _) => CountUpRule
  }

  /** How many hint steps a strategy has. */
  function AddStepCount(h: AddHint): nat {
    match h
    case Double => 3
    case NearDouble(_, _, _, _) => 3
    case MakeTen(_, _, _) => 3
    case AddBreakApart(_, _, _) => 3
    case _ => 2
  }

  /** The equations a strategy's hint asserts, all true of the sum `a + b`. */
  predicate AddAgrees(h: AddHint, a: int, b: int) {
    var sum := a + b;
    match h
    case AddZero(s) => Matched(s, a, b) == 0 && Other(s, a, b) == sum
    case AddOne(s) => Matched(s, a, b) == 1 && Other(s, a, b) + 1 == sum
    case AddTwo(s) => Matched(s, a, b) == 2 && Other(s, a, b) + 2 == sum
    case Double => a + a == sum
    case NearDouble(gap, smaller, bigger, double) =>
      && smaller == Min(a, b) && bigger == Max(a, b)
      && double == smaller + smaller && bigger == smaller + gap
      && double + gap == sum
    case MakeTen(partner, other, leftover) =>
      && (partner == 9 || partner == 8)
      && partner + other == sum
      && leftover == other - (10 - partner)
      && 10 + leftover == sum
    case AddTen(s) => Matched(s, a, b) == 10 && 10 + Other(s, a, b) == sum
    case CountOn(s) => Matched(s, a, b) <= 3 && Other(s, a, b) + Matched(s, a, b) == sum
    case AddBreakApart(tens, ones, step1) =>
      && tens + ones == b
      && tens % 10 == 0 && 0 < ones < 10
      && step1 == a + tens
      && step1 + ones == sum
    case CountUp(larger, smaller) =>
      larger == Max(a, b) && smaller == Min(a, b) && larger + smaller == sum
  }

  /** The cascade of `getAdditionHints`: the branch that returns for (a, b). */
  function AdditionBranch(a: int, b: int): (q: AddRule)
    ensures AddGuard(q, a, b)
    ensures forall p :: AddRank(p) < AddRank(q) ==> !AddGuard(p, a, b)
  {
    if b == 0 then ZeroB
    else if a == 0 then ZeroA
    else if b == 1 then OneB
    else if a == 1 then OneA
    else if b == 2 then TwoB
    else if a == 2 then TwoA
    else if a == b then Doubles
    else if Abs(a - b) == 1 then NearOne
    else if Abs(a - b) == 2 then NearTwo
    else if a == 9 || b == 9 then NineMakesTen
    else if (a == 8 || b == 8) && (if a == 8 then b else a) - 2 >= 0 then EightMakesTen
    else if a == 10 then TenA
    else if b == 10 then TenB
    else if b <= 3 then SmallB
    else if a <= 3 then SmallA
    else if (a > 10 || b > 10) && TensPart(b) > 0 && OnesPart(b) > 0 then BreakApartRule
    else CountUpRule
  }

  /** The intermediate numbers a branch computes once its guard holds. */
  function AdditionStrategy(q: AddRule, a: int, b: int): (h: AddHint)
    requires AddGuard(q, a, b)
    ensures AddRuleOf(h) == q
    ensures AddAgrees(h, a, b)
  {
    match q
    case ZeroB => AddZero(OnB)
    case ZeroA => AddZero(OnA)
    case OneB => AddOne(OnB)
    case OneA => AddOne(OnA)
    case TwoB => AddTwo(OnB)
    case TwoA => AddTwo(OnA)
    case Doubles => Double
    case NearOne => NearDouble(1, Min(a, b), Max(a, b), Min(a, b) * 2)
    case NearTwo => NearDouble(2, Min(a, b), Max(a, b), Min(a, b) * 2)
    case NineMakesTen =>
      var other := if a == 9 then b else a;
      MakeTen(9, other, other - 1)
    case EightMakesTen =>
      var other := if a == 8 then b else a;
      MakeTen(8, other, other - 2)
    case TenA => AddTen(OnA)
    case TenB => AddTen(OnB)
    case SmallB => CountOn(OnB)
    case SmallA => CountOn(OnA)
    case BreakApartRule =>
      TensOnesSplit(b);
      AddBreakApart(TensPart(b), OnesPart(b), a + TensPart(b))
    case CountUpRule => CountUp(Max(a, b), Min(a, b))
  }

  /** The strategy `getAdditionHints(a, b, a + b)` explains: the first branch
      whose guard holds, with numbers that agree with the sum. */
  function ClassifyAddition(a: int, b: int): (h: AddHint)
    ensures AddGuard(AddRuleOf(h), a, b)
    ensures forall q :: AddRank(q) < AddRank(AddRuleOf(h)) ==> !AddGuard(q, a, b)
    ensures AddAgrees(h, a, b)
  {
    AdditionStrategy(AdditionBranch(a, b), a, b)
  }

  /** Precedence on the inputs that show it. */
  lemma AdditionPrecedence()
    ensures ClassifyAddition(9, 9) == Double
    ensures ClassifyAddition(9, 1) == AddOne(OnB)
    ensures ClassifyAddition(1, 9) == AddOne(OnA)
    ensures ClassifyAddition(1, 1) == AddOne(OnB)
    ensures ClassifyAddition(2, 2) == AddTwo(OnB)
    ensures ClassifyAddition(10, 5) == AddTen(OnA)
    ensures ClassifyAddition(9, 3) == MakeTen(9, 3, 2)
    ensures ClassifyAddition(25, 13) == AddBreakApart(10, 3, 35)
    ensures ClassifyAddition(25, 7) == CountUp(25, 7)
  {
  }

  /** A pair whose larger operand exceeds 10 and whose second operand has both
      a tens and a ones digit is broken apart whenever no earlier rule fires. */
  lemma BreakApartWhenNoEarlierRule(a: int, b: int)
    requires forall q :: AddRank(q) < AddRank(BreakApartRule) ==> !AddGuard(q, a, b)
    requires a > 10 || b > 10
    ensures ClassifyAddition(a, b).AddBreakApart? <==> (TensPart(b) > 0 && OnesPart(b) > 0)
  {
  }

  /** For non-negative operands the `leftover >= 0` test of the make-ten-with-8
      branch never fails: a pair with an 8 is settled by that branch at the latest. */
  lemma EightLeftoverNeverNegative(a: nat, b: nat)
    requires a == 8 || b == 8
    ensures AddRank(AddRuleOf(ClassifyAddition(a, b))) <= AddRank(EightMakesTen)
  {
  }

  /** The test does matter for negative operands: (8, -1) falls through to counting on. */
  lemma EightLeftoverNegativeOperand()
    ensures !AddGuard(EightMakesTen, 8, -1)
    ensures ClassifyAddition(8, -1) == CountOn(OnB)
  {
  }

  /** For non-negative operands the count-on branches only see a small operand of exactly 3. */
  lemma CountOnOnlyForThree(a: nat, b: nat)
    ensures ClassifyAddition(a, b).CountOn? ==> Matched(ClassifyAddition(a, b).side, a, b) == 3
  {
  }

  // ---------------------------------------------------------------------------
  // Subtraction
  // ---------------------------------------------------------------------------

  /** The branches of `getSubtractionHints`, in source order. */
  datatype SubRule =
    | MinusZero | MinusItself | MinusOne | MinusTwo
    | FromTen | MinusNine | MinusEight | MinusSmall
    | ThinkAdditionRule | SubBreakApartRule | ThinkAdditionFallback

  function SubRank(q: SubRule): nat {
    match q
    case MinusZero => 0
    case MinusItself => 1
    case MinusOne => 2
    case MinusTwo => 3
    case FromTen => 4
    case MinusNine => 5
    case MinusEight => 6
    case MinusSmall => 7
    case ThinkAdditionRule => 8
    case SubBreakApartRule => 9
    case ThinkAdditionFallback => 10
  }

  predicate SubGuard(q: SubRule, a: int, b: int) {
    match q
    case MinusZero => b == 0
    case MinusItself => a == b
    case MinusOne => b == 1
    case MinusTwo => b == 2
    case FromTen => a == 10
    case MinusNine => b == 9
    case MinusEight => b == 8
    case MinusSmall => b <= 3
    case ThinkAdditionRule => b <= 10 && a <= 20
    case SubBreakApartRule => b > 10 && TensPart(b) > 0 && OnesPart(b) > 0
    case ThinkAdditionFallback => true
  }

  /** A subtraction strategy with the intermediate numbers its hint shows. */
  datatype SubHint =
    | SubZero
    | SubItself
    | SubOne
    | SubTwo
    | TenFact
    | NearTen(take: int, tenLess: int)
    | CountBack
    | ThinkAddition
    | SubBreakApart(tens: int, ones: int, step1: int)
    | ThinkAdditionOnly

  function SubRuleOf(h: SubHint): SubRule {
    match h
    case SubZero => MinusZero
    case SubItself => MinusItself
    case SubOne => MinusOne
    case SubTwo => MinusTwo
    case TenFact => FromTen
    case NearTen(take, _) => if take == 9 then MinusNine else MinusEight
    case CountBack => MinusSmall
    case ThinkAddition => ThinkAdditionRule
    case SubBreakApart(_, _, _) => SubBreakApartRule
    case ThinkAdditionOnly => ThinkAdditionFallback
  }

  function SubStepCount(h: SubHint): nat {
    match h
    case SubItself => 3
    case TenFact => 3
    case NearTen(_, _) => 3
    case ThinkAddition => 3
    case SubBreakApart(_, _, _) => 3
    case _ => 2
  }

  /** The equations a strategy's hint asserts, all true of the difference `a - b`. */
  predicate SubAgrees(h: SubHint, a: int, b: int) {
    var diff := a - b;
    match h
    case SubZero => b == 0 && a == diff
    case SubItself => a == b && 0 == diff
    case SubOne => b == 1 && a - 1 == diff
    case SubTwo => b == 2 && a - 2 == diff
    case TenFact => a == 10 && b + diff == 10
    case NearTen(take, tenLess) =>
      && take == b && (take == 9 || take == 8)
      && tenLess == a - 10
      && tenLess + (10 - take) == diff
    case CountBack => b <= 3 && a - b == diff
    case ThinkAddition => b + diff == a
    case SubBreakApart(tens, ones, step1) =>
      && tens + ones == b
      && tens % 10 == 0 && tens >= 10 && 0 < ones < 10
      && step1 == a - tens
      && step1 - ones == diff
    case ThinkAdditionOnly => b + diff == a
  }

  /** The cascade of `getSubtractionHints`: the branch that returns for (a, b). */
  function SubtractionBranch(a: int, b: int): (q: SubRule)
    ensures SubGuard(q, a, b)
    ensures forall p :: SubRank(p) < SubRank(q) ==> !SubGuard(p, a, b)
  {
    if b == 0 then MinusZero
    else if a == b then MinusItself
    else if b == 1 then MinusOne
    else if b == 2 then MinusTwo
    else if a == 10 then FromTen
    else if b == 9 then MinusNine
    else if b == 8 then MinusEight
    else if b <= 3 then MinusSmall
    else if b <= 10 && a <= 20 then ThinkAdditionRule
    else if b > 10 && TensPart(b) > 0 && OnesPart(b) > 0 then SubBreakApartRule
    else ThinkAdditionFallback
  }

  /** The intermediate numbers a branch computes once its guard holds. */
  function SubtractionStrategy(q: SubRule, a: int, b: int): (h: SubHint)
    requires SubGuard(q, a, b)
    ensures SubRuleOf(h) == q
    ensures SubAgrees(h, a, b)
  {
    match q
    case MinusZero => SubZero
    case MinusItself => SubItself
    case MinusOne => SubOne
    case MinusTwo => SubTwo
    case FromTen => TenFact
    case MinusNine => NearTen(9, a - 10)
    case MinusEight => NearTen(8, a - 10)
    case MinusSmall => CountBack
    case ThinkAdditionRule => ThinkAddition
    case SubBreakApartRule =>
      TensOnesSplit(b);
      SubBreakApart(TensPart(b), OnesPart(b), a - TensPart(b))
    case ThinkAdditionFallback => ThinkAdditionOnly
  }

  /** The strategy `getSubtractionHints(a, b, a - b)` explains: the first branch
      whose guard holds, with numbers that agree with the difference. */
  function ClassifySubtraction(a: int, b: int): (h: SubHint)
    ensures SubGuard(SubRuleOf(h), a, b)
    ensures forall q :: SubRank(q) < SubRank(SubRuleOf(h)) ==> !SubGuard(q, a, b)
    ensures SubAgrees(h, a, b)
  {
    SubtractionStrategy(SubtractionBranch(a, b), a, b)
  }

  /** Precedence on the inputs that show it. */
  lemma SubtractionPrecedence()
    ensures ClassifySubtraction(1, 1) == SubItself
    ensures ClassifySubtraction(2, 2) == SubItself
    ensures ClassifySubtraction(10, 9) == TenFact
    ensures ClassifySubtraction(10, 8) == TenFact
    ensures ClassifySubtraction(10, 1) == SubOne
    ensures ClassifySubtraction(15, 9) == NearTen(9, 5)
    ensures ClassifySubtraction(45, 23) == SubBreakApart(20, 3, 25)
    ensures ClassifySubtraction(45, 30) == ThinkAdditionOnly
  {
  }

  /** On a valid subtraction (`0 <= b <= a`) the "a − 10" a near-ten hint shows is
      negative exactly for 9 − 8; when subtracting 9 it is always positive. */
  lemma NearTenIntermediateSign(a: int, b: int)
    requires 0 <= b <= a
    ensures var h := ClassifySubtraction(a, b);
            h.NearTen? && h.take == 8 ==> (h.tenLess < 0 <==> a == 9)
    ensures var h := ClassifySubtraction(a, b);
            h.NearTen? && h.take == 9 ==> h.tenLess >= 1
  {
  }

  /** 9 − 8 is the one valid subtraction whose hint prints a negative intermediate. */
  lemma NineMinusEightShowsNegative()
    ensures ClassifySubtraction(9, 8) == NearTen(8, -1)
  {
  }

  /** With non-negative operands, counting back only ever counts back exactly 3. */
  lemma CountBackOnlyForThree(a: int, b: nat)
    ensures ClassifySubtraction(a, b).CountBack? ==> b == 3
  {
  }
}
