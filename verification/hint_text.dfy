/**
  The hint texts of game.js: `getHints`, and the strings `getAdditionHints`
  and `getSubtractionHints` build for the strategy the cascade selects.
  Numbers are printed as `${n}` prints them (module Decimal).
 */
module HintText {
  import Decimal
  import opened Hints
  import opened Problems

  function Str(n: int): string {
    Decimal.IntToString(n)
  }

  /** The count-on (`up`) / count-back string: for i = 1..count, `start + i`
      (or `start - i`) followed by "... ", and by "!" after the last one.
      Empty when count < 1. */
  function Counting(start: int, up: bool, count: int, i: int): string
    decreases count - i
  {
    if i > count then ""
    else
      var v := if up then start + i else start - i;
      Str(v) + (if i < count then "... " else "!") + Counting(start, up, count, i + 1)
  }

  function RenderAddition(h: AddHint, a: int, b: int, answer: int): (steps: seq<string>)
    ensures |steps| == AddStepCount(h)
  {
    match h
    case AddZero(side) =>
      if side == OnB then
        [ "Adding 0 means nothing changes!",
          "So " + Str(a) + " + 0 = " + Str(a) + " ✨" ]
      else
        [ "Adding 0 means nothing changes!",
          "So 0 + " + Str(b) + " = " + Str(b) + " ✨" ]
    case AddOne(side) =>
      [ "Adding 1 is easy — just the next number!",
        "Count one up from " + Str(Other(side, a, b)) + ": " + Str(answer) + "! 🎯" ]
    case AddTwo(side) =>
      var n := Other(side, a, b);
      [ "Adding 2? Count up two!",
        Str(n) + "... " + Str(n + 1) + "... " + Str(n + 2) + "! 🎯" ]
    case Double =>
      [ "This is a double! 🔢",
        Str(a) + " + " + Str(a) + " = ? Think of " + Str(a) + " groups of 2!",
        Str(a) + " + " + Str(a) + " = " + Str(answer) + "! Remember this one! 🧠" ]
    case NearDouble(gap, smaller, bigger, double) =>
      if gap == 1 then
        [ "Almost a double! Think: what is " + Str(smaller) + " + " + Str(smaller) + "? 🤔",
          Str(smaller) + " + " + Str(smaller) + " = " + Str(double),
          Str(bigger) + " is 1 more than " + Str(smaller) + ", so add 1 more: "
            + Str(double) + " + 1 = " + Str(answer) + "! 🌟" ]
      else
        [ "Close to a double! Think: what is " + Str(smaller) + " + " + Str(smaller) + "? 🤔",
          Str(smaller) + " + " + Str(smaller) + " = " + Str(double),
          Str(bigger) + " is 2 more than " + Str(smaller) + ", so add 2 more: "
            + Str(double) + " + 2 = " + Str(answer) + "! 🌟" ]
    case MakeTen(partner, other, leftover) =>
      if partner == 9 then
        [ "One number is 9 — almost 10! Let's make 10 first 🎯",
          "Take 1 from " + Str(other) + " to make 9 into 10. Now it's 10 + " + Str(leftover),
          "10 + " + Str(leftover) + " = " + Str(answer) + "! 🚀" ]
      else
        [ "One number is 8 — close to 10! Let's make 10 🎯",
          "Take 2 from " + Str(other) + " to make 8 into 10. Now it's 10 + " + Str(leftover),
          "10 + " + Str(leftover) + " = " + Str(answer) + "! 🚀" ]
    case AddTen(side) =>
      if side == OnA then
        [ "Adding 10 is easy!",
          "Just put a 1 in the tens place: 10 + " + Str(b) + " = " + Str(answer) + "! ⚡" ]
      else
        [ "Adding 10 is easy!",
          "Just put a 1 in the tens place: " + Str(a) + " + 10 = " + Str(answer) + "! ⚡" ]
    case CountOn(side) =>
      if side == OnB then
        [ "Start at " + Str(a) + " and count up " + Str(b) + "!",
          Str(a) + "... " + Counting(a, true, b, 1) + " 🎯" ]
      else
        [ "Start at " + Str(b) + " (the bigger number) and count up " + Str(a) + "!",
          Str(b) + "... " + Counting(b, true, a, 1) + " 🎯" ]
    case AddBreakApart(tens, ones, step1) =>
      [ "Break " + Str(b) + " into " + Str(tens) + " + " + Str(ones) + " 🧩",
        "First: " + Str(a) + " + " + Str(tens) + " = " + Str(step1),
        "Then: " + Str(step1) + " + " + Str(ones) + " = " + Str(answer) + "! 🎉" ]
    case CountUp(larger, smaller) =>
      [ "Try counting up from " + Str(larger) + "! Start at " + Str(larger)
          + " and count " + Str(smaller) + " more 🤔",
        "The answer is between " + Str(answer - 3) + " and " + Str(answer + 3) + ". You're close! 💪" ]
  }

  function RenderSubtraction(h: SubHint, a: int, b: int, answer: int): (steps: seq<string>)
    ensures |steps| == SubStepCount(h)
  {
    match h
    case SubZero =>
      [ "Taking away 0? Nothing changes!",
        Str(a) + " − 0 = " + Str(a) + " ✨" ]
    case SubItself =>
      [ "Both numbers are the same! 🤔",
        "When you take away the same number, you always get 0!",
        Str(a) + " − " + Str(a) + " = 0 ✨" ]
    case SubOne =>
      [ "Subtracting 1 is easy — just the number before!",
        "Count one back from " + Str(a) + ": " + Str(answer) + "! 🎯" ]
    case SubTwo =>
      [ "Subtracting 2? Count back two!",
        Str(a) + "... " + Str(a - 1) + "... " + Str(a - 2) + "! 🎯" ]
    case TenFact =>
      [ Str(a) + " − " + Str(b) + "? Think about 10-facts! 🧠",
        Str(b) + " + ? = 10. What number goes with " + Str(b) + " to make 10?",
        Str(b) + " + " + Str(answer) + " = 10, so 10 − " + Str(b) + " = " + Str(answer) + "! ⭐" ]
    case NearTen(take, tenLess) =>
      if take == 9 then
        [ "Subtracting 9 is close to subtracting 10! 🎯",
          Str(a) + " − 10 would be " + Str(tenLess),
          "But we only subtract 9, so it's 1 MORE: " + Str(tenLess) + " + 1 = " + Str(answer) + "! 🌟" ]
      else
        [ "Subtracting 8 is close to subtracting 10! 🎯",
          Str(a) + " − 10 would be " + Str(tenLess),
          "But we only subtract 8, so it's 2 MORE: " + Str(tenLess) + " + 2 = " + Str(answer) + "! 🌟" ]
    case CountBack =>
      [ "Start at " + Str(a) + " and count back " + Str(b) + "!",
        Str(a) + "... " + Counting(a, false, b, 1) + " 🎯" ]
    case ThinkAddition =>
      [ "Think addition! " + Str(b) + " + ? = " + Str(a) + " 🤔",
        "What number do you add to " + Str(b) + " to get " + Str(a) + "?",
        Str(b) + " + " + Str(answer) + " = " + Str(a) + ", so " + Str(a) + " − " + Str(b)
          + " = " + Str(answer) + "! 💡" ]
    case SubBreakApart(tens, ones, step1) =>
      [ "Break " + Str(b) + " into " + Str(tens) + " + " + Str(ones) + " 🧩",
        "First: " + Str(a) + " − " + Str(tens) + " = " + Str(step1),
        "Then: " + Str(step1) + " − " + Str(ones) + " = " + Str(answer) + "! 🎉" ]
    case ThinkAdditionOnly =>
      [ "Think addition! " + Str(b) + " + ? = " + Str(a) + " 🤔",
        "What number added to " + Str(b) + " gives you " + Str(a) + "?" ]
  }

  /** `getAdditionHints(a, b, answer)`. */
  function AdditionHints(a: int, b: int, answer: int): (steps: seq<string>)
    ensures |steps| == AddStepCount(ClassifyAddition(a, b))
    ensures 2 <= |steps| <= 3
  {
    RenderAddition(ClassifyAddition(a, b), a, b, answer)
  }

  /** `getSubtractionHints(a, b, answer)`. */
  function SubtractionHints(a: int, b: int, answer: int): (steps: seq<string>)
    ensures |steps| == SubStepCount(ClassifySubtraction(a, b))
    ensures 2 <= |steps| <= 3
  {
    RenderSubtraction(ClassifySubtraction(a, b), a, b, answer)
  }

  /** `getHints(problem)`: anything but an addition gets subtraction hints. */
  function GetHints(p: Problem): (steps: seq<string>)
    ensures 2 <= |steps| <= 3
    ensures p.kind == Addition ==> |steps| == AddStepCount(ClassifyAddition(p.a, p.b))
    ensures p.kind != Addition ==> |steps| == SubStepCount(ClassifySubtraction(p.a, p.b))
  {
    if p.kind == Addition then AdditionHints(p.a, p.b, p.answer)
    else SubtractionHints(p.a, p.b, p.answer)
  }

  /** Counting on three lists the three next numbers, the last one followed by "!". */
  lemma {:induction false} CountingUpThree(start: int)
    ensures Counting(start, true, 3, 1)
         == Str(start + 1) + "... " + Str(start + 2) + "... " + Str(start + 3) + "!"
  {
    assert Counting(start, true, 3, 4) == "";
    assert Counting(start, true, 3, 3) == Str(start + 3) + "!" + "";
    assert Counting(start, true, 3, 2) == Str(start + 2) + "... " + Counting(start, true, 3, 3);
  }

  /** Counting back three lists the three previous numbers, the last one followed by "!". */
  lemma {:induction false} CountingDownThree(start: int)
    ensures Counting(start, false, 3, 1)
         == Str(start - 1) + "... " + Str(start - 2) + "... " + Str(start - 3) + "!"
  {
    assert Counting(start, false, 3, 4) == "";
    assert Counting(start, false, 3, 3) == Str(start - 3) + "!" + "";
    assert Counting(start, false, 3, 2) == Str(start - 2) + "... " + Counting(start, false, 3, 3);
  }

  /** For non-negative operands a count-on hint counts exactly three numbers
      up from the larger operand and ends on the sum. */
  lemma CountOnTextEndsOnSum(a: nat, b: nat)
    requires ClassifyAddition(a, b).CountOn?
    ensures var n := Other(ClassifyAddition(a, b).side, a, b);
            AdditionHints(a, b, a + b)[1]
              == Str(n) + "... " + Str(n + 1) + "... " + Str(n + 2) + "... " + Str(a + b) + "! 🎯"
  {
    CountOnOnlyForThree(a, b);
    var h := ClassifyAddition(a, b);
    var n := Other(h.side, a, b);
    CountingUpThree(n);
    assert n + 3 == a + b;
  }

  /** For a valid subtraction a count-back hint counts three numbers down and ends on the difference. */
  lemma CountBackTextEndsOnDifference(a: int, b: nat)
    requires ClassifySubtraction(a, b).CountBack?
    ensures SubtractionHints(a, b, a - b)[1]
              == Str(a) + "... " + Str(a - 1) + "... " + Str(a - 2) + "... " + Str(a - b) + "! 🎯"
  {
    CountBackOnlyForThree(a, b);
    CountingDownThree(a);
  }
}
