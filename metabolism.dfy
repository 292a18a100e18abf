/**
 * The arithmetic both daily-target calculators share: JavaScript's `Math.round`,
 * the Mifflin-St Jeor basal metabolic rate, and the carbohydrate target as the
 * energy left over once protein and fat are counted (4 kcal per gram of protein
 * or carbohydrate, 9 kcal per gram of fat).
 */
module Metabolism {

  /**
   * `Math.round` over exact reals: the nearest integer, a half rounded up
   * (towards +infinity, so -2.5 rounds to -2).
   */
  function Round(x: real): (r: int)
    ensures r as real - 0.5 <= x < r as real + 0.5
  {
    (x + 0.5).Floor
  }

  /** The bound of `Round` determines it: use it to evaluate a rounding. */
  lemma RoundUnique(x: real, n: int)
    requires n as real - 0.5 <= x < n as real + 0.5
    ensures Round(x) == n
  {
  }

  /** Integers are fixed points, and exact halves go up, also below zero. */
  lemma RoundHalfUp(n: int)
    ensures Round(n as real) == n
    ensures Round(n as real + 0.5) == n + 1
    ensures Round(n as real - 0.5) == n
  {
    RoundUnique(n as real, n);
    RoundUnique(n as real + 0.5, n + 1);
    RoundUnique(n as real - 0.5, n);
  }

  /** Rounding never reverses an order. */
  lemma RoundMonotone(x: real, y: real)
    requires x <= y
    ensures Round(x) <= Round(y)
  {
  }

  /** Scaling by a non-negative factor keeps an order (a proof step for the calorie goals). */
  lemma ScaleMonotone(x: real, y: real, factor: real)
    requires x <= y && factor >= 0.0
    ensures x * factor <= y * factor
  {
    assert y * factor - x * factor == (y - x) * factor;
  }

  /** Values at least one unit apart round to different integers, in the same order. */
  lemma RoundStep(x: real, y: real)
    requires x + 1.0 <= y
    ensures Round(x) + 1 <= Round(y)
  {
  }

  /** Adding a whole number of kcal before rounding adds exactly that many after. */
  lemma RoundShift(x: real, k: int)
    ensures Round(x + k as real) == Round(x) + k
  {
    RoundUnique(x + k as real, Round(x) + k);
  }

  /**
   * The Mifflin-St Jeor basal metabolic rate in kcal per day, for weight in kg,
   * height in cm and age in years: 10 w + 6.25 h - 5 a, plus 5 for a man and
   * minus 161 otherwise. Both calculators are checked against this definition.
   */
  function MifflinStJeor(weight: real, height: real, age: real, male: bool): real {
    10.0 * weight + 6.25 * height - 5.0 * age + (if male then 5.0 else -161.0)
  }

  /**
   * Each extra kg of body weight or cm of height raises the basal rate and each
   * extra year lowers it, whatever the sex.
   */
  lemma BasalMonotone(w1: real, w2: real, h1: real, h2: real, a1: real, a2: real, male: bool)
    requires w1 <= w2 && h1 <= h2 && a1 >= a2
    ensures MifflinStJeor(w1, h1, a1, male) <= MifflinStJeor(w2, h2, a2, male)
    ensures (w1 < w2 || h1 < h2 || a1 > a2) ==> MifflinStJeor(w1, h1, a1, male) < MifflinStJeor(w2, h2, a2, male)
  {
  }

  /** The calorie adjustment a goal stands for: -500 to lose weight, +300 to gain, nothing for any other goal. */
  function GoalAdjustment(goal: string): (adj: real)
    ensures -500.0 <= adj <= 300.0
    ensures adj == 0.0 <==> goal != "lose" && goal != "gain"
  {
    if goal == "lose" then -500.0 else if goal == "gain" then 300.0 else 0.0
  }

  /**
   * The carbohydrate target in grams: the kcal left after protein and fat,
   * divided by 4 and rounded; nothing clamps it, so it is negative when
   * protein and fat alone exceed the calorie target. The energy of the three
   * targets then lies within -1 .. +2 kcal of the calorie target.
   */
  function CarbsFor(kcal: int, protein: int, fat: int): (carbs: int)
    ensures kcal - 1 <= 4 * protein + 4 * carbs + 9 * fat <= kcal + 2
    ensures 4 * protein + 9 * fat > kcal + 2 <==> carbs < 0
  {
    Round((kcal - protein * 4 - fat * 9) as real / 4.0)
  }
}
