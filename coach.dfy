/**
 * The coaching dashboard of src/App.js: a profile whose calorie and macro
 * goals are recomputed from body weight, today's meal log with its running
 * totals, the weight series, and the search over the built-in food table.
 *
 * Persistence, the clock and string parsing stay outside: the stored state,
 * today's date key, meal ids and weight labels are parameters, and every
 * number arrives already parsed.
 */
module Coach {
  import opened Wrappers
  import opened Metabolism
  import opened Tracking

  // ---------------------------------------------------------------- data

  /**
   * The coach profile. `gender` and `goal` are the strings the settings form
   * stores ('male', 'lose', 'gain', ...); `activity` is the parsed activity
   * factor; the four goals are what the status card measures the day against.
   */
  datatype Profile = Profile(
    weight: real, height: real, age: real, gender: string,
    activity: real, goal: string,
    dailyGoal: int, pGoal: int, cGoal: int, fGoal: int)

  /** The profile used when nothing is stored. */
  const DefaultProfile := Profile(80.0, 180.0, 25.0, "male", 1.2, "maintain", 2200, 160, 250, 70)

  /** A food: an item of the built-in table or a manually entered meal. */
  datatype Food = Food(name: string, kcal: real, p: real, c: real, f: real) {
    function Nutrients(): Macros { Macros(kcal, p, c, f) }
  }

  /** A logged meal: the food stamped with an id. */
  datatype Meal = Meal(food: Food, id: int)

  /**
   * Today's log. Nothing in the dashboard adds exercises; the list is only
   * emptied when a new day starts.
   */
  datatype DayLog = DayLog(date: string, meals: seq<Meal>, exercises: seq<Meal>, totals: Macros)

  /** The built-in food table, in its own order. */
  const FoodDatabase: seq<Food> := [
    Food("Kyllingbryst (100g)", 165.0, 31.0, 0.0, 3.6),
    Food("Havregryn (100g)", 389.0, 13.0, 66.0, 7.0),
    Food("Egg (1 stk)", 70.0, 6.0, 0.0, 5.0),
    Food("Ris, kokt (100g)", 130.0, 2.7, 28.0, 0.3),
    Food("Søtpotet (100g)", 86.0, 1.6, 20.0, 0.1),
    Food("Laks (100g)", 208.0, 20.0, 0.0, 13.0),
    Food("Kjøttdeig 5% (100g)", 121.0, 19.0, 0.0, 5.0)
  ]

  // ---------------------------------------------------------------- targets

  /** The basal rate as the dashboard computes it: the common part first, then the sex term. */
  function Bmr(p: Profile, w: real): (bmr: real)
    ensures bmr == MifflinStJeor(w, p.height, p.age, p.gender == "male")
  {
    var bmr := 10.0 * w + 6.25 * p.height - 5.0 * p.age;
    if p.gender == "male" then bmr + 5.0 else bmr - 161.0
  }

  /**
   * The daily calorie goal: the basal rate times the activity factor, then
   * 500 less for 'lose' and 300 more for 'gain', rounded like `Math.round`.
   */
  function DailyGoal(p: Profile, w: real): (kcal: int)
    ensures kcal as real - 0.5 <= Bmr(p, w) * p.activity + GoalAdjustment(p.goal) < kcal as real + 0.5
  {
    var tdee := Bmr(p, w) * p.activity;
    var tdee := if p.goal == "lose" then tdee - 500.0 else tdee;
    var tdee := if p.goal == "gain" then tdee + 300.0 else tdee;
    Round(tdee)
  }

  /** The four goals `autoRecalculate` derives from a weight. */
  datatype Targets = Targets(kcal: int, protein: int, carbs: int, fat: int)

  /**
   * Calories from `DailyGoal`; 2 g protein and 0.9 g fat per kg whatever the
   * goal, each rounded; carbohydrates fill the remaining energy, unclamped.
   */
  function CoachTargets(p: Profile, w: real): (t: Targets)
    ensures t.kcal == DailyGoal(p, w)
    ensures t.protein as real - 0.5 <= 2.0 * w < t.protein as real + 0.5
    ensures t.fat as real - 0.5 <= 0.9 * w < t.fat as real + 0.5
    ensures t.kcal - 1 <= 4 * t.protein + 4 * t.carbs + 9 * t.fat <= t.kcal + 2
  {
    SplitFor(DailyGoal(p, w), w)
  }

  /** The macro split for a calorie goal and a weight. */
  function SplitFor(kcal: int, w: real): Targets {
    var protein := Round(w * 2.0);
    var fat := Round(w * 0.9);
    Targets(kcal, protein, CarbsFor(kcal, protein, fat), fat)
  }

  /**
   * The weight `autoRecalculate` uses: the one passed in unless it is absent
   * or zero (both falsy), in which case the profile's own weight.
   */
  function ChosenWeight(currentWeight: Option<real>, p: Profile): (w: real)
    ensures w == 0.0 ==> p.weight == 0.0
    ensures w == p.weight <==> currentWeight.None? || currentWeight.value == 0.0 || currentWeight.value == p.weight
    ensures currentWeight.Some? && currentWeight.value != 0.0 ==> w == currentWeight.value
  {
    if currentWeight.Some? && currentWeight.value != 0.0 then currentWeight.value else p.weight
  }

  /**
   * The profile after `autoRecalculate` with weight `w`: the weight written
   * back, the four goals replaced, every other field as it was.
   */
  function Recalculated(p: Profile, w: real): (r: Profile)
    ensures r.weight == w
    ensures Targets(r.dailyGoal, r.pGoal, r.cGoal, r.fGoal) == CoachTargets(p, w)
    ensures r.height == p.height && r.age == p.age && r.gender == p.gender
    ensures r.activity == p.activity && r.goal == p.goal
  {
    var t := CoachTargets(p, w);
    p.(weight := w, dailyGoal := t.kcal, pGoal := t.protein, cGoal := t.carbs, fGoal := t.fat)
  }

  /** Recomputing again with the same weight changes nothing: the old goals do not feed the new ones. */
  lemma RecalculateIdempotent(p: Profile, w: real)
    ensures Recalculated(Recalculated(p, w), w) == Recalculated(p, w)
  {
    var r := Recalculated(p, w);
    assert Bmr(r, w) == Bmr(p, w);
    assert DailyGoal(r, w) == DailyGoal(p, w);
    assert CoachTargets(r, w) == CoachTargets(p, w);
  }

  /** Cutting takes exactly 500 kcal off the maintenance goal and bulking adds exactly 300. */
  lemma GoalShifts(p: Profile, w: real)
    ensures DailyGoal(p.(goal := "lose"), w) == DailyGoal(p.(goal := "maintain"), w) - 500
    ensures DailyGoal(p.(goal := "gain"), w) == DailyGoal(p.(goal := "maintain"), w) + 300
  {
    var tdee := Bmr(p, w) * p.activity;
    RoundShift(tdee, -500);
    RoundShift(tdee, 300);
  }

  /** The two `if`s on the goal amount to adding its adjustment before rounding. */
  lemma DailyGoalRounds(p: Profile, w: real)
    ensures DailyGoal(p, w) == Round(Bmr(p, w) * p.activity + GoalAdjustment(p.goal))
  {
  }

  /** A heavier user never gets a lower calorie goal (for a non-negative activity factor). */
  lemma HeavierNeedsMore(p: Profile, w1: real, w2: real)
    requires w1 <= w2 && p.activity >= 0.0
    ensures DailyGoal(p, w1) <= DailyGoal(p, w2)
  {
    var b1, b2 := Bmr(p, w1), Bmr(p, w2);
    BasalMonotone(w1, w2, p.height, p.height, p.age, p.age, p.gender == "male");
    ScaleMonotone(b1, b2, p.activity);
    var adj := GoalAdjustment(p.goal);
    RoundMonotone(b1 * p.activity + adj, b2 * p.activity + adj);
    DailyGoalRounds(p, w1);
    DailyGoalRounds(p, w2);
  }

  /** Only 'lose' and 'gain' change the targets; every other goal string behaves as 'maintain'. */
  lemma OtherGoalsMaintain(p: Profile, w: real)
    requires p.goal != "lose" && p.goal != "gain"
    ensures CoachTargets(p, w) == CoachTargets(p.(goal := "maintain"), w)
  {
    var q := p.(goal := "maintain");
    assert Bmr(q, w) == Bmr(p, w);
    assert DailyGoal(q, w) == DailyGoal(p, w);
  }

  /** Protein and fat depend on the weight only, never on the goal. */
  lemma MacrosIgnoreGoal(p: Profile, w: real, goal: string)
    ensures CoachTargets(p.(goal := goal), w).protein == CoachTargets(p, w).protein
    ensures CoachTargets(p.(goal := goal), w).fat == CoachTargets(p, w).fat
  {
    var q := p.(goal := goal);
    assert CoachTargets(q, w) == SplitFor(DailyGoal(q, w), w);
    assert CoachTargets(p, w) == SplitFor(DailyGoal(p, w), w);
  }

  /** A man of 25, 180 cm, 80 kg at factor 1.55: 2798 kcal, 160 g protein, 378 g carbs, 72 g fat. */
  lemma ModerateMaintainExample()
    ensures CoachTargets(DefaultProfile.(activity := 1.55), 80.0) == Targets(2798, 160, 378, 72)
  {
    RoundUnique(2797.75, 2798);
    RoundUnique(160.0, 160);
    RoundUnique(72.0, 72);
    RoundUnique(377.5, 378);
  }

  /** The same man cutting: 2298 kcal, and the carbohydrates 252.5 round up to 253. */
  lemma ModerateLoseExample()
    ensures CoachTargets(DefaultProfile.(activity := 1.55, goal := "lose"), 80.0) == Targets(2298, 160, 253, 72)
  {
    RoundUnique(2297.75, 2298);
    RoundUnique(160.0, 160);
    RoundUnique(72.0, 72);
    RoundUnique(252.5, 253);
  }

  /**
   * Carbohydrates are not clamped: a 200 kg woman of 90, 100 cm tall, sedentary
   * and cutting, gets 1917 kcal, 400 g protein, 180 g fat and -326 g carbs.
   */
  lemma NegativeCarbsExample()
    ensures CoachTargets(Profile(200.0, 100.0, 90.0, "female", 1.2, "lose", 0, 0, 0, 0), 200.0)
         == Targets(1917, 400, -326, 180)
  {
    RoundUnique(1916.8, 1917);
    RoundUnique(400.0, 400);
    RoundUnique(180.0, 180);
    RoundUnique(-325.75, -326);
  }

  // ---------------------------------------------------------------- day log

  /** The element-wise sum of the meals' nutrients. */
  function Totals(meals: seq<Meal>): Macros {
    if meals == [] then Zero else meals[0].food.Nutrients().Plus(Totals(meals[1..]))
  }

  /** The ledger invariant: the running totals are the sum of the logged meals. */
  predicate Balanced(log: DayLog) {
    log.totals == Totals(log.meals)
  }

  /** Summing after appending a meal is adding that meal to the earlier sum. */
  lemma {:induction false} TotalsAppend(meals: seq<Meal>, m: Meal)
    ensures Totals(meals + [m]) == Totals(meals).Plus(m.food.Nutrients())
  {
    if meals == [] {
      assert meals + [m] == [m];
    } else {
      assert (meals + [m])[1..] == meals[1..] + [m];
      TotalsAppend(meals[1..], m);
    }
  }

  /** The log a new day starts with: no meals, no exercises, all totals zero. */
  function FreshLog(today: string): (log: DayLog)
    ensures log.date == today && log.meals == [] && log.exercises == []
    ensures Balanced(log)
  {
    DayLog(today, [], [], Zero)
  }

  /**
   * The log the dashboard opens with: the stored one only if it is dated
   * today, otherwise a fresh one. Either way it is today's log.
   */
  function InitialLog(saved: Option<DayLog>, today: string): (log: DayLog)
    ensures log.date == today
    ensures saved.Some? && saved.value.date == today ==> log == saved.value
    ensures (saved.None? || saved.value.date != today) ==> log == FreshLog(today)
  {
    if saved.Some? && saved.value.date == today then saved.value else FreshLog(today)
  }

  /** The opening log keeps the ledger invariant whenever the stored one did, and on every rollover. */
  lemma InitialLogBalanced(saved: Option<DayLog>, today: string)
    requires saved.Some? && saved.value.date == today ==> Balanced(saved.value)
    ensures Balanced(InitialLog(saved, today))
  {
  }

  /**
   * The log after `addMeal`: the meal stamped and appended last, each of the
   * four totals raised by exactly the meal's value, date and exercises kept;
   * the ledger invariant is preserved.
   */
  function WithMeal(log: DayLog, food: Food, id: int): (r: DayLog)
    ensures r.date == log.date && r.exercises == log.exercises
    ensures |r.meals| == |log.meals| + 1 && r.meals[..|log.meals|] == log.meals
    ensures r.meals[|log.meals|] == Meal(food, id)
    ensures r.totals.kcal == log.totals.kcal + food.kcal && r.totals.protein == log.totals.protein + food.p
    ensures r.totals.carbs == log.totals.carbs + food.c && r.totals.fat == log.totals.fat + food.f
    ensures Balanced(log) ==> Balanced(r)
  {
    TotalsAppend(log.meals, Meal(food, id));
    log.(meals := log.meals + [Meal(food, id)], totals := log.totals.Plus(food.Nutrients()))
  }

  /** Meals logged one after another, from a given log. */
  function LogAll(log: DayLog, foods: seq<Food>, ids: seq<int>): DayLog
    requires |foods| == |ids|
    decreases |foods|
  {
    if foods == [] then log
    else LogAll(WithMeal(log, foods[0], ids[0]), foods[1..], ids[1..])
  }

  /**
   * From the log of a new day, any sequence of meals leaves the meals in the
   * order they were logged and the totals equal to their sum.
   */
  lemma {:induction false} LogAllFromFresh(today: string, foods: seq<Food>, ids: seq<int>)
    requires |foods| == |ids|
    ensures Balanced(LogAll(FreshLog(today), foods, ids))
    ensures |LogAll(FreshLog(today), foods, ids).meals| == |foods|
    ensures forall k :: 0 <= k < |foods| ==> LogAll(FreshLog(today), foods, ids).meals[k] == Meal(foods[k], ids[k])
  {
    LogAllKeeps(FreshLog(today), foods, ids);
  }

  lemma {:induction false} LogAllKeeps(log: DayLog, foods: seq<Food>, ids: seq<int>)
    requires |foods| == |ids|
    ensures Balanced(log) ==> Balanced(LogAll(log, foods, ids))
    ensures LogAll(log, foods, ids).date == log.date
    ensures |LogAll(log, foods, ids).meals| == |log.meals| + |foods|
    ensures LogAll(log, foods, ids).meals[..|log.meals|] == log.meals
    ensures forall k :: 0 <= k < |foods| ==> LogAll(log, foods, ids).meals[|log.meals| + k] == Meal(foods[k], ids[k])
    decreases |foods|
  {
    if foods != [] {
      var next := WithMeal(log, foods[0], ids[0]);
      LogAllKeeps(next, foods[1..], ids[1..]);
      var r := LogAll(log, foods, ids);
      assert r == LogAll(next, foods[1..], ids[1..]);
      assert r.meals[..|next.meals|] == next.meals;
      assert r.meals[..|log.meals|] == next.meals[..|log.meals|];
      forall k | 0 <= k < |foods|
        ensures r.meals[|log.meals| + k] == Meal(foods[k], ids[k])
      {
        if k > 0 {
          assert r.meals[|next.meals| + (k - 1)] == Meal(foods[1..][k - 1], ids[1..][k - 1]);
        } else {
          assert r.meals[|log.meals|] == next.meals[|log.meals|];
        }
      }
    }
  }

  // ---------------------------------------------------------------- search

  /** `toLowerCase` on the letters the food names use: A-Z and the Latin-1 capitals (not the multiplication sign). */
  function Lower(ch: char): char {
    if 'A' <= ch <= 'Z' || ('À' <= ch <= 'Þ' && ch != '×') then (ch as int + 32) as char else ch
  }

  function LowerString(s: string): (r: string)
    ensures |r| == |s| && forall i :: 0 <= i < |s| ==> r[i] == Lower(s[i])
  {
    if s == [] then [] else [Lower(s[0])] + LowerString(s[1..])
  }

  /** `String.prototype.includes`: `t` occurs in `s` at some position. */
  predicate Includes(s: string, t: string)
    ensures t <= s ==> Includes(s, t)
    ensures Includes(s, t) ==> |t| <= |s|
  {
    t <= s || (s != [] && Includes(s[1..], t))
  }

  /** `t` sits in `s` starting at index `i`. */
  predicate OccursAt(s: string, t: string, i: int) {
    0 <= i <= |s| - |t| && s[i..i + |t|] == t
  }

  /** `Includes` finds exactly the terms that occur at some position of the text. */
  lemma {:induction false} IncludesOccurs(s: string, t: string)
    ensures Includes(s, t) <==> exists i :: OccursAt(s, t, i)
  {
    if t <= s {
      assert OccursAt(s, t, 0);
    } else if s == [] {
      assert forall i :: !OccursAt(s, t, i);
    } else {
      IncludesOccurs(s[1..], t);
      if Includes(s[1..], t) {
        var i :| OccursAt(s[1..], t, i);
        assert s[1..][i..i + |t|] == s[i + 1..i + 1 + |t|];
        assert OccursAt(s, t, i + 1);
      }
      if exists i :: OccursAt(s, t, i) {
        var i :| OccursAt(s, t, i);
        assert i != 0;
        assert s[1..][i - 1..i - 1 + |t|] == s[i..i + |t|];
        assert OccursAt(s[1..], t, i - 1);
      }
    }
  }

  /** A food matches a term when its name contains the term, ignoring case. */
  predicate Matches(food: Food, term: string) {
    Includes(LowerString(food.name), LowerString(term))
  }

  /** The foods that match, in their given order. */
  function Filter(foods: seq<Food>, term: string): (r: seq<Food>)
    ensures |r| <= |foods|
    ensures forall f :: f in r <==> f in foods && Matches(f, term)
  {
    if foods == [] then []
    else (if Matches(foods[0], term) then [foods[0]] else []) + Filter(foods[1..], term)
  }

  /** Filtering keeps order: the matches of an earlier part come before those of a later part. */
  lemma {:induction false} FilterConcat(a: seq<Food>, b: seq<Food>, term: string)
    ensures Filter(a + b, term) == Filter(a, term) + Filter(b, term)
  {
    if a == [] {
      assert a + b == b;
    } else {
      assert (a + b)[1..] == a[1..] + b;
      FilterConcat(a[1..], b, term);
    }
  }

  /**
   * The search results for the current term: nothing for an empty term;
   * otherwise exactly the table's foods whose name contains the term,
   * ignoring case, in table order.
   */
  function Search(term: string): (r: seq<Food>)
    ensures term == "" ==> r == []
    ensures term != "" ==> forall f :: f in r <==> f in FoodDatabase && Matches(f, term)
  {
    if term == "" then [] else Filter(FoodDatabase, term)
  }

  /** Case does not matter: terms that lower-case alike find the same foods. */
  lemma SearchIgnoresCase(term: string, other: string)
    requires LowerString(term) == LowerString(other)
    ensures Search(term) == Search(other)
  {
    if term != "" {
      assert other != "";
      FilterIgnoresCase(FoodDatabase, term, other);
    } else {
      assert other == "";
    }
  }

  lemma {:induction false} FilterIgnoresCase(foods: seq<Food>, term: string, other: string)
    requires LowerString(term) == LowerString(other)
    ensures Filter(foods, term) == Filter(foods, other)
  {
    if foods != [] {
      FilterIgnoresCase(foods[1..], term, other);
    }
  }

  // ---------------------------------------------------------------- state

  /** The dashboard's held state and the handlers that replace it. */
  class CoachApp {
    var profile: Profile
    var log: DayLog
    var weights: seq<WeightEntry>
    var searchTerm: string

    /** Opening the dashboard: stored state where present, today's log only if dated today. */
    constructor (savedProfile: Option<Profile>, savedLog: Option<DayLog>,
                 savedWeights: Option<seq<WeightEntry>>, today: string)
      ensures profile == (if savedProfile.Some? then savedProfile.value else DefaultProfile)
      ensures log == InitialLog(savedLog, today)
      ensures weights == (if savedWeights.Some? then savedWeights.value else [])
      ensures searchTerm == ""
    {
      profile := if savedProfile.Some? then savedProfile.value else DefaultProfile;
      log := InitialLog(savedLog, today);
      weights := if savedWeights.Some? then savedWeights.value else [];
      searchTerm := "";
    }

    /** The foods listed under the search box. */
    function Results(): seq<Food>
      reads this
    {
      Search(searchTerm)
    }

    /**
     * `autoRecalculate`: recompute the goals from the passed weight, or from
     * the profile's weight when none (or zero) is passed.
     */
    method AutoRecalculate(currentWeight: Option<real>)
      modifies this`profile
      ensures profile == Recalculated(old(profile), ChosenWeight(currentWeight, old(profile)))
      ensures currentWeight.Some? && currentWeight.value != 0.0 ==> profile.weight == currentWeight.value
      ensures currentWeight.None? ==> profile.weight == old(profile.weight)
    {
      var w := ChosenWeight(currentWeight, profile);
      profile := Recalculated(profile, w);
    }

    /**
     * `addWeight`: an empty input changes nothing; otherwise one entry is
     * appended to the series and the goals are recomputed from the value.
     * A value of 0 is appended but, being falsy, leaves the profile's weight.
     */
    method AddWeight(input: Option<real>, date: string)
      modifies this`profile, this`weights
      ensures input.None? ==> profile == old(profile) && weights == old(weights)
      ensures input.Some? ==> weights == old(weights) + [WeightEntry(date, input.value)]
      ensures input.Some? ==> profile == Recalculated(old(profile), ChosenWeight(input, old(profile)))
      ensures input.Some? && input.value != 0.0 ==> profile.weight == input.value
      ensures input.Some? && input.value == 0.0 ==> profile.weight == old(profile.weight)
    {
      if input.None? {
        return;
      }
      weights := weights + [WeightEntry(date, input.value)];
      AutoRecalculate(input);
    }

    /**
     * `addMeal`: the meal is appended to today's log with the totals raised
     * by its values, and the search box is cleared.
     */
    method AddMeal(food: Food, id: int)
      modifies this`log, this`searchTerm
      ensures log == WithMeal(old(log), food, id)
      ensures old(Balanced(log)) ==> Balanced(log)
      ensures searchTerm == "" && Results() == []
    {
      log := WithMeal(log, food, id);
      searchTerm := "";
    }
  }
}
