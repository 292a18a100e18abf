/**
 * The calorie tracker of kalori-tracker.jsx: a profile with calorie and macro
 * goals, a recommendation calculator, today's log kept newest-first with its
 * running totals, and the weight series.
 *
 * Persistence, the clock and string parsing stay outside: the stored state,
 * today's date key, entry ids, times and weight labels are parameters, and
 * every number arrives already parsed.
 */
module Kalori {
  import opened Wrappers
  import opened Metabolism
  import opened Tracking

  // ---------------------------------------------------------------- data

  /**
   * The user profile. `dailyCalories` is the calorie goal the progress card
   * shows; `calories` is the field the recommendation sync writes, absent
   * until the first sync. `weightGoal`, `gender` and `activityLevel` are the
   * strings the settings store.
   */
  datatype UserProfile = UserProfile(
    dailyCalories: int, protein: int, carbs: int, fat: int,
    calories: Option<int>,
    weightGoal: string, currentWeight: real, targetWeight: real,
    height: real, age: real, gender: string, activityLevel: string)

  /** The profile used when nothing is stored. */
  const DefaultProfile := UserProfile(2200, 160, 250, 70, None, "maintain", 80.0, 80.0, 180.0, 25.0, "male", "moderate")

  /** The weight series used when nothing is stored. */
  const DefaultWeightLog := [WeightEntry("20. Jan", 82.0), WeightEntry("25. Jan", 81.5), WeightEntry("01. Feb", 80.8)]

  /** A meal as the form hands it over. */
  datatype MealInput = MealInput(name: string, calories: real, protein: real, carbs: real, fat: real) {
    function Nutrients(): Macros { Macros(calories, protein, carbs, fat) }
  }

  /** A logged entry: the meal stamped with an id and a time label. */
  datatype Entry = Entry(meal: MealInput, id: int, time: string)

  /** Today's log: the four running totals and the entries, newest first. */
  datatype TodayLog = TodayLog(date: string, totals: Macros, entries: seq<Entry>)

  /** The recommendation `calculateMacros` returns. */
  datatype Recs = Recs(calories: int, protein: int, fat: int, carbs: int)

  // ---------------------------------------------------------------- calculator

  /** The basal rate, written as two whole formulas selected by sex. */
  function Bmr(p: UserProfile): (bmr: real)
    ensures bmr == MifflinStJeor(p.currentWeight, p.height, p.age, p.gender == "male")
  {
    if p.gender == "male"
    then 10.0 * p.currentWeight + 6.25 * p.height - 5.0 * p.age + 5.0
    else 10.0 * p.currentWeight + 6.25 * p.height - 5.0 * p.age - 161.0
  }

  /** The activity table. */
  const Multipliers: map<string, real> :=
    map["sedentary" := 1.2, "light" := 1.375, "moderate" := 1.55, "active" := 1.725, "veryActive" := 1.9]

  /** The factor for an activity level; a level outside the table counts as sedentary. */
  function ActivityFactor(level: string): (m: real)
    ensures level in Multipliers ==> m == Multipliers[level]
    ensures level !in Multipliers ==> m == Multipliers["sedentary"]
    ensures 1.2 <= m <= 1.9
  {
    if level in Multipliers then Multipliers[level] else 1.2
  }

  /** Grams of protein per kg: 2.2 to lose weight, 2 to gain, 1.8 for any other goal. */
  function ProteinMultiplier(goal: string): (m: real)
    ensures 1.8 <= m <= 2.2
    ensures m == 2.0 <==> goal == "gain"
  {
    if goal == "lose" then 2.2 else if goal == "gain" then 2.0 else 1.8
  }

  /** The calorie figure: the basal rate times the activity factor plus the goal's adjustment, rounded. */
  function Calories(p: UserProfile): (cals: int)
    ensures cals as real - 0.5 <= Bmr(p) * ActivityFactor(p.activityLevel) + GoalAdjustment(p.weightGoal) < cals as real + 0.5
  {
    var tdee := Bmr(p) * ActivityFactor(p.activityLevel);
    Round(tdee + GoalAdjustment(p.weightGoal))
  }

  /**
   * `calculateMacros`: calories are the basal rate times the activity factor
   * plus the goal's adjustment, rounded; protein and fat are the goal's
   * protein rate and 0.9 g times the weight, rounded; carbohydrates fill the
   * remaining energy, unclamped.
   */
  function CalculateMacros(p: UserProfile): (r: Recs)
    ensures r.calories == Calories(p)
    ensures r.protein as real - 0.5 <= p.currentWeight * ProteinMultiplier(p.weightGoal) < r.protein as real + 0.5
    ensures r.fat as real - 0.5 <= p.currentWeight * 0.9 < r.fat as real + 0.5
    ensures r.calories - 1 <= 4 * r.protein + 4 * r.carbs + 9 * r.fat <= r.calories + 2
  {
    RecsFor(Calories(p), p.currentWeight, p.weightGoal)
  }

  /** The macro split for a calorie figure, a weight and a goal. */
  function RecsFor(cals: int, weight: real, goal: string): Recs {
    var protein := Round(weight * ProteinMultiplier(goal));
    var fat := Round(weight * 0.9);
    Recs(cals, protein, fat, CarbsFor(cals, protein, fat))
  }

  /** Changing only the goal changes only the adjustment added before rounding. */
  lemma CaloriesForGoal(p: UserProfile, goal: string)
    ensures Calories(p.(weightGoal := goal)) == Round(Bmr(p) * ActivityFactor(p.activityLevel) + GoalAdjustment(goal))
  {
    assert Bmr(p.(weightGoal := goal)) == Bmr(p);
  }

  /** Cutting takes exactly 500 kcal off the maintenance figure and bulking adds exactly 300. */
  lemma GoalShifts(p: UserProfile)
    ensures CalculateMacros(p.(weightGoal := "lose")).calories == CalculateMacros(p.(weightGoal := "maintain")).calories - 500
    ensures CalculateMacros(p.(weightGoal := "gain")).calories == CalculateMacros(p.(weightGoal := "maintain")).calories + 300
  {
    var tdee := Bmr(p) * ActivityFactor(p.activityLevel);
    CaloriesForGoal(p, "lose");
    CaloriesForGoal(p, "maintain");
    CaloriesForGoal(p, "gain");
    RoundShift(tdee, -500);
    RoundShift(tdee, 300);
  }

  /** Only 'lose' and 'gain' change the recommendation; every other goal string behaves as 'maintain'. */
  lemma OtherGoalsMaintain(p: UserProfile)
    requires p.weightGoal != "lose" && p.weightGoal != "gain"
    ensures CalculateMacros(p) == CalculateMacros(p.(weightGoal := "maintain"))
  {
    var q := p.(weightGoal := "maintain");
    assert Bmr(q) == Bmr(p);
    assert GoalAdjustment(q.weightGoal) == GoalAdjustment(p.weightGoal) == 0.0;
    assert Calories(q) == Calories(p);
    assert ProteinMultiplier(q.weightGoal) == ProteinMultiplier(p.weightGoal);
    assert RecsFor(Calories(p), p.currentWeight, q.weightGoal) == RecsFor(Calories(p), p.currentWeight, p.weightGoal);
  }

  /** A level missing from the table gives the sedentary recommendation. */
  lemma UnknownLevelIsSedentary(p: UserProfile)
    requires p.activityLevel !in Multipliers
    ensures CalculateMacros(p) == CalculateMacros(p.(activityLevel := "sedentary"))
  {
    var q := p.(activityLevel := "sedentary");
    assert ActivityFactor(q.activityLevel) == ActivityFactor(p.activityLevel);
    assert Bmr(q) == Bmr(p);
    assert Calories(q) == Calories(p);
    assert CalculateMacros(q) == RecsFor(Calories(p), p.currentWeight, p.weightGoal);
  }

  /** Only the profile's measures, sex, level and goal matter: goals and history do not feed back. */
  lemma RecommendationIgnoresGoals(p: UserProfile)
    ensures CalculateMacros(Synced(p)) == CalculateMacros(p)
  {
    var q := Synced(p);
    assert q.currentWeight == p.currentWeight && q.weightGoal == p.weightGoal;
    assert Bmr(q) == Bmr(p);
    assert Calories(q) == Calories(p);
    assert CalculateMacros(q) == RecsFor(Calories(p), p.currentWeight, p.weightGoal);
  }

  /** Male, 25, 180 cm, 80 kg, moderate, maintaining: 2798 kcal, 144 g protein, 72 g fat, 394 g carbs. */
  lemma MaintainExample()
    ensures CalculateMacros(DefaultProfile) == Recs(2798, 144, 72, 394)
  {
    RoundUnique(2797.75, 2798);
    RoundUnique(144.0, 144);
    RoundUnique(72.0, 72);
    RoundUnique(393.5, 394);
  }

  /** The same man cutting: 2298 kcal, 176 g protein, 72 g fat, 237 g carbs. */
  lemma LoseExample()
    ensures CalculateMacros(DefaultProfile.(weightGoal := "lose")) == Recs(2298, 176, 72, 237)
  {
    RoundUnique(2297.75, 2298);
    RoundUnique(176.0, 176);
    RoundUnique(72.0, 72);
    RoundUnique(236.5, 237);
  }

  /**
   * Carbohydrates are not clamped: a 200 kg woman of 90, 100 cm tall, sedentary
   * and cutting, is recommended 1917 kcal, 440 g protein, 180 g fat and -366 g carbs.
   */
  lemma NegativeCarbsExample()
    ensures CalculateMacros(UserProfile(0, 0, 0, 0, None, "lose", 200.0, 200.0, 100.0, 90.0, "female", "sedentary"))
         == Recs(1917, 440, 180, -366)
  {
    RoundUnique(1916.8, 1917);
    RoundUnique(440.0, 440);
    RoundUnique(180.0, 180);
    RoundUnique(-365.75, -366);
  }

  /**
   * The profile after `syncRecs`: the recommendation spread over it, which
   * replaces `calories`, `protein`, `fat` and `carbs` and nothing else.
   */
  function Synced(p: UserProfile): (r: UserProfile)
    ensures r.calories == Some(CalculateMacros(p).calories)
    ensures r.protein == CalculateMacros(p).protein && r.fat == CalculateMacros(p).fat
    ensures r.carbs == CalculateMacros(p).carbs
    ensures r.(calories := p.calories, protein := p.protein, fat := p.fat, carbs := p.carbs) == p
  {
    var recs := CalculateMacros(p);
    p.(calories := Some(recs.calories), protein := recs.protein, fat := recs.fat, carbs := recs.carbs)
  }

  /**
   * The sync writes `calories`, which nothing reads, and leaves `dailyCalories`,
   * the goal on the progress card: from the default profile the card keeps
   * 2200 kcal while the recommendation is 2798.
   */
  lemma SyncLeavesCalorieGoal(p: UserProfile)
    ensures Synced(p).dailyCalories == p.dailyCalories
    ensures Synced(DefaultProfile).dailyCalories == 2200 != CalculateMacros(DefaultProfile).calories
  {
    MaintainExample();
  }

  // ---------------------------------------------------------------- day log

  /** The element-wise sum of the entries' nutrients. */
  function Totals(entries: seq<Entry>): Macros {
    if entries == [] then Zero else entries[0].meal.Nutrients().Plus(Totals(entries[1..]))
  }

  /** The ledger invariant: the running totals are the sum of the logged entries. */
  predicate Balanced(log: TodayLog) {
    log.totals == Totals(log.entries)
  }

  /** The log a new day starts with: no entries, all totals zero. */
  function FreshLog(today: string): (log: TodayLog)
    ensures log.date == today && log.entries == []
    ensures Balanced(log)
  {
    TodayLog(today, Zero, [])
  }

  /**
   * The log the tracker opens with: the stored one only if it is dated today,
   * otherwise a fresh one. Either way it is today's log.
   */
  function InitialLog(saved: Option<TodayLog>, today: string): (log: TodayLog)
    ensures log.date == today
    ensures saved.Some? && saved.value.date == today ==> log == saved.value
    ensures (saved.None? || saved.value.date != today) ==> log == FreshLog(today)
  {
    if saved.Some? && saved.value.date == today then saved.value else FreshLog(today)
  }

  /** The opening log keeps the ledger invariant whenever the stored one did, and on every rollover. */
  lemma InitialLogBalanced(saved: Option<TodayLog>, today: string)
    requires saved.Some? && saved.value.date == today ==> Balanced(saved.value)
    ensures Balanced(InitialLog(saved, today))
  {
  }

  /**
   * The log after `handleAddMeal`: the new entry first, the earlier entries
   * after it in their order, each total raised by exactly the meal's value;
   * the ledger invariant is preserved.
   */
  function WithEntry(log: TodayLog, meal: MealInput, id: int, time: string): (r: TodayLog)
    ensures r.date == log.date
    ensures |r.entries| == |log.entries| + 1
    ensures r.entries[0] == Entry(meal, id, time) && r.entries[1..] == log.entries
    ensures r.totals.kcal == log.totals.kcal + meal.calories && r.totals.protein == log.totals.protein + meal.protein
    ensures r.totals.carbs == log.totals.carbs + meal.carbs && r.totals.fat == log.totals.fat + meal.fat
    ensures Balanced(log) ==> Balanced(r)
  {
    log.(totals := log.totals.Plus(meal.Nutrients()), entries := [Entry(meal, id, time)] + log.entries)
  }

  /**
   * The meal form has no carbohydrate or fat field; `Number('')` is 0, so
   * what it submits adds nothing to those two totals.
   */
  function FormMeal(name: string, calories: real, protein: real): (m: MealInput)
    ensures m.name == name && m.calories == calories && m.protein == protein
    ensures forall log: TodayLog, id: int, time: string {:trigger WithEntry(log, m, id, time)} ::
      WithEntry(log, m, id, time).totals.carbs == log.totals.carbs &&
      WithEntry(log, m, id, time).totals.fat == log.totals.fat
  {
    MealInput(name, calories, protein, 0.0, 0.0)
  }

  // ---------------------------------------------------------------- state

  /** The tracker's held state and the handlers that replace it. */
  class KaloriApp {
    var userProfile: UserProfile
    var todayLog: TodayLog
    var weightLog: seq<WeightEntry>

    /** Opening the tracker: stored state where present, today's log only if dated today. */
    constructor (savedProfile: Option<UserProfile>, savedLog: Option<TodayLog>,
                 savedWeights: Option<seq<WeightEntry>>, today: string)
      ensures userProfile == (if savedProfile.Some? then savedProfile.value else DefaultProfile)
      ensures todayLog == InitialLog(savedLog, today)
      ensures weightLog == (if savedWeights.Some? then savedWeights.value else DefaultWeightLog)
    {
      userProfile := if savedProfile.Some? then savedProfile.value else DefaultProfile;
      todayLog := InitialLog(savedLog, today);
      weightLog := if savedWeights.Some? then savedWeights.value else DefaultWeightLog;
    }

    /** `handleAddMeal`: the entry is put first and the totals raised by its values. */
    method HandleAddMeal(meal: MealInput, id: int, time: string)
      modifies this`todayLog
      ensures todayLog == WithEntry(old(todayLog), meal, id, time)
      ensures old(Balanced(todayLog)) ==> Balanced(todayLog)
    {
      todayLog := WithEntry(todayLog, meal, id, time);
    }

    /** `syncRecs`: the recommendation for the current profile is merged into it. */
    method SyncRecs()
      modifies this`userProfile
      ensures userProfile == Synced(old(userProfile))
      ensures userProfile.dailyCalories == old(userProfile.dailyCalories)
    {
      userProfile := Synced(userProfile);
    }

    /**
     * `addWeight` of the weight card: an empty input changes nothing;
     * otherwise one entry is appended and the current weight set to the
     * value. No goal is recomputed.
     */
    method AddWeight(input: Option<real>, date: string)
      modifies this`userProfile, this`weightLog
      ensures input.None? ==> userProfile == old(userProfile) && weightLog == old(weightLog)
      ensures input.Some? ==> weightLog == old(weightLog) + [WeightEntry(date, input.value)]
      ensures input.Some? ==> userProfile == old(userProfile).(currentWeight := input.value)
    {
      if input.None? {
        return;
      }
      weightLog := weightLog + [WeightEntry(date, input.value)];
      userProfile := userProfile.(currentWeight := input.value);
    }
  }
}
