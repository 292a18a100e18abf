# Calorie tracker: daily targets and day-log bookkeeping

A Dafny model of the deterministic core of two single-page diet-tracking
dashboards: `src/App.js` (the "coach" dashboard) and `kalori-tracker.jsx`
(the "kalori" tracker). Each one holds three pieces of state: a profile, today's
meal log with running totals, and a weight series. Each one also computes daily
calorie and macro targets from the profile.

- `metabolism.dfy` (module `Metabolism`) holds the arithmetic both
  calculators share. `Round` is JavaScript's `Math.round` over exact reals,
  `Floor(x + 1/2)`, so halves round up (towards +infinity). `MifflinStJeor`
  is the Mifflin-St Jeor basal metabolic rate, used as the reference that
  both calculators' basal rates are proved equal to. `CarbsFor` gives the
  carbohydrate grams that fill the energy left after protein and fat.
- `tracking.dfy` (module `Tracking`) holds the four running totals
  (`Macros`: kcal, protein, carbs, fat) and a weight observation.
- `coach.dfy` (module `Coach`) models `src/App.js`:
  - the `autoRecalculate` targets as functions over the profile;
  - the food-table search as a filter;
  - the day log as a value whose invariant is "totals equal the sum of the
    meals";
  - the component's state as the class `CoachApp`, whose methods
    `AutoRecalculate`, `AddWeight` and `AddMeal` replace its fields.
- `kalori.dfy` (module `Kalori`) models `kalori-tracker.jsx`: `calculateMacros`
  as `CalculateMacros`, the newest-first day log, and the class `KaloriApp`
  with `HandleAddMeal`, `SyncRecs` and the weight card's `AddWeight`.
- `variants.dfy` (module `Variants`) compares the two calculators.

Each React state updater (`setLog(prev => ...)`, `setTodayLog(prev => ...)`,
`setUserProfile(prev => ...)`) is modelled as a pure function from the old
value to the new one. The class methods assign its result to their fields.
Each handler is one atomic transition. Strings that the code compares with
literals (`gender`, the goal, the activity level) stay strings, because any
unexpected value falls through to the code's default branch.

Behaviour the proofs make explicit:

- Neither calculator clamps carbohydrates. A heavy, short, old user who is
  cutting gets a negative carbohydrate target (`NegativeCarbsExample` in both
  modules).
- In `src/App.js`, `addWeight` with the input "0" appends a 0 kg entry.
  `autoRecalculate(0)` treats 0 as falsy, so it recomputes from the profile's
  old weight, and the profile weight stays as it was.
- In `kalori-tracker.jsx`, `syncRecs` writes the recommended calories into a
  `calories` field. Nothing reads that field. The progress card keeps reading
  `dailyCalories`, which the sync leaves unchanged. The model represents
  `calories` as absent (`None`) until the first sync.
- The two calculators agree on calories and fat, and for the goal 'gain' also
  on protein and carbohydrates. For any other goal their protein targets differ
  from 5 kg of body weight up, because `src/App.js` uses 2 g protein per kg for
  every goal. Below 5 kg the rounded figures can coincide (at 1 kg all are 2 g).
- Neither file has a manual macro override, carbohydrate clamping, meal
  removal, a day reset or multi-day history, so the model has none either.

## Model

| member | source | states |
|---|---|---|
| Metabolism.Round | src/App.js:69 | `Math.round` returns the integer r with r - 1/2 <= x < r + 1/2, which is the nearest integer with halves going up |
| Metabolism.RoundHalfUp | kalori-tracker.jsx:26 | Integers round to themselves, n + 1/2 rounds to n + 1, and n - 1/2 rounds to n, also below zero |
| Metabolism.RoundShift | src/App.js:66-69 | Adding a whole number k before rounding adds exactly k to the rounded result |
| Metabolism.RoundUnique | src/App.js:69 | Any integer within the half-open half-unit window around x is Round(x) |
| Metabolism.BasalMonotone | kalori-tracker.jsx:13-15 | The basal rate never falls when weight or height grow or age drops, and strictly rises when any of them does, for either sex |
| Metabolism.RoundMonotone | src/App.js:69 | Rounding keeps order: x <= y gives Round(x) <= Round(y) |
| Metabolism.RoundStep | kalori-tracker.jsx:24 | Values at least one unit apart round to distinct integers in the same order |
| Metabolism.GoalAdjustment | src/App.js:66-67 | A goal shifts the calorie figure by between -500 and +300 kcal, and by nothing exactly when it is neither 'lose' nor 'gain' |
| Metabolism.CarbsFor | src/App.js:74 | Carbohydrates fill the remaining energy: 4·protein + 4·carbs + 9·fat lies in [kcal - 1, kcal + 2], and carbs are negative exactly when 4·protein + 9·fat exceeds kcal + 2 |
| Coach.Bmr | src/App.js:58-60 | The two-step basal rate (10w + 6.25h - 5a, then +5 for 'male', -161 otherwise) equals the Mifflin-St Jeor reference |
| Coach.DailyGoal | src/App.js:62-69 | The calorie goal is within half a kcal of basal rate × activity factor - 500 for 'lose', + 300 for 'gain', + 0 otherwise |
| Coach.CoachTargets | src/App.js:69-74 | Calories come from DailyGoal. Protein is within 1/2 of 2·w and fat within 1/2 of 0.9·w. The energy of the three macros is within -1..+2 kcal of the calorie goal |
| Coach.ChosenWeight | src/App.js:54 | `currentWeight || profile.weight`: a passed non-zero weight is used as given; the profile weight is kept exactly when no weight, 0, or that same weight is passed, so the chosen weight is 0 only if the profile weight already is |
| Coach.Recalculated | src/App.js:76-83 | After autoRecalculate, the weight is the chosen weight and the four goals are its targets. Height, age, gender, activity and goal are unchanged |
| Coach.RecalculateIdempotent | src/App.js:53-84 | Recalculating twice with the same weight gives the same profile as once, because old goals never feed new ones |
| Coach.DailyGoalRounds | src/App.js:63-69 | The two goal `if`s amount to adding the goal's adjustment (-500, +300 or 0) to basal rate × factor before one rounding |
| Coach.HeavierNeedsMore | src/App.js:54-69 | For a non-negative activity factor, a higher weight never gives a lower calorie goal |
| Coach.GoalShifts | src/App.js:66-67 | The 'lose' goal is exactly 500 kcal below 'maintain' and the 'gain' goal exactly 300 above |
| Coach.OtherGoalsMaintain | src/App.js:66-67 | Any goal string other than 'lose' or 'gain' gives the same targets as 'maintain' |
| Coach.MacrosIgnoreGoal | src/App.js:72-73 | Protein and fat do not depend on the goal |
| Coach.ModerateMaintainExample | src/App.js:53-84 | Male, 25 y, 180 cm, 80 kg, factor 1.55, maintaining gives 2798 kcal, 160 g protein, 378 g carbs and 72 g fat |
| Coach.ModerateLoseExample | src/App.js:53-84 | The same user cutting gives 2298 kcal, 160 g protein, 253 g carbs and 72 g fat |
| Coach.NegativeCarbsExample | src/App.js:74 | Carbs are not clamped: one concrete profile gets a -326 g carbohydrate goal |
| Coach.TotalsAppend | src/App.js:97-107 | The sum of the meals with one meal appended is the earlier sum plus that meal's values |
| Coach.FreshLog | src/App.js:40 | A new day's log has today's date, no meals and no exercises, and satisfies the invariant that totals equal the sum of the meals |
| Coach.InitialLog | src/App.js:36-41 | The opening log is always dated today. It is the stored log exactly when the stored date equals today, and a fresh log otherwise |
| Coach.InitialLogBalanced | src/App.js:36-41 | The opening log satisfies the totals invariant after every rollover, and when reused if the stored log did |
| Coach.WithMeal | src/App.js:97-107 | addMeal appends the stamped meal last and keeps earlier meals, date and exercises. It raises each of kcal/p/c/f by exactly the meal's value and preserves the totals invariant |
| Coach.LogAllKeeps | src/App.js:97-107 | Logging a sequence of meals keeps the date and the earlier meals, adds the new ones in the order given, and preserves the totals invariant |
| Coach.LogAllFromFresh | src/App.js:97-107 | Starting from a new day, any sequence of meals leaves exactly those meals in chronological order, with totals equal to their sum |
| Coach.Includes | src/App.js:145 | `includes`: a prefix is always included, and an included term is never longer than the text |
| Coach.IncludesOccurs | src/App.js:145 | `includes` holds exactly when the term occurs at some position of the text, so a term in the middle or at the end of a name matches |
| Coach.Filter | src/App.js:145 | A food is in the filtered list if and only if it is in the table and its lower-cased name contains the lower-cased term. The list is never longer than the table |
| Coach.FilterConcat | src/App.js:145 | Filtering keeps table order: filtering a + b gives the matches of a followed by the matches of b |
| Coach.Search | src/App.js:143-145 | An empty term shows nothing. A non-empty term shows exactly the table foods whose name contains the term, ignoring case |
| Coach.SearchIgnoresCase | src/App.js:145 | Two terms that are equal after lower-casing give the same results |
| Coach.FilterIgnoresCase | src/App.js:145 | Filtering with two terms that are equal after lower-casing gives the same list |
| Coach.LowerString | src/App.js:145 | Lower-casing keeps the length and maps each character separately |
| Coach.CoachApp.constructor | src/App.js:27-46 | The initial state is the stored profile or the default one, the opening log chosen by the rollover rule, the stored weight list or [], and an empty search term |
| Coach.CoachApp.AutoRecalculate | src/App.js:53-84 | Only the profile changes, becoming Recalculated of the passed weight, or of the profile's own weight when the argument is absent or 0 |
| Coach.CoachApp.AddWeight | src/App.js:86-95 | Empty input changes nothing. Otherwise exactly one entry is appended, the targets are recomputed, and the profile weight becomes the value unless the value is 0 |
| Coach.CoachApp.AddMeal | src/App.js:97-109 | The log becomes WithMeal of the old log and the totals invariant is kept. The search term is cleared, so no results are shown |
| Kalori.Bmr | kalori-tracker.jsx:13-15 | The two ternary branches of the basal rate equal the Mifflin-St Jeor reference |
| Kalori.ActivityFactor | kalori-tracker.jsx:17-18 | The factor is the table entry for a known level and 1.2 (sedentary) for any other level. It always lies in [1.2, 1.9] |
| Kalori.ProteinMultiplier | kalori-tracker.jsx:23 | The protein rate lies between 1.8 and 2.2 g per kg, and is 2 exactly for the goal 'gain' |
| Kalori.Calories | kalori-tracker.jsx:17-21 | The calorie figure is within half a kcal of basal rate × factor + adjustment (-500 'lose', +300 'gain', 0 otherwise) |
| Kalori.CalculateMacros | kalori-tracker.jsx:12-29 | Calories come from Calories. Protein is within 1/2 of w·(2.2 lose / 2 gain / 1.8 otherwise) and fat within 1/2 of 0.9·w. The macro energy is within -1..+2 kcal of calories |
| Kalori.CaloriesForGoal | kalori-tracker.jsx:17-21 | Changing only the goal leaves basal rate × factor as it is and changes only the adjustment added before the rounding |
| Kalori.GoalShifts | kalori-tracker.jsx:20-21 | The 'lose' calories are exactly 500 below 'maintain' and the 'gain' calories exactly 300 above |
| Kalori.OtherGoalsMaintain | kalori-tracker.jsx:20-23 | Any goal other than 'lose' or 'gain' gives the same recommendation as 'maintain' |
| Kalori.UnknownLevelIsSedentary | kalori-tracker.jsx:17-18 | A level missing from the table gives the same recommendation as 'sedentary' |
| Kalori.RecommendationIgnoresGoals | kalori-tracker.jsx:75-78 | Syncing does not change the next recommendation, because the written goals never feed the calculator |
| Kalori.MaintainExample | kalori-tracker.jsx:12-28 | Male, 25 y, 180 cm, 80 kg, moderate, maintaining gives {calories 2798, protein 144, fat 72, carbs 394} |
| Kalori.LoseExample | kalori-tracker.jsx:12-28 | The same user losing weight gives {2298, 176, 72, 237} |
| Kalori.NegativeCarbsExample | kalori-tracker.jsx:26 | Carbs are not clamped: one concrete profile gets -366 g |
| Kalori.Synced | kalori-tracker.jsx:75-78 | After the sync, calories, protein, fat and carbs are the recommendation's values, and every other field, including dailyCalories, is unchanged |
| Kalori.SyncLeavesCalorieGoal | kalori-tracker.jsx:75-78 | The sync never changes dailyCalories, so from the default profile the card's goal stays 2200 while the recommendation is 2798 |
| Kalori.FreshLog | kalori-tracker.jsx:46 | A new day's log has today's date, no entries and zero totals, which satisfies the totals invariant |
| Kalori.InitialLog | kalori-tracker.jsx:42-47 | The opening log is always dated today. It is the stored log exactly when the stored date equals today, and a fresh log otherwise |
| Kalori.InitialLogBalanced | kalori-tracker.jsx:42-47 | The opening log satisfies the totals invariant after every rollover, and when reused if the stored log did |
| Kalori.WithEntry | kalori-tracker.jsx:64-73 | handleAddMeal puts the new entry first with the earlier entries after it in order. It raises each total by exactly the meal's value and preserves the totals invariant |
| Kalori.FormMeal | kalori-tracker.jsx:213-223 | A meal from the form has zero carbs and fat, so logging it leaves the carbohydrate and fat totals unchanged |
| Kalori.KaloriApp.constructor | kalori-tracker.jsx:33-56 | The initial state is the stored profile or the default one, the opening log chosen by the rollover rule, and the stored weight log or the three default entries |
| Kalori.KaloriApp.HandleAddMeal | kalori-tracker.jsx:64-73 | Only the log changes, becoming WithEntry of the old log, and the totals invariant is kept |
| Kalori.KaloriApp.SyncRecs | kalori-tracker.jsx:75-78 | Only the profile changes, becoming Synced of the old profile. dailyCalories is unchanged |
| Kalori.KaloriApp.AddWeight | kalori-tracker.jsx:112-121 | Empty input changes nothing. Otherwise exactly one entry is appended and currentWeight becomes the value. No target is recomputed |
| Variants.CalculatorsAgree | kalori-tracker.jsx:12-29 | Given matching measures, goal and the factor the tracker's table (or its 1.2 fallback) gives, both calculators give the same calories and fat, and for 'gain' also the same protein and carbs |
| Variants.ProteinDiffers | kalori-tracker.jsx:23-24 | For every goal other than 'gain' and every weight from 5 kg up, the two protein targets differ |
| Variants.ProteinPoliciesDiffer | kalori-tracker.jsx:23-24 | At 80 kg the tracker asks 16 g more protein than the dashboard to lose weight and 16 g less to maintain |

## Left out

- Rendering: charts, icons, styles and the progress-bar percentages are display only.
- Settings edits: the settings panels' plain field edits, the search box's `setSearchTerm` on typing, and the clearing of the weight input field all just set one field.
- Persistence: `localStorage` reads and writes and `JSON.parse` are left out. The stored profile, log and weight list are parameters (`None` when absent).
- Clock: `Date.now()` ids, `toDateString` and the `toLocale*String` labels are opaque parameters.
- Parsing: `parseFloat` and `Number` are left out, and every number arrives already parsed. An empty weight input is `None`, and empty meal fields are 0, as `Number('')` gives. Non-numeric input (NaN) is not modelled.
- Floating point: the model uses exact reals instead of IEEE-754 doubles. Only values within floating-point error of a .5 rounding boundary could round differently.
- Concurrency: React batching, effects and the component lifecycle are left out. Each handler is one atomic transition.
- Coach.LowerString: lower-cases only ASCII and Latin-1 capitals, not full Unicode `toLowerCase`. The food names need no more, but the user types the term. So Coach.Search can miss a match for a term with other characters, such as U+212A KELVIN SIGN, which JavaScript lower-cases to 'k'.
- Kalori.ActivityFactor: treats names inherited from the JavaScript object prototype (such as `toString`) as missing levels.
