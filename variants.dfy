/**
 * The two daily-target calculators side by side. Given the same body
 * measures, sex, goal and activity factor they agree on calories and fat,
 * and for the goal 'gain' also on protein and carbohydrates. For any other
 * goal their protein targets differ from 5 kg of body weight up, because the
 * dashboard uses 2 g protein per kg for every goal while the tracker uses
 * 2.2 g to lose weight, 2 g to gain and 1.8 g otherwise.
 */
module Variants {
  import Metabolism
  import Coach
  import Kalori

  lemma CalculatorsAgree(cp: Coach.Profile, kp: Kalori.UserProfile)
    requires cp.height == kp.height && cp.age == kp.age && cp.gender == kp.gender
    requires cp.goal == kp.weightGoal
    requires cp.activity == Kalori.ActivityFactor(kp.activityLevel)
    ensures Coach.CoachTargets(cp, kp.currentWeight).kcal == Kalori.CalculateMacros(kp).calories
    ensures Coach.CoachTargets(cp, kp.currentWeight).fat == Kalori.CalculateMacros(kp).fat
    ensures kp.weightGoal == "gain" ==>
      Coach.CoachTargets(cp, kp.currentWeight).protein == Kalori.CalculateMacros(kp).protein &&
      Coach.CoachTargets(cp, kp.currentWeight).carbs == Kalori.CalculateMacros(kp).carbs
  {
    var w := kp.currentWeight;
    assert Coach.Bmr(cp, w) == Kalori.Bmr(kp);
    assert Coach.DailyGoal(cp, w) == Kalori.Calories(kp);
  }

  /** For every goal but 'gain', from 5 kg up, the two protein targets differ. */
  lemma ProteinDiffers(cp: Coach.Profile, kp: Kalori.UserProfile)
    requires kp.currentWeight >= 5.0 && kp.weightGoal != "gain"
    ensures Coach.CoachTargets(cp, kp.currentWeight).protein != Kalori.CalculateMacros(kp).protein
  {
    var w := kp.currentWeight;
    if kp.weightGoal == "lose" {
      Metabolism.RoundStep(w * 2.0, w * 2.2);
    } else {
      Metabolism.RoundStep(w * 1.8, w * 2.0);
    }
  }

  /** At the worked example's 80 kg the tracker asks 16 g more protein to lose weight and 16 g less to maintain. */
  lemma ProteinPoliciesDiffer()
    ensures Coach.CoachTargets(Coach.DefaultProfile.(goal := "lose"), 80.0).protein
         == Kalori.CalculateMacros(Kalori.DefaultProfile.(weightGoal := "lose")).protein - 16
    ensures Coach.CoachTargets(Coach.DefaultProfile, 80.0).protein
         == Kalori.CalculateMacros(Kalori.DefaultProfile).protein + 16
  {
    Metabolism.RoundUnique(160.0, 160);
    Metabolism.RoundUnique(176.0, 176);
    Metabolism.RoundUnique(144.0, 144);
  }
}
