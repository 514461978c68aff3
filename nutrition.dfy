/**
 * The nutrition calculator (`NutritionCalculator` in utils.py): body-mass
 * index and its WHO bands, basal metabolic rate, daily calories and macro
 * split, water needs, ideal weight, meal-plan distribution and the rate of
 * weight change. All arithmetic is on `real`; `round` is `Rounding.RoundHalfEven`
 * or `Rounding.Round`.
 */
module Nutrition {
  import opened Wrappers
  import opened Text
  import opened Rounding

  // ---------------------------------------------------------------------------
  // Body-mass index

  /** Weight (kg) over height (m) squared, unrounded; over the reals `w / m²` is `w / m / m`. */
  function BmiExact(weight: real, height: real): real
    requires height > 0.0
  {
    weight / (height / 100.0) / (height / 100.0)
  }

  /** `calculate_bmi`: the index to one decimal; 0 for a non-positive height. */
  function Bmi(weight: real, height: real): (r: real)
    ensures height <= 0.0 ==> r == 0.0
    ensures height > 0.0 ==> -0.05 <= r - BmiExact(weight, height) <= 0.05
  {
    if height <= 0.0 then 0.0
    else
      assert Pow10(1) == 10;
      Round(BmiExact(weight, height), 1)
  }

  /** 70 kg at 175 cm gives 22.9, which agrees to one decimal place with the 22.86 expected by tests/test_basic.py:35-36. */
  lemma BmiOfSampleProfile()
    ensures Bmi(70.0, 175.0) == 22.9
    ensures RoundHalfEven((Bmi(70.0, 175.0) - 22.86) * 10.0) == 0
  {
    var x := 70.0 / 1.75 / 1.75 * 10.0;
    assert 228.0 <= x < 229.0;
    assert x.Floor == 228;
    assert RoundHalfEven(x) == 229;
    assert Round(70.0 / 1.75 / 1.75, 1) == 229.0 / 10.0;
    assert (22.9 - 22.86) * 10.0 == 0.4;
    assert (0.4).Floor == 0;
  }

  /** The band boundaries of the WHO classification. */
  const BmiThresholds: seq<real> := [16.0, 18.5, 25.0, 30.0, 35.0, 40.0]

  /** The labels of the seven bands, lowest first. */
  const BmiLabels: seq<string> := [
    "Выраженный дефицит массы тела",
    "Недостаточная масса тела",
    "Нормальная масса тела",
    "Избыточная масса тела (предожирение)",
    "Ожирение 1 степени",
    "Ожирение 2 степени",
    "Ожирение 3 степени"
  ]

  /** `interpret_bmi`, branch by branch. */
  function InterpretBmi(bmi: real): (r: string)
    ensures r in BmiLabels
    ensures bmi < 16.0 <==> r == BmiLabels[0]
    ensures bmi >= 40.0 <==> r == BmiLabels[6]
  {
    if bmi < 16.0 then BmiLabels[0]
    else if 16.0 <= bmi < 18.5 then BmiLabels[1]
    else if 18.5 <= bmi < 25.0 then BmiLabels[2]
    else if 25.0 <= bmi < 30.0 then BmiLabels[3]
    else if 30.0 <= bmi < 35.0 then BmiLabels[4]
    else if 35.0 <= bmi < 40.0 then BmiLabels[5]
    else BmiLabels[6]
  }

  /** The number of thresholds at or below `bmi`: the index of its band. */
  function BmiBand(bmi: real): (k: nat)
    ensures k < |BmiLabels|
    ensures k > 0 ==> BmiThresholds[k - 1] <= bmi
    ensures k < |BmiThresholds| ==> bmi < BmiThresholds[k]
  {
    CountAtOrBelow(BmiThresholds, bmi)
  }

  function CountAtOrBelow(ts: seq<real>, x: real): (k: nat)
    requires forall i, j | 0 <= i < j < |ts| :: ts[i] < ts[j]
    ensures k <= |ts|
    ensures k > 0 ==> ts[k - 1] <= x
    ensures k < |ts| ==> x < ts[k]
  {
    if |ts| == 0 || x < ts[0] then 0 else 1 + CountAtOrBelow(ts[1..], x)
  }

  /** `interpret_bmi` is total and names exactly the band whose thresholds enclose `bmi`. */
  lemma InterpretBmiNamesBand(bmi: real)
    ensures InterpretBmi(bmi) == BmiLabels[BmiBand(bmi)]
  {
  }

  /** A larger BMI never falls into a lower band. */
  lemma BmiBandMonotone(a: real, b: real)
    requires a <= b
    ensures BmiBand(a) <= BmiBand(b)
  {
  }

  /** The value expected by tests/test_basic.py:39-40 is in the normal band. */
  lemma InterpretSampleBmi()
    ensures InterpretBmi(22.86) == "Нормальная масса тела"
  {
  }

  // ---------------------------------------------------------------------------
  // Basal metabolic rate and daily calories

  /** `calculate_bmr`: Mifflin-St Jeor; every gender other than "male" gets the female constant. */
  function Bmr(weight: real, height: real, age: int, gender: string): real {
    if gender == "male" then 10.0 * weight + 6.25 * height - 5.0 * age as real + 5.0
    else 10.0 * weight + 6.25 * height - 5.0 * age as real - 161.0
  }

  /** The male and female formulas differ by exactly 166 kcal. */
  lemma BmrGenderGap(weight: real, height: real, age: int, other: string)
    requires other != "male"
    ensures Bmr(weight, height, age, "male") - Bmr(weight, height, age, other) == 166.0
  {
  }

  const ActivityMultipliers: map<string, real> := map[
    "sedentary" := 1.2, "light" := 1.375, "moderate" := 1.55, "active" := 1.725, "very_active" := 1.9
  ]

  const GoalMultipliers: map<string, real> := map["lose" := 0.8, "maintain" := 1.0, "gain" := 1.2]

  /** Python's `d.get(key, default)`. */
  function Get(m: map<string, real>, key: string, default: real): real {
    if key in m then m[key] else default
  }

  /** Shares of the calories that come from protein, fat and carbohydrates. */
  datatype MacroRatios = MacroRatios(protein: real, fat: real, carbs: real)

  /** The macro split for a goal; any goal but "lose" and "gain" gets the maintenance split. */
  function RatiosFor(goal: string): (r: MacroRatios)
    ensures r.protein + r.fat + r.carbs == 1.0
    ensures r.protein > 0.0 && r.fat > 0.0 && r.carbs > 0.0
  {
    if goal == "lose" then MacroRatios(0.35, 0.30, 0.35)
    else if goal == "gain" then MacroRatios(0.30, 0.25, 0.45)
    else MacroRatios(0.30, 0.30, 0.40)
  }

  /** The result of `calculate_daily_calories`: the calorie target and the `macros` dictionary. */
  datatype DailyTarget = DailyTarget(
    calories: int,
    protein: int, fat: int, carbs: int,
    proteinPercent: real, fatPercent: real, carbsPercent: real)

  /** `bmr × activity multiplier × goal multiplier`, before rounding. */
  function MaintainedEnergy(weight: real, height: real, age: int, gender: string, activity: string, goal: string): real {
    Bmr(weight, height, age, gender) * Get(ActivityMultipliers, activity, 1.2) * Get(GoalMultipliers, goal, 1.0)
  }

  /** `round(calories × ratio / kcalPerGram)`: grams of a macronutrient. */
  function Grams(calories: int, ratio: real, kcalPerGram: real): (g: int)
    requires kcalPerGram > 0.0
    ensures -0.5 * kcalPerGram <= kcalPerGram * g as real - calories as real * ratio <= 0.5 * kcalPerGram
  {
    var n := RoundHalfEven(calories as real * ratio / kcalPerGram);
    ScaleBound(n as real - calories as real * ratio / kcalPerGram, kcalPerGram, n as real, calories as real * ratio);
    n
  }

  lemma ScaleBound(e: real, k: real, n: real, x: real)
    requires k > 0.0 && -0.5 <= e <= 0.5 && e == n - x / k
    ensures -0.5 * k <= k * n - x <= 0.5 * k
  {
    assert k * (x / k) == x;
    assert k * e == k * n - k * (x / k);
    MulNonneg(k, e + 0.5);
    MulNonneg(k, 0.5 - e);
    assert k * (e + 0.5) == k * e + 0.5 * k && k * (0.5 - e) == 0.5 * k - k * e;
  }

  /** `calculate_daily_calories`. */
  function DailyCalories(weight: real, height: real, age: int, gender: string, activity: string, goal: string): (r: DailyTarget)
    ensures -0.5 <= r.calories as real - MaintainedEnergy(weight, height, age, gender, activity, goal) <= 0.5
  {
    var total := RoundHalfEven(MaintainedEnergy(weight, height, age, gender, activity, goal));
    var ratios := RatiosFor(goal);
    DailyTarget(
      total,
      Grams(total, ratios.protein, 4.0), Grams(total, ratios.fat, 9.0), Grams(total, ratios.carbs, 4.0),
      ratios.protein * 100.0, ratios.fat * 100.0, ratios.carbs * 100.0)
  }

  /**
   * The `macros` of the target: the goal's percents, which sum to 100, and
   * grams within rounding of calories × ratio / 4 (9 for fat).
   */
  lemma DailyCaloriesMacros(weight: real, height: real, age: int, gender: string, activity: string, goal: string)
    ensures var r, ratios := DailyCalories(weight, height, age, gender, activity, goal), RatiosFor(goal);
      && r.proteinPercent + r.fatPercent + r.carbsPercent == 100.0
      && r.proteinPercent == ratios.protein * 100.0
      && r.fatPercent == ratios.fat * 100.0
      && r.carbsPercent == ratios.carbs * 100.0
      && -2.0 <= 4.0 * r.protein as real - r.calories as real * ratios.protein <= 2.0
      && -4.5 <= 9.0 * r.fat as real - r.calories as real * ratios.fat <= 4.5
      && -2.0 <= 4.0 * r.carbs as real - r.calories as real * ratios.carbs <= 2.0
  {
    hide MaintainedEnergy, RoundHalfEven;
    var r, ratios := DailyCalories(weight, height, age, gender, activity, goal), RatiosFor(goal);
    assert r.protein == Grams(r.calories, ratios.protein, 4.0);
    assert r.fat == Grams(r.calories, ratios.fat, 9.0);
    assert r.carbs == Grams(r.calories, ratios.carbs, 4.0);
  }

  /** An activity level the table does not know is treated as "sedentary" (1.2). */
  lemma UnknownActivityIsSedentary(weight: real, height: real, age: int, gender: string, activity: string, goal: string)
    requires activity !in ActivityMultipliers
    ensures DailyCalories(weight, height, age, gender, activity, goal)
         == DailyCalories(weight, height, age, gender, "sedentary", goal)
  {
  }

  /** A goal the table does not know gets multiplier 1.0 and the maintenance split. */
  lemma UnknownGoalIsMaintain(weight: real, height: real, age: int, gender: string, activity: string, goal: string)
    requires goal !in GoalMultipliers
    ensures DailyCalories(weight, height, age, gender, activity, goal)
         == DailyCalories(weight, height, age, gender, activity, "maintain")
  {
    assert goal != "lose" && goal != "gain";
    assert RatiosFor(goal) == RatiosFor("maintain");
    assert MaintainedEnergy(weight, height, age, gender, activity, goal)
        == MaintainedEnergy(weight, height, age, gender, activity, "maintain");
  }

  /** The profile of tests/test_basic.py:47-52 (70 kg, 175 cm, 30 years, male, moderate, maintain) gets 2556 kcal. */
  lemma DailyCaloriesOfSampleProfile()
    ensures DailyCalories(70.0, 175.0, 30, "male", "moderate", "maintain").calories == 2556
  {
    var e := MaintainedEnergy(70.0, 175.0, 30, "male", "moderate", "maintain");
    assert e == 2555.5625;
    assert e.Floor == 2555;
  }

  // ---------------------------------------------------------------------------
  // Water

  /** Millilitres of water per kilogram of body weight (config.py). */
  const WaterMultiplier: real := 35.0

  const ActivityWaterFactors: map<string, real> := map[
    "sedentary" := 1.0, "light" := 1.1, "moderate" := 1.2, "active" := 1.3, "very_active" := 1.4
  ]

  const ClimateFactors: map<string, real> := map["cold" := 0.9, "moderate" := 1.0, "hot" := 1.2, "very_hot" := 1.3]

  /** The daily water need before rounding; unknown factors count as 1.0. */
  function WaterBeforeRounding(weight: real, activity: string, climate: string): real {
    weight * WaterMultiplier * Get(ActivityWaterFactors, activity, 1.0) * Get(ClimateFactors, climate, 1.0)
  }

  /** `calculate_water_needs`: the need rounded to the nearest 100 ml. */
  function WaterNeeds(weight: real, activity: string, climate: string): (r: int)
    ensures r % 100 == 0
    ensures -50.0 <= r as real - WaterBeforeRounding(weight, activity, climate) <= 50.0
  {
    var total := WaterBeforeRounding(weight, activity, climate);
    var hundreds := RoundHalfEven(total / 100.0);
    assert -50.0 <= hundreds as real * 100.0 - total <= 50.0;
    hundreds * 100
  }

  // ---------------------------------------------------------------------------
  // Ideal weight

  /** Broca: height − 100, times 0.85 for "female" only. */
  function Broca(height: real, gender: string): real {
    if gender == "female" then (height - 100.0) * 0.85 else height - 100.0
  }

  /** Lorenz: the male divisor 4 for "male" only, 2.5 otherwise. */
  function Lorenz(height: real, gender: string): real {
    if gender == "male" then (height - 100.0) - (height - 150.0) / 4.0
    else (height - 100.0) - (height - 150.0) / 2.5
  }

  /** Cooper: the male constants for "male" only. */
  function Cooper(height: real, gender: string): real {
    if gender == "male" then (height * 4.0 / 2.54 - 128.0) * 0.453
    else (height * 3.5 / 2.54 - 108.0) * 0.453
  }

  datatype IdealWeights = IdealWeights(broca: real, lorenz: real, cooper: real, min: real, max: real)

  function Min3(a: real, b: real, c: real): real {
    if a <= b && a <= c then a else if b <= c then b else c
  }

  function Max3(a: real, b: real, c: real): real {
    if a >= b && a >= c then a else if b >= c then b else c
  }

  /** `calculate_ideal_weight`: rounded formulas, and the range over the unrounded ones. */
  function IdealWeight(height: real, gender: string): (r: IdealWeights)
    ensures var b, l, c := Broca(height, gender), Lorenz(height, gender), Cooper(height, gender);
      && r.min <= b && r.min <= l && r.min <= c && (r.min == b || r.min == l || r.min == c)
      && r.max >= b && r.max >= l && r.max >= c && (r.max == b || r.max == l || r.max == c)
      && -0.05 <= r.broca - b <= 0.05 && -0.05 <= r.lorenz - l <= 0.05 && -0.05 <= r.cooper - c <= 0.05
  {
    var b, l, c := Broca(height, gender), Lorenz(height, gender), Cooper(height, gender);
    IdealWeights(Round(b, 1), Round(l, 1), Round(c, 1), Min3(b, l, c), Max3(b, l, c))
  }

  /**
   * A gender that is neither "male" nor "female" gets the male Broca value
   * but the female Lorenz and Cooper values: the formulas test different strings.
   */
  lemma IdealWeightOfOtherGender(height: real, gender: string)
    requires gender != "male" && gender != "female"
    ensures IdealWeight(height, gender).broca == IdealWeight(height, "male").broca
    ensures IdealWeight(height, gender).lorenz == IdealWeight(height, "female").lorenz
    ensures IdealWeight(height, gender).cooper == IdealWeight(height, "female").cooper
  {
  }

  // ---------------------------------------------------------------------------
  // Meal plan

  /** The share of the day's calories per meal, in the order `get_nutrition_plan` lists them. */
  function Distribution(mealCount: int): seq<(string, real)> {
    if mealCount == 3 then [("breakfast", 0.35), ("lunch", 0.40), ("dinner", 0.25)]
    else if mealCount == 5 then
      [("breakfast", 0.25), ("snack1", 0.10), ("lunch", 0.30), ("snack2", 0.15), ("dinner", 0.20)]
    else [("breakfast", 0.30), ("lunch", 0.35), ("snack", 0.15), ("dinner", 0.20)]
  }

  function RatioSum(d: seq<(string, real)>): real {
    if |d| == 0 then 0.0 else d[0].1 + RatioSum(d[1..])
  }

  /** Every layout hands out the whole day: its shares sum to 1. */
  lemma DistributionSumsToOne(mealCount: int)
    ensures RatioSum(Distribution(mealCount)) == 1.0
    ensures |Distribution(mealCount)| == if mealCount == 3 || mealCount == 5 then mealCount else 4
  {
    var d := Distribution(mealCount);
    var n := |d|;
    assert RatioSum(d[n..]) == 0.0;
    assert RatioSum(d[n - 1..]) == d[n - 1].1;
    assert RatioSum(d[n - 2..]) == d[n - 2].1 + d[n - 1].1;
    assert RatioSum(d[n - 3..]) == d[n - 3].1 + d[n - 2].1 + d[n - 1].1;
    if n >= 4 {
      assert RatioSum(d[n - 4..]) == d[n - 4].1 + d[n - 3].1 + d[n - 2].1 + d[n - 1].1;
    }
    if n == 5 {
      assert RatioSum(d) == d[0].1 + RatioSum(d[1..]);
    }
    assert d[0..] == d;
  }

  /** The advice text, chosen by the diet type alone. */
  function Suggestion(dietType: string): string {
    if dietType == "high_protein" then "Богатый белком прием пищи: мясо, рыба, яйца, творог"
    else if dietType == "low_carb" then "Низкоуглеводный прием: овощи, зелень, белок"
    else if dietType == "mediterranean" then "Средиземноморский стиль: рыба, оливковое масло, овощи"
    else "Сбалансированный прием: белки + сложные углеводы + овощи"
  }

  datatype Meal = Meal(name: string, calories: int, ratio: real, suggestion: string)

  /** `round(total × ratio)`: the calories one entry of the distribution gets. */
  function Share(total: real, entry: (string, real)): (c: int)
    ensures -0.5 <= c as real - total * entry.1 <= 0.5
  {
    RoundHalfEven(total * entry.1)
  }

  /** The meal `get_nutrition_plan` lists for one entry of the distribution. */
  function MealFor(total: real, entry: (string, real), dietType: string): Meal {
    Meal(entry.0, Share(total, entry), entry.1, Suggestion(dietType))
  }

  /** `get_nutrition_plan`: one meal per entry of the distribution, in its order. */
  method NutritionPlan(totalCalories: real, mealCount: int, dietType: string) returns (meals: seq<Meal>)
    ensures |meals| == |Distribution(mealCount)|
    ensures forall i | 0 <= i < |meals| :: meals[i] == MealFor(totalCalories, Distribution(mealCount)[i], dietType)
  {
    meals := MealsFor(totalCalories, Distribution(mealCount), dietType);
  }

  /** The loop of `get_nutrition_plan` over the entries of a distribution. */
  method MealsFor(totalCalories: real, distribution: seq<(string, real)>, dietType: string) returns (meals: seq<Meal>)
    ensures |meals| == |distribution|
    ensures forall i | 0 <= i < |meals| :: meals[i] == MealFor(totalCalories, distribution[i], dietType)
  {
    meals := [];
    var i := 0;
    while i < |distribution|
      invariant 0 <= i <= |distribution|
      invariant |meals| == i
      invariant forall j | 0 <= j < i :: meals[j] == MealFor(totalCalories, distribution[j], dietType)
    {
      var (name, ratio) := distribution[i];
      meals := meals + [Meal(name, Share(totalCalories, distribution[i]), ratio, Suggestion(dietType))];
      i := i + 1;
    }
  }

  function MealCalories(meals: seq<Meal>): int {
    if |meals| == 0 then 0 else meals[0].calories + MealCalories(meals[1..])
  }

  /**
   * The meals of a plan add up to the day's total up to the rounding of each
   * meal: at most half a kilocalorie per meal away.
   */
  lemma {:induction false} PlanAddsUpToTotal(totalCalories: real, mealCount: int, dietType: string, meals: seq<Meal>)
    requires |meals| == |Distribution(mealCount)|
    requires forall i | 0 <= i < |meals| :: meals[i] == MealFor(totalCalories, Distribution(mealCount)[i], dietType)
    ensures -0.5 * |meals| as real <= MealCalories(meals) as real - totalCalories <= 0.5 * |meals| as real
  {
    hide Distribution;
    var d := Distribution(mealCount);
    DistributionSumsToOne(mealCount);
    RoundedSharesNearTotal(totalCalories, d, meals);
    ShareSumIsScaledRatioSum(totalCalories, d);
    MulOne(totalCalories, RatioSum(d));
  }

  /** The unrounded calories of the entries, `Σ total × ratio`. */
  function ShareSum(total: real, d: seq<(string, real)>): real {
    if |d| == 0 then 0.0 else total * d[0].1 + ShareSum(total, d[1..])
  }

  lemma {:induction false} ShareSumIsScaledRatioSum(total: real, d: seq<(string, real)>)
    ensures ShareSum(total, d) == total * RatioSum(d)
  {
    if |d| == 0 {
      MulZero(total, RatioSum(d));
    } else {
      ShareSumIsScaledRatioSum(total, d[1..]);
      Distribute(total, d[0].1, RatioSum(d[1..]));
    }
  }

  lemma {:induction false} RoundedSharesNearTotal(total: real, d: seq<(string, real)>, meals: seq<Meal>)
    requires |meals| == |d|
    requires forall i | 0 <= i < |d| :: meals[i].calories == Share(total, d[i])
    ensures -0.5 * |d| as real <= MealCalories(meals) as real - ShareSum(total, d) <= 0.5 * |d| as real
  {
    if |d| > 0 {
      var d', meals' := d[1..], meals[1..];
      assert forall i | 0 <= i < |d'| :: meals'[i] == meals[i + 1] && d'[i] == d[i + 1];
      RoundedSharesNearTotal(total, d', meals');
      var c := Share(total, d[0]);
      assert meals[0].calories == c;
      assert MealCalories(meals) == c + MealCalories(meals');
      assert ShareSum(total, d) == total * d[0].1 + ShareSum(total, d');
      assert |d| as real == |d'| as real + 1.0;
      var x := total * d[0].1;
      HalfBoundsAdd(c as real - x, MealCalories(meals') as real - ShareSum(total, d'), |d'| as real);
    }
  }

  lemma HalfBoundsAdd(a: real, b: real, k: real)
    requires -0.5 <= a <= 0.5 && -0.5 * k <= b <= 0.5 * k
    ensures -0.5 * (k + 1.0) <= a + b <= 0.5 * (k + 1.0)
  {
  }

  lemma MulOne(a: real, b: real)
    requires b == 1.0
    ensures a * b == a
  {
  }

  lemma MulZero(a: real, b: real)
    requires b == 0.0
    ensures a * b == 0.0
  {
  }

  lemma MulNonneg(a: real, b: real)
    requires a >= 0.0 && b >= 0.0
    ensures a * b >= 0.0
  {
  }

  lemma Distribute(t: real, a: real, b: real)
    ensures t * (a + b) == t * a + t * b
  {
  }

  // ---------------------------------------------------------------------------
  // Weight change

  /** Kilocalories in one kilogram of body fat. */
  const KcalPerKg: real := 7700.0

  datatype WeightRate = WeightRate(weeklyChangeKg: real, weeksNeeded: Option<real>, isPossible: bool, dailyCalorieBalance: real)

  /** Weeks to reach the target before rounding; `None` stands for Python's `float('inf')`. */
  function WeeksToTarget(current: real, target: real, balance: real): Option<real> {
    var weekly := balance * 7.0 / KcalPerKg;
    if current > target then
      if balance >= 0.0 then None else Some((current - target) / -weekly)
    else
      if balance <= 0.0 then None else Some((target - current) / weekly)
  }

  /** `calculate_weight_change_rate`. */
  function WeightChangeRate(current: real, target: real, balance: real): (r: WeightRate)
    ensures r.isPossible <==> (current > target && balance < 0.0) || (current <= target && balance > 0.0)
    ensures r.weeksNeeded.None? <==> !r.isPossible
    ensures -0.005 <= r.weeklyChangeKg - balance * 7.0 / 7700.0 <= 0.005
    ensures r.isPossible ==>
      var rate := (if balance < 0.0 then -balance else balance) * 7.0 / 7700.0;
      var distance := if current > target then current - target else target - current;
      rate > 0.0 && -0.05 <= r.weeksNeeded.value - distance / rate <= 0.05
    ensures r.dailyCalorieBalance == balance
  {
    var weekly := balance * 7.0 / KcalPerKg;
    var weeks := WeeksToTarget(current, target, balance);
    WeightRate(
      Round(weekly, 2),
      match weeks case Some(w) => Some(Round(w, 1)) case None => None,
      weeks.Some?,
      balance)
  }
}
