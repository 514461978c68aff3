/**
 * The decision logic inside the chat command handlers of handlers.py:
 * the `/add_food` request parser and its scaling, the progress bar and
 * percentages of `/today`, the `/water`, `/recommend` and `/bmi` rules,
 * the day count and per-day grouping of `/history`, and the free-text
 * classifier. Replies are represented by the choice they make, not by
 * their text.
 */
module Commands {
  import opened Wrappers
  import opened Text
  import opened Rounding
  import opened Products
  import opened FoodApi
  import Nutrition

  // ---------------------------------------------------------------------------
  // /add_food: quantity

  /** The units of the removal pattern `(?:г|грамм?|кг|л|мл)?`. */
  const Units: seq<string> := ["г", "кг", "л", "мл"]

  /**
   * Length of the unit the removal pattern takes after the number. The
   * alternatives are tried in pattern order and "г" comes first, so of
   * "грамм" only the "г" is taken.
   */
  function UnitLength(t: string): (n: nat)
    ensures n <= |t|
    ensures n > 0 ==> t[..n] in Units
    ensures n == 0 <==> forall j | 0 <= j < |Units| :: !StartsWith(t, Units[j])
    ensures StartsWith(t, "г") ==> n == 1
  {
    if StartsWith(t, "г") then 1
    else if StartsWith(t, "кг") then 2
    else if StartsWith(t, "л") then 1
    else if StartsWith(t, "мл") then 2
    else 0
  }

  /** Where the quantity found at the digit `i` ends: after the number, the spaces after it and the unit, if any. */
  function QuantityEnd(u: string, i: nat): (j: nat)
    requires i < |u| && IsDigit(u[i])
    ensures var e := NumberEnd(u, i); var k := SkipSpaces(u, e);
      && e <= k <= j <= |u|
      && (forall p | e <= p < k :: IsSpace(u[p]))
      && (j > k ==> u[k..j] in Units)
      && (j == k ==> forall w | 0 <= w < |Units| :: !StartsWith(u[k..], Units[w]))
  {
    var k := SkipSpaces(u, NumberEnd(u, i));
    var n := UnitLength(u[k..]);
    assert u[k..][..n] == u[k..k + n];
    k + n
  }

  /** `re.sub(pattern, '', u, count=1)`: the first number, the spaces after it and an optional unit are cut out. */
  function RemoveFirstQuantity(u: string): (r: string)
    ensures FirstDigit(u, 0) == |u| ==> r == u
    ensures FirstDigit(u, 0) < |u| ==> r == u[..FirstDigit(u, 0)] + u[QuantityEnd(u, FirstDigit(u, 0))..]
  {
    var i := FirstDigit(u, 0);
    if i == |u| then u
    else u[..i] + u[QuantityEnd(u, i)..]
  }

  /** The multiplier of the amount: "кг", or else any "л" (so also "мл" and "молоко"), means ×1000. */
  function QuantityFactor(l: string): real {
    if Contains(l, "кг") then 1000.0 else if Contains(l, "л") then 1000.0 else 1.0
  }

  /** The quantity and the remaining text, before the meal type is looked for. */
  function QuantityAndText(u: string): (real, string) {
    var l := Lower(u);
    var i := FirstDigit(l, 0);
    if i == |l| then (100.0, u)
    else (NumberValue(l, i) * QuantityFactor(l), Strip(RemoveFirstQuantity(u)))
  }

  // ---------------------------------------------------------------------------
  // /add_food: meal type

  const MealTypes: seq<string> := ["завтрак", "обед", "ужин", "перекус"]

  /** The first meal type, in list order, that occurs in the lowered text. */
  function FirstMealType(l: string, types: seq<string>, i: nat): (r: Option<nat>)
    requires i <= |types|
    ensures r.Some? ==> i <= r.value < |types| && Contains(l, types[r.value])
    ensures r.Some? ==> forall j | i <= j < r.value :: !Contains(l, types[j])
    ensures r.None? ==> forall j | i <= j < |types| :: !Contains(l, types[j])
    decreases |types| - i
  {
    if i == |types| then None
    else if Contains(l, types[i]) then Some(i)
    else FirstMealType(l, types, i + 1)
  }

  /** What `add_food` goes on with, or why it stops. */
  datatype FoodRequest =
    | Usage                                                      // no arguments: the format help
    | MissingProduct                                             // nothing left after the parse
    | Request(quantity: real, product: string, mealType: Option<string>)

  /** The parse of `/add_food` arguments. */
  function FoodRequestOf(args: seq<string>): (r: FoodRequest)
    ensures r == Usage <==> |args| == 0
    ensures r.Request? ==> |r.product| > 0 && r.quantity == QuantityAndText(JoinSpace(args)).0
    ensures |args| > 0 ==> var text := QuantityAndText(JoinSpace(args)).1;
      match FirstMealType(Lower(text), MealTypes, 0)
      case None => (r == MissingProduct <==> |text| == 0) && (r.Request? ==> r.product == text && r.mealType.None?)
      case Some(t) =>
        var product := Strip(RemoveAll(Lower(text), MealTypes[t]));
        (r == MissingProduct <==> |product| == 0) && (r.Request? ==> r.product == product && r.mealType == Some(MealTypes[t]))
  {
    if |args| == 0 then Usage
    else
      var (quantity, text) := QuantityAndText(JoinSpace(args));
      var picked := FirstMealType(Lower(text), MealTypes, 0);
      var product := if picked.Some? then Strip(RemoveAll(Lower(text), MealTypes[picked.value])) else text;
      if |product| == 0 then MissingProduct
      else Request(quantity, product, if picked.Some? then Some(MealTypes[picked.value]) else None)
  }

  /**
   * The quantity: 100 without a number; otherwise the first number, times
   * 1000 when the lowered text holds "кг" or any "л", and as written otherwise.
   * Every "л" counts as litres: "200 мл" and "200 г молока" both read as 200000.
   */
  lemma QuantityCases(u: string)
    ensures var l := Lower(u); var i := FirstDigit(l, 0);
      && (i == |l| ==> QuantityAndText(u).0 == 100.0)
      && (i < |l| && (Contains(l, "кг") || Contains(l, "л")) ==> QuantityAndText(u).0 == NumberValue(l, i) * 1000.0)
      && (i < |l| && !Contains(l, "кг") && !Contains(l, "л") ==> QuantityAndText(u).0 == NumberValue(l, i))
  {
  }

  /** With no number in the arguments the quantity is 100 and, without a meal word, the text is kept as typed. */
  lemma DefaultQuantity(args: seq<string>)
    requires |args| > 0
    requires var l := Lower(JoinSpace(args)); FirstDigit(l, 0) == |l|
    requires forall j | 0 <= j < |MealTypes| :: !Contains(Lower(JoinSpace(args)), MealTypes[j])
    requires |JoinSpace(args)| > 0
    ensures FoodRequestOf(args) == Request(100.0, JoinSpace(args), None)
  {
    var u := JoinSpace(args);
    assert QuantityAndText(u) == (100.0, u);
  }

  /** A meal type is the first of завтрак, обед, ужин, перекус found in the text, and it is the word removed. */
  lemma MealTypeIsFirstListed(args: seq<string>)
    requires FoodRequestOf(args).Request? && FoodRequestOf(args).mealType.Some?
    ensures var text := QuantityAndText(JoinSpace(args)).1;
      var mt := FoodRequestOf(args).mealType.value;
      exists i | 0 <= i < |MealTypes| ::
        && mt == MealTypes[i]
        && Contains(Lower(text), mt)
        && (forall j | 0 <= j < i :: !Contains(Lower(text), MealTypes[j]))
        && FoodRequestOf(args).product == Strip(RemoveAll(Lower(text), mt))
  {
    var text := QuantityAndText(JoinSpace(args)).1;
    var picked := FirstMealType(Lower(text), MealTypes, 0);
    assert picked.Some?;
  }

  /** "молоко" holds an "л", so a quantity of milk in grams is multiplied by 1000. */
  lemma MilkHasLitreLetter(s: string, i: nat)
    requires i + 6 <= |s| && s[i..i + 6] == "молоко"
    ensures Contains(s, "л")
  {
    assert s[i + 2] == s[i..i + 6][2] == 'л';
    assert s[i + 2..i + 3] == [s[i + 2]];
    ContainsAt(s, "л", i + 2);
  }

  /** The record `add_food` stores. */
  datatype FoodEntry = FoodEntry(
    name: string, calories: real, protein: real, fat: real, carbs: real,
    quantity: real, mealType: Option<string>, source: Source)

  /** Scaling by `quantity / serving_size_g`; `None` is the ZeroDivisionError of a zero serving size. */
  function EntryFor(quantity: real, mealType: Option<string>, info: ProductInfo): (r: Option<FoodEntry>)
    ensures r.None? <==> info.servingSizeG == 0.0
    ensures r.Some? ==> r.value.calories * info.servingSizeG == info.calories * quantity
    ensures r.Some? ==> r.value.protein * info.servingSizeG == info.protein * quantity
    ensures r.Some? ==> r.value.fat * info.servingSizeG == info.fat * quantity
    ensures r.Some? ==> r.value.carbs * info.servingSizeG == info.carbs * quantity
    ensures r.Some? ==>
      r.value.name == info.name && r.value.quantity == quantity && r.value.mealType == mealType && r.value.source == info.source
    ensures r.Some? && quantity == info.servingSizeG ==>
      r.value.calories == info.calories && r.value.protein == info.protein
      && r.value.fat == info.fat && r.value.carbs == info.carbs
  {
    if info.servingSizeG == 0.0 then None
    else
      var multiplier := quantity / info.servingSizeG;
      ScaleBack(info.calories, quantity, info.servingSizeG);
      ScaleBack(info.protein, quantity, info.servingSizeG);
      ScaleBack(info.fat, quantity, info.servingSizeG);
      ScaleBack(info.carbs, quantity, info.servingSizeG);
      Some(FoodEntry(info.name, info.calories * multiplier, info.protein * multiplier, info.fat * multiplier,
                     info.carbs * multiplier, quantity, mealType, info.source))
  }

  /** The outcome of `/add_food`. */
  datatype AddFoodOutcome = ShowUsage | NoProduct | Added(entry: FoodEntry) | AddFailed

  /** `add_food`: parse, look the product up, scale. */
  function AddFoodStep(cache: Cache, table: seq<LocalTable.LocalEntry>, args: seq<string>, now: int, search: SearchOracle)
    : (r: (AddFoodOutcome, Cache))
    requires WellFormed(cache)
    ensures WellFormed(r.1)
    ensures r.0 == ShowUsage <==> |args| == 0
    ensures r.0 == NoProduct <==> FoodRequestOf(args) == MissingProduct
    ensures !FoodRequestOf(args).Request? ==> r.1 == cache
    ensures FoodRequestOf(args).Request? ==> r.1 == ProductInfoStep(cache, table, FoodRequestOf(args).product, now, search).1
  {
    match FoodRequestOf(args)
    case Usage => (ShowUsage, cache)
    case MissingProduct => (NoProduct, cache)
    case Request(quantity, product, mealType) =>
      var (info, cache') := ProductInfoStep(cache, table, product, now, search);
      match EntryFor(quantity, mealType, info)
      case None => (AddFailed, cache')
      case Some(e) => (Added(e), cache')
  }

  /** A product is always found, so `/add_food` with a product fails only on a zero serving size. */
  lemma AddFoodFailsOnlyOnZeroServing(cache: Cache, table: seq<LocalTable.LocalEntry>, args: seq<string>, now: int, search: SearchOracle)
    requires WellFormed(cache)
    requires FoodRequestOf(args).Request?
    ensures var (outcome, _) := AddFoodStep(cache, table, args, now, search);
      var info := ProductInfoStep(cache, table, FoodRequestOf(args).product, now, search).0;
      (outcome == AddFailed <==> info.servingSizeG == 0.0)
      && (outcome.Added? ==> Some(outcome.entry) == EntryFor(FoodRequestOf(args).quantity, FoodRequestOf(args).mealType, info))
  {
  }

  /** The parse as `add_food` runs it: the meal types are tried in order until one is found. */
  method ParseAddFood(args: seq<string>) returns (r: FoodRequest)
    ensures r == FoodRequestOf(args)
  {
    if |args| == 0 {
      return Usage;
    }
    var userInput := JoinSpace(args);
    var quantity, productText := QuantityAndText(userInput).0, QuantityAndText(userInput).1;
    var mealType: Option<string> := None;
    ghost var original := productText;
    var i := 0;
    while i < |MealTypes|
      invariant 0 <= i <= |MealTypes|
      invariant mealType.None? && productText == original
      invariant FirstMealType(Lower(original), MealTypes, 0) == FirstMealType(Lower(original), MealTypes, i)
    {
      var mt := MealTypes[i];
      if Contains(Lower(productText), mt) {
        mealType := Some(mt);
        productText := Strip(RemoveAll(Lower(productText), mt));
        break;
      }
      i := i + 1;
    }
    if |productText| == 0 {
      return MissingProduct;
    }
    return Request(quantity, productText, mealType);
  }

  /** `add_food` against the food client. */
  method AddFood(client: FoodClient, args: seq<string>, now: int, search: SearchOracle) returns (outcome: AddFoodOutcome)
    requires client.Valid()
    modifies client
    ensures client.Valid()
    ensures (outcome, client.cache) == AddFoodStep(old(client.cache), client.localDb, args, now, search)
  {
    var request := ParseAddFood(args);
    if request.Usage? {
      return ShowUsage;
    }
    if request.MissingProduct? {
      return NoProduct;
    }
    var info := client.GetProductInfo(request.product, now, search);
    var entry := EntryFor(request.quantity, request.mealType, info);
    if entry.None? {
      return AddFailed;
    }
    return Added(entry.value);
  }

  // ---------------------------------------------------------------------------
  // /today

  /** `value / goal * 100`, or 0 when the goal is not positive. */
  function Percent(value: real, goal: real): (p: real)
    ensures goal <= 0.0 ==> p == 0.0
    ensures goal > 0.0 ==> p * goal == value * 100.0
  {
    if goal > 0.0 then value / goal * 100.0 else 0.0
  }

  /** `c * n` in Python: empty for a non-positive count. */
  function Repeat(c: char, n: int): (s: string)
    ensures |s| == if n > 0 then n else 0
    ensures forall i | 0 <= i < |s| :: s[i] == c
    decreases n
  {
    if n <= 0 then "" else [c] + Repeat(c, n - 1)
  }

  const FullCell: char := '█'
  const EmptyCell: char := '░'

  /** `create_progress_bar`: `int(p × length / 100)` full cells, then empty ones. */
  function ProgressBar(percent: real, length: int): string {
    var filled := TruncToInt(percent * length as real / 100.0);
    Repeat(FullCell, filled) + Repeat(EmptyCell, length - filled)
  }

  /** For a percentage from 0 to 100 the bar is exactly `length` cells, the full ones first. */
  lemma {:induction false} ProgressBarShape(percent: real, length: nat)
    requires 0.0 <= percent <= 100.0
    ensures var bar := ProgressBar(percent, length);
      var filled := TruncToInt(percent * length as real / 100.0);
      && |bar| == length
      && 0 <= filled <= length
      && (forall i | 0 <= i < filled :: bar[i] == FullCell)
      && (forall i | filled <= i < length :: bar[i] == EmptyCell)
  {
    var x := percent * length as real / 100.0;
    assert 0.0 <= x <= length as real by {
      Nutrition.MulNonneg(percent, length as real);
      Nutrition.MulNonneg(100.0 - percent, length as real);
      assert (100.0 - percent) * length as real == 100.0 * length as real - percent * length as real;
    }
    var filled := TruncToInt(x);
    assert filled <= length;
    var bar := ProgressBar(percent, length);
    assert bar == Repeat(FullCell, filled) + Repeat(EmptyCell, length - filled);
  }

  /** At -10 % or below the full cells are negative in number, so the bar has more than ten cells. */
  lemma NegativeBarIsLonger(percent: real)
    requires percent <= -10.0
    ensures |ProgressBar(percent, 10)| > 10
  {
    var filled := TruncToInt(percent * 10.0 / 100.0);
    assert filled < 0;
  }

  /** A bigger percentage never gives fewer full cells. */
  lemma ProgressBarMonotone(p: real, q: real, length: nat)
    requires p <= q
    ensures TruncToInt(p * length as real / 100.0) <= TruncToInt(q * length as real / 100.0)
  {
    Nutrition.MulNonneg(q - p, length as real);
    assert (q - p) * length as real == q * length as real - p * length as real;
  }

  /** The bar `today_stats` draws from a non-negative percentage: clamped at 100, ten cells. */
  lemma TodayBarHasTenCells(percent: real)
    requires percent >= 0.0
    ensures |ProgressBar(if percent < 100.0 then percent else 100.0, 10)| == 10
  {
    ProgressBarShape(if percent < 100.0 then percent else 100.0, 10);
  }

  datatype CalorieAdvice = EatMore | OverLimit | WithinNorm

  /** The calorie line of `today_stats`. */
  function CalorieAdviceFor(percent: real): CalorieAdvice {
    if percent < 80.0 then EatMore else if percent > 120.0 then OverLimit else WithinNorm
  }

  /** Calories within the norm means from 80 % to 120 % of a positive goal. */
  lemma WithinNormBounds(calories: real, goal: real)
    requires goal > 0.0
    ensures CalorieAdviceFor(Percent(calories, goal)) == WithinNorm <==> 0.8 * goal <= calories <= 1.2 * goal
    ensures CalorieAdviceFor(Percent(calories, goal)) == EatMore <==> calories < 0.8 * goal
  {
    var p := Percent(calories, goal);
    assert p * goal == calories * 100.0;
    if p < 80.0 {
      Nutrition.MulNonneg(80.0 - p, goal);
      assert calories < 0.8 * goal by {
        assert (80.0 - p) * goal > 0.0 by { MulPositive(80.0 - p, goal); }
      }
    } else if p > 120.0 {
      assert (p - 120.0) * goal > 0.0 by { MulPositive(p - 120.0, goal); }
    } else {
      Nutrition.MulNonneg(p - 80.0, goal);
      Nutrition.MulNonneg(120.0 - p, goal);
    }
  }

  lemma MulPositive(a: real, b: real)
    requires a > 0.0 && b > 0.0
    ensures a * b > 0.0
  {
  }

  /** The water line of `today_stats`: a reminder below 70 %. */
  function WaterReminder(percent: real): bool {
    percent < 70.0
  }

  /** For a positive goal a percentage is below `t` exactly when the value is below `t / 100` of the goal. */
  lemma PercentBelow(value: real, goal: real, t: real)
    requires goal > 0.0
    ensures Percent(value, goal) < t <==> value * 100.0 < t * goal
  {
    var p := Percent(value, goal);
    if p < t {
      MulPositive(t - p, goal);
    } else {
      Nutrition.MulNonneg(p - t, goal);
    }
  }

  /** The reminder shows below 70 % of a positive goal, and always when the goal is not positive. */
  lemma WaterReminderBound(water: real, goal: real)
    ensures goal > 0.0 ==> (WaterReminder(Percent(water, goal)) <==> water < 0.7 * goal)
    ensures goal <= 0.0 ==> WaterReminder(Percent(water, goal))
  {
    if goal > 0.0 {
      PercentBelow(water, goal, 70.0);
    }
  }

  // ---------------------------------------------------------------------------
  // /water

  datatype WaterInput = WaterNotANumber | WaterOutOfRange | WaterAccepted(amount: real)

  /** `water_intake` with an argument: a number above 0 and at most 5000 ml is recorded. */
  function WaterInputOf(arg: string): (r: WaterInput)
    ensures r.WaterAccepted? <==> ParseFloat(arg).Some? && 0.0 < ParseFloat(arg).value <= 5000.0
    ensures r.WaterAccepted? ==> r.amount == ParseFloat(arg).value
    ensures r == WaterNotANumber <==> ParseFloat(arg).None?
  {
    match ParseFloat(arg)
    case None => WaterNotANumber
    case Some(a) => if a <= 0.0 || a > 5000.0 then WaterOutOfRange else WaterAccepted(a)
  }

  datatype WaterProgress = GoalReached | AlmostThere | KeepDrinking

  /** The closing line after water is added. */
  function WaterProgressFor(percent: real): WaterProgress {
    if percent >= 100.0 then GoalReached else if percent >= 80.0 then AlmostThere else KeepDrinking
  }

  /** Against a positive goal: reached at 100 % of it, almost there from 80 %, otherwise nothing extra. */
  lemma WaterProgressBounds(water: real, goal: real)
    requires goal > 0.0
    ensures WaterProgressFor(Percent(water, goal)) == GoalReached <==> water >= goal
    ensures WaterProgressFor(Percent(water, goal)) == AlmostThere <==> 0.8 * goal <= water < goal
    ensures WaterProgressFor(Percent(water, goal)) == KeepDrinking <==> water < 0.8 * goal
  {
    PercentBelow(water, goal, 100.0);
    PercentBelow(water, goal, 80.0);
  }

  // ---------------------------------------------------------------------------
  // /recommend

  datatype DiffAdvice = FarBelow | Below(remaining: real) | Reached(excess: real)

  /** The calorie and water lines of `get_recommendations` from the remaining amount. */
  function DiffAdviceFor(diff: real): (r: DiffAdvice)
    ensures r == FarBelow <==> diff > 500.0
    ensures r.Below? <==> 0.0 < diff <= 500.0
    ensures r.Below? ==> r.remaining == diff
    ensures r.Reached? <==> diff <= 0.0
    ensures r.Reached? ==> r.excess >= 0.0 && r.excess == -diff
  {
    if diff > 500.0 then FarBelow else if diff > 0.0 then Below(diff) else Reached(if diff < 0.0 then -diff else 0.0)
  }

  /** `protein / (goal / 4 × 0.3)`, or 0 when the goal is not positive. */
  function ProteinRatio(protein: real, goal: real): real {
    if goal > 0.0 then protein / (goal / 4.0 * 0.3) else 0.0
  }

  /** The protein hint appears below 80 % of the protein target. */
  predicate SuggestProtein(protein: real, goal: real) {
    ProteinRatio(protein, goal) < 0.8
  }

  /** For a positive goal the hint appears exactly below 6 % of the calorie goal in grams of protein. */
  lemma ProteinHintThreshold(protein: real, goal: real)
    requires goal > 0.0
    ensures SuggestProtein(protein, goal) <==> protein < 0.06 * goal
  {
    var t := goal / 4.0 * 0.3;
    assert t == 0.075 * goal;
    assert ProteinRatio(protein, goal) * t == protein;
  }

  /** Without a positive goal the protein hint is always shown. */
  lemma ProteinHintWithoutGoal(protein: real, goal: real)
    requires goal <= 0.0
    ensures SuggestProtein(protein, goal)
  {
  }

  // ---------------------------------------------------------------------------
  // /bmi

  /** What `/bmi` takes its figures from: two arguments win over the profile. */
  datatype BmiSource = BmiFromArgs(weight: real, height: real) | BmiBadArgs | BmiFromProfile(weight: real, height: real) | BmiNoData

  /** The stored weight and height of a profile (either may be absent). */
  datatype StoredBody = StoredBody(weight: Option<real>, height: Option<real>)

  /** A present, non-zero number (Python truthiness). */
  predicate Given(x: Option<real>) {
    x.Some? && x.value != 0.0
  }

  function BmiSourceOf(args: seq<string>, profile: Option<StoredBody>): (r: BmiSource)
    ensures |args| >= 2 ==> (r.BmiFromArgs? || r == BmiBadArgs)
    ensures r == BmiBadArgs <==> |args| >= 2 && (ParseFloat(args[0]).None? || ParseFloat(args[1]).None?)
    ensures r.BmiFromArgs? ==> |args| >= 2 && Some(r.weight) == ParseFloat(args[0]) && Some(r.height) == ParseFloat(args[1])
    ensures |args| < 2 && profile.Some? && Given(profile.value.weight) && Given(profile.value.height) ==>
      r == BmiFromProfile(profile.value.weight.value, profile.value.height.value)
    ensures r == BmiNoData <==>
      |args| < 2 && !(profile.Some? && Given(profile.value.weight) && Given(profile.value.height))
  {
    if |args| >= 2 then
      var w, h := ParseFloat(args[0]), ParseFloat(args[1]);
      if w.None? || h.None? then BmiBadArgs else BmiFromArgs(w.value, h.value)
    else if profile.Some? && Given(profile.value.weight) && Given(profile.value.height) then
      BmiFromProfile(profile.value.weight.value, profile.value.height.value)
    else BmiNoData
  }

  /** The healthy weight range `18.5·m²` to `24.9·m²` for a height in centimetres. */
  function HealthyRange(height: real): (real, real) {
    (18.5 * (height / 100.0) * (height / 100.0), 24.9 * (height / 100.0) * (height / 100.0))
  }

  /** A weight in the healthy range has an unrounded index from 18.5 to 24.9. */
  lemma HealthyRangeMeansHealthyIndex(weight: real, height: real)
    requires height > 0.0
    ensures HealthyRange(height).0 <= weight <= HealthyRange(height).1
        <==> 18.5 <= Nutrition.BmiExact(weight, height) <= 24.9
  {
    var m := height / 100.0;
    DivOrder(18.5 * m, weight, m);
    DivOrder(24.9 * m, weight, m);
    DivOrder(18.5, weight / m, m);
    DivOrder(24.9, weight / m, m);
  }

  /** Dividing both sides by a positive factor keeps an inequality. */
  lemma DivOrder(a: real, b: real, m: real)
    requires m > 0.0
    ensures a * m <= b <==> a <= b / m
    ensures b <= a * m <==> b / m <= a
  {
    assert (b / m) * m == b;
    if a <= b / m { Nutrition.MulNonneg(b / m - a, m); }
    if b / m < a { MulPositive(a - b / m, m); }
    if b / m <= a { Nutrition.MulNonneg(a - b / m, m); }
    if a < b / m { MulPositive(b / m - a, m); }
  }

  datatype BmiAdvice = GainWeight | KeepGoing | ModerateDeficit | SeeDoctor

  function BmiAdviceFor(bmi: real): BmiAdvice {
    if bmi < 18.5 then GainWeight else if bmi < 25.0 then KeepGoing else if bmi < 30.0 then ModerateDeficit else SeeDoctor
  }

  /** The advice agrees with the underweight, normal and overweight bands of `interpret_bmi`. */
  lemma BmiAdviceFollowsBands(bmi: real)
    ensures BmiAdviceFor(bmi) == KeepGoing <==> Nutrition.InterpretBmi(bmi) == Nutrition.BmiLabels[2]
    ensures BmiAdviceFor(bmi) == ModerateDeficit <==> Nutrition.InterpretBmi(bmi) == Nutrition.BmiLabels[3]
  {
    Nutrition.InterpretBmiNamesBand(bmi);
    LabelsDistinct();
  }

  lemma LabelsDistinct()
    ensures forall i, j | 0 <= i < j < |Nutrition.BmiLabels| :: Nutrition.BmiLabels[i] != Nutrition.BmiLabels[j]
  {
  }

  // ---------------------------------------------------------------------------
  // /history

  const DefaultDays: int := 7

  /** `food_history`'s day count: an integer from 1 to 30, else 7. */
  function HistoryDays(args: seq<string>): (days: int)
    ensures 1 <= days <= 30
    ensures days != DefaultDays ==> |args| > 0 && ParseInt(args[0]) == Some(days)
    ensures |args| > 0 && ParseInt(args[0]).Some? && 1 <= ParseInt(args[0]).value <= 30 ==> days == ParseInt(args[0]).value
  {
    if |args| == 0 then DefaultDays
    else match ParseInt(args[0])
      case None => DefaultDays
      case Some(d) => if d < 1 || d > 30 then DefaultDays else d
  }

  /** One row of the food history: its day (as `%d.%m`), calories and name. */
  datatype HistoryEntry = HistoryEntry(date: string, calories: real, foodName: Option<string>)

  datatype DayStats = DayStats(calories: real, meals: seq<string>)

  /** `name[:20]` */
  function Truncate20(s: string): (r: string)
    ensures |r| == if |s| <= 20 then |s| else 20
    ensures r == s[..|r|]
  {
    if |s| <= 20 then s else s[..20]
  }

  /** A name is kept when it is present and not empty. */
  function MealsOf(e: HistoryEntry): seq<string> {
    if e.foodName.Some? && |e.foodName.value| > 0 then [Truncate20(e.foodName.value)] else []
  }

  /** The `defaultdict` after the loop over `entries`. */
  function Grouped(entries: seq<HistoryEntry>): map<string, DayStats>
    decreases |entries|
  {
    if |entries| == 0 then map[]
    else
      var g := Grouped(entries[..|entries| - 1]);
      var e := entries[|entries| - 1];
      var day := if e.date in g then g[e.date] else DayStats(0.0, []);
      g[e.date := DayStats(day.calories + e.calories, day.meals + MealsOf(e))]
  }

  /** The calories of the entries of one day. */
  function DayCalories(entries: seq<HistoryEntry>, date: string): real
    decreases |entries|
  {
    if |entries| == 0 then 0.0
    else DayCalories(entries[..|entries| - 1], date) + (if entries[|entries| - 1].date == date then entries[|entries| - 1].calories else 0.0)
  }

  /** The names of the entries of one day, in entry order, each cut to 20 characters. */
  function DayMeals(entries: seq<HistoryEntry>, date: string): seq<string>
    decreases |entries|
  {
    if |entries| == 0 then []
    else DayMeals(entries[..|entries| - 1], date) + (if entries[|entries| - 1].date == date then MealsOf(entries[|entries| - 1]) else [])
  }

  /**
   * The days are exactly the dates of the entries, each with the sum of its
   * calories and the names of its entries, of at most 20 characters each.
   */
  lemma GroupedSumsEachDay(entries: seq<HistoryEntry>)
    ensures forall d :: d in Grouped(entries) <==> exists e | e in entries :: e.date == d
    ensures forall d | d in Grouped(entries) :: Grouped(entries)[d].calories == DayCalories(entries, d)
    ensures forall d | d in Grouped(entries) :: Grouped(entries)[d].meals == DayMeals(entries, d)
    ensures forall d | d in Grouped(entries) :: forall m | m in Grouped(entries)[d].meals :: |m| <= 20
  {
    GroupedDays(entries);
    GroupedCalories(entries);
    GroupedMeals(entries);
    GroupedNamesAreShort(entries);
  }

  lemma {:induction false} GroupedDays(entries: seq<HistoryEntry>)
    ensures forall d :: d in Grouped(entries) <==> exists e | e in entries :: e.date == d
  {
    if |entries| > 0 {
      var init := entries[..|entries| - 1];
      GroupedDays(init);
      assert forall e | e in init :: e in entries;
      var last := entries[|entries| - 1];
      assert last in entries;
      forall d | d in Grouped(entries) && d != last.date
        ensures exists e | e in init :: e.date == d
      {
        assert d in Grouped(init);
      }
      forall d | exists e | e in entries :: e.date == d
        ensures d in Grouped(entries)
      {
        var e :| e in entries && e.date == d;
        if e != last {
          var k :| 0 <= k < |entries| && entries[k] == e;
          assert k < |entries| - 1;
          assert init[k] == e;
        }
      }
    }
  }

  lemma {:induction false} GroupedCalories(entries: seq<HistoryEntry>)
    ensures forall d | d in Grouped(entries) :: Grouped(entries)[d].calories == DayCalories(entries, d)
  {
    if |entries| > 0 {
      var init := entries[..|entries| - 1];
      GroupedCalories(init);
      GroupedDays(init);
      forall d | d !in Grouped(init)
        ensures DayCalories(init, d) == 0.0
      {
        NoEntriesNoCalories(init, d);
      }
    }
  }

  lemma {:induction false} GroupedMeals(entries: seq<HistoryEntry>)
    ensures forall d | d in Grouped(entries) :: Grouped(entries)[d].meals == DayMeals(entries, d)
  {
    if |entries| > 0 {
      var init := entries[..|entries| - 1];
      GroupedMeals(init);
      GroupedDays(init);
      forall d | d !in Grouped(init)
        ensures DayMeals(init, d) == []
      {
        NoEntriesNoCalories(init, d);
      }
    }
  }

  lemma {:induction false} GroupedNamesAreShort(entries: seq<HistoryEntry>)
    ensures forall d | d in Grouped(entries) :: forall m | m in Grouped(entries)[d].meals :: |m| <= 20
  {
    if |entries| > 0 {
      GroupedNamesAreShort(entries[..|entries| - 1]);
    }
  }

  lemma {:induction false} NoEntriesNoCalories(entries: seq<HistoryEntry>, d: string)
    requires forall e | e in entries :: e.date != d
    ensures DayCalories(entries, d) == 0.0
    ensures DayMeals(entries, d) == []
    decreases |entries|
  {
    if |entries| > 0 {
      var init := entries[..|entries| - 1];
      assert forall e | e in init :: e in entries;
      assert entries[|entries| - 1] in entries;
      NoEntriesNoCalories(init, d);
    }
  }

  /** One more entry: it adds its calories and name to its own day. */
  lemma GroupedNext(entries: seq<HistoryEntry>, i: nat)
    requires i < |entries|
    ensures var g, e := Grouped(entries[..i]), entries[i];
      var day := if e.date in g then g[e.date] else DayStats(0.0, []);
      Grouped(entries[..i + 1]) == g[e.date := DayStats(day.calories + e.calories, day.meals + MealsOf(e))]
  {
    assert entries[..i + 1][..i] == entries[..i];
  }

  method GroupByDay(entries: seq<HistoryEntry>) returns (daily: map<string, DayStats>)
    ensures daily == Grouped(entries)
  {
    daily := map[];
    var i := 0;
    assert daily == Grouped(entries[..i]);
    hide Grouped;
    while i < |entries|
      invariant 0 <= i <= |entries|
      invariant daily == Grouped(entries[..i])
    {
      var entry := entries[i];
      var day := if entry.date in daily then daily[entry.date] else DayStats(0.0, []);
      var meals := day.meals;
      if entry.foodName.Some? && |entry.foodName.value| > 0 {
        meals := meals + [Truncate20(entry.foodName.value)];
      }
      assert meals == day.meals + MealsOf(entry);
      GroupedNext(entries, i);
      daily := daily[entry.date := DayStats(day.calories + entry.calories, meals)];
      i := i + 1;
    }
    assert entries[..i] == entries;
  }

  // ---------------------------------------------------------------------------
  // Free text

  datatype MessageKind = Greeting | Farewell | NotUnderstood

  const Greetings: seq<string> := ["привет", "здравствуй", "добрый день", "доброе утро", "добрый вечер"]
  const Farewells: seq<string> := ["пока", "до свидания", "спасибо", "благодарю"]

  predicate AnyIn(words: seq<string>, text: string) {
    exists w | w in words :: Contains(text, w)
  }

  /** `handle_message`: a greeting anywhere wins over a farewell. */
  function Classify(text: string): (k: MessageKind)
    ensures k == Greeting <==> AnyIn(Greetings, Lower(text))
    ensures k == Farewell <==> !AnyIn(Greetings, Lower(text)) && AnyIn(Farewells, Lower(text))
  {
    var t := Lower(text);
    if AnyIn(Greetings, t) then Greeting else if AnyIn(Farewells, t) then Farewell else NotUnderstood
  }

  /** The classification ignores letter case. */
  lemma ClassifyIgnoresCase(text: string)
    ensures Classify(Lower(text)) == Classify(text)
  {
    LowerIdempotent(text);
  }

  /** "Привет, пока!" is a greeting: greetings are checked first. */
  lemma GreetingBeatsFarewell()
    ensures Classify("Привет, пока!") == Greeting
  {
    var t := Lower("Привет, пока!");
    assert t[..6] == "привет";
    ContainsAt(t, "привет", 0);
    assert "привет" in Greetings;
  }
}
