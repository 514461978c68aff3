# Diet-bot core in Dafny

A Dafny model of the decision logic of a Telegram diet-tracking bot. The
model has three parts:

- **The food client** (`OpenFoodFactsAPI`, api_client.py):
  - a request cache with a one-hour lifetime in front of the Open Food
    Facts search and barcode endpoints;
  - the parser that turns a decoded product object into a `ProductInfo`;
  - the lookup chain remote → local table substring → local table shared
    word → keyword category estimate;
  - the meal analyser.
- **The nutrition calculator** (`NutritionCalculator`, utils.py): BMI and
  its WHO bands, Mifflin–St Jeor BMR, daily calories and macros, water
  needs, ideal weight, the meal plan and the weight-change rate.
- **The decision rules inside the chat handlers** (handlers.py):
  - the seven-step profile wizard;
  - the `/add_food` parser and its scaling;
  - the `/today` progress bar and thresholds;
  - `/water`, `/recommend` and `/bmi`;
  - the day count and per-day grouping of `/history`;
  - free-text classification.

Layout, one module per file:

| file | module | contents |
|---|---|---|
| `wrappers.dfy` | `Wrappers` | `Option` |
| `text.dfy` | `Text` | the Python string built-ins the core uses, written out: `lower` (ASCII and Cyrillic), `capitalize`, `strip`, `split`, `in`, `replace`, and the `int()` and `float()` readers together with their round trips |
| `rounding.dfy` | `Rounding` | `round` (half to even), `round(x, n)`, `int()` truncation |
| `nutrition.dfy` | `Nutrition` | utils.py |
| `products.dfy` | `Products` | `ProductInfo` and `_parse_product_data` |
| `local_table.dfy` | `LocalTable` | the local nutrition table and the estimator's tables, in insertion order |
| `food_api.dfy` | `FoodApi` | the class `FoodClient`, with the cache as a mutable `map` field |
| `wizard.dfy` | `Wizard` | the class `ProfileWizard`, with the conversation state and `user_data` as fields |
| `commands.dfy` | `Commands` | the handler rules |

How the code is modelled:

- Each state-changing operation of the food client and the wizard is a
  method.
- Each method is proved equal to a step function over the old state.
- The loops of the source stay loops, proved against recursive
  specification functions. That covers the search reply loop, the two
  table scans, the estimator's nested loops with their inner `break`, the
  two loops of `analyze_meal`, the meal-type loop of `add_food`, the
  meal-plan loop and the `/history` grouping.

The HTTP endpoints and the clock become parameters:

- A search is a total function `(query, limit) -> SearchReply`. It returns
  the decoded products, or a failure for any exception.
- A barcode lookup is `barcode -> BarcodeReply`: a failure, a 404, or
  status and product.
- The clock is one integer number of seconds per call.

Numbers are `real` and every rounding is explicit.

One behaviour differs from what a reader of the estimator would expect. Its
`break` on a keyword match leaves only the keyword loop, so the last matching
category wins, not the first (`LastCategoryWins`, `ChocolateMilkIsADrink`).

## Model

| member | source | states |
|---|---|---|
| `Products.FirstTruthy` | api_client.py:236-242 | the result is the first truthy name in list order, or the default when none is truthy |
| `Products.NameFallback` | api_client.py:236-242 | an English-only product keeps its `product_name`, and a product with no name gets "Неизвестный продукт" |
| `Products.ParsedIdentity` | api_client.py:293-309 | an accepted product has the stripped fallback name, source `openfoodfacts`, `success`, and the code, brands, categories, serving size and NOVA group as read |
| `Products.ParseRejectsOnlyEmpty` | api_client.py:248-272 | with well-typed fields, the parser rejects a product exactly when kcal (else kJ/4.184, else 0), protein, fat and carbs are all 0 |
| `Products.ParseRejection` | api_client.py:244-313 | for every product, whatever its field types: rejected exactly when a field raises (kJ present without kcal as a non-number, an unreadable kcal, protein, fat or carbs, or a string fiber, sugar or salt) or kcal, protein, fat and carbs all read as 0 |
| `Products.ParseProductData` | api_client.py:224-313 | specified by `ParseRejection` (when it rejects), `ParsedIdentity` and `ParsedValues` (what it returns) |
| `Products.ParsedMacros` | api_client.py:265-298 | accepted macros are the read values rounded to one decimal (within 0.05) |
| `Products.ParsedOptionals` | api_client.py:260-301 | fiber, sugar and salt become `None` exactly when they are absent or zero |
| `Products.ParsedValues` | api_client.py:265-301 | for every accepted product, whatever its field types: calories, protein, fat and carbs are the values `float()` reads rounded to one place; fiber and sugar are rounded to one place and salt to three, each `None` when it reads as zero |
| `Products.OptionalValue` | api_client.py:299-301 | a field that does not raise under `round(v, n) if v else None` gives `None` when it reads as zero and its value rounded to n places otherwise |
| `Products.MalformedProteinRejected` | api_client.py:266-313 | a protein string that `float()` rejects is a ValueError, so the product is rejected |
| `Products.StringFiberRejected` | api_client.py:299-313 | a non-empty string fiber is a TypeError under `round`, so the product is rejected |
| `Products.KilojouleConversion` | api_client.py:251-295 | 200 kJ with no kcal value reads as 47.8 kcal |
| `Products.GramsFromIsLeftmost` | api_client.py:280-282 | some result exists iff some digit position starts a number followed by optional spaces and `g`; the result is the leftmost such number |
| `Products.GramsFrom` | api_client.py:280-282 | specified by `GramsFromIsLeftmost`, `LeadingGrams` and `NoGramsWithoutG` |
| `Products.ServingSizeG` | api_client.py:275-282 | specified by the `ServingSizeOf…` and `ServingSizeCanBeZero` lemmas: the leftmost gram figure of the lowered text, else 100 |
| `Products.LeadingGrams` | api_client.py:280-282 | a text that starts with digits, optional spaces and `g` gives that integer |
| `Products.NoGramsWithoutG` | api_client.py:280-282 | a text with no `g` has no match |
| `Products.ServingSizeOfGrams` | api_client.py:275-282 | "30g" is 30 g |
| `Products.ServingSizeOfSpacedUpperCase` | api_client.py:278-282 | "250 G" is 250 g (lower-cased, space allowed) |
| `Products.ServingSizeOfMillilitres` | api_client.py:276-282 | "50 ml" has no gram figure and gives the default 100 |
| `Products.ServingSizeCanBeZero` | api_client.py:275-282 | "0g" gives 0, so the serving size is not always positive; a missing or empty size gives 100 |
| `Products.AfterLastDash` | api_client.py:289 | the result is the suffix of the tag after its last `-`, and it holds no `-` |
| `Products.NovaGroupExamples` | api_client.py:285-291 | "nova-group-4" gives 4; "en:4" and an empty tag list give `None` |
| `Products.NovaGroupOfDashDigit` | api_client.py:285-291 | a first tag ending in `-` and one digit gives that digit |
| `Products.NovaGroupOfDashFreeWord` | api_client.py:285-291 | a first tag without `-` that does not start like a number makes `int()` raise, and the caught error leaves the NOVA group `None` |
| `Products.NovaGroup` | api_client.py:285-291 | specified by `NovaGroupExamples`, `NovaGroupOfDashDigit` and `NovaGroupOfDashFreeWord` |
| `FoodApi.ParseAll` | api_client.py:160-166 | the kept products are at most the reply's, all successful and from Open Food Facts |
| `FoodApi.ParseAllFromReply` | api_client.py:163-166 | every kept product is the parse of some product of the reply |
| `FoodApi.ParseAllOfOne` | api_client.py:163-166 | one reply product is kept exactly when it parses, as its parse |
| `FoodApi.ParseAllAppend` | api_client.py:163-166 | the kept products of a concatenation are those of the first part followed by those of the second, so reply order is kept |
| `FoodApi.ParseAllKeepsParsed` | api_client.py:163-166 | every product of the reply that parses is kept |
| `FoodApi.FoodClient.ParseReply` | api_client.py:160-166 | the reply loop computes `ParseAll` |
| `FoodApi.SearchStep` | api_client.py:136-183 | the cache stays well formed (search keys hold lists of remote products), and results are remote products |
| `FoodApi.FoodClient.SearchProduct` | api_client.py:125-183 | result and new cache are `SearchStep` of the old cache |
| `FoodApi.FreshSearchIgnoresRemote` | api_client.py:138-142 | a key `"search_"+lower(query)` younger than an hour answers from the cache, whatever the remote says |
| `FoodApi.FailedSearchKeepsCache` | api_client.py:178-183 | a failed request returns `[]` and leaves the cache unchanged |
| `FoodApi.EmptySearchIsCached` | api_client.py:160-169 | a reply with no usable product caches the empty list, stamped now |
| `FoodApi.SuccessfulSearchIsCached` | api_client.py:138-169 | with no fresh entry and a successful reply, the parsed products are returned and stored under the query key, stamped now, and every other key keeps its entry |
| `FoodApi.RepeatedSearchHitsCache` | api_client.py:138-169 | after a fetch, the same query in any letter case is answered from the cache within the hour, even if the remote now fails |
| `FoodApi.SearchExpiresAtOneHour` | api_client.py:141 | at exactly one hour the entry is stale and the remote is asked again |
| `FoodApi.BarcodeStep` | api_client.py:195-222 | the cache stays well formed |
| `FoodApi.FoodClient.GetProductByBarcode` | api_client.py:185-222 | result and new cache are `BarcodeStep` of the old cache |
| `FoodApi.BarcodeCachesOnlyProducts` | api_client.py:205-218 | the result is `None` iff failure, 404, status ≠ 1 or parse failure, and then the cache is unchanged; otherwise exactly the parsed product is cached, stamped now |
| `FoodApi.FreshBarcodeIgnoresRemote` | api_client.py:196-200 | a fresh barcode entry answers without the remote and leaves the cache unchanged |
| `FoodApi.BarcodeKeysAreRaw` | api_client.py:196 | barcode keys are equal iff the raw barcodes are equal (no case folding) |
| `FoodApi.FirstExact` | api_client.py:333-345 | the result is the first table index whose key occurs in the lowered query, and `None` only if no key occurs |
| `FoodApi.FoodClient.ExactMatch` | api_client.py:333-345 | the first table loop computes `FirstExact` |
| `FoodApi.FirstPartial` | api_client.py:348-366 | the result is the first table index whose key shares a whitespace word with the query, and `None` only if none does |
| `FoodApi.FoodClient.PartialMatch` | api_client.py:348-366 | the second table loop computes `FirstPartial` |
| `FoodApi.SharedSingleWordOccurs` | api_client.py:333-355 | a key without whitespace that shares a word with the query occurs in the query |
| `FoodApi.EstimateOver` | api_client.py:404-410 | the result is the last category with a matching keyword, or the default when none matches |
| `FoodApi.EstimatedCategory` | api_client.py:404-410 | specified by `EstimateOver`, `LastCategoryWins` and `ChocolateMilkIsADrink` |
| `FoodApi.FoodClient.CategoryLoop` | api_client.py:404-410 | the outer loop over the categories computes `EstimateOver` |
| `FoodApi.FoodClient.KeywordLoop` | api_client.py:407-410 | the inner loop stops at the first keyword found and reports whether any keyword occurs in the query |
| `FoodApi.LastCategoryWins` | api_client.py:406-410 | a keyword of the last category decides, whatever matched earlier |
| `FoodApi.ChocolateMilkIsADrink` | api_client.py:396-410 | "молочный шоколад" matches the sweets but ends as "напиток", through the "кола" in "шоколад" |
| `FoodApi.Estimate` | api_client.py:412-427 | the estimate's name is the original query, with source `estimation`, success, a serving size of 100 g, and the calories, protein, fat and carbs of the category chosen for the lowered query |
| `FoodApi.FoodClient.EstimateProductInfo` | api_client.py:371-427 | the nested loops compute `Estimate` |
| `FoodApi.ProductInfoStep` | api_client.py:315-369 | the result always has `success`, and the cache stays well formed |
| `FoodApi.FoodClient.GetProductInfo` | api_client.py:315-369 | result and new cache are `ProductInfoStep` of the old cache |
| `FoodApi.LookupOrder` | api_client.py:323-369 | first remote hit; else first substring key as `local_db`, capitalised, per 100 g; else first shared-word key as `local_db_approx`; else the estimate |
| `FoodApi.FromLocal` | api_client.py:335-345 | specified by `LookupOrder`: the key capitalised, the row's values, 100 g |
| `FoodApi.ApproximateMatchIsMultiWord` | api_client.py:333-366 | a `local_db_approx` result is built from a table key that holds whitespace |
| `FoodApi.Scaled` | api_client.py:456-465 | an ingredient keeps the product name and the amount, and each of its calories, protein, fat and carbs times the serving size is the product's value times the amount |
| `FoodApi.FoodClient.AnalyzeMeal` | api_client.py:429-507 | result and new cache are `AnalyzeStep` of the old cache; a zero serving size aborts with the division error |
| `FoodApi.FoodClient.MatchLoop` | api_client.py:443-468 | the loop over the matches computes `PatternStage` of the old cache, `None` for the division error |
| `FoodApi.FoodClient.MatchAt` | api_client.py:443-468 | one turn of that loop extends `PatternStage` by one match, or ends the whole stage with the division error |
| `FoodApi.FoodClient.MatchOne` | api_client.py:444-465 | one match is `MatchStep`: an unreadable amount is skipped, kilograms scale by 1000, the lookup goes through the cache |
| `FoodApi.FoodClient.AppendScaled` | api_client.py:455-465 | a failed lookup adds nothing, a zero serving size raises, otherwise the scaled ingredient is appended |
| `FoodApi.AddScaled` | api_client.py:455-465 | specified by `FoodClient.AppendScaled` and `Scaled` |
| `FoodApi.MatchStep` | api_client.py:444-465 | the cache stays well formed; the amounts are stated by `MatchStepAmount` |
| `FoodApi.PatternStage` | api_client.py:443-468 | the cache stays well formed; the amounts by `PatternAmounts`, the abort by `AbortIsFinal` |
| `FoodApi.WordStage` | api_client.py:471-485 | the cache stays well formed; its ingredients by `FallbackTakesLongWords` |
| `FoodApi.FoodClient.WordLoop` | api_client.py:471-485 | the fallback loop computes `WordStage` of the old cache |
| `FoodApi.AnalyzeStep` | api_client.py:435-507 | the cache stays well formed |
| `FoodApi.PatternAmounts` | api_client.py:443-449 | each pattern ingredient carries the amount of some match, times 1000 whenever "кг" occurs anywhere in the description |
| `FoodApi.MatchStepAmount` | api_client.py:445-460 | a match adds only ingredients whose amount is its own number, times 1000 under "кг" |
| `FoodApi.AbortIsFinal` | api_client.py:456-507 | once a zero serving size aborted the analysis, later matches change nothing |
| `FoodApi.FallbackTakesLongWords` | api_client.py:471-485 | the fallback makes one 100 g ingredient per word longer than 3 characters |
| `FoodApi.TotalsAreAdditive` | api_client.py:488-492 | each total over a concatenation is the sum of the totals of its parts |
| `FoodApi.SuccessIffIngredients` | api_client.py:496-497 | an analysis succeeds exactly when its ingredient list is non-empty |
| `FoodApi.AnalysisTotals` | api_client.py:487-507 | an analysis keeps the description, and its four totals are the sums of its ingredients' calories, protein, fat and carbs |
| `FoodApi.Summarize` | api_client.py:488-499 | specified by `AnalysisTotals`, `SuccessIffIngredients` and `TotalsAreAdditive` |
| `FoodApi.ScaleBack` | api_client.py:458-464 | a value scaled by amount / serving, times the serving, is the value times the amount |
| `LocalTable.EveryCategoryHasAverages` | api_client.py:378-416 | the default and every keyword category has averages |
| `Nutrition.Bmi` | utils.py:11-17 | a height ≤ 0 gives 0; otherwise the result is within 0.05 of w/(h/100)² |
| `Nutrition.BmiOfSampleProfile` | utils.py:11-17 | 70 kg at 175 cm gives 22.9, which agrees to one decimal with the value 22.86 expected by tests/test_basic.py:35-36 |
| `Nutrition.BmiBand` | utils.py:20-35 | the band index k is below 7, with threshold k−1 ≤ bmi < threshold k |
| `Nutrition.InterpretBmi` | utils.py:20-35 | the label is one of the seven WHO labels; the first iff below 16 and the last iff 40 or more, the bands in between by `InterpretBmiNamesBand` |
| `Nutrition.InterpretBmiNamesBand` | utils.py:20-35 | `interpret_bmi` is total and names the band enclosing the value |
| `Nutrition.BmiBandMonotone` | utils.py:20-35 | the band index never decreases as the BMI grows |
| `Nutrition.InterpretSampleBmi` | utils.py:26-27 | 22.86 is "Нормальная масса тела" |
| `Nutrition.BmrGenderGap` | utils.py:38-45 | the male BMR exceeds the BMR of any other gender string by 166 for equal inputs |
| `Nutrition.Bmr` | utils.py:38-45 | specified by `BmrGenderGap` and, through the daily calories, `DailyCaloriesOfSampleProfile` |
| `Nutrition.RatiosFor` | utils.py:92-106 | the macro ratios sum to 1 and are positive, in every branch |
| `Nutrition.Grams` | utils.py:113-115 | grams × kcal-per-gram is within half a gram's energy of calories × ratio |
| `Nutrition.DailyCalories` | utils.py:48-89 | calories are within 0.5 of bmr × activity × goal multiplier |
| `Nutrition.DailyCaloriesMacros` | utils.py:91-126 | the percents are the goal's ratios × 100 and sum to 100; each macro's grams are within rounding of calories × ratio / 4 (or 9 for fat) |
| `Nutrition.UnknownActivityIsSedentary` | utils.py:84 | an unknown activity level gives the same result as "sedentary" |
| `Nutrition.UnknownGoalIsMaintain` | utils.py:88-106 | an unknown goal gives the same result as "maintain" |
| `Nutrition.DailyCaloriesOfSampleProfile` | utils.py:48-126 | the profile of tests/test_basic.py:47-52 gets a positive 2556 kcal |
| `Nutrition.WaterNeeds` | utils.py:129-160 | a multiple of 100, within 50 ml of w × 35 × activity × climate (unknown factors 1.0) |
| `Nutrition.IdealWeight` | utils.py:163-192 | min and max are the least and greatest of the unrounded Broca, Lorenz and Cooper values; each rounded value is within 0.05 |
| `Nutrition.IdealWeightOfOtherGender` | utils.py:170-184 | a gender that is neither "male" nor "female" gets the male Broca but the female Lorenz and Cooper values |
| `Nutrition.DistributionSumsToOne` | utils.py:206-214 | every layout's shares sum to 1; 3 and 5 meals give 3 and 5 entries, any other count gives 4 |
| `Nutrition.Distribution` | utils.py:206-214 | specified by `DistributionSumsToOne` |
| `Nutrition.Share` | utils.py:218 | a meal's calories are within 0.5 of total × ratio |
| `Nutrition.MealsFor` | utils.py:216-237 | one meal per distribution entry, in order, each with its rounded share and the diet type's suggestion |
| `Nutrition.NutritionPlan` | utils.py:195-237 | the plan is `MealsFor` over the meal count's distribution |
| `Nutrition.PlanAddsUpToTotal` | utils.py:206-237 | the meals sum to the total within half a kcal per meal |
| `Nutrition.WeightChangeRate` | utils.py:240-274 | `is_possible` iff (current > target and balance < 0) or (current ≤ target and balance > 0); `weeks_needed` is None iff impossible and otherwise close to distance over rate; the weekly change is close to balance × 7 / 7700 |
| `Wizard.AgeStep` | handlers.py:117-142 | it moves on iff the text is an integer from 10 to 120, storing it; otherwise state and answers stay |
| `Wizard.GenderStep` | handlers.py:144-160 | any button data is stored as the gender, nothing else changes, and the weight question follows |
| `Wizard.WeightStep` | handlers.py:162-182 | it moves on iff the text, with a comma read as a point, is a number from 30 to 300; otherwise nothing changes |
| `Wizard.HeightStep` | handlers.py:184-219 | it moves on iff the text is a number from 100 to 250; otherwise nothing changes |
| `Wizard.ActivityStep` | handlers.py:221-259 | the choice is stored first; the step moves on iff it is a known key, and otherwise stays |
| `Wizard.ClimateStep` | handlers.py:261-296 | the choice is stored first; the step moves on iff it is a known key, and otherwise stays |
| `Wizard.GoalStep` | handlers.py:298-395 | it always ends with the answers cleared; a confirmation implies that something was saved and the goal is known |
| `Wizard.GoalStepSaves` | handlers.py:309-365 | with every answer present the figures are saved, and the confirmation shows iff the goal is known |
| `Wizard.TransitionKeepsFilled` | handlers.py:107-401 | every update keeps the answers matching the state, and moves to the next state or stays |
| `Wizard.Transition` | handlers.py:107-401 | specified by `TransitionKeepsFilled` and `AcceptedAnswersComplete` |
| `Wizard.AcceptedAnswersComplete` | handlers.py:107-395 | seven accepted answers go AGE→…→GOAL→END (answers cleared), having saved their summary |
| `Wizard.CommaWeightAccepted` | handlers.py:165-172 | "68,5" is stored as 68.5 kg |
| `Wizard.NoBreakSpaceAgeAccepted` | handlers.py:120-125 | "25" followed by a no-break space is accepted as the age 25, since `int()` strips Unicode whitespace |
| `Wizard.CommaDecimal` | handlers.py:165 | digits, a comma and digits read as the decimal number with the comma taken as the point |
| `Wizard.RangesAreInclusive` | handlers.py:121-188 | both ends of each range are accepted, and 9 and 121 are not |
| `Wizard.ProfileWizard.Handle` | handlers.py:117-395 | the new state, answers and completion are `Transition` of the old ones |
| `Wizard.ProfileWizard.Start` | handlers.py:107-115 | the age question is asked and the stored answers are kept |
| `Wizard.ProfileWizard.Cancel` | handlers.py:397-401 | the answers are cleared and the conversation ends |
| `Commands.UnitLength` | handlers.py:439 | the unit taken after the number is one of "г", "кг", "л", "мл" (a one-letter "г" when the text starts with it), and none is taken iff the text starts with no unit |
| `Commands.RemoveFirstQuantity` | handlers.py:439 | with no digit the text is unchanged; otherwise exactly the first number, the spaces after it and its unit are cut, and the text on either side is kept |
| `Commands.QuantityEnd` | handlers.py:439 | the cut ends after the number, then only spaces, then one of the units or none where no unit starts |
| `Commands.QuantityCases` | handlers.py:430-442 | the quantity is 100 without a digit; otherwise the first number, times 1000 when the lowered text holds "кг" or any "л" |
| `Commands.QuantityAndText` | handlers.py:430-442 | specified by `QuantityCases`, `RemoveFirstQuantity` and `DefaultQuantity` |
| `Commands.FirstMealType` | handlers.py:445-452 | the result is the first meal type in list order found in the text, and `None` only if none is found |
| `Commands.FoodRequestOf` | handlers.py:405-456 | usage help iff there are no arguments; a request carries the quantity of the joined arguments, and a missing product iff the text stripped of the first meal type found is empty; the product is that text, with the found meal type or none |
| `Commands.DefaultQuantity` | handlers.py:440-442 | with no number and no meal word, the quantity is 100 and the text is kept as typed |
| `Commands.MilkHasLitreLetter` | handlers.py:436-437 | "молоко" holds an "л", so it triggers the litre factor |
| `Commands.MealTypeIsFirstListed` | handlers.py:445-452 | the chosen meal type is the first listed one in the lowered text, and the product is the lowered text with every occurrence removed, stripped |
| `Commands.ParseAddFood` | handlers.py:403-456 | the parse with its meal-type loop computes `FoodRequestOf` |
| `Commands.EntryFor` | handlers.py:473-478 | `None` (division error) iff the serving size is 0; each of calories, protein, fat and carbs times the serving size is the product's value times the quantity; the entry keeps name, quantity, meal type and source |
| `Commands.AddFoodStep` | handlers.py:403-493 | usage iff no arguments and "no product" iff the request misses one, both with the cache unchanged; otherwise the cache is that of the product lookup; it stays well formed |
| `Commands.AddFoodFailsOnlyOnZeroServing` | handlers.py:459-493 | a request fails iff the product found has serving size 0, and an added entry is `EntryFor` the request's quantity and meal type and the product found |
| `Commands.AddFood` | handlers.py:403-493 | the outcome and new cache are `AddFoodStep` of the old cache |
| `Commands.Percent` | handlers.py:630-631 | 0 for a goal ≤ 0; otherwise percent × goal = value × 100 |
| `Commands.Repeat` | handlers.py:637 | `c * n` has max(n, 0) copies of c |
| `Commands.ProgressBarShape` | handlers.py:634-637 | for 0 ≤ p ≤ 100 the bar has exactly `length` cells, `int(p·length/100)` full ones first |
| `Commands.ProgressBar` | handlers.py:634-637 | specified by `ProgressBarShape`, `ProgressBarMonotone` and `TodayBarHasTenCells` |
| `Commands.ProgressBarMonotone` | handlers.py:635 | a bigger percentage never gives fewer full cells |
| `Commands.TodayBarHasTenCells` | handlers.py:639-640 | for a non-negative percentage the bar, clamped at 100, has 10 cells |
| `Commands.NegativeBarIsLonger` | handlers.py:634-637 | at −10 % or below the number of full cells is negative, so the bar has more than 10 cells |
| `Commands.WithinNormBounds` | handlers.py:660-665 | for a positive goal: within the norm iff 80 %–120 % of it, and "eat more" iff below 80 % |
| `Commands.CalorieAdviceFor` | handlers.py:660-665 | specified by `WithinNormBounds` |
| `Commands.WaterReminderBound` | handlers.py:667-670 | the reminder shows iff water is below 70 % of a positive goal, and always when the goal is ≤ 0 |
| `Commands.WaterReminder` | handlers.py:667-670 | specified by `WaterReminderBound` |
| `Commands.WaterInputOf` | handlers.py:716-745 | accepted iff `float()` succeeds and 0 < amount ≤ 5000; not a number iff `float()` fails |
| `Commands.WaterProgressBounds` | handlers.py:733-740 | goal reached iff water ≥ goal, almost there iff 80 %–100 %, nothing extra below 80 % |
| `Commands.WaterProgressFor` | handlers.py:733-740 | specified by `WaterProgressBounds` |
| `Commands.DiffAdviceFor` | handlers.py:957-970 | "far below" iff the remainder exceeds 500; "remaining" with the remainder iff it lies in (0, 500]; "reached" iff it is ≤ 0, carrying the non-negative excess |
| `Commands.ProteinHintThreshold` | handlers.py:973-975 | for a positive goal the protein hint shows iff protein < 6 % of the calorie goal |
| `Commands.ProteinHintWithoutGoal` | handlers.py:973-975 | with a goal ≤ 0 the protein hint always shows |
| `Commands.SuggestProtein` | handlers.py:973-975 | specified by `ProteinHintThreshold` and `ProteinHintWithoutGoal` |
| `Commands.BmiSourceOf` | handlers.py:764-783 | two readable arguments override the profile; two arguments with an unreadable one are an error; fewer use a profile with truthy weight and height, and no data otherwise |
| `Commands.HealthyRangeMeansHealthyIndex` | handlers.py:790-792 | a weight lies in 18.5·m²…24.9·m² iff its unrounded BMI lies in 18.5…24.9 |
| `Commands.BmiAdviceFollowsBands` | handlers.py:811-818 | "keep going" iff `interpret_bmi` says normal; "moderate deficit" iff it says overweight |
| `Commands.BmiAdviceFor` | handlers.py:811-818 | specified by `BmiAdviceFollowsBands` |
| `Commands.HistoryDays` | handlers.py:996-1004 | always 1..30; an integer argument in 1..30 is taken, anything else gives 7 |
| `Commands.Truncate20` | handlers.py:1029 | the first min(20, length) characters |
| `Commands.GroupedSumsEachDay` | handlers.py:1022-1029 | days are exactly the entries' dates, each day's calories are the sum of its entries, and its meals are the names of its entries in order, each cut to 20 characters |
| `Commands.GroupedDays` | handlers.py:1022-1026 | the days of the grouping are exactly the entries' dates |
| `Commands.GroupedCalories` | handlers.py:1022-1027 | each day's calories are the sum of the calories of its entries |
| `Commands.GroupedNamesAreShort` | handlers.py:1028-1029 | every stored meal name has at most 20 characters |
| `Commands.GroupedMeals` | handlers.py:1022-1029 | each day's meals are the non-empty names of its entries, in entry order, each cut to 20 characters |
| `Commands.Grouped` | handlers.py:1022-1029 | specified by `GroupedSumsEachDay`, `GroupedDays`, `GroupedCalories` and `GroupedMeals` |
| `Commands.MealsOf` | handlers.py:1028-1029 | specified by `GroupedMeals` and `GroupedNamesAreShort` |
| `Commands.GroupByDay` | handlers.py:1022-1029 | the grouping loop computes `Grouped` |
| `Commands.Classify` | handlers.py:1125-1140 | greeting iff a greeting occurs in the lowered text; farewell iff no greeting and a farewell occurs |
| `Text.LowerIdempotent` | handlers.py:1125 | lower-casing twice gives what lower-casing once gives |
| `Commands.ClassifyIgnoresCase` | handlers.py:1125 | lower-casing the text first changes nothing |
| `Commands.GreetingBeatsFarewell` | handlers.py:1131-1134 | "Привет, пока!" is a greeting |

## Left out

- Telegram I/O: replies, keyboards, message texts, Markdown, the
  `ConversationHandler` wiring and bot.py. Each handler is reduced to the
  choice it makes.
- database.py and ydb_client.py. They are SQL run by YDB. Stored profiles,
  today's totals and history rows enter the model as parameters.
- HTTP: sessions, headers, timeouts, `raise_for_status`, JSON decoding. The
  endpoints are oracle parameters. A barcode reply with status 1 always
  carries a product; a missing `product` key, which would raise KeyError,
  is not represented.
- Non-string JSON values in the name and serving-size fields, and booleans
  or nested objects in nutriment fields. Only absent, number and string
  values are represented.
- The regex engine:
  - `analyze_meal` takes the `re.findall` matches as a parameter.
  - The `add_food` and serving-size searches are hand-written scanners for
    `\d+(\.\d+)?`.
  - Python's `\d` is narrowed to the ASCII digits. Its `\s` is the full
    `str.isspace()` set, as in `Text.IsSpace`.
- Unicode case mapping beyond ASCII and Russian Cyrillic.
- `Text.ParseInt`: reads ASCII digits only. Python's `int()` also takes
  other Unicode decimal digits, such as Arabic-Indic ones; it strips the
  same Unicode whitespace as the model.
- `Text.ParseFloat`: reads ASCII digits only, for the same reason.
- `float()` exponents, `inf`, `nan` and underscores, and `int()`
  underscores.
- IEEE float artefacts: numbers are `real`.
- Python's `float('inf')` for an impossible target is `None` directly, as
  the returned dictionary has it.
- The clock is one value per call: the second `datetime.now()` at a cache
  write is taken to equal the first.
- `FoodApi.FoodClient.AnalyzeMeal`: errors other than the zero serving size
  are not modelled. The model has no other exception source on that path.
- `Commands.AddFood`: the database write is left out, and so are the
  exceptions after it.
- `Nutrition.Bmi`: the rounded BMI is stated within 0.05 of the exact
  value, not as the exact half-to-even result.
- `Nutrition.WaterNeeds`: the amount is stated within 50 ml of the exact
  value, not as the exact half-to-even multiple of 100.
- `Nutrition.IdealWeight`: each rounded formula value is stated within
  0.05, not as the exact half-to-even result.
- `Nutrition.WeightChangeRate`: the rounded weekly change and weeks needed
  are stated within rounding distance, not as exact results.
- `Nutrition.Grams`: a macro's rounded grams are stated within half a gram,
  not as the exact half-to-even result.
- `Nutrition.DailyCalories`: the rounded calories are stated within 0.5,
  not as the exact half-to-even result.
- `Nutrition.DailyCaloriesMacros`: each macro's grams are stated within
  half a gram, not as the exact half-to-even result.
- `Nutrition.Share`: a meal's rounded calories are stated within 0.5, not
  as the exact half-to-even result.
- In all of these the rounding function itself is exact (`Rounding.Round`);
  only the stated contracts are bounds.
- `Commands.HistoryDays`: `int()` of an argument is the model's `ParseInt`,
  which covers an optional sign, surrounding Unicode whitespace and ASCII
  digits.
- Set iteration order when displaying meal names (handlers.py:1046-1047),
  `sorted` order of dates, and `strftime`: a day is its date string.
- The `/search`, `/product`, `/progress` and `/plan` handlers, plotting,
  logging and config.py. The only value needed from config.py is the water
  multiplier 35.
- The unused cache and timeout settings of config.py. The client uses a
  fixed one hour.
