/**
 * The seven-step profile conversation of handlers.py (`profile_start`,
 * `profile_age` … `profile_goal`, `cancel`): a state machine over the
 * conversation state and `context.user_data`. Replies, keyboards and the
 * database writes are not modelled; the goal step's outcome records what
 * would be saved and whether the confirmation is shown.
 */
module Wizard {
  import opened Wrappers
  import opened Text
  import opened Nutrition

  /** The conversation states, in wizard order; `Done` is `ConversationHandler.END`. */
  datatype WizardState = AskAge | AskGender | AskWeight | AskHeight | AskActivity | AskClimate | AskGoal | Done

  /** `context.user_data`: the answers collected so far. */
  datatype Profile = Profile(
    age: Option<int>, gender: Option<string>, weight: Option<real>, height: Option<real>,
    activity: Option<string>, climate: Option<string>, goal: Option<string>)

  const NoAnswers: Profile := Profile(None, None, None, None, None, None, None)

  /** A chat update: typed text or the data of a pressed button. */
  datatype Input = Message(text: string) | Button(data: string)

  /** The figures `profile_goal` computes and stores. */
  datatype ProfileSummary = ProfileSummary(target: DailyTarget, water: int, bmi: real, bmiStatus: string)

  /**
   * The outcome of `profile_goal`: what is written to the database (`None`
   * when a KeyError on a missing answer comes first) and whether the
   * confirmation text is shown (the goal label lookup comes after the write).
   */
  datatype Completion = Completion(saved: Option<ProfileSummary>, confirmed: bool)

  /** The keys of `activity_texts`, `climate_texts` and `goal_texts`. */
  const ActivityKeys: set<string> := {"sedentary", "light", "moderate", "active", "very_active"}
  const ClimateKeys: set<string> := {"cold", "moderate", "hot", "very_hot"}
  const GoalKeys: set<string> := {"lose", "maintain", "gain"}

  /** The state that follows `s` when its answer is accepted. */
  function NextState(s: WizardState): WizardState {
    match s
    case AskAge => AskGender
    case AskGender => AskWeight
    case AskWeight => AskHeight
    case AskHeight => AskActivity
    case AskActivity => AskClimate
    case AskClimate => AskGoal
    case AskGoal => Done
    case Done => Done
  }

  predicate AgeInRange(a: int) { 10 <= a <= 120 }
  predicate WeightInRange(w: real) { 30.0 <= w <= 300.0 }
  predicate HeightInRange(h: real) { 100.0 <= h <= 250.0 }

  /** `float(text.replace(',', '.'))` */
  function CommaFloat(text: string): Option<real> {
    ParseFloat(ReplaceChar(text, ',', '.'))
  }

  /** `profile_age`: an integer from 10 to 120 moves on to the gender question. */
  function AgeStep(data: Profile, text: string): (r: (WizardState, Profile))
    ensures r.0 == AskGender <==> ParseInt(text).Some? && AgeInRange(ParseInt(text).value)
    ensures r.0 == AskGender ==> r.1 == data.(age := ParseInt(text))
    ensures r.0 != AskGender ==> r == (AskAge, data)
  {
    match ParseInt(text)
    case None => (AskAge, data)
    case Some(a) => if !AgeInRange(a) then (AskAge, data) else (AskGender, data.(age := Some(a)))
  }

  /** `profile_gender`: any button data is stored. */
  function GenderStep(data: Profile, choice: string): (r: (WizardState, Profile))
    ensures r.0 == AskWeight && r.1.gender == Some(choice)
    ensures r.1.(gender := data.gender) == data
  {
    (AskWeight, data.(gender := Some(choice)))
  }

  /** `profile_weight`: a number from 30 to 300, comma or point, moves on to the height question. */
  function WeightStep(data: Profile, text: string): (r: (WizardState, Profile))
    ensures r.0 == AskHeight <==> CommaFloat(text).Some? && WeightInRange(CommaFloat(text).value)
    ensures r.0 == AskHeight ==> r.1 == data.(weight := CommaFloat(text))
    ensures r.0 != AskHeight ==> r == (AskWeight, data)
  {
    match CommaFloat(text)
    case None => (AskWeight, data)
    case Some(w) => if !WeightInRange(w) then (AskWeight, data) else (AskHeight, data.(weight := Some(w)))
  }

  /** `profile_height`: a number from 100 to 250 moves on to the activity question. */
  function HeightStep(data: Profile, text: string): (r: (WizardState, Profile))
    ensures r.0 == AskActivity <==> CommaFloat(text).Some? && HeightInRange(CommaFloat(text).value)
    ensures r.0 == AskActivity ==> r.1 == data.(height := CommaFloat(text))
    ensures r.0 != AskActivity ==> r == (AskHeight, data)
  {
    match CommaFloat(text)
    case None => (AskHeight, data)
    case Some(h) => if !HeightInRange(h) then (AskHeight, data) else (AskActivity, data.(height := Some(h)))
  }

  /**
   * `profile_activity`: the choice is stored first; an unknown key then
   * fails the label lookup, and the state stays where it was.
   */
  function ActivityStep(data: Profile, choice: string): (r: (WizardState, Profile))
    ensures r.1 == data.(activity := Some(choice))
    ensures r.0 == AskClimate <==> choice in ActivityKeys
    ensures r.0 != AskClimate ==> r.0 == AskActivity
  {
    var d := data.(activity := Some(choice));
    if choice in ActivityKeys then (AskClimate, d) else (AskActivity, d)
  }

  /** `profile_climate`: as the activity step, with the climate labels. */
  function ClimateStep(data: Profile, choice: string): (r: (WizardState, Profile))
    ensures r.1 == data.(climate := Some(choice))
    ensures r.0 == AskGoal <==> choice in ClimateKeys
    ensures r.0 != AskGoal ==> r.0 == AskClimate
  {
    var d := data.(climate := Some(choice));
    if choice in ClimateKeys then (AskGoal, d) else (AskClimate, d)
  }

  /** The figures of `profile_goal` for a complete set of answers; the climate defaults to "moderate". */
  function Summary(age: int, gender: string, weight: real, height: real, activity: string,
                   climate: Option<string>, goal: string): ProfileSummary
  {
    var bmi := Bmi(weight, height);
    ProfileSummary(
      DailyCalories(weight, height, age, gender, activity, goal),
      WaterNeeds(weight, activity, climate.GetOr("moderate")),
      bmi, InterpretBmi(bmi))
  }

  /** `profile_goal`: compute and save, then clear the answers and end, whatever happened. */
  function GoalStep(data: Profile, goal: string): (r: (WizardState, Profile, Completion))
    ensures r.0 == Done && r.1 == NoAnswers
    ensures r.2.confirmed ==> r.2.saved.Some? && goal in GoalKeys
  {
    var d := data.(goal := Some(goal));
    if d.weight.Some? && d.height.Some? && d.age.Some? && d.gender.Some? && d.activity.Some? then
      var s := Summary(d.age.value, d.gender.value, d.weight.value, d.height.value, d.activity.value, d.climate, goal);
      (Done, NoAnswers, Completion(Some(s), goal in GoalKeys))
    else (Done, NoAnswers, Completion(None, false))
  }

  /**
   * One update in the given state. An update of the wrong kind for the state
   * (text where a button is expected, or anything after the end) is not
   * routed to any wizard handler and changes nothing.
   */
  function Transition(s: WizardState, data: Profile, input: Input): (WizardState, Profile, Option<Completion>) {
    match (s, input)
    case (AskAge, Message(t)) => var (s', d') := AgeStep(data, t); (s', d', None)
    case (AskGender, Button(c)) => var (s', d') := GenderStep(data, c); (s', d', None)
    case (AskWeight, Message(t)) => var (s', d') := WeightStep(data, t); (s', d', None)
    case (AskHeight, Message(t)) => var (s', d') := HeightStep(data, t); (s', d', None)
    case (AskActivity, Button(c)) => var (s', d') := ActivityStep(data, c); (s', d', None)
    case (AskClimate, Button(c)) => var (s', d') := ClimateStep(data, c); (s', d', None)
    case (AskGoal, Button(c)) => var (s', d', done) := GoalStep(data, c); (s', d', Some(done))
    case _ => (s, data, None)
  }

  /**
   * The answers each state has collected, all in range: every question
   * before the current one has been answered, and nothing is kept after
   * the end.
   */
  predicate AgeOk(d: Profile) { d.age.Some? && AgeInRange(d.age.value) }
  predicate WeightOk(d: Profile) { d.weight.Some? && WeightInRange(d.weight.value) }
  predicate HeightOk(d: Profile) { d.height.Some? && HeightInRange(d.height.value) }
  predicate ActivityOk(d: Profile) { d.activity.Some? && d.activity.value in ActivityKeys }
  predicate ClimateOk(d: Profile) { d.climate.Some? && d.climate.value in ClimateKeys }

  predicate Filled(s: WizardState, d: Profile) {
    match s
    case Done => d == NoAnswers
    case AskAge => d == NoAnswers
    case AskGender => AgeOk(d)
    case AskWeight => AgeOk(d) && d.gender.Some?
    case AskHeight => AgeOk(d) && d.gender.Some? && WeightOk(d)
    case AskActivity => AgeOk(d) && d.gender.Some? && WeightOk(d) && HeightOk(d)
    case AskClimate => AgeOk(d) && d.gender.Some? && WeightOk(d) && HeightOk(d) && ActivityOk(d)
    case AskGoal => AgeOk(d) && d.gender.Some? && WeightOk(d) && HeightOk(d) && ActivityOk(d) && ClimateOk(d)
  }

  /** Every update keeps `Filled`, and the state either stays or moves to the next one. */
  lemma TransitionKeepsFilled(s: WizardState, d: Profile, input: Input)
    requires Filled(s, d)
    ensures var (s', d', _) := Transition(s, d, input);
      Filled(s', d') && (s' == s || s' == NextState(s))
  {
    hide Summary, CommaFloat, ParseInt;
  }

  /** With every question answered, the goal step always saves; it confirms exactly for a known goal. */
  lemma GoalStepSaves(d: Profile, goal: string)
    requires Filled(AskGoal, d)
    ensures var (_, _, c) := GoalStep(d, goal);
      && c.saved == Some(Summary(d.age.value, d.gender.value, d.weight.value, d.height.value,
                                 d.activity.value, d.climate, goal))
      && (c.confirmed <==> goal in GoalKeys)
  {
  }

  /** The state after a sequence of updates, and the last completion seen. */
  function Run(s: WizardState, d: Profile, inputs: seq<Input>): (WizardState, Profile, Option<Completion>)
    decreases |inputs|
  {
    if |inputs| == 0 then (s, d, None)
    else
      var (s', d', c) := Transition(s, d, inputs[0]);
      var (s'', d'', c') := Run(s', d', inputs[1..]);
      (s'', d'', if c'.Some? then c' else c)
  }

  /** Seven accepted answers take the wizard from the first question to the end, saving their summary. */
  lemma AcceptedAnswersComplete(age: string, gender: string, weight: string, height: string,
                                activity: string, climate: string, goal: string)
    requires ParseInt(age).Some? && AgeInRange(ParseInt(age).value)
    requires CommaFloat(weight).Some? && WeightInRange(CommaFloat(weight).value)
    requires CommaFloat(height).Some? && HeightInRange(CommaFloat(height).value)
    requires activity in ActivityKeys && climate in ClimateKeys && goal in GoalKeys
    ensures Run(AskAge, NoAnswers, [Message(age), Button(gender), Message(weight), Message(height),
                                    Button(activity), Button(climate), Button(goal)])
         == (Done, NoAnswers, Some(Completion(Some(Summary(ParseInt(age).value, gender, CommaFloat(weight).value,
                                                           CommaFloat(height).value, activity, Some(climate), goal)),
                                              true)))
  {
    hide Summary, CommaFloat, ParseInt;
    var d1 := NoAnswers.(age := ParseInt(age));
    var d2 := d1.(gender := Some(gender));
    var d3 := d2.(weight := CommaFloat(weight));
    var d4 := d3.(height := CommaFloat(height));
    var d5 := d4.(activity := Some(activity));
    var d6 := d5.(climate := Some(climate));
    var c := Completion(Some(Summary(ParseInt(age).value, gender, CommaFloat(weight).value,
                                     CommaFloat(height).value, activity, Some(climate), goal)), true);
    var r6 := [Button(goal)];
    var r5 := [Button(climate)] + r6;
    var r4 := [Button(activity)] + r5;
    var r3 := [Message(height)] + r4;
    var r2 := [Message(weight)] + r3;
    var r1 := [Button(gender)] + r2;
    assert Transition(AskGoal, d6, Button(goal)) == (Done, NoAnswers, Some(c));
    assert Run(AskGoal, d6, r6) == (Done, NoAnswers, Some(c));
    RunThrough(AskClimate, d5, Button(climate), r6, AskGoal, d6);
    RunThrough(AskActivity, d4, Button(activity), r5, AskClimate, d5);
    RunThrough(AskHeight, d3, Message(height), r4, AskActivity, d4);
    RunThrough(AskWeight, d2, Message(weight), r3, AskHeight, d3);
    RunThrough(AskGender, d1, Button(gender), r2, AskWeight, d2);
    RunThrough(AskAge, NoAnswers, Message(age), r1, AskGender, d1);
    assert [Message(age)] + r1 == [Message(age), Button(gender), Message(weight), Message(height),
                                   Button(activity), Button(climate), Button(goal)];
  }

  /** An answer that completes nothing leaves the rest of the run to the next state. */
  lemma RunThrough(s: WizardState, d: Profile, input: Input, rest: seq<Input>, s': WizardState, d': Profile)
    requires Transition(s, d, input) == (s', d', None)
    ensures Run(s, d, [input] + rest) == Run(s', d', rest)
  {
    assert ([input] + rest)[1..] == rest;
  }

  /** "a,b" for digit strings `a` and `b` reads as the decimal "a.b". */
  lemma CommaDecimal(a: string, b: string)
    requires |a| > 0 && AllDigits(a) && |b| > 0 && AllDigits(b)
    ensures CommaFloat(a + "," + b) == Some(DigitsValue(a) as real + DigitsValue(b) as real / Pow10(|b|) as real)
  {
    var s, p := a + "," + b, a + "." + b;
    var t := ReplaceChar(s, ',', '.');
    forall i | 0 <= i < |t|
      ensures t[i] == p[i]
    {
      if i < |a| {
        assert s[i] == a[i] == p[i] && IsDigit(a[i]);
      } else if i > |a| {
        assert s[i] == b[i - |a| - 1] == p[i] && IsDigit(b[i - |a| - 1]);
      }
    }
    assert t == p;
    ParseFloatOfPointDecimal(a, b);
  }

  lemma DigitsOfExample()
    ensures AllDigits("68") && AllDigits("5")
    ensures DigitsValue("68") == 68 && DigitsValue("5") == 5 && Pow10(1) == 10
  {
    assert "68"[..1] == "6" && "6"[..0] == "" && "5"[..0] == "";
  }

  /** "68,5" reads as 68.5 once the comma becomes a point. */
  lemma CommaFloatOfExample()
    ensures CommaFloat("68,5") == Some(68.5)
  {
    hide *;
    DigitsOfExample();
    CommaDecimal("68", "5");
    assert "68" + "," + "5" == "68,5";
  }

  /** A comma works as the decimal point: "68,5" is stored as 68.5 kg. */
  lemma CommaWeightAccepted(data: Profile)
    ensures WeightStep(data, "68,5") == (AskHeight, data.(weight := Some(68.5)))
  {
    CommaFloatOfExample();
  }

  /** `int()` strips Unicode whitespace too: "25" followed by a no-break space is the age 25. */
  lemma NoBreakSpaceAgeAccepted(data: Profile)
    ensures AgeStep(data, "25\U{00A0}") == (AskGender, data.(age := Some(25)))
  {
    assert Strip("25\U{00A0}") == "25";
    assert DigitsValue("25") == 25 by { assert "25"[..1] == "2"; assert "2"[..0] == ""; }
  }

  /** The two ends of each accepted range are accepted, the integers just outside are not. */
  lemma RangesAreInclusive()
    ensures AgeInRange(10) && AgeInRange(120) && !AgeInRange(9) && !AgeInRange(121)
    ensures WeightInRange(30.0) && WeightInRange(300.0) && HeightInRange(100.0) && HeightInRange(250.0)
  {
  }

  /** The conversation of one chat. */
  class ProfileWizard {
    var state: WizardState
    /** `context.user_data` */
    var userData: Profile

    ghost predicate Valid()
      reads this
    {
      Filled(state, userData)
    }

    constructor()
      ensures Valid() && state == Done && userData == NoAnswers
    {
      state := Done;
      userData := NoAnswers;
    }

    /** `/profile`, the entry point: ask for the age. */
    method Start()
      requires Valid() && state == Done
      modifies this
      ensures Valid() && state == AskAge && userData == old(userData)
    {
      state := AskAge;
    }

    /** The handler of the current state, applied to one update. */
    method Handle(input: Input) returns (completion: Option<Completion>)
      requires Valid()
      modifies this
      ensures Valid()
      ensures (state, userData, completion) == Transition(old(state), old(userData), input)
      ensures state == old(state) || state == NextState(old(state))
    {
      hide Summary, CommaFloat, ParseInt;
      TransitionKeepsFilled(state, userData, input);
      completion := None;
      match (state, input)
      case (AskAge, Message(t)) =>
        var a := ParseInt(t);
        if a.Some? && AgeInRange(a.value) {
          userData := userData.(age := a);
          state := AskGender;
        }
      case (AskGender, Button(c)) =>
        userData := userData.(gender := Some(c));
        state := AskWeight;
      case (AskWeight, Message(t)) =>
        var w := CommaFloat(t);
        if w.Some? && WeightInRange(w.value) {
          userData := userData.(weight := w);
          state := AskHeight;
        }
      case (AskHeight, Message(t)) =>
        var h := CommaFloat(t);
        if h.Some? && HeightInRange(h.value) {
          userData := userData.(height := h);
          state := AskActivity;
        }
      case (AskActivity, Button(c)) =>
        userData := userData.(activity := Some(c));
        if c in ActivityKeys {
          state := AskClimate;
        }
      case (AskClimate, Button(c)) =>
        userData := userData.(climate := Some(c));
        if c in ClimateKeys {
          state := AskGoal;
        }
      case (AskGoal, Button(c)) =>
        var (_, _, done) := GoalStep(userData, c);
        completion := Some(done);
        userData := NoAnswers;
        state := Done;
      case _ =>
    }

    /** `cancel`, the fallback: drop the answers and end. */
    method Cancel()
      requires Valid()
      modifies this
      ensures Valid() && state == Done && userData == NoAnswers
    {
      userData := NoAnswers;
      state := Done;
    }
  }
}
