/**
 * Product records of the food client (api_client.py): the `ProductInfo`
 * record and `_parse_product_data`, which turns one decoded Open Food Facts
 * product object into a record or rejects it.
 *
 * A decoded JSON value of a nutriment field is a `Field`: absent (a missing
 * key and an explicit `null` behave the same here), a number, or a string.
 */
module Products {
  import opened Wrappers
  import opened Text
  import opened Rounding

  /** Where a record came from: the `source` string of `ProductInfo`. */
  datatype Source = OpenFoodFacts | LocalDb | LocalDbApprox | Estimation

  /** `ProductInfo`: nutrients per `servingSizeG` grams. */
  datatype ProductInfo = ProductInfo(
    name: string,
    calories: real, protein: real, fat: real, carbs: real,
    fiber: Option<real>, sugar: Option<real>, salt: Option<real>,
    servingSizeG: real,
    source: Source,
    success: bool,
    barcode: Option<string>, brands: Option<string>, categories: Option<string>,
    novaGroup: Option<int>)

  /** A JSON value stored under a nutriment key. */
  datatype Field = Absent | Num(x: real) | Str(s: string)

  /** The `nutriments` object of a product. */
  datatype Nutriments = Nutriments(
    energyKcal: Field, energyKj: Field,
    proteins: Field, fat: Field, carbohydrates: Field,
    fiber: Field, sugars: Field, salt: Field,
    servingSize: Option<string>)

  /** One decoded product object. */
  datatype RawProduct = RawProduct(
    productNameRu: Option<string>, productName: Option<string>,
    genericNameRu: Option<string>, genericName: Option<string>,
    nutriments: Nutriments,
    novaGroupsTags: seq<string>,
    code: Option<string>, brands: Option<string>, categories: Option<string>)

  const UnknownProductName: string := "Неизвестный продукт"

  /** Python truthiness of an optional string: present and non-empty. */
  predicate Truthy(v: Option<string>) {
    v.Some? && |v.value| > 0
  }

  /** `a or b or ... or default` over optional strings. */
  function FirstTruthy(names: seq<Option<string>>, default: string): (r: string)
    ensures (exists i | 0 <= i < |names| :: Truthy(names[i]) && r == names[i].value
               && forall j | 0 <= j < i :: !Truthy(names[j]))
         || ((forall j | 0 <= j < |names| :: !Truthy(names[j])) && r == default)
  {
    if |names| == 0 then default
    else if Truthy(names[0]) then names[0].value
    else
      var r := FirstTruthy(names[1..], default);
      assert forall j | 0 <= j < |names| - 1 :: names[1..][j] == names[j + 1];
      r
  }

  /** The name chain of the parser, before `strip()`. */
  function RawName(p: RawProduct): string {
    FirstTruthy([p.productNameRu, p.productName, p.genericNameRu, p.genericName], UnknownProductName)
  }

  /** `float(v) if v is not None else 0`; `None` stands for the ValueError of a malformed string. */
  function ToFloat(f: Field): Option<real> {
    match f
    case Absent => Some(0.0)
    case Num(x) => Some(x)
    case Str(s) => ParseFloat(s)
  }

  /**
   * The calories before `float(...)`: the kcal field when present, else the
   * kJ field divided by 4.184. Dividing a string raises TypeError (`None`).
   */
  function EnergyField(n: Nutriments): Option<Field> {
    if n.energyKcal != Absent then Some(n.energyKcal)
    else match n.energyKj
      case Absent => Some(Absent)
      case Num(kj) => Some(Num(kj / 4.184))
      case Str(_) => None
  }

  /** `round(v, digits) if v else None`; a non-empty string raises TypeError (outer `None`). */
  function OptionalRounded(f: Field, digits: nat): Option<Option<real>> {
    match f
    case Absent => Some(None)
    case Num(x) => if x == 0.0 then Some(None) else Some(Some(Round(x, digits)))
    case Str(s) => if |s| == 0 then Some(None) else None
  }

  // ---------------------------------------------------------------------------
  // Serving size: `re.search(r'(\d+(?:\.\d+)?)\s*g', text)`

  /** Index of the first non-space character at or after `i`. */
  function SkipSpaces(s: string, i: nat): (r: nat)
    requires i <= |s|
    ensures i <= r <= |s|
    ensures r < |s| ==> !IsSpace(s[r])
    ensures forall j | i <= j < r :: IsSpace(s[j])
    decreases |s| - i
  {
    if i < |s| && IsSpace(s[i]) then SkipSpaces(s, i + 1) else i
  }

  /**
   * The pattern matches at `i`. Digits followed by digits or by a lone dot
   * cannot end in `\s*g`, so only the longest number at `i` can match.
   */
  predicate GramsAt(s: string, i: nat)
    requires i < |s| && IsDigit(s[i])
  {
    var k := SkipSpaces(s, NumberEnd(s, i));
    k < |s| && s[k] == 'g'
  }

  /** The leftmost match at or after `i`: its number. */
  function GramsFrom(s: string, i: nat): (r: Option<real>)
    requires i <= |s|
    decreases |s| - i
  {
    if i == |s| then None
    else if IsDigit(s[i]) && GramsAt(s, i) then Some(NumberValue(s, i))
    else GramsFrom(s, i + 1)
  }

  /** A result exists iff some digit at or after `i` starts a match, and it is the number of the leftmost one. */
  lemma {:induction false} GramsFromIsLeftmost(s: string, i: nat)
    requires i <= |s|
    ensures GramsFrom(s, i).Some? <==> exists j | i <= j < |s| :: IsDigit(s[j]) && GramsAt(s, j)
    ensures GramsFrom(s, i).Some? ==> exists j | i <= j < |s| ::
      && IsDigit(s[j]) && GramsAt(s, j) && GramsFrom(s, i).value == NumberValue(s, j)
      && forall k | i <= k < j :: !(IsDigit(s[k]) && GramsAt(s, k))
    decreases |s| - i
  {
    hide GramsAt, NumberValue;
    if i < |s| && !(IsDigit(s[i]) && GramsAt(s, i)) {
      GramsFromIsLeftmost(s, i + 1);
      var r := GramsFrom(s, i + 1);
      assert GramsFrom(s, i) == r;
      if r.Some? {
        var j :| i + 1 <= j < |s| && IsDigit(s[j]) && GramsAt(s, j) && r.value == NumberValue(s, j)
          && forall k | i + 1 <= k < j :: !(IsDigit(s[k]) && GramsAt(s, k));
        assert forall k | i <= k < j :: !(IsDigit(s[k]) && GramsAt(s, k));
      } else {
        assert forall j | i <= j < |s| :: !(IsDigit(s[j]) && GramsAt(s, j));
      }
    }
  }

  /** The serving size in grams: the match in the lower-cased text, else 100. */
  function ServingSizeG(servingSize: Option<string>): real {
    if Truthy(servingSize) then GramsFrom(Lower(servingSize.value), 0).GetOr(100.0) else 100.0
  }

  lemma {:induction false} SkipSpacesTo(s: string, i: nat, u: nat)
    requires i <= u < |s| && !IsSpace(s[u]) && forall j | i <= j < u :: s[j] == ' '
    ensures SkipSpaces(s, i) == u
    decreases u - i
  {
    if i < u { SkipSpacesTo(s, i + 1, u); }
  }

  /** A text that starts with an integer, optional spaces and a "g" gives that integer. */
  lemma LeadingGrams(s: string, k: nat, u: nat)
    requires 0 < k <= u < |s| && AllDigits(s[..k]) && s[u] == 'g' && forall j | k <= j < u :: s[j] == ' '
    ensures GramsFrom(s, 0) == Some(DigitsValue(s[..k]) as real)
  {
    assert s[0..k] == s[..k];
    DigitRunStops(s, 0, k);
    assert NumberEnd(s, 0) == k;
    SkipSpacesTo(s, k, u);
    assert GramsAt(s, 0);
  }

  /** "30g" is 30 g. */
  lemma ServingSizeOfGrams()
    ensures ServingSizeG(Some("30g")) == 30.0
  {
    var a := "30g";
    assert Lower(a) == a;
    assert a[..2] == "30" && "30"[..1] == "3" && "3"[..0] == "";
    assert DigitsValue("30") == 30;
    hide GramsFrom, GramsAt, DigitsValue;
    LeadingGrams(a, 2, 2);
  }

  /** Upper case and a space before the unit are accepted: "250 G" is 250 g. */
  lemma ServingSizeOfSpacedUpperCase()
    ensures ServingSizeG(Some("250 G")) == 250.0
  {
    var lb := Lower("250 G");
    assert |lb| == 5 && lb[0] == '2' && lb[1] == '5' && lb[2] == '0' && lb[3] == ' ' && lb[4] == 'g';
    assert lb == "250 g";
    assert lb[..3] == "250" && "250"[..2] == "25" && "25"[..1] == "2" && "2"[..0] == "";
    assert DigitsValue("250") == 250;
    hide GramsFrom, GramsAt, DigitsValue;
    LeadingGrams(lb, 3, 4);
  }

  /** Without a "g" there is no match. */
  lemma {:induction false} NoGramsWithoutG(s: string, i: nat)
    requires i <= |s| && forall j | i <= j < |s| :: s[j] != 'g'
    ensures GramsFrom(s, i) == None
    decreases |s| - i
  {
    if i < |s| {
      NoGramsWithoutG(s, i + 1);
    }
  }

  /** A size in millilitres has no gram figure, so the default 100 g is used. */
  lemma ServingSizeOfMillilitres()
    ensures ServingSizeG(Some("50 ml")) == 100.0
  {
    var c := Lower("50 ml");
    assert |c| == 5 && c[0] == '5' && c[1] == '0' && c[2] == ' ' && c[3] == 'm' && c[4] == 'l';
    hide *;
    NoGramsWithoutG(c, 0);
  }

  /** Nothing keeps the serving size positive: "0g" is 0 g. */
  lemma ServingSizeCanBeZero()
    ensures ServingSizeG(Some("0g")) == 0.0
    ensures ServingSizeG(None) == 100.0 && ServingSizeG(Some("")) == 100.0
  {
    var d := "0g";
    assert Lower(d) == d;
    assert DigitRun(d, 1) == 1 && DigitRun(d, 0) == 1 && SkipSpaces(d, 1) == 1;
    assert d[0..1] == "0" && "0"[..0] == "";
    assert DigitsValue("0") == 0;
  }

  // ---------------------------------------------------------------------------
  // NOVA group: `int(tags[0].split('-')[-1])`

  /** The text after the last `-` of `s` (all of `s` when there is none). */
  function AfterLastDash(s: string): (r: string)
    ensures |r| <= |s| && r == s[|s| - |r|..]
    ensures forall i | 0 <= i < |r| :: r[i] != '-'
    ensures |r| < |s| ==> s[|s| - |r| - 1] == '-'
  {
    if |s| == 0 then ""
    else if s[|s| - 1] == '-' then ""
    else AfterLastDash(s[..|s| - 1]) + [s[|s| - 1]]
  }

  /** The NOVA group of the tag list; `None` when the list is empty or the tag is no integer. */
  function NovaGroup(tags: seq<string>): Option<int> {
    if |tags| == 0 then None else ParseInt(AfterLastDash(tags[0]))
  }

  /** A tag without a dash is read whole. */
  lemma {:induction false} AfterLastDashOfDashFree(s: string)
    requires forall i | 0 <= i < |s| :: s[i] != '-'
    ensures AfterLastDash(s) == s
  {
    if |s| > 0 {
      AfterLastDashOfDashFree(s[..|s| - 1]);
      assert s[..|s| - 1] + [s[|s| - 1]] == s;
    }
  }

  /** A tag ending in `-d` yields `d`. */
  lemma DashDigitTag(s: string)
    requires |s| >= 2 && s[|s| - 2] == '-' && s[|s| - 1] != '-'
    ensures AfterLastDash(s) == [s[|s| - 1]]
  {
    assert s[..|s| - 1][|s| - 2] == '-';
  }

  /** A first tag ending in `-d` for a digit `d` gives the group `d`. */
  lemma NovaGroupOfDashDigit(tags: seq<string>, d: nat)
    requires d < 10 && |tags| > 0 && |tags[0]| >= 2
    requires tags[0][|tags[0]| - 2] == '-' && tags[0][|tags[0]| - 1] == ('0' as int + d) as char
    ensures NovaGroup(tags) == Some(d)
  {
    DashDigitTag(tags[0]);
    assert IntToDecimal(d) == [('0' as int + d) as char];
    ParseIntOfDecimal(d);
  }

  /** A tag without a dash that does not start with a digit, a sign or a space gives no group. */
  lemma NovaGroupOfDashFreeWord(tags: seq<string>)
    requires |tags| > 0 && |tags[0]| > 0 && forall i | 0 <= i < |tags[0]| :: tags[0][i] != '-'
    requires var c := tags[0][0]; !IsSpace(c) && !IsDigit(c) && c != '+'
    ensures NovaGroup(tags) == None
  {
    var t := tags[0];
    AfterLastDashOfDashFree(t);
    StripKeepsFirst(t);
    var body := SplitSign(Strip(t)).1;
    assert |body| > 0 && body[0] == t[0];
    assert !AllDigits(body) by { assert !IsDigit(body[0]); }
  }

  lemma NovaGroupExamples()
    ensures NovaGroup(["nova-group-4"]) == Some(4)
    ensures NovaGroup(["en:4"]) == None
    ensures NovaGroup([]) == None
  {
    var tag := "nova-group-4";
    assert |tag| == 12 && tag[10] == '-' && tag[11] == ('0' as int + 4) as char;
    NovaGroupOfDashDigit([tag], 4);
    var word := "en:4";
    assert word[0] == 'e' && forall i | 0 <= i < |word| :: word[i] != '-';
    NovaGroupOfDashFreeWord([word]);
  }

  // ---------------------------------------------------------------------------
  // The parser

  /** `_parse_product_data`: `None` when there is no nutrition data at all or a field is malformed. */
  function ParseProductData(p: RawProduct): Option<ProductInfo> {
    var n := p.nutriments;
    var energy := EnergyField(n);
    var calories := if energy.Some? then ToFloat(energy.value) else None;
    var protein, fat, carbs := ToFloat(n.proteins), ToFloat(n.fat), ToFloat(n.carbohydrates);
    if calories.None? || protein.None? || fat.None? || carbs.None? then None
    else if calories.value == 0.0 && protein.value == 0.0 && fat.value == 0.0 && carbs.value == 0.0 then None
    else
      var fiber, sugar, salt := OptionalRounded(n.fiber, 1), OptionalRounded(n.sugars, 1), OptionalRounded(n.salt, 3);
      if fiber.None? || sugar.None? || salt.None? then None
      else Some(ProductInfo(
        Strip(RawName(p)),
        Round(calories.value, 1), Round(protein.value, 1), Round(fat.value, 1), Round(carbs.value, 1),
        fiber.value, sugar.value, salt.value,
        ServingSizeG(n.servingSize),
        OpenFoodFacts, true,
        p.code, p.brands, p.categories,
        NovaGroup(p.novaGroupsTags)))
  }

  /** A product whose macro fields are plain numbers (or absent) and whose optional fields are numbers. */
  predicate WellTyped(n: Nutriments) {
    && !n.energyKcal.Str? && !n.energyKj.Str?
    && !n.proteins.Str? && !n.fat.Str? && !n.carbohydrates.Str?
    && !n.fiber.Str? && !n.sugars.Str? && !n.salt.Str?
  }

  /** The calories the parser reads: kcal, else kJ / 4.184, else 0. */
  function CaloriesOf(n: Nutriments): real
    requires WellTyped(n)
  {
    if n.energyKcal.Num? then n.energyKcal.x
    else if n.energyKj.Num? then n.energyKj.x / 4.184
    else 0.0
  }

  function ValueOf(f: Field): real
    requires !f.Str?
  {
    if f.Num? then f.x else 0.0
  }

  /** With well-typed fields the parser rejects a product exactly when all four macros are zero. */
  lemma ParseRejectsOnlyEmpty(p: RawProduct)
    requires WellTyped(p.nutriments)
    ensures var n := p.nutriments;
      ParseProductData(p).None? <==>
        (CaloriesOf(n) == 0.0 && ValueOf(n.proteins) == 0.0 && ValueOf(n.fat) == 0.0 && ValueOf(n.carbohydrates) == 0.0)
  {
  }

  /** A macro field `float()` cannot read: a string that is no number (ValueError). */
  predicate Unreadable(f: Field) {
    f.Str? && ParseFloat(f.s).None?
  }

  /** An optional field `round()` cannot take: a non-empty string (TypeError). */
  predicate Unroundable(f: Field) {
    f.Str? && |f.s| > 0
  }

  /** A field that raises in the parser: kJ text divided by 4.184, or one of the two cases above. */
  predicate Malformed(n: Nutriments) {
    || (n.energyKcal == Absent && n.energyKj.Str?)
    || (n.energyKcal != Absent && Unreadable(n.energyKcal))
    || Unreadable(n.proteins) || Unreadable(n.fat) || Unreadable(n.carbohydrates)
    || Unroundable(n.fiber) || Unroundable(n.sugars) || Unroundable(n.salt)
  }

  /** The value `float()` gives a readable field; 0 when it is absent. */
  function ReadValue(f: Field): real {
    match f
    case Absent => 0.0
    case Num(x) => x
    case Str(s) => ParseFloat(s).GetOr(0.0)
  }

  /** The calories read from the kcal field, else from the kJ number, else 0. */
  function ReadCalories(n: Nutriments): real {
    if n.energyKcal != Absent then ReadValue(n.energyKcal)
    else if n.energyKj.Num? then n.energyKj.x / 4.184
    else 0.0
  }

  lemma FieldRead(f: Field)
    ensures ToFloat(f).None? <==> Unreadable(f)
    ensures ToFloat(f).Some? ==> ToFloat(f).value == ReadValue(f)
  {
  }

  lemma CaloriesRead(n: Nutriments)
    ensures var e := EnergyField(n); var c := if e.Some? then ToFloat(e.value) else None;
      && (c.None? <==> (n.energyKcal == Absent && n.energyKj.Str?) || (n.energyKcal != Absent && Unreadable(n.energyKcal)))
      && (c.Some? ==> c.value == ReadCalories(n))
  {
    FieldRead(n.energyKcal);
  }

  lemma OptionalRead(f: Field, digits: nat)
    ensures OptionalRounded(f, digits).None? <==> Unroundable(f)
  {
  }

  /** For any product: rejected exactly when a field raises or all four macros read as zero. */
  lemma ParseRejection(p: RawProduct)
    ensures var n := p.nutriments;
      ParseProductData(p).None? <==>
        || Malformed(n)
        || (ReadCalories(n) == 0.0 && ReadValue(n.proteins) == 0.0 && ReadValue(n.fat) == 0.0
            && ReadValue(n.carbohydrates) == 0.0)
  {
    var n := p.nutriments;
    CaloriesRead(n);
    FieldRead(n.proteins);
    FieldRead(n.fat);
    FieldRead(n.carbohydrates);
    OptionalRead(n.fiber, 1);
    OptionalRead(n.sugars, 1);
    OptionalRead(n.salt, 3);
    hide ToFloat, EnergyField, OptionalRounded, ReadValue, ReadCalories, Unreadable, Unroundable, Strip, RawName,
      ServingSizeG, NovaGroup, Round;
  }

  /** An accepted product carries the first truthy name, stripped, and the identifying fields as given. */
  lemma ParsedIdentity(p: RawProduct)
    requires ParseProductData(p).Some?
    ensures var r := ParseProductData(p).value;
      && r.name == Strip(RawName(p))
      && r.source == OpenFoodFacts && r.success
      && r.barcode == p.code && r.brands == p.brands && r.categories == p.categories
      && r.servingSizeG == ServingSizeG(p.nutriments.servingSize)
      && r.novaGroup == NovaGroup(p.novaGroupsTags)
  {
  }

  /** An accepted well-typed product has its macros to one decimal place. */
  lemma ParsedMacros(p: RawProduct)
    requires WellTyped(p.nutriments) && ParseProductData(p).Some?
    ensures var r, n := ParseProductData(p).value, p.nutriments;
      && -0.05 <= r.calories - CaloriesOf(n) <= 0.05
      && -0.05 <= r.protein - ValueOf(n.proteins) <= 0.05
      && -0.05 <= r.fat - ValueOf(n.fat) <= 0.05
      && -0.05 <= r.carbs - ValueOf(n.carbohydrates) <= 0.05
  {
    var n := p.nutriments;
    ParsedRoundedMacros(p);
    RoundOneDecimal(CaloriesOf(n));
    RoundOneDecimal(ValueOf(n.proteins));
    RoundOneDecimal(ValueOf(n.fat));
    RoundOneDecimal(ValueOf(n.carbohydrates));
  }

  lemma ParsedRoundedMacros(p: RawProduct)
    requires WellTyped(p.nutriments) && ParseProductData(p).Some?
    ensures var r, n := ParseProductData(p).value, p.nutriments;
      && r.calories == Round(CaloriesOf(n), 1) && r.protein == Round(ValueOf(n.proteins), 1)
      && r.fat == Round(ValueOf(n.fat), 1) && r.carbs == Round(ValueOf(n.carbohydrates), 1)
  {
  }

  /** Fiber, sugar and salt are dropped exactly when they are absent or zero. */
  lemma ParsedOptionals(p: RawProduct)
    requires WellTyped(p.nutriments) && ParseProductData(p).Some?
    ensures var r, n := ParseProductData(p).value, p.nutriments;
      && (r.fiber.None? <==> ValueOf(n.fiber) == 0.0)
      && (r.sugar.None? <==> ValueOf(n.sugars) == 0.0)
      && (r.salt.None? <==> ValueOf(n.salt) == 0.0)
  {
  }

  /** What `round(v, digits) if v else None` leaves of a field that does not raise. */
  lemma OptionalValue(f: Field, digits: nat)
    requires OptionalRounded(f, digits).Some?
    ensures OptionalRounded(f, digits).value == if ReadValue(f) == 0.0 then None else Some(Round(ReadValue(f), digits))
  {
    if f.Str? {
      assert |f.s| == 0;
      assert ParseFloat(f.s).None?;
    }
  }

  /**
   * For any accepted product, whatever its field types: the macros are the
   * values `float()` reads, rounded to one place; fiber and sugar are rounded
   * to one place and salt to three, and each is dropped when it reads as zero.
   */
  lemma ParsedValues(p: RawProduct)
    requires ParseProductData(p).Some?
    ensures var r, n := ParseProductData(p).value, p.nutriments;
      && r.calories == Round(ReadCalories(n), 1)
      && r.protein == Round(ReadValue(n.proteins), 1)
      && r.fat == Round(ReadValue(n.fat), 1)
      && r.carbs == Round(ReadValue(n.carbohydrates), 1)
      && r.fiber == (if ReadValue(n.fiber) == 0.0 then None else Some(Round(ReadValue(n.fiber), 1)))
      && r.sugar == (if ReadValue(n.sugars) == 0.0 then None else Some(Round(ReadValue(n.sugars), 1)))
      && r.salt == (if ReadValue(n.salt) == 0.0 then None else Some(Round(ReadValue(n.salt), 3)))
  {
    var n := p.nutriments;
    CaloriesRead(n);
    FieldRead(n.proteins);
    FieldRead(n.fat);
    FieldRead(n.carbohydrates);
    OptionalValue(n.fiber, 1);
    OptionalValue(n.sugars, 1);
    OptionalValue(n.salt, 3);
  }

  /** A string in a macro field that `float()` cannot read makes the whole product unreadable. */
  lemma MalformedProteinRejected(p: RawProduct)
    requires p.nutriments.proteins.Str? && ParseFloat(p.nutriments.proteins.s).None?
    ensures ParseProductData(p).None?
  {
  }

  /** A non-empty string in an optional field is a TypeError under `round`, so the product is rejected. */
  lemma StringFiberRejected(p: RawProduct)
    requires p.nutriments.fiber.Str? && |p.nutriments.fiber.s| > 0
    ensures ParseProductData(p).None?
  {
  }

  /** A product named only in English keeps that name; one with no name gets the placeholder. */
  lemma NameFallback(p: RawProduct)
    ensures !Truthy(p.productNameRu) && Truthy(p.productName) ==> RawName(p) == p.productName.value
    ensures !Truthy(p.productNameRu) && !Truthy(p.productName) && !Truthy(p.genericNameRu) && !Truthy(p.genericName)
      ==> RawName(p) == UnknownProductName
  {
    var names := [p.productNameRu, p.productName, p.genericNameRu, p.genericName];
    if !Truthy(p.productNameRu) && Truthy(p.productName) {
      assert names[1..][0] == p.productName;
    }
  }

  /** 200 kJ with no kcal value reads as 47.8 kcal. */
  lemma KilojouleConversion(p: RawProduct)
    requires p.nutriments.energyKcal == Absent && p.nutriments.energyKj == Num(200.0)
    requires !p.nutriments.proteins.Str? && !p.nutriments.fat.Str? && !p.nutriments.carbohydrates.Str?
    requires !p.nutriments.fiber.Str? && !p.nutriments.sugars.Str? && !p.nutriments.salt.Str?
    ensures ParseProductData(p).Some? && ParseProductData(p).value.calories == 47.8
  {
    var x := 200.0 / 4.184 * 10.0;
    assert 478.0 <= x < 478.5;
    assert x.Floor == 478;
    assert Pow10(1) == 10;
    assert RoundHalfEven(x) == 478;
  }
}
