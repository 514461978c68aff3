/**
 * The food client of api_client.py (`OpenFoodFactsAPI`): a request cache
 * with a one-hour lifetime in front of the Open Food Facts search and
 * barcode endpoints, the lookup chain remote → local exact → local word →
 * category estimate, and the meal analyser.
 *
 * The HTTP endpoints are oracles: a total function from the request to the
 * decoded reply (or a failure). The clock is an integer number of seconds
 * passed to each call. Each operation is a method of `FoodClient`, proved
 * equal to a step function over the cache, and the lemmas are about those
 * step functions.
 */
module FoodApi {
  import opened Wrappers
  import opened Text
  import opened Products
  import opened LocalTable

  // ---------------------------------------------------------------------------
  // Remote oracles and the cache

  /** The search endpoint: a failure (any exception) or the `products` list (empty when missing). */
  datatype SearchReply = SearchFailed | SearchHits(products: seq<RawProduct>)

  /** The barcode endpoint: a request failure, a 404, or the decoded `status` and `product`. */
  datatype BarcodeReply = BarcodeFailed | BarcodeNotFound | BarcodeAnswer(status: int, product: RawProduct)

  type SearchOracle = (string, int) -> SearchReply
  type BarcodeOracle = string -> BarcodeReply

  datatype Cached = CachedSearch(products: seq<ProductInfo>) | CachedProduct(product: ProductInfo)

  /** A cache value: the data and the second it was stored. */
  datatype CacheEntry = CacheEntry(data: Cached, timestamp: int)

  type Cache = map<string, CacheEntry>

  /** `cache_expiry`: one hour, in seconds. */
  const CacheExpiry: int := 3600

  /** `datetime.now() - timestamp < cache_expiry` */
  predicate Fresh(e: CacheEntry, now: int) {
    now - e.timestamp < CacheExpiry
  }

  function SearchKey(query: string): string {
    "search_" + Lower(query)
  }

  function BarcodeKey(barcode: string): string {
    "barcode_" + barcode
  }

  /** Records as `_parse_product_data` builds them: successful and from Open Food Facts. */
  predicate FromRemote(ps: seq<ProductInfo>) {
    forall i | 0 <= i < |ps| :: ps[i].success && ps[i].source == OpenFoodFacts
  }

  /** Search keys hold successful product lists; every other key holds one product. */
  predicate EntryFits(key: string, e: CacheEntry) {
    if StartsWith(key, "search_") then e.data.CachedSearch? && FromRemote(e.data.products)
    else e.data.CachedProduct?
  }

  predicate WellFormed(cache: Cache) {
    forall k | k in cache :: EntryFits(k, cache[k])
  }

  lemma BarcodeKeyIsNoSearchKey(barcode: string)
    ensures !StartsWith(BarcodeKey(barcode), "search_")
  {
    assert BarcodeKey(barcode)[0] == 'b';
  }

  lemma SearchKeyIsSearchKey(query: string)
    ensures StartsWith(SearchKey(query), "search_")
  {
    assert SearchKey(query)[..7] == "search_";
  }

  // ---------------------------------------------------------------------------
  // search_product

  /** The products of a search reply that parse, in reply order. */
  function ParseAll(raws: seq<RawProduct>): (ps: seq<ProductInfo>)
    ensures |ps| <= |raws|
    ensures FromRemote(ps)
  {
    if |raws| == 0 then [] else ParseAll(raws[..|raws| - 1]) + ParseOne(raws[|raws| - 1])
  }

  /** The loop body: the parsed record when there is one and it succeeded. */
  function ParseOne(raw: RawProduct): (ps: seq<ProductInfo>)
    ensures |ps| <= 1 && FromRemote(ps)
  {
    var parsed := ParseProductData(raw);
    if parsed.Some? && parsed.value.success then ParsedIdentity(raw); [parsed.value] else []
  }

  /** Every parsed product comes from one raw product of the reply. */
  lemma {:induction false} ParseAllFromReply(raws: seq<RawProduct>)
    ensures forall p | p in ParseAll(raws) :: exists r | r in raws :: ParseProductData(r) == Some(p)
  {
    if |raws| > 0 {
      var init := raws[..|raws| - 1];
      ParseAllFromReply(init);
      assert forall r | r in init :: r in raws;
      assert raws[|raws| - 1] in raws;
    }
  }

  /** One reply product is kept exactly when it parses. */
  lemma ParseAllOfOne(raw: RawProduct)
    ensures ParseAll([raw]) == if ParseProductData(raw).Some? then [ParseProductData(raw).value] else []
  {
    assert [raw][..0] == [];
    if ParseProductData(raw).Some? {
      ParsedIdentity(raw);
    }
  }

  /** The kept products of a reply are those of its first part followed by those of the rest. */
  lemma {:induction false} ParseAllAppend(a: seq<RawProduct>, b: seq<RawProduct>)
    ensures ParseAll(a + b) == ParseAll(a) + ParseAll(b)
    decreases |b|
  {
    hide ParseProductData;

    if |b| == 0 {
      assert a + b == a;
    } else {
      var init := b[..|b| - 1];
      assert (a + b)[..|a + b| - 1] == a + init;
      assert (a + b)[|a + b| - 1] == b[|b| - 1];
      ParseAllAppend(a, init);
    }
  }

  /** Every product of the reply that parses is kept. */
  lemma {:induction false} ParseAllKeepsParsed(raws: seq<RawProduct>)
    ensures forall r | r in raws && ParseProductData(r).Some? :: ParseProductData(r).value in ParseAll(raws)
  {
    hide ParseProductData;

    if |raws| > 0 {
      var init, last := raws[..|raws| - 1], raws[|raws| - 1];
      ParseAllKeepsParsed(init);
      assert raws == init + [last];
      ParseAllAppend(init, [last]);
      ParseAllOfOne(last);
      forall r | r in raws && ParseProductData(r).Some?
        ensures ParseProductData(r).value in ParseAll(raws)
      {
        if r != last {
          var k :| 0 <= k < |raws| && raws[k] == r;
          assert init[k] == r;
        }
      }
    }
  }

  /** `search_product`: the result and the cache after the call. */
  function SearchStep(cache: Cache, query: string, limit: int, now: int, search: SearchOracle): (r: (seq<ProductInfo>, Cache))
    requires WellFormed(cache)
    ensures WellFormed(r.1)
    ensures FromRemote(r.0)
  {
    var key := SearchKey(query);
    SearchKeyIsSearchKey(query);
    if key in cache && Fresh(cache[key], now) then (cache[key].data.products, cache)
    else match search(query, limit)
      case SearchFailed => ([], cache)
      case SearchHits(raws) =>
        var ps := ParseAll(raws);
        (ps, cache[key := CacheEntry(CachedSearch(ps), now)])
  }

  /** Within the hour a cached search is answered from the cache, whatever the remote would say. */
  lemma FreshSearchIgnoresRemote(cache: Cache, query: string, limit: int, now: int, a: SearchOracle, b: SearchOracle)
    requires WellFormed(cache)
    requires SearchKey(query) in cache && Fresh(cache[SearchKey(query)], now)
    ensures SearchStep(cache, query, limit, now, a) == SearchStep(cache, query, limit, now, b)
    ensures SearchStep(cache, query, limit, now, a) == (cache[SearchKey(query)].data.products, cache)
  {
  }

  /** A failed request returns nothing and leaves the cache as it was. */
  lemma FailedSearchKeepsCache(cache: Cache, query: string, limit: int, now: int, search: SearchOracle)
    requires WellFormed(cache)
    requires !(SearchKey(query) in cache && Fresh(cache[SearchKey(query)], now))
    requires search(query, limit) == SearchFailed
    ensures SearchStep(cache, query, limit, now, search) == ([], cache)
  {
  }

  /**
   * A stale or missing entry and a successful reply: the parsed products
   * are returned and stored under the query's key, stamped now, and every
   * other key keeps its entry.
   */
  lemma SuccessfulSearchIsCached(cache: Cache, query: string, limit: int, now: int, search: SearchOracle)
    requires WellFormed(cache)
    requires !(SearchKey(query) in cache && Fresh(cache[SearchKey(query)], now))
    requires search(query, limit).SearchHits?
    ensures var ps := ParseAll(search(query, limit).products);
      SearchStep(cache, query, limit, now, search) == (ps, cache[SearchKey(query) := CacheEntry(CachedSearch(ps), now)])
    ensures forall k | k in cache && k != SearchKey(query) ::
      k in SearchStep(cache, query, limit, now, search).1 && SearchStep(cache, query, limit, now, search).1[k] == cache[k]
  {
  }

  /** A reply with no usable product is cached too: the empty list, stamped now. */
  lemma EmptySearchIsCached(cache: Cache, query: string, limit: int, now: int, search: SearchOracle)
    requires WellFormed(cache)
    requires !(SearchKey(query) in cache && Fresh(cache[SearchKey(query)], now))
    requires search(query, limit).SearchHits? && ParseAll(search(query, limit).products) == []
    ensures SearchStep(cache, query, limit, now, search).0 == []
    ensures SearchStep(cache, query, limit, now, search).1[SearchKey(query)] == CacheEntry(CachedSearch([]), now)
  {
  }

  /**
   * After a fetch, the same query in any letter case is answered from the
   * cache until one hour has passed, even when the remote fails meanwhile.
   */
  lemma {:induction false} RepeatedSearchHitsCache(
    cache: Cache, query: string, again: string, limit: int, later: int, now: int,
    search: SearchOracle, other: SearchOracle)
    requires WellFormed(cache)
    requires !(SearchKey(query) in cache && Fresh(cache[SearchKey(query)], now))
    requires search(query, limit).SearchHits?
    requires Lower(again) == Lower(query) && now <= later < now + CacheExpiry
    ensures var (first, cache') := SearchStep(cache, query, limit, now, search);
      SearchStep(cache', again, limit, later, other) == (first, cache')
  {
    assert SearchKey(again) == SearchKey(query);
  }

  /** At exactly one hour the entry is stale and the remote is asked again. */
  lemma SearchExpiresAtOneHour(cache: Cache, query: string, limit: int, now: int, search: SearchOracle)
    requires WellFormed(cache)
    requires SearchKey(query) in cache && now == cache[SearchKey(query)].timestamp + CacheExpiry
    requires search(query, limit) == SearchFailed
    ensures SearchStep(cache, query, limit, now, search) == ([], cache)
  {
  }

  // ---------------------------------------------------------------------------
  // get_product_by_barcode

  /** `get_product_by_barcode`: the result and the cache after the call. */
  function BarcodeStep(cache: Cache, barcode: string, now: int, fetch: BarcodeOracle): (r: (Option<ProductInfo>, Cache))
    requires WellFormed(cache)
    ensures WellFormed(r.1)
  {
    var key := BarcodeKey(barcode);
    BarcodeKeyIsNoSearchKey(barcode);
    if key in cache && Fresh(cache[key], now) then (Some(cache[key].data.product), cache)
    else match fetch(barcode)
      case BarcodeFailed => (None, cache)
      case BarcodeNotFound => (None, cache)
      case BarcodeAnswer(status, raw) =>
        if status != 1 then (None, cache)
        else match ParseProductData(raw)
          case None => (None, cache)
          case Some(p) => (Some(p), cache[key := CacheEntry(CachedProduct(p), now)])
  }

  /** Only a product that was found and parsed is cached; every other outcome leaves the cache alone. */
  lemma BarcodeCachesOnlyProducts(cache: Cache, barcode: string, now: int, fetch: BarcodeOracle)
    requires WellFormed(cache)
    requires !(BarcodeKey(barcode) in cache && Fresh(cache[BarcodeKey(barcode)], now))
    ensures var (r, cache') := BarcodeStep(cache, barcode, now, fetch);
      && (r.None? <==> (!fetch(barcode).BarcodeAnswer? || fetch(barcode).status != 1
                        || ParseProductData(fetch(barcode).product).None?))
      && (r.None? ==> cache' == cache)
      && (r.Some? ==> cache' == cache[BarcodeKey(barcode) := CacheEntry(CachedProduct(r.value), now)]
                      && r == ParseProductData(fetch(barcode).product))
  {
  }

  /** A cached barcode is answered without the remote within the hour. */
  lemma FreshBarcodeIgnoresRemote(cache: Cache, barcode: string, now: int, a: BarcodeOracle, b: BarcodeOracle)
    requires WellFormed(cache)
    requires BarcodeKey(barcode) in cache && Fresh(cache[BarcodeKey(barcode)], now)
    ensures BarcodeStep(cache, barcode, now, a) == BarcodeStep(cache, barcode, now, b)
    ensures BarcodeStep(cache, barcode, now, a).1 == cache
  {
  }

  /** Barcode keys are case-sensitive: a barcode's own key is the only one it reads or writes. */
  lemma BarcodeKeysAreRaw(x: string, y: string)
    ensures BarcodeKey(x) == BarcodeKey(y) <==> x == y
  {
    if BarcodeKey(x) == BarcodeKey(y) {
      assert x == BarcodeKey(x)[8..] && y == BarcodeKey(y)[8..];
    }
  }

  // ---------------------------------------------------------------------------
  // The local table stages of get_product_info

  /** The first table index at or after `i` whose key occurs in `q`. */
  function FirstExact(table: seq<LocalEntry>, q: string, i: nat): (r: Option<nat>)
    requires i <= |table|
    ensures r.Some? ==> i <= r.value < |table| && Contains(q, table[r.value].name)
    ensures r.Some? ==> forall j | i <= j < r.value :: !Contains(q, table[j].name)
    ensures r.None? ==> forall j | i <= j < |table| :: !Contains(q, table[j].name)
    decreases |table| - i
  {
    if i == |table| then None
    else if Contains(q, table[i].name) then Some(i)
    else FirstExact(table, q, i + 1)
  }

  /** `set(q.split()) ∩ set(key.split())` is not empty. */
  predicate SharesWord(q: string, key: string) {
    exists w | w in Words(q) :: w in Words(key)
  }

  /** The first table index at or after `i` whose key shares a word with `q`. */
  function FirstPartial(table: seq<LocalEntry>, q: string, i: nat): (r: Option<nat>)
    requires i <= |table|
    ensures r.Some? ==> i <= r.value < |table| && SharesWord(q, table[r.value].name)
    ensures r.Some? ==> forall j | i <= j < r.value :: !SharesWord(q, table[j].name)
    ensures r.None? ==> forall j | i <= j < |table| :: !SharesWord(q, table[j].name)
    decreases |table| - i
  {
    if i == |table| then None
    else if SharesWord(q, table[i].name) then Some(i)
    else FirstPartial(table, q, i + 1)
  }

  /** The record built from a table row: the key capitalised, per 100 g. */
  function FromLocal(e: LocalEntry, source: Source): ProductInfo {
    ProductInfo(Capitalize(e.name), e.calories, e.protein, e.fat, e.carbs,
                Some(e.fiber), None, None, 100.0, source, true, None, None, None, None)
  }

  /**
   * A key without whitespace that shares a word with `q` occurs in `q`, so
   * the word stage can only pick a key the substring stage did not see:
   * one that holds whitespace.
   */
  lemma SharedSingleWordOccurs(q: string, key: string)
    requires NoSpace(key) && SharesWord(q, key)
    ensures Contains(q, key)
  {
    var w :| w in Words(q) && w in Words(key);
    if |key| == 0 {
      assert false;
    }
    SingleWord(key);
    WordsAreSubstrings(q, w);
  }

  // ---------------------------------------------------------------------------
  // _estimate_product_info

  predicate AnyKeyword(keywords: seq<string>, q: string) {
    exists k | k in keywords :: Contains(q, k)
  }

  /**
   * The category after the loop over `table`: each category with a matching
   * keyword overwrites the choice, so the last such category wins.
   */
  function EstimateOver(table: seq<(string, seq<string>)>, q: string, default: string): (c: string)
    ensures (exists i | 0 <= i < |table| :: AnyKeyword(table[i].1, q) && c == table[i].0
               && forall j | i < j < |table| :: !AnyKeyword(table[j].1, q))
         || ((forall j | 0 <= j < |table| :: !AnyKeyword(table[j].1, q)) && c == default)
  {
    if |table| == 0 then default
    else if AnyKeyword(table[|table| - 1].1, q) then table[|table| - 1].0
    else
      var c := EstimateOver(table[..|table| - 1], q, default);
      assert forall j | 0 <= j < |table| - 1 :: table[..|table| - 1][j] == table[j];
      c
  }

  /** The category `_estimate_product_info` picks for a lowered query. */
  function EstimatedCategory(q: string): string {
    EstimateOver(CategoryKeywords, q, DefaultCategory)
  }

  /** `_estimate_product_info`: the query as the name, the category's averages per 100 g. */
  function Estimate(query: string): (r: ProductInfo)
    ensures r.name == query && r.source == Estimation && r.success && r.servingSizeG == 100.0
    ensures EstimatedCategory(Lower(query)) in Categories
      && var m := Categories[EstimatedCategory(Lower(query))];
         r.calories == m.calories && r.protein == m.protein && r.fat == m.fat && r.carbs == m.carbs
  {
    var category := EstimatedCategory(Lower(query));
    EveryCategoryHasAverages();
    var fallback := Categories[DefaultCategory];
    var m := if category in Categories then Categories[category] else fallback;
    ProductInfo(query, m.calories, m.protein, m.fat, m.carbs, None, None, None, 100.0, Estimation, true,
                None, None, None, None)
  }

  /** A keyword of the last category decides alone, whatever matched before it. */
  lemma LastCategoryWins(table: seq<(string, seq<string>)>, q: string, default: string)
    requires |table| > 0 && AnyKeyword(table[|table| - 1].1, q)
    ensures EstimateOver(table, q, default) == table[|table| - 1].0
  {
  }

  /**
   * "молочный шоколад" matches the sweets keyword "шоколад" and, through the
   * "кола" inside "шоколад", the drinks keyword: it is estimated as a drink.
   */
  lemma ChocolateMilkIsADrink()
    ensures AnyKeyword(CategoryKeywords[7].1, "молочный шоколад")
    ensures EstimatedCategory("молочный шоколад") == "напиток"
  {
    var q := "молочный шоколад";
    assert q[9..16] == "шоколад";
    ContainsAt(q, "шоколад", 9);
    assert "шоколад" in CategoryKeywords[7].1;
    assert q[11..15] == "кола";
    ContainsAt(q, "кола", 11);
    assert "кола" in CategoryKeywords[8].1;
    LastCategoryWins(CategoryKeywords, q, DefaultCategory);
  }

  // ---------------------------------------------------------------------------
  // get_product_info

  /** `get_product_info`: the record and the cache after the call. */
  function ProductInfoStep(cache: Cache, table: seq<LocalEntry>, query: string, now: int, search: SearchOracle)
    : (r: (ProductInfo, Cache))
    requires WellFormed(cache)
    ensures WellFormed(r.1)
    ensures r.0.success
  {
    var (hits, cache') := SearchStep(cache, query, 3, now, search);
    if |hits| > 0 then (hits[0], cache')
    else
      var q := Lower(query);
      match FirstExact(table, q, 0)
      case Some(i) => (FromLocal(table[i], LocalDb), cache')
      case None =>
        match FirstPartial(table, q, 0)
        case Some(i) => (FromLocal(table[i], LocalDbApprox), cache')
        case None => (Estimate(query), cache')
  }

  /** The stages in order: the remote's first hit, else the first key inside the query, else the first key sharing a word, else the estimate. */
  lemma LookupOrder(cache: Cache, table: seq<LocalEntry>, query: string, now: int, search: SearchOracle)
    requires WellFormed(cache)
    ensures var hits := SearchStep(cache, query, 3, now, search).0;
      var r := ProductInfoStep(cache, table, query, now, search).0;
      var q := Lower(query);
      && (|hits| > 0 ==> r == hits[0])
      && (|hits| == 0 && FirstExact(table, q, 0).Some? ==>
            r == FromLocal(table[FirstExact(table, q, 0).value], LocalDb))
      && (|hits| == 0 && FirstExact(table, q, 0).None? && FirstPartial(table, q, 0).Some? ==>
            r == FromLocal(table[FirstPartial(table, q, 0).value], LocalDbApprox))
      && (|hits| == 0 && FirstExact(table, q, 0).None? && FirstPartial(table, q, 0).None? ==>
            r == Estimate(query))
  {
  }

  /** The word stage can only return a key that holds whitespace. */
  lemma {:induction false} ApproximateMatchIsMultiWord(cache: Cache, table: seq<LocalEntry>, query: string, now: int, search: SearchOracle)
    requires WellFormed(cache)
    requires ProductInfoStep(cache, table, query, now, search).0.source == LocalDbApprox
    ensures exists i | 0 <= i < |table| ::
      && ProductInfoStep(cache, table, query, now, search).0 == FromLocal(table[i], LocalDbApprox)
      && !NoSpace(table[i].name)
  {
    LookupOrder(cache, table, query, now, search);
    var q := Lower(query);
    var partial := FirstPartial(table, q, 0);
    if partial.Some? && NoSpace(table[partial.value].name) {
      SharedSingleWordOccurs(q, table[partial.value].name);
    }
  }

  // ---------------------------------------------------------------------------
  // analyze_meal

  /** One entry of the `ingredients` list. */
  datatype Ingredient = Ingredient(name: string, amountG: real, calories: real, protein: real, fat: real, carbs: real)

  /** The result dictionary of `analyze_meal`. */
  datatype MealAnalysis =
    | Analysis(success: bool, ingredients: seq<Ingredient>,
               calories: real, protein: real, fat: real, carbs: real, description: string)
    | AnalysisFailed(description: string, error: string)

  /** Scaling by `amount / serving` undone: the scaled value times the serving is the value times the amount. */
  lemma ScaleBack(x: real, amount: real, serving: real)
    requires serving != 0.0
    ensures x * (amount / serving) * serving == x * amount
  {
    assert (amount / serving) * serving == amount;
    assert x * (amount / serving) * serving == x * ((amount / serving) * serving);
  }

  /** `amount / serving_size_g` times each macro. */
  function Scaled(info: ProductInfo, amount: real): (g: Ingredient)
    requires info.servingSizeG != 0.0
    ensures g.name == info.name && g.amountG == amount
    ensures g.calories * info.servingSizeG == info.calories * amount
    ensures g.protein * info.servingSizeG == info.protein * amount
    ensures g.fat * info.servingSizeG == info.fat * amount
    ensures g.carbs * info.servingSizeG == info.carbs * amount
    ensures amount == info.servingSizeG ==>
      g.calories == info.calories && g.protein == info.protein && g.fat == info.fat && g.carbs == info.carbs
  {
    var scale := amount / info.servingSizeG;
    ScaleBack(info.calories, amount, info.servingSizeG);
    ScaleBack(info.protein, amount, info.servingSizeG);
    ScaleBack(info.fat, amount, info.servingSizeG);
    ScaleBack(info.carbs, amount, info.servingSizeG);
    Ingredient(info.name, amount, info.calories * scale, info.protein * scale, info.fat * scale, info.carbs * scale)
  }

  /** The fallback entry: 100 g, the record's values unscaled. */
  function Unscaled(info: ProductInfo): Ingredient {
    Ingredient(info.name, 100.0, info.calories, info.protein, info.fat, info.carbs)
  }

  /**
   * One pattern match `(amount text, ingredient text)`: skipped when the
   * amount is no number; `None` (ZeroDivisionError) when the product has a
   * zero serving size.
   */
  function MatchStep(acc: seq<Ingredient>, cache: Cache, table: seq<LocalEntry>, m: (string, string),
                     kg: bool, now: int, search: SearchOracle): (r: (Option<seq<Ingredient>>, Cache))
    requires WellFormed(cache)
    ensures WellFormed(r.1)
  {
    match ParseFloat(m.0)
    case None => (Some(acc), cache)
    case Some(a) =>
      var (info, cache') := ProductInfoStep(cache, table, Strip(m.1), now, search);
      (AddScaled(acc, if kg then a * 1000.0 else a, info), cache')
  }

  /** The ingredient list after one looked-up product: unchanged on a failed lookup, `None` on a zero serving size. */
  function AddScaled(acc: seq<Ingredient>, amount: real, info: ProductInfo): Option<seq<Ingredient>> {
    if !info.success then Some(acc)
    else if info.servingSizeG == 0.0 then None
    else Some(acc + [Scaled(info, amount)])
  }

  /** The pattern loop over the first `|ms|` matches. */
  function PatternStage(cache: Cache, table: seq<LocalEntry>, ms: seq<(string, string)>, kg: bool, now: int, search: SearchOracle)
    : (r: (Option<seq<Ingredient>>, Cache))
    requires WellFormed(cache)
    ensures WellFormed(r.1)
  {
    if |ms| == 0 then (Some([]), cache)
    else
      var (prev, cache') := PatternStage(cache, table, ms[..|ms| - 1], kg, now, search);
      if prev.None? then (None, cache')
      else MatchStep(prev.value, cache', table, ms[|ms| - 1], kg, now, search)
  }

  /** The fallback loop over the first `|words|` words. */
  function WordStage(cache: Cache, table: seq<LocalEntry>, words: seq<string>, now: int, search: SearchOracle)
    : (r: (seq<Ingredient>, Cache))
    requires WellFormed(cache)
    ensures WellFormed(r.1)
  {
    if |words| == 0 then ([], cache)
    else
      var (prev, cache') := WordStage(cache, table, words[..|words| - 1], now, search);
      var w := words[|words| - 1];
      if |w| > 3 then
        var (info, cache'') := ProductInfoStep(cache', table, w, now, search);
        if info.success then (prev + [Unscaled(info)], cache'') else (prev, cache'')
      else (prev, cache')
  }

  function SumCalories(xs: seq<Ingredient>): real {
    if |xs| == 0 then 0.0 else SumCalories(xs[..|xs| - 1]) + xs[|xs| - 1].calories
  }

  function SumProtein(xs: seq<Ingredient>): real {
    if |xs| == 0 then 0.0 else SumProtein(xs[..|xs| - 1]) + xs[|xs| - 1].protein
  }

  function SumFat(xs: seq<Ingredient>): real {
    if |xs| == 0 then 0.0 else SumFat(xs[..|xs| - 1]) + xs[|xs| - 1].fat
  }

  function SumCarbs(xs: seq<Ingredient>): real {
    if |xs| == 0 then 0.0 else SumCarbs(xs[..|xs| - 1]) + xs[|xs| - 1].carbs
  }

  /** The `total` dictionary and `success`. */
  function Summarize(description: string, xs: seq<Ingredient>): MealAnalysis {
    Analysis(|xs| > 0, xs, SumCalories(xs), SumProtein(xs), SumFat(xs), SumCarbs(xs), description)
  }

  /** Python's message for a float division by zero. */
  const DivisionByZero: string := "float division by zero"

  /**
   * `analyze_meal`. `matches` stands for the `re.findall` result on the
   * description: the amount text and the ingredient text of each match.
   */
  function AnalyzeStep(cache: Cache, table: seq<LocalEntry>, description: string, matches: seq<(string, string)>,
                       now: int, search: SearchOracle): (r: (MealAnalysis, Cache))
    requires WellFormed(cache)
    ensures WellFormed(r.1)
  {
    var kg := Contains(Lower(description), "кг");
    var (pattern, cache') := PatternStage(cache, table, matches, kg, now, search);
    if pattern.None? then (AnalysisFailed(description, DivisionByZero), cache')
    else if |pattern.value| > 0 then (Summarize(description, pattern.value), cache')
    else
      var (fallback, cache'') := WordStage(cache', table, Words(description), now, search);
      (Summarize(description, fallback), cache'')
  }

  /** The totals of a meal add up over any split of its ingredients. */
  lemma {:induction false} TotalsAreAdditive(xs: seq<Ingredient>, ys: seq<Ingredient>)
    ensures SumCalories(xs + ys) == SumCalories(xs) + SumCalories(ys)
    ensures SumProtein(xs + ys) == SumProtein(xs) + SumProtein(ys)
    ensures SumFat(xs + ys) == SumFat(xs) + SumFat(ys)
    ensures SumCarbs(xs + ys) == SumCarbs(xs) + SumCarbs(ys)
    decreases |ys|
  {
    if |ys| == 0 {
      assert xs + ys == xs;
    } else {
      var init := ys[..|ys| - 1];
      assert (xs + ys)[..|xs + ys| - 1] == xs + init;
      assert (xs + ys)[|xs + ys| - 1] == ys[|ys| - 1];
      TotalsAreAdditive(xs, init);
    }
  }

  /** The totals of an analysis are the sums over its ingredients, and it keeps the description. */
  lemma AnalysisTotals(cache: Cache, table: seq<LocalEntry>, description: string, matches: seq<(string, string)>,
                       now: int, search: SearchOracle)
    requires WellFormed(cache)
    ensures var r := AnalyzeStep(cache, table, description, matches, now, search).0;
      && r.description == description
      && (r.Analysis? ==>
            && r.calories == SumCalories(r.ingredients) && r.protein == SumProtein(r.ingredients)
            && r.fat == SumFat(r.ingredients) && r.carbs == SumCarbs(r.ingredients))
  {
    hide ProductInfoStep, ParseFloat;
  }

  /** An analysis succeeds exactly when some ingredient was found. */
  lemma SuccessIffIngredients(cache: Cache, table: seq<LocalEntry>, description: string, matches: seq<(string, string)>,
                              now: int, search: SearchOracle)
    requires WellFormed(cache)
    ensures var r := AnalyzeStep(cache, table, description, matches, now, search).0;
      r.Analysis? ==> (r.success <==> |r.ingredients| > 0)
  {
    hide ProductInfoStep, ParseFloat;
  }

  /**
   * Every pattern ingredient carries the amount of some match, times 1000
   * whenever "кг" occurs anywhere in the description.
   */
  lemma {:induction false} PatternAmounts(cache: Cache, table: seq<LocalEntry>, ms: seq<(string, string)>, kg: bool,
                                          now: int, search: SearchOracle)
    requires WellFormed(cache)
    ensures var (r, _) := PatternStage(cache, table, ms, kg, now, search);
      r.Some? ==> forall g | g in r.value :: exists m | m in ms ::
        ParseFloat(m.0).Some? && g.amountG == (if kg then ParseFloat(m.0).value * 1000.0 else ParseFloat(m.0).value)
  {
    hide ProductInfoStep, ParseFloat;
    if |ms| > 0 {
      var init := ms[..|ms| - 1];
      PatternAmounts(cache, table, init, kg, now, search);
      assert forall m | m in init :: m in ms;
      assert ms[|ms| - 1] in ms;
      var (prev, mid) := PatternStage(cache, table, init, kg, now, search);
      if prev.Some? {
        MatchStepAmount(prev.value, mid, table, ms[|ms| - 1], kg, now, search);
      }
    }
  }

  /** One match adds at most the entry of its own amount. */
  lemma MatchStepAmount(acc: seq<Ingredient>, cache: Cache, table: seq<LocalEntry>, m: (string, string),
                        kg: bool, now: int, search: SearchOracle)
    requires WellFormed(cache)
    ensures var (r, _) := MatchStep(acc, cache, table, m, kg, now, search);
      r.Some? ==> forall g | g in r.value :: (g in acc ||
        (ParseFloat(m.0).Some? && g.amountG == (if kg then ParseFloat(m.0).value * 1000.0 else ParseFloat(m.0).value)))
  {
    hide ProductInfoStep, ParseFloat;
  }

  /** Once a zero serving size aborted the analysis, later matches change nothing. */
  lemma {:induction false} AbortIsFinal(cache: Cache, table: seq<LocalEntry>, ms: seq<(string, string)>, n: nat, kg: bool,
                                        now: int, search: SearchOracle)
    requires WellFormed(cache) && n <= |ms|
    requires PatternStage(cache, table, ms[..n], kg, now, search).0.None?
    ensures PatternStage(cache, table, ms, kg, now, search) == PatternStage(cache, table, ms[..n], kg, now, search)
    decreases |ms| - n
  {
    hide ProductInfoStep, ParseFloat;
    if n < |ms| {
      assert ms[..n + 1][..n] == ms[..n];
      AbortIsFinal(cache, table, ms, n + 1, kg, now, search);
    } else {
      assert ms[..n] == ms;
    }
  }

  /** Each word longer than three characters gives one fallback ingredient of 100 g. */
  lemma {:induction false} FallbackTakesLongWords(cache: Cache, table: seq<LocalEntry>, words: seq<string>, now: int, search: SearchOracle)
    requires WellFormed(cache)
    ensures var (r, _) := WordStage(cache, table, words, now, search);
      && |r| == LongWords(words)
      && forall g | g in r :: g.amountG == 100.0
  {
    hide ProductInfoStep, ParseFloat;
    if |words| > 0 {
      FallbackTakesLongWords(cache, table, words[..|words| - 1], now, search);
    }
  }

  /** The number of words longer than three characters. */
  function LongWords(words: seq<string>): nat {
    if |words| == 0 then 0 else LongWords(words[..|words| - 1]) + (if |words[|words| - 1]| > 3 then 1 else 0)
  }

  /** One more match: the pattern stage over `ms[..i + 1]` in terms of the stage over `ms[..i]` and the lookup of match `i`. */
  lemma PatternStageNext(cache: Cache, table: seq<LocalEntry>, ms: seq<(string, string)>, i: nat, kg: bool, now: int,
                         search: SearchOracle, acc: seq<Ingredient>, mid: Cache)
    requires WellFormed(cache) && i < |ms|
    requires PatternStage(cache, table, ms[..i], kg, now, search) == (Some(acc), mid)
    ensures WellFormed(mid)
    ensures PatternStage(cache, table, ms[..i + 1], kg, now, search) == MatchStep(acc, mid, table, ms[i], kg, now, search)
  {
    hide ProductInfoStep, ParseFloat;
    assert ms[..i + 1][..i] == ms[..i];
  }

  /** One more word: the word stage over `words[..j + 1]` in terms of the stage over `words[..j]`. */
  lemma WordStageNext(cache: Cache, table: seq<LocalEntry>, words: seq<string>, j: nat, now: int, search: SearchOracle,
                      acc: seq<Ingredient>, mid: Cache)
    requires WellFormed(cache) && j < |words|
    requires WordStage(cache, table, words[..j], now, search) == (acc, mid)
    ensures WellFormed(mid)
    ensures |words[j]| <= 3 ==> WordStage(cache, table, words[..j + 1], now, search) == (acc, mid)
    ensures |words[j]| > 3 ==>
      var (info, after) := ProductInfoStep(mid, table, words[j], now, search);
      WordStage(cache, table, words[..j + 1], now, search) == (if info.success then acc + [Unscaled(info)] else acc, after)
  {
    hide ProductInfoStep, ParseFloat;
    assert words[..j + 1][..j] == words[..j];
  }

  // ---------------------------------------------------------------------------
  // The client object

  class FoodClient {
    /** `self.cache` */
    var cache: Cache
    /** `self.local_db` */
    const localDb: seq<LocalEntry>

    ghost predicate Valid()
      reads this
    {
      WellFormed(cache)
    }

    constructor()
      ensures Valid() && cache == map[] && localDb == LocalDatabase
    {
      cache := map[];
      localDb := LocalDatabase;
    }

    /** `search_product` */
    method SearchProduct(query: string, limit: int, now: int, search: SearchOracle) returns (products: seq<ProductInfo>)
      requires Valid()
      modifies this
      ensures Valid()
      ensures (products, cache) == SearchStep(old(cache), query, limit, now, search)
    {
      var key := "search_" + Lower(query);
      if key in cache {
        var entry := cache[key];
        if now - entry.timestamp < CacheExpiry {
          SearchKeyIsSearchKey(query);
          return entry.data.products;
        }
      }
      var reply := search(query, limit);
      if reply.SearchFailed? {
        return [];
      }
      products := ParseReply(reply.products);
      SearchKeyIsSearchKey(query);
      cache := cache[key := CacheEntry(CachedSearch(products), now)];
    }

    /** The loop of `search_product` over the reply's products. */
    method ParseReply(raws: seq<RawProduct>) returns (products: seq<ProductInfo>)
      ensures products == ParseAll(raws)
    {
      hide ParseProductData;
      products := [];
      var i := 0;
      while i < |raws|
        invariant 0 <= i <= |raws|
        invariant products == ParseAll(raws[..i])
      {
        var parsed := ParseProductData(raws[i]);
        if parsed.Some? && parsed.value.success {
          products := products + [parsed.value];
        }
        assert raws[..i + 1][..i] == raws[..i] && raws[..i + 1][i] == raws[i];
        assert products == ParseAll(raws[..i]) + ParseOne(raws[i]);
        i := i + 1;
      }
      assert raws[..i] == raws;
    }

    /** `get_product_by_barcode` */
    method GetProductByBarcode(barcode: string, now: int, fetch: BarcodeOracle) returns (r: Option<ProductInfo>)
      requires Valid()
      modifies this
      ensures Valid()
      ensures (r, cache) == BarcodeStep(old(cache), barcode, now, fetch)
    {
      var key := "barcode_" + barcode;
      BarcodeKeyIsNoSearchKey(barcode);
      if key in cache {
        var entry := cache[key];
        if now - entry.timestamp < CacheExpiry {
          return Some(entry.data.product);
        }
      }
      var reply := fetch(barcode);
      if reply.BarcodeNotFound? || reply.BarcodeFailed? {
        return None;
      }
      if reply.status == 1 {
        r := ParseProductData(reply.product);
        if r.Some? {
          cache := cache[key := CacheEntry(CachedProduct(r.value), now)];
        }
        return r;
      }
      return None;
    }

    /** The first loop of `get_product_info`: the first key that occurs in the lowered query. */
    method ExactMatch(queryLower: string) returns (r: Option<nat>)
      ensures r == FirstExact(localDb, queryLower, 0)
    {
      var i := 0;
      while i < |localDb|
        invariant 0 <= i <= |localDb|
        invariant FirstExact(localDb, queryLower, 0) == FirstExact(localDb, queryLower, i)
      {
        if Contains(queryLower, localDb[i].name) {
          return Some(i);
        }
        i := i + 1;
      }
      return None;
    }

    /** The second loop of `get_product_info`: the first key sharing a word with the lowered query. */
    method PartialMatch(queryLower: string) returns (r: Option<nat>)
      ensures r == FirstPartial(localDb, queryLower, 0)
    {
      var i := 0;
      while i < |localDb|
        invariant 0 <= i <= |localDb|
        invariant FirstPartial(localDb, queryLower, 0) == FirstPartial(localDb, queryLower, i)
      {
        var queryWords := Words(queryLower);
        var productWords := Words(localDb[i].name);
        if exists w | w in queryWords :: w in productWords {
          return Some(i);
        }
        i := i + 1;
      }
      return None;
    }

    /** `_estimate_product_info`: nested loops whose inner `break` leaves only the keyword loop. */
    method EstimateProductInfo(query: string) returns (info: ProductInfo)
      ensures info == Estimate(query)
    {
      var queryLower := Lower(query);
      var estimated := CategoryLoop(CategoryKeywords, queryLower, DefaultCategory);
      EveryCategoryHasAverages();
      var m := if estimated in Categories then Categories[estimated] else Categories[DefaultCategory];
      info := ProductInfo(query, m.calories, m.protein, m.fat, m.carbs, None, None, None, 100.0, Estimation, true,
                          None, None, None, None);
    }

    /** The loop over the categories: a category with a matching keyword replaces the choice so far. */
    static method CategoryLoop(table: seq<(string, seq<string>)>, q: string, default: string) returns (estimated: string)
      ensures estimated == EstimateOver(table, q, default)
    {
      estimated := default;
      var i := 0;
      while i < |table|
        invariant 0 <= i <= |table|
        invariant estimated == EstimateOver(table[..i], q, default)
      {
        var (category, keywords) := table[i];
        var found := KeywordLoop(keywords, q);
        if found {
          estimated := category;
        }
        assert table[..i + 1][..i] == table[..i];
        i := i + 1;
      }
      assert table[..i] == table;
    }

    /** The inner loop: stops at the first keyword found in `q`. */
    static method KeywordLoop(keywords: seq<string>, q: string) returns (found: bool)
      ensures found == AnyKeyword(keywords, q)
    {
      var j := 0;
      found := false;
      while j < |keywords|
        invariant 0 <= j <= |keywords|
        invariant !found && forall k | 0 <= k < j :: !Contains(q, keywords[k])
      {
        if Contains(q, keywords[j]) {
          return true;
        }
        j := j + 1;
      }
    }

    /** `get_product_info` */
    method GetProductInfo(query: string, now: int, search: SearchOracle) returns (info: ProductInfo)
      requires Valid()
      modifies this
      ensures Valid()
      ensures (info, cache) == ProductInfoStep(old(cache), localDb, query, now, search)
    {
      var results := SearchProduct(query, 3, now, search);
      if |results| > 0 {
        return results[0];
      }
      var queryLower := Lower(query);
      var exact := ExactMatch(queryLower);
      if exact.Some? {
        return FromLocal(localDb[exact.value], LocalDb);
      }
      var partial := PartialMatch(queryLower);
      if partial.Some? {
        return FromLocal(localDb[partial.value], LocalDbApprox);
      }
      info := EstimateProductInfo(query);
    }

    /** `analyze_meal`; `matches` is the `re.findall` result on `description`. */
    method AnalyzeMeal(description: string, matches: seq<(string, string)>, now: int, search: SearchOracle)
      returns (result: MealAnalysis)
      requires Valid()
      modifies this
      ensures Valid()
      ensures (result, cache) == AnalyzeStep(old(cache), localDb, description, matches, now, search)
    {
      hide ProductInfoStep, ParseFloat, MatchStep;
      var pattern := MatchLoop(matches, Contains(Lower(description), "кг"), now, search);
      if pattern.None? {
        return AnalysisFailed(description, DivisionByZero);
      }
      var ingredients := pattern.value;
      if |ingredients| == 0 {
        ingredients := WordLoop(Words(description), now, search);
      }
      result := Summarize(description, ingredients);
    }

    /** The first loop of `analyze_meal`; `None` when a zero serving size raised. */
    method MatchLoop(matches: seq<(string, string)>, kg: bool, now: int, search: SearchOracle)
      returns (r: Option<seq<Ingredient>>)
      requires Valid()
      modifies this
      ensures Valid()
      ensures (r, cache) == PatternStage(old(cache), localDb, matches, kg, now, search)
    {
      hide MatchStep, ProductInfoStep, ParseFloat;
      ghost var start := cache;
      var ingredients := [];
      var i := 0;
      while i < |matches|
        invariant 0 <= i <= |matches|
        invariant Valid()
        invariant PatternStage(start, localDb, matches[..i], kg, now, search) == (Some(ingredients), cache)
      {
        var next := MatchAt(start, matches, i, ingredients, kg, now, search);
        if next.None? {
          return None;
        }
        ingredients := next.value;
        i := i + 1;
      }
      assert matches[..i] == matches;
      return Some(ingredients);
    }

    /** The body of the first loop for match `i`; `None` is the ZeroDivisionError, which ends the analysis. */
    method MatchAt(ghost start: Cache, matches: seq<(string, string)>, i: nat, ingredients: seq<Ingredient>,
                   kg: bool, now: int, search: SearchOracle)
      returns (r: Option<seq<Ingredient>>)
      requires Valid() && WellFormed(start) && i < |matches|
      requires PatternStage(start, localDb, matches[..i], kg, now, search) == (Some(ingredients), cache)
      modifies this
      ensures Valid()
      ensures r.Some? ==> PatternStage(start, localDb, matches[..i + 1], kg, now, search) == (r, cache)
      ensures r.None? ==> PatternStage(start, localDb, matches, kg, now, search) == (None, cache)
    {
      hide *;
      PatternStageNext(start, localDb, matches, i, kg, now, search, ingredients, cache);
      r := MatchOne(ingredients, matches[i], kg, now, search);
      if r.None? {
        AbortIsFinal(start, localDb, matches, i + 1, kg, now, search);
      }
    }

    /** One match `(amount text, ingredient text)`: look the ingredient up and scale it. */
    method MatchOne(ingredients: seq<Ingredient>, m: (string, string), kg: bool, now: int, search: SearchOracle)
      returns (r: Option<seq<Ingredient>>)
      requires Valid()
      modifies this
      ensures Valid()
      ensures (r, cache) == MatchStep(ingredients, old(cache), localDb, m, kg, now, search)
    {
      hide ProductInfoStep, ParseFloat;
      var amount := ParseFloat(m.0);
      if amount.None? {
        return Some(ingredients);
      }
      var grams := if kg then amount.value * 1000.0 else amount.value;
      var info := GetProductInfo(Strip(m.1), now, search);
      r := AppendScaled(ingredients, grams, info);
    }

    /** The rest of the loop body: skip a failed lookup, abort on a zero serving size, else append the scaled entry. */
    static method AppendScaled(ingredients: seq<Ingredient>, grams: real, info: ProductInfo)
      returns (r: Option<seq<Ingredient>>)
      ensures r == AddScaled(ingredients, grams, info)
    {
      if !info.success {
        return Some(ingredients);
      }
      if info.servingSizeG == 0.0 {
        return None;
      }
      return Some(ingredients + [Scaled(info, grams)]);
    }

    /** The fallback loop of `analyze_meal` over the description's words. */
    method WordLoop(words: seq<string>, now: int, search: SearchOracle) returns (ingredients: seq<Ingredient>)
      requires Valid()
      modifies this
      ensures Valid()
      ensures (ingredients, cache) == WordStage(old(cache), localDb, words, now, search)
    {
      hide ProductInfoStep;
      ghost var start := cache;
      ingredients := [];
      var j := 0;
      while j < |words|
        invariant 0 <= j <= |words|
        invariant Valid()
        invariant WordStage(start, localDb, words[..j], now, search) == (ingredients, cache)
      {
        WordStageNext(start, localDb, words, j, now, search, ingredients, cache);
        var word := words[j];
        if |word| > 3 {
          var info := GetProductInfo(word, now, search);
          if info.success {
            ingredients := ingredients + [Unscaled(info)];
          }
        }
        j := j + 1;
      }
      assert words[..j] == words;
    }
  }
}
