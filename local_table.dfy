/**
 * The fixed tables of the food client (api_client.py): the local nutrition
 * table of `_init_local_database`, in its insertion order, and the category
 * averages and keyword lists of `_estimate_product_info`, in theirs.
 */
module LocalTable {
  import opened Text

  /** One row of the local table: nutrients per 100 g. */
  datatype LocalEntry = LocalEntry(name: string, calories: real, protein: real, fat: real, carbs: real, fiber: real)

  /** `_init_local_database`, in insertion order (the order `.items()` walks), group by group. */
  const LocalDatabase: seq<LocalEntry> := Fruits + Vegetables + ProteinFoods + Dairy + Grains + Nuts + Drinks + Other

  const Fruits: seq<LocalEntry> := [
    LocalEntry("яблоко", 52.0, 0.3, 0.2, 14.0, 2.4),
    LocalEntry("банан", 89.0, 1.1, 0.3, 23.0, 2.6),
    LocalEntry("апельсин", 47.0, 0.9, 0.1, 12.0, 2.4),
    LocalEntry("киви", 61.0, 1.1, 0.5, 15.0, 3.0),
    LocalEntry("груша", 57.0, 0.4, 0.1, 15.0, 3.1),
    LocalEntry("виноград", 69.0, 0.7, 0.2, 18.0, 0.9),
    LocalEntry("клубника", 32.0, 0.7, 0.3, 8.0, 2.0),
    LocalEntry("персик", 39.0, 0.9, 0.3, 10.0, 1.5),
    LocalEntry("слива", 46.0, 0.7, 0.3, 11.0, 1.4),
    LocalEntry("арбуз", 30.0, 0.6, 0.2, 8.0, 0.4)
  ]

  const Vegetables: seq<LocalEntry> := [
    LocalEntry("морковь", 41.0, 0.9, 0.2, 10.0, 2.8),
    LocalEntry("помидор", 18.0, 0.9, 0.2, 4.0, 1.2),
    LocalEntry("огурец", 15.0, 0.7, 0.1, 3.0, 0.5),
    LocalEntry("картофель", 77.0, 2.0, 0.1, 17.0, 2.2),
    LocalEntry("брокколи", 34.0, 2.8, 0.4, 7.0, 2.6),
    LocalEntry("капуста", 25.0, 1.3, 0.1, 6.0, 2.5),
    LocalEntry("лук", 40.0, 1.1, 0.1, 9.0, 1.7),
    LocalEntry("чеснок", 149.0, 6.4, 0.5, 33.0, 2.1),
    LocalEntry("перец", 20.0, 0.9, 0.2, 4.0, 1.7),
    LocalEntry("баклажан", 25.0, 1.0, 0.2, 6.0, 3.0)
  ]

  const ProteinFoods: seq<LocalEntry> := [
    LocalEntry("курица", 165.0, 31.0, 3.6, 0.0, 0.0),
    LocalEntry("говядина", 250.0, 26.0, 15.0, 0.0, 0.0),
    LocalEntry("свинина", 242.0, 25.0, 14.0, 0.0, 0.0),
    LocalEntry("индейка", 135.0, 29.0, 1.0, 0.0, 0.0),
    LocalEntry("рыба", 206.0, 22.0, 13.0, 0.0, 0.0),
    LocalEntry("лосось", 208.0, 20.0, 13.0, 0.0, 0.0),
    LocalEntry("тунец", 132.0, 29.0, 1.0, 0.0, 0.0),
    LocalEntry("креветки", 85.0, 20.0, 0.5, 0.0, 0.0),
    LocalEntry("яйцо", 155.0, 13.0, 11.0, 1.1, 0.0)
  ]

  const Dairy: seq<LocalEntry> := [
    LocalEntry("молоко", 42.0, 3.4, 1.0, 5.0, 0.0),
    LocalEntry("кефир", 41.0, 3.4, 1.0, 4.0, 0.0),
    LocalEntry("йогурт", 59.0, 3.5, 1.5, 6.0, 0.0),
    LocalEntry("творог", 98.0, 11.0, 4.3, 3.4, 0.0),
    LocalEntry("сметана", 193.0, 2.5, 20.0, 3.4, 0.0),
    LocalEntry("сыр", 402.0, 25.0, 33.0, 1.3, 0.0),
    LocalEntry("масло", 717.0, 0.9, 81.0, 0.1, 0.0)
  ]

  const Grains: seq<LocalEntry> := [
    LocalEntry("рис", 130.0, 2.7, 0.3, 28.0, 0.4),
    LocalEntry("гречка", 92.0, 3.4, 0.6, 20.0, 1.7),
    LocalEntry("овсянка", 68.0, 2.4, 1.4, 12.0, 1.7),
    LocalEntry("перловка", 123.0, 2.3, 0.4, 28.0, 3.8),
    LocalEntry("пшено", 119.0, 3.5, 1.0, 23.0, 1.3),
    LocalEntry("макароны", 131.0, 5.0, 1.1, 25.0, 1.8),
    LocalEntry("хлеб", 265.0, 9.0, 3.2, 49.0, 2.7),
    LocalEntry("булка", 270.0, 8.0, 3.5, 50.0, 2.5)
  ]

  const Nuts: seq<LocalEntry> := [
    LocalEntry("орехи", 607.0, 20.0, 54.0, 21.0, 7.0),
    LocalEntry("миндаль", 579.0, 21.0, 50.0, 22.0, 12.5),
    LocalEntry("грецкий орех", 654.0, 15.0, 65.0, 14.0, 6.7),
    LocalEntry("арахис", 567.0, 26.0, 49.0, 16.0, 8.5),
    LocalEntry("семечки", 584.0, 21.0, 51.0, 20.0, 9.0)
  ]

  const Drinks: seq<LocalEntry> := [
    LocalEntry("вода", 0.0, 0.0, 0.0, 0.0, 0.0),
    LocalEntry("кофе", 1.0, 0.1, 0.0, 0.0, 0.0),
    LocalEntry("чай", 1.0, 0.1, 0.0, 0.0, 0.0),
    LocalEntry("сок", 45.0, 0.5, 0.1, 11.0, 0.2)
  ]

  const Other: seq<LocalEntry> := [
    LocalEntry("шоколад", 546.0, 4.9, 31.0, 61.0, 7.0),
    LocalEntry("мед", 304.0, 0.3, 0.0, 82.0, 0.2),
    LocalEntry("сахар", 387.0, 0.0, 0.0, 100.0, 0.0),
    LocalEntry("соль", 0.0, 0.0, 0.0, 0.0, 0.0)
  ]

  /** Nutrients per 100 g of an estimated category. */
  datatype CategoryMacros = CategoryMacros(calories: real, protein: real, fat: real, carbs: real)

  /** The averages per category of `_estimate_product_info`. */
  const Categories: map<string, CategoryMacros> := map[
    "фрукт" := CategoryMacros(60.0, 0.8, 0.3, 15.0),
    "овощ" := CategoryMacros(35.0, 1.5, 0.2, 7.0),
    "мясо" := CategoryMacros(200.0, 25.0, 10.0, 0.0),
    "рыба" := CategoryMacros(150.0, 20.0, 8.0, 0.0),
    "молочный" := CategoryMacros(120.0, 8.0, 7.0, 5.0),
    "крупа" := CategoryMacros(110.0, 3.0, 1.0, 25.0),
    "хлеб" := CategoryMacros(250.0, 8.0, 3.0, 50.0),
    "сладость" := CategoryMacros(400.0, 5.0, 20.0, 60.0),
    "напиток" := CategoryMacros(30.0, 0.5, 0.0, 7.0)
  ]

  /** The category used when no keyword matches. */
  const DefaultCategory: string := "овощ"

  /** The keyword lists per category, in dictionary order. */
  const CategoryKeywords: seq<(string, seq<string>)> := [
    ("фрукт", ["фрукт", "ягод", "абрикос", "вишн", "груш", "персик", "слив"]),
    ("овощ", ["овощ", "огур", "помидор", "картош", "морков", "капуст", "лук"]),
    ("мясо", ["мясо", "говядин", "свинин", "баран", "курин", "индейк"]),
    ("рыба", ["рыба", "лосос", "форел", "тунец", "селед", "скумбр"]),
    ("молочный", ["молок", "кефир", "йогурт", "творог", "сыр", "сметан"]),
    ("крупа", ["рис", "гречк", "овсян", "перлов", "пшен", "макарон"]),
    ("хлеб", ["хлеб", "булк", "батон", "бухан", "лаваш"]),
    ("сладость", ["шоколад", "конфет", "печень", "торт", "пирож", "морожен"]),
    ("напиток", ["сок", "компот", "лимонад", "кола", "пепси", "напиток"])
  ]

  /** Every category the keyword lists can pick, and the default, has averages. */
  lemma EveryCategoryHasAverages()
    ensures DefaultCategory in Categories
    ensures forall i | 0 <= i < |CategoryKeywords| :: CategoryKeywords[i].0 in Categories
  {
  }
}
