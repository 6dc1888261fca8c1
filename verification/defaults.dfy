/** The static fallback catalogs of `get_default_food_items` and its
    dispatch on the meal type, with the facts about them the selector
    relies on. */
module Defaults {
  import opened Catalog
  import opened Selector

  /** The breakfast table. */
  function Breakfast(): Catalog {
    [
      Group("protein", BreakfastProtein()),
      Group("whole_grains", BreakfastWholeGrains()),
      Group("fruits", BreakfastFruits()),
      Group("vegetables", BreakfastVegetables()),
      Group("healthy_fats", BreakfastHealthyFats()),
      Group("dairy", BreakfastDairy()),
      Group("other", BreakfastOther())
    ]
  }

  /** The lunch table; its last food, `herbs_and_spices`, has 0 calories. */
  function Lunch(): Catalog {
    [
      Group("protein", LunchProtein()),
      Group("whole_grains", LunchWholeGrains()),
      Group("vegetables", LunchVegetables()),
      Group("legumes", LunchLegumes()),
      Group("healthy_fats", LunchHealthyFats()),
      Group("dairy_or_dairy_alternatives", LunchDairyOrDairyAlternatives()),
      Group("additional_toppings_condiments", LunchAdditionalToppingsCondiments())
    ]
  }

  /** The dinner table; `lentils` appears under `proteins` and again under
      `legumes`. */
  function Dinner(): Catalog {
    [
      Group("proteins", DinnerProteins()),
      Group("grains_and_starches", DinnerGrainsAndStarches()),
      Group("vegetables", DinnerVegetables()),
      Group("legumes", DinnerLegumes()),
      Group("healthy_fats", DinnerHealthyFats()),
      Group("dairy_or_dairy_alternatives", DinnerDairyOrDairyAlternatives()),
      Group("sauces_and_condiments", DinnerSaucesAndCondiments()),
      Group("herbs_and_spices", DinnerHerbsAndSpices())
    ]
  }

  // The categories of the three tables, in insertion order.

  function BreakfastProtein(): seq<Food> {
    [
      Food("eggs", 78),
      Food("greek_yogurt", 130),
      Food("cottage_cheese", 206),
      Food("turkey_slices", 104),
      Food("smoked_salmon", 117)
    ]
  }

  function BreakfastWholeGrains(): seq<Food> {
    [
      Food("whole_wheat_bread", 79),
      Food("oatmeal", 150),
      Food("quinoa", 222),
      Food("whole_grain_cereal", 120),
      Food("granola", 494)
    ]
  }

  function BreakfastFruits(): seq<Food> {
    [
      Food("berries", 50),
      Food("bananas", 96),
      Food("apples", 52),
      Food("oranges", 62),
      Food("grapefruit", 52),
      Food("melon_slices", 30)
    ]
  }

  function BreakfastVegetables(): seq<Food> {
    [
      Food("spinach", 7),
      Food("tomatoes", 18),
      Food("avocado", 160),
      Food("bell_peppers", 25),
      Food("mushrooms", 15)
    ]
  }

  function BreakfastHealthyFats(): seq<Food> {
    [
      Food("nut_butter", 94),
      Food("nuts", 163),
      Food("chia_seeds", 58),
      Food("flaxseeds", 55),
      Food("avocado_slices", 50)
    ]
  }

  function BreakfastDairy(): seq<Food> {
    [
      Food("milk", 103),
      Food("cheese", 113),
      Food("yogurt", 150),
      Food("dairy-free_alternatives", 80)
    ]
  }

  function BreakfastOther(): seq<Food> {
    [
      Food("honey", 64),
      Food("maple_syrup", 52),
      Food("coffee", 2),
      Food("jam", 49),
      Food("peanut_butter", 188),
      Food("cocoa_powder", 12)
    ]
  }

  function LunchProtein(): seq<Food> {
    [
      Food("grilled_chicken_breast", 165),
      Food("salmon_fillet", 206),
      Food("tofu", 144),
      Food("lean_beef", 176),
      Food("shrimp", 99)
    ]
  }

  function LunchWholeGrains(): seq<Food> {
    [
      Food("brown_rice", 216),
      Food("quinoa", 222),
      Food("whole_wheat_pasta", 180),
      Food("barley", 270),
      Food("couscous", 176)
    ]
  }

  function LunchVegetables(): seq<Food> {
    [
      Food("leafy_greens", 10),
      Food("broccoli", 55),
      Food("cauliflower", 25),
      Food("carrots", 41),
      Food("bell_peppers", 31),
      Food("cucumbers", 16),
      Food("tomatoes", 18),
      Food("zucchini", 17)
    ]
  }

  function LunchLegumes(): seq<Food> {
    [
      Food("chickpeas", 269),
      Food("lentils", 230),
      Food("black_beans", 227),
      Food("kidney_beans", 225),
      Food("edamame", 121)
    ]
  }

  function LunchHealthyFats(): seq<Food> {
    [
      Food("avocado", 234),
      Food("nuts", 160),
      Food("seeds", 160),
      Food("olive_oil", 119),
      Food("coconut_oil", 121)
    ]
  }

  function LunchDairyOrDairyAlternatives(): seq<Food> {
    [
      Food("greek_yogurt", 130),
      Food("cottage_cheese", 206),
      Food("cheese", 113),
      Food("dairy-free_alternatives", 80)
    ]
  }

  function LunchAdditionalToppingsCondiments(): seq<Food> {
    [
      Food("sliced_avocado", 50),
      Food("hummus", 27),
      Food("salsa", 20),
      Food("salad_dressings", 73),
      Food("herbs_and_spices", 0)
    ]
  }

  function DinnerProteins(): seq<Food> {
    [
      Food("chicken_breast", 165),
      Food("salmon", 206),
      Food("beef_steak", 250),
      Food("tofu", 144),
      Food("shrimp", 84),
      Food("lentils", 116)
    ]
  }

  function DinnerGrainsAndStarches(): seq<Food> {
    [
      Food("brown_rice", 216),
      Food("quinoa", 222),
      Food("sweet_potatoes", 180),
      Food("whole_wheat_pasta", 174),
      Food("couscous", 176),
      Food("barley", 193)
    ]
  }

  function DinnerVegetables(): seq<Food> {
    [
      Food("broccoli", 55),
      Food("cauliflower", 25),
      Food("green_beans", 31),
      Food("asparagus", 27),
      Food("brussels_sprouts", 38),
      Food("carrots", 41),
      Food("zucchini", 17)
    ]
  }

  function DinnerLegumes(): seq<Food> {
    [
      Food("black_beans", 227),
      Food("chickpeas", 269),
      Food("kidney_beans", 333),
      Food("lentils", 353)
    ]
  }

  function DinnerHealthyFats(): seq<Food> {
    [
      Food("avocado", 160),
      Food("olive_oil", 119),
      Food("nuts", 160),
      Food("seeds", 150)
    ]
  }

  function DinnerDairyOrDairyAlternatives(): seq<Food> {
    [
      Food("greek_yogurt", 59),
      Food("cheese", 113),
      Food("almond_milk", 40)
    ]
  }

  function DinnerSaucesAndCondiments(): seq<Food> {
    [
      Food("tomato_sauce", 32),
      Food("soy_sauce", 8),
      Food("balsamic_vinegar", 14),
      Food("mustard", 10),
      Food("salsa", 15),
      Food("guacamole", 50),
      Food("hummus", 27)
    ]
  }

  function DinnerHerbsAndSpices(): seq<Food> {
    [
      Food("basil", 22),
      Food("oregano", 5),
      Food("rosemary", 2),
      Food("thyme", 3),
      Food("cumin", 22),
      Food("paprika", 20),
      Food("garlic_powder", 9),
      Food("onion_powder", 7)
    ]
  }

  /** `get_default_food_items`: "breakfast" and "lunch" pick their tables,
      every other meal type gets the dinner table. The three tables differ
      (they hold 36, 37 and 45 foods), so the table also tells which branch
      was taken. Calorie values are non-negative by their type. */
  function DefaultFoodItems(mealType: string): (c: Catalog)
    ensures Offset(c, |c|) == (if mealType == "breakfast" then 36 else if mealType == "lunch" then 37 else 45)
    ensures c == Breakfast() <==> mealType == "breakfast"
    ensures c == Lunch() <==> mealType == "lunch"
    ensures c == Dinner() <==> mealType != "breakfast" && mealType != "lunch"
  {
    TablesDiffer();
    if mealType == "breakfast" then Breakfast()
    else if mealType == "lunch" then Lunch()
    else Dinner()
  }

  /** The three tables are told apart by their sizes. */
  lemma TablesDiffer()
    ensures Offset(Breakfast(), 7) == 36 && Offset(Lunch(), 7) == 37 && Offset(Dinner(), 8) == 45
    ensures Breakfast() != Lunch() && Breakfast() != Dinner() && Lunch() != Dinner()
  {
    BreakfastSize();
    LunchSize();
    DinnerSize();
  }

  lemma BreakfastSize()
    ensures Offset(Breakfast(), 7) == 36
  {
  }

  lemma LunchSize()
    ensures Offset(Lunch(), 7) == 37
  {
  }

  lemma DinnerSize()
    ensures Offset(Dinner(), 8) == 45
  {
  }

  /** Any meal type other than "breakfast" and "lunch" gets the dinner table. */
  lemma OtherMealsGetDinner(mealType: string)
    requires mealType != "breakfast" && mealType != "lunch"
    ensures DefaultFoodItems(mealType) == Dinner()
  {
  }

  /** The lunch table flattens its 0-calorie `herbs_and_spices` to the last
      position, 36, and the selector never records that position, whatever
      the budget. */
  lemma LunchHerbsNeverSelected(c: Catalog, budget: nat)
    requires c == Lunch()
    ensures |Flatten(c)| == 37 && Flatten(c)[36] == Item(0, "herbs_and_spices")
    ensures 36 !in Taken(Flatten(c), 37, budget)
  {
    assert Offset(c, |c|) == 37 && Offset(c, 6) == 32;
    assert c[6].foods[4] == Food("herbs_and_spices", 0);
    FlattenAt(c, 6, 4);
    ZeroCaloriesNeverTaken(Flatten(c), 37, budget, 36);
  }

  /** The dinner table flattens its two `lentils` entries (116 calories under
      `proteins`, 353 under `legumes`) to positions 5 and 22; with a budget
      that covers the whole table both are selected, so the selection names
      "lentils" twice. */
  lemma DinnerLentilsTwice(c: Catalog, budget: nat)
    requires c == Dinner()
    requires PrefixTotal(Flatten(c), |Flatten(c)|) <= budget
    ensures var items := Flatten(c);
      var names := NamesAt(items, Taken(items, |items|, budget));
      exists p, q :: 0 <= p < q < |names| && names[p] == "lentils" && names[q] == "lentils"
  {
    var items := Flatten(c);
    assert Offset(c, 0) == 0 && Offset(c, 3) == 19;
    assert c[0].foods[5] == Food("lentils", 116) && c[3].foods[3] == Food("lentils", 353);
    FlattenAt(c, 0, 5);
    FlattenAt(c, 3, 3);
    BothSelectedWhenAllFit(items, budget, 5, 22);
  }
}
