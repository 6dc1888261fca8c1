# DietMitra meal selector — a Dafny model

DietMitra is a meal-planning web application. It computes a calorie target
for each meal and picks foods that approach that target from below. Then it
asks a text-generation service for recipes that use those foods. Almost
all of it is page layout and calls to outside services. This project
models the part with real logic:

- **`knapsack`** in `streamlit_meal_planner.py`. It is a 0/1-knapsack
  selector in which each food's weight and value are both its calorie count.
  It flattens a category → {food → calories} catalog into an ordered list of
  `(calories, name)` pairs. Then it fills a `(n+1) × (budget+1)` table with
  the skip/take recurrence and walks back from `(n, budget)`. It records food
  `i` only when `dp[i][j] != dp[i-1][j]`, and returns the recorded names
  together with `dp[n][budget]`.
- **The JSON trimming step** of `generate_food_items` in `data.py`. It cuts
  a generated reply down to the text from the first `{` through the last
  `}`, and leaves the reply unchanged when no `}` follows the first `{`.
- **`get_default_food_items`** in `data.py`. It holds the three static
  fallback catalogs (breakfast, lunch, dinner) and picks one by meal type.

Files and modules:

- `catalog.dfy`, module `Catalog`. This is the catalog, written as a
  sequence of categories that each hold a sequence of foods. Python dicts
  keep insertion order, so this pins down the order of the flattened list.
  The module also holds the flattening and its position lemmas.
- `selector.dfy`, module `Selector`. Its main definitions and methods:
  - `Best` is the recursive specification of a table cell.
  - `PickSum` is the calorie sum of an arbitrary subset of the first `i`
    items. It is defined independently of `Best`.
  - `Taken` lists the indices the backward walk records.
  - The four methods are `FillTable` and its row step `FillRow`, which
    fill a two-dimensional array; `Walk`, the backward walk; and
    `Knapsack`, which combines them.
- `json_span.dfy`, module `JsonSpan`. It models `str.find`, `str.rfind` and
  the trimming step.
- `defaults.dfy`, module `Defaults`. It holds the three fallback tables, the
  meal-type dispatch, and facts about the tables as selector inputs.
- `scenarios.dfy`, module `Scenarios`. It holds three small worked
  selections.

What is proved about the selector:

- Every cell of the filled table equals `Best`.
- `Best(items, i, j)` is the largest subset sum of the first `i` items that
  does not exceed `j`. `TakenSum` gives a subset that reaches it, and
  `BestOptimal` shows nothing fits better.
- The walk records each index at most once. Indices come out highest first,
  so names appear in reverse catalog order.
- Only foods with positive calories that fit the budget are recorded.
- The recorded calories add up to the returned total exactly.
- A budget of 0 or an empty catalog yields `([], 0)`.
- A larger budget never gives a smaller total.

A negative budget: every row of the table is then empty, so `knapsack`
raises `IndexError` at the first `dp[i][j]` it reads (or at
`dp[n][target_calories]` when the catalog is empty); it does not reject the
budget up front. The model returns `IndexError` for every negative budget.

## Model

| member | source | states |
|---|---|---|
| Catalog.FlattenUpTo | DietMitra_final/DietMitra/streamlit_meal_planner.py:367-370 | flattening the first `g` categories yields exactly as many items as those categories hold foods |
| Catalog.Flatten | DietMitra_final/DietMitra/streamlit_meal_planner.py:367-370 | the flattened list has one item per food of the catalog |
| Catalog.FlattenAt | DietMitra_final/DietMitra/streamlit_meal_planner.py:367-370 | food `f` of category `g` becomes the `(calories, name)` item at position "foods before category `g`" + `f`: category order first, then food order |
| Catalog.FlattenOrigin | DietMitra_final/DietMitra/streamlit_meal_planner.py:367-370 | every flattened position holds the item of some food of some category, at exactly the position `FlattenAt` gives it |
| Catalog.FlattenAppend | DietMitra_final/DietMitra/streamlit_meal_planner.py:367-370 | flattening two catalogs one after the other is the same as flattening their concatenation |
| Selector.Best | DietMitra_final/DietMitra/streamlit_meal_planner.py:373-382 | the best total for the first `i` items and sub-budget `j` never exceeds `j` |
| Selector.Taken | DietMitra_final/DietMitra/streamlit_meal_planner.py:384-391 | every index the walk records from cell `(i, j)` is below `i` |
| Selector.TakenShape | DietMitra_final/DietMitra/streamlit_meal_planner.py:384-391 | recorded indices are strictly decreasing, so no item is taken twice and names come out in reverse flattening order; each recorded item has positive calories no larger than the budget |
| Selector.ZeroCaloriesNeverTaken | DietMitra_final/DietMitra/streamlit_meal_planner.py:379-387 | a 0-calorie item is never recorded, whatever the budget, because the strict test `dp[i][j] != dp[i-1][j]` never fires for it |
| Selector.OversizedNeverTaken | DietMitra_final/DietMitra/streamlit_meal_planner.py:379-387 | an item with more calories than the budget is never recorded |
| Selector.TakenSum | DietMitra_final/DietMitra/streamlit_meal_planner.py:384-392 | the calories of the recorded items add up exactly to the cell the walk starts from, so `Best` is reached by a real selection |
| Selector.TakenPick | DietMitra_final/DietMitra/streamlit_meal_planner.py:384-392 | the set of recorded indices is a subset of the first `i` items whose subset sum is exactly `Best(i, j)`: with `BestOptimal`, the returned total is the largest subset sum that fits |
| Selector.PickSumBelow | DietMitra_final/DietMitra/streamlit_meal_planner.py:375-382 | the subset sum of the first `i` items depends only on which indices below `i` are picked |
| Selector.BestOptimal | DietMitra_final/DietMitra/streamlit_meal_planner.py:375-382 | no subset of the first `i` items whose sum fits in `j` has a larger sum than `Best(i, j)` |
| Selector.BestMonotone | DietMitra_final/DietMitra/streamlit_meal_planner.py:375-382 | `dp[i][j]` is non-decreasing in `j`: a larger budget never gives a smaller total |
| Selector.BestWhenAllFit | DietMitra_final/DietMitra/streamlit_meal_planner.py:375-382 | when the whole prefix fits in the budget, the best total is the whole prefix's calories |
| Selector.TakenWhenAllFit | DietMitra_final/DietMitra/streamlit_meal_planner.py:384-391 | when the whole prefix fits, the walk records exactly the items with positive calories, highest index first |
| Selector.BothSelectedWhenAllFit | DietMitra_final/DietMitra/streamlit_meal_planner.py:384-391 | when everything fits, any two items with positive calories are both named in the selection, the later one first |
| Selector.NamesAtIndex | DietMitra_final/DietMitra/streamlit_meal_planner.py:388-389 | the `p`-th selected name is the name of the `p`-th recorded item |
| Selector.WalkStep | DietMitra_final/DietMitra/streamlit_meal_planner.py:386-390 | one step of the walk from `(k, j)`: a recorded item fits in `j`, and the names so far plus the rest of the walk still equal the whole walk |
| Selector.FillRow | DietMitra_final/DietMitra/streamlit_meal_planner.py:376-382 | after row `i` is filled from row `i - 1` by the skip/take transition, rows `0..i` all hold `Best` and rows `i + 1..n` are left unchanged |
| Selector.FillTable | DietMitra_final/DietMitra/streamlit_meal_planner.py:372-382 | the filled table has `n + 1` rows of `budget + 1` cells; row 0 is zero and every cell `dp[i][j]` equals `Best(i, j)` |
| Selector.Walk | DietMitra_final/DietMitra/streamlit_meal_planner.py:384-391 | walking back over a correct table yields exactly the names of the items `Taken` records from `(n, budget)` |
| Selector.Knapsack | DietMitra_final/DietMitra/streamlit_meal_planner.py:366-392 | a negative budget raises IndexError. Otherwise the total is at most the budget and is at least the sum of every subset that fits the budget. The names are those of the recorded items, whose calories add up to the total. A budget of 0 or an empty catalog gives `([], 0)` |
| JsonSpan.Find | DietMitra_final/DietMitra/data.py:101 | the result is -1 exactly when the character is absent, and otherwise is the index of its first occurrence |
| JsonSpan.RFind | DietMitra_final/DietMitra/data.py:102 | the result is -1 exactly when the character is absent, and otherwise is the index of its last occurrence |
| JsonSpan.ExtractJson | DietMitra_final/DietMitra/data.py:99-104 | if some `}` follows some `{`, the result runs from the first `{` through the last `}`; otherwise the text comes back unchanged. In both cases the result is a contiguous piece of the text and no longer than it |
| JsonSpan.ExtractKeepsBraced | DietMitra_final/DietMitra/data.py:101-104 | a text that already starts with `{` and ends with `}` is returned whole |
| JsonSpan.ExtractIdempotent | DietMitra_final/DietMitra/data.py:101-104 | trimming twice gives the same text as trimming once |
| Defaults.DefaultFoodItems | DietMitra_final/DietMitra/data.py:118-290 | "breakfast" gets the 36-food table, "lunch" the 37-food table and every other meal type the 45-food dinner table; each table is returned exactly for its own meal type and for no other |
| Defaults.TablesDiffer | DietMitra_final/DietMitra/data.py:121-290 | the breakfast, lunch and dinner tables hold 36, 37 and 45 foods, so no two of them are the same catalog |
| Defaults.OtherMealsGetDinner | DietMitra_final/DietMitra/data.py:120-228 | any meal type other than "breakfast" and "lunch" falls through to the dinner table |
| Defaults.BreakfastSize | DietMitra_final/DietMitra/data.py:121-172 | the breakfast table holds 36 foods |
| Defaults.LunchSize | DietMitra_final/DietMitra/data.py:174-226 | the lunch table holds 37 foods |
| Defaults.DinnerSize | DietMitra_final/DietMitra/data.py:228-290 | the dinner table holds 45 foods |
| Defaults.LunchHerbsNeverSelected | DietMitra_final/DietMitra/data.py:219-225 | the lunch table's 0-calorie `herbs_and_spices` flattens to the last position, and the selector never picks it, for any budget |
| Defaults.DinnerLentilsTwice | DietMitra_final/DietMitra/data.py:229-259 | the dinner table's two `lentils` entries are distinct items. With a budget covering the whole table, the selection names "lentils" twice |
| Scenarios.ExactFill | DietMitra_final/DietMitra/streamlit_meal_planner.py:375-382 | with foods of 3, 5 and 7 calories and a budget of 10, the best total is 10 |
| Scenarios.OneOfThreeEqual | DietMitra_final/DietMitra/streamlit_meal_planner.py:375-391 | with three 4-calorie foods and a budget of 5, the total is 4 and exactly one food is selected: the first, because ties favour skipping |
| Scenarios.NothingFits | DietMitra_final/DietMitra/streamlit_meal_planner.py:375-391 | a single 11-calorie food under a budget of 10 gives total 0 and no selection |

## Left out

- Page layout, styling, forms, tabs and the markdown download
  (`streamlit_meal_planner.py` outside `knapsack`). These are presentation
  only.
- The calorie-needs formula, unit conversions and the 30/40/30 meal split
  with `round`/`int`. These are floating-point arithmetic upstream of the
  selector. The budget arrives as an integer parameter.
- The calls to the text-generation service, `json.loads`, and the
  error-handling and fallback flow around them (`data.py` lines 21-27 and
  90-115). These are foreign calls and I/O. The model covers only the
  trimming step between the reply and the parser.
- Calorie values that are negative, fractional or not numbers, which a
  generated catalog could contain. Calories are typed `nat`, so the model
  covers only well-formed catalogs.
- Python dict keys are unique, but the sequence-based catalog allows a
  repeated food name inside one category. No category of the three
  fallback tables repeats a food name; the model does not prove this.
- `st.cache_data` memoisation and the runtime package install.
- `recipe.py`. It only builds a prompt and calls a client library.
- The time and memory cost of the table, O(n × budget).
- Defaults.DinnerLentilsTwice: the budget is required to cover the whole
  dinner table, whose calories add up to 4589. This total is not computed
  in the proof; the requirement is stated as the sum itself.
