/** The food catalog handed to the selector and its flattening into the
    ordered list of `(calories, item)` pairs the dynamic program works on.

    A catalog is a mapping category -> {item -> calories}. Python dicts keep
    insertion order, so the model keeps both levels as sequences: the order
    of the flattened list is then fixed by the catalog itself. */
module Catalog {

  /** One entry `name: calories` of a category. */
  datatype Food = Food(name: string, calories: nat)

  /** One category with its foods in insertion order. */
  datatype Group = Group(category: string, foods: seq<Food>)

  type Catalog = seq<Group>

  /** A flattened entry: the `(calories, item)` tuple of the selector. */
  datatype Item = Item(calories: nat, name: string)

  function ToItem(f: Food): Item {
    Item(f.calories, f.name)
  }

  /** Number of foods in the first `g` categories: the position in the
      flattened list where category `g` starts. */
  function Offset(c: Catalog, g: nat): nat
    requires g <= |c|
  {
    if g == 0 then 0 else Offset(c, g - 1) + |c[g - 1].foods|
  }

  /** The inner loop of the flattening: one category's foods, in order. */
  function FoodItems(foods: seq<Food>): seq<Item> {
    seq(|foods|, f requires 0 <= f < |foods| => ToItem(foods[f]))
  }

  /** The flattening of the first `g` categories: each category appends its
      foods, in order, after those of the categories before it. */
  function FlattenUpTo(c: Catalog, g: nat): (items: seq<Item>)
    requires g <= |c|
    ensures |items| == Offset(c, g)
  {
    if g == 0 then [] else FlattenUpTo(c, g - 1) + FoodItems(c[g - 1].foods)
  }

  /** The `(calories, item)` list the selector works on. */
  function Flatten(c: Catalog): (items: seq<Item>)
    ensures |items| == Offset(c, |c|)
  {
    FlattenUpTo(c, |c|)
  }

  lemma {:induction false} OffsetMonotone(c: Catalog, g: nat, n: nat)
    requires g <= n <= |c|
    ensures Offset(c, g) <= Offset(c, n)
  {
    if g < n {
      OffsetMonotone(c, g, n - 1);
    }
  }

  lemma {:induction false} FlattenUpToAt(c: Catalog, n: nat, g: nat, f: nat)
    requires g < n <= |c| && f < |c[g].foods|
    ensures Offset(c, g) + f < |FlattenUpTo(c, n)|
    ensures FlattenUpTo(c, n)[Offset(c, g) + f] == ToItem(c[g].foods[f])
  {
    if g < n - 1 {
      FlattenUpToAt(c, n - 1, g, f);
      OffsetMonotone(c, n - 1, n);
    }
  }

  /** Food `f` of category `g` lands at position `Offset(c, g) + f`: the
      flattened order is category order, then food order within a category. */
  lemma FlattenAt(c: Catalog, g: nat, f: nat)
    requires g < |c| && f < |c[g].foods|
    ensures Offset(c, g) + f < |Flatten(c)|
    ensures Flatten(c)[Offset(c, g) + f] == ToItem(c[g].foods[f])
  {
    FlattenUpToAt(c, |c|, g, f);
  }

  lemma {:induction false} FlattenUpToOrigin(c: Catalog, n: nat, k: nat)
    requires n <= |c| && k < |FlattenUpTo(c, n)|
    ensures exists g, f :: 0 <= g < n && 0 <= f < |c[g].foods|
                           && k == Offset(c, g) + f && FlattenUpTo(c, n)[k] == ToItem(c[g].foods[f])
  {
    if k < Offset(c, n - 1) {
      FlattenUpToOrigin(c, n - 1, k);
      var g, f :| 0 <= g < n - 1 && 0 <= f < |c[g].foods|
                  && k == Offset(c, g) + f && FlattenUpTo(c, n - 1)[k] == ToItem(c[g].foods[f]);
      assert FlattenUpTo(c, n)[k] == ToItem(c[g].foods[f]);
    } else {
      var f := k - Offset(c, n - 1);
      assert FlattenUpTo(c, n)[k] == ToItem(c[n - 1].foods[f]);
    }
  }

  /** Every flattened position comes from exactly the food `FlattenAt`
      places there. */
  lemma FlattenOrigin(c: Catalog, k: nat)
    requires k < |Flatten(c)|
    ensures exists g, f :: 0 <= g < |c| && 0 <= f < |c[g].foods|
                           && k == Offset(c, g) + f && Flatten(c)[k] == ToItem(c[g].foods[f])
  {
    FlattenUpToOrigin(c, |c|, k);
  }

  lemma {:induction false} FlattenUpToPrefix(a: Catalog, b: Catalog, g: nat)
    requires g <= |a|
    ensures FlattenUpTo(a + b, g) == FlattenUpTo(a, g)
  {
    if g > 0 {
      FlattenUpToPrefix(a, b, g - 1);
      assert (a + b)[g - 1] == a[g - 1];
    }
  }

  lemma {:induction false} FlattenUpToSuffix(a: Catalog, b: Catalog, k: nat)
    requires k <= |b|
    ensures FlattenUpTo(a + b, |a| + k) == Flatten(a) + FlattenUpTo(b, k)
  {
    if k == 0 {
      FlattenUpToPrefix(a, b, |a|);
    } else {
      FlattenUpToSuffix(a, b, k - 1);
      var tail := FoodItems(b[k - 1].foods);
      assert (a + b)[|a| + k - 1] == b[k - 1];
      assert FlattenUpTo(a + b, |a| + k) == FlattenUpTo(a + b, |a| + k - 1) + tail;
      assert FlattenUpTo(b, k) == FlattenUpTo(b, k - 1) + tail;
      assert (Flatten(a) + FlattenUpTo(b, k - 1)) + tail == Flatten(a) + (FlattenUpTo(b, k - 1) + tail);
    }
  }

  /** Flattening distributes over concatenation of catalogs: a category
      placed later contributes its items later. */
  lemma FlattenAppend(a: Catalog, b: Catalog)
    ensures Flatten(a + b) == Flatten(a) + Flatten(b)
  {
    FlattenUpToSuffix(a, b, |b|);
  }
}
