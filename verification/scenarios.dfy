/** Small worked selections: what the table and the backward walk give on
    three-item and one-item lists. */
module Scenarios {
  import opened Catalog
  import opened Selector

  /** 3 + 7 fills a budget of 10 exactly, so the best total is 10. */
  lemma ExactFill()
    ensures Best([Item(3, "a"), Item(5, "b"), Item(7, "c")], 3, 10) == 10
  {
  }

  /** Three items of 4 calories under a budget of 5: only one fits. The
      strict test skips `z` and `y` (their cells equal the cells above) and
      the walk records exactly one item, the first. */
  lemma OneOfThreeEqual()
    ensures var items := [Item(4, "x"), Item(4, "y"), Item(4, "z")];
      Best(items, 3, 5) == 4 && Taken(items, 3, 5) == [0]
  {
  }

  /** A single item larger than the budget: nothing is selected. */
  lemma NothingFits()
    ensures var items := [Item(11, "p")];
      Best(items, 1, 10) == 0 && Taken(items, 1, 10) == []
  {
  }
}
