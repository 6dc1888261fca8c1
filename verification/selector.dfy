/** The calorie-budgeted 0/1-knapsack selector (`knapsack` in the meal
    planner): each item's weight and value are both its calorie count.

    `Best` is the recursive specification of a table cell, `PickSum` the
    independent notion of "the calories of a subset", and `Taken` the
    item indices the backward walk records. The method `Knapsack` is the
    imperative two-dimensional table fill and reconstruction. */
module Selector {
  import opened Catalog

  /** What `knapsack` yields: the selected names and `dp[n][budget]`, or
      the IndexError Python raises when the budget is negative (every row
      of the table is then empty). */
  datatype Outcome = Selection(names: seq<string>, total: nat) | IndexError

  function Max(a: nat, b: nat): nat {
    if a >= b then a else b
  }

  /** Calories of the items of `pick` among the first `i` items; `pick` is
      any set of indices, the ones at or beyond `i` do not count. */
  function PickSum(items: seq<Item>, pick: set<nat>, i: nat): nat
    requires i <= |items|
  {
    if i == 0 then 0
    else PickSum(items, pick, i - 1) + (if i - 1 in pick then items[i - 1].calories else 0)
  }

  /** The best total reachable with the first `i` items within budget `j`:
      the skip/take recurrence. `BestOptimal` and `TakenSum` show that it
      is the maximum subset sum not exceeding `j`. */
  ghost function Best(items: seq<Item>, i: nat, j: nat): (r: nat)
    requires i <= |items|
    ensures r <= j
  {
    if i == 0 then 0
    else
      var c := items[i - 1].calories;
      if c > j then Best(items, i - 1, j)
      else Max(Best(items, i - 1, j), Best(items, i - 1, j - c) + c)
  }

  /** The indices the backward walk records from cell `(i, j)`: item `i`
      counts as taken only when its row differs from the row above. */
  ghost function Taken(items: seq<Item>, i: nat, j: nat): (r: seq<nat>)
    requires i <= |items|
    ensures forall p :: 0 <= p < |r| ==> r[p] < i
  {
    if i == 0 then []
    else if Best(items, i, j) != Best(items, i - 1, j) then
      [i - 1] + Taken(items, i - 1, j - items[i - 1].calories)
    else Taken(items, i - 1, j)
  }

  /** The walk records each index at most once, highest first (so names
      come out in reverse catalog order), and only items that have positive
      calories and fit the budget of their cell. */
  lemma {:induction false} TakenShape(items: seq<Item>, i: nat, j: nat)
    requires i <= |items|
    ensures forall p, q :: 0 <= p < q < |Taken(items, i, j)| ==> Taken(items, i, j)[q] < Taken(items, i, j)[p]
    ensures forall p :: 0 <= p < |Taken(items, i, j)| ==> 0 < items[Taken(items, i, j)[p]].calories <= j
  {
    if i > 0 {
      var c := items[i - 1].calories;
      if Best(items, i, j) != Best(items, i - 1, j) {
        TakenShape(items, i - 1, j - c);
        var rest := Taken(items, i - 1, j - c);
        assert Taken(items, i, j) == [i - 1] + rest;
        assert 0 < c <= j;
        var t := [i - 1] + rest;
        forall p, q | 0 <= p < q < |t|
          ensures t[q] < t[p]
        {
          assert t[q] == rest[q - 1];
          if p > 0 {
            assert t[p] == rest[p - 1];
          }
        }
        forall p | 0 <= p < |t|
          ensures 0 < items[t[p]].calories <= j
        {
          if p > 0 {
            assert t[p] == rest[p - 1];
          }
        }
      } else {
        TakenShape(items, i - 1, j);
        assert Taken(items, i, j) == Taken(items, i - 1, j);
      }
    }
  }

  predicate InRange(items: seq<Item>, idx: seq<nat>) {
    forall p :: 0 <= p < |idx| ==> idx[p] < |items|
  }

  /** Calories of the items at the given indices. */
  function SumAt(items: seq<Item>, idx: seq<nat>): nat
    requires InRange(items, idx)
  {
    if idx == [] then 0 else items[idx[0]].calories + SumAt(items, idx[1..])
  }

  /** Names of the items at the given indices, in the same order. */
  function NamesAt(items: seq<Item>, idx: seq<nat>): seq<string>
    requires InRange(items, idx)
  {
    if idx == [] then [] else [items[idx[0]].name] + NamesAt(items, idx[1..])
  }

  /** The `p`-th recorded name is the name of the `p`-th recorded index. */
  lemma {:induction false} NamesAtIndex(items: seq<Item>, idx: seq<nat>, p: nat)
    requires InRange(items, idx) && p < |idx|
    ensures |NamesAt(items, idx)| == |idx|
    ensures NamesAt(items, idx)[p] == items[idx[p]].name
  {
    if p > 0 {
      NamesAtIndex(items, idx[1..], p - 1);
    } else {
      NamesAtLength(items, idx);
    }
  }

  lemma {:induction false} NamesAtLength(items: seq<Item>, idx: seq<nat>)
    requires InRange(items, idx)
    ensures |NamesAt(items, idx)| == |idx|
  {
    if idx != [] {
      NamesAtLength(items, idx[1..]);
    }
  }

  /** A 0-calorie item is never recorded: taking it would leave its cell
      equal to the cell above, and the test is a strict inequality. */
  lemma ZeroCaloriesNeverTaken(items: seq<Item>, i: nat, j: nat, k: nat)
    requires i <= |items| && k < |items| && items[k].calories == 0
    ensures k !in Taken(items, i, j)
  {
    TakenShape(items, i, j);
  }

  /** An item whose calories exceed the budget is never recorded. */
  lemma OversizedNeverTaken(items: seq<Item>, i: nat, j: nat, k: nat)
    requires i <= |items| && k < |items| && items[k].calories > j
    ensures k !in Taken(items, i, j)
  {
    TakenShape(items, i, j);
  }

  /** Feasibility of the walk: the recorded items add up to the cell. */
  lemma {:induction false} TakenSum(items: seq<Item>, i: nat, j: nat)
    requires i <= |items|
    ensures SumAt(items, Taken(items, i, j)) == Best(items, i, j)
  {
    if i > 0 {
      var c := items[i - 1].calories;
      if Best(items, i, j) != Best(items, i - 1, j) {
        var rest := Taken(items, i - 1, j - c);
        TakenSum(items, i - 1, j - c);
        assert Taken(items, i, j) == [i - 1] + rest;
        assert ([i - 1] + rest)[1..] == rest;
        assert SumAt(items, [i - 1] + rest) == c + SumAt(items, rest);
        assert Best(items, i, j) == Best(items, i - 1, j - c) + c;
      } else {
        TakenSum(items, i - 1, j);
      }
    }
  }

  /** The set of indices a walk records. */
  function Chosen(idx: seq<nat>): set<nat> {
    set p | p in idx
  }

  /** `PickSum` up to `i` only looks at the indices below `i`. */
  lemma {:induction false} PickSumBelow(items: seq<Item>, a: set<nat>, b: set<nat>, i: nat)
    requires i <= |items|
    requires forall k: nat :: k < i ==> (k in a <==> k in b)
    ensures PickSum(items, a, i) == PickSum(items, b, i)
  {
    if i > 0 {
      PickSumBelow(items, a, b, i - 1);
    }
  }

  /** The recorded indices form a subset of the first `i` items whose sum is
      `Best(i, j)`: together with `BestOptimal`, `Best` is exactly the
      largest subset sum that fits. */
  lemma {:induction false} TakenPick(items: seq<Item>, i: nat, j: nat)
    requires i <= |items|
    ensures PickSum(items, Chosen(Taken(items, i, j)), i) == Best(items, i, j)
  {
    if i > 0 {
      var c := items[i - 1].calories;
      var s := Chosen(Taken(items, i, j));
      if Best(items, i, j) != Best(items, i - 1, j) {
        var rest := Taken(items, i - 1, j - c);
        TakenPick(items, i - 1, j - c);
        assert Taken(items, i, j) == [i - 1] + rest;
        assert s == Chosen(rest) + {i - 1};
        PickSumBelow(items, s, Chosen(rest), i - 1);
      } else {
        TakenPick(items, i - 1, j);
        assert Taken(items, i, j) == Taken(items, i - 1, j);
        assert i - 1 !in s;
      }
    }
  }

  /** Optimality: no subset of the first `i` items fits in `j` with a
      larger total than `Best`. */
  lemma {:induction false} BestOptimal(items: seq<Item>, pick: set<nat>, i: nat, j: nat)
    requires i <= |items|
    requires PickSum(items, pick, i) <= j
    ensures PickSum(items, pick, i) <= Best(items, i, j)
  {
    if i > 0 {
      var c := items[i - 1].calories;
      if i - 1 in pick {
        BestOptimal(items, pick, i - 1, j - c);
      } else {
        BestOptimal(items, pick, i - 1, j);
      }
    }
  }

  /** A larger budget never gives a smaller total. */
  lemma {:induction false} BestMonotone(items: seq<Item>, i: nat, j1: nat, j2: nat)
    requires i <= |items| && j1 <= j2
    ensures Best(items, i, j1) <= Best(items, i, j2)
  {
    if i > 0 {
      var c := items[i - 1].calories;
      BestMonotone(items, i - 1, j1, j2);
      if c <= j1 {
        BestMonotone(items, i - 1, j1 - c, j2 - c);
      }
    }
  }

  /** Sum of the calories of the first `i` items. */
  function PrefixTotal(items: seq<Item>, i: nat): nat
    requires i <= |items|
  {
    if i == 0 then 0 else PrefixTotal(items, i - 1) + items[i - 1].calories
  }

  /** Indices below `i` of the items with positive calories, highest first. */
  function PositiveDesc(items: seq<Item>, i: nat): seq<nat>
    requires i <= |items|
  {
    if i == 0 then []
    else if items[i - 1].calories > 0 then [i - 1] + PositiveDesc(items, i - 1)
    else PositiveDesc(items, i - 1)
  }

  lemma {:induction false} PositiveDescMembers(items: seq<Item>, i: nat, k: nat)
    requires i <= |items|
    ensures k in PositiveDesc(items, i) <==> (k < i && items[k].calories > 0)
  {
    if i > 0 {
      PositiveDescMembers(items, i - 1, k);
    }
  }

  /** When the whole prefix fits in the budget, the best total is the
      whole prefix. */
  lemma {:induction false} BestWhenAllFit(items: seq<Item>, i: nat, j: nat)
    requires i <= |items| && PrefixTotal(items, i) <= j
    ensures Best(items, i, j) == PrefixTotal(items, i)
  {
    if i > 0 {
      var c := items[i - 1].calories;
      BestWhenAllFit(items, i - 1, j);
      BestWhenAllFit(items, i - 1, j - c);
      assert Best(items, i, j) == Max(Best(items, i - 1, j), Best(items, i - 1, j - c) + c);
    }
  }

  /** When the whole prefix fits in the budget, the walk takes exactly the
      items with positive calories; a 0-calorie item is skipped even then. */
  lemma {:induction false} TakenWhenAllFit(items: seq<Item>, i: nat, j: nat)
    requires i <= |items| && PrefixTotal(items, i) <= j
    ensures Taken(items, i, j) == PositiveDesc(items, i)
  {
    if i > 0 {
      var c := items[i - 1].calories;
      assert PrefixTotal(items, i) == PrefixTotal(items, i - 1) + c;
      BestWhenAllFit(items, i, j);
      BestWhenAllFit(items, i - 1, j);
      if c > 0 {
        TakenWhenAllFit(items, i - 1, j - c);
        assert Taken(items, i, j) == [i - 1] + Taken(items, i - 1, j - c);
        assert PositiveDesc(items, i) == [i - 1] + PositiveDesc(items, i - 1);
      } else {
        TakenWhenAllFit(items, i - 1, j);
        assert Taken(items, i, j) == Taken(items, i - 1, j);
        assert PositiveDesc(items, i) == PositiveDesc(items, i - 1);
      }
    }
  }

  /** When every item fits, two items with positive calories are both
      named in the selection, the later one first. */
  lemma BothSelectedWhenAllFit(items: seq<Item>, budget: nat, k1: nat, k2: nat)
    requires k1 < k2 < |items| && items[k1].calories > 0 && items[k2].calories > 0
    requires PrefixTotal(items, |items|) <= budget
    ensures var names := NamesAt(items, Taken(items, |items|, budget));
      exists p, q :: 0 <= p < q < |names| && names[p] == items[k2].name && names[q] == items[k1].name
  {
    var n := |items|;
    TakenWhenAllFit(items, n, budget);
    var t := Taken(items, n, budget);
    PositiveDescMembers(items, n, k1);
    PositiveDescMembers(items, n, k2);
    var p :| 0 <= p < |t| && t[p] == k2;
    var q :| 0 <= q < |t| && t[q] == k1;
    TakenShape(items, n, budget);
    assert p < q;
    NamesAtIndex(items, t, p);
    NamesAtIndex(items, t, q);
  }

  /** One step of the backward walk from `(k, j)` keeps the names recorded
      so far plus the rest of the walk equal to the whole walk. */
  lemma WalkStep(items: seq<Item>, k: nat, j: nat, selected: seq<string>, whole: seq<string>)
    requires 0 < k <= |items|
    requires selected + NamesAt(items, Taken(items, k, j)) == whole
    ensures Best(items, k, j) != Best(items, k - 1, j) ==>
      && items[k - 1].calories <= j
      && (selected + [items[k - 1].name]) + NamesAt(items, Taken(items, k - 1, j - items[k - 1].calories)) == whole
    ensures Best(items, k, j) == Best(items, k - 1, j) ==>
      selected + NamesAt(items, Taken(items, k - 1, j)) == whole
  {
    if Best(items, k, j) != Best(items, k - 1, j) {
      var rest := Taken(items, k - 1, j - items[k - 1].calories);
      assert Taken(items, k, j) == [k - 1] + rest;
      assert ([k - 1] + rest)[1..] == rest;
      assert NamesAt(items, [k - 1] + rest) == [items[k - 1].name] + NamesAt(items, rest);
    }
  }

  /** The table fill: row 0 stays all zero and row `i` is computed from
      row `i - 1` by the skip/take transition, so every cell ends up holding
      `Best` of its prefix and sub-budget. */
  method FillTable(items: seq<Item>, budget: nat) returns (dp: array2<nat>)
    ensures dp.Length0 == |items| + 1 && dp.Length1 == budget + 1
    ensures forall a, b :: 0 <= a <= |items| && 0 <= b <= budget ==> dp[a, b] == Best(items, a, b)
  {
    var n := |items|;
    dp := new nat[n + 1, budget + 1]((a, b) => 0);
    var i := 1;
    while i <= n
      invariant 1 <= i <= n + 1
      invariant forall a, b :: 0 <= a < i && 0 <= b <= budget ==> dp[a, b] == Best(items, a, b)
    {
      FillRow(items, dp, i, budget);
      i := i + 1;
    }
  }

  /** Row `i` of the table, one sub-budget `j` at a time, from the row above. */
  method FillRow(items: seq<Item>, dp: array2<nat>, i: nat, budget: nat)
    requires 0 < i <= |items|
    requires dp.Length0 == |items| + 1 && dp.Length1 == budget + 1
    requires forall a, b :: 0 <= a < i && 0 <= b <= budget ==> dp[a, b] == Best(items, a, b)
    modifies dp
    ensures forall a, b :: 0 <= a <= i && 0 <= b <= budget ==> dp[a, b] == Best(items, a, b)
    ensures forall a, b :: i < a <= |items| && 0 <= b <= budget ==> dp[a, b] == old(dp[a, b])
  {
    var j := 0;
    while j <= budget
      invariant 0 <= j <= budget + 1
      invariant forall a, b :: i < a <= |items| && 0 <= b <= budget ==> dp[a, b] == old(dp[a, b])
      invariant forall a, b :: 0 <= a < i && 0 <= b <= budget ==> dp[a, b] == Best(items, a, b)
      invariant forall b :: 0 <= b < j ==> dp[i, b] == Best(items, i, b)
    {
      var value := items[i - 1].calories;
      var cell: nat;
      if value > j {
        cell := dp[i - 1, j];
      } else {
        cell := Max(dp[i - 1, j], dp[i - 1, j - value] + value);
      }
      assert cell == Best(items, i, j);
      dp[i, j] := cell;
      j := j + 1;
    }
  }

  /** The backward walk over a filled table: from `(n, budget)` down to
      row 1, record item `i` and spend its calories whenever its row
      differs from the row above. */
  method Walk(items: seq<Item>, dp: array2<nat>, budget: nat) returns (selected: seq<string>)
    requires dp.Length0 == |items| + 1 && dp.Length1 == budget + 1
    requires forall a, b :: 0 <= a <= |items| && 0 <= b <= budget ==> dp[a, b] == Best(items, a, b)
    ensures selected == NamesAt(items, Taken(items, |items|, budget))
  {
    var n := |items|;
    selected := [];
    var j: nat := budget;
    var k := n;
    while k > 0
      invariant 0 <= k <= n && j <= budget
      invariant selected + NamesAt(items, Taken(items, k, j)) == NamesAt(items, Taken(items, n, budget))
    {
      ghost var whole := NamesAt(items, Taken(items, n, budget));
      WalkStep(items, k, j, selected, whole);
      assert dp[k, j] == Best(items, k, j) && dp[k - 1, j] == Best(items, k - 1, j);
      if dp[k, j] != dp[k - 1, j] {
        selected := selected + [items[k - 1].name];
        j := j - items[k - 1].calories;
      }
      k := k - 1;
    }
    assert Taken(items, 0, j) == [];
  }

  /** The selector: flatten the catalog, fill the `(n+1) x (budget+1)`
      table, walk back from `(n, budget)` and return the names with
      `dp[n][budget]`. */
  method Knapsack(budget: int, catalog: Catalog) returns (r: Outcome)
    ensures budget < 0 ==> r == IndexError
    ensures budget >= 0 ==> r.Selection? && r.total <= budget
    ensures budget >= 0 ==> r == Selection(NamesAt(Flatten(catalog), Taken(Flatten(catalog), |Flatten(catalog)|, budget)),
                                           Best(Flatten(catalog), |Flatten(catalog)|, budget))
    ensures budget >= 0 ==> (r.Selection? &&
      SumAt(Flatten(catalog), Taken(Flatten(catalog), |Flatten(catalog)|, budget)) == r.total)
    ensures budget >= 0 ==> (r.Selection? &&
      forall pick: set<nat> :: PickSum(Flatten(catalog), pick, |Flatten(catalog)|) <= budget
        ==> PickSum(Flatten(catalog), pick, |Flatten(catalog)|) <= r.total)
    ensures (budget == 0 || (budget > 0 && Flatten(catalog) == [])) ==> r == Selection([], 0)
  {
    if budget < 0 {
      return IndexError;
    }
    var items := Flatten(catalog);
    var dp := FillTable(items, budget);
    var selected := Walk(items, dp, budget);
    if budget == 0 {
      TakenShape(items, |items|, 0);
    }
    TakenSum(items, |items|, budget);
    forall pick: set<nat> | PickSum(items, pick, |items|) <= budget
      ensures PickSum(items, pick, |items|) <= Best(items, |items|, budget)
    {
      BestOptimal(items, pick, |items|, budget);
    }
    r := Selection(selected, dp[|items|, budget]);
  }
}
