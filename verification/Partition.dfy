/** The worked example: exhaustive enumeration of all splits by bit masks, and the greedy that is wrong. */
module Partition {
  import opened Prelude

  // ---------------------------------------------------------------- all splits

  function Sum(a: seq<int>): int { if a == [] then 0 else Sum(a[..|a| - 1]) + a[|a| - 1] }

  /** The sum of the items chosen for one group: item i goes there when choice[i] holds. */
  function Chosen(a: seq<int>, choice: seq<bool>): int
    requires |choice| == |a|
  {
    if a == [] then 0
    else Chosen(a[..|a| - 1], choice[..|a| - 1]) + if choice[|a| - 1] then a[|a| - 1] else 0
  }

  /** How far apart the two groups are. */
  function Gap(a: seq<int>, choice: seq<bool>): nat
    requires |choice| == |a|
  {
    Abs(Sum(a) - 2 * Chosen(a, choice))
  }

  /** The best value any of the 2^n splits reaches. */
  ghost predicate Optimal(a: seq<int>, best: int) {
    && (exists choice :: |choice| == |a| && Gap(a, choice) == best)
    && forall choice :: |choice| == |a| ==> best <= Gap(a, choice)
  }

  // ------------------------------------------------------------------ bit masks

  /** Bit i of the mask: mask & (1 << i) is nonzero. */
  predicate Bit(mask: nat, i: nat) {
    if i == 0 then mask % 2 == 1 else Bit(mask / 2, i - 1)
  }

  function Choice(mask: nat, n: nat): seq<bool> { seq(n, i requires 0 <= i => Bit(mask, i)) }

  function Mask(choice: seq<bool>): nat {
    if choice == [] then 0 else (if choice[0] then 1 else 0) + 2 * Mask(choice[1..])
  }

  lemma {:induction false} BitOfMask(choice: seq<bool>, i: nat)
    requires i < |choice|
    ensures Bit(Mask(choice), i) == choice[i]
  {
    assert Mask(choice) / 2 == Mask(choice[1..]);
    if i > 0 { BitOfMask(choice[1..], i - 1); }
  }

  lemma {:induction false} MaskInRange(choice: seq<bool>)
    ensures Mask(choice) < Pow(2, |choice|)
  {
    if choice != [] { MaskInRange(choice[1..]); }
  }

  /** The loop over masks meets every split. */
  lemma EveryChoiceHasAMask(choice: seq<bool>)
    ensures Mask(choice) < Pow(2, |choice|) && Choice(Mask(choice), |choice|) == choice
  {
    MaskInRange(choice);
    forall i: nat | i < |choice| ensures Choice(Mask(choice), |choice|)[i] == choice[i] {
      BitOfMask(choice, i);
    }
  }

  // ---------------------------------------------------------- correct.cpp

  method SumUp(a: seq<int>) returns (total: int)
    ensures total == Sum(a)
  {
    total := 0;
    for i := 0 to |a|
      invariant total == Sum(a[..i])
    {
      assert a[..i + 1][..i] == a[..i];
      total := total + a[i];
    }
    assert a[..|a|] == a;
  }

  method SumOfMask(a: seq<int>, mask: nat) returns (sum: int)
    ensures sum == Chosen(a, Choice(mask, |a|))
  {
    sum := 0;
    for i := 0 to |a|
      invariant sum == Chosen(a[..i], Choice(mask, i))
    {
      assert a[..i + 1][..i] == a[..i] && Choice(mask, i + 1)[..i] == Choice(mask, i);
      if Bit(mask, i) { sum := sum + a[i]; }
    }
    assert a[..|a|] == a;
  }

  /**
   The enumeration; 1 << n fits its 32-bit type up to n == 30. The best value starts at the total, so
   the answer is the optimum exactly when the total is not negative.
   */
  method BestSplit(a: seq<int>) returns (best: int)
    requires |a| <= 30
    ensures Optimal(a, best) <==> Sum(a) >= 0
    ensures Sum(a) < 0 ==> best == Sum(a)
  {
    var n := |a|;
    var total := SumUp(a);
    best := total;
    ghost var reached := seq(n, i => false);
    NothingChosen(a, reached);
    var mask, masks := 0, Pow(2, n);
    while mask < masks
      invariant 0 <= mask <= masks
      invariant best <= total && |reached| == n
      invariant forall m: nat :: m < mask ==> best <= Gap(a, Choice(m, n))
      invariant if best == total then total >= 0 ==> Gap(a, reached) == best else Gap(a, reached) == best
    {
      var sum := SumOfMask(a, mask);
      var gap := Abs(total - 2 * sum);
      if gap < best { reached := Choice(mask, n); }
      best := Min(best, gap);
      mask := mask + 1;
    }
    forall choice: seq<bool> | |choice| == n ensures best <= Gap(a, choice) {
      EveryChoiceHasAMask(choice);
    }
    if total >= 0 {
      assert Gap(a, reached) == best;
    } else {
      assert best == total;
    }
  }

  lemma {:induction false} NothingChosen(a: seq<int>, choice: seq<bool>)
    requires |choice| == |a| && forall i :: 0 <= i < |a| ==> !choice[i]
    ensures Chosen(a, choice) == 0
  {
    if a != [] { NothingChosen(a[..|a| - 1], choice[..|a| - 1]); }
  }

  // --------------------------------------------------------- solution.cpp

  ghost predicate Descending(a: seq<int>) {
    forall i, j :: 0 <= i <= j < |a| ==> a[i] >= a[j]
  }

  function Insert(a: seq<int>, x: int): (b: seq<int>)
    ensures |b| == |a| + 1
  {
    if a == [] || a[|a| - 1] >= x then a + [x] else Insert(a[..|a| - 1], x) + [a[|a| - 1]]
  }

  /** The result of the library sort with the greater-than order. */
  function Sorted(a: seq<int>): (b: seq<int>)
    ensures |b| == |a|
  {
    if a == [] then [] else Insert(Sorted(a[..|a| - 1]), a[|a| - 1])
  }

  lemma {:induction false} InsertAdds(a: seq<int>, x: int)
    ensures multiset(Insert(a, x)) == multiset(a) + multiset{x}
  {
    if a != [] && a[|a| - 1] < x {
      InsertAdds(a[..|a| - 1], x);
      assert a == a[..|a| - 1] + [a[|a| - 1]];
    }
  }

  lemma {:induction false} InsertKeepsOrder(a: seq<int>, x: int)
    requires Descending(a)
    ensures Descending(Insert(a, x))
  {
    if a != [] && a[|a| - 1] < x {
      var init, last := a[..|a| - 1], a[|a| - 1];
      InsertKeepsOrder(init, x);
      InsertAdds(init, x);
      var b := Insert(init, x);
      forall i | 0 <= i < |b| ensures b[i] >= last {
        assert b[i] in multiset(b);
        assert b[i] == x || b[i] in init;
      }
    }
  }

  lemma {:induction false} SortedIsSorted(a: seq<int>)
    ensures Descending(Sorted(a)) && multiset(Sorted(a)) == multiset(a)
  {
    if a != [] {
      var init := a[..|a| - 1];
      SortedIsSorted(init);
      InsertAdds(Sorted(init), a[|a| - 1]);
      InsertKeepsOrder(Sorted(init), a[|a| - 1]);
      assert a == init + [a[|a| - 1]];
    }
  }

  /** The two group sums after dropping each item into the group that is currently lighter. */
  function Greedy(a: seq<int>): (groups: (int, int)) {
    if a == [] then (0, 0)
    else
      var (groupA, groupB) := Greedy(a[..|a| - 1]);
      if groupA <= groupB then (groupA + a[|a| - 1], groupB) else (groupA, groupB + a[|a| - 1])
  }

  function GreedyGap(a: seq<int>): nat {
    var (groupA, groupB) := Greedy(Sorted(a));
    Abs(groupA - groupB)
  }

  method GreedySplit(a: array<int>) returns (answer: int)
    modifies a
    ensures a[..] == Sorted(old(a[..]))
    ensures answer == GreedyGap(old(a[..]))
  {
    var sorted := Sorted(a[..]);
    forall i | 0 <= i < a.Length { a[i] := sorted[i]; }
    assert a[..] == sorted;
    var groupA, groupB := 0, 0;
    for i := 0 to a.Length
      invariant a[..] == sorted && (groupA, groupB) == Greedy(sorted[..i])
    {
      assert sorted[..i + 1][..i] == sorted[..i];
      if groupA <= groupB {
        groupA := groupA + a[i];
      } else {
        groupB := groupB + a[i];
      }
    }
    assert sorted[..a.Length] == sorted;
    answer := Abs(groupA - groupB);
  }

  /** The greedy's groups are one of the splits. */
  lemma {:induction false} GreedyIsASplit(a: seq<int>) returns (choice: seq<bool>)
    ensures |choice| == |a| && Chosen(a, choice) == Greedy(a).0
    ensures Greedy(a).0 + Greedy(a).1 == Sum(a)
  {
    if a == [] {
      choice := [];
    } else {
      var init := a[..|a| - 1];
      var rest := GreedyIsASplit(init);
      choice := rest + [Greedy(init).0 <= Greedy(init).1];
      assert choice[..|a| - 1] == rest;
    }
  }

  /** A split after inserting an item is a split before it plus a group for the item. */
  lemma {:induction false} SplitBeforeInsert(a: seq<int>, x: int, choice: seq<bool>) returns (rest: seq<bool>, b: bool)
    requires |choice| == |a| + 1
    ensures |rest| == |a|
    ensures Chosen(Insert(a, x), choice) == Chosen(a, rest) + if b then x else 0
    ensures Sum(Insert(a, x)) == Sum(a) + x
  {
    var n := |a|;
    rest, b := choice[..n], choice[n];
    if n == 0 || a[n - 1] >= x {
      assert (a + [x])[..n] == a;
    } else {
      var inner, c := SplitBeforeInsert(a[..n - 1], x, choice[..n]);
      assert Insert(a, x)[..n] == Insert(a[..n - 1], x);
      rest := inner + [b];
      assert rest[..n - 1] == inner;
      b := c;
    }
  }

  lemma {:induction false} SplitBeforeSorting(a: seq<int>, choice: seq<bool>) returns (original: seq<bool>)
    requires |choice| == |a|
    ensures |original| == |a| && Chosen(Sorted(a), choice) == Chosen(a, original)
    ensures Sum(Sorted(a)) == Sum(a)
  {
    if a == [] {
      original := [];
    } else {
      var init, x := a[..|a| - 1], a[|a| - 1];
      var rest, b := SplitBeforeInsert(Sorted(init), x, choice);
      var before := SplitBeforeSorting(init, rest);
      original := before + [b];
      assert original[..|a| - 1] == before;
    }
  }

  /** The greedy never beats the optimum, and it misses it by an even amount. */
  lemma GreedyNeverBelowOptimum(a: seq<int>, best: int)
    requires Optimal(a, best)
    ensures best <= GreedyGap(a) && (GreedyGap(a) - best) % 2 == 0
  {
    var choice := GreedyIsASplit(Sorted(a));
    var original := SplitBeforeSorting(a, choice);
    assert GreedyGap(a) == Gap(a, original);
    var optimal :| |optimal| == |a| && Gap(a, optimal) == best;
    SameParity(Sum(a), Chosen(a, original), Chosen(a, optimal));
  }

  lemma SameParity(total: int, x: int, y: int)
    ensures (Abs(total - 2 * x) - Abs(total - 2 * y)) % 2 == 0
  {}

  lemma {:induction false} GreedyStaysBalanced(a: seq<int>, largest: int)
    requires forall x :: x in a ==> 0 <= x <= largest
    requires largest >= 0
    ensures -largest <= Greedy(a).0 - Greedy(a).1 <= largest
  {
    if a != [] {
      var init := a[..|a| - 1];
      assert a[|a| - 1] in a;
      assert forall i :: 0 <= i < |init| ==> init[i] == a[i] && a[i] in a;
      GreedyStaysBalanced(init, largest);
    }
  }

  /** On items that are not negative the answer is at most the largest item. */
  lemma GreedyAtMostLargest(a: seq<int>, largest: int)
    requires forall x :: x in a ==> 0 <= x <= largest
    requires largest >= 0
    ensures GreedyGap(a) <= largest
  {
    SortedIsSorted(a);
    forall x | x in Sorted(a) ensures x in a { assert x in multiset(Sorted(a)); }
    GreedyStaysBalanced(Sorted(a), largest);
  }

  lemma {:induction false} SortedOfDescending(a: seq<int>)
    requires Descending(a)
    ensures Sorted(a) == a
  {
    if a != [] {
      SortedOfDescending(a[..|a| - 1]);
      assert a == a[..|a| - 1] + [a[|a| - 1]];
    }
  }

  /** Appending an item that goes to group `b` in a split, and to the lighter group in the greedy. */
  lemma NextItem(a: seq<int>, choice: seq<bool>, x: int, b: bool) returns (a': seq<int>, choice': seq<bool>)
    requires |choice| == |a|
    ensures a' == a + [x] && choice' == choice + [b]
    ensures Sum(a') == Sum(a) + x && Chosen(a', choice') == Chosen(a, choice) + if b then x else 0
    ensures var (groupA, groupB) := Greedy(a);
            Greedy(a') == if groupA <= groupB then (groupA + x, groupB) else (groupA, groupB + x)
  {
    a', choice' := a + [x], choice + [b];
    assert a'[..|a|] == a && choice'[..|a|] == choice;
  }

  // ------------------------------------------------- where the greedy is right

  /** A split before inserting an item, and a group for the item, are a split after it. */
  lemma {:induction false} SplitAfterInsert(a: seq<int>, x: int, choice: seq<bool>, b: bool) returns (after: seq<bool>)
    requires |choice| == |a|
    ensures |after| == |a| + 1
    ensures Chosen(Insert(a, x), after) == Chosen(a, choice) + if b then x else 0
  {
    var n := |a|;
    if n == 0 || a[n - 1] >= x {
      after := choice + [b];
      assert (a + [x])[..n] == a && after[..n] == choice;
    } else {
      var inner := SplitAfterInsert(a[..n - 1], x, choice[..n - 1], b);
      after := inner + [choice[n - 1]];
      assert Insert(a, x)[..n] == Insert(a[..n - 1], x) && after[..n] == inner;
    }
  }

  lemma {:induction false} SplitAfterSorting(a: seq<int>, choice: seq<bool>) returns (after: seq<bool>)
    requires |choice| == |a|
    ensures |after| == |a| && Chosen(Sorted(a), after) == Chosen(a, choice)
  {
    if a == [] {
      after := [];
    } else {
      var n := |a| - 1;
      var before := SplitAfterSorting(a[..n], choice[..n]);
      after := SplitAfterInsert(Sorted(a[..n]), a[n], before, choice[n]);
    }
  }

  /** Sorting does not change what can be reached. */
  lemma OptimalBeforeSorting(a: seq<int>, best: int)
    requires Optimal(Sorted(a), best)
    ensures Optimal(a, best)
  {
    var sorted :| |sorted| == |Sorted(a)| && Gap(Sorted(a), sorted) == best;
    var original := SplitBeforeSorting(a, sorted);
    assert Gap(a, original) == best;
    forall choice: seq<bool> | |choice| == |a| ensures best <= Gap(a, choice) {
      var after := SplitAfterSorting(a, choice);
      assert Gap(Sorted(a), after) == Gap(a, choice);
    }
  }

  function Apart(a: seq<int>): nat { Abs(Greedy(a).0 - Greedy(a).1) }

  /** The greedy is optimal on these items when no split does better. */
  lemma OptimalIfUnbeaten(a: seq<int>)
    requires forall choice :: |choice| == |Sorted(a)| ==> Apart(Sorted(a)) <= Gap(Sorted(a), choice)
    ensures Optimal(a, GreedyGap(a))
  {
    var choice := GreedyIsASplit(Sorted(a));
    assert Gap(Sorted(a), choice) == Apart(Sorted(a));
    OptimalBeforeSorting(a, GreedyGap(a));
  }

  ghost predicate NonNegative(a: seq<int>) { forall i :: 0 <= i < |a| ==> a[i] >= 0 }

  lemma NonNegativeSorted(a: seq<int>)
    requires NonNegative(a)
    ensures NonNegative(Sorted(a)) && Descending(Sorted(a))
  {
    SortedIsSorted(a);
    forall i | 0 <= i < |Sorted(a)| ensures Sorted(a)[i] >= 0 { assert Sorted(a)[i] in multiset(a); }
  }

  /** An item dropped into the lighter group. */
  function Drop(groups: (int, int), x: int): (int, int) {
    if groups.0 <= groups.1 then (groups.0 + x, groups.1) else (groups.0, groups.1 + x)
  }

  function Pick(b: bool, x: int): int { if b then x else 0 }

  /** Item i, or nothing beyond the last. */
  function Item(a: seq<int>, i: nat): int { if i < |a| then a[i] else 0 }

  function Picked(a: seq<int>, choice: seq<bool>, i: nat): (p: int)
    requires |a| == |choice|
    ensures p == 0 || p == Item(a, i)
  {
    if i < |a| then Pick(choice[i], a[i]) else 0
  }

  function Take<T>(a: seq<T>, i: nat): seq<T> { a[..Min(i, |a|)] }

  lemma FirstItems(a: seq<int>, choice: seq<bool>, i: nat)
    requires |a| == |choice|
    ensures Sum(Take(a, i + 1)) == Sum(Take(a, i)) + Item(a, i)
    ensures Chosen(Take(a, i + 1), Take(choice, i + 1)) == Chosen(Take(a, i), Take(choice, i)) + Picked(a, choice, i)
    ensures Greedy(Take(a, i + 1)) == Drop(Greedy(Take(a, i)), Item(a, i))
  {
    if i < |a| { assert a[..i + 1][..i] == a[..i] && choice[..i + 1][..i] == choice[..i]; }
  }

  /** Sums and groups of up to four items, written out; nothing is dropped for an item that is not there. */
  lemma FewWrittenOut(a: seq<int>, choice: seq<bool>)
    requires |a| == |choice| <= 4
    ensures Sum(a) == Item(a, 0) + Item(a, 1) + Item(a, 2) + Item(a, 3)
    ensures Chosen(a, choice) == Picked(a, choice, 0) + Picked(a, choice, 1) + Picked(a, choice, 2) + Picked(a, choice, 3)
    ensures Greedy(a) == Drop(Drop(Drop(Drop((0, 0), Item(a, 0)), Item(a, 1)), Item(a, 2)), Item(a, 3))
  {
    assert Take(a, 0) == [] && Take(choice, 0) == [] && Take(a, 4) == a && Take(choice, 4) == choice;
    FirstItems(a, choice, 0);
    FirstItems(a, choice, 1);
    FirstItems(a, choice, 2);
    FirstItems(a, choice, 3);
  }

  /** Four numbers in descending order: dropping them in turn comes as close as any choice of them. */
  lemma FourNumbers(w: int, x: int, y: int, z: int, pw: int, px: int, py: int, pz: int, groups: (int, int))
    requires w >= x >= y >= z >= 0
    requires (pw == 0 || pw == w) && (px == 0 || px == x) && (py == 0 || py == y) && (pz == 0 || pz == z)
    requires groups == Drop(Drop(Drop(Drop((0, 0), w), x), y), z)
    ensures Abs(groups.0 - groups.1) <= Abs(w + x + y + z - 2 * (pw + px + py + pz))
  {}

  /** Up to four items in descending order no split beats the greedy. */
  lemma FewAreUnbeaten(a: seq<int>, choice: seq<bool>)
    requires |a| == |choice| <= 4 && NonNegative(a) && Descending(a)
    ensures Apart(a) <= Gap(a, choice)
  {
    FewWrittenOut(a, choice);
    FewDescend(a);
    var w, x, y, z := Item(a, 0), Item(a, 1), Item(a, 2), Item(a, 3);
    var pw, px, py, pz := Picked(a, choice, 0), Picked(a, choice, 1), Picked(a, choice, 2), Picked(a, choice, 3);
    FourNumbers(w, x, y, z, pw, px, py, pz, Greedy(a));
    assert Gap(a, choice) == Abs(w + x + y + z - 2 * (pw + px + py + pz));
  }

  lemma FewDescend(a: seq<int>)
    requires |a| <= 4 && NonNegative(a) && Descending(a)
    ensures Item(a, 0) >= Item(a, 1) >= Item(a, 2) >= Item(a, 3) >= 0
  {}

  lemma FewAreOptimal(a: seq<int>)
    requires |a| <= 4 && NonNegative(a)
    ensures Optimal(a, GreedyGap(a))
  {
    NonNegativeSorted(a);
    forall choice: seq<bool> | |choice| == |Sorted(a)| ensures Apart(Sorted(a)) <= Gap(Sorted(a), choice) {
      FewAreUnbeaten(Sorted(a), choice);
    }
    OptimalIfUnbeaten(a);
  }

  /** The group with the first item holds at least that; the other holds at most the rest. */
  lemma {:induction false} FirstItemDecides(a: seq<int>, choice: seq<bool>)
    requires |a| == |choice| >= 1 && NonNegative(a)
    ensures if choice[0] then Chosen(a, choice) >= a[0] else Chosen(a, choice) <= Sum(a) - a[0]
  {
    if |a| > 1 { FirstItemDecides(a[..|a| - 1], choice[..|a| - 1]); }
  }

  lemma {:induction false} RestIsTogether(a: seq<int>)
    requires |a| >= 1 && NonNegative(a) && 2 * a[0] >= Sum(a)
    ensures Greedy(a) == (a[0], Sum(a) - a[0])
  {
    if |a| > 1 { RestIsTogether(a[..|a| - 1]); }
  }

  lemma DominatedIsUnbeaten(a: seq<int>, choice: seq<bool>)
    requires |a| == |choice| >= 1 && NonNegative(a) && 2 * a[0] >= Sum(a)
    ensures Apart(a) <= Gap(a, choice)
  {
    RestIsTogether(a);
    FirstItemDecides(a, choice);
  }

  lemma LargestIsFirst(a: seq<int>, i: nat)
    requires i < |a|
    ensures Sorted(a)[0] >= a[i] && Sum(Sorted(a)) == Sum(a)
  {
    SortedIsSorted(a);
    assert a[i] in multiset(Sorted(a));
    var _ := SplitBeforeSorting(a, seq(|a|, j => false));
  }

  /** When one item is at least as large as the rest together, the greedy is right. */
  lemma DominatedIsOptimal(a: seq<int>, i: nat)
    requires i < |a| && NonNegative(a) && 2 * a[i] >= Sum(a)
    ensures Optimal(a, GreedyGap(a))
  {
    var s := Sorted(a);
    NonNegativeSorted(a);
    LargestIsFirst(a, i);
    forall choice: seq<bool> | |choice| == |s| ensures Apart(s) <= Gap(s, choice) {
      DominatedIsUnbeaten(s, choice);
    }
    OptimalIfUnbeaten(a);
  }

  /** Five items that defeat the greedy, followed by ones that do not make up for it. */
  function Trap(k: nat, ones: nat): seq<int> {
    if ones == 0 then [3 * k, 3 * k, 2 * k, 2 * k, 2 * k] else Trap(k, ones - 1) + [1]
  }

  lemma {:induction false} TrapDescends(k: nat, ones: nat)
    requires k >= 1
    ensures |Trap(k, ones)| == ones + 5 && Descending(Trap(k, ones))
    ensures forall i :: 0 <= i < |Trap(k, ones)| ==> Trap(k, ones)[i] >= 1
  {
    if ones > 0 { TrapDescends(k, ones - 1); }
  }

  lemma FiveItems(k: nat) returns (choice: seq<bool>)
    requires k >= 1
    ensures |choice| == 5 && Greedy(Trap(k, 0)) == (7 * k, 5 * k)
    ensures Sum(Trap(k, 0)) == 12 * k && Chosen(Trap(k, 0), choice) == 6 * k
  {
    var a1, c1 := NextItem([], [], 3 * k, true);
    var a2, c2 := NextItem(a1, c1, 3 * k, true);
    var a3, c3 := NextItem(a2, c2, 2 * k, false);
    var a4, c4 := NextItem(a3, c3, 2 * k, false);
    var a5, c5 := NextItem(a4, c4, 2 * k, false);
    assert a5 == Trap(k, 0);
    choice := c5;
  }

  /** What the greedy makes of these items, and a split that is better. */
  predicate Trapped(a: seq<int>, k: nat, ones: nat, choice: seq<bool>) {
    && |choice| == |a| && Greedy(a) == (7 * k, 5 * k + ones)
    && Sum(a) == 12 * k + ones && Chosen(a, choice) == 6 * k
  }

  /** A one goes to the lighter group, which stays lighter. */
  lemma StillTrapped(a: seq<int>, k: nat, ones: nat, choice: seq<bool>)
    requires Trapped(a, k, ones, choice) && ones < 2 * k
    ensures Trapped(a + [1], k, ones + 1, choice + [false])
  {
    var next, c := NextItem(a, choice, 1, false);
  }

  /** The ones all go to the lighter group, and there are too few of them to even it out. */
  lemma {:induction false} TrapSprings(k: nat, ones: nat) returns (choice: seq<bool>)
    requires k >= 1 && ones <= 2 * k
    ensures Trapped(Trap(k, ones), k, ones, choice)
  {
    if ones == 0 {
      choice := FiveItems(k);
    } else {
      var before := TrapSprings(k, ones - 1);
      StillTrapped(Trap(k, ones - 1), k, ones - 1, before);
      choice := before + [false];
    }
  }

  lemma BeatenIsNotOptimal(a: seq<int>, groups: (int, int), choice: seq<bool>)
    requires Descending(a) && Greedy(a) == groups && |choice| == |a|
    requires Abs(groups.0 - groups.1) > Abs(Sum(a) - 2 * Chosen(a, choice))
    ensures !Optimal(a, GreedyGap(a))
  {
    SortedOfDescending(a);
    assert Gap(a, choice) < GreedyGap(a);
  }

  lemma TrapIsNotOptimal(ones: nat)
    ensures !Optimal(Trap(ones + 1, ones), GreedyGap(Trap(ones + 1, ones)))
  {
    var k := ones + 1;
    TrapDescends(k, ones);
    var choice := TrapSprings(k, ones);
    BeatenIsNotOptimal(Trap(k, ones), (7 * k, 5 * k + ones), choice);
  }

  ghost predicate Positive(a: seq<int>) { forall i :: 0 <= i < |a| ==> a[i] >= 1 }

  lemma TrapIsPositive(n: nat)
    requires n >= 5
    ensures var a := Trap(n - 4, n - 5); |a| == n && Positive(a) && !Optimal(a, GreedyGap(a))
  {
    TrapDescends(n - 4, n - 5);
    TrapIsNotOptimal(n - 5);
  }

  /** The greedy is right on all lists of n positive items if and only if there are at most four. */
  lemma GreedyIsRightIff(n: nat)
    ensures (forall a :: |a| == n && Positive(a) ==> Optimal(a, GreedyGap(a))) <==> n <= 4
  {
    if n <= 4 {
      forall a: seq<int> | |a| == n && Positive(a) ensures Optimal(a, GreedyGap(a)) { FewAreOptimal(a); }
    } else {
      TrapIsPositive(n);
    }
  }

  /** The planted bug: on this input the greedy answers 626 where 622 can be reached. */
  lemma GreedyIsWrong()
    ensures GreedyGap([630, 629, 628, 627, 626]) == 626
    ensures !Optimal([630, 629, 628, 627, 626], 626)
  {
    var a1, c1 := NextItem([], [], 630, true);
    var a2, c2 := NextItem(a1, c1, 629, true);
    var a3, c3 := NextItem(a2, c2, 628, false);
    var a4, c4 := NextItem(a3, c3, 627, false);
    var a5, c5 := NextItem(a4, c4, 626, false);
    assert a5 == [630, 629, 628, 627, 626];
    SortedOfDescending(a5);
    assert Gap(a5, c5) == 622;
  }
}
