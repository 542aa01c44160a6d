/**
 * The totals calculator: from one player's category cells and bonus count to the six
 * derived figures shown on the scorecard.
 */
module Totals {
  import opened Types
  import opened Constants

  const UPPER_KEYS: seq<Category> := [Ones, Twos, Threes, Fours, Fives, Sixes]

  const LOWER_KEYS: seq<Category> :=
    [ThreeOfAKind, FourOfAKind, FullHouse, SmallStraight, LargeStraight, FiveOfAKind, Chance]

  const FIVE_OF_A_KIND_BONUS_VALUE: int := 100

  /** No category occurs twice in `keys`. */
  predicate Distinct(keys: seq<Category>) {
    forall i, j :: 0 <= i < j < |keys| ==> keys[i] != keys[j]
  }

  /** The left fold over `keys` of each cell's value, a null or missing cell counting 0 (`?? 0`). */
  function SumOver(categories: CategoryScores, keys: seq<Category>): int {
    if keys == [] then 0
    else SumOver(categories, keys[..|keys| - 1]) + ValueOrZero(categories, keys[|keys| - 1])
  }

  /**
   * `computeTotals(categories, fiveOfAKindBonusCount = 0)`; `None` is the omitted count.
   * The contract states how the six figures relate to each other.
   */
  function ComputeTotals(categories: CategoryScores, fiveOfAKindBonusCount: Option<int>): (t: PlayerTotals)
    ensures t.upperBonus == (if t.upperSubtotal >= UPPER_BONUS_THRESHOLD then UPPER_BONUS_VALUE else 0)
    ensures t.upperTotal == t.upperSubtotal + t.upperBonus
    ensures t.fiveOfAKindBonus ==
      FIVE_OF_A_KIND_BONUS_VALUE * (if fiveOfAKindBonusCount.Some? then fiveOfAKindBonusCount.value else 0)
    ensures t.grandTotal == t.upperTotal + t.lowerTotal + t.fiveOfAKindBonus
  {
    var count := if fiveOfAKindBonusCount.Some? then fiveOfAKindBonusCount.value else 0;
    var upperSubtotal := SumOver(categories, UPPER_KEYS);
    var upperBonus := if upperSubtotal >= UPPER_BONUS_THRESHOLD then UPPER_BONUS_VALUE else 0;
    var upperTotal := upperSubtotal + upperBonus;
    var lowerTotal := SumOver(categories, LOWER_KEYS);
    var fiveOfAKindBonus := count * FIVE_OF_A_KIND_BONUS_VALUE;
    PlayerTotals(upperSubtotal, upperBonus, upperTotal, lowerTotal, fiveOfAKindBonus,
                 upperTotal + lowerTotal + fiveOfAKindBonus)
  }

  /** Summing over two key lists one after the other adds their sums. */
  lemma {:induction false} SumOverAppend(m: CategoryScores, a: seq<Category>, b: seq<Category>)
    ensures SumOver(m, a + b) == SumOver(m, a) + SumOver(m, b)
  {
    if b == [] {
      assert a + b == a;
    } else {
      var b' := b[..|b| - 1];
      assert (a + b)[..|a + b| - 1] == a + b';
      assert (a + b)[|a + b| - 1] == b[|b| - 1];
      SumOverAppend(m, a, b');
    }
  }

  /** A sum over filled cells that are all non-negative is non-negative. */
  lemma {:induction false} SumOverNonNegative(m: CategoryScores, keys: seq<Category>)
    requires forall c :: c in m && m[c].Some? ==> m[c].value >= 0
    ensures SumOver(m, keys) >= 0
  {
    if keys != [] {
      SumOverNonNegative(m, keys[..|keys| - 1]);
    }
  }

  /** A sum over a sheet with no filled cell is 0. */
  lemma {:induction false} SumOverUnfilled(m: CategoryScores, keys: seq<Category>)
    requires forall c :: c in m ==> m[c].None?
    ensures SumOver(m, keys) == 0
  {
    if keys != [] {
      SumOverUnfilled(m, keys[..|keys| - 1]);
    }
  }

  /**
   * Writing `v` into category `c` changes a sum over distinct keys by the difference
   * between `v` and the old value, when `c` is one of the keys, and not at all otherwise.
   */
  lemma {:induction false} SumOverWrite(m: CategoryScores, keys: seq<Category>, c: Category, v: int)
    requires Distinct(keys)
    ensures SumOver(m[c := Some(v)], keys) ==
      SumOver(m, keys) + (if c in keys then v - ValueOrZero(m, c) else 0)
  {
    if keys != [] {
      var init := keys[..|keys| - 1];
      assert Distinct(init);
      SumOverWrite(m, init, c, v);
      assert c in keys <==> c in init || c == keys[|keys| - 1];
      assert c == keys[|keys| - 1] ==> c !in init;
    }
  }

  /** A list holding each category at its display position, shifted by `offset`, repeats none. */
  lemma PositionedDistinct(keys: seq<Category>, offset: nat)
    requires forall i :: 0 <= i < |keys| ==> Ordinal(keys[i]) == offset + i
    ensures Distinct(keys)
  {
    forall i, j | 0 <= i < j < |keys| ensures keys[i] != keys[j] {
      assert Ordinal(keys[i]) != Ordinal(keys[j]);
    }
  }

  /** The key lists follow display order, so none repeats a category. */
  lemma KeyListsDistinct()
    ensures Distinct(UPPER_KEYS) && Distinct(LOWER_KEYS) && Distinct(UPPER_KEYS + LOWER_KEYS)
  {
    var (u, l) := (UPPER_KEYS, LOWER_KEYS);
    assert Ordinal(u[0]) == 0 && Ordinal(u[1]) == 1 && Ordinal(u[2]) == 2;
    assert Ordinal(u[3]) == 3 && Ordinal(u[4]) == 4 && Ordinal(u[5]) == 5;
    assert Ordinal(l[0]) == 6 && Ordinal(l[1]) == 7 && Ordinal(l[2]) == 8 && Ordinal(l[3]) == 9;
    assert Ordinal(l[4]) == 10 && Ordinal(l[5]) == 11 && Ordinal(l[6]) == 12;
    PositionedDistinct(u, 0);
    PositionedDistinct(l, 6);
    PositionedDistinct(u + l, 0);
  }

  /** Descriptors whose keys are, position by position, the given categories. */
  lemma KeysOfMatching(cats: seq<CategoryMeta>, keys: seq<Category>)
    requires |cats| == |keys| && forall i :: 0 <= i < |cats| ==> cats[i].key == keys[i]
    ensures Keys(cats) == keys
  {
  }

  lemma UpperEntryKeys()
    ensures Keys(UPPER_ENTRIES) == UPPER_KEYS
  {
    EntryKeys();
    var (e, k) := (UPPER_ENTRIES, UPPER_KEYS);
    assert e[0].key == k[0] && e[1].key == k[1] && e[2].key == k[2];
    assert e[3].key == k[3] && e[4].key == k[4] && e[5].key == k[5];
    KeysOfMatching(e, k);
  }

  lemma LowerEntryKeys()
    ensures Keys(LOWER_ENTRIES) == LOWER_KEYS
  {
    EntryKeys();
    var (e, k) := (LOWER_ENTRIES, LOWER_KEYS);
    assert e[0].key == k[0] && e[1].key == k[1] && e[2].key == k[2] && e[3].key == k[3];
    assert e[4].key == k[4] && e[5].key == k[5] && e[6].key == k[6];
    KeysOfMatching(e, k);
  }

  /** The key lists of the calculator name the catalog's upper and lower sections, in order. */
  lemma KeysMatchCatalog()
    ensures Keys(UPPER_CATEGORIES) == UPPER_KEYS
    ensures Keys(LOWER_CATEGORIES) == LOWER_KEYS
  {
    UpperEntryKeys();
    LowerEntryKeys();
    UpperSectionIsPrefix();
    LowerSectionIsSuffix();
  }

  /**
   * The grand total is the plain sum of all thirteen cells plus the upper bonus plus the
   * five-of-a-kind bonus, whatever the section split.
   */
  lemma GrandTotalIsSheetSum(m: CategoryScores, count: Option<int>)
    ensures ComputeTotals(m, count).grandTotal ==
      SumOver(m, UPPER_KEYS + LOWER_KEYS) + ComputeTotals(m, count).upperBonus + ComputeTotals(m, count).fiveOfAKindBonus
  {
    SumOverAppend(m, UPPER_KEYS, LOWER_KEYS);
  }

  /** A sheet with no filled cell and no bonus event totals 0 everywhere. */
  lemma UnfilledSheetTotalsZero(m: CategoryScores, count: Option<int>)
    requires forall c :: c in m ==> m[c].None?
    requires count == None || count == Some(0)
    ensures ComputeTotals(m, count) == PlayerTotals(0, 0, 0, 0, 0, 0)
  {
    SumOverUnfilled(m, UPPER_KEYS);
    SumOverUnfilled(m, LOWER_KEYS);
  }

  /** Non-negative cells and a non-negative count give non-negative totals. */
  lemma TotalsNonNegative(m: CategoryScores, count: Option<int>)
    requires forall c :: c in m && m[c].Some? ==> m[c].value >= 0
    requires count.Some? ==> count.value >= 0
    ensures var t := ComputeTotals(m, count);
      && t.upperSubtotal >= 0 && t.upperBonus >= 0 && t.upperTotal >= 0
      && t.lowerTotal >= 0 && t.fiveOfAKindBonus >= 0 && t.grandTotal >= 0
  {
    SumOverNonNegative(m, UPPER_KEYS);
    SumOverNonNegative(m, LOWER_KEYS);
  }

  /**
   * Filling an unfilled cell with `v` adds `v` to its section's sum; the grand total grows
   * by `v` plus the upper bonus if this write crossed the threshold, and never shrinks
   * when `v` is non-negative.
   */
  lemma FillAddsValue(m: CategoryScores, c: Category, v: int, count: Option<int>)
    requires c !in m || m[c].None?
    ensures var before, after := ComputeTotals(m, count), ComputeTotals(m[c := Some(v)], count);
      && after.upperSubtotal == before.upperSubtotal + (if c in UPPER_KEYS then v else 0)
      && after.lowerTotal == before.lowerTotal + (if c in LOWER_KEYS then v else 0)
      && after.grandTotal == before.grandTotal + v + (after.upperBonus - before.upperBonus)
      && (v >= 0 ==> after.grandTotal >= before.grandTotal)
  {
    KeyListsDistinct();
    SumOverWrite(m, UPPER_KEYS, c, v);
    SumOverWrite(m, LOWER_KEYS, c, v);
  }

  /**
   * Every filled cell holds a score the catalog offers for its category (the entry at the
   * category's display position, whose key is that category).
   */
  predicate LegalSheet(m: CategoryScores) {
    forall c :: c in m && m[c].Some? ==> m[c].value in CATEGORIES[Ordinal(c)].validScores
  }

  /** Three dice of every face in the upper section, nothing else filled. */
  const THREE_OF_EACH_FACE: CategoryScores :=
    map[Ones := Some(3), Twos := Some(6), Threes := Some(9), Fours := Some(12), Fives := Some(15), Sixes := Some(18)]

  /** The same sheet with only two ones: one point less. */
  const ONE_POINT_SHORT: CategoryScores := THREE_OF_EACH_FACE[Ones := Some(2)]

  /** `k` dice showing the face of an upper category is a score its catalog entry offers. */
  lemma UpperCellLegal(c: Category, k: int)
    requires Ordinal(c) < 6 && 0 <= k <= 5
    ensures k * (Ordinal(c) + 1) in CATEGORIES[Ordinal(c)].validScores
  {
    UpperCategoryScores();
    UpperScoresShape(Ordinal(c) + 1);
    assert UpperScores(Ordinal(c) + 1)[k] == k * (Ordinal(c) + 1);
  }

  lemma ThreeOfEachFaceLegal()
    ensures LegalSheet(THREE_OF_EACH_FACE)
  {
    var m := THREE_OF_EACH_FACE;
    forall c | c in m && m[c].Some? ensures m[c].value in CATEGORIES[Ordinal(c)].validScores {
      UpperCellLegal(c, 3);
    }
  }

  lemma OnePointShortLegal()
    ensures LegalSheet(ONE_POINT_SHORT)
  {
    var m := ONE_POINT_SHORT;
    forall c | c in m && m[c].Some? ensures m[c].value in CATEGORIES[Ordinal(c)].validScores {
      if c == Ones {
        UpperCellLegal(c, 2);
      } else {
        UpperCellLegal(c, 3);
      }
    }
  }

  /** The upper subtotal is the plain sum of the six upper cells, a null or missing cell counting 0. */
  lemma UpperSubtotalIsCellSum(m: CategoryScores, count: Option<int>)
    ensures ComputeTotals(m, count).upperSubtotal ==
      ValueOrZero(m, Ones) + ValueOrZero(m, Twos) + ValueOrZero(m, Threes)
      + ValueOrZero(m, Fours) + ValueOrZero(m, Fives) + ValueOrZero(m, Sixes)
  {
    var (k, v) := (UPPER_KEYS, (c: Category) => ValueOrZero(m, c));
    assert k[..1][..0] == [];
    assert SumOver(m, k[..1]) == v(Ones);
    assert k[..2][..1] == k[..1];
    assert SumOver(m, k[..2]) == v(Ones) + v(Twos);
    assert k[..3][..2] == k[..2];
    assert SumOver(m, k[..3]) == v(Ones) + v(Twos) + v(Threes);
    assert k[..4][..3] == k[..3];
    assert SumOver(m, k[..4]) == v(Ones) + v(Twos) + v(Threes) + v(Fours);
    assert k[..5][..4] == k[..4];
    assert SumOver(m, k[..5]) == v(Ones) + v(Twos) + v(Threes) + v(Fours) + v(Fives);
    assert k[..6][..5] == k[..5] && k[..6] == k;
  }

  /**
   * The threshold is reachable with legal scores: three dice of every face is a legal sheet
   * whose upper subtotal is exactly 63, which earns the 35-point bonus.
   */
  lemma ThresholdReachedAt63()
    ensures LegalSheet(THREE_OF_EACH_FACE)
    ensures var t := ComputeTotals(THREE_OF_EACH_FACE, None);
      t.upperSubtotal == 63 && t.upperBonus == 35 && t.upperTotal == 98
  {
    ThreeOfEachFaceLegal();
    UpperSubtotalIsCellSum(THREE_OF_EACH_FACE, None);
  }

  /** The legal sheet one point short of the threshold has upper subtotal 62 and earns no bonus. */
  lemma ThresholdMissedAt62()
    ensures LegalSheet(ONE_POINT_SHORT)
    ensures var t := ComputeTotals(ONE_POINT_SHORT, None);
      t.upperSubtotal == 62 && t.upperBonus == 0 && t.upperTotal == 62
  {
    OnePointShortLegal();
    UpperSubtotalIsCellSum(ONE_POINT_SHORT, None);
  }
}
