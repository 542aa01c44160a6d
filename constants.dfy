/**
 * The category catalog: thirteen descriptors, each with its section, maximum and the
 * list of scores the entry widgets offer, plus the game's numeric constants.
 */
module Constants {
  import opened Types

  const MIN_PLAYERS: int := 1
  const MAX_PLAYERS: int := 100
  const UPPER_BONUS_THRESHOLD: int := 63
  const UPPER_BONUS_VALUE: int := 35

  /** A catalog entry. An absent `fixedScore` flag is `false` here; `name` is the display label. */
  datatype CategoryMeta = CategoryMeta(
    key: Category,
    name: string,
    section: Section,
    maxScore: int,
    validScores: seq<int>,
    fixedScore: bool)

  predicate StrictlyIncreasing(s: seq<int>) {
    forall i, j :: 0 <= i < j < |s| ==> s[i] < s[j]
  }

  /** `upperScores(face)`: the scores of an upper category, zero to five dice showing `face`. */
  function UpperScores(face: int): seq<int> {
    seq(6, i => face * i)
  }

  /** `range(start, end)`: an array of length `end - start + 1`, or empty when that is not positive. */
  function Range(start: int, end: int): seq<int> {
    seq(if end - start + 1 > 0 then end - start + 1 else 0, i => start + i)
  }

  /** Six scores, the i-th being i dice showing `face`, strictly increasing when `face` is positive. */
  lemma UpperScoresShape(face: int)
    ensures var r := UpperScores(face);
      && |r| == 6 && r[0] == 0 && r[5] == 5 * face
      && (forall i :: 0 <= i < 6 ==> r[i] == face * i)
      && (face > 0 ==> StrictlyIncreasing(r))
  {
    var r := UpperScores(face);
    if face > 0 {
      forall i, j | 0 <= i < j < 6 ensures r[i] < r[j] {
        assert face * j - face * i == face * (j - i);
      }
    }
  }

  /**
   * The integers from `start` to `end` inclusive, in increasing order, each once; empty
   * when `end < start`.
   */
  lemma RangeContents(start: int, end: int)
    ensures var r := Range(start, end);
      && |r| == (if end < start then 0 else end - start + 1)
      && (forall i :: 0 <= i < |r| ==> r[i] == start + i)
      && (forall x :: x in r <==> start <= x <= end)
      && StrictlyIncreasing(r)
  {
    var r := Range(start, end);
    assert forall i :: 0 <= i < |r| ==> r[i] == start + i;
    forall x | start <= x <= end ensures x in r {
      assert r[x - start] == x;
    }
  }

  // The catalog entries, one per category, in display order.
  const ONES_ENTRY := CategoryMeta(Ones, "Ones", Upper, 5, UpperScores(1), false)
  const TWOS_ENTRY := CategoryMeta(Twos, "Twos", Upper, 10, UpperScores(2), false)
  const THREES_ENTRY := CategoryMeta(Threes, "Threes", Upper, 15, UpperScores(3), false)
  const FOURS_ENTRY := CategoryMeta(Fours, "Fours", Upper, 20, UpperScores(4), false)
  const FIVES_ENTRY := CategoryMeta(Fives, "Fives", Upper, 25, UpperScores(5), false)
  const SIXES_ENTRY := CategoryMeta(Sixes, "Sixes", Upper, 30, UpperScores(6), false)
  const THREE_OF_A_KIND_ENTRY := CategoryMeta(ThreeOfAKind, "Three of a Kind", Lower, 30, [0] + Range(5, 30), false)
  const FOUR_OF_A_KIND_ENTRY := CategoryMeta(FourOfAKind, "Four of a Kind", Lower, 30, [0] + Range(5, 30), false)
  const FULL_HOUSE_ENTRY := CategoryMeta(FullHouse, "Full House", Lower, 25, [0, 25], true)
  const SMALL_STRAIGHT_ENTRY := CategoryMeta(SmallStraight, "Small Straight", Lower, 30, [0, 30], true)
  const LARGE_STRAIGHT_ENTRY := CategoryMeta(LargeStraight, "Large Straight", Lower, 40, [0, 40], true)
  const FIVE_OF_A_KIND_ENTRY := CategoryMeta(FiveOfAKind, "Five of a Kind", Lower, 50, [0, 50], true)
  const CHANCE_ENTRY := CategoryMeta(Chance, "Chance", Lower, 30, [0] + Range(5, 30), false)

  const CATEGORIES: seq<CategoryMeta> := [
    // Upper section, then lower section
    ONES_ENTRY, TWOS_ENTRY, THREES_ENTRY, FOURS_ENTRY, FIVES_ENTRY, SIXES_ENTRY,
    THREE_OF_A_KIND_ENTRY, FOUR_OF_A_KIND_ENTRY, FULL_HOUSE_ENTRY, SMALL_STRAIGHT_ENTRY,
    LARGE_STRAIGHT_ENTRY, FIVE_OF_A_KIND_ENTRY, CHANCE_ENTRY
  ]

  /** The first six catalog entries and the last seven, by name. */
  const UPPER_ENTRIES: seq<CategoryMeta> :=
    [ONES_ENTRY, TWOS_ENTRY, THREES_ENTRY, FOURS_ENTRY, FIVES_ENTRY, SIXES_ENTRY]

  const LOWER_ENTRIES: seq<CategoryMeta> :=
    [THREE_OF_A_KIND_ENTRY, FOUR_OF_A_KIND_ENTRY, FULL_HOUSE_ENTRY, SMALL_STRAIGHT_ENTRY,
     LARGE_STRAIGHT_ENTRY, FIVE_OF_A_KIND_ENTRY, CHANCE_ENTRY]

  lemma EntryKeys()
    ensures ONES_ENTRY.key == Ones && TWOS_ENTRY.key == Twos && THREES_ENTRY.key == Threes
    ensures FOURS_ENTRY.key == Fours && FIVES_ENTRY.key == Fives && SIXES_ENTRY.key == Sixes
    ensures THREE_OF_A_KIND_ENTRY.key == ThreeOfAKind && FOUR_OF_A_KIND_ENTRY.key == FourOfAKind
    ensures FULL_HOUSE_ENTRY.key == FullHouse && SMALL_STRAIGHT_ENTRY.key == SmallStraight
    ensures LARGE_STRAIGHT_ENTRY.key == LargeStraight && FIVE_OF_A_KIND_ENTRY.key == FiveOfAKind
    ensures CHANCE_ENTRY.key == Chance
  {
  }

  lemma CatalogHalves()
    ensures CATEGORIES == UPPER_ENTRIES + LOWER_ENTRIES
    ensures CATEGORIES[..6] == UPPER_ENTRIES && CATEGORIES[6..] == LOWER_ENTRIES
  {
  }

  /** `cats.filter(keep)`: the entries `keep` accepts, in their original order. */
  function Filter(cats: seq<CategoryMeta>, keep: CategoryMeta -> bool): (r: seq<CategoryMeta>)
    ensures |r| <= |cats|
    ensures forall m :: m in r <==> m in cats && keep(m)
  {
    if cats == [] then []
    else if keep(cats[0]) then [cats[0]] + Filter(cats[1..], keep)
    else Filter(cats[1..], keep)
  }

  const UPPER_CATEGORIES: seq<CategoryMeta> := Filter(CATEGORIES, (c: CategoryMeta) => c.section == Upper)
  const LOWER_CATEGORIES: seq<CategoryMeta> := Filter(CATEGORIES, (c: CategoryMeta) => c.section == Lower)

  /** Categories that five identical dice cannot score (used when placing a bonus). */
  const BONUS_INVALID_CATEGORIES: set<Category> := {FullHouse, SmallStraight, LargeStraight}

  /** The keys of a list of descriptors, in order. */
  function Keys(cats: seq<CategoryMeta>): (r: seq<Category>)
    ensures |r| == |cats|
    ensures forall i :: 0 <= i < |cats| ==> r[i] == cats[i].key
  {
    seq(|cats|, i requires 0 <= i < |cats| => cats[i].key)
  }

  /** Filtering distributes over concatenation, so it keeps the relative order of entries. */
  lemma {:induction false} FilterAppend(a: seq<CategoryMeta>, b: seq<CategoryMeta>, keep: CategoryMeta -> bool)
    ensures Filter(a + b, keep) == Filter(a, keep) + Filter(b, keep)
  {
    if a == [] {
      assert a + b == b;
    } else {
      assert (a + b)[0] == a[0] && (a + b)[1..] == a[1..] + b;
      FilterAppend(a[1..], b, keep);
    }
  }

  /** A list whose entries are all accepted is kept whole. */
  lemma {:induction false} FilterKeepsAll(a: seq<CategoryMeta>, keep: CategoryMeta -> bool)
    requires forall i :: 0 <= i < |a| ==> keep(a[i])
    ensures Filter(a, keep) == a
  {
    if a != [] {
      FilterKeepsAll(a[1..], keep);
    }
  }

  /** A list with no accepted entry filters to nothing. */
  lemma FilterDropsAll(a: seq<CategoryMeta>, keep: CategoryMeta -> bool)
    requires forall i :: 0 <= i < |a| ==> !keep(a[i])
    ensures Filter(a, keep) == []
  {
  }

  lemma UpperSectionIsPrefix()
    ensures UPPER_CATEGORIES == CATEGORIES[..6] == UPPER_ENTRIES
  {
    CatalogHalves();
    var a, b := UPPER_ENTRIES, LOWER_ENTRIES;
    var upper := (c: CategoryMeta) => c.section == Upper;
    assert forall i :: 0 <= i < 6 ==> upper(a[i]);
    assert forall i :: 0 <= i < 7 ==> !upper(b[i]);
    FilterAppend(a, b, upper);
    FilterKeepsAll(a, upper);
    FilterDropsAll(b, upper);
  }

  lemma LowerSectionIsSuffix()
    ensures LOWER_CATEGORIES == CATEGORIES[6..] == LOWER_ENTRIES
  {
    CatalogHalves();
    var a, b := UPPER_ENTRIES, LOWER_ENTRIES;
    var lower := (c: CategoryMeta) => c.section == Lower;
    assert forall i :: 0 <= i < 6 ==> !lower(a[i]);
    assert forall i :: 0 <= i < 7 ==> lower(b[i]);
    FilterAppend(a, b, lower);
    FilterDropsAll(a, lower);
    FilterKeepsAll(b, lower);
  }

  /** The two section lists split the catalog, in order, into its first six and last seven entries. */
  lemma SectionsPartitionCatalog()
    ensures |UPPER_CATEGORIES| == 6 && |LOWER_CATEGORIES| == 7
    ensures UPPER_CATEGORIES + LOWER_CATEGORIES == CATEGORIES
  {
    CatalogHalves();
    UpperSectionIsPrefix();
    LowerSectionIsSuffix();
  }

  /** Zero followed by a strictly increasing list of positive numbers is strictly increasing. */
  lemma ZeroThenIncreasing(s: seq<int>)
    requires StrictlyIncreasing(s) && (s != [] ==> s[0] > 0)
    ensures StrictlyIncreasing([0] + s)
  {
    var z := [0] + s;
    forall i, j | 0 <= i < j < |z| ensures z[i] < z[j] {
      if i > 0 {
        assert z[i] == s[i - 1] && z[j] == s[j - 1];
      } else {
        assert z[j] == s[j - 1] && s[0] <= s[j - 1];
      }
    }
  }

  /** The upper scores are exactly the totals of zero to five dice showing the face. */
  lemma UpperScoresAreMultiples(face: int)
    ensures forall x :: x in UpperScores(face) <==> exists k :: 0 <= k <= 5 && x == face * k
  {
    var r := UpperScores(face);
    UpperScoresShape(face);
    forall x ensures x in r <==> exists k :: 0 <= k <= 5 && x == face * k {
      if x in r {
        var i :| 0 <= i < 6 && r[i] == x;
        assert x == face * i;
      }
      if exists k :: 0 <= k <= 5 && x == face * k {
        var k :| 0 <= k <= 5 && x == face * k;
        assert r[k] == x;
      }
    }
  }

  /**
   * A score list as the entry widgets need it: it starts at 0, is strictly increasing and
   * ends at the category's maximum, which therefore bounds every legal score.
   */
  predicate ScoreListWellFormed(m: CategoryMeta) {
    && |m.validScores| > 0
    && m.validScores[0] == 0
    && StrictlyIncreasing(m.validScores)
    && m.maxScore == m.validScores[|m.validScores| - 1]
    && (forall x :: x in m.validScores ==> 0 <= x <= m.maxScore)
  }

  /** In a strictly increasing list every element lies between the first and the last. */
  lemma IncreasingBounds(s: seq<int>)
    requires |s| > 0 && StrictlyIncreasing(s)
    ensures forall x :: x in s ==> s[0] <= x <= s[|s| - 1]
  {
    forall x | x in s ensures s[0] <= x <= s[|s| - 1] {
      var i :| 0 <= i < |s| && s[i] == x;
      assert i == 0 || s[0] < s[i];
      assert i == |s| - 1 || s[i] < s[|s| - 1];
    }
  }

  lemma EntryWellFormed(m: CategoryMeta)
    requires |m.validScores| > 0 && m.validScores[0] == 0 && StrictlyIncreasing(m.validScores)
    requires m.maxScore == m.validScores[|m.validScores| - 1]
    ensures ScoreListWellFormed(m)
  {
    IncreasingBounds(m.validScores);
  }

  /** Every catalog entry has a well-formed score list. */
  lemma CatalogScoreLists()
    ensures |CATEGORIES| == 13
    ensures forall i :: 0 <= i < |CATEGORIES| ==> ScoreListWellFormed(CATEGORIES[i])
  {
    UpperScoresShape(1);
    EntryWellFormed(ONES_ENTRY);
    UpperScoresShape(2);
    EntryWellFormed(TWOS_ENTRY);
    UpperScoresShape(3);
    EntryWellFormed(THREES_ENTRY);
    UpperScoresShape(4);
    EntryWellFormed(FOURS_ENTRY);
    UpperScoresShape(5);
    EntryWellFormed(FIVES_ENTRY);
    UpperScoresShape(6);
    EntryWellFormed(SIXES_ENTRY);
    RangeContents(5, 30);
    ZeroThenIncreasing(Range(5, 30));
    EntryWellFormed(THREE_OF_A_KIND_ENTRY);
    EntryWellFormed(FOUR_OF_A_KIND_ENTRY);
    EntryWellFormed(FULL_HOUSE_ENTRY);
    EntryWellFormed(SMALL_STRAIGHT_ENTRY);
    EntryWellFormed(LARGE_STRAIGHT_ENTRY);
    EntryWellFormed(FIVE_OF_A_KIND_ENTRY);
    EntryWellFormed(CHANCE_ENTRY);
  }

  /**
   * A fixed-score entry is full house, a straight or five of a kind, sits in the lower
   * section and offers exactly 0 or its maximum, so a yes/no entry can only produce a legal score.
   */
  predicate FixedShape(m: CategoryMeta) {
    && (m.fixedScore <==> m.key in {FullHouse, SmallStraight, LargeStraight, FiveOfAKind})
    && (m.fixedScore ==> m.section == Lower && m.validScores == [0, m.maxScore])
  }

  /**
   * The fixed-score categories are full house, both straights and five of a kind; each
   * offers exactly 0 or its maximum, and those maxima are 25, 30, 40 and 50.
   */
  lemma FixedScoreCategories()
    ensures forall i :: 0 <= i < |CATEGORIES| ==> FixedShape(CATEGORIES[i])
    ensures [CATEGORIES[8].maxScore, CATEGORIES[9].maxScore, CATEGORIES[10].maxScore, CATEGORIES[11].maxScore]
      == [25, 30, 40, 50]
  {
    assert FixedShape(ONES_ENTRY) && FixedShape(TWOS_ENTRY) && FixedShape(THREES_ENTRY);
    assert FixedShape(FOURS_ENTRY) && FixedShape(FIVES_ENTRY) && FixedShape(SIXES_ENTRY);
    assert FixedShape(THREE_OF_A_KIND_ENTRY) && FixedShape(FOUR_OF_A_KIND_ENTRY) && FixedShape(FULL_HOUSE_ENTRY);
    assert FixedShape(SMALL_STRAIGHT_ENTRY) && FixedShape(LARGE_STRAIGHT_ENTRY);
    assert FixedShape(FIVE_OF_A_KIND_ENTRY) && FixedShape(CHANCE_ENTRY);
  }

  /** The list offered by the sum-style categories: 0, or any total of five dice from 5 to 30. */
  lemma SumScoresAreDiceTotals()
    ensures forall x :: x in [0] + Range(5, 30) <==> x == 0 || 5 <= x <= 30
  {
    var r := Range(5, 30);
    RangeContents(5, 30);
    var s := [0] + r;
    forall x ensures x in s <==> x == 0 || 5 <= x <= 30 {
      if x in s && x != 0 {
        var i :| 0 <= i < |s| && s[i] == x;
        assert s[i] == r[i - 1] && r[i - 1] in r;
      }
      if 5 <= x <= 30 {
        assert x in r;
        var j :| 0 <= j < |r| && r[j] == x;
        assert s[j + 1] == x;
      }
    }
  }

  predicate SumStyleShape(m: CategoryMeta) {
    m.key in {ThreeOfAKind, FourOfAKind, Chance} ==> m.validScores == [0] + Range(5, 30)
  }

  /** Three of a kind, four of a kind and chance offer 0 or any dice sum from 5 to 30. */
  lemma SumStyleCategories()
    ensures forall i :: 0 <= i < |CATEGORIES| ==> SumStyleShape(CATEGORIES[i])
    ensures forall x :: x in [0] + Range(5, 30) <==> x == 0 || 5 <= x <= 30
  {
    assert SumStyleShape(ONES_ENTRY) && SumStyleShape(TWOS_ENTRY) && SumStyleShape(THREES_ENTRY);
    assert SumStyleShape(FOURS_ENTRY) && SumStyleShape(FIVES_ENTRY) && SumStyleShape(SIXES_ENTRY);
    assert SumStyleShape(THREE_OF_A_KIND_ENTRY) && SumStyleShape(FOUR_OF_A_KIND_ENTRY) && SumStyleShape(FULL_HOUSE_ENTRY);
    assert SumStyleShape(SMALL_STRAIGHT_ENTRY) && SumStyleShape(LARGE_STRAIGHT_ENTRY);
    assert SumStyleShape(FIVE_OF_A_KIND_ENTRY) && SumStyleShape(CHANCE_ENTRY);
    SumScoresAreDiceTotals();
  }

  /** The upper entry for face f (index f - 1) offers the multiples of f up to its maximum 5 * f. */
  lemma UpperCategoryScores()
    ensures forall i :: 0 <= i < 6 ==>
      && CATEGORIES[i].section == Upper
      && CATEGORIES[i].validScores == UpperScores(i + 1)
      && CATEGORIES[i].maxScore == 5 * (i + 1)
  {
  }

  /** The player-count bounds are ordered: at least one player, at most one hundred. */
  lemma PlayerBounds()
    ensures 1 == MIN_PLAYERS <= MAX_PLAYERS == 100
  {
  }

  predicate BonusInvalidShape(m: CategoryMeta) {
    m.key in BONUS_INVALID_CATEGORIES ==> m.fixedScore && m.section == Lower && m.key != FiveOfAKind
  }

  /**
   * The categories barred from a bonus placement are catalog entries, and each is a
   * fixed-score lower category other than five of a kind.
   */
  lemma BonusInvalidCategories()
    ensures forall k :: k in BONUS_INVALID_CATEGORIES ==> exists i :: 8 <= i < 11 && CATEGORIES[i].key == k
    ensures forall i :: 0 <= i < |CATEGORIES| ==> BonusInvalidShape(CATEGORIES[i])
  {
    BonusInvalidInCatalog();
    BonusInvalidAreFixed();
  }

  lemma BonusInvalidInCatalog()
    ensures forall k :: k in BONUS_INVALID_CATEGORIES ==> exists i :: 8 <= i < 11 && CATEGORIES[i].key == k
  {
    var c := CATEGORIES;
    forall k | k in BONUS_INVALID_CATEGORIES ensures exists i :: 8 <= i < 11 && c[i].key == k {
      if k == FullHouse {
        assert c[8].key == k;
      } else if k == SmallStraight {
        assert c[9].key == k;
      } else {
        assert c[10].key == k;
      }
    }
  }

  lemma FixedShapeBarsBonus(m: CategoryMeta)
    requires FixedShape(m)
    ensures BonusInvalidShape(m)
  {
  }

  lemma BonusInvalidAreFixed()
    ensures forall i :: 0 <= i < |CATEGORIES| ==> BonusInvalidShape(CATEGORIES[i])
  {
    FixedScoreCategories();
    forall i | 0 <= i < |CATEGORIES| ensures BonusInvalidShape(CATEGORIES[i]) {
      FixedShapeBarsBonus(CATEGORIES[i]);
    }
  }
}
