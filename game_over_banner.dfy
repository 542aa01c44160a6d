/**
 * The ranking shown when the game is over: each player paired with their totals, sorted by
 * grand total (highest first, ties in player order), the top score and whether it is shared.
 */
module Ranking {
  import opened Types
  import opened Totals

  datatype RankedEntry = RankedEntry(player: Player, totals: PlayerTotals)

  function Grand(e: RankedEntry): int {
    e.totals.grandTotal
  }

  /** Highest grand total first. */
  predicate NonIncreasing(s: seq<RankedEntry>) {
    forall i, j :: 0 <= i < j < |s| ==> Grand(s[i]) >= Grand(s[j])
  }

  /** The entries whose grand total is `g`, in their order in `s`. */
  function WithTotal(s: seq<RankedEntry>, g: int): (r: seq<RankedEntry>)
    ensures |r| <= |s|
    ensures forall k :: 0 <= k < |r| ==> Grand(r[k]) == g
  {
    if s == [] then []
    else if Grand(s[0]) == g then [s[0]] + WithTotal(s[1..], g)
    else WithTotal(s[1..], g)
  }

  /** `WithTotal` keeps exactly the entries of `s` whose grand total is `g`. */
  lemma {:induction false} WithTotalMembers(s: seq<RankedEntry>, g: int)
    ensures forall x :: x in WithTotal(s, g) <==> x in s && Grand(x) == g
  {
    if s != [] {
      WithTotalMembers(s[1..], g);
      assert s == [s[0]] + s[1..];
    }
  }

  /** Each player paired with the totals of the sheet at the same index, bonus count included. */
  function Entries(players: seq<Player>, scores: seq<PlayerScores>): seq<RankedEntry>
    requires |players| <= |scores|
  {
    seq(|players|, i requires 0 <= i < |players| =>
      RankedEntry(players[i], ComputeTotals(scores[i].categories, Some(scores[i].fiveOfAKindBonusCount))))
  }

  /** Every entry of `s` has a grand total of at most `b`. */
  predicate AtMost(s: seq<RankedEntry>, b: int) {
    forall i :: 0 <= i < |s| ==> Grand(s[i]) <= b
  }

  /** Place `e` before the first entry whose grand total does not exceed its own. */
  function Insert(e: RankedEntry, sorted: seq<RankedEntry>): (r: seq<RankedEntry>)
    ensures |r| == |sorted| + 1
    ensures multiset(r) == multiset(sorted) + multiset{e}
  {
    if sorted == [] || Grand(sorted[0]) <= Grand(e) then [e] + sorted
    else
      assert sorted == [sorted[0]] + sorted[1..];
      [sorted[0]] + Insert(e, sorted[1..])
  }

  /** The stable sort whose comparator puts the higher grand total first. */
  function SortByGrandTotal(s: seq<RankedEntry>): (r: seq<RankedEntry>)
    ensures |r| == |s|
    ensures multiset(r) == multiset(s)
  {
    if s == [] then []
    else
      assert s == [s[0]] + s[1..];
      Insert(s[0], SortByGrandTotal(s[1..]))
  }

  /** `ranked`: the players' entries sorted by grand total, highest first. */
  function Ranked(players: seq<Player>, scores: seq<PlayerScores>): seq<RankedEntry>
    requires |players| <= |scores|
  {
    SortByGrandTotal(Entries(players, scores))
  }

  /** `topScore`: the grand total of the first ranked entry. */
  function TopScore(ranked: seq<RankedEntry>): int
    requires |ranked| > 0
  {
    Grand(ranked[0])
  }

  /** `isTie`: more than one entry has the top score. */
  predicate IsTie(ranked: seq<RankedEntry>)
    requires |ranked| > 0
  {
    |WithTotal(ranked, TopScore(ranked))| > 1
  }

  /** A row is highlighted as a winner when its grand total equals the top score. */
  predicate IsWinner(entry: RankedEntry, topScore: int) {
    Grand(entry) == topScore
  }

  lemma {:induction false} WithTotalAppend(a: seq<RankedEntry>, b: seq<RankedEntry>, g: int)
    ensures WithTotal(a + b, g) == WithTotal(a, g) + WithTotal(b, g)
  {
    if a == [] {
      assert a + b == b;
    } else {
      assert (a + b)[0] == a[0] && (a + b)[1..] == a[1..] + b;
      WithTotalAppend(a[1..], b, g);
    }
  }

  lemma {:induction false} InsertAtMost(e: RankedEntry, s: seq<RankedEntry>, b: int)
    requires AtMost(s, b) && Grand(e) <= b
    ensures AtMost(Insert(e, s), b)
  {
    if s != [] && Grand(s[0]) > Grand(e) {
      InsertAtMost(e, s[1..], b);
      var r := Insert(e, s);
      forall i | 0 < i < |r| ensures Grand(r[i]) <= b {
        assert r[i] == Insert(e, s[1..])[i - 1];
      }
    }
  }

  lemma ConsSorted(x: RankedEntry, s: seq<RankedEntry>)
    requires NonIncreasing(s) && AtMost(s, Grand(x))
    ensures NonIncreasing([x] + s)
  {
    var r := [x] + s;
    forall i, j | 0 <= i < j < |r| ensures Grand(r[i]) >= Grand(r[j]) {
      assert r[j] == s[j - 1];
      if i > 0 {
        assert r[i] == s[i - 1];
      }
    }
  }

  /** Inserting into a list ordered highest first keeps it ordered. */
  lemma {:induction false} InsertSorted(e: RankedEntry, sorted: seq<RankedEntry>)
    requires NonIncreasing(sorted)
    ensures NonIncreasing(Insert(e, sorted))
  {
    if sorted == [] || Grand(sorted[0]) <= Grand(e) {
      ConsSorted(e, sorted);
    } else {
      var tail := sorted[1..];
      InsertSorted(e, tail);
      assert AtMost(tail, Grand(sorted[0])) by {
        forall i | 0 <= i < |tail| ensures Grand(tail[i]) <= Grand(sorted[0]) {
          assert tail[i] == sorted[i + 1];
        }
      }
      InsertAtMost(e, tail, Grand(sorted[0]));
      ConsSorted(sorted[0], Insert(e, tail));
    }
  }

  /** The sort orders any list highest grand total first. */
  lemma {:induction false} SortIsOrdered(s: seq<RankedEntry>)
    ensures NonIncreasing(SortByGrandTotal(s))
  {
    if s != [] {
      SortIsOrdered(s[1..]);
      InsertSorted(s[0], SortByGrandTotal(s[1..]));
    }
  }

  lemma WithTotalCons(x: RankedEntry, t: seq<RankedEntry>, g: int)
    ensures WithTotal([x] + t, g) == (if Grand(x) == g then [x] else []) + WithTotal(t, g)
  {
    assert ([x] + t)[0] == x && ([x] + t)[1..] == t;
  }

  /** Inserting `e` places it before every entry of `sorted` that has the same grand total. */
  lemma {:induction false} InsertKeepsTies(e: RankedEntry, sorted: seq<RankedEntry>, g: int)
    ensures WithTotal(Insert(e, sorted), g) == (if Grand(e) == g then [e] else []) + WithTotal(sorted, g)
  {
    if sorted == [] || Grand(sorted[0]) <= Grand(e) {
      WithTotalCons(e, sorted, g);
    } else {
      var (h, t) := (sorted[0], sorted[1..]);
      assert sorted == [h] + t;
      assert Insert(e, sorted) == [h] + Insert(e, t);
      InsertKeepsTies(e, t, g);
      WithTotalCons(h, Insert(e, t), g);
      WithTotalCons(h, t, g);
      if Grand(h) == g {
        // `h` outranks `e`, so at most one of them has total `g`.
        assert Grand(e) != g;
      }
    }
  }

  /**
   * The sort is stable: for every grand total, the entries with that total appear in the
   * result in the same order as in the input.
   */
  lemma {:induction false} SortIsStable(s: seq<RankedEntry>, g: int)
    ensures WithTotal(SortByGrandTotal(s), g) == WithTotal(s, g)
  {
    if s != [] {
      SortIsStable(s[1..], g);
      InsertKeepsTies(s[0], SortByGrandTotal(s[1..]), g);
      WithTotalAppend([s[0]], s[1..], g);
      assert [s[0]] + s[1..] == s;
    }
  }

  /**
   * `ranked` holds every player exactly once, each with the totals of their own sheet
   * (bonus count included), ordered by grand total, highest first, players with equal
   * totals in their original order.
   */
  lemma RankedIsSortedPermutation(players: seq<Player>, scores: seq<PlayerScores>)
    requires |players| <= |scores|
    ensures var (entries, ranked) := (Entries(players, scores), Ranked(players, scores));
      && |ranked| == |players|
      && multiset(ranked) == multiset(entries)
      && NonIncreasing(ranked)
      && (forall g :: WithTotal(ranked, g) == WithTotal(entries, g))
      && (forall i :: 0 <= i < |players| ==>
            entries[i] == RankedEntry(players[i], ComputeTotals(scores[i].categories, Some(scores[i].fiveOfAKindBonusCount))))
  {
    var (entries, ranked) := (Entries(players, scores), Ranked(players, scores));
    SortIsOrdered(entries);
    forall g ensures WithTotal(ranked, g) == WithTotal(entries, g) {
      SortIsStable(entries, g);
    }
  }

  /** With at least one player, the top score is the greatest grand total of any player. */
  lemma TopScoreIsMaximum(players: seq<Player>, scores: seq<PlayerScores>)
    requires 0 < |players| <= |scores|
    ensures forall i :: 0 <= i < |players| ==>
      Grand(Entries(players, scores)[i]) <= TopScore(Ranked(players, scores))
    ensures exists i ::
      0 <= i < |players| && Grand(Entries(players, scores)[i]) == TopScore(Ranked(players, scores))
  {
    var (entries, ranked) := (Entries(players, scores), Ranked(players, scores));
    var top := Grand(ranked[0]);
    SortIsOrdered(entries);
    forall i | 0 <= i < |players| ensures Grand(entries[i]) <= top {
      var g := Grand(entries[i]);
      SortIsStable(entries, g);
      WithTotalNonEmpty(entries, g);
      WithTotalNonEmpty(ranked, g);
    }
    SortIsStable(entries, top);
    WithTotalNonEmpty(ranked, top);
    assert Grand(ranked[0]) == top;
    assert |WithTotal(entries, top)| > 0;
    WithTotalNonEmpty(entries, top);
    var k :| 0 <= k < |entries| && Grand(entries[k]) == top;
    assert k < |players|;
  }

  /** Some entry has total `g` exactly when the entries with total `g` are not none. */
  lemma {:induction false} WithTotalNonEmpty(s: seq<RankedEntry>, g: int)
    ensures |WithTotal(s, g)| > 0 <==> exists k :: 0 <= k < |s| && Grand(s[k]) == g
  {
    if s != [] {
      WithTotalNonEmpty(s[1..], g);
      if exists k :: 0 <= k < |s[1..]| && Grand(s[1..][k]) == g {
        var k :| 0 <= k < |s[1..]| && Grand(s[1..][k]) == g;
        assert Grand(s[k + 1]) == g;
      }
      if exists k :: 0 <= k < |s| && Grand(s[k]) == g {
        var k :| 0 <= k < |s| && Grand(s[k]) == g;
        if k > 0 {
          assert Grand(s[1..][k - 1]) == g;
        }
      }
    }
  }

  /** At least two entries with total `g` sit at two distinct positions. */
  lemma {:induction false} TwoWithTotalAtTwoPositions(s: seq<RankedEntry>, g: int)
    requires |WithTotal(s, g)| > 1
    ensures exists i, j :: 0 <= i < j < |s| && Grand(s[i]) == g && Grand(s[j]) == g
  {
    var tail := s[1..];
    if Grand(s[0]) == g {
      WithTotalNonEmpty(tail, g);
      var j :| 0 <= j < |tail| && Grand(tail[j]) == g;
      assert Grand(s[0]) == g && Grand(s[j + 1]) == g;
    } else {
      TwoWithTotalAtTwoPositions(tail, g);
      var i, j :| 0 <= i < j < |tail| && Grand(tail[i]) == g && Grand(tail[j]) == g;
      assert s[i + 1] == tail[i] && s[j + 1] == tail[j];
    }
  }

  /** Two distinct positions with total `g` give at least two entries with that total. */
  lemma TwoPositionsWithTotal(s: seq<RankedEntry>, g: int, i: int, j: int)
    requires 0 <= i < j < |s| && Grand(s[i]) == g && Grand(s[j]) == g
    ensures |WithTotal(s, g)| > 1
  {
    var (front, back) := (s[..j], s[j..]);
    WithTotalAppend(front, back, g);
    assert front + back == s;
    assert Grand(front[i]) == g && Grand(back[0]) == g;
    WithTotalNonEmpty(front, g);
    WithTotalNonEmpty(back, g);
  }

  /** More than one entry has total `g` exactly when two distinct positions do. */
  lemma TwoWithTotal(s: seq<RankedEntry>, g: int)
    ensures |WithTotal(s, g)| > 1 <==>
      exists i, j :: 0 <= i < j < |s| && Grand(s[i]) == g && Grand(s[j]) == g
  {
    if |WithTotal(s, g)| > 1 {
      TwoWithTotalAtTwoPositions(s, g);
    }
    if exists i, j :: 0 <= i < j < |s| && Grand(s[i]) == g && Grand(s[j]) == g {
      var i, j :| 0 <= i < j < |s| && Grand(s[i]) == g && Grand(s[j]) == g;
      TwoPositionsWithTotal(s, g, i, j);
    }
  }

  /** `isTie` holds exactly when two different players share the top score. */
  lemma IsTieIffSharedTop(players: seq<Player>, scores: seq<PlayerScores>)
    requires 0 < |players| <= |scores|
    ensures var (entries, ranked) := (Entries(players, scores), Ranked(players, scores));
      IsTie(ranked) <==>
        exists i, j :: 0 <= i < j < |players| && Grand(entries[i]) == TopScore(ranked) && Grand(entries[j]) == TopScore(ranked)
  {
    RankedIsSortedPermutation(players, scores);
    var (entries, ranked) := (Entries(players, scores), Ranked(players, scores));
    TwoWithTotal(entries, TopScore(ranked));
  }

  /**
   * The first row is always a winner, every winner has the greatest total, and without a
   * tie every row after the first scores strictly less than the top score.
   */
  lemma WinnersHoldTopScore(players: seq<Player>, scores: seq<PlayerScores>)
    requires 0 < |players| <= |scores|
    ensures var ranked := Ranked(players, scores);
      && IsWinner(ranked[0], TopScore(ranked))
      && (forall e :: e in ranked && IsWinner(e, TopScore(ranked)) ==> forall x :: x in ranked ==> Grand(x) <= Grand(e))
      && (!IsTie(ranked) ==> forall i :: 0 < i < |ranked| ==> Grand(ranked[i]) < TopScore(ranked))
  {
    RankedIsSortedPermutation(players, scores);
    var ranked := Ranked(players, scores);
    forall e, x | e in ranked && IsWinner(e, TopScore(ranked)) && x in ranked ensures Grand(x) <= Grand(e) {
      var j :| 0 <= j < |ranked| && ranked[j] == x;
    }
    if !IsTie(ranked) {
      TwoWithTotal(ranked, TopScore(ranked));
      forall i | 0 < i < |ranked| ensures Grand(ranked[i]) < TopScore(ranked) {
        assert Grand(ranked[i]) <= Grand(ranked[0]);
      }
    }
  }
}
