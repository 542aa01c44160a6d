/**
 * The game state machine: the initial state and the reducer that maps a state and an
 * action to the next state, never changing the state it is given.
 */
module Reducer {
  import opened Types
  import opened Constants
  import opened Totals

  const ALL_CATEGORIES: seq<Category> := [
    Ones, Twos, Threes, Fours, Fives, Sixes,
    ThreeOfAKind, FourOfAKind, FullHouse,
    SmallStraight, LargeStraight, FiveOfAKind, Chance
  ]

  lemma KeysAppend(a: seq<CategoryMeta>, b: seq<CategoryMeta>)
    ensures Keys(a + b) == Keys(a) + Keys(b)
  {
    var (k, ka, kb) := (Keys(a + b), Keys(a), Keys(b));
    assert forall i :: 0 <= i < |k| ==> k[i] == (ka + kb)[i];
  }

  lemma SectionKeysMakeAll()
    ensures ALL_CATEGORIES == UPPER_KEYS + LOWER_KEYS
  {
    var (a, u, l) := (ALL_CATEGORIES, UPPER_KEYS, LOWER_KEYS);
    assert forall i :: 0 <= i < 6 ==> a[i] == u[i];
    assert forall i :: 6 <= i < 13 ==> a[i] == l[i - 6];
  }

  lemma CatalogKeysInOrder()
    ensures Keys(CATEGORIES) == ALL_CATEGORIES
  {
    SectionKeysMakeAll();
    UpperEntryKeys();
    LowerEntryKeys();
    CatalogHalves();
    KeysAppend(UPPER_ENTRIES, LOWER_ENTRIES);
  }

  /** Every category sits in `ALL_CATEGORIES` at its display position. */
  lemma EveryCategoryListed()
    ensures forall c: Category :: Ordinal(c) < |ALL_CATEGORIES| && ALL_CATEGORIES[Ordinal(c)] == c
  {
    forall c: Category ensures Ordinal(c) < |ALL_CATEGORIES| && ALL_CATEGORIES[Ordinal(c)] == c {
      match c
      case Ones =>
      case Twos =>
      case Threes =>
      case Fours =>
      case Fives =>
      case Sixes =>
      case ThreeOfAKind =>
      case FourOfAKind =>
      case FullHouse =>
      case SmallStraight =>
      case LargeStraight =>
      case FiveOfAKind =>
      case Chance =>
    }
  }

  /** Every category is listed exactly once, in catalog order, upper keys before lower keys. */
  lemma CategoryListsAgree()
    ensures forall c: Category :: c in ALL_CATEGORIES
    ensures Distinct(ALL_CATEGORIES)
    ensures ALL_CATEGORIES == UPPER_KEYS + LOWER_KEYS
    ensures Keys(CATEGORIES) == ALL_CATEGORIES
  {
    CatalogKeysInOrder();
    EveryCategoryListed();
    KeyListsDistinct();
    SectionKeysMakeAll();
    forall c: Category ensures c in ALL_CATEGORIES {
      assert ALL_CATEGORIES[Ordinal(c)] == c;
    }
  }

  /** The sheet `createEmptyScores` builds: a null cell for every listed category. */
  function EmptyScores(): CategoryScores {
    map c | c in ALL_CATEGORIES :: None
  }

  lemma EmptyScoresComplete()
    ensures Complete(EmptyScores())
    ensures forall c :: EmptyScores()[c] == None
  {
    CategoryListsAgree();
  }

  /** `createEmptyScores`: start from an empty record and null out each listed category in turn. */
  method CreateEmptyScores() returns (scores: CategoryScores)
    ensures scores == EmptyScores()
    ensures Complete(scores) && forall c :: scores[c] == None
  {
    scores := map[];
    for i := 0 to |ALL_CATEGORIES|
      invariant scores.Keys == set c | c in ALL_CATEGORIES[..i]
      invariant forall c :: c in scores ==> scores[c] == None
    {
      assert ALL_CATEGORIES[..i + 1] == ALL_CATEGORIES[..i] + [ALL_CATEGORIES[i]];
      scores := scores[ALL_CATEGORIES[i] := None];
    }
    assert ALL_CATEGORIES[..|ALL_CATEGORIES|] == ALL_CATEGORIES;
    EmptyScoresComplete();
  }

  const INITIAL_GAME_STATE: GameState := GameState(Setup, [], [])

  /** Every present cell of the sheet is filled. */
  predicate SheetFilled(ps: PlayerScores) {
    forall c :: c in ps.categories ==> ps.categories[c].Some?
  }

  /** Every present cell of every sheet is filled. */
  predicate AllFilled(scores: seq<PlayerScores>) {
    forall i :: 0 <= i < |scores| ==> SheetFilled(scores[i])
  }

  /** The cell can be written: present and null (`!== null` holds for a missing cell). */
  predicate Writable(ps: PlayerScores, category: Category) {
    category in ps.categories && ps.categories[category].None?
  }

  /** The sheet of `playerId` holds exactly 50 in five of a kind. */
  predicate Qualifies(ps: PlayerScores, playerId: string) {
    ps.playerId == playerId && FiveOfAKind in ps.categories && ps.categories[FiveOfAKind] == Some(50)
  }

  /** The per-sheet step of SET_SCORE. */
  function WriteCell(ps: PlayerScores, playerId: string, category: Category, value: int): PlayerScores {
    if ps.playerId != playerId then ps
    else if !Writable(ps, category) then ps
    else ps.(categories := ps.categories[category := Some(value)])
  }

  /** The per-sheet step of ADD_FIVE_OF_A_KIND_BONUS. */
  function AwardBonus(ps: PlayerScores, playerId: string): PlayerScores {
    if !Qualifies(ps, playerId) then ps
    else ps.(fiveOfAKindBonusCount := ps.fiveOfAKindBonusCount + 1)
  }

  /** `gameReducer`: START_GAME, SET_SCORE, ADD_FIVE_OF_A_KIND_BONUS and RESET_GAME. */
  function GameReducer(state: GameState, action: GameAction): (r: GameState)
    ensures action.SetScore? ==> (r.phase == GameOver <==> AllFilled(r.scores)) && r.phase != Setup
    ensures action.SetScore? || action.AddFiveOfAKindBonus? ==>
      && r.players == state.players
      && |r.scores| == |state.scores|
      && forall i :: 0 <= i < |r.scores| ==> r.scores[i].playerId == state.scores[i].playerId
    ensures action.AddFiveOfAKindBonus? ==> r.phase == state.phase
  {
    match action
    case StartGame(players) =>
      GameState(Playing, players,
        seq(|players|, i requires 0 <= i < |players| => PlayerScores(players[i].id, EmptyScores(), 0)))
    case SetScore(playerId, category, value) =>
      var newScores := seq(|state.scores|, i requires 0 <= i < |state.scores| =>
        WriteCell(state.scores[i], playerId, category, value));
      state.(scores := newScores, phase := if AllFilled(newScores) then GameOver else Playing)
    case AddFiveOfAKindBonus(playerId) =>
      state.(scores := seq(|state.scores|, i requires 0 <= i < |state.scores| =>
        AwardBonus(state.scores[i], playerId)))
    case ResetGame =>
      INITIAL_GAME_STATE
  }

  /**
   * Starting a game, from any state, gives a playing game of exactly the given players,
   * each with a fresh sheet: every category present and null, bonus count 0.
   */
  lemma StartGameFresh(state: GameState, players: seq<Player>)
    ensures var r := GameReducer(state, StartGame(players));
      && r.phase == Playing
      && r.players == players
      && |r.scores| == |players|
      && forall i :: 0 <= i < |players| ==>
        && r.scores[i].playerId == players[i].id
        && r.scores[i].fiveOfAKindBonusCount == 0
        && Complete(r.scores[i].categories)
        && forall c :: r.scores[i].categories[c] == None
  {
    EmptyScoresComplete();
  }

  /**
   * SET_SCORE writes `value` into the named cell of every sheet of `playerId` whose cell is
   * null; every other cell, every bonus count, every id and every other sheet stay as they were.
   */
  lemma SetScoreWritesOneCell(state: GameState, playerId: string, category: Category, value: int)
    ensures var r := GameReducer(state, SetScore(playerId, category, value));
      && |r.scores| == |state.scores|
      && forall i :: 0 <= i < |state.scores| ==>
        var (before, after) := (state.scores[i], r.scores[i]);
        && after.playerId == before.playerId
        && after.fiveOfAKindBonusCount == before.fiveOfAKindBonusCount
        && after.categories.Keys == before.categories.Keys
        && (forall c :: c in before.categories && c != category ==> after.categories[c] == before.categories[c])
        && (before.playerId == playerId && Writable(before, category) ==> after.categories[category] == Some(value))
        && (!(before.playerId == playerId && Writable(before, category)) ==> after == before)
  {
  }

  /**
   * First write wins: when no sheet of `playerId` has the cell null (it is filled, or the
   * id is unknown), SET_SCORE leaves every sheet as it was.
   */
  lemma SetScoreIgnored(state: GameState, playerId: string, category: Category, value: int)
    requires forall i :: 0 <= i < |state.scores| && state.scores[i].playerId == playerId ==>
      !Writable(state.scores[i], category)
    ensures GameReducer(state, SetScore(playerId, category, value)).scores == state.scores
  {
    var r := GameReducer(state, SetScore(playerId, category, value));
    assert forall i :: 0 <= i < |state.scores| ==> r.scores[i] == state.scores[i];
  }

  /** A second SET_SCORE of the same cell, with any value, changes no sheet. */
  lemma SecondWriteIgnored(state: GameState, playerId: string, category: Category, v1: int, v2: int)
    ensures var once := GameReducer(state, SetScore(playerId, category, v1));
      GameReducer(once, SetScore(playerId, category, v2)).scores == once.scores
  {
    var once := GameReducer(state, SetScore(playerId, category, v1));
    forall i | 0 <= i < |once.scores| && once.scores[i].playerId == playerId
      ensures !Writable(once.scores[i], category)
    {
      assert once.scores[i] == WriteCell(state.scores[i], playerId, category, v1);
    }
    SetScoreIgnored(once, playerId, category, v2);
  }

  /** SET_SCORE on a state without sheets (before any game) ends the game: nothing is left unfilled. */
  lemma SetScoreWithoutSheets(state: GameState, playerId: string, category: Category, value: int)
    requires state.scores == []
    ensures GameReducer(state, SetScore(playerId, category, value)).phase == GameOver
  {
  }

  /** The 50 a sheet must hold for a bonus is the catalog's maximum for five of a kind. */
  lemma BonusNeedsMaximumFiveOfAKind()
    ensures CATEGORIES[11].key == FiveOfAKind && CATEGORIES[11].maxScore == 50
  {
  }

  /**
   * ADD_FIVE_OF_A_KIND_BONUS adds exactly 1 to the count of every sheet of `playerId` that holds
   * 50 in five of a kind, and changes nothing else: no cell, no id, no other count, not the
   * phase, not the players.
   */
  lemma AddBonusCounts(state: GameState, playerId: string)
    ensures var r := GameReducer(state, AddFiveOfAKindBonus(playerId));
      && r.phase == state.phase
      && r.players == state.players
      && |r.scores| == |state.scores|
      && forall i :: 0 <= i < |state.scores| ==>
        var (before, after) := (state.scores[i], r.scores[i]);
        && after.playerId == before.playerId
        && after.categories == before.categories
        && after.fiveOfAKindBonusCount ==
             before.fiveOfAKindBonusCount + (if Qualifies(before, playerId) then 1 else 0)
  {
  }

  /** Without a qualifying sheet of `playerId`, ADD_FIVE_OF_A_KIND_BONUS returns the state unchanged. */
  lemma AddBonusIgnored(state: GameState, playerId: string)
    requires forall i :: 0 <= i < |state.scores| ==> !Qualifies(state.scores[i], playerId)
    ensures GameReducer(state, AddFiveOfAKindBonus(playerId)) == state
  {
    var r := GameReducer(state, AddFiveOfAKindBonus(playerId));
    assert r.scores == state.scores;
  }

  /** RESET_GAME returns the initial state from any state: setup, no players, no sheets. */
  lemma ResetFromAnyState(state: GameState)
    ensures var r := GameReducer(state, ResetGame);
      r == INITIAL_GAME_STATE && r.phase == Setup && r.players == [] && r.scores == []
  {
  }

  /**
   * What a state produced by the reducer from the initial state satisfies: one complete sheet
   * per player in player order, counts only above 0 while five of a kind holds 50, no players
   * during setup, and game over exactly when every cell of a non-empty game is filled.
   */
  predicate Consistent(s: GameState) {
    && |s.scores| == |s.players|
    && (forall i :: 0 <= i < |s.scores| ==> s.scores[i].playerId == s.players[i].id)
    && (forall i :: 0 <= i < |s.scores| ==> Complete(s.scores[i].categories))
    && (forall i :: 0 <= i < |s.scores| ==> s.scores[i].fiveOfAKindBonusCount >= 0)
    && (forall i :: 0 <= i < |s.scores| && s.scores[i].fiveOfAKindBonusCount > 0 ==>
          s.scores[i].categories[FiveOfAKind] == Some(50))
    && (s.phase == Setup ==> s.players == [])
    && (s.phase == GameOver ==> AllFilled(s.scores))
    && (s.phase == Playing && s.scores != [] ==> !AllFilled(s.scores))
  }

  lemma StartGameConsistent(state: GameState, players: seq<Player>)
    ensures Consistent(GameReducer(state, StartGame(players)))
  {
    var r := GameReducer(state, StartGame(players));
    StartGameFresh(state, players);
    if players != [] {
      assert !SheetFilled(r.scores[0]) by {
        assert r.scores[0].categories[Ones] == None;
      }
    }
  }

  lemma SetScoreConsistent(state: GameState, playerId: string, category: Category, value: int)
    requires Consistent(state)
    ensures Consistent(GameReducer(state, SetScore(playerId, category, value)))
  {
    var r := GameReducer(state, SetScore(playerId, category, value));
    SetScoreWritesOneCell(state, playerId, category, value);
    forall i | 0 <= i < |r.scores| ensures Complete(r.scores[i].categories) {
      assert Complete(state.scores[i].categories);
    }
  }

  lemma AddBonusConsistent(state: GameState, playerId: string)
    requires Consistent(state)
    ensures Consistent(GameReducer(state, AddFiveOfAKindBonus(playerId)))
  {
    var r := GameReducer(state, AddFiveOfAKindBonus(playerId));
    AddBonusCounts(state, playerId);
    assert AllFilled(r.scores) == AllFilled(state.scores) by {
      assert forall i :: 0 <= i < |r.scores| ==> SheetFilled(r.scores[i]) == SheetFilled(state.scores[i]);
    }
  }

  /** The initial state is consistent, and every action keeps a state consistent. */
  lemma ReducerPreservesConsistency(state: GameState, action: GameAction)
    requires Consistent(state)
    ensures Consistent(INITIAL_GAME_STATE)
    ensures Consistent(GameReducer(state, action))
  {
    match action
    case StartGame(players) => StartGameConsistent(state, players);
    case SetScore(playerId, category, value) => SetScoreConsistent(state, playerId, category, value);
    case AddFiveOfAKindBonus(playerId) => AddBonusConsistent(state, playerId);
    case ResetGame =>
  }

  /** Filled cells are never overwritten by SET_SCORE or ADD_FIVE_OF_A_KIND_BONUS. */
  lemma FilledCellsNeverChange(state: GameState, action: GameAction, i: int, c: Category)
    requires action.SetScore? || action.AddFiveOfAKindBonus?
    requires 0 <= i < |state.scores|
    requires c in state.scores[i].categories && state.scores[i].categories[c].Some?
    ensures var r := GameReducer(state, action);
      c in r.scores[i].categories && r.scores[i].categories[c] == state.scores[i].categories[c]
  {
    match action
    case SetScore(playerId, category, value) =>
      SetScoreWritesOneCell(state, playerId, category, value);
    case AddFiveOfAKindBonus(playerId) =>
      AddBonusCounts(state, playerId);
  }

  /**
   * A SET_SCORE that fills a player's null cell with `value` raises that player's grand
   * total by `value`, plus the upper bonus when the write reaches the threshold.
   */
  lemma SetScoreRaisesTotal(state: GameState, playerId: string, category: Category, value: int, i: int)
    requires 0 <= i < |state.scores|
    requires state.scores[i].playerId == playerId && Writable(state.scores[i], category)
    ensures var (before, after) := (state.scores[i], GameReducer(state, SetScore(playerId, category, value)).scores[i]);
      var (t0, t1) := (ComputeTotals(before.categories, Some(before.fiveOfAKindBonusCount)),
                       ComputeTotals(after.categories, Some(after.fiveOfAKindBonusCount)));
      t1.grandTotal == t0.grandTotal + value + (t1.upperBonus - t0.upperBonus)
  {
    var ps := state.scores[i];
    assert GameReducer(state, SetScore(playerId, category, value)).scores[i]
      == ps.(categories := ps.categories[category := Some(value)]);
    FillAddsValue(ps.categories, category, value, Some(ps.fiveOfAKindBonusCount));
  }
}
