/** The value types of the scorecard: categories, players, score sheets, game state, actions. */
module Types {

  datatype Option<+T> = None | Some(value: T)

  /** The thirteen scoring categories: six upper ones (one per die face), seven lower ones. */
  datatype Category =
    | Ones | Twos | Threes | Fours | Fives | Sixes
    | ThreeOfAKind | FourOfAKind | FullHouse | SmallStraight | LargeStraight | FiveOfAKind | Chance

  /** The position of a category in display order, upper section first. */
  function Ordinal(c: Category): (n: nat)
    ensures n < 13
  {
    match c
    case Ones => 0
    case Twos => 1
    case Threes => 2
    case Fours => 3
    case Fives => 4
    case Sixes => 5
    case ThreeOfAKind => 6
    case FourOfAKind => 7
    case FullHouse => 8
    case SmallStraight => 9
    case LargeStraight => 10
    case FiveOfAKind => 11
    case Chance => 12
  }

  datatype Section = Upper | Lower

  /**
   * One player's category cells. `None` is an unfilled cell (null); a category absent
   * from the map stands for a missing property (undefined), which a well-typed sheet never has.
   */
  type CategoryScores = map<Category, Option<int>>

  datatype Player = Player(id: string, name: string)

  datatype PlayerScores = PlayerScores(playerId: string, categories: CategoryScores, fiveOfAKindBonusCount: int)

  datatype PlayerTotals = PlayerTotals(
    upperSubtotal: int,
    upperBonus: int,
    upperTotal: int,
    lowerTotal: int,
    fiveOfAKindBonus: int,
    grandTotal: int)

  datatype GamePhase = Setup | Playing | GameOver

  datatype GameState = GameState(phase: GamePhase, players: seq<Player>, scores: seq<PlayerScores>)

  /** The actions the reducer handles (the declared restore action has no case in it). */
  datatype GameAction =
    | StartGame(players: seq<Player>)
    | SetScore(playerId: string, category: Category, value: int)
    | AddFiveOfAKindBonus(playerId: string)
    | ResetGame

  /** The sheet has a cell (filled or not) for every one of the thirteen categories. */
  predicate Complete(m: CategoryScores) {
    forall c: Category :: c in m
  }

  /** `categories[c] ?? 0`: a filled cell's value, 0 for null or a missing key. */
  function ValueOrZero(m: CategoryScores, c: Category): int {
    if c in m && m[c].Some? then m[c].value else 0
  }
}
