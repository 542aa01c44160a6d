# Five-of-a-Kind scorecard: rules engine

A Dafny model of the rules engine behind a Yahtzee-style scorecard for one device. It has five parts:

- **Category catalog** (`constants.dfy`, module `Constants`): the thirteen scoring categories, six upper and seven lower. Each has its section, maximum and the list of legal scores the entry widgets offer, built by `upperScores` and `range`. The module also holds the section filters, the categories barred from a bonus placement, the upper-bonus threshold and value, and the player-count bounds.
- **Totals calculator** (`compute_totals.dfy`, module `Totals`): `computeTotals`, from one player's cells and bonus count to six figures. These are the upper subtotal, the upper bonus (35 at 63 or more), the upper total, the lower total, the five-of-a-kind bonus (100 per event) and the grand total.
- **Game state machine** (`game_reducer.dfy`, module `Reducer`): `createEmptyScores`, the initial state and `gameReducer` over the actions START_GAME, SET_SCORE, ADD_FIVE_OF_A_KIND_BONUS and RESET_GAME.
  - A score cell is written once; the first write wins.
  - The game-over phase is recomputed after every score write.
  - The bonus counter moves only while five of a kind holds 50.
  - Reset returns the initial state.
- **Result ranking** (`game_over_banner.dfy`, module `Ranking`): the players paired with their totals, bonus included, and stably sorted by grand total, highest first. Also the top score, the tie test and the winner test.
- **Setup helpers** (`setup_screen.dfy`, module `Setup`): the setup screen's player count and name slots as a class. It covers the clamped count adjustment, the single-slot name update, and the player list that starting a game dispatches. A blank name becomes `Player i+1`; any other name is kept with white space trimmed from both ends.

Shared datatypes live in `types.dfy` (module `Types`).

- A player's sheet is a `map<Category, Option<int>>`:
  - `None` is a null cell;
  - a missing key is an `undefined` one, which `?? 0` reads as 0 and `!== null` treats as filled.
- Each operation that is a pure expression in the source is a function here:
  - the catalog;
  - `computeTotals`;
  - `gameReducer`, which never mutates its input;
  - the ranking.
- `createEmptyScores` keeps its loop as a method.
- The setup screen's two state hooks are fields of `Setup.SetupForm`, which its methods update.

## Model

| member | source | states |
|---|---|---|
| Constants.UpperScoresShape | src/constants.ts:3-5 | `upperScores(face)` has six entries, the i-th equal to `face * i`, running from 0 to `5 * face`; it is strictly increasing for a positive face |
| Constants.UpperScoresAreMultiples | src/constants.ts:3-5 | a value is offered by `upperScores(face)` exactly when it is `face * k` for some k from 0 to 5 |
| Constants.RangeContents | src/constants.ts:7-9 | `range(start, end)` has `end - start + 1` entries (none when that is not positive); the i-th is `start + i`; it holds exactly the integers from start to end, strictly increasing |
| Constants.Filter | src/constants.ts:29-30 | a section filter keeps exactly the catalog entries that satisfy the test and never grows the list |
| Constants.FilterAppend | src/constants.ts:29-30 | filtering a concatenation filters each part and concatenates the results, so order is preserved |
| Constants.CatalogHalves | src/constants.ts:11-27 | the catalog is the six upper entries (lines 13-18) followed by the seven lower entries (lines 20-26) |
| Constants.UpperSectionIsPrefix | src/constants.ts:29 | `UPPER_CATEGORIES` is exactly the first six catalog entries, in catalog order |
| Constants.LowerSectionIsSuffix | src/constants.ts:30 | `LOWER_CATEGORIES` is exactly the last seven catalog entries, in catalog order |
| Constants.SectionsPartitionCatalog | src/constants.ts:11-30 | the two sections have 6 and 7 entries, and upper followed by lower is the whole catalog |
| Constants.CatalogScoreLists | src/constants.ts:13-26 | there are 13 categories; each score list starts at 0, is strictly increasing and ends at the category's maximum, which bounds every legal score |
| Constants.UpperCategoryScores | src/constants.ts:13-18 | the upper entry for face f is in the upper section, offers `upperScores(f)` and has maximum `5 * f` |
| Constants.FixedScoreCategories | src/constants.ts:20-26 | the fixed-score categories are exactly full house, the two straights and five of a kind; each is lower-section and offers exactly `[0, maxScore]`; the maxima are 25, 30, 40 and 50 |
| Constants.SumScoresAreDiceTotals | src/constants.ts:20-21 | `[0, ...range(5, 30)]` holds exactly 0 and the integers 5 to 30 |
| Constants.SumStyleCategories | src/constants.ts:20-21 | three of a kind, four of a kind and chance (line 26) offer `[0] + range(5, 30)`, that is 0 or any five-dice sum from 5 to 30 |
| Constants.PlayerBounds | src/constants.ts:35-36 | `MIN_PLAYERS` is 1, `MAX_PLAYERS` is 100 and they are ordered |
| Constants.BonusInvalidCategories | src/constants.ts:33 | full house, small straight and large straight are all catalog entries; each is a fixed-score lower category other than five of a kind |
| Totals.ComputeTotals | src/state/computeTotals.ts:15-33 | the bonus is 35 exactly when the upper subtotal reaches 63, otherwise 0; the upper total is subtotal plus bonus; the five-of-a-kind bonus is 100 per event, with an omitted count counting 0; the grand total is upper total plus lower total plus that bonus |
| Totals.SumOverAppend | src/state/computeTotals.ts:16-18 | the null-as-zero fold over two key lists in turn is the sum of the two folds |
| Totals.SumOverNonNegative | src/state/computeTotals.ts:16-18 | with non-negative filled cells the fold is non-negative |
| Totals.SumOverUnfilled | src/state/computeTotals.ts:16-18 | over a sheet with no filled cell the fold is 0 |
| Totals.SumOverWrite | src/state/computeTotals.ts:16-18 | filling an unfilled cell with v raises the fold over a duplicate-free key list by v if the key is listed, and leaves it otherwise |
| Totals.KeyListsDistinct | src/state/computeTotals.ts:4-11 | neither key list repeats a category, and the two lists share none |
| Totals.KeysMatchCatalog | src/state/computeTotals.ts:4-11 | `UPPER_KEYS` and `LOWER_KEYS` are the keys of `UPPER_CATEGORIES` and `LOWER_CATEGORIES`, in order |
| Totals.GrandTotalIsSheetSum | src/state/computeTotals.ts:15-33 | the grand total is the sum of all thirteen cells (null as 0) plus the upper bonus plus the five-of-a-kind bonus |
| Totals.UnfilledSheetTotalsZero | src/state/computeTotals.ts:15-33 | an all-null sheet with count 0 or omitted gives 0 for all six figures |
| Totals.TotalsNonNegative | src/state/computeTotals.ts:15-33 | non-negative cells and count give six non-negative figures |
| Totals.FillAddsValue | src/state/computeTotals.ts:16-31 | filling an unfilled cell with v adds v to its own section's sum only; the grand total grows by v plus any change of upper bonus, and never shrinks for v at least 0 |
| Totals.UpperSubtotalIsCellSum | src/state/computeTotals.ts:16-18 | the upper subtotal is the sum of the six upper cells, a null or missing cell counting 0 |
| Totals.ThresholdReachedAt63 | src/state/computeTotals.ts:19 | an example at the boundary: three dice of every face is a sheet of legal catalog scores whose upper subtotal is exactly 63, and it earns the 35-point bonus |
| Totals.ThresholdMissedAt62 | src/state/computeTotals.ts:19 | the same legal sheet with one point less (two ones) has upper subtotal 62 and earns no bonus |
| Reducer.CategoryListsAgree | src/state/gameReducer.ts:3-7 | `ALL_CATEGORIES` lists every category exactly once; it equals `UPPER_KEYS` followed by `LOWER_KEYS`, and the catalog's keys in order |
| Reducer.CatalogKeysInOrder | src/constants.ts:13-26 | the catalog's keys, read in order, are `ALL_CATEGORIES` |
| Reducer.EmptyScoresComplete | src/state/gameReducer.ts:9-15 | the empty sheet has every one of the thirteen categories present, all null |
| Reducer.CreateEmptyScores | src/state/gameReducer.ts:9-15 | the loop produces the empty sheet: every category present and null |
| Reducer.GameReducer | src/state/gameReducer.ts:23-68 | after SET_SCORE the phase is game over exactly when every cell of every sheet is filled, and otherwise playing; SET_SCORE and the bonus action keep the players, the number of sheets and each sheet's player id; the bonus action keeps the phase |
| Reducer.StartGameFresh | src/state/gameReducer.ts:25-34 | from any state, START_GAME gives a playing game of exactly the given players, with one sheet per player in order carrying that player's id, every category present and null, and count 0 |
| Reducer.SetScoreWritesOneCell | src/state/gameReducer.ts:36-44 | SET_SCORE writes `value` into the named cell of the sheets of `playerId` where that cell is null; every other cell, count, id and sheet is unchanged |
| Reducer.SetScoreIgnored | src/state/gameReducer.ts:38-39 | with an unknown player or an already-filled cell, SET_SCORE leaves every sheet unchanged |
| Reducer.SecondWriteIgnored | src/state/gameReducer.ts:39 | a second SET_SCORE of the same cell, with any value, changes no sheet (first write wins) |
| Reducer.SetScoreWithoutSheets | src/state/gameReducer.ts:46-54 | SET_SCORE on a state with no sheets yields game over, since no cell is left unfilled |
| Reducer.BonusNeedsMaximumFiveOfAKind | src/state/gameReducer.ts:60 | the 50 the bonus action requires is the catalog's maximum for five of a kind |
| Reducer.AddBonusCounts | src/state/gameReducer.ts:57-64 | ADD_FIVE_OF_A_KIND_BONUS adds exactly 1 to the count of each sheet of the player whose five of a kind holds 50, and changes no cell, id, other count, the players or the phase |
| Reducer.AddBonusIgnored | src/state/gameReducer.ts:57-64 | without such a sheet the bonus action returns the state unchanged |
| Reducer.ResetFromAnyState | src/state/gameReducer.ts:66-67 | RESET_GAME returns the initial state (lines 17-21) from any state: setup, no players, no sheets |
| Reducer.StartGameConsistent | src/state/gameReducer.ts:25-34 | START_GAME always yields a consistent state: one complete sheet per player in player order, counts 0, playing |
| Reducer.SetScoreConsistent | src/state/gameReducer.ts:36-55 | SET_SCORE preserves consistency, including game over exactly when a non-empty game has every cell filled |
| Reducer.AddBonusConsistent | src/state/gameReducer.ts:57-64 | the bonus action preserves consistency: a positive count only beside a five of a kind of 50 |
| Reducer.ReducerPreservesConsistency | src/state/gameReducer.ts:17-68 | the initial state is consistent and every action keeps a consistent state consistent |
| Reducer.FilledCellsNeverChange | src/state/gameReducer.ts:36-64 | neither SET_SCORE nor the bonus action changes a filled cell |
| Reducer.SetScoreRaisesTotal | src/state/gameReducer.ts:40-43 | a SET_SCORE that fills a player's null cell raises that player's grand total by the value plus any change of upper bonus |
| Ranking.WithTotal | src/components/GameOverBanner.tsx:19 | the filtered entries all have the given grand total, and there are no more of them than entries |
| Ranking.WithTotalMembers | src/components/GameOverBanner.tsx:19 | the filter for a total keeps exactly the entries that have that total |
| Ranking.Insert | src/components/GameOverBanner.tsx:16 | inserting one entry adds exactly that entry to the multiset of entries |
| Ranking.SortByGrandTotal | src/components/GameOverBanner.tsx:16 | sorting keeps the length and the multiset of entries: it is a permutation |
| Ranking.SortIsOrdered | src/components/GameOverBanner.tsx:16 | the sorted entries are ordered by grand total, highest first |
| Ranking.SortIsStable | src/components/GameOverBanner.tsx:16 | for every total, the entries with that total keep their original relative order |
| Ranking.InsertSorted | src/components/GameOverBanner.tsx:16 | inserting into a list ordered highest first keeps it ordered |
| Ranking.InsertKeepsTies | src/components/GameOverBanner.tsx:16 | an inserted entry goes before every entry with an equal total |
| Ranking.RankedIsSortedPermutation | src/components/GameOverBanner.tsx:11-16 | `ranked` pairs each player with the totals of their own sheet (bonus count included); it is a permutation of those pairs, ordered highest first, with equal totals in player order |
| Ranking.TopScoreIsMaximum | src/components/GameOverBanner.tsx:18 | with at least one player, the top score is at least every player's grand total and is some player's grand total |
| Ranking.WithTotalNonEmpty | src/components/GameOverBanner.tsx:19 | the filter for a total is non-empty exactly when some entry has that total |
| Ranking.TwoWithTotal | src/components/GameOverBanner.tsx:19 | the filter for a total has more than one entry exactly when two distinct positions have that total |
| Ranking.IsTieIffSharedTop | src/components/GameOverBanner.tsx:19 | `isTie` holds exactly when two different players have the top score |
| Ranking.WinnersHoldTopScore | src/components/GameOverBanner.tsx:35 | a row is a winner when it has the top score (line 18); the first row is always a winner; every winner has the greatest total; without a tie, every later row scores strictly less than the top |
| Setup.Trim | src/components/SetupScreen.tsx:28 | `trim()` returns a slice of the name from which only white space was cut at either end, and the result neither starts nor ends with white space |
| Setup.TrimEmptyIffAllWhiteSpace | src/components/SetupScreen.tsx:28 | a name trims to the empty string exactly when it is all white space |
| Setup.TrimIdempotent | src/components/SetupScreen.tsx:28 | trimming a trimmed name changes nothing |
| Setup.NatToString | src/components/SetupScreen.tsx:28 | the decimal rendering of `i + 1` is non-empty and all digits, with no leading zero |
| Setup.NatToStringRoundTrip | src/components/SetupScreen.tsx:28 | reading the rendered digits back gives the number |
| Setup.ClampCount | src/components/SetupScreen.tsx:14 | the clamped count is always between `MIN_PLAYERS` and `MAX_PLAYERS` |
| Setup.ClampCountMoves | src/components/SetupScreen.tsx:14 | the count moves by delta when that stays in range and otherwise stops at the nearer bound, so -1 at the minimum and +1 at the maximum change nothing |
| Setup.RemoveThenAddRestores | src/components/SetupScreen.tsx:13-15 | from any in-range count, -1 then +1 (above the minimum) and +1 then -1 (below the maximum) restore it, and 0 keeps it |
| Setup.DisplayName | src/components/SetupScreen.tsx:28 | a player's name is the trimmed slot unless that is all white space, otherwise `Player ` and the position; it is never empty and never starts or ends with white space |
| Setup.DefaultNamesDistinct | src/components/SetupScreen.tsx:28 | unnamed players at different positions get different default names |
| Setup.SetupForm.constructor | src/components/SetupScreen.tsx:10-11 | the form starts with two players and `MAX_PLAYERS` empty name slots |
| Setup.SetupForm.AdjustCount | src/components/SetupScreen.tsx:13-15 | `adjustCount(delta)` sets the count to the clamped `count + delta` and leaves the names alone |
| Setup.SetupForm.UpdateName | src/components/SetupScreen.tsx:17-23 | `updateName(i, v)` replaces slot i with v, keeps the number of slots and every other slot, and leaves the count alone |
| Setup.SetupForm.Players | src/components/SetupScreen.tsx:26-29 | `startGame` builds exactly `playerCount` players, the i-th with the i-th generated id and a non-empty name |
| Setup.SetupForm.StartGameAction | src/components/SetupScreen.tsx:26-30 | the dispatched action is START_GAME with between `MIN_PLAYERS` and `MAX_PLAYERS` players |
| Setup.PlayerNames | src/components/SetupScreen.tsx:28 | player i is named `Player i+1` when slot i is all white space, and otherwise the trimmed slot |
| Setup.SetupStartsConsistentGame | src/components/SetupScreen.tsx:26-30 | from any state, the action the setup screen dispatches starts a consistent playing game of the form's players, all named, with every total 0 |

## Left out

- RESTORE_STATE is declared as an action (src/types.ts:55), but `gameReducer` has no case for it, so the reducer returns `undefined` for it. The model's action type omits it, and no replace-the-state meaning is given to it.
- The undo log (snapshots, pending restore, delayed commit) is not part of this model; none of the modelled source implements it.
- Player ids come from `Math.random` and `Date.now` (src/components/SetupScreen.tsx:27). They are nondeterministic, so they are a parameter `ids` of `Players`, `StartGameAction` and `SetupStartsConsistentGame`.
- `dispatch` and `window.scrollTo` (src/components/SetupScreen.tsx:30-31) are external effects and are not modelled.
- Scores, counts and totals are unbounded integers. JavaScript numbers would also admit fractions, NaN and float rounding, which no caller produces.
- Catalog descriptions (`shortDescription`, `scoring`) are display text and are left out; only the label is kept, as `name`.
- START_GAME checks nothing about the number of players. The model does not enforce 1 to `MAX_PLAYERS` either; the bound comes from the setup screen (`Setup.SetupForm.StartGameAction`). Nothing in the reducer limits the number of players; only the setup screen's clamp keeps it between 1 and 100.
- Setup.SetupForm.UpdateName requires an index within the 100 slots. JavaScript would extend the array for a larger index, but the screen only edits slots below the player count.
- Ranking.SortByGrandTotal is a stable insertion sort. `Array.prototype.sort` is only required to be stable, and any stable sort with this comparator yields the same order.
- Ranking.Entries requires at least as many sheets as players. With fewer, `scores[i]` is `undefined` and the banner throws.
- Ranking.TopScore requires a non-empty ranking. With zero players `ranked[0]` is `undefined` and the banner throws.
- Setup.Trim works on Unicode code points, not on UTF-16 code units; the white-space set is the one `String.prototype.trim` uses.
- The WheelPicker, theme, scorecard, score-cell, score-entry and game-screen components, and the app wiring, are rendering and platform glue; they are not part of this model.
