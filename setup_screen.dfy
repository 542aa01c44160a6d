/**
 * The setup screen's state and the rules it applies: the player count stays within the
 * allowed range, name slots are edited one at a time, and starting the game builds one
 * player per slot, naming unnamed players after their position.
 */
module Setup {
  import opened Types
  import opened Constants
  import opened Totals
  import opened Reducer

  /**
   * The characters JavaScript's `String.prototype.trim` removes: the WhiteSpace code points
   * (tab, vertical tab, form feed, space, no-break space, byte order mark and the other
   * space separators) and the LineTerminator code points.
   */
  predicate IsWhiteSpace(c: char) {
    c in {'\U{9}', '\U{B}', '\U{C}', '\U{20}', '\U{A0}', '\U{FEFF}',
          '\U{1680}', '\U{2000}', '\U{2001}', '\U{2002}', '\U{2003}', '\U{2004}', '\U{2005}',
          '\U{2006}', '\U{2007}', '\U{2008}', '\U{2009}', '\U{200A}', '\U{202F}', '\U{205F}',
          '\U{3000}',
          '\U{A}', '\U{D}', '\U{2028}', '\U{2029}'}
  }

  predicate AllWhiteSpace(s: string) {
    forall k :: 0 <= k < |s| ==> IsWhiteSpace(s[k])
  }

  /** The number of white-space characters at the start of `s`. */
  function LeadingSpace(s: string): (n: nat)
    ensures n <= |s|
    ensures AllWhiteSpace(s[..n])
    ensures n < |s| ==> !IsWhiteSpace(s[n])
  {
    if s == [] || !IsWhiteSpace(s[0]) then 0
    else
      var n := 1 + LeadingSpace(s[1..]);
      assert forall k :: 1 <= k < n ==> s[k] == s[1..][k - 1];
      n
  }

  /** The number of white-space characters at the end of `s`. */
  function TrailingSpace(s: string): (n: nat)
    ensures n <= |s|
    ensures AllWhiteSpace(s[|s| - n..])
    ensures n < |s| ==> !IsWhiteSpace(s[|s| - n - 1])
  {
    if s == [] || !IsWhiteSpace(s[|s| - 1]) then 0
    else
      var init := s[..|s| - 1];
      var n := 1 + TrailingSpace(init);
      assert forall k :: |s| - n <= k < |s| - 1 ==> s[k] == init[k];
      n
  }

  /**
   * `s.trim()`: the slice of `s` left after removing white space at both ends; it starts
   * and ends with a character that is not white space, or is empty.
   */
  function Trim(s: string): (r: string)
    ensures r == [] || (!IsWhiteSpace(r[0]) && !IsWhiteSpace(r[|r| - 1]))
    ensures exists i, j :: 0 <= i <= j <= |s| && r == s[i..j] && AllWhiteSpace(s[..i]) && AllWhiteSpace(s[j..])
  {
    var i := LeadingSpace(s);
    if i == |s| then
      assert s[..i] == s && s[i..i] == [] && s[i..] == [];
      []
    else
      var j := |s| - TrailingSpace(s);
      s[i..j]
  }

  /** A string is trimmed to nothing exactly when it is all white space. */
  lemma TrimEmptyIffAllWhiteSpace(s: string)
    ensures Trim(s) == [] <==> AllWhiteSpace(s)
  {
    var i := LeadingSpace(s);
    if i < |s| {
      assert !IsWhiteSpace(s[i]);
      assert Trim(s) != [];
    } else {
      assert s[..i] == s;
    }
  }

  /** Trimming twice is trimming once. */
  lemma TrimIdempotent(s: string)
    ensures Trim(Trim(s)) == Trim(s)
  {
    var t := Trim(s);
    if t != [] {
      assert LeadingSpace(t) == 0;
      assert TrailingSpace(t) == 0;
      assert t[0..|t|] == t;
    }
  }

  /** The decimal digit `d`. */
  function DigitChar(d: nat): (c: char)
    requires d < 10
    ensures '0' <= c <= '9'
  {
    ('0' as int + d) as char
  }

  predicate AllDigits(s: string) {
    forall k :: 0 <= k < |s| ==> '0' <= s[k] <= '9'
  }

  /** The decimal rendering of `n`, as a template literal writes a non-negative integer. */
  function NatToString(n: nat): (r: string)
    ensures |r| > 0 && AllDigits(r)
    ensures r[0] == '0' ==> n == 0
    decreases n
  {
    if n < 10 then [DigitChar(n)]
    else NatToString(n / 10) + [DigitChar(n % 10)]
  }

  /** The value of a string of decimal digits. */
  function DigitsValue(s: string): nat
    requires AllDigits(s)
  {
    if s == [] then 0
    else DigitsValue(s[..|s| - 1]) * 10 + (s[|s| - 1] as int - '0' as int)
  }

  /** Reading back the rendering of `n` gives `n`: distinct numbers render differently. */
  lemma {:induction false} NatToStringRoundTrip(n: nat)
    ensures DigitsValue(NatToString(n)) == n
    decreases n
  {
    if n >= 10 {
      NatToStringRoundTrip(n / 10);
      var r := NatToString(n);
      assert r[..|r| - 1] == NatToString(n / 10);
    }
  }

  /** `c + delta` clamped to [MIN_PLAYERS, MAX_PLAYERS]. */
  function ClampCount(c: int, delta: int): (r: int)
    ensures MIN_PLAYERS <= r <= MAX_PLAYERS
  {
    var raised := if MIN_PLAYERS > c + delta then MIN_PLAYERS else c + delta;
    if MAX_PLAYERS < raised then MAX_PLAYERS else raised
  }

  /**
   * Adjusting moves the count by `delta` when the result stays in range, and stops at the
   * nearer bound otherwise.
   */
  lemma ClampCountMoves(c: int, delta: int)
    ensures MIN_PLAYERS <= c + delta <= MAX_PLAYERS ==> ClampCount(c, delta) == c + delta
    ensures c + delta < MIN_PLAYERS ==> ClampCount(c, delta) == MIN_PLAYERS
    ensures c + delta > MAX_PLAYERS ==> ClampCount(c, delta) == MAX_PLAYERS
  {
  }

  /** Removing a player and adding one back restores any count above the minimum, and back. */
  lemma RemoveThenAddRestores(c: int)
    requires MIN_PLAYERS <= c <= MAX_PLAYERS
    ensures c > MIN_PLAYERS ==> ClampCount(ClampCount(c, -1), 1) == c
    ensures c < MAX_PLAYERS ==> ClampCount(ClampCount(c, 1), -1) == c
    ensures ClampCount(c, 0) == c
  {
  }

  /** The trimmed name, or `Player ` followed by the 1-based position when it trims to nothing. */
  function DisplayName(name: string, i: nat): (r: string)
    ensures r != [] && !IsWhiteSpace(r[0]) && !IsWhiteSpace(r[|r| - 1])
    ensures !AllWhiteSpace(name) ==> r == Trim(name)
    ensures AllWhiteSpace(name) ==> r == "Player " + NatToString(i + 1)
  {
    TrimEmptyIffAllWhiteSpace(name);
    var trimmed := Trim(name);
    if trimmed != [] then trimmed
    else
      var number := NatToString(i + 1);
      var r := "Player " + number;
      assert r[|r| - 1] == number[|number| - 1];
      r
  }

  /** Unnamed players at different positions get different default names. */
  lemma DefaultNamesDistinct(i: nat, j: nat)
    requires i != j
    ensures "Player " + NatToString(i + 1) != "Player " + NatToString(j + 1)
  {
    var a, b := NatToString(i + 1), NatToString(j + 1);
    if "Player " + a == "Player " + b {
      assert a == ("Player " + a)[7..] == ("Player " + b)[7..] == b;
      NatToStringRoundTrip(i + 1);
      NatToStringRoundTrip(j + 1);
    }
  }

  /** The setup screen's two pieces of state: the chosen player count and the name slots. */
  class SetupForm {
    var playerCount: int
    var names: seq<string>

    /** The count is in range and there is a name slot for every possible player. */
    predicate Valid()
      reads this
    {
      MIN_PLAYERS <= playerCount <= MAX_PLAYERS && |names| == MAX_PLAYERS
    }

    /** Two players, and `MAX_PLAYERS` empty name slots. */
    constructor ()
      ensures Valid()
      ensures playerCount == 2
      ensures names == seq(MAX_PLAYERS, _ => "")
    {
      playerCount := 2;
      names := seq(MAX_PLAYERS, _ => "");
    }

    /** `adjustCount(delta)`: move the count by `delta`, clamped to the allowed range. */
    method AdjustCount(delta: int)
      requires Valid()
      modifies this
      ensures Valid()
      ensures playerCount == ClampCount(old(playerCount), delta)
      ensures names == old(names)
    {
      playerCount := ClampCount(playerCount, delta);
    }

    /** `updateName(index, value)`: replace one name slot, leaving the others as they were. */
    method UpdateName(index: int, value: string)
      requires Valid()
      requires 0 <= index < |names|
      modifies this
      ensures Valid()
      ensures names == old(names)[index := value]
      ensures playerCount == old(playerCount)
    {
      names := names[index := value];
    }

    /**
     * The players `startGame` dispatches: one per counted slot, carrying the identifier
     * generated for it and the slot's display name.
     */
    function Players(ids: seq<string>): (r: seq<Player>)
      reads this
      requires Valid()
      requires |ids| == playerCount
      ensures |r| == playerCount
      ensures forall i :: 0 <= i < |r| ==> r[i].id == ids[i] && r[i].name != []
    {
      var (count, slots) := (playerCount, names);
      seq(count, i requires 0 <= i < count => Player(ids[i], DisplayName(slots[i], i)))
    }

    /** `startGame`: the action it dispatches. */
    function StartGameAction(ids: seq<string>): (a: GameAction)
      reads this
      requires Valid()
      requires |ids| == playerCount
      ensures a.StartGame? && MIN_PLAYERS <= |a.players| <= MAX_PLAYERS
    {
      StartGame(Players(ids))
    }
  }

  /**
   * A player named only with white space gets the default name of their position; any
   * other name is kept with the surrounding white space removed.
   */
  lemma PlayerNames(form: SetupForm, ids: seq<string>, i: int)
    requires form.Valid() && |ids| == form.playerCount && 0 <= i < form.playerCount
    ensures var p := form.Players(ids)[i];
      && (AllWhiteSpace(form.names[i]) ==> p.name == "Player " + NatToString(i + 1))
      && (!AllWhiteSpace(form.names[i]) ==> p.name == Trim(form.names[i]))
      && !IsWhiteSpace(p.name[0]) && !IsWhiteSpace(p.name[|p.name| - 1])
  {
  }

  /**
   * Whatever state the game is in, the action the setup screen dispatches starts a consistent
   * game of one to `MAX_PLAYERS` players, in slot order, every one with a non-empty name, an
   * unfilled sheet and all totals at 0.
   */
  lemma SetupStartsConsistentGame(form: SetupForm, ids: seq<string>, state: GameState)
    requires form.Valid() && |ids| == form.playerCount
    ensures var r := GameReducer(state, form.StartGameAction(ids));
      && r.phase == Playing
      && r.players == form.Players(ids)
      && MIN_PLAYERS <= |r.players| <= MAX_PLAYERS
      && Consistent(r)
      && forall i :: 0 <= i < |r.players| ==>
        && r.players[i].name != []
        && ComputeTotals(r.scores[i].categories, Some(r.scores[i].fiveOfAKindBonusCount)) == PlayerTotals(0, 0, 0, 0, 0, 0)
  {
    var action := form.StartGameAction(ids);
    var r := GameReducer(state, action);
    assert r == GameReducer(INITIAL_GAME_STATE, action);
    ReducerPreservesConsistency(INITIAL_GAME_STATE, action);
    StartGameFresh(state, action.players);
    forall i | 0 <= i < |r.players|
      ensures ComputeTotals(r.scores[i].categories, Some(r.scores[i].fiveOfAKindBonusCount)) == PlayerTotals(0, 0, 0, 0, 0, 0)
    {
      UnfilledSheetTotalsZero(r.scores[i].categories, Some(0));
    }
  }
}
