/** state: the game's session record, a single mutable object. */
module GameState {
  import opened Outcomes
  import opened Levels

  /** The game states `range(4)` numbers. */
  const StatePause: int := 0
  const StatePlay: int := 1
  const StateWin: int := 2
  const StateOver: int := 3

  /** The player states `range(2)` numbers. */
  const PlayerRolling: int := 0
  const PlayerFarting: int := 1

  class State {
    var score: int
    var level: Option<Level>
    var levelIdx: Option<int>
    var time: int
    var coins: int
    var farts: int
    var gameState: int
    var playerState: int
    var startLevel: int
    /** The attribute `state`, which only `reset` creates: None until then. */
    var state: Option<int>

    constructor()
      ensures score == 0 && level == None && levelIdx == None && time == 0 && coins == 0 && farts == 0
      ensures gameState == StatePause && playerState == PlayerRolling && startLevel == 0
      ensures state == None
    {
      score, level, levelIdx, time, coins, farts := 0, None, None, 0, 0, 0;
      gameState, playerState, startLevel := StatePause, PlayerRolling, 0;
      state := None;
    }

    /** `reset`: it sets `state`, not `game_state`, and leaves the farts,
        the time and the player untouched. */
    method Reset()
      modifies this
      ensures score == 0 && level == None && levelIdx == None && coins == 0
      ensures state == Some(StatePause)
      ensures farts == old(farts) && time == old(time) && gameState == old(gameState)
      ensures playerState == old(playerState) && startLevel == old(startLevel)
    {
      score := 0;
      level := None;
      levelIdx := None;
      state := Some(StatePause);
      coins := 0;
    }

    /** `set_level`: the index is stored first; a bad index raises at the
        lookup, a good one stores the entry and zeroes coins and farts, and
        then reading `time` from the entry, a pair that has none, raises. */
    method SetLevel(l: int) returns (r: Result<()>)
      modifies this
      ensures r.Err?
      ensures levelIdx == Some(l)
      ensures r.error == IndexError <==> !(-|Catalogue| <= l < |Catalogue|)
      ensures r.error == IndexError ==>
                level == old(level) && coins == old(coins) && farts == old(farts)
      ensures r.error != IndexError ==>
                r.error == AttributeError && level == Some(Entry(l).value) && coins == 0 && farts == 0
      ensures time == old(time) && score == old(score) && state == old(state)
      ensures gameState == old(gameState) && playerState == old(playerState) && startLevel == old(startLevel)
    {
      levelIdx := Some(l);
      var e := Entry(l);
      if e.Err? {
        return Err(e.error);
      }
      level := Some(e.value);
      coins := 0;
      farts := 0;
      return Err(AttributeError);
    }
  }
}
