/**
 * The game manager (GUIScripts/GameManager.cs): the game-mode state machine that
 * pauses and unpauses the local player's input, and the per-team table of dead
 * towers that ends the level when the towers its scan covers are dead, and again
 * on every later report for that team.
 */
module Game {

  /** The modes the game can be in, in declaration order. */
  datatype GameMode = StartMenu | GameSetup | Paused | UnPaused | Dead | EndLevel | EndGame

  /** How a call to TowerDied ended: normally, or with an out-of-range array index. */
  datatype CallResult = Returned | IndexOutOfRange

  /** The number of teams and of towers per team: the dimensions of teamTowersDead. */
  const Teams := 2
  const TowersPerTeam := 3

  class GameManager {
    /** teamTowersDead[team, tower] holds once that tower of that team has died. */
    const teamTowersDead: array2<bool>
    /** The current game mode (a static field of the script). */
    var mode: GameMode
    /** Whether the local player's look, movement and controller input are enabled. */
    var inputEnabled: bool
    /** The engine's cursor lock and cursor visibility. */
    var cursorLocked: bool
    var cursorShown: bool
    /** How many times EndLevel has been called. */
    var endLevelCount: nat

    ghost predicate Valid()
    {
      teamTowersDead.Length0 == Teams && teamTowersDead.Length1 == TowersPerTeam
    }

    /**
     * A fresh manager: no tower dead, the mode at its default (the first
     * enumerator), the cursor free and shown and the player's input enabled.
     */
    constructor ()
      ensures Valid() && fresh(teamTowersDead)
      ensures forall i, j :: 0 <= i < Teams && 0 <= j < TowersPerTeam ==> !teamTowersDead[i, j]
      ensures mode == StartMenu && inputEnabled && !cursorLocked && cursorShown
      ensures endLevelCount == 0
    {
      teamTowersDead := new bool[Teams, TowersPerTeam]((i, j) => false);
      mode := StartMenu;
      inputEnabled := true;
      cursorLocked := false;
      cursorShown := true;
      endLevelCount := 0;
    }

    /** C#'s GetLength: the length of dimension `dim` of teamTowersDead. */
    function GetLength(dim: int): nat
      requires dim == 0 || dim == 1
    {
      if dim == 0 then teamTowersDead.Length0 else teamTowersDead.Length1
    }

    /** What TowerDied's scan tests: the first GetLength(team) towers of the team are dead. */
    ghost predicate ScannedTowersDead(team: int)
      requires Valid() && 0 <= team < Teams
      reads teamTowersDead
    {
      forall i :: 0 <= i < GetLength(team) ==> teamTowersDead[team, i]
    }

    /** Every tower of the team is dead. */
    ghost predicate AllTowersDead(team: int)
      requires Valid() && 0 <= team < Teams
      reads teamTowersDead
    {
      forall i :: 0 <= i < TowersPerTeam ==> teamTowersDead[team, i]
    }

    /** Initialisation: pauses, then sets the start menu and clears the tower table. */
    method Start(hasPlayer: bool)
      requires Valid()
      modifies teamTowersDead, this`mode, this`inputEnabled, this`cursorLocked, this`cursorShown
      ensures mode == StartMenu
      ensures !cursorLocked && cursorShown
      ensures inputEnabled == if hasPlayer then false else old(inputEnabled)
      ensures forall i, j :: 0 <= i < Teams && 0 <= j < TowersPerTeam ==> !teamTowersDead[i, j]
    {
      Pause(hasPlayer);
      mode := StartMenu;
      ghost var input := inputEnabled;
      var i := 0;
      while i < teamTowersDead.Length0
        invariant 0 <= i <= teamTowersDead.Length0
        invariant forall a, b :: 0 <= a < i && 0 <= b < teamTowersDead.Length1 ==> !teamTowersDead[a, b]
        invariant mode == StartMenu && !cursorLocked && cursorShown && inputEnabled == input
      {
        var j := 0;
        while j < teamTowersDead.Length1
          invariant 0 <= j <= teamTowersDead.Length1
          invariant forall a, b :: 0 <= a < i && 0 <= b < teamTowersDead.Length1 ==> !teamTowersDead[a, b]
          invariant forall b :: 0 <= b < j ==> !teamTowersDead[i, b]
          invariant mode == StartMenu && !cursorLocked && cursorShown && inputEnabled == input
        {
          teamTowersDead[i, j] := false;
          j := j + 1;
        }
        i := i + 1;
      }
    }

    /**
     * One frame: on the escape key's down edge, Paused becomes UnPaused and
     * UnPaused becomes Paused (with the input and cursor effects of UnPause and
     * Pause); without the key, or in any other mode, nothing changes.
     */
    method Update(escapePressed: bool, hasPlayer: bool)
      modifies this`mode, this`inputEnabled, this`cursorLocked, this`cursorShown
      ensures !escapePressed || old(mode) !in {Paused, UnPaused} ==> unchanged(this)
      ensures escapePressed && old(mode) == Paused ==>
        mode == UnPaused && cursorLocked && !cursorShown
        && inputEnabled == if hasPlayer then true else old(inputEnabled)
      ensures escapePressed && old(mode) == UnPaused ==>
        mode == Paused && !cursorLocked && cursorShown
        && inputEnabled == if hasPlayer then false else old(inputEnabled)
    {
      if !escapePressed {
        return;
      }
      match GetGameMode() {
        case Paused => UnPause(hasPlayer);
        case UnPaused => Pause(hasPlayer);
        case _ =>
      }
    }

    /**
     * Marks the tower dead, then scans the team's row and ends the level when the
     * scanned towers are all dead. The scan runs over GetLength(team), the length
     * of dimension `team` of the table, not over the team's row: two towers for
     * team 0, three for team 1. Nothing stops EndLevel being called again by a
     * later call for an already eliminated team. An index outside the table
     * raises IndexOutOfRange before anything changes.
     */
    method TowerDied(team: int, towerType: int) returns (outcome: CallResult)
      requires Valid()
      modifies teamTowersDead, this`endLevelCount
      ensures outcome == IndexOutOfRange <==> !(0 <= team < Teams && 0 <= towerType < TowersPerTeam)
      ensures outcome == IndexOutOfRange ==>
        unchanged(teamTowersDead) && endLevelCount == old(endLevelCount)
      ensures outcome == Returned ==>
        && teamTowersDead[team, towerType]
        && (forall i, j :: 0 <= i < Teams && 0 <= j < TowersPerTeam && (i != team || j != towerType) ==>
              teamTowersDead[i, j] == old(teamTowersDead[i, j]))
        && endLevelCount == old(endLevelCount) + if ScannedTowersDead(team) then 1 else 0
    {
      if !(0 <= team < teamTowersDead.Length0 && 0 <= towerType < teamTowersDead.Length1) {
        return IndexOutOfRange;
      }
      teamTowersDead[team, towerType] := true;
      var allDead := ScanTeam(team);
      if allDead {
        EndLevel();
      }
      return Returned;
    }

    /**
     * The row scan of TowerDied, with its early return on the first live tower:
     * for team 0 it looks at towers 0 and 1 only, for team 1 at all three.
     */
    method ScanTeam(team: int) returns (allDead: bool)
      requires Valid() && 0 <= team < Teams
      ensures allDead <==> ScannedTowersDead(team)
      ensures team == 0 ==> (allDead <==> teamTowersDead[0, 0] && teamTowersDead[0, 1])
      ensures team == 1 ==> (allDead <==> AllTowersDead(1))
    {
      var i := 0;
      while i < GetLength(team)
        invariant 0 <= i <= GetLength(team)
        invariant forall k :: 0 <= k < i ==> teamTowersDead[team, k]
      {
        if !teamTowersDead[team, i] {
          return false;
        }
        i := i + 1;
      }
      return true;
    }

    /**
     * TowerDied as its documentation describes it: the level ends only once every
     * tower of the team is dead.
     */
    method TowerDiedWholeRow(team: int, towerType: int) returns (outcome: CallResult)
      requires Valid()
      modifies teamTowersDead, this`endLevelCount
      ensures outcome == IndexOutOfRange <==> !(0 <= team < Teams && 0 <= towerType < TowersPerTeam)
      ensures outcome == IndexOutOfRange ==>
        unchanged(teamTowersDead) && endLevelCount == old(endLevelCount)
      ensures outcome == Returned ==>
        && teamTowersDead[team, towerType]
        && (forall i, j :: 0 <= i < Teams && 0 <= j < TowersPerTeam && (i != team || j != towerType) ==>
              teamTowersDead[i, j] == old(teamTowersDead[i, j]))
        && endLevelCount == old(endLevelCount) + if AllTowersDead(team) then 1 else 0
    {
      if !(0 <= team < teamTowersDead.Length0 && 0 <= towerType < teamTowersDead.Length1) {
        return IndexOutOfRange;
      }
      teamTowersDead[team, towerType] := true;
      var allDead := ScanWholeRow(team);
      if allDead {
        EndLevel();
      }
      return Returned;
    }

    /** The corrected scan: every tower of the team's row, stopping at the first live one. */
    method ScanWholeRow(team: int) returns (allDead: bool)
      requires Valid() && 0 <= team < Teams
      ensures allDead <==> AllTowersDead(team)
    {
      var i := 0;
      while i < teamTowersDead.Length1
        invariant 0 <= i <= teamTowersDead.Length1
        invariant forall k :: 0 <= k < i ==> teamTowersDead[team, k]
      {
        if !teamTowersDead[team, i] {
          return false;
        }
        i := i + 1;
      }
      return true;
    }

    /** Every mode except UnPaused counts as paused. */
    function IsPaused(): (paused: bool)
      reads this
      ensures paused <==> mode in {StartMenu, GameSetup, Paused, Dead, GameMode.EndLevel, EndGame}
    {
      mode != UnPaused
    }

    function GetGameMode(): (m: GameMode)
      reads this
      ensures m == mode
    {
      mode
    }

    /** Brings up game setup, from whatever mode the game is in. */
    method SetupGame()
      modifies this`mode
      ensures mode == GameSetup
    {
      mode := GameSetup;
    }

    /**
     * Pauses: the mode becomes Paused, the cursor is freed and shown, and the local
     * player's input is disabled when there is a local player.
     */
    method Pause(hasPlayer: bool)
      modifies this`mode, this`inputEnabled, this`cursorLocked, this`cursorShown
      ensures mode == Paused && !cursorLocked && cursorShown
      ensures inputEnabled == if hasPlayer then false else old(inputEnabled)
    {
      mode := Paused;
      if hasPlayer {
        inputEnabled := false;
      }
      cursorLocked := false;
      cursorShown := true;
    }

    /**
     * Unpauses, mirroring Pause: the mode becomes UnPaused, the cursor is locked
     * and hidden, and the local player's input is enabled when there is one.
     */
    method UnPause(hasPlayer: bool)
      modifies this`mode, this`inputEnabled, this`cursorLocked, this`cursorShown
      ensures mode == UnPaused && cursorLocked && !cursorShown
      ensures inputEnabled == if hasPlayer then true else old(inputEnabled)
    {
      mode := UnPaused;
      if hasPlayer {
        inputEnabled := true;
      }
      cursorLocked := true;
      cursorShown := false;
    }

    /** Starts play: the networking connection is left out; the game is unpaused. */
    method StartGame(hasPlayer: bool)
      modifies this`mode, this`inputEnabled, this`cursorLocked, this`cursorShown
      ensures mode == UnPaused && cursorLocked && !cursorShown
      ensures inputEnabled == if hasPlayer then true else old(inputEnabled)
    {
      UnPause(hasPlayer);
    }

    /** Ends the level; the mode is left as it is. */
    method EndLevel()
      modifies this`endLevelCount
      ensures endLevelCount == old(endLevelCount) + 1
    {
      endLevelCount := endLevelCount + 1;
    }
  }

  /**
   * With two of team 0's three towers dead the level ends, and a further report
   * for the same team ends it again.
   */
  method Team0EndsLevelWithTowerStanding() returns (endLevels: nat, tower2Dead: bool, endLevelsAfterRepeat: nat)
    ensures endLevels == 1 && !tower2Dead && endLevelsAfterRepeat == 2
  {
    var g := new GameManager();
    g.Start(false);
    var _ := g.TowerDied(0, 0);
    assert !g.teamTowersDead[0, 1];
    var _ := g.TowerDied(0, 1);
    endLevels, tower2Dead := g.endLevelCount, g.teamTowersDead[0, 2];
    var _ := g.TowerDied(0, 0);
    endLevelsAfterRepeat := g.endLevelCount;
  }

  /** With the corrected scan, team 0's level ends only when its third tower falls. */
  method Team0EndsLevelOnlyWhenAllTowersFall() returns (afterTwo: nat, afterThree: nat)
    ensures afterTwo == 0 && afterThree == 1
  {
    var g := new GameManager();
    g.Start(false);
    var _ := g.TowerDiedWholeRow(0, 0);
    assert !g.teamTowersDead[0, 1];
    var _ := g.TowerDiedWholeRow(0, 1);
    assert !g.teamTowersDead[0, 2];
    afterTwo := g.endLevelCount;
    var _ := g.TowerDiedWholeRow(0, 2);
    afterThree := g.endLevelCount;
  }

  /**
   * Escape pressed twice during play pauses then resumes: the second press
   * restores the mode, the cursor and the player's input; Pause twice is Pause once.
   */
  method EscapeTogglesPlay() returns (firstPaused: bool, secondPaused: bool, restored: bool, pauseTwiceSame: bool)
    ensures firstPaused && !secondPaused && restored && pauseTwiceSame
  {
    var g := new GameManager();
    g.StartGame(true);
    var before := (g.mode, g.inputEnabled, g.cursorLocked, g.cursorShown);
    g.Update(true, true);
    firstPaused := g.IsPaused() && !g.inputEnabled && g.cursorShown;
    g.Update(true, true);
    secondPaused := g.IsPaused();
    restored := (g.mode, g.inputEnabled, g.cursorLocked, g.cursorShown) == before;
    g.Pause(true);
    var once := (g.mode, g.inputEnabled, g.cursorLocked, g.cursorShown);
    g.Pause(true);
    pauseTwiceSame := (g.mode, g.inputEnabled, g.cursorLocked, g.cursorShown) == once;
  }
}
