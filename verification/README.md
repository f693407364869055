# Arena shooter game logic in Dafny

This project models the sequential game logic of a small Unity arena shooter
(towers, players, elemental combat stats) and proves properties of it:

- `Game` (game_manager.dfy) models `GameManager`. It holds the game-mode state
  machine (start menu, setup, paused, unpaused, dead, end of level, end of game),
  with the pause and unpause effects on the local player's input and on the cursor.
  It also holds the 2×3 table of dead towers per team. The table ends the level when
  the towers the scan covers are dead (see Findings), and again on every later report
  for that team.
- `ElementalObject` (elemental_object.dfy) models the current combatant script,
  `Assets/Scripts/GameMechanicsScripts/ElementalObjectScript.cs`. A hit deals the
  quotient `amount / defense` rounded up and never clamps health. Every lethal hit
  kills a player and refills them to 100. The first lethal hit on a tower reports
  the tower's death and marks the tower dead for good.
- `LegacyElementalObject` (legacy_elemental_object.dfy) models the older combatant
  script, `Assets/Scripts/ElementalObjectScript.cs`. A hit deals the quotient rounded
  down, and only when health stays positive. Otherwise health is kept, and the hit
  destroys a player or reports a tower's death, again on every such hit.
- `UnityMath` (unity_math.dfy) holds the two roundings, `Mathf.FloorToInt` and
  `Mathf.CeilToInt`, over mathematical reals. `Elements` (elements.dfy) holds the
  `Element` tag that both scripts declare. `DamageVariants` (damage_variants.dfy)
  compares the two scripts' damage.

Each script is a class whose fields its methods update in place. Calls into code
outside the model are appended to an `events` sequence (`Kill`, `TowerDeath`,
`Destroy`) or counted (`endLevelCount`):

- `PlayerControler.Kill`
- `TowerScript.Death`
- `Destroy`
- `GameManager.EndLevel`

Each combatant's `Hurt` is proved against a pure step function, `HurtStep`. That
function's contract gives the one-hit behaviour. Lemmas over `HurtAll`, a run of
hits, give the lifetime behaviour.

Where the code and the documented intent differ, the model follows the code:

- A team's level ends after a scan of `GetLength(team)` towers, not of the team's
  whole row (see Findings).
- `EndLevel` is reported again for every later tower death of an eliminated team.
- `EndLevel` does not change the game mode.
- Health is not clamped at zero.
- A negative defense is not rejected. A zero defense is excluded by the precondition (see Left out).

## Model

| member | source | states |
|---|---|---|
| `UnityMath.FloorToInt` | Assets/Scripts/ElementalObjectScript.cs:16 | the result is the greatest integer not above the quotient |
| `UnityMath.CeilToInt` | Assets/Scripts/GameMechanicsScripts/ElementalObjectScript.cs:18 | the result is the least integer not below the quotient |
| `DamageVariants.CurrentDealsAtMostOneMore` | Assets/Scripts/GameMechanicsScripts/ElementalObjectScript.cs:18 | for every hit and nonzero defense, the current script's damage (rounded up) equals the older script's (rounded down, Assets/Scripts/ElementalObjectScript.cs:16) on a whole-number quotient and is exactly one point more otherwise |
| `ElementalObject.DamageDealt` | Assets/Scripts/GameMechanicsScripts/ElementalObjectScript.cs:18 | damage is `amount / defense` rounded up; a non-negative hit against positive defense deals at least 0, and a positive hit at least 1 |
| `ElementalObject.HurtStep` | Assets/Scripts/GameMechanicsScripts/ElementalObjectScript.cs:17-31 | a callback fires iff the combatant was not dead and health minus damage is at most 0 (at most one callback); it is Kill iff the combatant is a player; health drops by exactly the damage unless Kill fired, in which case it is 100; dead becomes true only through TowerDeath and never reverts; a live player is never dead and has positive health afterwards |
| `ElementalObject.TowerReportsDeathOnce` | Assets/Scripts/GameMechanicsScripts/ElementalObjectScript.cs:14-31 | over any run of hits a tower loses exactly the sum of the damages, `dead` is monotonic, and Death is called exactly once if the tower went from alive to dead, otherwise never |
| `ElementalObject.TowerDiesWhenRunningTotalReachesHealth` | Assets/Scripts/GameMechanicsScripts/ElementalObjectScript.cs:20-28 | a tower is dead after a run iff it was already dead or some running total of the damages reached its health |
| `ElementalObject.PlayerNeverStaysDead` | Assets/Scripts/GameMechanicsScripts/ElementalObjectScript.cs:21-24 | over any run of hits a live player is never marked dead, only Kill is ever called, and after at least one hit its health is positive |
| `ElementalObject.ElementalObjectScript.constructor` | Assets/Scripts/GameMechanicsScripts/ElementalObjectScript.cs:8-14 | health 100, all three multipliers 1.0, not dead, no calls made |
| `ElementalObject.ElementalObjectScript.Hurt` | Assets/Scripts/GameMechanicsScripts/ElementalObjectScript.cs:17-31 | the new health and dead flag are those of `HurtStep` on the old ones with the rounded-up damage, and the calls it makes are appended to the event log; nothing else changes |
| `ElementalObject.ElementalObjectScript.DecreaseAttackSpeed` | Assets/Scripts/GameMechanicsScripts/ElementalObjectScript.cs:33-35 | attack speed drops by `amount`; no other field changes |
| `ElementalObject.ElementalObjectScript.ResetAttackSpeed` | Assets/Scripts/GameMechanicsScripts/ElementalObjectScript.cs:37-39 | attack speed becomes 1.0; no other field changes |
| `ElementalObject.ElementalObjectScript.DecreaseDefense` | Assets/Scripts/GameMechanicsScripts/ElementalObjectScript.cs:41-43 | defense drops by `amount` (it may reach 0 or below); no other field changes |
| `ElementalObject.ElementalObjectScript.ResetDefense` | Assets/Scripts/GameMechanicsScripts/ElementalObjectScript.cs:45-47 | defense becomes 1.0; no other field changes |
| `ElementalObject.ElementalObjectScript.ChangeMoveSpeed` | Assets/Scripts/GameMechanicsScripts/ElementalObjectScript.cs:49-50 | the move-speed multiplier grows by `amount`; no other field changes |
| `ElementalObject.ElementalObjectScript.ResetMoveSpeed` | Assets/Scripts/GameMechanicsScripts/ElementalObjectScript.cs:57-63 | the move-speed multiplier becomes 1.0; no other field changes |
| `ElementalObject.ElementalObjectScript.GetElementalType` | Assets/Scripts/GameMechanicsScripts/ElementalObjectScript.cs:65-67 | returns the object's element tag |
| `LegacyElementalObject.DamageDealt` | Assets/Scripts/ElementalObjectScript.cs:16 | damage is `amount / defense` rounded down; a non-negative hit against positive defense deals at least 0, and a hit smaller than the defense deals 0 |
| `LegacyElementalObject.HurtStep` | Assets/Scripts/ElementalObjectScript.cs:15-28 | no callback iff health minus damage stays positive, and then health drops by exactly the damage; otherwise health is unchanged and exactly one call is made, Destroy for a player and TowerDeath for a tower; positive health stays positive |
| `LegacyElementalObject.HealthStaysPositive` | Assets/Scripts/ElementalObjectScript.cs:18-27 | positive health stays positive over any run of hits of any amounts |
| `LegacyElementalObject.TowerReportsEveryLethalHit` | Assets/Scripts/ElementalObjectScript.cs:20-26 | a run of hits that are each lethal leaves a tower's health unchanged and calls Death once per hit |
| `LegacyElementalObject.ElementalObjectScript.constructor` | Assets/Scripts/ElementalObjectScript.cs:8-12 | health 100, all three multipliers 1.0, no calls made |
| `LegacyElementalObject.ElementalObjectScript.Hurt` | Assets/Scripts/ElementalObjectScript.cs:15-28 | the new health is that of `HurtStep` with the rounded-down damage, and its call is appended to the event log; positive health stays positive; nothing else changes |
| `LegacyElementalObject.ElementalObjectScript.DecreaseAttackSpeed` | Assets/Scripts/ElementalObjectScript.cs:30-32 | attack speed drops by `amount`; no other field changes |
| `LegacyElementalObject.ElementalObjectScript.ResetAttackSpeed` | Assets/Scripts/ElementalObjectScript.cs:34-36 | attack speed becomes 1.0; no other field changes |
| `LegacyElementalObject.ElementalObjectScript.DecreaseDefense` | Assets/Scripts/ElementalObjectScript.cs:38-40 | defense drops by `amount`; no other field changes |
| `LegacyElementalObject.ElementalObjectScript.ResetDefense` | Assets/Scripts/ElementalObjectScript.cs:42-44 | defense becomes 1.0; no other field changes |
| `LegacyElementalObject.ElementalObjectScript.ChangeMoveSpeed` | Assets/Scripts/ElementalObjectScript.cs:46-47 | the move-speed multiplier grows by `amount`; no other field changes |
| `LegacyElementalObject.ElementalObjectScript.ResetMoveSpeed` | Assets/Scripts/ElementalObjectScript.cs:54-60 | the move-speed multiplier becomes 1.0; no other field changes |
| `LegacyElementalObject.ElementalObjectScript.GetElementalType` | Assets/Scripts/ElementalObjectScript.cs:62-64 | returns the object's element tag |
| `Game.GameManager.constructor` | Assets/Scripts/GUIScripts/GameManager.cs:13-18 | a 2×3 table with no tower dead, the mode at its default StartMenu, no EndLevel yet |
| `Game.GameManager.Start` | Assets/Scripts/GUIScripts/GameManager.cs:23-34 | the mode ends as StartMenu although Pause set Paused; every table entry is false; the cursor is unlocked and shown and the player's input is disabled when there is a player, as Pause left them |
| `Game.GameManager.Update` | Assets/Scripts/GUIScripts/GameManager.cs:39-54 | on the escape edge Paused becomes UnPaused and UnPaused becomes Paused, with UnPause's and Pause's effects; without the key, or in any other mode, nothing changes |
| `Game.GameManager.TowerDied` | Assets/Scripts/GUIScripts/GameManager.cs:64-75 | an out-of-range team or tower gives the result IndexOutOfRange and changes nothing; otherwise exactly that entry becomes true, no other entry changes, and EndLevel is called once iff the first `GetLength(team)` towers of the team are dead, including again for an already eliminated team |
| `Game.GameManager.ScanTeam` | Assets/Scripts/GUIScripts/GameManager.cs:67-72 | the scan reports all dead iff the first `GetLength(team)` towers of the row are dead: towers 0 and 1 for team 0, all three for team 1 |
| `Game.GameManager.TowerDiedWholeRow` | Assets/Scripts/GUIScripts/GameManager.cs:56-63 | the corrected TowerDied: the same update, with EndLevel called iff every tower of the team is dead |
| `Game.GameManager.ScanWholeRow` | Assets/Scripts/GUIScripts/GameManager.cs:59-60 | the corrected scan reports all dead iff all three towers of the team are dead |
| `Game.GameManager.IsPaused` | Assets/Scripts/GUIScripts/GameManager.cs:81-83 | paused iff the mode is any of StartMenu, GameSetup, Paused, Dead, EndLevel, EndGame, that is, any mode but UnPaused |
| `Game.GameManager.GetGameMode` | Assets/Scripts/GUIScripts/GameManager.cs:90-92 | returns the current mode |
| `Game.GameManager.SetupGame` | Assets/Scripts/GUIScripts/GameManager.cs:97-99 | the mode becomes GameSetup from any mode; nothing else changes |
| `Game.GameManager.Pause` | Assets/Scripts/GUIScripts/GameManager.cs:104-118 | the mode becomes Paused and the cursor is unlocked and shown; the player's input is disabled if there is a player and otherwise untouched; the new state does not depend on the old mode, so Pause twice is Pause once |
| `Game.GameManager.UnPause` | Assets/Scripts/GUIScripts/GameManager.cs:123-137 | the mirror of Pause: mode UnPaused, cursor locked and hidden, the player's input enabled if there is a player |
| `Game.GameManager.StartGame` | Assets/Scripts/GUIScripts/GameManager.cs:142-147 | the game always ends up UnPaused, with UnPause's effects |
| `Game.GameManager.EndLevel` | Assets/Scripts/GUIScripts/GameManager.cs:167-169 | records one EndLevel call and leaves the mode unchanged |
| `Game.Team0EndsLevelWithTowerStanding` | Assets/Scripts/GUIScripts/GameManager.cs:64-75 | after Start, the deaths of team 0's towers 0 and 1 end the level while tower 2 still stands, and a repeated death report ends it a second time |
| `Game.Team0EndsLevelOnlyWhenAllTowersFall` | Assets/Scripts/GUIScripts/GameManager.cs:56-63 | with the corrected scan, team 0's first two tower deaths do not end the level and the third does |
| `Game.EscapeTogglesPlay` | Assets/Scripts/GUIScripts/GameManager.cs:39-54 | from play, one escape press pauses (input disabled, cursor shown), and a second restores mode, cursor and input exactly; a second Pause changes nothing |

## Findings

| source | as written | input that shows it | evidently intended | confidence | as-written member | corrected member |
|---|---|---|---|---|---|---|
| Assets/Scripts/GUIScripts/GameManager.cs:67 | the scan runs to `teamTowersDead.GetLength(team)`, the length of dimension `team` (2 for team 0, 3 for team 1) | `TowerDied(0, 0)` then `TowerDied(0, 1)` after `Start`, with tower 2 of team 0 alive: EndLevel is called | scan to `GetLength(1)`, every tower of the team's row, as the comment at lines 59-60 says | high; not executed | `Game.Team0EndsLevelWithTowerStanding` (over `Game.GameManager.TowerDied`) | `Game.GameManager.TowerDiedWholeRow`, proved in `Game.Team0EndsLevelOnlyWhenAllTowersFall` |

`Game.GameManager.TowerDied` keeps the code as written, because it is the model of the script.
The corrected method sits beside it.

## Left out

- `ElementalObject.ElementalObjectScript.Hurt`: requires `defense != 0`. With a zero defense the script divides by zero in floating point, and the integer that `CeilToInt` makes of an infinite or NaN quotient is not modelled. A negative defense is modelled, and it flips the sign of the damage.
- `LegacyElementalObject.ElementalObjectScript.Hurt`: requires `defense != 0`, for the same reason.
- Floating point: `defense`, `attackSpeed`, `moveSpeed` and the quotient `amount / defense` are mathematical reals. Single-precision rounding of the quotient is not modelled.
- `Health` is an unbounded integer. The 32-bit wrap-around of `Health -= damageDealt` and the out-of-range float-to-int conversion in `Mathf` are not modelled.
- The motor speed caps in `changeMoveSpeed`/`resetMoveSpeed` are not modelled. These are `CharacterMotor.movement.max*Speed`, multiplied and divided by the multiplier on a component outside the scripts. Only the multiplier field is modelled.
- The bodies of `PlayerControler.Kill`, `TowerScript.Death` and `Destroy` are not part of this model. Their calls are recorded as events. A destroyed legacy player object is not removed, and the model keeps accepting hits on it.
- The combatant's `Update` is not modelled. It pushes health to the on-screen display, which is presentation.
- `teamNumber` of the current script is kept as a constant. The script never reads it.
- The `transform.tag == "Player"` test is a constant `isPlayer` per object.
- `GameManager.mode` is a static field in the script and an instance field here. The static `instance` reference is not modelled.
- `NetworkingScript.GetThisPlayer() != null` is the parameter `hasPlayer`.
- The three input components (`MouseLook`, every `FPSInputController`, `PlayerControler`) are always switched together. The model holds them as one `inputEnabled` flag.
- `Screen.lockCursor`/`Screen.showCursor` are the flags `cursorLocked`/`cursorShown`. The constructor gives them the engine's defaults (unlocked, shown), and the input flag starts enabled.
- `Input.GetKeyDown("escape")` is the parameter `escapePressed` of `Update`.
- The network connection `PhotonNetwork.ConnectUsingSettings` in `StartGame` is not modelled (network client).
- `Debug.Log` output and the `deathSound` clip are not modelled.
- `RestartGame` and `PlayerDied` are not modelled. Both have empty bodies.
- `Assets/ClusterBomb.cs` is not part of this model. Its logic is random jitter, float vector normalisation, network instantiation and physics impulses from collision callbacks.
