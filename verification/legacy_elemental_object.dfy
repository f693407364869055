/**
 * The older combatant script (Scripts/ElementalObjectScript.cs). A hit deals the
 * damage rounded down, and only if health stays positive; a hit that would bring
 * health to zero or below leaves health as it is and instead destroys a player or
 * reports a tower's death. There is no dead flag, so a tower reports again on
 * every such hit.
 */
module LegacyElementalObject {
  import opened Elements
  import opened UnityMath

  /** The health a combatant starts with. */
  const FullHealth := 100

  /** Calls the script makes into code outside this model, recorded in order. */
  datatype Event =
    | Destroy     // Destroy(gameObject) on the player's own object
    | TowerDeath  // TowerScript.Death() on the tower's parent object

  /** The health after one or more hits, and the calls those hits made. */
  datatype Outcome = Outcome(health: int, fired: seq<Event>)

  /** The damage a hit of `amount` deals against `defense`: the quotient rounded down. */
  function DamageDealt(amount: int, defense: real): (d: int)
    requires defense != 0.0
    ensures d as real <= amount as real / defense < d as real + 1.0
    ensures amount >= 0 && defense > 0.0 ==> d >= 0
    ensures 0 <= amount && amount as real < defense ==> d == 0
  {
    var q := amount as real / defense;
    assert amount >= 0 && defense > 0.0 ==> q >= 0.0;
    assert 0 <= amount && amount as real < defense ==> q < 1.0 by {
      if 0 <= amount && amount as real < defense {
        var gap := defense - amount as real;
        assert gap / defense > 0.0;
        assert defense / defense == 1.0;
        assert gap / defense == defense / defense - q;
      }
    }
    FloorToInt(q)
  }

  /** One hit that deals `damage` points to a combatant with `health`. */
  function HurtStep(health: int, isPlayer: bool, damage: int): (r: Outcome)
    ensures r.fired == [] <==> health - damage > 0
    ensures r.fired == [] ==> r.health == health - damage
    ensures r.fired != [] ==> r.health == health && r.fired == [if isPlayer then Destroy else TowerDeath]
    ensures health > 0 ==> r.health > 0
  {
    if health - damage > 0 then Outcome(health - damage, [])
    else if isPlayer then Outcome(health, [Destroy])
    else Outcome(health, [TowerDeath])
  }

  /** A run of hits, applied in order. */
  function HurtAll(health: int, isPlayer: bool, damages: seq<int>): Outcome
    decreases |damages|
  {
    if damages == [] then Outcome(health, [])
    else
      var first := HurtStep(health, isPlayer, damages[0]);
      var rest := HurtAll(first.health, isPlayer, damages[1..]);
      Outcome(rest.health, first.fired + rest.fired)
  }

  /** Positive health stays positive over any run of hits, whatever their amounts. */
  lemma {:induction false} HealthStaysPositive(health: int, isPlayer: bool, damages: seq<int>)
    requires health > 0
    ensures HurtAll(health, isPlayer, damages).health > 0
    decreases |damages|
  {
    if damages != [] {
      HealthStaysPositive(HurtStep(health, isPlayer, damages[0]).health, isPlayer, damages[1..]);
    }
  }

  /**
   * Nothing stops a tower reporting its death more than once: a run of hits each
   * of which would be lethal leaves health unchanged and calls Death on every hit.
   */
  lemma {:induction false} TowerReportsEveryLethalHit(health: int, damages: seq<int>)
    requires forall i :: 0 <= i < |damages| ==> health - damages[i] <= 0
    ensures var r := HurtAll(health, false, damages);
      && r.health == health
      && |r.fired| == |damages|
      && (forall i :: 0 <= i < |r.fired| ==> r.fired[i] == TowerDeath)
    decreases |damages|
  {
    if damages != [] {
      TowerReportsEveryLethalHit(health, damages[1..]);
    }
  }

  /** The combatant script attached to a player or to a tower. */
  class ElementalObjectScript {
    var health: int
    var attackSpeed: real
    var defense: real
    var moveSpeed: real
    const thisType: Element
    /** Whether the object is tagged "Player"; every other combatant is a tower. */
    const isPlayer: bool
    /** The calls Hurt has made, oldest first. */
    var events: seq<Event>

    /** A fresh combatant with the field initialisers of the script. */
    constructor (thisType: Element, isPlayer: bool)
      ensures health == FullHealth && events == []
      ensures attackSpeed == 1.0 && defense == 1.0 && moveSpeed == 1.0
      ensures this.thisType == thisType && this.isPlayer == isPlayer
    {
      health := FullHealth;
      attackSpeed := 1.0;
      defense := 1.0;
      moveSpeed := 1.0;
      this.thisType := thisType;
      this.isPlayer := isPlayer;
      events := [];
    }

    /** Applies a hit of `amount` points, scaled down by the defense and rounded down. */
    method Hurt(amount: int)
      requires defense != 0.0
      modifies this`health, this`events
      ensures var r := HurtStep(old(health), isPlayer, DamageDealt(amount, defense));
        health == r.health && events == old(events) + r.fired
      ensures old(health) > 0 ==> health > 0
    {
      var damageDealt := FloorToInt(amount as real / defense);
      if health - damageDealt > 0 {
        health := health - damageDealt;
      } else if isPlayer {
        events := events + [Destroy];
      } else {
        events := events + [TowerDeath];
      }
    }

    method DecreaseAttackSpeed(amount: real)
      modifies this`attackSpeed
      ensures attackSpeed == old(attackSpeed) - amount
    {
      attackSpeed := attackSpeed - amount;
    }

    method ResetAttackSpeed()
      modifies this`attackSpeed
      ensures attackSpeed == 1.0
    {
      attackSpeed := 1.0;
    }

    method DecreaseDefense(amount: real)
      modifies this`defense
      ensures defense == old(defense) - amount
    {
      defense := defense - amount;
    }

    method ResetDefense()
      modifies this`defense
      ensures defense == 1.0
    {
      defense := 1.0;
    }

    /** The multiplier part of changeMoveSpeed; the motor's speed caps are not modelled. */
    method ChangeMoveSpeed(amount: real)
      modifies this`moveSpeed
      ensures moveSpeed == old(moveSpeed) + amount
    {
      moveSpeed := moveSpeed + amount;
    }

    /** The multiplier part of resetMoveSpeed; the motor's speed caps are not modelled. */
    method ResetMoveSpeed()
      modifies this`moveSpeed
      ensures moveSpeed == 1.0
    {
      moveSpeed := 1.0;
    }

    function GetElementalType(): (e: Element)
      ensures e == thisType
    {
      thisType
    }
  }
}
