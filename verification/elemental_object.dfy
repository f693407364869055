/**
 * The combatant script in its current form (GameMechanicsScripts/ElementalObjectScript.cs):
 * the health and elemental combat stats of a player or a tower. A hit lowers health by
 * the damage rounded up, without clamping. Every hit that brings health to zero or
 * below kills and refills a player; the first such hit on a tower reports its death
 * and marks it dead for good.
 */
module ElementalObject {
  import opened Elements
  import opened UnityMath

  /** The health a combatant starts with and a killed player is refilled to. */
  const FullHealth := 100

  /** Calls the script makes into code outside this model, recorded in order. */
  datatype Event =
    | Kill        // PlayerControler.Kill() on the player's own object
    | TowerDeath  // TowerScript.Death() on the tower's parent object

  /** The part of a combatant's state that a hit reads and writes. */
  datatype Vitals = Vitals(health: int, dead: bool)

  /** The state after one or more hits, and the calls those hits made. */
  datatype Outcome = Outcome(after: Vitals, fired: seq<Event>)

  /** The damage a hit of `amount` deals against `defense`: the quotient rounded up. */
  function DamageDealt(amount: int, defense: real): (d: int)
    requires defense != 0.0
    ensures d as real - 1.0 < amount as real / defense <= d as real
    ensures amount >= 0 && defense > 0.0 ==> d >= 0
    ensures amount > 0 && defense > 0.0 ==> d >= 1
  {
    var q := amount as real / defense;
    assert amount > 0 && defense > 0.0 ==> q > 0.0;
    CeilToInt(q)
  }

  /** One hit that deals `damage` points to a combatant whose vitals are `v`. */
  function HurtStep(v: Vitals, isPlayer: bool, damage: int): (r: Outcome)
    ensures |r.fired| <= 1
    ensures r.fired != [] <==> !v.dead && v.health - damage <= 0
    ensures r.fired == [Kill] <==> r.fired != [] && isPlayer
    ensures r.after.health == if r.fired == [Kill] then FullHealth else v.health - damage
    ensures r.after.dead <==> v.dead || r.fired == [TowerDeath]
    ensures isPlayer && !v.dead ==> !r.after.dead && r.after.health > 0
  {
    var health := v.health - damage;
    if health <= 0 && !v.dead then
      if isPlayer then Outcome(Vitals(FullHealth, v.dead), [Kill])
      else Outcome(Vitals(health, true), [TowerDeath])
    else
      Outcome(Vitals(health, v.dead), [])
  }

  /** A run of hits, applied in order. */
  function HurtAll(v: Vitals, isPlayer: bool, damages: seq<int>): Outcome
    decreases |damages|
  {
    if damages == [] then Outcome(v, [])
    else
      var first := HurtStep(v, isPlayer, damages[0]);
      var rest := HurtAll(first.after, isPlayer, damages[1..]);
      Outcome(rest.after, first.fired + rest.fired)
  }

  /** The total of a run of damages. */
  function Sum(s: seq<int>): int
  {
    if s == [] then 0 else s[0] + Sum(s[1..])
  }

  /**
   * Over any run of hits a tower loses exactly the sum of the damages (health is
   * never clamped or refilled), `dead` never goes back to false, and the tower
   * reports its death exactly once: on the run in which it goes from alive to dead.
   */
  lemma {:induction false} TowerReportsDeathOnce(v: Vitals, damages: seq<int>)
    ensures var r := HurtAll(v, false, damages);
      && r.after.health == v.health - Sum(damages)
      && (v.dead ==> r.after.dead)
      && r.fired == if !v.dead && r.after.dead then [TowerDeath] else []
    decreases |damages|
  {
    if damages != [] {
      var first := HurtStep(v, false, damages[0]);
      TowerReportsDeathOnce(first.after, damages[1..]);
    }
  }

  /**
   * A tower is dead after a run of hits exactly when it was dead already or the
   * running total of the damages reached its health at some point of the run.
   */
  lemma {:induction false} TowerDiesWhenRunningTotalReachesHealth(v: Vitals, damages: seq<int>)
    ensures HurtAll(v, false, damages).after.dead
      <==> v.dead || exists k :: 1 <= k <= |damages| && v.health - Sum(damages[..k]) <= 0
    decreases |damages|
  {
    if damages != [] {
      var first := HurtStep(v, false, damages[0]);
      var tail := damages[1..];
      TowerDiesWhenRunningTotalReachesHealth(first.after, tail);
      forall k | 1 <= k <= |damages|
        ensures Sum(damages[..k]) == damages[0] + Sum(tail[..k - 1])
      {
        assert damages[..k][1..] == tail[..k - 1];
      }
      if exists k :: 1 <= k <= |damages| && v.health - Sum(damages[..k]) <= 0 {
        var k :| 1 <= k <= |damages| && v.health - Sum(damages[..k]) <= 0;
        if k > 1 && !first.after.dead {
          assert first.after.health - Sum(tail[..k - 1]) <= 0;
        }
      }
      if exists k :: 1 <= k <= |tail| && first.after.health - Sum(tail[..k]) <= 0 {
        var k :| 1 <= k <= |tail| && first.after.health - Sum(tail[..k]) <= 0;
        if !first.after.dead {
          assert v.health - Sum(damages[..k + 1]) <= 0;
        }
      }
      assert Sum(damages[..1]) == damages[0];
    }
  }

  /**
   * A player is never marked dead: over any run of hits it only ever calls Kill,
   * and after at least one hit its health is positive.
   */
  lemma {:induction false} PlayerNeverStaysDead(v: Vitals, damages: seq<int>)
    requires !v.dead
    ensures var r := HurtAll(v, true, damages);
      && !r.after.dead
      && (forall i :: 0 <= i < |r.fired| ==> r.fired[i] == Kill)
      && (v.health > 0 || damages != [] ==> r.after.health > 0)
    decreases |damages|
  {
    if damages != [] {
      var first := HurtStep(v, true, damages[0]);
      PlayerNeverStaysDead(first.after, damages[1..]);
    }
  }

  /** The combatant script attached to a player or to a tower. */
  class ElementalObjectScript {
    var health: int
    var attackSpeed: real
    var defense: real
    var moveSpeed: real
    const thisType: Element
    const teamNumber: int
    /** Whether the object is tagged "Player"; every other combatant is a tower. */
    const isPlayer: bool
    var dead: bool
    /** The calls Hurt has made, oldest first. */
    var events: seq<Event>

    ghost function CurrentVitals(): Vitals
      reads this
    {
      Vitals(health, dead)
    }

    /** A fresh combatant with the field initialisers of the script. */
    constructor (thisType: Element, teamNumber: int, isPlayer: bool)
      ensures health == FullHealth && !dead && events == []
      ensures attackSpeed == 1.0 && defense == 1.0 && moveSpeed == 1.0
      ensures this.thisType == thisType && this.teamNumber == teamNumber && this.isPlayer == isPlayer
    {
      health := FullHealth;
      attackSpeed := 1.0;
      defense := 1.0;
      moveSpeed := 1.0;
      this.thisType := thisType;
      this.teamNumber := teamNumber;
      this.isPlayer := isPlayer;
      dead := false;
      events := [];
    }

    /** Applies a hit of `amount` points, scaled down by the defense and rounded up. */
    method Hurt(amount: int)
      requires defense != 0.0
      modifies this`health, this`dead, this`events
      ensures var r := HurtStep(old(CurrentVitals()), isPlayer, DamageDealt(amount, defense));
        CurrentVitals() == r.after && events == old(events) + r.fired
    {
      var damageDealt := CeilToInt(amount as real / defense);
      health := health - damageDealt;
      if health <= 0 && !dead {
        if isPlayer {
          events := events + [Kill];
          health := FullHealth;
        } else {
          events := events + [TowerDeath];
          dead := true;
        }
      }
    }

    method DecreaseAttackSpeed(amount: real)
      modifies this`attackSpeed
      ensures attackSpeed == old(attackSpeed) - amount
    {
      attackSpeed := attackSpeed - amount;
    }

    method ResetAttackSpeed()
      modifies this`attackSpeed
      ensures attackSpeed == 1.0
    {
      attackSpeed := 1.0;
    }

    method DecreaseDefense(amount: real)
      modifies this`defense
      ensures defense == old(defense) - amount
    {
      defense := defense - amount;
    }

    method ResetDefense()
      modifies this`defense
      ensures defense == 1.0
    {
      defense := 1.0;
    }

    /** The multiplier part of changeMoveSpeed; the motor's speed caps are not modelled. */
    method ChangeMoveSpeed(amount: real)
      modifies this`moveSpeed
      ensures moveSpeed == old(moveSpeed) + amount
    {
      moveSpeed := moveSpeed + amount;
    }

    /** The multiplier part of resetMoveSpeed; the motor's speed caps are not modelled. */
    method ResetMoveSpeed()
      modifies this`moveSpeed
      ensures moveSpeed == 1.0
    {
      moveSpeed := 1.0;
    }

    function GetElementalType(): (e: Element)
      ensures e == thisType
    {
      thisType
    }
  }
}
