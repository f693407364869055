/**
 * The two float-to-int roundings the combatant scripts use (Unity's
 * Mathf.FloorToInt and Mathf.CeilToInt), stated over mathematical reals.
 */
module UnityMath {

  /** Rounds down: the greatest integer not above x. */
  function FloorToInt(x: real): (r: int)
    ensures r as real <= x < r as real + 1.0
  {
    x.Floor
  }

  /** Rounds up: the least integer not below x. */
  function CeilToInt(x: real): (r: int)
    ensures r as real - 1.0 < x <= r as real
  {
    -((-x).Floor)
  }
}
