/**
 * The two combatant scripts round the same quotient `amount / defense` in
 * opposite directions: the current one up, the older one down.
 */
module DamageVariants {
  import ElementalObject
  import LegacyElementalObject

  /**
   * For every hit and every nonzero defense the current script deals the older
   * script's damage when the quotient is a whole number, and one point more
   * otherwise.
   */
  lemma CurrentDealsAtMostOneMore(amount: int, defense: real)
    requires defense != 0.0
    ensures var current := ElementalObject.DamageDealt(amount, defense);
      var legacy := LegacyElementalObject.DamageDealt(amount, defense);
      current - legacy == if legacy as real == amount as real / defense then 0 else 1
  {
  }
}
