/** The elemental type tag both combatant scripts declare and carry. */
module Elements {
  datatype Element = Rock | Paper | Scissors
}
