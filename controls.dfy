/**
 * The control record (`character::Input`) that the player's input mapping and the
 * NPC steering write, and that the reticle reads. This is the later revision of the
 * record, with a movement and a looking direction, an optional attack, a held jump
 * button and a hand-switch request.
 */
module Controls {
  import opened Vectors
  import opened Wrappers

  datatype AttackState = Primary | Secondary

  datatype Input = Input(
    movementDirection: Vec3,
    lookingDirection: Vec3,
    attack: Option<AttackState>,
    jump: bool,
    switchHands: bool)
}
