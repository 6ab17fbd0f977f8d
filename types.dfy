/**
 * `SC_Character` (src/types.h): the one entity the state machine drives.
 * Each `SDL_FPoint` becomes its two coordinates as exact reals.
 */
module Types {
  import opened Fsm

  class Character {
    var posX: real
    var posY: real
    var velX: real
    var velY: real
    var accX: real
    var accY: real
    /** The movement state whose table row handles the next event or tick. */
    var state: State
    /** Facing bits; no handler of this machine reads or writes them. */
    var flags: bv8
  }
}
