/** Game constants of src/consts.ts, as exact reals. */
module Consts {
  const BIRD_SIZE: real := 54.0
  const BIRD_FLAP_SPEED: real := 9.8
  const BIRD_FLAP_MAX_SPEED: real := 9.8 * 1.5

  const TUBE_OPENING: real := 180.0
  const TUBE_WIDTH: real := 18.0 * 2.0

  const GRAVITY: real := 9.8
  const GAME_SPEED: real := 1.0
  const BOUNDARY_TOP: real := 0.0
  const BOUNDARY_BOTTOM: real := 0.0

  /** Not part of src/consts.ts: the local `padding` of addTube (src/main.ts:130),
      the margin it keeps between a gap and the top and bottom of the screen. */
  const TUBE_PADDING: real := 80.0
}
