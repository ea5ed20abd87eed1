/** Screen constants of config.py: the visible window is 40 by 28 tiles. */
module Config {
  const SCREEN_X: int := 40
  const SCREEN_Y: int := 28
}
