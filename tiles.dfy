/** The tile tokens written into the two map layers, and the token sets the
    generators and the buildings test against. */
module Tiles {
  /** Every token the core writes. The ground layer holds terrain and the
      mineral variants; the overlay layer holds features and structures. */
  datatype Tile =
    | Ocean | Shore | Sand | Grass | Ground | Snow | Ice
    | GrassCoal | SandCoal | GroundCoal
    | GrassOil | SandOil | GroundOil | WaterOil
    | UiEmpty | River | Road | Trees | Mountain | PalmTree | Mayors

  /** A grid coordinate `(x, y)`: x is the column, y the row. */
  type Loc = (int, int)

  /** The coal-bearing ground tokens (those a coal mine accepts). */
  const Coal: set<Tile> := {GroundCoal, GrassCoal, SandCoal}

  /** The oil-bearing ground tokens (those an oil rig accepts). */
  const Oil: set<Tile> := {GroundOil, GrassOil, SandOil, WaterOil}

  /** The impassable set the generators receive always holds the two water tiles. */
  predicate HoldsWater(impassable: set<Tile>) {
    Ocean in impassable && Shore in impassable
  }

  /** Two cells are 4-neighbours. */
  predicate Adjacent(a: Loc, b: Loc) {
    (a.0 == b.0 && (a.1 == b.1 + 1 || a.1 + 1 == b.1)) ||
    (a.1 == b.1 && (a.0 == b.0 + 1 || a.0 + 1 == b.0))
  }
}
