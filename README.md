# City-builder map generation, viewport and economy, modelled in Dafny

This project models the core of a small pygame city-building game. The main
part is the map-generation pipeline of `generators.py`:

- the height image: contrast boost, darkening masks and the recursive
  rain-drop erosion;
- the elevation classifier that turns grey values into ground tiles;
- the beach and snow cellular automata;
- island discovery by flood fill;
- rivers that walk downhill to the water and are then meandered;
- forests that grow in branches over grass;
- coal and oil veins;
- the search for a start site, where the town hall and its road are drawn.

Beside the pipeline, the model covers:

- the diamond-square height generator of `src/diamondsquare.py`;
- the scrolling viewport, the image classifier and the river/road sprite
  table of `map.py`;
- the buildings of `buildings.py`;
- the two economy ledgers, `player.py` and `mayor.py`.

State that the source updates in place is modelled in place:

- Surfaces are `array2<int>` values that the contrast step and erosion
  rewrite.
- The map a generator works on is the class `TileMap.GameMap`. Its two
  layers are `seq<seq<Tile>>` fields, indexed `[y][x]` as in the source.
- `DiamondSquare` keeps its flat cell list in an `array<real>`.
- `Viewport.Map` and both `Mayor` classes are classes with the source's
  fields.

Pure parts are functions:

- the thresholds, the masks' pixel rule and the sprite table;
- the neighbourhood scores of the automata and the start-site footprint
  test;
- the river meander and the building records.

Each loop of the source is a method with invariants. Its contract ties the
result to one of these functions, or to a predicate that states its effect,
such as the forest stage writing only TREES on grass or the veins writing
only mineral variants.

Randomness comes in two ways. Draws that decide a value are parameters, for
example the two overlay draws of the classifier and the `change` offset of
diamond-square. Draws that decide the control flow are nondeterministic
choices (`:|`), for example the erosion coins, the river start index, the
forest turns and the vein branches. Each contract holds for every outcome
of the draws.

The map object that `generators.py` reads and writes is not part of the
repository's files, and the `map.py` class is a different one. `TileMap`
supplies it with only the behaviour the generators rely on:

- `get(loc)` gives both layers of a cell, or None off the grid;
- `set(loc, layer, v)` writes one cell and does nothing off the grid;
- `impassable` is a set holding OCEAN and SHORE;
- the coal and oil token sets are those that `buildings.py` accepts.

Where the code and a plain reading of its intent differ, the model follows
the code, with one exception: the bug listed under "## Findings" (a river of
one cell crashes `gen_rivers`) is modelled twice, as written and
corrected, and the river pipeline uses the corrected meander. Elsewhere:

- The "prefer the second lowest" choice of `draw_river` is overwritten by
  the later loop. The river always continues to the first lowest neighbour,
  and a neighbour of equal height counts as downhill.
- The cell that makes a river succeed is next to water. Delta cells are
  appended after it, so it need not be the last cell of the river.
- `grow_trees` also grows over cells that already carry trees.
- `select_player_startpoint` swaps its two ranges, tries only the first
  column of each row, and clamps the view only at 0.

## Model

| member | source | states |
|---|---|---|
| TileMap.Put | generators.py:769 | writing one cell of a layer changes exactly that cell and keeps every row's length; an off-grid location leaves the grid as it was |
| TileMap.PutOffGrid | generators.py:825-827 | a write outside the grid changes nothing |
| TileMap.PutAllCells | generators.py:591-592 | writing a list of cells keeps the shape and sets exactly the on-grid cells of the list, all others unchanged |
| TileMap.Board.Get | generators.py:825-828 | `get` is None exactly off the grid, and on the grid gives both layers of that cell |
| TileMap.GameMap.Set | generators.py:769 | `set(loc, layer, v)` changes only the named layer, exactly at `loc`, and no other field |
| TileMap.GameMap.SetSize | generators.py:397 | the new size is recorded and nothing else changes |
| TileMap.PaintOverlay | generators.py:591-592 | the loop of `map.set(loc, 'layer_1', v)` leaves the overlay equal to the cells written in order; ground and every other field are kept |
| HeightField.Trunc | generators.py:183 | Python's `int()` on a float truncates toward zero: within one below a non-negative value, within one above a negative one |
| HeightField.RoundHalfAway | generators.py:97 | Python 2 `round` lands within half of the value, on the value's side of zero |
| HeightField.Clamp | generators.py:184-187 | the result lies in `[lo, hi]` and equals the input when it already does |
| HeightField.TruncMonotone | generators.py:183 | truncation keeps the order of its arguments |
| HeightField.AverageRGB | generators.py:194-196 | the floored mean of three channels lies between the least and the greatest, and a grey pixel averages to itself |
| HeightField.Contrast | generators.py:183-187 | every contrast value is a channel value 0..255 |
| HeightField.ContrastMonotone | generators.py:183-187 | with a non-negative factor, a brighter pixel never comes out darker |
| HeightField.ContrastIdentity | generators.py:183-187 | factor 1 and brightness 0 leave every channel value unchanged |
| HeightField.IncreaseContrast | generators.py:176-192 | every pixel is replaced in place by its contrast value, so the surface ends in 0..255 |
| HeightField.Darken | generators.py:97-99 | the masks' write is never brighter than the original, is never negative for a non-negative original and scale, and is either the original or the rounded scaled value |
| HeightField.RadialChange | generators.py:90-91 | the radial fall-off factor is never negative |
| HeightField.RadialPixel | generators.py:95-100 | `mask_radial` never brightens a pixel and never makes a non-negative one negative |
| HeightField.HyperbolicPixel | generators.py:108-117 | `mask_hyperbolic` never brightens a pixel and never makes a non-negative one negative |
| HeightField.LinearPixel | generators.py:126-135 | `mask_linear` never brightens a pixel and never makes a non-negative one negative |
| HeightField.MaskRadial | generators.py:80-101 | a fresh surface of the same size whose every pixel is the radial pixel of the original, hence darker or equal and not negative |
| HeightField.MaskHyperbolic | generators.py:102-119 | a fresh surface of the same size whose every pixel is the hyperbolic pixel of the original, hence darker or equal and not negative |
| HeightField.MaskLinear | generators.py:120-137 | a fresh surface of the same size whose every pixel is the linear pixel of the original, hence darker or equal and not negative |
| HeightField.NeighbourHeightOnGrid | generators.py:236-239 | an on-grid neighbour is a different in-grid cell, and its height is read from the surface |
| HeightField.DropValue | generators.py:217-246 | the drop writes exactly when the decremented value is at least 20 and the floored neighbour mean minus 2 does not exceed it; what it writes is at least 20 and strictly below the old value |
| HeightField.Candidates | generators.py:250-253 | every direction chosen leads no higher than the new value, and every strictly lower neighbour is chosen |
| HeightField.DropAt | generators.py:216-246 | the decision of a drop with decrement 1 or 2 on a cell, with the neighbours read as the source reads them: absent, or a value of at least 20 below the cell's height |
| HeightField.Erode | generators.py:212-277 | one drop only lowers cells, never below 20; a cell already at 20 or below stops it with nothing changed; when it lowers its own cell the new value is `DropAt` for decrement 1 or 2, and when it does not, one of those decrements is absorbed and no cell changes; every other cell it lowers was lower than its own cell |
| HeightField.Lower | generators.py:248 | the write changes only the drop's own cell, so the neighbours it may flow into stay no higher than the new value |
| HeightField.Pour | generators.py:248-277 | after the write, the drop's cell holds the new value for good; other cells are only lowered, never below 20, and each one lowered was no higher than the new value |
| HeightField.Flow | generators.py:265-277 | following each selected on-grid neighbour only lowers cells, never below 20, never touches the drop's own cell, and only lowers cells that started no higher than its value |
| HeightField.Erosion | generators.py:199-209 | after all the drops, every cell is unchanged or lowered to a value that is still at least 20 |
| HeightField.GenIsland | generators.py:43-54 | the noise surface holds the contrast-1.4 values; the result is a fresh surface of its size, in 0..255, each pixel the radial-mask pixel of the contrasted noise or eroded from it to a value of at least 20 |
| HeightField.GenContinents | generators.py:56-65 | the noise surface holds the contrast-1.3, brightness-40 values; the result is a fresh surface of its size, in 0..255, each pixel the hyperbolic-mask pixel of the contrasted noise or eroded from it to a value of at least 20 |
| HeightField.GenHighlands | generators.py:68-77 | the noise surface ends in 0..255, each pixel its contrast-1.3, brightness-100 value or eroded from it to a value of at least 20 |
| Generator.Configure | generators.py:294-311 | the scale is `5 + 2 * size`; highlands add 5 resources and lose one rainfall unless it is 0; continents gain one rainfall and deserts lose one |
| Generator.ConfigureBounds | generators.py:294-311 | for menu choices 0..2, the rainfall moves by at most one, resources stay within 0..7 and the scale within 5..9 |
| Generator.Resolution | generators.py:28 | the noise side is `2^scale`, capped at 256 from scale 8 on |
| Generator.ResolutionMonotone | generators.py:28 | a larger scale never gives a smaller noise square |
| Generator.SimpleNoise | generators.py:27-41 | a fresh square of side `Resolution(scale)` with values between black and grey 233 |
| Generator.StartOnLargest | generators.py:451-457 | on success the start lies within the swapped bounding ranges of some playable island (not necessarily on the island itself), fits on the map as it was, the town is drawn and the view centred; otherwise the overlay, start and view are untouched; if every cell within those ranges of every playable island is unfit, the answer is False |
| Generator.Terrain | generators.py:434-442 | beaches, snow and island definition keep the map's size, start and view, and leave the islands on the grid |
| Generator.Features | generators.py:443-449 | rivers, forests and veins keep the map's size, start and view, and the islands stay on the grid |
| Generator.GenPlayableElements | generators.py:432-457 | on success the start lies within the swapped bounding ranges of a playable island, carries the mayor's building and the view is centred on it; otherwise start and view are unchanged |
| Generator.Generate | generators.py:291-374 | an unknown map type generates nothing and leaves the map untouched; a generated map is square with side `Resolution(5 + 2 * size)`, its start within the swapped bounding ranges of a playable island and marked by the mayor's building, and the view centred on it |
| FromImage.Filled | generators.py:317-324 | the filled grid has the requested shape and one tile everywhere |
| FromImage.GenEmpty | generators.py:314-327 | both layers are rebuilt to the recorded size, grass under an empty overlay, and no other field changes |
| FromImage.Dimensions | generators.py:379-393 | a wide image within the limit keeps its size; a wider one is shrunk to the limit width; a tall one over the limit is shrunk to the limit height; a tall one within it leaves the size at (0, 0) |
| FromImage.Scaled | generators.py:386-387 | the rounded scaled side is between 0 and the limit |
| FromImage.DimensionsOfOwnSize | generators.py:352 | with an image's own size as the limit, a wide or square image keeps its size and a tall one gives (0, 0) |
| FromImage.Elevation | generators.py:404-419 | below 50 OCEAN, below 100 SHORE, then SAND in deserts; otherwise below 200 GRASS, below 230 GROUND, else SNOW, each exactly on its band |
| FromImage.ElevationMonotone | generators.py:406-419 | a brighter pixel never gives a lower tile |
| FromImage.OverlayFor | generators.py:423-429 | MOUNTAIN exactly on GROUND or SNOW with its draw, PALMTREE exactly on SAND with its draw, otherwise the overlay stays empty |
| FromImage.ClassifyColumn | generators.py:402-429 | one more column is classified from the image, the earlier ones are kept and later ones are still empty |
| FromImage.GenFromImage | generators.py:376-429 | the map takes the scaled size; every ground cell is the elevation tile of its pixel; mountains lie only on GROUND or SNOW and palm trees only on SAND, with no other overlay; the island lists, start location and view position are kept |
| Islands.StepsOnSquare | generators.py:523-535 | on a square map the flood fill's four guarded moves are exactly the in-grid 4-neighbours |
| Islands.TileOrderIsTotal | generators.py:479 | the `(y, -x)` sort key is a total preorder |
| Islands.FindIslandBoundaries | generators.py:505-535 | the visited set only grows; the island gains exactly the newly visited passable cells, distinct, 4-linked and closed under the fill's moves |
| Islands.Spread | generators.py:522-535 | the four guarded recursive calls together keep the island distinct and linked and close it under moves |
| Islands.Visit | generators.py:524-525 | a guarded call leaves a passable neighbour visited and only appends to the island |
| IslandScan.PartitionDisjoint | generators.py:469-480 | no cell lies in two islands |
| IslandScan.PartitionCovers | generators.py:469-480 | a cell is passable exactly when some island holds it |
| IslandScan.IslandsOfPerm | generators.py:481-482 | reordering the island list keeps every property of the list |
| IslandScan.AddIsland | generators.py:475-480 | appending the sorted fill of a new cell extends the found islands by one |
| IslandScan.AddIslandClosed | generators.py:475-480 | on a square map the island list stays closed under passable 4-neighbours after an island is added |
| IslandScan.NewCellClosed | generators.py:475-480 | a passable neighbour of a newly found cell belongs to the same new island |
| IslandScan.Playable | generators.py:486 | the playable list holds exactly the islands of more than 400 cells |
| IslandScan.PlayableLongestFirst | generators.py:481-486 | the filter keeps the largest-first order |
| IslandScan.ScanIslands | generators.py:466-480 | the row-major scan yields islands that partition the passable cells, each non-empty, 4-connected and sorted by `(y, -x)`; on a square map each is closed under passable neighbours |
| IslandScan.DefineIslands | generators.py:460-489 | the island list has the partition properties and is sorted by non-increasing size; the playable islands are those over 400 cells; the layers, size, start and view are unchanged |
| IslandScan.CollectLandmass | generators.py:495-500 | the collected cells are distinct, row-major, and exactly the passable cells |
| IslandScan.DefineLandmass | generators.py:493-503 | one island holds every passable cell and is also the only playable one |
| IslandScan.BoxBounds | generators.py:540-553 | the box contains every tile, each bound not stuck at 0 is reached by a tile, and both minima are 0 for on-grid tiles |
| IslandScan.FindIslandMinMax | generators.py:537-553 | the returned box contains every tile; each non-zero bound is attained; with minima starting at 0 they stay 0 on the grid |
| IslandScan.IslandsFirst | generators.py:563-564 | islands already defined are kept; otherwise `define_islands` provides them |
| Rivers.FirstLowest | generators.py:678-714 | the index of a candidate of least height, with every earlier candidate strictly higher: the head after the stable sort by height |
| Rivers.Toward | generators.py:666-673 | a neighbour is a candidate exactly when it is on the grid and no higher than the current cell |
| Rivers.Downhill | generators.py:659-673 | the candidates are in-grid 4-neighbours no higher than the cell, with their heights; there are none exactly at a sink |
| Rivers.DrawRiver | generators.py:645-714 | off-grid, already-river or already-collected cells fail with nothing appended; otherwise the cell is appended and a sink fails; a first lowest neighbour of water succeeds; a walk that goes on appends next the first lowest downhill neighbour, an adjacent cell no higher than this one; success means a cell reached water or a highlands river is over 10 cells; only fresh on-grid non-river cells are appended |
| Rivers.Deltas | generators.py:699-708 | the delta branches only append cells, and the river still reaches water; without a passable neighbour nothing is added |
| Rivers.DeltaIfPassable | generators.py:701-702 | a branch starts only into a passable neighbour |
| Rivers.Delta | generators.py:702 | one delta branch keeps the collected list growing from the cell that reached water |
| Rivers.OneCellRiver | generators.py:698-711 | `draw_river` can succeed with a single-cell list (the finding below) |
| RiverGen.StampCells | generators.py:591-592 | stamping a river writes RIVER exactly at its on-grid cells |
| RiverGen.StampAllCells | generators.py:580-594 | after all rivers, a cell is RIVER when some stamped river holds it, else unchanged |
| RiverGen.ByHeightPreorder | generators.py:578 | sorting by height uses a total preorder |
| RiverGen.Samples | generators.py:577 | one height sample per island cell, in island order |
| RiverGen.RiverBounds | generators.py:570-573 | `i_min` is the integer fifth root, at least 1; `i_max` is the integer cube root, at least `i_min + 3` |
| RiverGen.StartRange | generators.py:581-582 | the start index range `[int(0.85 n), int(0.98 n)]` is non-empty and inside the sample list |
| RiverGen.SortedSamples | generators.py:577-578 | the sorted samples are a permutation of the island's samples in non-decreasing height |
| RiverGen.Walk | generators.py:584-585 | a successful walk starts at the chosen cell and succeeded on the map's ground |
| RiverGen.Attempt | generators.py:581-594 | a failed attempt writes nothing; a successful one stamps exactly its meandered river; the ground and other fields are kept |
| RiverGen.RiversOnIsland | generators.py:575-594 | at most `count` successes; the overlay is the old one with every meandered successful walk stamped; each walk started on the island and succeeded |
| RiverGen.RiversOnIslands | generators.py:566-594 | over all islands of at least 40 cells, only stamped successful walks change the overlay |
| RiverGen.GenRivers | generators.py:561-594 | islands are defined first when missing; only the overlay changes, and only by the meandered successful walks started on islands of at least 40 cells |
| Meander.Move | generators.py:603-612 | the move between two cells; a horizontal change decides over a vertical one, as the later test wins |
| Meander.Run | generators.py:614-640 | the run of equal moves ending at a cell is at most its index, and zero exactly for a non-move |
| Meander.FirstStraight | generators.py:614-617 | the first index where five equal moves end, or None when there is none |
| Meander.Perturbed | generators.py:618-633 | the eight-cell wiggle places each cell next to one of the four replaced cells |
| Meander.Without | generators.py:635 | the filter keeps exactly the cells outside the replaced stretch |
| Meander.Meandered | generators.py:598-643 | the meandered river: unchanged for at most one cell or without five equal moves in a row; otherwise it differs, ends with the eight-cell wiggle and is at most eight cells longer |
| Meander.ScanMeander | generators.py:598-643 | the scan of a river of more than one cell yields the meandered river |
| Meander.MeanderRiver | generators.py:596-643 | as written: a river of at most one cell gives None, a longer one its meandered form |
| Meander.MeanderRiverFixed | generators.py:596-643 | as intended: a river of at most one cell comes back unchanged |
| Meander.NoStraightUnchanged | generators.py:614-643 | a river without five equal moves in a row is left as it is |
| Meander.MeanderKeeps | generators.py:635-637 | every river cell outside the replaced stretch is kept |
| Meander.MeanderStaysNear | generators.py:618-637 | every cell of the meandered river is a river cell or touches one, diagonals included |
| Forests.Turn | generators.py:777-786 | a vertical branch turns to left or right, a horizontal one to up or down |
| Forests.Step | generators.py:789-796 | each step goes to a 4-neighbour |
| Forests.TreesOnlyPlant | generators.py:765-769 | planting a grass cell with an empty or wooded overlay only writes TREES there |
| Forests.GrowTrees | generators.py:756-796 | only the overlay changes, only TREES on in-grid GRASS cells whose overlay was empty or TREES; a cell that cannot be planted stops the branch; weight 1 plants one cell at most |
| Forests.ForestBounds | generators.py:726-729 | `i_min` is the integer fourth root, at least 1; `i_max` the largest `r` with `(2r/3)^3 <= n`, at least `i_min + 2` |
| Forests.Forest | generators.py:750-753 | the four branches only write TREES on plantable grass |
| Forests.ForestsOnIsland | generators.py:734-754 | at most `count` forests; an island without grass gets none and the overlay is unchanged |
| Forests.ForestsOnIslands | generators.py:722-754 | over every island only TREES on grass are written, and the ground is kept |
| Forests.GenForests | generators.py:717-754 | islands are defined first when missing; only TREES on grass are added to the overlay |
| Ores.CoalOf | generators.py:830-835 | GRASS, SAND and GROUND, and only they, have a coal variant, which is a coal token |
| Ores.OilOf | generators.py:855-862 | GRASS, SAND, GROUND and SHORE, and only they, have an oil variant, which is an oil token |
| Ores.MineralsAreFinal | generators.py:836-837 | a mineral tile has no further variant |
| Ores.MarkCoal | generators.py:825-839 | the vein goes on exactly from an on-grid coal ground or coal cell; only the ground changes, and only to the cell's coal variant |
| Ores.MarkOil | generators.py:849-866 | the field goes on exactly from an on-grid oil ground or oil cell; only the ground changes, and only to the cell's oil variant |
| Ores.GenCoalVeins | generators.py:821-843 | only the ground changes, each cell kept or set to its coal variant; off-grid or negative weight changes nothing; a tile without a coal form stops the vein unchanged |
| Ores.MaybeOil | generators.py:868-869 | an optional branch only mines oil |
| Ores.GenOilField | generators.py:845-875 | only the ground changes, each cell kept or set to its oil variant; off-grid or negative weight changes nothing; a tile without an oil form stops the field unchanged |
| Ores.OilBranches | generators.py:868-875 | the four diagonal branches only mine oil |
| Ores.OreBound | generators.py:807-810 | `i_max` is `min(4, r) + resources - 1`, with `r` the largest value where `9 r^2 <= n` |
| Ores.OresOnIsland | generators.py:807-819 | the veins of one island only turn cells into their mineral variants |
| Ores.GenOreVeins | generators.py:799-819 | islands are defined first when missing; the overlay is kept and ground cells only become minerals |
| Automata.BeachColumnBounds | generators.py:884-897 | a window column counts at most its cells, each scoring between -2 and 1 |
| Automata.BeachWindowBounds | generators.py:884-897 | a standalone fact that no other proof uses: the window counts at most nine cells, each scoring between -2 and 1 |
| Automata.BeachColumnCount | generators.py:885-897 | the inner loop computes the column's `(tiles, count)` |
| Automata.BeachCount | generators.py:882-897 | the double loop computes the window's `(tiles, count)` |
| Automata.BeachCell | generators.py:884-905 | a cell keeps its ground or becomes SHORE or SAND; OCEAN never becomes SHORE, so it stays OCEAN or becomes SAND |
| Automata.BeachStep | generators.py:899-905 | the cell's new ground is its beach tile, and palm trees appear only on SAND-band cells |
| Automata.BeachSweepColumn | generators.py:881-905 | one more column of the copy holds the beach tiles, the rest unchanged |
| Automata.BeachLayers | generators.py:878-906 | the new ground layer is the beach grid of the old map, palm trees only on SAND-band cells |
| Automata.GenBeaches | generators.py:877-908 | the map's ground becomes the beach grid computed from the old map, the overlay only gains palm trees on SAND-band cells, and nothing else changes |
| Automata.InlandKept | generators.py:884-902 | passable ground with only passable neighbours keeps its tile, except on a one-cell map where it becomes SHORE |
| Automata.IslandOfOneIsShore | generators.py:884-900 | land surrounded only by OCEAN and SHORE becomes SHORE |
| Automata.SnowColumnBounds | generators.py:920-931 | a column's three tallies count at most its cells |
| Automata.SnowWindowBounds | generators.py:920-931 | a standalone fact that no other proof uses: the window's three tallies count at most nine cells |
| Automata.SnowColumnCount | generators.py:921-931 | the inner loop computes the column's `(snow, ground, grass)` |
| Automata.SnowCount | generators.py:916-931 | the double loop computes the window's tallies |
| Automata.SnowCell | generators.py:916-938 | a cell keeps its ground, becomes SNOW, or melts from SNOW to GROUND or GRASS; a cell without snow changes only to SNOW |
| Automata.SnowStep | generators.py:933-938 | the cell's new ground is its snow tile |
| Automata.SnowSweepColumn | generators.py:915-938 | one more column of the copy holds the snow tiles |
| Automata.SnowLayer | generators.py:912-938 | the new ground layer is the snow grid of the old map |
| Automata.GenSnow | generators.py:911-941 | the map's ground becomes the snow grid of the old map; the overlay and other fields are kept |
| Automata.SnowChanges | generators.py:933-938 | a cell only keeps its tile, turns to snow, or melts from snow to GROUND or GRASS; a non-snow cell becomes snow exactly when more than two counted cells are snow |
| Automata.LoneSnowMelts | generators.py:936-938 | isolated snow melts to GROUND when more ground than grass is around it, else to GRASS |
| Automata.SnowFillsIn | generators.py:933-935 | a cell ringed by snow on all eight sides becomes or stays snow |
| StartSite.Footprint | generators.py:987-988 | the footprint has 15 cells |
| StartSite.FootprintCells | generators.py:987-988 | the footprint is exactly the cells at most two columns and one row from the anchor |
| StartSite.ScanFit | generators.py:987-995 | the footprint scan passes exactly when every cell is on the map, passable and without a river |
| StartSite.ScanStopsAt | generators.py:989-992 | the scan stops at the first unusable cell, raising there when it is off the map and rejecting otherwise |
| StartSite.Assess | generators.py:981-995 | an off-map centre is `OffMap`; a fitting site has a usable centre and every footprint cell on the map, passable and free of rivers |
| StartSite.AssessFit | generators.py:981-995 | a site fits exactly when its centre is usable (passable, and neither SAND nor SNOW outside deserts) and every footprint cell is on the map, passable and river-free |
| StartSite.ScanRow | generators.py:988-993 | one footprint row is appended while usable, else the scan's verdict is reported |
| StartSite.StartLocationSuitability | generators.py:981-995 | the footprint exactly when the site fits, the empty list exactly when it is unfit, None exactly where an off-map cell is indexed |
| StartSite.RoadsCells | generators.py:970-972 | the roads are the three cells of the row below the anchor |
| StartSite.StartOverlay | generators.py:964-972 | drawing the town keeps the overlay's shape (its cells are given by `StartOverlayCells`) |
| StartSite.StartOverlayCells | generators.py:964-972 | after drawing, MAYORS is at the anchor, ROAD on the three cells below, UI_EMPTY on the rest of the footprint, and the old overlay elsewhere |
| StartSite.StartOverlayAnchor | generators.py:969 | the town hall stands on the anchor |
| StartSite.Range | generators.py:949-950 | `range(lo, hi)` holds exactly the integers from `lo` up to `hi`, excluding `hi` |
| StartSite.Shuffle | generators.py:949-950 | a shuffled range is a permutation of the range |
| StartSite.DrawTown | generators.py:963-972 | the overlay becomes the drawn town at the start cell, and the ground is kept |
| StartSite.FoundTown | generators.py:963-975 | the town is drawn and the view is centred on it |
| StartSite.CentredView | generators.py:975 | the view origin is half a screen (20, 14) up and left of the anchor, and 0 where that would be negative |
| StartSite.CentreView | generators.py:975 | `pos_at` becomes the centred view and nothing else changes |
| StartSite.ProbeSites | generators.py:952-960 | only the first x of each row is probed; a success fits on the map and returns its footprint; an exception is a None; an empty result means every probed site was unfit |
| StartSite.ChooseSite | generators.py:947-960 | a chosen site is a candidate of the island's swapped ranges and fits; if all candidates are unfit the result is empty |
| StartSite.SelectPlayerStartpoint | generators.py:945-979 | on success the start is a fitting candidate, the town is drawn, the view centred and the ground kept; on failure the map is unchanged; None only when some candidate runs off the map; all candidates unfit gives False |
| IntRoots.IRoot | generators.py:570 | the root `r` satisfies `r^k <= n < (r+1)^k` |
| IntRoots.IRootUnique | generators.py:573 | that property fixes the root |
| Sorting.Insert | generators.py:479 | inserting into a sorted list keeps it sorted and adds exactly one element |
| Sorting.Sort | generators.py:479 | `sorted` returns a sorted permutation of its input |
| Sorting.LongestFirst | generators.py:481-482 | `sorted(key=len)` then `reverse()` is a permutation ordered by non-increasing length |
| DiamondSquareGen.Kept | src/diamondsquare.py:36 | the kept values are exactly the entries other than -1 |
| DiamondSquareGen.Average | src/diamondsquare.py:34-38 | -1 when every entry is -1; otherwise the mean of the others |
| DiamondSquareGen.AverageBetween | src/diamondsquare.py:34-38 | a standalone fact that no other proof uses: the average of the computed entries lies between their least and greatest |
| DiamondSquareGen.KeptSkipsSentinel | src/diamondsquare.py:36 | a standalone fact that no other proof uses: a -1 entry changes nothing |
| DiamondSquareGen.SlotsDiffer | src/diamondsquare.py:29-32 | distinct cells have distinct slots |
| DiamondSquareGen.DiamondSquare.constructor | src/diamondsquare.py:9-22 | `(res + 1)^2` cells, all -1, `max = res`, an empty range |
| DiamondSquareGen.DiamondSquare.SlotOf | src/diamondsquare.py:24-32 | an on-map cell has a slot in the list that no other cell shares |
| DiamondSquareGen.DiamondSquare.Get | src/diamondsquare.py:24-29 | -1 off the map, otherwise the cell's slot |
| DiamondSquareGen.DiamondSquare.Set | src/diamondsquare.py:30-32 | `set` writes the slot `get` reads and no other cell changes |
| DiamondSquareGen.DiamondSquare.Record | src/diamondsquare.py:68-73 | the write of a step, with `[lowValue, highValue]` widened to take it in |
| DiamondSquareGen.DiamondSquare.Square | src/diamondsquare.py:59-73 | writes the average of the four diagonal neighbours plus `change`, and only widens the range |
| DiamondSquareGen.DiamondSquare.Diamond | src/diamondsquare.py:74-88 | writes the average of the four orthogonal neighbours plus `change`, and only widens the range |
| DiamondSquareGen.DiamondSquare.Divide | src/diamondsquare.py:39-57 | the recursive halving only widens the range; below 2 it changes nothing |
| DiamondSquareGen.DiamondSquare.Normalise | src/diamondsquare.py:99-106 | lowValue is clamped to at most 0 and subtracted from every cell and from highValue, so no cell decreases |
| DiamondSquareGen.DiamondSquare.Generate | src/diamondsquare.py:90-106 | after the corners, the steps and the shift, lowValue is at most 0 and every computed non-corner cell lies in `[0, highValue]` |
| DiamondSquareGen.DiamondSquare.ConvertTable | src/diamondsquare.py:108-118 | a `side` by `side` table whose entry `[i][j]` is `get((j, i))` |
| Viewport.MaxPosFor | map.py:112-115 | `maxPos` is 0 on an axis the screen covers, else the origin that shows the last column or row |
| Viewport.Map.SetSize | map.py:112-115 | the size is stored and `maxPos` computed from it; nothing else changes |
| Viewport.Step | map.py:117-126 | up and left decrement while positive; down and right increment while below `size - SCREEN - 1`; other words do nothing; the origin never goes negative |
| Viewport.StepStaysInView | map.py:117-126 | a move from an origin within `[0, maxPos]` stays there |
| Viewport.DownPresses | map.py:121-122 | pressing down moves one row per press and stops for good at `size - SCREEN_Y - 1` |
| Viewport.BottomRowNotReachedByScrolling | map.py:121-122 | key presses never bring the bottom row of a map taller than the screen into view |
| Viewport.Map.Move | map.py:117-126 | `posAt` takes one step, with size and layers unchanged |
| Viewport.ClampToMax | map.py:219-223 | each coordinate is cut down to `maxPos`; it is kept exactly when it is already within |
| Viewport.ClampInView | map.py:219-223 | a clamped non-negative origin is within `[0, maxPos]`, and clamping again changes nothing |
| Viewport.Map.ClampView | map.py:219-223 | the `draw` failsafe sets `posAt` to its clamp and nothing else |
| Viewport.Terrain | map.py:193-203 | below 50 OCEAN, below 70 SHORE, below 80 SAND, below 200 GRASS, else GROUND, each exactly on its band |
| Viewport.TerrainMonotone | map.py:193-203 | a brighter pixel never gives a lower tile |
| Viewport.Brightness | map.py:193-196 | a grey pixel's brightness is its channel value, and channel values 0..255 give a brightness in 0..255 |
| Viewport.Map.Get | map.py:207-212 | None exactly off the map; on it `get` reads a `tilemap` attribute nobody assigns |
| Viewport.Map.GenEmpty | map.py:128-140 | `size.1` rows of `size.0` cells, GRASS under UI_EMPTY |
| Viewport.Map.GenFromImage | map.py:164-205 | the size follows the scaled image; every ground cell is its pixel's terrain class, and the overlay is empty |
| Viewport.Map.constructor | map.py:101-108 | the size is set and the window starts at the top-left corner with empty layers |
| Viewport.Accepted | map.py:257-260 | a cell joins with its own kind, and a river also with SHORE and OCEAN |
| Viewport.Sides | map.py:256-268 | the link string holds each letter exactly for its side, and is empty exactly with no side |
| Viewport.Links | map.py:254-268 | the top row always links up and the left column left; each other side links exactly when that neighbour joins; the last row or column fails |
| Viewport.Variant | map.py:270-288 | a variant exists exactly for the strings in the table; it is the table's entry, in 0..10 |
| Viewport.VariantOfSides | map.py:270-288 | every non-empty link string has a variant; purely vertical ones give 1 and purely horizontal ones give 0 |
| Viewport.OverlaySprite | map.py:252-293 | UI_EMPTY draws nothing; river and road cells on the last row or column fail; a joined sprite is only for river or road with a non-empty link string, and its variant is the table's entry for that string |
| Viewport.LinksHaveEntry | map.py:261-288 | inside the map, a link string has a table entry exactly when it is not empty |
| Buildings.CanPlace | buildings.py:19-20 | the base building goes anywhere; a coal mine only on coal tokens; an oil rig only on oil tokens |
| Buildings.Plain | buildings.py:8-17 | the base record with its four fields and none of the subclass attributes |
| Buildings.House | buildings.py:22-27 | tax `3 * population`, type 'r', required jobs half the population rounded down above 3, else the population |
| Buildings.BigHouse | buildings.py:29-32 | 12..18 tax and 2 or 3 required jobs for a population of 4..6 |
| Buildings.Apartments | buildings.py:35-38 | 36..60 tax and 6..10 required jobs for a population of 12..20 |
| Buildings.Store | buildings.py:40-44 | a commercial building taxed 3 per job |
| Buildings.PoliceStation | buildings.py:46-51 | a civic service costing 8 per job, with 60 police safety and no fire safety |
| Buildings.FireStation | buildings.py:53-58 | a civic service costing 8 per job, with 60 fire safety and no police safety |
| Buildings.CoalMine | buildings.py:60-65 | industry with no jobs attribute, placeable exactly on coal tokens |
| Buildings.OilRig | buildings.py:67-72 | industry with no jobs attribute, placeable exactly on oil tokens |
| Buildings.VeinsArePlaceable | buildings.py:64-72 | every coal or oil tile the vein generators write is accepted by the mine or rig, and those accept only such tiles |
| Buildings.OptTotal | player.py:89-98 | a sum of an attribute exists exactly when every building has it |
| Buildings.TaxTotalPermutation | player.py:64-66 | shuffling the businesses does not change the tax total |
| Buildings.SumTax | player.py:48-49 | the loop sums every tax |
| Buildings.SumPresent | player.py:89-90 | the loop sums the attribute, or fails on the first building without it |
| Buildings.OptTotalFailsOn | player.py:92-95 | one building without the attribute makes the whole sum fail |
| Buildings.SumIfPresent | player.py:122-126 | the `hasattr` loop sums the attribute where present |
| Buildings.File | player.py:39-41 | a `None` type is ignored, 'd' has no list, any other type is appended to its own list and the other lists are kept |
| Buildings.ServiceSafety | player.py:119-126 | each safety is 40 plus the contributions of the civic services that have it |
| Buildings.Upkeep | player.py:43-51 | the expenses are `0.01 * roads` with no services, and never negative when roads and service costs are not |
| PlayerEconomy.BusinessIncome | player.py:60-68 | nothing without residents or businesses; otherwise every business tax once, or failure when a business lacks `jobs` |
| PlayerEconomy.PositiveTimes | player.py:71-81 | times are good exactly for an empty city, or when there is a job for every two residents (rounded down) and both safeties reach the population |
| PlayerEconomy.PositiveTimesMonotone | player.py:71-81 | more jobs or more safety never turn good times bad |
| PlayerEconomy.PositiveTimesNeedJobs | player.py:75-76 | good times need a job for every two residents, rounded down |
| PlayerEconomy.Settle | player.py:105-117 | a profit raises the money, by at most the profit; a loss or a zero balance takes the whole difference off |
| PlayerEconomy.SettleOutcome | player.py:105-117 | a profit grows the money, by all of it in good times and by 0.6 of it in bad; a loss books expenses and income in full |
| PlayerEconomy.SettleGoodTimes | player.py:109-110 | in good times the whole balance is booked |
| PlayerEconomy.SettleRewardsGoodTimes | player.py:105-113 | bad times never pay more than good times |
| PlayerEconomy.IndustryBreaksJobCount | player.py:94-95 | a filed coal mine or oil rig makes the job count fail |
| PlayerEconomy.JobsPermutation | player.py:64-67 | reordering the businesses keeps whether all of them have `jobs` |
| PlayerEconomy.BusinessJobsPresent | player.py:61-67 | when `calc` got its job count, every business `calc_income` walks has `jobs` |
| PlayerEconomy.Mayor.constructor | player.py:9-36 | 6000 money, 15000 for "low" and 2000 for "high"; safeties 1; no residents, jobs, buildings or roads |
| PlayerEconomy.Mayor.AddBuilding | player.py:39-41 | the ledger is filed as `File` says; nothing else changes |
| PlayerEconomy.Mayor.CalcExpenses | player.py:43-51 | returns `0.01 * roads` plus every service's upkeep, changing nothing |
| PlayerEconomy.PayBusinesses | player.py:64-68 | one pass over the shuffled businesses completes exactly when every one has `jobs`, and then adds every tax once |
| PlayerEconomy.Mayor.CalcIncome | player.py:53-69 | returns every residential tax plus the business income, failing exactly when that does |
| PlayerEconomy.Mayor.Calc | player.py:83-126 | succeeds exactly when every resident and job count is present; then the counts are the sums, the money is settled, and the safeties are recomputed only when asked; on failure the money and safeties are untouched |
| PlayerEconomy.Mayor.Commit | player.py:101-126 | records the counts, settles the money and recomputes the safeties only when asked |
| MayorEconomy.RevenueMatchesPlayer | mayor.py:51-60 | with no industry, the older `calculateIncome` books what player.py's income does when someone lives in the city |
| MayorEconomy.Revenue | mayor.py:51-60 | the income booked is the tax total of the residential and commercial buildings together |
| MayorEconomy.Mayor.constructor | mayor.py:7-34 | 5000 money, 10000 for "easy" and 2500 for "hard"; safeties 1; nothing built |
| MayorEconomy.Mayor.AddBuilding | mayor.py:37-39 | the same filing as player.py; nothing else changes |
| MayorEconomy.Mayor.CalculateExpenses | mayor.py:41-49 | the money loses the road and service upkeep; nothing else changes |
| MayorEconomy.Mayor.CalculateIncome | mayor.py:51-60 | the money gains every residential and commercial tax; industry earns nothing |
| MayorEconomy.Mayor.Calculate | mayor.py:62-82 | the money always moves first; the counts succeed exactly when residents, commerce and services have them (industry is left out); the safeties are recomputed only on success and when asked |

## Left out

- `gen_simple_noise` draws noise from a foreign library and resamples it, so `Generator.SimpleNoise` only fixes the size and the value range. `pygame.transform.smoothscale` in `gen_from_image` is not modelled: the scaled image is an input of the right size.
- The floating-point geometry of the masks is left out. The radial distance is a parameter (`dist`). `RadialChange`, `HyperbolicZ` and `LinearZ` compute over exact reals, so float rounding is not modelled.
- Random draws are parameters or nondeterministic choices, and their distribution is not modelled.
- The `while True` regeneration loop and the river and forest loops take an `attempts` budget. The source retries until success, so a run that never succeeds is modelled as running out of attempts (`Generation.OutOfAttempts`, fewer walks or forests).
- Forests.ForestsOnIsland: the source loops forever on an island with no grass. The model stops after `attempts` picks and proves that such an island gets no forest.
- HeightField.MaskLinear: requires a width other than 1, since the source divides by zero there.
- Forests.GrowTrees: requires weight at least 1. A smaller weight never stops early in the source. `gen_forests` draws at least `8 + rainfall`, so `GenForests` requires a rainfall of at least -7, and `Generator.Generate` requires at least -6 before the deserts adjustment. The menu offers 0..2.
- IslandScan.DefineIslands, Islands.FindIslandBoundaries, Islands.Spread, Islands.Visit and IslandScan.ScanIslands: require a width no greater than the height. The downward step of the fill is bounded by the width, so a wider map would index off the grid. Every generator produces a square map.
- Sorting.Sort and Sorting.LongestFirst: Python's sort is stable, so after the reverse, islands of equal size keep the reverse of the order in which they were found. The model proves only the permutation and the size order, leaving the order among equal sizes open. Which of two equal-size islands `Generator.StartOnLargest` probes first is therefore not pinned down, though its contract holds for either order.
- RiverGen.RiverBounds: the upper bound is the exact integer cube root. Python's `int(n ** (1. / 3))` is one short on perfect cubes, for example `1000` gives 9, not 10. The two agree for every island size that is not a perfect cube.
- Forests.ForestBounds: the upper bound is the exact `int(cbrt(n) * 1.5)`. Floating point can fall one short where `8 r^3 = 27 n`, for example at 64, 216 and 1000.
- Ores.OreBound: `int(sqrt(n) / 3)` is taken as the exact integer value.
- FromImage.Scaled and FromImage.Dimensions: the float `round` is taken as exact half-away rounding. Only bounds on the scaled side are stated, not its value.
- RiverGen.StartRange: `int(n * 0.85)` and `int(n * 0.98)` are taken as `85 n / 100` and `98 n / 100`, ignoring float error.
- RiverGen.Attempt: stamps the corrected meander (`Meander.MeanderRiverFixed`), so a successful walk of one cell is stamped as it is. In the source, `meander_river` returns None there and the stamping loop raises a TypeError that nothing catches (see "## Findings").
- RiverGen.RiversOnIsland: carries on after a one-cell river, where the source raises (see `RiverGen.Attempt`).
- RiversOnIslands (RiverGen.RiversOnIslands): carries on after a one-cell river, where the source raises (see `RiverGen.Attempt`).
- GenRivers (RiverGen.GenRivers): carries on after a one-cell river, where the source raises, so it never reports that error (see `RiverGen.Attempt`).
- Generator.Features: carries on to forests and veins after a one-cell river, where the source raises (see `RiverGen.Attempt`).
- GenPlayableElements (Generator.GenPlayableElements): can return a playable map after a one-cell river, where the source raises a TypeError (see `RiverGen.Attempt`).
- Generator.Generate: can end `Generated` after a one-cell river, where the source crashes; `Raised` covers only the start probe (see `RiverGen.Attempt`).
- `draw_river` keeps collecting cells after a successful walk into the delta branches. Their results are ignored, as in the source.
- DiamondSquareGen.DiamondSquare.Square: with integer corner values, Python 2 floors the average of the very first square step. The model averages exactly, over reals.
- DiamondSquareGen.DiamondSquare.Set: requires an on-map cell. For any other cell the source writes whatever slot `x + res * y` names, or raises. No caller passes such a cell.
- `DiamondSquare.convert_to_image`, `pygame.image.save`, `Tileset` image slicing and all rendering in `Map.draw` are image and display work. Only the `posAt` clamp and the sprite table of `draw` are modelled.
- `Map.genIsland` calls a generator method that does not exist. The `Viewport.Map` constructor stops before it.
- `find_island_midpoint` recurses into itself forever and is never called. `merge_images`, `brighten_image`, `set_sea_level`, `gen_random` and `Map.genRandom` are unused.
- `sys.setrecursionlimit` is left out. The `copy.deepcopy` in the automata is modelled as reading the old layers while a copy is written.
- ui.py and game.py are event loops, menus and display set-up, and are not part of this model. config.py contributes only `SCREEN_X = 40` and `SCREEN_Y = 28`.
- Buildings.House: the default population, drawn once when the module loads, is a parameter.
- Money is a `real`, so float rounding of money is not modelled.
- PlayerEconomy.Mayor.Calc and MayorEconomy.Mayor.Calculate: after a missing `population` or `jobs`, the two counts are left unspecified. The source leaves whatever the loop had reached.
- StartSite.StartLocationSuitability: the TypeError of a footprint cell off the map is the value None. It is propagated up as a failed generation (`Generation.Raised`) rather than excluded by a precondition.

## Findings

| source | as written | input that shows it | evidently intended | confidence | as-written member | corrected member |
|---|---|---|---|---|---|---|
| generators.py:596-643 | `meander_river` returns None for a river of one cell or none, because every `return` sits inside `if len(river_set) > 1`. `gen_rivers` then iterates over the result at generators.py:589-592 and raises a TypeError. | A start cell whose lowest neighbour no higher than itself is SHORE or OCEAN, with every passable neighbour already a river, so no delta cell is added. On the smallest case, the two-cell map GRASS, SHORE with the shore no higher, `draw_river` succeeds with the single cell `(0, 0)`. | A river too short to meander comes back unchanged and is stamped. | not executed | Meander.MeanderRiver, Rivers.OneCellRiver | Meander.MeanderRiverFixed |
