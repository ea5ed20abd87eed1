/** `GameMapGenerator` as a whole: the settings derived from the menu
    choices, the regenerate-until-playable loop of the three terrain recipes,
    and `gen_playable_elements`, which runs the feature generators in their
    fixed order and then looks for a start site on the largest islands. */
module Generator {
  import opened Tiles
  import opened TileMap
  import opened Wrappers
  import opened Sorting
  import opened IslandScan
  import opened IntRoots
  import HeightField
  import FromImage
  import Automata
  import RiverGen
  import Forests
  import Ores
  import StartSite

  /** The menu's map types; any other name generates nothing. */
  datatype MapType = Island | Highlands | Continents | Deserts | OtherType

  datatype Settings = Settings(scale: int, rainfall: int, resources: int)

  /** The adjustments of `__init__`: the scale grows by two per size step,
      highlands get five more resources and one less rainfall (never going
      below zero), continents one more rainfall and deserts one less. */
  function Configure(mapType: MapType, rainfall: int, resources: int, size: int): (s: Settings)
    ensures s.scale == 5 + 2 * size
    ensures s.resources == if mapType == Highlands then resources + 5 else resources
    ensures mapType == Highlands ==> s.rainfall == if rainfall > 0 then rainfall - 1 else rainfall
    ensures mapType == Continents ==> s.rainfall == rainfall + 1
    ensures mapType == Deserts ==> s.rainfall == rainfall - 1
    ensures mapType == Island || mapType == OtherType ==> s.rainfall == rainfall
  {
    var r := match mapType
      case Highlands => rainfall - (if rainfall > 0 then 1 else 0)
      case Continents => rainfall + 1
      case Deserts => rainfall - 1
      case _ => rainfall;
    Settings(5 + 2 * size, r, if mapType == Highlands then resources + 5 else resources)
  }

  /** For the menu's choices (each an index 0..2) the settings stay small:
      rainfall within one of the choice, resources at most seven and the
      scale between five and nine. */
  lemma ConfigureBounds(mapType: MapType, rainfall: int, resources: int, size: int)
    requires 0 <= rainfall <= 2 && 0 <= resources <= 2 && 0 <= size <= 2
    ensures var s := Configure(mapType, rainfall, resources, size);
      rainfall - 1 <= s.rainfall <= rainfall + 1 && 0 <= s.resources <= 7 && 5 <= s.scale <= 9
  {
  }

  /** The side of the noise square of `gen_simple_noise`: 2^scale, capped at 256. */
  function Resolution(scale: nat): (res: nat)
    ensures res >= 1
    ensures scale < 8 ==> res == Pow(2, scale)
    ensures scale >= 8 ==> res == 256
  {
    PowAtLeastBase(2, scale + 1);
    if scale < 8 then Pow(2, scale) else 256
  }

  /** A larger scale never gives a smaller map. */
  lemma {:induction false} ResolutionMonotone(s: nat, t: nat)
    requires s <= t
    ensures Resolution(s) <= Resolution(t)
  {
    if t < 8 {
      PowGrows(s, t);
    } else if s < 8 {
      PowGrows(s, 8);
    }
  }

  lemma {:induction false} PowGrows(s: nat, t: nat)
    requires s <= t
    ensures Pow(2, s) <= Pow(2, t)
    decreases t - s
  {
    if s < t {
      PowGrows(s, t - 1);
    }
  }

  /** Stands for `gen_simple_noise`: the fBm noise of a foreign library,
      lerped between black and grey 233, on a square of `Resolution(scale)`. */
  method SimpleNoise(scale: nat) returns (s: array2<int>)
    ensures fresh(s) && s.Length0 == Resolution(scale) && s.Length1 == Resolution(scale)
    ensures forall i, j :: 0 <= i < s.Length0 && 0 <= j < s.Length1 ==> 0 <= s[i, j] <= 233
  {
    var res := Resolution(scale);
    s := new int[res, res];
    for i := 0 to res
      invariant forall i', j :: 0 <= i' < i && 0 <= j < res ==> 0 <= s[i', j] <= 233
    {
      for j := 0 to res
        invariant forall i', j' :: 0 <= i' < res && 0 <= j' < res && (i' < i || (i' == i && j' < j)) ==> 0 <= s[i', j'] <= 233
      {
        var v: int :| 0 <= v <= 233;
        s[i, j] := v;
      }
    }
  }

  /** The start search of `gen_playable_elements`: the playable islands,
      longest first, each given to `select_player_startpoint` until one
      succeeds; a probe that raises ends the search with None. */
  method StartOnLargest(m: GameMap, deserts: bool) returns (r: Option<bool>)
    requires m.Valid()
    modifies m
    ensures m.Valid() && m.layer0 == old(m.layer0)
    ensures m.width == old(m.width) && m.height == old(m.height)
    ensures m.islands == old(m.islands) && m.playableIslands == old(m.playableIslands)
    ensures r != Some(true) ==> m.layer1 == old(m.layer1) && m.startLoc == old(m.startLoc) && m.posAt == old(m.posAt)
    ensures r == Some(true) ==> exists i :: 0 <= i < |m.playableIslands| && StartSite.Candidate(m.playableIslands[i], m.startLoc)
    ensures r == Some(true) ==> StartSite.Assess(old(m.Snapshot()), m.impassable, deserts, m.startLoc) == StartSite.Fit
    ensures r == Some(true) ==> m.layer1 == StartSite.StartOverlay(old(m.layer1), m.startLoc)
    ensures r == Some(true) ==> m.posAt == StartSite.CentredView(m.startLoc)
    ensures (forall i, x, y :: 0 <= i < |m.playableIslands| && StartSite.Candidate(m.playableIslands[i], (x, y)) ==>
               StartSite.Assess(old(m.Snapshot()), m.impassable, deserts, (x, y)) == StartSite.Unfit) ==> r == Some(false)
  {
    var toTest := LongestFirst(m.playableIslands);
    for k := 0 to |toTest|
      invariant m.Valid() && m.layer0 == old(m.layer0) && m.layer1 == old(m.layer1) && m.Others() == old(m.Others())
    {
      assert toTest[k] in multiset(m.playableIslands);
      ghost var i :| 0 <= i < |m.playableIslands| && m.playableIslands[i] == toTest[k];
      r := StartSite.SelectPlayerStartpoint(m, toTest[k], deserts);
      if r != Some(false) {
        assert r == Some(true) ==> StartSite.Candidate(m.playableIslands[i], m.startLoc);
        return;
      }
    }
    return Some(false);
  }

  /** Islands on the grid stay there when only the layers change. */
  lemma KeepOnGrid(m: GameMap, b: Board)
    requires IslandsOnGrid(b, m.islands) && m.width == b.width && m.height == b.height
    ensures IslandsOnGrid(m.Snapshot(), m.islands)
  {
    OnGridSameSize(b, m.Snapshot(), m.islands);
  }

  /** The terrain stages of `gen_playable_elements`: beaches (not for
      deserts or highlands), snow, and the islands (one landmass for
      highlands). Only the ground layer, the overlay's palm trees and the
      island lists change. */
  method Terrain(m: GameMap, mapType: MapType)
    requires m.Valid() && m.width == m.height
    modifies m
    ensures m.Valid() && m.width == old(m.width) && m.height == old(m.height)
    ensures m.startLoc == old(m.startLoc) && m.posAt == old(m.posAt)
    ensures IslandsOnGrid(m.Snapshot(), m.islands)
  {
    if mapType != Deserts && mapType != Highlands {
      Automata.GenBeaches(m);
    }
    Automata.GenSnow(m);
    if mapType == Highlands {
      DefineLandmass(m);
    } else {
      DefineIslands(m);
    }
    PartitionOnGrid(m.Snapshot(), m.impassable, m.islands);
  }

  /** The feature stages of `gen_playable_elements`: rivers, forests (not for
      deserts) and ore veins. */
  method Features(m: GameMap, surface: array2<int>, mapType: MapType, rainfall: int, resources: int, attempts: nat)
    requires m.Valid() && m.width == m.height && rainfall >= -7
    requires surface.Length0 == m.width && surface.Length1 == m.height
    requires IslandsOnGrid(m.Snapshot(), m.islands)
    modifies m
    ensures m.Valid() && m.width == old(m.width) && m.height == old(m.height)
    ensures m.startLoc == old(m.startLoc) && m.posAt == old(m.posAt)
    ensures IslandsOnGrid(m.Snapshot(), m.islands)
  {
    ghost var walks := RiverGen.GenRivers(m, surface, mapType == Highlands, rainfall, attempts);
    KeepOnGrid(m, old(m.Snapshot()));
    if mapType != Deserts {
      ghost var b := m.Snapshot();
      Forests.GenForests(m, rainfall, attempts);
      KeepOnGrid(m, b);
    }
    Ores.GenOreVeins(m, resources);
  }

  /** `gen_playable_elements` on a square map: the terrain and feature
      stages, then the start search. `Some(true)`: the map is playable with
      the town hall at `startLoc` and the view centred on it; `Some(false)`:
      no island had a usable site; None: a probe raised. */
  method GenPlayableElements(m: GameMap, surface: array2<int>, mapType: MapType, rainfall: int, resources: int, attempts: nat)
    returns (r: Option<bool>)
    requires m.Valid() && m.width == m.height && rainfall >= -7
    requires surface.Length0 == m.width && surface.Length1 == m.height
    modifies m
    ensures m.Valid() && m.width == old(m.width) && m.height == old(m.height)
    ensures r != Some(true) ==> m.startLoc == old(m.startLoc) && m.posAt == old(m.posAt)
    ensures r == Some(true) ==> exists i :: 0 <= i < |m.playableIslands| && StartSite.Candidate(m.playableIslands[i], m.startLoc)
    ensures r == Some(true) ==> m.Snapshot().InGrid(m.startLoc) && m.layer1[m.startLoc.1][m.startLoc.0] == Mayors
    ensures r == Some(true) ==> m.posAt == StartSite.CentredView(m.startLoc)
    ensures IslandsOnGrid(m.Snapshot(), m.islands)
  {
    Terrain(m, mapType);
    Features(m, surface, mapType, rainfall, resources, attempts);
    ghost var before := m.Snapshot();
    var overlay := m.layer1;
    r := StartOnLargest(m, mapType == Deserts);
    KeepOnGrid(m, before);
    if r == Some(true) {
      StartSite.AssessFit(before, m.impassable, mapType == Deserts, m.startLoc);
      StartSite.StartOverlayAnchor(overlay, m.startLoc);
    }
  }

  /** How a generator run ends: a playable map, the attempt budget used up
      (the source would try forever), a start probe that raised, or a map
      type the constructor does not know, which generates nothing. */
  datatype Generation = Generated | OutOfAttempts | Raised | Skipped

  /** `GameMapGenerator(map, data)`: the settings, then the recipe of the map
      type (the island recipe for deserts too) repeated until
      `gen_playable_elements` succeeds: a fresh noise square, the terrain
      recipe, `gen_from_image` at the surface's own size, and the features.
      `dist` is the radial mask's distance (floating-point geometry). */
  method Generate(m: GameMap, mapType: MapType, rainfall: int, resources: int, size: nat,
                  dist: (int, int) -> real, attempts: nat) returns (r: Generation)
    requires HoldsWater(m.impassable) && rainfall >= -6
    modifies m
    ensures mapType == OtherType <==> r == Skipped
    ensures r == Skipped ==> unchanged(m)
    ensures r == Generated ==> m.Valid() && m.width == m.height == Resolution(5 + 2 * size)
    ensures r == Generated ==> exists i :: 0 <= i < |m.playableIslands| && StartSite.Candidate(m.playableIslands[i], m.startLoc)
    ensures r == Generated ==> m.Snapshot().InGrid(m.startLoc) && m.layer1[m.startLoc.1][m.startLoc.0] == Mayors
    ensures r == Generated ==> m.posAt == StartSite.CentredView(m.startLoc)
  {
    if mapType == OtherType {
      return Skipped;
    }
    var s := Configure(mapType, rainfall, resources, size);
    var n := 0;
    while n < attempts
      decreases attempts - n
    {
      var noise := SimpleNoise(s.scale);
      var surface := noise;
      if mapType == Highlands {
        HeightField.GenHighlands(noise, s.rainfall);
      } else if mapType == Continents {
        surface := HeightField.GenContinents(noise, s.rainfall);
      } else {
        surface := HeightField.GenIsland(noise, dist, s.rainfall);
      }
      FromImage.DimensionsOfOwnSize((surface.Length0, surface.Length1));
      FromImage.GenFromImage(m, surface, (surface.Length0, surface.Length1), surface, mapType == Deserts);
      var done := GenPlayableElements(m, surface, mapType, s.rainfall, s.resources, attempts);
      if done == Some(true) {
        return Generated;
      } else if done.None? {
        return Raised;
      }
      n := n + 1;
    }
    return OutOfAttempts;
  }
}
