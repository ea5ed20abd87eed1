/** The buildings of buildings.py: one record per placed building, the
    category it is filed under, the field values each constructor derives,
    and where it may be placed. An attribute a class never sets (`jobs` on a
    mine, `police_safety` on a fire station) is an absent `Option`. */
module Buildings {
  import opened Tiles
  import opened Wrappers
  import Ores

  /** The `type` strings: 'r' residential, 'c' commercial, 'i' industry,
      'priv' civic service, and the base class default 'd'. */
  datatype Category = Residential | Commercial | Industrial | Service | Default

  /** Where `can_place` accepts a building: anywhere, or only on coal or oil ground. */
  datatype Placement = Anywhere | OnCoal | OnOil

  datatype Building = Building(
    image: string,
    price: int,
    tax: int,
    kind: Option<Category>,
    population: Option<int>,
    requiredJobs: Option<int>,
    jobs: Option<int>,
    policeSafety: Option<int>,
    fireSafety: Option<int>,
    placement: Placement)

  /** `can_place(tile_at)` for a cell whose ground layer is `ground`. */
  function CanPlace(b: Building, ground: Tile): (ok: bool)
    ensures b.placement == Anywhere ==> ok
    ensures b.placement == OnCoal ==> (ok <==> ground in Coal)
    ensures b.placement == OnOil ==> (ok <==> ground in Oil)
  {
    match b.placement
    case Anywhere => true
    case OnCoal => ground in {GroundCoal, GrassCoal, SandCoal}
    case OnOil => ground in {GroundOil, GrassOil, SandOil, WaterOil}
  }

  /** `Building(image, price, tax, type)`: none of the subclass attributes. */
  function Plain(image: string, price: int, tax: int, kind: Option<Category>): (b: Building)
    ensures b.image == image && b.price == price && b.tax == tax && b.kind == kind
    ensures b.population.None? && b.requiredJobs.None? && b.jobs.None?
    ensures b.policeSafety.None? && b.fireSafety.None? && b.placement == Anywhere
  {
    Building(image, price, tax, kind, None, None, None, None, None, Anywhere)
  }

  /** Python 2 `math.ceil(population / 2)`: the integer quotient is floored
      before `ceil` sees it. */
  function HalfDown(n: int): int {
    n / 2
  }

  /** `House(id, price, population)`. A house of more than three residents
      needs half as many jobs (rounded down), a smaller one as many as it has
      residents; either way never more than its residents. */
  function House(id: string, price: int, population: int): (b: Building)
    ensures b.image == id && b.price == price && b.kind == Some(Residential)
    ensures b.tax == 3 * population && b.population == Some(population)
    ensures b.requiredJobs.Some?
    ensures population > 3 ==> 2 * b.requiredJobs.value <= population < 2 * b.requiredJobs.value + 2
    ensures population <= 3 ==> b.requiredJobs.value == population
    ensures population >= 0 ==> 0 <= b.requiredJobs.value <= population
    ensures b.jobs.None? && b.policeSafety.None? && b.fireSafety.None? && b.placement == Anywhere
  {
    Building(id, price, 3 * population, Some(Residential), Some(population),
             Some(if population > 3 then HalfDown(population) else population), None, None, None, Anywhere)
  }

  /** `BigHouse()` for the drawn population `randint(4, 6)`: 12 to 18 tax, 2 or 3 jobs needed. */
  function BigHouse(draw: int): (b: Building)
    requires 4 <= draw <= 6
    ensures b == House("BIGHOUSE", 600, draw)
    ensures 12 <= b.tax <= 18 && b.requiredJobs.Some? && 2 <= b.requiredJobs.value <= 3
  {
    House("BIGHOUSE", 600, draw)
  }

  /** `Apartments()` for the drawn population `randint(12, 20)`: 36 to 60 tax, 6 to 10 jobs needed. */
  function Apartments(draw: int): (b: Building)
    requires 12 <= draw <= 20
    ensures b == House("APARTMENTS", 1200, draw)
    ensures 36 <= b.tax <= 60 && b.requiredJobs.Some? && 6 <= b.requiredJobs.value <= 10
  {
    House("APARTMENTS", 1200, draw)
  }

  /** `Store(id, price, jobs)`: a commercial building taxed 3 per job. */
  function Store(id: string, price: int, jobs: int): (b: Building)
    ensures b.image == id && b.price == price && b.kind == Some(Commercial)
    ensures b.tax == 3 * jobs && b.jobs == Some(jobs)
    ensures b.population.None? && b.policeSafety.None? && b.fireSafety.None? && b.placement == Anywhere
  {
    Building(id, price, 3 * jobs, Some(Commercial), None, None, Some(jobs), None, None, Anywhere)
  }

  /** `PoliceStation(price, jobs)`: a civic service costing 8 per job, adding 60 police safety. */
  function PoliceStation(price: int, jobs: int): (b: Building)
    ensures b.image == "POLICE" && b.price == price && b.kind == Some(Service)
    ensures b.tax == 8 * jobs && b.jobs == Some(jobs)
    ensures b.policeSafety == Some(60) && b.fireSafety.None? && b.population.None?
  {
    Building("POLICE", price, 8 * jobs, Some(Service), None, None, Some(jobs), Some(60), None, Anywhere)
  }

  /** `FireStation(price, jobs)`: a civic service costing 8 per job, adding 60 fire safety. */
  function FireStation(price: int, jobs: int): (b: Building)
    ensures b.image == "FIRE" && b.price == price && b.kind == Some(Service)
    ensures b.tax == 8 * jobs && b.jobs == Some(jobs)
    ensures b.fireSafety == Some(60) && b.policeSafety.None? && b.population.None?
  {
    Building("FIRE", price, 8 * jobs, Some(Service), None, None, Some(jobs), None, Some(60), Anywhere)
  }

  /** `CoalMine()`: industry placed only on coal; it has no `jobs`. */
  function CoalMine(): (b: Building)
    ensures b.kind == Some(Industrial) && b.tax == 10 && b.price == 200 && b.jobs.None?
    ensures forall t :: CanPlace(b, t) <==> t in Coal
  {
    Building("MINE", 200, 10, Some(Industrial), None, None, None, None, None, OnCoal)
  }

  /** `OilRig()`: industry placed only on oil; it has no `jobs`. */
  function OilRig(): (b: Building)
    ensures b.kind == Some(Industrial) && b.tax == 10 && b.price == 200 && b.jobs.None?
    ensures forall t :: CanPlace(b, t) <==> t in Oil
  {
    Building("MINE", 200, 10, Some(Industrial), None, None, None, None, None, OnOil)
  }

  /** Every ground tile the vein generators write is one the matching
      building accepts, and only mineral tiles are accepted. */
  lemma VeinsArePlaceable(t: Tile)
    ensures Ores.CoalOf(t).Some? ==> CanPlace(CoalMine(), Ores.CoalOf(t).value)
    ensures Ores.OilOf(t).Some? ==> CanPlace(OilRig(), Ores.OilOf(t).value)
    ensures CanPlace(CoalMine(), t) ==> Ores.CoalOf(t).None? && Ores.OilOf(t).None?
    ensures CanPlace(OilRig(), t) ==> Ores.CoalOf(t).None? && Ores.OilOf(t).None?
  {
    if CanPlace(CoalMine(), t) || CanPlace(OilRig(), t) {
      Ores.MineralsAreFinal(t);
    }
  }

  // ---------------------------------------------------------------------------
  // Totals over a list of buildings, as the accumulation loops compute them

  /** The sum of `tax` over `bs`. */
  function TaxTotal(bs: seq<Building>): int {
    if bs == [] then 0 else TaxTotal(bs[..|bs| - 1]) + bs[|bs| - 1].tax
  }

  /** The sum of an optional attribute; None as soon as one building lacks it
      (the loop's AttributeError). */
  function OptTotal(vs: seq<Option<int>>): (r: Option<int>)
    ensures r.Some? <==> forall i :: 0 <= i < |vs| ==> vs[i].Some?
  {
    if vs == [] then Some(0)
    else
      var init := OptTotal(vs[..|vs| - 1]);
      if init.Some? && vs[|vs| - 1].Some? then Some(init.value + vs[|vs| - 1].value) else None
  }

  /** The sum of an attribute that is skipped where absent (the `hasattr` test). */
  function PresentTotal(vs: seq<Option<int>>): int {
    if vs == [] then 0
    else PresentTotal(vs[..|vs| - 1]) + (if vs[|vs| - 1].Some? then vs[|vs| - 1].value else 0)
  }

  function Populations(bs: seq<Building>): (vs: seq<Option<int>>)
    ensures |vs| == |bs| && forall i :: 0 <= i < |bs| ==> vs[i] == bs[i].population
  {
    seq(|bs|, i requires 0 <= i < |bs| => bs[i].population)
  }

  function Jobs(bs: seq<Building>): (vs: seq<Option<int>>)
    ensures |vs| == |bs| && forall i :: 0 <= i < |bs| ==> vs[i] == bs[i].jobs
  {
    seq(|bs|, i requires 0 <= i < |bs| => bs[i].jobs)
  }

  function FireSafeties(bs: seq<Building>): (vs: seq<Option<int>>)
    ensures |vs| == |bs| && forall i :: 0 <= i < |bs| ==> vs[i] == bs[i].fireSafety
  {
    seq(|bs|, i requires 0 <= i < |bs| => bs[i].fireSafety)
  }

  function PoliceSafeties(bs: seq<Building>): (vs: seq<Option<int>>)
    ensures |vs| == |bs| && forall i :: 0 <= i < |bs| ==> vs[i] == bs[i].policeSafety
  {
    seq(|bs|, i requires 0 <= i < |bs| => bs[i].policeSafety)
  }

  /** Taxes add up over a concatenation. */
  lemma {:induction false} TaxTotalAppend(a: seq<Building>, b: seq<Building>)
    ensures TaxTotal(a + b) == TaxTotal(a) + TaxTotal(b)
  {
    if b != [] {
      var init := b[..|b| - 1];
      assert (a + b)[..|a + b| - 1] == a + init;
      TaxTotalAppend(a, init);
    } else {
      assert a + b == a;
    }
  }

  /** Buildings that cost nothing or more cost nothing or more together. */
  lemma {:induction false} TaxTotalNonNegative(bs: seq<Building>)
    ensures (forall i :: 0 <= i < |bs| ==> bs[i].tax >= 0) ==> TaxTotal(bs) >= 0
  {
    if bs != [] {
      TaxTotalNonNegative(bs[..|bs| - 1]);
    }
  }

  /** The tax total of a single building. */
  lemma TaxTotalOne(b: Building)
    ensures TaxTotal([b]) == b.tax
  {
    assert [b][..0] == [];
  }

  /** Taking one building out of a list takes its tax out of the total. */
  lemma TaxTotalRemove(front: seq<Building>, x: Building, back: seq<Building>)
    ensures TaxTotal(front + [x] + back) == TaxTotal(front + back) + x.tax
  {
    TaxTotalAppend(front + [x], back);
    TaxTotalAppend(front, [x]);
    TaxTotalOne(x);
    TaxTotalAppend(front, back);
  }

  /** Reordering a list (as `random.shuffle` does) keeps its tax total. */
  lemma {:induction false} TaxTotalPermutation(a: seq<Building>, b: seq<Building>)
    requires multiset(a) == multiset(b)
    ensures TaxTotal(a) == TaxTotal(b)
    decreases |a|
  {
    if a == [] {
      assert |b| == |multiset(b)| == 0;
    } else {
      var last := a[|a| - 1];
      var init := a[..|a| - 1];
      assert a == init + [last];
      var i := FindIn(b, last, multiset(a));
      var front, back := b[..i], b[i + 1..];
      assert b == front + [last] + back;
      SameWithout(a, b, init, front, back, last);
      TaxTotalPermutation(init, front + back);
      TaxTotalRemove(front, last, back);
    }
  }

  /** A position of `x` in `s`, given that `x` is in a multiset equal to `s`'s. */
  lemma FindIn<T>(s: seq<T>, x: T, m: multiset<T>) returns (i: nat)
    requires multiset(s) == m && x in m
    ensures i < |s| && s[i] == x
  {
    assert x in s;
    i :| 0 <= i < |s| && s[i] == x;
  }

  /** Taking the same element out of two permutations of each other leaves
      permutations of each other. */
  lemma SameWithout<T>(a: seq<T>, b: seq<T>, init: seq<T>, front: seq<T>, back: seq<T>, last: T)
    requires a == init + [last] && b == front + [last] + back && multiset(a) == multiset(b)
    ensures multiset(front + back) == multiset(init)
  {
    assert multiset(front + back) == multiset(front) + multiset(back);
    assert multiset(b) == multiset(front) + multiset{last} + multiset(back);
    assert multiset(a) == multiset(init) + multiset{last};
    assert multiset(front + back) == multiset(b) - multiset{last};
    assert multiset(init) == multiset(a) - multiset{last};
  }

  /** `for b in bs: total += b.tax`. */
  method SumTax(bs: seq<Building>) returns (total: int)
    ensures total == TaxTotal(bs)
  {
    total := 0;
    for i := 0 to |bs|
      invariant total == TaxTotal(bs[..i])
    {
      assert bs[..i + 1][..i] == bs[..i];
      total := total + bs[i].tax;
    }
    assert bs[..|bs|] == bs;
  }

  /** `for b in bs: total += b.<attribute>`, failing on the first building without it. */
  method SumPresent(vs: seq<Option<int>>) returns (total: Option<int>)
    ensures total == OptTotal(vs)
  {
    var acc := 0;
    for i := 0 to |vs|
      invariant OptTotal(vs[..i]) == Some(acc)
    {
      assert vs[..i + 1][..i] == vs[..i];
      if vs[i].None? {
        OptTotalFailsOn(vs, i);
        return None;
      }
      acc := acc + vs[i].value;
    }
    assert vs[..|vs|] == vs;
    return Some(acc);
  }

  /** A missing attribute anywhere makes the whole total fail. */
  lemma OptTotalFailsOn(vs: seq<Option<int>>, i: nat)
    requires i < |vs| && vs[i].None?
    ensures OptTotal(vs) == None
  {
  }

  /** `for b in bs: if hasattr(b, attribute): total += b.<attribute>`. */
  method SumIfPresent(vs: seq<Option<int>>) returns (total: int)
    ensures total == PresentTotal(vs)
  {
    total := 0;
    for i := 0 to |vs|
      invariant total == PresentTotal(vs[..i])
    {
      assert vs[..i + 1][..i] == vs[..i];
      if vs[i].Some? {
        total := total + vs[i].value;
      }
    }
    assert vs[..|vs|] == vs;
  }

  /** The building lists of a mayor, one per category the dictionary has. */
  type Ledger = map<Category, seq<Building>>

  /** The dictionary keys 'r', 'c', 'i' and 'priv'; there is no 'd' list. */
  predicate Filed(ledger: Ledger) {
    ledger.Keys == {Residential, Commercial, Industrial, Service}
  }

  const EmptyLedger: Ledger := map[Residential := [], Commercial := [], Industrial := [], Service := []]

  /** What `add_building` does with a building: nothing for a `None` type, a
      KeyError for a type with no list, otherwise an append. */
  datatype Filing = Ignored | NoSuchList | Appended

  /** The ledger after `add_building(b)`, and how it went. */
  function File(ledger: Ledger, b: Building): (r: (Ledger, Filing))
    requires Filed(ledger)
    ensures Filed(r.0)
    ensures r.1 == Ignored <==> b.kind.None?
    ensures r.1 == NoSuchList <==> b.kind == Some(Default)
    ensures r.1 != Appended ==> r.0 == ledger
    ensures r.1 == Appended ==> b.kind.value in ledger && r.0 == ledger[b.kind.value := ledger[b.kind.value] + [b]]
    ensures forall k :: k in ledger && Some(k) != b.kind ==> r.0[k] == ledger[k]
  {
    assert forall k :: k in ledger <==> k != Default;
    if b.kind.None? then (ledger, Ignored)
    else if b.kind.value !in ledger then (ledger, NoSuchList)
    else (ledger[b.kind.value := ledger[b.kind.value] + [b]], Appended)
  }

  /** `0.01 * roads` plus the upkeep (`tax`) of every civic service. */
  function Upkeep(roads: int, services: seq<Building>): (u: real)
    ensures services == [] ==> u == 0.01 * roads as real
    ensures roads >= 0 && (forall i :: 0 <= i < |services| ==> services[i].tax >= 0) ==> u >= 0.0
  {
    TaxTotalNonNegative(services);
    0.01 * roads as real + TaxTotal(services) as real
  }

  /** What `calc` (player.py) or `calculate` (mayor.py) ended with: done,
      or the AttributeError of a building without `population` in the
      residential list or without `jobs` in a list whose jobs are counted. */
  datatype Outcome = Done | MissingAttribute

  /** The safeties `calc(True)` and `calculate(True)` set: 40 each, plus
      every service's contribution to that safety. */
  method ServiceSafety(services: seq<Building>) returns (fire: int, police: int)
    ensures fire == 40 + PresentTotal(FireSafeties(services))
    ensures police == 40 + PresentTotal(PoliceSafeties(services))
  {
    var f := SumIfPresent(FireSafeties(services));
    var p := SumIfPresent(PoliceSafeties(services));
    fire, police := 40 + f, 40 + p;
  }
}
