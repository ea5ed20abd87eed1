/** The `Mayor` of mayor.py, the older ledger the game screen imports: the
    same lists and fields as the one in player.py, but expenses and income
    are booked straight into the money, industry earns nothing and employs
    nobody, and there is no penalty for bad times. */
module MayorEconomy {
  import opened Wrappers
  import opened Buildings
  import PlayerEconomy

  /** What `calculateIncome` books: every residential and commercial tax. */
  function Revenue(ledger: Ledger): (r: real)
    requires Filed(ledger)
    ensures r == TaxTotal(ledger[Residential] + ledger[Commercial]) as real
  {
    TaxTotalAppend(ledger[Residential], ledger[Commercial]);
    (TaxTotal(ledger[Residential]) + TaxTotal(ledger[Commercial])) as real
  }

  /** With no industry, someone living in the city and every shop staffed,
      player.py's `calc_income` books exactly this revenue; with nobody
      living there it books only the residential taxes. */
  lemma RevenueMatchesPlayer(ledger: Ledger, population: int)
    requires Filed(ledger) && ledger[Industrial] == []
    requires OptTotal(Jobs(ledger[Commercial])).Some?
    ensures population > 0 ==>
              PlayerEconomy.BusinessIncome(ledger[Commercial] + ledger[Industrial], population) ==
                Some(TaxTotal(ledger[Commercial]) as real)
    ensures population <= 0 ==>
              PlayerEconomy.BusinessIncome(ledger[Commercial] + ledger[Industrial], population) == Some(0.0)
  {
    assert ledger[Commercial] + ledger[Industrial] == ledger[Commercial];
    if ledger[Commercial] == [] {
      assert TaxTotal(ledger[Commercial]) == 0;
    }
  }

  class Mayor {
    var money: real
    var fireSafety: int
    var policeSafety: int
    var population: int
    var jobs: int
    var buildings: Ledger
    var roads: int

    ghost predicate Valid()
      reads this
    {
      Filed(buildings)
    }

    /** `Mayor(difficulty)`: 10000 for "easy", 2500 for "hard", otherwise
        5000; safeties 1, nobody living or working, no buildings, no roads. */
    constructor (difficulty: string)
      ensures Valid() && buildings == EmptyLedger
      ensures money == if difficulty == "easy" then 10000.0 else if difficulty == "hard" then 2500.0 else 5000.0
      ensures fireSafety == 1 && policeSafety == 1 && population == 0 && jobs == 0 && roads == 0
    {
      money := 5000.0;
      if difficulty == "easy" {
        money := 10000.0;
      } else if difficulty == "hard" {
        money := 2500.0;
      }
      fireSafety, policeSafety := 1, 1;
      population, jobs := 0, 0;
      buildings := EmptyLedger;
      roads := 0;
    }

    /** `addBuilding(building)`: appended to the list of its type, with the
        same `None` and 'd' cases as player.py. Nothing else changes. */
    method AddBuilding(b: Building) returns (r: Filing)
      requires Valid()
      modifies this
      ensures Valid() && (buildings, r) == File(old(buildings), b)
      ensures money == old(money) && population == old(population) && jobs == old(jobs)
      ensures fireSafety == old(fireSafety) && policeSafety == old(policeSafety) && roads == old(roads)
    {
      if b.kind.None? {
        return Ignored;
      }
      if b.kind.value !in buildings {
        return NoSuchList;
      }
      buildings := buildings[b.kind.value := buildings[b.kind.value] + [b]];
      return Appended;
    }

    /** `calculateExpenses`: road and service upkeep taken from the money. */
    method CalculateExpenses()
      requires Valid()
      modifies this
      ensures Valid() && buildings == old(buildings)
      ensures money == old(money) - Upkeep(roads, buildings[Service])
      ensures roads == old(roads) && population == old(population) && jobs == old(jobs)
      ensures fireSafety == old(fireSafety) && policeSafety == old(policeSafety)
    {
      var expense := 0.0;
      expense := expense + 0.01 * roads as real;
      var upkeep := SumTax(buildings[Service]);
      expense := expense + upkeep as real;
      money := money - expense;
    }

    /** `calculateIncome`: residential and commercial taxes added to the
        money; industry is not paid. */
    method CalculateIncome()
      requires Valid()
      modifies this
      ensures Valid() && buildings == old(buildings)
      ensures money == old(money) + Revenue(buildings)
      ensures roads == old(roads) && population == old(population) && jobs == old(jobs)
      ensures fireSafety == old(fireSafety) && policeSafety == old(policeSafety)
    {
      var increase := 0.0;
      var residential := SumTax(buildings[Residential]);
      increase := increase + residential as real;
      var commercial := SumTax(buildings[Commercial]);
      increase := increase + commercial as real;
      money := money + increase;
    }

    /** `calculate(calculate_services)`: the money is settled first, then
        residents and jobs (commerce and services only) are recounted and,
        when asked, the safeties recomputed. A missing attribute stops the
        count after the money has already moved; the safeties are then
        untouched and the counts are left as the loop had reached. */
    method Calculate(calculateServices: bool) returns (r: Outcome)
      requires Valid()
      modifies this
      ensures Valid() && buildings == old(buildings) && roads == old(roads)
      ensures money == old(money) - Upkeep(roads, buildings[Service]) + Revenue(buildings)
      ensures r == Done <==>
                OptTotal(Populations(buildings[Residential])).Some? &&
                OptTotal(Jobs(buildings[Commercial]) + Jobs(buildings[Service])).Some?
      ensures r == Done ==>
                population == OptTotal(Populations(buildings[Residential])).value &&
                jobs == OptTotal(Jobs(buildings[Commercial]) + Jobs(buildings[Service])).value
      ensures r == Done && calculateServices ==>
                fireSafety == 40 + PresentTotal(FireSafeties(buildings[Service])) &&
                policeSafety == 40 + PresentTotal(PoliceSafeties(buildings[Service]))
      ensures !(r == Done && calculateServices) ==> fireSafety == old(fireSafety) && policeSafety == old(policeSafety)
    {
      CalculateExpenses();
      CalculateIncome();
      var residents := SumPresent(Populations(buildings[Residential]));
      var workers := SumPresent(Jobs(buildings[Commercial]) + Jobs(buildings[Service]));
      if residents.None? || workers.None? {
        var partialPopulation, partialJobs :| true;
        population, jobs := partialPopulation, partialJobs;
        return MissingAttribute;
      }
      population, jobs := residents.value, workers.value;
      if calculateServices {
        var fire, police := ServiceSafety(buildings[Service]);
        fireSafety, policeSafety := fire, police;
      }
      return Done;
    }
  }
}
