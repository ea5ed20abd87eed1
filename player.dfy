/** The `Mayor` of player.py, the ledger the game screen drives: the
    difficulty's starting money, filing a purchased building, the periodic
    expenses and income, the "positive times" test, and `calc`, which
    recounts residents and jobs, settles the money and optionally the
    safety services. Money is a real; float rounding is not modelled. */
module PlayerEconomy {
  import opened Wrappers
  import opened Buildings

  /** The industry and commerce `calc_income` pays out: everything when
      someone lives in the city and there is any business at all, nothing
      otherwise; None when a business without `jobs` is reached (the
      AttributeError of `bus.jobs`). */
  function BusinessIncome(business: seq<Building>, population: int): (r: Option<real>)
    ensures population <= 0 || business == [] ==> r == Some(0.0)
    ensures population > 0 && business != [] ==>
              (r.Some? <==> OptTotal(Jobs(business)).Some?) &&
              (r.Some? ==> r.value == TaxTotal(business) as real)
  {
    if population > 0 && business != [] then
      if OptTotal(Jobs(business)).Some? then Some(TaxTotal(business) as real) else None
    else Some(0.0)
  }

  /** `positive_times`: an empty city, or one with a job for every second
      resident (Python 2 floor division) whose fire and police safety each
      reach the population. */
  function PositiveTimes(population: int, jobs: int, fire: int, police: int): (good: bool)
    ensures good <==> population <= 0 || (2 * jobs >= population - 1 && fire >= population && police >= population)
  {
    population <= 0 || (population / 2 <= jobs && fire >= population && police >= population)
  }

  /** More jobs or more safety never turn good times bad. */
  lemma PositiveTimesMonotone(population: int, jobs: int, fire: int, police: int, jobs': int, fire': int, police': int)
    requires PositiveTimes(population, jobs, fire, police)
    requires jobs <= jobs' && fire <= fire' && police <= police'
    ensures PositiveTimes(population, jobs', fire', police')
  {
  }

  /** Good times need at least one job for every two residents, rounded down. */
  lemma PositiveTimesNeedJobs(population: int, jobs: int, fire: int, police: int)
    requires population > 0 && PositiveTimes(population, jobs, fire, police)
    ensures 2 * jobs >= population - 1
  {
  }

  /** The money after one settlement of `income` against `expenses`. */
  function Settle(money: real, expenses: real, income: real, positive: bool): (m: real)
    ensures expenses < income ==> money < m <= money + (income - expenses)
    ensures expenses >= income ==> m == money - (expenses - income)
  {
    if expenses < income then
      if positive then money + (income - expenses) else money + (income - expenses) * 0.6
    else money - expenses + income
  }

  /** A profit is added whole in good times and at three fifths otherwise,
      so the money grows but by no more than the profit; a loss is always
      taken whole. */
  lemma SettleOutcome(money: real, expenses: real, income: real, positive: bool)
    ensures var m := Settle(money, expenses, income, positive);
      (expenses < income ==> money < m <= money + (income - expenses)) &&
      (expenses < income && positive ==> m == money + (income - expenses)) &&
      (expenses < income && !positive ==> m == money + 0.6 * (income - expenses)) &&
      (expenses >= income ==> m == money - expenses + income && m <= money)
  {
  }

  /** In good times the whole balance is booked, as mayor.py always does. */
  lemma SettleGoodTimes(money: real, expenses: real, income: real)
    ensures Settle(money, expenses, income, true) == money - expenses + income
  {
  }

  /** Bad times never pay more than good times. */
  lemma SettleRewardsGoodTimes(money: real, expenses: real, income: real)
    ensures Settle(money, expenses, income, false) <= Settle(money, expenses, income, true)
  {
  }

  /** Every coal mine and oil rig lacks `jobs`: once one is filed as
      industry, the job count of `calc` fails. */
  lemma IndustryBreaksJobCount(c: seq<Building>, i: seq<Building>, s: seq<Building>, k: nat)
    requires k < |i| && (i[k] == CoalMine() || i[k] == OilRig())
    ensures OptTotal(Jobs(c) + Jobs(i) + Jobs(s)) == None
  {
    assert (Jobs(c) + Jobs(i) + Jobs(s))[|c| + k] == i[k].jobs;
  }

  class Mayor {
    var money: real
    var fireSafety: int
    var policeSafety: int
    var population: int
    var jobs: int
    var buildings: Ledger
    var roads: int

    ghost predicate Valid()
      reads this
    {
      Filed(buildings)
    }

    /** `Mayor(difficulty)`: 15000 for "low", 2000 for "high", otherwise
        6000; safeties 1, nobody living or working, no buildings, no roads. */
    constructor (difficulty: string)
      ensures Valid() && buildings == EmptyLedger
      ensures money == if difficulty == "low" then 15000.0 else if difficulty == "high" then 2000.0 else 6000.0
      ensures fireSafety == 1 && policeSafety == 1 && population == 0 && jobs == 0 && roads == 0
    {
      money := 6000.0;
      if difficulty == "low" {
        money := 15000.0;
      } else if difficulty == "high" {
        money := 2000.0;
      }
      fireSafety, policeSafety := 1, 1;
      population, jobs := 0, 0;
      buildings := EmptyLedger;
      roads := 0;
    }

    /** `add_building(building)`: appended to the list of its type; a `None`
        type is ignored and the 'd' type has no list (KeyError). Nothing else
        changes. */
    method AddBuilding(b: Building) returns (r: Filing)
      requires Valid()
      modifies this
      ensures Valid() && (buildings, r) == File(old(buildings), b)
      ensures money == old(money) && population == old(population) && jobs == old(jobs)
      ensures fireSafety == old(fireSafety) && policeSafety == old(policeSafety) && roads == old(roads)
    {
      if b.kind.None? {
        return Ignored;
      }
      if b.kind.value !in buildings {
        return NoSuchList;
      }
      buildings := buildings[b.kind.value := buildings[b.kind.value] + [b]];
      return Appended;
    }

    /** `calc_expenses`: road upkeep plus the civic services' upkeep. */
    method CalcExpenses() returns (decrease: real)
      requires Valid()
      ensures decrease == Upkeep(roads, buildings[Service])
    {
      decrease := 0.0;
      decrease := decrease + 0.01 * roads as real;
      var upkeep := SumTax(buildings[Service]);
      decrease := decrease + upkeep as real;
    }

    /** `calc_income`: every residential tax, then the commercial and
        industrial buildings in shuffled order, each paid once, when there is
        a population to work in them. */
    method CalcIncome() returns (increase: Option<real>)
      requires Valid()
      ensures increase.Some? <==> BusinessIncome(buildings[Commercial] + buildings[Industrial], population).Some?
      ensures increase.Some? ==>
                increase.value == TaxTotal(buildings[Residential]) as real +
                  BusinessIncome(buildings[Commercial] + buildings[Industrial], population).value
    {
      var residential := SumTax(buildings[Residential]);
      var total := residential as real;
      var jobCounter := 0;
      var original := buildings[Commercial] + buildings[Industrial];
      var business := original;
      var counter := 0;
      while jobCounter < population && counter < |business|
        invariant multiset(business) == multiset(original) && |business| == |original|
        invariant counter == 0 ==> jobCounter == 0 && total == residential as real
        invariant counter != 0 ==>
                    counter == |business| > 0 && population > 0 &&
                    OptTotal(Jobs(business)).Some? && total == residential as real + TaxTotal(business) as real
        decreases |business| - counter
      {
        var shuffled :| multiset(shuffled) == multiset(business);
        assert |shuffled| == |business| by {
          assert |multiset(shuffled)| == |multiset(business)|;
        }
        business := shuffled;
        var paid, workers, ok := PayBusinesses(business, total, jobCounter);
        if !ok {
          JobsPermutation(business, original);
          return None;
        }
        total, jobCounter := paid, workers;
        counter := |business|;
      }
      if counter != 0 {
        TaxTotalPermutation(business, original);
        JobsPermutation(business, original);
      }
      return Some(total);
    }

    /** The money `calc` leaves, from money `m0` and safeties `fire0` and
        `police0` before it: settled on the expenses and income of the
        ledger and counts as they now stand. */
    ghost function Settled(m0: real, fire0: int, police0: int): real
      requires Valid() && BusinessIncome(buildings[Commercial] + buildings[Industrial], population).Some?
      reads this
    {
      Settle(m0, Upkeep(roads, buildings[Service]),
             TaxTotal(buildings[Residential]) as real +
               BusinessIncome(buildings[Commercial] + buildings[Industrial], population).value,
             PositiveTimes(population, jobs, fire0, police0))
    }

    /** `calc(calc_services)`: recount residents and jobs (commerce,
        industry and services), settle the money on this round's expenses
        and income, judged against the safeties from before, then, when
        asked, set each safety to 40 plus its services' contributions. On a
        missing attribute the money, safeties and lists are untouched and
        the two counts are left as the loop had reached. */
    method Calc(calcServices: bool) returns (r: Outcome)
      requires Valid()
      modifies this
      ensures Valid() && buildings == old(buildings) && roads == old(roads)
      ensures r == Done <==>
                OptTotal(Populations(buildings[Residential])).Some? &&
                OptTotal(Jobs(buildings[Commercial]) + Jobs(buildings[Industrial]) + Jobs(buildings[Service])).Some?
      ensures r == MissingAttribute ==>
                money == old(money) && fireSafety == old(fireSafety) && policeSafety == old(policeSafety)
      ensures r == Done ==>
                population == OptTotal(Populations(buildings[Residential])).value &&
                jobs == OptTotal(Jobs(buildings[Commercial]) + Jobs(buildings[Industrial]) + Jobs(buildings[Service])).value &&
                BusinessIncome(buildings[Commercial] + buildings[Industrial], population).Some? &&
                money == Settled(old(money), old(fireSafety), old(policeSafety))
      ensures r == Done && calcServices ==>
                fireSafety == 40 + PresentTotal(FireSafeties(buildings[Service])) &&
                policeSafety == 40 + PresentTotal(PoliceSafeties(buildings[Service]))
      ensures r == Done && !calcServices ==> fireSafety == old(fireSafety) && policeSafety == old(policeSafety)
    {
      var residents := SumPresent(Populations(buildings[Residential]));
      var workers := SumPresent(Jobs(buildings[Commercial]) + Jobs(buildings[Industrial]) + Jobs(buildings[Service]));
      if residents.None? || workers.None? {
        var partialPopulation, partialJobs :| true;
        population, jobs := partialPopulation, partialJobs;
        return MissingAttribute;
      }
      BusinessJobsPresent(buildings[Commercial], buildings[Industrial], buildings[Service]);
      Commit(residents.value, workers.value, calcServices);
      return Done;
    }

    /** The rest of `calc` once both counts are in: they are recorded, the
        money is settled on this round's expenses and income, and the
        safeties are recomputed when asked. */
    method Commit(residents: int, workers: int, calcServices: bool)
      requires Valid() && BusinessIncome(buildings[Commercial] + buildings[Industrial], residents).Some?
      modifies this
      ensures buildings == old(buildings) && roads == old(roads)
      ensures population == residents && jobs == workers
      ensures BusinessIncome(buildings[Commercial] + buildings[Industrial], population).Some?
      ensures money == Settled(old(money), old(fireSafety), old(policeSafety))
      ensures calcServices ==>
                fireSafety == 40 + PresentTotal(FireSafeties(buildings[Service])) &&
                policeSafety == 40 + PresentTotal(PoliceSafeties(buildings[Service]))
      ensures !calcServices ==> fireSafety == old(fireSafety) && policeSafety == old(policeSafety)
    {
      population, jobs := residents, workers;
      var decrease := CalcExpenses();
      var increase := CalcIncome();
      var positive := PositiveTimes(population, jobs, fireSafety, policeSafety);
      var settled := Settle(money, decrease, increase.value, positive);
      var fire, police := fireSafety, policeSafety;
      if calcServices {
        fire, police := ServiceSafety(buildings[Service]);
      }
      money, fireSafety, policeSafety := settled, fire, police;
    }
  }

  /** One pass of `calc_income` over the shuffled businesses: each tax is
      paid and each `jobs` counted, in order, until a business without
      `jobs` raises. */
  method PayBusinesses(business: seq<Building>, total0: real, jobs0: int) returns (total: real, jobCounter: int, ok: bool)
    ensures ok <==> OptTotal(Jobs(business)).Some?
    ensures ok ==> total == total0 + TaxTotal(business) as real
  {
    total, jobCounter := total0, jobs0;
    for k := 0 to |business|
      invariant total == total0 + TaxTotal(business[..k]) as real
      invariant OptTotal(Jobs(business[..k])).Some?
    {
      assert business[..k + 1][..k] == business[..k];
      assert Jobs(business[..k + 1]) == Jobs(business[..k]) + [business[k].jobs];
      total := total + business[k].tax as real;
      if business[k].jobs.None? {
        OptTotalFailsOn(Jobs(business), k);
        return total, jobCounter, false;
      }
      jobCounter := jobCounter + business[k].jobs.value;
    }
    assert business[..|business|] == business;
    return total, jobCounter, true;
  }

  /** A position of `v` in `s`. */
  function IndexIn(s: seq<Building>, v: Building): (i: nat)
    requires v in s
    ensures i < |s| && s[i] == v
  {
    if s[0] == v then 0 else 1 + IndexIn(s[1..], v)
  }

  /** Reordering a list keeps whether every building in it has `jobs`. */
  lemma JobsPermutation(a: seq<Building>, b: seq<Building>)
    requires multiset(a) == multiset(b)
    ensures OptTotal(Jobs(a)).Some? <==> OptTotal(Jobs(b)).Some?
  {
    forall i | 0 <= i < |a|
      ensures a[i] in multiset(b)
    {
      assert a[i] in multiset(a);
    }
    forall i | 0 <= i < |b|
      ensures b[i] in multiset(a)
    {
      assert b[i] in multiset(b);
    }
    if OptTotal(Jobs(a)).None? {
      var i :| 0 <= i < |a| && Jobs(a)[i].None?;
      OptTotalFailsOn(Jobs(b), IndexIn(b, a[i]));
    }
    if OptTotal(Jobs(b)).None? {
      var i :| 0 <= i < |b| && Jobs(b)[i].None?;
      OptTotalFailsOn(Jobs(a), IndexIn(a, b[i]));
    }
  }

  /** When every commercial, industrial and service building has `jobs`,
      so does every business `calc_income` walks over. */
  lemma BusinessJobsPresent(c: seq<Building>, i: seq<Building>, s: seq<Building>)
    requires OptTotal(Jobs(c) + Jobs(i) + Jobs(s)).Some?
    ensures OptTotal(Jobs(c + i)).Some?
  {
    forall k | 0 <= k < |c + i|
      ensures Jobs(c + i)[k].Some?
    {
      assert (Jobs(c) + Jobs(i) + Jobs(s))[k] == (c + i)[k].jobs;
    }
  }
}
