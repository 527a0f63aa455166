/** Assignment3: the fuel simulation. Four cars are refuelled and driven on a track schedule;
    what is logged follows a closed form. Amounts are real numbers. */
module TravelSimulation {
  import opened Sequences

  datatype Level = DEBUG | WARNING | ERROR

  class Journal {
    var records: seq<Level>

    constructor ()
      ensures records == []
    {
      records := [];
    }

    method Log(level: Level)
      modifies this
      ensures records == old(records) + [level]
    {
      records := records + [level];
    }
  }

  class Automobile {
    var fuelEfficiency: real
    var fuelInTank: real

    constructor ()
      ensures fuelInTank == 0.0
    {
      fuelInTank, fuelEfficiency := 0.0, 0.0;
    }

    method SetFuelEfficiency(efficiency: real)
      modifies `fuelEfficiency
      ensures fuelEfficiency == efficiency
    {
      fuelEfficiency := efficiency;
    }

    method EmptyFuel()
      modifies `fuelInTank
      ensures fuelInTank == 0.0
    {
      fuelInTank := 0.0;
    }

    /** Capped at 50 litres, with a warning when something had to be discarded. */
    method AddFuel(litres: real, journal: Journal)
      modifies `fuelInTank, journal
      ensures fuelInTank == if old(fuelInTank) + litres > 50.0 then 50.0 else old(fuelInTank) + litres
      ensures journal.records == old(journal.records) + (if old(fuelInTank) + litres > 50.0 then [WARNING] else [])
    {
      fuelInTank := fuelInTank + litres;
      if fuelInTank > 50.0 {
        fuelInTank := 50.0;
        journal.Log(WARNING);
      }
    }

    /** Never below empty, with an error when the fuel did not suffice. */
    method Drive(distance: real, journal: Journal)
      modifies `fuelInTank, journal
      ensures var left := old(fuelInTank) - fuelEfficiency / 100.0 * distance;
        && fuelInTank == (if left < 0.0 then 0.0 else left)
        && journal.records == old(journal.records) + (if left < 0.0 then [ERROR] else [])
    {
      var fuelConsumed := fuelEfficiency / 100.0 * distance;
      fuelInTank := fuelInTank - fuelConsumed;
      if fuelInTank < 0.0 {
        fuelInTank := 0.0;
        journal.Log(ERROR);
      }
    }
  }

  /** The track of the round after the one on `track`. */
  function NextTrack(track: int): int {
    (track + 1) % 5 + 1
  }

  /** The track of round r, counted from 0. */
  function TrackOf(r: nat): int {
    if r == 0 then 1 else NextTrack(TrackOf(r - 1))
  }

  /** Litres per 100 km of cars 1 to 4, in the city and on the highway. */
  function City(car: int): real {
    if car == 1 then 8.2 else if car == 2 then 7.8 else if car == 3 then 10.6 else 17.29
  }

  function Highway(car: int): real {
    if car == 1 then 6.2 else if car == 2 then 5.8 else if car == 3 then 7.5 else 12.5
  }

  /** Does the car run dry in the city on this track? */
  predicate RunsDry(car: int, track: int) {
    (car == 3 && track == 5) || (car == 4 && track >= 3)
  }

  function CityLog(track: int, car: int): seq<Level> {
    if RunsDry(car, track) then [ERROR] else []
  }

  function RefuelLog(track: int, car: int): seq<Level> {
    if RunsDry(car, track) then [] else [WARNING]
  }

  function CityLogs(track: int): seq<Level> {
    CityLog(track, 1) + CityLog(track, 2) + CityLog(track, 3) + CityLog(track, 4)
  }

  function RefuelLogs(track: int): seq<Level> {
    RefuelLog(track, 1) + RefuelLog(track, 2) + RefuelLog(track, 3) + RefuelLog(track, 4)
  }

  /** What one round on a track logs, in order. */
  function RoundLog(track: int): seq<Level> {
    AroundLegs(CityLogs(track), RefuelLogs(track))
  }

  /** The DEBUG records of a round around those of its two stages. */
  function AroundLegs(city: seq<Level>, refuel: seq<Level>): seq<Level> {
    [DEBUG] + city + [DEBUG] + refuel + [DEBUG] + [DEBUG]
  }

  function Count(level: Level, records: seq<Level>): nat {
    multiset(records)[level]
  }

  /** The city leg runs a full tank dry exactly for these cars and tracks, and the highway leg
      of the round never does. */
  lemma Consumption(car: int, track: int)
    requires 1 <= car <= 4 && 1 <= track <= 5
    ensures var left := 50.0 - City(car) / 100.0 * (track as real * 100.0);
      (left < 0.0 <==> RunsDry(car, track)) && (!RunsDry(car, track) ==> left > 0.0)
    ensures 50.0 - Highway(car) / 100.0 * (500.0 - track as real * 100.0) >= 0.0
  {
    if track == 1 {
    } else if track == 2 {
    } else if track == 3 {
    } else if track == 4 {
    } else {
    }
  }

  /** The four cars of main(). */
  class Fleet {
    const car1: Automobile
    const car2: Automobile
    const car3: Automobile
    const car4: Automobile

    ghost predicate Valid() {
      car1 != car2 && car1 != car3 && car1 != car4 && car2 != car3 && car2 != car4 && car3 != car4
    }

    ghost predicate Full()
      reads car1, car2, car3, car4
    {
      car1.fuelInTank == 50.0 && car2.fuelInTank == 50.0 && car3.fuelInTank == 50.0 && car4.fuelInTank == 50.0
    }

    /** After the city leg: within bounds, and empty exactly for the cars that ran dry. */
    ghost predicate Driven(track: int)
      reads car1, car2, car3, car4
    {
      && AfterCity(car1, 1, track) && AfterCity(car2, 2, track)
      && AfterCity(car3, 3, track) && AfterCity(car4, 4, track)
    }

    constructor ()
      ensures Valid() && fresh({car1, car2, car3, car4})
    {
      car1 := new Automobile();
      car2 := new Automobile();
      car3 := new Automobile();
      car4 := new Automobile();
    }

    method FillUp(journal: Journal)
      requires Valid()
      modifies car1, car2, car3, car4, journal
      ensures Full() && journal.records == old(journal.records)
    {
      car1.EmptyFuel();
      car2.EmptyFuel();
      car3.EmptyFuel();
      car4.EmptyFuel();
      car1.AddFuel(50.0, journal);
      car2.AddFuel(50.0, journal);
      car3.AddFuel(50.0, journal);
      car4.AddFuel(50.0, journal);
    }

    method DriveCity(track: int, journal: Journal)
      requires Valid() && Full() && 1 <= track <= 5
      modifies car1, car2, car3, car4, journal
      ensures Driven(track) && journal.records == old(journal.records) + CityLogs(track)
      ensures car1.fuelInTank == 50.0 - 8.2 * track as real && car2.fuelInTank == 50.0 - 7.8 * track as real
      ensures car3.fuelInTank == if track == 5 then 0.0 else 50.0 - 10.6 * track as real
      ensures car4.fuelInTank == if track >= 3 then 0.0 else 50.0 - 17.29 * track as real
    {
      CityLeg(car1, 1, track, journal);
      CityLeg(car2, 2, track, journal);
      CityLeg(car3, 3, track, journal);
      CityLeg(car4, 4, track, journal);
    }

    method TopUp(track: int, journal: Journal)
      requires Valid() && Driven(track)
      modifies car1, car2, car3, car4, journal
      ensures Full() && journal.records == old(journal.records) + RefuelLogs(track)
    {
      Refuel(car1, 1, track, journal);
      Refuel(car2, 2, track, journal);
      Refuel(car3, 3, track, journal);
      Refuel(car4, 4, track, journal);
    }

    method DriveHighway(track: int, journal: Journal)
      requires Valid() && Full() && 1 <= track <= 5
      modifies car1, car2, car3, car4, journal
      ensures journal.records == old(journal.records)
      ensures car1.fuelInTank == 50.0 - 6.2 * (5 - track) as real && car2.fuelInTank == 50.0 - 5.8 * (5 - track) as real
      ensures car3.fuelInTank == 50.0 - 7.5 * (5 - track) as real && car4.fuelInTank == 50.0 - 12.5 * (5 - track) as real
    {
      HighwayLeg(car1, 1, track, journal);
      HighwayLeg(car2, 2, track, journal);
      HighwayLeg(car3, 3, track, journal);
      HighwayLeg(car4, 4, track, journal);
    }

    /** The body of main()'s loop. */
    method Round(track: int, journal: Journal)
      requires Valid() && 1 <= track <= 5
      modifies car1, car2, car3, car4, journal
      ensures journal.records == old(journal.records) + RoundLog(track)
      ensures car1.fuelInTank == 50.0 - 6.2 * (5 - track) as real && car2.fuelInTank == 50.0 - 5.8 * (5 - track) as real
      ensures car3.fuelInTank == 50.0 - 7.5 * (5 - track) as real && car4.fuelInTank == 50.0 - 12.5 * (5 - track) as real
    {
      FillUp(journal);
      journal.Log(DEBUG);
      DriveCity(track, journal);
      journal.Log(DEBUG);
      TopUp(track, journal);
      journal.Log(DEBUG);
      DriveHighway(track, journal);
      journal.Log(DEBUG);
      InOrder(old(journal.records), CityLogs(track), RefuelLogs(track));
    }
  }

  lemma InOrder(before: seq<Level>, city: seq<Level>, refuel: seq<Level>)
    ensures before + [DEBUG] + city + [DEBUG] + refuel + [DEBUG] + [DEBUG] == before + AroundLegs(city, refuel)
  {
  }

  ghost predicate AfterCity(car: Automobile, number: int, track: int)
    reads car
  {
    0.0 <= car.fuelInTank <= 50.0 && (RunsDry(number, track) <==> car.fuelInTank == 0.0)
  }

  method CityLeg(car: Automobile, number: int, track: int, journal: Journal)
    requires 1 <= number <= 4 && 1 <= track <= 5 && car.fuelInTank == 50.0
    modifies car, journal
    ensures AfterCity(car, number, track)
    ensures journal.records == old(journal.records) + CityLog(track, number)
    ensures car.fuelInTank == LeftAfterCity(number, track)
  {
    Consumption(number, track);
    CityUse(number, track);
    car.SetFuelEfficiency(City(number));
    car.Drive(track as real * 100.0, journal);
  }

  method Refuel(car: Automobile, number: int, track: int, journal: Journal)
    requires AfterCity(car, number, track)
    modifies car, journal
    ensures car.fuelInTank == 50.0
    ensures journal.records == old(journal.records) + RefuelLog(track, number)
  {
    car.AddFuel(50.0, journal);
  }

  method HighwayLeg(car: Automobile, number: int, track: int, journal: Journal)
    requires 1 <= number <= 4 && 1 <= track <= 5 && car.fuelInTank == 50.0
    modifies car, journal
    ensures journal.records == old(journal.records)
    ensures car.fuelInTank == LeftAfterHighway(number, track)
  {
    Consumption(number, track);
    HighwayUse(number, track);
    car.SetFuelEfficiency(Highway(number));
    car.Drive(500.0 - track as real * 100.0, journal);
  }

  /** Litres left after the city leg. */
  function LeftAfterCity(number: int, track: int): real {
    if number == 1 then 50.0 - 8.2 * track as real
    else if number == 2 then 50.0 - 7.8 * track as real
    else if number == 3 then (if track == 5 then 0.0 else 50.0 - 10.6 * track as real)
    else if track >= 3 then 0.0 else 50.0 - 17.29 * track as real
  }

  lemma CityUse(number: int, track: int)
    requires 1 <= number <= 4 && 1 <= track <= 5
    ensures var left := 50.0 - City(number) / 100.0 * (track as real * 100.0);
      LeftAfterCity(number, track) == if left < 0.0 then 0.0 else left
  {
    if track == 1 {
    } else if track == 2 {
    } else if track == 3 {
    } else if track == 4 {
    } else {
    }
  }

  /** Litres left at the end of a round: 6.2, 5.8, 7.5 or 12.5 for each 100 km are gone. */
  function LeftAfterHighway(number: int, track: int): real {
    50.0 - (if number == 1 then 6.2 else if number == 2 then 5.8 else if number == 3 then 7.5 else 12.5) * (5 - track) as real
  }

  lemma HighwayUse(number: int, track: int)
    requires 1 <= number <= 4 && 1 <= track <= 5
    ensures 50.0 - Highway(number) / 100.0 * (500.0 - track as real * 100.0) == LeftAfterHighway(number, track)
  {
    if track == 1 {
    } else if track == 2 {
    } else if track == 3 {
    } else if track == 4 {
    } else {
    }
  }

  /** The errors of n complete rounds. */
  function Errors(n: nat): nat {
    4 * (n / 5) + (match n % 5 case 0 => 0 case 1 => 0 case 2 => 1 case 3 => 3 case _ => 3)
  }

  lemma NextModFive(r: nat)
    ensures (r + 1) % 5 == if r % 5 == 4 then 0 else r % 5 + 1
  {
    assert r == 5 * (r / 5) + r % 5;
    if r % 5 == 4 {
      assert r + 1 == 5 * (r / 5 + 1);
    }
  }

  function TrackAt(position: int): int {
    if position == 0 then 1 else if position == 1 then 3 else if position == 2 then 5 else if position == 3 then 2 else 4
  }

  lemma NextTrackAt(position: int)
    requires 0 <= position < 5
    ensures NextTrack(TrackAt(position)) == TrackAt(if position == 4 then 0 else position + 1)
  {
  }

  /** The track schedule is 1, 3, 5, 2, 4 over and over. */
  lemma {:induction false} TrackCycle(r: nat)
    ensures TrackOf(r) == TrackAt(r % 5) && 1 <= TrackOf(r) <= 5
  {
    if r > 0 {
      TrackCycle(r - 1);
      NextModFive(r - 1);
      NextTrackAt((r - 1) % 5);
    }
  }

  /** What n rounds log when a round on track t logs f(t). */
  function LogOf(n: nat, f: int -> seq<Level>): seq<Level> {
    if n == 0 then [] else LogOf(n - 1, f) + f(TrackOf(n - 1))
  }

  /** How many cars run dry on a track. */
  function DryCars(track: int): nat {
    (if track >= 3 then 1 else 0) + (if track == 5 then 1 else 0)
  }

  lemma CountParts(level: Level, city: seq<Level>, refuel: seq<Level>)
    requires level != DEBUG
    ensures Count(level, AroundLegs(city, refuel)) == Count(level, city) + Count(level, refuel)
  {
    var d := [DEBUG];
    assert multiset(AroundLegs(city, refuel))
      == multiset(d) + multiset(city) + multiset(d) + multiset(refuel) + multiset(d) + multiset(d);
  }

  lemma CityCounts(track: int)
    requires 1 <= track <= 5
    ensures Count(ERROR, CityLogs(track)) == DryCars(track) && Count(WARNING, CityLogs(track)) == 0
  {
    assert CityLogs(track) == if track <= 2 then [] else if track <= 4 then [ERROR] else [ERROR, ERROR];
  }

  lemma RefuelCounts(track: int)
    requires 1 <= track <= 5
    ensures Count(ERROR, RefuelLogs(track)) == 0 && Count(WARNING, RefuelLogs(track)) == 4 - DryCars(track)
  {
    var w := [WARNING];
    if track <= 2 {
      assert RefuelLogs(track) == w + w + w + w;
    } else if track <= 4 {
      assert RefuelLogs(track) == w + w + w;
    } else {
      assert RefuelLogs(track) == w + w;
    }
  }

  lemma RoundCounts(track: int)
    requires 1 <= track <= 5
    ensures Count(ERROR, RoundLog(track)) == DryCars(track) && Count(WARNING, RoundLog(track)) == 4 - DryCars(track)
  {
    CityCounts(track);
    RefuelCounts(track);
    CountParts(ERROR, CityLogs(track), RefuelLogs(track));
    CountParts(WARNING, CityLogs(track), RefuelLogs(track));
  }

  lemma ErrorsStep(n: nat)
    ensures 1 <= TrackOf(n) <= 5 && Errors(n + 1) == Errors(n) + DryCars(TrackOf(n))
  {
    TrackCycle(n);
    var q, r := n / 5, n % 5;
    assert n == 5 * q + r;
    if r == 4 {
      assert n + 1 == 5 * (q + 1);
    } else {
      assert (n + 1) / 5 == q && (n + 1) % 5 == r + 1;
    }
  }

  lemma CountConcat(a: seq<Level>, b: seq<Level>)
    ensures Count(ERROR, a + b) == Count(ERROR, a) + Count(ERROR, b)
    ensures Count(WARNING, a + b) == Count(WARNING, a) + Count(WARNING, b)
  {
  }

  /** What n rounds add up to when a round on track t has g(t) of something. */
  function Sum(n: nat, g: int -> nat): nat {
    if n == 0 then 0 else Sum(n - 1, g) + g(TrackOf(n - 1))
  }

  lemma {:induction false} SumOfDryCars(n: nat)
    ensures Sum(n, DryCars) == Errors(n)
  {
    if n > 0 {
      SumOfDryCars(n - 1);
      ErrorsStep(n - 1);
    }
  }

  lemma OneMoreRound(before: seq<Level>, round: seq<Level>, track: int, errors: int, all: int)
    requires Count(ERROR, before) == errors && Count(WARNING, before) == all - errors
    requires Count(ERROR, round) == DryCars(track) && Count(WARNING, round) == 4 - DryCars(track)
    ensures Count(ERROR, before + round) == errors + DryCars(track)
    ensures Count(WARNING, before + round) == all + 4 - (errors + DryCars(track))
  {
    CountConcat(before, round);
  }

  lemma {:induction false} CountRounds(n: nat, f: int -> seq<Level>)
    requires forall t | 1 <= t <= 5 :: Count(ERROR, f(t)) == DryCars(t) && Count(WARNING, f(t)) == 4 - DryCars(t)
    ensures Count(ERROR, LogOf(n, f)) == Sum(n, DryCars) && Count(WARNING, LogOf(n, f)) == 4 * n - Sum(n, DryCars)
  {
    if n > 0 {
      TrackCycle(n - 1);
      CountRounds(n - 1, f);
      OneMoreRound(LogOf(n - 1, f), f(TrackOf(n - 1)), TrackOf(n - 1), Sum(n - 1, DryCars), 4 * (n - 1));
    }
  }

  /** The closed form: n complete rounds log 4(n/5) + 0, 0, 1, 3, 3 errors by n mod 5, and
      each car logs exactly one warning or error per round. */
  lemma ClosedForm(n: nat)
    ensures Count(ERROR, LogOf(n, RoundLog)) == Errors(n)
    ensures Count(WARNING, LogOf(n, RoundLog)) == 4 * n - Errors(n)
  {
    forall t | 1 <= t <= 5
      ensures Count(ERROR, RoundLog(t)) == DryCars(t) && Count(WARNING, RoundLog(t)) == 4 - DryCars(t)
    {
      RoundCounts(t);
    }
    CountRounds(n, RoundLog);
    SumOfDryCars(n);
  }

  /** Everything logged in n complete rounds. */
  function Logged(n: nat): seq<Level> {
    [DEBUG] + LogOf(n, RoundLog)
  }

  lemma LoggedStep(n: nat)
    ensures Logged(n + 1) == Logged(n) + RoundLog(TrackOf(n))
  {
    ConcatAssoc([DEBUG], LogOf(n, RoundLog), RoundLog(TrackOf(n)));
  }

  /** main()'s loop for n complete rounds. */
  method Simulate(n: nat) returns (journal: Journal)
    ensures fresh(journal) && journal.records == Logged(n)
  {
    journal := new Journal();
    var fleet := new Fleet();
    journal.Log(DEBUG);
    var track := 1;
    for r := 0 to n
      invariant track == TrackOf(r)
      invariant fresh(journal) && journal.records == Logged(r)
    {
      TrackCycle(r);
      fleet.Round(track, journal);
      LoggedStep(r);
      track := (track + 1) % 5 + 1;
    }
  }
}
