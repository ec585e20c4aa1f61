/**
 * The plan generator: for each person slot it creates a person, marks it
 * employed, picks a daily activity pattern and, for the work pattern, builds the
 * chain home -> car -> work -> car -> other -> car -> home, then attaches the
 * plan and appends the person to the population.
 *
 * The coordinate transformation is a function supplied at construction, and the
 * generator's Gaussian random stream is an infinite sequence of draws
 * (`gaussian`) read at a cursor that each draw advances by one.
 */
module Plans {
  import opened PlanData

  /** The raw coordinates of the two interchange landmarks, before transformation. */
  const I15NorthboundRaw: Coord := Coord(-111.721902, 40.066630)
  const I15SouthboundRaw: Coord := Coord(-111.738536, 40.049808)

  /** The raw home coordinate every person gets. */
  const HomeLat: real := 40.0444
  const HomeLon: real := -111.7322

  /** The daily activity pattern labels the generator distinguishes. */
  const Work: string := "W"
  const NonMandatory: string := "N"
  const Home: string := "H"

  /** How many persons a request for `numberOfPeople` creates: the loop runs while the counter is below it. */
  function PeopleCount(numberOfPeople: int): (count: nat)
    ensures numberOfPeople <= 0 ==> count == 0
    ensures numberOfPeople > 0 ==> count == numberOfPeople
  {
    if numberOfPeople < 0 then 0 else numberOfPeople
  }

  /** How many Gaussian draws the first `count` persons of pattern `dap` consume. */
  function DrawsUsed(dap: string, count: nat): (draws: nat)
  {
    if dap == Work then 3 * count else 0
  }

  /**
   * The work-pattern chain, given the home, work and other locations and the
   * three Gaussian draws, taken in the order home, work, other.
   */
  function WorkDay(home: Coord, work: Coord, other: Coord, g1: real, g2: real, g3: real): (p: Plan)
  {
    [Act(Activity("home", home, Some(7.0 * 3600.0 + g1 * 30.0))), Leg("car")]
      + ([Act(Activity("work", work, Some(17.0 * 3600.0 + g2 * 30.0))), Leg("car")]
      + ([Act(Activity("other", other, Some(18.0 * 3600.0 + g3 * 4.0))), Leg("car")]
      + [Act(Activity("home", home, None))]))
  }

  /**
   * The plan of a person of pattern `dap` whose draws start at `c`. Only the
   * work pattern adds anything; every other label leaves the plan empty.
   */
  function DayPlan(dap: string, ct: Coord -> Coord, i15nb: Coord, gaussian: nat -> real, c: nat): (p: Plan)
  {
    if dap == Work then
      var home := ct(Coord(HomeLon, HomeLat));
      WorkDay(home, ct(i15nb), ct(i15nb), gaussian(c), gaussian(c + 1), gaussian(c + 2))
    else []
  }

  /** The person created in slot `i`, whose draws start at `c`. */
  function MadePerson(i: int, dap: string, ct: Coord -> Coord, i15nb: Coord, gaussian: nat -> real, c: nat): (person: Person)
  {
    Person(i, map["employed" := true], [DayPlan(dap, ct, i15nb, gaussian, c)])
  }

  /** The persons created by slots 0 .. count-1, in creation order, when the draw cursor starts at `start`. */
  function Batch(count: nat, dap: string, ct: Coord -> Coord, i15nb: Coord, gaussian: nat -> real, start: nat): (people: seq<Person>)
    ensures |people| == count
  {
    if count == 0 then []
    else
      Batch(count - 1, dap, ct, i15nb, gaussian, start)
        + [MadePerson(count - 1, dap, ct, i15nb, gaussian, start + DrawsUsed(dap, count - 1))]
  }

  /** Person k of a batch is the person of slot k, and its draws start 3k past the cursor for the work pattern. */
  lemma {:induction false} BatchAt(count: nat, dap: string, ct: Coord -> Coord, i15nb: Coord, gaussian: nat -> real, start: nat, k: nat)
    requires k < count
    ensures Batch(count, dap, ct, i15nb, gaussian, start)[k]
         == MadePerson(k, dap, ct, i15nb, gaussian, start + DrawsUsed(dap, k))
  {
    if k < count - 1 {
      BatchAt(count - 1, dap, ct, i15nb, gaussian, start, k);
    }
  }

  /** Persons get the ids 0 .. count-1, in creation order. */
  lemma BatchIds(count: nat, dap: string, ct: Coord -> Coord, i15nb: Coord, gaussian: nat -> real, start: nat)
    ensures forall k :: 0 <= k < count ==> Batch(count, dap, ct, i15nb, gaussian, start)[k].id == k
  {
    forall k | 0 <= k < count
      ensures Batch(count, dap, ct, i15nb, gaussian, start)[k].id == k
    {
      BatchAt(count, dap, ct, i15nb, gaussian, start, k);
    }
  }

  /** Every created person is employed (and has no other attribute) and has exactly one plan. */
  lemma BatchEmployedOnePlan(count: nat, dap: string, ct: Coord -> Coord, i15nb: Coord, gaussian: nat -> real, start: nat)
    ensures forall p :: p in Batch(count, dap, ct, i15nb, gaussian, start) ==>
              p.attributes == map["employed" := true] && |p.plans| == 1
  {
    var people := Batch(count, dap, ct, i15nb, gaussian, start);
    forall p | p in people ensures p.attributes == map["employed" := true] && |p.plans| == 1 {
      var k :| 0 <= k < count && people[k] == p;
      BatchAt(count, dap, ct, i15nb, gaussian, start, k);
    }
  }

  /**
   * The work-pattern chain alternates activity and leg, has four activities of
   * types home, work, other, home and three car legs, every activity but the
   * last has an end time, and both home activities share one location.
   */
  lemma WorkDayShape(home: Coord, work: Coord, other: Coord, g1: real, g2: real, g3: real)
    ensures var p := WorkDay(home, work, other, g1, g2, g3);
      && Alternates(p)
      && Kinds(p) == ["home", "work", "other", "home"]
      && LegModes(p) == ["car", "car", "car"]
      && OnlyLastOpen(p)
      && Activities(p)[0].coord == Activities(p)[3].coord == home
      && Activities(p)[1].coord == work && Activities(p)[2].coord == other
      && EndTimes(p) == [Some(25200.0 + 30.0 * g1), Some(61200.0 + 30.0 * g2), Some(64800.0 + 4.0 * g3), None]
  {
    var p := WorkDay(home, work, other, g1, g2, g3);
    WorkDayViews(home, work, other, g1, g2, g3);
    AlternatingCounts(p);
    var acts := Activities(p);
    assert Kinds(p) == [acts[0].kind, acts[1].kind, acts[2].kind, acts[3].kind];
    assert EndTimes(p) == [acts[0].endTime, acts[1].endTime, acts[2].endTime, acts[3].endTime];
  }

  /** Prefixing a plan with an activity and a leg adds that activity and that leg mode in front of its views. */
  lemma StepViews(a: Activity, mode: string, rest: Plan)
    ensures Activities([Act(a), Leg(mode)] + rest) == [a] + Activities(rest)
    ensures LegModes([Act(a), Leg(mode)] + rest) == [mode] + LegModes(rest)
  {
    var p := [Act(a), Leg(mode)] + rest;
    assert p[1..] == [Leg(mode)] + rest;
    assert p[1..][1..] == rest;
  }

  /** The activities and the leg modes of the work-pattern chain, in order. */
  lemma WorkDayViews(home: Coord, work: Coord, other: Coord, g1: real, g2: real, g3: real)
    ensures Activities(WorkDay(home, work, other, g1, g2, g3))
         == [Activity("home", home, Some(7.0 * 3600.0 + g1 * 30.0)),
             Activity("work", work, Some(17.0 * 3600.0 + g2 * 30.0)),
             Activity("other", other, Some(18.0 * 3600.0 + g3 * 4.0)),
             Activity("home", home, None)]
    ensures LegModes(WorkDay(home, work, other, g1, g2, g3)) == ["car", "car", "car"]
  {
    var a0 := Activity("home", home, Some(7.0 * 3600.0 + g1 * 30.0));
    var a1 := Activity("work", work, Some(17.0 * 3600.0 + g2 * 30.0));
    var a2 := Activity("other", other, Some(18.0 * 3600.0 + g3 * 4.0));
    var a3 := Activity("home", home, None);
    var t3: Plan := [Act(a3)];
    var t2 := [Act(a2), Leg("car")] + t3;
    var t1 := [Act(a1), Leg("car")] + t2;
    var t0 := [Act(a0), Leg("car")] + t1;
    assert t3[1..] == [];
    assert Activities(t3) == [a3] && LegModes(t3) == [];
    StepViews(a2, "car", t3);
    assert Activities(t2) == [a2, a3] && LegModes(t2) == ["car"];
    StepViews(a1, "car", t2);
    assert Activities(t1) == [a1, a2, a3] && LegModes(t1) == ["car", "car"];
    StepViews(a0, "car", t1);
  }

  /** For every label other than the work pattern the plan is empty: no activities and no legs. */
  lemma NonWorkDayEmpty(dap: string, ct: Coord -> Coord, i15nb: Coord, gaussian: nat -> real, c: nat)
    requires dap != Work
    ensures var p := DayPlan(dap, ct, i15nb, gaussian, c);
      Activities(p) == [] && LegModes(p) == [] && !Alternates(p)
  {
  }

  /**
   * In a work-pattern batch, person k's plan is the work chain built from the
   * draws at start+3k, start+3k+1 and start+3k+2 (home, work, other), with the
   * home at the transformed home coordinate and work and other both at the
   * re-transformed northbound landmark.
   */
  lemma BatchWorkPlan(count: nat, ct: Coord -> Coord, i15nb: Coord, gaussian: nat -> real, start: nat, k: nat)
    requires k < count
    ensures var c := start + 3 * k;
      Batch(count, Work, ct, i15nb, gaussian, start)[k].plans
        == [WorkDay(ct(Coord(HomeLon, HomeLat)), ct(i15nb), ct(i15nb), gaussian(c), gaussian(c + 1), gaussian(c + 2))]
  {
    BatchAt(count, Work, ct, i15nb, gaussian, start, k);
  }

  /** Every person of a work batch has id k, is employed, and has one plan of types home, work, other, home. */
  lemma WorkBatchKinds(count: nat, ct: Coord -> Coord, i15nb: Coord, gaussian: nat -> real, start: nat)
    ensures var people := Batch(count, Work, ct, i15nb, gaussian, start);
      forall k :: 0 <= k < count ==>
        people[k].id == k && people[k].attributes == map["employed" := true] && |people[k].plans| == 1
        && Kinds(people[k].plans[0]) == ["home", "work", "other", "home"]
  {
    forall k | 0 <= k < count {
      WorkPersonKinds(count, ct, i15nb, gaussian, start, k);
    }
  }

  /** Person k of a work batch has id k, is employed, and has one plan of types home, work, other, home. */
  lemma WorkPersonKinds(count: nat, ct: Coord -> Coord, i15nb: Coord, gaussian: nat -> real, start: nat, k: nat)
    requires k < count
    ensures var person := Batch(count, Work, ct, i15nb, gaussian, start)[k];
      person.id == k && person.attributes == map["employed" := true] && |person.plans| == 1
      && Kinds(person.plans[0]) == ["home", "work", "other", "home"]
  {
    BatchAt(count, Work, ct, i15nb, gaussian, start, k);
    var c := start + 3 * k;
    WorkDayShape(ct(Coord(HomeLon, HomeLat)), ct(i15nb), ct(i15nb), gaussian(c), gaussian(c + 1), gaussian(c + 2));
  }

  /** A non-positive count creates nobody and takes no draw, so MakePlans then leaves the generator as it was. */
  lemma NothingForNonPositive(numberOfPeople: int, dap: string, ct: Coord -> Coord, i15nb: Coord, gaussian: nat -> real,
                              start: nat, before: seq<Person>)
    requires numberOfPeople <= 0
    ensures before + Batch(PeopleCount(numberOfPeople), dap, ct, i15nb, gaussian, start) == before
    ensures start + DrawsUsed(dap, PeopleCount(numberOfPeople)) == start
  {
    assert before + [] == before;
  }

  /**
   * For any label other than the work pattern, every created person carries
   * one empty plan, and no draws are consumed.
   */
  lemma BatchNonWorkEmpty(count: nat, dap: string, ct: Coord -> Coord, i15nb: Coord, gaussian: nat -> real, start: nat)
    requires dap != Work
    ensures DrawsUsed(dap, count) == 0
    ensures forall k :: 0 <= k < count ==> Batch(count, dap, ct, i15nb, gaussian, start)[k].plans == [[]]
  {
    forall k | 0 <= k < count
      ensures Batch(count, dap, ct, i15nb, gaussian, start)[k].plans == [[]]
    {
      BatchAt(count, dap, ct, i15nb, gaussian, start, k);
    }
  }

  /**
   * The batch depends on the random stream only through the draws it consumes:
   * two streams that agree on the window [start, start + DrawsUsed) give the same persons.
   */
  lemma {:induction false} BatchDeterministic(count: nat, dap: string, ct: Coord -> Coord, i15nb: Coord,
                                              g1: nat -> real, g2: nat -> real, start: nat)
    requires forall j :: start <= j < start + DrawsUsed(dap, count) ==> g1(j) == g2(j)
    ensures Batch(count, dap, ct, i15nb, g1, start) == Batch(count, dap, ct, i15nb, g2, start)
  {
    if count > 0 {
      BatchDeterministic(count - 1, dap, ct, i15nb, g1, g2, start);
      var c := start + DrawsUsed(dap, count - 1);
      if dap == Work {
        assert g1(c) == g2(c) && g1(c + 1) == g2(c + 1) && g1(c + 2) == g2(c + 2);
      }
    }
  }

  /**
   * The generator. Its transformation `ct`, the transformed landmarks and the
   * random stream are fixed at construction; each call of MakePlans appends
   * persons to `population` and advances the draw `cursor`.
   */
  class PlansMaker {
    const ct: Coord -> Coord
    const i15nb: Coord
    const i15sb: Coord
    const gaussian: nat -> real
    var cursor: nat
    var population: seq<Person>

    /** `ct` is the transformation from WGS84 to the target reference system; `gaussian` is the seeded stream of draws. */
    constructor (ct: Coord -> Coord, gaussian: nat -> real)
      ensures this.ct == ct && this.gaussian == gaussian
      ensures i15nb == ct(I15NorthboundRaw) && i15sb == ct(I15SouthboundRaw)
      ensures population == [] && cursor == 0
    {
      this.ct := ct;
      this.gaussian := gaussian;
      i15nb := ct(I15NorthboundRaw);
      i15sb := ct(I15SouthboundRaw);
      cursor := 0;
      population := [];
    }

    /** The next Gaussian draw of the stream. */
    method NextGaussian() returns (g: real)
      modifies this`cursor
      ensures g == gaussian(old(cursor)) && cursor == old(cursor) + 1
    {
      g := gaussian(cursor);
      cursor := cursor + 1;
    }

    /**
     * Creates persons 0 .. numberOfPeople-1, each with one plan of pattern
     * `dap`, and appends them to the population in that order.
     */
    method MakePlans(numberOfPeople: int, dap: string)
      modifies this`cursor, this`population
      ensures population == old(population) + Batch(PeopleCount(numberOfPeople), dap, ct, i15nb, gaussian, old(cursor))
      ensures cursor == old(cursor) + DrawsUsed(dap, PeopleCount(numberOfPeople))
    {
      ghost var start, before := cursor, population;
      var i := 0;
      while i < numberOfPeople
        invariant 0 <= i <= PeopleCount(numberOfPeople)
        invariant population == before + Batch(i, dap, ct, i15nb, gaussian, start)
        invariant cursor == start + DrawsUsed(dap, i)
      {
        var person := MakePerson(i, dap);
        assert Batch(i + 1, dap, ct, i15nb, gaussian, start) == Batch(i, dap, ct, i15nb, gaussian, start) + [person];
        population := population + [person];
        i := i + 1;
      }
    }

    /**
     * One pass of the generation loop: person `i`, employed, with the plan of
     * pattern `dap`; the work pattern takes three draws, home, work, other.
     */
    method MakePerson(i: int, dap: string) returns (person: Person)
      modifies this`cursor
      ensures person == MadePerson(i, dap, ct, i15nb, gaussian, old(cursor))
      ensures cursor == old(cursor) + DrawsUsed(dap, 1)
    {
      person := Person(i, map[], []);
      var plan: Plan := [];

      person := person.(attributes := person.attributes["employed" := true]);

      var lat := HomeLat;
      var lon := HomeLon;
      var homeCoord := ct(Coord(lon, lat));
      var homeActivity := Activity("home", homeCoord, None);

      if dap == Work {
        var g := NextGaussian();
        homeActivity := homeActivity.(endTime := Some(7.0 * 3600.0 + g * 30.0));
        plan := plan + [Act(homeActivity)];

        plan := plan + [Leg("car")];

        var workCoord := ct(i15nb);
        var workActivity := Activity("work", workCoord, None);
        g := NextGaussian();
        workActivity := workActivity.(endTime := Some(17.0 * 3600.0 + g * 30.0));
        plan := plan + [Act(workActivity)];

        plan := plan + [Leg("car")];

        var otherCoord := ct(i15nb);
        var otherActivity := Activity("other", otherCoord, None);
        g := NextGaussian();
        otherActivity := otherActivity.(endTime := Some(18.0 * 3600.0 + g * 4.0));
        plan := plan + [Act(otherActivity)];

        plan := plan + [Leg("car")];

        var homeAgain := Activity("home", homeCoord, None);
        plan := plan + [Act(homeAgain)];
        assert plan == DayPlan(dap, ct, i15nb, gaussian, old(cursor));
      } else if dap == NonMandatory {
        // the discretionary activities are never created
      } else if dap == Home {
        // no activities
      }

      person := person.(plans := person.plans + [plan]);
    }
  }

  /**
   * A fresh generator over transformation `ct` and stream `gaussian`, asked for
   * n work-pattern persons, holds persons 0 .. n-1 and nothing else, each
   * employed with one plan of activity types home, work, other, home, and has
   * consumed 3n draws.
   */
  method MakeWorkers(ct: Coord -> Coord, gaussian: nat -> real, n: nat) returns (people: seq<Person>, drawsTaken: nat)
    ensures |people| == n && drawsTaken == 3 * n
    ensures forall k :: 0 <= k < n ==>
              people[k].id == k && people[k].attributes == map["employed" := true] && |people[k].plans| == 1
              && Kinds(people[k].plans[0]) == ["home", "work", "other", "home"]
  {
    var pm := new PlansMaker(ct, gaussian);
    pm.MakePlans(n, Work);
    people := pm.population;
    drawsTaken := pm.cursor;
    WorkBatchKinds(n, ct, pm.i15nb, gaussian, 0);
  }

  /**
   * A call of MakePlans grows the population by exactly max(n, 0) persons, and
   * a call with a non-positive count leaves the population and the cursor as
   * they were.
   */
  method MakePlansCounted(pm: PlansMaker, numberOfPeople: int, dap: string)
    modifies pm
    ensures |pm.population| == |old(pm.population)| + (if numberOfPeople > 0 then numberOfPeople else 0)
    ensures numberOfPeople <= 0 ==> pm.population == old(pm.population) && pm.cursor == old(pm.cursor)
  {
    ghost var start, before := pm.cursor, pm.population;
    pm.MakePlans(numberOfPeople, dap);
    if numberOfPeople <= 0 {
      NothingForNonPositive(numberOfPeople, dap, pm.ct, pm.i15nb, pm.gaussian, start, before);
    }
  }
}
