# Synthetic daily plans for a small population

This project models the plan generator of `materials/PlansMaker.java`: a
generator object that, asked for `numberOfPeople` persons, creates persons
`0 .. numberOfPeople-1` one after another, marks each one employed, picks a
daily activity pattern (DAP) and, for the work pattern `"W"`, builds the chain

    home -> car -> work -> car -> other -> car -> home

with Gaussian-jittered departure times, attaches the plan to the person and
appends the person to the population.

- `plan_data.dfy` (module `PlanData`): the population values — `Coord`,
  `Activity` (type tag, location, optional end time), `PlanElement` (an
  activity or a leg with a mode), `Plan` (a sequence of elements), `Person`
  (id, boolean attributes, plans) — and the views of a plan used to state
  properties: its activities, its leg modes, its activity types and its end
  times, with the predicates "activities and legs alternate" and "only the
  last activity is open-ended".
- `plans.dfy` (module `Plans`): the class `PlansMaker`, whose `population`
  (a sequence of persons) and draw `cursor` are updated in place by
  `MakePlans`, a loop proved against the specification function `Batch`;
  the per-person loop pass `MakePerson`, proved against `MadePerson`; and
  the lemmas about `Batch` and the work chain `WorkDay`.

Foreign parts are abstracted:

- The coordinate transformation (WGS84 to the target reference system) is a
  function `ct: Coord -> Coord` given to the constructor; nothing is assumed
  about it.
- The seeded `java.util.Random` is an infinite stream of Gaussian draws
  `gaussian: nat -> real` read at `cursor`; each `nextGaussian()` call reads
  `gaussian(cursor)` and advances the cursor by one.
- The population factory's persons, plans, activities and legs are the plain
  values above; the population is a sequence in insertion order.
- Times are exact reals of the form `base * 3600 + k * g`.

The pattern label is a literal `"W"` in the source (line 47); here it is the
`dap` parameter of `MakePlans`, so that all branches can be examined. Where the
source's comments announce behaviour the code does not have, the model
follows the code:

- line 42 puts `employed = true` with the comment "make random": every
  person is employed;
- line 47 fixes the label with the comment "make this random, different
  distribution based on employment": the label is whatever the caller passes,
  the same for every person of one call;
- line 81 says "need to create between 1 and 3 discretionary activities",
  but the `"N"` branch adds nothing, and neither does the `"H"` branch
  (line 83, "No activities"): those persons get an empty plan, and the home
  activity created at line 52 is never added;
- the code raises no error: an unknown label gets an empty plan like `"N"`
  and `"H"`, and a non-positive count creates nobody;
- work and other both sit at `ct(i15nb)`: line 62 (and line 70) transforms
  the landmark `i15nb`, which the constructor has already transformed, a
  second time. The model records this as written.

## Model

| member | source | states |
|---|---|---|
| `Plans.PlansMaker.constructor` | materials/PlansMaker.java:23-31 | the landmarks are the transformed raw interchange coordinates, the population is empty and no draw has been taken |
| `Plans.PlansMaker.NextGaussian` | materials/PlansMaker.java:56-72 | a draw returns the stream value at the cursor and advances the cursor by exactly one |
| `Plans.PlansMaker.MakePlans` | materials/PlansMaker.java:35-91 | the new population is the old one (untouched) followed by the batch of persons `0 .. max(n,0)-1`; the cursor advances by 3 per person for `"W"` and not at all otherwise |
| `Plans.PlansMaker.MakePerson` | materials/PlansMaker.java:38-88 | one loop pass yields exactly the specified person of that slot and consumes the pattern's draws |
| `Plans.MakePlansCounted` | materials/PlansMaker.java:37-89 | a call grows the population by exactly `max(n,0)` persons, and a call with a non-positive count leaves the population and the cursor as they were |
| `Plans.NothingForNonPositive` | materials/PlansMaker.java:37 | with a non-positive count, MakePlans appends nobody and takes no draw, so the population and cursor stay as they were |
| `Plans.BatchAt` | materials/PlansMaker.java:37-89 | the k-th appended person is the person of slot k whose draws start `3k` past the starting cursor (work pattern) |
| `Plans.BatchIds` | materials/PlansMaker.java:37-38 | persons carry ids `0 .. n-1` in insertion order |
| `Plans.BatchEmployedOnePlan` | materials/PlansMaker.java:42-88 | every created person has exactly the attribute `employed = true` and exactly one plan |
| `Plans.WorkDayShape` | materials/PlansMaker.java:54-78 | the work chain alternates activity and leg, starts and ends with an activity, has types `[home, work, other, home]`, three `car` legs, end times `7*3600+30*g1`, `17*3600+30*g2`, `18*3600+4*g3` and none on the final home, and both home activities share one location |
| `Plans.WorkDayViews` | materials/PlansMaker.java:52-78 | the work chain's activities, in order, with their types, locations and end times, and its legs: exactly three, all by car |
| `Plans.WorkBatchKinds` | materials/PlansMaker.java:37-88 | in a work batch every person k has id k, is employed, and has one plan whose activity types are home, work, other, home |
| `Plans.WorkPersonKinds` | materials/PlansMaker.java:38-88 | the same for one person k of a work batch |
| `Plans.NonWorkDayEmpty` | materials/PlansMaker.java:80-84 | for any label but `"W"` the plan has no activity and no leg (and so is not a well-formed chain) |
| `Plans.BatchWorkPlan` | materials/PlansMaker.java:49-78 | person k of a work batch has the single plan built from draws `start+3k`, `+1`, `+2` in the order home, work, other, with home at the transformed home coordinate and work and other both at `ct(i15nb)` |
| `Plans.BatchNonWorkEmpty` | materials/PlansMaker.java:80-88 | for any label but `"W"` every person gets one empty plan and no draw is consumed |
| `Plans.BatchDeterministic` | materials/PlansMaker.java:56-72 | the generated persons depend on the random stream only through the draws in the consumed window, so the output is determined by those draws |
| `Plans.MakeWorkers` | materials/PlansMaker.java:100-101 | a fresh generator asked for n work-pattern persons holds persons `0 .. n-1`, each employed with one home-work-other-home plan, after 3n draws |
| `PlanData.AlternatingCounts` | materials/PlansMaker.java:54-78 | any plan that alternates activity and leg has exactly one more activity than legs; the work chain is an instance |

## Left out

- `writePlans` (lines 93-96): serialisation of the population to a file is I/O.
- `main` and the logger (lines 15, 99-103): glue; they refer to a class
  `PlansMaker1` that does not exist. `MakeWorkers` stands for the two calls
  `main` makes on the generator, with the count as a parameter.
- Scenario, configuration and population-factory creation (lines 24-25):
  library calls, replaced by the plain values of `PlanData`.
- The population container's own checks (for example its rejection of a
  second person with an id already present) are library code and not part
  of this model; the population is an append-only sequence.
- The coordinate transformation (lines 26-30, 51, 62, 70) is geodetic
  floating-point code in a library; it is an arbitrary function here.
- `java.util.Random(15)` and its Gaussian algorithm (line 18): replaced by an
  arbitrary stream of draws; only the order in which draws are taken is modelled.
- Floating point: coordinates and times are exact reals, not IEEE doubles.
- A `null` count (the parameter is a boxed `Integer`) would throw; the model
  takes an `int`.
- The southbound landmark `i15sb` (line 30) is computed but never used by the
  generator; it is kept as a field only.
- The randomisation announced by the comments at lines 42, 47, 51 and 70
  (employment, pattern, home and other locations) and the discretionary
  activities announced at line 81: the code has none of them.
