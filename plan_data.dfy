/**
 * The population data a plan generator produces: persons, their plans, and the
 * activities and legs a plan is made of. These are plain values standing for the
 * objects a population factory creates; a plan is the ordered list of its elements.
 */
module PlanData {

  datatype Option<T> = None | Some(value: T)

  /** A coordinate as a coordinate factory creates it: x is the longitude (or easting), y the latitude (or northing). */
  datatype Coord = Coord(x: real, y: real)

  /** An activity: its type tag, where it happens, and when the person leaves it (if ever). */
  datatype Activity = Activity(kind: string, coord: Coord, endTime: Option<real>)

  /** One element of a plan: an activity, or a leg travelled with some mode. */
  datatype PlanElement = Act(activity: Activity) | Leg(mode: string)

  type Plan = seq<PlanElement>

  /** A person: an identifier, named boolean attributes, and the plans attached to it. */
  datatype Person = Person(id: int, attributes: map<string, bool>, plans: seq<Plan>)

  /** The activities of a plan, in plan order. */
  function Activities(p: Plan): (acts: seq<Activity>)
    ensures |acts| <= |p|
  {
    if p == [] then []
    else (if p[0].Act? then [p[0].activity] else []) + Activities(p[1..])
  }

  /** The modes of the legs of a plan, in plan order. */
  function LegModes(p: Plan): (modes: seq<string>)
    ensures |modes| <= |p|
  {
    if p == [] then []
    else (if p[0].Leg? then [p[0].mode] else []) + LegModes(p[1..])
  }

  /** The type tags of the activities of a plan, in plan order. */
  function Kinds(p: Plan): (kinds: seq<string>)
    ensures |kinds| == |Activities(p)|
  {
    var acts := Activities(p);
    seq(|acts|, k requires 0 <= k < |acts| => acts[k].kind)
  }

  /** The end times of the activities of a plan, in plan order. */
  function EndTimes(p: Plan): (ends: seq<Option<real>>)
    ensures |ends| == |Activities(p)|
  {
    var acts := Activities(p);
    seq(|acts|, k requires 0 <= k < |acts| => acts[k].endTime)
  }

  /**
   * A plan is well formed when activities and legs alternate, starting and
   * ending with an activity.
   */
  ghost predicate Alternates(p: Plan)
  {
    |p| % 2 == 1 && forall k :: 0 <= k < |p| ==> (p[k].Act? <==> k % 2 == 0)
  }

  /** Every activity but the last has an end time; the last one is open-ended. */
  ghost predicate OnlyLastOpen(p: Plan)
  {
    var ends := EndTimes(p);
    ends != [] &&
    (forall k :: 0 <= k < |ends| - 1 ==> ends[k].Some?) &&
    ends[|ends| - 1].None?
  }

  /**
   * The general plan invariant: in an alternating plan there is exactly one
   * more activity than there are legs. The work chain is one instance of it.
   */
  lemma {:induction false} AlternatingCounts(p: Plan)
    requires Alternates(p)
    ensures |Activities(p)| == |LegModes(p)| + 1
  {
    if |p| > 1 {
      var rest := p[2..];
      assert Alternates(rest) by {
        forall k | 0 <= k < |rest| ensures rest[k].Act? <==> k % 2 == 0 {
          assert rest[k] == p[k + 2];
        }
      }
      AlternatingCounts(rest);
      assert p[0].Act? && p[1].Leg?;
      assert p[1..][1..] == rest;
    } else {
      assert p == [p[0]] && p[0].Act?;
      assert p[1..] == [];
    }
  }
}
