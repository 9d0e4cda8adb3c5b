/** The force registry: the fixed catalogue of the four forces acting on the
    beam, each with an `identified` flag the learner sets in step 1. */
module ForceRegistry {

  datatype Category = Vertical | Horizontal | Reaction

  datatype Direction = Up | Down | Left | Right

  /** One entry of the catalogue; `position` is a percentage of the beam length. */
  datatype Force = Force(
    id: string,
    name: string,
    category: Category,
    direction: Direction,
    magnitude: real,
    position: real,
    identified: bool)

  const WeightId: string := "weight"
  const ReactionBVerticalId: string := "reaction-b-v"
  const ReactionBHorizontalId: string := "reaction-b-h"
  const ReactionDId: string := "reaction-d"

  /** The ids of the catalogue, in catalogue order. */
  const ForceIds: seq<string> := [WeightId, ReactionBVerticalId, ReactionBHorizontalId, ReactionDId]

  /** `initialForces`: the catalogue with nothing identified yet. */
  function InitialForces(): seq<Force> {
    [ Force(WeightId, "Weight (W)", Vertical, Down, 100.0, 40.0, false),
      Force(ReactionBVerticalId, "Reaction at B (Vertical)", Reaction, Up, 0.0, 20.0, false),
      Force(ReactionBHorizontalId, "Reaction at B (Horizontal)", Reaction, Right, 0.0, 20.0, false),
      Force(ReactionDId, "Reaction at D", Vertical, Up, 0.0, 80.0, false) ]
  }

  /** The catalogue holds one force per id, in the order of `ForceIds`, and
      every force starts unidentified. */
  lemma InitialForcesShape()
    ensures |InitialForces()| == |ForceIds| == 4
    ensures forall i :: 0 <= i < |ForceIds| ==> InitialForces()[i].id == ForceIds[i]
    ensures forall i :: 0 <= i < |ForceIds| ==> !InitialForces()[i].identified
    ensures forall i, j :: 0 <= i < j < |ForceIds| ==> ForceIds[i] != ForceIds[j]
  {
  }

  /** A registry differs from the catalogue in the `identified` flags at most:
      same length, same order, same ids, names, kinds, magnitudes and positions. */
  predicate IsRegistry(forces: seq<Force>) {
    && |forces| == |InitialForces()|
    && forall i :: 0 <= i < |forces| ==>
         forces[i] == InitialForces()[i].(identified := forces[i].identified)
  }

  /** Every force of the list has been identified (`forces.every(f => f.identified)`
      as a quantified statement). */
  predicate AllIdentified(forces: seq<Force>) {
    forall i :: 0 <= i < |forces| ==> forces[i].identified
  }

  /** `forces.every((f) => f.identified)`, walked element by element. */
  function EveryIdentified(forces: seq<Force>): (all: bool)
    ensures all <==> AllIdentified(forces)
  {
    if |forces| == 0 then true
    else forces[0].identified && EveryIdentified(forces[1..])
  }

  /** `forces.map(f => f.id === forceId ? { ...f, identified: true } : f)`:
      the flag is raised on every force whose id matches, and nothing else
      about the list changes. */
  function Identify(forces: seq<Force>, forceId: string): (r: seq<Force>)
    ensures |r| == |forces|
    ensures forall i :: 0 <= i < |forces| ==>
              r[i].identified == (forces[i].identified || forces[i].id == forceId)
    ensures forall i :: 0 <= i < |forces| ==>
              r[i] == forces[i].(identified := r[i].identified)
  {
    if |forces| == 0 then []
    else
      var f := forces[0];
      [if f.id == forceId then f.(identified := true) else f] + Identify(forces[1..], forceId)
  }

  /** Identifying keeps a registry a registry. */
  lemma IdentifyKeepsRegistry(forces: seq<Force>, forceId: string)
    requires IsRegistry(forces)
    ensures IsRegistry(Identify(forces, forceId))
  {
  }

  /** An id that names no force leaves the list exactly as it was. */
  lemma IdentifyUnknownIsNoOp(forces: seq<Force>, forceId: string)
    requires forall i :: 0 <= i < |forces| ==> forces[i].id != forceId
    ensures Identify(forces, forceId) == forces
  {
  }

  /** Identifying the same force twice is the same as identifying it once. */
  lemma IdentifyIdempotent(forces: seq<Force>, forceId: string)
    ensures Identify(Identify(forces, forceId), forceId) == Identify(forces, forceId)
  {
  }

  /** The order in which two forces are identified does not matter. */
  lemma IdentifyCommutes(forces: seq<Force>, a: string, b: string)
    ensures Identify(Identify(forces, a), b) == Identify(Identify(forces, b), a)
  {
  }

  /** In a registry the force at position `i` is the one, and the only one,
      carrying the `k`-th catalogue id exactly when `i == k`. */
  lemma RegistryIdAt(forces: seq<Force>, i: nat, k: nat)
    requires IsRegistry(forces)
    requires i < |forces| && k < |ForceIds|
    ensures forces[i].id == ForceIds[k] <==> i == k
  {
    InitialForcesShape();
    assert forces[i].id == ForceIds[i];
  }

  /** Some force carrying the id `forceId` has been identified. */
  predicate IdIdentified(forces: seq<Force>, forceId: string) {
    exists i :: 0 <= i < |forces| && forces[i].id == forceId && forces[i].identified
  }

  /** In a registry, everything is identified exactly when, for each of the
      four catalogue ids, the force carrying that id is identified. */
  lemma RegistryAllIdentified(forces: seq<Force>)
    requires IsRegistry(forces)
    ensures AllIdentified(forces) <==>
              forall k :: 0 <= k < |ForceIds| ==> IdIdentified(forces, ForceIds[k])
  {
    if AllIdentified(forces) {
      forall k | 0 <= k < |ForceIds|
        ensures IdIdentified(forces, ForceIds[k])
      {
        RegistryIdAt(forces, k, k);
        assert forces[k].id == ForceIds[k] && forces[k].identified;
      }
    } else {
      var j :| 0 <= j < |forces| && !forces[j].identified;
      forall i | 0 <= i < |forces| && forces[i].id == ForceIds[j]
        ensures !forces[i].identified
      {
        RegistryIdAt(forces, i, j);
      }
      InitialForcesShape();
      assert !IdIdentified(forces, ForceIds[j]);
    }
  }
}
