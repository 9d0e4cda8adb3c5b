/** The simulator store: one state record and the actions that write its
    input fields and then recompute the derived fields synchronously. Each
    action is a pure function from the state before to the state after. */
module Simulator {
  import opened Tiers
  import opened ForceRegistry
  import opened Moments

  /** `selectedPivot: 'B' | 'D' | 'C' | null` */
  datatype PivotChoice = NoPivot | Selected(pivot: Pivot)

  /** `SimulatorState` without its action members. */
  datatype State = State(
    forces: seq<Force>,
    step1Complete: bool,
    reactionBHorizontal: real,
    reactionBVertical: real,
    reactionD: real,
    forceBalanceX: Balance,
    forceBalanceY: Balance,
    step2Complete: bool,
    selectedPivot: PivotChoice,
    massPosition: real,
    tiltAngle: real,
    momentBalance: Balance,
    step3Complete: bool)

  /** Force classification thresholds. */
  const ForceTight: real := 5.0
  const ForceLoose: real := 15.0

  /** The state the store is created with: no force identified, and already
      consistent. Its derived fields are written as literals, not computed:
      the vertical reactions sum to the weight, yet `forceBalanceY` starts
      out unbalanced. */
  function Initial(): (r: State)
    ensures Consistent(r)
    ensures forall i :: 0 <= i < |r.forces| ==> !r.forces[i].identified
    ensures !AllIdentified(r.forces)
  {
    assert !InitialForces()[0].identified;
    State(
      InitialForces(), false,
      0.0, 50.0, 50.0, Balanced, Unbalanced, false,
      NoPivot, 40.0, 0.0, Unbalanced, false)
  }

  /** Horizontal classification: the horizontal reaction is the only
      horizontal force, so its magnitude is the residual. */
  function HorizontalBalance(reactionBHorizontal: real): (b: Balance)
    ensures b == Balanced <==> -ForceTight < reactionBHorizontal < ForceTight
    ensures b == Almost <==> ForceTight <= Abs(reactionBHorizontal) < ForceLoose
    ensures b == Unbalanced <==> ForceLoose <= Abs(reactionBHorizontal)
  {
    Classify(Abs(reactionBHorizontal), ForceTight, ForceLoose)
  }

  /** Vertical classification: the residual is how far the two vertical
      reactions miss the weight. */
  function VerticalBalance(reactionBVertical: real, reactionD: real): (b: Balance)
    ensures b == Balanced <==>
              WeightMagnitude - ForceTight < reactionBVertical + reactionD < WeightMagnitude + ForceTight
    ensures b == Almost <==>
              ForceTight <= Abs(reactionBVertical + reactionD - WeightMagnitude) < ForceLoose
    ensures b == Unbalanced <==>
              ForceLoose <= Abs(reactionBVertical + reactionD - WeightMagnitude)
  {
    Classify(Abs(reactionBVertical + reactionD - WeightMagnitude), ForceTight, ForceLoose)
  }

  /** The vertical classification sees only the sum of the two reactions. */
  lemma VerticalDependsOnlyOnSum(up1: real, d1: real, up2: real, d2: real)
    requires up1 + d1 == up2 + d2
    ensures VerticalBalance(up1, d1) == VerticalBalance(up2, d2)
  {
  }

  /** The force-balance fields of `after` are the classification of the
      reactions of `before`, and step 2 is complete iff both read balanced. */
  predicate ForcesEvaluated(before: State, after: State) {
    && after.forceBalanceX == HorizontalBalance(before.reactionBHorizontal)
    && after.forceBalanceY == VerticalBalance(before.reactionBVertical, before.reactionD)
    && (after.step2Complete <==> after.forceBalanceX == Balanced && after.forceBalanceY == Balanced)
  }

  /** The moment fields of `after` are the evaluation of the pivot, mass and
      reactions of `before`. Without a pivot the tilt is 0 and the moment
      unbalanced, and step 3 keeps whatever value it had. */
  predicate MomentsEvaluated(before: State, after: State) {
    match before.selectedPivot
    case NoPivot =>
      && after.tiltAngle == 0.0
      && after.momentBalance == Unbalanced
      && after.step3Complete == before.step3Complete
    case Selected(p) =>
      var net := NetMoment(p, before.massPosition, before.reactionBVertical, before.reactionD);
      && after.tiltAngle == Tilt(net)
      && after.momentBalance == MomentBalance(net)
      && (after.step3Complete <==> after.momentBalance == Balanced)
  }

  /** `identifyForce`: raise the flag on the matching force, then latch
      step 1 if every force is now identified. Step 1 is never cleared here. */
  function IdentifyForce(s: State, forceId: string): (r: State)
    ensures |r.forces| == |s.forces|
    ensures forall i :: 0 <= i < |s.forces| ==>
              r.forces[i].identified == (s.forces[i].identified || s.forces[i].id == forceId)
    ensures r.step1Complete == (s.step1Complete || AllIdentified(r.forces))
    ensures forall i :: 0 <= i < |s.forces| ==>
              r.forces[i] == s.forces[i].(identified := r.forces[i].identified)
    ensures r.(forces := s.forces, step1Complete := s.step1Complete) == s
  {
    var s' := s.(forces := Identify(s.forces, forceId));
    if EveryIdentified(s'.forces) then s'.(step1Complete := true) else s'
  }

  /** `checkForceBalance`: reclassify both force balances; nothing but the
      two classifications and step 2 changes. */
  function CheckForceBalance(s: State): (r: State)
    ensures ForcesEvaluated(s, r)
    ensures r.(forceBalanceX := s.forceBalanceX, forceBalanceY := s.forceBalanceY,
               step2Complete := s.step2Complete) == s
  {
    var x := HorizontalBalance(s.reactionBHorizontal);
    var y := VerticalBalance(s.reactionBVertical, s.reactionD);
    s.(forceBalanceX := x, forceBalanceY := y, step2Complete := x == Balanced && y == Balanced)
  }

  /** `setReactionBHorizontal`: store the value, then `checkForceBalance`. */
  function SetReactionBHorizontal(s: State, value: real): (r: State)
    ensures r.reactionBHorizontal == value
    ensures ForcesEvaluated(r, r)
    ensures r.(reactionBHorizontal := s.reactionBHorizontal, forceBalanceX := s.forceBalanceX,
               forceBalanceY := s.forceBalanceY, step2Complete := s.step2Complete) == s
  {
    CheckForceBalance(s.(reactionBHorizontal := value))
  }

  /** `setReactionBVertical`: store the value, then `checkForceBalance` only.
      The moment fields keep their old values although the net moment depends
      on this reaction. */
  function SetReactionBVertical(s: State, value: real): (r: State)
    ensures r.reactionBVertical == value
    ensures ForcesEvaluated(r, r)
    ensures r.(reactionBVertical := s.reactionBVertical, forceBalanceX := s.forceBalanceX,
               forceBalanceY := s.forceBalanceY, step2Complete := s.step2Complete) == s
  {
    CheckForceBalance(s.(reactionBVertical := value))
  }

  /** `setReactionD`: as `setReactionBVertical`, for the reaction at D. */
  function SetReactionD(s: State, value: real): (r: State)
    ensures r.reactionD == value
    ensures ForcesEvaluated(r, r)
    ensures r.(reactionD := s.reactionD, forceBalanceX := s.forceBalanceX,
               forceBalanceY := s.forceBalanceY, step2Complete := s.step2Complete) == s
  {
    CheckForceBalance(s.(reactionD := value))
  }

  /** `checkMomentBalance`: re-evaluate the tilt, the moment classification
      and (with a pivot) step 3; nothing else changes. */
  function CheckMomentBalance(s: State): (r: State)
    ensures MomentsEvaluated(s, r)
    ensures -MaxTilt <= r.tiltAngle <= MaxTilt
    ensures r.(tiltAngle := s.tiltAngle, momentBalance := s.momentBalance,
               step3Complete := s.step3Complete) == s
  {
    match s.selectedPivot
    case NoPivot =>
      s.(tiltAngle := 0.0, momentBalance := Unbalanced)
    case Selected(p) =>
      var net := WeightMagnitude * (s.massPosition - PivotPosition(p))
                 + ReactionMoment(p, s.reactionBVertical, s.reactionD);
      var balance := MomentBalance(net);
      s.(tiltAngle := Max(-MaxTilt, Min(MaxTilt, net / MomentPerDegree)),
         momentBalance := balance, step3Complete := balance == Balanced)
  }

  /** `setSelectedPivot`: store the pivot, then `checkMomentBalance`. The
      pivot is never cleared, so the moment is always evaluated here. */
  function SetSelectedPivot(s: State, p: Pivot): (r: State)
    ensures r.selectedPivot == Selected(p)
    ensures MomentsEvaluated(r, r)
    ensures r.momentBalance == MomentBalance(NetMoment(p, s.massPosition, s.reactionBVertical, s.reactionD))
    ensures r.(selectedPivot := s.selectedPivot, tiltAngle := s.tiltAngle,
               momentBalance := s.momentBalance, step3Complete := s.step3Complete) == s
  {
    CheckMomentBalance(s.(selectedPivot := Selected(p)))
  }

  /** `setMassPosition`: store the position, then `checkMomentBalance`. */
  function SetMassPosition(s: State, position: real): (r: State)
    ensures r.massPosition == position
    ensures MomentsEvaluated(s.(massPosition := position), r)
    ensures -MaxTilt <= r.tiltAngle <= MaxTilt
    ensures r.(massPosition := s.massPosition, tiltAngle := s.tiltAngle,
               momentBalance := s.momentBalance, step3Complete := s.step3Complete) == s
  {
    CheckMomentBalance(s.(massPosition := position))
  }

  /** `resetSimulation`: every field back to its literal starting value; the
      reset literal is the creation literal, whatever state it is applied to. */
  function ResetSimulation(s: State): (r: State)
    ensures r == Initial()
  {
    State(
      InitialForces(), false,
      0.0, 50.0, 50.0, Balanced, Unbalanced, false,
      NoPivot, 40.0, 0.0, Unbalanced, false)
  }

  /** The starting state does not satisfy "derived fields are the evaluation
      of the inputs": the reactions balance vertically, yet the vertical
      classification reads unbalanced and step 2 incomplete until a reaction
      setter runs. */
  lemma InitialForceFieldsNotEvaluated()
    ensures VerticalBalance(Initial().reactionBVertical, Initial().reactionD) == Balanced
    ensures Initial().forceBalanceY == Unbalanced
    ensures !ForcesEvaluated(Initial(), Initial())
    ensures ForcesEvaluated(SetReactionD(Initial(), 50.0), SetReactionD(Initial(), 50.0))
    ensures SetReactionD(Initial(), 50.0).step2Complete
  {
  }

  /** A reaction setter leaves the tilt stale: with pivot C chosen, moving D
      from 50 to 60 should change the net moment from -1000 to -700, but the
      tilt stays at the old -10. */
  lemma ReactionSetterLeavesTiltStale()
    ensures SetSelectedPivot(Initial(), C).tiltAngle == -10.0
    ensures SetReactionD(SetSelectedPivot(Initial(), C), 60.0).tiltAngle == -10.0
    ensures Tilt(NetMoment(C, 40.0, 50.0, 60.0)) == -7.0
    ensures !MomentsEvaluated(SetReactionD(SetSelectedPivot(Initial(), C), 60.0),
                              SetReactionD(SetSelectedPivot(Initial(), C), 60.0))
  {
  }

  /** The learner's actions, one per store action. */
  datatype Action =
    | ClickForce(forceId: string)
    | SlideHorizontal(value: real)
    | SlideBVertical(value: real)
    | SlideD(value: real)
    | RecheckForces
    | PickPivot(p: Pivot)
    | SlideMass(position: real)
    | RecheckMoments
    | ResetStore

  function Apply(s: State, a: Action): State {
    match a
    case ClickForce(id) => IdentifyForce(s, id)
    case SlideHorizontal(v) => SetReactionBHorizontal(s, v)
    case SlideBVertical(v) => SetReactionBVertical(s, v)
    case SlideD(v) => SetReactionD(s, v)
    case RecheckForces => CheckForceBalance(s)
    case PickPivot(p) => SetSelectedPivot(s, p)
    case SlideMass(m) => SetMassPosition(s, m)
    case RecheckMoments => CheckMomentBalance(s)
    case ResetStore => ResetSimulation(s)
  }

  /** Apply the actions in order. */
  function Run(s: State, actions: seq<Action>): State
    decreases |actions|
  {
    if |actions| == 0 then s else Run(Apply(s, actions[0]), actions[1..])
  }

  /** What holds of every state the store can reach: the registry keeps its
      shape, step 1 is complete exactly when everything is identified, each
      completion flag agrees with its classifications, a missing pivot means
      a flat, unbalanced beam, and the tilt stays within the band. */
  predicate Consistent(s: State) {
    && IsRegistry(s.forces)
    && (s.step1Complete <==> AllIdentified(s.forces))
    && (s.step2Complete <==> s.forceBalanceX == Balanced && s.forceBalanceY == Balanced)
    && (s.step3Complete <==> s.momentBalance == Balanced)
    && (s.selectedPivot == NoPivot ==> s.tiltAngle == 0.0 && s.momentBalance == Unbalanced)
    && -MaxTilt <= s.tiltAngle <= MaxTilt
  }

  /** Every action keeps the store consistent. */
  lemma ApplyKeepsConsistent(s: State, a: Action)
    requires Consistent(s)
    ensures Consistent(Apply(s, a))
  {
  }

  /** Every sequence of actions keeps the store consistent. */
  lemma {:induction false} RunKeepsConsistent(s: State, actions: seq<Action>)
    requires Consistent(s)
    ensures Consistent(Run(s, actions))
    decreases |actions|
  {
    if |actions| > 0 {
      ApplyKeepsConsistent(s, actions[0]);
      RunKeepsConsistent(Apply(s, actions[0]), actions[1..]);
    }
  }

  /** Whatever the history, the store's completion flags are exactly the
      readings of the force registry and of the classifications. */
  lemma ReachableFlagsAgree(actions: seq<Action>)
    ensures var s := Run(Initial(), actions);
            && (s.step1Complete <==> AllIdentified(s.forces))
            && (s.step2Complete <==> s.forceBalanceX == Balanced && s.forceBalanceY == Balanced)
            && (s.step3Complete <==> s.momentBalance == Balanced)
            && -MaxTilt <= s.tiltAngle <= MaxTilt
  {
    RunKeepsConsistent(Initial(), actions);
  }

  /** In a reachable store, clicking an id that names no force, or names a
      force already identified, changes nothing at all. */
  lemma IdentifyForceNoOp(s: State, forceId: string)
    requires Consistent(s)
    requires forall i :: 0 <= i < |s.forces| && s.forces[i].id == forceId ==> s.forces[i].identified
    ensures IdentifyForce(s, forceId) == s
  {
    var r := IdentifyForce(s, forceId);
    assert forall i :: 0 <= i < |s.forces| ==> r.forces[i] == s.forces[i];
  }

  /** No action other than reset clears step 1 or a force's flag. */
  lemma ApplyLatches(s: State, a: Action)
    requires a != ResetStore
    ensures s.step1Complete ==> Apply(s, a).step1Complete
    ensures |Apply(s, a).forces| == |s.forces|
    ensures forall i :: 0 <= i < |s.forces| && s.forces[i].identified ==>
              Apply(s, a).forces[i].identified
  {
  }

  /** Once step 1 is complete it stays complete until the store is reset,
      and no force ever loses its `identified` flag. */
  lemma {:induction false} Step1Latched(s: State, actions: seq<Action>)
    requires forall i :: 0 <= i < |actions| ==> actions[i] != ResetStore
    ensures s.step1Complete ==> Run(s, actions).step1Complete
    ensures |Run(s, actions).forces| == |s.forces|
    ensures forall i :: 0 <= i < |s.forces| && s.forces[i].identified ==>
              Run(s, actions).forces[i].identified
    decreases |actions|
  {
    if |actions| > 0 {
      var s1 := Apply(s, actions[0]);
      ApplyLatches(s, actions[0]);
      Step1Latched(s1, actions[1..]);
      assert Run(s, actions) == Run(s1, actions[1..]);
    }
  }

  /** One click per id, in the given order. */
  function Clicks(ids: seq<string>): (acts: seq<Action>)
    ensures |acts| == |ids|
    ensures forall i :: 0 <= i < |ids| ==> acts[i] == ClickForce(ids[i])
  {
    if |ids| == 0 then [] else [ClickForce(ids[0])] + Clicks(ids[1..])
  }

  /** `after` raises, on top of `before`, exactly the flags of the forces
      whose id occurs in `ids`. */
  predicate RaisedFor(before: seq<Force>, after: seq<Force>, ids: seq<string>)
    requires |before| == |after|
  {
    forall i :: 0 <= i < |before| ==>
      after[i].identified == (before[i].identified || before[i].id in ids)
  }

  /** Clicking the first id, then the rest. */
  lemma RunClicksUnfold(s: State, ids: seq<string>)
    requires |ids| > 0
    ensures Run(s, Clicks(ids)) == Run(IdentifyForce(s, ids[0]), Clicks(ids[1..]))
  {
  }

  /** Raising the flags for the head and then for the tail raises them for
      the whole list. */
  lemma RaisedForCons(before: seq<Force>, mid: seq<Force>, after: seq<Force>, ids: seq<string>)
    requires |ids| > 0
    requires |before| == |mid| == |after|
    requires forall i :: 0 <= i < |before| ==> mid[i].id == before[i].id
    requires forall i :: 0 <= i < |before| ==>
               mid[i].identified == (before[i].identified || before[i].id == ids[0])
    requires RaisedFor(mid, after, ids[1..])
    ensures RaisedFor(before, after, ids)
  {
  }

  /** Clicking a list of forces raises the flag of every force whose id was
      clicked, and after at least one click step 1 is latched exactly when
      it was already or every force is identified. */
  lemma {:induction false} RunClicks(s: State, ids: seq<string>)
    requires IsRegistry(s.forces)
    ensures IsRegistry(Run(s, Clicks(ids)).forces)
    ensures RaisedFor(s.forces, Run(s, Clicks(ids)).forces, ids)
    ensures |ids| > 0 ==>
              (Run(s, Clicks(ids)).step1Complete <==> s.step1Complete || AllIdentified(Run(s, Clicks(ids)).forces))
    ensures |ids| == 0 ==> Run(s, Clicks(ids)) == s
    decreases |ids|
  {
    if |ids| > 0 {
      var s1 := IdentifyForce(s, ids[0]);
      IdentifyKeepsRegistry(s.forces, ids[0]);
      RunClicksUnfold(s, ids);
      RunClicks(s1, ids[1..]);
      var r := Run(s1, Clicks(ids[1..]));
      RaisedForCons(s.forces, s1.forces, r.forces, ids);
      if AllIdentified(s1.forces) {
        assert AllIdentified(r.forces);
      }
    }
  }

  /** From a fresh store, clicking forces completes step 1 exactly when each
      of the four catalogue ids has been clicked at least once, in any order
      and with any repeats or unknown ids mixed in. */
  lemma Step1CompleteIffAllClicked(ids: seq<string>)
    ensures Run(Initial(), Clicks(ids)).step1Complete
            <==> forall k :: 0 <= k < |ForceIds| ==> ForceIds[k] in ids
  {
    var s0 := Initial();
    InitialForcesShape();
    RunClicks(s0, ids);
    var r := Run(s0, Clicks(ids));
    assert RaisedFor(s0.forces, r.forces, ids);
    forall i | 0 <= i < |ForceIds|
      ensures r.forces[i].identified == (ForceIds[i] in ids)
    {
      assert s0.forces[i].id == ForceIds[i] && !s0.forces[i].identified;
    }
    if |ids| == 0 {
      assert !(ForceIds[0] in ids);
    }
  }
}
