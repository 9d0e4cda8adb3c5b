/** The moment-balance arithmetic: fixed beam geometry, the net moment about
    the chosen pivot, the clamped tilt angle and the moment classification.
    Positions are percentages of the beam length; moments are force times
    percent. */
module Moments {
  import opened Tiers

  /** The three points a learner may take moments about. */
  datatype Pivot = B | C | D

  /** Magnitude of the point mass's weight. */
  const WeightMagnitude: real := 100.0

  /** Pin support B, beam centre C and roller support D along the beam. */
  const SupportB: real := 20.0
  const Center: real := 50.0
  const SupportD: real := 80.0

  /** Net moment per degree of tilt, and the largest tilt shown either way. */
  const MomentPerDegree: real := 100.0
  const MaxTilt: real := 10.0

  /** Moment classification thresholds. */
  const MomentTight: real := 50.0
  const MomentLoose: real := 150.0

  /** `pivotPositions[selectedPivot]` */
  function PivotPosition(p: Pivot): real {
    match p
    case B => SupportB
    case C => Center
    case D => SupportD
  }

  /** The reaction moment exactly as the store writes it, one branch per pivot. */
  function ReactionMoment(p: Pivot, reactionBVertical: real, reactionD: real): (m: real)
    ensures m == reactionBVertical * (SupportB - PivotPosition(p)) + reactionD * (SupportD - PivotPosition(p))
  {
    match p
    case B => reactionD * (SupportD - SupportB)
    case D => -reactionBVertical * (SupportD - SupportB)
    case C => reactionD * (SupportD - Center) - reactionBVertical * (Center - SupportB)
  }

  /** Weight moment plus reaction moment. Whatever the pivot, the store's
      formula adds each force's magnitude times its signed distance to the
      right of the pivot, without regard to the direction the force points. */
  function NetMoment(p: Pivot, massPosition: real, reactionBVertical: real, reactionD: real): (net: real)
    ensures net == WeightMagnitude * (massPosition - PivotPosition(p))
                   + reactionBVertical * (SupportB - PivotPosition(p))
                   + reactionD * (SupportD - PivotPosition(p))
  {
    WeightMagnitude * (massPosition - PivotPosition(p)) + ReactionMoment(p, reactionBVertical, reactionD)
  }

  /** `Math.max(-10, Math.min(10, netMoment / 100))`: proportional to the net
      moment inside the band, pinned to the nearer end outside it. */
  function Tilt(net: real): (t: real)
    ensures -MaxTilt <= t <= MaxTilt
    ensures -MaxTilt * MomentPerDegree <= net <= MaxTilt * MomentPerDegree ==> t == net / MomentPerDegree
    ensures net > MaxTilt * MomentPerDegree ==> t == MaxTilt
    ensures net < -MaxTilt * MomentPerDegree ==> t == -MaxTilt
  {
    Max(-MaxTilt, Min(MaxTilt, net / MomentPerDegree))
  }

  /** Moment classification of a net moment: |net| < 50 balanced,
      50 <= |net| < 150 almost, otherwise unbalanced. */
  function MomentBalance(net: real): (b: Balance)
    ensures b == Balanced <==> -MomentTight < net < MomentTight
    ensures b == Almost <==> MomentTight <= Abs(net) < MomentLoose
    ensures b == Unbalanced <==> MomentLoose <= Abs(net)
  {
    Classify(Abs(net), MomentTight, MomentLoose)
  }

  /** The tilt points the same way as the net moment and is zero only when
      the net moment is. */
  lemma TiltFollowsNetMoment(net: real)
    ensures Tilt(net) > 0.0 <==> net > 0.0
    ensures Tilt(net) < 0.0 <==> net < 0.0
    ensures Tilt(net) == 0.0 <==> net == 0.0
  {
  }

  /** The tilt never decreases as the net moment grows. */
  lemma TiltMonotone(n1: real, n2: real)
    requires n1 <= n2
    ensures Tilt(n1) <= Tilt(n2)
  {
  }

  /** Pivot B, mass at 40 and reaction D at 50: 2000 from the weight plus
      3000 from D makes 5000, far outside the band, so the tilt is exactly
      the maximum and the classification unbalanced. */
  lemma PivotBScenario(reactionBVertical: real)
    ensures NetMoment(B, 40.0, reactionBVertical, 50.0) == 5000.0
    ensures Tilt(NetMoment(B, 40.0, reactionBVertical, 50.0)) == MaxTilt
    ensures MomentBalance(NetMoment(B, 40.0, reactionBVertical, 50.0)) == Unbalanced
  {
  }

  /* ---------------------------------------------------------------------
     Sign of the reaction moments.

     The weight moment is counted positive when the mass sits right of the
     pivot, i.e. clockwise positive, and a positive tilt is drawn as a
     clockwise rotation. Under that convention an upward reaction right of
     the pivot turns the beam counter-clockwise and must count negative,
     yet `ReactionMoment` counts it positive (and an upward reaction left of
     the pivot negative). The definitions below state the moment with every
     force signed by the direction it acts in.
     --------------------------------------------------------------------- */

  /** Net clockwise moment about the pivot: the downward weight counts
      positive right of the pivot, the upward reactions at B and D count
      negative right of the pivot. */
  function ClockwiseNetMoment(p: Pivot, massPosition: real, reactionBVertical: real, reactionD: real): real {
    var x := PivotPosition(p);
    WeightMagnitude * (massPosition - x) - reactionBVertical * (SupportB - x) - reactionD * (SupportD - x)
  }

  /** The store's net moment is the clockwise moment of a beam whose
      reactions point down instead of up: every reaction term has the wrong
      sign. */
  lemma NetMomentFlipsReactions(p: Pivot, massPosition: real, reactionBVertical: real, reactionD: real)
    ensures NetMoment(p, massPosition, reactionBVertical, reactionD)
            == ClockwiseNetMoment(p, massPosition, -reactionBVertical, -reactionD)
  {
  }

  /** The beam with the mass at its centre and 50 at each support is in
      equilibrium, yet the store reports a net moment of 6000 about B and
      -6000 about D, both unbalanced; only the centre pivot reads balanced. */
  lemma NetMomentSignCounterexample()
    ensures ClockwiseNetMoment(B, 50.0, 50.0, 50.0) == 0.0
    ensures NetMoment(B, 50.0, 50.0, 50.0) == 6000.0
    ensures MomentBalance(NetMoment(B, 50.0, 50.0, 50.0)) == Unbalanced
    ensures NetMoment(D, 50.0, 50.0, 50.0) == -6000.0
    ensures MomentBalance(NetMoment(D, 50.0, 50.0, 50.0)) == Unbalanced
  {
  }

  /** When the vertical forces balance, the clockwise net moment is the same
      about every pivot, so "balanced" does not depend on which pivot the
      learner picks. */
  lemma ClockwiseMomentPivotIndependent(p: Pivot, q: Pivot, massPosition: real, reactionBVertical: real, reactionD: real)
    requires reactionBVertical + reactionD == WeightMagnitude
    ensures ClockwiseNetMoment(p, massPosition, reactionBVertical, reactionD)
            == ClockwiseNetMoment(q, massPosition, reactionBVertical, reactionD)
    ensures MomentBalance(ClockwiseNetMoment(p, massPosition, reactionBVertical, reactionD))
            == MomentBalance(ClockwiseNetMoment(q, massPosition, reactionBVertical, reactionD))
  {
  }

  /** With the mass at the centre and the weight shared equally by the two
      supports, the clockwise moment vanishes about every pivot. */
  lemma ClockwiseMomentBalancedAtCenter(p: Pivot)
    ensures ClockwiseNetMoment(p, Center, WeightMagnitude / 2.0, WeightMagnitude / 2.0) == 0.0
    ensures MomentBalance(ClockwiseNetMoment(p, Center, WeightMagnitude / 2.0, WeightMagnitude / 2.0)) == Balanced
  {
  }
}
