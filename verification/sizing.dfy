/**
 The position-sizing and three-phase scale-in plan of the ZEC dashboard.

 From an acceptable loss (the risk amount, in USDT) and a stop loss placed a
 fixed fraction away from entry, the dashboard sizes the whole position so
 that hitting the stop loses exactly the risk amount, then splits that
 position into three tranches (25%, 35%, 40%) entered at the spot price and
 at two progressively lower price targets.

 Amounts are exact reals; the dashboard's spot price is an input.
 */
module Sizing {
  import opened Sums

  /** Distance from entry to the stop loss, as a fraction of the price (2%). */
  const StopLossDistance: real := 0.02

  /** Share of the total position value each phase buys, in phase order. */
  const Allocation: seq<real> := [0.25, 0.35, 0.40]

  /** Each phase's entry price target as a multiple of the spot price. */
  const EntryOffset: seq<real> := [1.0, 0.992, 0.985]

  /** When each phase is due, in minutes after the start (advisory labels). */
  const DelayMinutes: seq<nat> := [0, 45, 90]

  /** One row of the scale-in table. */
  datatype Phase = Phase(delayMinutes: nat, size: real, priceTarget: real)

  /** The whole plan: the risk it was sized for, the total position value,
      and the phases in order. */
  datatype Plan = Plan(risk: real, total: real, phases: seq<Phase>)

  /** The size column of a phase table. */
  function Sizes(phases: seq<Phase>): (r: seq<real>)
    ensures |r| == |phases|
    ensures forall i :: 0 <= i < |phases| ==> r[i] == phases[i].size
  {
    seq(|phases|, i requires 0 <= i < |phases| => phases[i].size)
  }

  /** The price-target column of a phase table. */
  function Targets(phases: seq<Phase>): (r: seq<real>)
    ensures |r| == |phases|
    ensures forall i :: 0 <= i < |phases| ==> r[i] == phases[i].priceTarget
  {
    seq(|phases|, i requires 0 <= i < |phases| => phases[i].priceTarget)
  }

  /** Position size = risk amount / stop-loss fraction: the one value for
      which a move of the whole position by the stop distance is the risk. */
  function TotalPositionValue(risk: real): (total: real)
    ensures total * StopLossDistance == risk
    ensures total > 0.0 <==> risk > 0.0
    ensures total >= 0.0 <==> risk >= 0.0
  {
    risk / StopLossDistance
  }

  /** The three allocation fractions make up the whole position. */
  lemma AllocationIsWhole()
    ensures Sum(Allocation) == 1.0
  {
    SumOfThree(0.25, 0.35, 0.40);
  }

  /** The sizes of the three phases for a given total position value. */
  function PhaseSizes(total: real): (sizes: seq<real>)
    ensures |sizes| == |Allocation|
    ensures Sum(sizes) == total
    ensures StrictlyIncreasing(sizes) <==> total > 0.0
    ensures NonNegative(sizes) <==> total >= 0.0
  {
    var sizes := Scale(Allocation, total);
    SumScale(Allocation, total);
    AllocationIsWhole();
    assert StrictlyIncreasing(sizes) ==> sizes[0] < sizes[1];
    assert NonNegative(sizes) ==> sizes[0] >= 0.0;
    sizes
  }

  /** The entry price target of each phase for a given spot price. */
  function PriceTargets(spot: real): (targets: seq<real>)
    ensures |targets| == |EntryOffset|
    ensures targets[0] == spot
    ensures StrictlyDecreasing(targets) <==> spot > 0.0
    ensures spot >= 0.0 ==> forall i :: 0 <= i < |targets| ==> targets[i] <= spot
  {
    var targets := Scale(EntryOffset, spot);
    assert StrictlyDecreasing(targets) ==> targets[0] > targets[1];
    targets
  }

  /** The scale-in plan the dashboard shows for a risk amount at a spot price. */
  function ScaleInPlan(risk: real, spot: real): (plan: Plan)
    ensures plan.risk == risk
    ensures plan.total == TotalPositionValue(risk)
    ensures Sizes(plan.phases) == PhaseSizes(plan.total)
    ensures Targets(plan.phases) == PriceTargets(spot)
    ensures plan.total * StopLossDistance == risk
    ensures |plan.phases| == 3
    ensures Sum(Sizes(plan.phases)) == plan.total
    ensures StrictlyIncreasing(Sizes(plan.phases)) <==> risk > 0.0
    ensures NonNegative(Sizes(plan.phases)) <==> risk >= 0.0
    ensures plan.phases[0].priceTarget == spot
    ensures StrictlyDecreasing(Targets(plan.phases)) <==> spot > 0.0
    ensures spot >= 0.0 ==> forall i :: 0 <= i < |plan.phases| ==> plan.phases[i].priceTarget <= spot
  {
    var total := TotalPositionValue(risk);
    var sizes := PhaseSizes(total);
    var targets := PriceTargets(spot);
    var phases := seq(3, i requires 0 <= i < 3 => Phase(DelayMinutes[i], sizes[i], targets[i]));
    assert Sizes(phases) == sizes;
    assert Targets(phases) == targets;
    Plan(risk, total, phases)
  }

  /** Each phase receives its fixed share of the total, at its fixed offset
      from the spot price, in the order start, +45 minutes, +90 minutes. */
  lemma PhasesFollowSchedule(risk: real, spot: real)
    ensures var plan := ScaleInPlan(risk, spot);
      forall i :: 0 <= i < 3 ==>
        && plan.phases[i].size == Allocation[i] * plan.total
        && plan.phases[i].priceTarget == EntryOffset[i] * spot
        && plan.phases[i].delayMinutes == DelayMinutes[i]
  {
  }

  /** The dashboard's comment gives a 500 USDT position for a 10 USDT risk
      with a 2% stop; the three phases split it 125 / 175 / 200. */
  lemma WorkedExample(spot: real)
    ensures ScaleInPlan(10.0, spot).total == 500.0
    ensures Sizes(ScaleInPlan(10.0, spot).phases) == [125.0, 175.0, 200.0]
  {
  }

  /** Sizing is linear in the risk amount: scaling the risk by `k` scales the
      total position value and every phase by `k`. */
  lemma SizingIsLinearInRisk(risk: real, k: real)
    ensures TotalPositionValue(k * risk) == k * TotalPositionValue(risk)
    ensures PhaseSizes(TotalPositionValue(k * risk)) == Scale(PhaseSizes(TotalPositionValue(risk)), k)
  {
    var t := TotalPositionValue(risk);
    var kt := TotalPositionValue(k * risk);
    TotalIsLinear(risk, k);
    assert kt == k * t;
    PhaseSizesAreLinear(t, k);
    assert PhaseSizes(kt) == PhaseSizes(k * t);
  }

  /** Helper: scaling the risk by `k` scales the total position value by `k`. */
  lemma TotalIsLinear(risk: real, k: real)
    ensures TotalPositionValue(k * risk) == k * TotalPositionValue(risk)
  {
  }

  /** Scaling the total by `k` scales every phase by `k`. */
  lemma PhaseSizesAreLinear(total: real, k: real)
    ensures PhaseSizes(k * total) == Scale(PhaseSizes(total), k)
  {
    ScaleTwice(Allocation, total, k);
  }
}
