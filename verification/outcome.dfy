/**
 The final risk figures of the ZEC dashboard: what the trader loses if the
 stop loss is hit and gains if the take profit is hit, for a plan sized by
 the `Sizing` module.

 The reference definition is the profit and loss of a long position whose
 whole value moves by a fraction of the price; the reported figures are
 proved to agree with it.
 */
module Outcome {
  import opened Sums
  import opened Sizing

  /** The target reward-to-risk multiple (1:3). */
  const RewardRatio: int := 3

  /** Profit (negative: loss) of a long position worth `value` when the price
      moves by the fraction `move` (0.01 is one percent up). */
  function PositionPnL(value: real, move: real): (r: real)
  {
    value * move
  }

  /** The two figures the dashboard reports after the plan. */
  datatype RiskStats = RiskStats(lossIfStopHit: real, gainIfTakeProfitHit: real)

  /** The reported figures for a risk amount: the loss is the risk amount
      itself and the gain is three times it. They are exactly what the sized
      position loses when price falls by the stop distance and gains when it
      rises by the reward multiple of the stop distance. */
  function FinalRiskStats(risk: real): (stats: RiskStats)
    ensures stats.lossIfStopHit == -PositionPnL(TotalPositionValue(risk), -StopLossDistance)
    ensures stats.gainIfTakeProfitHit == PositionPnL(TotalPositionValue(risk), RewardRatio as real * StopLossDistance)
    ensures stats.gainIfTakeProfitHit == RewardRatio as real * stats.lossIfStopHit
  {
    RiskStats(risk, risk * 3.0)
  }

  /** Summed over the three tranches, a fall of each tranche by the stop
      distance from its own entry price target loses exactly the risk amount
      the plan was sized for. The stop is taken per tranche, 2% below that
      tranche's target; for a positive risk and spot, a single stop at 2%
      below spot would lose less, because the later tranches enter below
      spot. */
  lemma PlanLossAtStopIsRisk(risk: real, spot: real)
    ensures var plan := ScaleInPlan(risk, spot);
      -Sum(seq(|plan.phases|, i requires 0 <= i < |plan.phases| =>
             PositionPnL(plan.phases[i].size, -StopLossDistance))) == risk
  {
    var plan := ScaleInPlan(risk, spot);
    var sizes := Sizes(plan.phases);
    var losses := seq(|plan.phases|, i requires 0 <= i < |plan.phases| =>
                      PositionPnL(plan.phases[i].size, -StopLossDistance));
    assert losses == Scale(sizes, -StopLossDistance);
    SumScale(sizes, -StopLossDistance);
  }
}
