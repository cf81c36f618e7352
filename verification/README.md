# ZEC dashboard position sizing, in Dafny

A model of the position-sizing and scale-in arithmetic of the ZEC trading
dashboard (`sta.py`). The trader enters an acceptable loss (the risk amount,
in USDT). With the stop loss fixed 2% from entry, the dashboard sizes the whole
position as risk ÷ 0.02, so that a 2% move against it loses exactly the risk.
It then splits the position into three phases: 25% at the start, 35% after
45 minutes and 40% after 90 minutes. Each phase gets an entry price target: the
spot price, 0.992 × spot and 0.985 × spot. Finally it reports the loss if the
stop is hit (the risk amount) and the gain if the take profit is hit (three
times the risk, the 1:3 reward ratio).

All amounts are exact `real`s. The spot price is a parameter of the model.

- `sums.dfy`, module `Sums`: sums and scalings of real sequences, and the
  lemma that scaling distributes over a sum.
- `sizing.dfy`, module `Sizing`: the constants (2% stop distance, 25/35/40
  allocation, ×1 / ×0.992 / ×0.985 entry offsets, 0/45/90 minute phases),
  the total position value, the phase sizes, the price targets and the plan.
- `outcome.dfy`, module `Outcome`: the reported loss and gain. They are
  related to a reference definition, the profit and loss of a long position
  whose value moves by a fraction of the price.

`sta.py` validates neither input: any risk amount the sidebar returns is
sized, including zero and negative values, and the stop distance is the
constant 0.02. So every function here is total over `real`. The ordering
properties are stated as "if and only if" facts about the sign of the risk
and of the spot price.

## Model

| member | source | states |
|---|---|---|
| `Sizing.TotalPositionValue` | sta.py:10-15 | The total position value times the 2% stop distance is exactly the risk amount, so a stop-distance move of the whole position loses the risk. The total is positive (non-negative) exactly when the risk is. |
| `Sizing.AllocationIsWhole` | sta.py:18-20 | The three allocation fractions 0.25, 0.35 and 0.40 add up to exactly 1. |
| `Sizing.PhaseSizes` | sta.py:18-20 | The three phase sizes add up to exactly the total position value. They strictly increase from phase 1 to phase 3 exactly when the total is positive. All are non-negative exactly when the total is. |
| `Sizing.PriceTargets` | sta.py:26 | The first target is the spot price. The three targets strictly decrease exactly when the spot price is positive. For a non-negative spot price, no target is above spot. |
| `Sizing.ScaleInPlan` | sta.py:10-26 | The plan has three phases whose sizes are the split of the total position value, and that total times the stop distance is the risk. The phase sizes sum to the total. They strictly increase iff the risk is positive and are non-negative iff the risk is non-negative. The price targets start at spot and strictly decrease iff spot is positive. |
| `Sizing.PhasesFollowSchedule` | sta.py:18-26 | Phase i of the plan receives allocation fraction i of the total, at entry offset i times spot, with delay i (0, 45, 90 minutes). |
| `Sizing.WorkedExample` | sta.py:14-20 | A risk of 10 with the 2% stop gives a 500 position, split 125 / 175 / 200. |
| `Sizing.PhaseSizesAreLinear` | sta.py:18-20 | Scaling the total by k scales every phase size by k. |
| `Sizing.SizingIsLinearInRisk` | sta.py:15-20 | Scaling the risk by k, for example doubling it, scales the total and every phase by k. |
| `Outcome.FinalRiskStats` | sta.py:31-32 | The reported loss (the risk amount) is what the sized position loses when the price falls by the stop distance. The reported gain (risk × 3) is what it gains when the price rises by the reward ratio times the stop distance. The gain is the reward ratio (3, from sta.py:3) times the loss. |
| `Outcome.PlanLossAtStopIsRisk` | sta.py:15-20 | If each of the three tranches falls by the stop distance from its own entry price target, the summed loss is exactly the risk amount. The stop is taken per tranche, not as one price below spot. |

## Left out

- Streamlit input and display calls: the sidebar number input, the button, the header, the table, and the info and success boxes (sta.py:2, 5, 22, 28, 31-32). These are presentation only. The risk amount is a parameter instead.
- The pandas table and the `:,.2f` currency formatting (sta.py:23-28). These are display rounding, not sizing.
- The indicator block (sta.py:6) that yields the spot price `zec_price`. Its code is not part of this model, so the spot price is a parameter of `Sizing.PriceTargets` and `Sizing.ScaleInPlan`.
- IEEE floating-point rounding of the Python arithmetic. The model uses exact reals. Because of this, identities such as "the phases sum to the total" hold exactly here, but only up to rounding in the program.
- The weighted average entry price, the stop-loss and take-profit prices, the flip order that closes an opposite position, the signal flags and the notification trigger. None of these appears in `sta.py`.
- The gain at sta.py:32 is computed with the literal 3, and the model does the same. The `target_reward_ratio` variable (sta.py:3) is unused there. The model proves that the two agree, but it does not model a change to one of them without the other.
