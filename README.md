# Workforce plan model

`pulp_implementation_final.py` builds an integer program for a workforce
plan. The plan hires permanent staff (jobs APS5 `A5`, APS6 `A6` and manager
`Man`) into two streams (analysts `Ana` and technicians `Tech`). It also
cross-trains staff between the streams, promotes them one rung up the ladder
(`A5 -> A6`, `A6 -> Man`) and buys contractors (`Con`, expert `ExC`). The
script minimises a cost objective under a staff budget, a services budget,
six workforce-balance rows and six stock ceilings. It then hands the program
to an external solver.

This project models the program the script builds, as a plan checker:

- A `Plan` gives a natural number to each of the 20 decision variables: 6
  hired, 6 trained, 4 promoted and 4 bought.
- The objective and both budget sums are functions of the plan.
- `Feasible` is the conjunction of all the script's constraints.

Modules:

- `Sums`: a finite sum over a list. This is the meaning of an `lpSum` over a
  generator.
- `Workforce`:
  - the enumerations and the variable key families;
  - the `Plan` record and its well-formedness;
  - the cost tables, budgets and surcharges;
  - the existing and target headcount tables.
- `Spending`:
  - the objective and the two budget sums, written as the script's nested
    generators (same loop variables, order and filter);
  - lemmas giving every variable's effective coefficient.
- `Constraints`:
  - the six balance rows and the six ceilings;
  - feasibility and optimality;
  - a feasible example plan.

The objective and the staff-budget generators range over loop variables that
the summed term does not use, so every decision variable counts several
times:

- The objective counts hiring and training 8 times, each promotion 4 times at
  the sum of all three promotion costs (334987), and the contractor spend 12
  times.
- The staff-budget sum counts hiring and training 4 times and each promotion
  2 times at that same sum.

The model keeps these multiplicities. The lemmas state them.

## Model

| member | source | states |
|---|---|---|
| `Workforce.Salary` | pulp_implementation_final.py:38-42 | the salary table: 91809, 107713 and 134865 for A5, A6 and Man |
| `Workforce.WellFormed` | pulp_implementation_final.py:14-20 | a plan has a value for exactly the keys the four variable comprehensions declare |
| `Workforce.Existing` | pulp_implementation_final.py:92-97 | the existing-headcount table, one entry per job or contractor type and stream |
| `Workforce.Target` | pulp_implementation_final.py:99-100 | the target-headcount table, one entry per level and stream |
| `Spending.Objective` | pulp_implementation_final.py:67-74 | the objective generator: sums over job, from_job, to_job, stream, from_stream, to_stream and contractor, in that order, with the script's filter |
| `Spending.StaffSpend` | pulp_implementation_final.py:78-84 | the staff-budget generator: the same loops without the contractor loop |
| `Spending.ServiceSpend` | pulp_implementation_final.py:86-89 | the services-budget generator over contractor type and stream |
| `Constraints.BalanceLhs` | pulp_implementation_final.py:102-112 | the left-hand side of each of the six balance rows, term by term |
| `Constraints.BalanceHolds` | pulp_implementation_final.py:102-112 | every balance row reaches its level target |
| `Constraints.CeilingLhs` | pulp_implementation_final.py:114-119 | the left-hand side of each of the six ceiling rows: existing staff minus training out |
| `Constraints.CeilingsHold` | pulp_implementation_final.py:114-119 | every ceiling row is non-negative |
| `Constraints.Feasible` | pulp_implementation_final.py:78-119 | both budgets, all six balance rows and all six ceilings hold |
| `Constraints.IsOptimal` | pulp_implementation_final.py:10 | a feasible plan whose objective is least among feasible plans, the meaning of the minimising model |
| `Constraints.ZeroPlanInfeasible` | pulp_implementation_final.py:92-102 | the all-zero plan costs nothing and is infeasible |
| `Workforce.HiredFamily` | pulp_implementation_final.py:14 | a hired variable exists for every (job, stream) pair, 6 in all |
| `Workforce.TrainedFamily` | pulp_implementation_final.py:16 | a trained variable exists exactly for (job, from, to) with from different from to, 6 in all |
| `Workforce.PromotedFamily` | pulp_implementation_final.py:18 | a promoted variable exists exactly for A5 to A6 and A6 to Man in each stream, 4 in all |
| `Workforce.BoughtFamily` | pulp_implementation_final.py:20 | a bought variable exists for every (contractor, stream) pair, 4 in all |
| `Workforce.WellFormedKeys` | pulp_implementation_final.py:14-20 | a well-formed plan is one whose four maps have exactly the script's key sets |
| `Workforce.NoSelfTransitions` | pulp_implementation_final.py:16-18 | no plan trains into its own stream or promotes into its own job |
| `Workforce.HiringCost` | pulp_implementation_final.py:44-48 | the hiring cost of a job is its salary plus the 5000 hiring surcharge |
| `Workforce.TrainingCost` | pulp_implementation_final.py:50-54 | the training cost of a job is its salary plus the 1000 training surcharge |
| `Workforce.PromotionCost` | pulp_implementation_final.py:56-60 | the promotion cost of a job is its salary plus the 200 promotion surcharge |
| `Workforce.ContractorCost` | pulp_implementation_final.py:62-65 | a contractor costs a flat 200000 and an expert contractor 450000 |
| `Spending.PromotionCostTotal` | pulp_implementation_final.py:56-60 | the promotion-cost table sums to 334987 over the three jobs |
| `Spending.ServiceSpendExpanded` | pulp_implementation_final.py:86-89 | the services sum counts each bought variable once, at its flat cost |
| `Spending.StaffSpendCoefficients` | pulp_implementation_final.py:78-84 | the staff sum is 4 × hiring spend + 4 × training spend + 2 × 334987 × the number of promotions |
| `Spending.ObjectiveIsBudgetSums` | pulp_implementation_final.py:67-89 | the objective is 2 × the staff sum + 12 × the services sum |
| `Spending.ObjectiveCoefficients` | pulp_implementation_final.py:67-74 | the objective is 8 × hiring spend + 8 × training spend + 4 × 334987 × the number of promotions + 12 × the services sum, with no constant term |
| `Spending.HireMarginal` | pulp_implementation_final.py:67-84 | one more hire adds 4 × its hiring cost to the staff sum and 8 × to the objective, and leaves the services sum unchanged |
| `Spending.TrainMarginal` | pulp_implementation_final.py:67-84 | one more training move adds 4 × its training cost to the staff sum and 8 × to the objective, and leaves the services sum unchanged |
| `Spending.PromoteMarginal` | pulp_implementation_final.py:67-84 | one more promotion of either step adds 2 × 334987 to the staff sum and 4 × 334987 to the objective |
| `Spending.BuyMarginal` | pulp_implementation_final.py:67-89 | one more bought contractor adds its flat cost to the services sum and 12 × that to the objective, and leaves the staff sum unchanged |
| `Constraints.PromotionFlows` | pulp_implementation_final.py:102-112 | nothing is promoted into A5 or out of Man; each of A5 and A6 promotes one step up |
| `Constraints.BalanceIsFlowConservation` | pulp_implementation_final.py:102-112 | each balance row is the level job's permanent stock after hires, training in and out, and promotion in and out, plus that row's contractor terms |
| `Constraints.PromotionsCancel` | pulp_implementation_final.py:102-112 | summed over the three jobs of a stream, promotions cancel out of the permanent stock |
| `Constraints.BoughtExpertTechUnused` | pulp_implementation_final.py:102-112 | bought expert technicians appear in no balance row |
| `Constraints.BoughtExpertAnaCountsTwice` | pulp_implementation_final.py:104-106 | one bought expert analyst raises both the level-2 and level-3 analyst rows, and no other row |
| `Constraints.CeilingsBoundTraining` | pulp_implementation_final.py:114-119 | the ceilings hold exactly when every training move is at most the existing staff of the job and stream it leaves |
| `Constraints.CeilingsIgnorePromotion` | pulp_implementation_final.py:114-119 | changing promotions never changes whether the ceilings hold |
| `Constraints.StaffSpendNumbers` | pulp_implementation_final.py:78-84 | the staff sum with every variable's coefficient as a number |
| `Constraints.StaffBudgetBounds` | pulp_implementation_final.py:78-84 | within the staff budget, each hiring, training and promotion variable has a numeric ceiling |
| `Constraints.ServicesBudgetBounds` | pulp_implementation_final.py:86-89 | within the services budget, at most 30 contractors and 13 experts are bought per stream |
| `Constraints.NoDecisionsCostNothing` | pulp_implementation_final.py:67-89 | a plan with no decisions has zero objective and zero budget sums |
| `Constraints.NoDecisionsInfeasible` | pulp_implementation_final.py:92-102 | a plan with no decisions is infeasible: its level-1 analyst row is 20 + 5 = 25, below the target of 40 |
| `Constraints.ExampleValuesFeasible` | pulp_implementation_final.py:67-119 | the example decisions meet every target exactly, spend 9348404 of staff budget and the whole services budget, cost 90696808, and are feasible |
| `Constraints.ExamplePlanFeasible` | pulp_implementation_final.py:78-119 | some plan is feasible |
| `Constraints.OptimalCostBound` | pulp_implementation_final.py:67-119 | an optimal plan's objective is at most 90696808 |

## Left out

- Solving (line 124): the CBC solver, its 60-second limit and its result
  statuses are external. `IsOptimal` only states what an optimal plan is.
- The report (lines 126–144), including the contractor loop that reuses the
  last value of `stream`. This is console output.
- The commented-out promotion limits (lines 121–122). They are not part of
  the program.
- The solver variable names (`hired_A5_Ana`, ...). They do not affect the
  program.
- Promotion out of a pool is bounded by no ceiling. The six ceilings (lines
  114–119) bound training out only, so a plan may promote staff that a pool
  does not hold. `CeilingsIgnorePromotion` states this.
- Configuration errors are not modelled. In the script, a headcount key
  missing from the tables would fail as a dictionary lookup while the model is
  built. Here the tables are total functions over the enumerations, so no key
  can be missing.
- The existing data, target data, costs and budgets are fixed at the script's
  values. Varying them for sensitivity analysis is not modelled.
