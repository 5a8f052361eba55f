/**
  The constraints of the workforce plan: the two budgets, the six hard-coded
  workforce-balance rows and the six training-only stock ceilings, and what a
  feasible and an optimal plan are.
*/
module Constraints {
  import opened Sums
  import opened Workforce
  import opened Spending

  // ---------------------------------------------------------------------------
  // Workforce balance
  // ---------------------------------------------------------------------------

  /**
    The left-hand side of the balance row for a target level and stream,
    term by term as the script writes the six rows. The contractor terms are
    irregular: both level-1 rows count contractors, the level-2 analyst row
    counts existing and bought experts, the level-3 analyst row only bought
    experts, the level-2 technician row only existing experts, and the
    level-3 technician row none.
  */
  function BalanceLhs(p: Plan, l: Level, s: Stream): int
    requires WellFormed(p)
  {
    match (l, s)
    case (L1, Ana) =>
      Existing(Permanent(A5), Ana) + Existing(Contracted(Con), Ana) + p.hired[(A5, Ana)]
      + p.trained[(A5, Tech, Ana)] + p.bought[(Con, Ana)]
      - p.trained[(A5, Ana, Tech)] - p.promoted[(A5, A6, Ana)]
    case (L2, Ana) =>
      Existing(Permanent(A6), Ana) + Existing(Contracted(ExC), Ana) + p.hired[(A6, Ana)]
      + p.trained[(A6, Tech, Ana)] + p.promoted[(A5, A6, Ana)] + p.bought[(ExC, Ana)]
      - p.trained[(A6, Ana, Tech)] - p.promoted[(A6, Man, Ana)]
    case (L3, Ana) =>
      Existing(Permanent(Man), Ana) + p.hired[(Man, Ana)] + p.trained[(Man, Tech, Ana)]
      + p.promoted[(A6, Man, Ana)] + p.bought[(ExC, Ana)]
      - p.trained[(Man, Ana, Tech)]
    case (L1, Tech) =>
      Existing(Permanent(A5), Tech) + Existing(Contracted(Con), Tech) + p.hired[(A5, Tech)]
      + p.trained[(A5, Ana, Tech)] + p.bought[(Con, Tech)]
      - p.trained[(A5, Tech, Ana)] - p.promoted[(A5, A6, Tech)]
    case (L2, Tech) =>
      Existing(Permanent(A6), Tech) + Existing(Contracted(ExC), Tech) + p.hired[(A6, Tech)]
      + p.trained[(A6, Ana, Tech)] + p.promoted[(A5, A6, Tech)]
      - p.trained[(A6, Tech, Ana)] - p.promoted[(A6, Man, Tech)]
    case (L3, Tech) =>
      Existing(Permanent(Man), Tech) + p.hired[(Man, Tech)] + p.trained[(Man, Ana, Tech)]
      + p.promoted[(A6, Man, Tech)]
      - p.trained[(Man, Tech, Ana)]
  }

  /** All six balance rows reach their targets. */
  predicate BalanceHolds(p: Plan)
    requires WellFormed(p)
  {
    forall l, s :: BalanceLhs(p, l, s) >= Target(l, s)
  }

  // The permanent staff flows that the rows are built from.

  /** Cross-training into a stream within a job. */
  function TrainingIn(p: Plan, j: Job, s: Stream): int
    requires WellFormed(p)
  {
    p.trained[(j, Other(s), s)]
  }

  /** Cross-training out of a stream within a job. */
  function TrainingOut(p: Plan, j: Job, s: Stream): int
    requires WellFormed(p)
  {
    p.trained[(j, s, Other(s))]
  }

  /** Promotions into a job within a stream, over every job promoted from. */
  function PromotionIn(p: Plan, j: Job, s: Stream): int
    requires WellFormed(p)
  {
    Sum(Jobs, fromJob => if IsPromotionStep(fromJob, j) then p.promoted[(fromJob, j, s)] else 0)
  }

  /** Promotions out of a job within a stream, over every job promoted to. */
  function PromotionOut(p: Plan, j: Job, s: Stream): int
    requires WellFormed(p)
  {
    Sum(Jobs, toJob => if IsPromotionStep(j, toJob) then p.promoted[(j, toJob, s)] else 0)
  }

  /** Permanent headcount of a job and stream after the plan: stock plus every flow in, minus every flow out. */
  function PermanentStock(p: Plan, j: Job, s: Stream): int
    requires WellFormed(p)
  {
    Existing(Permanent(j), s) + p.hired[(j, s)]
    + TrainingIn(p, j, s) - TrainingOut(p, j, s)
    + PromotionIn(p, j, s) - PromotionOut(p, j, s)
  }

  /** The contractor terms each balance row adds to the permanent headcount. */
  function ContractorSupport(p: Plan, l: Level, s: Stream): int
    requires WellFormed(p)
  {
    match (l, s)
    case (L1, _) => Existing(Contracted(Con), s) + p.bought[(Con, s)]
    case (L2, Ana) => Existing(Contracted(ExC), Ana) + p.bought[(ExC, Ana)]
    case (L3, Ana) => p.bought[(ExC, Ana)]
    case (L2, Tech) => Existing(Contracted(ExC), Tech)
    case (L3, Tech) => 0
  }

  /**
    The promotion flows of each job: nothing is promoted into A5 or out of
    Man, so the level-1 rows have no promotion-in and the level-3 rows no
    promotion-out.
  */
  lemma PromotionFlows(p: Plan, s: Stream)
    requires WellFormed(p)
    ensures PromotionIn(p, A5, s) == 0
    ensures PromotionIn(p, A6, s) == p.promoted[(A5, A6, s)]
    ensures PromotionIn(p, Man, s) == p.promoted[(A6, Man, s)]
    ensures PromotionOut(p, A5, s) == p.promoted[(A5, A6, s)]
    ensures PromotionOut(p, A6, s) == p.promoted[(A6, Man, s)]
    ensures PromotionOut(p, Man, s) == 0
  {
    PromotionInOf(p, A5, s);
    PromotionInOf(p, A6, s);
    PromotionInOf(p, Man, s);
    PromotionOutOf(p, A5, s);
    PromotionOutOf(p, A6, s);
    PromotionOutOf(p, Man, s);
  }

  lemma PromotionInOf(p: Plan, j: Job, s: Stream)
    requires WellFormed(p)
    ensures PromotionIn(p, j, s) ==
      (if IsPromotionStep(A5, j) then p.promoted[(A5, j, s)] else 0)
      + (if IsPromotionStep(A6, j) then p.promoted[(A6, j, s)] else 0)
      + (if IsPromotionStep(Man, j) then p.promoted[(Man, j, s)] else 0)
  {
    SumOverJobs(fromJob => if IsPromotionStep(fromJob, j) then p.promoted[(fromJob, j, s)] else 0);
  }

  lemma PromotionOutOf(p: Plan, j: Job, s: Stream)
    requires WellFormed(p)
    ensures PromotionOut(p, j, s) ==
      (if IsPromotionStep(j, A5) then p.promoted[(j, A5, s)] else 0)
      + (if IsPromotionStep(j, A6) then p.promoted[(j, A6, s)] else 0)
      + (if IsPromotionStep(j, Man) then p.promoted[(j, Man, s)] else 0)
  {
    SumOverJobs(toJob => if IsPromotionStep(j, toJob) then p.promoted[(j, toJob, s)] else 0);
  }

  /**
    Every balance row is the permanent headcount of its level's job after all
    flows, plus that row's contractor terms.
  */
  lemma BalanceIsFlowConservation(p: Plan, l: Level, s: Stream)
    requires WellFormed(p)
    ensures BalanceLhs(p, l, s) == PermanentStock(p, JobAt(l), s) + ContractorSupport(p, l, s)
  {
    PromotionFlows(p, s);
  }

  /** Promotions only move staff between jobs: over all jobs of a stream, they cancel. */
  lemma PromotionsCancel(p: Plan, s: Stream)
    requires WellFormed(p)
    ensures PermanentStock(p, A5, s) + PermanentStock(p, A6, s) + PermanentStock(p, Man, s) ==
      Sum(Jobs, j => Existing(Permanent(j), s) + p.hired[(j, s)] + TrainingIn(p, j, s) - TrainingOut(p, j, s))
  {
    PromotionFlows(p, s);
    SumOverJobs(j => Existing(Permanent(j), s) + p.hired[(j, s)] + TrainingIn(p, j, s) - TrainingOut(p, j, s));
  }

  /** Bought expert technicians appear in no balance row: changing them changes no row. */
  lemma BoughtExpertTechUnused(p: Plan, n: nat)
    requires WellFormed(p)
    ensures var q := p.(bought := p.bought[(ExC, Tech) := n]);
      WellFormed(q) && forall l, s :: BalanceLhs(q, l, s) == BalanceLhs(p, l, s)
  {
  }

  /** One more bought expert analyst raises both the level-2 and the level-3 analyst row. */
  lemma BoughtExpertAnaCountsTwice(p: Plan)
    requires WellFormed(p)
    ensures var q := p.(bought := p.bought[(ExC, Ana) := p.bought[(ExC, Ana)] + 1]);
      && WellFormed(q)
      && BalanceLhs(q, L2, Ana) == BalanceLhs(p, L2, Ana) + 1
      && BalanceLhs(q, L3, Ana) == BalanceLhs(p, L3, Ana) + 1
      && BalanceLhs(q, L1, Ana) == BalanceLhs(p, L1, Ana)
      && forall l :: BalanceLhs(q, l, Tech) == BalanceLhs(p, l, Tech)
  {
  }

  // ---------------------------------------------------------------------------
  // Stock ceilings
  // ---------------------------------------------------------------------------

  /** The left-hand side of a ceiling row: existing staff minus those trained out of the stream. */
  function CeilingLhs(p: Plan, j: Job, s: Stream): int
    requires WellFormed(p)
  {
    Existing(Permanent(j), s) - p.trained[(j, s, Other(s))]
  }

  /** All six ceiling rows hold. */
  predicate CeilingsHold(p: Plan)
    requires WellFormed(p)
  {
    forall j, s :: CeilingLhs(p, j, s) >= 0
  }

  /** The ceilings bound exactly the training moves, each by the existing staff it starts from. */
  lemma CeilingsBoundTraining(p: Plan)
    requires WellFormed(p)
    ensures CeilingsHold(p) <==>
      forall j, a, b :: a != b ==> p.trained[(j, a, b)] <= Existing(Permanent(j), a)
  {
    if CeilingsHold(p) {
      forall j, a, b | a != b ensures p.trained[(j, a, b)] <= Existing(Permanent(j), a) {
        assert b == Other(a);
        assert CeilingLhs(p, j, a) >= 0;
      }
    }
  }

  /** The ceilings look only at training: promotions never change whether they hold. */
  lemma CeilingsIgnorePromotion(p: Plan, promoted: map<(Job, Job, Stream), nat>)
    requires WellFormed(p)
    requires WellFormed(p.(promoted := promoted))
    ensures CeilingsHold(p.(promoted := promoted)) <==> CeilingsHold(p)
  {
    assert forall j, s :: CeilingLhs(p.(promoted := promoted), j, s) == CeilingLhs(p, j, s);
  }

  // ---------------------------------------------------------------------------
  // Feasibility and optimality
  // ---------------------------------------------------------------------------

  /** Every constraint of the model holds. */
  predicate Feasible(p: Plan) {
    && WellFormed(p)
    && StaffSpend(p) <= StaffBudget
    && ServiceSpend(p) <= ServicesBudget
    && BalanceHolds(p)
    && CeilingsHold(p)
  }

  /** A feasible plan of least objective value. */
  ghost predicate IsOptimal(p: Plan) {
    Feasible(p) && forall q :: Feasible(q) ==> Objective(p) <= Objective(q)
  }

  /** The staff-budget sum with every coefficient written out as a number. */
  lemma StaffSpendNumbers(p: Plan)
    requires WellFormed(p)
    ensures StaffSpend(p) ==
      387236 * (p.hired[(A5, Ana)] + p.hired[(A5, Tech)])
      + 450852 * (p.hired[(A6, Ana)] + p.hired[(A6, Tech)])
      + 559460 * (p.hired[(Man, Ana)] + p.hired[(Man, Tech)])
      + 371236 * (p.trained[(A5, Ana, Tech)] + p.trained[(A5, Tech, Ana)])
      + 434852 * (p.trained[(A6, Ana, Tech)] + p.trained[(A6, Tech, Ana)])
      + 543460 * (p.trained[(Man, Ana, Tech)] + p.trained[(Man, Tech, Ana)])
      + 669974 * (p.promoted[(A5, A6, Ana)] + p.promoted[(A5, A6, Tech)]
                  + p.promoted[(A6, Man, Ana)] + p.promoted[(A6, Man, Tech)])
  {
    StaffSpendCoefficients(p);
    HireSpendExpanded(p);
    TrainSpendExpanded(p);
    PromotedCountExpanded(p);
  }

  /**
    The staff budget alone bounds every hiring, training and promotion
    variable: at most 25, 22 and 17 hires per stream into A5, A6 and Man, 26,
    22 and 18 training moves, and 14 promotions.
  */
  lemma StaffBudgetBounds(p: Plan)
    requires WellFormed(p) && StaffSpend(p) <= StaffBudget
    ensures forall s :: p.hired[(A5, s)] <= 25 && p.hired[(A6, s)] <= 22 && p.hired[(Man, s)] <= 17
    ensures forall s :: p.trained[(A5, s, Other(s))] <= 26 && p.trained[(A6, s, Other(s))] <= 22
                     && p.trained[(Man, s, Other(s))] <= 18
    ensures forall a, b, s :: IsPromotionStep(a, b) ==> p.promoted[(a, b, s)] <= 14
  {
    StaffSpendNumbers(p);
  }

  /** The services budget alone bounds every bought variable: at most 30 contractors and 13 experts per stream. */
  lemma ServicesBudgetBounds(p: Plan)
    requires WellFormed(p) && ServiceSpend(p) <= ServicesBudget
    ensures forall s :: p.bought[(Con, s)] <= 30 && p.bought[(ExC, s)] <= 13
  {
    assert ServiceSpend(p) ==
      200000 * (p.bought[(Con, Ana)] + p.bought[(Con, Tech)])
      + 450000 * (p.bought[(ExC, Ana)] + p.bought[(ExC, Tech)]) by {
      ServiceSpendExpanded(p);
    }
    forall s ensures p.bought[(Con, s)] <= 30 && p.bought[(ExC, s)] <= 13 {
      if s == Ana { } else { }
    }
  }

  /** A plan from one function per variable family, defined on exactly the declared keys. */
  function MakePlan(hire: (Job, Stream) -> nat, train: (Job, Stream, Stream) -> nat,
                    promote: (Job, Job, Stream) -> nat, buy: (Contractor, Stream) -> nat): (p: Plan)
    ensures WellFormed(p)
    ensures forall j, s :: p.hired[(j, s)] == hire(j, s)
    ensures forall j, a, b :: a != b ==> p.trained[(j, a, b)] == train(j, a, b)
    ensures forall a, b, s :: IsPromotionStep(a, b) ==> p.promoted[(a, b, s)] == promote(a, b, s)
    ensures forall c, s :: p.bought[(c, s)] == buy(c, s)
  {
    HiredFamily();
    TrainedFamily();
    PromotedFamily();
    BoughtFamily();
    Plan(
      map k | k in HiredKeys :: hire(k.0, k.1),
      map k | k in TrainedKeys :: train(k.0, k.1, k.2),
      map k | k in PromotedKeys :: promote(k.0, k.1, k.2),
      map k | k in BoughtKeys :: buy(k.0, k.1))
  }

  /** A plan that hires, trains, promotes and buys nobody. */
  predicate NoDecisions(p: Plan) {
    && (forall k :: k in p.hired ==> p.hired[k] == 0)
    && (forall k :: k in p.trained ==> p.trained[k] == 0)
    && (forall k :: k in p.promoted ==> p.promoted[k] == 0)
    && (forall k :: k in p.bought ==> p.bought[k] == 0)
  }

  /** The plan that changes nothing. */
  function ZeroPlan(): (p: Plan)
    ensures WellFormed(p) && NoDecisions(p)
  {
    MakePlan((j, s) => 0, (j, a, b) => 0, (a, b, s) => 0, (c, s) => 0)
  }

  /** Without decisions there is no cost: the objective has no constant term. */
  lemma NoDecisionsCostNothing(p: Plan)
    requires WellFormed(p) && NoDecisions(p)
    ensures StaffSpend(p) == 0 && ServiceSpend(p) == 0
    ensures Objective(p) == 0
  {
    assert HireSpend(p) == 0 by { HireSpendExpanded(p); }
    assert TrainSpend(p) == 0 by { TrainSpendExpanded(p); }
    assert PromotedCount(p) == 0 by { PromotedCountExpanded(p); }
    assert ServiceSpend(p) == 0 by { ServiceSpendExpanded(p); }
    assert StaffSpend(p) == 0 by { StaffSpendCoefficients(p); }
    ObjectiveIsBudgetSums(p);
  }

  /**
    Doing nothing is infeasible: the level-1 analyst row then has only the 20
    existing A5 analysts and 5 existing contractors against a target of 40.
  */
  lemma NoDecisionsInfeasible(p: Plan)
    requires WellFormed(p) && NoDecisions(p)
    ensures BalanceLhs(p, L1, Ana) == 25 < Target(L1, Ana)
    ensures !Feasible(p)
  {
  }

  /** The all-zero plan in particular costs nothing and is infeasible. */
  lemma ZeroPlanInfeasible()
    ensures !Feasible(ZeroPlan()) && Objective(ZeroPlan()) == 0
  {
    NoDecisionsInfeasible(ZeroPlan());
    NoDecisionsCostNothing(ZeroPlan());
  }

  /** Hires of the example plan: 1 A6 analyst and 7 A5, 10 A6 and 3 Man technicians. */
  function ExampleHire(j: Job, s: Stream): nat {
    match s
    case Ana => if j == A6 then 1 else 0
    case Tech => (match j case A5 => 7 case A6 => 10 case Man => 3)
  }

  /** Purchases of the example plan: 15 contractor analysts, 6 contractor technicians, 4 expert analysts. */
  function ExampleBuy(c: Contractor, s: Stream): nat {
    match c
    case Con => if s == Ana then 15 else 6
    case ExC => if s == Ana then 4 else 0
  }

  /** The decisions of the example plan; nothing is trained or promoted. */
  predicate HasExampleValues(p: Plan)
    requires WellFormed(p)
  {
    && (forall j, s :: p.hired[(j, s)] == ExampleHire(j, s))
    && (forall k :: k in p.trained ==> p.trained[k] == 0)
    && (forall k :: k in p.promoted ==> p.promoted[k] == 0)
    && (forall c, s :: p.bought[(c, s)] == ExampleBuy(c, s))
  }

  /** The example plan: hires and purchases as above, with no training and no promotion. */
  function ExamplePlan(): (p: Plan)
    ensures WellFormed(p) && HasExampleValues(p)
  {
    MakePlan(ExampleHire, (j, a, b) => 0, (a, b, s) => 0, ExampleBuy)
  }

  lemma ExampleSpends(p: Plan)
    requires WellFormed(p) && HasExampleValues(p)
    ensures HireSpend(p) == 2337101 && TrainSpend(p) == 0
    ensures PromotedCount(p) == 0 && ServiceSpend(p) == ServicesBudget
  {
    HireSpendExpanded(p);
    TrainSpendExpanded(p);
    PromotedCountExpanded(p);
    ServiceSpendExpanded(p);
  }

  /** A plan with the example decisions meets every target exactly, spends the whole services budget, and is feasible. */
  lemma ExampleValuesFeasible(p: Plan)
    requires WellFormed(p) && HasExampleValues(p)
    ensures forall l, s :: BalanceLhs(p, l, s) == Target(l, s)
    ensures StaffSpend(p) == 9348404
    ensures ServiceSpend(p) == ServicesBudget
    ensures Objective(p) == 90696808
    ensures Feasible(p)
  {
    ExampleSpends(p);
    ObjectiveCoefficients(p);
    StaffSpendCoefficients(p);
  }

  /** The model has a feasible plan. */
  lemma ExamplePlanFeasible()
    ensures Feasible(ExamplePlan()) && Objective(ExamplePlan()) == 90696808
  {
    ExampleValuesFeasible(ExamplePlan());
  }

  /** The model's optimum costs at most the example plan. */
  lemma OptimalCostBound(p: Plan)
    requires IsOptimal(p)
    ensures Objective(p) <= 90696808
  {
    ExamplePlanFeasible();
  }
}
