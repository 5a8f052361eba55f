/**
  The objective and the two budget sums, written as the script's generator
  expressions: nested sums over the same loop variables, in the same order,
  with the same filter. Most loop variables do not index the summed term, so
  each decision variable is counted several times; the lemmas here give the
  effective coefficient of every variable.
*/
module Spending {
  import opened Sums
  import opened Workforce

  /** The staff-budget summand: one hiring, one training and one promotion term. */
  function StaffTerm(p: Plan, job: Job, fromJob: Job, toJob: Job,
                     stream: Stream, fromStream: Stream, toStream: Stream): int
    requires WellFormed(p)
    requires fromStream != toStream && IsPromotionStep(fromJob, toJob)
  {
    HiringCost(job) * p.hired[(job, stream)]
    + TrainingCost(job) * p.trained[(job, fromStream, toStream)]
    + PromotionCost(job) * p.promoted[(fromJob, toJob, stream)]
  }

  /** The objective summand: the staff summand plus one contractor term. */
  function ObjectiveTerm(p: Plan, job: Job, fromJob: Job, toJob: Job,
                         stream: Stream, fromStream: Stream, toStream: Stream, c: Contractor): int
    requires WellFormed(p)
    requires fromStream != toStream && IsPromotionStep(fromJob, toJob)
  {
    StaffTerm(p, job, fromJob, toJob, stream, fromStream, toStream) + ContractorCost(c) * p.bought[(c, stream)]
  }

  /**
    The objective: the sum over job, from_job and to_job of the inner loops
    over stream, from_stream, to_stream and contractor type.
  */
  function Objective(p: Plan): int
    requires WellFormed(p)
  {
    Sum(Jobs, job => Sum(Jobs, fromJob => Sum(Jobs, toJob => ObjectiveStep(p, job, fromJob, toJob))))
  }

  /** The objective's inner loops for one (job, from_job, to_job), with the generator's filter. */
  function ObjectiveStep(p: Plan, job: Job, fromJob: Job, toJob: Job): int
    requires WellFormed(p)
  {
    Sum(Streams, stream =>
    Sum(Streams, fromStream =>
    Sum(Streams, toStream =>
    Sum(Contractors, c =>
      if fromStream != toStream && IsPromotionStep(fromJob, toJob)
      then ObjectiveTerm(p, job, fromJob, toJob, stream, fromStream, toStream, c)
      else 0))))
  }

  /** The left-hand side of the staff-budget constraint: the same loops without the contractor loop. */
  function StaffSpend(p: Plan): int
    requires WellFormed(p)
  {
    Sum(Jobs, job => Sum(Jobs, fromJob => Sum(Jobs, toJob => StaffStep(p, job, fromJob, toJob))))
  }

  /** The staff sum's inner loops for one (job, from_job, to_job), with the generator's filter. */
  function StaffStep(p: Plan, job: Job, fromJob: Job, toJob: Job): int
    requires WellFormed(p)
  {
    Sum(Streams, stream =>
    Sum(Streams, fromStream =>
    Sum(Streams, toStream =>
      if fromStream != toStream && IsPromotionStep(fromJob, toJob)
      then StaffTerm(p, job, fromJob, toJob, stream, fromStream, toStream)
      else 0)))
  }

  /** The left-hand side of the services-budget constraint: each bought variable once, times its flat cost. */
  function ServiceSpend(p: Plan): int
    requires WellFormed(p)
  {
    Sum(Contractors, c => Sum(Streams, stream => ContractorCost(c) * p.bought[(c, stream)]))
  }

  // ---------------------------------------------------------------------------
  // Reference sums: every variable of a family exactly once
  // ---------------------------------------------------------------------------

  /** Hiring cost of the plan, each hired variable counted once. */
  function HireSpend(p: Plan): int
    requires WellFormed(p)
  {
    Sum(Jobs, j => Sum(Streams, s => HiringCost(j) * p.hired[(j, s)]))
  }

  /** Training cost of the plan, each trained variable counted once. */
  function TrainSpend(p: Plan): int
    requires WellFormed(p)
  {
    Sum(Jobs, j => Sum(Streams, a => Sum(Streams, b =>
      if a != b then TrainingCost(j) * p.trained[(j, a, b)] else 0)))
  }

  /** The number of promotions in the plan, each promoted variable counted once. */
  function PromotedCount(p: Plan): int
    requires WellFormed(p)
  {
    Sum(Jobs, a => Sum(Jobs, b => Sum(Streams, s =>
      if IsPromotionStep(a, b) then p.promoted[(a, b, s)] else 0)))
  }

  /** The sum of the promotion-cost table over all three jobs. */
  function PromotionCostTotal(): (r: int)
    ensures r == PromotionCost(A5) + PromotionCost(A6) + PromotionCost(Man)
    ensures r == 334987
  {
    SumOverJobs(PromotionCost);
    Sum(Jobs, PromotionCost)
  }

  /** Hires into a job over both streams. */
  function HiredIn(p: Plan, job: Job): int
    requires WellFormed(p)
  {
    p.hired[(job, Ana)] + p.hired[(job, Tech)]
  }

  /** Cross-training moves within a job, in both directions. */
  function TrainedIn(p: Plan, job: Job): int
    requires WellFormed(p)
  {
    p.trained[(job, Ana, Tech)] + p.trained[(job, Tech, Ana)]
  }

  /** Promotions along one ladder step, over both streams. */
  function PromotedIn(p: Plan, fromJob: Job, toJob: Job): int
    requires WellFormed(p)
    requires IsPromotionStep(fromJob, toJob)
  {
    p.promoted[(fromJob, toJob, Ana)] + p.promoted[(fromJob, toJob, Tech)]
  }

  /** Contractor spend in one stream, over both contractor types. */
  function ContractorSpendIn(p: Plan, stream: Stream): int
    requires WellFormed(p)
  {
    ContractorCost(Con) * p.bought[(Con, stream)] + ContractorCost(ExC) * p.bought[(ExC, stream)]
  }

  lemma HireSpendExpanded(p: Plan)
    requires WellFormed(p)
    ensures HireSpend(p) ==
      HiringCost(A5) * HiredIn(p, A5) + HiringCost(A6) * HiredIn(p, A6) + HiringCost(Man) * HiredIn(p, Man)
  {
    SumOverJobs(j => Sum(Streams, s => HiringCost(j) * p.hired[(j, s)]));
    SumOverStreams(s => HiringCost(A5) * p.hired[(A5, s)]);
    SumOverStreams(s => HiringCost(A6) * p.hired[(A6, s)]);
    SumOverStreams(s => HiringCost(Man) * p.hired[(Man, s)]);
  }

  lemma TrainSpendForJob(p: Plan, j: Job)
    requires WellFormed(p)
    ensures Sum(Streams, a => Sum(Streams, b => if a != b then TrainingCost(j) * p.trained[(j, a, b)] else 0))
      == TrainingCost(j) * TrainedIn(p, j)
  {
    SumOverStreams(a => Sum(Streams, b => if a != b then TrainingCost(j) * p.trained[(j, a, b)] else 0));
    SumOverStreams(b => if Ana != b then TrainingCost(j) * p.trained[(j, Ana, b)] else 0);
    SumOverStreams(b => if Tech != b then TrainingCost(j) * p.trained[(j, Tech, b)] else 0);
  }

  lemma TrainSpendExpanded(p: Plan)
    requires WellFormed(p)
    ensures TrainSpend(p) ==
      TrainingCost(A5) * TrainedIn(p, A5) + TrainingCost(A6) * TrainedIn(p, A6) + TrainingCost(Man) * TrainedIn(p, Man)
  {
    SumOverJobs(j => Sum(Streams, a => Sum(Streams, b =>
      if a != b then TrainingCost(j) * p.trained[(j, a, b)] else 0)));
    TrainSpendForJob(p, A5);
    TrainSpendForJob(p, A6);
    TrainSpendForJob(p, Man);
  }

  lemma PromotedCountStep(p: Plan, a: Job, b: Job)
    requires WellFormed(p)
    ensures Sum(Streams, s => if IsPromotionStep(a, b) then p.promoted[(a, b, s)] else 0)
      == if IsPromotionStep(a, b) then PromotedIn(p, a, b) else 0
  {
    SumOverStreams(s => if IsPromotionStep(a, b) then p.promoted[(a, b, s)] else 0);
  }

  lemma PromotedCountFrom(p: Plan, a: Job)
    requires WellFormed(p)
    ensures Sum(Jobs, b => Sum(Streams, s => if IsPromotionStep(a, b) then p.promoted[(a, b, s)] else 0))
      == if a == A5 then PromotedIn(p, A5, A6) else if a == A6 then PromotedIn(p, A6, Man) else 0
  {
    SumOverJobs(b => Sum(Streams, s => if IsPromotionStep(a, b) then p.promoted[(a, b, s)] else 0));
    PromotedCountStep(p, a, A5);
    PromotedCountStep(p, a, A6);
    PromotedCountStep(p, a, Man);
  }

  lemma PromotedCountExpanded(p: Plan)
    requires WellFormed(p)
    ensures PromotedCount(p) == PromotedIn(p, A5, A6) + PromotedIn(p, A6, Man)
  {
    SumOverJobs(a => Sum(Jobs, b => Sum(Streams, s =>
      if IsPromotionStep(a, b) then p.promoted[(a, b, s)] else 0)));
    PromotedCountFrom(p, A5);
    PromotedCountFrom(p, A6);
    PromotedCountFrom(p, Man);
  }

  lemma ServiceSpendExpanded(p: Plan)
    requires WellFormed(p)
    ensures ServiceSpend(p) == ContractorSpendIn(p, Ana) + ContractorSpendIn(p, Tech)
  {
    SumOverContractors(c => Sum(Streams, stream => ContractorCost(c) * p.bought[(c, stream)]));
    SumOverStreams(stream => ContractorCost(Con) * p.bought[(Con, stream)]);
    SumOverStreams(stream => ContractorCost(ExC) * p.bought[(ExC, stream)]);
  }

  // ---------------------------------------------------------------------------
  // The stream loops, one level at a time
  // ---------------------------------------------------------------------------

  /** Fixed from_stream: the one to_stream that passes the filter is the other stream. */
  lemma StaffOverToStreams(p: Plan, job: Job, fromJob: Job, toJob: Job, stream: Stream, fromStream: Stream)
    requires WellFormed(p)
    ensures Sum(Streams, toStream =>
        if fromStream != toStream && IsPromotionStep(fromJob, toJob)
        then StaffTerm(p, job, fromJob, toJob, stream, fromStream, toStream)
        else 0)
      == if IsPromotionStep(fromJob, toJob)
         then StaffTerm(p, job, fromJob, toJob, stream, fromStream, Other(fromStream))
         else 0
  {
    SumOverStreams(toStream =>
        if fromStream != toStream && IsPromotionStep(fromJob, toJob)
        then StaffTerm(p, job, fromJob, toJob, stream, fromStream, toStream)
        else 0);
  }

  /** Fixed stream: the two ordered stream pairs. */
  lemma StaffOverStreamPairs(p: Plan, job: Job, fromJob: Job, toJob: Job, stream: Stream)
    requires WellFormed(p)
    ensures Sum(Streams, fromStream => Sum(Streams, toStream =>
        if fromStream != toStream && IsPromotionStep(fromJob, toJob)
        then StaffTerm(p, job, fromJob, toJob, stream, fromStream, toStream)
        else 0))
      == if IsPromotionStep(fromJob, toJob)
         then StaffTerm(p, job, fromJob, toJob, stream, Ana, Tech) + StaffTerm(p, job, fromJob, toJob, stream, Tech, Ana)
         else 0
  {
    SumOverStreams(fromStream => Sum(Streams, toStream =>
        if fromStream != toStream && IsPromotionStep(fromJob, toJob)
        then StaffTerm(p, job, fromJob, toJob, stream, fromStream, toStream)
        else 0));
    StaffOverToStreams(p, job, fromJob, toJob, stream, Ana);
    StaffOverToStreams(p, job, fromJob, toJob, stream, Tech);
  }

  /** The staff loops for fixed jobs: both streams, both ordered stream pairs. */
  lemma StaffStepTerms(p: Plan, job: Job, fromJob: Job, toJob: Job)
    requires WellFormed(p)
    ensures StaffStep(p, job, fromJob, toJob)
      == if IsPromotionStep(fromJob, toJob)
         then StaffTerm(p, job, fromJob, toJob, Ana, Ana, Tech) + StaffTerm(p, job, fromJob, toJob, Ana, Tech, Ana)
              + StaffTerm(p, job, fromJob, toJob, Tech, Ana, Tech) + StaffTerm(p, job, fromJob, toJob, Tech, Tech, Ana)
         else 0
  {
    SumOverStreams(stream => Sum(Streams, fromStream => Sum(Streams, toStream =>
        if fromStream != toStream && IsPromotionStep(fromJob, toJob)
        then StaffTerm(p, job, fromJob, toJob, stream, fromStream, toStream)
        else 0)));
    StaffOverStreamPairs(p, job, fromJob, toJob, Ana);
    StaffOverStreamPairs(p, job, fromJob, toJob, Tech);
  }

  /** Fixed all loops but the contractor type: the contractor loop doubles the staff summand. */
  lemma ObjectiveOverContractors(p: Plan, job: Job, fromJob: Job, toJob: Job,
                                 stream: Stream, fromStream: Stream, toStream: Stream)
    requires WellFormed(p)
    ensures Sum(Contractors, c =>
        if fromStream != toStream && IsPromotionStep(fromJob, toJob)
        then ObjectiveTerm(p, job, fromJob, toJob, stream, fromStream, toStream, c)
        else 0)
      == if fromStream != toStream && IsPromotionStep(fromJob, toJob)
         then 2 * StaffTerm(p, job, fromJob, toJob, stream, fromStream, toStream) + ContractorSpendIn(p, stream)
         else 0
  {
    SumOverContractors(c =>
        if fromStream != toStream && IsPromotionStep(fromJob, toJob)
        then ObjectiveTerm(p, job, fromJob, toJob, stream, fromStream, toStream, c)
        else 0);
  }

  /** Fixed from_stream: only the other stream passes the filter. */
  lemma ObjectiveOverToStreams(p: Plan, job: Job, fromJob: Job, toJob: Job, stream: Stream, fromStream: Stream)
    requires WellFormed(p)
    ensures Sum(Streams, toStream => Sum(Contractors, c =>
        if fromStream != toStream && IsPromotionStep(fromJob, toJob)
        then ObjectiveTerm(p, job, fromJob, toJob, stream, fromStream, toStream, c)
        else 0))
      == if IsPromotionStep(fromJob, toJob)
         then 2 * StaffTerm(p, job, fromJob, toJob, stream, fromStream, Other(fromStream)) + ContractorSpendIn(p, stream)
         else 0
  {
    SumOverStreams(toStream => Sum(Contractors, c =>
        if fromStream != toStream && IsPromotionStep(fromJob, toJob)
        then ObjectiveTerm(p, job, fromJob, toJob, stream, fromStream, toStream, c)
        else 0));
    ObjectiveOverContractors(p, job, fromJob, toJob, stream, fromStream, Ana);
    ObjectiveOverContractors(p, job, fromJob, toJob, stream, fromStream, Tech);
  }

  /** Fixed stream: the two ordered stream pairs. */
  lemma ObjectiveOverStreamPairs(p: Plan, job: Job, fromJob: Job, toJob: Job, stream: Stream)
    requires WellFormed(p)
    ensures Sum(Streams, fromStream => Sum(Streams, toStream => Sum(Contractors, c =>
        if fromStream != toStream && IsPromotionStep(fromJob, toJob)
        then ObjectiveTerm(p, job, fromJob, toJob, stream, fromStream, toStream, c)
        else 0)))
      == if IsPromotionStep(fromJob, toJob)
         then 2 * StaffTerm(p, job, fromJob, toJob, stream, Ana, Tech)
              + 2 * StaffTerm(p, job, fromJob, toJob, stream, Tech, Ana)
              + 2 * ContractorSpendIn(p, stream)
         else 0
  {
    SumOverStreams(fromStream => Sum(Streams, toStream => Sum(Contractors, c =>
        if fromStream != toStream && IsPromotionStep(fromJob, toJob)
        then ObjectiveTerm(p, job, fromJob, toJob, stream, fromStream, toStream, c)
        else 0)));
    ObjectiveOverToStreams(p, job, fromJob, toJob, stream, Ana);
    ObjectiveOverToStreams(p, job, fromJob, toJob, stream, Tech);
  }

  /** The objective loops for fixed jobs: both streams, both ordered stream pairs, both contractor types. */
  lemma ObjectiveStepTerms(p: Plan, job: Job, fromJob: Job, toJob: Job)
    requires WellFormed(p)
    ensures ObjectiveStep(p, job, fromJob, toJob)
      == if IsPromotionStep(fromJob, toJob)
         then 2 * StaffTerm(p, job, fromJob, toJob, Ana, Ana, Tech) + 2 * StaffTerm(p, job, fromJob, toJob, Ana, Tech, Ana)
              + 2 * StaffTerm(p, job, fromJob, toJob, Tech, Ana, Tech) + 2 * StaffTerm(p, job, fromJob, toJob, Tech, Tech, Ana)
              + 2 * ContractorSpendIn(p, Ana) + 2 * ContractorSpendIn(p, Tech)
         else 0
  {
    SumOverStreams(stream => Sum(Streams, fromStream => Sum(Streams, toStream => Sum(Contractors, c =>
        if fromStream != toStream && IsPromotionStep(fromJob, toJob)
        then ObjectiveTerm(p, job, fromJob, toJob, stream, fromStream, toStream, c)
        else 0))));
    ObjectiveOverStreamPairs(p, job, fromJob, toJob, Ana);
    ObjectiveOverStreamPairs(p, job, fromJob, toJob, Tech);
  }

  // ---------------------------------------------------------------------------
  // Effective coefficients of the staff-budget sum
  // ---------------------------------------------------------------------------

  /** Fixed job, from_job and to_job: two ordered stream pairs pass the filter, each in both streams. */
  lemma StaffStepValue(p: Plan, job: Job, fromJob: Job, toJob: Job)
    requires WellFormed(p)
    ensures StaffStep(p, job, fromJob, toJob)
      == if IsPromotionStep(fromJob, toJob)
         then 2 * (HiringCost(job) * p.hired[(job, Ana)])
              + 2 * (HiringCost(job) * p.hired[(job, Tech)])
              + 2 * (TrainingCost(job) * p.trained[(job, Ana, Tech)])
              + 2 * (TrainingCost(job) * p.trained[(job, Tech, Ana)])
              + 2 * (PromotionCost(job) * p.promoted[(fromJob, toJob, Ana)])
              + 2 * (PromotionCost(job) * p.promoted[(fromJob, toJob, Tech)])
         else 0
  {
    StaffStepTerms(p, job, fromJob, toJob);
  }

  /**
    What the loops below one `job` contribute to the staff sum: its hiring and
    training terms 4 times each, every promoted variable twice at this job's
    promotion cost.
  */
  function StaffShare(p: Plan, job: Job): int
    requires WellFormed(p)
  {
    4 * (HiringCost(job) * p.hired[(job, Ana)])
    + 4 * (HiringCost(job) * p.hired[(job, Tech)])
    + 4 * (TrainingCost(job) * p.trained[(job, Ana, Tech)])
    + 4 * (TrainingCost(job) * p.trained[(job, Tech, Ana)])
    + 2 * (PromotionCost(job) * p.promoted[(A5, A6, Ana)])
    + 2 * (PromotionCost(job) * p.promoted[(A5, A6, Tech)])
    + 2 * (PromotionCost(job) * p.promoted[(A6, Man, Ana)])
    + 2 * (PromotionCost(job) * p.promoted[(A6, Man, Tech)])
  }

  /** Fixed job: the from_job and to_job loops keep the two ladder steps. */
  lemma StaffForJob(p: Plan, job: Job)
    requires WellFormed(p)
    ensures Sum(Jobs, fromJob => Sum(Jobs, toJob => StaffStep(p, job, fromJob, toJob))) == StaffShare(p, job)
  {
    SumOverJobs(fromJob => Sum(Jobs, toJob => StaffStep(p, job, fromJob, toJob)));
    SumOverJobs(toJob => StaffStep(p, job, A5, toJob));
    SumOverJobs(toJob => StaffStep(p, job, A6, toJob));
    SumOverJobs(toJob => StaffStep(p, job, Man, toJob));
    StaffStepValue(p, job, A5, A5);
    StaffStepValue(p, job, A5, A6);
    StaffStepValue(p, job, A5, Man);
    StaffStepValue(p, job, A6, A5);
    StaffStepValue(p, job, A6, A6);
    StaffStepValue(p, job, A6, Man);
    StaffStepValue(p, job, Man, A5);
    StaffStepValue(p, job, Man, A6);
    StaffStepValue(p, job, Man, Man);
  }

  /** The staff-budget sum is the three jobs' shares. */
  lemma StaffSpendByJob(p: Plan)
    requires WellFormed(p)
    ensures StaffSpend(p) == StaffShare(p, A5) + StaffShare(p, A6) + StaffShare(p, Man)
  {
    SumOverJobs(job => Sum(Jobs, fromJob => Sum(Jobs, toJob => StaffStep(p, job, fromJob, toJob))));
    StaffForJob(p, A5);
    StaffForJob(p, A6);
    StaffForJob(p, Man);
  }

  /** The three jobs' shares, collected per variable family. */
  lemma StaffSharesCollected(p: Plan)
    requires WellFormed(p)
    ensures StaffShare(p, A5) + StaffShare(p, A6) + StaffShare(p, Man) ==
      4 * (HiringCost(A5) * HiredIn(p, A5) + HiringCost(A6) * HiredIn(p, A6) + HiringCost(Man) * HiredIn(p, Man))
      + 4 * (TrainingCost(A5) * TrainedIn(p, A5) + TrainingCost(A6) * TrainedIn(p, A6) + TrainingCost(Man) * TrainedIn(p, Man))
      + 2 * PromotionCostTotal() * (PromotedIn(p, A5, A6) + PromotedIn(p, A6, Man))
  {
  }

  /**
    The staff-budget sum counts every hiring and training term 4 times and
    every promoted variable 2 times, each time at the sum of all three
    promotion costs (the generator's promotion term is priced by `job`, not
    by the promotion's own jobs).
  */
  lemma StaffSpendCoefficients(p: Plan)
    requires WellFormed(p)
    ensures StaffSpend(p) == 4 * HireSpend(p) + 4 * TrainSpend(p) + 2 * PromotionCostTotal() * PromotedCount(p)
  {
    StaffSpendByJob(p);
    StaffSharesCollected(p);
    HireSpendExpanded(p);
    TrainSpendExpanded(p);
    PromotedCountExpanded(p);
  }

  // ---------------------------------------------------------------------------
  // The objective against the two budget sums
  // ---------------------------------------------------------------------------

  /** Fixed job, from_job and to_job: twice the staff loops, plus the contractor spend once per stream pair. */
  lemma ObjectiveStepValue(p: Plan, job: Job, fromJob: Job, toJob: Job)
    requires WellFormed(p)
    ensures ObjectiveStep(p, job, fromJob, toJob)
      == 2 * StaffStep(p, job, fromJob, toJob)
         + if IsPromotionStep(fromJob, toJob) then 2 * (ContractorSpendIn(p, Ana) + ContractorSpendIn(p, Tech)) else 0
  {
    ObjectiveStepTerms(p, job, fromJob, toJob);
    StaffStepTerms(p, job, fromJob, toJob);
  }

  /** Fixed job: the from_job and to_job loops keep the two ladder steps. */
  lemma ObjectiveForJob(p: Plan, job: Job)
    requires WellFormed(p)
    ensures Sum(Jobs, fromJob => Sum(Jobs, toJob => ObjectiveStep(p, job, fromJob, toJob)))
      == 2 * Sum(Jobs, fromJob => Sum(Jobs, toJob => StaffStep(p, job, fromJob, toJob)))
         + 4 * (ContractorSpendIn(p, Ana) + ContractorSpendIn(p, Tech))
  {
    SumOverJobs(fromJob => Sum(Jobs, toJob => ObjectiveStep(p, job, fromJob, toJob)));
    SumOverJobs(toJob => ObjectiveStep(p, job, A5, toJob));
    SumOverJobs(toJob => ObjectiveStep(p, job, A6, toJob));
    SumOverJobs(toJob => ObjectiveStep(p, job, Man, toJob));
    SumOverJobs(fromJob => Sum(Jobs, toJob => StaffStep(p, job, fromJob, toJob)));
    SumOverJobs(toJob => StaffStep(p, job, A5, toJob));
    SumOverJobs(toJob => StaffStep(p, job, A6, toJob));
    SumOverJobs(toJob => StaffStep(p, job, Man, toJob));
    ObjectiveStepValue(p, job, A5, A5);
    ObjectiveStepValue(p, job, A5, A6);
    ObjectiveStepValue(p, job, A5, Man);
    ObjectiveStepValue(p, job, A6, A5);
    ObjectiveStepValue(p, job, A6, A6);
    ObjectiveStepValue(p, job, A6, Man);
    ObjectiveStepValue(p, job, Man, A5);
    ObjectiveStepValue(p, job, Man, A6);
    ObjectiveStepValue(p, job, Man, Man);
  }

  /**
    The objective counts each staff-budget term twice (once per contractor
    type) and the services-budget sum 12 times (once per job and ladder step
    and ordered stream pair).
  */
  lemma ObjectiveIsBudgetSums(p: Plan)
    requires WellFormed(p)
    ensures Objective(p) == 2 * StaffSpend(p) + 12 * ServiceSpend(p)
  {
    SumOverJobs(job => Sum(Jobs, fromJob => Sum(Jobs, toJob => ObjectiveStep(p, job, fromJob, toJob))));
    SumOverJobs(job => Sum(Jobs, fromJob => Sum(Jobs, toJob => StaffStep(p, job, fromJob, toJob))));
    ObjectiveForJob(p, A5);
    ObjectiveForJob(p, A6);
    ObjectiveForJob(p, Man);
    ServiceSpendExpanded(p);
  }

  /**
    The effective objective: hiring and training 8 times over, every
    promoted variable 4 times at the sum of all three promotion costs, the
    contractor spend 12 times over, and no constant term.
  */
  lemma ObjectiveCoefficients(p: Plan)
    requires WellFormed(p)
    ensures Objective(p) ==
      8 * HireSpend(p) + 8 * TrainSpend(p) + 4 * PromotionCostTotal() * PromotedCount(p) + 12 * ServiceSpend(p)
  {
    ObjectiveIsBudgetSums(p);
    StaffSpendCoefficients(p);
  }

  // ---------------------------------------------------------------------------
  // The price of one more unit of each decision
  // ---------------------------------------------------------------------------

  /** Between two plans, the staff-budget sum moves by its coefficients times the reference sums. */
  lemma StaffShift(p: Plan, q: Plan)
    requires WellFormed(p) && WellFormed(q)
    ensures StaffSpend(q) - StaffSpend(p) ==
      4 * (HireSpend(q) - HireSpend(p)) + 4 * (TrainSpend(q) - TrainSpend(p))
      + 2 * 334987 * (PromotedCount(q) - PromotedCount(p))
  {
    StaffSpendCoefficients(p);
    StaffSpendCoefficients(q);
  }

  /** Between two plans, the objective moves by twice the staff sum and 12 times the services sum. */
  lemma ObjectiveShift(p: Plan, q: Plan)
    requires WellFormed(p) && WellFormed(q)
    ensures Objective(q) - Objective(p) ==
      2 * (StaffSpend(q) - StaffSpend(p)) + 12 * (ServiceSpend(q) - ServiceSpend(p))
  {
    ObjectiveIsBudgetSums(p);
    ObjectiveIsBudgetSums(q);
  }

  /** The hired variable raised by one moves its own reference sum by one unit. */
  lemma HireStep(p: Plan, q: Plan, j: Job, s: Stream)
    requires WellFormed(p)
    requires q.hired == p.hired[(j, s) := p.hired[(j, s)] + 1]
    requires q.trained == p.trained && q.promoted == p.promoted && q.bought == p.bought
    ensures WellFormed(q)
    ensures HireSpend(q) == HireSpend(p) + HiringCost(j)
  {
    assert WellFormed(q);
    HireSpendExpanded(p);
    HireSpendExpanded(q);
  }

  /**
    One more hire of a job costs the staff budget 4 and the objective 8 times its hiring cost.
  */
  lemma HireMarginal(p: Plan, q: Plan, j: Job, s: Stream)
    requires WellFormed(p)
    requires q.hired == p.hired[(j, s) := p.hired[(j, s)] + 1]
    requires q.trained == p.trained && q.promoted == p.promoted && q.bought == p.bought
    ensures WellFormed(q)
    ensures StaffSpend(q) == StaffSpend(p) + 4 * HiringCost(j)
    ensures ServiceSpend(q) == ServiceSpend(p)
    ensures Objective(q) == Objective(p) + 8 * HiringCost(j)
  {
    HireStep(p, q, j, s);
    SameUnlessHired(p, q);
    assert StaffSpend(q) == StaffSpend(p) + 4 * HiringCost(j) by {
      StaffShift(p, q);
    }
    ObjectiveShift(p, q);
  }

  /** The trained variable raised by one moves its own reference sum by one unit. */
  lemma TrainStep(p: Plan, q: Plan, j: Job, a: Stream, b: Stream)
    requires WellFormed(p) && a != b
    requires q.trained == p.trained[(j, a, b) := p.trained[(j, a, b)] + 1]
    requires q.hired == p.hired && q.promoted == p.promoted && q.bought == p.bought
    ensures WellFormed(q)
    ensures TrainSpend(q) == TrainSpend(p) + TrainingCost(j)
  {
    assert WellFormed(q);
    TrainedInStep(p, q, j, a, b);
    TrainSpendExpanded(p);
    TrainSpendExpanded(q);
  }

  lemma TrainedInStep(p: Plan, q: Plan, j: Job, a: Stream, b: Stream)
    requires WellFormed(p) && WellFormed(q) && a != b
    requires q.trained == p.trained[(j, a, b) := p.trained[(j, a, b)] + 1]
    ensures TrainedIn(q, A5) == TrainedIn(p, A5) + (if j == A5 then 1 else 0)
    ensures TrainedIn(q, A6) == TrainedIn(p, A6) + (if j == A6 then 1 else 0)
    ensures TrainedIn(q, Man) == TrainedIn(p, Man) + (if j == Man then 1 else 0)
  {
    assert (a, b) == (Ana, Tech) || (a, b) == (Tech, Ana);
  }

  /**
    One more cross-training move in a job costs the staff budget 4 and the objective 8 times its training cost.
  */
  lemma TrainMarginal(p: Plan, q: Plan, j: Job, a: Stream, b: Stream)
    requires WellFormed(p) && a != b
    requires q.trained == p.trained[(j, a, b) := p.trained[(j, a, b)] + 1]
    requires q.hired == p.hired && q.promoted == p.promoted && q.bought == p.bought
    ensures WellFormed(q)
    ensures StaffSpend(q) == StaffSpend(p) + 4 * TrainingCost(j)
    ensures ServiceSpend(q) == ServiceSpend(p)
    ensures Objective(q) == Objective(p) + 8 * TrainingCost(j)
  {
    TrainStep(p, q, j, a, b);
    SameUnlessTrained(p, q);
    assert StaffSpend(q) == StaffSpend(p) + 4 * TrainingCost(j) by {
      StaffShift(p, q);
    }
    ObjectiveShift(p, q);
  }

  /** The promoted variable raised by one moves its own reference sum by one unit. */
  lemma PromoteStep(p: Plan, q: Plan, a: Job, b: Job, s: Stream)
    requires WellFormed(p) && IsPromotionStep(a, b)
    requires q.promoted == p.promoted[(a, b, s) := p.promoted[(a, b, s)] + 1]
    requires q.hired == p.hired && q.trained == p.trained && q.bought == p.bought
    ensures WellFormed(q)
    ensures PromotedCount(q) == PromotedCount(p) + 1
  {
    assert WellFormed(q);
    PromotedCountExpanded(p);
    PromotedCountExpanded(q);
  }

  /**
    One more promotion costs the staff budget 2 and the objective 4 times the sum of all
    three promotion costs, whichever ladder step it is.
  */
  lemma PromoteMarginal(p: Plan, q: Plan, a: Job, b: Job, s: Stream)
    requires WellFormed(p) && IsPromotionStep(a, b)
    requires q.promoted == p.promoted[(a, b, s) := p.promoted[(a, b, s)] + 1]
    requires q.hired == p.hired && q.trained == p.trained && q.bought == p.bought
    ensures WellFormed(q)
    ensures StaffSpend(q) == StaffSpend(p) + 2 * 334987
    ensures ServiceSpend(q) == ServiceSpend(p)
    ensures Objective(q) == Objective(p) + 4 * 334987
  {
    PromoteStep(p, q, a, b, s);
    SameUnlessPromoted(p, q);
    assert StaffSpend(q) == StaffSpend(p) + 2 * 334987 by {
      StaffShift(p, q);
    }
    ObjectiveShift(p, q);
  }

  /** The bought variable raised by one moves its own reference sum by one unit. */
  lemma BuyStep(p: Plan, q: Plan, c: Contractor, s: Stream)
    requires WellFormed(p)
    requires q.bought == p.bought[(c, s) := p.bought[(c, s)] + 1]
    requires q.hired == p.hired && q.trained == p.trained && q.promoted == p.promoted
    ensures WellFormed(q)
    ensures ServiceSpend(q) == ServiceSpend(p) + ContractorCost(c)
  {
    assert WellFormed(q);
    ServiceSpendExpanded(p);
    ServiceSpendExpanded(q);
  }

  /**
    One more bought contractor costs the services budget its flat cost and the
    objective 12 times that, and leaves the staff budget alone.
  */
  lemma BuyMarginal(p: Plan, q: Plan, c: Contractor, s: Stream)
    requires WellFormed(p)
    requires q.bought == p.bought[(c, s) := p.bought[(c, s)] + 1]
    requires q.hired == p.hired && q.trained == p.trained && q.promoted == p.promoted
    ensures WellFormed(q)
    ensures StaffSpend(q) == StaffSpend(p)
    ensures ServiceSpend(q) == ServiceSpend(p) + ContractorCost(c)
    ensures Objective(q) == Objective(p) + 12 * ContractorCost(c)
  {
    BuyStep(p, q, c, s);
    SameUnlessBought(p, q);
    assert StaffSpend(q) == StaffSpend(p) by {
      StaffShift(p, q);
    }
    ObjectiveShift(p, q);
  }

  // Each reference sum reads only its own family.

  lemma SameUnlessHired(p: Plan, q: Plan)
    requires WellFormed(p) && WellFormed(q)
    requires p.trained == q.trained && p.promoted == q.promoted && p.bought == q.bought
    ensures TrainSpend(q) == TrainSpend(p) && PromotedCount(q) == PromotedCount(p) && ServiceSpend(q) == ServiceSpend(p)
  {
    TrainSpendExpanded(p);
    TrainSpendExpanded(q);
    PromotedCountExpanded(p);
    PromotedCountExpanded(q);
    ServiceSpendExpanded(p);
    ServiceSpendExpanded(q);
  }

  lemma SameUnlessTrained(p: Plan, q: Plan)
    requires WellFormed(p) && WellFormed(q)
    requires p.hired == q.hired && p.promoted == q.promoted && p.bought == q.bought
    ensures HireSpend(q) == HireSpend(p) && PromotedCount(q) == PromotedCount(p) && ServiceSpend(q) == ServiceSpend(p)
  {
    HireSpendExpanded(p);
    HireSpendExpanded(q);
    PromotedCountExpanded(p);
    PromotedCountExpanded(q);
    ServiceSpendExpanded(p);
    ServiceSpendExpanded(q);
  }

  lemma SameUnlessPromoted(p: Plan, q: Plan)
    requires WellFormed(p) && WellFormed(q)
    requires p.hired == q.hired && p.trained == q.trained && p.bought == q.bought
    ensures HireSpend(q) == HireSpend(p) && TrainSpend(q) == TrainSpend(p) && ServiceSpend(q) == ServiceSpend(p)
  {
    HireSpendExpanded(p);
    HireSpendExpanded(q);
    TrainSpendExpanded(p);
    TrainSpendExpanded(q);
    ServiceSpendExpanded(p);
    ServiceSpendExpanded(q);
  }

  lemma SameUnlessBought(p: Plan, q: Plan)
    requires WellFormed(p) && WellFormed(q)
    requires p.hired == q.hired && p.trained == q.trained && p.promoted == q.promoted
    ensures HireSpend(q) == HireSpend(p) && TrainSpend(q) == TrainSpend(p) && PromotedCount(q) == PromotedCount(p)
  {
    HireSpendExpanded(p);
    HireSpendExpanded(q);
    TrainSpendExpanded(p);
    TrainSpendExpanded(q);
    PromotedCountExpanded(p);
    PromotedCountExpanded(q);
  }
}
