/**
  The data of the workforce plan: the staff enumerations, the four families of
  integer decision variables (a plan assigns a value to each), the unit-cost
  tables and the existing and target headcounts.
*/
module Workforce {
  import opened Sums

  /** Permanent staff types, in ladder order: APS5, APS6, Manager. */
  datatype Job = A5 | A6 | Man

  /** Contractor types: contractor, expert contractor. */
  datatype Contractor = Con | ExC

  /** Functional streams: analyst, technician. */
  datatype Stream = Ana | Tech

  /** Workforce-target levels "1", "2", "3". */
  datatype Level = L1 | L2 | L3

  /** A key of the existing-headcount table: a permanent job or a contractor type. */
  datatype StaffType = Permanent(job: Job) | Contracted(kind: Contractor)

  /*
    The lists the script iterates over, in its order. Each is written as a
    concatenation rather than a single display: the verifier then unfolds a
    sum over the list only where a proof asks for it.
  */
  const Jobs: seq<Job> := [A5] + [A6, Man]
  const Contractors: seq<Contractor> := [Con] + [ExC]
  const Streams: seq<Stream> := [Ana] + [Tech]

  /** The filter the script uses for promotion keys: one rung up the ladder. */
  predicate IsPromotionStep(fromJob: Job, toJob: Job) {
    (fromJob == A5 && toJob == A6) || (fromJob == A6 && toJob == Man)
  }

  /** The other stream (there are exactly two). */
  function Other(s: Stream): (r: Stream)
    ensures r != s
  {
    if s == Ana then Tech else Ana
  }

  // ---------------------------------------------------------------------------
  // Decision variables
  // ---------------------------------------------------------------------------

  /**
    The key sets of the four variable dictionaries, listed in the order the
    comprehensions generate them. The family lemmas below show that each list
    is exactly the filtered product the comprehension ranges over.
  */
  const HiredKeys: set<(Job, Stream)> :=
    {(A5, Ana), (A5, Tech), (A6, Ana), (A6, Tech), (Man, Ana), (Man, Tech)}
  const TrainedKeys: set<(Job, Stream, Stream)> :=
    {(A5, Ana, Tech), (A5, Tech, Ana), (A6, Ana, Tech), (A6, Tech, Ana), (Man, Ana, Tech), (Man, Tech, Ana)}
  const PromotedKeys: set<(Job, Job, Stream)> :=
    {(A5, A6, Ana), (A5, A6, Tech), (A6, Man, Ana), (A6, Man, Tech)}
  const BoughtKeys: set<(Contractor, Stream)> :=
    {(Con, Ana), (Con, Tech), (ExC, Ana), (ExC, Tech)}

  /**
    A value for every decision variable. Each variable is declared with lower
    bound 0, no upper bound and integer category, hence `nat`.
  */
  datatype Plan = Plan(
    hired: map<(Job, Stream), nat>,
    trained: map<(Job, Stream, Stream), nat>,
    promoted: map<(Job, Job, Stream), nat>,
    bought: map<(Contractor, Stream), nat>)

  /** The plan has a value for exactly the keys the script declares. */
  predicate WellFormed(p: Plan) {
    && (forall j, s :: (j, s) in p.hired)
    && (forall j, a, b :: (j, a, b) in p.trained <==> a != b)
    && (forall a, b, s :: (a, b, s) in p.promoted <==> IsPromotionStep(a, b))
    && (forall c, s :: (c, s) in p.bought)
  }

  /** `hired` is declared for all 6 (job, stream) pairs. */
  lemma HiredFamily()
    ensures forall j, s :: (j, s) in HiredKeys
    ensures |HiredKeys| == 6
  {
    forall j: Job, s: Stream ensures (j, s) in HiredKeys {
      if s == Ana {
        if j == A5 { } else if j == A6 { } else { }
      } else {
        if j == A5 { } else if j == A6 { } else { }
      }
    }
  }

  /** `trained` is declared exactly for (job, from, to) with from != to: 6 variables. */
  lemma TrainedFamily()
    ensures forall j, a, b :: (j, a, b) in TrainedKeys <==> a != b
    ensures |TrainedKeys| == 6
  {
    forall j: Job, a: Stream, b: Stream ensures (j, a, b) in TrainedKeys <==> a != b {
      match j case A5 => {} case A6 => {} case Man => {}
    }
  }

  /** `promoted` is declared exactly for A5 -> A6 and A6 -> Man in each stream: 4 variables. */
  lemma PromotedFamily()
    ensures forall a, b, s :: (a, b, s) in PromotedKeys <==> IsPromotionStep(a, b)
    ensures |PromotedKeys| == 4
  {
    forall a: Job, b: Job, s: Stream ensures (a, b, s) in PromotedKeys <==> IsPromotionStep(a, b) {
      if s == Ana {
        if a == A5 && b == A6 { } else if a == A6 && b == Man { } else { }
      } else {
        if a == A5 && b == A6 { } else if a == A6 && b == Man { } else { }
      }
    }
  }

  /** `bought_contractor` is declared for all 4 (contractor, stream) pairs. */
  lemma BoughtFamily()
    ensures forall c, s :: (c, s) in BoughtKeys
    ensures |BoughtKeys| == 4
  {
    forall c: Contractor, s: Stream ensures (c, s) in BoughtKeys {
      if s == Ana {
        if c == Con { } else { }
      } else {
        if c == Con { } else { }
      }
    }
  }

  /** Well-formedness is exactly "the dictionaries have the declared key sets". */
  lemma WellFormedKeys(p: Plan)
    ensures WellFormed(p) <==>
      p.hired.Keys == HiredKeys && p.trained.Keys == TrainedKeys &&
      p.promoted.Keys == PromotedKeys && p.bought.Keys == BoughtKeys
  {
    HiredFamily();
    TrainedFamily();
    PromotedFamily();
    BoughtFamily();
    if WellFormed(p) {
      assert p.hired.Keys == HiredKeys by {
        forall k | k in p.hired ensures k in HiredKeys { assert k == (k.0, k.1); }
      }
      assert p.trained.Keys == TrainedKeys by {
        forall k | k in p.trained ensures k in TrainedKeys { assert k == (k.0, k.1, k.2); }
      }
      assert p.promoted.Keys == PromotedKeys by {
        forall k | k in p.promoted ensures k in PromotedKeys { assert k == (k.0, k.1, k.2); }
      }
      assert p.bought.Keys == BoughtKeys by {
        forall k | k in p.bought ensures k in BoughtKeys { assert k == (k.0, k.1); }
      }
    }
  }

  /** No variable is a self-transition: nobody trains into their own stream or is promoted to their own job. */
  lemma NoSelfTransitions(p: Plan)
    requires WellFormed(p)
    ensures forall j, s :: (j, s, s) !in p.trained
    ensures forall j, s :: (j, j, s) !in p.promoted
  {
  }

  // ---------------------------------------------------------------------------
  // Budgets, surcharges, salaries and unit costs
  // ---------------------------------------------------------------------------

  const StaffBudget: int := 10000000
  const ServicesBudget: int := 6000000

  const TrainingSurcharge: int := 1000
  const PromotionSurcharge: int := 200
  const HiringSurcharge: int := 5000

  const A5Salary: int := 91809
  const A6Salary: int := 107713
  const ManSalary: int := 134865
  const ConSalary: int := 200000
  const ExCSalary: int := 450000

  /** The salary table of the permanent jobs. */
  function Salary(j: Job): int {
    match j
    case A5 => A5Salary
    case A6 => A6Salary
    case Man => ManSalary
  }

  /** Unit cost of hiring into a job: its salary plus the 5000 hiring surcharge. */
  function HiringCost(j: Job): (c: int)
    ensures c == Salary(j) + 5000
  {
    match j
    case A5 => A5Salary + HiringSurcharge
    case A6 => A6Salary + HiringSurcharge
    case Man => ManSalary + HiringSurcharge
  }

  /** Unit cost of cross-training within a job: its salary plus the 1000 training surcharge. */
  function TrainingCost(j: Job): (c: int)
    ensures c == Salary(j) + 1000
  {
    match j
    case A5 => A5Salary + TrainingSurcharge
    case A6 => A6Salary + TrainingSurcharge
    case Man => ManSalary + TrainingSurcharge
  }

  /** Unit cost of promotion, keyed by job: its salary plus the 200 promotion surcharge. */
  function PromotionCost(j: Job): (c: int)
    ensures c == Salary(j) + 200
  {
    match j
    case A5 => A5Salary + PromotionSurcharge
    case A6 => A6Salary + PromotionSurcharge
    case Man => ManSalary + PromotionSurcharge
  }

  /** Flat unit cost of a contractor: 200000 for a contractor, 450000 for an expert. */
  function ContractorCost(c: Contractor): (r: int)
    ensures c == Con ==> r == 200000
    ensures c == ExC ==> r == 450000
  {
    match c
    case Con => ConSalary
    case ExC => ExCSalary
  }

  // ---------------------------------------------------------------------------
  // Existing and target headcounts
  // ---------------------------------------------------------------------------

  /** The existing-headcount table. */
  function Existing(t: StaffType, s: Stream): nat {
    match (t, s)
    case (Permanent(A5), Ana) => 20
    case (Permanent(A5), Tech) => 7
    case (Permanent(A6), Ana) => 10
    case (Permanent(A6), Tech) => 3
    case (Permanent(Man), Ana) => 6
    case (Permanent(Man), Tech) => 5
    case (Contracted(Con), Ana) => 5
    case (Contracted(Con), Tech) => 30
    case (Contracted(ExC), Ana) => 0
    case (Contracted(ExC), Tech) => 2
  }

  /** The target-headcount table. */
  function Target(l: Level, s: Stream): nat {
    match (l, s)
    case (L1, Ana) => 40
    case (L2, Ana) => 15
    case (L3, Ana) => 10
    case (L1, Tech) => 50
    case (L2, Tech) => 15
    case (L3, Tech) => 8
  }

  /** The job whose headcount a level's target is matched against. */
  function JobAt(l: Level): Job {
    match l
    case L1 => A5
    case L2 => A6
    case L3 => Man
  }

  // ---------------------------------------------------------------------------
  // Sums over the enumerations
  // ---------------------------------------------------------------------------

  /** The sum over the job list has one term per job. */
  lemma SumOverJobs(f: Job -> int)
    ensures Sum(Jobs, f) == f(A5) + f(A6) + f(Man)
  {
    assert Jobs[0] == A5 && Jobs[1..] == [A6, Man];
    assert Sum(Jobs, f) == f(A5) + Sum([A6, Man], f);
    assert [A6, Man][1..] == [Man];
    assert Sum([A6, Man], f) == f(A6) + Sum([Man], f);
  }

  /** The sum over the stream list has one term per stream. */
  lemma SumOverStreams(f: Stream -> int)
    ensures Sum(Streams, f) == f(Ana) + f(Tech)
  {
    assert Streams[0] == Ana && Streams[1..] == [Tech];
    assert Sum(Streams, f) == f(Ana) + Sum([Tech], f);
  }

  /** The sum over the contractor list has one term per contractor type. */
  lemma SumOverContractors(f: Contractor -> int)
    ensures Sum(Contractors, f) == f(Con) + f(ExC)
  {
    assert Contractors[0] == Con && Contractors[1..] == [ExC];
    assert Sum(Contractors, f) == f(Con) + Sum([ExC], f);
  }
}
