/** Work bounds of one tick and the books the metric counters keep over every run. */
module DaemonRuns {
  import opened Basics
  import opened Planner
  import opened Network
  import opened Evolution
  import opened Sequence
  import opened Keeper
  import opened Submission
  import opened Coverage
  import opened Daemon

  // --- Bounded work ----------------------------------------------------------------------------------

  /** One cycle makes at most two submissions for each of at most two plans. */
  lemma CycleWork(env: Environment, s: Sys, cfg: ValidConfig)
    requires !cfg.Resolution().ResolutionPanics?
    ensures s.requests <= RunCycle(env, s, cfg).0.requests <= s.requests + 4
  {
    hide PlanCycle, RunPlans, Watch.Resolve, PlanObserved;
    PlanCycleFacts(env, s.world, cfg);
    var (w, planned) := PlanCycle(env, s.world, cfg);
    if planned.Ok? {
      PlansAreExtensions(cfg, cfg.Resolution().keys, Observed(env, s.world, cfg).value);
      RunPlansFacts(env, s.(world := w), cfg, planned.value.plans, |planned.value.plans|);
    }
  }

  /** The most cycles a tick can still run after `attempt` failures; a tick always runs one. */
  function CyclesLeft(policy: RetryPolicy, attempt: nat): nat {
    if policy.attempts > attempt then policy.attempts - attempt else 1
  }

  lemma {:induction false} Pow2Monotone(a: nat, b: nat)
    requires a <= b
    ensures 1 <= Pow2(a) <= Pow2(b)
  {
    if b == 0 {
    } else if a < b {
      Pow2Monotone(a, b - 1);
    } else {
      Pow2Monotone(a - 1, a - 1);
    }
  }

  lemma BackoffSum(base: nat, attempt: nat, more: nat)
    ensures base * (Pow2(attempt + 1 + more) - Pow2(attempt + 1)) + base * Pow2(attempt)
         == base * (Pow2(attempt + 1 + more) - Pow2(attempt))
  {
    var p: int, q: int, b: int := Pow2(attempt + 1 + more), Pow2(attempt), base;
    assert Pow2(attempt + 1) == 2 * q;
    assert b * (p - 2 * q) + b * q == b * ((p - 2 * q) + q);
  }

  /** The rest of a tick, `attempt` failures in: cycles, submissions and the exact time slept. */
  lemma {:induction false} AttemptsWork(env: Environment, s: Sys, cfg: ValidConfig, policy: RetryPolicy, m: Counters,
        attempt: nat)
    requires !cfg.Resolution().ResolutionPanics?
    ensures var r := Attempts(env, s, cfg, policy, m, attempt);
            && 1 <= r.cycles <= CyclesLeft(policy, attempt)
            && r.sys.requests <= s.requests + 4 * r.cycles
            && r.sleptMs == policy.baseDelayMs * (Pow2(attempt + r.cycles - 1) - Pow2(attempt))
            && (r.cycles > 1 ==> RunCycle(env, s, cfg).1.Err? && RunCycle(env, s, cfg).1.error.Rpc?)
    decreases CyclesLeft(policy, attempt)
  {
    hide RunCycle, Waited, Watch.Resolve, Pow2;
    CycleWork(env, s, cfg);
    var (s', r) := RunCycle(env, s, cfg);
    if r.Ok? || GivesUp(policy, attempt + 1, r.error) {
    } else {
      WaitedKeepsRequests(env, s');
      AttemptsWork(env, Waited(env, s'), cfg, policy, m, attempt + 1);
      var rest := Attempts(env, Waited(env, s'), cfg, policy, m, attempt + 1);
      BackoffSum(policy.baseDelayMs, attempt, rest.cycles - 1);
    }
  }

  lemma WaitedKeepsRequests(env: Environment, s: Sys)
    ensures Waited(env, s).requests == s.requests
  {
  }

  /**
   * Bounded work per tick, for any retry policy: the number of cycles, four submissions a cycle, the
   * geometric total of the sleeps, and a second cycle only after an RPC error.
   */
  lemma TickWork(env: Environment, s: Sys, cfg: ValidConfig, policy: RetryPolicy, m: Counters)
    requires !cfg.Resolution().ResolutionPanics?
    ensures var r := Tick(env, s, cfg, policy, m);
            && 1 <= r.cycles <= Max(1, policy.attempts)
            && r.sys.requests <= s.requests + 4 * r.cycles
            && r.sleptMs == policy.baseDelayMs * (Pow2(r.cycles - 1) - 1)
            && r.sleptMs <= policy.baseDelayMs * (Pow2(Max(1, policy.attempts) - 1) - 1)
            && (r.cycles > 1 ==> RunCycle(env, Waited(env, s), cfg).1.Err?
                                 && RunCycle(env, Waited(env, s), cfg).1.error.Rpc?)
  {
    hide Attempts, RunCycle, Watch.Resolve;
    WaitedKeepsRequests(env, s);
    AttemptsWork(env, Waited(env, s), cfg, policy, m, 0);
    var r := Tick(env, s, cfg, policy, m);
    assert Pow2(0) == 1;
    Pow2Monotone(r.cycles - 1, Max(1, policy.attempts) - 1);
    var few, many := Pow2(r.cycles - 1) - 1, Pow2(Max(1, policy.attempts) - 1) - 1;
    assert policy.baseDelayMs * few <= policy.baseDelayMs * many;
  }

  /** The daemon's own constants: three cycles, twelve submissions and three seconds of sleep at most. */
  lemma DaemonTickWork(env: Environment, s: Sys, cfg: ValidConfig, m: Counters)
    requires !cfg.Resolution().ResolutionPanics?
    ensures var r := Tick(env, s, cfg, RETRY, m);
            r.cycles <= 3 && r.sys.requests <= s.requests + 12 && r.sleptMs <= 3_000
  {
    hide Tick, Watch.Resolve;
    TickWork(env, s, cfg, RETRY, m);
    assert Pow2(2) == 2 * Pow2(1) && Pow2(1) == 2 * Pow2(0);
  }

  /** The error that ends the tick, `attempt` failures into it. */
  function TickError(env: Environment, s: Sys, cfg: ValidConfig, policy: RetryPolicy, attempt: nat): Option<KeeperError>
    requires !cfg.Resolution().ResolutionPanics?
    decreases CyclesLeft(policy, attempt)
  {
    var (s', r) := RunCycle(env, s, cfg);
    match r
    case Ok(_) => None
    case Err(e) =>
      if GivesUp(policy, attempt + 1, e) then Some(e) else TickError(env, Waited(env, s'), cfg, policy, attempt + 1)
  }

  /**
   * How a tick ends and what it counts: a success, or an error that changes no counter unless it is an RPC
   * error; an RPC error ends a tick only when all attempts are used up, any other error at once.
   */
  lemma {:induction false} TickOutcome(env: Environment, s: Sys, cfg: ValidConfig, policy: RetryPolicy, m: Counters,
        attempt: nat)
    requires !cfg.Resolution().ResolutionPanics?
    ensures var r := Attempts(env, s, cfg, policy, m, attempt);
            var e := TickError(env, s, cfg, policy, attempt);
            && (e.None? ==>
                  r.counters.pollCycles == m.pollCycles + 1 && r.counters.extendsRejected == m.extendsRejected)
            && (e.Some? ==> r.counters == m.(extendsRejected := m.extendsRejected + if e.value.Rpc? then 1 else 0))
            && (e.Some? && e.value.Rpc? ==> r.cycles == CyclesLeft(policy, attempt))
            && (RunCycle(env, s, cfg).1.Err? && !RunCycle(env, s, cfg).1.error.Rpc? ==>
                  e == Some(RunCycle(env, s, cfg).1.error) && r.cycles == 1)
    decreases CyclesLeft(policy, attempt)
  {
    hide RunCycle, Waited, Watch.Resolve;
    var (s', r) := RunCycle(env, s, cfg);
    if r.Ok? || GivesUp(policy, attempt + 1, r.error) {
    } else {
      TickOutcome(env, Waited(env, s'), cfg, policy, m, attempt + 1);
    }
  }

  // --- Metrics -----------------------------------------------------------------------------------------

  /** All acknowledged log positions, cycle after cycle. */
  function AllAcks(rounds: seq<Round>): seq<nat> {
    if rounds == [] then [] else AllAcks(rounds[..|rounds| - 1]) + rounds[|rounds| - 1].acks
  }

  function SubmittingRounds(rounds: seq<Round>): nat {
    if rounds == [] then 0
    else SubmittingRounds(rounds[..|rounds| - 1]) + if rounds[|rounds| - 1].acks != [] then 1 else 0
  }

  /**
   * What the counters mean: successful cycles, their accepted envelopes (each a different log position,
   * in order), and the cycles that had any. The gauges show the last successful cycle: its ledger, and how many
   * of the entries it saw live have a remaining TTL within the horizon.
   */
  ghost predicate Books(w: World, m: Counters, opening: nat, cfg: ValidConfig) {
    && m.pollCycles == |w.rounds|
    && m.extendsSubmitted == |AllAcks(w.rounds)|
    && m.extendsAccepted == SubmittingRounds(w.rounds)
    && m.extendsAccepted <= m.extendsSubmitted <= 2 * m.extendsAccepted
    && m.extendsAccepted <= m.pollCycles
    && Increasing(AllAcks(w.rounds))
    && opening <= |w.log|
    && (forall a :: a in AllAcks(w.rounds) ==> opening <= a < |w.log|)
    && (w.rounds == [] ==> m.latestObservedLedger == m.entriesAtRisk == 0)
    && (w.rounds != [] ==>
          var last := w.rounds[|w.rounds| - 1];
          && m.latestObservedLedger == last.observed
          && m.entriesAtRisk == |cfg.ThePlanner().AtRisk(last.live)|
          && (m.entriesAtRisk > 0 <==> last.acks != []))
  }

  lemma IncreasingFits(acks: seq<nat>, lo: nat, hi: nat)
    requires Increasing(acks) && lo <= hi && forall a :: a in acks ==> lo <= a < hi
    ensures |acks| <= hi - lo
    decreases |acks|
  {
    if acks == [] {
    } else {
      var init, last := acks[..|acks| - 1], acks[|acks| - 1];
      assert last in acks;
      forall a | a in init ensures lo <= a < last {
        var i :| 0 <= i < |init| && init[i] == a;
        assert acks[i] in acks && acks[i] < acks[|acks| - 1];
      }
      IncreasingFits(init, lo, last);
    }
  }

  /**
   * An `Ok` cycle appends its round. Of the envelopes the node took meanwhile it counts exactly those whose
   * answer was not lost.
   */
  lemma CycleBooks(env: Environment, s: Sys, cfg: ValidConfig)
    requires !cfg.Resolution().ResolutionPanics?
    ensures var (s', r) := RunCycle(env, s, cfg);
            && s.world.log <= s'.world.log
            && (r.Err? ==> s'.world.rounds == s.world.rounds)
            && (r.Ok? ==>
                  && |s'.world.rounds| == |s.world.rounds| + 1
                  && var round := s'.world.rounds[|s.world.rounds|];
                  && s'.world.rounds == s.world.rounds + [round]
                  && |round.acks| == r.value.transactions <= 2
                  && (r.value.extendSubmitted <==> round.acks != [])
                  && r.value.observedLedger == round.observed
                  && r.value.entriesAtRisk == |cfg.ThePlanner().AtRisk(round.live)|
                  && (r.value.entriesAtRisk > 0 <==> round.acks != [])
                  && Increasing(round.acks)
                  && (forall a :: a in round.acks ==> |s.world.log| <= a < |s'.world.log|)
                  && (forall i :: |s.world.log| <= i < |s'.world.log| ==> i in round.acks || i in s'.world.lost)
                  && (Consistent(s.world) ==> forall i :: i in round.acks ==> i !in s'.world.lost))
  {
    hide PlanCycle, RunPlans, Watch.Resolve, PlanObserved, Consistent, Planner.AtRisk, Extendable, Observed;
    PlanCycleFacts(env, s.world, cfg);
    var (w, planned) := PlanCycle(env, s.world, cfg);
    if planned.Ok? {
      PlansAreExtensions(cfg, cfg.Resolution().keys, Observed(env, s.world, cfg).value);
      ReportedLedger(cfg, cfg.Resolution().keys, Observed(env, s.world, cfg).value);
      RunPlansFacts(env, s.(world := w), cfg, planned.value.plans, |planned.value.plans|);
      if RunCycle(env, s, cfg).1.Ok? {
        CycleCoverage(env, s, cfg);
      }
    }
  }

  lemma BooksAfterSuccess(w: World, w': World, m: Counters, opening: nat, round: Round, report: CycleReport,
        cfg: ValidConfig)
    requires Books(w, m, opening, cfg)
    requires w'.rounds == w.rounds + [round] && w.log <= w'.log
    requires |round.acks| == report.transactions <= 2 && (report.extendSubmitted <==> round.acks != [])
    requires report.observedLedger == round.observed && (report.entriesAtRisk > 0 <==> round.acks != [])
    requires report.entriesAtRisk == |cfg.ThePlanner().AtRisk(round.live)|
    requires Increasing(round.acks) && forall a :: a in round.acks ==> |w.log| <= a < |w'.log|
    ensures Books(w', m.AfterSuccess(report), opening, cfg)
  {
    hide Planner.AtRisk;
    var acks := AllAcks(w.rounds);
    assert w'.rounds[..|w'.rounds| - 1] == w.rounds;
    assert AllAcks(w'.rounds) == acks + round.acks;
    forall i, j | 0 <= i < j < |acks + round.acks| ensures (acks + round.acks)[i] < (acks + round.acks)[j] {
      assert i < |acks| ==> acks[i] in acks;
      assert j >= |acks| ==> round.acks[j - |acks|] in round.acks;
    }
  }

  lemma BooksKept(w: World, w': World, m: Counters, opening: nat, cfg: ValidConfig)
    requires Books(w, m, opening, cfg) && w'.rounds == w.rounds && w.log <= w'.log
    ensures Books(w', m, opening, cfg)
  {
    hide Planner.AtRisk;
  }

  lemma {:induction false} AttemptsBooks(env: Environment, s: Sys, cfg: ValidConfig, policy: RetryPolicy,
        m: Counters, attempt: nat, opening: nat)
    requires !cfg.Resolution().ResolutionPanics? && Books(s.world, m, opening, cfg)
    ensures var r := Attempts(env, s, cfg, policy, m, attempt);
            && Books(r.sys.world, r.counters, opening, cfg)
            && r.counters.pollCycles + r.counters.extendsRejected <= m.pollCycles + m.extendsRejected + 1
    decreases CyclesLeft(policy, attempt)
  {
    hide RunCycle, Waited, Watch.Resolve, Books;
    CycleBooks(env, s, cfg);
    var (s', r) := RunCycle(env, s, cfg);
    if r.Ok? {
      BooksAfterSuccess(s.world, s'.world, m, opening, s'.world.rounds[|s.world.rounds|], r.value, cfg);
    } else {
      BooksKept(s.world, s'.world, m, opening, cfg);
      if GivesUp(policy, attempt + 1, r.error) {
        RejectionKeepsBooks(s'.world, m, r.error, opening, cfg);
      } else {
        WaitKeepsBooks(env, s', m, opening, cfg);
        AttemptsBooks(env, Waited(env, s'), cfg, policy, m, attempt + 1, opening);
      }
    }
  }

  lemma RejectionKeepsBooks(w: World, m: Counters, e: KeeperError, opening: nat, cfg: ValidConfig)
    requires Books(w, m, opening, cfg)
    ensures Books(w, m.AfterGivingUp(e), opening, cfg)
  {
    hide Planner.AtRisk;
  }

  lemma WaitKeepsBooks(env: Environment, s: Sys, m: Counters, opening: nat, cfg: ValidConfig)
    requires Books(s.world, m, opening, cfg)
    ensures Books(Waited(env, s).world, m, opening, cfg)
  {
    hide Step, Planner.AtRisk;
    StepMovesOn(env, s.world);
  }

  lemma {:induction false} TicksBooks(env: Environment, s: Sys, cfg: ValidConfig, policy: RetryPolicy, m: Counters,
        n: nat, opening: nat)
    requires !cfg.Resolution().ResolutionPanics? && Books(s.world, m, opening, cfg)
    ensures var (s', m') := RunTicks(env, s, cfg, policy, m, n);
            && Books(s'.world, m', opening, cfg)
            && m'.pollCycles + m'.extendsRejected <= m.pollCycles + m.extendsRejected + n
  {
    hide Attempts, Waited, Watch.Resolve, Books;
    if n == 0 {
    } else {
      TicksBooks(env, s, cfg, policy, m, n - 1, opening);
      var before := RunTicks(env, s, cfg, policy, m, n - 1);
      WaitKeepsBooks(env, before.0, before.1, opening, cfg);
      AttemptsBooks(env, Waited(env, before.0), cfg, policy, before.1, 0, opening);
    }
  }

  // --- What the counters leave out -----------------------------------------------------------------------

  /**
   * Every envelope the node took since the opening is counted, or its answer was lost, or it was
   * acknowledged in a cycle that failed later; never two of these.
   */
  ghost predicate Audited(w: World, opening: nat) {
    && Consistent(w)
    && (forall a :: a in AllAcks(w.rounds) ==> a < |w.log|)
    && (forall i :: opening <= i < |w.log| ==> i in AllAcks(w.rounds) || i in w.lost || i in w.orphaned)
    && (forall i :: i >= opening && i in AllAcks(w.rounds) ==> i !in w.lost && i !in w.orphaned)
    && (forall i :: i >= opening && i in w.lost ==> i !in w.orphaned)
  }

  /** Submitting plans and then noting the outcome, either way, keeps the audit. */
  lemma AuditedCycle(w: World, w': World, acks: seq<nat>, r: Round, opening: nat)
    requires Audited(w, opening) && Progressed(w, w') && Accounted(w, w', acks) && r.acks == acks
    requires forall a :: a in acks ==> |w.log| <= a < |w'.log|
    ensures Audited(Record(w', r), opening) && Audited(RecordFailure(w', acks), opening)
  {
    assert (w.rounds + [r])[..|w.rounds|] == w.rounds;
    assert AllAcks(w.rounds + [r]) == AllAcks(w.rounds) + acks;
  }

  lemma AuditMovesOn(w: World, w': World, opening: nat)
    requires Audited(w, opening) && MovedOn(w, w')
    ensures Audited(w', opening)
  {
  }

  lemma CycleAudit(env: Environment, s: Sys, cfg: ValidConfig, opening: nat)
    requires !cfg.Resolution().ResolutionPanics? && Audited(s.world, opening)
    ensures Audited(RunCycle(env, s, cfg).0.world, opening)
  {
    hide PlanCycle, RunPlans, Watch.Resolve, Audited, Progressed, Accounted, Record, RecordFailure;
    PlanCycleFacts(env, s.world, cfg);
    var (w, planned) := PlanCycle(env, s.world, cfg);
    AuditMovesOn(s.world, w, opening);
    if planned.Ok? {
      var plans := planned.value.plans;
      RunPlansFacts(env, s.(world := w), cfg, plans, |plans|);
      var p := RunPlans(env, s.(world := w), cfg, plans, |plans|);
      AuditedCycle(w, p.sys.world, p.acks, Round(planned.value.observedLedger, planned.value.live, p.acks), opening);
    }
  }

  lemma WaitKeepsAudit(env: Environment, s: Sys, opening: nat)
    requires Audited(s.world, opening)
    ensures Audited(Waited(env, s).world, opening)
  {
    hide Step, Audited;
    StepMovesOn(env, s.world);
    AuditMovesOn(s.world, Step(env, s.world), opening);
  }

  lemma {:induction false} AttemptsAudit(env: Environment, s: Sys, cfg: ValidConfig, policy: RetryPolicy,
        m: Counters, attempt: nat, opening: nat)
    requires !cfg.Resolution().ResolutionPanics? && Audited(s.world, opening)
    ensures Audited(Attempts(env, s, cfg, policy, m, attempt).sys.world, opening)
    decreases CyclesLeft(policy, attempt)
  {
    hide RunCycle, Waited, Watch.Resolve, Audited;
    CycleAudit(env, s, cfg, opening);
    var (s', r) := RunCycle(env, s, cfg);
    if r.Ok? || GivesUp(policy, attempt + 1, r.error) {
    } else {
      WaitKeepsAudit(env, s', opening);
      AttemptsAudit(env, Waited(env, s'), cfg, policy, m, attempt + 1, opening);
    }
  }

  lemma {:induction false} TicksAudit(env: Environment, s: Sys, cfg: ValidConfig, policy: RetryPolicy, m: Counters,
        n: nat, opening: nat)
    requires !cfg.Resolution().ResolutionPanics? && Audited(s.world, opening)
    ensures Audited(RunTicks(env, s, cfg, policy, m, n).0.world, opening)
  {
    hide Attempts, Waited, Watch.Resolve, Audited;
    if n == 0 {
    } else {
      TicksAudit(env, s, cfg, policy, m, n - 1, opening);
      var before := RunTicks(env, s, cfg, policy, m, n - 1);
      WaitKeepsAudit(env, before.0, opening);
      AttemptsAudit(env, Waited(env, before.0), cfg, policy, before.1, 0, opening);
    }
  }

  /**
   * Over every run from a consistent start: what the submitted counter (`AllAcks`) leaves out of the node's
   * log is exactly the envelopes whose answer was lost and those acknowledged in cycles that failed later.
   */
  lemma MetricGap(env: Environment, s: Sys, cfg: ValidConfig, policy: RetryPolicy, m: Counters, n: nat)
    requires !cfg.Resolution().ResolutionPanics? && s.world.rounds == [] && Consistent(s.world)
    ensures var w := RunTicks(env, s, cfg, policy, m, n).0.world;
            && (forall i :: |s.world.log| <= i < |w.log| ==>
                  (i !in AllAcks(w.rounds) <==> i in w.lost || i in w.orphaned))
            && (forall i :: i >= |s.world.log| ==> !(i in w.lost && i in w.orphaned))
  {
    hide RunTicks, Watch.Resolve;
    TicksAudit(env, s, cfg, policy, m, n, |s.world.log|);
  }

  /**
   * The counters of a daemon started fresh, after any number of ticks on any network: they never claim
   * more submissions than the node accepted, they are ordered as their names suggest, and the gauges show the
   * last cycle that ended in `Ok`: its ledger, and how many of the entries it saw live are within the horizon.
   */
  lemma MetricInvariants(env: Environment, s: Sys, cfg: ValidConfig, policy: RetryPolicy, n: nat)
    requires !cfg.Resolution().ResolutionPanics? && s.world.rounds == []
    ensures var (s', m) := RunTicks(env, s, cfg, policy, Counters(0, 0, 0, 0, 0, 0), n);
            && m.extendsAccepted <= m.extendsSubmitted <= 2 * m.extendsAccepted
            && m.extendsAccepted <= m.pollCycles
            && m.pollCycles + m.extendsRejected <= n
            && m.pollCycles == |s'.world.rounds|
            && (s'.world.rounds == [] ==> m.latestObservedLedger == m.entriesAtRisk == 0)
            && (s'.world.rounds != [] ==>
                  var last := s'.world.rounds[|s'.world.rounds| - 1];
                  && m.latestObservedLedger == last.observed
                  && m.entriesAtRisk == |cfg.ThePlanner().AtRisk(last.live)|)
            && |s.world.log| + m.extendsSubmitted <= |s'.world.log|
            && m.extendsSubmitted == |AllAcks(s'.world.rounds)|
            && Increasing(AllAcks(s'.world.rounds))
            && (forall a :: a in AllAcks(s'.world.rounds) ==> |s.world.log| <= a < |s'.world.log|)
  {
    hide RunTicks, Watch.Resolve, Planner.AtRisk;
    TicksBooks(env, s, cfg, policy, Counters(0, 0, 0, 0, 0, 0), n, |s.world.log|);
    var s' := RunTicks(env, s, cfg, policy, Counters(0, 0, 0, 0, 0, 0), n).0;
    IncreasingFits(AllAcks(s'.world.rounds), |s.world.log|, |s'.world.log|);
  }
}
