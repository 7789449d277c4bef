/** Sequence numbers over whole runs of the daemon: what always holds, what heals, what stays stuck. */
module SequenceRuns {
  import opened Basics
  import opened Plan
  import opened Planner
  import opened Provider
  import opened Tx
  import opened Network
  import opened Evolution
  import opened Sequence
  import opened Keeper
  import opened Submission
  import opened Coverage
  import opened Daemon

  // --- The cache never falls behind ----------------------------------------------------------------

  /** Nobody else submits from the account from move `t0` on. */
  ghost predicate NoForeignFrom(env: Environment, t0: nat) {
    forall t :: t >= t0 ==> NoForeign(env(t))
  }

  /** Nobody else submits from move `t0` on, and account lookups count everything the node has accepted. */
  ghost predicate SoleSubmitter(env: Environment, t0: nat) {
    NoForeignFrom(env, t0) && forall t :: t >= t0 ==> env(t).lag == 0
  }

  /** Accepted sequence numbers strictly increase, and the cache is empty or not behind the account. */
  ghost predicate SequenceOk(s: Sys, t0: nat) {
    && t0 <= s.world.time
    && Consistent(s.world)
    && (s.cache.Some? ==> s.cache.value >= s.world.accountSeq)
  }

  lemma TicketKeepsSequence(env: Environment, s: Sys, t0: nat)
    requires SoleSubmitter(env, t0) && SequenceOk(s, t0)
    ensures var (s', r) := TakeTicket(env, s);
            && SequenceOk(s', t0)
            && (r.Ok? ==> s'.cache == Some(r.value) && r.value > s'.world.accountSeq)
  {
    hide Step, NoForeign;
    StepMovesOn(env, s.world);
    StepKeepsSequence(env, s.world);
  }

  lemma FinishKeepsTicket(cfg: ValidConfig, plan: ArchivalPlan, seqNum: int, sim: SimulationResult)
    requires cfg.Builder().BuildUnsigned(plan, cfg.crypto.publicKey(cfg.signingKey), seqNum).Ok?
    ensures var unsigned := cfg.Builder().BuildUnsigned(plan, cfg.crypto.publicKey(cfg.signingKey), seqNum).value;
            var done := Finish(cfg, unsigned, sim);
            && (done.Ok? ==> done.value.V1? && done.value.tx.seqNum == seqNum)
            && (sim.error.None? && sim.transactionData.Some? && sim.transactionData.value.Encodes? ==> done.Ok?)
            && (done.Err? && !(sim.error == Some(true)) ==> !IsBadSeqError(done.error))
  {
  }

  lemma SubmitKeepsSequence(env: Environment, s: Sys, cfg: ValidConfig, plan: ArchivalPlan, t0: nat)
    requires SoleSubmitter(env, t0) && SequenceOk(s, t0)
    ensures SequenceOk(SubmitPlan(env, s, cfg, plan).0, t0)
  {
    hide Step, TakeTicket, Finish, Consistent, NoForeign;
    TicketKeepsSequence(env, s, t0);
    SubmitPlanFacts(env, s, cfg, plan);
    var (s1, ticket) := TakeTicket(env, s);
    if ticket.Ok? {
      var built := cfg.Builder().BuildUnsigned(plan, cfg.crypto.publicKey(cfg.signingKey), ticket.value);
      if built.Ok? {
        StepMovesOn(env, s1.world);
        StepKeepsSequence(env, s1.world);
        var (w, simulation) := Simulate(env, s1.world, built.value);
        if simulation.Ok? {
          FinishKeepsTicket(cfg, plan, ticket.value, simulation.value);
          StepKeepsSequence(env, w);
        }
      }
    }
  }

  lemma {:induction false} PlansKeepSequence(env: Environment, s: Sys, cfg: ValidConfig, plans: seq<ArchivalPlan>,
        n: nat, t0: nat)
    requires SoleSubmitter(env, t0) && SequenceOk(s, t0) && n <= |plans|
    ensures SequenceOk(RunPlans(env, s, cfg, plans, n).sys, t0)
  {
    hide SubmitPlan, Consistent, SoleSubmitter;
    if n == 0 {
    } else {
      PlansKeepSequence(env, s, cfg, plans, n - 1, t0);
      var before := RunPlans(env, s, cfg, plans, n - 1);
      if before.failure.None? {
        SubmitKeepsSequence(env, before.sys, cfg, plans[n - 1], t0);
        var (s1, first) := SubmitPlan(env, before.sys, cfg, plans[n - 1]);
        if first.Err? {
          SubmitKeepsSequence(env, Report(s1, first.error), cfg, plans[n - 1], t0);
        }
      }
    }
  }

  lemma {:induction false} AfterKeepsSequence(env: Environment, w: World, n: nat)
    requires NoForeignFrom(env, w.time)
    ensures After(env, w, n).accountSeq == w.accountSeq && After(env, w, n).time == w.time + n
  {
    hide Step, NoForeign;
    if n == 0 {
    } else {
      AfterKeepsSequence(env, w, n - 1);
      StepMovesOn(env, After(env, w, n - 1));
      StepKeepsSequence(env, After(env, w, n - 1));
    }
  }

  lemma PlanningKeepsSequence(env: Environment, w: World, cfg: ValidConfig, t0: nat)
    requires NoForeignFrom(env, t0) && t0 <= w.time && !cfg.Resolution().ResolutionPanics?
    ensures PlanCycle(env, w, cfg).0.accountSeq == w.accountSeq
  {
    hide Step, After, ObserveEntries, ObserveUpTo, Chunks, RequestsSent, WorldReplies, PlanObserved, Watch.Resolve,
         NoForeign;
    if cfg.Resolution().Keys? {
      StepMovesOn(env, w);
      StepKeepsSequence(env, w);
      var w1, chunks := GetNetwork(env, w).0, Chunks(cfg.Resolution().keys, OBSERVE_BATCH_ENTRIES);
      EntriesSeen(env, w1, cfg.codec, cfg.Resolution().keys);
      AfterKeepsSequence(env, w1, RequestsSent(cfg.codec, chunks, WorldReplies(env, w1), |chunks|));
    }
  }

  /** History does not matter to sequence numbers. */
  lemma NotesKeepSequence(s: Sys, r: Round, acks: seq<nat>, t0: nat)
    requires SequenceOk(s, t0) && forall a :: a in acks ==> a < |s.world.log|
    ensures SequenceOk(s.(world := Record(s.world, r)), t0)
    ensures SequenceOk(s.(world := RecordFailure(s.world, acks)), t0)
  {
  }

  lemma CycleKeepsSequence(env: Environment, s: Sys, cfg: ValidConfig, t0: nat)
    requires SoleSubmitter(env, t0) && SequenceOk(s, t0) && !cfg.Resolution().ResolutionPanics?
    ensures SequenceOk(RunCycle(env, s, cfg).0, t0)
  {
    hide PlanCycle, RunPlans, Watch.Resolve, Consistent, NoForeignFrom;
    PlanningKeepsSequence(env, s.world, cfg, t0);
    PlanCycleFacts(env, s.world, cfg);
    var (w, planned) := PlanCycle(env, s.world, cfg);
    if planned.Ok? {
      var plans := planned.value.plans;
      PlansKeepSequence(env, s.(world := w), cfg, plans, |plans|, t0);
      RunPlansFacts(env, s.(world := w), cfg, plans, |plans|);
      var p := RunPlans(env, s.(world := w), cfg, plans, |plans|);
      NotesKeepSequence(p.sys, Round(planned.value.observedLedger, planned.value.live, p.acks), p.acks, t0);
    }
  }

  lemma WaitKeepsSequence(env: Environment, s: Sys, t0: nat)
    requires SoleSubmitter(env, t0) && SequenceOk(s, t0)
    ensures SequenceOk(Waited(env, s), t0)
  {
    hide Step, NoForeign;
    StepMovesOn(env, s.world);
    StepKeepsSequence(env, s.world);
  }

  lemma {:induction false} AttemptsKeepSequence(env: Environment, s: Sys, cfg: ValidConfig, policy: RetryPolicy,
        m: Counters, attempt: nat, t0: nat)
    requires SoleSubmitter(env, t0) && SequenceOk(s, t0) && !cfg.Resolution().ResolutionPanics?
    ensures SequenceOk(Attempts(env, s, cfg, policy, m, attempt).sys, t0)
    decreases if policy.attempts > attempt then policy.attempts - attempt else 0
  {
    hide RunCycle, SequenceOk, Waited, Watch.Resolve, SoleSubmitter;
    CycleKeepsSequence(env, s, cfg, t0);
    var (s', r) := RunCycle(env, s, cfg);
    if r.Ok? || GivesUp(policy, attempt + 1, r.error) {
    } else {
      WaitKeepsSequence(env, s', t0);
      AttemptsKeepSequence(env, Waited(env, s'), cfg, policy, m, attempt + 1, t0);
    }
  }

  /**
   * Without foreign submitters and lagging lookups from the start on, after every tick: the cache is empty or not
   * behind the account, although failed builds, failed simulations and lost answers burn tickets, and no two
   * accepted envelopes share a sequence number.
   */
  lemma {:induction false} SequenceInvariant(env: Environment, s: Sys, cfg: ValidConfig, policy: RetryPolicy,
        m: Counters, n: nat, t0: nat)
    requires SoleSubmitter(env, t0) && SequenceOk(s, t0) && !cfg.Resolution().ResolutionPanics?
    ensures SequenceOk(RunTicks(env, s, cfg, policy, m, n).0, t0)
  {
    hide Attempts, SequenceOk, Waited, Watch.Resolve, SoleSubmitter;
    if n == 0 {
    } else {
      SequenceInvariant(env, s, cfg, policy, m, n - 1, t0);
      var before := RunTicks(env, s, cfg, policy, m, n - 1);
      WaitKeepsSequence(env, before.0, t0);
      AttemptsKeepSequence(env, Waited(env, before.0), cfg, policy, before.1, 0, t0);
    }
  }

  /** The same inside a tick: at the start of each of its cycles, and after each plan of such a cycle. */
  lemma {:induction false} SequenceWithinTick(env: Environment, s: Sys, cfg: ValidConfig, policy: RetryPolicy,
        m: Counters, n: nat, j: nat, i: nat, t0: nat)
    requires SoleSubmitter(env, t0) && SequenceOk(s, t0) && !cfg.Resolution().ResolutionPanics?
    ensures var start := CycleStart(env, s, cfg, policy, m, n, j);
            var (w, planned) := PlanCycle(env, start.world, cfg);
            && SequenceOk(start, t0)
            && SequenceOk(start.(world := w), t0)
            && (planned.Ok? && i <= |planned.value.plans| ==>
                  SequenceOk(RunPlans(env, start.(world := w), cfg, planned.value.plans, i).sys, t0))
  {
    hide RunTicks, RunCycle, PlanCycle, RunPlans, Waited, Watch.Resolve, Consistent, NoForeignFrom;
    var start := CycleStart(env, s, cfg, policy, m, n, j);
    if j == 0 {
      SequenceInvariant(env, s, cfg, policy, m, n, t0);
      WaitKeepsSequence(env, RunTicks(env, s, cfg, policy, m, n).0, t0);
    } else {
      var before := CycleStart(env, s, cfg, policy, m, n, j - 1);
      SequenceWithinTick(env, s, cfg, policy, m, n, j - 1, 0, t0);
      CycleKeepsSequence(env, before, cfg, t0);
      WaitKeepsSequence(env, RunCycle(env, before, cfg).0, t0);
    }
    PlanningKeepsSequence(env, start.world, cfg, t0);
    PlanCycleFacts(env, start.world, cfg);
    var (w, planned) := PlanCycle(env, start.world, cfg);
    if planned.Ok? && i <= |planned.value.plans| {
      PlansKeepSequence(env, start.(world := w), cfg, planned.value.plans, i, t0);
    }
  }

  // --- Healing ---------------------------------------------------------------------------------------

  /** Nothing can go wrong in this move except that a sequence number does not fit. */
  predicate OnlySequenceFails(m: Move) {
    m.fault.None? && m.sim.SimAnswer? && m.send.Deliver?
  }

  predicate Submittable(plan: ArchivalPlan) {
    1 <= |plan.entries| <= 100
  }

  /**
   * One attempt whose ticket is known, seen from the outside, whatever the fate of its send: the node takes the
   * envelope exactly when the ticket fits and the send is not refused, and the daemon learns of it exactly
   * when the answer is not lost either.
   */
  lemma AttemptOutcome(env: Environment, s: Sys, cfg: ValidConfig, plan: ArchivalPlan)
    requires Submittable(plan) && TakeTicket(env, s).1.Ok?
    requires var t := TakeTicket(env, s).0.world.time; env(t).fault.None? && env(t).sim.SimAnswer?
    ensures var (s1, ticket) := TakeTicket(env, s);
            var (s', r) := SubmitPlan(env, s, cfg, plan);
            var before := Step(env, Step(env, s1.world));
            var t := s1.world.time;
            var taken := ticket.value == before.accountSeq + 1 && !env(t + 1).send.Refuse?;
            && s'.world.time == t + 2
            && s'.cache == s1.cache
            && (r.Ok? <==> taken && env(t + 1).send.Deliver?)
            && (r.Err? ==> r.error == Rpc(env(t + 1).send.badSeqMarked))
            && s'.world.accountSeq == before.accountSeq + (if taken then 1 else 0)
            && |s'.world.log| == |s.world.log| + (if taken then 1 else 0)
            && s.world.log <= s'.world.log
            && (taken && env(t + 1).send.LostReply? ==> |s.world.log| in s'.world.lost)
  {
    hide Step, TakeTicket, Finish;
    TakeTicketFacts(env, s);
    var (s1, ticket) := TakeTicket(env, s);
    var unsigned := cfg.Builder().BuildUnsigned(plan, cfg.crypto.publicKey(cfg.signingKey), ticket.value).value;
    StepMovesOn(env, s1.world);
    var (w, simulation) := Simulate(env, s1.world, unsigned);
    StepMovesOn(env, w);
    FinishKeepsTicket(cfg, plan, ticket.value, simulation.value);
  }

  /** The move of the first send, and the move at which a retry asks for the account. */
  function FirstSend(s: Sys): nat {
    s.world.time + if s.cache.Some? then 1 else 2
  }

  function RetryRefresh(s: Sys): nat {
    FirstSend(s) + 1
  }

  /** Nobody else submits between the refresh at move `t` and the send that follows it. */
  predicate QuietRefresh(env: Environment, t: nat) {
    NoForeign(env(t + 1)) && NoForeign(env(t + 2))
  }

  /** The moves a plan's two attempts consume, and which of them must be free of foreign submissions. */
  ghost predicate QuietAfterRefresh(env: Environment, s: Sys) {
    && (forall t :: s.world.time <= t <= RetryRefresh(s) + 2 ==> OnlySequenceFails(env(t)))
    && QuietRefresh(env, RetryRefresh(s)) && (s.cache.None? ==> QuietRefresh(env, s.world.time))
  }

  /** An attempt that starts by asking the node misses exactly when the lookup lags, if nobody else submits. */
  lemma RefreshedAttempt(env: Environment, s: Sys, cfg: ValidConfig, plan: ArchivalPlan)
    requires Submittable(plan) && s.cache.None?
    requires forall t :: s.world.time <= t <= s.world.time + 2 ==> OnlySequenceFails(env(t))
    requires QuietRefresh(env, s.world.time)
    ensures var (s', r) := SubmitPlan(env, s, cfg, plan);
            && s'.world.time == s.world.time + 3
            && (r.Ok? <==> env(s.world.time).lag == 0)
            && (r.Ok? ==> s'.cache == Some(s'.world.accountSeq) && |s'.world.log| == |s.world.log| + 1)
            && (r.Err? ==> r.error == Rpc(env(s.world.time + 2).send.badSeqMarked) && s'.world.log == s.world.log
                           && s'.cache == Some(s'.world.accountSeq + 1 - env(s.world.time).lag))
  {
    hide Step, SubmitPlan, NoForeign;
    StepMovesOn(env, s.world);
    var s1 := TakeTicket(env, s).0;
    StepMovesOn(env, s1.world);
    StepKeepsSequence(env, s1.world);
    StepKeepsSequence(env, Step(env, s1.world));
    assert OnlySequenceFails(env(s.world.time)) && OnlySequenceFails(env(s.world.time + 1))
           && OnlySequenceFails(env(s.world.time + 2));
    AttemptOutcome(env, s, cfg, plan);
  }

  /**
   * Self-healing, exactly: from any cache value, when only sequence numbers can fail and nobody else submits
   * between a refresh and its send, the plan is accepted within two attempts if and only if the first ticket fits,
   * or its rejection carries a recognised marker and the lookup that follows counts everything the node has
   * accepted; afterwards the cache equals the account. The first ticket of an empty cache fits exactly when its
   * own lookup does not lag.
   */
  lemma SelfHealing(env: Environment, s: Sys, cfg: ValidConfig, plan: ArchivalPlan)
    requires Submittable(plan) && QuietAfterRefresh(env, s)
    ensures var (s', r) := SubmitWithRetry(env, s, cfg, plan);
            var fits := if s.cache.Some? then s.cache.value == Step(env, Step(env, s.world)).accountSeq
                        else env(s.world.time).lag == 0;
            && (r.Ok? <==> fits || (env(FirstSend(s)).send.badSeqMarked && env(RetryRefresh(s)).lag == 0))
            && (r.Ok? ==> s'.cache == Some(s'.world.accountSeq))
            && s'.requests <= s.requests + 2
  {
    hide Step, SubmitPlan, QuietRefresh;
    SubmitPlanFacts(env, s, cfg, plan);
    var (s1, r1) := SubmitPlan(env, s, cfg, plan);
    if s.cache.None? {
      RefreshedAttempt(env, s, cfg, plan);
    } else {
      assert OnlySequenceFails(env(s.world.time)) && OnlySequenceFails(env(s.world.time + 1));
      AttemptOutcome(env, s, cfg, plan);
    }
    if r1.Err? && IsBadSeqError(r1.error) {
      RefreshedAttempt(env, Report(s1, r1.error), cfg, plan);
      SubmitPlanFacts(env, Report(s1, r1.error), cfg, plan);
    }
  }

  /** Calm but for the fate of the first send. */
  ghost predicate CalmButForSend(env: Environment, s: Sys) {
    && (forall u :: s.world.time <= u <= RetryRefresh(s) + 2 ==>
          env(u).fault.None? && env(u).lag == 0 && env(u).sim.SimAnswer? && NoForeign(env(u)))
    && (forall u :: RetryRefresh(s) <= u <= RetryRefresh(s) + 2 ==> env(u).send.Deliver?)
  }

  /**
   * In surroundings that are calm but for the fate of the first send, the node takes a plan twice if and only if
   * it takes the first envelope and that answer is lost with a recognised marker. The second envelope has a
   * sequence number of its own, carries the plan again, and is the only one the daemon counts.
   */
  lemma LostAnswerSubmitsTwice(env: Environment, s: Sys, cfg: ValidConfig, plan: ArchivalPlan)
    requires Submittable(plan) && CalmButForSend(env, s)
    ensures var (s', r) := SubmitWithRetry(env, s, cfg, plan);
            var fits := s.cache.Some? ==> s.cache.value == s.world.accountSeq;
            var twice := fits && env(FirstSend(s)).send == LostReply(true);
            && (|s'.world.log| == |s.world.log| + 2 <==> twice)
            && (twice ==>
                  && r == Ok(Some(|s.world.log| + 1)) && |s.world.log| in s'.world.lost
                  && Carries(env, cfg, s'.world.log[|s.world.log| + 1], plan))
            && (!twice ==> |s'.world.log| <= |s.world.log| + 1)
  {
    hide Step, SubmitPlan, Carries, CarriesFrom, NoForeign, Consistent, NamesKeys, KeepsFootprints, Accounted;
    var t := s.world.time;
    StepMovesOn(env, s.world);
    StepKeepsSequence(env, s.world);
    var s0 := TakeTicket(env, s).0;
    StepMovesOn(env, s0.world);
    StepKeepsSequence(env, s0.world);
    StepKeepsSequence(env, Step(env, s0.world));
    AttemptOutcome(env, s, cfg, plan);
    SubmitPlanFacts(env, s, cfg, plan);
    var (s1, first) := SubmitPlan(env, s, cfg, plan);
    if first.Err? && IsBadSeqError(first.error) {
      assert forall u :: RetryRefresh(s) <= u <= RetryRefresh(s) + 2 ==> OnlySequenceFails(env(u));
      RefreshedAttempt(env, Report(s1, first.error), cfg, plan);
      SubmitPlanFacts(env, Report(s1, first.error), cfg, plan);
    }
  }

  // --- Calm cycles -------------------------------------------------------------------------------------

  /** What a plan submitted from `s` needs of its surroundings; foreign submissions at other moments do no harm. */
  ghost predicate CalmFor(env: Environment, s: Sys) {
    && QuietAfterRefresh(env, s)
    && ((s.cache.None? && env(s.world.time).lag == 0)
        || (env(FirstSend(s)).send.badSeqMarked && env(RetryRefresh(s)).lag == 0))
  }

  /** Every plan finds these surroundings when its turn comes. */
  ghost predicate CalmSubmissions(env: Environment, s: Sys, cfg: ValidConfig, plans: seq<ArchivalPlan>) {
    forall i: nat :: i < |plans| ==> CalmFor(env, RunPlans(env, s, cfg, plans, i).sys)
  }

  lemma OversizedPlanFails(env: Environment, s: Sys, cfg: ValidConfig, plan: ArchivalPlan)
    requires !Submittable(plan)
    ensures SubmitWithRetry(env, s, cfg, plan).1.Err?
  {
    hide SubmitPlan;
    SubmitPlanFacts(env, s, cfg, plan);
    var (s1, first) := SubmitPlan(env, s, cfg, plan);
    if first.Err? {
      SubmitPlanFacts(env, Report(s1, first.error), cfg, plan);
    }
  }

  lemma SubmitTakesTime(env: Environment, s: Sys, cfg: ValidConfig, plan: ArchivalPlan)
    ensures s.world.time <= SubmitPlan(env, s, cfg, plan).0.world.time <= s.world.time + 3
  {
    hide Step, Finish;
    var s1 := TakeTicket(env, s).0;
    StepMovesOn(env, s.world);
    StepMovesOn(env, s1.world);
    StepMovesOn(env, Step(env, s1.world));
  }

  lemma RetryTakesTime(env: Environment, s: Sys, cfg: ValidConfig, plan: ArchivalPlan)
    ensures s.world.time <= SubmitWithRetry(env, s, cfg, plan).0.world.time <= s.world.time + 6
  {
    hide SubmitPlan;
    SubmitTakesTime(env, s, cfg, plan);
    var (s1, first) := SubmitPlan(env, s, cfg, plan);
    if first.Err? {
      SubmitTakesTime(env, Report(s1, first.error), cfg, plan);
    }
  }

  /** In calm, a plan is accepted within two attempts exactly when it is not too large for a footprint. */
  lemma CalmRetry(env: Environment, s: Sys, cfg: ValidConfig, plan: ArchivalPlan)
    requires CalmFor(env, s)
    ensures var (s', r) := SubmitWithRetry(env, s, cfg, plan);
            && (r.Ok? <==> Submittable(plan))
            && (r.Ok? ==> r.value.Some? && s'.cache == Some(s'.world.accountSeq))
  {
    hide SubmitWithRetry, Submittable, QuietAfterRefresh;
    if Submittable(plan) {
      SelfHealing(env, s, cfg, plan);
      SubmitWithRetryFacts(env, s, cfg, plan);
    } else {
      OversizedPlanFails(env, s, cfg, plan);
    }
  }

  /** In calm, plans are accepted one after the other until one is too large for a footprint. */
  lemma {:induction false} CalmRunPlans(env: Environment, s: Sys, cfg: ValidConfig, plans: seq<ArchivalPlan>, n: nat)
    requires n <= |plans| && CalmSubmissions(env, s, cfg, plans)
    ensures var p := RunPlans(env, s, cfg, plans, n);
            && (p.failure.None? <==> forall i :: 0 <= i < n ==> Submittable(plans[i]))
            && (p.failure.None? && n > 0 ==> p.sys.cache == Some(p.sys.world.accountSeq))
  {
    hide SubmitWithRetry, Submittable, CalmFor;
    if n == 0 {
    } else {
      CalmRunPlans(env, s, cfg, plans, n - 1);
      var before := RunPlans(env, s, cfg, plans, n - 1);
      if before.failure.None? {
        CalmRetry(env, before.sys, cfg, plans[n - 1]);
      }
    }
  }

  /**
   * When its submissions meet calm, a cycle that gets as far as planning succeeds, from any cache value, if
   * and only if no durability class has more than 100 entries at risk (the planner does not cap a plan, the
   * builder does); after a success that submitted anything the cache equals the account.
   */
  lemma CalmCycleSucceedsIff(env: Environment, s: Sys, cfg: ValidConfig)
    requires !cfg.Resolution().ResolutionPanics? && PlanCycle(env, s.world, cfg).1.Ok?
    requires var (w, planned) := PlanCycle(env, s.world, cfg);
             CalmSubmissions(env, s.(world := w), cfg, planned.value.plans)
    ensures var (s', r) := RunCycle(env, s, cfg);
            var plans := PlanCycle(env, s.world, cfg).1.value.plans;
            && (r.Ok? <==> forall p :: p in plans ==> |p.entries| <= 100)
            && (r.Ok? && plans != [] ==> s'.cache == Some(s'.world.accountSeq))
  {
    hide PlanCycle, RunPlans, Watch.Resolve, PlanObserved, CalmSubmissions;
    PlanCycleFacts(env, s.world, cfg);
    var (w, planned) := PlanCycle(env, s.world, cfg);
    var plans := planned.value.plans;
    PlansAreExtensions(cfg, cfg.Resolution().keys, Observed(env, s.world, cfg).value);
    CalmRunPlans(env, s.(world := w), cfg, plans, |plans|);
    SubmittableBySize(plans);
  }

  lemma SubmittableBySize(plans: seq<ArchivalPlan>)
    requires forall p :: p in plans ==> p.entries != []
    ensures (forall i :: 0 <= i < |plans| ==> Submittable(plans[i]))
            <==> forall p :: p in plans ==> |p.entries| <= 100
  {
    assert forall i :: 0 <= i < |plans| ==>
        plans[i] in plans && (Submittable(plans[i]) <==> |plans[i].entries| <= 100);
  }

  lemma {:induction false} PlansTakeTime(env: Environment, s: Sys, cfg: ValidConfig, plans: seq<ArchivalPlan>, n: nat)
    requires n <= |plans|
    ensures s.world.time <= RunPlans(env, s, cfg, plans, n).sys.world.time <= s.world.time + 6 * n
  {
    hide SubmitWithRetry;
    if n == 0 {
    } else {
      PlansTakeTime(env, s, cfg, plans, n - 1);
      RetryTakesTime(env, RunPlans(env, s, cfg, plans, n - 1).sys, cfg, plans[n - 1]);
    }
  }

  /** Six quiet moves for each plan are calm enough. */
  lemma QuietWindowIsCalm(env: Environment, s: Sys, cfg: ValidConfig, plans: seq<ArchivalPlan>)
    requires forall u :: s.world.time <= u < s.world.time + 6 * |plans| ==>
               OnlySequenceFails(env(u)) && env(u).send.badSeqMarked && env(u).lag == 0 && NoForeign(env(u))
    ensures CalmSubmissions(env, s, cfg, plans)
  {
    hide RunPlans, OnlySequenceFails, NoForeign;
    forall i: nat | i < |plans| ensures CalmFor(env, RunPlans(env, s, cfg, plans, i).sys) {
      PlansTakeTime(env, s, cfg, plans, i);
    }
  }

  // --- Without a recognised marker ---------------------------------------------------------------------

  predicate UnmarkedMove(m: Move) {
    && m.fault != Some(true)
    && (m.sim.SimRejected? ==> !m.sim.badSeq)
    && !m.send.badSeqMarked
  }

  /** From move `t0` on no error is recognised as a sequence error and nobody else submits. */
  ghost predicate Unrecognised(env: Environment, t0: nat) {
    NoForeignFrom(env, t0) && forall t :: t >= t0 ==> UnmarkedMove(env(t))
  }

  /** Tickets have been burned: the cache is ahead of the account. */
  predicate Ahead(s: Sys) {
    s.cache.Some? && s.cache.value > s.world.accountSeq
  }

  lemma SubmitStaysAhead(env: Environment, s: Sys, cfg: ValidConfig, plan: ArchivalPlan, t0: nat)
    requires Unrecognised(env, t0) && t0 <= s.world.time && Ahead(s)
    ensures var (s', r) := SubmitPlan(env, s, cfg, plan);
            && Ahead(s') && s'.world.log == s.world.log && t0 <= s'.world.time
            && r.Err? && !IsBadSeqError(r.error)
  {
    hide Step, Finish, NoForeign, UnmarkedMove;
    SubmitTakesTime(env, s, cfg, plan);
    var s1 := TakeTicket(env, s).0;
    var built := cfg.Builder().BuildUnsigned(plan, cfg.crypto.publicKey(cfg.signingKey), s.cache.value + 1);
    if built.Ok? {
      StepMovesOn(env, s1.world);
      StepKeepsSequence(env, s1.world);
      var (w, simulation) := Simulate(env, s1.world, built.value);
      UnmarkedAnswers(env, s1.world, built.value);
      if simulation.Ok? {
        FinishKeepsTicket(cfg, plan, s.cache.value + 1, simulation.value);
        StepMovesOn(env, w);
        StepKeepsSequence(env, w);
        MarkOfSend(env(w.time));
      }
    }
  }

  lemma UnmarkedAnswers(env: Environment, w: World, e: TransactionEnvelope)
    requires UnmarkedMove(env(w.time))
    ensures var r := Simulate(env, w, e).1;
            (r.Ok? ==> r.value.error != Some(true)) && (r.Err? ==> !RpcError(r.error).badSeq)
  {
    hide Step;
  }

  lemma MarkOfSend(m: Move)
    requires UnmarkedMove(m)
    ensures !m.send.badSeqMarked
  {
  }

  lemma {:induction false} PlansStayAhead(env: Environment, s: Sys, cfg: ValidConfig, plans: seq<ArchivalPlan>,
        n: nat, t0: nat)
    requires Unrecognised(env, t0) && t0 <= s.world.time && Ahead(s) && n <= |plans|
    ensures var p := RunPlans(env, s, cfg, plans, n);
            Ahead(p.sys) && p.sys.world.log == s.world.log && t0 <= p.sys.world.time && (n > 0 ==> p.failure.Some?)
  {
    hide SubmitPlan, Ahead, Unrecognised;
    if n == 0 {
    } else {
      PlansStayAhead(env, s, cfg, plans, n - 1, t0);
      SubmitStaysAhead(env, RunPlans(env, s, cfg, plans, n - 1).sys, cfg, plans[n - 1], t0);
    }
  }

  lemma CycleStaysAhead(env: Environment, s: Sys, cfg: ValidConfig, t0: nat)
    requires Unrecognised(env, t0) && t0 <= s.world.time && Ahead(s) && !cfg.Resolution().ResolutionPanics?
    ensures var s' := RunCycle(env, s, cfg).0; Ahead(s') && s'.world.log == s.world.log && t0 <= s'.world.time
  {
    hide PlanCycle, RunPlans, Watch.Resolve, NoForeignFrom;
    PlanningKeepsSequence(env, s.world, cfg, t0);
    PlanCycleFacts(env, s.world, cfg);
    var (w, planned) := PlanCycle(env, s.world, cfg);
    if planned.Ok? {
      PlansStayAhead(env, s.(world := w), cfg, planned.value.plans, |planned.value.plans|, t0);
    }
  }

  lemma WaitStays(env: Environment, s: Sys, t0: nat)
    requires NoForeignFrom(env, t0) && t0 <= s.world.time
    ensures var s' := Waited(env, s);
            && s'.world.accountSeq == s.world.accountSeq && s'.world.log == s.world.log
            && s'.cache == s.cache && t0 <= s'.world.time
  {
    hide Step, NoForeign;
    StepMovesOn(env, s.world);
    StepKeepsSequence(env, s.world);
  }

  lemma {:induction false} AttemptsStayAhead(env: Environment, s: Sys, cfg: ValidConfig, policy: RetryPolicy,
        m: Counters, attempt: nat, t0: nat)
    requires Unrecognised(env, t0) && t0 <= s.world.time && Ahead(s) && !cfg.Resolution().ResolutionPanics?
    ensures var s' := Attempts(env, s, cfg, policy, m, attempt).sys;
            Ahead(s') && s'.world.log == s.world.log && t0 <= s'.world.time
    decreases if policy.attempts > attempt then policy.attempts - attempt else 0
  {
    hide RunCycle, Waited, Watch.Resolve, NoForeignFrom;
    CycleStaysAhead(env, s, cfg, t0);
    var (s', r) := RunCycle(env, s, cfg);
    if r.Ok? || GivesUp(policy, attempt + 1, r.error) {
    } else {
      WaitStays(env, s', t0);
      AttemptsStayAhead(env, Waited(env, s'), cfg, policy, m, attempt + 1, t0);
    }
  }

  /** Once ahead, with rejections not recognised from then on, nothing is ever accepted again. */
  lemma {:induction false} UnrecognisedRejectionIsFinal(env: Environment, s: Sys, cfg: ValidConfig,
        policy: RetryPolicy, m: Counters, n: nat, t0: nat)
    requires Unrecognised(env, t0) && t0 <= s.world.time && Ahead(s) && !cfg.Resolution().ResolutionPanics?
    ensures var s' := RunTicks(env, s, cfg, policy, m, n).0;
            Ahead(s') && s'.world.log == s.world.log && t0 <= s'.world.time
  {
    hide Attempts, Waited, Watch.Resolve, NoForeignFrom;
    if n == 0 {
    } else {
      UnrecognisedRejectionIsFinal(env, s, cfg, policy, m, n - 1, t0);
      var before := RunTicks(env, s, cfg, policy, m, n - 1);
      WaitStays(env, before.0, t0);
      AttemptsStayAhead(env, Waited(env, before.0), cfg, policy, before.1, 0, t0);
    }
  }

  /**
   * How the daemon gets ahead: an attempt that refreshes and then fails, for whatever reason (the plan too
   * large, the simulation faulted or rejected, the envelope refused), leaves the cache ahead if and only if
   * the node did not take the envelope.
   */
  lemma BurnedTicketRunsAhead(env: Environment, s: Sys, cfg: ValidConfig, plan: ArchivalPlan)
    requires s.cache.None? && env(s.world.time).fault.None? && env(s.world.time).lag == 0
    requires NoForeign(env(s.world.time + 1)) && NoForeign(env(s.world.time + 2))
    ensures var (s', r) := SubmitPlan(env, s, cfg, plan);
            && (Ahead(s') <==> s'.world.log == s.world.log)
            && (!Ahead(s') ==> s'.cache == Some(s'.world.accountSeq))
            && (env(s.world.time + 1).fault.Some? || env(s.world.time + 2).send.Refuse? || !Submittable(plan) ==>
                  r.Err? && Ahead(s'))
  {
    hide Step, Finish, NoForeign;
    StepMovesOn(env, s.world);
    var (s1, ticket) := TakeTicket(env, s);
    var built := cfg.Builder().BuildUnsigned(plan, cfg.crypto.publicKey(cfg.signingKey), ticket.value);
    if built.Ok? {
      StepMovesOn(env, s1.world);
      StepKeepsSequence(env, s1.world);
      var (w, simulation) := Simulate(env, s1.world, built.value);
      if simulation.Ok? {
        FinishKeepsTicket(cfg, plan, ticket.value, simulation.value);
        StepMovesOn(env, w);
        StepKeepsSequence(env, w);
      }
    }
  }

  /** From move `t0` on: unrecognised sequence mismatches are the only failure, and nobody else submits. */
  ghost predicate OnlyUnrecognised(env: Environment, t0: nat) {
    forall t :: t >= t0 ==>
      OnlySequenceFails(env(t)) && !env(t).send.badSeqMarked && env(t).lag == 0 && NoForeign(env(t))
  }

  /** One plan: accepted if and only if the cache is empty or equals the account; a miss brings the cache one up. */
  lemma UnrecognisedAttempt(env: Environment, s: Sys, cfg: ValidConfig, plan: ArchivalPlan, t0: nat)
    requires OnlyUnrecognised(env, t0) && t0 <= s.world.time && Submittable(plan)
    ensures var (s', r) := SubmitWithRetry(env, s, cfg, plan);
            && t0 <= s'.world.time
            && (r.Ok? <==> s.cache.None? || s.cache.value == s.world.accountSeq)
            && (r.Ok? ==> r.value.Some? && s'.cache == Some(s'.world.accountSeq))
            && (r.Err? ==> r.error == Rpc(false) && s'.cache == Some(s.cache.value + 1)
                           && s'.world.accountSeq == s.world.accountSeq && s'.world.log == s.world.log)
  {
    hide Step, SubmitPlan, NoForeign, Submittable;
    RetryTakesTime(env, s, cfg, plan);
    SubmitPlanFacts(env, s, cfg, plan);
    if s.cache.None? {
      RefreshedAttempt(env, s, cfg, plan);
    } else {
      StepMovesOn(env, s.world);
      StepKeepsSequence(env, s.world);
      StepKeepsSequence(env, Step(env, s.world));
      AttemptOutcome(env, s, cfg, plan);
      var (s1, r1) := SubmitPlan(env, s, cfg, plan);
      assert r1.Err? ==> r1.error == Rpc(env(s.world.time + 1).send.badSeqMarked);
    }
  }

  /** The state after submitting the plan `n` times over. */
  function Resubmit(env: Environment, s: Sys, cfg: ValidConfig, plan: ArchivalPlan, n: nat): Sys {
    if n == 0 then s else SubmitWithRetry(env, Resubmit(env, s, cfg, plan, n - 1), cfg, plan).0
  }

  /**
   * Healing without a marker, exactly: submission number n (from 0) is accepted if and only if the cache was
   * not above the account and at least the deficit has been rejected before. So a foreign submission, which
   * leaves the cache behind, costs one rejection each; a burned ticket, which leaves it ahead, costs everything.
   */
  lemma {:induction false} DeficitHeals(env: Environment, s: Sys, cfg: ValidConfig, plan: ArchivalPlan, n: nat)
    requires OnlyUnrecognised(env, s.world.time) && Submittable(plan) && s.cache.Some?
    ensures var deficit := s.world.accountSeq - s.cache.value;
            var before := Resubmit(env, s, cfg, plan, n);
            && (SubmitWithRetry(env, before, cfg, plan).1.Ok? <==> 0 <= deficit <= n)
            && before.world.time >= s.world.time
            && (deficit < 0 || n <= deficit ==>
                  before.world.log == s.world.log && before.world.accountSeq == s.world.accountSeq
                  && before.cache == Some(s.cache.value + n))
            && (0 <= deficit <= n ==> before.cache == Some(before.world.accountSeq))
  {
    hide SubmitWithRetry, OnlyUnrecognised, Submittable;
    if n == 0 {
    } else {
      DeficitHeals(env, s, cfg, plan, n - 1);
      UnrecognisedAttempt(env, Resubmit(env, s, cfg, plan, n - 1), cfg, plan, s.world.time);
    }
    UnrecognisedAttempt(env, Resubmit(env, s, cfg, plan, n), cfg, plan, s.world.time);
  }

  /** Some submission is accepted if and only if the cache is empty or not above the account. */
  lemma EventuallyAcceptedIff(env: Environment, s: Sys, cfg: ValidConfig, plan: ArchivalPlan)
    requires OnlyUnrecognised(env, s.world.time) && Submittable(plan)
    ensures (exists n: nat :: SubmitWithRetry(env, Resubmit(env, s, cfg, plan, n), cfg, plan).1.Ok?)
            <==> s.cache.None? || s.cache.value <= s.world.accountSeq
  {
    hide SubmitWithRetry, OnlyUnrecognised, Submittable;
    if s.cache.None? {
      UnrecognisedAttempt(env, s, cfg, plan, s.world.time);
      assert SubmitWithRetry(env, Resubmit(env, s, cfg, plan, 0), cfg, plan).1.Ok?;
    } else {
      forall n: nat { DeficitHeals(env, s, cfg, plan, n); }
      if s.cache.value <= s.world.accountSeq {
        var deficit: nat := s.world.accountSeq - s.cache.value;
        assert SubmitWithRetry(env, Resubmit(env, s, cfg, plan, deficit), cfg, plan).1.Ok?;
      }
    }
  }

  lemma {:induction false} UnrecognisedPlans(env: Environment, s: Sys, cfg: ValidConfig, plans: seq<ArchivalPlan>,
        n: nat, t0: nat)
    requires OnlyUnrecognised(env, t0) && t0 <= s.world.time && 0 < n <= |plans|
    requires forall i :: 0 <= i < n ==> Submittable(plans[i])
    ensures var p := RunPlans(env, s, cfg, plans, n);
            && t0 <= p.sys.world.time
            && (p.failure.None? <==> s.cache.None? || s.cache.value == s.world.accountSeq)
            && (p.failure.None? ==> p.sys.cache == Some(p.sys.world.accountSeq))
            && (p.failure.Some? ==>
                  && p.failure == Some(Rpc(false)) && p.sys.cache == Some(s.cache.value + 1)
                  && p.sys.world.accountSeq == s.world.accountSeq && p.sys.world.log == s.world.log)
  {
    hide SubmitWithRetry, OnlyUnrecognised, Submittable;
    if n == 1 {
      assert RunPlans(env, s, cfg, plans, 0) == Progress(s, [], None);
      assert RunPlans(env, s, cfg, plans, 1).sys == SubmitWithRetry(env, s, cfg, plans[0]).0;
      UnrecognisedAttempt(env, s, cfg, plans[0], t0);
    } else {
      UnrecognisedPlans(env, s, cfg, plans, n - 1, t0);
      var before := RunPlans(env, s, cfg, plans, n - 1);
      if before.failure.None? {
        UnrecognisedAttempt(env, before.sys, cfg, plans[n - 1], t0);
      }
    }
  }

  /**
   * A cycle with something to submit: it succeeds if and only if the cache is empty or equals the account, and
   * otherwise fails with an error that is retried and brings the cache one up, towards the account if behind.
   */
  lemma UnrecognisedCycle(env: Environment, s: Sys, cfg: ValidConfig, t0: nat)
    requires OnlyUnrecognised(env, t0) && t0 <= s.world.time && !cfg.Resolution().ResolutionPanics?
    requires PlanCycle(env, s.world, cfg).1.Ok? && PlanCycle(env, s.world, cfg).1.value.plans != []
    requires forall p :: p in PlanCycle(env, s.world, cfg).1.value.plans ==> Submittable(p)
    ensures var (s', r) := RunCycle(env, s, cfg);
            && t0 <= s'.world.time
            && (r.Ok? <==> s.cache.None? || s.cache.value == s.world.accountSeq)
            && (r.Ok? ==> s'.cache == Some(s'.world.accountSeq))
            && (r.Err? ==> r.error == Rpc(false) && s'.cache == Some(s.cache.value + 1)
                           && s'.world.accountSeq == s.world.accountSeq && s'.world.log == s.world.log)
  {
    hide PlanCycle, RunPlans, Watch.Resolve, Submittable, OnlyUnrecognised, NoForeignFrom, Observed, PlanObserved;
    OnlyUnrecognisedIsUnrecognised(env, t0);
    PlanningKeepsSequence(env, s.world, cfg, t0);
    PlanCycleFacts(env, s.world, cfg);
    var (w, planned) := PlanCycle(env, s.world, cfg);
    var plans := planned.value.plans;
    assert forall i :: 0 <= i < |plans| ==> plans[i] in plans;
    UnrecognisedPlans(env, s.(world := w), cfg, plans, |plans|, t0);
  }

  /** With at most 100 watch rules no plan is too large. */
  lemma FewKeysAreSubmittable(env: Environment, w: World, cfg: ValidConfig)
    requires !cfg.Resolution().ResolutionPanics? && PlanCycle(env, w, cfg).1.Ok?
    requires |cfg.Resolution().keys| <= 100
    ensures forall p :: p in PlanCycle(env, w, cfg).1.value.plans ==> Submittable(p)
  {
    hide PlanCycle, Watch.Resolve, PlanObserved, Extendable, CountEntries;
    PlanCycleFacts(env, w, cfg);
    var keys, rows := cfg.Resolution().keys, Observed(env, w, cfg).value;
    var plans := PlanCycle(env, w, cfg).1.value.plans;
    PlansAreExtensions(cfg, keys, rows);
    PlansCoverAtRisk(cfg, keys, rows);
    ExtendableIsShort(keys, rows, |keys|);
    FilterIsShort((c: Candidate) => cfg.window.IsAtRisk(c.1), Extendable(keys, rows, |keys|));
    forall p | p in plans ensures Submittable(p) {
      CountsEach(plans, p);
    }
  }

  lemma {:induction false} ExtendableIsShort(keys: seq<Ledger.LedgerKey>, rows: seq<Observation>, n: nat)
    requires n <= |keys| && n <= |rows|
    ensures |Extendable(keys, rows, n)| <= n
  {
    if n == 0 {
    } else {
      ExtendableIsShort(keys, rows, n - 1);
    }
  }

  lemma {:induction false} FilterIsShort<T>(p: T -> bool, s: seq<T>)
    ensures |Filter(p, s)| <= |s|
  {
    if s == [] {
    } else {
      FilterIsShort(p, s[1..]);
    }
  }

  lemma {:induction false} CountsEach(plans: seq<ArchivalPlan>, p: ArchivalPlan)
    requires p in plans
    ensures |p.entries| <= CountEntries(plans)
  {
    if p == plans[0] {
    } else {
      CountsEach(plans[1..], p);
    }
  }

  lemma NothingToSubmit(env: Environment, s: Sys, cfg: ValidConfig)
    ensures RunPlans(env, s, cfg, [], 0) == Progress(s, [], None)
  {
  }

  /** One cycle of at most 100 watch rules neither gets ahead nor comes back from there. */
  lemma CycleKeepsSide(env: Environment, s: Sys, cfg: ValidConfig, t0: nat)
    requires OnlyUnrecognised(env, t0) && t0 <= s.world.time && !cfg.Resolution().ResolutionPanics?
    requires cfg.Resolution().Keys? ==> |cfg.Resolution().keys| <= 100
    ensures var s' := RunCycle(env, s, cfg).0; t0 <= s'.world.time && (Ahead(s') <==> Ahead(s))
  {
    hide PlanCycle, RunPlans, Watch.Resolve, OnlyUnrecognised, Submittable;
    OnlyUnrecognisedIsUnrecognised(env, t0);
    PlanCycleFacts(env, s.world, cfg);
    PlanningKeepsSequence(env, s.world, cfg, t0);
    if Ahead(s) {
      CycleStaysAhead(env, s, cfg, t0);
    } else {
      var (w, planned) := PlanCycle(env, s.world, cfg);
      if planned.Ok? {
        FewKeysAreSubmittable(env, s.world, cfg);
        if planned.value.plans == [] {
          NothingToSubmit(env, s.(world := w), cfg);
        } else {
          UnrecognisedCycle(env, s, cfg, t0);
        }
      }
    }
  }

  lemma OnlyUnrecognisedIsUnrecognised(env: Environment, t0: nat)
    requires OnlyUnrecognised(env, t0)
    ensures Unrecognised(env, t0)
  {
    hide NoForeign;
  }

  lemma {:induction false} AttemptsKeepSide(env: Environment, s: Sys, cfg: ValidConfig, policy: RetryPolicy,
        m: Counters, attempt: nat, t0: nat)
    requires OnlyUnrecognised(env, t0) && t0 <= s.world.time && !cfg.Resolution().ResolutionPanics?
    requires cfg.Resolution().Keys? ==> |cfg.Resolution().keys| <= 100
    ensures var s' := Attempts(env, s, cfg, policy, m, attempt).sys; t0 <= s'.world.time && (Ahead(s') <==> Ahead(s))
    decreases if policy.attempts > attempt then policy.attempts - attempt else 0
  {
    hide RunCycle, Waited, Watch.Resolve, OnlyUnrecognised;
    OnlyUnrecognisedIsUnrecognised(env, t0);
    CycleKeepsSide(env, s, cfg, t0);
    var (s', r) := RunCycle(env, s, cfg);
    if r.Ok? || GivesUp(policy, attempt + 1, r.error) {
    } else {
      WaitStays(env, s', t0);
      AttemptsKeepSide(env, Waited(env, s'), cfg, policy, m, attempt + 1, t0);
    }
  }

  /**
   * Over whole runs: while unrecognised mismatches are the only failure, a daemon with at most 100 watch rules
   * is ahead after any number of ticks if and only if it was ahead at the start. Ahead it never submits again;
   * otherwise each cycle with something to submit succeeds or brings the cache one closer.
   */
  lemma {:induction false} StuckIffAhead(env: Environment, s: Sys, cfg: ValidConfig, policy: RetryPolicy,
        m: Counters, n: nat, t0: nat)
    requires OnlyUnrecognised(env, t0) && t0 <= s.world.time && !cfg.Resolution().ResolutionPanics?
    requires cfg.Resolution().Keys? ==> |cfg.Resolution().keys| <= 100
    ensures var s' := RunTicks(env, s, cfg, policy, m, n).0; t0 <= s'.world.time && (Ahead(s') <==> Ahead(s))
    ensures Ahead(s) ==> RunTicks(env, s, cfg, policy, m, n).0.world.log == s.world.log
  {
    hide Attempts, Waited, Watch.Resolve, OnlyUnrecognised;
    OnlyUnrecognisedIsUnrecognised(env, t0);
    if n == 0 {
    } else {
      StuckIffAhead(env, s, cfg, policy, m, n - 1, t0);
      var before := RunTicks(env, s, cfg, policy, m, n - 1);
      WaitStays(env, before.0, t0);
      AttemptsKeepSide(env, Waited(env, before.0), cfg, policy, before.1, 0, t0);
      if Ahead(s) {
        UnrecognisedRejectionIsFinal(env, s, cfg, policy, m, n, t0);
      }
    }
  }
}
