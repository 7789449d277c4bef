/**
 * Where the age bound of keep-alive comes from: how many ledgers close in a tick, how often a tick succeeds, and how
 * long the network takes to apply what it has accepted.
 */
module Timeliness {
  import opened Basics
  import opened Ledger
  import opened Plan
  import opened Planner
  import opened Provider
  import opened Tx
  import opened Network
  import opened Evolution
  import opened Sequence
  import opened Keeper
  import opened Submission
  import opened Coverage
  import opened Daemon
  import opened DaemonRuns
  import opened SequenceRuns
  import opened KeepAlive
  import opened KeepAliveRuns

  // --- From timing to the age bound ----------------------------------------------------------------------

  /** The world after `i` ticks. */
  function At(env: Environment, s: Sys, cfg: ValidConfig, policy: RetryPolicy, m: Counters, i: nat): World
    requires !cfg.Resolution().ResolutionPanics?
  {
    RunTicks(env, s, cfg, policy, m, i).0.world
  }

  /** During each of the first `n` ticks at most `pace` ledgers close. */
  ghost predicate KeepsPace(env: Environment, s: Sys, cfg: ValidConfig, policy: RetryPolicy, m: Counters,
        n: nat, pace: nat)
    requires !cfg.Resolution().ResolutionPanics?
  {
    forall i: nat :: i < n ==> At(env, s, cfg, policy, m, i + 1).ledger <= At(env, s, cfg, policy, m, i).ledger + pace
  }

  /** Of any `every` consecutive ticks one ends in success. */
  ghost predicate SucceedsEvery(env: Environment, s: Sys, cfg: ValidConfig, policy: RetryPolicy, m: Counters,
        n: nat, every: nat)
    requires !cfg.Resolution().ResolutionPanics?
  {
    forall i: nat :: i + every <= n ==>
      |At(env, s, cfg, policy, m, i).rounds| < |At(env, s, cfg, policy, m, i + every).rounds|
  }

  /** The envelopes of a successful cycle have all been applied `delay` ticks later. */
  ghost predicate AppliesWithin(env: Environment, s: Sys, cfg: ValidConfig, policy: RetryPolicy, m: Counters,
        n: nat, delay: nat)
    requires !cfg.Resolution().ResolutionPanics?
  {
    forall i: nat, r :: i + delay <= n && r in At(env, s, cfg, policy, m, i).rounds ==>
      Effective(r, At(env, s, cfg, policy, m, i + delay).applied)
  }

  lemma {:induction false} LedgerGrowth(env: Environment, s: Sys, cfg: ValidConfig, policy: RetryPolicy, m: Counters,
        x: nat, y: nat, n: nat, pace: nat)
    requires !cfg.Resolution().ResolutionPanics? && x <= y <= n && KeepsPace(env, s, cfg, policy, m, n, pace)
    ensures At(env, s, cfg, policy, m, y).ledger <= At(env, s, cfg, policy, m, x).ledger + pace * (y - x)
    decreases y - x
  {
    hide At, Watch.Resolve;
    if x == y {
    } else {
      LedgerGrowth(env, s, cfg, policy, m, x, y - 1, n, pace);
      assert pace * (y - x) == pace * (y - 1 - x) + pace;
    }
  }

  lemma Stretch(env: Environment, s: Sys, cfg: ValidConfig, policy: RetryPolicy, m: Counters, x: nat, y: nat)
    requires Fresh(env, s.world, cfg) && x <= y
    ensures var w, w' := At(env, s, cfg, policy, m, x), At(env, s, cfg, policy, m, y);
            Paced(w, w') && w.rounds <= w'.rounds && w.ledger <= w'.ledger && w.applied <= w'.applied && InOrder(w)
  {
    hide RunTicks, Watch.Resolve, KeepsFootprints, Protected, Noted, LivedOn, OwnLog, Paced, Consistent;
    RunStarts(env, s, cfg, policy, m);
    TicksFollow(env, s, cfg, policy, m, 0, x);
    TicksFollow(env, s, cfg, policy, m, x, y);
    StartInOrder(s.world, At(env, s, cfg, policy, m, x));
  }

  lemma StartInOrder(w: World, w': World)
    requires w.rounds == [] && Paced(w, w')
    ensures InOrder(w')
  {
    hide FreshRounds;
  }

  /** `j` ticks in, the newest applied round is no older than `every + delay` ticks. */
  lemma NewestIsRecent(env: Environment, s: Sys, cfg: ValidConfig, policy: RetryPolicy, m: Counters,
        j: nat, n: nat, every: nat, delay: nat)
    requires Fresh(env, s.world, cfg) && every + delay <= j <= n
    requires SucceedsEvery(env, s, cfg, policy, m, n, every) && AppliesWithin(env, s, cfg, policy, m, n, delay)
    ensures FreshRounds(At(env, s, cfg, policy, m, j), At(env, s, cfg, policy, m, j - every - delay).ledger)
  {
    hide At, Watch.Resolve, KeepsFootprints, Consistent, Newest, Effective;
    var a: nat := j - every - delay;
    var early, done := At(env, s, cfg, policy, m, a), At(env, s, cfg, policy, m, a + every);
    var now := At(env, s, cfg, policy, m, j);
    Stretch(env, s, cfg, policy, m, a, a + every);
    Stretch(env, s, cfg, policy, m, a + every, j);
    Stretch(env, s, cfg, policy, m, j, j);
    var i := |early.rounds|;
    assert done.rounds[i] in done.rounds && done.rounds[i] == now.rounds[i];
    var k := NewestIsLast(now.rounds, now.applied, i);
  }

  /** At the start there is nothing to be old. */
  lemma StartIsRecent(env: Environment, s: Sys, cfg: ValidConfig, policy: RetryPolicy, m: Counters, j: nat)
    requires Fresh(env, s.world, cfg)
    ensures FreshRounds(At(env, s, cfg, policy, m, j), At(env, s, cfg, policy, m, 0).ledger)
  {
    hide RunTicks, Watch.Resolve, KeepsFootprints, Consistent;
    RunStarts(env, s, cfg, policy, m);
    Stretch(env, s, cfg, policy, m, 0, j);
    assert FreshRounds(s.world, s.world.ledger);
    assert AgedFrom(At(env, s, cfg, policy, m, 0), At(env, s, cfg, policy, m, j), s.world.ledger);
  }

  /**
   * The age bound from timing: with one success in any `every` ticks, application within `delay` ticks and at most
   * `pace` ledgers a tick, the newest applied round is never older than `pace * (every + delay + 1)`.
   */
  lemma {:induction false} AgeFromTiming(env: Environment, s: Sys, cfg: ValidConfig, policy: RetryPolicy, m: Counters,
        i: nat, n: nat, every: nat, delay: nat, pace: nat)
    requires Fresh(env, s.world, cfg) && s.world.maxAge == 0 && i <= n
    requires KeepsPace(env, s, cfg, policy, m, n, pace)
    requires SucceedsEvery(env, s, cfg, policy, m, n, every) && AppliesWithin(env, s, cfg, policy, m, n, delay)
    ensures At(env, s, cfg, policy, m, i).maxAge <= pace * (every + delay + 1)
  {
    hide RunTicks, Watch.Resolve, KeepsFootprints, FreshRounds, InOrder, KeepsPace, SucceedsEvery, AppliesWithin,
         Consistent;
    if i == 0 {
      StartAge(env, s, cfg, policy, m);
    } else {
      AgeFromTiming(env, s, cfg, policy, m, i - 1, n, every, delay, pace);
      var j: nat := i - 1;
      var a: nat := if j >= every + delay then j - every - delay else 0;
      if j >= every + delay {
        NewestIsRecent(env, s, cfg, policy, m, j, n, every, delay);
      } else {
        StartIsRecent(env, s, cfg, policy, m, j);
      }
      Stretch(env, s, cfg, policy, m, j, i);
      var base := At(env, s, cfg, policy, m, a).ledger;
      assert AgedFrom(At(env, s, cfg, policy, m, j), At(env, s, cfg, policy, m, i), base);
      LedgerGrowth(env, s, cfg, policy, m, a, i, n, pace);
      MoreTicks(pace, i - a, every + delay + 1);
    }
  }

  lemma StartAge(env: Environment, s: Sys, cfg: ValidConfig, policy: RetryPolicy, m: Counters)
    requires Fresh(env, s.world, cfg)
    ensures At(env, s, cfg, policy, m, 0) == s.world
  {
    hide Watch.Resolve, KeepsFootprints;
  }

  lemma MoreTicks(pace: nat, few: nat, many: nat)
    requires few <= many
    ensures pace * few <= pace * many
  {
  }

  /**
   * Keep-alive from timing alone: if `every`, `delay` and `pace` leave the newest applied round younger than the
   * target, nothing under care is ever dropped that can be extended at all, and what is under care at some tick is
   * live at every later one.
   */
  lemma TimelyRunsKeepAlive(env: Environment, s: Sys, cfg: ValidConfig, policy: RetryPolicy, m: Counters,
        first: nat, n: nat, every: nat, delay: nat, pace: nat)
    requires Fresh(env, s.world, cfg) && s.world.maxAge == 0 && first <= n
    requires KeepsPace(env, s, cfg, policy, m, n, pace)
    requires SucceedsEvery(env, s, cfg, policy, m, n, every) && AppliesWithin(env, s, cfg, policy, m, n, delay)
    requires pace * (every + delay + 1) < Target(s.world, cfg.ExtendTo())
    ensures var w := At(env, s, cfg, policy, m, n);
            && w.maxAge < Target(w, cfg.ExtendTo()) == Target(s.world, cfg.ExtendTo())
            && (forall k :: k in w.dropped ==> !Covered(w, k, cfg.ExtendTo()))
            && (forall k :: UnderCare(At(env, s, cfg, policy, m, first), k) && Covered(w, k, cfg.ExtendTo()) ==>
                  IsLive(w, k))
  {
    hide RunTicks, Watch.Resolve, KeepsFootprints, KeepsPace, SucceedsEvery, AppliesWithin, UnderCare, Consistent;
    AgeFromTiming(env, s, cfg, policy, m, n, n, every, delay, pace);
    SameTarget(env, s, cfg, policy, m, n);
    WatchedEntriesStayAlive(env, s, cfg, policy, m, n);
    var w := At(env, s, cfg, policy, m, n);
    forall k | UnderCare(At(env, s, cfg, policy, m, first), k) && Covered(w, k, cfg.ExtendTo()) ensures IsLive(w, k) {
      LiveEntriesStayLive(env, s, cfg, policy, m, first, n, k);
    }
  }

  lemma SameTarget(env: Environment, s: Sys, cfg: ValidConfig, policy: RetryPolicy, m: Counters, n: nat)
    requires Fresh(env, s.world, cfg)
    ensures At(env, s, cfg, policy, m, n).maxEntryTtl == s.world.maxEntryTtl
  {
    hide RunTicks, Watch.Resolve, KeepsFootprints, Protected, Noted, LivedOn, OwnLog, Paced, Consistent;
    RunStarts(env, s, cfg, policy, m);
    TicksFollow(env, s, cfg, policy, m, 0, n);
  }

  // --- Pace: moves per tick, ledgers per move ----------------------------------------------------------------

  function CountCloses(steps: seq<EnvStep>): nat {
    if steps == [] then 0 else (if steps[0].CloseLedger? then 1 else 0) + CountCloses(steps[1..])
  }

  /** At most `c` ledgers close between two answers. */
  ghost predicate ClosesAtMost(env: Environment, c: nat) {
    forall t :: CountCloses(env(t).steps) <= c
  }

  /** At most `moves` moves and `c` ledgers a move. */
  predicate Brisk(w: World, w': World, moves: nat, c: nat) {
    && w.time <= w'.time <= w.time + moves
    && w'.ledger <= w.ledger + c * (w'.time - w.time)
  }

  lemma BriskJoins(w: World, w1: World, w2: World, a: nat, b: nat, c: nat)
    requires Brisk(w, w1, a, c) && Brisk(w1, w2, b, c)
    ensures Brisk(w, w2, a + b, c)
  {
    assert c * (w2.time - w.time) == c * (w2.time - w1.time) + c * (w1.time - w.time);
  }

  lemma BriskMore(w: World, w': World, a: nat, b: nat, c: nat)
    requires Brisk(w, w', a, c) && a <= b
    ensures Brisk(w, w', b, c)
  {
  }

  lemma {:induction false} StepAllCloses(w: World, steps: seq<EnvStep>)
    ensures StepAll(w, steps).ledger <= w.ledger + CountCloses(steps)
    decreases |steps|
  {
    if steps == [] {
    } else {
      StepAllCloses(StepOne(w, steps[0]), steps[1..]);
      OneCloses(w, steps[0]);
    }
  }

  lemma OneCloses(w: World, s: EnvStep)
    ensures StepOne(w, s).ledger <= w.ledger + if s.CloseLedger? then 1 else 0
  {
    hide Newest, UnderCare;
  }

  lemma StepIsBrisk(env: Environment, w: World, c: nat)
    requires ClosesAtMost(env, c)
    ensures Brisk(w, Step(env, w), 1, c)
  {
    hide StepAll, CountCloses;
    StepAllCloses(w, env(w.time).steps);
  }

  lemma {:induction false} AfterIsBrisk(env: Environment, w: World, n: nat, c: nat)
    requires ClosesAtMost(env, c)
    ensures Brisk(w, After(env, w, n), n, c)
  {
    hide Step, Brisk, ClosesAtMost;
    if n == 0 {
      Still(w, c);
    } else {
      AfterIsBrisk(env, w, n - 1, c);
      StepIsBrisk(env, After(env, w, n - 1), c);
      BriskJoins(w, After(env, w, n - 1), After(env, w, n), n - 1, 1, c);
    }
  }

  lemma Still(w: World, c: nat)
    ensures Brisk(w, w, 0, c)
  {
  }

  lemma TicketIsBrisk(env: Environment, s: Sys, c: nat)
    requires ClosesAtMost(env, c)
    ensures Brisk(s.world, TakeTicket(env, s).0.world, 1, c)
  {
    hide Step, ClosesAtMost;
    StepIsBrisk(env, s.world, c);
  }

  lemma SendIsBrisk(env: Environment, w: World, e: TransactionEnvelope, c: nat)
    requires ClosesAtMost(env, c)
    ensures Brisk(w, SendTransaction(env, w, e).0, 1, c)
  {
    hide Step, ClosesAtMost;
    StepIsBrisk(env, w, c);
  }

  lemma SubmitIsBrisk(env: Environment, s: Sys, cfg: ValidConfig, plan: ArchivalPlan, c: nat)
    requires ClosesAtMost(env, c)
    ensures Brisk(s.world, SubmitPlan(env, s, cfg, plan).0.world, 3, c)
  {
    hide Step, TakeTicket, SendTransaction, TxBuilder.BuildUnsigned, Finish, ClosesAtMost, Brisk;
    var (s1, ticket) := TakeTicket(env, s);
    TicketIsBrisk(env, s, c);
    BriskMore(s.world, s1.world, 1, 3, c);
    if ticket.Ok? {
      var built := cfg.Builder().BuildUnsigned(plan, cfg.crypto.publicKey(cfg.signingKey), ticket.value);
      if built.Ok? {
        var (w, simulation) := Simulate(env, s1.world, built.value);
        StepIsBrisk(env, s1.world, c);
        BriskJoins(s.world, s1.world, w, 1, 1, c);
        BriskMore(s.world, w, 2, 3, c);
        if simulation.Ok? {
          var done := Finish(cfg, built.value, simulation.value);
          if done.Ok? {
            SendIsBrisk(env, w, done.value, c);
            BriskJoins(s.world, w, SendTransaction(env, w, done.value).0, 2, 1, c);
          }
        }
      }
    }
  }

  lemma RetryIsBrisk(env: Environment, s: Sys, cfg: ValidConfig, plan: ArchivalPlan, c: nat)
    requires ClosesAtMost(env, c)
    ensures Brisk(s.world, SubmitWithRetry(env, s, cfg, plan).0.world, 6, c)
  {
    hide SubmitPlan, ClosesAtMost, Brisk;
    SubmitIsBrisk(env, s, cfg, plan, c);
    var (s1, first) := SubmitPlan(env, s, cfg, plan);
    BriskMore(s.world, s1.world, 3, 6, c);
    if first.Err? {
      SubmitIsBrisk(env, Report(s1, first.error), cfg, plan, c);
      BriskJoins(s.world, s1.world, SubmitPlan(env, Report(s1, first.error), cfg, plan).0.world, 3, 3, c);
    }
  }

  lemma {:induction false} PlansAreBrisk(env: Environment, s: Sys, cfg: ValidConfig, plans: seq<ArchivalPlan>,
        n: nat, c: nat)
    requires ClosesAtMost(env, c) && n <= |plans|
    ensures Brisk(s.world, RunPlans(env, s, cfg, plans, n).sys.world, 6 * n, c)
  {
    hide SubmitWithRetry, ClosesAtMost, Brisk;
    if n == 0 {
      Still(s.world, c);
    } else {
      PlansAreBrisk(env, s, cfg, plans, n - 1, c);
      var before := RunPlans(env, s, cfg, plans, n - 1);
      BriskMore(s.world, before.sys.world, 6 * (n - 1), 6 * n, c);
      if before.failure.None? {
        RetryIsBrisk(env, before.sys, cfg, plans[n - 1], c);
        BriskJoins(s.world, before.sys.world, SubmitWithRetry(env, before.sys, cfg, plans[n - 1]).0.world,
                   6 * (n - 1), 6, c);
      }
    }
  }

  /** The requests one observation takes. */
  function Requests(cfg: ValidConfig): nat {
    |Chunks(Watched(cfg), OBSERVE_BATCH_ENTRIES)|
  }

  /** Moves of one cycle: the network check, the observation, and six for each of at most two plans. */
  function MovesPerCycle(cfg: ValidConfig): nat {
    13 + Requests(cfg)
  }

  lemma PlanningIsBrisk(env: Environment, w: World, cfg: ValidConfig, c: nat)
    requires ClosesAtMost(env, c) && !cfg.Resolution().ResolutionPanics?
    ensures Brisk(w, PlanCycle(env, w, cfg).0, 1 + Requests(cfg), c)
  {
    hide Step, After, ObserveEntries, ObserveUpTo, Chunks, RequestsSent, WorldReplies, PlanObserved, Watch.Resolve,
         ClosesAtMost, Brisk;
    Still(w, c);
    BriskMore(w, w, 0, 1 + Requests(cfg), c);
    StepIsBrisk(env, w, c);
    BriskMore(w, Step(env, w), 1, 1 + Requests(cfg), c);
    if cfg.Resolution().Keys? {
      var w1, chunks := GetNetwork(env, w).0, Chunks(cfg.Resolution().keys, OBSERVE_BATCH_ENTRIES);
      var n := RequestsSent(cfg.codec, chunks, WorldReplies(env, w1), |chunks|);
      EntriesSeen(env, w1, cfg.codec, cfg.Resolution().keys);
      AfterIsBrisk(env, w1, n, c);
      BriskJoins(w, w1, After(env, w1, n), 1, n, c);
      BriskMore(w, After(env, w1, n), 1 + n, 1 + Requests(cfg), c);
    }
  }

  lemma CycleIsBrisk(env: Environment, s: Sys, cfg: ValidConfig, c: nat)
    requires ClosesAtMost(env, c) && !cfg.Resolution().ResolutionPanics?
    ensures Brisk(s.world, RunCycle(env, s, cfg).0.world, MovesPerCycle(cfg), c)
  {
    hide PlanCycle, RunPlans, Watch.Resolve, PlanObserved, ClosesAtMost, Brisk, Requests, Observed, SoundRow, Record,
         RecordFailure, MovedOn;
    PlanningIsBrisk(env, s.world, cfg, c);
    PlanCycleFacts(env, s.world, cfg);
    var (w, planned) := PlanCycle(env, s.world, cfg);
    BriskMore(s.world, w, 1 + Requests(cfg), MovesPerCycle(cfg), c);
    if planned.Ok? {
      var plans := planned.value.plans;
      PlansAreExtensions(cfg, cfg.Resolution().keys, Observed(env, s.world, cfg).value);
      PlansAreBrisk(env, s.(world := w), cfg, plans, |plans|, c);
      var p := RunPlans(env, s.(world := w), cfg, plans, |plans|);
      BriskJoins(s.world, w, p.sys.world, 1 + Requests(cfg), 6 * |plans|, c);
      BriskMore(s.world, p.sys.world, 1 + Requests(cfg) + 6 * |plans|, MovesPerCycle(cfg), c);
      NotesAreBrisk(s.world, p.sys.world, Round(planned.value.observedLedger, planned.value.live, p.acks), p.acks,
                    MovesPerCycle(cfg), c);
    }
  }

  lemma NotesAreBrisk(w: World, w': World, r: Round, acks: seq<nat>, moves: nat, c: nat)
    requires Brisk(w, w', moves, c)
    ensures Brisk(w, Record(w', r), moves, c) && Brisk(w, RecordFailure(w', acks), moves, c)
  {
  }

  /** Moves of `cycles` cycles and the waits between them. */
  function MovesOf(cfg: ValidConfig, cycles: nat): nat {
    if cycles == 0 then 0
    else if cycles == 1 then MovesPerCycle(cfg)
    else MovesOf(cfg, cycles - 1) + 1 + MovesPerCycle(cfg)
  }

  lemma {:induction false} AttemptsAreBrisk(env: Environment, s: Sys, cfg: ValidConfig, policy: RetryPolicy,
        m: Counters, attempt: nat, c: nat)
    requires ClosesAtMost(env, c) && !cfg.Resolution().ResolutionPanics?
    ensures Brisk(s.world, Attempts(env, s, cfg, policy, m, attempt).sys.world,
                  MovesOf(cfg, CyclesLeft(policy, attempt)), c)
    decreases CyclesLeft(policy, attempt)
  {
    hide RunCycle, Waited, Watch.Resolve, ClosesAtMost, Brisk, MovesPerCycle;
    var moves, left := MovesPerCycle(cfg), CyclesLeft(policy, attempt);
    CycleIsBrisk(env, s, cfg, c);
    var (s', r) := RunCycle(env, s, cfg);
    BriskMore(s.world, s'.world, moves, MovesOf(cfg, left), c);
    if r.Ok? || GivesUp(policy, attempt + 1, r.error) {
    } else {
      WaitIsBrisk(env, s', c);
      AttemptsAreBrisk(env, Waited(env, s'), cfg, policy, m, attempt + 1, c);
      var rest := Attempts(env, Waited(env, s'), cfg, policy, m, attempt + 1);
      BriskJoins(s.world, s'.world, Waited(env, s').world, moves, 1, c);
      BriskJoins(s.world, Waited(env, s').world, rest.sys.world, moves + 1, MovesOf(cfg, left - 1), c);
    }
  }

  lemma WaitIsBrisk(env: Environment, s: Sys, c: nat)
    requires ClosesAtMost(env, c)
    ensures Brisk(s.world, Waited(env, s).world, 1, c)
  {
    hide Step, ClosesAtMost;
    StepIsBrisk(env, s.world, c);
  }

  /** Moves of one tick: the wait that starts it, its cycles, and the waits between them. */
  function MovesPerTick(cfg: ValidConfig, policy: RetryPolicy): nat {
    1 + MovesOf(cfg, CyclesLeft(policy, 0))
  }

  lemma {:induction false} MovesAreLinear(cfg: ValidConfig, cycles: nat)
    requires cycles >= 1
    ensures MovesOf(cfg, cycles) == cycles * (MovesPerCycle(cfg) + 1) - 1
  {
    hide MovesPerCycle;
    if cycles == 1 {
    } else {
      MovesAreLinear(cfg, cycles - 1);
    }
  }

  /** The daemon's own policy: three times (network check, requests, twelve submission moves, one wait). */
  lemma DaemonMovesPerTick(cfg: ValidConfig)
    ensures MovesPerTick(cfg, RETRY) == 3 * (14 + Requests(cfg))
  {
    hide Requests;
    MovesAreLinear(cfg, 3);
  }

  /** At most `c` ledgers a move make at most `c` times the moves of a tick. */
  lemma TickKeepsPace(env: Environment, s: Sys, cfg: ValidConfig, policy: RetryPolicy, m: Counters, n: nat, c: nat)
    requires ClosesAtMost(env, c) && !cfg.Resolution().ResolutionPanics?
    ensures KeepsPace(env, s, cfg, policy, m, n, c * MovesPerTick(cfg, policy))
  {
    hide Attempts, Waited, Watch.Resolve, ClosesAtMost, Brisk, MovesPerCycle, CyclesLeft;
    var moves := MovesPerTick(cfg, policy);
    forall i: nat | i < n
      ensures At(env, s, cfg, policy, m, i + 1).ledger <= At(env, s, cfg, policy, m, i).ledger + c * moves
    {
      var before := RunTicks(env, s, cfg, policy, m, i);
      var waited := Waited(env, before.0);
      WaitIsBrisk(env, before.0, c);
      AttemptsAreBrisk(env, waited, cfg, policy, before.1, 0, c);
      var after := Attempts(env, waited, cfg, policy, before.1, 0).sys;
      BriskJoins(before.0.world, waited.world, after.world, 1, moves - 1, c);
      BriskLedger(before.0.world, after.world, moves, c);
    }
  }

  lemma BriskLedger(w: World, w': World, moves: nat, c: nat)
    requires Brisk(w, w', moves, c)
    ensures w'.ledger <= w.ledger + c * moves
  {
    MoreTicks(c, w'.time - w.time, moves);
  }

  // --- Success: quiet networks -------------------------------------------------------------------------------

  /** Nothing fails, nobody else submits, lookups are current, and the node is on the configured network. */
  predicate QuietMove(m: Move, network: string) {
    OnlySequenceFails(m) && m.send.badSeqMarked && m.lag == 0 && NoForeign(m) && m.network == network
  }

  ghost predicate QuietFrom(env: Environment, network: string, t0: nat) {
    forall t :: t >= t0 ==> QuietMove(env(t), network)
  }

  /** At most 100 keys, all of which can be hashed and rendered. */
  predicate Manageable(cfg: ValidConfig) {
    && cfg.Resolution().Keys? && 1 <= |cfg.Resolution().keys| <= 100
    && Hashable(cfg.codec, cfg.Resolution().keys)
    && forall k :: k in cfg.Resolution().keys ==> cfg.codec.render(k).Some?
  }

  lemma {:induction false} HeldAreHashable(w: World, codec: Codec, keys: seq<LedgerKey>)
    requires Hashable(codec, keys)
    ensures Readable(codec, HeldEntries(w, keys))
  {
    if keys == [] {
    } else {
      var head := if keys[0] in w.liveUntil then [RpcEntry(Some(keys[0]), Some(w.liveUntil[keys[0]]))] else [];
      HeldAreHashable(w, codec, keys[1..]);
      assert HeldEntries(w, keys) == head + HeldEntries(w, keys[1..]);
    }
  }

  lemma {:induction false} ChunkIsHashable(codec: Codec, chunks: seq<Chunk>, n: nat, c: nat)
    requires c < n <= |chunks| && Hashable(codec, Flat(chunks, n))
    ensures Hashable(codec, chunks[c])
  {
    if c == n - 1 {
      var before := Flat(chunks, n - 1);
      assert forall i :: 0 <= i < |chunks[c]| ==> chunks[c][i] == Flat(chunks, n)[|before| + i];
    } else {
      var before := Flat(chunks, n - 1);
      assert Hashable(codec, before) by {
        assert forall i :: 0 <= i < |before| ==> before[i] == Flat(chunks, n)[i];
      }
      ChunkIsHashable(codec, chunks, n - 1, c);
    }
  }

  lemma QuietObservation(env: Environment, w: World, cfg: ValidConfig)
    requires QuietFrom(env, cfg.networkPassphrase, w.time) && Manageable(cfg)
    ensures ObserveEntries(env, w, cfg.codec, cfg.Resolution().keys).1.Ok?
  {
    hide Watch.Resolve, Chunks, Hashable, Readable, Step, After, NoForeign, ObserveUpTo, ObserveEntries, HeldEntries;
    var keys := cfg.Resolution().keys;
    var chunks, replies := Chunks(keys, OBSERVE_BATCH_ENTRIES), WorldReplies(env, w);
    EntriesSeen(env, w, cfg.codec, keys);
    ChunksPartition(keys, OBSERVE_BATCH_ENTRIES);
    ObservationSucceedsIff(cfg.codec, chunks, replies, |chunks|);
    forall c | 0 <= c < |chunks| ensures Answered(cfg.codec, chunks[c], replies(c, chunks[c])) {
      ChunkIsHashable(cfg.codec, chunks, |chunks|, c);
      AfterMovesOn(env, w, c);
      assert QuietMove(env(After(env, w, c).time), cfg.networkPassphrase);
      HeldAreHashable(Step(env, After(env, w, c)), cfg.codec, chunks[c]);
    }
  }

  lemma RenderablePlans(cfg: ValidConfig, keys: seq<LedgerKey>, rows: seq<Observation>)
    requires |rows| == |keys| && forall k :: k in keys ==> cfg.codec.render(k).Some?
    ensures PlanObserved(cfg, keys, rows).Ok?
  {
    hide Extendable, Planner.ExtendEntries, Filter;
    var candidates := Extendable(keys, rows, |keys|);
    forall c | c in candidates ensures cfg.codec.render(c.0).Some? {
      ExtendableIsLive(keys, rows, |keys|, c);
    }
    cfg.ThePlanner().ExtendFailsIff(candidates, ObservedLedger(rows));
  }

  /** From where the network is quiet, every cycle succeeds, whatever the cache. */
  lemma QuietCycleSucceeds(env: Environment, s: Sys, cfg: ValidConfig)
    requires QuietFrom(env, cfg.networkPassphrase, s.world.time) && Manageable(cfg)
    ensures RunCycle(env, s, cfg).1.Ok?
  {
    hide Watch.Resolve, ObserveEntries, PlanObserved, RunPlans, RunCycle, Step, CalmSubmissions, OnlySequenceFails,
         NoForeign;
    var keys := cfg.Resolution().keys;
    var w1 := GetNetwork(env, s.world).0;
    assert QuietMove(env(s.world.time), cfg.networkPassphrase);
    NoFault(env(s.world.time));
    StepMovesOn(env, s.world);
    QuietObservation(env, w1, cfg);
    ObservationMatchesKeys(env, w1, cfg.codec, keys);
    RenderablePlans(cfg, keys, ObserveEntries(env, w1, cfg.codec, keys).1.value);
    var (w, planned) := PlanCycle(env, s.world, cfg);
    PlanCycleFacts(env, s.world, cfg);
    assert forall u: nat :: u >= w.time ==> QuietMove(env(u), cfg.networkPassphrase);
    QuietWindowIsCalm(env, s.(world := w), cfg, planned.value.plans);
    CalmCycleSucceedsIff(env, s, cfg);
    FewKeysAreSubmittable(env, s.world, cfg);
  }

  lemma NoFault(m: Move)
    requires OnlySequenceFails(m)
    ensures m.fault.None?
  {
  }

  lemma {:induction false} QuietTicksSucceed(env: Environment, s: Sys, cfg: ValidConfig, policy: RetryPolicy,
        m: Counters, i: nat)
    requires QuietFrom(env, cfg.networkPassphrase, s.world.time) && Manageable(cfg)
    ensures |At(env, s, cfg, policy, m, i).rounds| == |s.world.rounds| + i
    ensures At(env, s, cfg, policy, m, i).time >= s.world.time
  {
    hide Watch.Resolve, RunCycle, Waited, Manageable, QuietMove;
    if i == 0 {
    } else {
      ManageableResolves(cfg);
      QuietTicksSucceed(env, s, cfg, policy, m, i - 1);
      var waited := Waited(env, RunTicks(env, s, cfg, policy, m, i - 1).0);
      WaitKeepsRounds(env, RunTicks(env, s, cfg, policy, m, i - 1).0);
      QuietCycleSucceeds(env, waited, cfg);
      CycleAddsRound(env, waited, cfg);
    }
  }

  lemma ManageableResolves(cfg: ValidConfig)
    requires Manageable(cfg)
    ensures !cfg.Resolution().ResolutionPanics?
  {
  }

  lemma WaitKeepsRounds(env: Environment, s: Sys)
    ensures Waited(env, s).world.rounds == s.world.rounds && Waited(env, s).world.time == s.world.time + 1
  {
    hide Step;
    StepMovesOn(env, s.world);
  }

  lemma CycleAddsRound(env: Environment, s: Sys, cfg: ValidConfig)
    requires !cfg.Resolution().ResolutionPanics? && RunCycle(env, s, cfg).1.Ok?
    ensures |RunCycle(env, s, cfg).0.world.rounds| == |s.world.rounds| + 1
    ensures RunCycle(env, s, cfg).0.world.time >= s.world.time
  {
    hide PlanCycle, RunPlans, Watch.Resolve, Accounted;
    PlanCycleFacts(env, s.world, cfg);
    var (w, planned) := PlanCycle(env, s.world, cfg);
    RunPlansFacts(env, s.(world := w), cfg, planned.value.plans, |planned.value.plans|);
  }

  /**
   * Keep-alive from the environment: in a quiet network with at most `c` ledgers a move, where a cycle's envelopes are
   * applied within `delay` ticks, whatever is under care stays alive as long as `c` times the moves of `delay + 2`
   * ticks is less than the target.
   */
  lemma QuietRunsKeepAlive(env: Environment, s: Sys, cfg: ValidConfig, policy: RetryPolicy, m: Counters,
        first: nat, n: nat, delay: nat, c: nat)
    requires Fresh(env, s.world, cfg) && s.world.maxAge == 0 && first <= n
    requires QuietFrom(env, cfg.networkPassphrase, s.world.time) && Manageable(cfg) && ClosesAtMost(env, c)
    requires AppliesWithin(env, s, cfg, policy, m, n, delay)
    requires c * MovesPerTick(cfg, policy) * (delay + 2) < Target(s.world, cfg.ExtendTo())
    ensures var w := At(env, s, cfg, policy, m, n);
            && (forall k :: k in w.dropped ==> !Covered(w, k, cfg.ExtendTo()))
            && (forall k :: UnderCare(At(env, s, cfg, policy, m, first), k) && Covered(w, k, cfg.ExtendTo()) ==>
                  IsLive(w, k))
  {
    hide RunTicks, Watch.Resolve, KeepsFootprints, QuietFrom, Manageable, ClosesAtMost, AppliesWithin, UnderCare,
         Consistent, MovesPerTick, KeepsPace;
    TickKeepsPace(env, s, cfg, policy, m, n, c);
    assert SucceedsEvery(env, s, cfg, policy, m, n, 1) by {
      forall i: nat | i + 1 <= n
        ensures |At(env, s, cfg, policy, m, i).rounds| < |At(env, s, cfg, policy, m, i + 1).rounds|
      {
        QuietTicksSucceed(env, s, cfg, policy, m, i);
        QuietTicksSucceed(env, s, cfg, policy, m, i + 1);
      }
    }
    TimelyRunsKeepAlive(env, s, cfg, policy, m, first, n, 1, delay, c * MovesPerTick(cfg, policy));
  }
}
