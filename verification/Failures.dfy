/** Which failure becomes which error, judged by the moves of the network alone, and what the retries make of it. */
module Failures {
  import opened Basics
  import Ledger
  import opened Plan
  import Planner
  import opened Provider
  import Ttl
  import opened Tx
  import opened Network
  import opened Evolution
  import opened Sequence
  import opened Keeper
  import opened Submission
  import opened Coverage
  import opened Daemon
  import opened DaemonRuns
  import opened SequenceRuns
  import opened KeepAliveRuns
  import opened Timeliness
  import Watch

  // --- One attempt -------------------------------------------------------------------------------------

  /** The move in which an attempt from `s` simulates; with an empty cache the account lookup comes before it. */
  function SimMove(s: Sys): nat {
    s.world.time + if s.cache.Some? then 0 else 1
  }

  predicate LookupFails(env: Environment, s: Sys) {
    s.cache.None? && env(s.world.time).fault.Some?
  }

  /** The sequence number an attempt from `s` gets: one above the cache, or above what the lookup answers. */
  function TicketOf(env: Environment, s: Sys): int {
    if s.cache.Some? then s.cache.value + 1 else Step(env, s.world).accountSeq - env(s.world.time).lag + 1
  }

  /** The world in which the node judges what an attempt from `s` sends. */
  function Judging(env: Environment, s: Sys): World {
    After(env, s.world, if s.cache.Some? then 2 else 3)
  }

  /** What a simulation answer alone makes an attempt fail with. */
  function SimulationError(sim: SimReply): Option<KeeperError> {
    match sim
    case SimRejected(marked) => Some(KeeperError.Transaction(marked))
    case SimWithoutData(_) => Some(KeeperError.Transaction(false))
    case SimAnswer(_, _, _, _, _, _) => None
  }

  /** The error an attempt runs into, with the mark of the very answer that caused it; none if the send is answered. */
  function FirstError(env: Environment, s: Sys, plan: ArchivalPlan): Option<KeeperError> {
    if LookupFails(env, s) then Some(Rpc(env(s.world.time).fault.value))
    else if !Submittable(plan) then Some(KeeperError.Transaction(false))
    else
      var simulated, sent := env(SimMove(s)), env(SimMove(s) + 1).send;
      if simulated.fault.Some? then Some(Rpc(simulated.fault.value))
      else if SimulationError(simulated.sim).Some? then SimulationError(simulated.sim)
      else if sent.Deliver? && TicketOf(env, s) == Judging(env, s).accountSeq + 1 then None
      else Some(Rpc(sent.badSeqMarked))
  }

  /** How many moves an attempt takes: one for each call up to the one that fails. */
  function MovesSpent(env: Environment, s: Sys, plan: ArchivalPlan): nat {
    if LookupFails(env, s) then 1
    else
      (if s.cache.Some? then 0 else 1)
      + if !Submittable(plan) then 0
        else if env(SimMove(s)).fault.Some? || SimulationError(env(SimMove(s)).sim).Some? then 1
        else 2
  }

  /** The cache an attempt leaves: its ticket, burned or not, unless the lookup failed. */
  function CacheLeft(env: Environment, s: Sys): Option<int> {
    if LookupFails(env, s) then None else Some(TicketOf(env, s))
  }

  lemma FinishOutcome(cfg: ValidConfig, plan: ArchivalPlan, seqNum: int, sim: SimReply)
    requires cfg.Builder().BuildUnsigned(plan, cfg.crypto.publicKey(cfg.signingKey), seqNum).Ok?
    ensures var unsigned := cfg.Builder().BuildUnsigned(plan, cfg.crypto.publicKey(cfg.signingKey), seqNum).value;
            var done := Finish(cfg, unsigned, SimulationAnswer(sim, unsigned));
            && (done.Ok? <==> SimulationError(sim).None?)
            && (done.Err? ==> SimulationError(sim) == Some(done.error))
            && (done.Ok? ==> done.value.V1? && done.value.tx.seqNum == seqNum)
  {
  }

  lemma BuildsIff(cfg: ValidConfig, plan: ArchivalPlan, seqNum: int)
    ensures cfg.Builder().BuildUnsigned(plan, cfg.crypto.publicKey(cfg.signingKey), seqNum).Ok? <==> Submittable(plan)
  {
  }

  lemma TicketOutcome(env: Environment, s: Sys)
    ensures var (s', r) := TakeTicket(env, s);
            && s'.cache == CacheLeft(env, s)
            && s'.world == (if s.cache.Some? then s.world else Step(env, s.world))
            && r == if LookupFails(env, s) then Err(Rpc(env(s.world.time).fault.value)) else Ok(TicketOf(env, s))
  {
    hide Step;
  }

  lemma SendOutcome(env: Environment, w: World, e: TransactionEnvelope)
    requires e.V1?
    ensures var (w', r) := SendTransaction(env, w, e);
            var send := env(w.time).send;
            && w'.time == w.time + 1
            && r == if send.Deliver? && e.tx.seqNum == Step(env, w).accountSeq + 1 then Ok(|w.log|)
                    else Err(RpcFailure(send.badSeqMarked))
  {
    hide StepAll;
    StepMovesOn(env, w);
  }

  /** Every way one attempt ends: its result, how long it takes, and what becomes of the cache. */
  lemma AttemptResult(env: Environment, s: Sys, cfg: ValidConfig, plan: ArchivalPlan)
    ensures var (s', r) := SubmitPlan(env, s, cfg, plan);
            && r == (match FirstError(env, s, plan) case Some(e) => Err(e) case None => Ok(Accepted(|s.world.log|)))
            && s'.world.time == s.world.time + MovesSpent(env, s, plan)
            && s'.cache == CacheLeft(env, s)
            && s'.requests == s.requests + 1
  {
    hide Step, TakeTicket, Finish, SendTransaction, Submittable, TxBuilder.BuildUnsigned, SimulationError,
         SimulationAnswer;
    TicketOutcome(env, s);
    TakeTicketFacts(env, s);
    StepMovesOn(env, s.world);
    var (s1, ticket) := TakeTicket(env, s);
    if ticket.Ok? {
      BuildsIff(cfg, plan, ticket.value);
      var built := cfg.Builder().BuildUnsigned(plan, cfg.crypto.publicKey(cfg.signingKey), ticket.value);
      if built.Ok? {
        StepMovesOn(env, s1.world);
        var (w, simulation) := Simulate(env, s1.world, built.value);
        if simulation.Ok? {
          FinishOutcome(cfg, plan, ticket.value, env(s1.world.time).sim);
          var done := Finish(cfg, built.value, simulation.value);
          if done.Ok? {
            SendOutcome(env, w, done.value);
            assert Step(env, w) == Judging(env, s) by {
              JudgedAfter(env, s);
            }
          }
        }
      }
    }
  }

  lemma JudgedAfter(env: Environment, s: Sys)
    ensures var w := if s.cache.Some? then s.world else Step(env, s.world);
            Judging(env, s) == Step(env, Step(env, w))
  {
    hide Step;
    assert After(env, s.world, 1) == Step(env, After(env, s.world, 0));
    assert After(env, s.world, 2) == Step(env, After(env, s.world, 1));
  }

  // --- One plan with its retry ---------------------------------------------------------------------------

  /** The state a retry starts from: after a first attempt, with the cache dropped. */
  function Dropped(env: Environment, s: Sys, cfg: ValidConfig, plan: ArchivalPlan): Sys {
    SubmitPlan(env, s, cfg, plan).0.(cache := None)
  }

  /**
   * Every way a plan's submission ends. An error without a marker, wherever in the attempt it arose, surfaces at once
   * and leaves the cache as it is. An error with a marker drops the cache and is followed by one more attempt; if that
   * fails too it is still the first error that surfaces, and the cache is not dropped again.
   */
  lemma RetryResult(env: Environment, s: Sys, cfg: ValidConfig, plan: ArchivalPlan)
    ensures var (s', r) := SubmitWithRetry(env, s, cfg, plan);
            var again := Dropped(env, s, cfg, plan);
            var first, second := FirstError(env, s, plan), FirstError(env, again, plan);
            && again.world.time == s.world.time + MovesSpent(env, s, plan)
            && (first.None? ==> r == Ok(Some(|s.world.log|)))
            && (first.Some? && (!first.value.badSeq || second.Some?) ==> r == Err(first.value))
            && (first.Some? && first.value.badSeq && second.None? ==> r == Ok(Some(|again.world.log|)))
            && (if first.Some? && first.value.badSeq
                then s'.requests == s.requests + 2 && s'.cache == CacheLeft(env, again)
                     && s'.world.time == again.world.time + MovesSpent(env, again, plan)
                else s'.requests == s.requests + 1 && s'.cache == CacheLeft(env, s) && s'.world == again.world)
  {
    hide SubmitPlan, FirstError, MovesSpent, CacheLeft;
    AttemptResult(env, s, cfg, plan);
    AttemptResult(env, Dropped(env, s, cfg, plan), cfg, plan);
  }

  /**
   * Self-healing wherever the first attempt failed: after a marked account lookup, simulation fault, simulation
   * rejection or send, with only sequence numbers left to fail and nobody else submitting, the plan is accepted if and
   * only if the second lookup counts everything the node has accepted; then the cache equals the account.
   */
  lemma MarkedFailureHeals(env: Environment, s: Sys, cfg: ValidConfig, plan: ArchivalPlan)
    requires Submittable(plan) && FirstError(env, s, plan).Some? && FirstError(env, s, plan).value.badSeq
    requires var t := s.world.time + MovesSpent(env, s, plan);
             && (forall u :: t <= u <= t + 2 ==> OnlySequenceFails(env(u)))
             && QuietRefresh(env, t)
    ensures var (s', r) := SubmitWithRetry(env, s, cfg, plan);
            var t := s.world.time + MovesSpent(env, s, plan);
            && s'.world.time == t + 3
            && (r.Ok? <==> env(t).lag == 0)
            && (r.Ok? ==> r.value.Some? && s'.cache == Some(s'.world.accountSeq))
            && (r.Err? ==> r.error == FirstError(env, s, plan).value)
  {
    hide SubmitPlan, FirstError, MovesSpent, QuietRefresh, OnlySequenceFails;
    AttemptResult(env, s, cfg, plan);
    RefreshedAttempt(env, Dropped(env, s, cfg, plan), cfg, plan);
    SubmitPlanFacts(env, Dropped(env, s, cfg, plan), cfg, plan);
  }

  // --- Planning ------------------------------------------------------------------------------------------

  lemma {:induction false} AfterJoins(env: Environment, w: World, n: nat)
    ensures After(env, Step(env, w), n) == After(env, w, n + 1)
    ensures After(env, w, n).time == w.time + n
  {
    hide Step;
    if n == 0 {
      assert After(env, w, 1) == Step(env, After(env, w, 0));
    } else {
      AfterJoins(env, w, n - 1);
      StepMovesOn(env, After(env, w, n - 1));
    }
  }

  predicate Watches(cfg: ValidConfig) {
    cfg.Resolution().Keys? && cfg.Resolution().keys != []
  }

  /** The network check at move `t` passes. */
  predicate Checked(env: Environment, t: nat, cfg: ValidConfig) {
    env(t).fault.None? && env(t).network == cfg.networkPassphrase
  }

  /** The observation request for `chunk` at move `t` is answered, and all its keys can be hashed. */
  predicate Served(env: Environment, t: nat, cfg: ValidConfig, chunk: Chunk) {
    env(t).fault.None? && Hashable(cfg.codec, chunk)
  }

  /** What the cycle asks for, fifty keys a request. */
  function Asked(cfg: ValidConfig): seq<Chunk> {
    Chunks(Watched(cfg), 50)
  }

  lemma {:induction false} RequestsForKeys(keys: seq<Ledger.LedgerKey>)
    ensures |Chunks(keys, 50)| == (|keys| + 49) / 50
    decreases |keys|
  {
    if keys == [] {
    } else {
      RequestsForKeys(keys[Min(50, |keys|)..]);
    }
  }

  /** A cycle that gets no further than the network check: which error it is, and that nothing more is asked. */
  lemma CheckFailure(env: Environment, w: World, cfg: ValidConfig)
    requires !cfg.Resolution().ResolutionPanics?
    ensures !Watches(cfg) ==> PlanCycle(env, w, cfg) == (w, Err(KeeperError.InvalidWatch(false)))
    ensures Watches(cfg) && !Checked(env, w.time, cfg) ==>
              PlanCycle(env, w, cfg) == (Step(env, w), Err(Rpc(env(w.time).fault == Some(true))))
  {
    hide Step, ObserveEntries, Watch.Resolve, PlanObserved;
  }

  lemma RequestOutcome(env: Environment, w: World, cfg: ValidConfig, chunk: Chunk)
    ensures var r := ChunkRows(cfg.codec, chunk, EntriesAnswer(env, w, chunk));
            && (r.Ok? <==> Served(env, w.time, cfg, chunk))
            && (r.Err? ==> RpcError(r.error) == Rpc(env(w.time).fault == Some(true)))
  {
    hide Step, HeldEntries, Hashable, Readable;
    if Hashable(cfg.codec, chunk) {
      HeldAreHashable(Step(env, w), cfg.codec, chunk);
    }
  }

  lemma {:induction false} RequestsServed(env: Environment, w: World, cfg: ValidConfig, chunks: seq<Chunk>, n: nat)
    requires n <= |chunks| && forall c :: 0 <= c < n ==> Served(env, w.time + c, cfg, chunks[c])
    ensures ObserveChunks(env, w, cfg.codec, chunks, n).0 == After(env, w, n)
    ensures ObserveChunks(env, w, cfg.codec, chunks, n).1.Ok?
  {
    hide Step, EntriesAnswer, ChunkRows, Served;
    if n == 0 {
    } else {
      RequestsServed(env, w, cfg, chunks, n - 1);
      AfterJoins(env, w, n - 1);
      RequestOutcome(env, After(env, w, n - 1), cfg, chunks[n - 1]);
    }
  }

  /**
   * A cycle whose network check passes and whose observation request number `c` is the first to fail: nothing more is
   * asked, and the error is an RPC error carrying the mark of that very request's fault (none for a key that cannot be
   * hashed).
   */
  lemma ObservationFailure(env: Environment, w: World, cfg: ValidConfig, c: nat)
    requires Watches(cfg) && Checked(env, w.time, cfg) && c < |Asked(cfg)|
    requires forall j :: 0 <= j < c ==> Served(env, w.time + 1 + j, cfg, Asked(cfg)[j])
    requires !Served(env, w.time + 1 + c, cfg, Asked(cfg)[c])
    ensures PlanCycle(env, w, cfg) == (After(env, w, c + 2), Err(Rpc(env(w.time + 1 + c).fault == Some(true))))
  {
    hide Step, EntriesAnswer, ChunkRows, Served, Watch.Resolve, Chunks, PlanObserved;
    var w1, chunks := Step(env, w), Asked(cfg);
    StepMovesOn(env, w);
    RequestsServed(env, w1, cfg, chunks, c);
    AfterJoins(env, w1, c);
    RequestOutcome(env, After(env, w1, c), cfg, chunks[c]);
    NothingAfterFailure(env, w1, cfg.codec, chunks, c + 1, |chunks|);
    AfterJoins(env, w, c + 1);
  }

  /**
   * A cycle whose network check and requests all succeed: it has planned, after one move for each, unless the key of
   * some live entry within the horizon cannot be rendered; that is a transaction error.
   */
  lemma ObservedCycle(env: Environment, w: World, cfg: ValidConfig)
    requires Watches(cfg) && Checked(env, w.time, cfg)
    requires forall c :: 0 <= c < |Asked(cfg)| ==> Served(env, w.time + 1 + c, cfg, Asked(cfg)[c])
    ensures var (w', r) := PlanCycle(env, w, cfg);
            && w' == After(env, w, |Asked(cfg)| + 1) && w'.time == w.time + 1 + (|cfg.Resolution().keys| + 49) / 50
            && Observed(env, w, cfg).Ok?
            && var keys, rows := cfg.Resolution().keys, Observed(env, w, cfg).value;
            && |rows| == |keys|
            && (r.Err? ==> r.error == KeeperError.Transaction(false))
            && (r.Err? <==> exists i :: 0 <= i < |keys| && AtRiskUnrenderable(cfg, keys[i], rows[i]))
  {
    hide Step, Served, Watch.Resolve, Chunks, PlanObserved, ObserveChunks, AtRiskUnrenderable, SoundRow;
    var w1, chunks := Step(env, w), Asked(cfg);
    StepMovesOn(env, w);
    RequestsServed(env, w1, cfg, chunks, |chunks|);
    AfterJoins(env, w, |chunks|);
    AfterJoins(env, w, |chunks| + 1);
    RequestsForKeys(Watched(cfg));
    ObservationMatchesKeys(env, w1, cfg.codec, cfg.Resolution().keys);
    PlanningFailure(cfg, cfg.Resolution().keys, Observed(env, w, cfg).value);
  }

  predicate AtRiskUnrenderable(cfg: ValidConfig, k: Ledger.LedgerKey, o: Observation) {
    o.entry.Live? && cfg.window.IsAtRisk(o.entry.ttl) && cfg.codec.render(k).None?
  }

  lemma PlanningFailure(cfg: ValidConfig, keys: seq<Ledger.LedgerKey>, rows: seq<Observation>)
    requires |rows| == |keys|
    ensures var r := PlanObserved(cfg, keys, rows);
            && (r.Err? ==> r.error == KeeperError.Transaction(false))
            && (r.Err? <==> exists i :: 0 <= i < |keys| && AtRiskUnrenderable(cfg, keys[i], rows[i]))
  {
    hide Extendable, Planner.Planner.ExtendEntries, Ttl.RiskWindow.IsAtRisk, Filter;
    var candidates := Extendable(keys, rows, |keys|);
    cfg.ThePlanner().ExtendFailsIff(candidates, ObservedLedger(rows));
    if PlanObserved(cfg, keys, rows).Err? {
      var c :| c in candidates && cfg.window.IsAtRisk(c.1) && cfg.codec.render(c.0).None?;
      ExtendableIsLive(keys, rows, |keys|, c);
      var i :| 0 <= i < |keys| && rows[i].entry.Live? && c == (keys[i], rows[i].entry.ttl);
      assert AtRiskUnrenderable(cfg, keys[i], rows[i]);
    }
    if i :| 0 <= i < |keys| && AtRiskUnrenderable(cfg, keys[i], rows[i]) {
      ExtendableIsLive(keys, rows, |keys|, (keys[i], rows[i].entry.ttl));
    }
  }

  // --- Submitting ----------------------------------------------------------------------------------------

  /** The state in which plan `k` of a cycle from `s` is submitted. */
  function Submitting(env: Environment, s: Sys, cfg: ValidConfig, k: nat): Progress
    requires !cfg.Resolution().ResolutionPanics? && PlanCycle(env, s.world, cfg).1.Ok?
    requires k <= |PlanCycle(env, s.world, cfg).1.value.plans|
  {
    var (w, planned) := PlanCycle(env, s.world, cfg);
    RunPlans(env, s.(world := w), cfg, planned.value.plans, k)
  }

  /**
   * A cycle ends with the error of the first plan that runs into one that is not healed: an error without a marker, or
   * a marked one whose retry fails as well. The error, and so whether the tick retries, is the one of that plan's first
   * attempt.
   */
  lemma SubmissionFailure(env: Environment, s: Sys, cfg: ValidConfig, k: nat)
    requires !cfg.Resolution().ResolutionPanics? && PlanCycle(env, s.world, cfg).1.Ok?
    requires k < |PlanCycle(env, s.world, cfg).1.value.plans| && Submitting(env, s, cfg, k).failure.None?
    requires var at, plan := Submitting(env, s, cfg, k).sys, PlanCycle(env, s.world, cfg).1.value.plans[k];
             var e := FirstError(env, at, plan);
             e.Some? && (!e.value.badSeq || FirstError(env, Dropped(env, at, cfg, plan), plan).Some?)
    ensures var at, plan := Submitting(env, s, cfg, k).sys, PlanCycle(env, s.world, cfg).1.value.plans[k];
            var (s', r) := RunCycle(env, s, cfg);
            && r == Err(FirstError(env, at, plan).value)
            && s'.world.time == SubmitWithRetry(env, at, cfg, plan).0.world.time
            && s'.world.rounds == s.world.rounds
  {
    hide PlanCycle, SubmitWithRetry, FirstError, MovesSpent, CacheLeft, Dropped, Watch.Resolve, Accounted;
    PlanCycleFacts(env, s.world, cfg);
    var (w, planned) := PlanCycle(env, s.world, cfg);
    var plans := planned.value.plans;
    var at := Submitting(env, s, cfg, k).sys;
    RetryResult(env, at, cfg, plans[k]);
    FailureStops(env, s.(world := w), cfg, plans, k + 1, |plans|);
    RunPlansFacts(env, s.(world := w), cfg, plans, |plans|);
  }

  // --- Ticks ---------------------------------------------------------------------------------------------

  /** A cycle on a quiet network ends its tick in success. */
  lemma QuietAttempt(env: Environment, s: Sys, cfg: ValidConfig, policy: RetryPolicy, m: Counters, attempt: nat)
    requires QuietFrom(env, cfg.networkPassphrase, s.world.time) && Manageable(cfg)
    ensures !cfg.Resolution().ResolutionPanics?
    ensures var r := Attempts(env, s, cfg, policy, m, attempt);
            && r.cycles == 1 && r.sleptMs == 0
            && r.counters.pollCycles == m.pollCycles + 1 && r.counters.extendsRejected == m.extendsRejected
            && |r.sys.world.rounds| == |s.world.rounds| + 1
  {
    hide RunCycle, Watch.Resolve, QuietFrom;
    QuietCycleSucceeds(env, s, cfg);
    ManageableResolves(cfg);
    CycleAddsRound(env, s, cfg);
  }

  /**
   * A tick rides out one failed cycle: when its first cycle ends in an RPC error and the network is quiet from the end
   * of that cycle on, exactly one more cycle runs, after one base delay, and succeeds.
   */
  lemma RidesOut(env: Environment, s: Sys, cfg: ValidConfig, policy: RetryPolicy, m: Counters)
    requires Manageable(cfg) && policy.attempts >= 2
    requires var (s', r) := RunCycle(env, Waited(env, s), cfg);
             && r.Err? && r.error.Rpc? && s'.world.rounds == s.world.rounds
             && QuietFrom(env, cfg.networkPassphrase, s'.world.time)
    ensures SucceedsAfter(Tick(env, s, cfg, policy, m), s, m, 2, policy.baseDelayMs)
  {
    hide RunCycle, Watch.Resolve, Step, QuietMove;
    ManageableResolves(cfg);
    var s' := RunCycle(env, Waited(env, s), cfg).0;
    WaitKeepsRounds(env, s');
    QuietAttempt(env, Waited(env, s'), cfg, policy, m, 1);
    assert Pow2(0) == 1;
  }

  /** The tick ran so many cycles, slept so long, and its last cycle succeeded: one poll more, no rejection. */
  predicate SucceedsAfter(tick: TickResult, s: Sys, m: Counters, cycles: nat, sleptMs: int) {
    && tick.cycles == cycles && tick.sleptMs == sleptMs
    && tick.counters.pollCycles == m.pollCycles + 1 && tick.counters.extendsRejected == m.extendsRejected
    && |tick.sys.world.rounds| == |s.world.rounds| + 1
  }

  /**
   * One transport fault, at the network check or any observation request of the first cycle, on a network that is
   * otherwise quiet: the tick runs exactly two cycles and succeeds.
   */
  lemma OneFaultIsRiddenOut(env: Environment, s: Sys, cfg: ValidConfig, policy: RetryPolicy, m: Counters, f: nat)
    requires Manageable(cfg) && policy.attempts >= 2
    requires s.world.time + 1 <= f <= s.world.time + 1 + Requests(cfg) && env(f).fault.Some?
    requires forall t :: t > s.world.time && t != f ==> QuietMove(env(t), cfg.networkPassphrase)
    ensures SucceedsAfter(Tick(env, s, cfg, policy, m), s, m, 2, policy.baseDelayMs)
  {
    hide Watch.Resolve, Step, RunPlans, Chunks, Hashable, Tick, PlanCycle, OnlySequenceFails, NoForeign;
    ManageableResolves(cfg);
    WaitKeepsRounds(env, s);
    var first := Waited(env, s);
    FaultyPlanning(env, first.world, cfg, f);
    RidesOut(env, s, cfg, policy, m);
  }

  lemma FaultyPlanning(env: Environment, w: World, cfg: ValidConfig, f: nat)
    requires Manageable(cfg) && w.time <= f <= w.time + Requests(cfg) && env(f).fault.Some?
    requires forall t :: w.time <= t < f ==> QuietMove(env(t), cfg.networkPassphrase)
    ensures !cfg.Resolution().ResolutionPanics?
    ensures var (w', r) := PlanCycle(env, w, cfg);
            && r == Err(Rpc(env(f).fault.value)) && w' == After(env, w, f - w.time + 1)
            && w'.time == f + 1 && w'.rounds == w.rounds
  {
    hide Watch.Resolve, Step, Chunks, Hashable, PlanCycle, NoForeign;
    ManageableResolves(cfg);
    AfterJoins(env, w, f - w.time + 1);
    AfterMovesOn(env, w, f - w.time + 1);
    if f == w.time {
      CheckFailure(env, w, cfg);
      assert After(env, w, 1) == Step(env, After(env, w, 0));
    } else {
      var c: nat := f - w.time - 1;
      var chunks := Asked(cfg);
      ChunksPartition(Watched(cfg), 50);
      assert QuietMove(env(w.time), cfg.networkPassphrase);
      forall j | 0 <= j < c ensures Served(env, w.time + 1 + j, cfg, chunks[j]) {
        ChunkIsHashable(cfg.codec, chunks, |chunks|, j);
        assert QuietMove(env(w.time + 1 + j), cfg.networkPassphrase);
      }
      ObservationFailure(env, w, cfg, c);
    }
  }

  /** The network checks of the first `n` cycles from move `t` on fault: two moves each, the check and the sleep. */
  ghost predicate ChecksFault(env: Environment, t: nat, n: nat) {
    forall i: nat :: i < n ==> env(t + 2 * i).fault.Some?
  }

  lemma OutageCycle(env: Environment, s: Sys, cfg: ValidConfig)
    requires Watches(cfg) && env(s.world.time).fault.Some?
    ensures RunCycle(env, s, cfg) == (s.(world := Step(env, s.world)), Err(Rpc(env(s.world.time).fault.value)))
    ensures Waited(env, RunCycle(env, s, cfg).0).world.time == s.world.time + 2
    ensures Waited(env, RunCycle(env, s, cfg).0).world.rounds == s.world.rounds
    ensures Waited(env, RunCycle(env, s, cfg).0).cache == s.cache
  {
    hide Step, PlanCycle, Watch.Resolve;
    CheckFailure(env, s.world, cfg);
    StepMovesOn(env, s.world);
    StepMovesOn(env, Step(env, s.world));
  }

  lemma {:induction false} OutageAttempts(env: Environment, s: Sys, cfg: ValidConfig, policy: RetryPolicy,
        m: Counters, attempt: nat, n: nat)
    requires Watches(cfg) && ChecksFault(env, s.world.time, n)
    requires n < CyclesLeft(policy, attempt) ==>
               Manageable(cfg) && QuietFrom(env, cfg.networkPassphrase, s.world.time + 2 * n)
    ensures var r := Attempts(env, s, cfg, policy, m, attempt);
            if n < CyclesLeft(policy, attempt) then
              && r.cycles == n + 1
              && r.counters.pollCycles == m.pollCycles + 1 && r.counters.extendsRejected == m.extendsRejected
              && |r.sys.world.rounds| == |s.world.rounds| + 1
            else
              && r.cycles == CyclesLeft(policy, attempt)
              && r.counters == m.(extendsRejected := m.extendsRejected + 1)
              && r.sys.cache == s.cache && r.sys.world.rounds == s.world.rounds
    decreases CyclesLeft(policy, attempt)
  {
    hide RunCycle, Waited, Watch.Resolve, Manageable, QuietMove;
    if n == 0 {
      QuietAttempt(env, s, cfg, policy, m, attempt);
    } else {
      assert env(s.world.time + 2 * 0).fault.Some?;
      OutageCycle(env, s, cfg);
      FailedWorld(env, s, cfg);
      var (s', r) := RunCycle(env, s, cfg);
      if !GivesUp(policy, attempt + 1, r.error) {
        var next := Waited(env, s');
        forall i: nat | i < n - 1 ensures env(next.world.time + 2 * i).fault.Some? {
          assert next.world.time + 2 * i == s.world.time + 2 * (i + 1);
        }
        OutageAttempts(env, next, cfg, policy, m, attempt + 1, n - 1);
      }
    }
  }

  lemma FailedWorld(env: Environment, s: Sys, cfg: ValidConfig)
    requires !cfg.Resolution().ResolutionPanics? && RunCycle(env, s, cfg).0.world == Step(env, s.world)
    ensures RunCycle(env, s, cfg).0.world.rounds == s.world.rounds
  {
    hide Step, RunCycle, Watch.Resolve;
    StepMovesOn(env, s.world);
  }

  /**
   * An outage of any length: when the network checks of the first `n` cycles of a tick fault and the network is quiet
   * afterwards, the tick runs n + 1 cycles and succeeds if the policy allows so many. Otherwise it uses up its attempts
   * (at least one cycle always runs), counts one rejection and changes nothing else, whatever comes after.
   */
  lemma OutageTick(env: Environment, s: Sys, cfg: ValidConfig, policy: RetryPolicy, m: Counters, n: nat)
    requires Watches(cfg) && ChecksFault(env, s.world.time + 1, n)
    requires n < Max(1, policy.attempts) ==>
               Manageable(cfg) && QuietFrom(env, cfg.networkPassphrase, s.world.time + 1 + 2 * n)
    ensures var r := Tick(env, s, cfg, policy, m);
            if n < Max(1, policy.attempts) then
              SucceedsAfter(r, s, m, n + 1, policy.baseDelayMs * (Pow2(n) - 1))
            else
              && r.cycles == Max(1, policy.attempts)
              && r.sleptMs == policy.baseDelayMs * (Pow2(Max(1, policy.attempts) - 1) - 1)
              && r.counters == m.(extendsRejected := m.extendsRejected + 1)
              && r.sys.cache == s.cache && r.sys.world.rounds == s.world.rounds
  {
    hide Attempts, RunCycle, Watch.Resolve, Step, Manageable, QuietFrom, ChecksFault, Pow2;
    WaitKeepsRounds(env, s);
    OutageAttempts(env, Waited(env, s), cfg, policy, m, 0, n);
    TickSleep(env, s, cfg, policy, m, if n < Max(1, policy.attempts) then n else Max(1, policy.attempts) - 1);
  }

  lemma TickSleep(env: Environment, s: Sys, cfg: ValidConfig, policy: RetryPolicy, m: Counters, retries: nat)
    requires !cfg.Resolution().ResolutionPanics? && Tick(env, s, cfg, policy, m).cycles == retries + 1
    ensures Tick(env, s, cfg, policy, m).sleptMs == policy.baseDelayMs * (Pow2(retries) - 1)
  {
    hide Tick, RunCycle, Watch.Resolve, Pow2;
    TickWork(env, s, cfg, policy, m);
    assert Tick(env, s, cfg, policy, m).cycles - 1 == retries;
  }

  /** The daemon itself: it sleeps 0, 1 or 3 seconds through outages of 0, 1 or 2 cycles and gives up after 3. */
  lemma DaemonOutage(env: Environment, s: Sys, cfg: ValidConfig, m: Counters, n: nat)
    requires Watches(cfg) && ChecksFault(env, s.world.time + 1, n)
    requires n < 3 ==> Manageable(cfg) && QuietFrom(env, cfg.networkPassphrase, s.world.time + 1 + 2 * n)
    ensures var r := Tick(env, s, cfg, RETRY, m);
            && (n == 0 ==> SucceedsAfter(r, s, m, 1, 0))
            && (n == 1 ==> SucceedsAfter(r, s, m, 2, 1_000))
            && (n == 2 ==> SucceedsAfter(r, s, m, 3, 3_000))
            && (n >= 3 ==> r.cycles == 3 && r.sleptMs == 3_000
                           && r.counters == m.(extendsRejected := m.extendsRejected + 1))
  {
    hide Tick, Watch.Resolve, Manageable, QuietFrom, ChecksFault;
    OutageTick(env, s, cfg, RETRY, m, n);
    assert Pow2(0) == 1 && Pow2(1) == 2 * Pow2(0) && Pow2(2) == 2 * Pow2(1);
  }

  /**
   * When the first plan of a tick's first cycle runs into an error without a marker: a transaction error (plan too
   * large, simulation rejected or without usable data) ends the tick at once and is counted nowhere; an RPC error
   * (lookup, simulation or send) costs one base delay if the network is quiet from there on, and the tick succeeds.
   */
  lemma FirstPlanFailure(env: Environment, s: Sys, cfg: ValidConfig, policy: RetryPolicy, m: Counters)
    requires Manageable(cfg) && policy.attempts >= 2
    requires var first := Waited(env, s);
             var (w, planned) := PlanCycle(env, first.world, cfg);
             && planned.Ok? && planned.value.plans != []
             && var e := FirstError(env, first.(world := w), planned.value.plans[0]);
             && e.Some? && !e.value.badSeq
             && (e.value.Rpc? ==> QuietFrom(env, cfg.networkPassphrase,
                                            w.time + MovesSpent(env, first.(world := w), planned.value.plans[0])))
    ensures var first := Waited(env, s);
            var (w, planned) := PlanCycle(env, first.world, cfg);
            var e, r := FirstError(env, first.(world := w), planned.value.plans[0]), Tick(env, s, cfg, policy, m);
            && (!e.value.Rpc? ==> r.cycles == 1 && r.sleptMs == 0 && r.counters == m)
            && (e.value.Rpc? ==> SucceedsAfter(r, s, m, 2, policy.baseDelayMs))
  {
    hide PlanCycle, RunCycle, SubmitWithRetry, FirstError, MovesSpent, CacheLeft, Dropped, Watch.Resolve, Step,
         QuietMove, SucceedsAfter;
    ManageableResolves(cfg);
    var first := Waited(env, s);
    var (w, planned) := PlanCycle(env, first.world, cfg);
    NothingSubmitted(env, first, cfg);
    SubmissionFailure(env, first, cfg, 0);
    RetryResult(env, first.(world := w), cfg, planned.value.plans[0]);
    WaitKeepsRounds(env, s);
    if FirstError(env, first.(world := w), planned.value.plans[0]).value.Rpc? {
      hide Tick;
      RidesOut(env, s, cfg, policy, m);
    }
  }

  lemma NothingSubmitted(env: Environment, s: Sys, cfg: ValidConfig)
    requires !cfg.Resolution().ResolutionPanics? && PlanCycle(env, s.world, cfg).1.Ok?
    ensures Submitting(env, s, cfg, 0) == Progress(s.(world := PlanCycle(env, s.world, cfg).0), [], None)
  {
    hide PlanCycle, Watch.Resolve;
  }
}
