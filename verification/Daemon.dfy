/** The daemon's loop: ticks, bounded retries with backoff, and metric counters. */
module Daemon {
  import opened Basics
  import opened Network
  import opened Sequence
  import opened Keeper

  datatype RetryPolicy = RetryPolicy(attempts: nat, baseDelayMs: nat)

  /** RETRY_ATTEMPTS and RETRY_BASE_DELAY_MS. */
  const RETRY := RetryPolicy(3, 1_000)

  datatype Counters = Counters(
    pollCycles: nat, latestObservedLedger: nat, entriesAtRisk: nat,
    extendsSubmitted: nat, extendsAccepted: nat, extendsRejected: nat)
  {
    function AfterSuccess(report: CycleReport): Counters {
      Counters(pollCycles + 1, report.observedLedger, report.entriesAtRisk, extendsSubmitted + report.transactions,
               extendsAccepted + (if report.extendSubmitted then 1 else 0), extendsRejected)
    }

    /** Only an RPC error that ends the tick counts as rejected. */
    function AfterGivingUp(e: KeeperError): Counters {
      this.(extendsRejected := extendsRejected + if IsTransient(e) then 1 else 0)
    }
  }

  predicate IsTransient(e: KeeperError) {
    e.Rpc?
  }

  /** `attempt` failures so far (counting the newest): is this the end of the tick? */
  predicate GivesUp(policy: RetryPolicy, attempt: nat, e: KeeperError) {
    attempt >= policy.attempts || !IsTransient(e)
  }

  function Delay(policy: RetryPolicy, attempt: nat): nat
    requires attempt >= 1
  {
    policy.baseDelayMs * Pow2(attempt - 1)
  }

  /** State, counters, cycles run and time slept once the tick is over. */
  datatype TickResult = TickResult(sys: Sys, counters: Counters, cycles: nat, sleptMs: nat)

  function Waited(env: Environment, s: Sys): Sys {
    s.(world := Step(env, s.world))
  }

  /** The inner loop of a tick, `attempt` failures into it. */
  function Attempts(env: Environment, s: Sys, cfg: ValidConfig, policy: RetryPolicy, m: Counters,
        attempt: nat): TickResult
    requires !cfg.Resolution().ResolutionPanics?
    decreases if policy.attempts > attempt then policy.attempts - attempt else 0
  {
    var (s', r) := RunCycle(env, s, cfg);
    match r
    case Ok(report) => TickResult(s', m.AfterSuccess(report), 1, 0)
    case Err(e) =>
      if GivesUp(policy, attempt + 1, e) then TickResult(s', m.AfterGivingUp(e), 1, 0)
      else
        var rest := Attempts(env, Waited(env, s'), cfg, policy, m, attempt + 1);
        TickResult(rest.sys, rest.counters, rest.cycles + 1, rest.sleptMs + Delay(policy, attempt + 1))
  }

  function Tick(env: Environment, s: Sys, cfg: ValidConfig, policy: RetryPolicy, m: Counters): TickResult
    requires !cfg.Resolution().ResolutionPanics?
  {
    Attempts(env, Waited(env, s), cfg, policy, m, 0)
  }

  /** The daemon after `n` ticks. */
  function RunTicks(env: Environment, s: Sys, cfg: ValidConfig, policy: RetryPolicy, m: Counters, n: nat): (Sys,
        Counters)
    requires !cfg.Resolution().ResolutionPanics?
  {
    if n == 0 then (s, m)
    else
      var before := RunTicks(env, s, cfg, policy, m, n - 1);
      var tick := Tick(env, before.0, cfg, policy, before.1);
      (tick.sys, tick.counters)
  }

  /** The state in which cycle `j` of tick `n + 1` starts, if that tick gets so far. */
  function CycleStart(env: Environment, s: Sys, cfg: ValidConfig, policy: RetryPolicy, m: Counters, n: nat, j: nat): Sys
    requires !cfg.Resolution().ResolutionPanics?
  {
    if j == 0 then Waited(env, RunTicks(env, s, cfg, policy, m, n).0)
    else Waited(env, RunCycle(env, CycleStart(env, s, cfg, policy, m, n, j - 1), cfg).0)
  }

  class Metrics {
    var pollCycles: nat
    var latestObservedLedger: nat
    var entriesAtRisk: nat
    var extendsSubmitted: nat
    var extendsAccepted: nat
    var extendsRejected: nat

    constructor ()
      ensures Values() == Counters(0, 0, 0, 0, 0, 0)
    {
      pollCycles, latestObservedLedger, entriesAtRisk := 0, 0, 0;
      extendsSubmitted, extendsAccepted, extendsRejected := 0, 0, 0;
    }

    ghost function Values(): Counters
      reads this
    {
      Counters(pollCycles, latestObservedLedger, entriesAtRisk, extendsSubmitted, extendsAccepted, extendsRejected)
    }
  }

  /** One tick: cycles until one succeeds, an error is final, or the attempts are used up. */
  method RunTick(tracker: SequenceTracker, cfg: ValidConfig, policy: RetryPolicy, metrics: Metrics)
    returns (ghost cycles: nat, ghost sleptMs: nat)
    requires !cfg.Resolution().ResolutionPanics? && cfg.codec.InjectiveHash()
    modifies tracker, tracker.provider, metrics
    ensures TickResult(tracker.System(), metrics.Values(), cycles, sleptMs)
         == Tick(tracker.provider.env, old(tracker.System()), cfg, policy, old(metrics.Values()))
  {
    hide RunCycle, Step;
    var provider := tracker.provider;
    ghost var env, m := provider.env, metrics.Values();
    ghost var whole := Tick(env, tracker.System(), cfg, policy, m);
    provider.Wait();
    var attempt := 0;
    cycles, sleptMs := 0, 0;
    while true
      invariant tracker.provider == provider && metrics.Values() == m
      invariant attempt == 0 || attempt < policy.attempts
      invariant var rest := Attempts(env, tracker.System(), cfg, policy, m, attempt);
                whole == TickResult(rest.sys, rest.counters, cycles + rest.cycles, sleptMs + rest.sleptMs)
      decreases if policy.attempts > attempt then policy.attempts - attempt else 0
    {
      var outcome := RunCycleOnce(tracker, cfg);
      cycles := cycles + 1;
      match outcome {
        case Ok(report) =>
          metrics.pollCycles := metrics.pollCycles + 1;
          metrics.latestObservedLedger := report.observedLedger;
          metrics.entriesAtRisk := report.entriesAtRisk;
          metrics.extendsSubmitted := metrics.extendsSubmitted + report.transactions;
          if report.extendSubmitted {
            metrics.extendsAccepted := metrics.extendsAccepted + 1;
          }
          return;
        case Err(err) =>
          attempt := attempt + 1;
          if attempt >= policy.attempts || !IsTransient(err) {
            if err.Rpc? {
              metrics.extendsRejected := metrics.extendsRejected + 1;
            }
            return;
          }
          sleptMs := sleptMs + policy.baseDelayMs * Pow2(attempt - 1);
          provider.Wait();
      }
    }
  }

  /** The outer loop; `ticks` is how many ticks fire before a termination signal does. */
  method RunLoop(tracker: SequenceTracker, cfg: ValidConfig, policy: RetryPolicy, metrics: Metrics, ticks: nat)
    requires !cfg.Resolution().ResolutionPanics? && cfg.codec.InjectiveHash()
    modifies tracker, tracker.provider, metrics
    ensures (tracker.System(), metrics.Values())
         == RunTicks(tracker.provider.env, old(tracker.System()), cfg, policy, old(metrics.Values()), ticks)
  {
    hide Tick;
    for i := 0 to ticks
      invariant (tracker.System(), metrics.Values())
             == RunTicks(tracker.provider.env, old(tracker.System()), cfg, policy, old(metrics.Values()), i)
    {
      ghost var cycles, slept := RunTick(tracker, cfg, policy, metrics);
    }
  }
}
