/** The poll cycle: observe, plan, and submit each plan with one bad-sequence retry. */
module Keeper {
  import opened Basics
  import opened Ledger
  import opened Ttl
  import opened Plan
  import opened Planner
  import opened Provider
  import opened Tx
  import opened Network
  import opened Sequence
  import Watch

  datatype ValidConfig = ValidConfig(
    parsers: Watch.Parsers, watch: seq<Watch.WatchSpec>, networkPassphrase: string,
    window: RiskWindow, constants: TtlConstants, codec: Codec, crypto: Crypto, signingKey: nat)
  {
    function ThePlanner(): Planner {
      Planner(constants, window, networkPassphrase, codec)
    }

    function Builder(): TxBuilder {
      TxBuilder(networkPassphrase, DEFAULT_BASE_FEE, crypto)
    }

    function Resolution(): Watch.Resolution {
      Watch.Resolve(parsers, watch)
    }

    function ExtendTo(): nat {
      window.ExtendToLedgers(constants)
    }
  }

  /** `ack` is the log position of the accepted envelope; the source drops the hash at this point. */
  datatype SubmissionOutcome = Accepted(ack: nat) | Rejected

  datatype CycleReport = CycleReport(
    observedLedger: nat, entriesAtRisk: nat, extendSubmitted: bool, transactions: nat)

  // --- Submitting one plan -----------------------------------------------------------------------

  /** From a simulated, unsigned envelope to the signed one that is sent. */
  function Finish(cfg: ValidConfig, unsigned: TransactionEnvelope, simulation: SimulationResult)
    : Result<TransactionEnvelope, KeeperError>
  {
    if simulation.Failed() then Err(KeeperError.Transaction(simulation.error.value))
    else match cfg.Builder().Simulated(unsigned, simulation)
      case Err(_) => Err(KeeperError.Transaction(false))
      case Ok(priced) =>
        match cfg.Builder().Signed(priced, cfg.signingKey)
        case Err(_) => Err(KeeperError.Transaction(false))
        case Ok(signed) => Ok(signed)
  }

  /** Simulate, price, sign and send an unsigned envelope. */
  function SubmitUnsigned(env: Environment, s: Sys, cfg: ValidConfig, unsigned: TransactionEnvelope)
    : (Sys, Result<SubmissionOutcome, KeeperError>)
  {
    var (w, simulation) := Simulate(env, s.world, unsigned);
    match simulation
    case Err(e) => (s.(world := w), Err(RpcError(e)))
    case Ok(sim) =>
      match Finish(cfg, unsigned, sim)
      case Err(e) => (s.(world := w), Err(e))
      case Ok(signed) =>
        var (w', hash) := SendTransaction(env, w, signed);
        (s.(world := w'), match hash { case Err(e) => Err(RpcError(e)) case Ok(ack) => Ok(Accepted(ack)) })
  }

  function SubmitPlan(env: Environment, s: Sys, cfg: ValidConfig, plan: ArchivalPlan)
    : (Sys, Result<SubmissionOutcome, KeeperError>)
  {
    var (s', ticket) := TakeTicket(env, s);
    match ticket
    case Err(e) => (s', Err(e))
    case Ok(seqNum) =>
      match cfg.Builder().BuildUnsigned(plan, cfg.crypto.publicKey(cfg.signingKey), seqNum)
      case Err(_) => (s', Err(KeeperError.Transaction(false)))
      case Ok(unsigned) => SubmitUnsigned(env, s', cfg, unsigned)
  }

  method SubmitPlanOnce(tracker: SequenceTracker, cfg: ValidConfig, plan: ArchivalPlan)
    returns (r: Result<SubmissionOutcome, KeeperError>)
    modifies tracker, tracker.provider
    ensures tracker.System() == SubmitPlan(tracker.provider.env, old(tracker.System()), cfg, plan).0
    ensures r == SubmitPlan(tracker.provider.env, old(tracker.System()), cfg, plan).1
  {
    hide GetAccount, TakeTicket, Simulate, SendTransaction;
    var provider := tracker.provider;
    var ticket := tracker.NextSequence();
    if ticket.Err? {
      return Err(ticket.error);
    }
    var source := cfg.crypto.publicKey(cfg.signingKey);
    var unsigned := cfg.Builder().BuildUnsigned(plan, source, ticket.value);
    if unsigned.Err? {
      return Err(KeeperError.Transaction(false));
    }
    var envelope := new EnvelopeBox(unsigned.value);
    var simulation := provider.SimulateEnvelope(envelope.content);
    if simulation.Err? {
      return Err(RpcError(simulation.error));
    }
    if simulation.value.Failed() {
      return Err(KeeperError.Transaction(simulation.value.error.value));
    }
    var failure := cfg.Builder().ApplySimulation(envelope, simulation.value);
    if failure.Some? {
      return Err(KeeperError.Transaction(false));
    }
    failure := cfg.Builder().Sign(envelope, cfg.signingKey);
    if failure.Some? {
      return Err(KeeperError.Transaction(false));
    }
    r := SubmitExtend(tracker, envelope.content);
  }

  method SubmitExtend(tracker: SequenceTracker, envelope: TransactionEnvelope)
    returns (r: Result<SubmissionOutcome, KeeperError>)
    modifies tracker.provider
    ensures var sent := SendTransaction(tracker.provider.env, old(tracker.provider.world), envelope);
            && tracker.provider.world == sent.0
            && r == match sent.1 { case Err(e) => Err(RpcError(e)) case Ok(ack) => Ok(Accepted(ack)) }
  {
    var hash := tracker.provider.Send(envelope);
    if hash.Err? {
      return Err(RpcError(hash.error));
    }
    r := Ok(Accepted(hash.value));
  }

  // --- One plan with its retry -------------------------------------------------------------------

  /**
   * The loop body of `run_cycle`: the log position if the plan was accepted, nothing if the outcome
   * was `Rejected`. When the retry does not end in acceptance it is the first error that surfaces.
   */
  function SubmitWithRetry(env: Environment, s: Sys, cfg: ValidConfig, plan: ArchivalPlan)
    : (Sys, Result<Option<nat>, KeeperError>)
  {
    var (s1, first) := SubmitPlan(env, s, cfg, plan);
    match first
    case Ok(Accepted(ack)) => (s1, Ok(Some(ack)))
    case Ok(Rejected) => (s1, Ok(None))
    case Err(e) =>
      if !IsBadSeqError(e) then (s1, Err(e))
      else
        var (s2, second) := SubmitPlan(env, Report(s1, e), cfg, plan);
        if second.Ok? && second.value.Accepted? then (s2, Ok(Some(second.value.ack))) else (s2, Err(e))
  }

  datatype Progress = Progress(sys: Sys, acks: seq<nat>, failure: Option<KeeperError>)

  /** After the first `n` plans; nothing more is submitted once one has failed. */
  function RunPlans(env: Environment, s: Sys, cfg: ValidConfig, plans: seq<ArchivalPlan>, n: nat): Progress
    requires n <= |plans|
  {
    if n == 0 then Progress(s, [], None)
    else
      var before := RunPlans(env, s, cfg, plans, n - 1);
      if before.failure.Some? then before
      else
        var (s', r) := SubmitWithRetry(env, before.sys, cfg, plans[n - 1]);
        match r
        case Ok(Some(ack)) => Progress(s', before.acks + [ack], None)
        case Ok(None) => Progress(s', before.acks, None)
        case Err(e) => Progress(s', before.acks, Some(e))
  }

  lemma {:induction false} FailureStops(env: Environment, s: Sys, cfg: ValidConfig, plans: seq<ArchivalPlan>, m: nat,
        n: nat)
    requires m <= n <= |plans| && RunPlans(env, s, cfg, plans, m).failure.Some?
    ensures RunPlans(env, s, cfg, plans, n) == RunPlans(env, s, cfg, plans, m)
  {
    hide SubmitWithRetry;
    if m == n {
    } else {
      FailureStops(env, s, cfg, plans, m, n - 1);
    }
  }

  // --- The cycle ---------------------------------------------------------------------------------

  /** The live ones among the first `n` keys, paired with what was observed. */
  function Extendable(keys: seq<LedgerKey>, observations: seq<Observation>, n: nat): seq<Candidate>
    requires n <= |keys| && n <= |observations|
  {
    if n == 0 then []
    else match observations[n - 1].entry
      case Live(ttl) => Extendable(keys, observations, n - 1) + [(keys[n - 1], ttl)]
      case _ => Extendable(keys, observations, n - 1)
  }

  function ObservedLedger(observations: seq<Observation>): nat {
    if observations == [] then 0 else observations[0].currentLedger
  }

  function CountEntries(plans: seq<ArchivalPlan>): nat {
    if plans == [] then 0 else |plans[0].entries| + CountEntries(plans[1..])
  }

  /** `live` is the extendable list the plans were made from. */
  datatype Planned = Planned(observedLedger: nat, live: seq<Candidate>, plans: seq<ArchivalPlan>)

  /** Plans for what was observed of `keys`. */
  function PlanObserved(cfg: ValidConfig, keys: seq<LedgerKey>, observations: seq<Observation>): Result<Planned,
        KeeperError> {
    var n := Min(|keys|, |observations|);
    match cfg.ThePlanner().SplitPlans(Extendable(keys, observations, n), ObservedLedger(observations))
    case Err(_) => Err(KeeperError.Transaction(false))
    case Ok(plans) => Ok(Planned(ObservedLedger(observations), Extendable(keys, observations, n), plans))
  }

  /** Everything up to submission: resolve, check the network, observe, plan. */
  function PlanCycle(env: Environment, w: World, cfg: ValidConfig): (World, Result<Planned, KeeperError>)
    requires !cfg.Resolution().ResolutionPanics?
  {
    if !cfg.Resolution().Keys? then (w, Err(KeeperError.InvalidWatch(false)))
    else if cfg.Resolution().keys == [] then (w, Err(KeeperError.InvalidWatch(false)))
    else
      var keys := cfg.Resolution().keys;
      var (w1, network) := GetNetwork(env, w);
      match network
      case Err(e) => (w1, Err(RpcError(e)))
      case Ok(name) =>
        if name != cfg.networkPassphrase then (w1, Err(Rpc(false)))
        else
          var (w2, observations) := ObserveEntries(env, w1, cfg.codec, keys);
          match observations
          case Err(e) => (w2, Err(RpcError(e)))
          case Ok(rows) => (w2, PlanObserved(cfg, keys, rows))
  }

  function Finished(planned: Planned, p: Progress): (Sys, Result<CycleReport, KeeperError>) {
    match p.failure
    case Some(e) => (p.sys.(world := RecordFailure(p.sys.world, p.acks)), Err(e))
    case None =>
      (p.sys.(world := Record(p.sys.world, Round(planned.observedLedger, planned.live, p.acks))),
       Ok(CycleReport(planned.observedLedger, CountEntries(planned.plans), |p.acks| > 0, |p.acks|)))
  }

  function RunCycle(env: Environment, s: Sys, cfg: ValidConfig): (Sys, Result<CycleReport, KeeperError>)
    requires !cfg.Resolution().ResolutionPanics?
  {
    var (w, planned) := PlanCycle(env, s.world, cfg);
    match planned
    case Err(e) => (s.(world := w), Err(e))
    case Ok(p) => Finished(p, RunPlans(env, s.(world := w), cfg, p.plans, |p.plans|))
  }

  /** `run_cycle` up to and including planning. */
  method ObserveAndPlan(provider: SorobanProvider, cfg: ValidConfig) returns (r: Result<Planned, KeeperError>)
    requires !cfg.Resolution().ResolutionPanics? && cfg.codec.InjectiveHash()
    modifies provider
    ensures provider.world == PlanCycle(provider.env, old(provider.world), cfg).0
    ensures r == PlanCycle(provider.env, old(provider.world), cfg).1
  {
    hide GetNetwork, ObserveEntries, Planner.SplitPlans;
    var resolution := Watch.ResolveWatchKeys(cfg.parsers, cfg.watch);
    if !resolution.Keys? || resolution.keys == [] {
      return Err(KeeperError.InvalidWatch(false));
    }
    var keys := resolution.keys;
    var network := provider.NetworkPassphrase();
    if network.Err? {
      return Err(RpcError(network.error));
    }
    if network.value != cfg.networkPassphrase {
      return Err(Rpc(false));
    }
    var observations := provider.Observe(cfg.codec, keys);
    if observations.Err? {
      return Err(RpcError(observations.error));
    }
    var rows := observations.value;
    var observedLedger := if rows == [] then 0 else rows[0].currentLedger;
    var extendable := [];
    for i := 0 to Min(|keys|, |rows|)
      invariant extendable == Extendable(keys, rows, i)
    {
      match rows[i].entry {
        case Live(ttl) => extendable := extendable + [(keys[i], ttl)];
        case _ =>
      }
    }
    var plans := cfg.ThePlanner().PlanExtendSplit(extendable, observedLedger);
    if plans.Err? {
      return Err(KeeperError.Transaction(false));
    }
    r := Ok(Planned(observedLedger, extendable, plans.value));
  }

  method RunCycleOnce(tracker: SequenceTracker, cfg: ValidConfig) returns (r: Result<CycleReport, KeeperError>)
    requires !cfg.Resolution().ResolutionPanics? && cfg.codec.InjectiveHash()
    modifies tracker, tracker.provider
    ensures tracker.System() == RunCycle(tracker.provider.env, old(tracker.System()), cfg).0
    ensures r == RunCycle(tracker.provider.env, old(tracker.System()), cfg).1
  {
    hide PlanCycle, SubmitPlan;
    var provider := tracker.provider;
    var planned := ObserveAndPlan(provider, cfg);
    if planned.Err? {
      return Err(planned.error);
    }
    var observedLedger, plans := planned.value.observedLedger, planned.value.plans;
    if plans == [] {
      provider.NoteRound(Round(observedLedger, planned.value.live, []));
      return Ok(CycleReport(observedLedger, 0, false, 0));
    }
    var entriesAtRisk := CountEntries(plans);
    var submitted := 0;
    ghost var start := tracker.System();
    var acks: seq<nat> := [];
    for i := 0 to |plans|
      invariant tracker.provider == provider
      invariant submitted == |acks|
      invariant RunPlans(provider.env, start, cfg, plans, i) == Progress(tracker.System(), acks, None)
    {
      var outcome := SubmitPlanOnce(tracker, cfg, plans[i]);
      match outcome {
        case Ok(Accepted(ack)) =>
          submitted := submitted + 1;
          acks := acks + [ack];
        case Ok(Rejected) =>
        case Err(err) =>
          var invalidated := tracker.ReportFailure(err);
          if !invalidated {
            FailureStops(provider.env, start, cfg, plans, i + 1, |plans|);
            provider.NoteFailure(acks);
            return Err(err);
          }
          var again := SubmitPlanOnce(tracker, cfg, plans[i]);
          if again.Err? || again.value.Rejected? {
            FailureStops(provider.env, start, cfg, plans, i + 1, |plans|);
            provider.NoteFailure(acks);
            return Err(err);
          }
          submitted := submitted + 1;
          acks := acks + [again.value.ack];
      }
    }
    provider.NoteRound(Round(observedLedger, planned.value.live, acks));
    r := Ok(CycleReport(observedLedger, entriesAtRisk, submitted > 0, submitted));
  }
}
