/** Keep-alive promises no more than it can: runs in which nothing fails and a watched entry is dropped. */
module Tightness {
  import opened Basics
  import opened Ledger
  import opened Ttl
  import opened Plan
  import opened Planner
  import opened Provider
  import opened Tx
  import opened Network
  import opened Evolution
  import opened Sequence
  import opened Keeper
  import opened Submission
  import opened Daemon
  import opened SequenceRuns
  import opened KeepAlive
  import opened KeepAliveRuns

  // --- The environment: nothing fails; between the two ticks the envelope is applied and ledgers close -------

  function Closes(n: nat): seq<EnvStep> {
    seq(n, _ => CloseLedger)
  }

  function Smooth(network: string, steps: seq<EnvStep>): Move {
    Move(steps, None, network, 0, SimAnswer(0, 0, 0, 0, 0, None), Deliver(false))
  }

  /** Move 6 is the wait before the second tick. */
  function LateCloses(network: string, left: nat): Environment {
    t => Smooth(network, if t == 6 then [Apply(0)] + Closes(left) else [])
  }

  predicate IdleAt(env: Environment, t: nat, network: string) {
    env(t) == Smooth(network, [])
  }

  lemma IdleStep(env: Environment, w: World, network: string)
    requires IdleAt(env, w.time, network)
    ensures Step(env, w) == w.(time := w.time + 1)
  {
  }

  /** A configuration that watches exactly `k`, which can be rendered and hashed. */
  predicate WatchesOnly(cfg: ValidConfig, k: LedgerKey) {
    && cfg.Resolution() == Watch.Keys([k])
    && cfg.codec.render(k).Some? && cfg.codec.keyHash(k).Some?
    && cfg.constants.Valid()
  }

  // --- One cycle, part by part -------------------------------------------------------------------------

  lemma IdleReply(env: Environment, w: World, cfg: ValidConfig, k: LedgerKey)
    requires WatchesOnly(cfg, k) && IdleAt(env, w.time, cfg.networkPassphrase)
    requires k in w.liveUntil && w.ledger <= U32_MAX
    ensures ChunkRows(cfg.codec, [k], EntriesAnswer(env, w, [k])) == Ok([Row(w.ledger, Some(w.liveUntil[k]))])
  {
    hide Watch.Resolve;
    IdleStep(env, w, cfg.networkPassphrase);
    var seen := w.(time := w.time + 1);
    var held := HeldEntries(seen, [k]);
    assert [k][1..] == [] && HeldEntries(seen, []) == [];
    assert [RpcEntry(Some(k), Some(w.liveUntil[k]))] + [] == [RpcEntry(Some(k), Some(w.liveUntil[k]))];
    assert held == [RpcEntry(Some(k), Some(w.liveUntil[k]))];
    assert held[..0] == [];
    var reply := EntriesReply(w.ledger, Some(held));
    assert EntriesAnswer(env, w, [k]) == Ok(reply);
    assert Table(w.ledger, x => LastMatch(reply.Rows(), x), [k]) == [Row(w.ledger, Some(w.liveUntil[k]))];
  }

  lemma OneChunk(k: LedgerKey)
    ensures Chunks([k], OBSERVE_BATCH_ENTRIES) == [[k]]
  {
    assert [k][..1] == [k] && [k][1..] == [];
    assert Chunks([k][1..], OBSERVE_BATCH_ENTRIES) == [];
  }

  lemma IdleObservation(env: Environment, w: World, cfg: ValidConfig, k: LedgerKey)
    requires WatchesOnly(cfg, k) && IdleAt(env, w.time, cfg.networkPassphrase)
    requires k in w.liveUntil && w.ledger <= U32_MAX
    ensures ObserveEntries(env, w, cfg.codec, [k])
         == (w.(time := w.time + 1), Ok([Row(w.ledger, Some(w.liveUntil[k]))]))
  {
    hide Watch.Resolve, Step, ChunkRows, EntriesAnswer, Chunks, Row;
    OneChunk(k);
    IdleStep(env, w, cfg.networkPassphrase);
    IdleReply(env, w, cfg, k);
    assert ObserveChunks(env, w, cfg.codec, [[k]], 0) == (w, Ok([]));
    assert [] + [Row(w.ledger, Some(w.liveUntil[k]))] == [Row(w.ledger, Some(w.liveUntil[k]))];
  }

  lemma IdlePlanning(env: Environment, w: World, cfg: ValidConfig, k: LedgerKey)
    requires WatchesOnly(cfg, k)
    requires IdleAt(env, w.time, cfg.networkPassphrase) && IdleAt(env, w.time + 1, cfg.networkPassphrase)
    requires k in w.liveUntil && w.ledger <= U32_MAX
    ensures PlanCycle(env, w, cfg)
         == (w.(time := w.time + 2), PlanObserved(cfg, [k], [Row(w.ledger, Some(w.liveUntil[k]))]))
  {
    hide Watch.Resolve, Step, ObserveEntries, PlanObserved, Row;
    IdleStep(env, w, cfg.networkPassphrase);
    IdleObservation(env, w.(time := w.time + 1), cfg, k);
  }

  function TheEntry(cfg: ValidConfig, k: LedgerKey, ledger: nat, until: nat): PlanEntry
    requires cfg.codec.render(k).Some?
  {
    PlanEntry(k, cfg.codec.render(k).value, Extend, DurabilityOf(k), EntryTtl(ledger, Some(until)))
  }

  function ThePlan(cfg: ValidConfig, k: LedgerKey, ledger: nat, until: nat): ArchivalPlan
    requires cfg.codec.render(k).Some?
  {
    ArchivalPlan(cfg.networkPassphrase, ledger, cfg.ExtendTo(), [TheEntry(cfg, k, ledger, until)])
  }

  lemma LivePlanned(cfg: ValidConfig, k: LedgerKey, ledger: nat, left: nat)
    requires WatchesOnly(cfg, k) && 1 <= left <= cfg.window.alertHorizonLedgers
    ensures var until := ledger + left;
            PlanObserved(cfg, [k], [Row(ledger, Some(until))])
              == Ok(Planned(ledger, [(k, EntryTtl(ledger, Some(until)))], [ThePlan(cfg, k, ledger, until)]))
  {
    hide Watch.Resolve;
    var until := ledger + left;
    var rows, c := [Row(ledger, Some(until))], (k, EntryTtl(ledger, Some(until)));
    var planner, e := cfg.ThePlanner(), TheEntry(cfg, k, ledger, until);
    RemainderIsSmaller(left, U64_MAX + 1);
    assert Extendable([k], rows, 0) == [];
    assert Extendable([k], rows, 1) == [c];
    assert [c][1..] == [] && planner.ExtendEntries([], ledger) == Ok([]);
    PrependLaws([e], [], planner.ExtendEntries([], ledger));
    assert planner.ExtendEntries([c], ledger) == Ok([e]);
    OnePlan(planner, e, ledger);
    assert planner.SplitPlans([c], ledger) == Ok([ThePlan(cfg, k, ledger, until)]);
  }

  lemma OnePlan(planner: Planner, e: PlanEntry, ledger: nat)
    ensures planner.NonEmpty(ledger, Filter(OtherEntry, [e])) + planner.NonEmpty(ledger, Filter(TemporaryEntry, [e]))
         == [planner.MakePlan(ledger, [e])]
    ensures planner.NonEmpty(ledger, Filter(OtherEntry, []))
            + planner.NonEmpty(ledger, Filter(TemporaryEntry, [])) == []
  {
    assert [e][1..] == [] && [e] + [] == [e];
    var plan := [planner.MakePlan(ledger, [e])];
    assert plan + [] == plan && [] + plan == plan;
  }

  lemma ExpiredPlanned(cfg: ValidConfig, k: LedgerKey, ledger: nat, until: nat)
    requires until <= ledger
    ensures PlanObserved(cfg, [k], [Row(ledger, Some(until))]) == Ok(Planned(ledger, [], []))
  {
    var rows := [Row(ledger, Some(until))];
    assert Extendable([k], rows, 0) == [];
    assert Extendable([k], rows, 1) == [];
    assert cfg.ThePlanner().ExtendEntries([], ledger) == Ok([]);
    OnePlan(cfg.ThePlanner(), PlanEntry(k, "", Extend, None, EntryTtl(0, None)), ledger);
    assert cfg.ThePlanner().SplitPlans([], ledger) == Ok([]);
  }

  /** From an empty cache, in an idle network, the plan is accepted and nothing else changes. */
  lemma IdleSubmission(env: Environment, s: Sys, cfg: ValidConfig, k: LedgerKey,
        plan: ArchivalPlan) returns (e: TransactionEnvelope)
    requires forall t :: s.world.time <= t <= s.world.time + 2 ==> IdleAt(env, t, cfg.networkPassphrase)
    requires s.cache.None? && |plan.entries| == 1 && plan.entries[0].key == k && plan.entries[0].kind.Extend?
    ensures Extends(e, k, plan.extendTo)
    ensures SubmitWithRetry(env, s, cfg, plan)
         == (Sys(s.world.(time := s.world.time + 3, accountSeq := s.world.accountSeq + 1, log := s.world.log + [e]),
                 Some(s.world.accountSeq + 1), s.requests + 1),
             Ok(Some(|s.world.log|)))
  {
    hide Step, IdleAt;
    var w := s.world;
    IdleStep(env, w, cfg.networkPassphrase);
    IdleStep(env, w.(time := w.time + 1), cfg.networkPassphrase);
    IdleStep(env, w.(time := w.time + 2), cfg.networkPassphrase);
    IdleAnswers(env, w.time, cfg.networkPassphrase);
    IdleAnswers(env, w.time + 1, cfg.networkPassphrase);
    IdleAnswers(env, w.time + 2, cfg.networkPassphrase);
    var unsigned := cfg.Builder().BuildUnsigned(plan, cfg.crypto.publicKey(cfg.signingKey), w.accountSeq + 1).value;
    var sim := SimulationAnswer(SimAnswer(0, 0, 0, 0, 0, None), unsigned);
    e := Finish(cfg, unsigned, sim).value;
    OneKeyExtends(plan, k);
    assert e.tx.data.footprint == LedgerFootprint([], plan.Footprint());
  }

  lemma IdleAnswers(env: Environment, t: nat, network: string)
    requires IdleAt(env, t, network)
    ensures env(t).fault.None? && env(t).lag == 0
    ensures env(t).sim == SimAnswer(0, 0, 0, 0, 0, None) && env(t).send == Deliver(false)
  {
  }

  lemma OneKeyExtends(plan: ArchivalPlan, k: LedgerKey)
    requires |plan.entries| == 1 && plan.entries[0].key == k
    ensures plan.Footprint() == [k]
    ensures IsTemporary(k) || !HasTemporary(LedgerFootprint([], [k]))
  {
    assert [] + [k] == [k];
  }

  /** The first cycle: observed at `ledger`, one envelope accepted, not yet applied. */
  lemma FirstCycle(env: Environment, s: Sys, cfg: ValidConfig, k: LedgerKey, left: nat) returns (e: TransactionEnvelope)
    requires WatchesOnly(cfg, k) && 1 <= left <= cfg.window.alertHorizonLedgers
    requires forall t :: s.world.time <= t <= s.world.time + 4 ==> IdleAt(env, t, cfg.networkPassphrase)
    requires s.cache.None? && s.world.ledger <= U32_MAX && s.world.log == [] && s.world.rounds == []
    requires k in s.world.liveUntil && s.world.liveUntil[k] == s.world.ledger + left
    ensures Extends(e, k, cfg.ExtendTo())
    ensures RunCycle(env, s, cfg).1.Ok?
    ensures var w := s.world;
            RunCycle(env, s, cfg).0.world
              == w.(time := w.time + 5, accountSeq := w.accountSeq + 1, log := [e],
                    rounds := [Round(w.ledger, [(k, EntryTtl(w.ledger, Some(w.ledger + left)))], [0])])
  {
    hide Watch.Resolve, PlanCycle, SubmitWithRetry, IdleAt, PlanObserved;
    IdlePlanning(env, s.world, cfg, k);
    LivePlanned(cfg, k, s.world.ledger, left);
    var (w, planned) := PlanCycle(env, s.world, cfg);
    var start := s.(world := w);
    var plans := planned.value.plans;
    e := IdleSubmission(env, start, cfg, k, plans[0]);
    assert RunPlans(env, start, cfg, plans, 0) == Progress(start, [], None);
    assert [] + [e] == [e];
    assert RunPlans(env, start, cfg, plans, 1) == Progress(SubmitWithRetry(env, start, cfg, plans[0]).0, [0], None);
  }

  /** A cycle that finds the entry expired submits nothing and succeeds. */
  lemma ExpiredCycle(env: Environment, s: Sys, cfg: ValidConfig, k: LedgerKey)
    requires WatchesOnly(cfg, k) && s.world.ledger <= U32_MAX
    requires IdleAt(env, s.world.time, cfg.networkPassphrase) && IdleAt(env, s.world.time + 1, cfg.networkPassphrase)
    requires k in s.world.liveUntil && s.world.liveUntil[k] <= s.world.ledger
    ensures RunCycle(env, s, cfg).1.Ok?
    ensures RunCycle(env, s, cfg).0.world
         == s.world.(time := s.world.time + 2, rounds := s.world.rounds + [Round(s.world.ledger, [], [])])
  {
    hide Watch.Resolve, PlanCycle, IdleAt, PlanObserved;
    IdlePlanning(env, s.world, cfg, k);
    ExpiredPlanned(cfg, k, s.world.ledger, s.world.liveUntil[k]);
    assert RunPlans(env, s.(world := PlanCycle(env, s.world, cfg).0), cfg, [], 0)
        == Progress(s.(world := PlanCycle(env, s.world, cfg).0), [], None);
  }

  // --- The wait in between -----------------------------------------------------------------------------

  /** `age` ledgers after `base` nothing has expired yet and the one round is applied. */
  predicate Aging(w: World, k: LedgerKey, r: Round, age: nat, left: nat) {
    && w.ledger == r.observed + age && w.maxAge == age && w.lapses == {}
    && w.liveUntil == map[k := r.observed + left]
    && w.rounds == [r] && Effective(r, w.applied)
    && r.live == [(k, EntryTtl(r.observed, Some(r.observed + left)))]
    && r.observed + left <= U32_MAX
  }

  lemma OneRound(r: Round, applied: set<nat>)
    requires Effective(r, applied)
    ensures Newest([r], applied) == Some(r)
  {
  }

  lemma CloseAges(w: World, k: LedgerKey, r: Round, age: nat, left: nat)
    requires Aging(w, k, r, age, left) && age < left
    ensures age + 1 < left ==> Aging(StepOne(w, CloseLedger), k, r, age + 1, left)
    ensures var w' := StepOne(w, CloseLedger);
            age + 1 == left ==>
              && w'.ledger == r.observed + left && w'.maxAge == left && w'.liveUntil == w.liveUntil && k in w'.dropped
  {
    hide Newest;
    OneRound(r, w.applied);
    if age + 1 == left {
      assert SawUnbroken(w, r, k) by {
        assert (k, EntryTtl(r.observed, Some(r.observed + left))) in r.live;
      }
      assert r in w.rounds && UnderCare(w, k);
    }
  }

  lemma {:induction false} AllCloses(w: World, k: LedgerKey, r: Round, n: nat, left: nat)
    requires 0 < n <= left && Aging(w, k, r, left - n, left)
    ensures var w' := StepAll(w, Closes(n));
            && w'.ledger == r.observed + left && w'.maxAge == left && w'.liveUntil == w.liveUntil && k in w'.dropped
    decreases n
  {
    hide StepOne, Aging;
    var steps := Closes(n);
    assert steps[0] == CloseLedger && steps[1..] == Closes(n - 1);
    CloseAges(w, k, r, left - n, left);
    if n == 1 {
    } else {
      AllCloses(StepOne(w, CloseLedger), k, r, n - 1, left);
      SameExpiry(w, k, r, left - n, left);
    }
  }

  lemma SameExpiry(w: World, k: LedgerKey, r: Round, age: nat, left: nat)
    requires Aging(w, k, r, age, left)
    ensures StepOne(w, CloseLedger).liveUntil == w.liveUntil
  {
    hide Newest, UnderCare;
  }

  lemma ApplyThenClose(w: World, k: LedgerKey, r: Round, e: TransactionEnvelope, to: nat, left: nat)
    requires Extends(e, k, to) && w.log == [e] && w.applied == {} && left >= 1
    requires Covered(w, k, to) ==> Target(w, to) <= left
    requires w.ledger == r.observed && w.maxAge == 0 && w.lapses == {} && w.rounds == [r] && r.acks == [0]
    requires w.liveUntil == map[k := r.observed + left] && r.observed + left <= U32_MAX
    requires r.live == [(k, EntryTtl(r.observed, Some(r.observed + left)))]
    ensures var w' := StepAll(w, [Apply(0)] + Closes(left));
            && w'.ledger == r.observed + left && w'.maxAge == left && w'.liveUntil == w.liveUntil && k in w'.dropped
  {
    hide Newest, ApplyEnvelope, Extends, UnderCare, Closes;
    var steps := [Apply(0)] + Closes(left);
    assert steps[1..] == Closes(left);
    ApplyExtends(w, e, k, to);
    ApplyRaises(w, e);
    var w1 := StepOne(w, Apply(0));
    assert w1.liveUntil == w.liveUntil;
    AllCloses(w1, k, r, left, left);
  }

  // --- The runs ------------------------------------------------------------------------------------------

  /** No call fails, no sequence number is contested, and both cycles report success. */
  ghost predicate NothingFails(env: Environment, s: Sys, cfg: ValidConfig, policy: RetryPolicy, m: Counters)
    requires !cfg.Resolution().ResolutionPanics?
  {
    && (forall t :: OnlySequenceFails(env(t)) && env(t).lag == 0 && NoForeign(env(t)))
    && RunCycle(env, CycleStart(env, s, cfg, policy, m, 0, 0), cfg).1.Ok?
    && RunCycle(env, CycleStart(env, s, cfg, policy, m, 1, 0), cfg).1.Ok?
  }

  /**
   * Two ticks. In the first, `k` is observed with `left` ledgers left and its envelope accepted; before the second,
   * the envelope is applied, at the very ledger of the observation, and `left` ledgers close. If the extension
   * does not reach beyond `left`, or traps, `k` is dropped at age `left`.
   */
  lemma DroppedRun(cfg: ValidConfig, k: LedgerKey, ledger: nat, left: nat, max: nat, policy: RetryPolicy, m: Counters)
    returns (env: Environment, s: Sys)
    requires WatchesOnly(cfg, k) && 1 <= left <= cfg.window.alertHorizonLedgers && ledger + left <= U32_MAX
    requires (IsTemporary(k) ==> cfg.ExtendTo() <= max) ==> Min(cfg.ExtendTo(), max) <= left
    ensures Fresh(env, s.world, cfg) && IsLive(s.world, k) && s.world.maxEntryTtl == max && s.world.log == []
    ensures NothingFails(env, s, cfg, policy, m) && NeverTouched(env, k)
    ensures var w := RunTicks(env, s, cfg, policy, m, 2).0.world;
            w.maxEntryTtl == max && w.maxAge == left && k in w.dropped
  {
    hide Watch.Resolve, RunCycle, StepAll, Newest, IdleAt;
    var to, network := cfg.ExtendTo(), cfg.networkPassphrase;
    env := LateCloses(network, left);
    forall t | t != 6 ensures IdleAt(env, t, network) {
      LateClosesIdle(network, left, t);
    }
    LateClosesSteps(network, left, k);
    var w0 := World(0, ledger, map[k := ledger + left], max, 0, [], {}, {}, {}, {}, {}, [], 0);
    s := Sys(w0, None, 0);
    IdleStep(env, w0, network);
    var s1 := Waited(env, s);
    assert s1.world == w0.(time := 1);
    var e := FirstCycle(env, s1, cfg, k, left);
    var s2 := RunCycle(env, s1, cfg).0;
    var r := s2.world.rounds[0];
    var s3 := Waited(env, s2);
    ApplyThenClose(s2.world, k, r, e, to, left);
    StepMovesOn(env, s2.world);
    assert s3.world.liveUntil == map[k := ledger + left] && s3.world.ledger == ledger + left;
    ExpiredCycle(env, s3, cfg, k);
    TwoTicks(env, s, cfg, policy, m);
  }

  lemma LateClosesIdle(network: string, left: nat, t: nat)
    requires t != 6
    ensures IdleAt(LateCloses(network, left), t, network)
  {
  }

  lemma LateClosesSteps(network: string, left: nat, k: LedgerKey)
    ensures LateCloses(network, left)(6).steps == [Apply(0)] + Closes(left)
    ensures KeepsFootprints(LateCloses(network, left)) && NeverTouched(LateCloses(network, left), k)
    ensures forall t: nat :: OnlySequenceFails(LateCloses(network, left)(t)) && LateCloses(network, left)(t).lag == 0
                             && NoForeign(LateCloses(network, left)(t))
  {
    var env := LateCloses(network, left);
    assert env(6) == Smooth(network, [Apply(0)] + Closes(left));
    forall t: nat
      ensures env(t).sim == SimAnswer(0, 0, 0, 0, 0, None) && Untouched(env(t).steps, k)
      ensures OnlySequenceFails(env(t)) && env(t).lag == 0 && NoForeign(env(t))
    {
      assert t != 6 ==> env(t) == Smooth(network, []);
    }
  }

  /** Two ticks whose first cycles succeed. */
  lemma TwoTicks(env: Environment, s: Sys, cfg: ValidConfig, policy: RetryPolicy, m: Counters)
    requires !cfg.Resolution().ResolutionPanics?
    requires RunCycle(env, Waited(env, s), cfg).1.Ok?
    requires RunCycle(env, Waited(env, RunCycle(env, Waited(env, s), cfg).0), cfg).1.Ok?
    ensures RunTicks(env, s, cfg, policy, m, 2).0
         == RunCycle(env, Waited(env, RunCycle(env, Waited(env, s), cfg).0), cfg).0
    ensures CycleStart(env, s, cfg, policy, m, 0, 0) == Waited(env, s)
    ensures CycleStart(env, s, cfg, policy, m, 1, 0) == Waited(env, RunCycle(env, Waited(env, s), cfg).0)
  {
    hide Watch.Resolve, RunCycle, Waited;
    assert RunTicks(env, s, cfg, policy, m, 0) == (s, m);
    assert RunTicks(env, s, cfg, policy, m, 1).0 == RunCycle(env, Waited(env, s), cfg).0;
  }

  /**
   * The age bound is exact. For every configuration that watches one key which can be extended, every network maximum,
   * start ledger and retry policy, there is a run in which nothing fails, the age reaches E and the entry is
   * dropped: "fewer than E ledgers" cannot be weakened.
   */
  lemma BoundIsTight(cfg: ValidConfig, k: LedgerKey, ledger: nat, max: nat, policy: RetryPolicy, m: Counters)
    returns (env: Environment, s: Sys)
    requires WatchesOnly(cfg, k) && 1 <= Min(cfg.ExtendTo(), max) && ledger + Min(cfg.ExtendTo(), max) <= U32_MAX
    requires IsTemporary(k) ==> cfg.ExtendTo() <= max
    ensures Fresh(env, s.world, cfg) && IsLive(s.world, k) && s.world.maxEntryTtl == max
    ensures NothingFails(env, s, cfg, policy, m)
    ensures var w := RunTicks(env, s, cfg, policy, m, 2).0.world;
            w.maxAge == Target(w, cfg.ExtendTo()) && k in w.dropped && Covered(w, k, cfg.ExtendTo())
  {
    hide Watch.Resolve, RunTicks, NothingFails;
    ExtendToIsClampedHorizon(cfg.window, cfg.constants);
    env, s := DroppedRun(cfg, k, ledger, Min(cfg.ExtendTo(), max), max, policy, m);
  }

  /**
   * The exception is real. For every configuration that watches one temporary key with a target above the network's
   * maximum (as when the network's settings could not be fetched), there is a run in which nothing fails, only
   * the keeper touches the key, the age stays below E, and the entry, though under care, is dropped.
   */
  lemma TrappedEntryIsDropped(cfg: ValidConfig, k: LedgerKey, ledger: nat, left: nat, max: nat, policy: RetryPolicy,
        m: Counters)
    returns (env: Environment, s: Sys)
    requires WatchesOnly(cfg, k) && IsTemporary(k) && 1 <= left < max < cfg.ExtendTo() && ledger + left <= U32_MAX
    ensures Fresh(env, s.world, cfg) && IsLive(s.world, k) && s.world.maxEntryTtl == max
    ensures NothingFails(env, s, cfg, policy, m) && NeverTouched(env, k)
    ensures var w := RunTicks(env, s, cfg, policy, m, 2).0.world;
            w.maxAge < Target(w, cfg.ExtendTo()) && k in w.dropped
  {
    hide Watch.Resolve, RunTicks, NothingFails;
    ExtendToIsClampedHorizon(cfg.window, cfg.constants);
    env, s := DroppedRun(cfg, k, ledger, left, max, policy, m);
  }
}
