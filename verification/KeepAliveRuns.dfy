/** Keep-alive over whole runs: the theorem, why its bound is exact, and what an extension settles. */
module KeepAliveRuns {
  import opened Basics
  import opened Ledger
  import opened Ttl
  import opened Planner
  import opened Provider
  import opened Tx
  import opened Network
  import opened Evolution
  import opened Sequence
  import opened Keeper
  import opened Submission
  import opened Coverage
  import opened Daemon
  import opened KeepAlive
  import Config

  /** What the daemon watches; nothing while its watch list does not resolve. */
  function Watched(cfg: ValidConfig): seq<LedgerKey> {
    if cfg.Resolution().Keys? then cfg.Resolution().keys else []
  }

  /** The daemon's hypotheses on its surroundings; everything else about the network is arbitrary. */
  ghost predicate FairNetwork(env: Environment, cfg: ValidConfig) {
    KeepsFootprints(env) && cfg.constants.Valid() && !cfg.Resolution().ResolutionPanics?
  }

  ghost predicate CycleRelation(env: Environment, cfg: ValidConfig, w: World, w': World) {
    Follows(env, w, w', Watched(cfg), cfg.ExtendTo(), cfg.window.alertHorizonLedgers)
  }

  lemma RecordFollows(env: Environment, w0: World, w: World, r: Round, keys: seq<LedgerKey>, to: nat, horizon: nat)
    requires Follows(env, w0, w, keys, to, horizon)
    requires Protected(w0, keys, to) ==> RoundKept(w, keys, r, to) && forall x :: x in w.rounds ==> SeenAgain(w, x, r)
    requires w0.ledger <= U32_MAX ==> w.rounds == w0.rounds && w0.ledger <= r.observed <= w.ledger
    ensures Follows(env, w0, Record(w, r), keys, to, horizon)
  {
    hide Extends, OnlyExtendsTo, Newest, Protected, Consistent, Paced;
    var w' := Record(w, r);
    if w0.ledger <= U32_MAX {
      RecordPaced(w0, w, r);
    }
    RecordIsLater(w, r, to);
    LaterJoins(w0, w, w', to);
    if Protected(w0, keys, to) {
      RecordProtects(w, r, keys, to);
    }
  }

  lemma RecordPaced(w0: World, w: World, r: Round)
    requires Paced(w0, w) && w.rounds == w0.rounds && w0.ledger <= r.observed <= w.ledger
    ensures Paced(w0, Record(w, r))
  {
    hide FreshRounds, InOrder;
    var w' := Record(w, r);
    forall base | FreshRounds(w0, base) ensures AgedFrom(w0, w', base) {
      assert AgedFrom(w0, w, base);
      FreshBase(w0, base);
      RecordFresh(w0, w, r, base);
    }
    if InOrder(w0) {
      RecordInOrder(w0, w, r);
    }
  }

  lemma FreshBase(w: World, base: nat)
    requires FreshRounds(w, base)
    ensures InOrder(w) && base <= w.ledger
  {
  }

  lemma RecordInOrder(w0: World, w: World, r: Round)
    requires InOrder(w0) && w.rounds == w0.rounds && w0.ledger <= r.observed <= w.ledger
    ensures InOrder(Record(w, r))
  {
    var rounds := w.rounds + [r];
    assert forall x :: x in rounds ==> x in w0.rounds || x == r;
    assert forall i :: 0 <= i < |w0.rounds| ==> w0.rounds[i] in w0.rounds;
  }

  lemma RecordFresh(w0: World, w: World, r: Round, base: nat)
    requires FreshRounds(w, base) && InOrder(w0) && w.rounds == w0.rounds && base <= w0.ledger <= r.observed <= w.ledger
    ensures FreshRounds(Record(w, r), base)
  {
    hide InOrder, Effective;
    RecordInOrder(w0, w, r);
    assert (w.rounds + [r])[..|w.rounds|] == w.rounds;
  }

  lemma RecordIsLater(w: World, r: Round, to: nat)
    ensures Later(w, Record(w, r), to)
  {
    hide Newest, Extends;
  }

  lemma RecordProtects(w: World, r: Round, keys: seq<LedgerKey>, to: nat)
    requires Protected(w, keys, to)
    requires RoundKept(w, keys, r, to) && forall x :: x in w.rounds ==> SeenAgain(w, x, r)
    ensures Protected(Record(w, r), keys, to)
  {
    hide Extends, Newest, RoundKept, SeenAgain, Later;
    var w' := Record(w, r);
    RecordIsLater(w, r, to);
    forall x | x in w'.rounds ensures RoundKept(w', keys, x, to) {
      RoundKeptLater(w, w', keys, x, to);
    }
    forall i, j | 0 <= i < j < |w'.rounds| ensures SeenAgain(w', w'.rounds[i], w'.rounds[j]) {
      SeenAgainLater(w, w', w'.rounds[i], w'.rounds[j]);
    }
  }

  lemma FailureFollows(env: Environment, w: World, acks: seq<nat>, keys: seq<LedgerKey>, to: nat, horizon: nat)
    requires forall a :: a in acks ==> a < |w.log|
    ensures Follows(env, w, RecordFailure(w, acks), keys, to, horizon)
  {
    hide Extends, OnlyExtendsTo, Newest, Paced;
    SamePaced(w, RecordFailure(w, acks));
    if Protected(w, keys, to) {
      SameProtected(w, RecordFailure(w, acks), keys, to);
    }
  }

  /** The round a successful cycle adds is kept, entry by entry from its own chunk's ledger. */
  lemma NewRoundKept(env: Environment, s: Sys, cfg: ValidConfig)
    requires FairNetwork(env, cfg) && PlanCycle(env, s.world, cfg).1.Ok?
    requires Consistent(s.world) && s.world.ledger <= U32_MAX
    requires var (w, planned) := PlanCycle(env, s.world, cfg);
             RunPlans(env, s.(world := w), cfg, planned.value.plans, |planned.value.plans|).failure.None?
    ensures var (w, planned) := PlanCycle(env, s.world, cfg);
            var p := RunPlans(env, s.(world := w), cfg, planned.value.plans, |planned.value.plans|);
            RoundKept(p.sys.world, Watched(cfg), Round(planned.value.observedLedger, planned.value.live, p.acks),
                      cfg.ExtendTo())
  {
    hide PlanCycle, RunPlans, Watch.Resolve, PlanObserved, KeepsFootprints, Kept, Extendable, Observed, Consistent;
    PlanCycleFacts(env, s.world, cfg);
    var (w, planned) := PlanCycle(env, s.world, cfg);
    var keys, rows := Watched(cfg), Observed(env, s.world, cfg).value;
    var p := RunPlans(env, s.(world := w), cfg, planned.value.plans, |planned.value.plans|);
    ReportedLedger(cfg, keys, rows);
    forall c | c in planned.value.live
      ensures c.0 in keys && planned.value.observedLedger <= c.1.currentLedger
      ensures Kept(p.sys.world, c.0, c.1.currentLedger, p.acks, cfg.ExtendTo())
    {
      ExtendableIsLive(keys, rows, |keys|, c);
      var i :| 0 <= i < |keys| && rows[i].entry.Live? && c == (keys[i], rows[i].entry.ttl);
      assert SoundRow(rows[i]);
      CycleKeeps(env, s, cfg, i);
    }
  }

  /** It sees again what earlier rounds saw live and has not expired since, restored entries included. */
  lemma NewRoundSeesAgain(env: Environment, s: Sys, cfg: ValidConfig, w': World, x: Round)
    requires FairNetwork(env, cfg) && PlanCycle(env, s.world, cfg).1.Ok?
    requires Protected(s.world, Watched(cfg), cfg.ExtendTo()) && x in s.world.rounds
    requires PlanCycle(env, s.world, cfg).0.lapses <= w'.lapses
    ensures var planned := PlanCycle(env, s.world, cfg).1.value;
            forall acks :: SeenAgain(w', x, Round(planned.observedLedger, planned.live, acks))
  {
    hide Step, ObserveEntries, PlanObserved, Watch.Resolve, KeepsFootprints, Protected, Noted, Later, OwnLog,
         Extendable, Unbroken;
    var keys, to, horizon := Watched(cfg), cfg.ExtendTo(), cfg.window.alertHorizonLedgers;
    ExtendToIsClampedHorizon(cfg.window, cfg.constants);
    PlanCycleFacts(env, s.world, cfg);
    var w1 := GetNetwork(env, s.world).0;
    StepFollows(env, s.world, keys, to, horizon);
    StepMovesOn(env, s.world);
    var (w, planned) := PlanCycle(env, s.world, cfg);
    var rows := Observed(env, s.world, cfg).value;
    ReportedLedger(cfg, keys, rows);
    forall c | c in x.live && Unbroken(w', c.0, c.1.currentLedger)
      ensures exists d :: d in planned.value.live && d.0 == c.0 && d.1.currentLedger >= c.1.currentLedger
    {
      WatchedSighting(s.world, keys, x, c, to);
      var i :| 0 <= i < |keys| && keys[i] == c.0;
      BrokenStays(w, w', c.0, c.1.currentLedger);
      ObservedAgain(env, w1, cfg.codec, keys, i, x, c, to);
      var d := (keys[i], rows[i].entry.ttl);
      ExtendableIsLive(keys, rows, |keys|, d);
      assert SoundRow(rows[i]);
    }
  }

  lemma WatchedSighting(w: World, keys: seq<LedgerKey>, r: Round, c: Candidate, to: nat)
    requires Protected(w, keys, to) && r in w.rounds && c in r.live
    ensures c.0 in keys
  {
    hide Kept;
    assert RoundKept(w, keys, r, to);
  }

  /** A cycle's observation ledger lies between its start and the end of its planning. */
  lemma ObservedInBetween(env: Environment, w: World, cfg: ValidConfig)
    requires !cfg.Resolution().ResolutionPanics? && w.ledger <= U32_MAX && PlanCycle(env, w, cfg).1.Ok?
    ensures w.ledger <= PlanCycle(env, w, cfg).1.value.observedLedger <= PlanCycle(env, w, cfg).0.ledger
  {
    hide Step, ObserveEntries, PlanObserved, Watch.Resolve, Protected, Noted, LivedOn, Unbroken, OwnLog, Paced,
         Extendable;
    PlanCycleFacts(env, w, cfg);
    var w1 := GetNetwork(env, w).0;
    StepFollows(env, w, [], 0, 0);
    ObservedAlive(env, w1, cfg.codec, cfg.Resolution().keys, 0, cfg.window, 0);
    ReportedLedger(cfg, cfg.Resolution().keys, Observed(env, w, cfg).value);
  }

  /** One cycle, whatever comes of it, keeps the invariant and notes whatever it drops. */
  lemma CycleFollows(env: Environment, s: Sys, cfg: ValidConfig)
    requires FairNetwork(env, cfg)
    ensures CycleRelation(env, cfg, s.world, RunCycle(env, s, cfg).0.world)
  {
    hide PlanCycle, RunPlans, Watch.Resolve, PlanObserved, Follows, KeepsFootprints, Protected, RoundKept, SeenAgain,
         Accounted, ExtendsTo, Record, RecordFailure;
    var keys, to, horizon := Watched(cfg), cfg.ExtendTo(), cfg.window.alertHorizonLedgers;
    ExtendToIsClampedHorizon(cfg.window, cfg.constants);
    PlanningFollows(env, s.world, cfg, keys, to, horizon);
    PlanCycleFacts(env, s.world, cfg);
    var (w, planned) := PlanCycle(env, s.world, cfg);
    if planned.Ok? {
      var plans, start := planned.value.plans, s.(world := w);
      PlansExtendTo(cfg, keys, Observed(env, s.world, cfg).value);
      RunPlansFollow(env, start, cfg, plans, |plans|, keys, to, horizon);
      RunPlansFacts(env, start, cfg, plans, |plans|);
      var p := RunPlans(env, start, cfg, plans, |plans|);
      FollowsJoins(env, s.world, w, p.sys.world, keys, to, horizon);
      if p.failure.None? {
        var r := Round(planned.value.observedLedger, planned.value.live, p.acks);
        if Protected(s.world, keys, to) {
          assert Consistent(s.world) && s.world.ledger <= U32_MAX by {
            ProtectedBasics(s.world, keys, to);
          }
          NewRoundKept(env, s, cfg);
          forall x | x in p.sys.world.rounds ensures SeenAgain(p.sys.world, x, r) {
            NewRoundSeesAgain(env, s, cfg, p.sys.world, x);
          }
        }
        if s.world.ledger <= U32_MAX {
          ObservedInBetween(env, s.world, cfg);
        }
        RecordFollows(env, s.world, p.sys.world, r, keys, to, horizon);
      } else {
        FailureFollows(env, p.sys.world, p.acks, keys, to, horizon);
        FollowsJoins(env, s.world, p.sys.world, RecordFailure(p.sys.world, p.acks), keys, to, horizon);
      }
    }
  }

  lemma ProtectedBasics(w: World, keys: seq<LedgerKey>, to: nat)
    requires Protected(w, keys, to)
    ensures Consistent(w) && w.ledger <= U32_MAX
  {
    hide RoundKept, SeenAgain;
  }

  lemma WaitFollows(env: Environment, s: Sys, cfg: ValidConfig)
    requires FairNetwork(env, cfg)
    ensures CycleRelation(env, cfg, s.world, Waited(env, s).world)
  {
    hide Step, Follows, Watch.Resolve, KeepsFootprints;
    ExtendToIsClampedHorizon(cfg.window, cfg.constants);
    StepFollows(env, s.world, Watched(cfg), cfg.ExtendTo(), cfg.window.alertHorizonLedgers);
  }

  lemma RelationJoins(env: Environment, cfg: ValidConfig, w: World, w1: World, w2: World)
    requires CycleRelation(env, cfg, w, w1) && CycleRelation(env, cfg, w1, w2)
    ensures CycleRelation(env, cfg, w, w2)
  {
    hide Follows, Watch.Resolve;
    FollowsJoins(env, w, w1, w2, Watched(cfg), cfg.ExtendTo(), cfg.window.alertHorizonLedgers);
  }

  lemma {:induction false} AttemptsFollow(env: Environment, s: Sys, cfg: ValidConfig, policy: RetryPolicy,
        m: Counters, attempt: nat)
    requires FairNetwork(env, cfg)
    ensures CycleRelation(env, cfg, s.world, Attempts(env, s, cfg, policy, m, attempt).sys.world)
    decreases if policy.attempts > attempt then policy.attempts - attempt else 0
  {
    hide RunCycle, Waited, Watch.Resolve, Follows, KeepsFootprints;
    CycleFollows(env, s, cfg);
    var (s', r) := RunCycle(env, s, cfg);
    if r.Ok? || GivesUp(policy, attempt + 1, r.error) {
    } else {
      WaitFollows(env, s', cfg);
      RelationJoins(env, cfg, s.world, s'.world, Waited(env, s').world);
      AttemptsFollow(env, Waited(env, s'), cfg, policy, m, attempt + 1);
      RelationJoins(env, cfg, s.world, Waited(env, s').world,
                    Attempts(env, Waited(env, s'), cfg, policy, m, attempt + 1).sys.world);
    }
  }

  /** Between tick `first` and tick `n`, failed cycles, retries and ledger closes included. */
  lemma {:induction false} TicksFollow(env: Environment, s: Sys, cfg: ValidConfig, policy: RetryPolicy, m: Counters,
        first: nat, n: nat)
    requires FairNetwork(env, cfg) && first <= n
    ensures CycleRelation(env, cfg, RunTicks(env, s, cfg, policy, m, first).0.world,
                          RunTicks(env, s, cfg, policy, m, n).0.world)
    decreases n
  {
    hide Attempts, Waited, Watch.Resolve, Follows, KeepsFootprints;
    var w0 := RunTicks(env, s, cfg, policy, m, first).0.world;
    if n == 0 {
      FollowsItself(env, s.world, Watched(cfg), cfg.ExtendTo(), cfg.window.alertHorizonLedgers);
    } else {
      TicksFollow(env, s, cfg, policy, m, Min(first, n - 1), n - 1);
      var before := RunTicks(env, s, cfg, policy, m, n - 1);
      var waited := Waited(env, before.0);
      var w := Attempts(env, waited, cfg, policy, before.1, 0).sys.world;
      WaitFollows(env, before.0, cfg);
      AttemptsFollow(env, waited, cfg, policy, before.1, 0);
      if first == n {
        FollowsItself(env, w, Watched(cfg), cfg.ExtendTo(), cfg.window.alertHorizonLedgers);
      } else {
        RelationJoins(env, cfg, before.0.world, waited.world, w);
        RelationJoins(env, cfg, w0, before.0.world, w);
      }
    }
  }

  // --- The theorem -----------------------------------------------------------------------------------

  /** A start: no cycle recorded yet. Nothing is asked of the entries. */
  ghost predicate Fresh(env: Environment, w: World, cfg: ValidConfig) {
    && FairNetwork(env, cfg)
    && Consistent(w) && w.ledger <= U32_MAX
    && w.rounds == [] && w.dropped == {}
  }

  lemma RunIsProtected(env: Environment, s: Sys, cfg: ValidConfig, policy: RetryPolicy, m: Counters, n: nat)
    requires Fresh(env, s.world, cfg)
    ensures Protected(RunTicks(env, s, cfg, policy, m, n).0.world, Watched(cfg), cfg.ExtendTo())
  {
    hide RunTicks, Watch.Resolve, KeepsFootprints, RoundKept, SeenAgain, Later, Noted, OwnLog;
    RunStarts(env, s, cfg, policy, m);
    TicksFollow(env, s, cfg, policy, m, 0, n);
  }

  lemma RunStarts(env: Environment, s: Sys, cfg: ValidConfig, policy: RetryPolicy, m: Counters)
    requires !cfg.Resolution().ResolutionPanics?
    ensures RunTicks(env, s, cfg, policy, m, 0) == (s, m)
  {
  }

  /**
   * What every successful cycle saw live, and has not expired since that entry's own observation, is live; and
   * once the cycle's envelopes are applied it lives until at least the target counted from that observation.
   * (Only a temporary entry whose extension traps, the target being above the network maximum, is excepted.)
   */
  lemma SightingsAreKept(env: Environment, s: Sys, cfg: ValidConfig, policy: RetryPolicy, m: Counters, n: nat,
        r: Round, c: Candidate)
    requires Fresh(env, s.world, cfg)
    requires var w := RunTicks(env, s, cfg, policy, m, n).0.world;
             r in w.rounds && c in r.live && Unbroken(w, c.0, c.1.currentLedger)
    ensures var w := RunTicks(env, s, cfg, policy, m, n).0.world;
            && c.0 in Watched(cfg) && IsLive(w, c.0)
            && (Effective(r, w.applied) && Covered(w, c.0, cfg.ExtendTo()) ==>
                  w.liveUntil[c.0] >= c.1.currentLedger + Target(w, cfg.ExtendTo()))
  {
    hide RunTicks, Watch.Resolve, KeepsFootprints, Extends, Unbroken, SeenAgain;
    RunIsProtected(env, s, cfg, policy, m, n);
    var w := RunTicks(env, s, cfg, policy, m, n).0.world;
    assert RoundKept(w, Watched(cfg), r, cfg.ExtendTo());
    assert Kept(w, c.0, c.1.currentLedger, r.acks, cfg.ExtendTo());
  }

  /**
   * Keep-alive. With E the smaller of the clamped extension target and the network's maximum: if, at every ledger
   * close, the newest cycle whose envelopes have all been applied was observed fewer than E ledgers before, then
   * no entry expires that a completely applied cycle has seen live and that has been live since, unless
   * it is temporary and the target exceeds the network's maximum, so that extending it traps.
   */
  lemma WatchedEntriesStayAlive(env: Environment, s: Sys, cfg: ValidConfig, policy: RetryPolicy, m: Counters, n: nat)
    requires Fresh(env, s.world, cfg)
    requires var w := RunTicks(env, s, cfg, policy, m, n).0.world; w.maxAge < Target(w, cfg.ExtendTo())
    ensures var w := RunTicks(env, s, cfg, policy, m, n).0.world;
            forall k :: k in w.dropped ==> IsTemporary(k) && cfg.ExtendTo() > w.maxEntryTtl
  {
    hide RunTicks, Watch.Resolve, KeepsFootprints, RoundKept, SeenAgain;
    RunIsProtected(env, s, cfg, policy, m, n);
  }

  /**
   * The same between two moments of a run. An entry that some cycle, applied by tick `first`, saw live and that
   * has not expired since is live at every later tick `n`, and lives until at least E ledgers after the newest
   * applied cycle's observation. Whether it had ever expired before it was seen, and was restored, does not matter.
   */
  lemma LiveEntriesStayLive(env: Environment, s: Sys, cfg: ValidConfig, policy: RetryPolicy, m: Counters, first: nat,
        n: nat, k: LedgerKey)
    requires Fresh(env, s.world, cfg) && first <= n
    requires UnderCare(RunTicks(env, s, cfg, policy, m, first).0.world, k)
    requires var w := RunTicks(env, s, cfg, policy, m, n).0.world;
             w.maxAge < Target(w, cfg.ExtendTo()) && Covered(w, k, cfg.ExtendTo())
    ensures var w := RunTicks(env, s, cfg, policy, m, n).0.world;
            && IsLive(w, k) && UnderCare(w, k)
            && Newest(w.rounds, w.applied).Some?
            && w.liveUntil[k] >= Newest(w.rounds, w.applied).value.observed + Target(w, cfg.ExtendTo())
  {
    hide RunTicks, Watch.Resolve, KeepsFootprints, RoundKept, SeenAgain, Protected, Unbroken, OwnLog, Consistent;
    var w1, w2 := RunTicks(env, s, cfg, policy, m, first).0.world, RunTicks(env, s, cfg, policy, m, n).0.world;
    TicksFollow(env, s, cfg, policy, m, first, n);
    RunIsProtected(env, s, cfg, policy, m, n);
    WatchedEntriesStayAlive(env, s, cfg, policy, m, n);
    StaysUnderCare(w1, w2, k, cfg.ExtendTo());
    CareReachesTarget(w2, Watched(cfg), k, cfg.ExtendTo());
  }

  lemma StaysUnderCare(w: World, w': World, k: LedgerKey, to: nat)
    requires Later(w, w', to) && Noted(w, w') && UnderCare(w, k) && k !in w'.dropped
    ensures UnderCare(w', k)
  {
    hide Unbroken, Consistent, LivedOn;
    var r :| r in w.rounds && Effective(r, w.applied) && SawUnbroken(w, r, k);
    var c :| c in r.live && c.0 == k && Unbroken(w, k, c.1.currentLedger);
    assert r in w'.rounds && Effective(r, w'.applied) && SawUnbroken(w', r, k);
  }

  lemma {:induction false} CycleStartFollows(env: Environment, s: Sys, cfg: ValidConfig, policy: RetryPolicy,
        m: Counters, first: nat, n: nat, j: nat)
    requires FairNetwork(env, cfg) && first <= n
    ensures CycleRelation(env, cfg, RunTicks(env, s, cfg, policy, m, first).0.world,
                          CycleStart(env, s, cfg, policy, m, n, j).world)
  {
    hide RunTicks, RunCycle, Waited, Watch.Resolve, KeepsFootprints, Follows;
    var w0 := RunTicks(env, s, cfg, policy, m, first).0.world;
    var now := CycleStart(env, s, cfg, policy, m, n, j).world;
    TicksFollow(env, s, cfg, policy, m, first, n);
    if j == 0 {
      WaitFollows(env, RunTicks(env, s, cfg, policy, m, n).0, cfg);
      RelationJoins(env, cfg, w0, RunTicks(env, s, cfg, policy, m, n).0.world, now);
    } else {
      CycleStartFollows(env, s, cfg, policy, m, first, n, j - 1);
      var before := CycleStart(env, s, cfg, policy, m, n, j - 1);
      var cycled := RunCycle(env, before, cfg).0;
      CycleFollows(env, before, cfg);
      WaitFollows(env, cycled, cfg);
      RelationJoins(env, cfg, before.world, cycled.world, now);
      RelationJoins(env, cfg, w0, before.world, now);
    }
  }

  /**
   * The excepted entries, exactly. One that only the keeper extends, temporary and with the target above the network's
   * maximum, keeps the expiry it has over every run, so it is live exactly until then, whatever the keeper does.
   */
  lemma UncoveredEntriesExpire(env: Environment, s: Sys, cfg: ValidConfig, policy: RetryPolicy, m: Counters, n: nat,
        k: LedgerKey)
    requires FairNetwork(env, cfg) && OwnLog(s.world, cfg.ExtendTo()) && NeverTouched(env, k)
    requires IsLive(s.world, k) && !Covered(s.world, k, cfg.ExtendTo())
    ensures var w := RunTicks(env, s, cfg, policy, m, n).0.world;
            && (IsLive(w, k) <==> w.ledger < s.world.liveUntil[k])
            && (k in w.liveUntil ==> w.liveUntil[k] == s.world.liveUntil[k])
  {
    hide RunTicks, Watch.Resolve, KeepsFootprints, Protected, Noted, LivedOn, Paced, OwnLog, Consistent, Covered;
    RunStarts(env, s, cfg, policy, m);
    TicksFollow(env, s, cfg, policy, m, 0, n);
    assert Frozen(s.world, k, s.world.liveUntil[k]);
  }

  // --- Live on the ledger --------------------------------------------------------------------------------

  /**
   * What a successful cycle records of key `i`: with `c` the number of its chunk, the key's state on the ledger at
   * the moment that chunk's request was answered.
   */
  lemma CycleSeesLiveEntries(env: Environment, s: Sys, cfg: ValidConfig, i: nat) returns (c: nat)
    requires FairNetwork(env, cfg) && s.world.ledger <= U32_MAX
    requires RunCycle(env, s, cfg).1.Ok? && i < |Watched(cfg)|
    ensures c < |Chunks(Watched(cfg), OBSERVE_BATCH_ENTRIES)|
    ensures var seen, w := After(env, GetNetwork(env, s.world).0, c + 1), RunCycle(env, s, cfg).0.world;
            && s.world.ledger <= seen.ledger <= w.ledger && s.world.lapses <= seen.lapses <= w.lapses
            && |w.rounds| == |s.world.rounds| + 1
            && (IsLive(seen, Watched(cfg)[i]) ==>
                  (Watched(cfg)[i], EntryTtl(seen.ledger, Some(seen.liveUntil[Watched(cfg)[i]])))
                    in w.rounds[|s.world.rounds|].live)
  {
    hide Step, RunPlans, ObserveEntries, PlanObserved, Watch.Resolve, KeepsFootprints, Protected, Noted, LivedOn,
         OwnLog, Extendable, Unbroken, Consistent, After, Chunks;
    var keys := Watched(cfg);
    PlanCycleFacts(env, s.world, cfg);
    var (w, planned) := PlanCycle(env, s.world, cfg);
    RunPlansFacts(env, s.(world := w), cfg, planned.value.plans, |planned.value.plans|);
    StepMovesOn(env, s.world);
    var w1 := GetNetwork(env, s.world).0;
    StepFollows(env, s.world, [], 0, 0);
    forall n ensures After(env, w1, n).ledger <= U32_MAX {
      AfterFollows(env, w1, n, [], 0, 0);
    }
    c := RowShowsLedger(env, w1, cfg.codec, keys, i);
    var seen := After(env, w1, c + 1);
    var n := |Chunks(keys, OBSERVE_BATCH_ENTRIES)|;
    AfterMovesOn(env, w1, c + 1);
    AfterMovesOn(env, seen, n - (c + 1));
    AfterSplit(env, w1, c + 1, n - (c + 1));
    var rows := Observed(env, s.world, cfg).value;
    ReportedLedger(cfg, keys, rows);
    ExtendableIsLive(keys, rows, |keys|, (keys[i], rows[i].AsEntryTtl()));
  }

  /** A watched entry that is live when a successful cycle starts, and does not expire during it, is in its round. */
  lemma LiveEntriesAreSeen(env: Environment, s: Sys, cfg: ValidConfig, k: LedgerKey) returns (d: Candidate)
    requires FairNetwork(env, cfg) && s.world.ledger <= U32_MAX
    requires RunCycle(env, s, cfg).1.Ok? && k in Watched(cfg)
    requires IsLive(s.world, k) && Unbroken(RunCycle(env, s, cfg).0.world, k, s.world.ledger)
    ensures var w := RunCycle(env, s, cfg).0.world;
            && |w.rounds| == |s.world.rounds| + 1
            && d in w.rounds[|s.world.rounds|].live && d.0 == k
            && s.world.ledger <= d.1.currentLedger <= w.ledger
  {
    hide Step, RunCycle, Watch.Resolve, KeepsFootprints, Protected, Noted, OwnLog, Unbroken, Consistent, After, Chunks;
    var i :| 0 <= i < |Watched(cfg)| && Watched(cfg)[i] == k;
    var c := CycleSeesLiveEntries(env, s, cfg, i);
    var w, w1 := RunCycle(env, s, cfg).0.world, GetNetwork(env, s.world).0;
    var seen := After(env, w1, c + 1);
    StepFollows(env, s.world, [], 0, 0);
    AfterFollows(env, w1, c + 1, [], 0, 0);
    FollowsJoins(env, s.world, w1, seen, [], 0, 0);
    BrokenStays(seen, w, k, s.world.ledger);
    assert LivedOn(s.world, seen, k, 0);
    d := (k, EntryTtl(seen.ledger, Some(seen.liveUntil[k])));
  }

  /** Tick `t + 1` gets as far as its cycle `j`: every cycle before failed with an error that is retried. */
  predicate Reaches(env: Environment, s: Sys, cfg: ValidConfig, policy: RetryPolicy, m: Counters, t: nat, j: nat)
    requires !cfg.Resolution().ResolutionPanics?
  {
    forall i: nat :: i < j ==>
      var r := RunCycle(env, CycleStart(env, s, cfg, policy, m, t, i), cfg).1;
      r.Err? && !GivesUp(policy, i + 1, r.error)
  }

  lemma {:induction false} RestOfTick(env: Environment, s: Sys, cfg: ValidConfig, policy: RetryPolicy, m: Counters,
        t: nat, j: nat)
    requires !cfg.Resolution().ResolutionPanics? && Reaches(env, s, cfg, policy, m, t, j)
    ensures var start, counters := CycleStart(env, s, cfg, policy, m, t, j), RunTicks(env, s, cfg, policy, m, t).1;
            RunTicks(env, s, cfg, policy, m, t + 1).0 == Attempts(env, start, cfg, policy, counters, j).sys
  {
    hide RunCycle, Waited, Watch.Resolve;
    if j == 0 {
    } else {
      RestOfTick(env, s, cfg, policy, m, t, j - 1);
      assert !GivesUp(policy, j, RunCycle(env, CycleStart(env, s, cfg, policy, m, t, j - 1), cfg).1.error);
    }
  }

  /** A cycle that is reached and succeeds ends its tick. */
  lemma SuccessEndsTick(env: Environment, s: Sys, cfg: ValidConfig, policy: RetryPolicy, m: Counters, t: nat, j: nat)
    requires !cfg.Resolution().ResolutionPanics? && Reaches(env, s, cfg, policy, m, t, j)
    requires RunCycle(env, CycleStart(env, s, cfg, policy, m, t, j), cfg).1.Ok?
    ensures RunTicks(env, s, cfg, policy, m, t + 1).0 == RunCycle(env, CycleStart(env, s, cfg, policy, m, t, j), cfg).0
  {
    hide RunCycle, RunTicks, CycleStart, Reaches, Watch.Resolve;
    RestOfTick(env, s, cfg, policy, m, t, j);
  }

  /**
   * Keep-alive in terms of the ledger alone. A watched entry that is live when some cycle starts that then succeeds
   * (cycle `j` of tick `t + 1`), and that does not expire until that cycle's envelopes have all been applied, by
   * tick `first`, is live at every later tick, restored entries included.
   */
  lemma LiveAtCycleStaysLive(env: Environment, s: Sys, cfg: ValidConfig, policy: RetryPolicy, m: Counters,
        t: nat, j: nat, first: nat, n: nat, k: LedgerKey)
    requires Fresh(env, s.world, cfg) && Reaches(env, s, cfg, policy, m, t, j) && t + 1 <= first <= n
    requires k in Watched(cfg) && IsLive(CycleStart(env, s, cfg, policy, m, t, j).world, k)
    requires var start := CycleStart(env, s, cfg, policy, m, t, j);
             var w := RunTicks(env, s, cfg, policy, m, first).0.world;
             && RunCycle(env, start, cfg).1.Ok?
             && Unbroken(w, k, start.world.ledger)
             && |start.world.rounds| < |w.rounds| && Effective(w.rounds[|start.world.rounds|], w.applied)
    requires var w := RunTicks(env, s, cfg, policy, m, n).0.world;
             w.maxAge < Target(w, cfg.ExtendTo()) && Covered(w, k, cfg.ExtendTo())
    ensures var w := RunTicks(env, s, cfg, policy, m, n).0.world;
            && IsLive(w, k)
            && Newest(w.rounds, w.applied).Some?
            && w.liveUntil[k] >= Newest(w.rounds, w.applied).value.observed + Target(w, cfg.ExtendTo())
  {
    hide RunTicks, RunCycle, CycleStart, Reaches, Watch.Resolve, KeepsFootprints, Protected, Noted, OwnLog, LivedOn,
         Unbroken, Consistent, Effective;
    var start := CycleStart(env, s, cfg, policy, m, t, j);
    var w1 := RunTicks(env, s, cfg, policy, m, first).0.world;
    RunStarts(env, s, cfg, policy, m);
    CycleStartFollows(env, s, cfg, policy, m, 0, t, j);
    SuccessEndsTick(env, s, cfg, policy, m, t, j);
    TicksFollow(env, s, cfg, policy, m, t + 1, first);
    var cycled := RunCycle(env, start, cfg).0.world;
    BrokenStays(cycled, w1, k, start.world.ledger);
    var d := LiveEntriesAreSeen(env, start, cfg, k);
    var r := cycled.rounds[|start.world.rounds|];
    assert w1.rounds[|start.world.rounds|] == r;
    BrokenStays(w1, w1, k, start.world.ledger);
    assert r in w1.rounds && SawUnbroken(w1, r, k);
    assert UnderCare(w1, k);
    LiveEntriesStayLive(env, s, cfg, policy, m, first, n, k);
  }

  /** A loaded configuration meets the theorem's demands on it; what is left concerns the network alone. */
  lemma LoadedConfigIsFair(libs: Config.Libraries, raw: Config.RawConfig, network: Option<TtlConstants>,
        env: Environment)
    requires Config.ValuesAreValid(raw) && Config.RulesAreValid(libs.parsers, raw.watch)
    requires network.Some? ==> network.value.Valid()
    ensures var cfg := Config.AtStartup(Config.Loaded(libs, raw), network);
            && |Watched(cfg)| == |raw.watch|
            && (FairNetwork(env, cfg) <==> KeepsFootprints(env))
            && (cfg.ExtendTo() >= 1 <==> cfg.constants.maxEntryTtl >= 1)
  {
    hide Watch.Resolve, Config.ValuesAreValid, Config.RulesAreValid, KeepsFootprints;
    Config.LoadedConfigIsSound(libs, raw, network);
  }

  // --- What an extension settles -----------------------------------------------------------------------

  /**
   * The extension's fixed point: an applied extension brings an at-risk entry to exactly the horizon clamped by the
   * configured and the network's maximum, or traps; it never exceeds the horizon, so the entry is at risk still,
   * and applying it twice changes nothing more. If the configured maximum is within the network's, nothing
   * traps and the network's clamp is the identity.
   */
  lemma ExtensionFixedPoint(w: World, e: TransactionEnvelope, k: LedgerKey, window: RiskWindow, constants: TtlConstants)
    requires constants.Valid()
    requires Extends(e, k, window.ExtendToLedgers(constants))
    requires IsLive(w, k) && w.liveUntil[k] - w.ledger <= window.alertHorizonLedgers
    ensures k in ApplyEnvelope(w, e)
    ensures var to := window.ExtendToLedgers(constants);
            var left, left' := w.liveUntil[k] - w.ledger, ApplyEnvelope(w, e)[k] - w.ledger;
            && left' == (if Covered(w, k, to)
                         then Max(left, Min(Min(window.alertHorizonLedgers, constants.maxEntryTtl), w.maxEntryTtl))
                         else left)
            && left' <= window.alertHorizonLedgers
            && window.IsAtRisk(EntryTtl(w.ledger, Some(ApplyEnvelope(w, e)[k])))
    ensures constants.maxEntryTtl <= w.maxEntryTtl ==>
              && Covered(w, k, window.ExtendToLedgers(constants))
              && Target(w, window.ExtendToLedgers(constants)) == window.ExtendToLedgers(constants)
    ensures ApplyEnvelope(w.(liveUntil := ApplyEnvelope(w, e)), e) == ApplyEnvelope(w, e)
  {
    ExtendToIsClampedHorizon(window, constants);
    ApplyExtends(w, e, k, window.ExtendToLedgers(constants));
    RemainderIsSmaller(ApplyEnvelope(w, e)[k] - w.ledger, U64_MAX + 1);
    ApplyTwice(w, e);
  }

  lemma ApplyTwice(w: World, e: TransactionEnvelope)
    ensures ApplyEnvelope(w.(liveUntil := ApplyEnvelope(w, e)), e) == ApplyEnvelope(w, e)
  {
    hide HasTemporary;
  }

  /** A settled key that a cycle observes live is at risk there, so the cycle plans it. */
  lemma SettledIsPlanned(env: Environment, w: World, cfg: ValidConfig, i: nat)
    requires FairNetwork(env, cfg) && w.ledger <= U32_MAX && OwnLog(w, cfg.ExtendTo())
    requires PlanCycle(env, w, cfg).1.Ok? && i < |Watched(cfg)|
    requires NeverTouched(env, Watched(cfg)[i]) && Settled(w, Watched(cfg)[i], cfg.window.alertHorizonLedgers)
    requires var rows := Observed(env, w, cfg); rows.Ok? && i < |rows.value| && rows.value[i].entry.Live?
    ensures exists p :: p in PlanCycle(env, w, cfg).1.value.plans && Watched(cfg)[i] in p.Footprint()
  {
    hide Step, ObserveEntries, PlanObserved, Watch.Resolve, KeepsFootprints, Protected, Noted, NeverTouched, Extends,
         LivedOn, Unbroken, OnlyExtendsTo, Consistent, After;
    var keys, to, horizon := Watched(cfg), cfg.ExtendTo(), cfg.window.alertHorizonLedgers;
    ExtendToIsClampedHorizon(cfg.window, cfg.constants);
    PlanCycleFacts(env, w, cfg);
    var w1 := GetNetwork(env, w).0;
    StepFollows(env, w, keys, to, horizon);
    forall n ensures After(env, w1, n).ledger <= U32_MAX {
      AfterFollows(env, w1, n, keys, to, horizon);
    }
    var c := RowShowsLedger(env, w1, cfg.codec, keys, i);
    AfterFollows(env, w1, c + 1, keys, to, horizon);
    var seen := After(env, w1, c + 1);
    RemainderIsSmaller(seen.liveUntil[keys[i]] - seen.ledger, U64_MAX + 1);
    var j := RiskyIsPlanned(cfg, keys, Observed(env, w, cfg).value, i);
  }

  /**
   * Once at risk, always planned: a watched key that only the keeper extends and that is at risk after
   * tick `first` is in a plan of every later cycle that observes it live, retries included.
   */
  lemma OnceAtRiskAlwaysPlanned(env: Environment, s: Sys, cfg: ValidConfig, policy: RetryPolicy, m: Counters,
        first: nat, n: nat, j: nat, i: nat)
    requires FairNetwork(env, cfg) && s.world.ledger <= U32_MAX && OwnLog(s.world, cfg.ExtendTo())
    requires first <= n && i < |Watched(cfg)| && NeverTouched(env, Watched(cfg)[i])
    requires Settled(RunTicks(env, s, cfg, policy, m, first).0.world, Watched(cfg)[i], cfg.window.alertHorizonLedgers)
    requires var w := CycleStart(env, s, cfg, policy, m, n, j).world;
             && PlanCycle(env, w, cfg).1.Ok?
             && var rows := Observed(env, w, cfg);
             rows.Ok? && i < |rows.value| && rows.value[i].entry.Live?
    ensures var w := CycleStart(env, s, cfg, policy, m, n, j).world;
            exists p :: p in PlanCycle(env, w, cfg).1.value.plans && Watched(cfg)[i] in p.Footprint()
  {
    hide RunTicks, RunCycle, Waited, Watch.Resolve, KeepsFootprints, Protected, Noted, LivedOn, PlanCycle, Observed,
         Settled, NeverTouched, OwnLog;
    RunStarts(env, s, cfg, policy, m);
    TicksFollow(env, s, cfg, policy, m, 0, first);
    CycleStartFollows(env, s, cfg, policy, m, first, n, j);
    SettledIsPlanned(env, CycleStart(env, s, cfg, policy, m, n, j).world, cfg, i);
  }
}
