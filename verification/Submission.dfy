/** What submitting plans does to the network, and what a cycle's report means. */
module Submission {
  import opened Basics
  import opened Plan
  import opened Tx
  import opened Network
  import opened Evolution
  import opened Sequence
  import opened Keeper

  /** Simulation never substitutes a footprint of its own. */
  ghost predicate KeepsFootprints(env: Environment) {
    forall t :: env(t).sim.SimAnswer? ==> env(t).sim.footprint.None?
  }

  /** `e` is this plan's envelope: built for it, priced by the node's simulation at some move, then signed. */
  ghost predicate Carries(env: Environment, cfg: ValidConfig, e: TransactionEnvelope, plan: ArchivalPlan) {
    exists t: nat :: CarriesFrom(env(t).sim, cfg, e, plan)
  }

  ghost predicate CarriesFrom(reply: SimReply, cfg: ValidConfig, e: TransactionEnvelope, plan: ArchivalPlan) {
    && e.V1?
    && var unsigned := cfg.Builder().BuildUnsigned(plan, cfg.crypto.publicKey(cfg.signingKey), e.tx.seqNum);
    && unsigned.Ok?
    && var sim := SimulationAnswer(reply, unsigned.value);
    && !sim.Failed()
    && cfg.Builder().Prepared(plan, cfg.signingKey, e.tx.seqNum, sim) == Ok(e)
  }

  /** `e` names exactly the plan's keys. */
  predicate NamesKeys(e: TransactionEnvelope, plan: ArchivalPlan) {
    e.V1? && e.tx.data.footprint == LedgerFootprint([], plan.Footprint())
  }

  lemma TakeTicketFacts(env: Environment, s: Sys)
    ensures var (s', r) := TakeTicket(env, s);
            && MovedOn(s.world, s'.world)
            && s'.requests == s.requests + 1
  {
    hide Step;
    StepMovesOn(env, s.world);
  }

  lemma FinishedEnvelope(env: Environment, cfg: ValidConfig, plan: ArchivalPlan, seqNum: int, t: nat)
    requires cfg.Builder().BuildUnsigned(plan, cfg.crypto.publicKey(cfg.signingKey), seqNum).Ok?
    ensures var unsigned := cfg.Builder().BuildUnsigned(plan, cfg.crypto.publicKey(cfg.signingKey), seqNum).value;
            var sim := SimulationAnswer(env(t).sim, unsigned);
            Finish(cfg, unsigned, sim).Ok? ==>
              && CarriesFrom(env(t).sim, cfg, Finish(cfg, unsigned, sim).value, plan)
              && Finish(cfg, unsigned, sim).value.tx.seqNum == seqNum
              && sim.transactionData.Some? && sim.transactionData.value.Encodes?
              && Finish(cfg, unsigned, sim).value.tx.data == sim.transactionData.value.data
  {
    hide SimulationAnswer;
    var unsigned := cfg.Builder().BuildUnsigned(plan, cfg.crypto.publicKey(cfg.signingKey), seqNum).value;
    var sim := SimulationAnswer(env(t).sim, unsigned);
    if Finish(cfg, unsigned, sim).Ok? {
      assert CarriesFrom(env(t).sim, cfg, Finish(cfg, unsigned, sim).value, plan);
    }
  }

  /**
   * One `submit_plan`: at most one envelope is accepted, and `Rejected` is never the outcome. An acknowledged
   * envelope is priced by the simulation made in the move just before the send.
   */
  lemma SubmitPlanFacts(env: Environment, s: Sys, cfg: ValidConfig, plan: ArchivalPlan)
    ensures var (s', r) := SubmitPlan(env, s, cfg, plan);
            && Progressed(s.world, s'.world)
            && s'.requests == s.requests + 1
            && (r.Ok? ==>
                  && r.value == Accepted(|s.world.log|)
                  && |s'.world.log| == |s.world.log| + 1
                  && s'.world.lost == s.world.lost
                  && (Consistent(s.world) ==> |s.world.log| !in s'.world.applied)
                  && s'.world.time >= 2
                  && CarriesFrom(env(s'.world.time - 2).sim, cfg, s'.world.log[|s.world.log|], plan)
                  && Carries(env, cfg, s'.world.log[|s.world.log|], plan)
                  && 1 <= |plan.entries| <= 100
                  && (KeepsFootprints(env) ==> NamesKeys(s'.world.log[|s.world.log|], plan)))
            && (r.Err? ==> Accounted(s.world, s'.world, []))
  {
    hide Step, SendTransaction, TakeTicket, Finish, CarriesFrom, TxBuilder.Simulated, TxBuilder.Signed,
         TxBuilder.Prepared;
    TakeTicketFacts(env, s);
    var (s1, ticket) := TakeTicket(env, s);
    if ticket.Ok? {
      var built := cfg.Builder().BuildUnsigned(plan, cfg.crypto.publicKey(cfg.signingKey), ticket.value);
      if built.Ok? {
        StepMovesOn(env, s1.world);
        var (w, simulation) := Simulate(env, s1.world, built.value);
        if simulation.Ok? {
          FinishedEnvelope(env, cfg, plan, ticket.value, s1.world.time);
          var done := Finish(cfg, built.value, simulation.value);
          if done.Ok? {
            SendFacts(env, w, done.value);
            var w' := SendTransaction(env, w, done.value).0;
            assert |s.world.log| == |w.log| && Progressed(w, w');
          }
        }
      }
    }
  }

  /** The first signature is the paying account's, on the configured network, for this transaction and no other. */
  ghost predicate SignsOnly(cfg: ValidConfig, e: TransactionEnvelope)
    requires e.V1? && e.signatures != []
  {
    forall tx ::
      cfg.crypto.verify(e.tx.source, cfg.crypto.hash(cfg.crypto.networkId(cfg.networkPassphrase), tx),
                        e.signatures[0].signature)
      <==> tx == e.tx
  }

  /**
   * What reaches `send_transaction`: one operation matching every plan entry, the ticket as sequence
   * number, base plus resource fee saturating at u32, the simulation's own data, and one signature that
   * is valid for this final transaction and no other.
   */
  lemma SentEnvelope(env: Environment, s: Sys, cfg: ValidConfig, plan: ArchivalPlan)
    requires cfg.crypto.Lawful()
    requires forall i, j :: 0 <= i < j < |plan.entries| ==> plan.entries[i].kind == plan.entries[j].kind
    requires var (s1, ticket) := TakeTicket(env, s);
             && ticket.Ok?
             && var built := cfg.Builder().BuildUnsigned(plan, cfg.crypto.publicKey(cfg.signingKey), ticket.value);
             && built.Ok?
             && Simulate(env, s1.world, built.value).1.Ok?
             && Finish(cfg, built.value, Simulate(env, s1.world, built.value).1.value).Ok?
    ensures var (s1, ticket) := TakeTicket(env, s);
            var built := cfg.Builder().BuildUnsigned(plan, cfg.crypto.publicKey(cfg.signingKey), ticket.value);
            var (w, sim) := Simulate(env, s1.world, built.value);
            var e := Finish(cfg, built.value, sim.value).value;
            && SubmitPlan(env, s, cfg, plan).0.world == SendTransaction(env, w, e).0
            && e.V1? && e.tx.source == cfg.crypto.publicKey(cfg.signingKey) && e.tx.seqNum == ticket.value
            && |e.tx.operations| == 1
            && (forall p :: p in plan.entries ==>
                  e.tx.operations[0]
                  == (if p.kind.Extend? then ExtendFootprintTtl(plan.extendTo) else RestoreFootprint))
            && e.tx.fee == Min(U32_MAX, 100 + sim.value.minResourceFee)
            && sim.value.transactionData == Some(Encodes(e.tx.data))
            && |e.signatures| == 1
            && e.signatures[0].hint == cfg.crypto.hint(e.tx.source)
            && SignsOnly(cfg, e)
  {
    hide TakeTicket, Simulate, SendTransaction, TxBuilder.Verifies;
    var (s1, ticket) := TakeTicket(env, s);
    var built := cfg.Builder().BuildUnsigned(plan, cfg.crypto.publicKey(cfg.signingKey), ticket.value);
    cfg.Builder().PreparedEnvelope(plan, cfg.signingKey, ticket.value, Simulate(env, s1.world, built.value).1.value);
  }

  /** One plan with its retry: the acknowledged envelope, if any, carries the plan. */
  lemma SubmitWithRetryFacts(env: Environment, s: Sys, cfg: ValidConfig, plan: ArchivalPlan)
    ensures var (s', r) := SubmitWithRetry(env, s, cfg, plan);
            && Progressed(s.world, s'.world)
            && s.requests + 1 <= s'.requests <= s.requests + 2
            && (r.Ok? ==>
                  && r.value.Some?
                  && var a := r.value.value;
                  && |s.world.log| <= a == |s'.world.log| - 1
                  && Accounted(s.world, s'.world, [a])
                  && (Consistent(s.world) ==> a !in s'.world.applied)
                  && s'.world.time >= 2
                  && CarriesFrom(env(s'.world.time - 2).sim, cfg, s'.world.log[a], plan)
                  && Carries(env, cfg, s'.world.log[a], plan)
                  && 1 <= |plan.entries| <= 100
                  && (KeepsFootprints(env) ==> NamesKeys(s'.world.log[a], plan)))
            && (r.Err? ==> Accounted(s.world, s'.world, []))
  {
    hide SubmitPlan, Carries, CarriesFrom, NamesKeys, KeepsFootprints;
    SubmitPlanFacts(env, s, cfg, plan);
    var (s1, first) := SubmitPlan(env, s, cfg, plan);
    if first.Err? {
      SubmitPlanFacts(env, Report(s1, first.error), cfg, plan);
      var (s2, second) := SubmitPlan(env, Report(s1, first.error), cfg, plan);
      var now := if second.Ok? then [second.value.ack] else [];
      AccountedJoins(s.world, s1.world, s2.world, [], now);
      assert [] + now == now;
    }
  }

  /** Position i of the acknowledgements carries plan i. */
  ghost predicate AcksCarry(env: Environment, cfg: ValidConfig, log: seq<TransactionEnvelope>, acks: seq<nat>,
        plans: seq<ArchivalPlan>) {
    |acks| <= |plans| &&
    forall i :: 0 <= i < |acks| ==>
      && acks[i] < |log|
      && Carries(env, cfg, log[acks[i]], plans[i])
      && 1 <= |plans[i].entries| <= 100
      && (KeepsFootprints(env) ==> NamesKeys(log[acks[i]], plans[i]))
  }

  ghost predicate Increasing(acks: seq<nat>) {
    forall i, j :: 0 <= i < j < |acks| ==> acks[i] < acks[j]
  }

  /**
   * Submitting plans in order: an acknowledgement for every plan exactly when no error surfaces, for a
   * proper prefix otherwise; every envelope the node took is acknowledged or lost its answer.
   */
  lemma {:induction false} RunPlansFacts(env: Environment, s: Sys, cfg: ValidConfig, plans: seq<ArchivalPlan>, n: nat)
    requires n <= |plans|
    ensures var p := RunPlans(env, s, cfg, plans, n);
            && Progressed(s.world, p.sys.world)
            && s.requests <= p.sys.requests <= s.requests + 2 * n
            && (p.failure.None? ==> |p.acks| == n)
            && (p.failure.Some? ==> |p.acks| < n)
            && Increasing(p.acks)
            && (forall a :: a in p.acks ==> |s.world.log| <= a < |p.sys.world.log|)
            && Accounted(s.world, p.sys.world, p.acks)
  {
    hide SubmitWithRetry, Consistent, Accounted, Progressed, Increasing, Carries, CarriesFrom, NamesKeys,
         KeepsFootprints;
    if n == 0 {
      NothingHappens(s.world);
    } else {
      RunPlansFacts(env, s, cfg, plans, n - 1);
      var before := RunPlans(env, s, cfg, plans, n - 1);
      if before.failure.None? {
        SubmitWithRetryFacts(env, before.sys, cfg, plans[n - 1]);
        var (s', r) := SubmitWithRetry(env, before.sys, cfg, plans[n - 1]);
        var now := if r.Ok? then [r.value.value] else [];
        ProgressedJoins(s.world, before.sys.world, s'.world);
        AccountedJoins(s.world, before.sys.world, s'.world, before.acks, now);
        assert r.Err? ==> before.acks + now == before.acks;
        LaterAck(before.acks, now, |before.sys.world.log|);
      }
    }
  }

  /** The error of a failed run is the failing plan's own, and the plans before it were all accepted. */
  lemma {:induction false} FailingPlan(env: Environment, s: Sys, cfg: ValidConfig, plans: seq<ArchivalPlan>, n: nat)
    requires n <= |plans| && RunPlans(env, s, cfg, plans, n).failure.Some?
    ensures var p := RunPlans(env, s, cfg, plans, n);
            var k := |p.acks|;
            && k < n
            && var before := RunPlans(env, s, cfg, plans, k);
            && before.failure.None? && before.acks == p.acks
            && SubmitWithRetry(env, before.sys, cfg, plans[k]) == (p.sys, Err(p.failure.value))
  {
    hide SubmitWithRetry, Accounted, Progressed, Increasing;
    RunPlansFacts(env, s, cfg, plans, n - 1);
    var before := RunPlans(env, s, cfg, plans, n - 1);
    if before.failure.Some? {
      FailingPlan(env, s, cfg, plans, n - 1);
    } else {
      assert |before.acks| == n - 1;
    }
  }

  /** The accepted plans are a prefix of the list: acknowledgement i is for plan i. */
  lemma {:induction false} AcceptedPlansArePrefix(env: Environment, s: Sys, cfg: ValidConfig,
        plans: seq<ArchivalPlan>, n: nat)
    requires n <= |plans|
    ensures var p := RunPlans(env, s, cfg, plans, n);
            AcksCarry(env, cfg, p.sys.world.log, p.acks, plans)
  {
    hide SubmitWithRetry, Consistent, AcksCarry, Accounted;
    if n == 0 {
      NoAcksCarry(env, cfg, s.world.log, plans);
    } else {
      AcceptedPlansArePrefix(env, s, cfg, plans, n - 1);
      var before := RunPlans(env, s, cfg, plans, n - 1);
      if before.failure.None? {
        RunPlansFacts(env, s, cfg, plans, n - 1);
        SubmitWithRetryFacts(env, before.sys, cfg, plans[n - 1]);
        var (s', r) := SubmitWithRetry(env, before.sys, cfg, plans[n - 1]);
        var now := if r.Ok? then [r.value.value] else [];
        AcksStillCarry(env, cfg, before.sys.world.log, s'.world.log, before.acks, now, plans);
        assert r.Err? ==> before.acks + now == before.acks;
      }
    }
  }

  lemma NoAcksCarry(env: Environment, cfg: ValidConfig, log: seq<TransactionEnvelope>, plans: seq<ArchivalPlan>)
    ensures AcksCarry(env, cfg, log, [], plans)
  {
  }

  lemma AcksStillCarry(env: Environment, cfg: ValidConfig, log: seq<TransactionEnvelope>,
        log': seq<TransactionEnvelope>, acks: seq<nat>, now: seq<nat>, plans: seq<ArchivalPlan>)
    requires log <= log' && AcksCarry(env, cfg, log, acks, plans)
    requires |now| <= 1 && |acks| + |now| <= |plans|
    requires forall a :: a in now ==>
      && a < |log'|
      && Carries(env, cfg, log'[a], plans[|acks|])
      && 1 <= |plans[|acks|].entries| <= 100
      && (KeepsFootprints(env) ==> NamesKeys(log'[a], plans[|acks|]))
    ensures AcksCarry(env, cfg, log', acks + now, plans)
  {
    hide Carries, NamesKeys, KeepsFootprints;
    forall i | 0 <= i < |acks + now|
      ensures (acks + now)[i] < |log'|
      ensures Carries(env, cfg, log'[(acks + now)[i]], plans[i])
      ensures 1 <= |plans[i].entries| <= 100
      ensures KeepsFootprints(env) ==> NamesKeys(log'[(acks + now)[i]], plans[i])
    {
      if i < |acks| {
        assert log'[acks[i]] == log[acks[i]];
      } else {
        assert (acks + now)[i] == now[0] && now[0] in now;
      }
    }
  }

  lemma LaterAck(acks: seq<nat>, now: seq<nat>, bound: nat)
    requires Increasing(acks) && |now| <= 1
    requires (forall a :: a in acks ==> a < bound) && forall a :: a in now ==> a >= bound
    ensures Increasing(acks + now)
  {
    forall i, j | 0 <= i < j < |acks + now| ensures (acks + now)[i] < (acks + now)[j] {
      assert acks[i] in acks && (j == |acks| ==> now[0] in now);
    }
  }

  lemma NothingHappens(w: World)
    ensures Progressed(w, w) && Accounted(w, w, []) && Increasing([])
  {
  }

  lemma ProgressedJoins(w: World, w1: World, w2: World)
    requires Progressed(w, w1) && Progressed(w1, w2)
    ensures Progressed(w, w2)
    ensures |w.log| <= |w1.log| <= |w2.log|
  {
  }

  lemma AccountedJoins(w: World, w1: World, w2: World, a: seq<nat>, b: seq<nat>)
    requires Progressed(w, w1) && Progressed(w1, w2)
    requires Accounted(w, w1, a) && Accounted(w1, w2, b)
    requires forall x :: x in a ==> x < |w1.log|
    ensures Accounted(w, w2, a + b)
  {
  }
}
