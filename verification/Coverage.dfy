/** What a cycle covers: which entries it plans, which plans are accepted, and what its report says. */
module Coverage {
  import opened Basics
  import opened Ledger
  import opened Ttl
  import opened Plan
  import opened Planner
  import opened Provider
  import opened Tx
  import opened Network
  import opened Evolution
  import opened Sequence
  import opened Keeper
  import opened Submission

  // --- From observation to plan ------------------------------------------------------------------

  /** The rows this cycle's observation yields. */
  function Observed(env: Environment, w: World, cfg: ValidConfig): Result<seq<Observation>, RentkeeperError>
    requires cfg.Resolution().Keys?
  {
    ObserveEntries(env, GetNetwork(env, w).0, cfg.codec, cfg.Resolution().keys).1
  }

  /** Live rows say so consistently: same ledger, and an expiry strictly after it. */
  predicate SoundRow(o: Observation) {
    o.entry.Live? ==>
      && o.entry.ttl.currentLedger == o.currentLedger
      && o.entry.ttl.liveUntil.Some? && o.entry.ttl.liveUntil.value > o.currentLedger
  }

  predicate U32Row(o: Observation) {
    && SoundRow(o) && o.currentLedger <= U32_MAX
    && (o.entry.Live? ==> o.entry.ttl.liveUntil.Some? && o.entry.ttl.liveUntil.value <= U32_MAX)
  }

  /** The remaining TTL came out of a subtraction below zero. */
  predicate Wrapped(e: PlanEntry) {
    e.RemainingTtl().Some? && e.RemainingTtl().value > U32_MAX
  }

  /** Every observation has one sound row per key, which is what pairing rows with keys relies on. */
  lemma ObservationMatchesKeys(env: Environment, w: World, codec: Codec, keys: seq<LedgerKey>)
    requires ObserveEntries(env, w, codec, keys).1.Ok?
    ensures |ObserveEntries(env, w, codec, keys).1.value| == |keys|
    ensures forall o :: o in ObserveEntries(env, w, codec, keys).1.value ==> SoundRow(o)
  {
    hide ObserveEntries, ObserveUpTo, Chunks, WorldReplies, After, RequestsSent, ChunkIndex;
    EntriesSeen(env, w, codec, keys);
    var chunks := Chunks(keys, OBSERVE_BATCH_ENTRIES);
    ChunksPartition(keys, OBSERVE_BATCH_ENTRIES);
    RowsFollowKeys(codec, chunks, WorldReplies(env, w), |chunks|);
    var rows := ObserveUpTo(codec, chunks, WorldReplies(env, w), |chunks|).value;
    forall o | o in rows ensures SoundRow(o) {
      var i :| 0 <= i < |rows| && rows[i] == o;
    }
  }

  /** The extendable list is exactly the live positions, in order. */
  lemma {:induction false} ExtendableIsLive(keys: seq<LedgerKey>, rows: seq<Observation>, n: nat, c: Candidate)
    requires n <= |keys| && n <= |rows|
    ensures c in Extendable(keys, rows, n) <==>
              exists i :: 0 <= i < n && rows[i].entry.Live? && c == (keys[i], rows[i].entry.ttl)
  {
    if n == 0 {
    } else {
      ExtendableIsLive(keys, rows, n - 1, c);
    }
  }

  /**
   * Entry `e` is the live observation `o` of `k` moved to ledger `base`: something is left, at least
   * what was observed and at most horizon plus drift, and neither subtraction wraps.
   */
  ghost predicate SafelyMoved(horizon: nat, e: PlanEntry, k: LedgerKey, o: Observation, base: nat) {
    && e.key == k
    && o.entry.Live? && o.entry.ttl.liveUntil.Some?
    && base <= o.currentLedger
    && var until := o.entry.ttl.liveUntil.value;
    && o.currentLedger < until
    && o.entry.ttl.TtlLedgers() == Some(until - o.currentLedger)
    && e.RemainingTtl() == Some(until - base)
    && until - base <= horizon + (o.currentLedger - base)
  }

  /** Renormalising to the first chunk's ledger is safe when chunk ledgers never go back. */
  lemma DriftIsSafe(p: Planner, keys: seq<LedgerKey>, rows: seq<Observation>, e: PlanEntry) returns (i: nat)
    requires |rows| == |keys| && forall o :: o in rows ==> U32Row(o)
    requires forall i, j :: 0 <= i <= j < |rows| ==> rows[i].currentLedger <= rows[j].currentLedger
    requires p.ExtendEntries(Extendable(keys, rows, |keys|), ObservedLedger(rows)).Ok?
    requires e in p.ExtendEntries(Extendable(keys, rows, |keys|), ObservedLedger(rows)).value
    ensures i < |keys| && SafelyMoved(p.window.alertHorizonLedgers, e, keys[i], rows[i], ObservedLedger(rows))
  {
    hide Extendable;
    var candidates, base := Extendable(keys, rows, |keys|), ObservedLedger(rows);
    var es, risky := p.ExtendEntries(candidates, base).value, p.AtRisk(candidates);
    p.ExtendEntriesAreAtRisk(candidates, base);
    var k :| 0 <= k < |es| && es[k] == e;
    FilterMembers((c: Candidate) => p.window.IsAtRisk(c.1), candidates, risky[k]);
    ExtendableIsLive(keys, rows, |keys|, risky[k]);
    i :| 0 <= i < |keys| && rows[i].entry.Live? && risky[k] == (keys[i], rows[i].entry.ttl);
    assert rows[i] in rows && rows[0].currentLedger <= rows[i].currentLedger;
    TtlExactIff(rows[i].entry.ttl);
    TtlExactIff(e.ttl);
  }

  /** Position `i` is live and at risk, and its expiry is not before the first chunk's ledger. */
  predicate MovesSafely(p: Planner, rows: seq<Observation>, i: nat)
    requires i < |rows|
  {
    rows[i].entry.Live? && p.window.IsAtRisk(rows[i].entry.ttl) ==>
      ObservedLedger(rows) <= rows[i].entry.ttl.liveUntil.value
  }

  /** Exactly when no planned TTL wraps: no entry that is planned expires before the first chunk's ledger. */
  lemma NoWrapIff(p: Planner, keys: seq<LedgerKey>, rows: seq<Observation>)
    requires |rows| == |keys| && forall o :: o in rows ==> U32Row(o)
    requires p.ExtendEntries(Extendable(keys, rows, |keys|), ObservedLedger(rows)).Ok?
    ensures var planned := p.ExtendEntries(Extendable(keys, rows, |keys|), ObservedLedger(rows)).value;
            (forall e :: e in planned ==> !Wrapped(e)) <==> forall i :: 0 <= i < |rows| ==> MovesSafely(p, rows, i)
  {
    hide Extendable, Planner.ExtendEntries, Filter;
    var candidates, base := Extendable(keys, rows, |keys|), ObservedLedger(rows);
    var es, risky := p.ExtendEntries(candidates, base).value, p.AtRisk(candidates);
    p.ExtendEntriesAreAtRisk(candidates, base);
    assert rows != [] ==> rows[0] in rows;
    forall e | e in es
      ensures exists i :: 0 <= i < |rows| && rows[i].entry.Live? && p.window.IsAtRisk(rows[i].entry.ttl)
                && (Wrapped(e) <==> !MovesSafely(p, rows, i))
    {
      var k :| 0 <= k < |es| && es[k] == e;
      FilterMembers((c: Candidate) => p.window.IsAtRisk(c.1), candidates, risky[k]);
      ExtendableIsLive(keys, rows, |keys|, risky[k]);
      var i :| 0 <= i < |keys| && rows[i].entry.Live? && risky[k] == (keys[i], rows[i].entry.ttl);
      MovedTtl(p, rows, i, e.ttl);
    }
    forall i | 0 <= i < |rows| && rows[i].entry.Live? && p.window.IsAtRisk(rows[i].entry.ttl)
      ensures exists e :: e in es && (Wrapped(e) <==> !MovesSafely(p, rows, i))
    {
      var c := (keys[i], rows[i].entry.ttl);
      ExtendableIsLive(keys, rows, |keys|, c);
      FilterMembers((x: Candidate) => p.window.IsAtRisk(x.1), candidates, c);
      var k :| 0 <= k < |risky| && risky[k] == c;
      assert es[k] in es;
      MovedTtl(p, rows, i, es[k].ttl);
    }
  }

  lemma MovedTtl(p: Planner, rows: seq<Observation>, i: nat, moved: EntryTtl)
    requires forall o :: o in rows ==> U32Row(o)
    requires i < |rows| && rows[i].entry.Live? && p.window.IsAtRisk(rows[i].entry.ttl)
    requires moved == RenormalizeTtl(rows[i].entry.ttl, ObservedLedger(rows))
    ensures moved.TtlLedgers().Some?
    ensures moved.TtlLedgers().value <= U32_MAX <==> MovesSafely(p, rows, i)
  {
    assert rows[0] in rows && rows[i] in rows;
    TtlExactIff(moved);
  }

  ghost predicate U32Replies(replies: Replies) {
    forall c, chunk :: replies(c, chunk).Ok? ==> replies(c, chunk).value.IsU32()
  }

  /** Whatever chunked observation yields, it is one row per key, each sound and within u32. */
  lemma ObservedRowsAreU32(codec: Codec, keys: seq<LedgerKey>, size: nat, replies: Replies)
    requires size > 0 && U32Replies(replies) && ObserveAll(codec, keys, size, replies).Ok?
    ensures |ObserveAll(codec, keys, size, replies).value| == |keys|
    ensures forall o :: o in ObserveAll(codec, keys, size, replies).value ==> U32Row(o)
  {
    hide ObserveUpTo, Chunks, ChunkIndex, LastMatch;
    var chunks := Chunks(keys, size);
    ChunksPartition(keys, size);
    RowsFollowKeys(codec, chunks, replies, |chunks|);
    var rows := ObserveAll(codec, keys, size, replies).value;
    forall o | o in rows ensures U32Row(o) {
      var i :| 0 <= i < |rows| && rows[i] == o;
      var c := ChunkIndex(chunks, |chunks|, i);
      LastMatchIsLast(replies(c, chunks[c]).value.Rows(), keys[i]);
    }
  }

  /** The same of any observation the provider can make, however its chunks' ledgers drift. */
  lemma ObservedNoWrapIff(p: Planner, codec: Codec, keys: seq<LedgerKey>, size: nat, replies: Replies)
    requires size > 0 && U32Replies(replies) && ObserveAll(codec, keys, size, replies).Ok?
    ensures var rows := ObserveAll(codec, keys, size, replies).value;
            && |rows| == |keys|
            && var planned := p.ExtendEntries(Extendable(keys, rows, |keys|), ObservedLedger(rows));
            planned.Ok? ==>
              ((forall e :: e in planned.value ==> !Wrapped(e))
               <==> forall i :: 0 <= i < |rows| ==> MovesSafely(p, rows, i))
  {
    hide ObserveAll, Extendable, Planner.ExtendEntries, MovesSafely, Wrapped;
    ObservedRowsAreU32(codec, keys, size, replies);
    var rows := ObserveAll(codec, keys, size, replies).value;
    if p.ExtendEntries(Extendable(keys, rows, |keys|), ObservedLedger(rows)).Ok? {
      NoWrapIff(p, keys, rows);
    }
  }

  /** The first chunk is answered at ledger 200 and holds nothing, later ones at 100, where `k` lives until 150. */
  function DriftingReplies(k: LedgerKey): Replies {
    (c: nat, chunk: Chunk) =>
      if c == 0 then Ok(EntriesReply(200, None)) else Ok(EntriesReply(100, Some([RpcEntry(Some(k), Some(150))])))
  }

  /**
   * Nothing in the code rejects chunks whose ledgers go back. Watching any 51 keys, with the second chunk answered
   * 100 ledgers below the first, observation succeeds and an entry is planned whose expiry lies before the plan's
   * ledger: its remaining TTL has wrapped around.
   */
  lemma BackwardsDriftWraps(p: Planner, keys: seq<LedgerKey>)
    requires |keys| == OBSERVE_BATCH_ENTRIES + 1 && Hashable(p.codec, keys)
    requires p.window.alertHorizonLedgers >= 50 && forall k :: k in keys ==> p.codec.render(k).Some?
    ensures var replies := DriftingReplies(keys[OBSERVE_BATCH_ENTRIES]);
            var observed := ObserveAll(p.codec, keys, OBSERVE_BATCH_ENTRIES, replies);
            && observed.Ok? && |observed.value| == |keys|
            && ObservedLedger(observed.value) == 200 && observed.value[OBSERVE_BATCH_ENTRIES] == Row(100, Some(150))
            && var planned := p.ExtendEntries(Extendable(keys, observed.value, |keys|), 200);
            planned.Ok? && exists e :: e in planned.value && Wrapped(e)
  {
    hide Extendable, Planner.ExtendEntries, Row;
    var last := keys[OBSERVE_BATCH_ENTRIES];
    var replies := DriftingReplies(last);
    DriftObserved(p.codec, keys);
    var rows := ObserveAll(p.codec, keys, OBSERVE_BATCH_ENTRIES, replies).value;
    ObservedNoWrapIff(p, p.codec, keys, OBSERVE_BATCH_ENTRIES, replies);
    var candidates := Extendable(keys, rows, |keys|);
    forall c | c in candidates ensures p.codec.render(c.0).Some? {
      ExtendableIsLive(keys, rows, |keys|, c);
    }
    p.ExtendFailsIff(candidates, 200);
    LateRowWraps(p, rows);
  }

  lemma LateRowWraps(p: Planner, rows: seq<Observation>)
    requires |rows| == OBSERVE_BATCH_ENTRIES + 1 && ObservedLedger(rows) == 200
    requires rows[OBSERVE_BATCH_ENTRIES] == Row(100, Some(150)) && p.window.alertHorizonLedgers >= 50
    ensures !MovesSafely(p, rows, OBSERVE_BATCH_ENTRIES)
  {
    TtlExactIff(EntryTtl(100, Some(150)));
  }

  lemma DriftObserved(codec: Codec, keys: seq<LedgerKey>)
    requires |keys| == OBSERVE_BATCH_ENTRIES + 1 && Hashable(codec, keys)
    ensures var replies := DriftingReplies(keys[OBSERVE_BATCH_ENTRIES]);
            var observed := ObserveAll(codec, keys, OBSERVE_BATCH_ENTRIES, replies);
            && U32Replies(replies) && observed.Ok? && |observed.value| == |keys|
            && ObservedLedger(observed.value) == 200 && observed.value[OBSERVE_BATCH_ENTRIES] == Row(100, Some(150))
  {
    var n, last := OBSERVE_BATCH_ENTRIES, keys[OBSERVE_BATCH_ENTRIES];
    var replies := DriftingReplies(last);
    var one, two: Chunk := keys[..n], keys[n..];
    assert two == [last] && two[..1] == two && two[1..] == [];
    assert Chunks(two, n) == [two] by {
      assert Chunks([], n) == [];
    }
    assert Chunks(keys, n) == [one, two];
    assert replies(0, one) == Ok(EntriesReply(200, None));
    assert replies(1, two) == Ok(EntriesReply(100, Some([RpcEntry(Some(last), Some(150))])));
    var first := ObserveUpTo(codec, [one, two], replies, 1);
    assert ObserveUpTo(codec, [one, two], replies, 0) == Ok([]);
    assert first.Ok? && |first.value| == n && first.value[0] == Row(200, None);
    var held := [RpcEntry(Some(last), Some(150))];
    assert LastMatch(held, last) == Some(150);
    assert ChunkRows(codec, two, replies(1, two)).Ok?;
  }

  // --- Keys of plans and of accepted envelopes -----------------------------------------------------

  function KeysOf(es: seq<PlanEntry>): (ks: seq<LedgerKey>)
    ensures |ks| == |es| && forall i :: 0 <= i < |es| ==> ks[i] == es[i].key
  {
    seq(|es|, i requires 0 <= i < |es| => es[i].key)
  }

  function CandidateKeys(cs: seq<Candidate>): (ks: seq<LedgerKey>)
    ensures |ks| == |cs| && forall i :: 0 <= i < |cs| ==> ks[i] == cs[i].0
  {
    seq(|cs|, i requires 0 <= i < |cs| => cs[i].0)
  }

  lemma KeysCons(e: PlanEntry, rest: seq<PlanEntry>)
    ensures multiset(KeysOf([e] + rest)) == multiset{e.key} + multiset(KeysOf(rest))
  {
    assert KeysOf([e] + rest) == [e.key] + KeysOf(rest);
  }

  lemma {:induction false} KeysPartition(es: seq<PlanEntry>)
    ensures multiset(KeysOf(Filter(OtherEntry, es))) + multiset(KeysOf(Filter(TemporaryEntry, es)))
         == multiset(KeysOf(es))
  {
    hide KeysOf;
    if es == [] {
    } else {
      var rest := es[1..];
      assert es == [es[0]] + rest;
      KeysPartition(rest);
      KeysCons(es[0], rest);
      KeysCons(es[0], Filter(OtherEntry, rest));
      KeysCons(es[0], Filter(TemporaryEntry, rest));
    }
  }

  lemma {:induction false} CountsEntries(plans: seq<ArchivalPlan>)
    ensures CountEntries(plans) == |Entries(plans)|
  {
    if plans == [] {
    } else {
      CountsEntries(plans[1..]);
    }
  }

  /** The footprint keys of the acknowledged envelopes, in order. */
  function AcceptedKeys(log: seq<TransactionEnvelope>, acks: seq<nat>): seq<LedgerKey> {
    if acks == [] then []
    else
      (if acks[0] < |log| && log[acks[0]].V1? then log[acks[0]].tx.data.footprint.readWrite else [])
      + AcceptedKeys(log, acks[1..])
  }

  lemma {:induction false} AcceptedKeysArePlanned(log: seq<TransactionEnvelope>, acks: seq<nat>,
        plans: seq<ArchivalPlan>)
    requires |acks| == |plans|
    requires forall i :: 0 <= i < |acks| ==> acks[i] < |log| && NamesKeys(log[acks[i]], plans[i])
    ensures AcceptedKeys(log, acks) == KeysOf(Entries(plans))
  {
    if plans == [] {
    } else {
      AcceptedKeysArePlanned(log, acks[1..], plans[1..]);
      var rest := Entries(plans[1..]);
      assert plans[0].Footprint() == KeysOf(plans[0].entries);
      assert KeysOf(plans[0].entries + rest) == KeysOf(plans[0].entries) + KeysOf(rest);
    }
  }

  /** Whatever was observed, the plans name the at-risk live entries and nothing else, each as often as it occurs. */
  lemma PlansCoverAtRisk(cfg: ValidConfig, keys: seq<LedgerKey>, rows: seq<Observation>)
    requires |rows| == |keys| && PlanObserved(cfg, keys, rows).Ok?
    ensures var plans := PlanObserved(cfg, keys, rows).value.plans;
            var risky := cfg.ThePlanner().AtRisk(Extendable(keys, rows, |keys|));
            && multiset(KeysOf(Entries(plans))) == multiset(CandidateKeys(risky))
            && CountEntries(plans) == |risky|
  {
    hide Extendable, Planner.AtRisk, Filter, Planner.ExtendEntries, Planner.SplitPlans, Planner.ExtendPlan, Entries,
         KeysOf;
    var planner, base := cfg.ThePlanner(), ObservedLedger(rows);
    var candidates := Extendable(keys, rows, |keys|);
    var plans := PlanObserved(cfg, keys, rows).value.plans;
    SplitEntries(planner, candidates, base);
    var es := planner.ExtendEntries(candidates, base).value;
    var others, temps := Filter(OtherEntry, es), Filter(TemporaryEntry, es);
    KeysOfConcat(others, temps);
    KeysPartition(es);
    CountsEntries(plans);
    FilterPartition(OtherEntry, TemporaryEntry, es);
    KeysOfEntries(planner, candidates, base);
  }

  lemma SplitEntries(planner: Planner, candidates: seq<Candidate>, base: nat)
    requires planner.SplitPlans(candidates, base).Ok?
    ensures planner.ExtendEntries(candidates, base).Ok?
    ensures var es := planner.ExtendEntries(candidates, base).value;
            Entries(planner.SplitPlans(candidates, base).value) == Filter(OtherEntry, es) + Filter(TemporaryEntry, es)
  {
    hide Planner.ExtendEntries, Filter, Entries;
    planner.SplitRefinesMixed(candidates, base);
  }

  lemma KeysOfEntries(planner: Planner, candidates: seq<Candidate>, base: nat)
    requires planner.ExtendEntries(candidates, base).Ok?
    ensures KeysOf(planner.ExtendEntries(candidates, base).value) == CandidateKeys(planner.AtRisk(candidates))
  {
    hide Planner.ExtendEntries, Planner.AtRisk;
    planner.ExtendEntriesAreAtRisk(candidates, base);
  }

  lemma KeysOfConcat(a: seq<PlanEntry>, b: seq<PlanEntry>)
    ensures multiset(KeysOf(a + b)) == multiset(KeysOf(a)) + multiset(KeysOf(b))
  {
    assert KeysOf(a + b) == KeysOf(a) + KeysOf(b);
  }

  /** The daemon's plans: at most two, non-empty, extend-only, to the clamped horizon, for one network and ledger. */
  lemma PlansAreExtensions(cfg: ValidConfig, keys: seq<LedgerKey>, rows: seq<Observation>)
    requires |rows| == |keys| && PlanObserved(cfg, keys, rows).Ok?
    ensures var plans := PlanObserved(cfg, keys, rows).value.plans;
            && |plans| <= 2
            && forall p :: p in plans ==>
                 && p.extendTo == cfg.ExtendTo()
                 && p.networkPassphrase == cfg.networkPassphrase && p.referenceLedger == ObservedLedger(rows)
                 && p.entries != [] && forall e :: e in p.entries ==> e.kind.Extend?
  {
    hide Extendable, Planner.AtRisk, Filter, Planner.ExtendEntries;
    var planner, base := cfg.ThePlanner(), ObservedLedger(rows);
    var candidates := Extendable(keys, rows, |keys|);
    var plans := PlanObserved(cfg, keys, rows).value.plans;
    planner.SplitRefinesMixed(candidates, base);
    planner.ExtendEntriesAreAtRisk(candidates, base);
    var es := planner.ExtendEntries(candidates, base).value;
    forall p, e | p in plans && e in p.entries ensures e.kind.Extend? {
      FilterMembers(OtherEntry, es, e);
      FilterMembers(TemporaryEntry, es, e);
    }
  }

  predicate OneClass(plan: ArchivalPlan) {
    forall a, b :: a in plan.entries && b in plan.entries ==> IsTemporary(a.key) == IsTemporary(b.key)
  }

  lemma EntryClass(planner: Planner, candidates: seq<Candidate>, base: nat, e: PlanEntry)
    requires planner.ExtendEntries(candidates, base).Ok? && e in planner.ExtendEntries(candidates, base).value
    ensures IsTemporary(e.key) == TemporaryEntry(e)
  {
    hide Planner.ExtendEntries, Planner.AtRisk;
    planner.ExtendEntriesAreAtRisk(candidates, base);
    var es := planner.ExtendEntries(candidates, base).value;
    var i :| 0 <= i < |es| && es[i] == e;
  }

  lemma PlannedEntry(planner: Planner, candidates: seq<Candidate>, base: nat, p: ArchivalPlan, e: PlanEntry)
    requires planner.SplitPlans(candidates, base).Ok?
    requires p in planner.SplitPlans(candidates, base).value && e in p.entries
    ensures planner.ExtendEntries(candidates, base).Ok? && e in planner.ExtendEntries(candidates, base).value
  {
    hide Planner.ExtendEntries, Filter;
    var es := planner.ExtendEntries(candidates, base).value;
    FilterMembers(OtherEntry, es, e);
    FilterMembers(TemporaryEntry, es, e);
  }

  /** Temporary keys never share a plan with any other key. */
  lemma PlansAreByClass(cfg: ValidConfig, keys: seq<LedgerKey>, rows: seq<Observation>)
    requires |rows| == |keys| && PlanObserved(cfg, keys, rows).Ok?
    ensures forall p :: p in PlanObserved(cfg, keys, rows).value.plans ==> OneClass(p)
  {
    hide Extendable, Planner.ExtendEntries, Planner.SplitPlans, Planner.ExtendPlan, Entries, Filter, IsTemporary;
    var planner, base := cfg.ThePlanner(), ObservedLedger(rows);
    var candidates := Extendable(keys, rows, |keys|);
    planner.SplitRefinesMixed(candidates, base);
    var plans := planner.SplitPlans(candidates, base).value;
    forall p | p in plans ensures OneClass(p) {
      forall e | e in p.entries ensures IsTemporary(e.key) == TemporaryEntry(e) {
        PlannedEntry(planner, candidates, base, p, e);
        EntryClass(planner, candidates, base, e);
      }
    }
  }

  // --- The cycle -----------------------------------------------------------------------------------

  /** What a planned cycle was planned from. */
  lemma PlanCycleFacts(env: Environment, w: World, cfg: ValidConfig)
    requires !cfg.Resolution().ResolutionPanics?
    ensures MovedOn(w, PlanCycle(env, w, cfg).0)
    ensures PlanCycle(env, w, cfg).1.Ok? ==>
              && cfg.Resolution().Keys? && cfg.Resolution().keys != []
              && GetNetwork(env, w).1 == Ok(cfg.networkPassphrase)
              && Observed(env, w, cfg).Ok?
              && |Observed(env, w, cfg).value| == |cfg.Resolution().keys|
              && (forall o :: o in Observed(env, w, cfg).value ==> SoundRow(o))
              && PlanCycle(env, w, cfg).1 == PlanObserved(cfg, cfg.Resolution().keys, Observed(env, w, cfg).value)
  {
    hide Step, After, ObserveEntries, ObserveUpTo, Chunks, RequestsSent, WorldReplies, PlanObserved, Watch.Resolve;
    if cfg.Resolution().Keys? {
      var keys := cfg.Resolution().keys;
      StepMovesOn(env, w);
      var w1 := GetNetwork(env, w).0;
      var chunks := Chunks(keys, OBSERVE_BATCH_ENTRIES);
      EntriesSeen(env, w1, cfg.codec, keys);
      AfterMovesOn(env, w1, RequestsSent(cfg.codec, chunks, WorldReplies(env, w1), |chunks|));
      if ObserveEntries(env, w1, cfg.codec, keys).1.Ok? {
        ObservationMatchesKeys(env, w1, cfg.codec, keys);
      }
    }
  }

  /**
   * A cycle that reports success got one envelope accepted for each of its plans; together they carry
   * every at-risk live key occurrence exactly once, and the report counts them.
   */
  lemma CycleCoverage(env: Environment, s: Sys, cfg: ValidConfig)
    requires !cfg.Resolution().ResolutionPanics?
    requires RunCycle(env, s, cfg).1.Ok?
    ensures cfg.Resolution().Keys? && Observed(env, s.world, cfg).Ok? && PlanCycle(env, s.world, cfg).1.Ok?
    ensures |Observed(env, s.world, cfg).value| == |cfg.Resolution().keys|
    ensures var (s', r) := RunCycle(env, s, cfg);
            var planned, report := PlanCycle(env, s.world, cfg).1.value, r.value;
            var keys, rows := cfg.Resolution().keys, Observed(env, s.world, cfg).value;
            var risky := cfg.ThePlanner().AtRisk(Extendable(keys, rows, |keys|));
            && |s'.world.rounds| == |s.world.rounds| + 1
            && var round := s'.world.rounds[|s.world.rounds|];
            && s'.world.rounds == s.world.rounds + [round]
            && round.observed == report.observedLedger == ObservedLedger(rows)
            && |round.acks| == |planned.plans| == report.transactions <= 2
            && report.entriesAtRisk == |risky|
            && (report.extendSubmitted <==> risky != [])
            && AcksCarry(env, cfg, s'.world.log, round.acks, planned.plans)
            && multiset(KeysOf(Entries(planned.plans))) == multiset(CandidateKeys(risky))
            && (KeepsFootprints(env) ==>
                  multiset(AcceptedKeys(s'.world.log, round.acks)) == multiset(CandidateKeys(risky)))
  {
    hide PlanCycle, RunPlans, Observed, Watch.Resolve, Carries, KeepsFootprints, NamesKeys, PlanObserved,
         AcceptedKeys, Entries, CountEntries, Planner.AtRisk, Extendable;
    PlanCycleFacts(env, s.world, cfg);
    var (w, planned) := PlanCycle(env, s.world, cfg);
    var plans := planned.value.plans;
    var start := s.(world := w);
    RunPlansFacts(env, start, cfg, plans, |plans|);
    AcceptedPlansArePrefix(env, start, cfg, plans, |plans|);
    var keys, rows := cfg.Resolution().keys, Observed(env, s.world, cfg).value;
    PlansCoverAtRisk(cfg, keys, rows);
    PlansAreExtensions(cfg, keys, rows);
    ReportedLedger(cfg, keys, rows);
    var p := RunPlans(env, start, cfg, plans, |plans|);
    if KeepsFootprints(env) {
      AcceptedKeysArePlanned(p.sys.world.log, p.acks, plans);
    }
    NoPlansNoRisk(cfg, keys, rows);
  }

  lemma ReportedLedger(cfg: ValidConfig, keys: seq<LedgerKey>, rows: seq<Observation>)
    requires PlanObserved(cfg, keys, rows).Ok?
    ensures PlanObserved(cfg, keys, rows).value.observedLedger == ObservedLedger(rows)
    ensures |rows| == |keys| ==> PlanObserved(cfg, keys, rows).value.live == Extendable(keys, rows, |keys|)
  {
  }

  lemma NoPlansNoRisk(cfg: ValidConfig, keys: seq<LedgerKey>, rows: seq<Observation>)
    requires |rows| == |keys| && PlanObserved(cfg, keys, rows).Ok?
    ensures PlanObserved(cfg, keys, rows).value.plans == [] <==>
            cfg.ThePlanner().AtRisk(Extendable(keys, rows, |keys|)) == []
  {
    hide PlanObserved;
    PlansCoverAtRisk(cfg, keys, rows);
    PlansAreExtensions(cfg, keys, rows);
    var plans := PlanObserved(cfg, keys, rows).value.plans;
    if plans != [] {
      assert CountEntries(plans) >= |plans[0].entries| > 0;
    }
  }

  /**
   * A cycle that fails while submitting got a proper prefix of its plans accepted and records nothing. Its error is
   * the next plan's own.
   */
  lemma FailedCycleIsAPrefix(env: Environment, s: Sys, cfg: ValidConfig)
    requires !cfg.Resolution().ResolutionPanics?
    requires RunCycle(env, s, cfg).1.Err? && PlanCycle(env, s.world, cfg).1.Ok?
    ensures var (w, planned) := PlanCycle(env, s.world, cfg);
            var p := RunPlans(env, s.(world := w), cfg, planned.value.plans, |planned.value.plans|);
            && RunCycle(env, s, cfg).0 == p.sys.(world := RecordFailure(p.sys.world, p.acks))
            && p.sys.world.rounds == s.world.rounds
            && |p.acks| < |planned.value.plans|
            && SubmitWithRetry(env, RunPlans(env, s.(world := w), cfg, planned.value.plans, |p.acks|).sys, cfg,
                               planned.value.plans[|p.acks|]).1 == Err(RunCycle(env, s, cfg).1.error)
            && AcksCarry(env, cfg, p.sys.world.log, p.acks, planned.value.plans)
            && Accounted(w, p.sys.world, p.acks)
  {
    hide PlanCycle, RunPlans, AcksCarry, Accounted, SubmitWithRetry;
    PlanCycleFacts(env, s.world, cfg);
    var (w, planned) := PlanCycle(env, s.world, cfg);
    RunPlansFacts(env, s.(world := w), cfg, planned.value.plans, |planned.value.plans|);
    FailingPlan(env, s.(world := w), cfg, planned.value.plans, |planned.value.plans|);
    AcceptedPlansArePrefix(env, s.(world := w), cfg, planned.value.plans, |planned.value.plans|);
  }

  /**
   * Every acknowledged extend envelope, `t` being the move of its own simulation (the one before the send that
   * was acknowledged): one matching operation, the base fee plus the resource fee that simulation named,
   * saturating, the data of that simulation, and one signature valid for it alone.
   */
  lemma AcceptedEnvelope(env: Environment, s: Sys, cfg: ValidConfig, plan: ArchivalPlan)
    requires cfg.crypto.Lawful() && SubmitWithRetry(env, s, cfg, plan).1.Ok?
    requires forall x :: x in plan.entries ==> x.kind.Extend?
    ensures var (s', r) := SubmitWithRetry(env, s, cfg, plan);
            && r.value.Some? && r.value.value == |s'.world.log| - 1 && s'.world.time >= s.world.time + 2
            && PricedAndSigned(env(s'.world.time - 2).sim, cfg, s'.world.log[r.value.value], plan)
  {
    hide SubmitWithRetry, CarriesFrom, Carries, NamesKeys, Progressed, Accounted, KeepsFootprints, Crypto.Lawful,
         PricedAndSigned;
    SubmitWithRetryFacts(env, s, cfg, plan);
    RetryTakesMoves(env, s, cfg, plan);
    var (s', r) := SubmitWithRetry(env, s, cfg, plan);
    CarriedEnvelope(env(s'.world.time - 2).sim, cfg, s'.world.log[r.value.value], plan);
  }

  ghost predicate PricedAndSigned(sim: SimReply, cfg: ValidConfig, e: TransactionEnvelope, plan: ArchivalPlan) {
    && e.V1? && sim.SimAnswer?
    && e.tx.source == cfg.crypto.publicKey(cfg.signingKey)
    && e.tx.operations == [ExtendFootprintTtl(plan.extendTo)]
    && e.tx.fee == Min(U32_MAX, 100 + sim.fee)
    && e.tx.data.resourceFee == sim.dataFee
    && e.tx.data.footprint
       == (if sim.footprint.Some? then sim.footprint.value else LedgerFootprint([], plan.Footprint()))
    && |e.signatures| == 1
    && e.signatures[0].hint == cfg.crypto.hint(e.tx.source)
    && SignsOnly(cfg, e)
  }

  lemma RetryTakesMoves(env: Environment, s: Sys, cfg: ValidConfig, plan: ArchivalPlan)
    requires SubmitWithRetry(env, s, cfg, plan).1.Ok?
    ensures SubmitWithRetry(env, s, cfg, plan).0.world.time >= s.world.time + 2
  {
    hide SubmitPlan;
    SubmitTakesMoves(env, s, cfg, plan);
    SubmitPlanFacts(env, s, cfg, plan);
    var (s1, first) := SubmitPlan(env, s, cfg, plan);
    if first.Err? {
      SubmitTakesMoves(env, Report(s1, first.error), cfg, plan);
    }
  }

  lemma SubmitTakesMoves(env: Environment, s: Sys, cfg: ValidConfig, plan: ArchivalPlan)
    ensures SubmitPlan(env, s, cfg, plan).1.Ok? ==> SubmitPlan(env, s, cfg, plan).0.world.time >= s.world.time + 2
  {
    hide Step, Finish;
    var s1 := TakeTicket(env, s).0;
    StepMovesOn(env, s.world);
    StepMovesOn(env, s1.world);
    StepMovesOn(env, Step(env, s1.world));
  }

  lemma CarriedEnvelope(sim: SimReply, cfg: ValidConfig, e: TransactionEnvelope, plan: ArchivalPlan)
    requires cfg.crypto.Lawful() && CarriesFrom(sim, cfg, e, plan)
    requires forall x :: x in plan.entries ==> x.kind.Extend?
    ensures PricedAndSigned(sim, cfg, e, plan)
  {
    var unsigned := cfg.Builder().BuildUnsigned(plan, cfg.crypto.publicKey(cfg.signingKey), e.tx.seqNum).value;
    cfg.Builder().PreparedEnvelope(plan, cfg.signingKey, e.tx.seqNum, SimulationAnswer(sim, unsigned));
    assert plan.entries[0] in plan.entries;
  }
}
