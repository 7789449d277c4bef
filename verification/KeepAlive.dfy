/** Watched entries stay alive: what one network step, one cycle and one run of the daemon keep. */
module KeepAlive {
  import opened Basics
  import opened Ledger
  import opened Ttl
  import opened Plan
  import opened Planner
  import opened Provider
  import opened Tx
  import opened Network
  import opened Evolution
  import opened Sequence
  import opened Keeper
  import opened Submission
  import opened Coverage

  /** Envelope `e` extends `k` to `to` ledgers and, unless `k` is itself temporary, nothing temporary. */
  predicate Extends(e: TransactionEnvelope, k: LedgerKey, to: nat) {
    && e.V1? && e.tx.operations == [ExtendFootprintTtl(to)] && e.tx.data.footprint.Contains(k)
    && (IsTemporary(k) || !HasTemporary(e.tx.data.footprint))
  }

  predicate OnlyExtendsTo(e: TransactionEnvelope, to: nat) {
    e.V1? ==> forall op :: op in e.tx.operations && op.ExtendFootprintTtl? ==> op.extendTo == to
  }

  /** What an extension to `to` is worth on this network. */
  function Target(w: World, to: nat): nat {
    Min(to, w.maxEntryTtl)
  }

  /** Extending `k` to `to` does not trap. */
  predicate Covered(w: World, k: LedgerKey, to: nat) {
    IsTemporary(k) ==> to <= w.maxEntryTtl
  }

  /**
   * `k` was seen live at ledger `since`, and the envelopes `acks` do their part for it: unless it has
   * expired since, it is live, and (if extending it does not trap) it lives until the target counted from
   * `since`, or an envelope among `acks` that extends it is still to be applied.
   */
  ghost predicate Kept(w: World, k: LedgerKey, since: nat, acks: seq<nat>, to: nat) {
    && since <= w.ledger
    && (Unbroken(w, k, since) ==>
          && IsLive(w, k)
          && (Covered(w, k, to) ==> w.liveUntil[k] >= since + Target(w, to) || Pending(w, k, acks, to)))
  }

  predicate Pending(w: World, k: LedgerKey, acks: seq<nat>, to: nat) {
    exists i :: i in acks && i < |w.log| && i !in w.applied && Extends(w.log[i], k, to)
  }

  /** What round `r` saw live it keeps. */
  ghost predicate RoundKept(w: World, keys: seq<LedgerKey>, r: Round, to: nat) {
    forall c :: c in r.live ==>
      c.0 in keys && r.observed <= c.1.currentLedger && Kept(w, c.0, c.1.currentLedger, r.acks, to)
  }

  /** A later round has seen again what an earlier one saw live, if it has not expired since. */
  predicate SeenAgain(w: World, earlier: Round, later: Round) {
    forall c :: c in earlier.live && Unbroken(w, c.0, c.1.currentLedger) ==>
      exists d :: d in later.live && d.0 == c.0 && d.1.currentLedger >= c.1.currentLedger
  }

  /**
   * The invariant: every successful cycle keeps what it saw live, later ones see it again, and if the newest
   * applied round has always been younger than the target, nothing under care has been dropped that can be
   * extended at all.
   */
  ghost predicate Protected(w: World, keys: seq<LedgerKey>, to: nat) {
    && Consistent(w)
    && w.ledger <= U32_MAX
    && (forall r :: r in w.rounds ==> RoundKept(w, keys, r, to))
    && (forall i, j :: 0 <= i < j < |w.rounds| ==> SeenAgain(w, w.rounds[i], w.rounds[j]))
    && (w.maxAge < Target(w, to) ==> forall k :: k in w.dropped ==> !Covered(w, k, to))
  }

  /** Live entries that do not expire keep their expiry, and envelopes applied meanwhile have extended them. */
  ghost predicate Later(w: World, w': World, to: nat) {
    && w.ledger <= w'.ledger && w.lapses <= w'.lapses && w.dropped <= w'.dropped
    && w.applied <= w'.applied && w.log <= w'.log && w.rounds <= w'.rounds
    && w'.maxEntryTtl == w.maxEntryTtl && w.maxAge <= w'.maxAge
    && (Consistent(w) ==> Consistent(w'))
    && (w.ledger <= U32_MAX ==> w'.ledger <= U32_MAX)
    && (forall k :: IsLive(w, k) && Unbroken(w', k, w.ledger) ==> LivedOn(w, w', k, to))
  }

  ghost predicate LivedOn(w: World, w': World, k: LedgerKey, to: nat)
    requires IsLive(w, k)
  {
    && IsLive(w', k) && w.liveUntil[k] <= w'.liveUntil[k]
    && (Covered(w, k, to) ==>
          forall i :: i in w'.applied && i !in w.applied && i < |w.log| && Extends(w.log[i], k, to) ==>
            w'.liveUntil[k] >= w.ledger + Target(w, to))
  }

  /** What is under care and expires is noted as dropped. */
  ghost predicate Noted(w: World, w': World) {
    forall r, c :: r in w.rounds && Effective(r, w.applied) && c in r.live && Unbroken(w, c.0, c.1.currentLedger) ==>
      Unbroken(w', c.0, c.1.currentLedger) || c.0 in w'.dropped
  }

  /** Only the keeper extends `k`, and it never gets above the horizon again. */
  predicate Untouched(steps: seq<EnvStep>, k: LedgerKey) {
    forall s :: s in steps ==> !(s.ForeignExtend? && s.key == k) && !(s.Revive? && s.key == k)
  }

  ghost predicate Settled(w: World, k: LedgerKey, horizon: nat) {
    k in w.liveUntil ==> w.liveUntil[k] <= w.ledger + horizon
  }

  /** Nothing moves `k`'s expiry `u` any more; only expired entries leave the ledger, so it is live until then. */
  predicate Frozen(w: World, k: LedgerKey, u: nat) {
    && (k in w.liveUntil ==> w.liveUntil[k] == u)
    && (w.ledger < u ==> k in w.liveUntil)
  }

  /** The account's envelopes extend to `to` or not at all. */
  ghost predicate OwnLog(w: World, to: nat) {
    forall e :: e in w.log ==> OnlyExtendsTo(e, to)
  }

  ghost predicate NeverTouched(env: Environment, k: LedgerKey) {
    forall t :: Untouched(env(t).steps, k)
  }

  /** Rounds are in the order of their observations. */
  ghost predicate InOrder(w: World) {
    && (forall r :: r in w.rounds ==> r.observed <= w.ledger)
    && (forall i, j :: 0 <= i <= j < |w.rounds| ==> w.rounds[i].observed <= w.rounds[j].observed)
  }

  /** The newest applied round, now or once there is one, was observed at ledger `base` or later. */
  ghost predicate FreshRounds(w: World, base: nat) {
    && InOrder(w) && base <= w.ledger
    && (Newest(w.rounds, w.applied).Some? ==> Newest(w.rounds, w.applied).value.observed >= base)
    && (Newest(w.rounds, w.applied).None? ==> forall r :: r in w.rounds ==> r.observed >= base)
  }

  /** Ages grow no faster than the ledger, and new rounds are observed later than everything before. */
  ghost predicate Paced(w: World, w': World) {
    && (forall base :: FreshRounds(w, base) ==> AgedFrom(w, w', base))
    && (forall i :: |w.rounds| <= i < |w'.rounds| ==> w'.rounds[i].observed >= w.ledger)
    && (InOrder(w) ==> InOrder(w'))
  }

  ghost predicate AgedFrom(w: World, w': World, base: nat) {
    FreshRounds(w', base) && w'.maxAge <= Max(w.maxAge, w'.ledger - base)
  }

  /** What a stretch of a run keeps; closed under composition. */
  ghost predicate Follows(env: Environment, w: World, w': World, keys: seq<LedgerKey>, to: nat, horizon: nat) {
    && Later(w, w', to)
    && Noted(w, w')
    && (Protected(w, keys, to) ==> Protected(w', keys, to))
    && (OwnLog(w, to) ==>
          && OwnLog(w', to)
          && (forall k :: NeverTouched(env, k) && Settled(w, k, horizon) ==> Settled(w', k, horizon))
          && (forall k, u :: NeverTouched(env, k) && !Covered(w, k, to) && Frozen(w, k, u) ==> Frozen(w', k, u)))
    && (w.ledger <= U32_MAX ==> Paced(w, w'))
  }

  // --- Small steps -----------------------------------------------------------------------------------

  /** `Newest` is the last completely applied round, so none comes after it. */
  lemma {:induction false} NewestIsLast(rounds: seq<Round>, applied: set<nat>, i: nat) returns (j: nat)
    requires i < |rounds| && Effective(rounds[i], applied)
    ensures i <= j < |rounds| && Effective(rounds[j], applied) && Newest(rounds, applied) == Some(rounds[j])
    ensures forall later :: j < later < |rounds| ==> !Effective(rounds[later], applied)
  {
    hide Effective;
    var last := |rounds| - 1;
    if Effective(rounds[last], applied) {
      j := last;
    } else {
      j := NewestIsLast(rounds[..last], applied, i);
    }
  }

  lemma BrokenStays(w: World, w': World, k: LedgerKey, since: nat)
    requires w.lapses <= w'.lapses && Unbroken(w', k, since)
    ensures Unbroken(w, k, since)
    ensures forall since' :: since <= since' ==> Unbroken(w', k, since')
  {
  }

  lemma StepOneLater(w: World, s: EnvStep, to: nat)
    ensures Later(w, StepOne(w, s), to)
  {
    hide Newest, Consistent, UnderCare, Extends;
    var w' := StepOne(w, s);
    StepOneMovesOn(w, s);
    forall k | IsLive(w, k) && Unbroken(w', k, w.ledger) ensures LivedOn(w, w', k, to) {
      assert s.CloseLedger? && w.ledger < U32_MAX && w.liveUntil[k] <= w.ledger + 1 ==> (k, w.ledger + 1) in w'.lapses;
      if s.Apply? && s.index < |w.log| && s.index !in w.applied {
        ApplyRaises(w, w.log[s.index]);
        if Extends(w.log[s.index], k, to) {
          ApplyExtends(w, w.log[s.index], k, to);
        }
      }
    }
  }

  lemma ApplyRaises(w: World, e: TransactionEnvelope)
    ensures ApplyEnvelope(w, e).Keys == w.liveUntil.Keys
    ensures forall k :: k in w.liveUntil ==> w.liveUntil[k] <= ApplyEnvelope(w, e)[k]
  {
  }

  /**
   * What applying an envelope does to a live key it extends: up to the target counted from now, and nothing at
   * all exactly when the key is temporary and `to` exceeds the network maximum, where the operation traps.
   */
  lemma ApplyExtends(w: World, e: TransactionEnvelope, k: LedgerKey, to: nat)
    requires IsLive(w, k) && Extends(e, k, to)
    ensures k in ApplyEnvelope(w, e)
    ensures ApplyEnvelope(w, e)[k]
         == if Covered(w, k, to) then Max(w.liveUntil[k], w.ledger + Target(w, to)) else w.liveUntil[k]
    ensures !Covered(w, k, to) ==> ApplyEnvelope(w, e) == w.liveUntil
  {
    var footprint := e.tx.data.footprint;
    if IsTemporary(k) {
      assert k in footprint.readOnly + footprint.readWrite;
    }
  }

  lemma KeptLater(w: World, w': World, k: LedgerKey, since: nat, acks: seq<nat>, to: nat)
    requires Later(w, w', to) && Kept(w, k, since, acks, to)
    ensures Kept(w', k, since, acks, to)
  {
    hide Unbroken, Consistent, Extends;
    if Unbroken(w', k, since) {
      BrokenStays(w, w', k, since);
      assert LivedOn(w, w', k, to);
      if Covered(w, k, to) && w.liveUntil[k] < since + Target(w, to) {
        var i :| i in acks && i < |w.log| && i !in w.applied && Extends(w.log[i], k, to);
        assert w'.log[i] == w.log[i];
      }
    }
  }

  lemma RoundKeptLater(w: World, w': World, keys: seq<LedgerKey>, r: Round, to: nat)
    requires Later(w, w', to) && RoundKept(w, keys, r, to)
    ensures RoundKept(w', keys, r, to)
  {
    hide Later, Kept;
    forall c | c in r.live ensures Kept(w', c.0, c.1.currentLedger, r.acks, to) {
      KeptLater(w, w', c.0, c.1.currentLedger, r.acks, to);
    }
  }

  lemma SeenAgainLater(w: World, w': World, earlier: Round, later: Round)
    requires w.lapses <= w'.lapses && SeenAgain(w, earlier, later)
    ensures SeenAgain(w', earlier, later)
  {
    hide Unbroken;
    forall c | c in earlier.live && Unbroken(w', c.0, c.1.currentLedger)
      ensures exists d :: d in later.live && d.0 == c.0 && d.1.currentLedger >= c.1.currentLedger
    {
      BrokenStays(w, w', c.0, c.1.currentLedger);
    }
  }

  /**
   * The heart of the matter: whatever is under care, and can be extended, lives until the target counted from
   * the newest applied round.
   */
  lemma CareReachesTarget(w: World, keys: seq<LedgerKey>, k: LedgerKey, to: nat)
    requires Protected(w, keys, to) && Covered(w, k, to) && UnderCare(w, k)
    ensures Newest(w.rounds, w.applied).Some? && IsLive(w, k)
    ensures w.liveUntil[k] >= Newest(w.rounds, w.applied).value.observed + Target(w, to)
  {
    hide Newest, Consistent, Unbroken, Extends, SeenAgain, RoundKept, Covered;
    var r :| r in w.rounds && Effective(r, w.applied) && SawUnbroken(w, r, k);
    var i :| 0 <= i < |w.rounds| && w.rounds[i] == r;
    var j := NewestIsLast(w.rounds, w.applied, i);
    var c: Candidate :| c in r.live && c.0 == k && Unbroken(w, k, c.1.currentLedger);
    if i < j {
      c := SightedAgain(w, w.rounds[i], w.rounds[j], c);
    }
    RoundKeeps(w, keys, w.rounds[j], c, to);
  }

  lemma SightedAgain(w: World, earlier: Round, later: Round, c: Candidate) returns (d: Candidate)
    requires SeenAgain(w, earlier, later) && c in earlier.live && Unbroken(w, c.0, c.1.currentLedger)
    ensures d in later.live && d.0 == c.0 && Unbroken(w, d.0, d.1.currentLedger)
  {
    d :| d in later.live && d.0 == c.0 && d.1.currentLedger >= c.1.currentLedger;
  }

  lemma RoundKeeps(w: World, keys: seq<LedgerKey>, r: Round, c: Candidate, to: nat)
    requires RoundKept(w, keys, r, to) && c in r.live && Unbroken(w, c.0, c.1.currentLedger)
    requires Covered(w, c.0, to) && Effective(r, w.applied)
    ensures IsLive(w, c.0) && w.liveUntil[c.0] >= c.1.currentLedger + Target(w, to) >= r.observed + Target(w, to)
  {
    hide Unbroken, Extends;
    assert Kept(w, c.0, c.1.currentLedger, r.acks, to);
  }

  /** So a close can only drop a key under care if the newest applied round is too old, or if extending it traps. */
  lemma StepOneDropsNothing(w: World, s: EnvStep, keys: seq<LedgerKey>, k: LedgerKey, to: nat)
    requires Protected(w, keys, to) && Covered(w, k, to)
    requires StepOne(w, s).maxAge < Target(w, to)
    ensures k in StepOne(w, s).dropped ==> k in w.dropped
  {
    hide Newest, ApplyEnvelope, Consistent, UnderCare, Protected, Covered;
    if s.CloseLedger? && UnderCare(w, k) {
      CareReachesTarget(w, keys, k, to);
    }
  }

  lemma StepOneProtected(w: World, s: EnvStep, keys: seq<LedgerKey>, to: nat)
    requires Protected(w, keys, to)
    ensures Protected(StepOne(w, s), keys, to)
  {
    hide Newest, ApplyEnvelope, Consistent, RoundKept, SeenAgain, StepOne;
    var w' := StepOne(w, s);
    StepOneMovesOn(w, s);
    StepOneLater(w, s, to);
    forall r | r in w'.rounds ensures RoundKept(w', keys, r, to) {
      RoundKeptLater(w, w', keys, r, to);
    }
    forall i, j | 0 <= i < j < |w'.rounds| ensures SeenAgain(w', w'.rounds[i], w'.rounds[j]) {
      SeenAgainLater(w, w', w.rounds[i], w.rounds[j]);
    }
    if w'.maxAge < Target(w', to) {
      forall k | k in w'.dropped ensures !Covered(w', k, to) {
        if Covered(w, k, to) {
          StepOneDropsNothing(w, s, keys, k, to);
        }
      }
    }
  }

  lemma StepOneNotes(w: World, s: EnvStep)
    ensures Noted(w, StepOne(w, s))
  {
    hide Newest, ApplyEnvelope;
    var w' := StepOne(w, s);
    forall r, c | r in w.rounds && Effective(r, w.applied) && c in r.live && Unbroken(w, c.0, c.1.currentLedger)
      ensures Unbroken(w', c.0, c.1.currentLedger) || c.0 in w'.dropped
    {
      assert SawUnbroken(w, r, c.0);
    }
  }

  lemma StepOneSettled(w: World, s: EnvStep, k: LedgerKey, to: nat, horizon: nat)
    requires Untouched([s], k) && Settled(w, k, horizon) && OwnLog(w, to) && to <= horizon
    ensures Settled(StepOne(w, s), k, horizon)
  {
    hide Newest;
    assert s in [s];
    if s.Apply? && s.index < |w.log| && s.index !in w.applied {
      var e := w.log[s.index];
      assert OnlyExtendsTo(e, to);
      assert e.V1? && |e.tx.operations| == 1 ==> e.tx.operations[0] in e.tx.operations;
    }
  }

  /** An extension of an uncovered key traps, so its expiry stays. */
  lemma StepOneFrozen(w: World, s: EnvStep, k: LedgerKey, to: nat, u: nat)
    requires Untouched([s], k) && Frozen(w, k, u) && OwnLog(w, to) && !Covered(w, k, to)
    ensures Frozen(StepOne(w, s), k, u)
  {
    hide Newest, UnderCare;
    assert s in [s];
    if s.Apply? && s.index < |w.log| && s.index !in w.applied {
      var e := w.log[s.index];
      assert OnlyExtendsTo(e, to);
      assert e.V1? && |e.tx.operations| == 1 ==> e.tx.operations[0] in e.tx.operations;
      if e.V1? && e.tx.data.footprint.Contains(k) {
        assert k in e.tx.data.footprint.readOnly + e.tx.data.footprint.readWrite;
      }
    }
  }

  lemma NewestMoves(w: World, w': World, base: nat)
    requires FreshRounds(w, base) && w'.rounds == w.rounds && w.applied <= w'.applied && w.ledger <= w'.ledger
    ensures FreshRounds(w', base)
  {
    hide Newest;
    NewestBelongs(w.rounds, w.applied);
    NewestBelongs(w'.rounds, w'.applied);
    if Newest(w.rounds, w.applied).Some? {
      var i :| 0 <= i < |w.rounds| && w.rounds[i] == Newest(w.rounds, w.applied).value;
      var j := NewestIsLast(w'.rounds, w'.applied, i);
    }
  }

  lemma {:induction false} NewestBelongs(rounds: seq<Round>, applied: set<nat>)
    ensures Newest(rounds, applied).Some? ==>
              Newest(rounds, applied).value in rounds && Effective(Newest(rounds, applied).value, applied)
    ensures Newest(rounds, applied).None? ==> forall r :: r in rounds ==> !Effective(r, applied)
  {
    hide Effective;
    if rounds == [] {
    } else {
      NewestBelongs(rounds[..|rounds| - 1], applied);
      assert rounds == rounds[..|rounds| - 1] + [rounds[|rounds| - 1]];
    }
  }

  lemma StepOnePaced(w: World, s: EnvStep)
    ensures Paced(w, StepOne(w, s))
  {
    hide Newest, ApplyEnvelope, UnderCare, Effective, FreshRounds;
    var w' := StepOne(w, s);
    StepOneMovesOn(w, s);
    forall base | FreshRounds(w, base) ensures AgedFrom(w, w', base) {
      NewestMoves(w, w', base);
      AgeBound(w, base);
    }
  }

  lemma AgeBound(w: World, base: nat)
    requires FreshRounds(w, base)
    ensures Newest(w.rounds, w.applied).Some? ==> Newest(w.rounds, w.applied).value.observed >= base
  {
  }

  /** Whatever leaves rounds, applied positions, ledger and ages alone is paced. */
  lemma SamePaced(w: World, w': World)
    requires w'.rounds == w.rounds && w'.applied == w.applied && w'.ledger == w.ledger && w'.maxAge == w.maxAge
    ensures Paced(w, w')
  {
    hide Newest;
  }

  lemma PacedJoins(w: World, w1: World, w2: World)
    requires Paced(w, w1) && Paced(w1, w2) && w.ledger <= w1.ledger <= w2.ledger && w.rounds <= w1.rounds <= w2.rounds
    ensures Paced(w, w2)
  {
    hide FreshRounds, InOrder;
    forall base | FreshRounds(w, base) ensures AgedFrom(w, w2, base) {
      assert AgedFrom(w, w1, base) && AgedFrom(w1, w2, base);
    }
  }

  lemma FollowsItself(env: Environment, w: World, keys: seq<LedgerKey>, to: nat, horizon: nat)
    ensures Follows(env, w, w, keys, to, horizon)
  {
    hide Newest, Consistent, RoundKept, SeenAgain, Settled, Frozen, Extends, Unbroken, Paced;
    SamePaced(w, w);
  }

  lemma LaterJoins(w: World, w1: World, w2: World, to: nat)
    requires Later(w, w1, to) && Later(w1, w2, to)
    ensures Later(w, w2, to)
  {
    hide Consistent, Extends, Unbroken;
    forall k | IsLive(w, k) && Unbroken(w2, k, w.ledger) ensures LivedOn(w, w2, k, to) {
      BrokenStays(w1, w2, k, w.ledger);
      assert LivedOn(w, w1, k, to) && LivedOn(w1, w2, k, to);
      forall i | Covered(w, k, to) && i in w2.applied && i !in w.applied && i < |w.log| && Extends(w.log[i], k, to)
        ensures w2.liveUntil[k] >= w.ledger + Target(w, to)
      {
        assert w1.log[i] == w.log[i];
      }
    }
  }

  lemma NotedJoins(w: World, w1: World, w2: World)
    requires Noted(w, w1) && Noted(w1, w2)
    requires w.rounds <= w1.rounds && w.applied <= w1.applied && w1.dropped <= w2.dropped
    ensures Noted(w, w2)
  {
    hide Unbroken;
    forall r, c | r in w.rounds && Effective(r, w.applied) && c in r.live && Unbroken(w, c.0, c.1.currentLedger)
      ensures Unbroken(w2, c.0, c.1.currentLedger) || c.0 in w2.dropped
    {
      assert r in w1.rounds && Effective(r, w1.applied);
    }
  }

  lemma FollowsJoins(env: Environment, w: World, w1: World, w2: World, keys: seq<LedgerKey>, to: nat, horizon: nat)
    requires Follows(env, w, w1, keys, to, horizon) && Follows(env, w1, w2, keys, to, horizon)
    ensures Follows(env, w, w2, keys, to, horizon)
  {
    hide Newest, Consistent, LivedOn, Unbroken, Noted, Settled, Frozen, Extends, Protected, NeverTouched, OwnLog, Paced;
    LaterJoins(w, w1, w2, to);
    NotedJoins(w, w1, w2);
    if w.ledger <= U32_MAX {
      PacedJoins(w, w1, w2);
    }
  }

  // --- The network moves -----------------------------------------------------------------------------

  lemma StepOneFollows(env: Environment, w: World, s: EnvStep, t: nat, keys: seq<LedgerKey>, to: nat, horizon: nat)
    requires to <= horizon && s in env(t).steps
    ensures Follows(env, w, StepOne(w, s), keys, to, horizon)
  {
    hide StepOne, Consistent, Later, Settled, Frozen, Covered, Noted, Protected, Paced;
    var w' := StepOne(w, s);
    StepOneMovesOn(w, s);
    StepOneLater(w, s, to);
    StepOneNotes(w, s);
    StepOnePaced(w, s);
    if Protected(w, keys, to) {
      StepOneProtected(w, s, keys, to);
    }
    forall k | OwnLog(w, to) && NeverTouched(env, k) && Settled(w, k, horizon) ensures Settled(w', k, horizon) {
      assert Untouched(env(t).steps, k);
      StepOneSettled(w, s, k, to, horizon);
    }
    forall k, u | OwnLog(w, to) && NeverTouched(env, k) && !Covered(w, k, to) && Frozen(w, k, u)
      ensures Frozen(w', k, u)
    {
      assert Untouched(env(t).steps, k);
      StepOneFrozen(w, s, k, to, u);
    }
  }

  lemma {:induction false} StepAllFollows(env: Environment, w: World, steps: seq<EnvStep>, t: nat,
        keys: seq<LedgerKey>, to: nat, horizon: nat)
    requires to <= horizon && forall s :: s in steps ==> s in env(t).steps
    ensures Follows(env, w, StepAll(w, steps), keys, to, horizon)
    decreases |steps|
  {
    hide StepOne, Follows;
    if steps == [] {
      FollowsItself(env, w, keys, to, horizon);
    } else {
      var w1 := StepOne(w, steps[0]);
      StepOneFollows(env, w, steps[0], t, keys, to, horizon);
      StepAllFollows(env, w1, steps[1..], t, keys, to, horizon);
      FollowsJoins(env, w, w1, StepAll(w1, steps[1..]), keys, to, horizon);
    }
  }

  /** The call counter does not matter to any of this. */
  lemma ClockFollows(env: Environment, w: World, time: nat, keys: seq<LedgerKey>, to: nat, horizon: nat)
    ensures Follows(env, w, w.(time := time), keys, to, horizon)
  {
    hide Newest, Extends, OnlyExtendsTo, Paced;
    var w' := w.(time := time);
    SamePaced(w, w');
    if Protected(w, keys, to) {
      SameProtected(w, w', keys, to);
    }
  }

  /** Protection reads nothing but ledger state, log and history. */
  lemma SameProtected(w: World, w': World, keys: seq<LedgerKey>, to: nat)
    requires Protected(w, keys, to) && Later(w, w', to) && Consistent(w')
    requires w'.rounds == w.rounds && w'.maxAge == w.maxAge && w'.dropped == w.dropped
    ensures Protected(w', keys, to)
  {
    hide Newest, Consistent, RoundKept, SeenAgain, LivedOn, Unbroken;
    forall r | r in w'.rounds ensures RoundKept(w', keys, r, to) {
      RoundKeptLater(w, w', keys, r, to);
    }
    forall i, j | 0 <= i < j < |w'.rounds| ensures SeenAgain(w', w'.rounds[i], w'.rounds[j]) {
      SeenAgainLater(w, w', w.rounds[i], w.rounds[j]);
    }
  }

  lemma StepFollows(env: Environment, w: World, keys: seq<LedgerKey>, to: nat, horizon: nat)
    requires to <= horizon
    ensures Follows(env, w, Step(env, w), keys, to, horizon)
  {
    hide StepAll, Follows;
    var w1 := StepAll(w, env(w.time).steps);
    StepAllFollows(env, w, env(w.time).steps, w.time, keys, to, horizon);
    ClockFollows(env, w1, w.time + 1, keys, to, horizon);
    FollowsJoins(env, w, w1, Step(env, w), keys, to, horizon);
  }

  lemma {:induction false} AfterFollows(env: Environment, w: World, n: nat, keys: seq<LedgerKey>, to: nat, horizon: nat)
    requires to <= horizon
    ensures Follows(env, w, After(env, w, n), keys, to, horizon)
  {
    hide Step, Follows;
    if n == 0 {
      FollowsItself(env, w, keys, to, horizon);
    } else {
      AfterFollows(env, w, n - 1, keys, to, horizon);
      StepFollows(env, After(env, w, n - 1), keys, to, horizon);
      FollowsJoins(env, w, After(env, w, n - 1), After(env, w, n), keys, to, horizon);
    }
  }

  // --- The keeper acts -------------------------------------------------------------------------------

  lemma AcceptFollows(env: Environment, w: World, e: TransactionEnvelope, answered: bool, keys: seq<LedgerKey>,
        to: nat, horizon: nat)
    requires OnlyExtendsTo(e, to) && Fits(w, e)
    ensures Follows(env, w, Accept(w, e, answered), keys, to, horizon)
  {
    hide Newest, Extends, OnlyExtendsTo, Paced;
    var w' := Accept(w, e, answered);
    SamePaced(w, w');
    assert w.log <= w'.log;
    if Protected(w, keys, to) {
      SameProtected(w, w', keys, to);
    }
  }

  lemma SendFollows(env: Environment, w: World, e: TransactionEnvelope, keys: seq<LedgerKey>, to: nat, horizon: nat)
    requires to <= horizon && OnlyExtendsTo(e, to)
    ensures Follows(env, w, SendTransaction(env, w, e).0, keys, to, horizon)
  {
    hide Step, Follows, OnlyExtendsTo;
    var w1 := Step(env, w);
    StepFollows(env, w, keys, to, horizon);
    if Fits(w1, e) {
      AcceptFollows(env, w1, e, true, keys, to, horizon);
      AcceptFollows(env, w1, e, false, keys, to, horizon);
      FollowsJoins(env, w, w1, Accept(w1, e, true), keys, to, horizon);
      FollowsJoins(env, w, w1, Accept(w1, e, false), keys, to, horizon);
    }
  }

  /** The plans the daemon makes: extensions to `to`, none empty, temporary keys apart from all others. */
  predicate ExtendsTo(plan: ArchivalPlan, to: nat) {
    plan.extendTo == to && plan.entries != [] && OneClass(plan) && forall e :: e in plan.entries ==> e.kind.Extend?
  }

  lemma FinishedExtends(cfg: ValidConfig, plan: ArchivalPlan, seqNum: int, sim: SimulationResult, to: nat)
    requires ExtendsTo(plan, to)
    requires cfg.Builder().BuildUnsigned(plan, cfg.crypto.publicKey(cfg.signingKey), seqNum).Ok?
    ensures var unsigned := cfg.Builder().BuildUnsigned(plan, cfg.crypto.publicKey(cfg.signingKey), seqNum).value;
            Finish(cfg, unsigned, sim).Ok? ==> OnlyExtendsTo(Finish(cfg, unsigned, sim).value, to)
  {
    assert plan.entries[0] in plan.entries;
  }

  lemma SubmitFollows(env: Environment, s: Sys, cfg: ValidConfig, plan: ArchivalPlan, keys: seq<LedgerKey>, to: nat,
        horizon: nat)
    requires to <= horizon && ExtendsTo(plan, to)
    ensures Follows(env, s.world, SubmitPlan(env, s, cfg, plan).0.world, keys, to, horizon)
  {
    hide Step, SendTransaction, Finish, Follows, ExtendsTo;
    FollowsItself(env, s.world, keys, to, horizon);
    StepFollows(env, s.world, keys, to, horizon);
    var (s1, ticket) := TakeTicket(env, s);
    if ticket.Ok? {
      var built := cfg.Builder().BuildUnsigned(plan, cfg.crypto.publicKey(cfg.signingKey), ticket.value);
      if built.Ok? {
        StepFollows(env, s1.world, keys, to, horizon);
        var (w, simulation) := Simulate(env, s1.world, built.value);
        FollowsJoins(env, s.world, s1.world, w, keys, to, horizon);
        if simulation.Ok? {
          FinishedExtends(cfg, plan, ticket.value, simulation.value, to);
          var done := Finish(cfg, built.value, simulation.value);
          if done.Ok? {
            SendFollows(env, w, done.value, keys, to, horizon);
            FollowsJoins(env, s.world, w, SendTransaction(env, w, done.value).0, keys, to, horizon);
          }
        }
      }
    }
  }

  /** An envelope that carries the plan and names its keys extends each of them. */
  lemma CarriedExtends(env: Environment, cfg: ValidConfig, e: TransactionEnvelope, plan: ArchivalPlan, to: nat)
    requires ExtendsTo(plan, to) && Carries(env, cfg, e, plan) && NamesKeys(e, plan)
    ensures forall k :: k in plan.Footprint() ==> Extends(e, k, to)
  {
    var t: nat :| CarriesFrom(env(t).sim, cfg, e, plan);
    assert plan.entries[0] in plan.entries;
    assert e.tx.operations == [ExtendFootprintTtl(to)];
    var footprint := plan.Footprint();
    forall k | k in footprint ensures Extends(e, k, to) {
      var i :| 0 <= i < |footprint| && footprint[i] == k;
      forall x | x in [] + footprint ensures IsTemporary(x) == IsTemporary(k) {
        var j :| 0 <= j < |footprint| && footprint[j] == x;
        assert plan.entries[i] in plan.entries && plan.entries[j] in plan.entries;
      }
    }
  }

  /** An accepted plan keeps every key it names, from any earlier sighting on. */
  lemma RetryFollows(env: Environment, s: Sys, cfg: ValidConfig, plan: ArchivalPlan, keys: seq<LedgerKey>, to: nat,
        horizon: nat)
    requires to <= horizon && ExtendsTo(plan, to)
    ensures Follows(env, s.world, SubmitWithRetry(env, s, cfg, plan).0.world, keys, to, horizon)
  {
    hide SubmitPlan, Follows, ExtendsTo;
    SubmitFollows(env, s, cfg, plan, keys, to, horizon);
    var (s1, first) := SubmitPlan(env, s, cfg, plan);
    if first.Err? {
      var s2 := Report(s1, first.error);
      SubmitFollows(env, s2, cfg, plan, keys, to, horizon);
      FollowsJoins(env, s.world, s1.world, SubmitPlan(env, s2, cfg, plan).0.world, keys, to, horizon);
    }
  }

  lemma RetryKeeps(env: Environment, s: Sys, cfg: ValidConfig, plan: ArchivalPlan, k: LedgerKey, since: nat, to: nat)
    requires ExtendsTo(plan, to) && Consistent(s.world) && KeepsFootprints(env)
    requires k in plan.Footprint() && since <= s.world.ledger && (Unbroken(s.world, k, since) ==> IsLive(s.world, k))
    ensures var (s', r) := SubmitWithRetry(env, s, cfg, plan);
            r.Ok? ==> r.value.Some? && Kept(s'.world, k, since, [r.value.value], to)
  {
    hide SubmitWithRetry, ExtendsTo, Carries, NamesKeys, KeepsFootprints, Consistent, Noted, Protected, Settled,
         Extends, Unbroken;
    SubmitWithRetryFacts(env, s, cfg, plan);
    RetryFollows(env, s, cfg, plan, [], to, to);
    var (s', r) := SubmitWithRetry(env, s, cfg, plan);
    if r.Ok? && Unbroken(s'.world, k, since) {
      var a := r.value.value;
      CarriedExtends(env, cfg, s'.world.log[a], plan, to);
      BrokenStays(s.world, s'.world, k, since);
      assert LivedOn(s.world, s'.world, k, to);
      assert a in [a];
      assert Pending(s'.world, k, [a], to);
    }
  }

  lemma {:induction false} RunPlansFollow(env: Environment, s: Sys, cfg: ValidConfig, plans: seq<ArchivalPlan>,
        n: nat, keys: seq<LedgerKey>, to: nat, horizon: nat)
    requires to <= horizon && n <= |plans| && forall p :: p in plans ==> ExtendsTo(p, to)
    ensures Follows(env, s.world, RunPlans(env, s, cfg, plans, n).sys.world, keys, to, horizon)
  {
    hide SubmitWithRetry, Follows, ExtendsTo;
    if n == 0 {
      FollowsItself(env, s.world, keys, to, horizon);
    } else {
      RunPlansFollow(env, s, cfg, plans, n - 1, keys, to, horizon);
      var before := RunPlans(env, s, cfg, plans, n - 1);
      if before.failure.None? {
        RetryFollows(env, before.sys, cfg, plans[n - 1], keys, to, horizon);
        FollowsJoins(env, s.world, before.sys.world, SubmitWithRetry(env, before.sys, cfg, plans[n - 1]).0.world,
                     keys, to, horizon);
      }
    }
  }

  /** Whatever order the network applies things in, plan j's acknowledgement keeps plan j's keys. */
  lemma {:induction false} RunPlansKeep(env: Environment, s: Sys, cfg: ValidConfig, plans: seq<ArchivalPlan>, n: nat,
        j: nat, k: LedgerKey, since: nat, to: nat)
    requires j < n <= |plans| && forall p :: p in plans ==> ExtendsTo(p, to)
    requires Consistent(s.world) && KeepsFootprints(env)
    requires k in plans[j].Footprint() && since <= s.world.ledger
    requires Unbroken(s.world, k, since) ==> IsLive(s.world, k)
    requires RunPlans(env, s, cfg, plans, n).failure.None?
    ensures var p := RunPlans(env, s, cfg, plans, n);
            |p.acks| == n && Kept(p.sys.world, k, since, [p.acks[j]], to)
  {
    hide SubmitWithRetry, ExtendsTo, KeepsFootprints, Consistent, Kept, Protected, Noted, Settled, Extends, Unbroken;
    var before, after := RunPlans(env, s, cfg, plans, n - 1), RunPlans(env, s, cfg, plans, n);
    RunPlansFollow(env, s, cfg, plans, n - 1, [], to, to);
    RunPlansFacts(env, s, cfg, plans, n - 1);
    RunPlansFacts(env, s, cfg, plans, n);
    if j < n - 1 {
      RunPlansKeep(env, s, cfg, plans, n - 1, j, k, since, to);
      RetryFollows(env, before.sys, cfg, plans[n - 1], [], to, to);
      KeptLater(before.sys.world, after.sys.world, k, since, [before.acks[j]], to);
    } else {
      if Unbroken(before.sys.world, k, since) {
        BrokenStays(s.world, before.sys.world, k, since);
        assert LivedOn(s.world, before.sys.world, k, to);
      }
      RetryKeeps(env, before.sys, cfg, plans[n - 1], k, since, to);
    }
  }

  // --- What was observed -----------------------------------------------------------------------------

  lemma {:induction false} LastMatchAppend(a: seq<RpcEntry>, b: seq<RpcEntry>, k: LedgerKey)
    ensures LastMatch(a + b, k) == if LastMatch(b, k).Some? then LastMatch(b, k) else LastMatch(a, k)
  {
    if b == [] {
      assert a + b == a;
    } else {
      assert (a + b)[..|a + b| - 1] == a + b[..|b| - 1];
      LastMatchAppend(a, b[..|b| - 1], k);
    }
  }

  /** A truthful reply tells the ledger's expiry for each requested key. */
  lemma {:induction false} HeldLookup(w: World, keys: seq<LedgerKey>, k: LedgerKey)
    ensures LastMatch(HeldEntries(w, keys), k)
         == if k in keys && k in w.liveUntil then Some(w.liveUntil[k]) else None
  {
    if keys == [] {
    } else {
      var head := if keys[0] in w.liveUntil then [RpcEntry(Some(keys[0]), Some(w.liveUntil[keys[0]]))] else [];
      HeldLookup(w, keys[1..], k);
      LastMatchAppend(head, HeldEntries(w, keys[1..]), k);
      assert LastMatch(head, k) == if k == keys[0] && k in w.liveUntil then Some(w.liveUntil[k]) else None by {
        assert head != [] ==> head[..|head| - 1] == [];
      }
    }
  }

  lemma {:induction false} AfterSplit(env: Environment, w: World, a: nat, b: nat)
    ensures After(env, After(env, w, a), b) == After(env, w, a + b)
  {
    hide Step;
    if b == 0 {
    } else {
      AfterSplit(env, w, a, b - 1);
    }
  }

  lemma {:induction false} FirstKeyFirstChunk(chunks: seq<Chunk>, n: nat)
    requires 0 < n <= |chunks| && (forall i :: 0 <= i < |chunks| ==> |chunks[i]| >= 1)
    ensures |Flat(chunks, n)| >= 1 && ChunkIndex(chunks, n, 0) == 0
  {
    if n == 1 {
    } else {
      FirstKeyFirstChunk(chunks, n - 1);
    }
  }

  /** Row i shows the ledger as it was when its chunk was answered. */
  lemma RowShowsLedger(env: Environment, w: World, codec: Codec, keys: seq<LedgerKey>, i: nat) returns (c: nat)
    requires ObserveEntries(env, w, codec, keys).1.Ok? && i < |keys|
    requires forall n :: After(env, w, n).ledger <= U32_MAX
    ensures |ObserveEntries(env, w, codec, keys).1.value| == |keys|
    ensures var chunks := Chunks(keys, OBSERVE_BATCH_ENTRIES);
            var seen := After(env, w, c + 1);
            && c < |chunks| && (i == 0 ==> c == 0)
            && ObserveEntries(env, w, codec, keys).0 == After(env, w, |chunks|)
            && ObserveEntries(env, w, codec, keys).1.value[i]
               == Row(seen.ledger, if keys[i] in seen.liveUntil then Some(seen.liveUntil[keys[i]]) else None)
  {
    hide Step, Chunks, ObserveEntries, ObserveUpTo, HeldEntries, LastMatch, Row, ChunkIndex;
    EntriesSeen(env, w, codec, keys);
    var chunks := Chunks(keys, OBSERVE_BATCH_ENTRIES);
    var replies := WorldReplies(env, w);
    ChunksPartition(keys, OBSERVE_BATCH_ENTRIES);
    RowsFollowKeys(codec, chunks, replies, |chunks|);
    c := ChunkIndex(chunks, |chunks|, i);
    if i == 0 {
      FirstKeyFirstChunk(chunks, |chunks|);
    }
    var seen := After(env, w, c + 1);
    assert replies(c, chunks[c]) == Ok(EntriesReply(seen.ledger, Some(HeldEntries(seen, chunks[c]))));
    HeldLookup(seen, chunks[c], keys[i]);
  }

  lemma RemainderIsSmaller(x: nat, m: nat)
    requires m > 0
    ensures x % m <= x
  {
    if x < m {
      assert x % m == x;
    }
  }

  /**
   * A key seen live in row i is live when observation ends, unless it has expired since row i's own ledger;
   * if it was not at risk it lives, as it is, beyond the target counted from that ledger.
   */
  lemma ObservedAlive(env: Environment, w: World, codec: Codec, keys: seq<LedgerKey>, i: nat, window: RiskWindow,
        to: nat)
    requires ObserveEntries(env, w, codec, keys).1.Ok? && i < |keys| && w.ledger <= U32_MAX
    requires to <= window.alertHorizonLedgers
    ensures var (w', obs) := ObserveEntries(env, w, codec, keys);
            var rows := obs.value;
            && |rows| == |keys|
            && w.ledger <= ObservedLedger(rows) <= rows[i].currentLedger <= w'.ledger
            && (rows[i].entry.Live? && Unbroken(w', keys[i], rows[i].currentLedger) ==>
                  && IsLive(w', keys[i])
                  && (!window.IsAtRisk(rows[i].entry.ttl) ==> w'.liveUntil[keys[i]] >= rows[i].currentLedger + to))
  {
    hide Step, Chunks, ObserveEntries, Noted, Settled, Extends, Consistent, Protected, Unbroken;
    forall n ensures After(env, w, n).ledger <= U32_MAX {
      AfterFollows(env, w, n, [], to, to);
    }
    var c := RowShowsLedger(env, w, codec, keys, i);
    var first := RowShowsLedger(env, w, codec, keys, 0);
    var n := |Chunks(keys, OBSERVE_BATCH_ENTRIES)|;
    var seen, w' := After(env, w, c + 1), ObserveEntries(env, w, codec, keys).0;
    AfterFollows(env, w, 1, [], to, to);
    AfterFollows(env, seen, n - (c + 1), [], to, to);
    AfterSplit(env, w, c + 1, n - (c + 1));
    AfterSplit(env, w, 1, c);
    AfterMovesOn(env, After(env, w, 1), c);
    if keys[i] in seen.liveUntil && seen.liveUntil[keys[i]] > seen.ledger {
      RemainderIsSmaller(seen.liveUntil[keys[i]] - seen.ledger, U64_MAX + 1);
      if Unbroken(w', keys[i], seen.ledger) {
        assert LivedOn(seen, w', keys[i], to);
      }
    }
  }

  /** What an earlier round saw live and has not expired since is seen live again, and not earlier. */
  lemma ObservedAgain(env: Environment, w: World, codec: Codec, keys: seq<LedgerKey>, i: nat, r: Round, c: Candidate,
        to: nat)
    requires ObserveEntries(env, w, codec, keys).1.Ok? && i < |keys|
    requires Protected(w, keys, to) && r in w.rounds && c in r.live && c.0 == keys[i]
    ensures var (w', obs) := ObserveEntries(env, w, codec, keys);
            && |obs.value| == |keys|
            && (Unbroken(w', keys[i], c.1.currentLedger) ==>
                  obs.value[i].entry.Live? && obs.value[i].currentLedger >= c.1.currentLedger)
  {
    hide Step, Chunks, ObserveEntries, Noted, Settled, Extends, Consistent, Unbroken;
    forall n ensures After(env, w, n).ledger <= U32_MAX {
      AfterFollows(env, w, n, keys, to, to);
    }
    var at := RowShowsLedger(env, w, codec, keys, i);
    var n := |Chunks(keys, OBSERVE_BATCH_ENTRIES)|;
    var seen, w' := After(env, w, at + 1), ObserveEntries(env, w, codec, keys).0;
    AfterFollows(env, w, at + 1, keys, to, to);
    AfterFollows(env, seen, n - (at + 1), keys, to, to);
    AfterSplit(env, w, at + 1, n - (at + 1));
    assert RoundKept(w, keys, r, to);
    KeptLater(w, seen, keys[i], c.1.currentLedger, r.acks, to);
    if Unbroken(w', keys[i], c.1.currentLedger) {
      BrokenStays(seen, w', keys[i], c.1.currentLedger);
    }
  }

  // --- The cycle -------------------------------------------------------------------------------------

  lemma PlanningFollows(env: Environment, w: World, cfg: ValidConfig, keys: seq<LedgerKey>, to: nat, horizon: nat)
    requires to <= horizon && !cfg.Resolution().ResolutionPanics?
    ensures Follows(env, w, PlanCycle(env, w, cfg).0, keys, to, horizon)
  {
    hide Step, After, ObserveEntries, ObserveUpTo, Chunks, RequestsSent, WorldReplies, PlanObserved, Watch.Resolve,
         Follows;
    FollowsItself(env, w, keys, to, horizon);
    StepFollows(env, w, keys, to, horizon);
    if cfg.Resolution().Keys? {
      var w1, chunks := GetNetwork(env, w).0, Chunks(cfg.Resolution().keys, OBSERVE_BATCH_ENTRIES);
      var n := RequestsSent(cfg.codec, chunks, WorldReplies(env, w1), |chunks|);
      EntriesSeen(env, w1, cfg.codec, cfg.Resolution().keys);
      AfterFollows(env, w1, n, keys, to, horizon);
      FollowsJoins(env, w, w1, After(env, w1, n), keys, to, horizon);
    }
  }

  lemma KeptByMore(w: World, k: LedgerKey, since: nat, a: nat, acks: seq<nat>, to: nat)
    requires Kept(w, k, since, [a], to) && a in acks
    ensures Kept(w, k, since, acks, to)
  {
    hide Unbroken, Extends;
  }

  lemma {:induction false} PlanWith(plans: seq<ArchivalPlan>, k: LedgerKey) returns (j: nat)
    requires k in KeysOf(Entries(plans))
    ensures j < |plans| && k in plans[j].Footprint()
  {
    var es := plans[0].entries;
    var at :| 0 <= at < |Entries(plans)| && KeysOf(Entries(plans))[at] == k;
    if at < |es| {
      j := 0;
      assert plans[0].Footprint()[at] == k;
    } else {
      assert KeysOf(Entries(plans[1..]))[at - |es|] == k;
      j := PlanWith(plans[1..], k);
      j := j + 1;
    }
  }

  /** Every at-risk live key is in some plan. */
  lemma RiskyIsPlanned(cfg: ValidConfig, keys: seq<LedgerKey>, rows: seq<Observation>, i: nat) returns (j: nat)
    requires |rows| == |keys| && i < |keys| && PlanObserved(cfg, keys, rows).Ok?
    requires rows[i].entry.Live? && cfg.window.IsAtRisk(rows[i].entry.ttl)
    ensures var plans := PlanObserved(cfg, keys, rows).value.plans; j < |plans| && keys[i] in plans[j].Footprint()
  {
    hide Extendable, PlanObserved, Filter, Entries, KeysOf;
    var c := (keys[i], rows[i].entry.ttl);
    var candidates := Extendable(keys, rows, |keys|);
    ExtendableIsLive(keys, rows, |keys|, c);
    FilterMembers((x: Candidate) => cfg.window.IsAtRisk(x.1), candidates, c);
    var risky := cfg.ThePlanner().AtRisk(candidates);
    assert c in risky;
    PlansCoverAtRisk(cfg, keys, rows);
    var at :| 0 <= at < |risky| && risky[at] == c;
    assert CandidateKeys(risky)[at] == keys[i];
    assert keys[i] in multiset(CandidateKeys(risky));
    j := PlanWith(PlanObserved(cfg, keys, rows).value.plans, keys[i]);
  }

  /** The daemon's plans are extensions to the target, by class. */
  lemma PlansExtendTo(cfg: ValidConfig, keys: seq<LedgerKey>, rows: seq<Observation>)
    requires |rows| == |keys| && PlanObserved(cfg, keys, rows).Ok?
    ensures forall p :: p in PlanObserved(cfg, keys, rows).value.plans ==> ExtendsTo(p, cfg.ExtendTo())
  {
    hide Extendable, PlanObserved;
    PlansAreExtensions(cfg, keys, rows);
    PlansAreByClass(cfg, keys, rows);
  }

  /** A successful cycle keeps whatever it saw live, each entry from its own chunk's ledger on. */
  lemma CycleKeeps(env: Environment, s: Sys, cfg: ValidConfig, i: nat)
    requires !cfg.Resolution().ResolutionPanics? && cfg.constants.Valid() && KeepsFootprints(env)
    requires PlanCycle(env, s.world, cfg).1.Ok? && i < |cfg.Resolution().keys|
    requires Consistent(s.world) && s.world.ledger <= U32_MAX
    requires var (w, planned) := PlanCycle(env, s.world, cfg);
             RunPlans(env, s.(world := w), cfg, planned.value.plans, |planned.value.plans|).failure.None?
    ensures i < |Observed(env, s.world, cfg).value|
    ensures var (w, planned) := PlanCycle(env, s.world, cfg);
            var p := RunPlans(env, s.(world := w), cfg, planned.value.plans, |planned.value.plans|);
            var row := Observed(env, s.world, cfg).value[i];
            && planned.value.observedLedger <= row.currentLedger
            && (row.entry.Live? ==>
                  Kept(p.sys.world, cfg.Resolution().keys[i], row.currentLedger, p.acks, cfg.ExtendTo()))
  {
    hide Step, RunPlans, ObserveEntries, PlanObserved, Watch.Resolve, Kept, Extends, Settled, Noted, Consistent,
         KeepsFootprints, Protected, Unbroken, ExtendsTo;
    var keys, to, horizon := cfg.Resolution().keys, cfg.ExtendTo(), cfg.window.alertHorizonLedgers;
    ExtendToIsClampedHorizon(cfg.window, cfg.constants);
    var w1 := GetNetwork(env, s.world).0;
    StepFollows(env, s.world, keys, to, horizon);
    PlanCycleFacts(env, s.world, cfg);
    PlanningFollows(env, s.world, cfg, keys, to, horizon);
    ObservedAlive(env, w1, cfg.codec, keys, i, cfg.window, to);
    var (w, planned) := PlanCycle(env, s.world, cfg);
    var rows := Observed(env, s.world, cfg).value;
    ReportedLedger(cfg, keys, rows);
    PlansExtendTo(cfg, keys, rows);
    var plans, start := planned.value.plans, s.(world := w);
    RunPlansFollow(env, start, cfg, plans, |plans|, keys, to, horizon);
    var p := RunPlans(env, start, cfg, plans, |plans|);
    if rows[i].entry.Live? && cfg.window.IsAtRisk(rows[i].entry.ttl) {
      var j := RiskyIsPlanned(cfg, keys, rows, i);
      RunPlansKeep(env, start, cfg, plans, |plans|, j, keys[i], rows[i].currentLedger, to);
      KeptByMore(p.sys.world, keys[i], rows[i].currentLedger, p.acks[j], p.acks, to);
    } else if rows[i].entry.Live? {
      KeptByItself(w, p.sys.world, keys[i], rows[i].currentLedger, p.acks, to);
    }
  }

  lemma KeptByItself(w: World, w': World, k: LedgerKey, since: nat, acks: seq<nat>, to: nat)
    requires Later(w, w', to) && since <= w.ledger
    requires Unbroken(w, k, since) ==> IsLive(w, k) && w.liveUntil[k] >= since + to
    ensures Kept(w', k, since, acks, to)
  {
    hide Unbroken, Extends, Consistent;
    if Unbroken(w', k, since) {
      BrokenStays(w, w', k, since);
      assert LivedOn(w, w', k, to);
    }
  }
}
