/** What the network keeps while the keeper waits for an answer. */
module Evolution {
  import opened Tx
  import opened Network

  /** Accepted envelopes carry strictly increasing sequence numbers, none above the account's. */
  ghost predicate OrderedLog(w: World) {
    && (forall i :: 0 <= i < |w.log| ==> w.log[i].V1? && w.log[i].tx.seqNum <= w.accountSeq)
    && (forall i, j :: 0 <= i < j < |w.log| ==> w.log[i].tx.seqNum < w.log[j].tx.seqNum)
  }

  /** Only accepted envelopes are applied, had their answer lost, or belong to a failed cycle. */
  ghost predicate KnownPositions(w: World) {
    && (forall i :: i in w.applied ==> i < |w.log|)
    && (forall i :: i in w.lost ==> i < |w.log|)
    && (forall i :: i in w.orphaned ==> i < |w.log|)
  }

  ghost predicate Consistent(w: World) {
    OrderedLog(w) && KnownPositions(w)
  }

  /** The network moves on by itself: nothing the keeper did is touched, and nothing is undone. */
  ghost predicate MovedOn(w: World, w': World) {
    && w'.log == w.log && w'.lost == w.lost && w'.rounds == w.rounds && w'.maxEntryTtl == w.maxEntryTtl
    && w.time <= w'.time && w.ledger <= w'.ledger && w.accountSeq <= w'.accountSeq && w.maxAge <= w'.maxAge
    && w.orphaned == w'.orphaned
    && w.applied <= w'.applied && w.lapses <= w'.lapses && w.dropped <= w'.dropped
    && (Consistent(w) ==> Consistent(w'))
  }

  lemma StepOneMovesOn(w: World, s: EnvStep)
    ensures MovedOn(w, StepOne(w, s))
  {
  }

  lemma {:induction false} StepAllMovesOn(w: World, steps: seq<EnvStep>)
    ensures MovedOn(w, StepAll(w, steps))
    decreases |steps|
  {
    hide StepOne;
    if steps == [] {
    } else {
      StepOneMovesOn(w, steps[0]);
      StepAllMovesOn(StepOne(w, steps[0]), steps[1..]);
    }
  }

  lemma StepMovesOn(env: Environment, w: World)
    ensures MovedOn(w, Step(env, w))
    ensures Step(env, w).time == w.time + 1
  {
    hide StepAll;
    StepAllMovesOn(w, env(w.time).steps);
  }

  lemma {:induction false} AfterMovesOn(env: Environment, w: World, n: nat)
    ensures MovedOn(w, After(env, w, n))
  {
    hide Step;
    if n == 0 {
    } else {
      AfterMovesOn(env, w, n - 1);
      StepMovesOn(env, After(env, w, n - 1));
    }
  }

  /** Foreign submissions are the only thing that moves the account's sequence between answers. */
  predicate NoForeign(m: Move) {
    ForeignSubmit !in m.steps
  }

  lemma {:induction false} StepAllKeepsSequence(w: World, steps: seq<EnvStep>)
    requires ForeignSubmit !in steps
    ensures StepAll(w, steps).accountSeq == w.accountSeq
    decreases |steps|
  {
    if steps == [] {
    } else {
      StepAllKeepsSequence(StepOne(w, steps[0]), steps[1..]);
    }
  }

  lemma StepKeepsSequence(env: Environment, w: World)
    requires NoForeign(env(w.time))
    ensures Step(env, w).accountSeq == w.accountSeq
  {
    StepAllKeepsSequence(w, env(w.time).steps);
  }

  /** Time has passed and envelopes may have been accepted, but nothing was taken back. */
  ghost predicate Progressed(w: World, w': World) {
    && w'.rounds == w.rounds && w'.maxEntryTtl == w.maxEntryTtl
    && w.time <= w'.time && w.ledger <= w'.ledger && w.accountSeq <= w'.accountSeq && w.applied <= w'.applied
    && w.orphaned == w'.orphaned && w.lapses <= w'.lapses && w.dropped <= w'.dropped
    && w.maxAge <= w'.maxAge && w.lost <= w'.lost && w.log <= w'.log
    && (forall i :: i in w'.lost ==> i in w.lost || i >= |w.log|)
    && (Consistent(w) ==> Consistent(w'))
  }

  /** Every envelope accepted meanwhile was acknowledged or had its answer lost, never both. */
  ghost predicate Accounted(w: World, w': World, acks: seq<nat>) {
    && (forall i :: |w.log| <= i < |w'.log| ==> i in acks || i in w'.lost)
    && (Consistent(w) ==> forall a :: a in acks ==> a !in w'.lost)
  }

  /** Sending adds at most the sent envelope, and an answer means it was added. */
  lemma SendFacts(env: Environment, w: World, e: TransactionEnvelope)
    ensures var (w', r) := SendTransaction(env, w, e);
            && Progressed(w, w') && w'.time == w.time + 1
            && (r.Ok? ==> r.value == |w.log| && w'.log == w.log + [e] && w'.lost == w.lost && Fits(Step(env, w), e))
            && (r.Err? ==> Accounted(w, w', []))
            && (Consistent(w) && r.Ok? ==> r.value !in w'.applied)
  {
    hide Step;
    StepMovesOn(env, w);
  }
}
