/** Envelope building, fee application and signing. */
module Tx {
  import opened Basics
  import opened Ledger
  import opened Plan

  datatype OperationBody = ExtendFootprintTtl(extendTo: nat) | RestoreFootprint

  datatype LedgerFootprint = LedgerFootprint(readOnly: seq<LedgerKey>, readWrite: seq<LedgerKey>)
  {
    predicate Contains(k: LedgerKey) {
      k in readOnly || k in readWrite
    }
  }

  datatype SorobanData = SorobanData(
    footprint: LedgerFootprint, instructions: nat, diskReadBytes: nat, writeBytes: nat, resourceFee: int)

  datatype Transaction = Transaction(
    source: nat, fee: nat, seqNum: int, operations: seq<OperationBody>, data: SorobanData)

  datatype DecoratedSignature = DecoratedSignature(hint: nat, signature: nat)

  datatype TransactionEnvelope = V1(tx: Transaction, signatures: seq<DecoratedSignature>) | OtherEnvelope

  /** The base64 `transactionData` of a simulation as its decoder sees it. */
  datatype DataXdr = EmptyText | Garbled | Encodes(data: SorobanData)

  /** `error` carries whether its text contains a bad-sequence marker. */
  datatype SimulationResult = SimulationResult(
    minResourceFee: U64, transactionData: Option<DataXdr>, error: Option<bool>)
  {
    predicate Failed() {
      error.Some?
    }
  }

  datatype TxError = EmptyPlan | TooManyEntries | NoTransactionData | BadTransactionData | NotV1 | TooManySignatures

  /** Hashing and Ed25519 as the builder calls them. */
  datatype Crypto = Crypto(
    publicKey: nat -> nat,
    networkId: string -> nat,
    hash: (nat, Transaction) -> nat,
    sign: (nat, nat) -> nat,
    verify: (nat, nat, nat) -> bool,
    hint: nat -> nat)
  {
    /** A signature verifies for exactly the digest it was made for, and digests do not collide. */
    ghost predicate Lawful() {
      && (forall k, d, s :: verify(publicKey(k), d, s) <==> s == sign(k, d))
      && (forall k, d, d' :: sign(k, d) == sign(k, d') ==> d == d')
      && (forall n, t, t' :: hash(n, t) == hash(n, t') ==> t == t')
    }
  }

  const DEFAULT_BASE_FEE: U64 := 100
  const MAX_FOOTPRINT: nat := 100
  const MAX_SIGNATURES: nat := 20

  datatype TxBuilder = TxBuilder(networkPassphrase: string, baseFee: U64, crypto: Crypto)
  {
    function BuildUnsigned(plan: ArchivalPlan, source: nat, seqNum: int): Result<TransactionEnvelope, TxError> {
      if |plan.entries| == 0 then Err(EmptyPlan)
      else if |plan.entries| > MAX_FOOTPRINT then Err(TooManyEntries)
      else
        var body := match plan.entries[0].kind
          case Extend => ExtendFootprintTtl(plan.extendTo)
          case Restore => RestoreFootprint;
        var data := SorobanData(LedgerFootprint([], plan.Footprint()), 0, 0, 0, 0);
        Ok(V1(Transaction(source, ToU32OrMax(baseFee), seqNum, [body], data), []))
    }

    /** The envelope after a simulation result has been adopted. */
    function Simulated(envelope: TransactionEnvelope, simulation: SimulationResult): Result<TransactionEnvelope,
          TxError> {
      match simulation.transactionData
      case None => Err(NoTransactionData)
      case Some(EmptyText) => Err(NoTransactionData)
      case Some(Garbled) => Err(BadTransactionData)
      case Some(Encodes(data)) =>
        if !envelope.V1? then Err(NotV1)
        else
          var fee := ToU32OrMax(SaturatingAdd64(baseFee, simulation.minResourceFee));
          Ok(envelope.(tx := envelope.tx.(fee := fee, data := data)))
    }

    function SignatureFor(tx: Transaction, signingKey: nat): DecoratedSignature {
      DecoratedSignature(crypto.hint(crypto.publicKey(signingKey)),
                         crypto.sign(signingKey, crypto.hash(crypto.networkId(networkPassphrase), tx)))
    }

    function Signed(envelope: TransactionEnvelope, signingKey: nat): Result<TransactionEnvelope, TxError> {
      if !envelope.V1? then Err(NotV1)
      else if |envelope.signatures| >= MAX_SIGNATURES then Err(TooManySignatures)
      else Ok(envelope.(signatures := envelope.signatures + [SignatureFor(envelope.tx, signingKey)]))
    }

    predicate Verifies(tx: Transaction, signer: nat, s: DecoratedSignature) {
      crypto.verify(signer, crypto.hash(crypto.networkId(networkPassphrase), tx), s.signature)
    }

    method ApplySimulation(envelope: EnvelopeBox, simulation: SimulationResult) returns (error: Option<TxError>)
      modifies envelope
      ensures var r := Simulated(old(envelope.content), simulation);
              && error == (if r.Err? then Some(r.error) else None)
              && envelope.content == (if r.Ok? then r.value else old(envelope.content))
    {
      if simulation.transactionData.None? || simulation.transactionData.value.EmptyText? {
        return Some(NoTransactionData);
      }
      if simulation.transactionData.value.Garbled? {
        return Some(BadTransactionData);
      }
      var data := simulation.transactionData.value.data;
      if !envelope.content.V1? {
        return Some(NotV1);
      }
      var total := SaturatingAdd64(baseFee, simulation.minResourceFee);
      envelope.content := envelope.content.(tx := envelope.content.tx.(fee := ToU32OrMax(total)));
      envelope.content := envelope.content.(tx := envelope.content.tx.(data := data));
      error := None;
    }

    method Sign(envelope: EnvelopeBox, signingKey: nat) returns (error: Option<TxError>)
      modifies envelope
      ensures var r := Signed(old(envelope.content), signingKey);
              && error == (if r.Err? then Some(r.error) else None)
              && envelope.content == (if r.Ok? then r.value else old(envelope.content))
    {
      if !envelope.content.V1? {
        return Some(NotV1);
      }
      var txHash := crypto.hash(crypto.networkId(networkPassphrase), envelope.content.tx);
      var signature := crypto.sign(signingKey, txHash);
      var hint := crypto.hint(crypto.publicKey(signingKey));
      var signatures := envelope.content.signatures;
      if |signatures| >= MAX_SIGNATURES {
        return Some(TooManySignatures);
      }
      signatures := signatures + [DecoratedSignature(hint, signature)];
      envelope.content := envelope.content.(signatures := signatures);
      error := None;
    }

    /** Build, adopt the simulation, then sign: what the daemon sends for a plan. */
    function Prepared(plan: ArchivalPlan, signingKey: nat, seqNum: int, simulation: SimulationResult)
      : Result<TransactionEnvelope, TxError>
    {
      match BuildUnsigned(plan, crypto.publicKey(signingKey), seqNum)
      case Err(e) => Err(e)
      case Ok(unsigned) =>
        match Simulated(unsigned, simulation)
        case Err(e) => Err(e)
        case Ok(priced) => Signed(priced, signingKey)
    }

    /** Which plans and simulations produce an envelope, and what is in it. */
    lemma PreparedEnvelope(plan: ArchivalPlan, signingKey: nat, seqNum: int, simulation: SimulationResult)
      requires crypto.Lawful()
      requires forall i, j :: 0 <= i < j < |plan.entries| ==> plan.entries[i].kind == plan.entries[j].kind
      ensures Prepared(plan, signingKey, seqNum, simulation).Ok? <==>
                && 1 <= |plan.entries| <= 100
                && simulation.transactionData.Some? && simulation.transactionData.value.Encodes?
      ensures Prepared(plan, signingKey, seqNum, simulation).Ok? ==>
                var e := Prepared(plan, signingKey, seqNum, simulation).value;
                && e.V1?
                && e.tx.source == crypto.publicKey(signingKey)
                && e.tx.seqNum == seqNum
                && |e.tx.operations| == 1
                && (forall p :: p in plan.entries ==>
                      e.tx.operations[0]
                      == (if p.kind.Extend? then ExtendFootprintTtl(plan.extendTo) else RestoreFootprint))
                && e.tx.fee == Min(U32_MAX, baseFee + simulation.minResourceFee)
                && e.tx.data == simulation.transactionData.value.data
                && |e.signatures| == 1
                && e.signatures[0].hint == crypto.hint(e.tx.source)
                && (forall t :: Verifies(t, e.tx.source, e.signatures[0]) <==> t == e.tx)
    {
    }

    /**
     * A plan is refused exactly when it is empty or has more than 100 entries. Otherwise the envelope asks for one
     * operation, by the first entry's kind, on the plan's keys in order, for zero resources, at the base fee.
     */
    lemma UnsignedEnvelope(plan: ArchivalPlan, source: nat, seqNum: int)
      ensures var r := BuildUnsigned(plan, source, seqNum);
              && (r == Err(EmptyPlan) <==> plan.entries == [])
              && (r == Err(TooManyEntries) <==> |plan.entries| > 100)
              && (r.Ok? <==> 1 <= |plan.entries| <= 100)
              && (r.Ok? ==>
                    && r.value.V1? && r.value.signatures == []
                    && var tx := r.value.tx;
                    && tx.source == source && tx.seqNum == seqNum && tx.fee == Min(baseFee, U32_MAX)
                    && tx.operations == [if plan.entries[0].kind.Extend? then ExtendFootprintTtl(plan.extendTo)
                                         else RestoreFootprint]
                    && tx.data.footprint.readOnly == [] && |tx.data.footprint.readWrite| == |plan.entries|
                    && (forall i :: 0 <= i < |plan.entries| ==>
                          tx.data.footprint.readWrite[i] == plan.entries[i].key)
                    && tx.data.instructions == tx.data.diskReadBytes == tx.data.writeBytes == 0
                    && tx.data.resourceFee == 0)
    {
    }

    /** Each way adopting a simulation or signing can fail, and that a success changes nothing else. */
    lemma AdoptAndSignCases(envelope: TransactionEnvelope, simulation: SimulationResult, signingKey: nat)
      ensures var r, text := Simulated(envelope, simulation), simulation.transactionData;
              && (r == Err(NoTransactionData) <==> text.None? || text.value.EmptyText?)
              && (r == Err(BadTransactionData) <==> text == Some(Garbled))
              && (r.Ok? <==> text.Some? && text.value.Encodes? && envelope.V1?)
              && (r.Err? ==> r.error in {NoTransactionData, BadTransactionData, NotV1})
              && (r.Ok? ==>
                    && r.value.V1? && r.value.signatures == envelope.signatures
                    && r.value.tx.source == envelope.tx.source && r.value.tx.seqNum == envelope.tx.seqNum
                    && r.value.tx.operations == envelope.tx.operations
                    && r.value.tx.fee == Min(U32_MAX, baseFee + simulation.minResourceFee)
                    && text == Some(Encodes(r.value.tx.data)))
      ensures var r := Signed(envelope, signingKey);
              && (r == Err(NotV1) <==> !envelope.V1?)
              && (r == Err(TooManySignatures) <==> envelope.V1? && |envelope.signatures| >= 20)
              && (r.Ok? <==> envelope.V1? && |envelope.signatures| < 20)
              && (r.Ok? ==>
                    && r.value.V1? && r.value.tx == envelope.tx
                    && |r.value.signatures| == |envelope.signatures| + 1
                    && envelope.signatures < r.value.signatures
                    && var added := r.value.signatures[|envelope.signatures|];
                    && added.hint == crypto.hint(crypto.publicKey(signingKey))
                    && (crypto.Lawful() ==> forall t ::
                          Verifies(t, crypto.publicKey(signingKey), added) <==> t == envelope.tx))
    {
    }

    /** Signing first would not do: adopting the simulation then leaves a signature that no longer verifies. */
    lemma SigningFirstBreaksTheSignature(plan: ArchivalPlan, signingKey: nat, seqNum: int, simulation: SimulationResult)
      requires crypto.Lawful()
      requires Prepared(plan, signingKey, seqNum, simulation).Ok?
      ensures var unsigned := BuildUnsigned(plan, crypto.publicKey(signingKey), seqNum).value;
              var early := Simulated(Signed(unsigned, signingKey).value, simulation).value;
              Verifies(early.tx, early.tx.source, early.signatures[0]) <==> early.tx == unsigned.tx
    {
      var unsigned := BuildUnsigned(plan, crypto.publicKey(signingKey), seqNum).value;
      var early := Simulated(Signed(unsigned, signingKey).value, simulation).value;
      assert early.signatures == [SignatureFor(unsigned.tx, signingKey)];
    }
  }

  /** The `&mut TransactionEnvelope` the builder works on. */
  class EnvelopeBox {
    var content: TransactionEnvelope

    constructor (content: TransactionEnvelope)
      ensures this.content == content
    {
      this.content := content;
    }
  }
}
