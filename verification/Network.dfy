/**
 * The node and ledger the keeper talks to. The environment is an arbitrary script: move number t
 * says what happens on the network before RPC call (or sleep) number t is answered and how it is
 * answered. A theorem about every script is a theorem about every behaviour of the network.
 */
module Network {
  import opened Basics
  import opened Ledger
  import opened Provider
  import opened Ttl
  import opened Tx

  /** What the network may do between two RPC answers. */
  datatype EnvStep =
    | CloseLedger
    | Apply(index: nat)
    | ForeignSubmit
    | ForeignExtend(key: LedgerKey, until: nat)
    | Revive(key: LedgerKey, until: nat)
    | Evict(key: LedgerKey)

  /**
   * A simulation answer. `fee` is the minimum resource fee and `dataFee` the fee inside the transaction data,
   * which the node states separately; `footprint` overrides the requested one when present.
   */
  datatype SimReply =
    | SimRejected(badSeq: bool)
    | SimWithoutData(text: Option<DataXdr>)
    | SimAnswer(fee: U64, dataFee: int, instructions: nat, diskReadBytes: nat, writeBytes: nat,
                footprint: Option<LedgerFootprint>)

  /** The fate of a sent envelope: judged and answered, judged with the answer lost, or not judged. */
  datatype SendFate = Deliver(badSeqMarked: bool) | LostReply(badSeqMarked: bool) | Refuse(badSeqMarked: bool)

  /**
   * `fault` is a transport failure of a read call and says whether its text carries a bad-sequence marker; `lag`
   * is by how much an account lookup lags behind the sequence numbers the node has already accepted.
   */
  datatype Move = Move(
    steps: seq<EnvStep>, fault: Option<bool>, network: string, lag: nat, sim: SimReply, send: SendFate)

  type Environment = nat -> Move

  /**
   * A cycle that ended in `Ok`: its observation ledger, the entries it saw live (each with the ledger of
   * its own chunk), and the log positions of its envelopes.
   */
  datatype Round = Round(observed: nat, live: seq<(LedgerKey, EntryTtl)>, acks: seq<nat>)

  /**
   * `log` holds the envelopes the node accepted from the fee payer's daemon, `applied` the log
   * positions executed, those that trapped included. The last six fields are history that no reply depends on:
   * `lapses` notes which key was found expired by which ledger close, `dropped` the keys that expired
   * although a completely applied round had seen them live and they had been live ever since, `lost`
   * the positions accepted with the answer lost, `orphaned` those acknowledged in a cycle that failed
   * later, `rounds` the successful cycles, and `maxAge` the greatest age the newest completely applied
   * round had when a ledger closed.
   */
  datatype World = World(
    time: nat, ledger: nat, liveUntil: map<LedgerKey, nat>, maxEntryTtl: nat, accountSeq: int,
    log: seq<TransactionEnvelope>, applied: set<nat>,
    lapses: set<(LedgerKey, nat)>, dropped: set<LedgerKey>, lost: set<nat>, orphaned: set<nat>,
    rounds: seq<Round>, maxAge: nat)

  predicate IsLive(w: World, k: LedgerKey) {
    k in w.liveUntil && w.liveUntil[k] > w.ledger
  }

  /** No ledger close after ledger `since` has found `k` expired. */
  predicate Unbroken(w: World, k: LedgerKey, since: nat) {
    forall lapse :: lapse in w.lapses && lapse.0 == k ==> lapse.1 <= since
  }

  predicate Effective(r: Round, applied: set<nat>) {
    forall i :: i in r.acks ==> i in applied
  }

  /** The last round whose envelopes have all been applied. */
  function Newest(rounds: seq<Round>, applied: set<nat>): Option<Round> {
    if rounds == [] then None
    else
      var last := rounds[|rounds| - 1];
      if Effective(last, applied) then Some(last) else Newest(rounds[..|rounds| - 1], applied)
  }

  /** Some completely applied round has seen `k` live, and it has been live since. */
  predicate UnderCare(w: World, k: LedgerKey) {
    exists r :: r in w.rounds && Effective(r, w.applied) && SawUnbroken(w, r, k)
  }

  predicate SawUnbroken(w: World, r: Round, k: LedgerKey) {
    exists c :: c in r.live && c.0 == k && Unbroken(w, k, c.1.currentLedger)
  }

  predicate HasTemporary(footprint: LedgerFootprint) {
    exists k :: k in footprint.readOnly + footprint.readWrite && IsTemporary(k)
  }

  /** The documented semantics of ExtendFootprintTTL; temporary entries trap above the network maximum. */
  function Extended(w: World, footprint: LedgerFootprint, extendTo: nat): map<LedgerKey, nat> {
    if extendTo > w.maxEntryTtl && HasTemporary(footprint) then
      w.liveUntil
    else
      map k | k in w.liveUntil ::
        if footprint.Contains(k) && IsLive(w, k)
        then Max(w.liveUntil[k], w.ledger + Min(extendTo, w.maxEntryTtl)) as nat
        else w.liveUntil[k]
  }

  function ApplyEnvelope(w: World, e: TransactionEnvelope): map<LedgerKey, nat> {
    if e.V1? && |e.tx.operations| == 1 && e.tx.operations[0].ExtendFootprintTtl?
    then Extended(w, e.tx.data.footprint, e.tx.operations[0].extendTo)
    else w.liveUntil
  }

  function StepOne(w: World, s: EnvStep): World {
    match s
    case CloseLedger =>
      if w.ledger >= U32_MAX then w
      else
        var h := w.ledger + 1;
        var gone := set k | k in w.liveUntil && w.liveUntil[k] <= h;
        var age := match Newest(w.rounds, w.applied) {
          case None => 0
          case Some(r) => if h > r.observed then h - r.observed else 0 };
        w.(ledger := h,
           lapses := w.lapses + (set k | k in gone :: (k, h)),
           dropped := w.dropped + (set k | k in gone && UnderCare(w, k)),
           maxAge := Max(w.maxAge, age))
    case Apply(i) =>
      if i < |w.log| && i !in w.applied
      then w.(applied := w.applied + {i}, liveUntil := ApplyEnvelope(w, w.log[i]))
      else w
    case ForeignSubmit => w.(accountSeq := w.accountSeq + 1)
    case ForeignExtend(k, u) =>
      if IsLive(w, k) then w.(liveUntil := w.liveUntil[k := Max(w.liveUntil[k], u)]) else w
    case Revive(k, u) =>
      if IsLive(w, k) then w else w.(liveUntil := w.liveUntil[k := u])
    case Evict(k) =>
      if k in w.liveUntil && !IsLive(w, k) then w.(liveUntil := w.liveUntil - {k}) else w
  }

  function StepAll(w: World, steps: seq<EnvStep>): World
    decreases |steps|
  {
    if steps == [] then w else StepAll(StepOne(w, steps[0]), steps[1..])
  }

  /** Everything the network does before answering the next call. */
  function Step(env: Environment, w: World): World {
    StepAll(w, env(w.time).steps).(time := w.time + 1)
  }

  function After(env: Environment, w: World, n: nat): World {
    if n == 0 then w else Step(env, After(env, w, n - 1))
  }

  // --- RPC answers -----------------------------------------------------------------------------

  function GetNetwork(env: Environment, w: World): (World, Result<string, RentkeeperError>) {
    var m := env(w.time);
    (Step(env, w), match m.fault { case Some(b) => Err(RpcFailure(b)) case None => Ok(m.network) })
  }

  function GetAccount(env: Environment, w: World): (World, Result<int, RentkeeperError>) {
    var w' := Step(env, w);
    (w', match env(w.time).fault {
       case Some(b) => Err(RpcFailure(b))
       case None => Ok(w'.accountSeq - env(w.time).lag) })
  }

  /** A truthful reply: one row for each requested key that the ledger holds. */
  function HeldEntries(w: World, keys: seq<LedgerKey>): seq<RpcEntry> {
    if keys == [] then []
    else (if keys[0] in w.liveUntil then [RpcEntry(Some(keys[0]), Some(w.liveUntil[keys[0]]))] else [])
         + HeldEntries(w, keys[1..])
  }

  function EntriesAnswer(env: Environment, w: World, keys: seq<LedgerKey>): Result<EntriesReply, RentkeeperError> {
    match env(w.time).fault
    case Some(b) => Err(RpcFailure(b))
    case None =>
      var w' := Step(env, w);
      Ok(EntriesReply(w'.ledger, Some(HeldEntries(w', keys))))
  }

  /** `observe_entries` on the first `n` chunks: one request after the other, none after a failure. */
  function ObserveChunks(env: Environment, w: World, codec: Codec, chunks: seq<Chunk>, n: nat)
    : (World, Result<seq<Observation>, RentkeeperError>)
    requires n <= |chunks|
  {
    if n == 0 then (w, Ok([]))
    else
      var (w1, done) := ObserveChunks(env, w, codec, chunks, n - 1);
      match done
      case Err(e) => (w1, Err(e))
      case Ok(rows) =>
        (Step(env, w1), match ChunkRows(codec, chunks[n - 1], EntriesAnswer(env, w1, chunks[n - 1]))
                        case Err(e) => Err(e)
                        case Ok(more) => Ok(rows + more))
  }

  function ObserveEntries(env: Environment, w: World, codec: Codec, keys: seq<LedgerKey>)
    : (World, Result<seq<Observation>, RentkeeperError>)
  {
    var chunks := Chunks(keys, OBSERVE_BATCH_ENTRIES);
    ObserveChunks(env, w, codec, chunks, |chunks|)
  }

  lemma {:induction false} NothingAfterFailure(env: Environment, w: World, codec: Codec, chunks: seq<Chunk>, m: nat,
        n: nat)
    requires m <= n <= |chunks| && ObserveChunks(env, w, codec, chunks, m).1.Err?
    ensures ObserveChunks(env, w, codec, chunks, n) == ObserveChunks(env, w, codec, chunks, m)
  {
    hide Step, EntriesAnswer, ChunkRows;
    if m == n {
    } else {
      NothingAfterFailure(env, w, codec, chunks, m, n - 1);
    }
  }

  /** How the world answers request number `c` of an observation that starts in `w`. */
  function WorldReplies(env: Environment, w: World): Replies {
    (c: nat, keys: seq<LedgerKey>) => EntriesAnswer(env, After(env, w, c), keys)
  }

  /** Threading the world through the chunks is the same as looking at the world's replies one by one. */
  lemma {:induction false} ChunksSeen(env: Environment, w: World, codec: Codec, chunks: seq<Chunk>, n: nat)
    requires n <= |chunks|
    ensures ObserveChunks(env, w, codec, chunks, n).0
         == After(env, w, RequestsSent(codec, chunks, WorldReplies(env, w), n))
    ensures ObserveChunks(env, w, codec, chunks, n).1 == ObserveUpTo(codec, chunks, WorldReplies(env, w), n)
    ensures ObserveChunks(env, w, codec, chunks, n).1.Ok? ==> RequestsSent(codec, chunks, WorldReplies(env, w), n) == n
  {
    hide Step, EntriesAnswer, ChunkRows;
    if n == 0 {
    } else {
      ChunksSeen(env, w, codec, chunks, n - 1);
    }
  }

  lemma EntriesSeen(env: Environment, w: World, codec: Codec, keys: seq<LedgerKey>)
    ensures var chunks := Chunks(keys, OBSERVE_BATCH_ENTRIES);
            var sent := RequestsSent(codec, chunks, WorldReplies(env, w), |chunks|);
            && ObserveEntries(env, w, codec, keys)
               == (After(env, w, sent), ObserveUpTo(codec, chunks, WorldReplies(env, w), |chunks|))
            && (ObserveEntries(env, w, codec, keys).1.Ok? ==> sent == |chunks|)
  {
    hide Chunks, Step, WorldReplies, ChunkRows;
    ChunksSeen(env, w, codec, Chunks(keys, OBSERVE_BATCH_ENTRIES), |Chunks(keys, OBSERVE_BATCH_ENTRIES)|);
  }

  function SimulationAnswer(reply: SimReply, envelope: TransactionEnvelope): SimulationResult {
    match reply
    case SimRejected(b) => SimulationResult(0, None, Some(b))
    case SimWithoutData(text) =>
      SimulationResult(0, if text.Some? && text.value.Encodes? then None else text, None)
    case SimAnswer(fee, dataFee, instructions, diskReads, diskWrites, footprint) =>
      var fp := match footprint {
        case Some(f) => f
        case None => if envelope.V1? then envelope.tx.data.footprint else LedgerFootprint([], []) };
      SimulationResult(fee, Some(Encodes(SorobanData(fp, instructions, diskReads, diskWrites, dataFee))), None)
  }

  function Simulate(env: Environment, w: World, envelope: TransactionEnvelope)
    : (World, Result<SimulationResult, RentkeeperError>)
  {
    var m := env(w.time);
    (Step(env, w), match m.fault {
       case Some(b) => Err(RpcFailure(b))
       case None => Ok(SimulationAnswer(m.sim, envelope)) })
  }

  /** The node takes an envelope exactly when it carries the account's next sequence number. */
  predicate Fits(w: World, e: TransactionEnvelope) {
    e.V1? && e.tx.seqNum == w.accountSeq + 1
  }

  function Accept(w: World, e: TransactionEnvelope, answered: bool): World {
    w.(accountSeq := w.accountSeq + 1, log := w.log + [e],
       lost := if answered then w.lost else w.lost + {|w.log|})
  }

  /** The hash returned for an accepted envelope is modelled as the log position it identifies. */
  function SendTransaction(env: Environment, w: World, e: TransactionEnvelope): (World, Result<nat, RentkeeperError>) {
    var w' := Step(env, w);
    match env(w.time).send
    case Deliver(b) => if Fits(w', e) then (Accept(w', e, true), Ok(|w'.log|)) else (w', Err(RpcFailure(b)))
    case LostReply(b) => (if Fits(w', e) then Accept(w', e, false) else w', Err(RpcFailure(b)))
    case Refuse(b) => (w', Err(RpcFailure(b)))
  }

  /** History only: notes that a cycle has ended in `Ok`. */
  function Record(w: World, r: Round): World {
    w.(rounds := w.rounds + [r])
  }

  /** History only: notes the acknowledged envelopes of a cycle that ends in an error. */
  function RecordFailure(w: World, acks: seq<nat>): World {
    w.(orphaned := w.orphaned + (set a | a in acks))
  }

  // --- The provider object ---------------------------------------------------------------------

  class SorobanProvider {
    const env: Environment
    var world: World

    constructor (env: Environment, world: World)
      ensures this.env == env && this.world == world
    {
      this.env := env;
      this.world := world;
    }

    method NetworkPassphrase() returns (r: Result<string, RentkeeperError>)
      modifies this
      ensures (world, r) == GetNetwork(env, old(world))
    {
      var answer := GetNetwork(env, world);
      world, r := answer.0, answer.1;
    }

    method FetchAccount() returns (r: Result<int, RentkeeperError>)
      modifies this
      ensures (world, r) == GetAccount(env, old(world))
    {
      var answer := GetAccount(env, world);
      world, r := answer.0, answer.1;
    }

    method GetLedgerEntries(keys: seq<LedgerKey>) returns (r: Result<EntriesReply, RentkeeperError>)
      modifies this
      ensures r == EntriesAnswer(env, old(world), keys) && world == Step(env, old(world))
    {
      r := EntriesAnswer(env, world, keys);
      world := Step(env, world);
    }

    method SimulateEnvelope(e: TransactionEnvelope) returns (r: Result<SimulationResult, RentkeeperError>)
      modifies this
      ensures (world, r) == Simulate(env, old(world), e)
    {
      var answer := Simulate(env, world, e);
      world, r := answer.0, answer.1;
    }

    method Send(e: TransactionEnvelope) returns (r: Result<nat, RentkeeperError>)
      modifies this
      ensures (world, r) == SendTransaction(env, old(world), e)
    {
      var answer := SendTransaction(env, world, e);
      world, r := answer.0, answer.1;
    }

    /** Time passes without an RPC call: a sleep or a poll tick. */
    method Wait()
      modifies this
      ensures world == Step(env, old(world))
    {
      world := Step(env, world);
    }

    method NoteRound(r: Round)
      modifies this
      ensures world == Record(old(world), r)
    {
      world := Record(world, r);
    }

    method NoteFailure(acks: seq<nat>)
      modifies this
      ensures world == RecordFailure(old(world), acks)
    {
      world := RecordFailure(world, acks);
    }

    /** `observe_chunk`: one request and the rows it yields. */
    method ObserveOneChunk(codec: Codec, keys: seq<LedgerKey>) returns (r: Result<seq<Observation>, RentkeeperError>)
      requires codec.InjectiveHash()
      modifies this
      ensures world == Step(env, old(world))
      ensures r == ChunkRows(codec, keys, EntriesAnswer(env, old(world), keys))
    {
      var reply := GetLedgerEntries(keys);
      if reply.Err? {
        return Err(reply.error);
      }
      r := ObserveChunk(codec, keys, reply.value);
    }

    /** `observe_entries`: chunk after chunk until the keys run out or a request fails. */
    method Observe(codec: Codec, keys: seq<LedgerKey>) returns (r: Result<seq<Observation>, RentkeeperError>)
      requires codec.InjectiveHash()
      modifies this
      ensures world == ObserveEntries(env, old(world), codec, keys).0
      ensures r == ObserveEntries(env, old(world), codec, keys).1
    {
      hide EntriesAnswer, ChunkRows, Step, Chunks, Codec.InjectiveHash;
      ghost var start := world;
      var chunks := Chunks(keys, OBSERVE_BATCH_ENTRIES);
      var out := [];
      for c := 0 to |chunks|
        invariant ObserveChunks(env, start, codec, chunks, c) == (world, Ok(out))
      {
        var rows := ObserveOneChunk(codec, chunks[c]);
        if rows.Err? {
          NothingAfterFailure(env, start, codec, chunks, c + 1, |chunks|);
          return Err(rows.error);
        }
        out := out + rows.value;
      }
      r := Ok(out);
    }
  }
}
