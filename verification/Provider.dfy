/** What the RPC provider makes of `getLedgerEntries` replies, chunk by chunk. */
module Provider {
  import opened Basics
  import opened Ledger
  import opened Ttl

  /** Errors of the core crate as far as the keeper can tell them apart. */
  datatype RentkeeperError = RpcFailure(badSeq: bool) | XdrFailure

  /** One reply row: its key if the payload decodes, and the attached expiry if there is one. */
  datatype RpcEntry = RpcEntry(key: Option<LedgerKey>, liveUntil: Option<nat>)

  datatype EntriesReply = EntriesReply(latestLedger: int, entries: Option<seq<RpcEntry>>)
  {
    function Rows(): seq<RpcEntry> {
      match entries
      case None => []
      case Some(es) => es
    }

    function Latest(): nat {
      ToU32OrZero(latestLedger)
    }

    /** Expiries are u32 on the wire. */
    predicate IsU32() {
      forall row :: row in Rows() && row.liveUntil.Some? ==> row.liveUntil.value <= U32_MAX
    }
  }

  datatype EntryState =
    | Live(ttl: EntryTtl)
    | ExpiredButPresent(info: ArchivedEntryInfo)
    | Archived(info: ArchivedEntryInfo)

  datatype Observation = Observation(currentLedger: nat, entry: EntryState)
  {
    function AsEntryTtl(): EntryTtl {
      match entry
      case Live(ttl) => ttl
      case ExpiredButPresent(info) => EntryTtl(info.currentLedger, None)
      case Archived(info) => EntryTtl(info.currentLedger, None)
    }

    predicate NeedsRestore() {
      entry.ExpiredButPresent? || entry.Archived?
    }
  }

  const OBSERVE_BATCH_ENTRIES: nat := 50

  /** The observation made of an expiry found (or not) at ledger `latest`; live means strictly later. */
  function Row(latest: nat, until: Option<nat>): Observation {
    match until
    case None => Observation(latest, Archived(ArchivedEntryInfo(latest, true)))
    case Some(u) =>
      if u > latest then Observation(latest, Live(EntryTtl(latest, Some(u))))
      else Observation(latest, ExpiredButPresent(ArchivedEntryInfo(latest, false)))
  }

  /** The expiry on the last reply row for `key` that carries one. */
  function LastMatch(rows: seq<RpcEntry>, key: LedgerKey): Option<nat> {
    if rows == [] then None
    else
      var last := rows[|rows| - 1];
      if last.key == Some(key) && last.liveUntil.Some? then last.liveUntil
      else LastMatch(rows[..|rows| - 1], key)
  }

  predicate Matches(row: RpcEntry, key: LedgerKey) {
    row.key == Some(key) && row.liveUntil.Some?
  }

  /** It is some matching row's expiry, and no later row matches. */
  lemma {:induction false} LastMatchIsLast(rows: seq<RpcEntry>, key: LedgerKey)
    ensures LastMatch(rows, key).None? <==> forall i :: 0 <= i < |rows| ==> !Matches(rows[i], key)
    ensures LastMatch(rows, key).Some? ==>
              exists i :: 0 <= i < |rows| && Matches(rows[i], key) && rows[i].liveUntil == LastMatch(rows, key)
                && forall j :: i < j < |rows| ==> !Matches(rows[j], key)
  {
    if rows == [] {
    } else {
      var last := |rows| - 1;
      LastMatchIsLast(rows[..last], key);
      if Matches(rows[last], key) {
        assert LastMatch(rows, key) == rows[last].liveUntil;
      } else if LastMatch(rows, key).Some? {
        var i :| 0 <= i < last && Matches(rows[..last][i], key) && rows[..last][i].liveUntil == LastMatch(rows, key)
                   && forall j :: i < j < last ==> !Matches(rows[..last][j], key);
        forall j | i < j < |rows| ensures !Matches(rows[j], key) {
          assert j < last ==> rows[j] == rows[..last][j];
        }
        assert Matches(rows[i], key);
      }
    }
  }

  predicate Hashable(codec: Codec, keys: seq<LedgerKey>) {
    forall i :: 0 <= i < |keys| ==> codec.keyHash(keys[i]).Some?
  }

  predicate Readable(codec: Codec, rows: seq<RpcEntry>) {
    forall i :: 0 <= i < |rows| ==> rows[i].key.Some? && codec.keyHash(rows[i].key.value).Some?
  }

  /** Pointwise specification of one chunk: look every requested key up in the reply by itself. */
  function ObserveReply(codec: Codec, keys: seq<LedgerKey>, reply: EntriesReply)
    : Result<seq<Observation>, RentkeeperError>
  {
    if Readable(codec, reply.Rows()) && Hashable(codec, keys)
    then Ok(Table(reply.Latest(), k => LastMatch(reply.Rows(), k), keys))
    else Err(XdrFailure)
  }

  /** One row per key, each looked up by itself in the same ledger's expiries. */
  function Table(latest: nat, expiry: LedgerKey -> Option<nat>, keys: seq<LedgerKey>): (t: seq<Observation>)
    ensures |t| == |keys|
    ensures forall i :: 0 <= i < |keys| ==> t[i] == Row(latest, expiry(keys[i]))
  {
    seq(|keys|, i requires 0 <= i < |keys| => Row(latest, expiry(keys[i])))
  }

  /** `row` is the last of the reply's rows for `key` that carries an expiry. */
  ghost predicate LastRowFor(reply: EntriesReply, key: LedgerKey, row: RpcEntry) {
    exists j :: 0 <= j < |reply.Rows()| && reply.Rows()[j] == row && Matches(row, key)
      && forall l :: j < l < |reply.Rows()| ==> !Matches(reply.Rows()[l], key)
  }

  /**
   * What one reply says about key `i`: the ledger is the reply's, or 0 when that is no u32. With an expiry beyond it
   * the entry is live, with an earlier or equal one it has expired but is still there, without one it is archived; only
   * the last of these three carries the archived flag, and only the first shows an expiry.
   */
  lemma ReplyStates(codec: Codec, keys: seq<LedgerKey>, reply: EntriesReply, i: nat)
    requires i < |keys| && ObserveReply(codec, keys, reply).Ok?
    ensures |ObserveReply(codec, keys, reply).value| == |keys|
    ensures var o := ObserveReply(codec, keys, reply).value[i];
            var at := if 0 <= reply.latestLedger <= 0xFFFF_FFFF then reply.latestLedger else 0;
            && o.currentLedger == at
            && (forall row :: LastRowFor(reply, keys[i], row) ==>
                  o.entry == if row.liveUntil.value > at then Live(EntryTtl(at, row.liveUntil))
                             else ExpiredButPresent(ArchivedEntryInfo(at, false)))
            && ((exists row :: LastRowFor(reply, keys[i], row)) <==> !o.entry.Archived?)
            && (o.entry.Archived? ==> o.entry.info == ArchivedEntryInfo(at, true))
            && (o.NeedsRestore() <==> !o.entry.Live?)
            && o.AsEntryTtl() == (if o.entry.Live? then o.entry.ttl else EntryTtl(at, None))
  {
    LastMatchIsLast(reply.Rows(), keys[i]);
    if LastMatch(reply.Rows(), keys[i]).Some? {
      var j :| 0 <= j < |reply.Rows()| && Matches(reply.Rows()[j], keys[i])
               && reply.Rows()[j].liveUntil == LastMatch(reply.Rows(), keys[i])
               && forall l :: j < l < |reply.Rows()| ==> !Matches(reply.Rows()[l], keys[i]);
      assert LastRowFor(reply, keys[i], reply.Rows()[j]);
      forall row | LastRowFor(reply, keys[i], row) ensures row == reply.Rows()[j] {
        var l :| 0 <= l < |reply.Rows()| && reply.Rows()[l] == row && Matches(row, keys[i])
                 && forall k :: l < k < |reply.Rows()| ==> !Matches(reply.Rows()[k], keys[i]);
        assert !(l < j) && !(j < l);
      }
    }
  }

  /** A reply is refused exactly for a row or a requested key that cannot be decoded or hashed. */
  lemma RefusedReplies(codec: Codec, keys: seq<LedgerKey>, reply: EntriesReply)
    ensures var r := ObserveReply(codec, keys, reply);
            && (r.Err? ==> r.error == XdrFailure)
            && (r.Err? <==>
                  || (exists k :: k in keys && codec.keyHash(k).None?)
                  || exists row :: row in reply.Rows() && (row.key.None? || codec.keyHash(row.key.value).None?))
  {
    if !Hashable(codec, keys) {
      var i :| 0 <= i < |keys| && codec.keyHash(keys[i]).None?;
      assert keys[i] in keys;
    } else if !Readable(codec, reply.Rows()) {
      var i :| 0 <= i < |reply.Rows()|
               && (reply.Rows()[i].key.None? || codec.keyHash(reply.Rows()[i].key.value).None?);
      assert reply.Rows()[i] in reply.Rows();
    }
  }

  /** The hash-indexed loops of `observe_chunk` compute the pointwise lookup. */
  method ObserveChunk(codec: Codec, keys: seq<LedgerKey>, reply: EntriesReply)
    returns (r: Result<seq<Observation>, RentkeeperError>)
    requires codec.InjectiveHash()
    ensures r == ObserveReply(codec, keys, reply)
  {
    var latest := ToU32OrZero(reply.latestLedger);
    var rows := if reply.entries.Some? then reply.entries.value else [];
    var liveUntil: map<nat, nat> := map[];
    for i := 0 to |rows|
      invariant Readable(codec, rows[..i])
      invariant forall k :: codec.keyHash(k).Some? ==>
                  LastMatch(rows[..i], k) == Get(liveUntil, codec.keyHash(k).value)
    {
      assert rows[..i + 1][..i] == rows[..i];
      if rows[i].key.None? {
        return Err(XdrFailure);
      }
      var keyHash := codec.keyHash(rows[i].key.value);
      if keyHash.None? {
        return Err(XdrFailure);
      }
      if rows[i].liveUntil.Some? {
        liveUntil := liveUntil[keyHash.value := rows[i].liveUntil.value];
      }
    }
    assert rows[..|rows|] == rows;

    var out := [];
    for i := 0 to |keys|
      invariant Hashable(codec, keys[..i])
      invariant |out| == i && forall j :: 0 <= j < i ==> out[j] == Row(latest, LastMatch(rows, keys[j]))
    {
      var hashed := codec.keyHash(keys[i]);
      if hashed.None? {
        return Err(XdrFailure);
      }
      if hashed.value in liveUntil {
        var until := liveUntil[hashed.value];
        if until > latest {
          out := out + [Observation(latest, Live(EntryTtl(latest, Some(until))))];
        } else {
          out := out + [Observation(latest, ExpiredButPresent(ArchivedEntryInfo(latest, false)))];
        }
      } else {
        out := out + [Observation(latest, Archived(ArchivedEntryInfo(latest, true)))];
      }
    }
    assert keys[..|keys|] == keys;
    assert out == Table(latest, k => LastMatch(rows, k), keys);
    r := Ok(out);
  }

  function Get(m: map<nat, nat>, k: nat): Option<nat> {
    if k in m then Some(m[k]) else None
  }

  // --- Chunking --------------------------------------------------------------------------------

  type Chunk = seq<LedgerKey>

  /** `slice::chunks(size)`. */
  function Chunks(keys: seq<LedgerKey>, size: nat): seq<Chunk>
    requires size > 0
  {
    if keys == [] then []
    else
      var n := Min(size, |keys|);
      [keys[..n]] + Chunks(keys[n..], size)
  }

  /** The keys of the first `n` chunks. */
  function Flat(chunks: seq<Chunk>, n: nat): seq<LedgerKey>
    requires n <= |chunks|
  {
    if n == 0 then [] else Flat(chunks, n - 1) + chunks[n - 1]
  }

  /** How the node answers the request for chunk number `c`. */
  type Replies = (nat, Chunk) -> Result<EntriesReply, RentkeeperError>

  /** What one chunk's request yields. */
  function ChunkRows(codec: Codec, keys: Chunk, reply: Result<EntriesReply, RentkeeperError>)
    : Result<seq<Observation>, RentkeeperError>
  {
    match reply
    case Err(e) => Err(e)
    case Ok(r) => ObserveReply(codec, keys, r)
  }

  /** Rows after the first `n` chunks, or the first error. */
  function ObserveUpTo(codec: Codec, chunks: seq<Chunk>, replies: Replies, n: nat)
    : Result<seq<Observation>, RentkeeperError>
    requires n <= |chunks|
  {
    if n == 0 then Ok([])
    else match ObserveUpTo(codec, chunks, replies, n - 1)
      case Err(e) => Err(e)
      case Ok(done) =>
        match ChunkRows(codec, chunks[n - 1], replies(n - 1, chunks[n - 1]))
        case Err(e) => Err(e)
        case Ok(rows) => Ok(done + rows)
  }

  /** How many requests that takes, counting the one that fails. */
  function RequestsSent(codec: Codec, chunks: seq<Chunk>, replies: Replies, n: nat): (sent: nat)
    requires n <= |chunks|
    ensures sent <= n
  {
    if n == 0 then 0
    else if ObserveUpTo(codec, chunks, replies, n - 1).Err? then RequestsSent(codec, chunks, replies, n - 1)
    else n
  }

  predicate Answered(codec: Codec, keys: Chunk, reply: Result<EntriesReply, RentkeeperError>) {
    reply.Ok? && Readable(codec, reply.value.Rows()) && Hashable(codec, keys)
  }

  /**
   * Observation fails for transport and decoding errors only. The chunks' ledgers play no part: the
   * documented rejection of chunks that drift apart is not in the code.
   */
  lemma {:induction false} ObservationSucceedsIff(codec: Codec, chunks: seq<Chunk>, replies: Replies, n: nat)
    requires n <= |chunks|
    ensures ObserveUpTo(codec, chunks, replies, n).Ok? <==>
            forall c :: 0 <= c < n ==> Answered(codec, chunks[c], replies(c, chunks[c]))
  {
    hide Readable, Hashable;
    if n == 0 {
    } else {
      ObservationSucceedsIff(codec, chunks, replies, n - 1);
    }
  }

  /** Nothing is requested after a failure. */
  lemma {:induction false} FailureSticks(codec: Codec, chunks: seq<Chunk>, replies: Replies, m: nat, n: nat)
    requires m <= n <= |chunks|
    requires ObserveUpTo(codec, chunks, replies, m).Err?
    ensures ObserveUpTo(codec, chunks, replies, n) == ObserveUpTo(codec, chunks, replies, m)
    ensures RequestsSent(codec, chunks, replies, n) == RequestsSent(codec, chunks, replies, m)
  {
    if m == n {
    } else {
      FailureSticks(codec, chunks, replies, m, n - 1);
    }
  }

  /** Chunking loses, repeats and reorders nothing, and only the last chunk may be short. */
  lemma {:induction false} ChunksPartition(keys: seq<LedgerKey>, size: nat)
    requires size > 0
    ensures var cs := Chunks(keys, size);
            && Flat(cs, |cs|) == keys
            && (forall i :: 0 <= i < |cs| ==> 1 <= |cs[i]| <= size)
            && (forall i :: 0 <= i < |cs| - 1 ==> |cs[i]| == size)
    decreases |keys|
  {
    if keys == [] {
    } else {
      var n := Min(size, |keys|);
      ChunksPartition(keys[n..], size);
      var cs, rest := Chunks(keys, size), Chunks(keys[n..], size);
      FlatCons(keys[..n], rest, |rest|);
      assert cs == [keys[..n]] + rest;
      assert keys == keys[..n] + keys[n..];
      forall i | 0 <= i < |cs| ensures 1 <= |cs[i]| <= size && (i < |cs| - 1 ==> |cs[i]| == size) {
        if i > 0 {
          assert cs[i] == rest[i - 1];
        }
      }
    }
  }

  lemma {:induction false} FlatCons(first: Chunk, rest: seq<Chunk>, n: nat)
    requires n <= |rest|
    ensures Flat([first] + rest, n + 1) == first + Flat(rest, n)
  {
    var all := [first] + rest;
    if n == 0 {
      assert Flat(all, 1) == Flat(all, 0) + all[0];
    } else {
      FlatCons(first, rest, n - 1);
      assert Flat(all, n + 1) == Flat(all, n) + all[n];
      assert all[n] == rest[n - 1];
      assert Flat(rest, n) == Flat(rest, n - 1) + rest[n - 1];
    }
  }

  /** The chunk that key position `i` falls into. */
  function ChunkIndex(chunks: seq<Chunk>, n: nat, i: nat): (c: nat)
    requires n <= |chunks| && i < |Flat(chunks, n)|
    ensures c < n
  {
    if i >= |Flat(chunks, n - 1)| then n - 1 else ChunkIndex(chunks, n - 1, i)
  }

  /** One row per key in input order; row i is the last match for key i in the reply to its own chunk. */
  lemma {:induction false} RowsFollowKeys(codec: Codec, chunks: seq<Chunk>, replies: Replies, n: nat)
    requires n <= |chunks|
    requires ObserveUpTo(codec, chunks, replies, n).Ok?
    ensures var rows, keys := ObserveUpTo(codec, chunks, replies, n).value, Flat(chunks, n);
            && |rows| == |keys|
            && forall i :: 0 <= i < |keys| ==>
                 var c := ChunkIndex(chunks, n, i);
                 && keys[i] in chunks[c]
                 && replies(c, chunks[c]).Ok?
                 && rows[i] == Row(replies(c, chunks[c]).value.Latest(),
                                   LastMatch(replies(c, chunks[c]).value.Rows(), keys[i]))
  {
    if n == 0 {
    } else {
      RowsFollowKeys(codec, chunks, replies, n - 1);
    }
  }

  /** Every reply shows the same ledger and, for the keys asked about, the same expiries. */
  ghost predicate OneSnapshot(codec: Codec, replies: Replies, latest: nat, expiry: LedgerKey -> Option<nat>) {
    forall c, ks :: Hashable(codec, ks) ==>
      && replies(c, ks).Ok?
      && replies(c, ks).value.Latest() == latest
      && Readable(codec, replies(c, ks).value.Rows())
      && forall k :: k in ks ==> LastMatch(replies(c, ks).value.Rows(), k) == expiry(k)
  }

  lemma SnapshotChunk(codec: Codec, chunk: Chunk, c: nat, replies: Replies, latest: nat,
        expiry: LedgerKey -> Option<nat>)
    requires Hashable(codec, chunk) && OneSnapshot(codec, replies, latest, expiry)
    ensures ChunkRows(codec, chunk, replies(c, chunk)) == Ok(Table(latest, expiry, chunk))
  {
    hide Hashable, Readable, LastMatch;
    var reply := replies(c, chunk).value;
    assert forall i :: 0 <= i < |chunk| ==> chunk[i] in chunk;
    assert Table(latest, k => LastMatch(reply.Rows(), k), chunk) == Table(latest, expiry, chunk);
  }

  lemma {:induction false} SnapshotRows(codec: Codec, chunks: seq<Chunk>, replies: Replies, n: nat, latest: nat,
        expiry: LedgerKey -> Option<nat>)
    requires n <= |chunks| && Hashable(codec, Flat(chunks, n))
    requires OneSnapshot(codec, replies, latest, expiry)
    ensures ObserveUpTo(codec, chunks, replies, n) == Ok(Table(latest, expiry, Flat(chunks, n)))
  {
    hide OneSnapshot, ChunkRows;
    if n == 0 {
    } else {
      var before, chunk := Flat(chunks, n - 1), chunks[n - 1];
      assert Hashable(codec, before) by {
        assert forall i :: 0 <= i < |before| ==> before[i] == Flat(chunks, n)[i];
      }
      assert Hashable(codec, chunk) by {
        assert forall i :: 0 <= i < |chunk| ==> chunk[i] == Flat(chunks, n)[|before| + i];
      }
      SnapshotRows(codec, chunks, replies, n - 1, latest, expiry);
      SnapshotChunk(codec, chunk, n - 1, replies, latest, expiry);
      assert Table(latest, expiry, before + chunk) == Table(latest, expiry, before) + Table(latest, expiry, chunk);
    }
  }

  /** `observe_entries` on all keys at once, `size` keys a request. */
  function ObserveAll(codec: Codec, keys: seq<LedgerKey>, size: nat, replies: Replies)
    : Result<seq<Observation>, RentkeeperError>
    requires size > 0
  {
    ObserveUpTo(codec, Chunks(keys, size), replies, |Chunks(keys, size)|)
  }

  /** Under one snapshot the chunk size does not show: any two sizes yield the same pointwise table. */
  lemma SnapshotHidesChunking(codec: Codec, keys: seq<LedgerKey>, size: nat, other: nat, replies: Replies,
        latest: nat, expiry: LedgerKey -> Option<nat>)
    requires size > 0 && other > 0 && Hashable(codec, keys)
    requires OneSnapshot(codec, replies, latest, expiry)
    ensures ObserveAll(codec, keys, size, replies) == Ok(Table(latest, expiry, keys))
    ensures ObserveAll(codec, keys, size, replies) == ObserveAll(codec, keys, other, replies)
  {
    ChunksPartition(keys, size);
    ChunksPartition(keys, other);
    SnapshotRows(codec, Chunks(keys, size), replies, |Chunks(keys, size)|, latest, expiry);
    SnapshotRows(codec, Chunks(keys, other), replies, |Chunks(keys, other)|, latest, expiry);
  }
}
