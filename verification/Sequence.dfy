/** Fee-payer sequence tracking: one mutex-guarded cache shared by every clone of the tracker. */
module Sequence {
  import opened Basics
  import opened Provider
  import opened Network

  /** An error and whether its text contains one of the recognised bad-sequence markers. */
  datatype KeeperError = InvalidWatch(badSeq: bool) | Rpc(badSeq: bool) | Transaction(badSeq: bool)

  predicate IsBadSeqError(e: KeeperError) {
    e.badSeq
  }

  function RpcError(e: RentkeeperError): KeeperError {
    Rpc(e.RpcFailure? && e.badSeq)
  }

  /** Cache and ticket after one call, given what the account lookup would answer. */
  function NextTicket(cache: Option<int>, account: Option<int>): (Option<int>, Option<int>) {
    match cache
    case Some(n) => (Some(n + 1), Some(n + 1))
    case None =>
      match account
      case Some(n) => (Some(n + 1), Some(n + 1))
      case None => (None, None)
  }

  /** Network and tracker together; `requests` counts ticket requests and nothing reads it. */
  datatype Sys = Sys(world: World, cache: Option<int>, requests: nat)

  function TakeTicket(env: Environment, s: Sys): (Sys, Result<int, KeeperError>) {
    if s.cache.Some? then
      var next := NextTicket(s.cache, None);
      (Sys(s.world, next.0, s.requests + 1), Ok(next.1.value))
    else
      var (w, account) := GetAccount(env, s.world);
      match account
      case Err(e) => (Sys(w, None, s.requests + 1), Err(RpcError(e)))
      case Ok(n) =>
        var next := NextTicket(None, Some(n));
        (Sys(w, next.0, s.requests + 1), Ok(next.1.value))
  }

  function Report(s: Sys, e: KeeperError): Sys {
    if IsBadSeqError(e) then s.(cache := None) else s
  }

  class SequenceTracker {
    const provider: SorobanProvider
    var state: Option<int>
    ghost var requests: nat

    constructor (provider: SorobanProvider)
      ensures this.provider == provider && state == None && requests == 0
    {
      this.provider := provider;
      this.state := None;
      this.requests := 0;
    }

    ghost function System(): Sys
      reads this, provider
    {
      Sys(provider.world, state, requests)
    }

    method NextSequence() returns (r: Result<int, KeeperError>)
      modifies this, provider
      ensures System() == TakeTicket(provider.env, old(System())).0
      ensures r == TakeTicket(provider.env, old(System())).1
    {
      requests := requests + 1;
      match state {
        case Some(seq_) =>
          state := Some(seq_ + 1);
          r := Ok(seq_ + 1);
        case None =>
          var entry := provider.FetchAccount();
          if entry.Err? {
            return Err(RpcError(entry.error));
          }
          var next := entry.value + 1;
          state := Some(next);
          r := Ok(next);
      }
    }

    method ReportFailure(error: KeeperError) returns (invalidated: bool)
      modifies this
      ensures System() == Report(old(System()), error)
      ensures invalidated == error.badSeq
      ensures state == if error.badSeq then None else old(state)
    {
      if IsBadSeqError(error) {
        state := None;
        return true;
      }
      invalidated := false;
    }
  }

  // --- Any interleaving of concurrent callers ----------------------------------------------------

  /**
   * One critical section of the mutex. All clones of a tracker share the state behind it, and `next_sequence`
   * holds the lock across its account lookup, so concurrent callers appear as a sequence of whole operations in
   * whatever order the lock admits them; who calls makes no difference.
   */
  datatype TrackerOp = Next(account: Option<int>) | ReportTo(error: KeeperError)

  predicate EndsEpoch(op: TrackerOp) {
    op.ReportTo? && IsBadSeqError(op.error)
  }

  function CacheAfter(ops: seq<TrackerOp>, n: nat): Option<int>
    requires n <= |ops|
  {
    if n == 0 then None
    else match ops[n - 1]
      case Next(account) => NextTicket(CacheAfter(ops, n - 1), account).0
      case ReportTo(e) => if IsBadSeqError(e) then None else CacheAfter(ops, n - 1)
  }

  /** The ticket that operation `i` hands out, if it hands one out. */
  function TicketAt(ops: seq<TrackerOp>, i: nat): Option<int>
    requires i < |ops|
  {
    match ops[i]
    case Next(account) => NextTicket(CacheAfter(ops, i), account).1
    case ReportTo(_) => None
  }

  function CountNext(ops: seq<TrackerOp>, from: nat, n: nat): nat
    requires from <= n <= |ops|
  {
    if n == from then 0 else CountNext(ops, from, n - 1) + if ops[n - 1].Next? then 1 else 0
  }

  /** Operation `r` read the account; since then nobody has reported a bad sequence. */
  predicate RefreshOf(ops: seq<TrackerOp>, r: nat, n: nat)
    requires n <= |ops|
  {
    && r < n
    && ops[r].Next? && ops[r].account.Some?
    && CacheAfter(ops, r) == None
    && forall m :: r < m < n ==> !EndsEpoch(ops[m])
  }

  /** After a refresh that read a, the cache is a plus the number of tickets since, whoever took them. */
  lemma {:induction false} EpochArithmetic(ops: seq<TrackerOp>, r: nat, n: nat)
    requires n <= |ops| && RefreshOf(ops, r, n)
    ensures CacheAfter(ops, n) == Some(ops[r].account.value + CountNext(ops, r, n))
  {
    if n == r + 1 {
      assert CountNext(ops, r, n) == CountNext(ops, r, r) + 1;
    } else {
      EpochArithmetic(ops, r, n - 1);
    }
  }

  /** A non-empty cache always stems from some refresh. */
  lemma {:induction false} CacheStemsFromRefresh(ops: seq<TrackerOp>, n: nat) returns (r: nat)
    requires n <= |ops| && CacheAfter(ops, n).Some?
    ensures RefreshOf(ops, r, n)
  {
    if CacheAfter(ops, n - 1) == None {
      r := n - 1;
    } else {
      r := CacheStemsFromRefresh(ops, n - 1);
    }
  }

  /** The k-th ticket after a refresh that read a is a + k, for every ticket of every interleaving. */
  lemma TicketsAreNumbered(ops: seq<TrackerOp>, i: nat) returns (r: nat)
    requires i < |ops| && TicketAt(ops, i).Some?
    ensures RefreshOf(ops, r, i + 1)
    ensures TicketAt(ops, i) == Some(ops[r].account.value + CountNext(ops, r, i + 1))
  {
    r := CacheStemsFromRefresh(ops, i + 1);
    EpochArithmetic(ops, r, i + 1);
  }

  lemma {:induction false} CountNextSplit(ops: seq<TrackerOp>, from: nat, mid: nat, n: nat)
    requires from <= mid <= n <= |ops|
    ensures CountNext(ops, from, n) == CountNext(ops, from, mid) + CountNext(ops, mid, n)
  {
    if n == mid {
    } else {
      CountNextSplit(ops, from, mid, n - 1);
    }
  }

  /**
   * Two tickets with no bad-sequence report between them differ by exactly the number of tickets
   * taken from the one to the other: none is issued twice and none is skipped, whoever asked.
   */
  lemma TicketsDistinctAndGapFree(ops: seq<TrackerOp>, i: nat, j: nat)
    requires i < j < |ops| && TicketAt(ops, i).Some? && TicketAt(ops, j).Some?
    requires forall m :: i < m < j ==> !EndsEpoch(ops[m])
    ensures TicketAt(ops, j).value == TicketAt(ops, i).value + CountNext(ops, i + 1, j + 1)
    ensures TicketAt(ops, j).value > TicketAt(ops, i).value
  {
    var r := TicketsAreNumbered(ops, i);
    assert RefreshOf(ops, r, j + 1);
    EpochArithmetic(ops, r, j + 1);
    CountNextSplit(ops, r, i + 1, j + 1);
  }
}
