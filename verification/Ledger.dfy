/** Ledger keys, durability and the encoders the keeper calls but does not define. */
module Ledger {
  import opened Basics

  type Bytes = seq<bv8>

  datatype ScVal = LedgerKeyContractInstance | OtherVal(xdr: string)

  datatype Durability = Temporary | Persistent
  {
    function Name(): string {
      match this
      case Temporary => "Temporary"
      case Persistent => "Persistent"
    }
  }

  datatype LedgerKey =
    | ContractData(contract: Bytes, key: ScVal, durability: Durability)
    | ContractCode(hash: Bytes)
    | ConfigSetting(id: nat)
    | TtlOf(keyHash: nat)

  /** Only contract data carries a durability class. */
  function DurabilityOf(key: LedgerKey): Option<Durability> {
    match key
    case ContractData(_, _, d) => Some(d)
    case _ => None
  }

  predicate IsTemporary(key: LedgerKey) {
    DurabilityOf(key) == Some(Temporary)
  }

  /**
   * The XDR and SHA-256 library calls on keys. `None` is an encoding or decoding error.
   * `keyHash` is the digest of the key's XDR.
   */
  datatype Codec = Codec(
    render: LedgerKey -> Option<string>,
    parse: string -> Option<LedgerKey>,
    keyHash: LedgerKey -> Option<nat>)
  {
    /** What the library promises: rendering can be parsed back, and digests do not collide. */
    ghost predicate Lawful() {
      && (forall k :: render(k).Some? ==> parse(render(k).value) == Some(k))
      && InjectiveHash()
    }

    /** Digests determine keys: hashing has a left inverse. */
    ghost predicate InjectiveHash() {
      exists unhash: nat -> LedgerKey :: LeftInverse(unhash)
    }

    ghost predicate LeftInverse(unhash: nat -> LedgerKey) {
      forall k :: keyHash(k).Some? ==> unhash(keyHash(k).value) == k
    }
  }
}
