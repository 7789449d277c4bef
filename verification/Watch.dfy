/** Watch rules: their validation, their resolution into ledger keys, and the hex decoders involved. */
module Watch {
  import opened Basics
  import opened Ledger

  // --- Hex -------------------------------------------------------------------------------------

  /** What decoding a hash text ends in; `OutOfBounds` is the panic of a write past the 32-byte buffer. */
  datatype HexOutcome = Decoded(hash: Bytes) | BadHex | OutOfBounds

  function HexVal(c: bv8): Option<bv8> {
    if 48 <= c <= 57 then Some(c - 48)
    else if 97 <= c <= 102 then Some(c - 97 + 10)
    else if 65 <= c <= 70 then Some(c - 65 + 10)
    else None
  }

  function High(b: bv8): bv8 {
    b >> 4
  }

  function Low(b: bv8): bv8 {
    b & 15
  }

  function Join(hi: bv8, lo: bv8): bv8 {
    (hi << 4) | lo
  }

  predicate IsAsciiHexDigit(c: bv8) {
    48 <= c <= 57 || 65 <= c <= 70 || 97 <= c <= 102
  }

  /** `strip_prefix("0x")`, or the text itself. */
  function Stripped(s: Bytes): Bytes {
    if |s| >= 2 && s[0] == 48 && s[1] == 120 then s[2..] else s
  }

  function ChunkCount(s: Bytes): nat {
    (|s| + 1) / 2
  }

  /** The byte that two-digit chunk `i` stands for; a lone last digit stands for nothing. */
  function Pair(s: Bytes, i: nat): Option<bv8>
    requires i < ChunkCount(s)
  {
    var hi := HexVal(s[2 * i]);
    var lo := if 2 * i + 1 < |s| then HexVal(s[2 * i + 1]) else None;
    if hi.Some? && lo.Some? then Some(Join(hi.value, lo.value)) else None
  }

  /** Decoding from chunk `i` on, over a buffer that holds the earlier bytes. */
  function DecodeFrom(s: Bytes, i: nat, out: Bytes): HexOutcome
    requires i <= ChunkCount(s) && |out| == 32
    decreases ChunkCount(s) - i
  {
    if i == ChunkCount(s) then Decoded(out)
    else match Pair(s, i)
      case None => BadHex
      case Some(b) => if i >= 32 then OutOfBounds else DecodeFrom(s, i + 1, out[i := b])
  }

  function Zeros(): (z: Bytes)
    ensures |z| == 32
  {
    seq(32, _ => 0)
  }

  /** The daemon's decoder: no length check. */
  function DaemonHash(text: Bytes): HexOutcome {
    DecodeFrom(Stripped(text), 0, Zeros())
  }

  /** The CLI's decoder: exactly 64 digits. */
  function CliHash(text: Bytes): HexOutcome {
    if |Stripped(text)| != 64 then BadHex else DecodeFrom(Stripped(text), 0, Zeros())
  }

  method WasmHashBytes(text: Bytes) returns (r: HexOutcome)
    ensures r == DaemonHash(text)
  {
    var stripped := Stripped(text);
    var out := new bv8[32](_ => 0);
    assert out[..] == Zeros();
    for i := 0 to ChunkCount(stripped)
      invariant i <= 32
      invariant DaemonHash(text) == DecodeFrom(stripped, i, out[..])
    {
      var hi := HexVal(stripped[2 * i]);
      if hi.None? {
        return BadHex;
      }
      var lo := if 2 * i + 1 < |stripped| then HexVal(stripped[2 * i + 1]) else None;
      if lo.None? {
        return BadHex;
      }
      if i >= out.Length {
        return OutOfBounds;
      }
      ghost var was := out[..];
      out[i] := Join(hi.value, lo.value);
      assert out[..] == was[i := Join(hi.value, lo.value)];
    }
    r := Decoded(out[..]);
  }

  predicate ValidHexHash(text: Bytes) {
    |Stripped(text)| == 64 && forall i :: 0 <= i < 64 ==> IsAsciiHexDigit(Stripped(text)[i])
  }

  /** Exactly which texts decode, fail, and write out of bounds; short texts are zero-padded. */
  lemma {:induction false} DecodeFromOutcome(s: Bytes, i: nat, out: Bytes)
    requires i <= ChunkCount(s) && |out| == 32 && i <= 32
    ensures DecodeFrom(s, i, out).OutOfBounds? <==>
              ChunkCount(s) > 32 && forall j :: i <= j <= 32 ==> Pair(s, j).Some?
    ensures DecodeFrom(s, i, out).Decoded? <==>
              ChunkCount(s) <= 32 && forall j :: i <= j < ChunkCount(s) ==> Pair(s, j).Some?
    ensures DecodeFrom(s, i, out).Decoded? ==>
              var h := DecodeFrom(s, i, out).hash;
              |h| == 32 && forall j :: 0 <= j < 32 ==>
                h[j] == if i <= j < ChunkCount(s) then Pair(s, j).value else out[j]
    decreases ChunkCount(s) - i
  {
    if i == ChunkCount(s) || i == 32 || Pair(s, i).None? {
    } else {
      DecodeFromOutcome(s, i + 1, out[i := Pair(s, i).value]);
    }
  }

  lemma DaemonHashOutcome(text: Bytes)
    ensures var s := Stripped(text);
            && (DaemonHash(text).OutOfBounds? <==> |s| > 64 && forall j :: 0 <= j <= 32 ==> Pair(s, j).Some?)
            && (DaemonHash(text).Decoded? <==> |s| <= 64 && forall j :: 0 <= j < ChunkCount(s) ==> Pair(s, j).Some?)
            && (DaemonHash(text) == CliHash(text) <==> |s| == 64 || DaemonHash(text).BadHex?)
  {
    DecodeFromOutcome(Stripped(text), 0, Zeros());
  }

  /** Validation accepts exactly what the CLI decodes, and there the daemon agrees with the CLI. */
  lemma ValidatedHashDecodes(text: Bytes)
    ensures ValidHexHash(text) <==> CliHash(text).Decoded?
    ensures ValidHexHash(text) ==> DaemonHash(text) == CliHash(text)
  {
    var s := Stripped(text);
    DecodeFromOutcome(s, 0, Zeros());
    if |s| == 64 {
      forall i | 0 <= i < 64 ensures HexVal(s[i]).Some? <==> IsAsciiHexDigit(s[i]) {
      }
      if CliHash(text).Decoded? {
        forall i | 0 <= i < 64 ensures IsAsciiHexDigit(s[i]) {
          assert Pair(s, i / 2).Some?;
        }
      }
    }
  }

  /** One hex digit; letters may be upper or lower case. */
  function HexDigit(nibble: bv8, upper: bool): bv8
  {
    if nibble < 10 then 48 + nibble else if upper then 65 + (nibble - 10) else 97 + (nibble - 10)
  }

  /** Base 16 encoding (section 8 of RFC 4648), the case of each digit chosen freely. */
  function HexEncode(hash: Bytes, upper: nat -> bool): (text: Bytes)
    ensures |text| == 2 * |hash|
  {
    seq(2 * |hash|, k requires 0 <= k < 2 * |hash| =>
      HexDigit(if k % 2 == 0 then High(hash[k / 2]) else Low(hash[k / 2]), upper(k)))
  }

  function HexText(prefix: bool, hash: Bytes, upper: nat -> bool): Bytes {
    (if prefix then [48, 120] else []) + HexEncode(hash, upper)
  }

  lemma ByteRoundTrip(b: bv8, u: bool, v: bool)
    ensures High(b) < 16 && Low(b) < 16
    ensures HexVal(HexDigit(High(b), u)) == Some(High(b))
    ensures HexVal(HexDigit(Low(b), v)) == Some(Low(b))
    ensures Join(High(b), Low(b)) == b
  {
  }

  lemma EncodedPair(hash: Bytes, upper: nat -> bool, j: nat)
    requires j < |hash|
    ensures ChunkCount(HexEncode(hash, upper)) == |hash|
    ensures Pair(HexEncode(hash, upper), j) == Some(hash[j])
  {
    var s := HexEncode(hash, upper);
    ByteRoundTrip(hash[j], upper(2 * j), upper(2 * j + 1));
    assert s[2 * j] == HexDigit(High(hash[j]), upper(2 * j));
    assert s[2 * j + 1] == HexDigit(Low(hash[j]), upper(2 * j + 1));
  }

  lemma StripEncoded(prefix: bool, hash: Bytes, upper: nat -> bool)
    ensures Stripped(HexText(prefix, hash, upper)) == HexEncode(hash, upper)
  {
    var s := HexEncode(hash, upper);
    if prefix {
      assert ([48, 120] + s)[2..] == s;
    } else if hash == [] {
      assert [] + s == s;
    } else {
      assert [] + s == s;
      ByteRoundTrip(hash[0], upper(0), upper(1));
      assert s[1] == HexDigit(Low(hash[0]), upper(1));
      assert HexVal(120) == None;
    }
  }

  /** A hash followed by as many zeros as make 32 bytes. */
  function Padded(hash: Bytes): Bytes
    requires |hash| <= 32
  {
    hash + Zeros()[|hash|..]
  }

  /** The daemon decodes the text of up to 32 bytes, in any letter case, with or without prefix, padding with zeros. */
  lemma DecodesEncoded(prefix: bool, hash: Bytes, upper: nat -> bool)
    requires |hash| <= 32
    ensures DaemonHash(HexText(prefix, hash, upper)) == Decoded(Padded(hash))
  {
    var s := HexEncode(hash, upper);
    StripEncoded(prefix, hash, upper);
    forall j | 0 <= j < |hash| ensures Pair(s, j) == Some(hash[j]) {
      EncodedPair(hash, upper, j);
    }
    DecodeFromOutcome(s, 0, Zeros());
    assert DecodeFrom(s, 0, Zeros()).hash == Padded(hash);
  }

  /** Decoding inverts encoding for every 32-byte hash, any letter case, with or without the prefix. */
  lemma HexRoundTrip(prefix: bool, hash: Bytes, upper: nat -> bool)
    requires |hash| == 32
    ensures var text := HexText(prefix, hash, upper);
            ValidHexHash(text) && DaemonHash(text) == CliHash(text) == Decoded(hash)
  {
    DecodesEncoded(prefix, hash, upper);
    StripEncoded(prefix, hash, upper);
    assert Padded(hash) == hash;
    ValidatedHashDecodes(HexText(prefix, hash, upper));
  }

  lemma DigitRoundTrip(c: bv8, d: bv8)
    requires HexVal(c).Some? && HexVal(d).Some?
    ensures HexDigit(HexVal(c).value, 65 <= c <= 70) == c && HexDigit(HexVal(d).value, 65 <= d <= 70) == d
    ensures var b := Join(HexVal(c).value, HexVal(d).value); High(b) == HexVal(c).value && Low(b) == HexVal(d).value
  {
  }

  /** The bytes that the digits of `s` stand for. */
  function BytesOf(s: Bytes): (hash: Bytes)
    ensures |hash| == ChunkCount(s)
  {
    seq(ChunkCount(s), j requires 0 <= j < ChunkCount(s) => if Pair(s, j).Some? then Pair(s, j).value else 0)
  }

  /** Which digits of `s` are upper-case letters. */
  function CaseOf(s: Bytes): nat -> bool {
    (k: nat) => k < |s| && 65 <= s[k] <= 70
  }

  lemma ReencodedDigits(s: Bytes, j: nat)
    requires j < ChunkCount(s) && Pair(s, j).Some?
    ensures 2 * j + 1 < |s|
    ensures HexEncode(BytesOf(s), CaseOf(s))[2 * j] == s[2 * j]
    ensures HexEncode(BytesOf(s), CaseOf(s))[2 * j + 1] == s[2 * j + 1]
  {
    hide HexVal, HexDigit, High, Low, Join;
    DigitRoundTrip(s[2 * j], s[2 * j + 1]);
    assert (2 * j + 1) / 2 == j;
  }

  /** And encoding inverts decoding: whatever the daemon decodes is the text of up to 32 bytes. */
  lemma DecodedIsText(text: Bytes) returns (prefix: bool, hash: Bytes, upper: nat -> bool)
    requires DaemonHash(text).Decoded?
    ensures |hash| <= 32 && text == HexText(prefix, hash, upper)
    ensures ValidHexHash(text) ==> |hash| == 32
  {
    hide HexEncode, BytesOf, CaseOf, DaemonHash, Pair;
    var s := Stripped(text);
    DaemonHashOutcome(text);
    prefix, hash, upper := |s| < |text|, BytesOf(s), CaseOf(s);
    ReencodedText(s);
    if prefix {
      assert text == [48, 120] + s;
    } else {
      assert text == [] + s;
    }
  }

  lemma ReencodedText(s: Bytes)
    requires forall j :: 0 <= j < ChunkCount(s) ==> Pair(s, j).Some?
    ensures HexEncode(BytesOf(s), CaseOf(s)) == s
  {
    hide Pair;
    var encoded := HexEncode(BytesOf(s), CaseOf(s));
    hide HexEncode, CaseOf;
    if s != [] {
      ReencodedDigits(s, ChunkCount(s) - 1);
    }
    forall k | 0 <= k < |s| ensures encoded[k] == s[k] {
      ReencodedDigits(s, k / 2);
      assert k == 2 * (k / 2) || k == 2 * (k / 2) + 1;
    }
  }

  // --- Watch rules -----------------------------------------------------------------------------

  datatype Strkey = Contract(bytes: Bytes) | OtherStrkey

  /** The strkey and `ScVal` parsers of the libraries; `None` is a parse error. */
  datatype Parsers = Parsers(strkey: string -> Option<Strkey>, scval: string -> Option<ScVal>)

  datatype WatchSpec =
    | Instance(contractId: string)
    | DataKey(contractId: string, keyXdr: string, durability: string)
    | ContractCodeHash(wasmHash: Bytes)

  predicate ValidContract(p: Parsers, id: string) {
    p.strkey(id).Some? && p.strkey(id).value.Contract?
  }

  predicate ValidSpec(p: Parsers, spec: WatchSpec) {
    match spec
    case Instance(id) => ValidContract(p, id)
    case DataKey(id, xdr, durability) =>
      ValidContract(p, id) && durability in {"persistent", "temporary"} && p.scval(xdr).Some?
    case ContractCodeHash(h) => ValidHexHash(h)
  }

  datatype SpecOutcome = KeyOf(key: LedgerKey) | InvalidSpec | Panics

  /** The key one rule stands for. */
  function ResolveSpec(p: Parsers, spec: WatchSpec): SpecOutcome {
    match spec
    case Instance(id) =>
      if ValidContract(p, id)
      then KeyOf(ContractData(p.strkey(id).value.bytes, LedgerKeyContractInstance, Persistent))
      else InvalidSpec
    case DataKey(id, xdr, durability) =>
      if !ValidContract(p, id) || p.scval(xdr).None? then InvalidSpec
      else if durability == "persistent" then
        KeyOf(ContractData(p.strkey(id).value.bytes, p.scval(xdr).value, Persistent))
      else if durability == "temporary" then
        KeyOf(ContractData(p.strkey(id).value.bytes, p.scval(xdr).value, Temporary))
      else InvalidSpec
    case ContractCodeHash(h) =>
      match DaemonHash(h)
      case Decoded(bytes) => KeyOf(ContractCode(bytes))
      case BadHex => InvalidSpec
      case OutOfBounds => Panics
  }

  /**
   * Which rules resolve: the valid ones, and hashes too short to be valid, which are padded with zeros.
   * Only a hash with more than 32 good bytes makes resolution panic.
   */
  lemma ResolvesIff(p: Parsers, spec: WatchSpec)
    ensures ResolveSpec(p, spec).KeyOf? <==>
              || ValidSpec(p, spec)
              || (spec.ContractCodeHash? && |Stripped(spec.wasmHash)| < 64 && DaemonHash(spec.wasmHash).Decoded?)
    ensures ResolveSpec(p, spec).Panics? <==>
              && spec.ContractCodeHash? && |Stripped(spec.wasmHash)| > 64
              && forall j :: 0 <= j <= 32 ==> Pair(Stripped(spec.wasmHash), j).Some?
  {
    if spec.ContractCodeHash? {
      DaemonHashOutcome(spec.wasmHash);
      DecodeFromOutcome(Stripped(spec.wasmHash), 0, Zeros());
      ValidatedHashDecodes(spec.wasmHash);
    }
  }

  function DurabilityText(d: Durability): string {
    match d
    case Persistent => "persistent"
    case Temporary => "temporary"
  }

  /**
   * What a rule asks for, said without any decoding: the contract's instance entry, the entry under the given key in
   * the given class, or the code whose hash the text spells (the bytes of a text that is too short padded with zeros).
   */
  ghost predicate Names(p: Parsers, spec: WatchSpec, k: LedgerKey) {
    match spec
    case Instance(id) =>
      k.ContractData? && p.strkey(id) == Some(Contract(k.contract)) && k.key == LedgerKeyContractInstance
      && k.durability == Persistent
    case DataKey(id, xdr, durability) =>
      k.ContractData? && p.strkey(id) == Some(Contract(k.contract)) && p.scval(xdr) == Some(k.key)
      && durability == DurabilityText(k.durability)
    case ContractCodeHash(text) => exists prefix, hash, upper :: Spells(text, k, prefix, hash, upper)
  }

  ghost predicate Spells(text: Bytes, k: LedgerKey, prefix: bool, hash: Bytes, upper: nat -> bool) {
    |hash| <= 32 && text == HexText(prefix, hash, upper) && k == ContractCode(Padded(hash))
  }

  /** A rule resolves to exactly the key it names. */
  lemma ResolvesToNamed(p: Parsers, spec: WatchSpec, k: LedgerKey)
    ensures ResolveSpec(p, spec) == KeyOf(k) <==> Names(p, spec, k)
  {
    hide DaemonHash, HexText, Padded;
    if spec.ContractCodeHash? {
      var text := spec.wasmHash;
      if ResolveSpec(p, spec) == KeyOf(k) {
        var prefix, hash, upper := DecodedIsText(text);
        DecodesEncoded(prefix, hash, upper);
        assert Spells(text, k, prefix, hash, upper);
      }
      if Names(p, spec, k) {
        var prefix, hash, upper :| Spells(text, k, prefix, hash, upper);
        DecodesEncoded(prefix, hash, upper);
      }
    }
  }

  /** For a valid code rule nothing is padded: the text spells the key's own hash. */
  lemma ValidTextSpellsHash(p: Parsers, text: Bytes, k: LedgerKey) returns (prefix: bool, upper: nat -> bool)
    requires ValidSpec(p, ContractCodeHash(text)) && ResolveSpec(p, ContractCodeHash(text)) == KeyOf(k)
    ensures k.ContractCode? && |k.hash| == 32 && text == HexText(prefix, k.hash, upper)
  {
    hide HexText;
    var hash;
    prefix, hash, upper := DecodedIsText(text);
    DecodesEncoded(prefix, hash, upper);
    assert Padded(hash) == hash;
  }

  datatype Resolution = Keys(keys: seq<LedgerKey>) | InvalidWatch | ResolutionPanics

  /** Keys for the first `n` rules, or how the first failing rule fails. */
  function ResolveUpTo(p: Parsers, watch: seq<WatchSpec>, n: nat): Resolution
    requires n <= |watch|
  {
    if n == 0 then Keys([])
    else match ResolveUpTo(p, watch, n - 1)
      case Keys(ks) =>
        (match ResolveSpec(p, watch[n - 1])
         case KeyOf(k) => Keys(ks + [k])
         case InvalidSpec => InvalidWatch
         case Panics => ResolutionPanics)
      case other => other
  }

  function Resolve(p: Parsers, watch: seq<WatchSpec>): Resolution {
    ResolveUpTo(p, watch, |watch|)
  }

  lemma {:induction false} FailureSticks(p: Parsers, watch: seq<WatchSpec>, m: nat, n: nat)
    requires m <= n <= |watch| && !ResolveUpTo(p, watch, m).Keys?
    ensures ResolveUpTo(p, watch, n) == ResolveUpTo(p, watch, m)
  {
    if m == n {
    } else {
      FailureSticks(p, watch, m, n - 1);
    }
  }

  /** One key per rule in order, or the first failing rule's failure. */
  lemma {:induction false} ResolutionIsFirstFailure(p: Parsers, watch: seq<WatchSpec>, n: nat)
    requires n <= |watch|
    ensures var r := ResolveUpTo(p, watch, n);
            && (r.Keys? <==> forall i :: 0 <= i < n ==> ResolveSpec(p, watch[i]).KeyOf?)
            && (r.Keys? ==> |r.keys| == n && forall i :: 0 <= i < n ==> ResolveSpec(p, watch[i]) == KeyOf(r.keys[i]))
            && (!r.Keys? ==>
                  exists i :: 0 <= i < n && (forall j :: 0 <= j < i ==> ResolveSpec(p, watch[j]).KeyOf?)
                    && !ResolveSpec(p, watch[i]).KeyOf?
                    && (r.ResolutionPanics? <==> ResolveSpec(p, watch[i]).Panics?))
  {
    hide ResolveSpec;
    if n == 0 {
    } else {
      ResolutionIsFirstFailure(p, watch, n - 1);
    }
  }

  method ResolveWatchKeys(p: Parsers, watch: seq<WatchSpec>) returns (r: Resolution)
    ensures r == Resolve(p, watch)
  {
    var keys := [];
    for i := 0 to |watch|
      invariant ResolveUpTo(p, watch, i) == Keys(keys)
    {
      var outcome := ResolveSpec(p, watch[i]);
      match watch[i] {
        case ContractCodeHash(h) =>
          var hash := WasmHashBytes(h);
          outcome := match hash
            case Decoded(bytes) => KeyOf(ContractCode(bytes))
            case BadHex => InvalidSpec
            case OutOfBounds => Panics;
        case _ =>
      }
      if !outcome.KeyOf? {
        FailureSticks(p, watch, i + 1, |watch|);
        return if outcome.InvalidSpec? then InvalidWatch else ResolutionPanics;
      }
      keys := keys + [outcome.key];
    }
    r := Keys(keys);
  }

  /** A validated watch list resolves, one key per rule in order, without touching memory out of bounds. */
  lemma {:induction false} ValidatedWatchResolves(p: Parsers, watch: seq<WatchSpec>, n: nat)
    requires n <= |watch| && forall i :: 0 <= i < |watch| ==> ValidSpec(p, watch[i])
    ensures var r := ResolveUpTo(p, watch, n);
            r.Keys? && |r.keys| == n && forall i :: 0 <= i < n ==> ResolveSpec(p, watch[i]) == KeyOf(r.keys[i])
  {
    if n == 0 {
    } else {
      ValidatedWatchResolves(p, watch, n - 1);
      if watch[n - 1].ContractCodeHash? {
        ValidatedHashDecodes(watch[n - 1].wasmHash);
      }
    }
  }
}
