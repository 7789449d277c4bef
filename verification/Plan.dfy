/** The archival plan and its JSON form, at the level of JSON value trees. */
module Plan {
  import opened Basics
  import opened Ledger
  import opened Ttl

  datatype OperationKind = Extend | Restore
  {
    function AsStr(): string {
      match this
      case Extend => "extend"
      case Restore => "restore"
    }
  }

  datatype PlanEntry = PlanEntry(
    key: LedgerKey, keyXdr: string, kind: OperationKind, durability: Option<Durability>, ttl: EntryTtl)
  {
    function RemainingTtl(): Option<nat> {
      ttl.TtlLedgers()
    }

    /** What any decoded entry satisfies: rendering, durability and key agree, numbers are u32. */
    predicate SelfConsistent(codec: Codec) {
      && codec.parse(keyXdr) == Some(key)
      && durability == DurabilityOf(key)
      && ttl.currentLedger <= U32_MAX
      && (ttl.liveUntil.Some? ==> ttl.liveUntil.value <= U32_MAX)
    }
  }

  datatype ArchivalPlan = ArchivalPlan(
    networkPassphrase: string, referenceLedger: nat, extendTo: nat, entries: seq<PlanEntry>)
  {
    function Footprint(): (keys: seq<LedgerKey>)
      ensures |keys| == |entries|
    {
      seq(|entries|, i requires 0 <= i < |entries| => entries[i].key)
    }

    function CountKind(kind: OperationKind): nat {
      |Filter((e: PlanEntry) => e.kind == kind, entries)|
    }

    /** Every entry is counted once. */
    lemma KindsCountOnce()
      ensures CountKind(Extend) + CountKind(Restore) == |entries|
      ensures CountKind(Extend) == 0 <==> forall e :: e in entries ==> e.kind.Restore?
    {
      var toExtend := Filter((e: PlanEntry) => e.kind == Extend, entries);
      FilterPartition((e: PlanEntry) => e.kind == Extend, (e: PlanEntry) => e.kind == Restore, entries);
      forall e ensures e in toExtend <==> e in entries && e.kind == Extend {
        FilterMembers((e: PlanEntry) => e.kind == Extend, entries, e);
      }
      if toExtend != [] {
        assert toExtend[0] in toExtend;
      }
    }

    predicate SelfConsistent(codec: Codec) {
      && referenceLedger <= U32_MAX
      && extendTo <= U32_MAX
      && forall i :: 0 <= i < |entries| ==> entries[i].SelfConsistent(codec)
    }
  }

  datatype Json =
    | JNull
    | JBool(b: bool)
    | JInt(n: int)
    | JFloat(r: real)
    | JString(s: string)
    | JArray(items: seq<Json>)
    | JObject(fields: map<string, Json>)

  /** serde's failure to read a plan; the message text is not modelled. */
  datatype JsonError = MissingField | WrongType | BadKey | UnknownOperation

  // --- Serialize -------------------------------------------------------------------------------

  function EncodeEntry(e: PlanEntry): Json {
    JObject(map[
      "key_xdr" := JString(e.keyXdr),
      "operation" := JString(e.kind.AsStr()),
      "durability" := match e.durability { case None => JNull case Some(d) => JString(d.Name()) },
      "current_ledger" := JInt(e.ttl.currentLedger),
      "live_until_ledger_seq" := match e.ttl.liveUntil { case None => JNull case Some(n) => JInt(n) }])
  }

  function EncodePlan(p: ArchivalPlan): Json {
    JObject(map[
      "network_passphrase" := JString(p.networkPassphrase),
      "reference_ledger" := JInt(p.referenceLedger),
      "extend_to" := JInt(p.extendTo),
      "entries" := JArray(seq(|p.entries|, i requires 0 <= i < |p.entries| => EncodeEntry(p.entries[i])))])
  }

  // --- Deserialize -----------------------------------------------------------------------------

  function DecodeU32(j: Json): Result<nat, JsonError> {
    if j.JInt? && 0 <= j.n <= U32_MAX then Ok(j.n) else Err(WrongType)
  }

  function RequiredU32(fields: map<string, Json>, name: string): Result<nat, JsonError> {
    if name in fields then DecodeU32(fields[name]) else Err(MissingField)
  }

  function RequiredString(fields: map<string, Json>, name: string): Result<string, JsonError> {
    if name !in fields then Err(MissingField)
    else if fields[name].JString? then Ok(fields[name].s)
    else Err(WrongType)
  }

  /** `#[serde(default)]` u32: absent means 0, but null is still a type error. */
  function DefaultedU32(fields: map<string, Json>, name: string): Result<nat, JsonError> {
    if name in fields then DecodeU32(fields[name]) else Ok(0)
  }

  /** `#[serde(default)]` optional u32: absent and null both mean none. */
  function OptionalU32(fields: map<string, Json>, name: string): Result<Option<nat>, JsonError> {
    if name !in fields || fields[name].JNull? then Ok(None)
    else match DecodeU32(fields[name])
      case Err(e) => Err(e)
      case Ok(n) => Ok(Some(n))
  }

  function DecodeKind(name: string): Result<OperationKind, JsonError> {
    if name == "extend" then Ok(Extend)
    else if name == "restore" then Ok(Restore)
    else Err(UnknownOperation)
  }

  /** `RawEntry`: the fields serde reads before any of them is interpreted. */
  datatype RawEntry = RawEntry(keyXdr: string, operation: string, currentLedger: nat, liveUntil: Option<nat>)

  function ReadRawEntry(j: Json): Result<RawEntry, JsonError> {
    if !j.JObject? then Err(WrongType) else
    match (RequiredString(j.fields, "key_xdr"), RequiredString(j.fields, "operation"),
           DefaultedU32(j.fields, "current_ledger"), OptionalU32(j.fields, "live_until_ledger_seq"))
    case (Ok(x), Ok(o), Ok(c), Ok(l)) => Ok(RawEntry(x, o, c, l))
    case (Err(e), _, _, _) => Err(e)
    case (_, Err(e), _, _) => Err(e)
    case (_, _, Err(e), _) => Err(e)
    case (_, _, _, Err(e)) => Err(e)
  }

  function ReadRawEntries(items: seq<Json>): Result<seq<RawEntry>, JsonError> {
    if items == [] then Ok([])
    else match ReadRawEntry(items[0])
      case Err(e) => Err(e)
      case Ok(raw) => Prepend([raw], ReadRawEntries(items[1..]))
  }

  function DecodeEntry(codec: Codec, raw: RawEntry): Result<PlanEntry, JsonError> {
    match codec.parse(raw.keyXdr)
    case None => Err(BadKey)
    case Some(key) =>
      match DecodeKind(raw.operation)
      case Err(e) => Err(e)
      case Ok(kind) =>
        Ok(PlanEntry(key, raw.keyXdr, kind, DurabilityOf(key), EntryTtl(raw.currentLedger, raw.liveUntil)))
  }

  function DecodeEntries(codec: Codec, raws: seq<RawEntry>): Result<seq<PlanEntry>, JsonError> {
    if raws == [] then Ok([])
    else match DecodeEntry(codec, raws[0])
      case Err(e) => Err(e)
      case Ok(entry) => Prepend([entry], DecodeEntries(codec, raws[1..]))
  }

  datatype RawPlan = RawPlan(networkPassphrase: string, referenceLedger: nat, extendTo: nat, entries: seq<RawEntry>)

  function ReadRawPlan(j: Json): Result<RawPlan, JsonError> {
    if !j.JObject? then Err(WrongType) else
    var entries :=
      if "entries" !in j.fields then Ok([])
      else if j.fields["entries"].JArray? then ReadRawEntries(j.fields["entries"].items)
      else Err(WrongType);
    match (RequiredString(j.fields, "network_passphrase"), RequiredU32(j.fields, "reference_ledger"),
           RequiredU32(j.fields, "extend_to"), entries)
    case (Ok(n), Ok(r), Ok(x), Ok(es)) => Ok(RawPlan(n, r, x, es))
    case (Err(e), _, _, _) => Err(e)
    case (_, Err(e), _, _) => Err(e)
    case (_, _, Err(e), _) => Err(e)
    case (_, _, _, Err(e)) => Err(e)
  }

  function DecodePlan(codec: Codec, j: Json): Result<ArchivalPlan, JsonError> {
    match ReadRawPlan(j)
    case Err(e) => Err(e)
    case Ok(raw) =>
      match DecodeEntries(codec, raw.entries)
      case Err(e) => Err(e)
      case Ok(entries) => Ok(ArchivalPlan(raw.networkPassphrase, raw.referenceLedger, raw.extendTo, entries))
  }

  /** The loop of the hand-written `deserialize`. */
  method Deserialize(codec: Codec, j: Json) returns (r: Result<ArchivalPlan, JsonError>)
    ensures r == DecodePlan(codec, j)
  {
    var raw := ReadRawPlan(j);
    if raw.Err? {
      return Err(raw.error);
    }
    var raws := raw.value.entries;
    var entries := [];
    PrependLaws([], [], DecodeEntries(codec, raws));
    for i := 0 to |raws|
      invariant DecodeEntries(codec, raws) == Prepend(entries, DecodeEntries(codec, raws[i..]))
    {
      assert raws[i..][0] == raws[i] && raws[i..][1..] == raws[i + 1..];
      var e := raws[i];
      var key := codec.parse(e.keyXdr);
      if key.None? {
        return Err(BadKey);
      }
      var kind := DecodeKind(e.operation);
      if kind.Err? {
        return Err(kind.error);
      }
      var entry := PlanEntry(key.value, e.keyXdr, kind.value, DurabilityOf(key.value),
                             EntryTtl(e.currentLedger, e.liveUntil));
      PrependLaws(entries, [entry], DecodeEntries(codec, raws[i + 1..]));
      entries := entries + [entry];
    }
    PrependLaws(entries, [], DecodeEntries(codec, raws[|raws|..]));
    r := Ok(ArchivalPlan(raw.value.networkPassphrase, raw.value.referenceLedger, raw.value.extendTo, entries));
  }

  // --- The wire format -------------------------------------------------------------------------

  function Field(j: Json, name: string): Option<Json>
    requires j.JObject?
  {
    if name in j.fields then Some(j.fields[name]) else None
  }

  /** `j` says entry `e`, name by name: two optional fields, and a durability that only the key itself decides. */
  predicate SaysEntry(codec: Codec, j: Json, e: PlanEntry) {
    && j.JObject?
    && Field(j, "key_xdr") == Some(JString(e.keyXdr)) && codec.parse(e.keyXdr) == Some(e.key)
    && Field(j, "operation") == Some(JString(if e.kind.Extend? then "extend" else "restore"))
    && e.ttl.currentLedger <= U32_MAX
    && (Field(j, "current_ledger") == Some(JInt(e.ttl.currentLedger))
        || (Field(j, "current_ledger").None? && e.ttl.currentLedger == 0))
    && (match e.ttl.liveUntil
        case Some(until) => until <= U32_MAX && Field(j, "live_until_ledger_seq") == Some(JInt(until))
        case None => Field(j, "live_until_ledger_seq").None? || Field(j, "live_until_ledger_seq") == Some(JNull))
    && e.durability == (if e.key.ContractData? then Some(e.key.durability) else None)
  }

  predicate SaysEntries(codec: Codec, items: seq<Json>, es: seq<PlanEntry>) {
    |items| == |es| && forall i :: 0 <= i < |es| ==> SaysEntry(codec, items[i], es[i])
  }

  /** `j` says plan `p`; only the entries may be left out, for none. */
  predicate SaysPlan(codec: Codec, j: Json, p: ArchivalPlan) {
    && j.JObject?
    && Field(j, "network_passphrase") == Some(JString(p.networkPassphrase))
    && Field(j, "reference_ledger") == Some(JInt(p.referenceLedger)) && p.referenceLedger <= U32_MAX
    && Field(j, "extend_to") == Some(JInt(p.extendTo)) && p.extendTo <= U32_MAX
    && (match Field(j, "entries")
        case None => p.entries == []
        case Some(list) => list.JArray? && SaysEntries(codec, list.items, p.entries))
  }

  lemma DecodesEntryIff(codec: Codec, j: Json, e: PlanEntry)
    ensures var raw := ReadRawEntry(j);
            (raw.Ok? && DecodeEntry(codec, raw.value) == Ok(e)) <==> SaysEntry(codec, j, e)
  {
  }

  lemma {:induction false} DecodesEntriesIff(codec: Codec, items: seq<Json>, es: seq<PlanEntry>)
    ensures var raws := ReadRawEntries(items);
            (raws.Ok? && DecodeEntries(codec, raws.value) == Ok(es)) <==> SaysEntries(codec, items, es)
  {
    hide ReadRawEntry, DecodeEntry, SaysEntry;
    if items == [] {
    } else {
      var raw, rest := ReadRawEntry(items[0]), ReadRawEntries(items[1..]);
      if raw.Ok? && rest.Ok? {
        assert ReadRawEntries(items).value[1..] == rest.value;
      }
      if es == [] {
      } else {
        DecodesEntryIff(codec, items[0], es[0]);
        DecodesEntriesIff(codec, items[1..], es[1..]);
        SaysEntriesCons(codec, items, es);
        assert es == [es[0]] + es[1..];
      }
    }
  }

  lemma SaysEntriesCons(codec: Codec, items: seq<Json>, es: seq<PlanEntry>)
    requires items != [] && es != []
    ensures SaysEntries(codec, items, es) <==>
            SaysEntry(codec, items[0], es[0]) && SaysEntries(codec, items[1..], es[1..])
  {
    hide SaysEntry;
    if SaysEntry(codec, items[0], es[0]) && SaysEntries(codec, items[1..], es[1..]) {
      forall i | 0 <= i < |es| ensures SaysEntry(codec, items[i], es[i]) {
        assert i > 0 ==> items[i] == items[1..][i - 1] && es[i] == es[1..][i - 1];
      }
    }
  }

  /** A document decodes to a plan exactly when it says that plan. */
  lemma DecodesIff(codec: Codec, j: Json, p: ArchivalPlan)
    ensures DecodePlan(codec, j) == Ok(p) <==> SaysPlan(codec, j, p)
  {
    hide ReadRawEntries, DecodeEntries, SaysEntries;
    if j.JObject? && "entries" in j.fields && j.fields["entries"].JArray? {
      DecodesEntriesIff(codec, j.fields["entries"].items, p.entries);
    } else {
      DecodesEntriesIff(codec, [], p.entries);
      NoEntries(codec, p.entries);
    }
  }

  lemma NoEntries(codec: Codec, es: seq<PlanEntry>)
    ensures ReadRawEntries([]) == Ok([])
    ensures SaysEntries(codec, [], es) <==> es == []
  {
  }

  /** An entry that can be read is refused for its key first, then for an operation other than the two. */
  lemma RefusedEntries(codec: Codec, raw: RawEntry)
    ensures DecodeEntry(codec, raw) == Err(BadKey) <==> codec.parse(raw.keyXdr).None?
    ensures DecodeEntry(codec, raw) == Err(UnknownOperation) <==>
              codec.parse(raw.keyXdr).Some? && raw.operation !in {"extend", "restore"}
  {
  }

  // --- Round trip ------------------------------------------------------------------------------

  /** The written durability is the key's own class, and null for a key without one. */
  lemma DurabilityOnTheWire(codec: Codec, e: PlanEntry)
    requires e.SelfConsistent(codec)
    ensures Field(EncodeEntry(e), "durability")
         == Some(if !e.key.ContractData? then JNull
                 else JString(if e.key.durability.Temporary? then "Temporary" else "Persistent"))
  {
  }

  /** decode(encode(p)) == p holds for exactly the self-consistent plans. */
  lemma RoundTripIff(codec: Codec, p: ArchivalPlan)
    ensures DecodePlan(codec, EncodePlan(p)) == Ok(p) <==> p.SelfConsistent(codec)
  {
    hide EncodeEntry, DecodePlan, PlanEntry.SelfConsistent, SaysEntry;
    DecodesIff(codec, EncodePlan(p), p);
    forall i | 0 <= i < |p.entries|
      ensures SaysEntry(codec, EncodeEntry(p.entries[i]), p.entries[i]) <==> p.entries[i].SelfConsistent(codec)
    {
      EncodedEntrySays(codec, p.entries[i]);
    }
  }

  lemma EncodedEntrySays(codec: Codec, e: PlanEntry)
    ensures SaysEntry(codec, EncodeEntry(e), e) <==> e.SelfConsistent(codec)
  {
  }

  /** Whatever JSON a plan was read from, hand-edited or not, the plan is self-consistent. */
  lemma DecodedPlansAreSelfConsistent(codec: Codec, j: Json)
    requires DecodePlan(codec, j).Ok?
    ensures DecodePlan(codec, j).value.SelfConsistent(codec)
    ensures DecodePlan(codec, EncodePlan(DecodePlan(codec, j).value)) == DecodePlan(codec, j)
  {
    hide DecodePlan, EncodePlan, PlanEntry.SelfConsistent, SaysEntry;
    var p := DecodePlan(codec, j).value;
    DecodesIff(codec, j, p);
    forall i | 0 <= i < |p.entries| ensures p.entries[i].SelfConsistent(codec) {
      SaidEntryIsConsistent(codec, j.fields["entries"].items[i], p.entries[i]);
    }
    RoundTripIff(codec, p);
  }

  lemma SaidEntryIsConsistent(codec: Codec, j: Json, e: PlanEntry)
    requires SaysEntry(codec, j, e)
    ensures e.SelfConsistent(codec)
  {
  }
}
