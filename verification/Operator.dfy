/** The operator's `plan-restore` and `plan-extend`, and how they share the world with the daemon. */
module Operator {
  import opened Basics
  import opened Ledger
  import opened Ttl
  import opened Plan
  import opened Planner
  import opened Provider
  import opened Keeper
  import opened Coverage

  datatype CliError = Operation | Invalid

  type Restored = (LedgerKey, ArchivedEntryInfo)

  /** Those of the first `n` keys that need a restore, flagged archived whatever their observation's own flag says. */
  function Restorable(keys: seq<LedgerKey>, rows: seq<Observation>, n: nat): seq<Restored>
    requires n <= |keys| && n <= |rows|
  {
    if n == 0 then []
    else if rows[n - 1].NeedsRestore() then
      Restorable(keys, rows, n - 1) + [(keys[n - 1], ArchivedEntryInfo(rows[n - 1].currentLedger, true))]
    else Restorable(keys, rows, n - 1)
  }

  function OperatorPlanner(codec: Codec, passphrase: string, ttlDays: real): Planner {
    Planner(STELLAR_PUBLIC, RiskWindow(DaysToExtendTo(ttlDays)), passphrase, codec)
  }

  /** The plan of `plan-restore`: the planner's own restore plan, unless nothing needs one. */
  function RestoreArm(codec: Codec, passphrase: string, keys: seq<LedgerKey>, rows: seq<Observation>, ttlDays: real)
    : Result<ArchivalPlan, CliError>
  {
    var p := OperatorPlanner(codec, passphrase, ttlDays);
    var archived := Restorable(keys, rows, Min(|keys|, |rows|));
    if archived == [] then Err(Invalid)
    else match p.RestoreEntries(archived, ObservedLedger(rows))
      case Err(_) => Err(Operation)
      case Ok(es) => Ok(p.MakePlan(ObservedLedger(rows), es))
  }

  /** Restore entries never have an expiry and always show the plan's ledger. */
  lemma {:induction false} RestoreEntriesShape(p: Planner, archived: seq<Restored>, currentLedger: nat)
    requires forall a :: a in archived ==> a.1.archived
    ensures p.RestoreEntries(archived, currentLedger).Ok? <==> forall a :: a in archived ==> p.codec.render(a.0).Some?
    ensures p.RestoreEntries(archived, currentLedger).Ok? ==>
              var es := p.RestoreEntries(archived, currentLedger).value;
              && |es| == |archived|
              && forall i :: 0 <= i < |es| ==>
                   && p.codec.render(archived[i].0) == Some(es[i].keyXdr)
                   && es[i] == PlanEntry(archived[i].0, es[i].keyXdr, Restore, DurabilityOf(archived[i].0),
                                         EntryTtl(currentLedger, None))
  {
    if archived == [] {
    } else {
      RestoreEntriesShape(p, archived[1..], currentLedger);
      assert archived == [archived[0]] + archived[1..];
    }
  }

  lemma {:induction false} RestorableAreFlagged(keys: seq<LedgerKey>, rows: seq<Observation>, n: nat)
    requires n <= |keys| && n <= |rows|
    ensures forall a :: a in Restorable(keys, rows, n) ==> a.1.archived
  {
    if n == 0 {
    } else {
      RestorableAreFlagged(keys, rows, n - 1);
    }
  }

  /**
   * The arm as written plans first and then overwrites the target and every entry's TTL. The result is
   * the planner's plan all the same: the overwrites change nothing.
   */
  method PlanRestore(codec: Codec, passphrase: string, keys: seq<LedgerKey>, observations: Result<seq<Observation>,
        RentkeeperError>, ttlDays: real)
    returns (r: Result<ArchivalPlan, CliError>)
    ensures observations.Err? ==> r == Err(Operation)
    ensures observations.Ok? ==> r == RestoreArm(codec, passphrase, keys, observations.value, ttlDays)
  {
    if observations.Err? {
      return Err(Operation);
    }
    var rows := observations.value;
    var currentLedger := if rows == [] then 0 else rows[0].currentLedger;
    var archived := [];
    for i := 0 to Min(|keys|, |rows|)
      invariant archived == Restorable(keys, rows, i)
    {
      if rows[i].NeedsRestore() {
        archived := archived + [(keys[i], ArchivedEntryInfo(rows[i].currentLedger, true))];
      }
    }
    if archived == [] {
      return Err(Invalid);
    }
    var planner := OperatorPlanner(codec, passphrase, ttlDays);
    var planned := planner.PlanRestore(archived, currentLedger);
    if planned.Err? {
      return Err(Operation);
    }
    RestorableAreFlagged(keys, rows, Min(|keys|, |rows|));
    RestoreEntriesShape(planner, archived, currentLedger);
    DaysToExtendToLaws(ttlDays, ttlDays);
    ghost var before := planned.value;
    var extendTo := DaysToExtendTo(ttlDays);
    var entries := planned.value.entries;
    for i := 0 to |entries|
      invariant entries == before.entries
    {
      entries := entries[i := entries[i].(ttl := EntryTtl(currentLedger, None))];
    }
    r := Ok(planned.value.(extendTo := extendTo, entries := entries));
  }

  /** The entries of `plan-extend` for the first `n` keys: every one must be live, risk does not matter. */
  function OperatorEntries(codec: Codec, keys: seq<LedgerKey>, rows: seq<Observation>,
        n: nat): Result<seq<PlanEntry>, CliError>
    requires n <= |keys| && n <= |rows|
  {
    if n == 0 then Ok([])
    else match OperatorEntries(codec, keys, rows, n - 1)
      case Err(e) => Err(e)
      case Ok(es) =>
        if rows[n - 1].AsEntryTtl().liveUntil.None? then Err(Invalid)
        else match codec.render(keys[n - 1])
          case None => Err(Operation)
          case Some(x) =>
            Ok(es + [PlanEntry(keys[n - 1], x, Extend, DurabilityOf(keys[n - 1]), rows[n - 1].AsEntryTtl())])
  }

  lemma {:induction false} FirstErrorStays(codec: Codec, keys: seq<LedgerKey>, rows: seq<Observation>, m: nat, n: nat)
    requires m <= n <= |keys| && n <= |rows| && OperatorEntries(codec, keys, rows, m).Err?
    ensures OperatorEntries(codec, keys, rows, n) == OperatorEntries(codec, keys, rows, m)
  {
    if m == n {
    } else {
      FirstErrorStays(codec, keys, rows, m, n - 1);
    }
  }

  function ExtendArm(codec: Codec, passphrase: string, keys: seq<LedgerKey>, rows: seq<Observation>, ttlDays: real)
    : Result<ArchivalPlan, CliError>
  {
    match OperatorEntries(codec, keys, rows, Min(|keys|, |rows|))
    case Err(e) => Err(e)
    case Ok(es) => Ok(ArchivalPlan(passphrase, ObservedLedger(rows), DaysToExtendTo(ttlDays), es))
  }

  method PlanExtend(codec: Codec, passphrase: string, keys: seq<LedgerKey>, observations: Result<seq<Observation>,
        RentkeeperError>, ttlDays: real)
    returns (r: Result<ArchivalPlan, CliError>)
    ensures observations.Err? ==> r == Err(Operation)
    ensures observations.Ok? ==> r == ExtendArm(codec, passphrase, keys, observations.value, ttlDays)
  {
    if observations.Err? {
      return Err(Operation);
    }
    var rows := observations.value;
    var currentLedger := if rows == [] then 0 else rows[0].currentLedger;
    var extendTo := DaysToExtendTo(ttlDays);
    var entries := [];
    var n := Min(|keys|, |rows|);
    for i := 0 to n
      invariant OperatorEntries(codec, keys, rows, i) == Ok(entries)
    {
      var ttl := rows[i].AsEntryTtl();
      if ttl.liveUntil.None? {
        FirstErrorStays(codec, keys, rows, i + 1, n);
        return Err(Invalid);
      }
      var rendered := codec.render(keys[i]);
      if rendered.None? {
        FirstErrorStays(codec, keys, rows, i + 1, n);
        return Err(Operation);
      }
      entries := entries + [PlanEntry(keys[i], rendered.value, Extend, DurabilityOf(keys[i]), ttl)];
    }
    r := Ok(ArchivalPlan(passphrase, currentLedger, extendTo, entries));
  }

  // --- Who handles what --------------------------------------------------------------------------------

  /** The positions below `n` whose observation is live (or is not), in order. */
  function Positions(rows: seq<Observation>, live: bool, n: nat): (ps: seq<nat>)
    requires n <= |rows|
    ensures forall j :: 0 <= j < |ps| ==> ps[j] < n
    ensures forall i, j :: 0 <= i < j < |ps| ==> ps[i] < ps[j]
  {
    if n == 0 then []
    else if rows[n - 1].entry.Live? == live then Positions(rows, live, n - 1) + [n - 1]
    else Positions(rows, live, n - 1)
  }

  /** Live and not live: each position is in exactly one of the two lists. */
  lemma {:induction false} PositionsSplit(rows: seq<Observation>, n: nat)
    requires n <= |rows|
    ensures forall i: nat :: i < n ==> (i in Positions(rows, true, n) <==> i !in Positions(rows, false, n))
    ensures |Positions(rows, true, n)| + |Positions(rows, false, n)| == n
  {
    if n == 0 {
    } else {
      PositionsSplit(rows, n - 1);
    }
  }

  lemma {:induction false} ExtendableByPosition(keys: seq<LedgerKey>, rows: seq<Observation>, n: nat)
    requires n <= |keys| && n <= |rows|
    ensures var es, ps := Extendable(keys, rows, n), Positions(rows, true, n);
            && |es| == |ps|
            && forall j :: 0 <= j < |ps| ==> rows[ps[j]].entry.Live? && es[j] == (keys[ps[j]], rows[ps[j]].entry.ttl)
  {
    if n == 0 {
    } else {
      ExtendableByPosition(keys, rows, n - 1);
      var es, ps := Extendable(keys, rows, n), Positions(rows, true, n);
      var before, earlier := Extendable(keys, rows, n - 1), Positions(rows, true, n - 1);
      if rows[n - 1].entry.Live? {
        assert es == before + [(keys[n - 1], rows[n - 1].entry.ttl)] && ps == earlier + [n - 1];
        forall j | 0 <= j < |ps| ensures rows[ps[j]].entry.Live? && es[j] == (keys[ps[j]], rows[ps[j]].entry.ttl) {
          assert j < |earlier| ==> ps[j] == earlier[j] && es[j] == before[j];
        }
      } else {
        assert es == before && ps == earlier;
      }
    }
  }

  function Flagged(keys: seq<LedgerKey>, rows: seq<Observation>, i: nat): Restored
    requires i < |keys| && i < |rows|
  {
    (keys[i], ArchivedEntryInfo(rows[i].currentLedger, true))
  }

  lemma {:induction false} RestorableByPosition(keys: seq<LedgerKey>, rows: seq<Observation>, n: nat)
    requires n <= |keys| && n <= |rows|
    ensures var rs, ps := Restorable(keys, rows, n), Positions(rows, false, n);
            && |rs| == |ps|
            && forall j :: 0 <= j < |ps| ==> rs[j] == Flagged(keys, rows, ps[j])
  {
    hide Flagged;
    if n == 0 {
    } else {
      RestorableByPosition(keys, rows, n - 1);
      RestorableSteps(keys, rows, n);
      var rs, ps := Restorable(keys, rows, n), Positions(rows, false, n);
      var before, earlier := Restorable(keys, rows, n - 1), Positions(rows, false, n - 1);
      if rows[n - 1].entry.Live? {
        assert rs == before && ps == earlier;
      } else {
        hide Restorable, Positions;
        forall j | 0 <= j < |ps| ensures rs[j] == Flagged(keys, rows, ps[j]) {
          if j < |earlier| {
            assert ps[j] == earlier[j] && rs[j] == before[j];
          }
        }
      }
    }
  }

  lemma RestorableSteps(keys: seq<LedgerKey>, rows: seq<Observation>, n: nat)
    requires 0 < n <= |keys| && n <= |rows|
    ensures Restorable(keys, rows, n)
         == Restorable(keys, rows, n - 1) + if rows[n - 1].entry.Live? then [] else [Flagged(keys, rows, n - 1)]
    ensures Positions(rows, false, n) == Positions(rows, false, n - 1) + if rows[n - 1].entry.Live? then [] else [n - 1]
  {
  }

  /**
   * Daemon and operator split the world: of one observation, the daemon's extendable list holds the live
   * positions and the restore plan the others, each in input order, every position in exactly one of
   * them. The operator refuses exactly when nothing is left to it, and fails exactly on a key that
   * cannot be rendered.
   */
  lemma DaemonAndOperatorSplitTheWorld(codec: Codec, passphrase: string, keys: seq<LedgerKey>,
        rows: seq<Observation>, ttlDays: real)
    requires |rows| == |keys|
    ensures var live, dead := Positions(rows, true, |keys|), Positions(rows, false, |keys|);
            var daemon := Extendable(keys, rows, |keys|);
            var plan := RestoreArm(codec, passphrase, keys, rows, ttlDays);
            && (forall i: nat :: i < |keys| ==> (i in live <==> i !in dead))
            && |live| + |dead| == |keys|
            && |daemon| == |live|
            && (forall j :: 0 <= j < |live| ==> daemon[j].0 == keys[live[j]])
            && (plan == Err(Invalid) <==> dead == [])
            && (plan.Ok? <==> dead != [] && forall j :: 0 <= j < |dead| ==> codec.render(keys[dead[j]]).Some?)
            && (plan.Ok? ==>
                  && |plan.value.Footprint()| == |dead|
                  && (forall j :: 0 <= j < |dead| ==> plan.value.Footprint()[j] == keys[dead[j]])
                  && (forall e :: e in plan.value.entries ==>
                        e.kind.Restore? && e.ttl == EntryTtl(ObservedLedger(rows), None))
                  && plan.value.extendTo == DaysToExtendTo(ttlDays) <= STELLAR_PUBLIC.maxEntryTtl
                  && plan.value.referenceLedger == ObservedLedger(rows) && plan.value.networkPassphrase == passphrase)
  {
    hide Restorable, Extendable, Positions, Planner.RestoreEntries, DaysToExtendTo;
    PositionsSplit(rows, |keys|);
    ExtendableByPosition(keys, rows, |keys|);
    RestorableByPosition(keys, rows, |keys|);
    RestorableAreFlagged(keys, rows, |keys|);
    DaysToExtendToLaws(ttlDays, ttlDays);
    var archived := Restorable(keys, rows, |keys|);
    var dead := Positions(rows, false, |keys|);
    RestoreEntriesShape(OperatorPlanner(codec, passphrase, ttlDays), archived, ObservedLedger(rows));
    assert forall j :: 0 <= j < |dead| ==> archived[j] in archived && archived[j].0 == keys[dead[j]];
  }

  /** Were the observations' own flags used, an expired entry still in the ledger would be dropped without a word. */
  lemma RawFlagsLoseExpired(p: Planner, k: LedgerKey, latest: nat, until: nat)
    requires until <= latest && p.codec.render(k).Some?
    ensures var row := Row(latest, Some(until));
            && row.NeedsRestore() && row.entry.ExpiredButPresent?
            && p.RestoreEntries([(k, row.entry.info)], latest) == Ok([])
            && p.RestoreEntries(Restorable([k], [row], 1), latest).Ok?
            && KeysOfRestore(p, Restorable([k], [row], 1), latest) == [k]
  {
    var row := Row(latest, Some(until));
    assert [(k, row.entry.info)][1..] == [];
    assert Restorable([k], [row], 0) == [];
    assert Restorable([k], [row], 1) == [(k, ArchivedEntryInfo(latest, true))];
    RestoreEntriesShape(p, Restorable([k], [row], 1), latest);
  }

  function KeysOfRestore(p: Planner, archived: seq<Restored>, latest: nat): seq<LedgerKey>
    requires p.RestoreEntries(archived, latest).Ok?
  {
    p.MakePlan(latest, p.RestoreEntries(archived, latest).value).Footprint()
  }

  /** The planner's verdict on a TTL entry draws the line where observation does, with the same remainder. */
  lemma VerdictAgreesWithObservation(latest: nat, until: nat)
    requires latest <= U32_MAX && until <= U32_MAX
    ensures ClassifyTtlEntry(until, latest).Live? <==> Row(latest, Some(until)).entry.Live?
    ensures ClassifyTtlEntry(until, latest).Live? ==>
              Row(latest, Some(until)).AsEntryTtl().TtlLedgers() == Some(ClassifyTtlEntry(until, latest).remaining)
    ensures ClassifyTtlEntry(until, latest).Expired? <==> Row(latest, Some(until)).NeedsRestore()
  {
    if until > latest {
      TtlExactIff(EntryTtl(latest, Some(until)));
    }
  }

  /**
   * `plan-extend` succeeds exactly when every requested entry is live and can be rendered, and then names
   * them all in order; otherwise the first offending position decides which error it is.
   */
  lemma {:induction false} OperatorExtendIff(codec: Codec, keys: seq<LedgerKey>, rows: seq<Observation>, n: nat)
    requires n <= |keys| && n <= |rows| && forall o :: o in rows ==> SoundRow(o)
    ensures var r := OperatorEntries(codec, keys, rows, n);
            && (r.Ok? <==> forall i :: 0 <= i < n ==> Extensible(codec, keys[i], rows[i]))
            && (r.Ok? ==>
                  && |r.value| == n
                  && forall i :: 0 <= i < n ==>
                       && r.value[i].key == keys[i] && codec.render(keys[i]) == Some(r.value[i].keyXdr)
                       && r.value[i].kind.Extend? && r.value[i].ttl == rows[i].entry.ttl
                       && r.value[i].durability
                          == (if keys[i].ContractData? then Some(keys[i].durability) else None))
            && (r.Err? ==> exists i :: 0 <= i < n && Offends(codec, keys, rows, i)
                             && (r.error == Invalid <==> !rows[i].entry.Live?))
  {
    if n == 0 {
    } else {
      assert rows[n - 1] in rows;
      OperatorExtendIff(codec, keys, rows, n - 1);
      if OperatorEntries(codec, keys, rows, n - 1).Ok? && OperatorEntries(codec, keys, rows, n).Err? {
        assert Offends(codec, keys, rows, n - 1);
      }
    }
  }

  /** Every extend plan the operator emits names the requested keys, all live, for the days asked for; it reads back. */
  lemma ExtendPlansRoundTrip(codec: Codec, passphrase: string, keys: seq<LedgerKey>, rows: seq<Observation>,
        ttlDays: real)
    requires codec.Lawful() && |rows| == |keys| && forall o :: o in rows ==> U32Row(o)
    requires ExtendArm(codec, passphrase, keys, rows, ttlDays).Ok?
    ensures var plan := ExtendArm(codec, passphrase, keys, rows, ttlDays).value;
            && DecodePlan(codec, EncodePlan(plan)) == Ok(plan)
            && plan.networkPassphrase == passphrase && plan.referenceLedger == ObservedLedger(rows)
            && plan.extendTo == Min(FromDays(ttlDays).alertHorizonLedgers, 6_312_000)
            && |plan.entries| == |keys|
            && forall i :: 0 <= i < |keys| ==> plan.entries[i].key == keys[i] && rows[i].entry.Live?
  {
    hide OperatorEntries, EncodePlan, DecodePlan, DaysToExtendTo;
    var plan := ExtendArm(codec, passphrase, keys, rows, ttlDays).value;
    OperatorExtendIff(codec, keys, rows, |keys|);
    DaysToExtendToLaws(ttlDays, ttlDays);
    assert rows != [] ==> rows[0] in rows;
    forall i | 0 <= i < |plan.entries| ensures plan.entries[i].SelfConsistent(codec) {
      assert rows[i] in rows && Extensible(codec, keys[i], rows[i]);
    }
    RoundTripIff(codec, plan);
  }

  predicate Extensible(codec: Codec, k: LedgerKey, o: Observation) {
    o.entry.Live? && codec.render(k).Some?
  }

  /** Position `i` is the first one that cannot be extended. */
  predicate Offends(codec: Codec, keys: seq<LedgerKey>, rows: seq<Observation>, i: nat)
    requires i < |keys| && i < |rows|
  {
    !Extensible(codec, keys[i], rows[i]) && forall j :: 0 <= j < i ==> Extensible(codec, keys[j], rows[j])
  }

  /** Every restore plan the operator emits can be read back as it was. */
  lemma RestorePlansRoundTrip(codec: Codec, passphrase: string, keys: seq<LedgerKey>, rows: seq<Observation>,
        ttlDays: real)
    requires codec.Lawful() && ObservedLedger(rows) <= U32_MAX
    requires RestoreArm(codec, passphrase, keys, rows, ttlDays).Ok?
    ensures var plan := RestoreArm(codec, passphrase, keys, rows, ttlDays).value;
            DecodePlan(codec, EncodePlan(plan)) == Ok(plan)
  {
    hide Restorable, Planner.RestoreEntries, EncodePlan, DecodePlan, DaysToExtendTo;
    var archived := Restorable(keys, rows, Min(|keys|, |rows|));
    RestorableAreFlagged(keys, rows, Min(|keys|, |rows|));
    RestoreEntriesShape(OperatorPlanner(codec, passphrase, ttlDays), archived, ObservedLedger(rows));
    DaysToExtendToLaws(ttlDays, ttlDays);
    RoundTripIff(codec, RestoreArm(codec, passphrase, keys, rows, ttlDays).value);
  }
}
