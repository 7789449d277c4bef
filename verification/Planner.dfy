/** Turns observations into extend and restore plans. */
module Planner {
  import opened Basics
  import opened Ledger
  import opened Ttl
  import opened Plan

  /** The only error planning has: a key that cannot be rendered. */
  datatype PlanError = Unrenderable

  type Candidate = (LedgerKey, EntryTtl)

  datatype TtlVerdict = Live(remaining: nat) | Expired

  function ClassifyTtlEntry(liveUntil: nat, currentLedger: nat): TtlVerdict {
    if liveUntil <= currentLedger then Expired else Live(liveUntil - currentLedger)
  }

  function RenormalizeTtl(ttl: EntryTtl, currentLedger: nat): EntryTtl {
    EntryTtl(currentLedger, ttl.liveUntil)
  }

  predicate TemporaryEntry(e: PlanEntry) {
    e.durability == Some(Temporary)
  }

  predicate OtherEntry(e: PlanEntry) {
    e.durability != Some(Temporary)
  }

  datatype Planner = Planner(constants: TtlConstants, window: RiskWindow, networkPassphrase: string, codec: Codec)
  {
    function ExtendEntry(c: Candidate, rendered: string, currentLedger: nat): PlanEntry {
      PlanEntry(c.0, rendered, Extend, DurabilityOf(c.0), RenormalizeTtl(c.1, currentLedger))
    }

    /** The entries of an extend plan: the at-risk candidates in order, or the first rendering error. */
    function ExtendEntries(candidates: seq<Candidate>, currentLedger: nat): Result<seq<PlanEntry>, PlanError> {
      if candidates == [] then Ok([])
      else
        var rest := ExtendEntries(candidates[1..], currentLedger);
        if !window.IsAtRisk(candidates[0].1) then rest
        else match codec.render(candidates[0].0)
          case None => Err(Unrenderable)
          case Some(x) => Prepend([ExtendEntry(candidates[0], x, currentLedger)], rest)
    }

    function MakePlan(currentLedger: nat, entries: seq<PlanEntry>): ArchivalPlan {
      ArchivalPlan(networkPassphrase, currentLedger, window.ExtendToLedgers(constants), entries)
    }

    function ExtendPlan(candidates: seq<Candidate>, currentLedger: nat): Result<ArchivalPlan, PlanError> {
      match ExtendEntries(candidates, currentLedger)
      case Err(e) => Err(e)
      case Ok(es) => Ok(MakePlan(currentLedger, es))
    }

    /** Stable partition of the mixed plan by durability; empty classes are dropped. */
    function SplitPlans(candidates: seq<Candidate>, currentLedger: nat): Result<seq<ArchivalPlan>, PlanError> {
      match ExtendEntries(candidates, currentLedger)
      case Err(e) => Err(e)
      case Ok(es) =>
        Ok(NonEmpty(currentLedger, Filter(OtherEntry, es)) + NonEmpty(currentLedger, Filter(TemporaryEntry, es)))
    }

    function NonEmpty(currentLedger: nat, es: seq<PlanEntry>): seq<ArchivalPlan> {
      if es == [] then [] else [MakePlan(currentLedger, es)]
    }

    function RestoreEntries(archived: seq<(LedgerKey, ArchivedEntryInfo)>, currentLedger: nat)
      : Result<seq<PlanEntry>, PlanError>
    {
      if archived == [] then Ok([])
      else
        var rest := RestoreEntries(archived[1..], currentLedger);
        if !archived[0].1.archived then rest
        else match codec.render(archived[0].0)
          case None => Err(Unrenderable)
          case Some(x) =>
            Prepend([PlanEntry(archived[0].0, x, Restore, DurabilityOf(archived[0].0),
                               EntryTtl(currentLedger, None))], rest)
    }

    method PlanExtend(candidates: seq<Candidate>, currentLedger: nat)
      returns (r: Result<ArchivalPlan, PlanError>)
      ensures r == ExtendPlan(candidates, currentLedger)
    {
      var entries := [];
      PrependLaws(entries, [], ExtendEntries(candidates, currentLedger));
      for i := 0 to |candidates|
        invariant ExtendEntries(candidates, currentLedger)
               == Prepend(entries, ExtendEntries(candidates[i..], currentLedger))
      {
        assert candidates[i..][0] == candidates[i] && candidates[i..][1..] == candidates[i + 1..];
        var (key, ttl) := candidates[i];
        if !window.IsAtRisk(ttl) {
          continue;
        }
        var durability := DurabilityOf(key);
        var moved := RenormalizeTtl(ttl, currentLedger);
        var rendered := codec.render(key);
        if rendered.None? {
          return Err(Unrenderable);
        }
        var entry := PlanEntry(key, rendered.value, Extend, durability, moved);
        PrependLaws(entries, [entry], ExtendEntries(candidates[i + 1..], currentLedger));
        entries := entries + [entry];
      }
      PrependLaws(entries, [], ExtendEntries(candidates[|candidates|..], currentLedger));
      r := Ok(ArchivalPlan(networkPassphrase, currentLedger, window.ExtendToLedgers(constants), entries));
    }

    method PlanExtendSplit(candidates: seq<Candidate>, currentLedger: nat)
      returns (r: Result<seq<ArchivalPlan>, PlanError>)
      ensures r == SplitPlans(candidates, currentLedger)
    {
      var temporary, persistent := [], [];
      ghost var done := [];
      PrependLaws(done, [], ExtendEntries(candidates, currentLedger));
      for i := 0 to |candidates|
        invariant ExtendEntries(candidates, currentLedger)
               == Prepend(done, ExtendEntries(candidates[i..], currentLedger))
        invariant persistent == Filter(OtherEntry, done) && temporary == Filter(TemporaryEntry, done)
      {
        assert candidates[i..][0] == candidates[i] && candidates[i..][1..] == candidates[i + 1..];
        var (key, ttl) := candidates[i];
        if !window.IsAtRisk(ttl) {
          continue;
        }
        var rendered := codec.render(key);
        if rendered.None? {
          return Err(Unrenderable);
        }
        var entry := PlanEntry(key, rendered.value, Extend, DurabilityOf(key), RenormalizeTtl(ttl, currentLedger));
        FilterAppend(OtherEntry, done, [entry]);
        FilterAppend(TemporaryEntry, done, [entry]);
        PrependLaws(done, [entry], ExtendEntries(candidates[i + 1..], currentLedger));
        done := done + [entry];
        if entry.durability == Some(Temporary) {
          temporary := temporary + [entry];
        } else {
          persistent := persistent + [entry];
        }
      }
      PrependLaws(done, [], ExtendEntries(candidates[|candidates|..], currentLedger));
      var extendTo := window.ExtendToLedgers(constants);
      var plans := [];
      if persistent != [] {
        plans := plans + [ArchivalPlan(networkPassphrase, currentLedger, extendTo, persistent)];
      }
      if temporary != [] {
        plans := plans + [ArchivalPlan(networkPassphrase, currentLedger, extendTo, temporary)];
      }
      assert plans == NonEmpty(currentLedger, persistent) + NonEmpty(currentLedger, temporary);
      r := Ok(plans);
    }

    method PlanRestore(archived: seq<(LedgerKey, ArchivedEntryInfo)>, currentLedger: nat)
      returns (r: Result<ArchivalPlan, PlanError>)
      ensures var es := RestoreEntries(archived, currentLedger);
              r == if es.Err? then Err(es.error) else Ok(MakePlan(currentLedger, es.value))
    {
      var entries := [];
      PrependLaws(entries, [], RestoreEntries(archived, currentLedger));
      for i := 0 to |archived|
        invariant RestoreEntries(archived, currentLedger)
               == Prepend(entries, RestoreEntries(archived[i..], currentLedger))
      {
        assert archived[i..][0] == archived[i] && archived[i..][1..] == archived[i + 1..];
        var (key, info) := archived[i];
        if !info.archived {
          continue;
        }
        var rendered := codec.render(key);
        if rendered.None? {
          return Err(Unrenderable);
        }
        var entry := PlanEntry(key, rendered.value, Restore, DurabilityOf(key), EntryTtl(currentLedger, None));
        PrependLaws(entries, [entry], RestoreEntries(archived[i + 1..], currentLedger));
        entries := entries + [entry];
      }
      PrependLaws(entries, [], RestoreEntries(archived[|archived|..], currentLedger));
      r := Ok(ArchivalPlan(networkPassphrase, currentLedger, window.ExtendToLedgers(constants), entries));
    }

    // --- What a plan contains --------------------------------------------------------------------

    function AtRisk(candidates: seq<Candidate>): seq<Candidate> {
      Filter((c: Candidate) => window.IsAtRisk(c.1), candidates)
    }

    /** Plan entries are, position by position, the at-risk candidates moved to the plan's ledger. */
    lemma {:induction false} ExtendEntriesAreAtRisk(candidates: seq<Candidate>, currentLedger: nat)
      requires ExtendEntries(candidates, currentLedger).Ok?
      ensures var es, cs := ExtendEntries(candidates, currentLedger).value, AtRisk(candidates);
              && |es| == |cs|
              && forall i :: 0 <= i < |es| ==>
                   && codec.render(cs[i].0) == Some(es[i].keyXdr)
                   && es[i] == ExtendEntry(cs[i], es[i].keyXdr, currentLedger)
    {
      if candidates == [] {
      } else {
        ExtendEntriesAreAtRisk(candidates[1..], currentLedger);
      }
    }

    /** Planning fails exactly when some at-risk candidate's key cannot be rendered; the others are not even tried. */
    lemma {:induction false} ExtendFailsIff(candidates: seq<Candidate>, currentLedger: nat)
      ensures ExtendEntries(candidates, currentLedger).Err? <==>
              exists c :: c in candidates && window.IsAtRisk(c.1) && codec.render(c.0).None?
    {
      hide RiskWindow.IsAtRisk;
      if candidates == [] {
      } else {
        ExtendFailsIff(candidates[1..], currentLedger);
        if ExtendEntries(candidates[1..], currentLedger).Err? {
          var c :| c in candidates[1..] && window.IsAtRisk(c.1) && codec.render(c.0).None?;
          assert c in candidates;
        } else if ExtendEntries(candidates, currentLedger).Err? {
          assert candidates[0] in candidates;
        } else {
          forall c | c in candidates && window.IsAtRisk(c.1) ensures codec.render(c.0).Some? {
            assert c == candidates[0] || c in candidates[1..];
          }
        }
      }
    }

    /** Entries not flagged archived are skipped wherever they stand. */
    lemma {:induction false} RestoreSkipsUnflagged(archived: seq<(LedgerKey, ArchivedEntryInfo)>, currentLedger: nat)
      ensures RestoreEntries(archived, currentLedger)
           == RestoreEntries(Filter((a: (LedgerKey, ArchivedEntryInfo)) => a.1.archived, archived), currentLedger)
    {
      if archived == [] {
      } else {
        RestoreSkipsUnflagged(archived[1..], currentLedger);
        var flagged := (a: (LedgerKey, ArchivedEntryInfo)) => a.1.archived;
        if archived[0].1.archived {
          assert Filter(flagged, archived)[1..] == Filter(flagged, archived[1..]);
        }
      }
    }

    /** The split plans refine the mixed plan. */
    lemma SplitRefinesMixed(candidates: seq<Candidate>, currentLedger: nat)
      ensures SplitPlans(candidates, currentLedger).Ok? == ExtendPlan(candidates, currentLedger).Ok?
      ensures SplitPlans(candidates, currentLedger).Ok? ==>
                var plans := SplitPlans(candidates, currentLedger).value;
                var mixed := ExtendPlan(candidates, currentLedger).value;
                && |plans| <= 2
                && multiset(Entries(plans)) == multiset(mixed.entries)
                && Entries(plans) == Filter(OtherEntry, mixed.entries) + Filter(TemporaryEntry, mixed.entries)
                && (forall p :: p in plans ==>
                      && p.entries != []
                      && p == mixed.(entries := p.entries)
                      && ((forall e :: e in p.entries ==> TemporaryEntry(e))
                          || (forall e :: e in p.entries ==> OtherEntry(e))))
    {
      hide ExtendEntries, Filter;
      if ExtendEntries(candidates, currentLedger).Ok? {
        var es := ExtendEntries(candidates, currentLedger).value;
        var others, temps := Filter(OtherEntry, es), Filter(TemporaryEntry, es);
        FilterPartition(OtherEntry, TemporaryEntry, es);
        forall e ensures (e in others <==> e in es && OtherEntry(e)) && (e in temps <==> e in es && TemporaryEntry(e)) {
          FilterMembers(OtherEntry, es, e);
          FilterMembers(TemporaryEntry, es, e);
        }
        var plans := SplitPlans(candidates, currentLedger).value;
        assert Entries(plans) == others + temps by {
          assert Entries([]) == [];
          forall p: ArchivalPlan ensures Entries([p]) == p.entries {
            assert [p][1..] == [];
            assert p.entries + [] == p.entries;
          }
          if others != [] && temps != [] {
            assert plans[1..] == [MakePlan(currentLedger, temps)];
          }
        }
      }
    }

    /** Every plan the planner builds survives the JSON round trip. */
    lemma BuiltPlansAreSelfConsistent(candidates: seq<Candidate>, currentLedger: nat)
      requires codec.Lawful() && constants.Valid() && currentLedger <= U32_MAX
      requires forall c :: c in candidates && c.1.liveUntil.Some? ==> c.1.liveUntil.value <= U32_MAX
      requires ExtendPlan(candidates, currentLedger).Ok?
      ensures ExtendPlan(candidates, currentLedger).value.SelfConsistent(codec)
      ensures forall p :: p in SplitPlans(candidates, currentLedger).value ==>
                p.SelfConsistent(codec) && DecodePlan(codec, EncodePlan(p)) == Ok(p)
    {
      hide AtRisk, Filter, EncodePlan, DecodePlan, Entries, ExtendEntries, PlanEntry.SelfConsistent;
      var es := ExtendEntries(candidates, currentLedger).value;
      forall e | e in es ensures e.SelfConsistent(codec) {
        BuiltEntryIsSelfConsistent(candidates, currentLedger, e);
      }
      SplitRefinesMixed(candidates, currentLedger);
      forall p | p in SplitPlans(candidates, currentLedger).value
        ensures p.SelfConsistent(codec) && DecodePlan(codec, EncodePlan(p)) == Ok(p)
      {
        forall e | e in p.entries ensures e in es {
          FilterMembers(OtherEntry, es, e);
          FilterMembers(TemporaryEntry, es, e);
        }
        RoundTripIff(codec, p);
      }
    }

    lemma BuiltEntryIsSelfConsistent(candidates: seq<Candidate>, currentLedger: nat, e: PlanEntry)
      requires codec.Lawful() && currentLedger <= U32_MAX
      requires forall c :: c in candidates && c.1.liveUntil.Some? ==> c.1.liveUntil.value <= U32_MAX
      requires ExtendEntries(candidates, currentLedger).Ok? && e in ExtendEntries(candidates, currentLedger).value
      ensures e.SelfConsistent(codec)
    {
      hide ExtendEntries;
      var es := ExtendEntries(candidates, currentLedger).value;
      ExtendEntriesAreAtRisk(candidates, currentLedger);
      var i :| 0 <= i < |es| && es[i] == e;
      FilterMembers((c: Candidate) => window.IsAtRisk(c.1), candidates, AtRisk(candidates)[i]);
    }
  }

  /** All entries of a list of plans, in order. */
  function Entries(plans: seq<ArchivalPlan>): seq<PlanEntry> {
    if plans == [] then [] else plans[0].entries + Entries(plans[1..])
  }
}
