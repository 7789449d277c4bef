/** TTL model and risk-window arithmetic. */
module Ttl {
  import opened Basics

  datatype TtlConstants = TtlConstants(
    secondsPerLedger: nat, maxEntryTtl: nat, minPersistentTtl: nat, minTemporaryTtl: nat)
  {
    /** `max_entry_ttl` is a u32 in the source. */
    predicate Valid() {
      maxEntryTtl <= U32_MAX
    }
  }

  const STELLAR_PUBLIC := TtlConstants(5, 6_312_000, 409_600, 409_600)

  datatype EntryTtl = EntryTtl(currentLedger: nat, liveUntil: Option<nat>)
  {
    /** Remaining ledgers; the source subtracts two u64s, so an underflow wraps. */
    function TtlLedgers(): Option<nat> {
      match liveUntil
      case None => None
      case Some(until) => Some(WrappingSub64(until, currentLedger))
    }
  }

  datatype ArchivedEntryInfo = ArchivedEntryInfo(currentLedger: nat, archived: bool)

  datatype RiskWindow = RiskWindow(alertHorizonLedgers: nat)
  {
    predicate IsAtRisk(ttl: EntryTtl) {
      match ttl.TtlLedgers()
      case Some(remaining) => remaining <= alertHorizonLedgers
      case None => false
    }

    function ExtendToLedgers(constants: TtlConstants): nat {
      Min(if alertHorizonLedgers <= U32_MAX then alertHorizonLedgers else constants.maxEntryTtl,
          constants.maxEntryTtl)
    }

    function SecondsOfHeadroom(constants: TtlConstants, ttl: EntryTtl): Option<nat> {
      match ttl.TtlLedgers()
      case None => None
      case Some(remaining) =>
        Some(WrappingMul64(if remaining >= alertHorizonLedgers then remaining - alertHorizonLedgers else 0,
                           constants.secondsPerLedger))
    }
  }

  /** `f64::ceil` on a real. */
  function Ceil(x: real): int {
    -((-x).Floor)
  }

  function FromDays(days: real): RiskWindow {
    var ledgers := Ceil(days * 86_400.0 / 5.0);
    RiskWindow(if ledgers < 0 then 0 else if ledgers >= U32_MAX then U32_MAX else ledgers)
  }

  /** The CLI's clamped conversion: public-network constants. */
  function DaysToExtendTo(days: real): nat {
    FromDays(days).ExtendToLedgers(STELLAR_PUBLIC)
  }

  /** The horizon is the least ledger count that lasts the days, none for negative days, capped at u32. */
  lemma FromDaysLeast(days: real, count: nat)
    ensures var l := FromDays(days).alertHorizonLedgers;
            && (l < U32_MAX ==> 5.0 * l as real >= 86_400.0 * days)
            && (5.0 * count as real >= 86_400.0 * days ==> l <= count)
            && (l == U32_MAX <==> 5.0 * (U32_MAX - 1) as real < 86_400.0 * days)
  {
    var x := days * 86_400.0 / 5.0;
    assert 5.0 * x == 86_400.0 * days;
    assert Ceil(x) as real >= x > (Ceil(x) - 1) as real;
  }

  lemma FromDaysMonotone(a: real, b: real)
    requires a <= b
    ensures FromDays(a).alertHorizonLedgers <= FromDays(b).alertHorizonLedgers
  {
    var x, y := a * 86_400.0 / 5.0, b * 86_400.0 / 5.0;
    assert (-y).Floor as real <= -y <= -x;
    assert (-y).Floor <= (-x).Floor;
  }

  /** The extension target is the smaller of horizon and network maximum, and is itself its own target. */
  lemma ExtendToIsClampedHorizon(w: RiskWindow, c: TtlConstants)
    requires c.Valid()
    ensures w.ExtendToLedgers(c) == Min(w.alertHorizonLedgers, c.maxEntryTtl)
    ensures RiskWindow(w.ExtendToLedgers(c)).ExtendToLedgers(c) == w.ExtendToLedgers(c)
  {
  }

  /** Five times a u64 is a multiple of 2^64 only for zero: wrapping cannot fake an empty headroom. */
  lemma FiveTimesIsZeroIff(x: U64)
    ensures WrappingMul64(x, 5) == 0 <==> x == 0
  {
    var m := U64_MAX + 1;
    var q := (x * 5) / m;
    assert x * 5 == q * m + (x * 5) % m;
    assert 0 <= q < 5;
    assert m % 5 == 1;
    if (x * 5) % m == 0 {
      assert (q * m) % 5 == 0 && q == 0;
    }
  }

  /**
   * Headroom runs out exactly when an entry becomes at risk, even where the u64 arithmetic wraps (every set of
   * constants the code builds has five seconds per ledger). For any constants it is the exact number of seconds if and
   * only if that number fits.
   */
  lemma NoHeadroomIffAtRisk(w: RiskWindow, c: TtlConstants, ttl: EntryTtl)
    ensures c.secondsPerLedger == 5 ==> (w.SecondsOfHeadroom(c, ttl) == Some(0) <==> w.IsAtRisk(ttl))
    ensures w.SecondsOfHeadroom(c, ttl).None? <==> ttl.liveUntil.None?
    ensures ttl.liveUntil.Some? && !w.IsAtRisk(ttl) ==>
              var exact := (ttl.TtlLedgers().value - w.alertHorizonLedgers) * c.secondsPerLedger;
              w.SecondsOfHeadroom(c, ttl).value as int == exact <==> exact <= U64_MAX
  {
    if ttl.liveUntil.Some? {
      var remaining := ttl.TtlLedgers().value;
      FiveTimesIsZeroIff(if remaining >= w.alertHorizonLedgers then remaining - w.alertHorizonLedgers else 0);
    }
  }

  /** The horizon up to 6,312,000 ledgers: monotone in days, never above the network maximum, and idempotent. */
  lemma DaysToExtendToLaws(a: real, b: real)
    requires a <= b
    ensures DaysToExtendTo(a) == Min(FromDays(a).alertHorizonLedgers, 6_312_000)
    ensures DaysToExtendTo(a) <= DaysToExtendTo(b) <= STELLAR_PUBLIC.maxEntryTtl
    ensures RiskWindow(DaysToExtendTo(a)).ExtendToLedgers(STELLAR_PUBLIC) == DaysToExtendTo(a)
  {
    FromDaysMonotone(a, b);
  }

  /** No underflow exactly when the expiry is not before the snapshot ledger. */
  lemma TtlExactIff(ttl: EntryTtl)
    requires ttl.liveUntil.Some? && ttl.liveUntil.value <= U32_MAX && ttl.currentLedger <= U32_MAX
    ensures ttl.TtlLedgers().value as int == ttl.liveUntil.value - ttl.currentLedger
            <==> ttl.currentLedger <= ttl.liveUntil.value
    ensures ttl.currentLedger > ttl.liveUntil.value ==> ttl.TtlLedgers().value > U32_MAX
  {
    var d := ttl.liveUntil.value - ttl.currentLedger;
    if d < 0 {
      assert d % (U64_MAX + 1) == d + U64_MAX + 1;
    }
  }
}
