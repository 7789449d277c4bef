/** Loading the daemon's configuration: the value checks, and what a configuration that passes them guarantees. */
module Config {
  import opened Basics
  import opened Ledger
  import opened Ttl
  import opened Tx
  import opened Network
  import opened Keeper
  import opened Planner

  /** The parsed file with the secret already resolved; `riskWindowDays` is `None` when it is not finite. */
  datatype RawConfig = RawConfig(
    rpcUrl: string, networkPassphrase: string, secret: string, pollIntervalSecs: nat,
    riskWindowDays: Option<real>, watch: seq<Watch.WatchSpec>)

  datatype ConfigError =
    | EmptyRpcUrl | EmptyPassphrase | BadSecret | ZeroPollInterval | BadRiskWindow | NoWatchRules
    | BadWatchRule(index: nat)

  /** What the process brings along besides the file. */
  datatype Libraries = Libraries(parsers: Watch.Parsers, codec: Codec, crypto: Crypto, signingKey: nat)

  predicate ValuesAreValid(raw: RawConfig) {
    && raw.rpcUrl != "" && raw.networkPassphrase != ""
    && raw.secret != "" && raw.secret[0] == 'S'
    && raw.pollIntervalSecs > 0
    && raw.riskWindowDays.Some? && raw.riskWindowDays.value > 0.0
    && raw.watch != []
  }

  predicate RulesAreValid(p: Watch.Parsers, watch: seq<Watch.WatchSpec>) {
    forall i :: 0 <= i < |watch| ==> Watch.ValidSpec(p, watch[i])
  }

  function Loaded(libs: Libraries, raw: RawConfig): ValidConfig
    requires raw.riskWindowDays.Some?
  {
    ValidConfig(libs.parsers, raw.watch, raw.networkPassphrase, FromDays(raw.riskWindowDays.value), STELLAR_PUBLIC,
                libs.codec, libs.crypto, libs.signingKey)
  }

  /** At start-up the network's own archival settings, when they can be fetched, replace the defaults. */
  function AtStartup(cfg: ValidConfig, network: Option<TtlConstants>): ValidConfig {
    match network
    case None => cfg
    case Some(c) => cfg.(constants := c)
  }

  /** Accepts exactly the valid files; otherwise names the first check that fails, a watch rule by its position. */
  method LoadConfig(libs: Libraries, raw: RawConfig) returns (r: Result<ValidConfig, ConfigError>)
    ensures r.Ok? <==> ValuesAreValid(raw) && RulesAreValid(libs.parsers, raw.watch)
    ensures r.Ok? ==> r.value == Loaded(libs, raw)
    ensures r == Err(EmptyRpcUrl) <==> raw.rpcUrl == ""
    ensures r == Err(EmptyPassphrase) <==> raw.rpcUrl != "" && raw.networkPassphrase == ""
    ensures r == Err(BadSecret) <==> raw.rpcUrl != "" && raw.networkPassphrase != "" && !("S" <= raw.secret)
    ensures r == Err(ZeroPollInterval) <==>
              raw.rpcUrl != "" && raw.networkPassphrase != "" && "S" <= raw.secret && raw.pollIntervalSecs == 0
    ensures r == Err(BadRiskWindow) <==>
              && raw.rpcUrl != "" && raw.networkPassphrase != "" && "S" <= raw.secret && raw.pollIntervalSecs > 0
              && (raw.riskWindowDays.None? || raw.riskWindowDays.value <= 0.0)
    ensures r == Err(NoWatchRules) <==>
              && raw.rpcUrl != "" && raw.networkPassphrase != "" && "S" <= raw.secret && raw.pollIntervalSecs > 0
              && raw.riskWindowDays.Some? && raw.riskWindowDays.value > 0.0 && raw.watch == []
    ensures r.Err? && r.error.BadWatchRule? ==>
              && ValuesAreValid(raw) && r.error.index < |raw.watch|
              && !Watch.ValidSpec(libs.parsers, raw.watch[r.error.index])
              && RulesAreValid(libs.parsers, raw.watch[..r.error.index])
  {
    if raw.rpcUrl == "" {
      return Err(EmptyRpcUrl);
    }
    if raw.networkPassphrase == "" {
      return Err(EmptyPassphrase);
    }
    if !(raw.secret != "" && raw.secret[0] == 'S') {
      return Err(BadSecret);
    }
    if raw.pollIntervalSecs == 0 {
      return Err(ZeroPollInterval);
    }
    if !(raw.riskWindowDays.Some? && raw.riskWindowDays.value > 0.0) {
      return Err(BadRiskWindow);
    }
    if raw.watch == [] {
      return Err(NoWatchRules);
    }
    for i := 0 to |raw.watch|
      invariant RulesAreValid(libs.parsers, raw.watch[..i])
    {
      if !Watch.ValidSpec(libs.parsers, raw.watch[i]) {
        return Err(BadWatchRule(i));
      }
    }
    assert raw.watch[..|raw.watch|] == raw.watch;
    r := Ok(Loaded(libs, raw));
  }

  /** The fewest five-second ledgers that last `days` days, capped at u32. */
  predicate LastsDays(ledgers: nat, days: real) {
    && ledgers <= U32_MAX
    && 5.0 * (ledgers - 1) as real < 86_400.0 * days
    && (ledgers < U32_MAX ==> 86_400.0 * days <= 5.0 * ledgers as real)
  }

  /**
   * What every theorem about the daemon asks of its configuration holds of a loaded one, with or without
   * the network's settings: it is for the file's network, it resolves to one key per rule in order, without a panic,
   * its horizon is the fewest ledgers that last the file's days, and its extension target is that positive horizon or
   * the maximum, whichever is smaller: the network's own if it could be fetched, 6,312,000 ledgers otherwise.
   */
  lemma LoadedConfigIsSound(libs: Libraries, raw: RawConfig, network: Option<TtlConstants>)
    requires ValuesAreValid(raw) && RulesAreValid(libs.parsers, raw.watch)
    requires network.Some? ==> network.value.Valid()
    ensures var cfg := AtStartup(Loaded(libs, raw), network);
            && cfg.Resolution().Keys? && |cfg.Resolution().keys| == |raw.watch| > 0
            && (forall i :: 0 <= i < |raw.watch| ==>
                  Watch.ResolveSpec(libs.parsers, raw.watch[i]) == Watch.KeyOf(cfg.Resolution().keys[i]))
            && cfg.networkPassphrase == raw.networkPassphrase
            && cfg.codec == libs.codec && cfg.crypto == libs.crypto && cfg.signingKey == libs.signingKey
            && cfg.constants.Valid()
            && cfg.constants.secondsPerLedger == (if network.Some? then network.value.secondsPerLedger else 5)
            && cfg.constants.maxEntryTtl == (if network.Some? then network.value.maxEntryTtl else 6_312_000)
            && LastsDays(cfg.window.alertHorizonLedgers, raw.riskWindowDays.value)
            && 1 <= cfg.window.alertHorizonLedgers <= U32_MAX
            && cfg.ExtendTo() == Min(cfg.window.alertHorizonLedgers, cfg.constants.maxEntryTtl)
  {
    hide Watch.ResolveSpec, Watch.ValidSpec;
    Watch.ValidatedWatchResolves(libs.parsers, raw.watch, |raw.watch|);
    var horizon := FromDays(raw.riskWindowDays.value).alertHorizonLedgers;
    FromDaysLeast(raw.riskWindowDays.value, 0);
    FromDaysLeast(raw.riskWindowDays.value, if horizon > 0 then horizon - 1 else 0);
    ExtendToIsClampedHorizon(FromDays(raw.riskWindowDays.value), AtStartup(Loaded(libs, raw), network).constants);
  }

  /**
   * The keys a loaded configuration watches are the ones its rules name, in order; a code rule's text spells exactly
   * the hash that is watched.
   */
  lemma LoadedKeysAreNamed(libs: Libraries, raw: RawConfig, network: Option<TtlConstants>, i: nat)
    requires ValuesAreValid(raw) && RulesAreValid(libs.parsers, raw.watch)
    requires network.Some? ==> network.value.Valid()
    requires i < |raw.watch|
    ensures var cfg := AtStartup(Loaded(libs, raw), network);
            && cfg.Resolution().Keys? && |cfg.Resolution().keys| == |raw.watch|
            && var k := cfg.Resolution().keys[i];
            && Watch.Names(libs.parsers, raw.watch[i], k)
            && (raw.watch[i].ContractCodeHash? ==>
                  && k.ContractCode? && |k.hash| == 32
                  && exists prefix, upper :: raw.watch[i].wasmHash == Watch.HexText(prefix, k.hash, upper))
  {
    hide Watch.ResolveSpec, Watch.Resolve, Watch.Names, Watch.HexText, Watch.ValidSpec;
    LoadedConfigIsSound(libs, raw, network);
    var k := AtStartup(Loaded(libs, raw), network).Resolution().keys[i];
    Watch.ResolvesToNamed(libs.parsers, raw.watch[i], k);
    if raw.watch[i].ContractCodeHash? {
      var prefix, upper := Watch.ValidTextSpellsHash(libs.parsers, raw.watch[i].wasmHash, k);
    }
  }

  /** So no cycle of a loaded configuration ever fails for its watch list. */
  lemma LoadedConfigNeverFailsToResolve(libs: Libraries, raw: RawConfig, network: Option<TtlConstants>,
        env: Environment, w: World)
    requires ValuesAreValid(raw) && RulesAreValid(libs.parsers, raw.watch)
    requires network.Some? ==> network.value.Valid()
    ensures var cfg := AtStartup(Loaded(libs, raw), network);
            && !cfg.Resolution().ResolutionPanics?
            && (PlanCycle(env, w, cfg).1.Err? ==> !PlanCycle(env, w, cfg).1.error.InvalidWatch?)
  {
    hide Watch.Resolve, ValuesAreValid, RulesAreValid, ObserveEntries, GetNetwork, Planner.SplitPlans;
    LoadedConfigIsSound(libs, raw, network);
  }
}
