# rent-keeper in Dafny

rent-keeper is a daemon that keeps watched Soroban ledger entries alive. On every poll tick it observes the
entries, plans extensions for those whose remaining TTL is at or below a horizon, and submits one transaction
per durability class. An operator tool, restore-planner, writes plans for the entries the daemon leaves alone.
This project models both and proves what the daemon promises: that what it watches stays alive.

`dafny verify dfyconfig.toml` checks everything.

## How it is organised

| module | content |
|---|---|
| `Basics`, `Ledger`, `Ttl`, `Plan`, `Planner`, `Provider`, `Tx`, `Watch`, `Config` | data model, planning, observation, envelopes, watch rules, configuration |
| `Network`, `Evolution` | the node and ledger, and what they keep while the keeper waits |
| `Sequence`, `Keeper`, `Daemon`, `Operator` | the sequence tracker, the poll cycle, the tick loop, the operator's two planning commands |
| `Submission`, `Coverage` | what submitting plans does, and what a cycle covers |
| `SequenceRuns`, `DaemonRuns`, `KeepAlive`, `KeepAliveRuns`, `Tightness`, `Timeliness` | theorems over whole runs |
| `Failures` | which failure becomes which error, and what a submission, a cycle and a tick make of it |

The source's mutable objects are classes (`SorobanProvider`, `SequenceTracker`, `Metrics`, `EnvelopeBox`) and its
loops are loops. Every such method is proved equal to a specification function on values (`TakeTicket`,
`SubmitPlan`, `RunPlans`, `RunCycle`, `Attempts`, `RunTicks`, …); the theorems are lemmas about these functions.

**The network is adversarial.** An environment is an arbitrary function from the number of the RPC call (or
sleep) to a move: a finite list of steps that happen before the answer (ledger closes, application of accepted
envelopes in any order or never, foreign submissions from the same account, foreign extensions, eviction and
revival of entries) and the answer's fate (transport failure, any simulation answer, an account lookup that lags
behind what the node has accepted, acceptance, rejection with or without a recognised marker, acceptance whose
answer is lost). A lemma with no hypothesis on the environment
holds for every such behaviour. "Accepted" never implies "applied".

Applying an extend at ledger A sets `live_until := max(live_until, A + extend_to)` for each live key of the
footprint, with `extend_to` clamped to the network maximum and a trap for footprints with a temporary key above
it. That is the repository's own statement of the operation (README.md:126-131, ttl.rs:5-9 and watcher.rs:138-140).

**History.** The last six fields of `Network.World` record what happened; no reply and no decision reads them. A
*round* is a cycle that ended in `Ok`: its observation ledger, the entries it saw live, each with the ledger of its
own chunk, and the log positions of its envelopes. `lapses` notes every ledger close that found a key expired, so
"live ever since ledger L" is `Unbroken`. A key is *under care* when some round whose envelopes have all been applied
saw it live and it has been live ever since. `dropped` are the keys that expired while under care. `maxAge` is the
greatest age, over all ledger closes, of the newest completely applied round. `lost` and `orphaned` are envelopes
whose answer was lost and envelopes acknowledged in a cycle that failed later.

**Keep-alive.** With E the smaller of the extension target and the network's maximum entry TTL:

- If at every ledger close the newest cycle whose envelopes have all been applied was observed fewer than E ledgers
  before, nothing under care ever expires (`WatchedEntriesStayAlive`, `LiveEntriesStayLive`). "Applied" means
  executed, envelopes that trapped included.
- In terms of the ledger alone: a watched entry that is live when some cycle starts that then succeeds, and does not
  expire until that cycle's envelopes have all been applied, is live at every later tick (`LiveAtCycleStaysLive`).
  An entry that had expired and was restored by an operator is no different.
- After each applied cycle every entry it saw lives until at least E ledgers after that entry's own observation
  (`SightingsAreKept`).
- The bound is exact: `Tightness.BoundIsTight` gives, for every configuration watching one key, a run in which
  nothing fails, the age reaches E, and the entry is dropped.
- The one exception is a temporary entry when the extension target exceeds the network's maximum, as it can when the
  network's settings could not be fetched: extending it traps (`KeepAlive.ApplyExtends`). Such an entry, if only
  the keeper touches it, is live exactly until the expiry it had (`UncoveredEntriesExpire`), and a run in which
  nothing fails drops it (`Tightness.TrappedEntryIsDropped`). Persistent entries are clamped and stay alive.
- The age bound itself follows from timing (`Timeliness.TimelyRunsKeepAlive`): one success in any F ticks, application
  within D ticks and at most P ledgers a tick make the age at most P (F + D + 1). On a quiet network F is 1 and P
  is the ledgers closed between two answers times the moves of a tick (`QuietRunsKeepAlive`).

The hypotheses are that getLedgerEntries answers tell the truth about the ledger at the moment of the answer (built
into `Network`), that simulation does not substitute another footprint (`KeepsFootprints`), and the age bound, which
limits how long failures, retries and application may take together and says nothing else about them. That cycles
do succeed is the business of `SequenceRuns`: from any cache value, when its submissions meet calm, a cycle
succeeds if and only if no durability class has more than 100 entries at risk.

**Failures.** `Failures` says, in terms of the configuration and the network's moves, which error every failure becomes:
for one submission attempt (`AttemptResult`), for a plan with its retry (`RetryResult`), and for a cycle up to planning
(`CheckFailure`, `ObservationFailure`, `ObservedCycle`) and after it (`SubmissionFailure`). What follows for a tick: it
rides out one transport fault anywhere before submission (`OneFaultIsRiddenOut`) and an outage of any length its
attempts allow, and counts exactly one rejection for a longer one (`OutageTick`, `DaemonOutage`); an unmarked error of
the first plan is retried exactly when it is an RPC error (`FirstPlanFailure`).

## Where the code and its documentation differ

The model follows the code.

- `observe_entries` documents that chunks whose ledgers disagree are rejected. `MAX_CHUNK_LEDGER_DRIFT` is declared
  and never read (provider.rs:115-117, 121-131, 243): `Provider.ObservationSucceedsIff`. Watching 51 keys whose second
  chunk is answered at an earlier ledger, an entry is planned with a wrapped TTL (`Coverage.BackwardsDriftWraps`);
  `Coverage.ObservedNoWrapIff` says exactly when that does not happen and `Coverage.DriftIsSafe` that non-decreasing
  ledgers suffice.
- The daemon's hex decoder relies on validation for its length: alone it zero-pads short hashes and indexes out of
  bounds on long ones (`Watch.DaemonHashOutcome`, `Watch.ResolvesIff`).
- `SubmissionOutcome::Rejected` is never produced (`Submission.SubmitPlanFacts`).
- The planner does not cap a plan at 100 entries; the builder refuses larger ones, and that is an error of the
  whole cycle (`SequenceRuns.CalmCycleSucceedsIff`).
- sequence.rs:1-6 says a foreign submission does not stall protection. With a recognised rejection text it heals
  within the plan's two submissions (`SequenceRuns.SelfHealing`). Without one, a foreign submission leaves the cache
  behind the account and costs one rejected submission each, after which plans are accepted again. While
  nobody else submits, what never heals is a cache *ahead* of the account, and a submission is eventually accepted
  if and only if the cache is empty or not above the account (`EventuallyAcceptedIff`, `DeficitHeals`, over runs
  `StuckIffAhead`). A refresh followed by a failed build, simulation or send is what puts the cache ahead
  (`BurnedTicketRunsAhead`).
- When the retry fails, the first error is returned and the cache is not invalidated again (`Failures.RetryResult`).

## Model

| member | source | states |
|---|---|---|
| KeepAliveRuns.WatchedEntriesStayAlive | crates/rent-keeper/src/watcher.rs:149-244 | keep-alive over every run: under the age bound nothing expires that a completely applied cycle saw live and that has been live since, except temporary entries whose extension traps |
| KeepAliveRuns.LiveEntriesStayLive | crates/rent-keeper/src/main.rs:154-213 | between any two ticks: an entry under care at the first is live and under care at the second and lives E ledgers past the newest applied cycle's observation, whether or not it had expired and been restored earlier |
| KeepAliveRuns.SightingsAreKept | crates/rent-keeper/src/watcher.rs:174-243 | after every tick, whatever a successful cycle saw live is live unless it expired since, and once that cycle is applied lives E ledgers past that entry's own observation; no age bound needed |
| KeepAliveRuns.LiveAtCycleStaysLive | crates/rent-keeper/src/main.rs:154-213 | a watched entry live at the start of any cycle that succeeds, retries included, and unexpired until that cycle's envelopes are applied is, under the age bound, live at every later tick and lives E ledgers past the newest applied observation |
| KeepAliveRuns.LiveEntriesAreSeen | crates/rent-keeper/src/watcher.rs:174-195 | a watched entry live when a successful cycle starts and unexpired at its end is in its round, at a ledger between the two |
| KeepAliveRuns.CycleSeesLiveEntries | crates/rentkeeper-core/src/provider.rs:121-131 | each watched entry live in the very world its chunk's request was answered in is recorded with that world's ledger and expiry |
| KeepAliveRuns.SuccessEndsTick | crates/rent-keeper/src/main.rs:167-197 | a cycle that is reached and succeeds ends its tick |
| KeepAliveRuns.UncoveredEntriesExpire | crates/rentkeeper-core/src/planner.rs:86-91 | a temporary entry with the target above the network's maximum that only the keeper touches is live exactly until the expiry it has |
| Tightness.BoundIsTight | crates/rent-keeper/src/watcher.rs:149-244 | for every configuration watching one extendable key, every network maximum, ledger and retry policy: a two-tick run in which no call fails and both cycles succeed, whose age reaches exactly E and which drops the entry |
| Tightness.TrappedEntryIsDropped | crates/rentkeeper-core/src/planner.rs:86-91 | for a temporary key with the target above the network's maximum: such a run, touched only by the keeper, that drops the entry under care at an age below E |
| Timeliness.TimelyRunsKeepAlive | crates/rent-keeper/src/main.rs:154-213 | keep-alive from timing: successes every F ticks, application within D, at most P ledgers a tick, and P (F + D + 1) below the target |
| Timeliness.AgeFromTiming | crates/rent-keeper/src/main.rs:154-213 | under that timing the newest applied round is never older than P (F + D + 1) |
| Timeliness.TickKeepsPace | crates/rent-keeper/src/main.rs:167-212 | at most c ledgers a move are at most c times the moves of a tick, for any retry policy |
| Timeliness.DaemonMovesPerTick | crates/rent-keeper/src/main.rs:124-126 | the daemon's policy: three times network check, observation requests, twelve submission moves and one wait |
| Timeliness.QuietCycleSucceeds | crates/rent-keeper/src/watcher.rs:149-244 | from where the network is quiet on, every cycle of at most 100 renderable keys succeeds, whatever the cache |
| Timeliness.QuietRunsKeepAlive | crates/rent-keeper/src/watcher.rs:149-244 | keep-alive from the environment alone: quiet moves, c ledgers a move, application within D ticks, and c times the moves of D + 2 ticks below the target |
| KeepAliveRuns.LoadedConfigIsFair | crates/rent-keeper/src/main.rs:88-101 | a loaded configuration, with or without network settings, leaves only the footprint hypothesis; its target is positive if and only if the maximum is |
| KeepAliveRuns.ExtensionFixedPoint | crates/rentkeeper-core/src/ttl.rs:162-176 | an applied extension brings an at-risk entry to max(remaining, min(horizon, both maxima)), at most the horizon, so still at risk, or traps; with the configured maximum within the network's it never traps and the clamp is the identity; applying twice changes nothing more |
| KeepAliveRuns.OnceAtRiskAlwaysPlanned | crates/rentkeeper-core/src/planner.rs:94-128 | a key only the keeper extends, once at risk, is planned by every later cycle that observes it live, retries included |
| KeepAliveRuns.SettledIsPlanned | crates/rent-keeper/src/watcher.rs:174-204 | the same for one cycle, chunked observation included |
| KeepAliveRuns.CycleFollows | crates/rent-keeper/src/watcher.rs:149-244 | one cycle, failed or not, keeps the keep-alive invariant, notes whatever under care expires, and extends nothing above the horizon |
| KeepAliveRuns.NewRoundSeesAgain | crates/rent-keeper/src/watcher.rs:174-195 | a successful cycle sees again, and not earlier, whatever an earlier one saw live and has not expired since |
| KeepAliveRuns.TicksFollow | crates/rent-keeper/src/main.rs:154-213 | so does any stretch of ticks with failures, retries and closes in between |
| KeepAlive.CycleKeeps | crates/rent-keeper/src/watcher.rs:174-243 | each entry an `Ok` cycle saw live lives E ledgers past its own chunk's ledger by itself or has an accepted extension pending, unless it expired since |
| KeepAlive.ObservedAlive | crates/rentkeeper-core/src/provider.rs:121-131 | a key seen live is live when observation ends unless it expired since its own chunk's ledger; if not at risk it lives beyond the target counted from there |
| KeepAlive.ObservedAgain | crates/rentkeeper-core/src/provider.rs:121-131 | a key an earlier round keeps and that has not expired since is observed live again, at a later or equal ledger |
| KeepAlive.RiskyIsPlanned | crates/rentkeeper-core/src/planner.rs:94-128 | every at-risk live row's key is in some plan |
| KeepAlive.RunPlansKeep | crates/rent-keeper/src/watcher.rs:217-236 | plan j's acknowledgement keeps plan j's keys whatever the later plans and the network do |
| KeepAlive.CareReachesTarget | crates/rentkeeper-core/src/ttl.rs:1-9 | a key under care that can be extended lives until E ledgers after the newest applied round's observation |
| KeepAlive.StepOneDropsNothing | crates/rentkeeper-core/src/ttl.rs:1-9 | a ledger close drops a key under care only if the newest applied round is E or more ledgers old or extending it traps |
| KeepAlive.ApplyExtends | crates/rentkeeper-core/src/ttl.rs:5-9 | extend raises to A + min(extend_to, network maximum); it traps and changes nothing exactly for a temporary key above that maximum |
| KeepAlive.NewestIsLast | crates/rent-keeper/src/watcher.rs:238-243 | `Newest` is the last completely applied round: none after it is |
| Failures.AttemptResult | crates/rent-keeper/src/watcher.rs:250-309 | every way one attempt ends: the error of the first call to fail with that answer's own mark (lookup and simulation faults and sends RPC errors; an empty or oversized plan, a rejected simulation or one without usable data transaction errors), the calls made, the cache left |
| Failures.RetryResult | crates/rent-keeper/src/watcher.rs:217-236 | an unmarked error, wherever it arose, surfaces after one ticket request with the cache kept; a marked one is followed by one more attempt, and if that fails it is the first error that surfaces and the cache is not dropped again |
| Failures.MarkedFailureHeals | crates/rent-keeper/src/sequence.rs:63-80 | after a marked lookup, simulation fault, simulation rejection or send, in calm, the plan is accepted if and only if the second lookup counts all accepted envelopes; then the cache equals the account |
| Failures.CheckFailure | crates/rent-keeper/src/watcher.rs:155-172 | an unresolved or empty watch list is an invalid-watch error before any call; a fault or foreign passphrase at the network check is an RPC error, with the fault's mark, after that one call |
| Failures.ObservationFailure | crates/rent-keeper/src/watcher.rs:174-178 | the first failing observation request ends the cycle with an RPC error carrying that request's mark, after exactly the requests up to it |
| Failures.ObservedCycle | crates/rent-keeper/src/watcher.rs:174-204 | with every request served the cycle has planned after 1 + ceil(keys / 50) calls, unless a live at-risk entry's key cannot be rendered: a transaction error |
| Failures.SubmissionFailure | crates/rent-keeper/src/watcher.rs:215-236 | a cycle's error is the first-attempt error of the first plan that is not healed; it records no round |
| Failures.OneFaultIsRiddenOut | crates/rent-keeper/src/main.rs:167-212 | one transport fault at the network check or any observation request of a tick's first cycle, the network quiet otherwise: exactly two cycles, one base delay, success |
| Failures.OutageTick | crates/rent-keeper/src/main.rs:167-212 | network checks faulting in the first n cycles, quiet afterwards: success in cycle n + 1 after base (2^n - 1) of sleep if the policy allows it, else all attempts used, one rejection, nothing else changed |
| Failures.DaemonOutage | crates/rent-keeper/src/main.rs:124-126 | the daemon's constants: 0, 1 and 3 seconds of sleep through outages of 0, 1 and 2 cycles; three cycles and a rejection for longer ones |
| Failures.FirstPlanFailure | crates/rent-keeper/src/main.rs:190-221 | an unmarked error of the first plan: a transaction error ends the tick at once, counted nowhere; an RPC error is retried after one base delay |
| SequenceRuns.SelfHealing | crates/rent-keeper/src/watcher.rs:218-236 | from any cache value a plan is accepted within two submissions if and only if the first ticket fits, or its rejection is recognised and the lookup then counts all accepted envelopes; then the cache equals the account |
| SequenceRuns.RefreshedAttempt | crates/rent-keeper/src/sequence.rs:45-57 | an attempt after a refresh is accepted if and only if the lookup does not lag |
| SequenceRuns.CalmCycleSucceedsIff | crates/rent-keeper/src/watcher.rs:213-243 | when each plan's submission meets calm (foreign submissions elsewhere allowed), a planned cycle succeeds if and only if every plan has at most 100 entries, and then the cache equals the account |
| SequenceRuns.QuietWindowIsCalm | crates/rent-keeper/src/watcher.rs:218-236 | six quiet moves for each plan are calm enough |
| SequenceRuns.SequenceInvariant | crates/rent-keeper/src/sequence.rs:38-69 | without foreign submitters and lagging lookups from the start on, after every tick the cache is empty or not behind the account, and accepted sequence numbers strictly increase |
| SequenceRuns.SequenceWithinTick | crates/rent-keeper/src/watcher.rs:215-236 | the same at the start of every cycle inside a tick, after its planning and after each of its plans |
| SequenceRuns.EventuallyAcceptedIff | crates/rent-keeper/src/watcher.rs:218-236 | with unrecognised mismatches as the only failure, some repetition of a plan is accepted if and only if the cache is empty or not above the account |
| SequenceRuns.DeficitHeals | crates/rent-keeper/src/watcher.rs:218-236 | exactly: repetition n is accepted if and only if 0 <= account - cache <= n; the ones before change nothing but the cache |
| SequenceRuns.UnrecognisedCycle | crates/rent-keeper/src/watcher.rs:213-236 | a cycle with something to submit succeeds if and only if the cache is empty or equals the account, else fails with a retried error and the cache one higher |
| SequenceRuns.StuckIffAhead | crates/rent-keeper/src/main.rs:154-213 | over runs with at most 100 watch rules the daemon is ahead after any number of ticks if and only if it was at the start, and then submits nothing |
| SequenceRuns.BurnedTicketRunsAhead | crates/rent-keeper/src/watcher.rs:257-292 | an attempt that refreshes ends with the cache ahead if and only if the node did not take its envelope: oversized plan, failed simulation or refused send |
| SequenceRuns.UnrecognisedRejectionIsFinal | crates/rent-keeper/src/sequence.rs:63-80 | with the cache ahead, whatever else fails, nothing is accepted while rejections stay unrecognised and nobody else submits |
| SequenceRuns.LostAnswerSubmitsTwice | crates/rent-keeper/src/watcher.rs:218-236 | in surroundings calm but for the first send, the node takes a plan twice if and only if it takes the first envelope and loses that answer with a recognised marker; the daemon counts the second |
| SequenceRuns.AttemptOutcome | crates/rent-keeper/src/watcher.rs:250-293 | whatever the fate of its send, an attempt's envelope is taken exactly when the ticket fits and the send is not refused, and acknowledged exactly when the answer is not lost either |
| Sequence.TicketsAreNumbered | crates/rent-keeper/src/sequence.rs:38-59 | in any interleaving of calls the k-th ticket after a refresh that read n is n + k |
| Sequence.TicketsDistinctAndGapFree | crates/rent-keeper/src/sequence.rs:14-69 | two tickets with no bad-sequence report between them differ by the number of tickets taken |
| Sequence.CacheStemsFromRefresh | crates/rent-keeper/src/sequence.rs:38-69 | a filled cache goes back to a refresh after which only bad-sequence reports could have emptied it |
| Sequence.SequenceTracker.NextSequence | crates/rent-keeper/src/sequence.rs:38-59 | new cache, ticket and network state for the cached, refreshed and failed case |
| Sequence.SequenceTracker.ReportFailure | crates/rent-keeper/src/sequence.rs:63-69 | drops the cache exactly on errors whose text carries a marker, whatever their kind |
| Coverage.CycleCoverage | crates/rent-keeper/src/watcher.rs:184-243 | an `Ok` cycle got one envelope accepted per plan; they carry every at-risk live key occurrence exactly once; the report's counts are the number of plans and of at-risk observations |
| Coverage.FailedCycleIsAPrefix | crates/rent-keeper/src/watcher.rs:215-236 | a cycle failing in submission got a proper prefix of its plans acknowledged and ends with the next plan's own error; any other envelope the node took had its answer lost |
| Coverage.PlansCoverAtRisk | crates/rentkeeper-core/src/planner.rs:94-128 | plans name the at-risk live entries, each as often as it occurs, and nothing else |
| Coverage.PlansAreExtensions | crates/rentkeeper-core/src/planner.rs:94-128 | at most two plans, none empty, extend-only, all to the clamped horizon, for this network and observation ledger |
| Coverage.PlansAreByClass | crates/rentkeeper-core/src/planner.rs:88-91 | temporary keys never share a plan with other keys |
| Coverage.ObservationMatchesKeys | crates/rent-keeper/src/watcher.rs:187-195 | one row per key, live rows consistent: what the `zip` relies on |
| Coverage.ExtendableIsLive | crates/rent-keeper/src/watcher.rs:184-195 | the extendable list holds exactly the live positions' keys with their TTLs |
| Coverage.DriftIsSafe | crates/rentkeeper-core/src/planner.rs:102-111 | with non-decreasing chunk ledgers a moved TTL is at least 1, at least what was observed, at most horizon plus drift, and nothing underflows |
| Coverage.NoWrapIff | crates/rentkeeper-core/src/planner.rs:210-217 | no planned TTL wraps if and only if no at-risk live entry expires before the first chunk's ledger |
| Coverage.ObservedNoWrapIff | crates/rentkeeper-core/src/provider.rs:121-131 | the same for any observation the provider can make, its rows' soundness derived |
| Coverage.BackwardsDriftWraps | crates/rentkeeper-core/src/provider.rs:110-131 | observing any 51 keys with the second chunk answered at an earlier ledger succeeds and plans an entry with a wrapped TTL |
| Coverage.AcceptedEnvelope | crates/rentkeeper-core/src/tx.rs:60-217 | an acknowledged extend envelope against the simulation of its own attempt: payer, one extend to the plan's target, fee min(2^32 - 1, 100 + that answer's resource fee), that answer's data, one signature of the payer, hinting at it, valid on the configured network for it alone |
| Coverage.PlanCycleFacts | crates/rent-keeper/src/watcher.rs:155-204 | a cycle plans only from a resolved, non-empty watch list, on the configured network, from a complete, sound observation |
| Submission.SentEnvelope | crates/rent-keeper/src/watcher.rs:257-292 | what reaches send_transaction: matching operation, the ticket, fee min(2^32 - 1, 100 + resource fee), the simulation's data, one signature hinting at the payer and valid on the configured network for this transaction only |
| Submission.SubmitPlanFacts | crates/rent-keeper/src/watcher.rs:250-293 | one call accepts at most one envelope, never answers `Rejected`, and success means the next log position carries the plan |
| Submission.SubmitWithRetryFacts | crates/rent-keeper/src/watcher.rs:217-236 | at most two submissions per plan; the acknowledged envelope carries the plan, every other accepted one lost its answer |
| Submission.RunPlansFacts | crates/rent-keeper/src/watcher.rs:215-236 | an acknowledgement for every plan exactly when no error surfaces, else for a proper prefix; positions increase |
| Submission.AcceptedPlansArePrefix | crates/rent-keeper/src/watcher.rs:215-236 | acknowledgement i is for plan i |
| DaemonRuns.MetricInvariants | crates/rent-keeper/src/main.rs:169-195 | over every run: accepted <= submitted <= 2 accepted, accepted <= polls, polls + rejected <= ticks, submitted never exceeds what the node accepted, each counted envelope a different log position; the gauges show the last successful cycle: its ledger, and how many of the entries it saw live were within the horizon |
| DaemonRuns.MetricGap | crates/rent-keeper/src/watcher.rs:215-243 | over every run, the envelopes the node took that the counter leaves out are exactly those whose answer was lost and those acknowledged in a cycle that failed later, never both |
| DaemonRuns.CycleBooks | crates/rent-keeper/src/watcher.rs:213-243 | of the envelopes the node took during an `Ok` cycle the report counts exactly those whose answer was not lost; its at-risk count is the number of at-risk entries among those seen live |
| DaemonRuns.TickWork | crates/rent-keeper/src/main.rs:167-212 | for any retry policy: cycles at most the attempts, four submissions a cycle, total sleep base (2^(cycles-1) - 1), a second cycle only after an RPC error |
| DaemonRuns.TickOutcome | crates/rent-keeper/src/main.rs:169-210 | a tick counts one success, or one rejection exactly when RPC errors used up every attempt, or nothing when another error ended it at once |
| DaemonRuns.DaemonTickWork | crates/rent-keeper/src/main.rs:124-126 | the daemon's constants: 3 cycles, 12 submissions, 3 seconds of sleep at most |
| DaemonRuns.CycleWork | crates/rent-keeper/src/watcher.rs:215-236 | at most four submit_plan calls a cycle |
| Daemon.RunLoop | crates/rent-keeper/src/main.rs:154-213 | tracker, network and all six metrics after any number of ticks |
| Daemon.RunTick | crates/rent-keeper/src/main.rs:167-212 | one tick's retries, backoff and counters; terminates |
| Keeper.RunCycleOnce | crates/rent-keeper/src/watcher.rs:149-244 | the cycle's report or error and the state it leaves |
| Keeper.ObserveAndPlan | crates/rent-keeper/src/watcher.rs:155-204 | resolution, network check, observation and planning with each error path |
| Keeper.SubmitPlanOnce | crates/rent-keeper/src/watcher.rs:250-293 | ticket before build before simulate before fee before signature, so earlier failures burn the ticket |
| Keeper.SubmitExtend | crates/rent-keeper/src/watcher.rs:299-309 | an answered send is an acceptance, anything else an RPC error |
| Provider.ObserveChunk | crates/rentkeeper-core/src/provider.rs:176-234 | the hash-indexed loops equal a last-match lookup per key, or fail on an undecodable row or key |
| Provider.LastMatchIsLast | crates/rentkeeper-core/src/provider.rs:190-203 | that lookup is some matching row's expiry with no later match, and empty exactly without a match |
| Provider.ReplyStates | crates/rentkeeper-core/src/provider.rs:182-233 | what one reply says of each key: live, expired but present or archived by the last row that matches it, the archived flag, the ledger (0 when it is no u32), and the TTL shown |
| Provider.RefusedReplies | crates/rentkeeper-core/src/provider.rs:187-210 | a reply is refused exactly for a row or a requested key that cannot be decoded or hashed |
| Provider.RowsFollowKeys | crates/rentkeeper-core/src/provider.rs:121-131 | one row per key in input order, row i the last match in the reply to its own chunk |
| Provider.ChunksPartition | crates/rentkeeper-core/src/provider.rs:126-129 | chunking loses, repeats and reorders nothing; only the last chunk may be short |
| Provider.SnapshotHidesChunking | crates/rentkeeper-core/src/provider.rs:121-131 | under one snapshot any two chunk sizes yield the same pointwise table |
| Provider.ObservationSucceedsIff | crates/rentkeeper-core/src/provider.rs:105-131 | observation succeeds if and only if every chunk is answered and decodes; ledger drift plays no part |
| Network.SorobanProvider.Observe | crates/rentkeeper-core/src/provider.rs:121-131 | rows and requests sent for any chunking, stopping at the first failure |
| Network.SorobanProvider.ObserveOneChunk | crates/rentkeeper-core/src/provider.rs:176-234 | one request and the rows or error it yields |
| Planner.Planner.SplitRefinesMixed | crates/rentkeeper-core/src/planner.rs:94-128 | the split is a stable partition of the mixed plan: others then temporary, a permutation, at most two plans, none empty, same target, network and ledger, classes never mixed; fails together |
| Planner.Planner.ExtendEntriesAreAtRisk | crates/rentkeeper-core/src/planner.rs:58-84 | entries are the at-risk candidates in order, moved to the plan's ledger, with their own rendering |
| Planner.Planner.ExtendFailsIff | crates/rentkeeper-core/src/planner.rs:58-128 | planning fails if and only if some at-risk candidate's key cannot be rendered |
| Planner.Planner.RestoreSkipsUnflagged | crates/rentkeeper-core/src/planner.rs:146-149 | entries not flagged archived are skipped wherever they stand |
| Planner.Planner.BuiltPlansAreSelfConsistent | crates/rentkeeper-core/src/plan.rs:113-198 | every extend plan the planner builds survives its JSON round trip |
| Planner.Planner.PlanExtend | crates/rentkeeper-core/src/planner.rs:58-84 | the mixed plan or the first rendering error |
| Planner.Planner.PlanExtendSplit | crates/rentkeeper-core/src/planner.rs:94-128 | the split plans or the first rendering error |
| Planner.Planner.PlanRestore | crates/rentkeeper-core/src/planner.rs:141-169 | the restore plan of the flagged entries or the first rendering error |
| Plan.RoundTripIff | crates/rentkeeper-core/src/plan.rs:113-198 | decode(encode(p)) == p for exactly the self-consistent plans |
| Plan.DecodesIff | crates/rentkeeper-core/src/plan.rs:139-198 | a document decodes to a plan if and only if it says that plan, name by name: the two operation names and no other, two defaulted entry fields, u32 numbers, durability from the key alone |
| Plan.RefusedEntries | crates/rentkeeper-core/src/plan.rs:163-175 | an undecodable key is refused first, then an unknown operation |
| Plan.DurabilityOnTheWire | crates/rentkeeper-core/src/plan.rs:119-131 | the written durability is the class of the entry's own key, null without one |
| Plan.DecodedPlansAreSelfConsistent | crates/rentkeeper-core/src/plan.rs:139-198 | any decoded plan, hand-edited or not, has keys matching their XDR and durability, and round-trips |
| Plan.Deserialize | crates/rentkeeper-core/src/plan.rs:161-198 | the decoding loop with its error order |
| Plan.ArchivalPlan.KindsCountOnce | crates/rentkeeper-core/src/plan.rs:82-87 | extend and restore counts add up to the plan's length |
| Operator.DaemonAndOperatorSplitTheWorld | crates/restore-planner/src/main.rs:115-151 | of one observation each position is in exactly one of the daemon's list and the restore plan, order kept; when the operator refuses and when it fails |
| Operator.PlanRestore | crates/restore-planner/src/main.rs:89-160 | the arm's overwrites of target and TTLs leave the planner's plan unchanged; errors included |
| Operator.RawFlagsLoseExpired | crates/restore-planner/src/main.rs:116-129 | with the observations' own flags an expired entry still in the ledger would be dropped |
| Operator.RestoreEntriesShape | crates/rentkeeper-core/src/planner.rs:141-169 | restore entries are the flagged keys in order, without expiry, at the plan's ledger; fails exactly on an unrenderable key |
| Operator.RestorePlansRoundTrip | crates/restore-planner/src/main.rs:137-159 | every restore plan the operator emits reads back as it was |
| Operator.PlanExtend | crates/restore-planner/src/main.rs:162-223 | the operator's extend plan or its first error |
| Operator.OperatorExtendIff | crates/restore-planner/src/main.rs:193-215 | it succeeds if and only if every entry is live and renderable, names them all in order with their own rendering, class and TTL, and the first offender decides the error |
| Operator.ExtendPlansRoundTrip | crates/restore-planner/src/main.rs:162-223 | every extend plan the operator emits names the requested keys, all live, for min(days in ledgers, 6,312,000), and reads back as it was |
| Operator.VerdictAgreesWithObservation | crates/rentkeeper-core/src/planner.rs:177-188 | the planner's verdict and observation draw the line at the same ledger with the same remainder |
| Tx.TxBuilder.PreparedEnvelope | crates/rentkeeper-core/src/tx.rs:60-217 | build, adopt, sign succeeds exactly for 1 to 100 entries and decodable data; every field of the result, the hint being that of the paying account |
| Tx.TxBuilder.UnsignedEnvelope | crates/rentkeeper-core/src/tx.rs:60-135 | refused exactly when empty or above 100 entries; otherwise one operation by the first entry's kind on the plan's keys in order, zero resources, base fee |
| Tx.TxBuilder.AdoptAndSignCases | crates/rentkeeper-core/src/tx.rs:148-217 | each error of adopting a simulation and of signing with its exact condition; nothing else changes |
| Tx.TxBuilder.SigningFirstBreaksTheSignature | crates/rentkeeper-core/src/tx.rs:137-172 | adopting a simulation after signing keeps the signature valid only if nothing changed |
| Tx.TxBuilder.ApplySimulation | crates/rentkeeper-core/src/tx.rs:148-178 | fee and data adopted together or the envelope untouched |
| Tx.TxBuilder.Sign | crates/rentkeeper-core/src/tx.rs:184-217 | one signature appended over the final transaction or the envelope untouched |
| Ttl.FromDaysLeast | crates/rentkeeper-core/src/ttl.rs:139-156 | the least ledger count that lasts the days, none for negative days, capped at u32 |
| Ttl.FromDaysMonotone | crates/rentkeeper-core/src/ttl.rs:139-156 | more days, no fewer ledgers |
| Ttl.ExtendToIsClampedHorizon | crates/rentkeeper-core/src/ttl.rs:172-176 | the target is min(horizon, maximum) and its own target |
| Ttl.DaysToExtendToLaws | crates/restore-planner/src/cli.rs:217-219 | the horizon up to 6,312,000; monotone, within the network maximum, idempotent |
| Ttl.NoHeadroomIffAtRisk | crates/rentkeeper-core/src/ttl.rs:180-184 | in wrapping u64 arithmetic headroom is zero exactly when the entry is at risk (at five seconds a ledger), and for any constants is the exact number of seconds exactly when that fits |
| Ttl.TtlExactIff | crates/rentkeeper-core/src/ttl.rs:62-65 | the subtraction is exact exactly when the expiry is not before the snapshot |
| Watch.ValidatedWatchResolves | crates/rent-keeper/src/watcher.rs:33-71 | a validated list resolves to one key per rule in order, without a panic |
| Watch.ResolvesIff | crates/rent-keeper/src/watcher.rs:33-71 | a rule resolves if and only if it is valid or a short hash, and panics if and only if its text has more than 32 good bytes |
| Watch.ResolvesToNamed | crates/rent-keeper/src/watcher.rs:33-71 | a rule resolves to a key if and only if it names it: the persistent instance entry; exactly the parsed key in the named class; the code whose hash the text spells in hex, short texts zero-padded |
| Watch.ResolutionIsFirstFailure | crates/rent-keeper/src/watcher.rs:33-71 | one key per rule in order, or the first failing rule's failure |
| Watch.DecodedIsText | crates/rent-keeper/src/watcher.rs:84-96 | whatever the daemon decodes is the hex text of at most 32 bytes: encoding inverts decoding |
| Watch.ValidatedHashDecodes | crates/rent-keeper/src/config.rs:191-197 | validation accepts exactly what the CLI decodes, and there the daemon agrees |
| Watch.DaemonHashOutcome | crates/rent-keeper/src/watcher.rs:84-96 | exactly which texts the daemon decodes, refuses or writes out of bounds for |
| Watch.HexRoundTrip | crates/restore-planner/src/cli.rs:157-185 | both decoders invert encoding for all 32-byte hashes, any letter case, with or without 0x |
| Watch.WasmHashBytes | crates/rent-keeper/src/watcher.rs:84-96 | the in-place decoding loop |
| Watch.ResolveWatchKeys | crates/rent-keeper/src/watcher.rs:33-71 | the keys or the first failing rule's failure |
| Config.LoadConfig | crates/rent-keeper/src/config.rs:121-152 | accepts exactly the valid files; otherwise the error of the first failing check, each with its exact condition, and the position of the first bad rule |
| Config.LoadedConfigIsSound | crates/rent-keeper/src/config.rs:121-152 | a loaded configuration is for the file's network, resolves without panic, has the fewest 5-second ledgers that last the file's days as its horizon, and extends to min(that, maximum), the maximum being the network's own if fetched and 6,312,000 otherwise |
| Config.LoadedKeysAreNamed | crates/rent-keeper/src/watcher.rs:33-71 | a loaded configuration watches the keys its rules name, in order; a code rule's text spells exactly the watched hash |
| Config.LoadedConfigNeverFailsToResolve | crates/rent-keeper/src/watcher.rs:155-160 | no cycle of a loaded configuration fails for its watch list |

## Left out

- RPC transport, tokio scheduling, signals, Prometheus and the metrics server: only answers, ticks and plain counters remain; a run is any number of ticks before a termination signal.
- SHA-256, Ed25519, XDR, base64 and strkey: library functions passed in as `Codec`, `Crypto` and `Parsers`; lemmas that need their laws (parse inverts render, digests and signatures do not collide) say so.
- Error texts: an error is its constructor and whether its text contains a recognised bad-sequence marker; build and decoding errors of the core crate are taken not to contain one.
- JSON text: plans are encoded to and decoded from value trees; reading a struct from a positional array, and which of several simultaneous field errors is reported, are not modelled.
- TOML text, environment variables, secret files and secret decoding: `Config.RawConfig` starts after them.
- Floating point: days are reals, `None` stands for a value that is not finite, and rounding of the multiplication is not modelled.
- Concurrency inside a method: all clones of the tracker share one lock-guarded state and the lock is held across the account lookup, so concurrent callers are a sequence of whole operations in any order, whoever makes them (`Sequence.TrackerOp`).
- Integer widths that are not the point: i64 sequence overflow, i64 and u64 metric saturation, and the delay's shift for absurd attempt counts are unbounded integers here.
- CLI parsing, `inspect`, `show-plan`, table printing, logging and file output: user interface.
- Restore transactions on the ledger: RestoreFootprint is built but what it does is a `Revive` step of the environment, since the daemon never sends one.
- Entries deleted by their own contract while live: the environment evicts only entries that are not live.
- Footprint-side rules of the network: an extend envelope names its keys read-write as the code does; conformance with Stellar CAP-0046-12 is not claimed.
- Changes of the network's maximum entry TTL during a run: it is a constant of the modelled world.
- Ledger heights beyond u32: the modelled ledger stops closing there.
- Mempool rules: the account's sequence advances when an envelope is accepted, not when it is applied; a lookup that does not count some accepted envelopes yet is one that lags.
- Liveness of the network: nothing says envelopes are applied in time; keep-alive takes it as the age bound, or as application within D ticks.
- `Observation` beyond what planning reads: `StateArchival` settings enter as the optional constants of `Config.AtStartup`.
