# Link Observatory: a verified model

Link Observatory ingests telemetry records about network links, fences out what is stale, replayed
or outranked, keeps bounded evidence per link and metric, derives rates with exact integer
arithmetic, classifies each link, and persists everything in a versioned snapshot. This project
models that logic in Dafny and proves what it promises over every input, every run of calls and
every interleaving of steps.

Check everything with `dafny verify dfyconfig.toml`.

## How the model is laid out

| files | what they hold |
|---|---|
| `Checked`, `CounterTracker` | 128-bit arithmetic, the two long divisions, counter wrap and reset, utilization |
| `Domain`, `Retirement`, `Sums` | identities, enumerations, readings, policy; the bounded list of superseded values; sums over maps |
| `StoreSpec`, `EvidenceStore` | one `accept` call as a function on a store value, and the store object proved against it |
| `StoreConservation`, `StoreStreams`, `StoreReplay`, `StoreInvariant`, `StoreConfluence`, `StoreRestart`, `StoreQuery` | what runs of calls keep, and what queries return |
| `LateFences`, `ForgottenScopes`, `ChiefRuns` | refusals that leave a mark, and replays that are accepted again: exact conditions, and runs in which it happens; runs of one source |
| `RegistrySpec`, `LinkRegistry` | links, sources and topology generations |
| `ObservatorySpec`, `Observatory`, `ObservatoryRuns`, `ObservatoryRestart`, `StagedRuns` | registry and store together, run by records |
| `RefusedGeneration`, `TransitionLog`, `RestartedState` | what a refused observation does to its link; the bounded transition history; classification across a restart |
| `EvidenceAge`, `Winner`, `Derivation`, `Classifier`, `ClassifierSoundness` | ageing, the winner, derived rates, the link state and why it may be believed |
| `Conflicts`, `MissedConflict`, `QualityRule`, `RatioRule`, `MaskedLoss` | exactly when the conflict, quality and ratio rules fire, and runs in which they miss |
| `Bytes`, `Format`, `Codec`, `Snapshot`, `Representable`, `SnapshotSize`, `SnapshotRestart`, `CrashSafety` | byte layout, container, round trips, sizes, restart from bytes, crash steps |
| `LongHistory`, `ManySources`, `LosslessSnapshots` | runs whose snapshot outgrows the decoder, and the exact condition under which none is lost |
| `Queue`, `Ingest`, `IngestOrder`, `DeclaredLinks` | bounded queues, the worker pool as a state machine, per-source order, and the pool over registry and store |
| `Text`, `MetricText`, `Fields`, `Record`, `RecordReader`, `RecordRoundTrip` | the record grammar, its parser and its printer |
| `Frame`, `Sha256` | wire framing under any chunking; streaming hash and padding |

Objects the original updates in place are classes whose methods are proved equal to functions on the
old state; the theorems are about those functions. Identities are 128-bit numbers with a reserved
zero. Counters that only count events are unbounded. Digests, the frame hash, the identity of a transition, the SHA-256 block
compression and the source router are parameters, so every theorem holds for any of them. The clock
is a parameter of each call.

## What the code does where the obvious statement is different

- `u128_div_u64` refuses some representable quotients when the divisor exceeds 2^63
  (`ShiftingQuotientRefusesRepresentable`); up to 2^63 it is complete.
- A fence is not always without effect: an authority downgrade or a full store refuses after the
  scope switch and the gap count were applied to the stream. `RefusedCallMarksIff` says, from what is
  known before the call, exactly when a refusal leaves a mark; in the run of `UnequalGapEpochsLoseNothing` a refused call counts a gap, so
  unequal gap epochs do not mean that a revision was lost. A replay of an accepted observation changes
  fence and duplicate counters only.
- Beyond 32 superseded scopes the oldest is forgotten: in the run of `ReplayAcceptedFrom34` the first
  observation is accepted again from the 34th scope on. `ReplayRefusedIff` gives the exact condition.
- The generation is observed before the store's fences, so a refused observation can supersede a
  link's generation (`RefusalCanMoveGeneration`, a run from the empty observatory;
  `GenerationMovesIff`). If the generation is new, nothing then stands for the link, whatever its state
  was (`RefusedGenerationSilences`). The store's own generation fence never fires below the observatory
  (`StoreNeverFencesGenerations`).
- The promise that the worker count changes nothing holds of the observatory's store when links are
  declared and their observations carry the declared generation (`WorkerCountLeavesEvidence`). Two
  observations of one link commute exactly when both carry its current generation or neither does
  (`OrdersAgreeIff`); `OrderMattersAcrossGenerations` is a run in which they do not.
- A clamped age makes ancient evidence look new (`ClampRevivesAncientEvidence`). An age grows exactly
  when the later difference can be represented or there was no age to lose (`AgeGrowsIff`).
- For a counter family the conflict check takes the winner's utilization for the left side of every
  pair, so a disagreement between the winner and the contender listed before it goes unseen:
  `CounterConflictIff` is the exact condition, `SecondWinnerSeesNoConflict` the blind spot for all
  inputs, and `ConflictGoesUnseen` a run in which two primary sources differ tenfold and the report
  says corroborated.
- `worst_quality` treats zero as unset, and the ratio kept for errors and discards is the last in key
  order, not the largest. In the run of `TotalLossIsHealthy` inbound quality reads zero, every inbound
  octet is in error, and the link is Healthy. `QualityRuleIff` says exactly when the quality rule fires,
  `ErroringIff` exactly when a link is Erroring.
- State precedence follows src/classify/classifier.cpp:708-730 and docs/states.md:27-38; the comment
  at include/linkobs/domain/enums.hpp:74-76 lists another order.
- A key with an error class and no direction prints as text that does not parse
  (`UndirectedClassIsLost`); `KeyRoundTripIff` gives the exact condition.
- A policy may allow more evidence per key, or more sources, than the decoder's fixed bounds of 1024
  and 4096. `LongRunIsLost` and `WideRunIsLost` are runs whose snapshot is then written and refused on
  load, under any size limit from 154,467 and 2,331,746 bytes on, the default 64 MiB among them;
  `LosslessIff` shows that the two bounds are exactly what is needed.
- A snapshot takes at most `max_result_rows` transitions, fewer than the history may hold, so a restart
  can lose the oldest (`RestoredRing`), and with them what the flap rule counts: `RestoredListing` says
  exactly when a link's listed transitions survive, and then so does its state
  (`StateSurvivesRestart`). Every dropped event is counted once for each ring it leaves
  (`DroppedIsCounted`).
- A write over an unloadable primary rotates it over the good backup (`BadPrimaryLosesBackup`);
  `SurvivesIffSafe` gives the exact condition for crash safety.
- After a restart the submitted count restarts from zero while accepted and fenced are restored, so
  the conservation law of a run does not carry over a reload (`RestoredStatsBalanceIff`).

## Model

| member | source | states |
|---|---|---|
| `Checked.MulU64` | include/linkobs/core/checked.hpp:119-134 | the four-limb product is the exact 128-bit product |
| `Checked.CheckedMul` | include/linkobs/core/checked.hpp:47-61 | exact product below 2^64, otherwise a failure |
| `Checked.SubU128` | include/linkobs/core/checked.hpp:164-170 | subtraction modulo 2^128 across the borrow |
| `Checked.Shl1` | include/linkobs/core/checked.hpp:172-181 | doubling modulo 2^128 |
| `Checked.DivU64` | include/linkobs/core/checked.hpp:136-162 | equals the floor quotient when it fits and no running remainder overflows 64 bits, otherwise fails |
| `Checked.ShiftingQuotientComplete` | include/linkobs/core/checked.hpp:136-162 | complete for every divisor from 1 to 2^63 |
| `Checked.ShiftingQuotientRefusesRepresentable` | include/linkobs/core/checked.hpp:145-152 | a representable quotient that is refused, with a divisor above 2^63 |
| `Checked.DivU128` | include/linkobs/core/checked.hpp:183-216 | succeeds exactly when the divisor is non-zero and the floor quotient is below 2^64, and returns it, through a 129-bit intermediate |
| `Checked.ShiftAndSubtract` | include/linkobs/core/checked.hpp:195-211 | one division step subtracts exactly when the doubled remainder reaches the divisor, carry included |
| `Checked.CheckedMulDiv` | include/linkobs/core/checked.hpp:218-226 | multiply then divide without losing the high word |
| `CounterTracker.DeriveUtilization` | src/store/counter_tracker.cpp:175-224 | with a valid delta, valid exactly when all three quantities fit 64 bits, returning rate and utilization exactly, otherwise Overflow |
| `CounterTracker.RatioPpb` | src/store/counter_tracker.cpp:226-240 | floor of numerator times 10^9 over denominator, or a failure |
| `CounterTracker.WrapNeverOverflows` | src/store/counter_tracker.cpp:55-70 | the overflow branch is unreachable for readings within their width |
| `CounterTracker.StepIsTrue` | src/store/counter_tracker.cpp:27-80 | a forward or wrapped step between readings of one true count is the true step |
| `CounterTracker.ValidDeltaIsTrue` | src/store/counter_tracker.cpp:27-80 | every delta reported valid over a run of samples is the true step |
| `CounterTracker.DeltasTelescope` | src/store/counter_tracker.cpp:27-80 | consecutive valid deltas sum to the difference of the true counts over any stretch of any run |
| `CounterTracker.RederivationAgrees` | src/store/counter_tracker.cpp:103-173 | deriving from the retained pair is valid with the same delta exactly when the observation reported it valid, given a positive in-bound window |
| `Retirement.Trim` | src/store/evidence_store.cpp:108-112 | erasing from the front leaves the last n |
| `Retirement.Adopt` | src/store/link_registry.cpp:169-180 | adopting a value that is neither current nor retained keeps the record of the last n superseded values exact |
| `EvidenceStore.EvidenceStore.Accept` | src/store/evidence_store.cpp:52-226 | the object's new state and outcome are those of the specification, for every fence and for acceptance |
| `EvidenceStore.EvidenceStore.NextScope` | src/store/evidence_store.cpp:93-117 | adopts, retires or refuses a scope as specified |
| `EvidenceStore.EvidenceStore.AdmitToStream` | src/store/evidence_store.cpp:93-143 | scope then revision fences, gap and duplicate counts on the stream |
| `EvidenceStore.EvidenceStore.NewestOutranks` | src/store/evidence_store.cpp:145-158 | newest-first scan equals the recursive definition of being outranked |
| `EvidenceStore.EvidenceStore.CheckSlot` | src/store/evidence_store.cpp:145-166 | authority downgrade before store full |
| `EvidenceStore.EvidenceStore.Record` | src/store/evidence_store.cpp:168-217 | appends within the bound and folds counters into the source's continuity |
| `EvidenceStore.EvidenceStore.Contenders` | src/store/evidence_store.cpp:228-273 | the newest evidence of each source, newest first, evaluated, up to the bound |
| `EvidenceStore.EvidenceStore.ListNewest` | src/store/evidence_store.cpp:240-271 | the newest-first walk keeps the first evidence of each source, stopping at the bound |
| `EvidenceStore.EvidenceStore.PersistedSlots` | src/store/evidence_store.cpp:362-379 | lists every slot exactly once |
| `EvidenceStore.EvidenceStore.PersistedStreams` | src/store/evidence_store.cpp:381-388 | lists every stream exactly once |
| `EvidenceStore.EvidenceStore.Restore` | src/store/evidence_store.cpp:390-416 | restores a slot within bounds or changes nothing |
| `EvidenceStore.EvidenceStore.RestoreStreamRecord` | src/store/evidence_store.cpp:418-430 | restores a stream within bounds or changes nothing |
| `EvidenceStore.EvidenceStore.RestoreSnapshot` | src/store/evidence_store.cpp:390-444 | a whole snapshot restores to the specified state or fails at the first bad record |
| `StoreConservation.RunBalanced` | src/store/evidence_store.cpp:31-34 | over every run: accepted plus fenced is the number of calls, each reason's count is the calls it refused, and every total is the sum over streams, slots and continuity records |
| `StoreConservation.ApplyBalanced` | src/store/evidence_store.cpp:52-226 | one call keeps all books balanced from any balanced state |
| `StoreStreams.RetiredScopesExact` | src/store/evidence_store.cpp:93-117 | over every run a stream holds exactly the last min(32, changes - 1) superseded scopes in order, duplicate-free and without the current one |
| `StoreStreams.TraceValid` | src/store/evidence_store.cpp:93-143 | every run moves each source's scope, revision and gap count only in the allowed ways |
| `StoreReplay.ReplayIsNoOp` | src/store/evidence_store.cpp:36-50 | resubmitting a remembered observation under any context is refused and moves only fence and duplicate counters |
| `StoreReplay.AcceptedReplayIsNoOp` | src/store/evidence_store.cpp:93-143 | in any run where the source superseded at most 32 scopes since the acceptance, replaying an accepted observation is a no-op |
| `StoreReplay.ReplayRefusedIff` | src/store/evidence_store.cpp:107-143 | a replay of an accepted observation is refused under every context exactly when its scope is retained, or in force with at least that revision |
| `StoreReplay.EqualGapEpochsMissNothing` | src/store/evidence_store.cpp:118-143 | two accepted observations of a source in one scope with equal gap epochs, and at most 32 scopes superseded between them, have every revision between them accepted |
| `StoreReplay.SampleCarriesGapEpoch` | src/store/evidence_store.cpp:175-187 | the sample recorded for an accepted counter reading carries the stream's gap count |
| `ForgottenScopes.ReplayAcceptedFrom34` | src/store/evidence_store.cpp:93-117 | in a run of n observations that each start an epoch, replaying the first is accepted exactly when n is at least 34 |
| `ChiefRuns.ChiefRun` | src/store/evidence_store.cpp:52-226 | a run of one primary source in one scope with consecutive revisions leaves exactly the slots built from each key's own calls |
| `ChiefRuns.ChiefAnswer` | src/store/evidence_store.cpp:52-226 | and every call of it is accepted |
| `LateFences.RefusalMarksIff` | src/store/evidence_store.cpp:93-166 | a call is refused and yet changes its stream beyond the fence count exactly when it passes the entry fences, its scope is neither in force nor retained or its revision skips some, and a late fence awaits it, which is then the answer |
| `LateFences.RefusedCallMarksIff` | src/store/evidence_store.cpp:93-166 | the same after any run, with nothing assumed of the stream |
| `LateFences.UnequalGapEpochsLoseNothing` | src/store/evidence_store.cpp:118-166 | a run in which a refused call counts a gap, and consecutive accepted revisions carry unequal gap epochs |
| `StoreInvariant.RunKeepsInv` | src/store/evidence_store.cpp:168-226 | in every reachable store a source's newest retained counter evidence is its continuity's latest sample, and all bounds hold |
| `StoreConfluence.CallsCommute` | src/store/evidence_store.cpp:52-226 | calls of different sources on different slots commute while there is room |
| `StoreConfluence.Confluent` | include/linkobs/runtime/worker.hpp:3-6 | every interleaving that keeps each source's order leaves the same slots, streams, totals and fence counts |
| `StoreRestart.RestoreRebuilds` | src/store/evidence_store.cpp:362-444 | restoring any listing of a sound store gives the store back, but for session fence counts |
| `StoreRestart.RestartEquivalent` | src/store/evidence_store.cpp:362-444 | after the restart every later sequence of calls and queries is answered alike |
| `StoreQuery.ContenderIsNewest` | src/store/evidence_store.cpp:228-273 | every contender is its source's newest retained evidence |
| `RegistrySpec.RetiredGenerationsExact` | src/store/link_registry.cpp:142-181 | over every run a link holds exactly the last min(32, changes) superseded generations in order, duplicate-free and without the current one |
| `RegistrySpec.BehindIff` | src/store/link_registry.cpp:142-181 | a generation is refused exactly when it is among the last 32 superseded; refusals and repeats change nothing; any other becomes current |
| `RegistrySpec.DoKeepsInv` | src/store/link_registry.cpp:14-128 | every operation keeps facts valid and both registries within their bounds |
| `RegistrySpec.IdentityIsFixed` | src/store/link_registry.cpp:26-37 | no operation changes a registered source's authority or provenance |
| `LinkRegistry.LinkRegistry.ObserveGeneration` | src/store/link_registry.cpp:142-181 | new state and observation as specified |
| `LinkRegistry.LinkRegistry.RegisterLink` | src/store/link_registry.cpp:54-93 | first registration, merge, generation change and every refusal as specified |
| `LinkRegistry.LinkRegistry.RegisterSource` | src/store/link_registry.cpp:14-43 | registration, revival and every refusal as specified |
| `LinkRegistry.LinkRegistry.EnsureImplicitLink` | src/store/link_registry.cpp:105-128 | implicit registration only where the policy allows, never with capacity |
| `LinkRegistry.LinkRegistry.NoteAccepted` | src/store/link_registry.cpp:251-265 | counts and keeps the latest instants |
| `LinkRegistry.LinkRegistry.Restore` | src/store/link_registry.cpp:209-227 | restores a valid link within bounds or changes nothing |
| `Observatory.Observatory.ApplyObservation` | src/runtime/observatory.cpp:324-435 | source, family, link, generation, store, in that order, with the statistics each path moves |
| `Observatory.Observatory.ApplyTrusted` | src/runtime/observatory.cpp:349-391 | the path of a live source: link, then generation, then store |
| `Observatory.Observatory.ApplyLink` | src/runtime/observatory.cpp:282-293 | registers and then observes the declared generation |
| `Observatory.Observatory.ApplySource` | src/runtime/observatory.cpp:259-281 | registers, and retires if so declared |
| `Observatory.Observatory.ApplyBatch` | src/runtime/observatory.cpp:172-185 | applies the records of a batch in order |
| `ObservatoryRuns.RunFactors` | src/runtime/observatory.cpp:257-435 | every run of records is a run of registry operations beside a run of store calls, so what is proved of either holds inside |
| `ObservatoryRuns.RunStatsBalanced` | src/runtime/observatory.cpp:324-435 | over every run submitted = accepted + fenced, accepted is the store's total and the sum over links, fenced is the store's total plus own fences |
| `ObservatoryRuns.StoreNeverFencesGenerations` | src/runtime/observatory.cpp:365-390 | the store's generation fence count stays zero over every run |
| `ObservatoryRuns.GenerationMovesIff` | src/runtime/observatory.cpp:365-390 | for every observation the link's generation changes exactly when the source is trusted, the link known or implicitly registered, and the generation its first or neither current nor retained, whatever the store answers |
| `RefusedGeneration.RefusalCanMoveGeneration` | src/runtime/observatory.cpp:365-402 | a run from the empty observatory: a replayed revision under a new generation is refused, yet the link is left with that generation and with nothing that stands |
| `RefusedGeneration.NeverCurrentNeverHeld` | src/runtime/observatory.cpp:365-402 | over every run, a generation that was never a link's current one is carried by no retained evidence about it |
| `RefusedGeneration.RefusedGenerationSilences` | src/runtime/observatory.cpp:365-402 | after every run, a refused observation under a generation its link never had leaves no evidence standing: the link is Unknown, Stale or transition-driven Flapping |
| `ObservatoryRuns.AcceptedIsCurrent` | src/runtime/observatory.cpp:365-402 | what is accepted belongs to the link's current generation |
| `ObservatoryRestart.RegistryRebuilt` | src/runtime/observatory.cpp:673-693 | restoring any listing of a sound registry gives it back, retired sources included |
| `ObservatoryRestart.StreamsAreRegistered` | src/runtime/observatory.cpp:324-390 | every stream belongs to a registered source, so streams stay within the source bound |
| `ObservatoryRestart.ObservatoryRestarts` | src/runtime/observatory.cpp:665-727 | after every run, restoring succeeds and every later sequence of records is answered alike, with no bound assumed on the sources |
| `ObservatoryRestart.RestoredStatsBalanceIff` | src/runtime/observatory.cpp:712-718 | restored statistics balance exactly when nothing was saved |
| `EvidenceAge.AgeGrowsIff` | src/domain/evidence.cpp:7-32 | age does not shrink as time advances exactly when the later difference fits or there was no age to lose |
| `EvidenceAge.FreshnessOnlyFades` | src/domain/evidence.cpp:34-45 | while both differences fit, evidence fresh later was fresh before and expired evidence stays expired |
| `EvidenceAge.FadesIff` | src/domain/evidence.cpp:7-45 | as time advances freshness only fades, under every pair of windows, exactly when neither difference overflows or the other age makes up for the one that does |
| `EvidenceAge.ClampRevivesAncientEvidence` | src/domain/evidence.cpp:17-20 | an overflowing age counts as zero and makes the oldest evidence fresh |
| `Winner.SelectWinner` | src/classify/classifier.cpp:39-51 | the loop returns the specified winner |
| `Winner.WinnerIsMaximal` | src/classify/classifier.cpp:15-51 | the winner is an eligible contender and no eligible one has higher priority |
| `Winner.WinnerIgnoresOrder` | src/classify/classifier.cpp:15-51 | for contenders of distinct sources the winner does not depend on their order |
| `Winner.ContendersDistinct` | src/store/evidence_store.cpp:228-273 | contenders come from distinct sources |
| `Derivation.DeriveFor` | src/classify/classifier.cpp:123-176 | the derived values are those specified |
| `Derivation.DerivedIsJustified` | src/classify/classifier.cpp:108-176 | a derived value rests on the winner's retained pair, current in scope and generation, newer fresh, older not expired, revisions increasing, gap epochs equal, window in bound, no reset |
| `Derivation.DerivedUtilizationIsExact` | src/classify/classifier.cpp:158-176 | a derived utilization is the exact floor for the pair and the declared capacity |
| `Classifier.CompareTop` | src/classify/classifier.cpp:361-404 | the pairwise loop finds a conflict exactly when a compared pair disagrees |
| `Classifier.BuildReport` | src/classify/classifier.cpp:299-413 | the report of a key as specified |
| `Classifier.KeysFor` | src/classify/classifier.cpp:272-283 | every key with a slot plus the three that are always reported, in key order |
| `Classifier.Summarise` | src/classify/classifier.cpp:448-640 | one pass over the reports collects the specified summary |
| `Classifier.Classify` | src/classify/classifier.cpp:252-792 | reports and state are those of the specification |
| `Conflicts.DownIff` | src/classify/classifier.cpp:708-730 | Down exactly when a decisive winner reads down or disabled and no key's top contenders contradict each other where the code looks |
| `Conflicts.ConflictingIff` | src/classify/classifier.cpp:361-404 | Conflicting exactly when, for some key, a later top contender of a counter family is apart from the winner, or some two readings of another family disagree |
| `ClassifierSoundness.DownIsJustified` | src/classify/classifier.cpp:428-446 | Down rests on standing evidence that reads down or disabled |
| `ClassifierSoundness.HealthyIsJustified` | src/classify/classifier.cpp:640-730 | Healthy rests on standing evidence that reads up, with no conflict and no disabled winner |
| `ClassifierSoundness.SilenceIsNoClaim` | src/classify/classifier.cpp:299-730 | with no standing evidence only Unknown, Stale or transition-driven Flapping |
| `Conflicts.ConflictNeedsTwoTopSources` | src/classify/classifier.cpp:361-404 | a conflict names two eligible contenders of different sources and the highest authority that contradict each other, the first of them the winner for a counter family |
| `Conflicts.CounterConflictIff` | src/classify/classifier.cpp:361-404 | a counter family is in conflict exactly when some top contender after the first listed derives a utilization beyond tolerance from the winner's |
| `Conflicts.ReadingConflictIff` | src/classify/classifier.cpp:361-404 | any other family is in conflict exactly when the readings of some two top contenders disagree |
| `Conflicts.SecondWinnerSeesNoConflict` | src/classify/classifier.cpp:374-398 | with two top contenders of a counter family and the second winning, the report says corroborated whatever the two derive to |
| `MissedConflict.ConflictGoesUnseen` | src/classify/classifier.cpp:374-398 | a run of four accepted readings of two primary sources whose utilizations differ tenfold, reported as corroborated |
| `ClassifierSoundness.StandingOnlyShrinks` | src/domain/evidence.cpp:7-45 | for a fixed store the standing evidence only shrinks as time advances, while its age can be represented |
| `ClassifierSoundness.DerivedReportIsJustified` | src/classify/classifier.cpp:329-359 | in every reachable state a report with a derived delta rests on the justified pair of its winner |
| `QualityRule.QualityRuleIff` | src/classify/classifier.cpp:588-612 | for every store, the quality rule fires exactly when some winning reading is at or below the threshold and no zero is followed, in report order, by readings all above it |
| `QualityRule.SummaryFoldsQualities` | src/classify/classifier.cpp:588-612 | the summary's worst quality is the zero-is-unset fold over the winners' readings in report order |
| `MaskedLoss.TotalLossIsHealthy` | src/classify/classifier.cpp:536-612 | a run of nine accepted readings with a standing inbound quality of zero and an inbound error ratio of one, of which zero is kept, whose link is Healthy |
| `RatioRule.RatioIsLast` | src/classify/classifier.cpp:536-586 | the ratio kept of a family is that of its last key with one, and there is none exactly when no key has one |
| `RatioRule.RatioRuleIff` | src/classify/classifier.cpp:536-639 | for every store, the error or discard rule fires exactly when the last ratio in key order reaches the threshold |
| `RatioRule.ErroringIff` | src/classify/classifier.cpp:536-730 | a link is Erroring exactly when the last error ratio in key order reaches the threshold and it is neither in conflict, down, disabled nor flapping |
| `Bytes.ByteWriter.Int` | src/persist/codec.cpp:26-36 | shifting out bytes appends the little-endian encoding |
| `Bytes.ByteReader.Int` | src/persist/codec.cpp:81-105 | reading byte by byte gives the number the bytes denote, or fails when they run out |
| `Bytes.ByteReader.LengthPrefixed` | src/persist/codec.cpp:145-160 | a length within bound and data, then that many bytes |
| `Bytes.ByteReader.Bool` | src/persist/codec.cpp:116-127 | only zero and one are booleans |
| `Bytes.LittleRoundTrip` | src/persist/codec.cpp:26-36 | decoding the encoding of an n-byte number returns it |
| `Bytes.FromLittleRoundTrip` | src/persist/codec.cpp:81-105 | every byte string is the encoding of the number it denotes |
| `Format.ListExact` | src/persist/codec.cpp:456-491 | a counted list of exact records is exact: round trip with any suffix within the bound, refusal beyond it |
| `Format.DecodeList` | src/persist/codec.cpp:473-491 | the decoding loop equals the specification of a counted list |
| `Format.EncodeList` | src/persist/codec.cpp:456-471 | the encoding loop writes the count and every record |
| `Codec.PayloadExact` | src/persist/codec.cpp:258-345 | every reading survives encoding with any suffix |
| `Codec.HeldExact` | src/persist/codec.cpp:347-398 | evidence survives encoding with any suffix |
| `Codec.ContinuityExact` | src/persist/codec.cpp:400-454 | counter continuity survives, absent samples included |
| `Codec.StreamExact` | src/persist/codec.cpp:456-491 | a stream decodes exactly when its retired list is within 64 |
| `Codec.SlotRecordExact` | src/persist/codec.cpp:493-550 | a slot decodes exactly when history and continuity are within their bounds |
| `Codec.SlotBounds` | src/persist/codec.cpp:521-550 | what those bounds are |
| `Codec.LinkExact` | src/persist/codec.cpp:552-687 | a persisted link decodes exactly when its names and retired list are within bounds |
| `Codec.SourceExact` | src/persist/codec.cpp:585-607 | a source record decodes exactly when its name is within bound |
| `Codec.EventExact` | src/persist/codec.cpp:609-632 | a transition decodes exactly when its texts are within bound |
| `Codec.CollectEntries` | src/persist/codec.cpp:502-545 | inserting a map's ascending entries rebuilds the map |
| `Snapshot.WrittenIsSound` | src/persist/snapshot.cpp:139-152 | a written container passes every header check |
| `Snapshot.WrittenLoadsIff` | src/persist/snapshot.cpp:99-396 | a written container loads back in full exactly when collections and strings fit the decoder's bounds, else is refused as corrupt |
| `Snapshot.PayloadDecodes` | src/persist/snapshot.cpp:268-396 | the payload decodes with no trailing bytes exactly when its contents fit |
| `SnapshotRestart.CollectedFits` | src/runtime/observatory.cpp:628-647 | what a reachable observatory collects, and any list a transition log gives, fits if the policy stays within the fixed bounds |
| `SnapshotRestart.SnapshotRestarts` | src/runtime/observatory.cpp:628-727 | end to end: every run's snapshot, with the list of any transition log, loads, restores, and the restarted observatory answers as the original would |
| `SnapshotRestart.OutgrownSlotIsLost` | src/persist/codec.cpp:521-550 | a slot over either fixed bound is written and refused on load |
| `SnapshotSize.PayloadWithin` | src/persist/codec.cpp:175-687 | for all contents the payload takes at most 148 bytes and a stated number for each record, linear in its names and lists |
| `LosslessSnapshots.CollectedBytes` | src/runtime/observatory.cpp:628-647 | what a reachable observatory collects takes at most a number of bytes computed from the policy's limits |
| `LosslessSnapshots.EverySnapshotLoads` | src/persist/snapshot.cpp:99-396 | under a decodable policy whose size limit covers that number, everything saved after any run is written and loads back |
| `Representable.TypedIff` | src/persist/codec.cpp:175-687 | the encoding's condition on contents is that counts and lengths are below 2^64 and strings are bytes, nothing else |
| `LongHistory.LongRunRetains` | src/store/evidence_store.cpp:209-217 | by induction, a run of n observations retains all n in one slot, the whole store and registry as stated |
| `LongHistory.LongRunIsLost` | src/persist/codec.cpp:521-534 | a policy that retains more than 1024 pieces of evidence, with room for 717 + 150 n bytes, has a run whose snapshot is collected, written and refused on load |
| `ManySources.WideRunTracks` | src/store/evidence_store.cpp:168-217 | by induction, a run registers n sources and tracks all of them in one slot |
| `ManySources.WideRunIsLost` | src/persist/codec.cpp:535-547 | a policy that admits more than 4096 sources, with room for 553 + 569 n bytes, has a run whose snapshot is collected, written and refused on load |
| `LosslessSnapshots.LosslessIff` | src/persist/codec.cpp:521-550 | every snapshot of every run loads back exactly when the policy is within both bounds, given a size limit of 154,467 bytes where the first is exceeded and 2,331,746 where the second is |
| `TransitionLog.TransitionLog.Record` | src/store/history.cpp:21-43 | stamps the event and appends it to both rings, counting every eviction |
| `TransitionLog.TransitionLog.Recent` | src/store/history.cpp:61-71 | the newest events within both limits |
| `TransitionLog.TransitionLog.ForLink` | src/store/history.cpp:45-59 | the newest events of one link within both limits |
| `TransitionLog.RingsExact` | src/store/history.cpp:21-43 | over every sequence of events the global ring holds exactly the newest of all, each link's ring exactly the newest of its own, in order |
| `TransitionLog.DroppedIsCounted` | src/store/history.cpp:21-43 | over every sequence of events, dropped plus held is twice the number recorded |
| `TransitionLog.SavedWithin` | src/runtime/observatory.cpp:638 | a saved list is within the total bound, its texts within 64 characters |
| `TransitionLog.RestoredRing` | src/runtime/observatory.cpp:706-708 | recording a saved list again gives exactly that list, which is the whole ring exactly when the ring is within the result limit |
| `TransitionLog.RestoredListing` | src/store/history.cpp:45-59 | a link's listed transitions are the same after a restart exactly when the saved list holds as many of them as were listed |
| `RestartedState.StateSurvivesRestart` | src/runtime/observatory.cpp:665-727 | after any run and any recorded transitions a link is classified the same after a restart, if its listed transitions were saved |
| `SnapshotRestart.ContentsSurviveCrash` | src/persist/snapshot.cpp:154-179 | however a write is cut short a read returns the earlier contents or the new ones in full |
| `CrashSafety.CrashIsSafe` | src/persist/snapshot.cpp:154-179 | from a safe disk every prefix of the steps reads as old or new in full and leaves the disk safe |
| `CrashSafety.WritesAreSafe` | src/persist/snapshot.cpp:154-179 | the same over any sequence of interrupted writes, never older than the last completed one |
| `CrashSafety.SurvivesIffSafe` | src/persist/snapshot.cpp:400-423 | a readable disk survives every interruption exactly when it is safe |
| `CrashSafety.BadPrimaryLosesBackup` | src/persist/snapshot.cpp:160-173 | an unloadable primary rotated over the good backup |
| `Queue.BoundedQueue.Push` | src/ingest/queue.cpp:30-47 | enters unless closed, and counts |
| `Queue.BoundedQueue.TryPush` | src/ingest/queue.cpp:49-66 | enters exactly when open and not full, and counts either refusal |
| `Queue.BoundedQueue.Pop` | src/ingest/queue.cpp:68-82 | takes the oldest item, or ends when closed and empty |
| `Queue.BoundedQueue.DiscardPending` | src/ingest/queue.cpp:108-115 | drops and counts what is pending |
| `Queue.QueueRuns` | src/ingest/queue.cpp:30-115 | over every run pushed = popped + abandoned + size, size within high water within capacity, and nothing enters after a close |
| `Ingest.RouteCalls` | src/runtime/observatory.cpp:199-208 | each worker gets exactly its sources' calls, in order |
| `Ingest.RunAccounted` | src/runtime/observatory.cpp:210-246 | over every interleaving each part is in exactly one place |
| `Ingest.RunKeepsQueues` | src/runtime/worker.cpp:74-96 | every queue of the pool stays a bounded queue in good order |
| `Ingest.CompletionIsSafe` | src/runtime/observatory.cpp:210-246 | a completion fires at most once and only after every part was applied |
| `IngestOrder.SourceOrderKept` | src/runtime/worker.cpp:36-64 | over every interleaving, cancellation included, a source's applied observations are a prefix of its submitter's order |
| `IngestOrder.WorkerCountDoesNotMatter` | include/linkobs/runtime/worker.hpp:3-6 | two complete sessions with the same input leave the same store, whatever their workers, routing, capacity and interleaving |
| `DeclaredLinks.WorkerCountLeavesEvidence` | include/linkobs/runtime/worker.hpp:3-6 | from any observatory with the links declared, two complete sessions with the same input leave the same store through the registry |
| `DeclaredLinks.OrdersAgreeIff` | src/runtime/observatory.cpp:357-390 | two trusted observations of a known link, of different sources and slots, leave the same store in either order exactly when both carry its current generation or neither does |
| `DeclaredLinks.OrderMattersAcrossGenerations` | src/runtime/observatory.cpp:365-372 | two sources' observations of one link under different generations leave different evidence in the two orders |
| `IngestOrder.PartsKeep` | src/runtime/observatory.cpp:199-208 | splitting a batch keeps each source's calls together and in order |
| `Text.FormatDec` | src/core/text.cpp:16-34 | the digit loop writes the shortest decimal text |
| `Text.ReadU64` | src/core/text.cpp:67-84 | the parsing loop accepts exactly one to twenty digits below 2^64 and returns their value |
| `Text.U64RoundTrip` | src/core/text.cpp:16-84 | every 64-bit value survives formatting and parsing |
| `Text.I64RoundTrip` | src/core/text.cpp:36-121 | every signed value survives, the most negative included |
| `Text.TrimAscii` | src/core/text.cpp:158-168 | trims blanks from both ends only |
| `MetricText.ReadKey` | src/domain/metric.cpp:90-125 | the cursor loop equals parsing the pieces between slashes |
| `MetricText.KeyRoundTripIff` | src/domain/metric.cpp:72-125 | a printed key parses back exactly when every part can be spelled |
| `MetricText.UndirectedClassIsLost` | src/domain/metric.cpp:74-85 | a class without a direction does not parse |
| `Fields.SplitFields` | src/ingest/record.cpp:21-62 | the splitting loop equals its specification, refusing duplicates and excess |
| `Fields.Build` | src/core/text.cpp:209-247 | the builder renders the fields in order |
| `Fields.RenderParses` | src/ingest/record.cpp:21-62 | splitting a rendered line gives back exactly its fields |
| `Fields.OrderDoesNotMatter` | src/ingest/record.cpp:21-62 | any arrangement of an accepted line's fields gives the same fields in a line no longer |
| `Record.FormatRecord` | src/ingest/record.cpp:485-562 | writes the fields that are set, in the fixed order |
| `RecordReader.FieldReader.AllUsed` | src/ingest/record.cpp:166-174 | true exactly when no field was left unread |
| `RecordReader.FieldReader.ReadSource` | src/ingest/record.cpp:181-221 | the source declaration as specified, having read exactly its fields |
| `RecordReader.FieldReader.ReadLink` | src/ingest/record.cpp:223-288 | the link declaration as specified, having read exactly its fields |
| `RecordReader.FieldReader.ReadObservation` | src/ingest/record.cpp:290-441 | the observation declaration as specified, having read exactly its fields |
| `RecordReader.ReadRecord` | src/ingest/record.cpp:445-483 | trims, splits, reads, and accepts exactly the lines the specification accepts |
| `RecordRoundTrip.RecordRoundTrips` | src/ingest/record.cpp:445-562 | every well-formed declaration that fits the bound is returned by parsing its line |
| `RecordRoundTrip.FieldOrderDoesNotMatter` | src/ingest/record.cpp:445-483 | an accepted record parses to the same declaration from any arrangement of its fields |
| `Frame.EncodeFrame` | src/transport/frame.cpp:93-108 | writes the wire form, or refuses an oversized payload |
| `Frame.DecodeWhole` | src/transport/frame.cpp:110-165 | a whole frame followed by anything decodes and measures exactly, if and only if its flags are zero |
| `Frame.DecodePrefix` | src/transport/frame.cpp:110-150 | a proper prefix asks for more bytes and is never an error |
| `Frame.ChunkingIsInvisible` | src/transport/server.cpp:309-344 | any chunking of any list of sendable frames is served as that list up to its first shutdown and never breaks; with a shutdown the connection is finished, without one it waits with an empty buffer |
| `Frame.Connection.DecodeAvailable` | src/transport/server.cpp:319-344 | the decode and erase loop equals its specification |
| `Frame.Connection.Handle` | src/transport/server.cpp:309-344 | the receive loop equals its specification, read bound included |
| `Sha256.Sha256.Update` | src/core/sha256.cpp:91-113 | buffering and block compression absorb exactly the appended bytes |
| `Sha256.Sha256.PadZeros` | src/core/sha256.cpp:122-127 | the padding loop terminates with the least number of zeros |
| `Sha256.Sha256.Finish` | src/core/sha256.cpp:115-135 | the digest is the compression folded over the message padded as in section 5.1.1 of FIPS 180-4 |
| `Sha256.Sha256.HashChunks` | src/core/sha256.cpp:91-135 | any way of cutting a message into updates gives the same digest |
| `Sha256.ZeroCountIsLeast` | src/core/sha256.cpp:122-127 | no smaller number of zeros reaches the length field |

## Left out

- Sockets, threads as operating-system objects, port files and real file calls; the crash model keeps an abstract disk, the connection keeps the decode loop.
- The command line, examples, benchmarks and the build.
- The 128-bit content hash: identities are opaque numbers, because its multiplication step is not the multiplication the header names.
- The rounds of SHA-256 and any collision claim; the block compression is a parameter.
- Explanation texts, rule names, confidence summaries and status messages; a refused record is refused without saying with which status.
- When transitions are recorded: the log is modelled by itself, and its effect on flap counting is an input of the classifier.
- Observatory.Observatory.ApplyObservation: does not record transition events or reclassify the link after an acceptance; the events are an input of the classifier.
- Observatory.Observatory.ApplyTrusted: does not record the event of a generation change, for the same reason.
- Observatory.Observatory.ApplyLink: does not record the events of a registration or a generation change, for the same reason.
- Observatory.Observatory.ApplyBatch: does not count batches or call the completion callback; `Ingest` models the callback.
- Classifier.BuildReport: leaves out source, reset, wrap and fence counts and the rendered value, which no rule reads.
- Classifier.Classify: leaves out link-level freshness, confidence and completeness, the list of rules and the last known state, which decide no state.
- A completion guarantee under cancellation: discarded parts never signal, so only the safety half is stated.
- Policy and configuration validation: single-branch checks.
- IngestOrder.WorkerCountDoesNotMatter: takes the contexts of the calls as given; `DeclaredLinks` has the registry supply them.
- DeclaredLinks.WorkerCountLeavesEvidence: compares the stores; the links' own acceptance counts and instants are not compared.
- Codec: the primitive reads and writes and the list loops are imperative; the composition into records is stated on values.
- CounterTracker: the continuity record is a value that `Observe` returns updated, because the store keeps it inside a map.
- Classifier.KeysFor: enumerates the keys in order instead of sorting the keys of the slots.
