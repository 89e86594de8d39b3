# Rulvar: verified models of the stateful core

Rulvar is a TypeScript engine for agent workflows. This project models the
parts of it that keep state while the outside world interleaves with them, and
proves what they promise over whole runs:

- the effect-provider conformance fakes and the recovery protocol that must
  leave at most one external effect per intent (`EffectProvider`,
  `EffectAnswers`, `EffectProtocol`);
- the server's bounded event buffer, its resumable event streams and the seam
  between replay and live delivery (`ReplayBuffer`, `EventSeam`, `LiveFeed`);
- the Anthropic adapter: id maps, usage normalisation, the stream mapper, the
  absorption of `pause_turn`, the capabilities sweep and the schema scrub
  (`IdMaps`, `TokenUsage`, `MessageStream`, `MessageContent`, `PauseTurn`,
  `CapsSweep`, `SchemaScrub`, `SchemaMeaning`, `SchemaAcceptance`, `SchemaLimits`);
- the AI SDK bridge's stream mapper (`BridgeMapper`, `BridgeContent`);
- the trace exporter: span bookkeeping, tool pairing and its durations, and the
  allowlist projection (`SpanExporter`, `SpanHistory`, `SpanPairing`,
  `ToolPairing`, `PayloadProjection`, `PayloadMeaning`);
- the journal audit's incremental billing lane (`JournalAudit`) and the
  reference host's guarded effect (`GuardedEffect`).

`Prelude` holds optional values, decimal rendering and the lemmas about keys
joined by separators. `dafny verify dfyconfig.toml` checks everything.

## How it is built

State that the program updates in place is a class whose methods are proved
against a step function on values (`View()` before, `View()` after). A run is a
fold of the step function over any sequence of calls, by anybody, in any order;
the main results are lemmas over all such runs. What a mapper or an exporter
says and keeps is also defined a second time, by recursion on the history of
events and without its state, and the two are proved to agree. Asynchronous
code is cut at its awaits, and each piece is one step. Network, clocks, id
minters, masking, JSON parsing and provider behaviour are parameters,
quantified over.

## What turned out false, and when it holds

- The exporter's comment says that first-in-first-out pairing keeps the
  multiset of durations exact. It does so exactly when no two calls of a class
  strictly nest (`SpanPairing.ReportedDurations`,
  `ToolPairing.NestedCallsAreMisreported`); the total is always exact.
- A tool end can close an agent span. Over a set of span ids this is excluded
  exactly when none is spelled like a tool key of another
  (`SpanPairing.ToolEndsAreSafeExactly`, `SpanPairing.HashedSpanIdIsMistaken`).
  Two classes share a queue exactly when they differ only in which space
  separates span id and tool name (`SpanPairing.JoinedExactly`,
  `SpanPairing.SpacedSpanIdsShareAQueue`).
- The drop counter also counts texts that come out unchanged, exactly those
  that are the truncation of their over-long masked form
  (`PayloadProjection.BoundedFlag`, `PayloadProjection.SomeTextLooksTruncated`,
  `PayloadProjection.MaskedTextCanComeOutUnchanged`).
- The schema scrub can make a schema reject what it accepted: under `not`,
  `oneOf` and `if`, but also under `contains` beside `maxContains`, for
  `properties` given as an array, and wherever a copied keyword holds a
  reference at any depth and under any key, a property name spelled like a
  keyword included. `SchemaAcceptance.Safe` is a sufficient condition, and every
  kind of keyword it restricts has an input in `SchemaLimits` that shows why.
- The scrub is documented to drop keywords at schema positions and to copy
  everything else. It keeps all property names exactly when none is spelled
  `__proto__`: the copies are built by assignment to an object, and assigning to
  that name adds no property
  (`SchemaScrub.PropertyNamesSurvive`). A declared property of that name beside
  `additionalProperties`, and a reference to a definition of that name, break
  acceptance (`SchemaLimits.LostNameCanBreak`,
  `SchemaLimits.LostDefinitionCanBreak`).
- The replay gap comment is also shown to a client that missed nothing, exactly
  when its cursor stands on the last dropped event or between it and the first
  retained one (`ReplayBuffer.GapMarkExactly`, `ReplayBuffer.NeedlessGapMark`);
  with a pending bound of one it fills the queue alone and reconnecting never
  progresses (`ReplayBuffer.DrainDeliversExactly`,
  `ReplayBuffer.BoundOneStalls`).
- A connection can be closed as complete without the end of the run. Of the
  connections closed as complete, those hold all that the run produced if and
  only if the pump took over all of it. The misled ones are exactly those opened
  after a settle without rejection, with a replay that fits the pending bound,
  when the pump failed before the last event; connections that were open at the
  settle are told (`EventSeam.MisledExactly`,
  `EventSeam.LateSubscriberMissesTail`).
- A lookup on the acceptance-closing row also finds effects of natural keys that
  extend `<key>#attempt`, and of no others (`EffectProtocol.LookupFindsExactly`,
  `EffectProtocol.LookupCanMisattribute`).
- The audit's row check passes for a terminal that repeats an ordinal while a
  row has no record; it is map equality exactly for distinct ordinals
  (`JournalAudit.MatchesExactly`, `JournalAudit.RepeatedOrdinalPasses`).
- Retained reasoning loses text exactly when a start arrives for an id with
  pending text (`BridgeMapper.FinishRetainsReasoning`,
  `BridgeMapper.RestartLosesReasoning`).
- The id maps lose their bijection exactly when an entered id is not fresh
  (`IdMaps.StepKeepsInverseExactly`, `IdMaps.BridgeIdsCanCollide`). On the
  bridge's shared map such a call can rename a tool call between its start and
  its end; over a whole run every end is bracketed if and only if each renamed
  call finds its new id started by then (`BridgeMapper.BracketedExactly`,
  `BridgeMapper.SharedMapCanUnbracket`).

## Model

| member | source | states |
|---|---|---|
| EffectProvider.FakeEffectProvider.constructor | packages/effects/src/fakes.ts:58-80 | a new provider has committed nothing, holds nothing in flight and will commit |
| EffectProvider.FakeEffectProvider.EffectCount | packages/effects/src/fakes.ts:82-90 | the loop's count is the number of distinct committed effects of the logical key |
| EffectProvider.FakeEffectProvider.MintReceipt | packages/effects/src/fakes.ts:116-128 | receipts carry the advanced counter |
| EffectProvider.FakeEffectProvider.Send | packages/effects/src/fakes.ts:130-161 | the new state and the outcome of one send, stalled or executed, on every row |
| EffectProvider.FakeEffectProvider.Execute | packages/effects/src/fakes.ts:162-189 | the five scripted behaviours of a send that passed the fences |
| EffectProvider.FakeEffectProvider.Release | packages/effects/src/fakes.ts:199-219 | the loop lands or fences every send in flight in capture order and empties the list |
| EffectProvider.FakeEffectProvider.ReleaseOne | packages/effects/src/fakes.ts:201-217 | one late send is fenced by its closed identity or its committed key, or lands |
| EffectProvider.FakeEffectProvider.Find | packages/effects/src/fakes.ts:245-261 | the search returns what the row's key names, or the first committed attempt in insertion order |
| EffectProvider.FakeEffectProvider.Probe | packages/effects/src/fakes.ts:221-230 | a plain lookup's negative never closes acceptance |
| EffectProvider.FakeEffectProvider.Close | packages/effects/src/fakes.ts:232-243 | a closure answers the effect, or closes exactly the named attempt |
| EffectProvider.Dispatch | packages/effects/src/fakes.ts:130-189 | failed means nothing committed or in flight changed; an accepted receipt or reference is the committed one |
| EffectProvider.EpochKeyInjective | packages/effects/src/adapter.ts:108-110 | the idempotency key determines logical key and epoch, whatever the logical key contains |
| EffectProvider.OneEffectPerEpoch | packages/effects/src/fakes.ts:103-161 | any run leaves at most one effect per epoch of an intent on the idempotency-key row |
| EffectProvider.EffectBelongsToIntent | packages/effects/src/adapter.ts:108-110 | no intent is ever deduplicated into another intent's effect |
| EffectProvider.CommittedKeyIsFinal | packages/effects/src/fakes.ts:151-161 | after any run that committed a key, and any further run, the effect under it is the same, direct sends get its receipt or a refusal and change nothing, and a release, whatever else is in flight, leaves it alone and fences every send captured under the key |
| EffectProvider.RunExtends | packages/effects/src/fakes.ts:130-219 | on write-once rows no run ever removes or replaces a committed effect |
| EffectProvider.ProviderAccounting | packages/effects/src/fakes.ts:130-219 | every dispatch is in flight, landed, fenced or direct; on write-once rows effects are the direct commits plus the late landings |
| EffectProvider.BlindRowFencesNothing | packages/effects/src/fakes.ts:111-112 | on the neither row every late send lands and no lookup ever finds anything |
| EffectAnswers.SendTells | packages/effects/src/fakes.ts:130-189 | when a send is answered failed, unknown or accepted, what an accepted answer carries, when and with what receipt an effect is committed, and when the script is used up, in terms of the fences and the script alone |
| EffectAnswers.StalledSendIsInFlight | packages/effects/src/fakes.ts:134-143 | a send that stalls is in flight exactly as it was sent, and nothing else is |
| EffectAnswers.ReleaseLandsExactly | packages/effects/src/fakes.ts:199-219 | a release leaves nothing in flight; a key that was free gets the first send under it whose attempt is not closed, as it was captured, and stays free exactly when there is none |
| EffectAnswers.KeyedLookupFindsExactly | packages/effects/src/fakes.ts:245-251 | on the keyed rows a lookup or closure finds exactly the effect under the key the matching send is fenced with |
| EffectAnswers.AcceptedIsFound | packages/effects/src/fakes.ts:130-251 | on these rows every later lookup for an accepted send finds its effect, with the receipt or reference the answer carried, after whatever anybody did |
| EffectAnswers.NegativesCloseExactly | packages/effects/src/fakes.ts:221-243 | a lookup changes nothing and its negative is never final; a closure's negative is final exactly when it named an attempt, which alone it closes |
| EffectAnswers.FoundAttemptStays | packages/effects/src/fakes.ts:252-261 | a lookup that found an attempt goes on finding that attempt |
| EffectAnswers.ReceiptsAreOwn | packages/effects/src/fakes.ts:116-128 | over every run each effect and each send in flight carries a receipt minted for its own intent, and no two share a reference |
| EffectProtocol.ClosedAttemptNeverCommits | packages/effects/src/fakes.ts:144-150 | once a closure answered not found, no run of any client commits that attempt |
| EffectProtocol.AtMostOneEffect | packages/effects/src/dispatcher.ts:326-358 | over every interleaving of the client's opens, sends and closures under its rules with stalls, late releases, lookups, closures and other clients' sends, each of its natural keys has at most one committed attempt |
| EffectProtocol.UnlicensedRedispatchDuplicates | packages/effects/src/dispatcher.ts:344-350 | without the closure rule two transmissions leave two effects |
| EffectProtocol.PrefixMatch | packages/effects/src/fakes.ts:252-259 | exactly which attempt identities the prefix search matches |
| EffectProtocol.LookupFindsExactly | packages/effects/src/fakes.ts:221-261 | a lookup finds an effect if and only if one is committed for the key or for a key extending it by the attempt marker |
| EffectProtocol.LookupCanMisattribute | packages/effects/src/fakes.ts:254-259 | a lookup reports the effect of another natural key that spells the attempt marker |
| ReplayBuffer.TrackedRun.constructor | packages/cli/src/server.ts:320-321 | a tracked run starts with an empty window |
| ReplayBuffer.TrackedRun.PushBuffered | packages/cli/src/server.ts:329-336 | pushing keeps the buffer a suffix of the history and drops an eighth on overflow |
| ReplayBuffer.BufferRefinesHistory | packages/cli/src/server.ts:323-336 | after any pushes the buffer is the newest events, at most the bound, at least seven eighths of it once anything was dropped, and all splices move at most 15 elements per push |
| ReplayBuffer.SpliceCost | packages/cli/src/server.ts:331-335 | elements moved by all splices are at most 15 times the elements dropped |
| ReplayBuffer.ResumeIndex | packages/cli/src/server.ts:697-710 | the binary search returns the index that splits the buffer at the cursor |
| ReplayBuffer.TrackedRun.Replay | packages/cli/src/server.ts:737-748 | the bounded replay queues the whole backlog, or exactly what fits and the slow-consumer mark |
| ReplayBuffer.TrackedRun.Open | packages/cli/src/server.ts:714-759 | the opening queue and whether the live feed is hooked |
| ReplayBuffer.GapMarkExactly | packages/cli/src/server.ts:711-717 | the gap is marked whenever an event past the cursor was dropped, and exactly one kind of cursor is marked needlessly |
| ReplayBuffer.GapMarkTells | packages/cli/src/server.ts:714-729 | the mark names the oldest event that can still be had and how many came before it |
| ReplayBuffer.AfterAdvances | packages/cli/src/server.ts:684-710 | resuming from the last event read continues with its successor |
| ReplayBuffer.DrainDeliversExactly | packages/cli/src/server.ts:734-748 | successive reconnects deliver exactly the retained events after the first cursor, except with bound one behind a gap mark, where nothing ever arrives |
| ReplayBuffer.NeedlessGapMark | packages/cli/src/server.ts:714-717 | a client that read the one dropped event is told of a gap |
| ReplayBuffer.BoundOneStalls | packages/cli/src/server.ts:725-746 | with bound one the gap mark fills the queue and nothing is ever read |
| ReplayBuffer.OneKeptIsReached | packages/cli/src/server.ts:329-336 | two pushes under a bound of one give that window |
| EventSeam.RunKeepsInv | packages/cli/src/server.ts:355-424 | every interleaving of the run producing events, the pump taking them over, ending or failing, connects, reads, cancels and the settle keeps the connection invariant |
| EventSeam.ConnectionSeam | packages/cli/src/server.ts:355-424 | each connection is handed one contiguous block of what the pump took over within the pending bound plus one, all of it while fed, everything the run produced when closed by a settle with a healthy pump, and skips events only behind a gap mark |
| EventSeam.SettleMustAwaitPump | packages/cli/src/server.ts:403-419 | a terminal close that did not await the pump would close a live connection as complete without the last event |
| EventSeam.MisledExactly | packages/cli/src/server.ts:355-424 | over every interleaving, a connection closed as complete was handed everything the run produced if and only if the pump took over all of it, and exactly the uncancelled connections opened after a settle without rejection whose replay fits are closed as complete without the rest of what a failed pump left behind |
| EventSeam.LateSubscriberMissesTail | packages/cli/src/server.ts:749-758 | one run with such a connection, and one that was open and is told |
| LiveFeed.ConnectionsEndProperly | packages/cli/src/server.ts:760-796 | over every interleaving a connection is given up as slow only after its bound was reached, is handed frames and nothing else behind a possible gap mark until it ends, and is told why exactly when it is not closed as complete |
| LiveFeed.StepFeedsExactly | packages/cli/src/server.ts:763-796 | a pump step adds exactly the next event to every open connection with room and closes those at the bound; the settle closes every open connection, none as slow; reads and cancels touch their own connection alone |
| EventSeam.LinkIsTight | packages/cli/src/server.ts:684-717 | a gapless connection opened from the last event read resumes at its successor |
| EventSeam.ReconnectIsLossless | packages/cli/src/server.ts:760-796 | over any run, what a chain of reconnects read is one contiguous block, nothing repeated, reordered or lost, that begins with the first event past the client's first cursor unless a gap mark came first |
| IdMaps.IdMap.constructor | packages/anthropic/src/wire.ts:25-31 | both directions start empty |
| IdMaps.IdMap.Canonical | packages/anthropic/src/wire.ts:33-42 | a known wire id is answered unchanged, a new one enters both maps |
| IdMaps.IdMap.Wire | packages/anthropic/src/wire.ts:44-55 | a known canonical id is answered unchanged, a foreign one gets the derived wire id |
| IdMaps.StepKeepsInverseExactly | packages/anthropic/src/wire.ts:33-55 | a call keeps the maps mutually inverse if and only if the id it enters is fresh |
| IdMaps.RunKeepsInverse | packages/anthropic/src/wire.ts:23-56 | any interleaving of fresh calls keeps the bijection and only adds to it |
| IdMaps.RoundTrips | packages/bridge-ai-sdk/src/bridge.ts:150-169 | both round trips are the identity for ever after, and no two calls share a wire id |
| IdMaps.CanonicalRoundTrips | packages/anthropic/src/wire.ts:33-55 | a new provider id gets the minted canonical id, and the two are answered with each other ever after |
| IdMaps.BridgeIdsCanCollide | packages/bridge-ai-sdk/src/bridge.ts:161-169 | without freshness two calls share a wire id |
| TokenUsage.Normalize | packages/anthropic/src/wire.ts:405-434 | cached tokens are part of the input, the flat write total wins over the breakdown, and the TTL split is kept exactly when it accounts for every write |
| TokenUsage.SumAllConserves | packages/core/src/l0/usage.ts:147-171 | the running total is the componentwise sum, reasoning tokens and both TTL shares included, stays canonical, and has a split exactly if an input has one |
| MessageStream.MapStopReason | packages/anthropic/src/wire.ts:350-391 | exactly which stop reason gives each finish, that pause_turn and only it gives none, and that every other reason is a plain stop |
| MessageStream.MapStream | packages/anthropic/src/wire.ts:522-675 | the event loop stops at the first message_stop and returns the segment's accumulation |
| MessageStream.SegmentTerminal | packages/anthropic/src/wire.ts:612-673 | a segment emits one terminal event, last, exactly when it finished; a paused or truncated one emits none |
| MessageStream.ToolCallsAreBracketed | packages/anthropic/src/wire.ts:531-594 | every tool-call delta and end follows a start with its id, whatever other streams do on the shared id map |
| MessageStream.SegmentReportsWithin | packages/anthropic/src/wire.ts:524-528 | with cumulative output counts a segment's one report is within its final usage |
| MessageContent.SegmentIsHistory | packages/anthropic/src/wire.ts:522-605 | over every stream of wire events, the closed blocks, everything said, the usage, the stop fields and the response id are what the history of events gives, without an accumulator |
| MessageContent.OpenIsHistory | packages/anthropic/src/wire.ts:531-580 | at every point each open block holds its start and the concatenation of its own fragments, channel by channel, under the id it was announced with |
| MessageContent.BlockCarriesItsFragments | packages/anthropic/src/wire.ts:531-594 | a block is closed with its text, thinking, signature and arguments joined in order, whatever comes between; a tool call ends with its joined arguments under its own id |
| MessageContent.RetainedExactly | packages/anthropic/src/wire.ts:640-648 | retained are all thinking and redacted thinking blocks, in order, and no others |
| MessageContent.KnownExactly | packages/anthropic/src/wire.ts:628-634 | the response ids are all that were reported, in order |
| MessageContent.SegmentTells | packages/anthropic/src/wire.ts:606-673 | when a segment is truncated, paused or finished, and what its finish states, in terms of the events before the first message_stop |
| PauseTurn.Request | packages/anthropic/src/adapter.ts:398-475 | one wire request goes on exactly if its segment paused, and is then folded into the accumulation; otherwise it ends as the stream must end there |
| PauseTurn.Turn | packages/anthropic/src/adapter.ts:473-497 | a paused segment goes on exactly below the cap and with admission; otherwise the turn ends with the error due |
| PauseTurn.Stream | packages/anthropic/src/adapter.ts:361-503 | at most cap + 1 requests, each admitted and carrying all earlier content; silent exactly when the signal was up at the rejection or the broken read; otherwise one terminal event, last: the finish exactly when the last segment finished, with the summed usage, the request count, the ids and all thinking blocks in order, or the very error due, after everything heard, naming exactly the completed segments |
| PauseTurn.OutcomeIsForced | packages/anthropic/src/adapter.ts:397-503 | that contract determines the number of requests, the events and the silence |
| PauseTurn.FinishCoversReports | packages/anthropic/src/wire.ts:654-662 | with cumulative counts the finish covers the sum of all mid-stream reports in every count |
| CapsSweep.ApplyPage | packages/anthropic/src/adapter.ts:269-284 | after a page the table holds the last non-empty patch of every model listed so far |
| CapsSweep.Fetch | packages/anthropic/src/adapter.ts:265-320 | one fetch applies its page and either ends the sweep as the guards demand or leaves a cursor that was never sent |
| CapsSweep.RefreshCaps | packages/anthropic/src/adapter.ts:256-322 | no cursor is sent twice, fetches are bounded by the number of cursors plus one and by the cap, the outcome is what the last answer demands, and the table holds the last patches of all pages fetched, failures included |
| CapsSweep.OutcomeIsForced | packages/anthropic/src/adapter.ts:288-321 | the guards are exclusive: at most one outcome fits an ending |
| CapsSweep.SweepEndsByPages | packages/anthropic/src/adapter.ts:286-321 | how a sweep ends and where every cursor came from, in terms of has_more and last_id of the pages |
| CapsSweep.TableShowsLimits | packages/anthropic/src/adapter.ts:269-284 | each model's context window and output limit are those of the last entry that states any, as listed; a model without one keeps its row |
| SchemaScrub.ScrubIsExact | packages/anthropic/src/wire.ts:101-134 | no unsupported keyword and no key or name `__proto__` is left at a schema position, exactly the schemas without them are unchanged, and the scrub is idempotent |
| SchemaScrub.PropertyNamesSurvive | packages/anthropic/src/wire.ts:119-126 | at every schema position of a document the declared property names are the same after the scrub if and only if `__proto__` is not among them, and otherwise all but it |
| SchemaScrub.ScrubMovesNothing | packages/anthropic/src/wire.ts:107-134 | every position of a document that is not below a removed keyword or a key or name `__proto__` holds the copy of what it held, and nothing appears |
| SchemaScrub.ScrubKeepsWellFormed | packages/anthropic/src/wire.ts:114-133 | documents with one representation per key are scrubbed into such documents |
| SchemaScrub.KeywordTables | packages/anthropic/src/wire.ts:73-99 | exactly which spellings are dropped, map names to schemas, or hold schemas |
| SchemaAcceptance.ScrubPreservesAcceptance | packages/anthropic/src/wire.ts:107-134 | every instance a safe schema accepts is accepted by its scrubbed copy, with references resolved in the scrubbed document, for any meaning of the copied keywords |
| SchemaLimits.NotCanBreak | packages/anthropic/src/wire.ts:95-95 | under not the scrubbed schema can reject what the original accepts |
| SchemaLimits.OneOfCanBreak | packages/anthropic/src/wire.ts:93-93 | so it can under oneOf |
| SchemaLimits.IfCanBreak | packages/anthropic/src/wire.ts:96-97 | so it can under if |
| SchemaLimits.MaxContainsCanBreak | packages/anthropic/src/wire.ts:91-91 | so it can under contains beside maxContains |
| SchemaLimits.PropertyListCanBreak | packages/anthropic/src/wire.ts:119-126 | so it can when properties is an array, which is copied as an object |
| SchemaLimits.CopiedReferenceCanBreak | packages/anthropic/src/wire.ts:119-131 | so it can whenever a copied keyword negates, by reference, a definition that the scrub makes accept more |
| SchemaLimits.DependentSchemasCanBreak | packages/anthropic/src/wire.ts:119-131 | for one: dependentSchemas negating a definition that loses its minimum |
| SchemaLimits.NotMHasReference | packages/anthropic/src/wire.ts:131-131 | such a value of dependentSchemas |
| SchemaLimits.NegatedCopyCanBreak | packages/anthropic/src/wire.ts:119-131 | so it can whenever not holds a copied keyword that demands, by reference, to match a definition that the scrub makes accept more |
| SchemaLimits.PropertyNameIsNoKeyword | packages/anthropic/src/wire.ts:119-131 | for one: not over dependentSchemas whose reference stands under a property name spelled like a schema map; such a document is not safe |
| SchemaLimits.DependentOnPropertiesCanBreak | packages/anthropic/src/wire.ts:119-131 | for one: that document with a property named properties that loses its bound |
| SchemaLimits.AtLeastFiveWeakens | packages/anthropic/src/wire.ts:73-80 | the dropped minimum of 5 and the instance 3 are such a bound and value |
| SchemaLimits.IfPropertiesHasReference | packages/anthropic/src/wire.ts:131-131 | such a value of dependentSchemas, its reference directly below properties |
| SchemaLimits.LostNameCanBreak | packages/anthropic/src/wire.ts:117-126 | so it can for a declared property `__proto__` beside additionalProperties |
| SchemaLimits.LostDefinitionCanBreak | packages/anthropic/src/wire.ts:117-126 | so it can for a reference to a definition `__proto__` |
| BridgeMapper.StreamMapper.constructor | packages/bridge-ai-sdk/src/bridge.ts:578-604 | a mapper starts with nothing open, retained or terminal, on the adapter's id map as it is |
| BridgeMapper.StreamMapper.Map | packages/bridge-ai-sdk/src/bridge.ts:631-812 | the new state and the events of one stream part |
| BridgeMapper.StreamMapper.OnExecuted | packages/bridge-ai-sdk/src/bridge.ts:613-629 | a provider-executed tool ends the turn or is noted, by policy |
| BridgeMapper.StreamMapper.OnFinish | packages/bridge-ai-sdk/src/bridge.ts:824-918 | a failed finish drops what was retained; a normal one flushes every open reasoning text in insertion order |
| BridgeMapper.PartTerminal | packages/bridge-ai-sdk/src/bridge.ts:631-812 | a part that ends the turn emits one terminal event, last; any other part emits none |
| BridgeMapper.Stream | packages/bridge-ai-sdk/src/bridge.ts:249-286 | unless aborted the stream has exactly one terminal event, last, and nothing follows it, with other streams' calls on the shared id map in between |
| BridgeMapper.CallEndsAreBracketed | packages/bridge-ai-sdk/src/bridge.ts:687-756 | from any state of the shared id map and with any other calls on it between the parts, every tool-call end follows a start with its id, as long as no such call renames a wire id this stream has started |
| BridgeMapper.FreshNeverDisturbs | packages/bridge-ai-sdk/src/bridge.ts:161-169 | a call that enters a fresh id is no such call |
| BridgeMapper.BracketedExactly | packages/bridge-ai-sdk/src/bridge.ts:687-756 | over every run, from any state of the shared id map and with any other calls on it, every tool-call end follows a start with its id if and only if each client tool call whose wire id was renamed before it finds that wire id announced as a canonical id by then |
| BridgeMapper.DisturbedEndExactly | packages/bridge-ai-sdk/src/bridge.ts:150-169 | after such a call the next tool call of that wire id is bracketed if and only if its new id happens to have been started |
| BridgeMapper.SharedMapCanUnbracket | packages/bridge-ai-sdk/src/bridge.ts:202-202 | a stream that starts w, a request that sends history with canonical id w, and the call of w: an end without a start |
| BridgeMapper.FinishRetainsReasoning | packages/bridge-ai-sdk/src/bridge.ts:657-686 | at a normal finish the retained texts of an id join to exactly what was said under it, if and only if no start of the id met pending text |
| BridgeMapper.RestartLosesReasoning | packages/bridge-ai-sdk/src/bridge.ts:657-664 | an id started again before its end loses what it said first |
| BridgeContent.OutputIsHistory | packages/bridge-ai-sdk/src/bridge.ts:631-812 | over every run, everything the mapper says is what the parts say: texts, thoughts, and tool calls with their own names, fragments and inputs under the ids they have by then |
| BridgeContent.RetainedIsHistory | packages/bridge-ai-sdk/src/bridge.ts:657-879 | retained are exactly the provider's own calls, final results, blocks and ended reasoning texts, in stream order, then at a normal finish the texts still open, in the order they were opened |
| SpanExporter.Exporter.constructor | packages/cli/src/otel.ts:556-580 | nothing is open before the first event |
| SpanExporter.Exporter.Start | packages/cli/src/otel.ts:591-634 | an opener of an open key does nothing; any other starts one span under the parent that is still open |
| SpanExporter.Exporter.End | packages/cli/src/otel.ts:636-661 | a closer ends the tracked span and takes it off the stack |
| SpanExporter.Exporter.OnToolStart | packages/cli/src/otel.ts:786-807 | the minted key goes to the id register or to its queue |
| SpanExporter.Exporter.OnToolEnd | packages/cli/src/otel.ts:808-833 | the id register first, then the queue, else a span event |
| SpanExporter.Exporter.Handle | packages/cli/src/otel.ts:663-859 | the step of every event type |
| SpanExporter.Exporter.CloseLeftovers | packages/cli/src/otel.ts:871-875 | everything still open is ended once, in any order |
| SpanExporter.StackIsOpenSpans | packages/cli/src/otel.ts:591-661 | at every point of every stream a strict tracer accepts all calls so far, and the stack holds exactly the open spans, each once, oldest first |
| SpanExporter.Export | packages/cli/src/otel.ts:663-877 | every started span is ended exactly once, no other, and the returned number is the number of starts and of ends |
| SpanHistory.RegistersAreHistory | packages/cli/src/otel.ts:786-833 | which tool key waits under a call id or in a queue, by the events alone |
| SpanHistory.SpansAreHistory | packages/cli/src/otel.ts:591-661 | which span is open under a key: that of the first event that opened it since one closed it |
| SpanHistory.EventLogs | packages/cli/src/otel.ts:591-859 | what each event makes of the log: a start under the span that its parent key has open, an end of the very span its key has open at the event's time, a note on its own or the innermost span, and nothing else |
| SpanHistory.OpenUntilClosed | packages/cli/src/otel.ts:636-661 | a span is open until the first event that closes its key, and never again |
| SpanHistory.EndedAtFirstClose | packages/cli/src/otel.ts:636-661 | a span is ended at a time if and only if that is the time of the first event after its start that closes its key |
| SpanHistory.ExportEndsExactly | packages/cli/src/otel.ts:636-875 | in a whole export a span is ended without a time if and only if no event closed it |
| SpanPairing.StepPaired | packages/cli/src/otel.ts:786-833 | only a tool end closes a tool span, and it closes nothing else |
| SpanPairing.ToolEndsAreSafeExactly | packages/cli/src/otel.ts:786-833 | over a set of span ids, in every stream tool ends leave all other spans open if and only if no id is spelled like a tool key of another |
| SpanPairing.HashFreeIsSeparate | packages/cli/src/otel.ts:787-787 | ids without # are of that kind |
| SpanPairing.HashedSpanIdIsMistaken | packages/cli/src/otel.ts:787-787 | with a # in a span id a tool end closes an agent span |
| SpanPairing.NamedEndClosesItsStart | packages/cli/src/otel.ts:808-816 | an end closes the span its call id opened, whatever else is in flight |
| SpanPairing.KthEndClosesKthStart | packages/cli/src/otel.ts:794-831 | without ids the k-th end of a class closes its k-th start, and the queue is what remains |
| SpanPairing.JoinedExactly | packages/cli/src/otel.ts:578-580 | exactly when two classes, or two call ids, share a register entry: when they are the same or differ only in which space is the separator |
| SpanPairing.JoinedInjective | packages/cli/src/otel.ts:578-580 | so span ids without spaces keep them apart |
| SpanPairing.SpacedSpanIdsShareAQueue | packages/cli/src/otel.ts:578-578 | otherwise two classes can share a queue |
| SpanPairing.ReportedDurations | packages/cli/src/otel.ts:559-570 | on time-ordered streams reported durations are not negative, their total is the true one, and their multiset is the true one if and only if no two calls of the class strictly nest |
| ToolPairing.FifoDurationsExactly | packages/cli/src/otel.ts:564-570 | the same as arithmetic, by the rearrangement inequality |
| ToolPairing.NestedCallsAreMisreported | packages/cli/src/otel.ts:564-570 | a nested pair of 1 and 9 is reported as 4 and 6 |
| PayloadProjection.BoundedFlag | packages/cli/src/otel.ts:403-426 | the flag is raised exactly for masked or over-long texts; the text comes out unchanged all the same exactly when it is the truncation of its over-long masked form |
| PayloadProjection.SomeTextLooksTruncated | packages/cli/src/otel.ts:415-425 | a text that masking leaves alone and truncation reproduces |
| PayloadProjection.MaskedTextCanComeOutUnchanged | packages/cli/src/otel.ts:412-425 | a text that masking changes and truncation restores |
| PayloadMeaning.TextLeavesMasked | packages/cli/src/otel.ts:403-426 | what is exported of a text is its mask, or at least 255 units of it and the count of the rest, no surrogate pair split |
| PayloadProjection.Projection.ProjectLeaf | packages/cli/src/otel.ts:438-464 | a leaf is exported if it has an attribute shape, and counted if its text was altered |
| PayloadProjection.Projection.ProjectField | packages/cli/src/otel.ts:480-510 | what one field adds to the attributes and to the counter |
| PayloadProjection.Projection.ExportField | packages/cli/src/otel.ts:490-509 | a field that is not walked into is exported under its key, and counted unless as it is |
| PayloadProjection.Projection.ProjectFields | packages/cli/src/otel.ts:472-511 | the recursive walk adds exactly the exports and drops of the fields it decides on |
| PayloadProjection.WalkSeesAllListed | packages/cli/src/otel.ts:466-511 | the walk exports exactly the leaves to whose path the allowlist gives a key, at every depth |
| PayloadProjection.PayloadAttributes | packages/cli/src/otel.ts:520-536 | the attributes are those exports, plus the number of visited fields not exported as they are when it is not zero |
| PayloadProjection.NoLeak | packages/cli/src/otel.ts:466-511 | two events that agree on the allowlisted paths export the same attributes, whatever else they hold |
| PayloadMeaning.NoUnmaskedText | packages/cli/src/otel.ts:403-511 | two events that agree at the allowlisted paths up to masking export the same attributes |
| PayloadMeaning.PayloadShowsListed | packages/cli/src/otel.ts:438-511 | key by key, the attributes show the last leaf whose path has the key, a number and a boolean as they are and a text as its mask conveys it, and there is nothing else |
| PayloadMeaning.CounterIsWithheld | packages/cli/src/otel.ts:472-511 | the counter counts exactly the fields, at every depth, that the allowlist decides on and that do not come out as they are |
| PayloadMeaning.KeyOfName | packages/cli/src/otel.ts:480-509 | the key of a field: its listed one, a record's prefix, or the wildcard's prefix and a name of at most 64 units; none for envelope fields |
| PayloadMeaning.KeyOfPath | packages/cli/src/otel.ts:497-500 | below a field there are keys only through a listed record |
| JournalAudit.UsageKeyInjective | packages/cli/src/commands.ts:1446-1454 | the joined usage key determines all four counts |
| JournalAudit.IncrementalByAgent | packages/cli/src/commands.ts:1455-1486 | each agent's rows, the last per ordinal, as keys; no entry without rows |
| JournalAudit.KeysMatch | packages/cli/src/commands.ts:1496-1499 | the comparison of keys is the comparison of counts and usages |
| JournalAudit.RowsAreLast | packages/cli/src/commands.ts:1455-1486 | an agent's rows hold per ordinal the usage of the last row journaled for it, and no ordinal without one |
| JournalAudit.TerminalRowsAreLast | packages/cli/src/commands.ts:1496-1499 | a terminal's map holds per ordinal the usage of the last record with it |
| JournalAudit.DivergentInOrder | packages/cli/src/commands.ts:1487-1503 | the reported refs are those of the diverging entries, each once, in entry order |
| JournalAudit.IncrementalMismatches | packages/cli/src/commands.ts:1487-1503 | the refs of the settled agents whose rows diverge, in entry order |
| JournalAudit.MatchesExactly | packages/cli/src/commands.ts:1496-1499 | with distinct ordinals the comparison is equality of the two maps; with a repeated ordinal it and equality exclude each other |
| JournalAudit.RepeatedOrdinalPasses | packages/cli/src/commands.ts:1497-1499 | a repeated ordinal lets a row without a record pass |
| JournalAudit.CheckIsReconciliation | packages/cli/src/commands.ts:1487-1503 | the check passes if and only if every settled agent with rows has the terminal map they fold to, given distinct ordinals |
| GuardedEffect.Host.constructor | examples/src/operational-host.ts:80-81 | no attempt, no firing and an empty ledger |
| GuardedEffect.Host.Execute | examples/src/operational-host.ts:110-123 | an attempt up to its first await, intent row included |
| GuardedEffect.Host.Resume | examples/src/operational-host.ts:125-136 | the check, the firing and the outcome row in one piece up to the second await, then the return |
| GuardedEffect.EffectFiresOnce | examples/src/operational-host.ts:125-136 | under every interleaving a key fires at most once; once all attempts finished, each attempted key fired once and exactly one of its attempts reports applied |
| GuardedEffect.IntentBeforeEffect | examples/src/operational-host.ts:113-134 | attempt ids are unique, every attempt has its intent row, every firing and outcome row follows exactly one intent row of its own attempt, and attempts past the first await left exactly their rows |
| GuardedEffect.AttemptsAreMoves | examples/src/operational-host.ts:110-136 | the attempts are those that began, in order; each is as far as it was advanced and returns after two advances; exactly the attempt of a key that was advanced first applied the effect |
| GuardedEffect.FiringBeforeOutcome | examples/src/operational-host.ts:125-134 | an attempt's effect is fired before its outcome row is written |

## Left out

- The dispatcher's journal, budgets, quarantine and receipts, and the reconciler: only the rules under which the client opens, transmits and closes attempts are modelled.
- Finality of a closure on rows other than acceptance-closing: the fake answers closed there and enforces nothing.
- Constant receipt fields (amount, currency, issuer, signature) and the wording of error details.
- EventSeam.ConnectionSeam: one segment of one run; the suspended path returns without awaiting its pump, so ascending sequence numbers across resumed segments are an assumption. A late connection to a run whose pump failed is not told so, hence the healthy pump in the clause about produced events; `EventSeam.MisledExactly` says which are misled.
- ReplayBuffer.ResumeIndex: buffers of more than 2^30 events, for which the 32-bit shift of the index sum can overflow.
- ReplayBuffer.TrackedRun.Open: the same buffers, since it calls ResumeIndex.
- The retention cascade after a terminal, tracked-run eviction, HTTP routing and headers, and rejections of the run handle beyond their note to the feeds.
- PauseTurn.Stream: request parameters other than the messages, cache hints and the intake check of the continuation cap (any natural number is a cap here).
- JSON parsing of tool arguments in both mappers: argument text is carried as it is.
- SchemaAcceptance.ScrubPreservesAcceptance: references name positions of one document, are followed to any finite depth, and accept nothing when they name no position; a safe schema holds no `$dynamicRef` or `$recursiveRef`, no keyword that reads its neighbours' annotations (unevaluatedItems, unevaluatedProperties) and no `$id` below its root, and remote documents are not modelled; the condition is sufficient and not necessary, since whether a restricted keyword breaks acceptance depends on what the schemas below it accept, which no condition on keywords decides; examples show why each kind of keyword is restricted.
- BridgeMapper.StreamMapper.Map: provider metadata, warnings, response ids and the list of provider-executed tools on the finish.
- SpanExporter.Exporter.End: span attributes, names and status codes; the host's context API is taken as present.
- PayloadProjection.NoLeak: agreement includes the order of the listed fields, since a later field can overwrite the key of an earlier one; masking is uninterpreted; the allowlist table itself is a parameter.
- CapsSweep.RefreshCaps: the sweep is not atomic on failure, in the source and here.
- JournalAudit: the roster, settle, fold and wire-count checks, which are filters or comparisons of totals computed elsewhere.
- GuardedEffect: ledger fields other than the attempt id; the ledger is the in-memory one the tool is typed with, which takes a row in the call itself.
- Other packages of the repository (planner, quotas, leases, stores, CLI rendering, knowledge base): not modelled.
