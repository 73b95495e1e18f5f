# A Dafny model of the tool engine's core

The engine lets language models call tools.  This project models the parts of it that hold real
algorithms or protocols and proves what they are for.

| files | what they model |
|---|---|
| `SseFraming`, `StreamTranslator`, `StreamTranslatorProperties`, `StreamTranslatorHistory`, `StreamPipeline` | one streamed Anthropic completion: raw chunks are framed into server-sent events, and the events of interleaved content blocks are folded into completion events |
| `EditDistance`, `ToolNames` | "did you mean": a two-row Levenshtein distance and the search for the nearest registered tool name |
| `CivilDate` | seconds since 1970 to a calendar date, with the overflow of `i32` |
| `SecretVault`, `LegacyMigration` | a write-through cache over a stored item that other processes also write, and the migration of older stores, which may die after any effect |
| `ToolCallOrder`, `ToolCallHistory`, `ConcurrentTurns`, `GeminiMessages`, `GeminiEncoding`, `GeminiDecoding` | Gemini tool calls, which carry no ids: recording the calls of turns that may run at the same time, pairing results with them by position, encoding a transcript and decoding it |
| `AnthropicMessages`, `AnthropicShapes`, `CacheBreakpoint` | the transcript to wire JSON and back, the exact shapes on the wire, the in-place cache breakpoint, the thinking budget |
| `MemoryUsage` | usage counters in sidecar files: concurrent read-modify-write cycles with locks, temporary files and renames |
| `ProviderKeys` | plaintext provider keys that move from `providers.toml` into the vault; loading, saving, deleting |
| `Utf8`, `TextClipping` | the encoding of text in bytes and its order; cutting text at a byte limit or at the end of a sentence |
| `Options`, `Sequences`, `Json`, `Messages` | shared data types |

Code that updates state is a class or a method with loops, proved against a function; the theorems
are about that function, over all inputs and all runs.  What the program takes from outside is an
input of the model: chunks, failures of reads and writes, crash points, other processes' writes,
cancellation, parsers of JSON text (any function), lower-casing (any function).  Encoding a vault
blob is assumed to be undone by decoding, and one write of the keychain item, one rename and one
rewrite of the legacy vault to be atomic; the rewrite of `providers.toml` is not assumed to be, and a
mutation of the vault is a read, a write and an update of the cache with other processes in between.

Every lemma has `{:induction false}`: no proof rests on Dafny's automatic induction.

## Where the code and its documentation differ

The model follows the code.

- `response.rs:129` speaks of a single event over 16 KiB.  The cap is applied between chunks, to bytes
  without a boundary, so it depends on how the network cuts: `ChunkingIrrelevantIff` gives the exact
  bound, 16385 bytes with the boundary.
- `lib.rs` of the Anthropic client never clears the JSON pieces or signature of a block whose kind
  does not use them: `ReusedIndexIsFreshIff` says when that shows, `StaleInputLeaks` shows it.
- `registry.rs:262-264` promises substring matches when the shorter side has three characters; the
  code compares UTF-8 lengths, so one three-byte character suffices (`OneWideCharacterMatches`).
  `GuardsAgreeIff` says when the two guards agree and `ScoreIsDocumentedIff` when the scores do.
- `registry.rs:304-308` counts an engine tool twice when it shares a name: `LenCountsNamesIff`,
  `SharedNameCountsTwice`.
- `env_block.rs:88-90` promises exact dates for all `i64` seconds; `YmdDefinedIff` has the range, and
  `FittingYearCanOverflow` shows that the year alone does not decide it.  An overflow counts as no
  date, as with overflow checks; a build without them wraps, and for that very date would wrap back
  to the right one.
- `keychain_mutate` may fill the cache although it fails (`FailedMutateIff`, `FailedMutateFillsCache`).
  It writes from the blob it has cached or read, so another process's entry is lost when the cache is
  stale or the mutation is overtaken: `WriteTouchesOneEntryIff` says exactly when,
  `StaleMutateLosesUpdate` and `OvertakenMutateLosesUpdate` are the two ways.
- `migrate_legacy` deletes sources it could not read: `UnreadableSourceLostIff`, `UnreadableSourceIsLost`.
- Gemini results of several turns in one run are matched by part index alone: `MixedTurnsPairIff` says
  when that is right, `MixedTurnsAreConfused` shows that it can be wrong.
- `request.rs:9-11` says that the breakpoint goes to the last text block; the code marks the last
  block of any type, as the comment at `request.rs:218-234` says: `MarkIsOnLastTextIff`, `ImageIsMarked`.
- `lib.rs:229-245` of the provider configuration promises that saving removes a plaintext key and
  merges into the section.  Both hold for tables; a provider written as an inline table is never
  absorbed and is replaced on saving: `FileKeyIsHonouredIff`, `SaveTouchesOneSection`.  Such a key can
  even disappear for good: `LoadLosesKeyIff`, `InlineKeyIsLost`.

## Model

| member | source | states |
|---|---|---|
| `SseFraming.BoundaryFrom` | crates/ao-engine-tools-provider-anthropic/src/response.rs:164-183 | The scan from any position: what it finds ends the first boundary of the whole buffer, and `None` means there is none. |
| `SseFraming.FindSseBoundary` | crates/ao-engine-tools-provider-anthropic/src/response.rs:162-183 | The `while` loop returns the end of the first `\n\n` or `\r\n\r\n`, by its independent description (no boundary starts earlier), and `None` only when there is none. |
| `SseFraming.BoundaryLengthIs` | crates/ao-engine-tools-provider-anthropic/src/response.rs:164-182 | A boundary is the two bytes of an empty line with line feeds, or the four bytes with carriage returns, and nothing else. |
| `SseFraming.BoundaryStable` | crates/ao-engine-tools-provider-anthropic/src/response.rs:115-117 | A boundary found in a buffer stays the first one however the buffer is extended. |
| `SseFraming.BoundaryAppears` | crates/ao-engine-tools-provider-anthropic/src/response.rs:143-145 | A boundary that appears with more bytes ends in those bytes. |
| `SseFraming.Poll` | crates/ao-engine-tools-provider-anthropic/src/response.rs:109-158 | One poll of the stream as a function; every item that does not close the stream consumes a chunk or a block. |
| `SseFraming.SseParser.constructor` | crates/ao-engine-tools-provider-anthropic/src/response.rs:102-107 | A fresh parser has an empty buffer and is not done. |
| `SseFraming.SseParser.Next` | crates/ao-engine-tools-provider-anthropic/src/response.rs:108-158 | The loop that drains, checks the cap and pulls, in place on `buf`, `done` and the source, is exactly `Poll`. |
| `SseFraming.FramingConserves` | crates/ao-engine-tools-provider-anthropic/src/response.rs:115-117 | Drained blocks followed by the leftover are the input, byte for byte. |
| `SseFraming.TailHasNoBoundary` | crates/ao-engine-tools-provider-anthropic/src/response.rs:115-117 | The leftover holds no boundary. |
| `SseFraming.BlocksEndAtBoundaries` | crates/ao-engine-tools-provider-anthropic/src/response.rs:115-117 | Each drained block ends with its own first boundary and holds no other. |
| `SseFraming.RunDelivers` | crates/ao-engine-tools-provider-anthropic/src/response.rs:88-160 | When every block reached fits, any run from any parser state yields exactly what the chunk-free reference `Delivery` says: events in order, the stopping error, the bytes left over. |
| `SseFraming.OversizedBlockSplits` | crates/ao-engine-tools-provider-anthropic/src/response.rs:129-139 | When some reached block does not fit, two ways of cutting the same bytes give different outcomes. |
| `SseFraming.ChunkingIrrelevantIff` | crates/ao-engine-tools-provider-anthropic/src/response.rs:88-160 | All chunkings of the same bytes give the same items and the same leftover if and only if every block up to the first malformed one has at most 16385 bytes, boundary included. |
| `StreamTranslator.Translator.OnStart` | crates/ao-engine-tools-provider-anthropic/src/lib.rs:221-246 | `content_block_start` on the five maps, in place, is `StepStart`. |
| `StreamTranslator.Translator.OnDelta` | crates/ao-engine-tools-provider-anthropic/src/lib.rs:247-297 | `content_block_delta` on the maps, in place, is `StepDelta`. |
| `StreamTranslator.Translator.OnStop` | crates/ao-engine-tools-provider-anthropic/src/lib.rs:298-341 | `content_block_stop`: consumes the tables of that index and sends the closing events in order, as `StepStop`. |
| `StreamTranslator.Translator.OnEvent` | crates/ao-engine-tools-provider-anthropic/src/lib.rs:215-357 | The dispatch on the event kind is `Step`, including the cached stop reason and its default. |
| `StreamTranslatorProperties.NothingFollowsTheEnd` | crates/ao-engine-tools-provider-anthropic/src/lib.rs:204-361 | In every run at most one turn end or failure is sent, nothing follows it, and one is sent exactly when an ending item arrives. |
| `StreamTranslatorProperties.CancelledRunIsPrefix` | crates/ao-engine-tools-provider-anthropic/src/lib.rs:205-208 | What a run sends for a prefix of its items is a prefix of what it sends for all of them. |
| `StreamTranslatorProperties.StepOnSlot` | crates/ao-engine-tools-provider-anthropic/src/lib.rs:215-357 | One event changes only the table entries of its own index, and does to them what the per-block step does. |
| `StreamTranslatorProperties.StepSpeaksForItsBlock` | crates/ao-engine-tools-provider-anthropic/src/lib.rs:215-357 | Every output of an event belongs to the block the event names. |
| `StreamTranslatorProperties.ThinkingEndsArePaired` | crates/ao-engine-tools-provider-anthropic/src/lib.rs:299-325 | In every run each `ThinkingEnd` is immediately followed by its block's `ThinkingBlock`. |
| `StreamTranslatorProperties.RunIsCovered` | crates/ao-engine-tools-provider-anthropic/src/lib.rs:230-305 | Counted over any selection of blocks, the ends sent never exceed the indicators shown plus the starts sent. |
| `StreamTranslatorProperties.EndsNeverExceedStarts` | crates/ao-engine-tools-provider-anthropic/src/lib.rs:230-305 | In every prefix of every run, for any selection of blocks, thinking ends never exceed thinking starts. |
| `StreamTranslatorProperties.BlockSeesOnlyItsEvents` | crates/ao-engine-tools-provider-anthropic/src/lib.rs:175-341 | The outputs of block k in any run are the run of block k alone on the sub-sequence of its events. |
| `StreamTranslatorProperties.InterleavingIrrelevant` | crates/ao-engine-tools-provider-anthropic/src/lib.rs:175-341 | Two streams with the same events for block k, interleaved in any way with others, give block k the same outputs. |
| `StreamTranslatorProperties.SlotAccumulates` | crates/ao-engine-tools-provider-anthropic/src/lib.rs:247-297 | While a block is open its tables hold exactly: the last kind started, the concatenated JSON pieces, the concatenated reasoning that was sent, the last signature, the last redacted payload. |
| `StreamTranslatorProperties.BlockAmountsTo` | crates/ao-engine-tools-provider-anthropic/src/lib.rs:298-341 | At its first stop a block that showed thinking sends the end marker and then its reasoning block, with the texts sent for it joined and the last signature, each left out if empty; then the last redacted payload, if any; then, for a tool use, the call with the parse of the joined pieces, or `{}`. |
| `StreamTranslatorProperties.TextIsPassedOn` | crates/ao-engine-tools-provider-anthropic/src/lib.rs:216-280 | Every text delta, reasoning delta and usage report that arrives before the end is sent, once, for its block and in arrival order, and nothing else of the kind is sent. |
| `StreamTranslatorProperties.EndCarriesLastReason` | crates/ao-engine-tools-provider-anthropic/src/lib.rs:342-356 | A turn ends with the last stop reason given on the way, or naturally if there was none. |
| `StreamTranslatorProperties.ReusedIndexIsFreshIff` | crates/ao-engine-tools-provider-anthropic/src/lib.rs:298-341 | A stopped index is as good as new — for every parser and all later events, sent is what a stream of its own would send — if and only if the JSON pieces joined are empty or the last kind is a tool use, and the last signature is empty or absent or thinking was shown. |
| `StreamTranslatorProperties.LeftoverShows` | crates/ao-engine-tools-provider-anthropic/src/lib.rs:298-341 | Otherwise one of two short probes, a tool use or a thinking block without pieces of its own, shows what was left. |
| `StreamTranslatorProperties.FreshInAnyInterleaving` | crates/ao-engine-tools-provider-anthropic/src/lib.rs:175-341 | And when it is as good as new, so it is in every interleaving with other blocks. |
| `StreamTranslatorProperties.StaleInputLeaks` | crates/ao-engine-tools-provider-anthropic/src/lib.rs:335-339 | A concrete stream in which pieces sent to a text block end up in the input of the tool use that is sent for the same index. |
| `StreamTranslatorHistory.NextItemSendsWhatIsDue` | crates/ao-engine-tools-provider-anthropic/src/lib.rs:204-357 | The whole loop, told from the items and not from its maps: after any items, the next one sends exactly what is due, written out for every kind of event, whatever was started, stopped or reused before. |
| `StreamTranslatorHistory.NothingIsDueAfterTheEnd` | crates/ao-engine-tools-provider-anthropic/src/lib.rs:342-361 | And nothing is sent after an error or the end of the message. |
| `StreamPipeline.PollThenSend` | crates/ao-engine-tools-provider-anthropic/src/lib.rs:204-361 | What is sent from a parser state is what its next item sends, a failure with its message for every item that is not an event, followed by what is sent from the state after it. |
| `StreamPipeline.Pump` | crates/ao-engine-tools-provider-anthropic/src/lib.rs:208-359 | One turn of the loop: takes one item, translates it, and says whether the loop breaks; nothing is lost between the two. |
| `StreamPipeline.Drive` | crates/ao-engine-tools-provider-anthropic/src/lib.rs:204-361 | The loop with both mutable objects sends exactly the translation of the framed items, cut where cancellation is noticed. |
| `StreamPipeline.Complete` | crates/ao-engine-tools-provider-anthropic/src/lib.rs:169-366 | The spawned task as a whole, from raw chunks to completion events. |
| `StreamPipeline.CompletionIgnoresChunking` | crates/ao-engine-tools-provider-anthropic/src/lib.rs:169-366 | The completion events depend only on the bytes, not on the chunks, whenever every block fits. |
| `StreamPipeline.SentIsTold` | crates/ao-engine-tools-provider-anthropic/src/lib.rs:169-366 | When every block fits, sent is the translation of what the bytes amount to: the events of the complete blocks in order, then the failure of the first malformed block, of an oversized tail or of the source; cancellation lets exactly the items before it through. |
| `StreamPipeline.FailureIsSent` | crates/ao-engine-tools-provider-anthropic/src/lib.rs:209-213 | For any chunks: a run that ends in a failure, and that no event has ended, sends that failure with its message last and nothing after it. |
| `StreamPipeline.DroppedSourceFails` | crates/ao-engine-tools-provider-anthropic/src/lib.rs:209-213 | A source that drops always leads to a failure, unless the message has stopped before. |
| `StreamPipeline.CancellationSendsPrefix` | crates/ao-engine-tools-provider-anthropic/src/lib.rs:205-207 | Cancelling earlier sends a prefix of what is sent when cancelling later. |
| `EditDistance.Recurrence` | crates/ao-engine-tools-core/src/registry.rs:532-543 | The rolling rows satisfy the textbook recurrence over prefixes. |
| `EditDistance.FillRow` | crates/ao-engine-tools-core/src/registry.rs:533-541 | The inner loop overwrites the second array with the row after the one in the first. |
| `EditDistance.Levenshtein` | crates/ao-engine-tools-core/src/registry.rs:520-546 | The two swapped arrays, and the three shortcuts, compute the distance. |
| `EditDistance.LastCell` | crates/ao-engine-tools-core/src/registry.rs:531-545 | The loop over the rows, with the swap, ends with the distance in the last cell. |
| `EditDistance.DistanceZeroIff` | crates/ao-engine-tools-core/src/registry.rs:520-546 | The distance is zero exactly on equal strings. |
| `EditDistance.DistanceSymmetric` | crates/ao-engine-tools-core/src/registry.rs:520-546 | The distance is symmetric. |
| `EditDistance.DistanceTriangle` | crates/ao-engine-tools-core/src/registry.rs:520-546 | The distance satisfies the triangle inequality. |
| `EditDistance.EditMovesByOne` | crates/ao-engine-tools-core/src/registry.rs:520-546 | One insertion, deletion or substitution anywhere moves a string by at most one. |
| `EditDistance.NoShorterScript` | crates/ao-engine-tools-core/src/registry.rs:520-546 | No edit script turning `a` into `b` is shorter than the distance. |
| `EditDistance.ScriptExists` | crates/ao-engine-tools-core/src/registry.rs:520-546 | For all prefixes, a script exactly as long as the distance exists. |
| `EditDistance.DistanceIsLeastEdits` | crates/ao-engine-tools-core/src/registry.rs:520-546 | The computed distance is the least length of an edit script: one of that length exists and none is shorter. |
| `ToolNames.Sort` | crates/ao-engine-tools-core/src/registry.rs:247 | Sorting a duplicate-free list gives the strictly ordered list with the same members. |
| `ToolNames.SortedListUnique` | crates/ao-engine-tools-core/src/registry.rs:228-249 | There is only one strictly ordered list of a set of names. |
| `ToolNames.ContainsIff` | crates/ao-engine-tools-core/src/registry.rs:283-284 | The substring test holds exactly when the text is something, the pattern, and something. |
| `ToolNames.LessIsByteOrder` | crates/ao-engine-tools-core/src/registry.rs:247 | The order of the list is the byte order of the UTF-8 encodings. |
| `ToolNames.NearestUnique` | crates/ao-engine-tools-core/src/registry.rs:268-302 | At most one name is the nearest: least score first, then first in the order. |
| `ToolNames.GuardsAgreeIff` | crates/ao-engine-tools-core/src/registry.rs:283-284 | Three bytes and three characters are the same guard on a string if and only if it has three characters or fewer than three bytes. |
| `ToolNames.ScoreIsDocumentedIff` | crates/ao-engine-tools-core/src/registry.rs:258-291 | The computed score is the documented one if and only if no string of one or two characters, but three bytes or more, stands in the other, longer one at more than one edit from it. |
| `ToolNames.OneWideCharacterMatches` | crates/ao-engine-tools-core/src/registry.rs:283-284 | A query of one three-byte character matches a name that contains it, which by the documented score it does not. |
| `ToolNames.Registry.RemoveByPrefix` | crates/ao-engine-tools-core/src/registry.rs:193-200 | Removes and reports exactly the run-time tools with the prefix; static tools keep their names visible. |
| `ToolNames.Registry.Lookup` | crates/ao-engine-tools-core/src/registry.rs:202-213 | Finds something exactly for the names in one of the three maps; static I/O tools come first, then run-time ones. |
| `ToolNames.Registry.Collect` | crates/ao-engine-tools-core/src/registry.rs:232-246 | One collecting loop: adds the keys not seen yet and repeats none. |
| `ToolNames.Registry.List` | crates/ao-engine-tools-core/src/registry.rs:228-249 | The list is strictly ordered and has exactly the names of the three maps. |
| `ToolNames.Registry.NearestName` | crates/ao-engine-tools-core/src/registry.rs:270-302 | The argmin loop returns the lexicographically first name among those of least score, and `None` exactly when the query is empty or no name scores. |
| `ToolNames.Registry.NameScore` | crates/ao-engine-tools-core/src/registry.rs:278-291 | The score of one name: 0 for equality ignoring case, 1 for a guarded substring either way, the edit distance up to 3, else none. |
| `ToolNames.Registry.LenCountsNamesIff` | crates/ao-engine-tools-core/src/registry.rs:304-308 | `len` is the number of distinct names if and only if no engine tool shares a name with an I/O or run-time tool. |
| `ToolNames.SharedNameCountsTwice` | crates/ao-engine-tools-core/src/registry.rs:304-308 | A registry built with one name for an I/O and an engine tool has one name and length two. |
| `CivilDate.EraRanges` | crates/ao-engine-tools-cli/src/env_block.rs:95-99 | The year of the era is in 0..=399, the day of the year in 0..=365, and no unsigned subtraction on the way goes below zero. |
| `CivilDate.MonthRanges` | crates/ao-engine-tools-cli/src/env_block.rs:100-102 | The month index is in 0..=11, the day at most 31, the month in 1..=12. |
| `CivilDate.YmdCountsBack` | crates/ao-engine-tools-cli/src/env_block.rs:91-104 | Every computed date is a calendar date, and counting days year by year and month by month from 1970-01-01 to it gives back the day of the input. |
| `CivilDate.YmdDefinedIff` | crates/ao-engine-tools-cli/src/env_block.rs:94-103 | The `i32` arithmetic stays in range if and only if the day lies between 1 March of year -2147483600 and 31 December of year 2147483647. |
| `CivilDate.YmdInvertsCount` | crates/ao-engine-tools-cli/src/env_block.rs:91-104 | Every calendar date between the limits is what the algorithm yields, for every second of that day. |
| `CivilDate.NextDayIsSuccessor` | crates/ao-engine-tools-cli/src/env_block.rs:91-104 | 86400 seconds later is the calendar successor. |
| `CivilDate.DayNumberInjective` | crates/ao-engine-tools-cli/src/env_block.rs:88-90 | No two calendar dates have the same day number. |
| `CivilDate.SuccessorIsNextDay` | crates/ao-engine-tools-cli/src/env_block.rs:88-90 | The successor date has the next day number, across month ends, leap days and year ends. |
| `CivilDate.LimitsAreDates` | crates/ao-engine-tools-cli/src/env_block.rs:94-103 | The two limits are the day numbers of the dates named above. |
| `CivilDate.FittingYearCanOverflow` | crates/ao-engine-tools-cli/src/env_block.rs:94-98 | 1 June of year -2147483601 fits `i32` as a year, and the arithmetic overflows on it. |
| `CivilDate.KnownDates` | crates/ao-engine-tools-cli/src/env_block.rs:151-160 | The epoch's day, the second before it, and the leap day of 2000. |
| `SecretVault.ApplyTouchesOneEntry` | crates/ao-engine-tools-provider-config/src/secret_vault.rs:829-895 | An insertion or removal sets its own entry and no other, in all four categories. |
| `SecretVault.EntriesAre` | crates/ao-engine-tools-provider-config/src/secret_vault.rs:829-895 | Each category is looked up in its own map; a missing item and one that does not parse have no entries. |
| `SecretVault.KeychainItem.ReadBlob` | crates/ao-engine-tools-provider-config/src/secret_vault.rs:719-731 | A missing item and one that does not parse read as an empty vault; a backend error is an error. |
| `SecretVault.KeychainVault.EnsurePopulated` | crates/ao-engine-tools-provider-config/src/secret_vault.rs:750-782 | Reads the item only when the cache is empty; a failed read leaves the cache empty. |
| `SecretVault.KeychainVault.ForceRepopulate` | crates/ao-engine-tools-provider-config/src/secret_vault.rs:770-776 | Replaces the cache by the item even when the cache is filled; a failed read keeps the old cache. |
| `SecretVault.KeychainVault.GetField` | crates/ao-engine-tools-provider-config/src/secret_vault.rs:784-791 | A cached lookup is the transition `Lookup`. |
| `SecretVault.KeychainVault.GetFieldFresh` | crates/ao-engine-tools-provider-config/src/secret_vault.rs:801-809 | A fresh lookup is the transition `LookupFresh`. |
| `SecretVault.LookupSucceedsIff` | crates/ao-engine-tools-provider-config/src/secret_vault.rs:750-791 | A lookup is answered if and only if the cache is filled or the item can be read: from the cache, changing nothing, or from the item, which fills the cache. |
| `SecretVault.FreshLookupSucceedsIff` | crates/ao-engine-tools-provider-config/src/secret_vault.rs:770-809 | A fresh lookup is answered if and only if the item can be read: from the item, which replaces the cache. |
| `SecretVault.KeychainVault.MutateBlob` | crates/ao-engine-tools-provider-config/src/secret_vault.rs:814-823 | Mutation edits a clone of the cached blob, writes it, and updates the cache only after the write succeeds, with any writes of other processes after its read and after its write: the transitions `Begin`, `Write` and `Swap`. |
| `SecretVault.MutationSucceedsIff` | crates/ao-engine-tools-provider-config/src/secret_vault.rs:814-823 | A mutation succeeds if and only if it has or can read a blob and its write goes through; otherwise it fails. |
| `SecretVault.WriteTouchesOneEntryIff` | crates/ao-engine-tools-provider-config/src/secret_vault.rs:814-823 | At the write, whatever has happened since the read: the item gets the new entry, and every other entry of the item is kept if and only if the blob written from agrees with the item on it at that moment. |
| `SecretVault.MutateTouchesOneEntryIff` | crates/ao-engine-tools-provider-config/src/secret_vault.rs:814-823 | A mutation that another process may overtake between read and write: the item has the new entry and cache and item agree; every other entry of the item as it stood before the write is kept if and only if the cached blob agreed with it. |
| `SecretVault.FailedMutateIff` | crates/ao-engine-tools-provider-config/src/secret_vault.rs:814-823 | A failed mutation writes nothing of its own; the cache is unchanged too if and only if it was filled before or the read failed, and otherwise it now holds the item as read. |
| `SecretVault.FailedMutateFillsCache` | crates/ao-engine-tools-provider-config/src/secret_vault.rs:814-823 | A failed write that leaves an empty cache filled. |
| `SecretVault.StaleMutateLosesUpdate` | crates/ao-engine-tools-provider-config/src/secret_vault.rs:814-823 | A concrete run in which a mutation from a stale cache erases another process's entry. |
| `SecretVault.OvertakenMutateLosesUpdate` | crates/ao-engine-tools-provider-config/src/secret_vault.rs:814-823 | A concrete run without any cache in which an entry stored between the read and the write is erased. |
| `SecretVault.CacheWasStored` | crates/ao-engine-tools-provider-config/src/secret_vault.rs:719-823 | In every interleaving of the steps of lookups and mutations with other writers, the cached blob and the blob a running mutation started from are ones the item held at some earlier moment. |
| `SecretVault.LookupAnswersFromThePast` | crates/ao-engine-tools-provider-config/src/secret_vault.rs:784-791 | A cached lookup that need not wait, with a filled cache or a readable item, is answered, and with a value the item had at some moment up to now, in every such interleaving. |
| `SecretVault.CoherentUntilExternal` | crates/ao-engine-tools-provider-config/src/secret_vault.rs:750-823 | Once item, cache and a running mutation agree, they agree until another process writes. |
| `SecretVault.NothingIsLostUntilExternal` | crates/ao-engine-tools-provider-config/src/secret_vault.rs:814-823 | So until then every write of this process keeps all entries but its own. |
| `SecretVault.FreshLookupRestoresTruth` | crates/ao-engine-tools-provider-config/src/secret_vault.rs:801-809 | After a fresh lookup that can read the item, every lookup that need not wait is answered with the item's current value until another process writes, a cached one even when the item cannot be read. |
| `SecretVault.FileMutateSucceedsIff` | crates/ao-engine-tools-provider-config/src/secret_vault.rs:901-932 | A mutation of the vault file succeeds if and only if the file is missing or parses and can be written. |
| `SecretVault.FileMutateTouchesOneEntry` | crates/ao-engine-tools-provider-config/src/secret_vault.rs:901-932 | The file backend's load, edit and save changes one entry of the stored blob and no other. |
| `LegacyMigration.LegacyStores.Remove` | crates/ao-engine-tools-provider-config/src/secret_vault.rs:1032-1048 | One deletion, whose failure goes unnoticed. |
| `LegacyMigration.LegacyStores.RemoveAll` | crates/ao-engine-tools-provider-config/src/secret_vault.rs:1139-1146 | The deletions at one place, in order, up to a crash. |
| `LegacyMigration.LegacyStores.DeleteSources` | crates/ao-engine-tools-provider-config/src/secret_vault.rs:1139-1146 | Keychain items first, when they may be touched, then files. |
| `LegacyMigration.LegacyStores.Gather` | crates/ao-engine-tools-provider-config/src/secret_vault.rs:1080-1117 | The legacy entries of one category, file entries over item entries. |
| `LegacyMigration.LegacyStores.WriteFolded` | crates/ao-engine-tools-provider-config/src/secret_vault.rs:1123-1137 | The single write adds the legacy entries the vault lacks. |
| `LegacyMigration.LegacyStores.FoldAndDelete` | crates/ao-engine-tools-provider-config/src/secret_vault.rs:1123-1146 | The write comes before the first deletion. |
| `LegacyMigration.LegacyStores.Migrate` | crates/ao-engine-tools-provider-config/src/secret_vault.rs:1072-1149 | A run that dies after any number of effects leaves exactly `AfterEffects`. |
| `LegacyMigration.FoldPrefers` | crates/ao-engine-tools-provider-config/src/secret_vault.rs:1109-1133 | Each entry of the folded vault is the vault's own, else the file's, else the item's. |
| `LegacyMigration.MigrationPrefersVaultThenFileThenItem` | crates/ao-engine-tools-provider-config/src/secret_vault.rs:1072-1149 | The same for the vault after a completed run, for every key: no entry of a readable source is missing. |
| `LegacyMigration.EffectsFoldAndDrop` | crates/ao-engine-tools-provider-config/src/secret_vault.rs:1072-1149 | However far a run gets, the vault is the old one or the whole fold, and sources are kept or emptied, never altered. |
| `LegacyMigration.CrashKeepsGoal` | crates/ao-engine-tools-provider-config/src/secret_vault.rs:1072-1149 | Dying after any effect does not change the vault that a completed run would reach. |
| `LegacyMigration.CrashesReachSameVault` | crates/ao-engine-tools-provider-config/src/secret_vault.rs:1072-1149 | Any number of runs that die anywhere, then a completed one, reach the vault of one uninterrupted run. |
| `LegacyMigration.SecondRunChangesNothing` | crates/ao-engine-tools-provider-config/src/secret_vault.rs:1072-1149 | After a completed run another one changes nothing. |
| `LegacyMigration.FinishedRunEmptiesSources` | crates/ao-engine-tools-provider-config/src/secret_vault.rs:1139-1146 | A completed run leaves no source that it may touch. |
| `LegacyMigration.FinishedRunWorksIff` | crates/ao-engine-tools-provider-config/src/secret_vault.rs:1072-1149 | A finished run does its work if and only if some readable source that it may touch has an entry and the vault is not a file that does not parse: then every key has its preferred value and every source that it may touch is gone; otherwise nothing changes. |
| `LegacyMigration.FirstStartMigrates` | crates/ao-engine-tools-provider-config/src/secret_vault.rs:1072-1149 | The first start on a keychain without a vault item stores a legacy file's secret and deletes the file. |
| `LegacyMigration.CrashLeavesExactly` | crates/ao-engine-tools-provider-config/src/secret_vault.rs:1139-1146 | A run that dies after n effects has deleted exactly the first n - 1 sources in the order items, then files, each by category, except those whose deletion failed. |
| `LegacyMigration.UnreadableSourceLostIff` | crates/ao-engine-tools-provider-config/src/secret_vault.rs:1026-1149 | A source that cannot be read is deleted if and only if the run proceeds and may touch it. |
| `LegacyMigration.UnreadableSourceIsLost` | crates/ao-engine-tools-provider-config/src/secret_vault.rs:1026-1149 | A concrete disk on which a finished run deletes an unreadable file whose secret the vault does not get. |
| `ToolCallOrder.IdRoundTrip` | crates/ao-engine-tools-provider-gemini/src/ordering.rs:33-65 | Parsing a recorded id gives back its turn and part, for all 64-bit values. |
| `ToolCallOrder.IdsDistinct` | crates/ao-engine-tools-provider-gemini/src/ordering.rs:33-37 | Distinct calls never share an id. |
| `ToolCallOrder.ParsesIff` | crates/ao-engine-tools-provider-gemini/src/ordering.rs:61-65 | An id parses, and as which turn and part, if and only if it is the prefix and two numbers that fit 64 bits with a dash between, each with an optional plus sign. |
| `ToolCallOrder.IdsLookLike` | crates/ao-engine-tools-provider-gemini/src/ordering.rs:33-37 | An id is the prefix, the turn, a dash and the part in decimal. |
| `ToolCallOrder.ToolCallOrderTracker.PartsForTurn` | crates/ao-engine-tools-provider-gemini/src/ordering.rs:46-55 | Exactly the calls of the turn, ordered by part. |
| `ToolCallOrder.PartsUnique` | crates/ao-engine-tools-provider-gemini/src/ordering.rs:46-55 | That description determines the list. |
| `ToolCallOrder.SendPart` | crates/ao-engine-tools-provider-gemini/src/lib.rs:243-268 | One part of an event, on the mutable tracker, counters and channel. |
| `ToolCallOrder.SendParts` | crates/ao-engine-tools-provider-gemini/src/lib.rs:243-268 | The loop over one event's parts; the part index runs across events. |
| `ToolCallOrder.RunTranslator` | crates/ao-engine-tools-provider-gemini/src/lib.rs:219-285 | The loop over the stream, with the terminal event, is `Translate`. |
| `ToolCallOrder.TurnRecordsItsCalls` | crates/ao-engine-tools-provider-gemini/src/lib.rs:229-268 | Every turn records exactly the calls it emits, at their absolute positions, and announces each under its recorded id and name. |
| `ToolCallOrder.PartsArePassedOn` | crates/ao-engine-tools-provider-gemini/src/lib.rs:243-268 | Every text and every call with its arguments is sent, once and in the order of the parts across all events, and nothing else of the kind is sent. |
| `ToolCallOrder.EndKnowsOfCalls` | crates/ao-engine-tools-provider-gemini/src/lib.rs:230-279 | The terminal event is told that there were calls if and only if the turn emitted one. |
| `ToolCallOrder.RecordedPartsAreEmitted` | crates/ao-engine-tools-provider-gemini/src/lib.rs:229-268 | After a turn with a fresh number the tracker lists exactly that turn's calls in emission order. |
| `ToolCallOrder.OtherTurnsUntouched` | crates/ao-engine-tools-provider-gemini/src/lib.rs:229-268 | Recording a turn changes nothing for any other turn. |
| `ToolCallOrder.GeminiClient.Complete` | crates/ao-engine-tools-provider-gemini/src/lib.rs:147-193 | One turn after the other: each call takes a new turn number, records what it announces, and keeps all earlier turns. |
| `ToolCallHistory.NextItemSendsWhatIsDue` | crates/ao-engine-tools-provider-gemini/src/lib.rs:227-282 | The whole loop, told from the items: after any items, the next one sends its texts and calls under their absolute positions, and with a finish reason its usage report and that reason, or the failure with its message. |
| `ToolCallHistory.NothingIsDueAfterTheEnd` | crates/ao-engine-tools-provider-gemini/src/lib.rs:233-282 | And nothing is sent after a failure or a finish reason. |
| `GeminiMessages.FunctionResponseParts` | crates/ao-engine-tools-provider-gemini/src/messages.rs:191-276 | The responses for a run of tool results, from the recorded order when the turn is known, else sorted by part index. |
| `GeminiMessages.BuildToolResultParts` | crates/ao-engine-tools-provider-gemini/src/messages.rs:147-156 | Responses first, then every image and document of the results. |
| `GeminiMessages.SortIsStable` | crates/ao-engine-tools-provider-gemini/src/messages.rs:239-260 | Without a record of the turn the responses are sorted by part index, stably: results of one index keep their order, none is lost or repeated. |
| `GeminiMessages.ExtractTextJoins` | crates/ao-engine-tools-provider-gemini/src/messages.rs:369-378 | The output for a result is all of its texts, joined with nothing in between, and nothing of its other blocks. |
| `GeminiMessages.FirstTurnIsFirst` | crates/ao-engine-tools-provider-gemini/src/messages.rs:195-206 | The turn of a run is that of the first result whose id parses. |
| `GeminiMessages.UnrecordedTurnIsSorted` | crates/ao-engine-tools-provider-gemini/src/messages.rs:239-260 | When nothing is on record for that turn, the results whose id parses are answered by part index, those of one index in input order, each under its own id. |
| `GeminiMessages.ForeignResultsKeepTheirOrder` | crates/ao-engine-tools-provider-gemini/src/messages.rs:262-276 | When no id parses, every result is answered in input order under its own id. |
| `GeminiMessages.ResultForId` | crates/ao-engine-tools-provider-gemini/src/messages.rs:195-206 | The output used for a part is that of the last result with its id, and empty when there is none. |
| `GeminiMessages.ResultsArePairedByPosition` | crates/ao-engine-tools-provider-gemini/src/messages.rs:191-237 | End to end: for any results of one turn, in any order and possibly incomplete, there is one response per emitted call, in emission order, with the emitted name and the matching output or an empty one. |
| `GeminiMessages.CompletionOrderIrrelevant` | crates/ao-engine-tools-provider-gemini/src/messages.rs:191-237 | Two orders of the same results give the same responses. |
| `GeminiMessages.FirstTurnDecides` | crates/ao-engine-tools-provider-gemini/src/messages.rs:191-237 | A run of results from any turns is answered for the turn of its first result: one response per call of that turn, with the text of the last result that carries its part index, of whatever turn. |
| `GeminiMessages.MixedTurnsPairIff` | crates/ao-engine-tools-provider-gemini/src/messages.rs:191-237 | So every call of that turn is answered rightly if and only if, for each, that last text is one of its own results', or empty when it has none. |
| `GeminiMessages.LaterTurnSpoils` | crates/ao-engine-tools-provider-gemini/src/messages.rs:195-237 | When the last result with a call's part index has a text that is neither empty nor that of an own result, the pairing is wrong. |
| `GeminiMessages.MixedTurnsAreConfused` | crates/ao-engine-tools-provider-gemini/src/messages.rs:195-237 | Two recorded turns with one call each: the responses give the second turn's output to the first turn's call. |
| `ConcurrentTurns.TurnsRunAsIfAlone` | crates/ao-engine-tools-provider-gemini/src/lib.rs:182-268 | Turns that run at the same time on one tracker, their parts in any interleaving: each sends what it would send alone and records what it would record alone. |
| `ConcurrentTurns.ConcurrentTurnsKeepApart` | crates/ao-engine-tools-provider-gemini/src/lib.rs:182-268 | So each fresh turn has exactly its own calls on record, in emission order, and announces them under the recorded ids. |
| `GeminiEncoding.SegmentsJoin` | crates/ao-engine-tools-provider-gemini/src/messages.rs:62-101 | Cutting a transcript into single messages and runs of tool results loses nothing and keeps the order. |
| `GeminiEncoding.RunsAreMaximal` | crates/ao-engine-tools-provider-gemini/src/messages.rs:83-93 | No two runs are adjacent. |
| `GeminiEncoding.ToProvider` | crates/ao-engine-tools-provider-gemini/src/messages.rs:62-101 | The nested loops compute the encoding segment by segment, including the error of the first message that cannot be encoded. |
| `GeminiEncoding.CollectFrom` | crates/ao-engine-tools-provider-gemini/src/messages.rs:85-93 | The inner loop collects exactly the maximal run of tool results that starts here. |
| `GeminiEncoding.EncodeRun` | crates/ao-engine-tools-provider-gemini/src/messages.rs:83-96 | A run becomes one content object and the outer loop continues behind it. |
| `GeminiEncoding.EncodeOne` | crates/ao-engine-tools-provider-gemini/src/messages.rs:67-82 | The arms for the other messages. |
| `GeminiEncoding.EncodingFollowsSegments` | crates/ao-engine-tools-provider-gemini/src/messages.rs:62-101 | The contents are the segments one for one and in order: each maximal run is exactly one user turn. |
| `GeminiEncoding.EncodingSucceedsIff` | crates/ao-engine-tools-provider-gemini/src/messages.rs:278-367 | Encoding succeeds exactly when there is no system message, no tool use in a user message and no tool result in an assistant message. |
| `GeminiEncoding.RunCarriesMediaOnce` | crates/ao-engine-tools-provider-gemini/src/messages.rs:147-185 | A run's turn is its function responses followed by every image and document of its results, each exactly once and in input order. |
| `GeminiEncoding.RunIsAnswered` | crates/ao-engine-tools-provider-gemini/src/messages.rs:83-237 | End to end, from messages to the wire: a run that answers calls of a recorded turn begins with one response per emitted call, in emission order, with the call's name and the joined texts of its own message. |
| `GeminiEncoding.EncodingFailsWith` | crates/ao-engine-tools-provider-gemini/src/messages.rs:62-101 | A failed encoding reports the first message that cannot be represented. |
| `GeminiEncoding.InlineResultIsNamed` | crates/ao-engine-tools-provider-gemini/src/messages.rs:278-330 | A tool result inside a user message is named after its recorded call, and by its id when there is none. |
| `GeminiEncoding.ResponsesUnique` | crates/ao-engine-tools-provider-gemini/src/messages.rs:191-276 | The specification of the responses determines them. |
| `GeminiDecoding.StubIdIsNotRecorded` | crates/ao-engine-tools-provider-gemini/src/messages.rs:402 | An id that the decoder invents is never taken for a recorded one. |
| `GeminiDecoding.StubIdsDistinct` | crates/ao-engine-tools-provider-gemini/src/messages.rs:402 | Stub ids of different positions differ. |
| `GeminiDecoding.DecodingFailsWith` | crates/ao-engine-tools-provider-gemini/src/messages.rs:103-135 | A failed decoding reports the first content that cannot be read. |
| `GeminiDecoding.FromProvider` | crates/ao-engine-tools-provider-gemini/src/messages.rs:103-135 | The pushing loop computes the decoding, or the first failure. |
| `GeminiDecoding.AssistantComesBack` | crates/ao-engine-tools-provider-gemini/src/messages.rs:331-435 | An encoded assistant message decodes to its texts and calls, in order, with stub ids by position. |
| `GeminiDecoding.UserComesBack` | crates/ao-engine-tools-provider-gemini/src/messages.rs:278-435 | An encoded user message decodes to its texts and media, in order, if and only if it holds no tool result. |
| `GeminiDecoding.RunNeverComesBack` | crates/ao-engine-tools-provider-gemini/src/messages.rs:147-435 | The turn made of tool results is always refused by the decoder. |
| `GeminiDecoding.TranscriptComesBackIff` | crates/ao-engine-tools-provider-gemini/src/messages.rs:62-135 | An encoded transcript decodes if and only if there is no tool result in it, and then message by message into what Gemini can represent. |
| `AnthropicMessages.EncodedKind` | crates/ao-engine-tools-provider-anthropic/src/messages.rs:331-404 | The `type` that a block is encoded with is the one the decoder dispatches on, and is `tool_result` only for tool results. |
| `AnthropicMessages.BlockRoundTrip` | crates/ao-engine-tools-provider-anthropic/src/messages.rs:206-325 | Decoding an encoded block gives it back, with empty thinking text and signature collapsed to nothing. |
| `AnthropicMessages.BlocksRoundTrip` | crates/ao-engine-tools-provider-anthropic/src/messages.rs:202-204 | The same for a list of blocks. |
| `AnthropicMessages.InlineIsNotTranscriptLevel` | crates/ao-engine-tools-provider-anthropic/src/messages.rs:167-200 | No encoded user content is taken for a transcript-level tool result, not even a single inline one. |
| `AnthropicMessages.TranscriptLevelIsDecoded` | crates/ao-engine-tools-provider-anthropic/src/messages.rs:167-200 | The array shape is always decoded as a transcript-level result with its id, content and error flag. |
| `AnthropicMessages.MessageRoundTrip` | crates/ao-engine-tools-provider-anthropic/src/messages.rs:53-160 | Every message but a system message survives encoding and decoding. |
| `AnthropicMessages.ToProvider` | crates/ao-engine-tools-provider-anthropic/src/messages.rs:53-103 | The pushing loop computes the encoding, or the first failure. |
| `AnthropicMessages.FromProvider` | crates/ao-engine-tools-provider-anthropic/src/messages.rs:105-160 | The pushing loop computes the decoding, or the first failure; anything but an array is refused. |
| `AnthropicMessages.TranscriptRoundTrip` | crates/ao-engine-tools-provider-anthropic/src/messages.rs:53-160 | Every transcript without a system message decodes to itself, up to empty thinking fields. |
| `AnthropicMessages.DecodingFailsWith` | crates/ao-engine-tools-provider-anthropic/src/messages.rs:105-160 | A failed decoding reports the first value that cannot be read. |
| `AnthropicMessages.SystemNeverEncodes` | crates/ao-engine-tools-provider-anthropic/src/messages.rs:58-62 | Encoding fails if and only if there is a system message. |
| `AnthropicShapes.BlockParsesIff` | crates/ao-engine-tools-provider-anthropic/src/messages.rs:206-325 | A JSON value, whatever it is, is read as a given block if and only if it has that block's fields, written out for all seven kinds. |
| `AnthropicShapes.MessageParsesIff` | crates/ao-engine-tools-provider-anthropic/src/messages.rs:105-200 | A JSON value is read as a given message if and only if it has its role and a content array of that shape; one `tool_result` block that holds an array is a transcript-level result and nothing else is. |
| `AnthropicShapes.EncodedShape` | crates/ao-engine-tools-provider-anthropic/src/messages.rs:331-404 | An encoded block has exactly the fields of its kind, with a `base64` source where it has one. |
| `AnthropicShapes.EncodedMessageShape` | crates/ao-engine-tools-provider-anthropic/src/messages.rs:53-103 | An encoded message has exactly a role and a content array. |
| `CacheBreakpoint.InsertUserCacheControl` | crates/ao-engine-tools-provider-anthropic/src/request.rs:236-255 | The reverse loop edits the array in place into `WithBreakpoint` of what it was. |
| `CacheBreakpoint.LastUser` | crates/ao-engine-tools-provider-anthropic/src/request.rs:241-242 | The position of the last user message, and `None` only when there is none. |
| `CacheBreakpoint.BreakpointIs` | crates/ao-engine-tools-provider-anthropic/src/request.rs:236-255 | For any JSON values, well-formed or not: exactly the last block of the last user message gets a `cache_control` of type `ephemeral`, if it is an object, and nothing else changes. |
| `CacheBreakpoint.MarkedParsesAlike` | crates/ao-engine-tools-provider-anthropic/src/request.rs:247-251 | A marked block decodes to the same block or the same error. |
| `CacheBreakpoint.BreakpointIsInvisible` | crates/ao-engine-tools-provider-anthropic/src/request.rs:236-255 | Whatever the messages are, well-formed or not, the breakpoint does not change what they decode to. |
| `CacheBreakpoint.BreakpointMarksLastUserBlock` | crates/ao-engine-tools-provider-anthropic/src/request.rs:236-255 | In an encoded transcript block k of message i carries the mark if and only if it is the last block of the last user-role message; every unmarked block is unchanged. |
| `CacheBreakpoint.MarkIsOnLastTextIff` | crates/ao-engine-tools-provider-anthropic/src/request.rs:9-11 | The marked block is the last text block of that message if and only if the message is a user message that ends in a text block. |
| `CacheBreakpoint.ImageIsMarked` | crates/ao-engine-tools-provider-anthropic/src/request.rs:247-251 | A question followed by an image: the image is marked and no text block is. |
| `CacheBreakpoint.ReasoningBudget` | crates/ao-engine-tools-provider-anthropic/src/request.rs:200-216 | The thinking budget is the largest within the tier that leaves 1024 tokens, or 1024 when that is too small, always below the output limit; nothing if and only if the limit is at most 1024. |
| `CacheBreakpoint.BudgetsAre` | crates/ao-engine-tools-provider-anthropic/src/request.rs:200-216 | The three tiers, and what a small output limit leaves of them. |
| `MemoryUsage.UsageFiles.LockForPath` | crates/ao-engine-tools-core/src/memory_usage.rs:41-49 | Each path gets one lock for ever, and no two paths share one. |
| `MemoryUsage.UsageFiles.Read` | crates/ao-engine-tools-core/src/memory_usage.rs:94-98 | Missing and corrupt sidecars read as empty, an unreadable one is an error. |
| `MemoryUsage.UsageFiles.Replace` | crates/ao-engine-tools-core/src/memory_usage.rs:110-114 | A temporary file and a rename: the sidecar becomes the new map or stays what it was. |
| `MemoryUsage.UsageFiles.Bump` | crates/ao-engine-tools-core/src/memory_usage.rs:85-117 | Succeeds exactly when its I/O does; then exactly the named row is one higher and returned, otherwise the sidecars are unchanged. |
| `MemoryUsage.UsageFiles.RemoveEntry` | crates/ao-engine-tools-core/src/memory_usage.rs:130-154 | Exactly the named row goes; no write when there is none; on an error the sidecars are unchanged. |
| `MemoryUsage.OperationChangesOneRow` | crates/ao-engine-tools-core/src/memory_usage.rs:85-154 | An increment makes its row one higher, counting from zero; a removal makes it disappear, and leaves the file as it is when there is none; no other row and no other file changes. |
| `MemoryUsage.RunKeepsInv` | crates/ao-engine-tools-core/src/memory_usage.rs:41-154 | Every reachable state: locks are distinct per path, a task inside owns its path's lock, and what it has read is still what the file holds. |
| `MemoryUsage.MutualExclusion` | crates/ao-engine-tools-core/src/memory_usage.rs:89-91 | Two tasks of one process are never both inside for the same path. |
| `MemoryUsage.NoLockIsLeftBehind` | crates/ao-engine-tools-core/src/memory_usage.rs:89-91 | In every reachable state, with failures and drops anywhere, a lock is owned only by a task that is inside with it. |
| `MemoryUsage.NobodyWaitsForEver` | crates/ao-engine-tools-core/src/memory_usage.rs:89-91 | In every reachable state a task that has not finished can go on, or waits for a lock whose owner can. |
| `MemoryUsage.FailureIs` | crates/ao-engine-tools-core/src/memory_usage.rs:89-114 | A failure ends its task without an effect on any sidecar; only one that strikes a write leaves its temporary file torn. |
| `MemoryUsage.CrashIs` | crates/ao-engine-tools-core/src/memory_usage.rs:41-49 | A crash loses the locks and leaves anything in the temporary files; the sidecars stay, and what had finished stays finished. |
| `MemoryUsage.SidecarIsReplay` | crates/ao-engine-tools-core/src/memory_usage.rs:85-154 | In every interleaving, with failures and crashes anywhere, a sidecar is what its logged operations make of its first contents, one after the other: no update is lost and other paths are not affected. |
| `MemoryUsage.ReplayCounts` | crates/ao-engine-tools-core/src/memory_usage.rs:99-105 | Replaying operations gives each row the increments since its last removal, by an independent count. |
| `MemoryUsage.LoadCountsIncrementsSinceRemoval` | crates/ao-engine-tools-core/src/memory_usage.rs:68-74 | A lock-free load at any moment of any run, crashed or not, finds for every entry the increments that took effect since its last removal. |
| `MemoryUsage.LoadIs` | crates/ao-engine-tools-core/src/memory_usage.rs:68-74 | A load gives the map of a readable valid file and otherwise an empty one. |
| `MemoryUsage.LoadFindsRowIff` | crates/ao-engine-tools-core/src/memory_usage.rs:119-129 | A load at any moment of any run finds a row if and only if it was incremented since its last removal, or was there at first and never removed: a removed row is gone. |
| `MemoryUsage.NeverTorn` | crates/ao-engine-tools-core/src/memory_usage.rs:110-114 | A sidecar is corrupt only if it was so at first and no increment has taken effect on it. |
| `MemoryUsage.SuccessTakesEffectOnce` | crates/ao-engine-tools-core/src/memory_usage.rs:85-154 | A call that returned success took effect exactly once, one that returned an error never, one that was killed at most once. |
| `MemoryUsage.ReturnedCountIsExact` | crates/ao-engine-tools-core/src/memory_usage.rs:102-108 | The count that an increment returns is the count right after its own effect, in every interleaving. |
| `MemoryUsage.AloneTheCodeRuns` | crates/ao-engine-tools-core/src/memory_usage.rs:85-154 | Undisturbed, the interleaving machine does what `Bump` and `RemoveEntry` do, leaves no temporary file, and an increment is told the new count. |
| `ProviderKeys.ProviderStore.AbsorbProvider` | crates/ao-engine-tools-provider-config/src/lib.rs:327-334 | A plaintext key goes to the vault unless the vault has an entry. |
| `ProviderKeys.ProviderStore.AbsorbPlaintextApiKeys` | crates/ao-engine-tools-provider-config/src/lib.rs:319-342 | The loop over the known providers, editing document and vault, is `Absorb`, failures included. |
| `ProviderKeys.ProviderStore.Load` | crates/ao-engine-tools-provider-config/src/lib.rs:102-132 | Loading with a failure at any call, in place on file and vault, is `Loaded`. |
| `ProviderKeys.ProviderStore.FillKeys` | crates/ao-engine-tools-provider-config/src/lib.rs:118-129 | Fills in the keys one provider after the other. |
| `ProviderKeys.ProviderStore.SaveProvider` | crates/ao-engine-tools-provider-config/src/lib.rs:247-288 | Vault first, then read, edit and rewrite the file: `Saved`. |
| `ProviderKeys.ProviderStore.DeleteProvider` | crates/ao-engine-tools-provider-config/src/lib.rs:291-305 | Vault first, then the section: `Deleted`. |
| `ProviderKeys.FilledAt` | crates/ao-engine-tools-provider-config/src/lib.rs:118-129 | Filling in sets the key of each listed provider from the vault and keeps everything else. |
| `ProviderKeys.AbsorbAbsorbs` | crates/ao-engine-tools-provider-config/src/lib.rs:319-342 | Absorbing never changes a vault entry, adds only keys of the file, and scrubs only keys that the vault has. |
| `ProviderKeys.AbsorbFinishes` | crates/ao-engine-tools-provider-config/src/lib.rs:319-342 | When it does not fail, every provider whose table had a plaintext key has an entry, and with a keychain no key is left in its table. |
| `ProviderKeys.LoadLosesKeyIff` | crates/ao-engine-tools-provider-config/src/lib.rs:102-132 | A key of the file is afterwards neither in the file nor does its provider have an entry, if and only if its section is inline, the vault has no entry for it, scrubbing is on, some table has a plaintext key so that the file is rewritten, the load dies exactly at that rewrite (counted in earlier calls), and what the rewrite leaves does not have the key. |
| `ProviderKeys.InlineKeyIsLost` | crates/ao-engine-tools-provider-config/src/lib.rs:113-115 | A concrete file, empty vault and torn rewrite after which an inline key is nowhere. |
| `ProviderKeys.LoadExtendsVault` | crates/ao-engine-tools-provider-config/src/lib.rs:102-132 | A load changes no vault entry and adds only the file's key. |
| `ProviderKeys.LoadedKeys` | crates/ao-engine-tools-provider-config/src/lib.rs:102-132 | Exactly the known providers with a section are configured, each with its vault entry, else the plaintext key of its table, else an empty key. |
| `ProviderKeys.FileKeyIsHonouredIff` | crates/ao-engine-tools-provider-config/src/lib.rs:319-342 | A key in the file is the one loaded if and only if the vault has the same one, or has none and the section is not an inline table. |
| `ProviderKeys.InlineKeyIsIgnored` | crates/ao-engine-tools-provider-config/src/lib.rs:325-327 | A concrete file whose key is loaded as empty. |
| `ProviderKeys.SecondLoadAgrees` | crates/ao-engine-tools-provider-config/src/lib.rs:102-132 | After a successful load every further load changes nothing, fail where it may, and returns the same configuration when it succeeds. |
| `ProviderKeys.EntryChangesOnlyBy` | crates/ao-engine-tools-provider-config/src/lib.rs:102-305 | One operation changes a vault entry only by saving or deleting that provider, or by absorbing into an empty one. |
| `ProviderKeys.SavedKeySticks` | crates/ao-engine-tools-provider-config/src/lib.rs:247-288 | Once a save has reached the vault, every later successful load that finds the section yields the saved key, whatever failed, crashed or was edited since, until the next save or delete of that provider. |
| `ProviderKeys.SaveTouchesOneSection` | crates/ao-engine-tools-provider-config/src/lib.rs:257-288 | A successful save leaves no plaintext key in the section and changes no other one; other settings of a table survive, those of an inline table do not. |
| `ProviderKeys.LoadSucceedsIff` | crates/ao-engine-tools-provider-config/src/lib.rs:102-132 | A load succeeds if and only if the file exists and parses, no provider's entry is a scalar, and every call it needs goes through, counted: the read, the absorbing, a rewrite if a key was scrubbed, one vault read per provider in the file. |
| `ProviderKeys.SaveSucceedsIff` | crates/ao-engine-tools-provider-config/src/lib.rs:247-288 | A save succeeds if and only if the provider is known, an existing file parses and its calls go through. |
| `ProviderKeys.FailedSaveLeaves` | crates/ao-engine-tools-provider-config/src/lib.rs:247-288 | A failed save has stored the key if it got that far; the file is as before unless its rewrite broke off. |
| `ProviderKeys.DeleteSucceedsIff` | crates/ao-engine-tools-provider-config/src/lib.rs:291-305 | A delete succeeds if and only if the provider is known, an existing file parses and its calls go through. |
| `ProviderKeys.DeleteTouchesOneSection` | crates/ao-engine-tools-provider-config/src/lib.rs:291-305 | A successful delete removes the provider's section and entry and changes no other section and no other entry; a missing file stays missing. |
| `ProviderKeys.FailedDeleteLeaves` | crates/ao-engine-tools-provider-config/src/lib.rs:291-305 | A failed delete has removed the entry if it got that far; the file is as before unless its rewrite broke off. |
| `Utf8.Enc` | crates/ao-engine-tools-cli/src/cli_render.rs:166-169 | A character is one to four bytes, of which exactly the first is not a continuation byte. |
| `Utf8.EncodeIsInjective` | crates/ao-engine-tools-cli/src/cli_render.rs:166-169 | No two strings have the same bytes. |
| `Utf8.ByteOrderIsTextOrder` | crates/ao-engine-tools-core/src/registry.rs:247 | Bytes are in lexicographic order exactly when the characters are. |
| `TextClipping.BoundaryIsOffset` | crates/ao-engine-tools-cli/src/cli_render.rs:176 | A byte offset that passes the boundary test is the offset of a character or the end. |
| `TextClipping.OffsetIsBoundary` | crates/ao-engine-tools-cli/src/cli_render.rs:176 | And every such offset passes it. |
| `TextClipping.FittingIsLongest` | crates/ao-engine-tools-cli/src/cli_render.rs:166-180 | A prefix fits into a byte limit exactly when it has no more characters than `Fitting`. |
| `TextClipping.ClipBody` | crates/ao-engine-tools-cli/src/cli_render.rs:170-180 | The walk back from byte 2000 yields the bytes of `Clipped`. |
| `TextClipping.ClippedKeepsLongestPrefix` | crates/ao-engine-tools-cli/src/cli_render.rs:166-180 | A body over 2000 bytes keeps its longest whole-character prefix of at most 2000 bytes, at least 1997, followed by the marker; a shorter one is kept whole. |
| `TextClipping.WordsOfJoin` | crates/ao-engine-tools-core/src/registry.rs:38-39 | Splitting at whitespace undoes joining words with spaces. |
| `TextClipping.WordsOfSpaced` | crates/ao-engine-tools-core/src/registry.rs:38-39 | Whatever whitespace stands between, before and after words, splitting gives the words. |
| `TextClipping.TextIsSpacedWords` | crates/ao-engine-tools-core/src/registry.rs:38-39 | And every text is its words with whitespace around them, so each word is a maximal run. |
| `TextClipping.WindowHasSingleSpaces` | crates/ao-engine-tools-core/src/registry.rs:38-39 | The words of the window are separated by single spaces and there is no other whitespace in it. |
| `TextClipping.CharacterClassesAre` | crates/ao-engine-tools-core/src/registry.rs:40-44 | The characters that end a sentence, and those that are whitespace, one by one. |
| `TextClipping.FirstEnd` | crates/ao-engine-tools-core/src/registry.rs:41-44 | The first place where a sentence ends, and `None` only when there is none. |
| `TextClipping.EndsAtByteIff` | crates/ao-engine-tools-core/src/registry.rs:41-44 | At the offset of a character, the test on bytes is the test on characters. |
| `TextClipping.ExtractShortDescription` | crates/ao-engine-tools-core/src/registry.rs:37-50 | The byte loop yields the bytes of `ShortDescription`. |
| `TextClipping.ShortDescriptionIsShortestSentence` | crates/ao-engine-tools-core/src/registry.rs:37-50 | The short description is the shortest prefix of the window that ends a sentence, or the whole window; the window has exactly the first forty words. |

## Left out

- `parse_event_block` and serde's JSON parsing: a block's meaning is any function of its bytes, so the rule that the last `data:` line wins is not stated.
- Usage and stop-reason mapping, and elapsed times of thinking blocks: one-branch mappings and clock readings.
- The `u32` truncation of block indices: indices are naturals.
- A completion receiver that is dropped early: sending is assumed to work, so for Gemini a call that is recorded and then not delivered is not modelled.
- Gemini's own event framing (64 KiB cap) and HTTP errors: the same framing with another constant, and network code.
- Malformed Gemini parts, which the decoder refuses: parts are a data type, not JSON.
- Which of several missing fields the Anthropic decoder's error names: which values it refuses is exact (`BlockParsesIff`, `MessageParsesIff`), the wording is not stated.
- `strip_closed_turn_reasoning`, `truncate_to_context_budget` and the rest of the request body: not needed by the breakpoint.
- The deferred-tool index, `filter_for` and schema export of the registry: filters and maps over the same names.
- Sorting, lower-casing and whitespace splitting of the standard library: the first and last are functions with their meaning proved, and lower-casing is a parameter.
- Cross-process linearisability of the vault: false, as `StaleMutateLosesUpdate` and `OvertakenMutateLosesUpdate` show.
- Another process writing the keychain item or the legacy sources while a migration runs.
- Threads inside one process sharing the vault cache: each operation holds its mutex from start to end, so one waits for the other.
- Keychain availability, environment switches, prompt suppression and file permissions: foreign calls.
- The migration's start state: the keychain backend is taken with an empty cache, as it is when the process opens the vault first.
- Two processes using one memory sidecar, and a future dropped while a file-system call is in flight: the locks cover neither, as the call goes on in the background.
- Overflow of a use count beyond 64 bits, last-used times, and deriving the sidecar's path from the scope's path.
- Settings in `providers.toml` of the wrong type: only a section that is neither table nor inline table fails to load.
- Other processes changing the vault between two operations on provider keys.
- Masked provider statuses and key fingerprints, model discovery, `delegation_usage.rs`, and the MCP, Telegram and channel facades: thin wrappers or the same protocol with less in it.
- The arrival of a Gemini turn's terminal event among the parts of other turns: it only reads the turn's own flag, which `TurnsRunAsIfAlone` covers.
- Terminal output around a clipped body.
