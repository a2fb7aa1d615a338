# Verified model of the Redis event-stream module

The module turns keyspace notifications into stream entries: one stream per event name, written from
post-notification jobs or from a bounded worker, with a registry of streams, a control stream of gap
markers, per-node hash tags in cluster mode, and a reference client that discovers, merges and decodes
the result. This project models the parts that carry its promises and proves what they promise.

The files follow the system:

- `Glob.dfy`, `GlobText.dfy`: the binary-safe key filter matcher, against a declarative language of tokens, and
  what each way of writing a token means on the bytes of the pattern.
- `Events.dfy`, `Json.dfy`, `Base64.dfy`, `Utf8.dfy`, `Text.dfy`: the four entry formats, the batch envelope and the hand-written encoders.
- `Client.dfy`, `Sink.dfy`: the two decoders, and the round trips with every format; `Decoding.dfy` and
  `Records.dfy` say exactly which entries they accept and what they refuse.
- `Names.dfy`, `Slots.dfy`: stream names, hash tags, CRC16, the fallback tag table and the slot walk.
- `Queue.dfy`, `Dispatch.dfy`, `Refinement.dfy`: the bounded queue, the two-thread dispatch protocol as a
  state machine over all interleavings, and what a consumer reads back from it.
- `Markers.dfy`: the gap-marker lifecycle over all runs of loads, toggles, callbacks, jobs and unloads.
- `Capture.dfy`, `Stats.dfy`: the write path with its cap, registry, re-pin, probe and counters.
- `Restart.dfy`, `Reader.dfy`: restart assessment and the merged reader.

What the environment decides (replies of Redis, ownership of slots, the clock, job registration, lock
contention, which thread moves next) is an argument or a step, so every theorem holds for all of its
behaviours. Bytes are integers below 256, and a Rust `String` is a sequence of Unicode scalar values.

## Where the code departs from a promise

- A glob made only of stars does not match the empty key, and a pattern with more than 1000 star runs
  matches nothing; `Glob.WhereMeaningDiffers` says these are the only differences, `Glob.DeepPatternFails`
  shows the second.
- An accepted prefix may contain braces; then the node's keys hash away from the probed slot unless the
  prefix carries the node's own tag (`Names.KeysShareTag`, with `Names.AcceptedPrefixMisplacesKeys`).
- The webhook sink refuses a fixed or verbose entry whose event name begins with `#` (`Sink.SinkRecovers`).
- The warning stamp doubles as "never warned", so a clock reading of zero can defeat the window
  (`Stats.ZeroClockDefeatsWindow`); `Stats.WarningsSpaced` says exactly when it holds.
- A comment at src/capture.rs:709-711 says the firehose never consumes a cap slot; the code at
  src/capture.rs:587-593 counts it like any stream, so it can keep an event stream out
  (`Capture.FirehoseTakesSlot`). The bound on event streams holds either way (`Capture.Writer.Drive`).
- A `SWAPDB` of database 0 on a node that is not the capturing master can leave registered bits behind;
  `Capture.Writer.SwapDb` states exactly when the cache still matches the registry, `Capture.SwapLeavesStale`
  shows a case.
- A refused marker job, a marker whose write the server refuses, and the worker modes can each leave stored
  events inside an announced gap. `Markers.GapsExactly`, `Markers.RefusalExactly` and `Markers.BacklogExactly`
  say exactly when; `Markers.RefusedMarkerJob`, `Markers.RefusedMarkerWrite` and
  `Markers.MarkerOvertakesBacklog` are such runs. Likewise an event skipped while capture is off can fall
  outside every announced gap (`Markers.SkipsAreAnnounced`).
- A worker that gets no thread-safe context leaves at once, taking the queued events with it until the stop.
  Events still queued when the stop begins are then dropped without being counted (`Dispatch.OrphanedEvent`,
  and `Dispatch.StopLossExactly` for exactly when), and a fallback job newer than an event taken along is
  written before it (`Dispatch.Reordered`, and `Dispatch.NotificationOrder` for exactly when).

## Model

| member | source | states |
|---|---|---|
| `Glob.GlobMatch` | src/config.rs:443-446 | The matcher with its shared early-out flag answers as the same matcher without it, and as the declarative meaning, within 1 + key length times star runs recursive calls |
| `Glob.GlobMatchImpl` | src/config.rs:448-549 | One recursive call from any position: without the flag set it answers exactly the flag-free matcher, and it sets the flag only when no later start can succeed |
| `Glob.StarLoop` | src/config.rs:461-479 | The star arm: the scan over the rest of the key agrees with the flag-free matcher and its calls stay within the budget |
| `Glob.MatchClass` | src/config.rs:489-517 | A byte is in a bracket class exactly when one of the items read from it accepts the byte, for reversed ranges, escapes and unterminated classes alike |
| `Glob.MatchToken` | src/config.rs:480-538 | A single non-star token accepts a byte exactly as its parsed token does, and the position moves past it |
| `Glob.LanguageIsDerives` | src/config.rs:443-446 | Cutting the key into one piece per token is the same as deriving it token by token |
| `Glob.PlainMeaning` | src/config.rs:448-549 | The flag-free matcher decides exactly the declarative meaning, for all patterns and keys |
| `Glob.StarExhausted` | src/config.rs:468-479 | A star whose remainder fails at every start from here to the end of the key is hopeless: what the flag raised at the end of the scan stands for |
| `Glob.StepBack` | src/config.rs:480-540 | Hopeless after a token, one byte later, is hopeless before it: why an enclosing scan may stop on the flag |
| `Glob.WhereMeaningDiffers` | src/config.rs:443-446 | The matcher departs from the language of its tokens exactly on the empty key against stars only and on patterns over the nesting guard |
| `Glob.DeepPatternFails` | src/config.rs:456-458 | Every key longer than the guard is in the language of a pattern the matcher refuses on it |
| `Glob.FilterMatches` | src/config.rs:557-566 | The key filter selects a key exactly when it is the bare star or some pattern means it |
| `Glob.StarShortCircuit` | src/config.rs:563-566 | The bare-star short circuit agrees with matching `*` on every key but the empty one |
| `GlobText.BodySelects` | src/config.rs:483-524 | `[` body `]` selects a one-byte key exactly when the byte is in the body |
| `GlobText.NegatedBodySelects` | src/config.rs:485-520 | `[^` body `]` selects exactly the other bytes |
| `GlobText.RangeSelects` | src/config.rs:503-513 | `[a-z]` selects exactly the bytes between its ends, in whichever order they are written |
| `GlobText.EscapeSelects` | src/config.rs:526-532 | A backslash makes the next byte stand for itself alone, special or not |
| `GlobText.ClassSelects` | src/config.rs:483-525 | A class of any bare, escaped and ranged members, negated or not, closed or running to the end of the pattern, takes one byte that some member, or no member, stands for; the rest of the pattern takes the rest of the key |
| `GlobText.StarText` | src/config.rs:461-479 | A star takes any beginning of the key, the empty one included |
| `GlobText.AnyText` | src/config.rs:480-482 | A question mark takes any one byte |
| `GlobText.EscapeText` | src/config.rs:526-532 | The escape law with a rest of the pattern behind it |
| `GlobText.PlainText` | src/config.rs:533-538 | Any other byte, and a backslash at the end of the pattern, takes itself |
| `Base64.Base64Into` | src/capture.rs:207-227 | The chunk loop appends the standard base64 text of the bytes |
| `Base64.DecodeIff` | src/capture.rs:203-227 | A text decodes to given bytes exactly when it is their encoding: the encoder is injective and the decoder strict |
| `Base64.RoundTrip` | src/capture.rs:203-227 | Decoding an encoded key returns the key, for all byte strings |
| `Base64.Alphabet` | src/capture.rs:203-206 | The letters are those of RFC 4648, Table 1, in order |
| `Base64.GroupSpells` | src/capture.rs:207-227 | The letters of each group spell its one, two or three bytes, six bits each from the left, with padding exactly for what is missing |
| `Utf8.DecodeIff` | crates/eventstream-client/src/lib.rs:560-563 | Bytes decode to a string exactly when they are its encoding: overlong forms and surrogates are refused |
| `Utf8.EncodingForm` | crates/eventstream-client/src/lib.rs:560-563 | The number of bytes, their marks and the code point they spell are those of RFC 3629, section 3 |
| `Text.ParseForms` | crates/eventstream-client/src/lib.rs:576-584 | Leading zeros and a plus sign are accepted, a minus sign only for signed types, and nothing out of range or without digits |
| `Json.JsonEscapeInto` | src/capture.rs:187-201 | The escape loop appends the quoted JSON string literal |
| `Json.EscapeParses` | src/capture.rs:184-201 | A JSON parser (RFC 8259) reads an escaped string back as the original, whatever follows it |
| `Json.ShortEscapes` | src/capture.rs:190-196 | The five short escapes are those of RFC 8259, section 7 |
| `Json.EscapesMean` | crates/eventstream-client/src/lib.rs:618-659 | The other one-letter escapes are read as RFC 8259 defines them |
| `Json.UnicodeEscapes` | crates/eventstream-client/src/lib.rs:618-659 | Four hexadecimal digits are read as the code unit they spell |
| `Json.SurrogatePairs` | crates/eventstream-client/src/lib.rs:618-659 | Two surrogate escapes are read as the one character they stand for |
| `Json.DocumentParses` | src/capture.rs:229-288 | Parsing a compactly laid out document of any nesting gives back the document |
| `Events.Sanitize` | src/capture.rs:42-55 | Every suffix is the first 128 characters of the name with exactly the characters outside the stream-safe alphabet replaced by an underscore, and only names already of that form pass unchanged |
| `Events.ClassNamesList` | src/capture.rs:161-182 | Splitting the class text at its commas gives exactly the names of the delivered classes, in order |
| `Events.ClassTable` | src/capture.rs:162-175 | The twelve class names and their order |
| `Events.BatchTextPrints` | src/capture.rs:253-279 | The hand-built text of one envelope event is the compact layout of its JSON object |
| `Events.DocumentPrints` | src/capture.rs:234-248 | The hand-built json document, with and without `seq`, is the compact layout of its JSON object |
| `Events.EncodeBatchFields` | src/capture.rs:253-287 | The append loop builds the three envelope fields whose array is the layout of all events in order |
| `Client.BatchRoundTrip` | crates/eventstream-client/src/lib.rs:618-659 | Decoding a stored envelope returns its events in order, with their binary keys, databases and indices |
| `Client.FixedRoundTrip` | crates/eventstream-client/src/lib.rs:592-616 | A fixed entry decodes to its event exactly when the name is UTF-8, and otherwise to the error naming the field |
| `Client.OtherFormatsRejected` | crates/eventstream-client/src/lib.rs:592-600 | Minimal, verbose and json entries are refused by name, never mistaken for fixed ones |
| `Decoding.DecodesExactly` | crates/eventstream-client/src/lib.rs:592-659 | For any field map at all, an entry decodes to given events exactly when it stands for them: one event by its fields, or as many as the count says by the document's objects, with base64 keys and consecutive indices |
| `Decoding.OtherFormat` | crates/eventstream-client/src/lib.rs:597 | Any format but the envelope's is refused by its own name |
| `Decoding.CountsDisagree` | crates/eventstream-client/src/lib.rs:618-640 | An envelope whose count is not the length of its document is refused with both numbers |
| `Decoding.FirstBadKey` | crates/eventstream-client/src/lib.rs:641-659 | The first key that is not base64 is reported with its index |
| `Decoding.MissingFields` | crates/eventstream-client/src/lib.rs:601-616 | The first missing field is reported, in the order they are read |
| `Decoding.BadDatabase` | crates/eventstream-client/src/lib.rs:576-584 | A database that is not a number is reported with its text |
| `Sink.SinkRecovers` | examples/webhook-sink/src/lib.rs:84-130 | For every event and every format the sink delivers the key and database and the name the format can carry, except `#` names in fixed and verbose entries |
| `Sink.PlainNamesSurvive` | examples/webhook-sink/src/lib.rs:84-130 | A name the sanitizer leaves alone survives every format unchanged |
| `Records.DeliversExactly` | examples/webhook-sink/src/lib.rs:84-130 | For any field map at all, the sink delivers a record exactly when the entry stands for it: gaps of the control stream, json documents, and the formats read field by field |
| `Records.MarkerDelivered` | src/markers.rs:198-218 | Every marker the module writes comes out as the gap it announces, with its version and, for a flush, its database |
| `Records.SeqCarried` | src/capture.rs:343-346 | With sequence numbers on, every format but json carries the number as its own field |
| `Records.SeqInDocument` | src/capture.rs:234-248 | The json document carries the number as a member |
| `Records.ClassCarried` | src/capture.rs:326-339 | A verbose entry carries the class text |
| `Names.NameRoundTrip` | crates/eventstream-client/src/lib.rs:302-324 | The client recovers the event name and the tag of every stream name the module builds |
| `Names.OtherNames` | crates/eventstream-client/src/lib.rs:302-324 | A stream outside the prefix has neither name nor tag, and a brace that never closes belongs to the name |
| `Names.NamesDistinct` | src/capture.rs:499-500 | Two destinations share a stream exactly when their tag and suffix agree |
| `Names.EventsStayOutOfReserved` | src/capture.rs:46-55 | No event name reaches a stream of the reserved namespace, under any tag |
| `Names.KeysShareTag` | src/cluster.rs:102-111 | A node's keys hash with its probe key exactly when the prefix has no brace or carries that tag |
| `Names.AcceptedPrefixMisplacesKeys` | src/config.rs:373-392 | A prefix the validation accepts whose keys land away from the probed slot |
| `Slots.Crc16` | src/cluster.rs:132-145 | The bitwise register loop computes the folded checksum of the bytes |
| `Slots.CrcIsRemainder` | src/cluster.rs:128-145 | The message polynomial times x^16 is a multiple of x^16 + x^12 + x^5 + 1 plus the register, coefficient by coefficient over GF(2), for every message |
| `Slots.GeneratorValue` | src/cluster.rs:138-139 | The divisor's coefficients are the bits of 0x11021 |
| `Slots.ByteBitsValue` | src/cluster.rs:135 | The bits of a byte enter most significant first |
| `Slots.SlotIsLowBits` | src/cluster.rs:157 | A candidate's slot is its checksum without the two leading bits |
| `Slots.CandidatesDiffer` | src/cluster.rs:157 | The candidates are `es` and their number, all different |
| `Slots.FillTable` | src/cluster.rs:151-174 | The fill assigns every slot its least candidate, given that the candidates cover the slots |
| `Slots.WalkIsPermutation` | src/cluster.rs:191-224 | The stride walk visits every slot exactly once |
| `Slots.SelectOwnedTag` | src/cluster.rs:191-224 | The walk returns the first offered tag the probe accepts, and nothing exactly when no offered tag is owned |
| `Slots.FallbackCovers` | src/cluster.rs:147-224 | With the filled table every slot is offered a tag that hashes to it, so selection fails only when no slot is owned |
| `Stats.StreakAccounted` | src/stats.rs:309-338 | Every refusal of a streak logged a warning, was reported as suppressed, or is waiting to be, over any history of writes |
| `Stats.WarnsExactly` | src/stats.rs:309-321 | Over every history a refusal warns exactly when it starts a streak, follows a warning stamped zero, or comes sixty seconds after the last warning |
| `Stats.WarningsSpaced` | src/stats.rs:309-321 | Over every history the warnings of the current streak are all sixty seconds apart exactly when it has fewer than two refusals, its first was past the epoch, or its second came sixty seconds in |
| `Stats.ZeroClockDefeatsWindow` | src/stats.rs:312-316 | Two refusals at clock zero both log |
| `Stats.RecoveryReportsStreak` | src/stats.rs:328-338 | The first success reports the whole streak, and the next refusal logs at once |
| `Queue.EventQueue.TryPush` | src/dispatch.rs:91-116 | Accepted exactly when one of 64 tries wins the mutex after contention only and there is room; then appended, otherwise unchanged |
| `Queue.EventQueue.Drain` | src/dispatch.rs:145-158 | Removes and returns the oldest events up to the limit |
| `Queue.EventQueue.DrainBefore` | src/dispatch.rs:164-173 | Removes and returns exactly the events accepted before an id; none older remains |
| `Queue.EventQueue.PrepareEnvelopes` | src/dispatch.rs:178-222 | Snapshots the prefix with its ids and encoded groups, leaving the queue as it was |
| `Queue.EventQueue.GroupRuns` | src/dispatch.rs:195-214 | The nested grouping loops produce the encoded maximal runs |
| `Queue.EventQueue.SliceGroups` | src/dispatch.rs:444-453 | Cutting the snapshot by the prepared lengths finds the prepared groups again |
| `Queue.EventQueue.DrainSnapshot` | src/dispatch.rs:224-238 | For a snapshot that may have gone stale, drained exactly while its whole prefix is still at the front, and then exactly that prefix leaves |
| `Queue.GroupsPartition` | src/dispatch.rs:195-214 | The groups cut the snapshot in order; every event of a group has the prefix, suffix, retention and cap of its first, and the firsts of neighbouring groups differ in one of them |
| `Queue.MatchIsExact` | src/dispatch.rs:224-238 | For every snapshot that may have gone stale, the two-id test accepts it exactly when its whole prefix is still in place |
| `Dispatch.MergeFront` | src/dispatch.rs:387-409 | What a fallback job drains, then its own event, is the front of all waiting events by id |
| `Dispatch.EnvelopesAreGroups` | src/dispatch.rs:440-454 | The envelopes written for a snapshot are the groups it was encoded in |
| `Dispatch.Invariant` | src/dispatch.rs:360-508 | Every reachable state keeps the lock discipline, the id order, the snapshot condition and the counts; the events are in order until a fallback job overtakes one taken along by a worker without a context, and some attempt is out of order from then on |
| `Dispatch.NotificationOrder` | src/dispatch.rs:8-12 | In every run, between jobs, the attempts made are a prefix of the kept notifications in notification order exactly when no fallback job newer than an event taken along by a worker without a context has run; a run whose worker got its context has none |
| `Dispatch.StopIsComplete` | src/dispatch.rs:479-508 | A stopped writer has attempted every kept notification exactly once and in order exactly when no job overtook and nothing was left queued; a worker that got its context ensures both, and each notification is then forwarded or lost |
| `Dispatch.Conservation` | src/dispatch.rs:360-508 | In every reachable state each notification is in exactly one place, the queue respects its capacity and the worker its batch, and until the stop what was enqueued has been drained or is still queued |
| `Dispatch.CountersMean` | src/dispatch.rs:360-508 | In every run forwarded is the number of landed attempts, lost that of the attempts that did not land and of the notifications not kept, enqueued that of the notifications the queue took, fallbacks that of the others, and drained what is neither queued nor returned |
| `Dispatch.StopLossExactly` | src/dispatch.rs:479-508 | A completed stop has accounted for every notification exactly when, as it began, the worker had not been refused its context or nothing was queued |
| `Dispatch.OrphanedEvent` | src/dispatch.rs:417-423 | A run in which the worker gets no context and an accepted event is never written nor counted |
| `Dispatch.Reordered` | src/dispatch.rs:387-423 | A run in which the worker gets no context and the later of two notifications is attempted first |
| `Refinement.StreamsReadBack` | src/dispatch.rs:430-465 | In every run, in either mode, every stream decodes and decodes to exactly the events that landed on it, each once, in order |
| `Refinement.EndToEnd` | src/dispatch.rs:1-12 | With no write refused and a worker that got its context, a consumer of a stopped writer reads exactly the kept notifications of its stream in notification order |
| `Markers.Lifecycle.OnKeyspaceEvent` | src/capture.rs:983-1101 | Whatever the gates decide, everything recorded so far is committed before the event, and the event only when capture is on, the node captures and it is selected |
| `Markers.Lifecycle.DrainPending` | src/markers.rs:387-453 | On the capturing master nothing stays pending: the markers are committed behind everything on its way, or dropped and counted; elsewhere nothing changes |
| `Markers.Lifecycle.EnabledChanged` | src/config.rs:894-914 | The line of recorded items gains exactly the marker of the change, or nothing when there is none, and nothing is committed |
| `Markers.Lifecycle.WriteMarkers` | src/markers.rs:332-340 | The write loop attempts every drained marker once, in order |
| `Markers.Lifecycle.RunNextJob` | src/dispatch.rs:393-404 | A job attempts its markers, or the earlier accepted events and then its own, in order, and what is committed does not change |
| `Markers.Lifecycle.CheckpointTick` | src/markers.rs:318-342 | A due tick writes pending markers before its checkpoint |
| `Markers.Lifecycle.OnLoad` | src/lib.rs:408-416 | A load leaves `loaded` pending, and `disabled` after it when capture starts off; nothing is committed |
| `Markers.Lifecycle.OnUnload` | src/lib.rs:425-471 | A capturing node writes pending markers, then `unloading` |
| `Markers.Lifecycle.OnFlushStarted` | src/capture.rs:1183-1186 | On the capturing master the line of recorded items gains the flush marker at its end and nothing is committed; elsewhere nothing changes |
| `Markers.Lifecycle.OnSwapDb` | src/capture.rs:1204-1227 | On the capturing master a swap of database 0 adds its marker at the end of the line and nothing is committed; any other swap changes nothing |
| `Markers.RecordingOrder` | src/markers.rs:381-386 | In every run, with refused jobs, reloads and either write mode, markers are attempted at most once and in the order they were recorded; in the synchronous mode events and markers together |
| `Markers.WrittenInOrder` | src/markers.rs:381-386 | In every synchronous run what is attempted, queued and pending is a subsequence of everything that happened |
| `Markers.GapsExactly` | src/capture.rs:984-993 | In every run, either mode, with any refused jobs and refused writes, the stored log has no event inside an announced gap exactly when none strayed: no stored callback event while the reader is misled, no stored worker event while the log is closed |
| `Markers.WrittenAsItHappened` | src/markers.rs:381-386 | In synchronous runs with no refused marker job, what is attempted, queued and pending is the whole timeline of what happened |
| `Markers.EventsInOrder` | src/dispatch.rs:387-409 | In every run, either mode, the events attempted, on their way and waiting for the worker are the accepted ones, each once, in the order they were accepted |
| `Markers.NoEventInsideGap` | src/capture.rs:984-993 | In synchronous runs in which no opening marker was lost, by a refused job or a refused write, no stored event lies between a stored closing marker and the next stored opening one |
| `Markers.SkipsAreAnnounced` | src/capture.rs:984-993 | An event skipped because capture is off falls inside an announced gap of the stored log exactly when the last batch with a toggle did not leave the reader misled, and always when no closing marker was lost |
| `Markers.RefusalExactly` | src/markers.rs:440-452 | After any number of refused jobs and refused writes, a stored event of a callback stays out of a gap exactly when the last batch with a toggle did not leave an opening unannounced |
| `Markers.RefusedMarkerJob` | src/markers.rs:440-452 | Runs in which a refused marker job puts an event inside a gap of the stored log, at once or at a later callback with nothing pending |
| `Markers.RefusedMarkerWrite` | src/markers.rs:177-194 | A synchronous run with every job registered in which the refused write of `enabled` leaves the next event inside the gap `disabled` announced |
| `Markers.BacklogExactly` | src/dispatch.rs:455-464 | In every run the stored log is open exactly when either capture was on behind the pending toggles or the reader is misled, not both; a worker write that is stored keeps the log clean exactly when it is open |
| `Markers.MarkerOvertakesBacklog` | src/dispatch.rs:372-376 | A run in which a disable overtakes an event already accepted by the worker |
| `Capture.NonLocalAnywhere` | src/cluster.rs:314-316 | The local refusal is recognised inside any error text that does not read as out of memory |
| `Capture.ClassifyExactly` | src/cluster.rs:314-325 | Out of memory by the first letters, the local refusal by its phrase anywhere, a migration window by its leading code, in that order |
| `Capture.KeysAreNames` | src/capture.rs:499-500 | Under the one configured prefix two destinations are the same stream exactly when their parts agree |
| `Capture.EventKey` | src/capture.rs:46-55 | No event stream is a firehose stream |
| `Capture.Writer.Reset` | src/lib.rs:138-144 | A load starts with nothing pinned or cached and every counter zero, with the invariant in force |
| `Capture.Writer.Provision` | src/capture.rs:396-432 | A group is counted as created only when it was, done when it exists, and counted as failed otherwise |
| `Capture.Writer.Register` | src/capture.rs:600-641 | A stream is added to the registry exactly when it was not registered and the call is accepted; otherwise the failure is counted and tried again |
| `Capture.Writer.Land` | src/capture.rs:548-656 | A landed write credits its counter and its record, takes at most one cap slot and raises the stream gauge exactly then, enters the registry exactly when it was not there and the call is accepted, and clears the probe budget |
| `Capture.Writer.MirrorFields` | src/capture.rs:487-676 | Refused by the cap exactly when the stream is new and the gauge has reached it; otherwise one XADD, classified by its reply |
| `Capture.Writer.Settle` | src/capture.rs:802-842 | Each kind of failure raises exactly its own counter by one, field by field, and loses exactly its events; only memory and unrecognised failures charge the stream |
| `Capture.Writer.ControlMarker` | src/markers.rs:115-196 | A control entry is written and counted exactly when database 0 is selected and the call accepted; otherwise its one drop is out of memory or an error, and the event accounting is untouched |
| `Capture.Writer.TagSegment` | src/cluster.rs:102-111 | The cached tag is reused, and a new one selected only when none is pinned |
| `Capture.Writer.TagLost` | src/cluster.rs:268-285 | At most one probe; none for a tag verified since the last success or re-pin; an out-of-memory probe decides nothing |
| `Capture.Writer.RepinAndRetry` | src/cluster.rs:336-408 | One re-pin, one marker written or set aside, at most one more attempt with the same fields under the new tag, and the event is resolved; without an owned slot it is lost under that counter and no marker is tried |
| `Capture.Writer.CanonicalWrite` | src/capture.rs:849-950 | Every event is forwarded once or lost once, with at most two attempts, one re-pin and one sequence number; the first verdict, under the cached or newly selected tag, decides which and which one counter moves |
| `Capture.Writer.MirrorFirehose` | src/capture.rs:691-747 | The copy carries the same fields under its own retention, bypasses the cap, takes at most the slot of its own firehose stream, never changes forwarded, lost or re-pins, and its failure is counted under its own reason |
| `Capture.Writer.ProcessEvent` | src/capture.rs:849-957 | The whole event keeps the invariant that events handed over equal forwarded plus lost, the first verdict decides which, the slots are those of the event and of its copy, and with or without a firehose the event streams stay within the cap |
| `Capture.Writer.ProcessEnvelope` | src/capture.rs:752-844 | One attempt for the group under its first event's retention, never re-pinned; the verdict decides it, all its events are forwarded or all lost, counted as one drop of the verdict's own counter, or as one each when no slot is owned |
| `Capture.Writer.LoseEach` | src/capture.rs:776-779 | Without an owned slot each event of the group is lost and counted on its own |
| `Capture.Writer.DeferFailure` | src/capture.rs:971-978 | An event whose job cannot be registered is lost once, under its own counter |
| `Capture.Writer.FlushStarted` | src/capture.rs:1177-1187 | A flush of any database empties the cache and keeps it consistent with the registry |
| `Capture.Writer.SwapDb` | src/capture.rs:1204-1227 | After a swap of database 0 the cache matches the registry exactly when the node was capturing or the arriving registry holds every registered name |
| `Capture.Writer.Prune` | src/commands.rs:227-276 | Exactly the names found absent and removed leave the registry and give their slots back, and the count is theirs |
| `Capture.Writer.Drive` | src/capture.rs:502-519 | Over every run of events, envelopes, prunes, flushes, swaps and firehose changes after a load, the event streams never exceed the cap, events handed over equal forwarded plus lost, and without a swap behind its back the cache matches the registry |
| `Capture.FirehoseTakesSlot` | src/capture.rs:583-593 | With the firehose on and a cap of two, processing two events of different names forwards the first and loses the second to the slot of the first one's copy |
| `Capture.SwapLeavesStale` | src/capture.rs:1204-1211 | A swap on a node that is not capturing leaves a registered stream the registry does not hold |
| `Capture.CapHolds` | src/capture.rs:510-519 | A write the cap admits leaves at most the cap's number of streams or creates none |
| `Restart.AssessRestartBoundaries` | crates/eventstream-client/src/lib.rs:956-995 | The loop with its per-stream map computes the fold over the markers |
| `Restart.StreamsIndependent` | crates/eventstream-client/src/lib.rs:956-995 | The verdicts on one stream are those of its own markers alone |
| `Restart.AssessExactly` | crates/eventstream-client/src/lib.rs:956-995 | For any log a boundary at each `loaded` that changes generation and nowhere else, graceful exactly when the ended generation wrote `unloading` |
| `Restart.LegacyMarkersIgnored` | crates/eventstream-client/src/lib.rs:956-966 | Markers without a generation change nothing |
| `Restart.VerdictsOfStream` | crates/eventstream-client/src/lib.rs:956-995 | For any interleaving of streams, the verdicts on one are read off its generation-bearing markers |
| `Restart.OneBoundaryPerRestart` | crates/eventstream-client/src/lib.rs:953-995 | On a log whose generations change at `loaded` and end at `unloading`, each restart gives exactly one boundary, graceful exactly when the marker before it closed |
| `Reader.SortKeyOfId` | crates/eventstream-client/src/lib.rs:712-717 | The sort key of a server-assigned id is the id |
| `Reader.UnreadableIds` | crates/eventstream-client/src/lib.rs:712-717 | A part that is not a number, and a missing second part, count as zero |
| `Reader.MergedReader.constructor` | crates/eventstream-client/src/lib.rs:747-758 | Exactly the given streams get a cursor: zero when asked for or when the lookup fails, and otherwise the id of the last entry present, or zero in an empty stream |
| `Reader.MergedReader.AddStreams` | crates/eventstream-client/src/lib.rs:771-792 | Adds exactly the uncovered candidates, at zero or at the last entry present as the constructor does, and moves no existing cursor |
| `Reader.FreshOnceInOrder` | crates/eventstream-client/src/lib.rs:771-792 | No stream is added twice, and they are added in the order they are first mentioned |
| `Reader.MergedReader.Poll` | crates/eventstream-client/src/lib.rs:797-826 | One read per answering stream, each of the server as it then is, every cursor advanced to its last entry, the batch sorted by id |
| `Reader.ReadMembers` | crates/eventstream-client/src/lib.rs:805-822 | A read returns exactly the entries between the old cursor and the new one |
| `Reader.ReadTakes` | crates/eventstream-client/src/lib.rs:805-822 | A read is empty only when nothing waits, returns at most its count, and leaves an entry behind only when it is full |
| `Reader.PollCatchesUp` | crates/eventstream-client/src/lib.rs:797-826 | After an unlimited poll that every stream answers, nothing that was in a stream at each read is still waiting |
| `Reader.MergeIsStable` | crates/eventstream-client/src/lib.rs:824 | The batch is sorted by id and entries with equal ids keep their order |
| `Reader.MergeKeepsStream` | crates/eventstream-client/src/lib.rs:824 | Sorting never reorders a stream against itself |
| `Reader.DeliversOnceInOrder` | crates/eventstream-client/src/lib.rs:737-826 | Over every run of appends, removals, polls, failures and re-discoveries, with appends and removals also between the reads of one poll, each stream's entries come out at most once, in id order, and none below the cursor is still waiting |
| `Reader.NothingSkipped` | crates/eventstream-client/src/lib.rs:737-826 | With nothing removed the delivered entries are the stream from its start to its cursor, exactly |
| `Reader.ZeroReaderDelivers` | crates/eventstream-client/src/lib.rs:741-758 | A reader from zero on a stream nothing is removed from has delivered every entry up to its cursor, after any run |
| `Reader.TailReaderSkips` | crates/eventstream-client/src/lib.rs:741-758 | A tail reader never delivers an entry that was there when the stream was covered, in any run |
| `Reader.OpeningCovers` | crates/eventstream-client/src/lib.rs:747-758 | A new reader covers each of its streams from zero or from its tail, as asked |
| `Reader.AddingCovers` | crates/eventstream-client/src/lib.rs:771-792 | So does a later discovery, for the streams it had not covered |

## Left out

- Slots.FillTable: that the candidates `es0`, `es1`, ... reach every slot is a premise; the source establishes it by computing the table once.
- Refinement.StreamsReadBack: requires the fixed format and a database number within i32; the load-time check refuses other formats, a later change of format is covered by Client.OtherFormatsRejected.
- Markers.NoEventInsideGap: requires the synchronous write mode and that no opening marker was lost; GapsExactly is the statement for every run.
- Reader.MergedReader.AddStreams: the tail lookups of one call see one server state; in the runs a discovery that straddles an append is several steps.
- Capture.Writer.SwapDb: the contents of the registry that arrives from the other database are a parameter.
- Capture.Writer: destinations are identified by prefix, tag and suffix rather than by the built name (KeysAreNames), the node's registry sets under all its tags are one set, error texts arrive classified (Classify gives the classification), and the encoder is any function of the event and its number.
- Capture.Writer: the probe-detected re-pin counter is raised after the re-pin rather than before it; both happen under the server lock.
- Queue and Dispatch: condition-variable waiting and its latency bound, so no liveness; a poisoned mutex in the worker and caught panics.
- Dispatch: that Redis runs every registered job, in order, before releasing the lock or unloading is a premise of the steps, as the source's own comments state it.
- Reader: ids of a stream only grow; deleting a stream and recreating it under a clock that stepped back is not modelled. `poll_decoded` and the legacy `poll` are wrappers.
- Json: numbers that are not integers parse to one value without content, and the recursion limit of the client's JSON library and its acceptance of arrays for structs are not modelled.
- Events, Capture: field arguments are name and value pairs, and the trim clause is carried as its retention settings.
- Filters by event class and by source database, configuration parsing and its error texts, MAXLEN overrides.
- The INFO, STATS and STREAMS replies, ACL categories, eviction-risk tracking, version gates, logging texts.
- Cluster discovery, connection handling, consumer groups, HTTP delivery and its retries.
- The `es`-tag canonical-name API of newer servers beyond the tag it offers for a slot.
