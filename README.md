# Call_Stream plugin: call registry, lifecycle and wire frame

This project models the core of the `Call_Stream` plugin of a trunked-radio recorder, which lives in `callstream.cc`. The plugin:

- subscribes to some talkgroups on some systems;
- keeps one session record per call in flight and collects the call's audio samples into it;
- when the call ends, sends one frame over TCP: a magic number, the length of a JSON metadata text, the sample count, the text, and the raw 16-bit samples.

The model has these parts:

- **Subscription resolution** (`subscription.dfy`, module `Subscriptions`). The talkgroup candidate list is the call's patched talkgroups, or its own talkgroup when there are none. The first configured stream whose short name matches (or is empty) and whose TGID matches a candidate (or is 0) wins.
- **Session store** (`session_store.dfy`, module `SessionStore`). A session is the value of a `calldata_t`. A store maps call ids to sessions. It offers insert-if-absent, lookup, append and an idempotent erase, and the properties of these operations are proved.
- **Call ids** (`unique_id.dfy`, module `UniqueIds`). The decimal text of the call number, with a parser that proves the id is injective.
- **Wire encoding** (`wire.dfy`, module `Wire`, and `frame.dfy`, module `Frames`):
  - fixed-width little-endian integers, and 32-bit and 16-bit two's complement;
  - the five send buffers and the frame they form;
  - `TotalSize`, the loop that sums the buffer sizes;
  - a receiver-side decoder, with the proof that it recovers the session from the frame.
- **Lifecycle** (`lifecycle.dfy`, module `Lifecycle`). `call_start`, `audio_stream`, `call_end` and `send` are pure steps over the registry, which is one store per configured stream. The network outcome is an input with three values: connect timed out, write completed, or transport error. The lemmas state what each path does to the registry and what it transmits. They also show that, whatever the network outcome, `call_end` leaves no session for the call in the store of the stream the end is routed to.
- **Routing is redone at every callback.** `call_start` and `audio_stream` resolve a call from the host system's live talkgroup patches. `call_end` resolves it from the patch list carried in its end record. When the two differ, the end can go to a stream other than the one holding the session. Then the report is an unknown call and the session stays where it was (`Lifecycle.EndTouchesOnlyItsRoute`, `Lifecycle.RepatchedEndLeavesSession`). Two starts of one call on either side of a patch change put its id in two stores (`Lifecycle.RepatchedStartSplitsHome`). The model keeps this behaviour as written.
- **Objects** (`plugin.dfy`, module `CallStreamPlugin`):
  - the classes `CallData` (`calldata_t`), `CallStream` (`callstream_t`) and `Plugin` (`Call_Stream`);
  - their methods update maps, fields and sample buffers in place, as the source does;
  - each method is proved against the pure steps above. A ghost field `Stores` holds the abstract registry. Invariants tie each stream's records to its store and make each record belong to exactly one stream and one key.

Modelling assumptions:

- `int` is 4 bytes in two's complement.
- `size_t` is 8 bytes.
- All integers are written little-endian.
- A sample is a 16-bit two's-complement value.

Two details of the code are worth stating:

- `parse_config` checks only that `"streams"` is present, not that it is non-empty. An empty list is accepted and configures no stream.
- `add_call` can never report an insertion failure, because `try_emplace` runs just after a failed `find` under the same lock. `SessionStore.Insert` therefore returns only `Success` or `CallAlreadyExists`.

## Model

| member | source | states |
|---|---|---|
| Wire.LittleEndianRoundTrip | callstream.cc:262-264 | reading the n little-endian bytes of any x below 256^n gives back x, so each fixed-width header field can be read back exactly |
| Wire.Signed32OfUnsigned32 | callstream.cc:33-35 | the signed 32-bit reading of the 4-byte two's-complement image of any `int` value is that value |
| Wire.Signed16OfUnsigned16 | callstream.cc:38 | the signed reading of a sample's 2-byte image is the sample |
| Wire.SampleBytes | callstream.cc:266 | the sample buffer is exactly two bytes per sample |
| Wire.SampleBytesRoundTrip | callstream.cc:266 | decoding the sample buffer gives back the samples, in order |
| Wire.TotalSize | callstream.cc:269-272 | the loop that sums the buffer sizes yields the length of the concatenation of the buffers |
| UniqueIds.UniqueId | callstream.cc:177-180 | the id is a non-empty decimal numeral, with a leading minus sign exactly for negative call numbers; `UniqueIdRoundTrip` and `UniqueIdInjective` specify it |
| UniqueIds.NatToDecimal | callstream.cc:177-180 | the decimal text of a number is non-empty and all digits |
| UniqueIds.DecimalRoundTrip | callstream.cc:177-180 | reading back the decimal text of n gives n |
| UniqueIds.UniqueIdRoundTrip | callstream.cc:177-180 | parsing the id of any call number, negative ones included, gives back that number |
| UniqueIds.UniqueIdInjective | callstream.cc:177-180 | two calls with the same id have the same call number |
| Subscriptions.Candidates | callstream.cc:182-198 | the candidate list is never empty; it is exactly the call's own talkgroup when there are no patches, and otherwise the patched list unchanged |
| Subscriptions.AnyCandidate | callstream.cc:203-207 | the inner scan is true exactly when some candidate equals the stream's TGID or the TGID is 0 |
| Subscriptions.FindFrom | callstream.cc:200-211 | from a position on, the result is the first matching stream, and None exactly when none from there matches |
| Subscriptions.FindStreamInternal | callstream.cc:200-211 | Some(i) means stream i matches and no earlier stream does; None holds exactly when no stream matches |
| Subscriptions.FindStream | callstream.cc:182-198 | the result is the first stream matching the call's short name and candidate talkgroups, and None exactly when none matches; `FindStreamIsFirstMatch` gives the converse |
| Subscriptions.FindStreamIsFirstMatch | callstream.cc:200-211 | conversely, a matching stream with no matching stream before it is the one returned |
| Subscriptions.TalkgroupWildcard | callstream.cc:204 | a stream with TGID 0 takes a call exactly when its short name matches, whatever the talkgroups |
| Subscriptions.SystemWildcard | callstream.cc:202 | a stream with an empty short name takes a call exactly when a talkgroup matches, whatever the system |
| Subscriptions.UnpatchedCallMatchesOwnTalkgroup | callstream.cc:184-187 | a stream with a non-zero TGID takes an unpatched call exactly when its short name matches and the TGID is the call's own talkgroup |
| SessionStore.Insert | callstream.cc:213-222 | afterwards the id is in the store, no other key is added, and the result is `Success` exactly when the id was absent; `InsertSpec` and `InsertIdempotent` specify it |
| SessionStore.Lookup | callstream.cc:224-232 | a session is found exactly when the id is present; `LookupSpec` specifies it |
| SessionStore.Append | callstream.cc:234-241 | the buffer grows by the chunk's length and the count's offset from the buffer length is kept; `AppendSpec` and `AppendAllSpec` specify it |
| SessionStore.Erase | callstream.cc:243-247 | afterwards the id is absent and exactly the other keys remain; `EraseSpec` specifies it |
| SessionStore.InsertSpec | callstream.cc:213-222 | insertion succeeds exactly when the id is absent. It then adds a fresh session (zero magic, length and count, no text, no samples). Otherwise it reports the id exists and leaves the store unchanged. Other ids are untouched |
| SessionStore.InsertIdempotent | callstream.cc:213-222 | inserting an id twice leaves the store as one insertion does, and the second reports that the call exists |
| SessionStore.LookupSpec | callstream.cc:224-232 | lookup finds a session exactly when the id is present, and it is the stored one |
| SessionStore.EraseSpec | callstream.cc:243-247 | erase removes the id when present, and is a no-op when absent or repeated; other ids are untouched |
| SessionStore.AppendSpec | callstream.cc:234-241 | appending keeps the count in step with the buffer, puts the chunk after the old samples in order, and leaves the other fields alone |
| SessionStore.AppendAllSpec | callstream.cc:234-241 | a run of chunks appended one by one adds their concatenation to the buffer and their total length to the count |
| SessionStore.OperationsPreserveWellFormed | callstream.cc:213-247 | insert, erase and append each keep every session's count equal to its buffer length |
| Frames.SendBuffers | callstream.cc:261-266 | the gathered write has exactly five buffers |
| Frames.Frame | callstream.cc:261-272 | the frame sent is 4 + 8 + 4 header bytes, the text, and two bytes per counted sample; `FrameLayout` and `FrameRoundTrip` specify it |
| Frames.FrameLayout | callstream.cc:261-266 | the frame is magic (4 bytes), text length (8), sample count (4), the text, then sample_count samples of 2 bytes, in that order |
| Frames.FrameSize | callstream.cc:269-272 | the frame size is 4 + 8 + 4 + the text length + 2 * sample_count |
| Frames.HeaderRoundTrip | callstream.cc:261-266 | a receiver reads the magic, the text length and the sample count back from the first 16 bytes, and finds the text and the sample bytes after them |
| Frames.FrameRoundTrip | callstream.cc:261-266 | decoding the frame of a session prepared for sending gives back that session |
| Lifecycle.StartStep | callstream.cc:90-103 | a start changes no store but that of the stream the call resolves to; `StartStepSpec` and `StartIdempotent` specify it |
| Lifecycle.AudioStep | callstream.cc:138-151 | audio adds and removes no call id in any store; `AudioStepSpec` specifies it |
| Lifecycle.Prepared | callstream.cc:131-133 | the stamped session's length field equals the length of its new metadata text, and a count that was in step stays in step |
| Lifecycle.SendStep | callstream.cc:249-291 | a frame is reported written exactly when the write completes, with its total size equal to the frame length |
| Lifecycle.EndStep | callstream.cc:105-135 | an end never adds a call id to any store; `EndRemovesSession`, `EmptyCallDropped` and `EndTransmitsFrame` specify it |
| Lifecycle.UnsubscribedStartIgnored | callstream.cc:90-94 | the start of a call no stream subscribes to changes nothing |
| Lifecycle.UnsubscribedAudioIgnored | callstream.cc:138-142 | audio of a call no stream subscribes to changes nothing |
| Lifecycle.UnsubscribedEndIgnored | callstream.cc:105-109 | the end of a call no stream subscribes to changes nothing and sends nothing |
| Lifecycle.StartStepSpec | callstream.cc:90-103 | a start leaves the call's session in its stream's store: the existing one, or a fresh one. Nothing else in that store and no other stream changes |
| Lifecycle.StartIdempotent | callstream.cc:96-100 | starting a call twice gives the same registry as starting it once |
| Lifecycle.AudioStepSpec | callstream.cc:138-151 | audio for a known call appends the chunk to its session's buffer and count; no other session and no other stream changes; audio for an unknown call changes nothing |
| Lifecycle.EndRemovesSession | callstream.cc:105-135 | after the end of a subscribed call the session is gone whatever the network outcome, and only it is removed. The report is UnknownCall exactly when there was no session, NoSamples exactly when it had no samples, and a transmission exactly otherwise |
| Lifecycle.EmptyCallDropped | callstream.cc:116-120 | a call that ends with a zero sample count builds no frame and attempts no send, and its session is erased |
| Lifecycle.EndTransmitsFrame | callstream.cc:121-134 | a completed write of a call with audio carries a frame whose size is the header, the text and two bytes per sample, and which decodes to the magic, text and samples of the call |
| Lifecycle.FailedSendWritesNothing | callstream.cc:256-289 | after a connect timeout or a transport error nothing is reported written, and a timeout is told apart from an error |
| Lifecycle.StartPreservesWellFormed | callstream.cc:90-103 | a start keeps every count equal to its buffer length |
| Lifecycle.AudioPreservesWellFormed | callstream.cc:138-151 | audio keeps every count equal to its buffer length |
| Lifecycle.EndPreservesWellFormed | callstream.cc:105-135 | a call end keeps every count equal to its buffer length |
| Lifecycle.AudioStepsAppendAll | callstream.cc:138-151 | after a run of audio callbacks, the call's session is its old one with all the chunks appended in arrival order |
| Lifecycle.AudioStepsWellFormed | callstream.cc:138-151 | a run of audio callbacks keeps every count equal to its buffer length |
| Lifecycle.WholeCallRoundTrip | callstream.cc:90-152 | start, audio chunk by chunk, then an end with a completed write. The receiver decodes the metadata text and exactly the concatenated chunks, and the session is gone afterwards |
| Lifecycle.EndTouchesOnlyItsRoute | callstream.cc:105-115 | the end of a call leaves every store but that of the stream it resolves to unchanged, session included |
| Lifecycle.TwoStreamsRouting | callstream.cc:182-198 | with streams for talkgroups 100 and 200, an unpatched call on 100 goes to the first and the same call patched to 200 goes to the second |
| Lifecycle.RepatchedEndLeavesSession | callstream.cc:105-115 | a call started unpatched and ended with a patch to the other stream's talkgroup is reported unknown, and its session stays in the first store |
| Lifecycle.RepatchedStartSplitsHome | callstream.cc:90-100 | two starts of one call on either side of a patch change leave its id in two stores |
| Lifecycle.StartKeepsSingleHome | callstream.cc:90-103 | a start puts no call id into two stores at once, provided the id is not held elsewhere |
| Lifecycle.AudioKeepsSingleHome | callstream.cc:138-151 | audio never adds ids, so no id comes to be in two stores |
| Lifecycle.EndKeepsSingleHome | callstream.cc:105-135 | a call end never adds ids, so no id comes to be in two stores |
| CallStreamPlugin.CheckConfig | callstream.cc:65-77 | the configuration is accepted exactly when address, port and streams are all present; otherwise the first missing key, in that order, is reported |
| CallStreamPlugin.CallData.constructor | callstream.cc:27-32 | a fresh record holds the empty session: zero magic, length and count, no text, no samples |
| CallStreamPlugin.CallData.AddCallSamples | callstream.cc:234-241 | the loop leaves the record's session equal to the old one with the chunk appended and the count raised by its length, and keeps count equal to buffer length |
| CallStreamPlugin.CallStream.constructor | callstream.cc:44-51 | a new stream holds its TGID and short name and no sessions |
| CallStreamPlugin.CallStream.AddCall | callstream.cc:213-222 | the stream's sessions and the result are those of insert-if-absent; an existing record is kept, and a new one is fresh |
| CallStreamPlugin.CallStream.GetCallData | callstream.cc:224-232 | returns the call's record when the stream has one and null otherwise, in agreement with lookup in the stream's sessions |
| CallStreamPlugin.CallStream.DestroyCall | callstream.cc:243-247 | the stream's sessions become those of erase |
| CallStreamPlugin.Plugin.constructor | callstream.cc:54 | the plugin starts with no configured streams and an empty registry |
| CallStreamPlugin.Plugin.AddStream | callstream.cc:80-86 | one more stream at the end, with the entry's TGID and short name and an empty store |
| CallStreamPlugin.Plugin.ParseConfig | callstream.cc:65-88 | returns 1 and adds no stream when a required key is missing. Otherwise it returns 0 and appends, in order, one stream with an empty store per entry, taking a missing short name as "" |
| CallStreamPlugin.Plugin.AddCallAt | callstream.cc:213-222 | `add_call` on stream i: that stream's store becomes the insertion result, the other stores are unchanged, and the invariant holds |
| CallStreamPlugin.Plugin.DestroyCallAt | callstream.cc:243-247 | `destroy_call` on stream i: that stream's store loses the id, the other stores are unchanged |
| CallStreamPlugin.Plugin.AddCallSamplesAt | callstream.cc:234-241 | the call's session in stream i gets the chunk appended; every other session of every stream is unchanged |
| CallStreamPlugin.Plugin.StampAt | callstream.cc:131-133 | the call's session takes the magic, the metadata text and its length; nothing else changes |
| CallStreamPlugin.Plugin.CallStart | callstream.cc:90-104 | returns 0 and leaves the registry as the start step gives it |
| CallStreamPlugin.Plugin.AudioStream | callstream.cc:138-152 | returns 0 and leaves the registry as the audio step gives it |
| CallStreamPlugin.Plugin.Send | callstream.cc:249-291 | reports what the send step gives for the session and the outcome: the frame of the five buffers, with its summed size, when the write completes. The session is erased on every path |
| CallStreamPlugin.Plugin.CallEnd | callstream.cc:105-136 | returns 0, reports the path taken, and leaves the registry as the end step gives it |

## Left out

- TCP sockets, `async_connect`, the 1000 ms wait on the connect future, and `async_write` are not modelled. The result of a send is the `Outcome` parameter: the connect timed out, the write completed with some byte count, or a transport error was raised. A connect that fails without timing out is not checked by the source; its write then fails, which is the transport-error case.
- The classification of transport error codes (end of file, reset, broken pipe) only chooses a log message, so it is left out, as is all other logging.
- The worker thread of `start`/`stop` and the `shared_mutex` locks are left out. Each store or record operation is one atomic step, and each callback runs to completion before the next.
- The JSON object and its `dump()` are a parameter of `call_end`: a total function from the eight metadata fields to bytes. The JSON library's `dump()` throws on text that is not valid UTF-8, such as a malformed short name. That exception leaves `call_end` before `send`, so the session stays in its store and the callback returns no value. The model does not capture this path.
- Parsing the endpoint address and port is not modelled, and neither is reading the values of the configuration keys. The configuration is a record of optional values. An element without a `TGID` makes the source throw; model entries always carry one.
- The host's `Call` object and its system's talkgroup patches are inputs (`Lifecycle.Call`).
- CallStreamPlugin.CallData.AddCallSamples: the chunk is a sequence, so a negative `sample_count` argument is not modelled. The source would lower the count and append nothing.
- Frames.FrameRoundTrip: the decoder is proved only for sample counts below 2^31. The source's `int` count would wrap beyond that, and the 32-bit overflow of `sample_count` is not modelled.
- Wire.TotalSize: the sum is unbounded. The source's `size_t` total cannot wrap for any frame that fits in memory.
