# Verification model of the live-audio ingress

This project models the live-audio ingress of the call assistant, and two smaller cores that
feed on it, as values and as objects, and proves what their runs keep.

**RTP media ingress.** `RtpModel` gives every operation of the adapter as a function on its
state; `RtpTimeline` is the reference: the absolute packet positions 0, 1, 2, ..., each holding
the accepted packet or nothing, rendered in order. `RtpInvariant` and `RtpRuns` tie the jitter
buffer, the 16-bit and 32-bit counters of RFC 3550 section 5.1, the bounded duplicate history
(`RtpHistory`) and the chunk queue to that timeline over every run. `RtpTheorems` and
`RtpDelivery` state the results, `RtpNetwork` what a network has to do for nothing to be lost,
`RtpWraparound` the exact bound of the history, and `RtpAdapter` is the adapter as mutable objects,
proved to compute the functions. `G711` holds the ITU-T G.711
expansion and the upsampler.

**Microphone relay.** `RelayFraming` has the 14-byte header and the metadata, written and read,
`RelayParser` the incremental parser, `RelayMachine` the fail-closed state machine and its trace law,
`RelayReceiver` the receiver that admits records into the microphone session, `RelayClient` the
bounded sender and the native capture composed with the server, and `RelayEndToEnd` the whole path.

**Microphone session.** `IngressBoundary` is the multi-stream boundary; `SessionModel`,
`SessionInvariant`, `SessionRuns` and `SessionTheorems` are the session over it with one joint
invariant; `PauseBarrier` is the wait for a pause; `MicrophoneSession` is the session as an object
over its boundary object.

**Call state and calibration.** `Coaching` is the ranked, bounded card list, `CallLabels` the
accumulated labels and their revision timeline, `Calls` both under one call object.
`LabelEncoding` and `Calibration` are the label vectors and the threshold selection.

Each object's methods are proved against the function that gives its next state, so that the
theorems about those functions hold for the objects. An observer's record (what was accepted,
drained, sent, captured) accompanies each run; the theorems compare the state with it.

Where a plausible statement fails, its exact condition is proved, and a run that reaches the failure:
`RtpWraparound.HistoryBoundIsExactFor` with `RtpWraparound.BeyondTheBoundFails`,
`PauseBarrier.PauseOverflows` with `PauseBarrier.PausedButCancelled`,
`PauseBarrier.TrueMeansDrained` with `PauseBarrier.TrueOfCancelledRun`,
`RelayClient.OpeningIsHarmlessIff` with `RelayClient.LateOpeningRun`,
`RelayClient.CommandIsHarmlessIff` with `RelayClient.SecondPauseRun` and `RelayClient.ResumeThenEndRun`,
`Coaching.EvictionKeepsTheLengthIff` with `Coaching.RepeatedIdShortensTheBoard`,
and `Coaching.ReversedTurnsTheOrder` and `LabelEncoding.EncodeDecode` for single calls.

## Conventions

- Sequence numbers and timestamps wrap explicitly; a position is the unwrapped number, kept by the
  observer. The RTP clock, gap timers and arrival times are reals given with each call.
- Digests are compared by the bytes or fields that go into them.
- JSON text, ISO timestamps and reason names are read and written by the functions of a `TextLayer`
  value. Decoding assumes nothing about them; the round trips assume that reading undoes writing where
  writing succeeds (`Lawful`). Header, lengths and payload are concrete bytes.
- Durations, thresholds, precision, recall and F1 are exact reals.
- Threads and sockets are atomic steps in any order; a flag or a value given with a step stands for
  what the environment decides (a fresh capability, a microphone that reopens, a normaliser that fails).
- Every lemma switches automatic induction off: each inductive proof is written out. `hide` keeps a
  proof from unfolding definitions it does not need.
- A string is a list of code points; case folding is a pair of a text and its folded form. A raw label
  is given by its canonical form, if it has one.

## Model

| member | source | states |
|---|---|---|
| `RtpTheorems.EmittedAudioIsTheTimeline` | app/audio_ingress/rtp.py:258-318 | After any run, while a source is active, drained and queued chunk payloads followed by the PCM buffer equal the reference timeline over absolute positions 0 up to the expected one: the upsampled decoding of each accepted packet, silence of the same length where none was accepted. All those chunks are full and the queue bound holds. |
| `RtpTheorems.FinishedAudioIsTheTimeline` | app/audio_ingress/rtp.py:338-374 | After an accepted END the chunks equal the whole timeline, up to the last accepted position; the buffers are empty and only the last chunk may be short. |
| `RtpTheorems.BufferedPacketsAreInTheWindow` | app/audio_ingress/rtp.py:281-310 | Between calls every buffered number is 1 to `max_reorder_packets` ahead of the expected one, and no gap expiry, forced or not, can take its window-exceeded exit. |
| `RtpTheorems.BytesAndClockAreConserved` | app/audio_ingress/rtp.py:444-571 | While active: PCM bytes plus twice the emitted samples equal four times decoded plus skipped samples; expected sequence and timestamp are the initial ones advanced by the position, modulo 2^16 and 2^32; the counters say how many positions were played and skipped. |
| `RtpTheorems.UnseenPacketIsNeverADuplicate` | app/audio_ingress/rtp.py:268-288 | Within the bound of the next row, whatever the queue, a well-formed packet for a position of the window that was never accepted is answered neither as a duplicate nor as a conflict, however often the numbers have wrapped. |
| `RtpWraparound.HistoryBoundIsExactFor` | app/audio_ingress/rtp.py:667-679 | The bound is exact, configuration by configuration, wherever the silence of one window of one-sample packets fits into the queue: in no reachable state is an unseen in-window packet taken for a duplicate exactly when (limit + 1) * (window + 1) <= 65536 if the jitter wait is positive, and exactly when limit * (window + 1) < 65536 if it is zero. |
| `RtpWraparound.HistoryBoundIsExact` | app/audio_ingress/rtp.py:667-679 | For every history limit, window and jitter wait, whatever the queue: no configuration with these ever takes an unseen in-window packet for a duplicate exactly when the bound of the row above is met. |
| `RtpWraparound.HistoryBoundIsExactForEveryWait` | app/audio_ingress/rtp.py:667-679 | For every history limit and window: no configuration with these, whatever its jitter wait, ever does so exactly when (limit + 1) * (window + 1) <= 65536. |
| `RtpWraparound.BeyondTheBoundFails` | app/audio_ingress/rtp.py:258-318 | Every configuration beyond the bound whose queue can take the silence of one window reaches a state in which the packet of position 65536, never seen, is answered as conflicting with the packet of position 0. |
| `RtpTheorems.ExactDuplicateWasAccepted` | app/audio_ingress/rtp.py:268-288 | An exact-duplicate answer is never wrong: some packet accepted from this source has the same hashed fields. |
| `RtpTheorems.OutputDependsOnlyOnAccepted` | app/audio_ingress/rtp.py:444-571 | Two finished sources that accepted the same payloads at the same positions emitted the same chunks: payloads, numbers, starts and durations. |
| `RtpDelivery.SenderNumberIsRecovered` | app/audio_ingress/rtp.py:759-768 | A packet from less than half the number space away lands on the sender's unwrapped number, or, if it is behind, looks at least half the space ahead and so is stale. |
| `RtpDelivery.DeliveryOrderDoesNotMatter` | app/audio_ingress/rtp.py:281-318 | Two delivery runs that took in the same sender packets and both complete give the same chunks, across sequence and timestamp wraparound: in whatever order, interleaved with clock ticks and reads, and whatever repeated, late or too early packets were delivered and refused, as long as each comes less than half the number space away. |
| `RtpDelivery.FullDeliveryIsLossless` | app/audio_ingress/rtp.py:258-374 | If everything sent was taken in, whatever else was delivered and refused, the output is the plain decoding of the sender's payloads in order. |
| `RtpNetwork.OrderlyNetworkLosesNothing` | app/audio_ingress/rtp.py:258-374 | A condition on the deliveries alone: each packet overtakes by at most the reorder window, no stretch of disorder lasts the jitter wait, arrival times do not run back, repeats are not older than half the number space, and the queue is read before the packets that have come overfill it. Then, with the history within its bound, every packet is taken in, the call completes, and its output is the plain decoding of what was sent. |
| `RtpNetwork.NetworkKeepsTrack` | app/audio_ingress/rtp.py:281-336 | Along such a run the source never fails, its expected position is always the first packet that has not come, its gap timer is when the present stretch of disorder began, and it has taken in exactly what came. |
| `RtpRuns.StepConsistent` | app/audio_ingress/rtp.py:226-406 | Every public operation keeps the invariant that ties the source to its timeline, its window, its clocks, its duplicate history and its output. |
| `RtpInvariant.ExpirySettles` | app/audio_ingress/rtp.py:477-521 | A gap expiry keeps the invariant, leaves nothing playable in the buffer, empties it when forced, and never leaves through the window exit. |
| `RtpInvariant.AdmitTracks` | app/audio_ingress/rtp.py:281-300 | A packet that passed the checks lands on a free absolute position of the window, and the invariant holds with it recorded there. |
| `RtpHistory.TrimOrigin` | app/audio_ingress/rtp.py:667-679 | An entry that survives trimming comes from the untrimmed history; if its packet has left the buffer, nothing newer was trimmed and the limit is met. |
| `RtpHistory.AdmittedEntry` | app/audio_ingress/rtp.py:667-679 | Every history entry is recent: the newest position lies within one window per newer entry of it, and within one packet or one window of the newest entry, as the jitter wait is zero or not. |
| `RtpTimeline.CutIsUnique` | app/audio_ingress/rtp.py:523-571 | A byte stream can be cut into numbered, timed chunks in only one way. |
| `RtpModel.NearestDistance` | app/audio_ingress/rtp.py:496-503 | The distance found is the least forward distance of any buffered packet. |
| `RtpAdapter.RtpMediaIngressAdapter.EmitCompleteChunks` | app/audio_ingress/rtp.py:523-533 | The loop computes the specified cut of the PCM buffer, or the queue-full failure. |
| `RtpAdapter.RtpMediaIngressAdapter.QueueChunk` | app/audio_ingress/rtp.py:545-571 | A chunk is queued with its number, start and duration, or the queue-full failure is reported and nothing is queued. |
| `RtpAdapter.RtpMediaIngressAdapter.DrainContiguous` | app/audio_ingress/rtp.py:444-475 | The loop plays packets from the expected one on, as the specification does. |
| `RtpAdapter.RtpMediaIngressAdapter.ExpireGap` | app/audio_ingress/rtp.py:477-521 | The loop skips and drains as the specification does, and ends. |
| `RtpAdapter.RtpMediaIngressAdapter.Nearest` | app/audio_ingress/rtp.py:496-503 | The scan over the buffer finds the least forward distance. |
| `RtpAdapter.RtpMediaIngressAdapter.TrimFingerprintHistory` | app/audio_ingress/rtp.py:667-679 | The loop drops the oldest entries whose packets have left the buffer until the limit is met. |
| `RtpAdapter.RtpMediaIngressAdapter.AcceptPacket` | app/audio_ingress/rtp.py:258-318 | The object's new state and answer are those of the specification, on every path. |
| `RtpAdapter.RtpMediaIngressAdapter.Finish` | app/audio_ingress/rtp.py:338-374 | The object's new state and answer for END are those of the specification, including a duplicate END and a failure while flushing. |
| `RtpAdapter.RtpMediaIngressAdapter.DrainAudioChunks` | app/audio_ingress/rtp.py:385-406 | The oldest chunks leave the readable source's queue, up to the limit; a non-positive limit is an error. |
| `RtpAdapter.RtpMediaIngressAdapter.Fail` | app/audio_ingress/rtp.py:605-624 | A failure closes the source and drops what it retained. |
| `G711.AudioBytesAt` | app/audio_ingress/rtp.py:696-720 | Both output samples of each input byte unpack to the G.711 expansion of that byte. |
| `G711.MulawFitsPcm16` | app/audio_ingress/rtp.py:723-730 | Every mu-law byte expands into the signed 16-bit range. |
| `G711.AlawFitsPcm16` | app/audio_ingress/rtp.py:733-744 | Every A-law byte expands into the signed 16-bit range. |
| `G711.Upsample` | app/audio_ingress/rtp.py:709-720 | The buffer-filling loop writes every sample twice. |
| `RelayFraming.HeaderRoundTrip` | app/audio_ingress/tcp_microphone_relay.py:388-413 | Fourteen bytes are accepted as a header and decode to `h` exactly when `h` is valid and they are its encoding. |
| `RelayFraming.DecodesItsFields` | app/audio_ingress/tcp_microphone_relay.py:1131-1147 | A frame decodes to a record exactly when its JSON members describe that record's metadata, field by field, the metadata is of its type's shape and in range, type and payload are the frame's, and the digest is over type, metadata text and payload. |
| `RelayFraming.MetadataIsItsFields` | app/audio_ingress/tcp_microphone_relay.py:1184-1278 | For all seven types: members are accepted and give this metadata exactly when they are the required names and no others, each spells its field, and the metadata is of its type's shape, in range and with a sample count that fits the payload. |
| `RelayFraming.MetadataRoundTrip` | app/audio_ingress/tcp_microphone_relay.py:287-312 | The members written for a record's metadata are read back as that metadata, exactly when it is valid, and never as any other. |
| `RelayFraming.EncodesExactlyValid` | app/audio_ingress/tcp_microphone_relay.py:287-323 | A record is encoded exactly when its members can be written, its metadata is valid and its lengths are allowed; the bytes are then its frame, which decodes to the record. |
| `RelayParser.TwoFeedsAreOne` | app/audio_ingress/tcp_microphone_relay.py:350-386 | Feeding `a` then `b` against feeding `a + b`: the same records when neither raises, an error on one side exactly when on the other, and the same final state, failed and empty after an error. |
| `RelayParser.FragmentationIsIrrelevant` | app/audio_ingress/tcp_microphone_relay.py:350-386 | Any fragmentation of the same bytes ends in the same state with the same records, or raises exactly when one feed would. |
| `RelayParser.RoundTrip` | app/audio_ingress/tcp_microphone_relay.py:287-427 | Any list of records that could be encoded, in any fragmentation of the concatenated encodings, comes back record for record: the same types, metadata and payloads, with an empty buffer. |
| `RelayParser.AcceptedBytesAreFrames` | app/audio_ingress/tcp_microphone_relay.py:364-427 | Conversely, whatever was accepted is a concatenation of encodings of the returned records, followed by the bytes still buffered. |
| `RelayParser.ParsesExactlyEncodings` | app/audio_ingress/tcp_microphone_relay.py:287-427 | Records come out with nothing left over exactly when the input is a concatenation of encodings of frames for them. |
| `RelayParser.MicrophoneRelayRecordParser.Feed` | app/audio_ingress/tcp_microphone_relay.py:350-386 | The parser's loop over its input slices computes the byte-wise specification; neither buffer-limit branch is ever taken and the loop ends. |
| `RelayParser.MicrophoneRelayRecordParser.ReadHeader` | app/audio_ingress/tcp_microphone_relay.py:388-413 | The header is taken from the first fourteen bytes, or its first fault is reported. |
| `RelayParser.MicrophoneRelayRecordParser.FinishRecord` | app/audio_ingress/tcp_microphone_relay.py:415-427 | The buffered bytes become one record and the parser is empty again, or the decoding error is reported. |
| `RelayMachine.MachineFollowsItsTrace` | app/audio_ingress/tcp_microphone_relay.py:487-606 | Over any record sequence, what was accepted is numbered 0, 1, 2, ..., follows START (AUDIO* PAUSE RESUME)* AUDIO* [PAUSE] END, and carries the first generation plus the resumes so far; state, generation, next number and the duplicate window are determined by it. |
| `RelayMachine.AcceptedInFullIffLegal` | app/audio_ingress/tcp_microphone_relay.py:487-606 | A well-shaped record sequence is accepted in full exactly when it is such a trace. |
| `RelayMachine.WindowDuplicateIsHarmless` | app/audio_ingress/tcp_microphone_relay.py:494-512 | Retransmitting any record of the window before termination is answered as a duplicate and changes nothing. |
| `RelayMachine.DuplicateIffInWindow` | app/audio_ingress/tcp_microphone_relay.py:494-512 | A record is answered as a duplicate exactly when it repeats the digest of an accepted record still in the window. |
| `RelayMachine.RetransmissionsAreInvisible` | app/audio_ingress/tcp_microphone_relay.py:494-512 | Over whole runs: retransmissions of what the machine then remembers, inserted anywhere, change neither the machine at the end nor what it accepted. |
| `RelayMachine.DuplicatesCanBeDropped` | app/audio_ingress/tcp_microphone_relay.py:494-512 | Conversely every run is its records not answered as duplicates with such retransmissions inserted, so dropping those answered as duplicates changes nothing. |
| `RelayMachine.RejectionIsAbsorbing` | app/audio_ingress/tcp_microphone_relay.py:608-614 | After a rejection before END nothing is ever accepted again and the state does not move. |
| `RelayMachine.MicrophoneRelayStateMachine.Accept` | app/audio_ingress/tcp_microphone_relay.py:487-549 | The object's new state and answer are those of the specification, for every record in every state. |
| `RelayMachine.MicrophoneRelayStateMachine.Admit` | app/audio_ingress/tcp_microphone_relay.py:592-606 | The record joins the history, whose oldest entries leave until the limit is met, and the next number moves on. |
| `RelayMachine.MicrophoneRelayStateMachine.AdmitStart` | app/audio_ingress/tcp_microphone_relay.py:556-574 | Token, scope and number decide a START, in that order. |
| `RelayMachine.MicrophoneRelayStateMachine.AdmitResume` | app/audio_ingress/tcp_microphone_relay.py:576-590 | A RESUME needs the paused state and exactly the next generation. |
| `RelayReceiver.EveryAudioRecordExactlyOnce` | app/audio_ingress/tcp_microphone_relay.py:918-972 | If every answer was an ACK, the accepted END was fully admitted, the session was not cancelled and its consumer ran to the end, then the consumer received the payloads of the accepted AUDIO records, once each, in sequence order, across pauses, resumes, retransmissions, any fragmentation, and calls made beside the receiver, a finish among them. |
| `RelayReceiver.GenerationsAgree` | app/audio_ingress/tcp_microphone_relay.py:1016-1067 | Whenever a read has been answered in full by ACKs and the session is open, protocol generation and capture generation agree, whatever ran beside the receiver. |
| `RelayReceiver.AcknowledgedPauseIsDrained` | app/audio_ingress/tcp_microphone_relay.py:1038-1048 | A PAUSE is acknowledged only of a session that is open and drained: every chunk was received and acknowledged, and what the consumer received is the audio of the records acknowledged so far. |
| `RelayReceiver.TraceIsOfTheBytes` | app/audio_ingress/tcp_microphone_relay.py:918-972 | As long as only ACKs were answered, parser, machine and trace are what fresh ones make of the bytes read so far, in whatever reads they came. |
| `RelayReceiver.StepConsistent` | app/audio_ingress/tcp_microphone_relay.py:918-1081 | Every atomic step - a read, an admission, the entry and each look of a waiting PAUSE, a call beside the receiver - keeps the link between the machine's trace, what is still to be admitted, and what the session has taken. |
| `RelayReceiver.AnswersMatchTrace` | app/audio_ingress/tcp_microphone_relay.py:918-972 | The acceptances of one read, taken in order, are exactly what the machine's trace gained, although the machine runs over the whole read first. |
| `RelayReceiver.SucceededCallTakes` | app/audio_ingress/tcp_microphone_relay.py:1016-1067 | A session call that succeeds for a record admits that record's audio, moves the generation exactly on a RESUME, and never on anything else. |
| `IngressBoundary.RunConsistent` | app/audio_ingress/boundary.py:144-403 | In every reachable state active streams differ pairwise in call and in stream id, active and completed keys are disjoint and bounded, queues and histories are bounded, drained then queued chunks are the accepted ones in sequence order, and each chunk starts where the accepted durations before it end. |
| `IngressBoundary.AcceptConsistent` | app/audio_ingress/boundary.py:144-200 | Every event, accepted or refused, keeps that invariant. |
| `IngressBoundary.DrainConsistent` | app/audio_ingress/boundary.py:202-221 | Every drain keeps it: what leaves the queue joins the drained chunks. |
| `IngressBoundary.LiveAudioIngressBoundary.AcceptEvent` | app/audio_ingress/boundary.py:144-200 | The object's new state and answer are those of the specification, for every event. |
| `IngressBoundary.LiveAudioIngressBoundary.AcceptAudio` | app/audio_ingress/boundary.py:273-358 | Duplicates, conflicts, gaps, overload and acceptance of a chunk, and the trimmed duplicate history. |
| `IngressBoundary.LiveAudioIngressBoundary.OpenStream` | app/audio_ingress/boundary.py:223-271 | A START opens a stream unless its call or stream id is active elsewhere or the bound is met. |
| `IngressBoundary.LiveAudioIngressBoundary.CloseStream` | app/audio_ingress/boundary.py:360-403 | An END in sequence closes its stream, clears its queue and remembers the key, the oldest keys leaving. |
| `IngressBoundary.LiveAudioIngressBoundary.DrainStream` | app/audio_ingress/boundary.py:202-221 | The loop hands out the oldest chunks, up to the limit. |
| `IngressBoundary.LiveAudioIngressBoundary.ScopeIsActiveElsewhere` | app/audio_ingress/boundary.py:405-411 | The scan finds whether another active stream has the event's call or stream id. |
| `SessionTheorems.CountersAgree` | app/audio_ingress/local_microphone.py:1498-1523 | Whenever the stream is active, the boundary's next number is the session's and the formats match; otherwise the boundary has no stream. |
| `SessionTheorems.ControlIsNeverRejected` | app/audio_ingress/local_microphone.py:1438-1460 | No call in any reachable state has its START or END refused by the boundary. |
| `SessionTheorems.NothingFollowsEnd` | app/audio_ingress/local_microphone.py:1438-1460 | After END every call leaves boundary and counter as they are, and nothing more is yielded. |
| `SessionTheorems.NoAudioIsLost` | app/audio_ingress/local_microphone.py:873-962 | Until cancelled: received, then queued, then buffered audio is all the audio admitted, in order. |
| `SessionTheorems.FinishIsLossless` | app/audio_ingress/local_microphone.py:1252-1294 | A call that ended without cancellation delivered every admitted byte before its END. |
| `SessionTheorems.EndDiscardsNothing` | app/audio_ingress/local_microphone.py:1296-1331 | The queue an uncancelled END clears is already empty. |
| `SessionTheorems.PausedMeansDrained` | app/audio_ingress/local_microphone.py:1214-1222 | An open session that is paused, or stopped by a capture failure, holds nothing: every chunk was drained and acknowledged. |
| `SessionTheorems.PausingSettlesOrCloses` | app/audio_ingress/local_microphone.py:1224-1231 | One call takes an open session from PAUSING to PAUSED only if it is the acknowledgement that settles the stop. |
| `PauseBarrier.TrueMeansDrained` | app/audio_ingress/local_microphone.py:1032-1049 | `wait_until_paused` as written: the session is required open on entry only, then the status alone decides, with any calls in between. If it returns true the session is open, drained, acknowledged and lossless - unless a pause overflowed meanwhile, and then the session is cancelled although it reads PAUSED. |
| `PauseBarrier.OverflowNeedsAnotherPause` | app/audio_ingress/local_microphone.py:1165-1180 | Such an overflow needs a second pause, of a capture neither pausing nor paused, so it cannot happen to a wait that looks when the stop settles, nor where only the waiter pauses. |
| `PauseBarrier.PauseOverflows` | app/audio_ingress/local_microphone.py:1165-1212 | A pause of a running capture cancels the session exactly when its flush needs more chunks than the queue has room for, and the cancelled session reads PAUSED exactly when it needs one too many, the normaliser did not fail and nothing is in flight. |
| `PauseBarrier.PausedButCancelled` | app/audio_ingress/local_microphone.py:1195-1210 | It happens: with a queue of one chunk, a started session that takes two seconds of audio and one sample more, and is paused, ends cancelled and reading PAUSED. |
| `PauseBarrier.TrueOfCancelledRun` | app/audio_ingress/local_microphone.py:1032-1049 | The exception happens: with a queue of one chunk a wait is pending for a pause; the chunk is consumed and acknowledged, the capture resumes and records more than fits, a second pause overflows, and only then does the wait look again: it returns true, of a cancelled session. |
| `SessionRuns.StepConsistent` | app/audio_ingress/local_microphone.py:488-1523 | Every call keeps the joint invariant of session and boundary and the balance of audio held, admitted and yielded. |
| `SessionInvariant.AppendLive` | app/audio_ingress/local_microphone.py:1356-1381 | Aggregating on a live stream keeps every byte in order, or an overload cancels the session. |
| `SessionInvariant.EmitLive` | app/audio_ingress/local_microphone.py:1383-1420 | Emitting on a live stream never raises: the buffer moves to the queue, or an overload cancels. |
| `SessionInvariant.CancelCloses` | app/audio_ingress/local_microphone.py:1462-1496 | Cancelling always closes the session and its stream, and never raises. |
| `MicrophoneSession.LocalMicrophoneIngressSession.AppendNormalized` | app/audio_ingress/local_microphone.py:1356-1381 | The loop computes the specified aggregation. |
| `MicrophoneSession.LocalMicrophoneIngressSession.SendBuffer` | app/audio_ingress/local_microphone.py:1383-1420 | A full, or any allowed, buffer becomes one event; refusal and overload as specified. |
| `MicrophoneSession.LocalMicrophoneIngressSession.AcceptValidatedPcm` | app/audio_ingress/local_microphone.py:873-962 | The object's new state and outcome are those of the specification, for every guard. |
| `MicrophoneSession.LocalMicrophoneIngressSession.Stop` | app/audio_ingress/local_microphone.py:1165-1212 | Stopping a capture flushes, records and settles as specified, also when the flush fails or overloads the boundary. |
| `MicrophoneSession.LocalMicrophoneIngressSession.RequestDrainingEnd` | app/audio_ingress/local_microphone.py:1252-1294 | A draining finish flushes, then ends at once or waits, as specified, also when the flush fails, no stream is left or the boundary is overloaded. |
| `MicrophoneSession.LocalMicrophoneIngressSession.NextChunk` | app/audio_ingress/local_microphone.py:1296-1331 | One turn of the chunk generator cancels, yields, ends, stops or waits as specified. |
| `MicrophoneSession.LocalMicrophoneIngressSession.SendEnd` | app/audio_ingress/local_microphone.py:1438-1460 | END is sent at most once, with the status it leaves, or its refusal is reported. |
| `MicrophoneSession.LocalMicrophoneIngressSession.CancelSession` | app/audio_ingress/local_microphone.py:1462-1496 | Cancelling closes the session and ends an active stream, as specified. |
| `RelayClient.EverySentRecordIsAccepted` | scripts/run_local_microphone_relay_client.py:300-411 | Over every run in which no command is asked for that clashes with an earlier one and the capture does not open while a pause is on its way - both conditions are exact, by the next rows - every transmitted record is accepted by the server in the order sent: no gap, no stale generation, no order error, whether or not the queue overflowed, a device failed or the client was closed. An end behind an unacknowledged pause, and anything behind an end, is among them. |
| `RelayClient.CommandIsHarmlessIff` | scripts/run_local_microphone_relay_client.py:236-274 | From any in-step state, a pause, resume or end that is asked for leaves the server accepting everything that any disciplined, harmlessly opening continuation sends, exactly when it does not clash. It clashes when it gets into the queue with no end outstanding and is a pause behind a pause, or a resume, or an end that has nothing to flush, behind a resume that can reopen the capture. |
| `RelayClient.AudioReachesTheServerInOrder` | scripts/run_local_microphone_relay_client.py:583-616 | If the capture opened while streaming with no command outstanding, the audio on the wire is always a prefix of what was captured; until the sender closes, the rest is what is queued and buffered; after an acknowledged END there is no rest. |
| `RelayClient.OpeningIsHarmlessIff` | scripts/run_local_microphone_relay_client.py:639-681 | The capture opens when its own thread gets there. From any in-step state in which it can, the server accepts everything that any disciplined continuation sends exactly when no pause is on its way at that moment, or an end already follows it. |
| `RelayClient.OpeningLosesNothingIff` | scripts/run_local_microphone_relay_client.py:639-681 | And no captured audio is lost in any disciplined continuation, short of the sender closing, exactly when the client is streaming with no command outstanding at that moment. |
| `RelayClient.LateOpeningRun` | scripts/run_local_microphone_relay_client.py:639-681 | A disciplined run from the start that fails the server: the pause is asked for while the device is still being opened, and the chunk captured next is sent behind it. |
| `RelayClient.SecondPauseRun` | scripts/run_local_microphone_relay_client.py:236-246 | From the start: a second pause asked for while the first is on the wire clashes; it is sent, and the server refuses it and fails. |
| `RelayClient.ResumeThenEndRun` | scripts/run_local_microphone_relay_client.py:713-723 | From the start, with a capture opened in time: an end asked for while a resume is on the wire clashes, for it carries the old generation; acknowledged before the end closes the capture, the resume is followed by the end, and the server refuses it and fails. |
| `RelayClient.StepConsistent` | scripts/run_local_microphone_relay_client.py:214-411 | Every event but a clashing command and an opening while a pause is on its way keeps client and server in step. |
| `RelayClient.AppendFlows` | scripts/run_local_microphone_relay_client.py:682-695 | Appending moves the new bytes, in order, into queue and buffer, or closes the sender. |
| `RelayClient.BoundedRelaySender.QueueAudio` | scripts/run_local_microphone_relay_client.py:214-234 | The sender's new state and answer are those of the specification, including malformed audio and a full queue. |
| `RelayClient.BoundedRelaySender.FailWith` | scripts/run_local_microphone_relay_client.py:456-473 | A failure closes the sender unless it has ended or failed. |
| `RelayClient.BoundedRelaySender.Acknowledge` | scripts/run_local_microphone_relay_client.py:393-411 | What a successful exchange does to counters, status and generation. |
| `RelayClient.NativeRelayCapture.AppendBlock` | scripts/run_local_microphone_relay_client.py:682-695 | The loop cuts blocks into chunks as specified and stops at the first refused one. |
| `RelayClient.NativeRelayCapture.FlushBuffer` | scripts/run_local_microphone_relay_client.py:610-616 | The buffered bytes leave as one chunk. |
| `RelayClient.NativeRelayCapture.AskSender` | scripts/run_local_microphone_relay_client.py:713-723 | Pause and end: quieten, flush, then ask the sender; the close that ends an end is a step of its own. |
| `RelayClient.NativeRelayCapture.Close` | scripts/run_local_microphone_relay_client.py:618-637 | The capture stops for good: nothing is admitted, and the device cannot be reopened. |
| `RelayEndToEnd.CapturedAudioIsDelivered` | scripts/run_local_microphone_relay_client.py:713-723 | Client, connection, server, session and consumer together. If the receiver read the concatenated encodings of what the client sent, in whatever reads, answered only ACKs, and its consumer ran to the end, and the client's END was acknowledged without failure, then the server accepted exactly the records sent and the consumer received every captured byte, once, in order. |
| `RelayEndToEnd.ConversationIsAccepted` | app/audio_ingress/tcp_microphone_relay.py:287-427 | A receiver that answered only ACKs and read the encodings of a legal conversation accepted exactly that conversation. |
| `Coaching.TheStrongestAreActive` | app/calls/models.py:501-569 | After any admissions of distinct ids under a fixed maximum, the active ranks are, in order, the highest of all ranks offered. |
| `Coaching.EveryOfferIsAccountedFor` | app/calls/models.py:501-569 | Every card offered is active, in the history or refused; the cards shown are those not refused; no card leaves or is refused before the list is full, and none that did is stronger than any card still active. |
| `Coaching.EvictionKeepsTheLengthIff` | app/calls/models.py:529-546 | A full list stays full when a stronger card comes exactly when no other active card carries the id of the weakest. |
| `Coaching.RepeatedIdShortensTheBoard` | app/calls/models.py:501-569 | Two admissions under one id and a third, stronger card leave a list of two with one card. |
| `Coaching.ReversedTurnsTheOrder` | app/calls/models.py:739-740 | The reversed key turns the string order round exactly for the pairs where neither is a proper prefix of the other. |
| `Coaching.ReversedIsInjective` | app/calls/models.py:739-740 | Different case-folded texts have different keys. |
| `Coaching.RankLessIsTotal` | app/calls/models.py:731-736 | Ranks are totally ordered and tie only when priority, revision and key agree. |
| `Coaching.AdmitTidy` | app/calls/models.py:501-569 | An admission with a fresh id keeps the active list sorted, without repeated ids, within the maximum and among the cards shown. |
| `Coaching.UpdateTidy` | app/calls/models.py:571-624 | An update succeeds exactly for an active id and keeps all of that, and the number of active cards. |
| `Coaching.WithdrawTidy` | app/calls/models.py:626-663 | A withdrawal succeeds exactly for a shown id, takes it off the active list, and leaves one entry in the history. |
| `CallLabels.BusinessLabelsAreNeverForgotten` | app/calls/models.py:290-367 | Over any run, detected business labels are never dropped, reordered or given another first revision. |
| `CallLabels.DetectedLabelsAreExclusive` | app/calls/models.py:290-367 | Over any run detected labels are distinct, `no_action` stands only alone, and the timeline is strictly increasing in revision. |
| `CallLabels.EachLabelIsNewOnce` | app/calls/models.py:369-452 | Each label is newly accumulated in at most one revision; for a business label, exactly in the one its entry calls first. |
| `CallLabels.UpsertedTimeline` | app/calls/models.py:441-452 | An upsert keeps the timeline strictly increasing and changes only its own revision's entry. |
| `CallLabels.RecordedNewly` | app/calls/models.py:369-452 | A label is new at a revision afterwards exactly if it was before or this recording adds it there. |
| `CallLabels.CanonicalIsExclusive` | app/events/labels.py:43-53 | Canonical labels are distinct and known, and `no_action` survives only when no business label came with it. |
| `Calls.EveryRunIsConsistent` | app/calls/models.py:290-663 | Over any run of admissions with fresh ids, updates, withdrawals, recordings and activations both invariants hold together. |
| `Calls.CallState.AdmitCoachingSuggestion` | app/calls/models.py:501-569 | The object's new state and result are those of the specification, with both error cases and the label a confirmed card records. |
| `Calls.CallState.UpdateCoachingSuggestion` | app/calls/models.py:571-624 | The active card is replaced in place, re-sorted and recorded as specified; an id that is not active is an error and changes nothing. |
| `Calls.CallState.WithdrawCoachingSuggestion` | app/calls/models.py:626-663 | Active, shown and history lists change as specified, or the id is unknown and nothing changes. |
| `Calls.CallState.RecordDetectedLabels` | app/calls/models.py:290-367 | The loop over incoming labels sets the same dictionary and timeline as the specification. |
| `Calls.CallState.UpsertDiagnostic` | app/calls/models.py:369-452 | The loop over labels builds the evidence, and the entry replaces its revision's, in order. |
| `Calls.CanonicalLabels` | app/events/labels.py:43-53 | The loop keeps the first of each known label and then drops `no_action` beside business labels. |
| `Calibration.SelectedIsOptimal` | app/classification/calibration.py:138-190 | A critical label's target is met exactly when the smallest candidate meets it; the chosen threshold is then the unique best in (F1, precision, recall, threshold) among the candidates that meet it, else the unique best in (recall, precision, F1, threshold), with the recall of the smallest candidate; any other label takes the unique best in (F1, precision, recall, threshold). |
| `Calibration.RecallFalls` | app/classification/calibration.py:294-317 | Recall never rises with the threshold. |
| `Calibration.F1IsTheOverlap` | app/classification/calibration.py:294-317 | F1 is 2 tp / (2 tp + fp + fn), and zero without true positives. |
| `Calibration.Candidates` | app/classification/calibration.py:44-53 | The loop ends, and gives exactly the grid points from the minimum by equal steps up to the maximum. |
| `Calibration.CriticalTargetMet` | app/classification/calibration.py:86-135 | On the configured grid a critical label's status is whether the minimum threshold reaches the target, and a met target is met by the chosen threshold. |
| `Calibration.CalibrateProbabilities` | app/classification/calibration.py:86-135 | Succeeds exactly on matching, non-empty, well-formed rows with one original threshold per label; every label gets the selection on its own column, exactly the critical labels a status, and both counts are of rows mapped to no label. |
| `Calibration.BothAbsentRowsAreTheZeroRows` | app/classification/calibration.py:320-336 | The both-absent count is the number of rows that thresholding maps to the all-zero vector. |
| `LabelEncoding.DecodeEncode` | app/classification/encoding.py:27-47 | Decoding an encoded label list gives the same labels, once each, in encoder order. |
| `LabelEncoding.EncodeDecode` | app/classification/encoding.py:27-47 | A 0/1 vector survives decoding and encoding exactly when it does not set `no_action` beside another label. |
| `LabelEncoding.ThresholdIsExclusive` | app/classification/encoding.py:49-69 | Thresholding never sets `no_action` beside another label. |
| `LabelEncoding.ZeroIffNoneReaches` | app/classification/encoding.py:49-69 | A row is mapped to the all-zero vector exactly when no probability reaches its threshold. |
| `LabelEncoding.EnforcedHolds` | app/classification/encoding.py:76-79 | Exclusivity never empties a selection and only ever drops `no_action`, and only beside another label. |

## Left out

- Counters kept only for diagnostics, progress histories, metrics snapshots and processing times: they feed no decision.
- `accept_frame`, PyAV resampling and the audio energy measures: foreign calls. What a normaliser flushes is any list of non-empty whole-sample blocks, or a failure.
- Sockets, time-outs, condition variables and worker threads as such; `serve_connected_socket` and the listening socket are not part of this model.
- RtpWraparound.HistoryBoundIsExactFor: with a queue of one or two chunks and a window whose silence overfills it, a gap of a whole window closes the source instead, so the numbers go round in shorter steps; the exact bound of those configurations is not given, only that the bound above suffices.
- RelayReceiver.StepConsistent: the receiver is modelled on values, as a step relation, because its PAUSE waits for another thread; in-place update of the receiver object is not captured.
- RelayReceiver.EveryAudioRecordExactlyOnce: in relay mode the normaliser holds nothing, so a PAUSE, an END and a finish asked for beside the receiver flush nothing, and no one but the receiver pauses, resumes or feeds the session; a session fed by media frames is covered by the session theorems only.
- RelayClient.EverySentRecordIsAccepted: enqueueing is atomic (number and queue slot together), and so are the flush and the command of one pause or end. The page keeps its buttons disabled in some states, the pause button until the capture reports itself open; that is no part of these objects, and nothing is assumed of it.
- RelayClient.NativeRelayCapture.AskSender: a device that fails to stop and a drain of the callback queue that times out are not in it; both fail the sender, which the fault event covers.
- RelayClient.NativeRelayCapture.AppendBlock: the device callback queue before the capture thread is not modelled; blocks arrive whole and in order.
- RelayMachine.MicrophoneRelayStateMachine.AdmitStart: a string is a sequence of Unicode scalar values; a token of lone surrogates, which JSON escapes can spell and on which the comparison of tokens raises out of `accept`, is not an input of the model.
- RelayParser.MicrophoneRelayRecordParser.Feed: an argument that is not a byte string is not modelled, nor is metadata nested so deeply that the JSON reader raises its recursion error, which `feed` lets pass.
- RelayFraming.MetadataIsItsFields: a timestamp is the instant it denotes; its offset is not kept.
- IngressBoundary.LiveAudioIngressBoundary.AcceptEvent: per-stream records are map values that are replaced, not objects updated in place; aliasing of a stream record is not captured.
- RtpAdapter.RtpMediaIngressAdapter.AcceptPacket: an argument that is not a packet is the absent packet; field validation of packets and controls is part of their types. The digest packs the generation into eight bytes and raises from 2^64 on; the model does not.
- Calibration.CalibrateProbabilities: the evaluation metrics it also reports are left out, except for the row checks that decide success; all malformed rows give one error.
- Calibration.Candidates: the decimal grid is exact; under 28-digit decimals a step too small to change its sum never reaches the maximum, and the loop of the source does not end.
- Calibration.SelectedIsOptimal: floating-point rounding of the ratios and of the decimal grid is not modelled.
- Coaching.TheStrongestAreActive: Python's own sort and `min` are the stable sort and the first minimum of `StableSort`.
- Field validators of the data classes, the alias table of label names, `apply_transcript`, `_append_stable`, `apply_coaching_suggestion`, suggestion display and cool-down: they would add only easy members.
- Report writing, checksums of model directories, dataset loading, dashboards and runner scripts.
