# Barge-in relay of the telephony ⇄ realtime-engine media stream

This project models the per-call state machine of `handle_media_stream` in
`main.py`. The handler connects a Twilio media stream with the OpenAI realtime
engine. Two relays share five variables of the call:

- `stream_sid`
- `latest_media_timestamp`
- `last_assistant_item`
- `mark_queue`
- `response_start_timestamp_twilio`

The inbound relay reads Twilio events (`start`, `media`, `mark`). The outbound
relay reads engine events (`response.audio.delta`,
`input_audio_buffer.speech_started`). When the caller starts talking over the
assistant ("barge-in"), the handler truncates the assistant's utterance in the
engine and clears Twilio's playback buffer.

Layout:

- `wrappers.dfy`: `Option`, standing for Python's `None`.
- `base64.dfy`: the base 64 encoding of section 4 of RFC 4648. The outbound relay
  decodes and re-encodes every audio delta with it.
- `protocol.dfy`: the events read from each socket and the messages written to
  each, as tagged variants. It also holds Python truthiness of an optional
  string (`Truthy`) and counting functions over a message log.
- `media_stream.dfy`: class `Session` holds the five shared variables, whether
  the engine socket is open, and the log of messages written to each socket. It
  has one method per handled event, one for each of the two `async for` loops,
  and one for their interleaving under `asyncio.gather`. Reference functions
  state what one event and a run of events yield. On the inbound side they give the
  stream id, clock, queue and forwarded audio. On the outbound side they act on an
  `Outbound` value: utterance id, mark queue, utterance start, and both logs.
- `scenarios.dfy`: end-to-end runs of a fresh session through fixed
  interleavings, with the exact messages sent and the state left behind.

What the source does, and the model follows:

- A `start` event changes only `stream_sid` and `latest_media_timestamp`. The
  inbound handler declares just those two names `nonlocal` (main.py:99). Its
  assignments of `None` to `response_start_timestamp_twilio` and
  `last_assistant_item` (main.py:113, main.py:115) therefore bind locals. The
  utterance fields and the mark queue survive a restart.
- Media timestamps are taken as they come, with no ordering check. Together with
  the point above, this means a truncation offset can be negative
  (`RestartMidUtterance`).
- A mark is requested and queued only when `stream_sid` is truthy (main.py:193).
- Every reachable state satisfies `Session.Valid()`, which says the outbound state
  is `Coherent`. A pending mark implies a
  recorded utterance start, so the `is not None` test at main.py:166 never
  decides anything. A speech-started event interrupts exactly when an utterance
  id is set and a mark is pending.
- The utterance start is reset only by an interruption. An utterance that plays
  out in full (all marks acknowledged) is never interrupted, so the next
  utterance inherits its start. `NextUtteranceKeepsStart` shows the resulting
  offset.

## Model

| member | source | states |
|---|---|---|
| `Base64.DecodeDigit` | main.py:134 | the value of a digit of the RFC 4648 alphabet is the one that `EncodeDigit` maps back to that digit |
| `Base64.EncodeLength` | main.py:134 | `Encode` (the `b64encode` of the relay) writes four characters for every started group of three bytes |
| `Base64.Decode` | main.py:134 | decoding succeeds only on whole groups of four characters; otherwise it is the error the decoder raises |
| `Base64.RoundTrip` | main.py:134 | for every byte string, decoding what `Encode` writes gives back exactly those bytes |
| `Base64.Reencode` | main.py:134 | decode-then-encode of a delta, when it succeeds, decodes to exactly the bytes of the received delta, whatever its padding bits were |
| `Base64.ReencodeCanonical` | main.py:134 | a delta already in encoder form passes through decode-then-encode unchanged |
| `MediaStream.SidAfter` | main.py:110-111 | after a run of inbound events, a stream id different from the initial one was named by a `start` event of the run |
| `MediaStream.TimestampAfter` | main.py:103-114 | after a run of inbound events, a clock different from the initial one was brought by an event of the run: 0 by a `start`, or the timestamp of a `media` event while the engine is open |
| `MediaStream.NextOutboundCoherent` | main.py:133-200 | every engine event keeps the outbound state coherent: queue entries are mark names, a pending mark has a recorded start, a set utterance id is non-empty and has a recorded start |
| `MediaStream.OutboundAfterCoherent` | main.py:128-200 | every run of engine events keeps the outbound state coherent |
| `MediaStream.InterruptsWhenPending` | main.py:156-166 | in a coherent state, speech interrupts iff an utterance id is set and a mark is pending; the start test never decides |
| `MediaStream.InterruptionPair` | main.py:154-190 | an engine event writes to the engine iff it is speech that interrupts, and iff what it writes to the telephony socket is exactly one clear of the current stream; the telephony log only grows |
| `MediaStream.NextOutboundAccounting` | main.py:133-200 | one engine event adds media frames carrying exactly the re-encoded delta, one mark per frame iff the stream id is truthy, and at most as many queue entries as marks requested |
| `MediaStream.OutboundAfterAccounting` | main.py:128-152 | over a run, the media frames added carry the re-encoded deltas in order and one for one, each followed by a mark iff the stream id is truthy |
| `MediaStream.Session.constructor` | main.py:88-95 | a new call has no stream id, clock 0, no utterance, no pending marks, an open engine and empty logs, and satisfies the invariant |
| `MediaStream.Session.OnStart` | main.py:99-115 | `start` sets the stream id and resets the clock to 0; the utterance id, the utterance start and the mark queue keep their values |
| `MediaStream.Session.OnMedia` | main.py:103-109 | with the engine open, `media` sets the clock to the event's timestamp as it is and forwards the unchanged payload once; with the engine closed nothing changes and nothing is sent |
| `MediaStream.Session.OnMark` | main.py:116-118 | `mark` drops the oldest pending mark; on an empty queue it is a no-op, so the queue length never goes below zero |
| `MediaStream.Session.OnDisconnect` | main.py:119-122 | a telephony disconnect leaves the engine socket closed and changes nothing else |
| `MediaStream.Session.OnTwilioEvent` | main.py:101-118 | one inbound step updates the stream id, clock, queue and engine log as the single-event reference functions say, and leaves the utterance fields and the telephony log alone |
| `MediaStream.Session.ReceiveFromTwilio` | main.py:97-122 | after a run of inbound events: the stream id is that of the last `start`; the clock is that of the last `start` or open-engine `media`; one mark is dropped per acknowledgement until the queue is empty; every media payload is forwarded in order while the engine is open; the engine stays open iff it was open and the run did not end in a disconnect |
| `MediaStream.Session.SendMark` | main.py:192-200 | with a truthy stream id, one mark request goes out and the queue grows by exactly one `responsePart`; otherwise nothing changes |
| `MediaStream.Session.OnAudioDelta` | main.py:133-152 | a delta that does not decode changes nothing; otherwise exactly one media frame goes out, tagged with the current stream id and carrying the received bytes; the utterance start is set to the clock only if unset; the utterance id changes only to a truthy item id; and a mark follows iff the stream id is truthy |
| `MediaStream.Session.HandleSpeechStarted` | main.py:162-190 | with a pending mark and a recorded start, it truncates the utterance, if one is set, at content index 0 and `latest - start` ms, then clears the caller's stream; afterwards the queue is empty and both utterance fields are unset; otherwise nothing happens; the stream id and clock never change |
| `MediaStream.Session.OnSpeechStarted` | main.py:154-158 | speech interrupts iff an utterance id is set and a mark is pending (the start test then always holds); it sends exactly one truncate of that item at `latest - start` ms, then one clear; otherwise it is a no-op |
| `MediaStream.Session.OnEngineEvent` | main.py:128-158 | one outbound step survives iff the event is not an undecodable delta; the utterance id, queue, start and both logs move exactly as `NextOutbound` says for the current stream id and clock; the stream id, clock and engine state are untouched |
| `MediaStream.Session.SendToTwilio` | main.py:124-160 | on a closed engine socket nothing is handled; otherwise the relay stops exactly at the first undecodable delta; the new outbound state is the run of the events before it through `NextOutbound`; its media frames carry the re-encoded deltas in order, one for one, each followed by a mark iff the stream id is truthy; the stream id, clock and engine state are untouched |
| `MediaStream.Session.HandleMediaStream` | main.py:202 | under any interleaving of the two relays, including the engine socket closing on its own, the invariant holds, the telephony log only grows, pending marks never outnumber those pending before plus those requested, and a telephony disconnect or an engine close leaves the engine closed |
| `Scenarios.BargeIn` | main.py:103-190 | start, media 0, delta of `x`, media 250, delta, speech: two frames and two marks; start 0 with two marks pending; truncate `x` at 250 ms; clear; queue and utterance fields reset |
| `Scenarios.SpeechWithoutUtterance` | main.py:154-158 | speech with no utterance id set sends nothing and changes nothing |
| `Scenarios.SpeechAfterAnonymousAudio` | main.py:149-158 | audio without an item id sets no utterance, so a following speech-started event neither truncates nor clears, and the mark stays pending |
| `Scenarios.AckWithNothingPending` | main.py:116-118 | a mark acknowledgement on an empty queue sends nothing and leaves the queue empty |
| `Scenarios.RestartMidUtterance` | main.py:110-115 | a restart mid-utterance resets the clock but not the start, so a later barge-in truncates at -800 ms and clears the new stream |
| `Scenarios.NextUtteranceKeepsStart` | main.py:144-166 | after an utterance is fully acknowledged, speech is a no-op and the start stays; the next utterance `y`, begun at 5000, is truncated at 5200 ms |
| `Scenarios.MediaAfterDisconnect` | main.py:103-122 | after the caller disconnects the engine is closed, and later media neither moves the clock nor is forwarded |

## Left out

- HTTP routes `index_page` and `handle_incoming_call` (main.py:58-73): they return fixed documents built by the Twilio library.
- Socket plumbing (`websockets.connect`, headers, `accept`, `iter_text`, `send_json`, `close`; main.py:79-87, main.py:119-122): a send is an append to a message log, and the engine socket's state is the flag `engineOpen`. Whether the web framework raises on disconnect or ends the iteration quietly is not part of this model; the inbound run takes the disconnect as a parameter.
- Concurrency inside a handler: each handler runs as one atomic step. The await points inside a handler are not modelled, for example between the send at main.py:142 and the read of the clock at main.py:145.
- JSON parsing and malformed messages (main.py:102, main.py:129): events arrive already decoded. The `KeyError` of a missing field, which ends the inbound relay uncaught, is not modelled. An audio delta without a `delta` field is an ignored event.
- Twilio's timestamp is a decimal string converted with `int` (main.py:104); the model receives the integer.
- Logging (`LOG_EVENT_TYPES`, `print`, `SHOW_TIMING_MATH`; main.py:45-51, main.py:130-131): no effect on control flow.
- Session setup (`initialize_session`, `send_initial_conversation_item`; main.py:204-238): constant messages, including a floating-point temperature. The engine log starts after them.
- Configuration: API-key and port loading, the prompt and the knowledge-base text (main.py:12-43, main.py:55-56).
- Base64.Decode: Python's lenient decoder skips characters outside the alphabet, accepts data after padding, and skips pad characters before a group's second digit (`====` decodes to no bytes). This model rejects all three, so on such a delta the modelled relay stops where the real one goes on. The engine sends canonical base 64, so the difference does not arise in practice. Ignored padding bits are modelled.
- A send on an engine socket that has already closed would raise inside the outbound relay. `SendToTwilio` handles nothing on a closed socket, and the interleaving driver runs engine events only while the socket is open. The single-step handlers do not check the socket, so they do not model this. Messages still in flight when the engine socket closes are not modelled either.
- MediaStream.Session.HandleMediaStream: states the invariant, the growth of the telephony log, a bound on pending marks and the effect of a disconnect or an engine close. It does not state the exact final state of an interleaving; the single-step contracts of OnTwilioEvent and OnEngineEvent give that step by step.
