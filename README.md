# Twilio media-stream input handler, modelled in Dafny

This project models `TwilioInputHandler`, the input side of a voice agent.
The handler reads a Twilio media stream from a websocket. It forwards the
caller's audio to the transcriber queue and fills timestamp gaps with
mu-law silence. It also tracks the stream identifiers and acknowledges
"mark" messages for audio sent earlier. When the stream stops or a message
fails, it ends the transcriber's input with a single end-of-stream packet.

Files and modules:

- `wrappers.dfy` (`Wrappers`): `Option`, standing for Python's `None`.
- `silence_gap.dfy` (`SilenceGap`): the gap rule. A frame lasts 20 ms, the audio is 8 bytes per ms, and silence is byte 0xFF.
- `twilio_messages.dfy` (`TwilioMessages`): the parsed websocket messages (`Event`), the work units (`WorkUnit`, `MetaInfo`), the end-of-stream `Sentinel` and the `byte` type of payloads.
- `twilio_session.dfy` (`TwilioSession`): the handler's fields as a value (`Session`), one loop turn (`Transition`) and the loop over a sequence of messages (`Run`).
- `twilio_properties.dfy` (`TwilioProperties`): the effect of each message kind, and the properties of whole runs.
- `twilio_handler.dfy` (`TwilioHandler`): the class `TwilioInputHandler`. Its fields are updated in place, and every method is specified by `Transition` or `Run`.
- `twilio_scenarios.dfy` (`TwilioScenarios`): concrete sessions.

Modelling choices:

- The websocket is a finite `seq<Event>`. When the messages run out before a terminal one, the loop is still waiting in `receive_text`, and no sentinel has been sent.
- A failing `receive_text`, bad JSON, a missing key, a bad base64 payload and a non-integer timestamp all raise inside the loop's `try`. They are all one event, `Malformed`.
- `mark_set` defaults to `None`. Then `name in mark_set` raises and the loop ends, so `markSet` is an `Option`.
- `input_types['audio']` is read for every inbound frame, before any silence is produced. When the entry or the dictionary is missing, the lookup raises and the loop ends. The label's value is opaque here and is modelled as an `int`.
- `transcriberQueue` holds only the packets this handler puts on the shared queue.
- A terminal message (`TwilioSession.Terminal`) is one that ends the loop. It is `stop`, a malformed message, an inbound frame when `input_types` has no `'audio'` entry (line 74), or a mark when there is no mark set (line 36).
- The helpers mirror named parts of the source. `SilenceGap.HasGap` is the test at line 77. `TwilioSession.MediaMeta` is the `meta_info` dictionary at lines 70-75. `TwilioSession.Initial` is the state set up by `__init__` at lines 20-25.

The model follows the code as written, including these behaviours:

- `last_media_received` starts at 0 and is set to every inbound frame's stamp with no ordering guard. A first frame stamped after 20 ms therefore gets silence (`LateFirstFrame`). A frame stamped earlier than the last one moves the stamp back (`TimestampMovesBack`).
- A second `start` message overwrites both identifiers.
- Payload and timestamp are decoded before the track is checked. So a malformed outbound frame also ends the stream.

## Model

| member | source | states |
|---|---|---|
| SilenceGap.SilenceBytes | agents/input_handlers/twilio.py:77-78 | silence is inserted exactly when the frame starts after the previous frame's 20 ms ended; its length is a whole number of milliseconds at 8 bytes/ms, ending exactly at the new stamp |
| SilenceGap.Silence | agents/input_handlers/twilio.py:80 | `n` bytes, every one 0xFF |
| TwilioSession.Transition | agents/input_handlers/twilio.py:58-105 | one loop turn stops exactly on a terminal message; stopping appends only the sentinel and changes nothing else; otherwise the queue only grows, by at most two audio packets; the mark set only shrinks; only `start` changes the identifiers |
| TwilioSession.Run | agents/input_handlers/twilio.py:55-105 | over any message sequence, the queue only grows and the mark set only shrinks |
| TwilioProperties.InboundFrameWithGap | agents/input_handlers/twilio.py:70-83 | an inbound frame after a gap enqueues exactly [silence of 8*(ts-(last+20)) > 0 bytes, payload], both with metadata io 'twilio', the current sids and the audio label, and sets the stamp to ts |
| TwilioProperties.InboundFrameWithoutGap | agents/input_handlers/twilio.py:77-83 | an inbound frame with ts <= last+20 enqueues only its payload and sets the stamp to ts |
| TwilioProperties.InboundFrameWithoutAudioLabel | agents/input_handlers/twilio.py:70-105 | with no `input_types['audio']`, an inbound frame ends the loop with only the sentinel |
| TwilioProperties.OtherTrackIgnored | agents/input_handlers/twilio.py:69-85 | a well-formed frame of another track changes no field and enqueues nothing |
| TwilioProperties.StartRecordsIdentifiers | agents/input_handlers/twilio.py:27-30 | `start` sets both sids and enqueues nothing |
| TwilioProperties.PendingMarkRemoved | agents/input_handlers/twilio.py:34-38 | a pending mark name is removed, and no other name |
| TwilioProperties.UnknownMarkIgnored | agents/input_handlers/twilio.py:34-38 | a mark name that is not pending changes nothing |
| TwilioProperties.MarkWithoutMarkSet | agents/input_handlers/twilio.py:36 | a mark with no mark set ends the loop with the sentinel |
| TwilioProperties.StopOrErrorEndsStream | agents/input_handlers/twilio.py:90-105 | `stop` and a failing message append one sentinel, change nothing else and end the loop |
| TwilioProperties.UnknownKindIgnored | agents/input_handlers/twilio.py:62-94 | an unmatched `event` value changes nothing and does not end the loop |
| TwilioProperties.RunSentinels | agents/input_handlers/twilio.py:90-105 | a run produces exactly one sentinel if it ended and none otherwise; when there is one, it is the last packet produced |
| TwilioProperties.RunEndsIffTerminal | agents/input_handlers/twilio.py:57-105 | the loop ends if and only if some message is terminal |
| TwilioProperties.RunIgnoresAfterTerminal | agents/input_handlers/twilio.py:94-105 | messages after a terminal one have no effect |
| TwilioProperties.RunAppend | agents/input_handlers/twilio.py:57-105 | a loop still running continues from its current state on further messages |
| TwilioProperties.RunLastMedia | agents/input_handlers/twilio.py:82 | while running, the stamp equals that of the latest inbound frame, or is unchanged if there was none |
| TwilioProperties.RunWithinCadence | agents/input_handlers/twilio.py:77-83 | frames each within 20 ms of the previous one are forwarded as they are, in order, with no silence |
| TwilioProperties.RunGapped | agents/input_handlers/twilio.py:77-83 | frames that each start after the previous one ended each get one silence packet of 8 bytes per missing ms just before them, 2 packets per frame |
| TwilioHandler.TwilioInputHandler.constructor | agents/input_handlers/twilio.py:18-25 | no sids, stamp 0, the given mark set and an empty output |
| TwilioHandler.TwilioInputHandler.CallStart | agents/input_handlers/twilio.py:27-30 | sets both sids and nothing else |
| TwilioHandler.TwilioInputHandler.ProcessMarkMessage | agents/input_handlers/twilio.py:34-38 | removes a pending name; raises exactly when there is no mark set; otherwise changes nothing |
| TwilioHandler.TwilioInputHandler.IngestAudio | agents/input_handlers/twilio.py:51-53 | appends one audio packet and changes nothing else |
| TwilioHandler.TwilioInputHandler.EnqueueSentinel | agents/input_handlers/twilio.py:92-93 | appends the end-of-stream packet and changes nothing else |
| TwilioHandler.TwilioInputHandler.Step | agents/input_handlers/twilio.py:58-105 | the new fields and the stop flag are those `Transition` gives |
| TwilioHandler.TwilioInputHandler.Listen | agents/input_handlers/twilio.py:55-105 | the new fields and the ended flag are those `Run` gives |
| TwilioScenarios.GapBetweenTwoFrames | agents/input_handlers/twilio.py:77-83 | start, frame at 0 ms, frame at 40 ms gives [A, 160 bytes of silence, B], stamp 40 |
| TwilioScenarios.LateFirstFrame | agents/input_handlers/twilio.py:25-83 | a first frame at 100 ms is preceded by 640 bytes of silence |
| TwilioScenarios.TimestampMovesBack | agents/input_handlers/twilio.py:82 | a frame at 50 ms after one at 100 ms sets the stamp to 50 |
| TwilioScenarios.OutboundFrameOnly | agents/input_handlers/twilio.py:69-85 | start then an outbound frame enqueues nothing, the stamp stays 0 and the loop continues |
| TwilioScenarios.StartThenEnd | agents/input_handlers/twilio.py:90-105 | start then stop or a malformed message gives exactly [sentinel], and later messages are never read |
| TwilioScenarios.HandlerGapBetweenTwoFrames | agents/input_handlers/twilio.py:55-83 | the handler object, fed the two-frame session, holds [A, 160 bytes of silence, B] |

## Left out

- The Twilio REST client, `load_dotenv` and the credentials read from the environment (lines 5-14): global setup for a foreign service.
- Logging: it has no effect on behaviour.
- `stop_handler` (lines 40-49): it sleeps 5 seconds and closes the websocket, which is timing and I/O. Its one field update, `running = False`, is never read by `_listen`, so it is not modelled.
- `handle` and `asyncio.create_task` (lines 107-108), and the suspension in `await receive_text()`: concurrency and transport. Incoming messages are a finite sequence.
- Concurrent additions to the shared `mark_set` by the output side: the set is treated as owned by this handler.
- JSON parsing and base64 decoding (lines 61, 66-67): every failure is the `Malformed` event, and values are taken as already decoded. Identifiers and mark names are strings; other JSON values are not modelled.
- A `start` message with a `callSid` but no `streamSid`: the source sets `call_sid` before the missing key raises. The model treats the message as `Malformed` and leaves `callSid` unchanged.
- `create_ws_data_packet` and the `DefaultInputHandler` base class are not part of this model. A packet is the record `WorkUnit(data, meta)`, and `input_types` is assumed to be stored by the base class unchanged.
- A missing `'transcriber'` queue, or a bounded queue whose `put_nowait` raises: the queue is assumed to be present and unbounded.
- The unused fields `buffer` and `message_count` (lines 22-23).
