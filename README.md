# Companion chat: PCM codec, voice-call controller and text chat, in Dafny

This project models the core of a companion-chat web app that has two modes:

- **Audio codec** (`utils/audio.ts`). Microphone frames are 32-bit float samples in [-1, 1]. They are clamped and scaled to 16-bit PCM, with 32768 steps below zero and 32767 above. The samples are viewed as little-endian bytes, turned into a binary string and base64-encoded into a `Blob` of type `audio/pcm;rate=16000`. Downlink audio goes the other way: base64 to bytes, bytes to an `Int16Array`, and each sample divided by 32768 into a mono buffer at 24000 Hz.
- **Voice call** (`components/LiveMode.tsx`). The call controller owns the status, two audio contexts, the microphone stream, a frame processor, the set of playing sources and a playback cursor (`nextStartTimeRef`). Downlink segments are scheduled back to back on the cursor. An interruption stops everything and resets the cursor. `cleanup` tears the call down.
- **Text chat** (`components/ChatMode.tsx`). The view holds a transcript, an input box and a loading flag. A send appends the user's message and then a reply placeholder, and each streamed chunk rewrites the placeholder to the text accumulated so far. If the service fails, an error message is appended.

Layout:

- `wrappers.dfy` holds `Option`, `Result` and the two JavaScript exceptions the codec can raise.
- `base64.dfy` holds `btoa`/`atob`, modelled as the padded base64 of section 4 of RFC 4648 over binary strings.
- `audio.dfy` holds the codec.
- `live_mode.dfy` holds the `LiveSession` class, a pure model of the playback schedule, and concrete call scenarios.
- `chat_mode.dfy` holds the `ChatView` class and the pure transcript functions.

Samples are `real`. Both scale factors, and the divisor 32768, give results that are exact in double precision, so the only rounding in the encoder is the truncation toward zero that an `Int16Array` store performs. That store's ECMAScript ToInt16 conversion (modulo 2^16) is written out as well. Reference-holding fields of the controller (`AudioContext`, `MediaStream`, the session promise, the processor) are modelled as booleans that say whether the reference is set. Device time (`ctx.currentTime`) is a parameter. Whether the microphone was granted, whether `session.close()` throws, and the chat service's reply (`Reply`) are parameters as well. Message ids, which the source takes from `Date.now()`, are parameters too.

Behaviour of the code worth knowing:

- `onerror` ends the call with status idle, not error.
- A failed `startSession` keeps the contexts it created.
- An interruption resets the cursor to 0, not to the device time.
- The encoder's round-trip error for positive samples can exceed one step of 1/32768. The bound that holds is two steps (`Audio.PositiveErrorExceedsOneStep`, `Audio.PcmRoundTrip`).

## Model

| member | source | states |
|---|---|---|
| Audio.ToInt16 | utils/audio.ts:8 | the store into an Int16Array leaves an in-range truncated value unchanged, and otherwise differs from the truncated value by a multiple of 65536 |
| Audio.EncodeSample | utils/audio.ts:7-8 | a sample at or above 1 becomes 32767 and one at or below -1 becomes -32768; 0 stays 0; the sign is kept; the result is a 16-bit integer |
| Audio.ScaledInRange | utils/audio.ts:7-8 | after clamping, the scaled value already lies in the int16 range, so the store's wrap-around never changes it |
| Audio.EncodeMonotone | utils/audio.ts:7-8 | the encoder is monotone: a larger input never gives a smaller sample |
| Audio.Float32ToInt16 | utils/audio.ts:4-11 | returns a newly allocated array of the same length whose every element is the encoding of the corresponding input sample |
| Audio.DecodeSample | utils/audio.ts:22 | every decoded sample lies in [-1, 1); it equals -1 exactly for -32768; it is negative exactly for negative input |
| Audio.Int16ToAudioBuffer | utils/audio.ts:14-25 | a mono buffer at the requested rate, with one decoded sample per input sample, in order |
| Audio.AudioBuffer.Duration | utils/audio.ts:19 | the buffer's duration is non-negative, and duration times rate equals the number of frames |
| Audio.QuantisationError | utils/audio.ts:7-22 | for a negative clamped sample the decoded value is at or above it and less than one step (1/32768) above; for a non-negative one it is at or below it and less than two steps below; it is -1 exactly when the input is at or below -1 |
| Audio.PositiveErrorExceedsOneStep | utils/audio.ts:8 | for some positive input the error is more than one step (32766.5/32767 decodes to 32766/32768) |
| Audio.Int16ToBytes | utils/audio.ts:52 | the byte view of a sample sequence holds two bytes per sample |
| Audio.Int16BytesRoundTrip | utils/audio.ts:52 | reading the little-endian bytes of a sample sequence back as int16 gives the same samples |
| Audio.BytesInt16RoundTrip | utils/audio.ts:63 | viewing an even-length byte sequence as int16 and writing it back gives the same bytes |
| Audio.BytesToInt16 | utils/audio.ts:63 | an odd byte count raises RangeError and nothing else fails; otherwise there is one sample per two bytes |
| Audio.Base64Encode | utils/audio.ts:28-35 | the binary string of the bytes is accepted by btoa, and the result is the base64 encoding of the bytes |
| Audio.Base64Decode | utils/audio.ts:38-46 | succeeds exactly when atob accepts the input, and fails only with InvalidCharacterError; the array holds the decoded bytes, one per character of atob's string |
| Audio.CreatePcmBlob | utils/audio.ts:49-55 | the blob's type is `audio/pcm;rate=16000`; its data decodes to the little-endian bytes of the encoded samples; its length is four characters per three bytes, rounded up |
| Audio.DecodeAudioData | utils/audio.ts:57-65 | succeeds exactly when the payload is valid base64 of an even number of bytes; valid base64 of an odd count fails with RangeError; the buffer is at the requested rate with half as many samples as bytes, all in [-1, 1) |
| Audio.DecodeEncodedSamples | utils/audio.ts:52-64 | a payload produced by the encoding path decodes to exactly the transmitted samples, each divided by 32768 |
| Audio.PcmRoundTrip | utils/audio.ts:49-65 | float frames sent through the blob and decoded again keep their count; each sample lies within two steps below to one step above its clamped input, and is -1 exactly when the input is at or below -1 |
| Base64.EncodeBase64 | utils/audio.ts:34 | every encoding has a length that is a multiple of four |
| Base64.EncodedLength | utils/audio.ts:34 | an encoding has four characters per three bytes, rounded up |
| Base64.DecodeBase64 | utils/audio.ts:39 | input whose length is not a multiple of four is rejected with InvalidCharacterError, the only error there is |
| Base64.Base64RoundTrip | utils/audio.ts:28-46 | decoding the encoding of any byte sequence gives that sequence back |
| Base64.CharSextetInverse | utils/audio.ts:28-46 | the alphabet maps each 6-bit value to a character that maps back to it |
| Base64.BinaryString | utils/audio.ts:29-33 | one character per byte, with code equal to the byte; the string is binary |
| Base64.Btoa | utils/audio.ts:34 | succeeds exactly on binary strings, and what it produces is decoded by atob back to the same string |
| Base64.Atob | utils/audio.ts:39-45 | succeeds exactly on valid base64; the result is a binary string whose character codes are the decoded bytes |
| LiveMode.LiveSession.constructor | components/LiveMode.tsx:8-21 | a fresh controller is idle, released, not speaking, with the microphone on and the cursor at 0 |
| LiveMode.LiveSession.StartSession | components/LiveMode.tsx:24-76 | both contexts and the output node are created, and the frame handler's mute flag is fixed at the current value; if the microphone is granted, the status is connecting and the stream and session are held; if it is refused, the status is error and the stream and session are left as they were |
| LiveMode.LiveSession.OnOpen | components/LiveMode.tsx:49-54 | connected, and a processor wired exactly when there is an input context and stream |
| LiveMode.LiveSession.SetupAudioInput | components/LiveMode.tsx:78-98 | a processor is installed exactly when both the input context and the stream are there, closing over the starting mute flag |
| LiveMode.LiveSession.OnAudioProcessAsWritten | components/LiveMode.tsx:84-93 | a frame is sent as its PCM blob exactly when the mute flag captured at session start was on |
| LiveMode.LiveSession.OnAudioProcess | components/LiveMode.tsx:84-93 | a frame is sent as its PCM blob exactly when the microphone is currently on |
| LiveMode.LiveSession.ToggleMic | components/LiveMode.tsx:192-194 | flips the microphone flag and touches nothing else |
| LiveMode.LiveSession.HandleServerMessageAsWritten | components/LiveMode.tsx:100-141 | from any consistently scheduled state, a source starts exactly when the message is playable and its payload decodes; it starts at max(cursor, device time) with the decoded length, a fresh id and no overlap with the turn's last segment, and without an interruption it is added and the cursor moves to its end. A playable message whose payload does not decode leaves the session speaking, with the sources, turn and stopped set unchanged and the cursor moved to max(cursor, device time), and skips the interruption. A message that is not playable and not interrupting changes nothing; an interruption otherwise stops and forgets every source and resets the cursor. Scheduling stays consistent in every case, and speaking-iff-a-source-plays is kept unless the payload was malformed |
| LiveMode.LiveSession.StartSource | components/LiveMode.tsx:114-127 | a source with a fresh id starts at the cursor, is added to the playing set and appended to the turn, and the cursor moves to its end |
| LiveMode.LiveSession.PlayAt | components/LiveMode.tsx:107-127 | a fresh source starts at max(cursor, device time), no earlier than the end of the turn's last segment; the session is speaking and the cursor sits at the new segment's end |
| LiveMode.LiveSession.HandleServerMessage | components/LiveMode.tsx:100-141 | a source starts exactly when the message is playable and its payload decodes. It starts at max(cursor, device time), never before the device time, and exactly at the cursor while the clock has not passed it. Its length is the decoded duration and it overlaps no earlier segment. Without an interruption, the source is added, the session is speaking and the cursor ends at the segment's end; a message that starts nothing changes nothing. An interruption stops and forgets every source and resets the cursor to 0 |
| LiveMode.LiveSession.FlushPlayback | components/LiveMode.tsx:132-140 | every source is stopped and forgotten, the session is silent and the cursor is at 0 |
| LiveMode.LiveSession.OnSourceEnded | components/LiveMode.tsx:118-123 | only the ended source is forgotten; with none left the session is silent, otherwise the speaking flag is kept, so from a state where speaking meant a source was playing it still does |
| LiveMode.LiveSession.CleanupAsWritten | components/LiveMode.tsx:143-165 | from any consistently scheduled state, including the one a malformed payload leaves, the call is disconnected, idle and silent; every source is stopped and forgotten; contexts, stream and processor are released; the cursor is kept; a second call changes nothing |
| LiveMode.LiveSession.Cleanup | components/LiveMode.tsx:143-165 | the same teardown with the cursor rewound to 0; a second call changes nothing |
| LiveMode.LiveSession.OnCloseAsWritten | components/LiveMode.tsx:58-61 | the teardown of cleanup: released and idle, every source stopped, the cursor and turn kept |
| LiveMode.LiveSession.OnClose | components/LiveMode.tsx:58-61 | the rewinding teardown: released and idle, every source stopped, the cursor at 0 |
| LiveMode.LiveSession.OnErrorAsWritten | components/LiveMode.tsx:62-66 | the teardown of cleanup with the cursor kept, and the status ends idle: the error is not shown |
| LiveMode.LiveSession.OnError | components/LiveMode.tsx:62-66 | the rewinding teardown, and the status ends as error |
| LiveMode.LiveSession.HandleEndCallAsWritten | components/LiveMode.tsx:167-189 | the session is closed gracefully exactly when there is one and closing does not throw; the teardown of cleanup happens in every case and keeps the cursor |
| LiveMode.LiveSession.HandleEndCall | components/LiveMode.tsx:167-189 | the same close, followed by the rewinding teardown, so the cursor ends at 0 |
| LiveMode.StartTimes | components/LiveMode.tsx:111-126 | one start time per arriving segment |
| LiveMode.StartTimesNeverOverlap | components/LiveMode.tsx:111-126 | in an uninterrupted run, no segment starts before its arrival or before the cursor, and each starts no earlier than the previous one ends |
| LiveMode.StartTimesGapless | components/LiveMode.tsx:111-126 | while each segment arrives no later than the cursor at that point (the initial cursor plus the lengths of the segments before it), each starts exactly there, so playback is gapless |
| LiveMode.OneSecondMessagePlays | components/LiveMode.tsx:104-113 | 24000 silent samples at the output rate decode to exactly one second |
| LiveMode.OddPayloadFails | utils/audio.ts:57-65 | the payload "AA==" (one byte) fails to decode with RangeError |
| LiveMode.MuteIgnoredAsWritten | components/LiveMode.tsx:84-93 | after start, open and a mute toggle, the frame handler as written still sends the frame |
| LiveMode.MuteHonoured | components/LiveMode.tsx:84-93 | reading the current flag, the same sequence sends nothing |
| LiveMode.MalformedPayloadAsWritten | components/LiveMode.tsx:106-113 | a malformed payload leaves the call speaking with no source playing |
| LiveMode.MalformedPayloadDropped | components/LiveMode.tsx:106-113 | decoding first, the same payload leaves the call silent |
| LiveMode.MalformedThenSegmentEnds | components/LiveMode.tsx:118-123 | as written, the stuck speaking flag left by a malformed payload is cleared once a later segment plays to its end |
| LiveMode.MalformedThenClose | components/LiveMode.tsx:58-61 | as written, the stuck speaking flag left by a malformed payload is cleared when the connection closes |
| LiveMode.StaleCursorAsWritten | components/LiveMode.tsx:143-165 | after a call that played one second through the handler as written and whose connection closed through onclose as written, the next call, with the handler as written, schedules its first segment at 1.0 on a clock that is back at 0 |
| LiveMode.FreshCallStartsOnArrival | components/LiveMode.tsx:143-165 | with onclose using the rewinding teardown, the same segment starts at 0 |
| ChatMode.TrimStart | components/ChatMode.tsx:41 | removes exactly the leading white space: the result is a suffix that does not start with white space |
| ChatMode.TrimEnd | components/ChatMode.tsx:41 | removes exactly the trailing white space: the result is a prefix that does not end with white space |
| ChatMode.Trim | components/ChatMode.tsx:41 | the result is the slice of the input between leading and trailing white space, and neither starts nor ends with white space |
| ChatMode.TrimEmptyIffBlank | components/ChatMode.tsx:41 | trimming leaves nothing exactly when every character is white space |
| ChatMode.ConcatEmptyIff | components/ChatMode.tsx:65-75 | the accumulated reply is empty exactly when no chunk carried text |
| ChatMode.ReplaceText | components/ChatMode.tsx:69-73 | ids, roles and length are kept; messages with another id are untouched; messages with the id carry the new text |
| ChatMode.ReplaceTextTwice | components/ChatMode.tsx:69-73 | a second rewrite of the same id overrides the first |
| ChatMode.ChunkStep | components/ChatMode.tsx:65-75 | a chunk without text leaves the transcript alone; a chunk with text rewrites the reply to the text accumulated so far plus the chunk |
| ChatMode.TranscriptShape | components/ChatMode.tsx:40-85 | with a fresh reply id, an accepted send keeps every earlier message and appends the user's untrimmed input. If the send is rejected, the error message follows. Otherwise the reply follows, holding every chunk's text in order, and then the error message if the stream failed |
| ChatMode.ChatView.constructor | components/ChatMode.tsx:13-22 | the transcript is the greeting, the input is empty, nothing is loading and there is no chat session yet |
| ChatMode.ChatView.CreateChatSession | components/ChatMode.tsx:25-34 | the chat session exists |
| ChatMode.ChatView.SetInputText | components/ChatMode.tsx:128 | the input holds the typed text |
| ChatMode.ChatView.CanSend | components/ChatMode.tsx:41 | the send guard passes exactly when the input has a character that is not white space, a chat session exists and nothing is loading |
| ChatMode.ChatView.BeginSend | components/ChatMode.tsx:41-51 | with non-blank input, a session and nothing loading, the user's message is appended with the untrimmed input, the input is cleared and loading starts; otherwise nothing changes |
| ChatMode.ChatView.FinishSend | components/ChatMode.tsx:53-84 | the transcript becomes the continuation of the reply: an error message on rejection, or else the placeholder rewritten chunk by chunk, followed by the error message on failure; loading ends |
| ChatMode.ChatView.HandleSendMessage | components/ChatMode.tsx:40-85 | an accepted send produces the full transcript of the reply, with the input cleared and loading over; a refused one changes nothing |
| ChatMode.ChatView.HandleKeyPress | components/ChatMode.tsx:87-92 | the default action is prevented exactly for Enter without Shift, which then sends; any other key changes nothing |
| ChatMode.SecondSendWhileLoading | components/ChatMode.tsx:41-51 | while a reply is loading, a second send is refused |

## Left out

- `btoa`/`atob` are modelled as strict, padded RFC 4648 base64. `atob`'s forgiving decode also strips ASCII white space and accepts unpadded input, and that is not modelled: such input counts as malformed here.
- Float32 rounding of microphone samples, NaN and infinities are not modelled. Samples are exact reals, and a NaN frame would encode as 0.
- `createBuffer` rejects a zero-length buffer, and a sample rate outside the range the browser supports. Neither check is modelled: an empty payload is already filtered out by the caller's truthiness test, and the rate is always 24000.
- The byte order of typed-array views is taken to be little-endian, as on every platform the app targets.
- The model does not cover asynchronous interleaving. The `await` points in `startSession`, `handleServerMessage`, `handleSendMessage` and `handleEndCall` each run to completion here. Two downlink messages whose decodes overlap in time are not modelled, and neither is a send racing a second Enter press before React re-renders.
- React state updates are applied at once. The model has no batching, no stale render of `isLoading`, and no rendering.
- The network and device APIs (`GoogleGenAI`, `getUserMedia`, `AudioContext` nodes, `sendRealtimeInput`) are not modelled. Their outcomes are parameters, and the frame handler returns the blob it would send.
- The stream-ending `result` iterator is given as a finite list of chunks.
- Console logging, scrolling to the newest message, and the JSX of both views are not modelled.
- `App.tsx` and `utils/constants.ts` are not part of this model.
- The `turn` and `stopped` fields of `LiveSession` are ghost bookkeeping: they record the scheduled segments and the stopped sources, and the source has no such fields.
- The exception thrown by a malformed payload is modelled as the rest of `handleServerMessage` not running; nothing catches it.

## Findings

| source | as written | input that shows it | evidently intended | confidence | as-written member | corrected member |
|---|---|---|---|---|---|---|
| components/LiveMode.tsx:85 | the frame handler reads the `micActive` captured by the render that started the session, so `toggleMic` never mutes the microphone | start a call, let it open, press the mute button, deliver a frame: it is still sent | a frame is sent only while the microphone is on | high, not executed | LiveMode.MuteIgnoredAsWritten | LiveMode.MuteHonoured |
| components/LiveMode.tsx:107-113 | `isSpeaking` and the cursor are set before the payload is decoded; a payload that fails to decode throws out of the handler | from a silent call, a message whose audio is "AA==" leaves `isSpeaking` true with no source playing, and it stays true until another segment plays to its end, an interruption arrives or the call is torn down; an interruption carried by the same message is skipped as well | a malformed payload is dropped without changing the playback state | high, not executed | LiveMode.MalformedPayloadAsWritten | LiveMode.MalformedPayloadDropped |
| components/LiveMode.tsx:143-165 | `cleanup` does not reset `nextStartTimeRef`, but the next call creates a new output context whose clock starts again at 0; `onclose`, `onerror` and `handleEndCall` all tear down through it (OnCloseAsWritten, OnErrorAsWritten, HandleEndCallAsWritten) | play one second, end the call, start a new one: its first segment is scheduled at 1.0 on a clock at 0, so it starts a second late | each call's first segment starts on arrival | medium, not executed | LiveMode.StaleCursorAsWritten | LiveMode.FreshCallStartsOnArrival |
| components/LiveMode.tsx:62-66 | `onerror` sets the status to error and then calls `cleanup`, which sets it to idle | any connection error: the status ends idle and the error is never shown | a failed connection ends with status error | high, not executed | LiveMode.LiveSession.OnErrorAsWritten | LiveMode.LiveSession.OnError |
