# Voice-activity segmentation of the realtime transcriber client

This project is a Dafny model of the per-frame audio pipeline in the browser
client of a realtime speech transcriber (`client/src/main.js`). The client
captures microphone frames and classifies each one as speech or silence by RMS
energy. It keeps a bounded buffer of recent frames and runs a small
hangover state machine. It sends quantized 16-bit audio frames and an
`{"eof":1}` end-of-segment marker over a WebSocket to a recognition server.

The model is functional. Frames are `seq<real>`, and the state is a record of
`vadState`, `hangover` and `frameBuffer`. One handler call is a pure
`Step(cfg, state, frame)` that returns the next state and the list of socket
actions (`Audio(frame)` or `Eof`). `Run` folds `Step` over a frame stream.

| file | module | what it models |
|---|---|---|
| `quantizer.dfy` | `Quantizer` | `floatTo16BitPCM`: clamp, asymmetric scale, `Int16Array` store (truncate, wrap) |
| `classifier.dfy` | `Classifier` | `isSpeech`: RMS energy against `VAD_THRESHOLD` |
| `frame_buffer.dfy` | `FrameBuffer` | `frameBuffer.push` + `shift` bounded to `FRAME_BUFFER_SIZE` |
| `wire.dfy` | `Wire` | bytes of an audio message (`.buffer`) and the `eof` text message |
| `segmenter.dfy` | `Segmenter` | the `onaudioprocess` body as `Step`, the `isRecording` guard, `Run` over streams |
| `segmenter_properties.dfy` | `SegmenterProperties` | per-case step behaviour and whole-stream invariants |
| `segmenter_scenarios.dfy` | `SegmenterScenarios` | two worked frame streams |

`Segmenter.Default` holds the client's constants: threshold 0.015, hangover 3
frames, buffer of 20 frames. The properties in `SegmenterProperties` are stated
for any configuration. The worked streams in `SegmenterScenarios` fix the
hangover and the buffer capacity they need.

### Where the code differs from its stated intent

The model follows the code. The code's own comments call the buffer a buffer
of "pre-speech frames" (main.js:7, main.js:17). They say the flush sends the
buffered frames when speech starts (main.js:117), and that the hangover sends
extra frames after speech ends (main.js:6). Where the comments and the code
disagree, the code is modelled:

- Every processed frame is pushed into `frameBuffer` before the decision, in
  every state (main.js:112-113). The buffer is therefore not only a pre-speech
  buffer. It also fills with the frames of a segment, and the next onset flushes
  them again (`SegmenterScenarios.HangoverFramesResent`).
- The onset frame is sent twice. The flushed buffer already ends with it, and
  then it is sent again (main.js:119-125, `SegmenterProperties.OnsetFrameSentTwice`).
- The silent frame that triggers `eof` is not sent, but it is not dropped
  either. It stays in the buffer (`SegmenterProperties.StepClose`).
- Because the push happens before the flush, a full buffer evicts its oldest
  frame in favour of the onset frame. With capacity 2, the stream
  silence, silence, speech flushes the second silent frame and the speech frame,
  not the two silent frames (`SegmenterScenarios.ShortSegment`).
- Quantization truncates toward zero. It does not round to the nearest value.
- The code has no `InvalidFrame` check on frame length. An empty frame is
  silence, because the client computes 0/0, which is NaN, and NaN compares false.

## Model

| member | source | states |
|---|---|---|
| Quantizer.Clamp | client/src/main.js:44 | the clamped sample lies in [-1, 1], equals the input inside that range, and saturates to -1 or 1 outside it |
| Quantizer.TruncateTowardZero | client/src/main.js:45 | the stored integer is the input with its fractional part dropped, on both sides of zero |
| Quantizer.WrapInt16 | client/src/main.js:42-45 | an `Int16Array` store lands in [-32768, 32767], is congruent to its argument modulo 2^16, and leaves 16-bit values unchanged |
| Quantizer.QuantizeSample | client/src/main.js:44-45 | every quantized sample is a 16-bit value, and thanks to the clamp the store never wraps |
| Quantizer.Pcm16 | client/src/main.js:41-48 | the output has one 16-bit value per input sample |
| Quantizer.FloatTo16BitPCM | client/src/main.js:41-48 | the loop writes, at every index, the quantization of the input sample at that index |
| Quantizer.QuantizeEndpoints | client/src/main.js:44-45 | -1 maps to -32768 and +1 maps to 32767, with no overflow |
| Quantizer.QuantizeSaturates | client/src/main.js:44 | inputs below -1 or above +1 give the same code as -1 or +1 |
| Quantizer.QuantizeSign | client/src/main.js:45 | negative samples give codes <= 0, non-negative samples give codes >= 0, and 0 gives 0 |
| Quantizer.QuantizeMonotone | client/src/main.js:44-45 | quantization preserves the order of samples |
| Quantizer.DequantizeRoundTrip | client/src/main.js:45 | every 16-bit code is reproduced exactly from the sample value it stands for |
| Quantizer.QuantizeErrorBound | client/src/main.js:44-45 | for samples in [-1, 1], the reconstructed value is within one quantization step of the sample, and never larger in magnitude |
| Classifier.SumSquares | client/src/main.js:30-33 | the energy accumulated by the loop is never negative |
| Classifier.IsSpeechMatchesRms | client/src/main.js:29-36 | for any square root `rms` of the mean square, the frame is speech exactly when `rms > threshold`; RMS equal to the threshold is silence |
| Classifier.SumSquaresBounded | client/src/main.js:30-33 | if no sample squares above a limit, the energy is at most length times that limit |
| Classifier.QuietFrameIsSilence | client/src/main.js:29-35 | a frame whose samples all lie within plus or minus the threshold is silence |
| FrameBuffer.Push | client/src/main.js:112-113 | a push into a buffer within capacity keeps it within capacity, and leaves exactly the most recent `capacity` frames, oldest first |
| FrameBuffer.PushIsSuffix | client/src/main.js:112-113 | after a push the buffer is a suffix of the old buffer plus the new frame, and it ends with the new frame unless capacity is 0 |
| FrameBuffer.PushAll | client/src/main.js:112-113 | after any number of pushes the buffer holds the most recent `capacity` frames in arrival order |
| FrameBuffer.PushAllAppend | client/src/main.js:112-113 | pushing two lists one after the other is the same as pushing their concatenation |
| FrameBuffer.RecentOfRecent | client/src/main.js:113 | evicting the oldest frames early does not change which frames are the most recent ones |
| Wire.DecodePcm | client/src/main.js:120 | a byte buffer decodes exactly when its length is even, into half as many samples |
| Wire.SampleRoundTrip | client/src/main.js:120 | the two little-endian bytes of a 16-bit sample decode back to that sample |
| Wire.PcmRoundTrip | client/src/main.js:120 | decoding the bytes of an audio message returns the quantized samples |
| Wire.PcmDecodeEncode | client/src/main.js:120 | every decodable buffer is the encoding of what it decodes to, so the encoding is a bijection |
| Wire.AudioMessage | client/src/main.js:120 | an audio message is binary, two bytes per sample, and decodes to the quantized frame |
| Segmenter.Step | client/src/main.js:108-135 | the step preserves the reachable-state invariant, and its buffer is empty or the pushed buffer; speech always ends with that frame sent, hangover reset and the segment open; the segment is open afterwards exactly when the frame is speech or the hangover was not zero; exactly one `eof` is sent when a segment closes, and none otherwise |
| Segmenter.OnAudioProcess | client/src/main.js:106-107 | while not recording, a frame changes nothing and sends nothing |
| Segmenter.Run | client/src/main.js:106-136 | over any stream, the reachable-state invariant is kept: hangover within [0, HANGOVER_FRAMES], 0 outside a segment, buffer within capacity |
| Segmenter.Send | client/src/main.js:120-133 | audio actions become binary messages that decode to the quantized frame, and `Eof` becomes the text `{"eof":1}` |
| SegmenterProperties.StepOnset | client/src/main.js:112-126 | speech outside a segment sends the most recent frames, oldest first and ending with the current one, then the current frame again; it empties the buffer, opens the segment and sets hangover to HANGOVER_FRAMES |
| SegmenterProperties.OnsetFrameSentTwice | client/src/main.js:119-125 | with a non-zero capacity, the last two actions of an onset both send the onset frame |
| SegmenterProperties.StepActiveSpeech | client/src/main.js:112-126 | speech inside a segment sends exactly that frame, resets hangover, and still pushes the frame into the buffer |
| SegmenterProperties.StepHangover | client/src/main.js:112-130 | silence inside a segment with hangover left sends exactly that frame and decrements hangover by 1 |
| SegmenterProperties.StepClose | client/src/main.js:112-134 | silence with hangover 0 sends exactly one `eof` and no audio, closes the segment, and keeps the silent frame as the newest buffered frame |
| SegmenterProperties.StepIdleSilence | client/src/main.js:112-135 | silence outside a segment sends nothing and changes only the buffer |
| SegmenterProperties.RunAppend | client/src/main.js:106-136 | processing a stream in two parts gives the same state and actions as processing it at once |
| SegmenterProperties.RunSplit | client/src/main.js:106-136 | a stream may be cut at any point without changing the result |
| SegmenterProperties.StepBufferIsSuffix | client/src/main.js:112-122 | after one frame, the buffer is a suffix of the old buffer plus that frame |
| SegmenterProperties.RunBufferIsSuffix | client/src/main.js:112-122 | after any stream, the buffer holds frames in arrival order: a suffix of the old buffer followed by the stream |
| SegmenterProperties.EofBalance | client/src/main.js:116-134 | over any stream, `eof` markers plus a still-open segment equal segment onsets plus an already-open segment |
| SegmenterProperties.RunFromInitial | client/src/main.js:115-134 | from the initial state, hangover stays in [0, HANGOVER_FRAMES] and the buffer within capacity; `eof` count equals onsets, less one while a segment is open |
| SegmenterProperties.IdleSilence | client/src/main.js:112-135 | silence outside a segment sends nothing however long it lasts, and only pushes frames into the buffer |
| SegmenterProperties.SilentStreamSendsNothing | client/src/main.js:112-135 | from the initial state an all-silent stream sends nothing, and the buffer ends with its most recent frames |
| SegmenterProperties.HangoverWithinWindow | client/src/main.js:127-130 | silence no longer than the remaining hangover is sent frame by frame, and the segment stays open with hangover reduced by the number of frames |
| SegmenterProperties.CloseThenIdle | client/src/main.js:127-135 | with hangover 0, a silent stream yields exactly one `eof`, then nothing |
| SegmenterProperties.HangoverCloses | client/src/main.js:127-135 | silence longer than the remaining hangover `h` sends its first `h` frames, then one `eof`, then nothing, and leaves the segment closed |
| SegmenterProperties.SpeechIsSent | client/src/main.js:115-126 | every speech frame of a stream is sent by the step that processes it: it is the last action of that step, placed right after the actions of the earlier frames |
| SegmenterScenarios.ShortSegment | client/src/main.js:112-135 | with hangover 3 and capacity 2, the stream silence, silence, speech, speech, then four silences gives the exact list of actions and the final buffer |
| SegmenterScenarios.HangoverFramesResent | client/src/main.js:112-135 | with hangover 3, silent frames sent during one segment's hangover are sent again when the next segment opens |

## Left out

- `main.py`: the server wraps a foreign speech recognizer behind a WebSocket. It has no logic of its own to model.
- WebSocket creation and its `onopen`, `onerror` and `onclose` handlers, audio-context and microphone setup, and `startRecording`, `stopAudio` and `stopRecording` (main.js:52-104, 143-170). These are browser I/O and lifecycle. The `isRecording` flag they set is a parameter of `Segmenter.OnAudioProcess`, and `Run` models a stream processed while recording. `startRecording` does not reset `vadState`, `hangover` or `frameBuffer`, so a second recording can start inside a segment with a stale buffer. `SegmenterProperties.RunFromInitial` covers only the first recording after page load. `Segmenter.Run`, `SegmenterProperties.EofBalance` and `SegmenterProperties.RunBufferIsSuffix` hold from any state, so they also cover later recordings.
- `socket.onmessage` (main.js:76-91): JSON parsing and DOM updates, which are presentation only.
- The settings handler (main.js:180-197). It writes `window.VAD_THRESHOLD` and `window.HANGOVER_FRAMES`, but the audio handler reads the module constants (main.js:5-7), which shadow those. It has no effect on the pipeline, so the three constants are a fixed `Config`.
- Floating point. Samples are exact reals, and NaN and infinite samples are not modelled. `Math.sqrt` is replaced by comparing the mean square with the squared threshold. `Classifier.IsSpeechMatchesRms` shows this agrees with the square-root comparison for any square root of the mean square.
- Byte order. `Int16Array.prototype.buffer` uses the platform's byte order. `Wire` models little-endian, the order of the platforms browsers commonly run on.
- Concurrency. The browser delivers one audio callback at a time on one thread, so a step is atomic, as `Step` models it.
