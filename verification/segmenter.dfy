/**
  The per-frame voice-activity state machine of the browser client: the body of
  `processor.onaudioprocess`.  Its state is `vadState`, `hangover` and the bounded
  `frameBuffer`; for every frame it decides which messages to put on the socket.
  The socket is abstracted as the returned list of actions: `Audio(frame)` sends
  the quantized samples of a frame as a binary message and `Eof` sends the
  end-of-segment marker; `Send` gives the wire message of each action.

  As in the client, every processed frame is pushed into the buffer before the
  decision is taken, whatever the state; the buffer is only emptied when speech
  starts.
 */
module Segmenter {
  import opened Classifier
  import opened Quantizer
  import opened FrameBuffer
  import opened Wire

  type Frame = seq<real>

  /** The tuning constants of the client. */
  datatype Config = Config(threshold: real, hangoverFrames: nat, bufferSize: nat)

  /** `VAD_THRESHOLD`, `HANGOVER_FRAMES` and `FRAME_BUFFER_SIZE` */
  const Default: Config := Config(VadThreshold, 3, 20)

  datatype State = State(vadState: bool, hangover: int, frameBuffer: seq<Frame>)

  /** The module-level initial values of the three state variables. */
  const Initial: State := State(false, 0, [])

  datatype Action = Audio(frame: Frame) | Eof

  datatype StepResult = StepResult(state: State, actions: seq<Action>)

  /** The states reachable from `Initial`: the hangover counter stays within the
      configured window and is zero outside a segment, and the buffer is within
      capacity. */
  ghost predicate Valid(cfg: Config, s: State)
  {
    && 0 <= s.hangover <= cfg.hangoverFrames
    && (!s.vadState ==> s.hangover == 0)
    && |s.frameBuffer| <= cfg.bufferSize
  }

  function AudioAll(frames: seq<Frame>): seq<Action>
  {
    seq(|frames|, i requires 0 <= i < |frames| => Audio(frames[i]))
  }

  function CountEof(actions: seq<Action>): nat
  {
    if |actions| == 0 then 0
    else (if actions[0].Eof? then 1 else 0) + CountEof(actions[1..])
  }

  /** A frame that opens a segment: speech arriving outside one. */
  predicate IsOnset(cfg: Config, s: State, frame: Frame)
  {
    !s.vadState && IsSpeech(frame, cfg.threshold)
  }

  /** One frame through the handler, with recording on. */
  function Step(cfg: Config, s: State, frame: Frame): (r: StepResult)
    ensures Valid(cfg, s) ==> Valid(cfg, r.state)
    ensures r.state.frameBuffer == [] || r.state.frameBuffer == Push(s.frameBuffer, frame, cfg.bufferSize)
    ensures IsSpeech(frame, cfg.threshold) ==>
      && r.state.vadState && r.state.hangover == cfg.hangoverFrames
      && |r.actions| > 0 && r.actions[|r.actions| - 1] == Audio(frame)
    ensures r.state.vadState <==> IsSpeech(frame, cfg.threshold) || (s.vadState && s.hangover != 0)
    ensures CountEof(r.actions) == if s.vadState && !r.state.vadState then 1 else 0
  {
    var buffered := Push(s.frameBuffer, frame, cfg.bufferSize);
    if IsSpeech(frame, cfg.threshold) then
      if !s.vadState then
        var flushed := AudioAll(buffered) + [Audio(frame)];
        assert CountEof(flushed) == 0 by {
          assert flushed == AudioAll(buffered + [frame]);
          NoEofInAudio(buffered + [frame]);
        }
        StepResult(State(true, cfg.hangoverFrames, []), flushed)
      else
        StepResult(State(true, cfg.hangoverFrames, buffered), [Audio(frame)])
    else if s.vadState && s.hangover > 0 then
      StepResult(State(true, s.hangover - 1, buffered), [Audio(frame)])
    else if s.vadState && s.hangover == 0 then
      StepResult(State(false, s.hangover, buffered), [Eof])
    else
      StepResult(State(s.vadState, s.hangover, buffered), [])
  }

  /** `processor.onaudioprocess`: nothing happens while `isRecording` is false. */
  function OnAudioProcess(cfg: Config, isRecording: bool, s: State, frame: Frame): (r: StepResult)
    ensures !isRecording ==> r.state == s && r.actions == []
    ensures isRecording ==> r == Step(cfg, s, frame)
  {
    if !isRecording then StepResult(s, []) else Step(cfg, s, frame)
  }

  /** The handler applied to a stream of frames while recording, with the
      actions of all frames in order. */
  function Run(cfg: Config, s: State, frames: seq<Frame>): (r: StepResult)
    ensures Valid(cfg, s) ==> Valid(cfg, r.state)
    decreases |frames|
  {
    if |frames| == 0 then StepResult(s, [])
    else
      var first := Step(cfg, s, frames[0]);
      var rest := Run(cfg, first.state, frames[1..]);
      StepResult(rest.state, first.actions + rest.actions)
  }

  /** The number of segments a stream opens. */
  function Onsets(cfg: Config, s: State, frames: seq<Frame>): nat
    decreases |frames|
  {
    if |frames| == 0 then 0
    else
      (if IsOnset(cfg, s, frames[0]) then 1 else 0)
      + Onsets(cfg, Step(cfg, s, frames[0]).state, frames[1..])
  }

  /** The socket message of an action. */
  function Send(a: Action): (m: Message)
    ensures a.Audio? ==> m.Binary? && DecodePcm(m.data) == Some(Pcm16(a.frame))
    ensures a.Eof? ==> m == Text(EofJson)
  {
    match a
    case Audio(frame) => AudioMessage(frame)
    case Eof => Text(EofJson)
  }

  lemma {:induction false} NoEofInAudio(frames: seq<Frame>)
    ensures CountEof(AudioAll(frames)) == 0
    decreases |frames|
  {
    if |frames| > 0 {
      assert AudioAll(frames)[1..] == AudioAll(frames[1..]);
      NoEofInAudio(frames[1..]);
    }
  }

  lemma {:induction false} CountEofAppend(a: seq<Action>, b: seq<Action>)
    ensures CountEof(a + b) == CountEof(a) + CountEof(b)
    decreases |a|
  {
    if |a| > 0 {
      assert (a + b)[0] == a[0];
      assert (a + b)[1..] == a[1..] + b;
      CountEofAppend(a[1..], b);
    } else {
      assert a + b == b;
    }
  }
}
