/**
  Properties of the segmentation state machine: what each kind of frame does to
  the state and the socket, and what holds over whole frame streams.
 */
module SegmenterProperties {
  import opened Classifier
  import opened FrameBuffer
  import opened Segmenter

  ghost predicate AllSilent(cfg: Config, frames: seq<Frame>)
  {
    forall i :: 0 <= i < |frames| ==> !IsSpeech(frames[i], cfg.threshold)
  }

  // ----- single frames -----

  /** Speech outside a segment opens one: the buffered frames, which by now end
      with the current frame, are sent oldest first, then the current frame is
      sent again, and the buffer is emptied. */
  lemma StepOnset(cfg: Config, s: State, frame: Frame)
    requires Valid(cfg, s)
    requires !s.vadState && IsSpeech(frame, cfg.threshold)
    ensures var r := Step(cfg, s, frame);
      && r.actions == AudioAll(Recent(s.frameBuffer + [frame], cfg.bufferSize)) + [Audio(frame)]
      && r.state == State(true, cfg.hangoverFrames, [])
  {
  }

  /** With a non-zero buffer capacity the onset frame goes out twice in a row. */
  lemma OnsetFrameSentTwice(cfg: Config, s: State, frame: Frame)
    requires Valid(cfg, s) && cfg.bufferSize > 0
    requires !s.vadState && IsSpeech(frame, cfg.threshold)
    ensures var a := Step(cfg, s, frame).actions;
      |a| >= 2 && a[|a| - 2] == Audio(frame) && a[|a| - 1] == Audio(frame)
  {
    StepOnset(cfg, s, frame);
    var buffered := Recent(s.frameBuffer + [frame], cfg.bufferSize);
    assert buffered[|buffered| - 1] == frame;
    assert AudioAll(buffered)[|buffered| - 1] == Audio(frame);
  }

  /** Speech inside a segment sends exactly the current frame and restarts the
      hangover window; the frame is still added to the buffer. */
  lemma StepActiveSpeech(cfg: Config, s: State, frame: Frame)
    requires Valid(cfg, s)
    requires s.vadState && IsSpeech(frame, cfg.threshold)
    ensures var r := Step(cfg, s, frame);
      && r.actions == [Audio(frame)]
      && r.state == State(true, cfg.hangoverFrames, Recent(s.frameBuffer + [frame], cfg.bufferSize))
  {
  }

  /** Silence inside the hangover window sends exactly the current frame and uses
      up one frame of the window. */
  lemma StepHangover(cfg: Config, s: State, frame: Frame)
    requires Valid(cfg, s)
    requires s.vadState && !IsSpeech(frame, cfg.threshold) && s.hangover > 0
    ensures var r := Step(cfg, s, frame);
      && r.actions == [Audio(frame)]
      && r.state == State(true, s.hangover - 1, Recent(s.frameBuffer + [frame], cfg.bufferSize))
  {
  }

  /** Silence once the window is used up closes the segment: one end marker, no
      audio, and the silent frame stays in the buffer. */
  lemma StepClose(cfg: Config, s: State, frame: Frame)
    requires Valid(cfg, s)
    requires s.vadState && !IsSpeech(frame, cfg.threshold) && s.hangover == 0
    ensures var r := Step(cfg, s, frame);
      && r.actions == [Eof]
      && r.state == State(false, 0, Recent(s.frameBuffer + [frame], cfg.bufferSize))
      && (cfg.bufferSize > 0 ==> r.state.frameBuffer[|r.state.frameBuffer| - 1] == frame)
  {
    PushIsSuffix(s.frameBuffer, frame, cfg.bufferSize);
  }

  /** Silence outside a segment sends nothing and only adds the frame to the buffer. */
  lemma StepIdleSilence(cfg: Config, s: State, frame: Frame)
    requires Valid(cfg, s)
    requires !s.vadState && !IsSpeech(frame, cfg.threshold)
    ensures var r := Step(cfg, s, frame);
      && r.actions == []
      && r.state == s.(frameBuffer := Recent(s.frameBuffer + [frame], cfg.bufferSize))
  {
  }

  // ----- frame streams -----

  /** Processing a stream in two parts is processing it at once. */
  lemma {:induction false} RunAppend(cfg: Config, s: State, a: seq<Frame>, b: seq<Frame>)
    ensures var ra := Run(cfg, s, a);
      var rb := Run(cfg, ra.state, b);
      Run(cfg, s, a + b) == StepResult(rb.state, ra.actions + rb.actions)
    decreases |a|
  {
    if |a| == 0 {
      assert a + b == b;
    } else {
      var first := Step(cfg, s, a[0]);
      assert (a + b)[0] == a[0];
      assert (a + b)[1..] == a[1..] + b;
      RunAppend(cfg, first.state, a[1..], b);
      var ra := Run(cfg, first.state, a[1..]);
      var rb := Run(cfg, ra.state, b);
      assert first.actions + (ra.actions + rb.actions) == (first.actions + ra.actions) + rb.actions;
    }
  }

  /** `RunAppend` read the other way: a stream may be cut anywhere. */
  lemma RunSplit(cfg: Config, s: State, frames: seq<Frame>, k: int)
    requires 0 <= k <= |frames|
    ensures var ra := Run(cfg, s, frames[..k]);
      var rb := Run(cfg, ra.state, frames[k..]);
      Run(cfg, s, frames) == StepResult(rb.state, ra.actions + rb.actions)
  {
    RunAppend(cfg, s, frames[..k], frames[k..]);
    assert frames[..k] + frames[k..] == frames;
  }

  /** Two consecutive runs compose into one. */
  lemma RunCompose(cfg: Config, s: State, frames: seq<Frame>, k: int,
                   mid: State, last: State, first: seq<Action>, rest: seq<Action>)
    requires 0 <= k <= |frames|
    requires Run(cfg, s, frames[..k]) == StepResult(mid, first)
    requires Run(cfg, mid, frames[k..]) == StepResult(last, rest)
    ensures Run(cfg, s, frames) == StepResult(last, first + rest)
  {
    RunSplit(cfg, s, frames, k);
  }

  lemma StepBufferIsSuffix(cfg: Config, s: State, frame: Frame)
    ensures IsSuffix(Step(cfg, s, frame).state.frameBuffer, s.frameBuffer + [frame])
  {
    PushIsSuffix(s.frameBuffer, frame, cfg.bufferSize);
  }

  /** The buffer only ever holds frames in arrival order: after any stream it is
      a suffix of the old buffer followed by the stream. */
  lemma {:induction false} RunBufferIsSuffix(cfg: Config, s: State, frames: seq<Frame>)
    ensures IsSuffix(Run(cfg, s, frames).state.frameBuffer, s.frameBuffer + frames)
    decreases |frames|
  {
    if |frames| > 0 {
      var next := Step(cfg, s, frames[0]).state;
      StepBufferIsSuffix(cfg, s, frames[0]);
      RunBufferIsSuffix(cfg, next, frames[1..]);
      SuffixChain(Run(cfg, next, frames[1..]).state.frameBuffer, next.frameBuffer, s.frameBuffer, frames);
    }
  }

  /** Every segment that is opened is closed by exactly one end marker, except the
      one that may still be open at the end of the stream. */
  lemma {:induction false} EofBalance(cfg: Config, s: State, frames: seq<Frame>)
    ensures var r := Run(cfg, s, frames);
      CountEof(r.actions) + (if r.state.vadState then 1 else 0)
      == Onsets(cfg, s, frames) + (if s.vadState then 1 else 0)
    decreases |frames|
  {
    if |frames| > 0 {
      var first := Step(cfg, s, frames[0]);
      EofBalance(cfg, first.state, frames[1..]);
      CountEofAppend(first.actions, Run(cfg, first.state, frames[1..]).actions);
    }
  }

  /** From the initial state, over any stream: the hangover counter stays within
      the window, the buffer within capacity, and the number of end markers is the
      number of segments opened, less the one still open. */
  lemma RunFromInitial(cfg: Config, frames: seq<Frame>)
    ensures var r := Run(cfg, Initial, frames);
      && 0 <= r.state.hangover <= cfg.hangoverFrames
      && |r.state.frameBuffer| <= cfg.bufferSize
      && CountEof(r.actions) == Onsets(cfg, Initial, frames) - (if r.state.vadState then 1 else 0)
  {
    assert Valid(cfg, Initial);
    EofBalance(cfg, Initial, frames);
  }

  /** Silence outside a segment sends nothing, however long it lasts; the buffer
      ends up holding the latest frames. */
  lemma {:induction false} IdleSilence(cfg: Config, s: State, frames: seq<Frame>)
    requires !s.vadState && AllSilent(cfg, frames)
    ensures Run(cfg, s, frames) == StepResult(s.(frameBuffer := PushAll(s.frameBuffer, frames, cfg.bufferSize)), [])
    decreases |frames|
  {
    if |frames| > 0 {
      var first := Step(cfg, s, frames[0]);
      assert first == StepResult(s.(frameBuffer := Push(s.frameBuffer, frames[0], cfg.bufferSize)), []);
      AllSilentTail(cfg, frames);
      IdleSilence(cfg, first.state, frames[1..]);
    }
  }

  /** From the initial state an all-silent stream sends nothing, and the buffer
      holds the last frames of the stream. */
  lemma SilentStreamSendsNothing(cfg: Config, frames: seq<Frame>)
    requires AllSilent(cfg, frames)
    ensures Run(cfg, Initial, frames) == StepResult(State(false, 0, Recent(frames, cfg.bufferSize)), [])
  {
    IdleSilence(cfg, Initial, frames);
    assert [] + frames == frames;
  }

  lemma AllSilentTail(cfg: Config, frames: seq<Frame>)
    requires |frames| > 0 && AllSilent(cfg, frames)
    ensures AllSilent(cfg, frames[1..])
  {
    forall i | 0 <= i < |frames| - 1 ensures !IsSpeech(frames[1..][i], cfg.threshold) {
      assert frames[1..][i] == frames[i + 1];
    }
  }

  /** Silence inside a segment that does not outlast the hangover window: every
      silent frame is still sent and the segment stays open. */
  lemma {:induction false} HangoverWithinWindow(cfg: Config, s: State, frames: seq<Frame>)
    requires s.vadState && |frames| <= s.hangover && AllSilent(cfg, frames)
    ensures Run(cfg, s, frames)
      == StepResult(State(true, s.hangover - |frames|, PushAll(s.frameBuffer, frames, cfg.bufferSize)), AudioAll(frames))
    decreases |frames|
  {
    if |frames| > 0 {
      var first := Step(cfg, s, frames[0]);
      var next := State(true, s.hangover - 1, Push(s.frameBuffer, frames[0], cfg.bufferSize));
      assert first == StepResult(next, [Audio(frames[0])]);
      AllSilentTail(cfg, frames);
      HangoverWithinWindow(cfg, next, frames[1..]);
      assert PushAll(s.frameBuffer, frames, cfg.bufferSize) == PushAll(next.frameBuffer, frames[1..], cfg.bufferSize);
      assert AudioAll(frames) == [Audio(frames[0])] + AudioAll(frames[1..]);
    } else {
      assert AudioAll(frames) == [];
    }
  }

  /** The silent frame that arrives when the hangover window is used up. */
  lemma {:induction false} CloseThenIdle(cfg: Config, s: State, frames: seq<Frame>)
    requires s.vadState && s.hangover == 0 && |frames| > 0 && AllSilent(cfg, frames)
    ensures Run(cfg, s, frames)
      == StepResult(State(false, 0, PushAll(s.frameBuffer, frames, cfg.bufferSize)), [Eof])
  {
    var first := Step(cfg, s, frames[0]);
    assert first == StepResult(State(false, 0, Push(s.frameBuffer, frames[0], cfg.bufferSize)), [Eof]);
    AllSilentTail(cfg, frames);
    IdleSilence(cfg, first.state, frames[1..]);
  }

  lemma AllSilentSlices(cfg: Config, frames: seq<Frame>, k: int)
    requires 0 <= k <= |frames| && AllSilent(cfg, frames)
    ensures AllSilent(cfg, frames[..k]) && AllSilent(cfg, frames[k..])
  {
    forall i | 0 <= i < k ensures !IsSpeech(frames[..k][i], cfg.threshold) {
      assert frames[..k][i] == frames[i];
    }
    forall i | 0 <= i < |frames| - k ensures !IsSpeech(frames[k..][i], cfg.threshold) {
      assert frames[k..][i] == frames[k + i];
    }
  }

  /** Silence inside a segment that outlasts the hangover window: the first
      `hangover` silent frames are sent, the next one closes the segment with an
      end marker and is not sent, and the rest send nothing. */
  lemma {:induction false} HangoverCloses(cfg: Config, s: State, frames: seq<Frame>)
    requires s.vadState && 0 <= s.hangover < |frames| && AllSilent(cfg, frames)
    ensures Run(cfg, s, frames)
      == StepResult(State(false, 0, PushAll(s.frameBuffer, frames, cfg.bufferSize)), AudioAll(frames[..s.hangover]) + [Eof])
  {
    var h := s.hangover;
    var window, after := frames[..h], frames[h..];
    AllSilentSlices(cfg, frames, h);
    var open := State(true, 0, PushAll(s.frameBuffer, window, cfg.bufferSize));
    HangoverWithinWindow(cfg, s, window);
    CloseThenIdle(cfg, open, after);
    PushAllAppend(s.frameBuffer, window, after, cfg.bufferSize);
    SplitJoin(frames, h);
    RunCompose(cfg, s, frames, h, open, State(false, 0, PushAll(s.frameBuffer, frames, cfg.bufferSize)),
               AudioAll(window), [Eof]);
  }

  /** No speech frame is ever lost: the last action of the step that processes
      frame `i` sends that frame, right after the actions of the frames before it. */
  lemma SpeechIsSent(cfg: Config, s: State, frames: seq<Frame>, i: int)
    requires 0 <= i < |frames| && IsSpeech(frames[i], cfg.threshold)
    ensures var before := Run(cfg, s, frames[..i]);
      var step := Step(cfg, before.state, frames[i]);
      var k := |before.actions| + |step.actions| - 1;
      var all := Run(cfg, s, frames).actions;
      |before.actions| <= k < |all| && all[k] == Audio(frames[i])
    ensures Audio(frames[i]) in Run(cfg, s, frames).actions
  {
    var before := Run(cfg, s, frames[..i]);
    var after := frames[i..];
    var step := Step(cfg, before.state, after[0]);
    var rest := Run(cfg, step.state, after[1..]);
    RunSplit(cfg, s, frames, i);
    assert Run(cfg, before.state, after).actions == step.actions + rest.actions;
    var all := Run(cfg, s, frames).actions;
    assert all == before.actions + (step.actions + rest.actions);
    var k := |before.actions| + |step.actions| - 1;
    assert all[k] == step.actions[|step.actions| - 1];
  }
}
