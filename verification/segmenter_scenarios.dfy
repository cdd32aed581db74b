/**
  Two frame streams worked through the state machine, for any frames with the
  given speech/silence pattern.
 */
module SegmenterScenarios {
  import opened Classifier
  import opened FrameBuffer
  import opened Segmenter
  import opened SegmenterProperties

  /** The speech/silence pattern of `ShortSegment`. */
  ghost predicate ShortSegmentInput(cfg: Config, f: seq<Frame>)
  {
    && cfg.hangoverFrames == 3 && cfg.bufferSize == 2 && |f| == 8
    && IsSpeech(f[2], cfg.threshold) && IsSpeech(f[3], cfg.threshold)
    && !IsSpeech(f[0], cfg.threshold) && !IsSpeech(f[1], cfg.threshold)
    && !IsSpeech(f[4], cfg.threshold) && !IsSpeech(f[5], cfg.threshold)
    && !IsSpeech(f[6], cfg.threshold) && !IsSpeech(f[7], cfg.threshold)
  }

  lemma ShortSegmentLeadIn(cfg: Config, f: seq<Frame>)
    requires ShortSegmentInput(cfg, f)
    ensures Run(cfg, Initial, f[..2]) == StepResult(State(false, 0, [f[0], f[1]]), [])
  {
    var s1 := State(false, 0, [f[0]]);
    var s2 := State(false, 0, [f[0], f[1]]);
    var head := f[..2];
    assert Step(cfg, Initial, f[0]) == StepResult(s1, []);
    assert Step(cfg, s1, f[1]) == StepResult(s2, []);
    assert Run(cfg, s2, head[2..]) == StepResult(s2, []);
    assert Run(cfg, s1, head[1..]) == StepResult(s2, []);
  }

  lemma ShortSegmentSpeech(cfg: Config, f: seq<Frame>)
    requires ShortSegmentInput(cfg, f)
    ensures Run(cfg, State(false, 0, [f[0], f[1]]), f[2..4])
      == StepResult(State(true, 3, [f[3]]), [Audio(f[1]), Audio(f[2]), Audio(f[2]), Audio(f[3])])
  {
    var s2 := State(false, 0, [f[0], f[1]]);
    var s3 := State(true, 3, []);
    var s4 := State(true, 3, [f[3]]);
    var speech := f[2..4];
    assert Step(cfg, s2, f[2]) == StepResult(s3, [Audio(f[1]), Audio(f[2]), Audio(f[2])]) by {
      assert AudioAll([f[1], f[2]]) == [Audio(f[1]), Audio(f[2])];
    }
    assert Step(cfg, s3, f[3]) == StepResult(s4, [Audio(f[3])]);
    assert Run(cfg, s4, speech[2..]) == StepResult(s4, []);
    assert Run(cfg, s3, speech[1..]) == StepResult(s4, [Audio(f[3])]);
  }

  lemma ShortSegmentOpening(cfg: Config, f: seq<Frame>)
    requires ShortSegmentInput(cfg, f)
    ensures Run(cfg, Initial, f[..4])
      == StepResult(State(true, 3, [f[3]]), [Audio(f[1]), Audio(f[2]), Audio(f[2]), Audio(f[3])])
  {
    ShortSegmentLeadIn(cfg, f);
    ShortSegmentSpeech(cfg, f);
    var head := f[..4];
    assert head[..2] == f[..2] && head[2..] == f[2..4];
    RunCompose(cfg, Initial, head, 2, State(false, 0, [f[0], f[1]]), State(true, 3, [f[3]]),
               [], [Audio(f[1]), Audio(f[2]), Audio(f[2]), Audio(f[3])]);
  }

  lemma ShortSegmentClosing(cfg: Config, f: seq<Frame>)
    requires ShortSegmentInput(cfg, f)
    ensures Run(cfg, State(true, 3, [f[3]]), f[4..])
      == StepResult(State(false, 0, [f[6], f[7]]), [Audio(f[4]), Audio(f[5]), Audio(f[6]), Eof])
  {
    var tail := f[4..];
    assert AllSilent(cfg, tail);
    HangoverCloses(cfg, State(true, 3, [f[3]]), tail);
    assert [f[3]] + tail == f[3..];
    assert Recent(f[3..], 2) == [f[6], f[7]];
    assert tail[..3] == f[4..7];
    assert AudioAll(f[4..7]) == [Audio(f[4]), Audio(f[5]), Audio(f[6])];
  }

  /** Hangover 3 and buffer capacity 2; frames: silence, silence, speech, speech,
      then four silent frames.  The onset flushes the two most recent frames, which
      already end with the onset frame (so the first silent frame has been evicted),
      sends the onset frame once more, keeps sending through three silent frames,
      and the fourth silent frame yields the end marker while staying in the buffer. */
  lemma ShortSegment(cfg: Config, f: seq<Frame>)
    requires ShortSegmentInput(cfg, f)
    ensures Run(cfg, Initial, f)
      == StepResult(State(false, 0, [f[6], f[7]]),
                    [Audio(f[1]), Audio(f[2]), Audio(f[2]), Audio(f[3]), Audio(f[4]), Audio(f[5]), Audio(f[6]), Eof])
  {
    ShortSegmentOpening(cfg, f);
    ShortSegmentClosing(cfg, f);
    RunSplit(cfg, Initial, f, 4);
  }

  /** The speech/silence pattern of `HangoverFramesResent`. */
  ghost predicate ResentInput(cfg: Config, f: seq<Frame>)
  {
    && cfg.hangoverFrames == 3 && cfg.bufferSize >= 5 && |f| == 6
    && IsSpeech(f[0], cfg.threshold) && IsSpeech(f[5], cfg.threshold)
    && !IsSpeech(f[1], cfg.threshold) && !IsSpeech(f[2], cfg.threshold)
    && !IsSpeech(f[3], cfg.threshold) && !IsSpeech(f[4], cfg.threshold)
  }

  lemma ResentOpening(cfg: Config, f: seq<Frame>)
    requires ResentInput(cfg, f)
    ensures Run(cfg, Initial, f[..1]) == StepResult(State(true, 3, []), [Audio(f[0]), Audio(f[0])])
  {
    StepOnset(cfg, Initial, f[0]);
    assert [] + [f[0]] == [f[0]];
    assert AudioAll([f[0]]) == [Audio(f[0])];
    assert f[..1] == [f[0]];
  }

  lemma ResentClosing(cfg: Config, f: seq<Frame>)
    requires ResentInput(cfg, f)
    ensures Run(cfg, State(true, 3, []), f[1..5])
      == StepResult(State(false, 0, f[1..5]), [Audio(f[1]), Audio(f[2]), Audio(f[3]), Eof])
  {
    var silence := f[1..5];
    assert AllSilent(cfg, silence);
    HangoverCloses(cfg, State(true, 3, []), silence);
    assert silence[..3] == f[1..4];
    assert AudioAll(f[1..4]) == [Audio(f[1]), Audio(f[2]), Audio(f[3])];
    assert [] + silence == silence;
  }

  lemma ResentFirstSegment(cfg: Config, f: seq<Frame>)
    requires ResentInput(cfg, f)
    ensures Run(cfg, Initial, f[..5])
      == StepResult(State(false, 0, f[1..5]), [Audio(f[0]), Audio(f[0]), Audio(f[1]), Audio(f[2]), Audio(f[3]), Eof])
  {
    ResentOpening(cfg, f);
    ResentClosing(cfg, f);
    var prefix := f[..5];
    assert prefix[..1] == f[..1] && prefix[1..] == f[1..5];
    RunSplit(cfg, Initial, prefix, 1);
  }

  lemma ResentSecondOnset(cfg: Config, f: seq<Frame>)
    requires ResentInput(cfg, f)
    ensures Run(cfg, State(false, 0, f[1..5]), f[5..]).actions
      == [Audio(f[1]), Audio(f[2]), Audio(f[3]), Audio(f[4]), Audio(f[5]), Audio(f[5])]
  {
    var s5 := State(false, 0, f[1..5]);
    StepOnset(cfg, s5, f[5]);
    assert f[1..5] + [f[5]] == f[1..];
    assert AudioAll(f[1..]) == [Audio(f[1]), Audio(f[2]), Audio(f[3]), Audio(f[4]), Audio(f[5])];
    assert f[5..][1..] == [];
  }

  /** With the client's hangover of 3 and a buffer that can hold five frames (the
      client's holds 20): speech, four silent frames, speech.  The silent frames
      sent during the hangover of the first segment are sent a second time as the
      lead-in of the next segment, together with the frame that closed the first. */
  lemma HangoverFramesResent(cfg: Config, f: seq<Frame>)
    requires ResentInput(cfg, f)
    ensures Run(cfg, Initial, f).actions
      == [Audio(f[0]), Audio(f[0]), Audio(f[1]), Audio(f[2]), Audio(f[3]), Eof,
          Audio(f[1]), Audio(f[2]), Audio(f[3]), Audio(f[4]), Audio(f[5]), Audio(f[5])]
  {
    ResentFirstSegment(cfg, f);
    ResentSecondOnset(cfg, f);
    RunSplit(cfg, Initial, f, 5);
  }
}
