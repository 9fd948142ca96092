/** Sprite clips over time (`animationRuntime.ts`). */
module AnimationRuntime {
  import opened Contracts

  function Max(a: int, b: int): int { if a >= b then a else b }

  /** Frames advanced after `elapsedMs`; negative times count as zero. */
  function FramesElapsed(clip: AnimationClip, elapsedMs: real): int {
    ((if elapsedMs < 0.0 then 0.0 else elapsedMs) / 1000.0 * clip.fps).Floor
  }

  function GetAnimationFrame(clip: AnimationClip, elapsedMs: real): int {
    var frameCount := Max(1, clip.frameCount);
    var frame := FramesElapsed(clip, elapsedMs);
    if clip.playback == Loop then TruncatedRemainder(frame, frameCount)
    else if frame <= frameCount - 1 then frame else frameCount - 1
  }

  /** The `%` of JavaScript: the remainder takes the sign of the dividend. */
  function TruncatedRemainder(a: int, n: int): int
    requires n > 0
  {
    if a >= 0 then a % n else -((-a) % n)
  }

  predicate IsAnimationComplete(clip: AnimationClip, elapsedMs: real) {
    clip.playback == Once && FramesElapsed(clip, elapsedMs) >= Max(1, clip.frameCount)
  }

  function Ceiling(r: real): int { -((-r).Floor) }

  function GetAnimationDurationMs(clip: AnimationClip): int
    requires clip.fps != 0.0
  {
    Ceiling(Max(1, clip.frameCount) as real / clip.fps * 1000.0)
  }

  lemma CeilingLeast(r: real, n: int)
    ensures n as real >= r <==> n >= Ceiling(r)
  {
  }

  /** A whole number of frames has passed exactly from `n * 1000 / fps` milliseconds on. */
  lemma FramesReached(clip: AnimationClip, elapsedMs: real, n: int)
    requires clip.fps > 0.0 && n >= 1
    ensures FramesElapsed(clip, elapsedMs) >= n <==> elapsedMs >= n as real / clip.fps * 1000.0
  {
    var seconds := (if elapsedMs < 0.0 then 0.0 else elapsedMs) / 1000.0;
    var needed := n as real / clip.fps;
    assert needed * clip.fps == n as real;
    assert seconds >= needed <==> seconds * clip.fps >= needed * clip.fps by {
      var gap := (seconds - needed) * clip.fps;
      assert gap == seconds * clip.fps - needed * clip.fps;
      assert seconds >= needed <==> gap >= 0.0;
    }
  }

  lemma DurationIsPositive(clip: AnimationClip)
    requires clip.fps > 0.0
    ensures GetAnimationDurationMs(clip) >= 1
  {
    assert Max(1, clip.frameCount) as real / clip.fps > 0.0;
  }

  /** The duration is the least whole millisecond at which a `once` clip is complete. */
  lemma DurationIsLeastCompleteMs(clip: AnimationClip, ms: int)
    requires clip.fps > 0.0 && clip.playback == Once
    ensures IsAnimationComplete(clip, ms as real) <==> ms >= GetAnimationDurationMs(clip)
  {
    var n := Max(1, clip.frameCount);
    FramesReached(clip, ms as real, n);
    CeilingLeast(n as real / clip.fps * 1000.0, ms);
  }

  /** A clip that is played backwards or not at all (`fps <= 0`) never completes. */
  lemma NonPositiveRateNeverCompletes(clip: AnimationClip, elapsedMs: real)
    requires clip.fps <= 0.0
    ensures !IsAnimationComplete(clip, elapsedMs)
  {
    var seconds := (if elapsedMs < 0.0 then 0.0 else elapsedMs) / 1000.0;
    assert seconds * clip.fps <= 0.0;
  }

  /** With a rate that is not negative, every frame shown is on the sprite sheet. */
  lemma FrameInRange(clip: AnimationClip, elapsedMs: real)
    requires clip.fps >= 0.0
    ensures 0 <= GetAnimationFrame(clip, elapsedMs) < Max(1, clip.frameCount)
  {
    var seconds := (if elapsedMs < 0.0 then 0.0 else elapsedMs) / 1000.0;
    assert seconds * clip.fps >= 0.0;
  }

  /** Every frame shown at any time is on the sprite sheet exactly when the rate is not
      negative, or the clip loops over a single frame. */
  lemma FramesStayInRange(clip: AnimationClip)
    ensures (forall elapsedMs :: 0 <= GetAnimationFrame(clip, elapsedMs) < Max(1, clip.frameCount)) <==>
            clip.fps >= 0.0 || (clip.playback == Loop && clip.frameCount <= 1)
  {
    if clip.fps >= 0.0 {
      forall elapsedMs ensures 0 <= GetAnimationFrame(clip, elapsedMs) < Max(1, clip.frameCount) {
        FrameInRange(clip, elapsedMs);
      }
    } else {
      var seconds := 1.0 / -clip.fps;
      var elapsedMs := seconds * 1000.0;
      assert seconds * -clip.fps == 1.0 && elapsedMs / 1000.0 == seconds && seconds > 0.0;
      assert FramesElapsed(clip, elapsedMs) == -1 by {
        assert seconds * clip.fps == -1.0;
      }
      assert clip.playback == Loop && clip.frameCount > 1 ==> 1 % Max(1, clip.frameCount) == 1;
      assert clip.playback == Once || clip.frameCount > 1 ==> GetAnimationFrame(clip, elapsedMs) == -1;
    }
  }

  /** A `once` clip shows its last frame from the moment it is complete, and never earlier
      than the last frame's own start. */
  lemma CompleteShowsLastFrame(clip: AnimationClip, elapsedMs: real)
    requires clip.fps >= 0.0 && clip.playback == Once
    ensures IsAnimationComplete(clip, elapsedMs) ==>
              GetAnimationFrame(clip, elapsedMs) == Max(1, clip.frameCount) - 1
  {
  }

  // --------------------------------------------------------- without the frame counter

  function Frames(clip: AnimationClip): int { if clip.frameCount >= 1 then clip.frameCount else 1 }

  /** Seconds times rate, in thousandths of a frame; negative times count as zero. */
  function Thousandths(clip: AnimationClip, elapsedMs: real): real {
    if elapsedMs >= 0.0 then elapsedMs * clip.fps else 0.0
  }

  lemma ElapsedIs(clip: AnimationClip, elapsedMs: real)
    ensures var m := FramesElapsed(clip, elapsedMs);
            1000.0 * m as real <= Thousandths(clip, elapsedMs) < 1000.0 * (m + 1) as real
  {
    var ms := if elapsedMs < 0.0 then 0.0 else elapsedMs;
    var x := ms / 1000.0 * clip.fps;
    assert 1000.0 * x == ms * clip.fps;
    assert Thousandths(clip, elapsedMs) == ms * clip.fps;
    assert x.Floor as real <= x < (x.Floor + 1) as real;
  }

  /** A `once` clip is complete exactly when all its frames have passed. */
  lemma CompleteMeans(clip: AnimationClip, elapsedMs: real)
    ensures IsAnimationComplete(clip, elapsedMs) <==>
            clip.playback == Once && Thousandths(clip, elapsedMs) >= 1000.0 * Frames(clip) as real
  {
    ElapsedIs(clip, elapsedMs);
    hide FramesElapsed, Thousandths;
    var m := FramesElapsed(clip, elapsedMs);
    if m >= Frames(clip) {
      assert 1000.0 * m as real >= 1000.0 * Frames(clip) as real;
    } else {
      assert 1000.0 * (m + 1) as real <= 1000.0 * Frames(clip) as real;
    }
  }

  /** The whole milliseconds after which all frames have passed, and no less. */
  predicate CompletionDelay(clip: AnimationClip, ms: int) {
    && ms as real * clip.fps >= 1000.0 * Frames(clip) as real
    && (ms - 1) as real * clip.fps < 1000.0 * Frames(clip) as real
  }

  lemma DurationMeans(clip: AnimationClip, ms: int)
    requires clip.fps > 0.0
    ensures CompletionDelay(clip, ms) <==> ms == GetAnimationDurationMs(clip)
  {
    NeededTimesRate(clip);
    DelayIsCeiling(clip, Max(1, clip.frameCount) as real / clip.fps * 1000.0, ms);
  }

  lemma DelayIsCeiling(clip: AnimationClip, needed: real, ms: int)
    requires clip.fps > 0.0 && needed * clip.fps == 1000.0 * Frames(clip) as real
    ensures CompletionDelay(clip, ms) <==> ms == Ceiling(needed)
  {
    hide Ceiling;
    Reaches(clip.fps, needed, 1000.0 * Frames(clip) as real, ms as real);
    Reaches(clip.fps, needed, 1000.0 * Frames(clip) as real, (ms - 1) as real);
    CeilingLeast(needed, ms);
    CeilingLeast(needed, ms - 1);
  }

  lemma Reaches(rate: real, needed: real, total: real, ms: real)
    requires rate > 0.0 && needed * rate == total
    ensures ms * rate >= total <==> ms >= needed
  {
    var gap := ms - needed;
    assert gap * rate == ms * rate - total;
    Signs(gap, rate);
  }

  lemma Signs(gap: real, rate: real)
    requires rate > 0.0
    ensures gap * rate >= 0.0 <==> gap >= 0.0
  {
  }

  lemma NeededTimesRate(clip: AnimationClip)
    requires clip.fps > 0.0
    ensures Max(1, clip.frameCount) as real / clip.fps * 1000.0 * clip.fps == 1000.0 * Frames(clip) as real
  {
    var share := Max(1, clip.frameCount) as real / clip.fps;
    assert share * clip.fps == Max(1, clip.frameCount) as real;
    assert share * 1000.0 * clip.fps == 1000.0 * (share * clip.fps);
  }

  /** The frame shown: the number of whole frames that have passed, counted in laps by a loop
      and stopping at the last frame of a `once` clip. */
  lemma FrameMeans(clip: AnimationClip, elapsedMs: real) returns (passed: nat, laps: nat)
    requires clip.fps >= 0.0
    ensures 1000.0 * passed as real <= Thousandths(clip, elapsedMs) < 1000.0 * (passed + 1) as real
    ensures var frame := GetAnimationFrame(clip, elapsedMs);
            if clip.playback == Loop then passed == laps * Frames(clip) + frame && 0 <= frame < Frames(clip)
            else frame == if passed < Frames(clip) then passed else Frames(clip) - 1
  {
    ElapsedIs(clip, elapsedMs);
    ElapsedIsNotNegative(clip, elapsedMs);
    hide FramesElapsed, Thousandths;
    passed := FramesElapsed(clip, elapsedMs);
    laps := passed / Frames(clip);
    Laps(passed, Frames(clip));
  }

  lemma ElapsedIsNotNegative(clip: AnimationClip, elapsedMs: real)
    requires clip.fps >= 0.0
    ensures FramesElapsed(clip, elapsedMs) >= 0
  {
    var seconds := (if elapsedMs < 0.0 then 0.0 else elapsedMs) / 1000.0;
    assert seconds * clip.fps >= 0.0;
  }

  lemma Laps(passed: nat, frames: int)
    requires frames > 0
    ensures passed / frames >= 0 && passed == passed / frames * frames + passed % frames
            && 0 <= passed % frames < frames
  {
  }
}
