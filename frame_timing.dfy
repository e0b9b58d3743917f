/** Final-frame detection and the per-frame evaluation context of an animator. */
module FrameTiming {
  import opened CoreTypes
  import opened AnimationTypes

  /** `isFinalFrame`: the clip has reached its end on the last of a finite
      number of loops. A `loopCount` of 0 means "loop forever". */
  function IsFinalFrame(localTime: real, duration: real, currentLoop: Int32, loopCount: Int32): (r: bool)
    ensures loopCount == 0 ==> !r
    ensures localTime < duration ==> !r
    ensures currentLoop < loopCount - 1 ==> !r
  {
    localTime >= duration && loopCount != 0 && currentLoop >= loopCount - 1
  }

  /** The frame is final exactly when all three conditions hold. */
  lemma IsFinalFrameExactly(localTime: real, duration: real, currentLoop: Int32, loopCount: Int32)
    ensures IsFinalFrame(localTime, duration, currentLoop, loopCount)
        <==> localTime >= duration && loopCount != 0 && currentLoop >= loopCount - 1
  {
  }

  /** With infinite looping no frame is ever final. */
  lemma InfiniteLoopingNeverFinal()
    ensures forall t: real, d: real, l: Int32 :: !IsFinalFrame(t, d, l, 0)
  {
  }

  /** Later local times and later loops never turn a final frame into a
      non-final one, nor does a shorter clip. */
  lemma IsFinalFrameMonotone(t1: real, t2: real, d1: real, d2: real,
                             l1: Int32, l2: Int32, loopCount: Int32)
    requires t1 <= t2 && d2 <= d1 && l1 <= l2
    ensures IsFinalFrame(t1, d1, l1, loopCount) ==> IsFinalFrame(t2, d2, l2, loopCount)
  {
  }

  /** The properties an animator exposes to `evaluationDataForAnimator`. */
  datatype AnimatorView = AnimatorView(loops: Int32, currentLoop: Int32, lastLocalTime: real)

  /** The animation `Clock`, of which only the playback rate is read. */
  datatype Clock = Clock(playbackRate: real)

  const NanosecondsPerSecond: real := 1_000_000_000.0

  /** `evaluationDataForAnimator`: the loop state and last local time come from
      the animator, the playback rate from the clock (1.0 without one), and
      the elapsed time is the nanosecond count in seconds. */
  function EvaluationDataForAnimator(animator: AnimatorView, clock: Option<Clock>,
                                     nsSincePreviousFrame: Int64): (data: AnimatorEvaluationData)
    ensures data.loopCount == animator.loops
    ensures data.currentLoop == animator.currentLoop
    ensures data.currentTime == animator.lastLocalTime
    ensures clock.None? ==> data.playbackRate == 1.0
    ensures clock.Some? ==> data.playbackRate == clock.value.playbackRate
    ensures data.elapsedTime * NanosecondsPerSecond == nsSincePreviousFrame as real
  {
    AnimatorEvaluationData(
      elapsedTime := nsSincePreviousFrame as real / NanosecondsPerSecond,
      currentTime := animator.lastLocalTime,
      loopCount := animator.loops,
      currentLoop := animator.currentLoop,
      playbackRate := if clock.Some? then clock.value.playbackRate else 1.0)
  }

  /** More nanoseconds since the previous frame never give a shorter elapsed
      time, and the elapsed time has the sign of the nanosecond count. */
  lemma ElapsedTimeMonotone(animator: AnimatorView, clock: Option<Clock>, ns1: Int64, ns2: Int64)
    requires ns1 <= ns2
    ensures EvaluationDataForAnimator(animator, clock, ns1).elapsedTime
         <= EvaluationDataForAnimator(animator, clock, ns2).elapsedTime
    ensures ns1 >= 0 ==> EvaluationDataForAnimator(animator, clock, ns1).elapsedTime >= 0.0
  {
  }

  /** The clock only affects the playback rate: everything else in the
      context is the same with or without it. */
  lemma ClockOnlyAffectsPlaybackRate(animator: AnimatorView, clock: Clock, ns: Int64)
    ensures EvaluationDataForAnimator(animator, Some(clock), ns)
         == EvaluationDataForAnimator(animator, None, ns).(playbackRate := clock.playbackRate)
  {
  }

  /** An animator set to loop forever never reaches a final frame, whatever
      the clip duration and the time it has reached. */
  lemma InfiniteAnimatorNeverFinal(animator: AnimatorView, clock: Option<Clock>, ns: Int64, duration: real)
    requires animator.loops == 0
    ensures var data := EvaluationDataForAnimator(animator, clock, ns);
      !IsFinalFrame(data.currentTime, duration, data.currentLoop, data.loopCount)
  {
  }
}
