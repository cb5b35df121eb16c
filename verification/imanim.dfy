/**
 The stackless replay clock: an `AnimState` record and the operations a
 replayed script calls on it. A script runs from the top every frame;
 `ClipTime` turns the distance between the current time and the script's
 position on the timeline (`clipStartTime`) into a progress value in [0, 1],
 and the wait operations move that position forward. Time is modelled as
 `real`, so sums such as 0.15 + 0.25 are exact here.
 */
module Imanim {

  /** The four scalars of the clock. */
  datatype AnimState = AnimState(
    currentTime: real,   // time since the start of the animation, advanced once per frame
    clipStartTime: real, // where the script is on the timeline; moved only by the waits
    globEnd: real,       // furthest point any clip of this replay has reserved
    deltaTime: real      // duration of the last frame
  )

  datatype Vec2 = Vec2(x: real, y: real)
  datatype Vec4 = Vec4(x: real, y: real, z: real, w: real)

  /** The raymath interpolation and easing functions. Their bodies are not
      part of this model, so they are carried around as function values. */
  datatype Raymath = Raymath(
    lerp: (real, real, real) -> real,
    lerp2: (Vec2, Vec2, real) -> Vec2,
    lerp4: (Vec4, Vec4, real) -> Vec4,
    smoothstep: real -> real
  )

  /** The easing selector of the `Interp_Func` variants of the moves. */
  datatype InterpFunc = FuncId | FuncSmoothstep

  function Ease(m: Raymath, f: InterpFunc, t: real): real
  {
    match f
    case FuncId => t
    case FuncSmoothstep => m.smoothstep(t)
  }

  function Max(x: real, y: real): real
  {
    if x >= y then x else y
  }

  /** The result of a clip query: the progress and the clock afterwards. */
  datatype Clip = Clip(t: real, anim: AnimState)

  /** A tween's result: the new value of the animated storage and the clock. */
  datatype Moved<T> = Moved(value: T, anim: AnimState)

  /** `r` is `a` with only the high-water mark raised to cover a clip of
      length `duration` starting at the script's position. */
  ghost predicate Reserved(a: AnimState, r: AnimState, duration: real)
  {
    && r.currentTime == a.currentTime
    && r.clipStartTime == a.clipStartTime
    && r.deltaTime == a.deltaTime
    && r.globEnd == Max(a.globEnd, a.clipStartTime + duration)
  }

  /** The ordering invariant of the clock. */
  ghost predicate Ordered(a: AnimState)
  {
    a.clipStartTime <= a.globEnd
  }

  /** Every clip reserved so far has been waited for: the state a replay
      starts in (both reset to 0) and the state after every `WaitForEnd`. */
  ghost predicate Settled(a: AnimState)
  {
    a.clipStartTime == a.globEnd
  }

  /** Clamps a ratio into [0, 1] the way `clipTime` does. */
  function Clamp01(x: real): (r: real)
    ensures 0.0 <= r <= 1.0
    ensures 0.0 <= x <= 1.0 ==> r == x
    ensures x <= 0.0 ==> r == 0.0
    ensures x >= 1.0 ==> r == 1.0
  {
    var lo := if x < 0.0 then 0.0 else x;
    if lo > 1.0 then 1.0 else lo
  }

  /** Progress through a clip of length `duration` when `elapsed` time has
      passed since its start. */
  function Progress(elapsed: real, duration: real): (t: real)
    requires duration > 0.0
    ensures 0.0 <= t <= 1.0
    ensures t == 0.0 <==> elapsed <= 0.0
    ensures t == 1.0 <==> elapsed >= duration
    ensures 0.0 < elapsed < duration ==> 0.0 < t < 1.0 && t * duration == elapsed
  {
    var ratio := elapsed / duration;
    assert ratio * duration == elapsed;
    assert ratio >= 1.0 <==> elapsed >= duration by {
      if ratio >= 1.0 {
        assert ratio * duration >= 1.0 * duration;
      } else {
        assert ratio * duration < 1.0 * duration;
      }
    }
    Clamp01(ratio)
  }

  /** The shared high-water-mark update of clipTime, prevClipTime and anim_wait. */
  function Reserve(a: AnimState, duration: real): (r: AnimState)
    ensures Reserved(a, r, duration)
  {
    if a.globEnd < a.clipStartTime + duration then a.(globEnd := a.clipStartTime + duration) else a
  }

  /** `clipTime`: 0 before the clip starts, 1 once it is over, linear in
      between; reserves the clip on the timeline. */
  function ClipTime(a: AnimState, duration: real): (c: Clip)
    requires duration > 0.0
    ensures 0.0 <= c.t <= 1.0
    ensures c.t == 0.0 <==> a.currentTime <= a.clipStartTime
    ensures c.t == 1.0 <==> a.currentTime >= a.clipStartTime + duration
    ensures a.clipStartTime < a.currentTime < a.clipStartTime + duration ==>
              c.t * duration == a.currentTime - a.clipStartTime
    ensures Reserved(a, c.anim, duration)
  {
    Clip(Progress(a.currentTime - a.clipStartTime, duration), Reserve(a, duration))
  }

  /** `prevClipTime`: the progress the clip had one frame earlier. */
  function PrevClipTime(a: AnimState, duration: real): (c: Clip)
    requires duration > 0.0
    ensures c.t == ClipTime(a.(currentTime := a.currentTime - a.deltaTime), duration).t
    ensures c.t == 0.0 <==> a.currentTime - a.deltaTime <= a.clipStartTime
    ensures c.t == 1.0 <==> a.currentTime - a.deltaTime >= a.clipStartTime + duration
    ensures Reserved(a, c.anim, duration)
  {
    Clip(Progress(a.currentTime - a.deltaTime - a.clipStartTime, duration), Reserve(a, duration))
  }

  /** `anim_wait`: reserve `duration` after the script's position, then jump
      to the high-water mark. */
  function Wait(a: AnimState, duration: real): (r: AnimState)
    ensures r.clipStartTime == r.globEnd == Max(a.globEnd, a.clipStartTime + duration)
    ensures r.clipStartTime >= a.clipStartTime + duration
    ensures r.currentTime == a.currentTime && r.deltaTime == a.deltaTime
    ensures Settled(a) && duration >= 0.0 ==> r.clipStartTime == a.clipStartTime + duration
  {
    var reserved := Reserve(a, duration);
    reserved.(clipStartTime := reserved.globEnd)
  }

  /** `wait_for_end`: jump past every clip reserved so far. */
  function WaitForEnd(a: AnimState): (r: AnimState)
    ensures Settled(r)
    ensures r.clipStartTime == a.globEnd
    ensures r.globEnd == a.globEnd && r.currentTime == a.currentTime && r.deltaTime == a.deltaTime
    ensures Settled(a) ==> r == a
  {
    a.(clipStartTime := a.globEnd)
  }

  /** The tween rule shared by `anim_move_scalar`, `anim_move_vec2` and
      `anim_move_vec4`: no-op at progress 0, snap to `dst` at progress 1,
      otherwise interpolate from the CURRENT value with `mix`. */
  function Move<T>(a: AnimState, src: T, dst: T, duration: real, mix: (T, T, real) -> T): (r: Moved<T>)
    requires duration > 0.0
    ensures a.currentTime <= a.clipStartTime ==> r.value == src
    ensures a.currentTime >= a.clipStartTime + duration ==> r.value == dst
    ensures a.clipStartTime < a.currentTime < a.clipStartTime + duration ==>
              exists t :: 0.0 < t < 1.0 && t * duration == a.currentTime - a.clipStartTime && r.value == mix(src, dst, t)
    ensures Reserved(a, r.anim, duration)
  {
    var c := ClipTime(a, duration);
    if c.t <= 0.0 then Moved(src, c.anim)
    else if c.t >= 1.0 then Moved(dst, c.anim)
    else Moved(mix(src, dst, c.t), c.anim)
  }

  /** `anim_move_scalar` of the header without an easing argument. */
  function MoveScalar(a: AnimState, src: real, dst: real, duration: real, m: Raymath): (r: Moved<real>)
    requires duration > 0.0
    ensures a.currentTime <= a.clipStartTime ==> r.value == src
    ensures a.currentTime >= a.clipStartTime + duration ==> r.value == dst
    ensures a.clipStartTime < a.currentTime < a.clipStartTime + duration ==>
              exists t :: 0.0 < t < 1.0 && t * duration == a.currentTime - a.clipStartTime && r.value == m.lerp(src, dst, t)
    ensures Reserved(a, r.anim, duration)
  {
    Move(a, src, dst, duration, m.lerp)
  }

  /** The `Interp_Func` variant: the progress passes through the easing
      function before reaching the interpolation. */
  function EasedMove<T>(a: AnimState, src: T, dst: T, duration: real, mix: (T, T, real) -> T,
                        m: Raymath, f: InterpFunc): (r: Moved<T>)
    requires duration > 0.0
    ensures a.currentTime <= a.clipStartTime ==> r.value == src
    ensures a.currentTime >= a.clipStartTime + duration ==> r.value == dst
    ensures a.clipStartTime < a.currentTime < a.clipStartTime + duration ==>
              exists t :: 0.0 < t < 1.0 && t * duration == a.currentTime - a.clipStartTime
                          && r.value == mix(src, dst, Ease(m, f, t))
    ensures Reserved(a, r.anim, duration)
  {
    Move(a, src, dst, duration, (x: T, y: T, t: real) => mix(x, y, Ease(m, f, t)))
  }

  /** The one-shot sound gate `clipTime(d) > 0 && prevClipTime(d) == 0`.
      The second query is only evaluated when the first is positive. */
  datatype Gate = Gate(fired: bool, anim: AnimState)

  function StartGate(a: AnimState, duration: real): (g: Gate)
    requires duration > 0.0
    ensures g.fired <==> a.currentTime - a.deltaTime <= a.clipStartTime < a.currentTime
    ensures Reserved(a, g.anim, duration)
  {
    var curr := ClipTime(a, duration);
    if curr.t > 0.0 then
      var prev := PrevClipTime(curr.anim, duration);
      Gate(prev.t == 0.0, prev.anim)
    else
      Gate(false, curr.anim)
  }

  /** The half-way sound gate of the writing tasks: after the early return
      on progress 0, `prevClipTime(prevDuration) < 0.5 && clipTime(duration) >= 0.5`.
      The tasks pass the writing duration as `prevDuration` whatever their
      own duration is. */
  function MidpointGate(a: AnimState, duration: real, prevDuration: real): (g: Gate)
    requires duration > 0.0 && prevDuration > 0.0
    ensures g.fired <==> (a.currentTime >= a.clipStartTime + duration / 2.0
                          && a.currentTime - a.deltaTime < a.clipStartTime + prevDuration / 2.0)
    ensures a.currentTime <= a.clipStartTime ==> Reserved(a, g.anim, duration)
    ensures a.currentTime > a.clipStartTime ==> Reserved(Reserve(a, duration), g.anim, prevDuration)
  {
    var curr := ClipTime(a, duration);
    if curr.t <= 0.0 then
      Gate(false, curr.anim)
    else
      var prev := PrevClipTime(curr.anim, prevDuration);
      HalfWay(a.currentTime - a.clipStartTime, duration);
      HalfWay(a.currentTime - a.deltaTime - a.clipStartTime, prevDuration);
      Gate(prev.t < 0.5 && curr.t >= 0.5, prev.anim)
  }

  /** Progress reaches one half exactly when half the clip has elapsed. */
  lemma HalfWay(elapsed: real, duration: real)
    requires duration > 0.0
    ensures Progress(elapsed, duration) >= 0.5 <==> elapsed >= duration / 2.0
  {
    if 0.0 < elapsed < duration {
      ScaledHalf(Progress(elapsed, duration), duration, elapsed);
    }
  }

  lemma ScaledHalf(t: real, duration: real, elapsed: real)
    requires duration > 0.0 && t * duration == elapsed
    ensures t >= 0.5 <==> elapsed >= duration / 2.0
  {
    if t >= 0.5 {
      MulNonNegative(t - 0.5, duration);
    } else {
      MulPositive(0.5 - t, duration);
    }
  }

  lemma MulNonNegative(x: real, y: real)
    requires x >= 0.0 && y >= 0.0
    ensures x * y >= 0.0
  {
  }

  lemma MulPositive(x: real, y: real)
    requires x > 0.0 && y > 0.0
    ensures x * y > 0.0
  {
  }

  // ---------------------------------------------------------------------
  // Properties relating several calls

  /** For a fixed script position, progress never decreases as time passes. */
  lemma ClipTimeMonotone(a: AnimState, later: real, duration: real)
    requires duration > 0.0
    requires a.currentTime <= later
    ensures ClipTime(a, duration).t <= ClipTime(a.(currentTime := later), duration).t
  {
    var e1 := a.currentTime - a.clipStartTime;
    var e2 := later - a.clipStartTime;
    assert e1 / duration <= e2 / duration by {
      DivMonotone(e1, e2, duration);
    }
  }

  lemma DivMonotone(x: real, y: real, d: real)
    requires d > 0.0 && x <= y
    ensures x / d <= y / d
  {
    assert (y - x) / d >= 0.0;
    assert y / d - x / d == (y - x) / d;
  }

  /** With a non-negative frame duration the previous frame's progress is
      never ahead of the current one, and both reserve the same clip. */
  lemma PrevNotAhead(a: AnimState, duration: real)
    requires duration > 0.0 && a.deltaTime >= 0.0
    ensures PrevClipTime(a, duration).t <= ClipTime(a, duration).t
    ensures PrevClipTime(a, duration).anim == ClipTime(a, duration).anim
  {
    ClipTimeMonotone(a.(currentTime := a.currentTime - a.deltaTime), a.currentTime, duration);
  }

  /** Every clock operation keeps `clipStartTime <= globEnd`, given
      non-negative durations. */
  lemma OrderedPreserved(a: AnimState, duration: real)
    requires Ordered(a) && duration > 0.0
    ensures Ordered(ClipTime(a, duration).anim)
    ensures Ordered(PrevClipTime(a, duration).anim)
    ensures Ordered(Wait(a, duration))
    ensures Ordered(WaitForEnd(a))
  {
  }

  /** Only the waits move the script's position; the queries leave it and
      the frame clock alone. */
  lemma OnlyWaitsMovePosition(a: AnimState, duration: real)
    requires duration > 0.0
    ensures ClipTime(a, duration).anim.clipStartTime == a.clipStartTime
    ensures PrevClipTime(a, duration).anim.clipStartTime == a.clipStartTime
    ensures ClipTime(a, duration).anim.currentTime == a.currentTime
    ensures Wait(a, duration).clipStartTime >= a.clipStartTime + duration
  {
  }

  /** Replaying a move once its clip is over reproduces the target, whatever
      value the storage held: the terminal state is a fixed point. */
  lemma MoveSettlesAtTarget<T>(a: AnimState, v1: T, v2: T, dst: T, duration: real, mix: (T, T, real) -> T)
    requires duration > 0.0 && a.currentTime >= a.clipStartTime + duration
    ensures Move(a, v1, dst, duration, mix) == Move(a, v2, dst, duration, mix)
    ensures Move(a, Move(a, v1, dst, duration, mix).value, dst, duration, mix).value == dst
  {
  }

  /** A two-step script: move `x` to 10 over one second, `anim_wait(0.5)`,
      move `y` to 5 over half a second, then wait for the end. The wait
      reserves half a second from the script position, which the move has
      not advanced, so it ends where the first move ends. */
  function TwoStep(a: AnimState, x: real, y: real, m: Raymath): (r: (real, real, bool))
  {
    var mx := MoveScalar(a, x, 10.0, 1.0, m);
    var w := Wait(mx.anim, 0.5);
    var my := MoveScalar(w, y, 5.0, 0.5, m);
    var end := WaitForEnd(my.anim);
    (mx.value, my.value, end.currentTime >= end.clipStartTime)
  }

  /** Replayed from a fresh clock at time `t`: `x` arrives at one second,
      `y` does not move before one second and has arrived at one and a
      half, and the script is finished exactly from one and a half on. */
  lemma TwoStepScenario(t: real, x: real, y: real, m: Raymath)
    ensures t >= 1.0 ==> TwoStep(AnimState(t, 0.0, 0.0, 0.25), x, y, m).0 == 10.0
    ensures t <= 1.0 ==> TwoStep(AnimState(t, 0.0, 0.0, 0.25), x, y, m).1 == y
    ensures t >= 1.5 ==> TwoStep(AnimState(t, 0.0, 0.0, 0.25), x, y, m).1 == 5.0
    ensures TwoStep(AnimState(t, 0.0, 0.0, 0.25), x, y, m).2 <==> t >= 1.5
  {
    var a := AnimState(t, 0.0, 0.0, 0.25);
    var mx := MoveScalar(a, x, 10.0, 1.0, m);
    assert mx.anim == AnimState(t, 0.0, 1.0, 0.25);
    var w := Wait(mx.anim, 0.5);
    assert w == AnimState(t, 1.0, 1.0, 0.25);
    var my := MoveScalar(w, y, 5.0, 0.5, m);
    assert my.anim == AnimState(t, 1.0, 1.5, 0.25);
  }
}
