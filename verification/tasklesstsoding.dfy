/**
 The "Tsoding animation" script on the replay clock: a square grows, gets
 rounded, fades to red while rotating, and shrinks again, with a kick sound
 at the start of each of the four steps. The whole script is replayed from
 the top in every frame; the storage is zeroed first, so what a frame shows
 depends on the clock alone.
 */
module TasklessTsoding {
  import opened Imanim
  import opened Frames

  /** The four animated storages of the plug. */
  datatype Shape = Shape(radius: real, roundness: real, alpha: real, rotation: real)

  const Zero := Shape(0.0, 0.0, 0.0, 0.0)

  /** Length of every interpolation of the script. */
  const StepLength := 0.15
  /** Pause after each of the first three steps. */
  const Pause := 0.25
  /** Pause after the last step. */
  const Tail := 2.0
  /** Window of the kick gate. */
  const KickLength := 0.1

  /** Where the replay ends, relative to its start:
      4 * StepLength + 3 * Pause + Tail. */
  const Total := 3.35

  /** Where the last interpolation ends, relative to the start. */
  const LastMoveEnd := 1.35

  /** `co_interpolate`: move the storage towards `to` with the identity
      easing, then wait for the move to end. The start value `from` is
      ignored: the move always starts from what the storage holds. */
  function CoInterpolate(a: AnimState, x: real, from: real, to: real, duration: real, m: Raymath): (r: Moved<real>)
    requires duration > 0.0
    ensures a.currentTime <= a.clipStartTime ==> r.value == x
    ensures a.currentTime >= a.clipStartTime + duration ==> r.value == to
    ensures a.clipStartTime < a.currentTime < a.clipStartTime + duration ==>
              exists t :: 0.0 < t < 1.0 && t * duration == a.currentTime - a.clipStartTime
                          && r.value == m.lerp(x, to, t)
    ensures Settled(r.anim) && r.anim.clipStartTime == Max(a.globEnd, a.clipStartTime + duration)
    ensures r.anim.currentTime == a.currentTime && r.anim.deltaTime == a.deltaTime
  {
    var moved := EasedMove(a, x, to, duration, m.lerp, m, FuncId);
    Moved(moved.value, WaitForEnd(moved.anim))
  }

  datatype Triple = Triple(x: real, y: real, z: real)

  /** `co_interpolate3`: three moves that share one start, then wait for
      the longest of them. */
  function CoInterpolate3(a: AnimState, v: Triple, from: Triple, to: Triple, duration: real, m: Raymath): (r: Moved<Triple>)
    requires duration > 0.0
    ensures a.currentTime <= a.clipStartTime ==> r.value == v
    ensures a.currentTime >= a.clipStartTime + duration ==> r.value == to
    ensures Settled(r.anim) && r.anim.clipStartTime == Max(a.globEnd, a.clipStartTime + duration)
    ensures r.anim.currentTime == a.currentTime && r.anim.deltaTime == a.deltaTime
  {
    var mx := EasedMove(a, v.x, to.x, duration, m.lerp, m, FuncId);
    var my := EasedMove(mx.anim, v.y, to.y, duration, m.lerp, m, FuncId);
    var mz := EasedMove(my.anim, v.z, to.z, duration, m.lerp, m, FuncId);
    Moved(Triple(mx.value, my.value, mz.value), WaitForEnd(mz.anim))
  }

  /** `co_sleep` of this script. */
  function CoSleep(a: AnimState, duration: real): (r: AnimState)
    ensures r.clipStartTime == r.globEnd == Max(a.globEnd, a.clipStartTime + duration)
    ensures r.currentTime == a.currentTime && r.deltaTime == a.deltaTime
  {
    Wait(a, duration)
  }

  /** 1 when the previous frame was at or before `position` and the current
      frame is past it. */
  function Crossing(a: AnimState, position: real): nat
  {
    if a.currentTime - a.deltaTime <= position < a.currentTime then 1 else 0
  }

  /** How many of the four step starts 0, 0.4, 0.8 and 1.2 lie in
      [before, now). */
  function KicksBetween(before: real, now: real): nat
  {
    (if before <= 0.0 < now then 1 else 0) + (if before <= 0.4 < now then 1 else 0)
    + (if before <= 0.8 < now then 1 else 0) + (if before <= 1.2 < now then 1 else 0)
  }

  /** The result of one replay: the storage, the clock, and how many kick
      sounds were started. */
  datatype Replay = Replay(shape: Shape, anim: AnimState, kicks: nat)

  /** The clock and the running kick count after a kick gate. */
  datatype Kicked = Kicked(anim: AnimState, kicks: nat)

  /** One kick gate: the replay's kick count grows by one when it fires. */
  function KickGate(a: AnimState, kicks: nat): (r: Kicked)
    ensures r.kicks == kicks + Crossing(a, a.clipStartTime)
    ensures Reserved(a, r.anim, KickLength)
  {
    var g := StartGate(a, KickLength);
    Kicked(g.anim, kicks + if g.fired then 1 else 0)
  }

  /** `r` is the clock after a step of `length` seconds that ends with a
      wait: same frame, settled, and on a settled clock advanced by `length`. */
  ghost predicate Stepped(a: AnimState, r: AnimState, length: real)
  {
    && r.currentTime == a.currentTime && r.deltaTime == a.deltaTime
    && Settled(r)
    && (Settled(a) ==> r.clipStartTime == a.clipStartTime + length)
  }

  /** The first step of `animation`: the kick gate, whose two queries are
      both evaluated, the radius growing to 1, and a pause. */
  function Grow(a: AnimState, sh: Shape, m: Raymath): (r: Replay)
    ensures Stepped(a, r.anim, StepLength + Pause)
    ensures Settled(a) ==> r.kicks == Crossing(a, a.clipStartTime)
    ensures Settled(a) && a.currentTime <= a.clipStartTime ==> r.shape == sh
    ensures Settled(a) && a.currentTime >= a.clipStartTime + StepLength ==> r.shape == sh.(radius := 1.0)
  {
    var curr := ClipTime(a, KickLength);
    var prev := PrevClipTime(curr.anim, KickLength);
    var kicks := if curr.t > 0.0 && prev.t == 0.0 then 1 else 0;
    var i := CoInterpolate(prev.anim, sh.radius, 0.0, 1.0, StepLength, m);
    Replay(sh.(radius := i.value), CoSleep(i.anim, Pause), kicks)
  }

  /** The second step: the kick gate, the roundness growing to 1, a pause. */
  function Round(a: AnimState, sh: Shape, kicks: nat, m: Raymath): (r: Replay)
    ensures Stepped(a, r.anim, StepLength + Pause)
    ensures Settled(a) ==> r.kicks == kicks + Crossing(a, a.clipStartTime)
    ensures Settled(a) && a.currentTime <= a.clipStartTime ==> r.shape == sh
    ensures Settled(a) && a.currentTime >= a.clipStartTime + StepLength ==> r.shape == sh.(roundness := 1.0)
  {
    var g := KickGate(a, kicks);
    var i := CoInterpolate(g.anim, sh.roundness, 0.0, 1.0, StepLength, m);
    Replay(sh.(roundness := i.value), CoSleep(i.anim, Pause), g.kicks)
  }

  /** The third step: the kick gate, the alpha and rotation growing to 1
      while the roundness goes back to 0, a pause. */
  function Fade(a: AnimState, sh: Shape, kicks: nat, m: Raymath): (r: Replay)
    ensures Stepped(a, r.anim, StepLength + Pause)
    ensures Settled(a) ==> r.kicks == kicks + Crossing(a, a.clipStartTime)
    ensures Settled(a) && a.currentTime <= a.clipStartTime ==> r.shape == sh
    ensures Settled(a) && a.currentTime >= a.clipStartTime + StepLength ==>
              r.shape == sh.(alpha := 1.0, roundness := 0.0, rotation := 1.0)
  {
    var g := KickGate(a, kicks);
    var i := CoInterpolate3(g.anim, Triple(sh.alpha, sh.roundness, sh.rotation),
                            Triple(0.0, 1.0, 0.0), Triple(1.0, 0.0, 1.0), StepLength, m);
    Replay(sh.(alpha := i.value.x, roundness := i.value.y, rotation := i.value.z), CoSleep(i.anim, Pause), g.kicks)
  }

  /** The last step: the kick gate, the radius shrinking to 0, and the
      long pause at the end. */
  function Shrink(a: AnimState, sh: Shape, kicks: nat, m: Raymath): (r: Replay)
    ensures Stepped(a, r.anim, StepLength + Tail)
    ensures Settled(a) ==> r.kicks == kicks + Crossing(a, a.clipStartTime)
    ensures Settled(a) && a.currentTime <= a.clipStartTime ==> r.shape == sh
    ensures Settled(a) && a.currentTime >= a.clipStartTime + StepLength ==> r.shape == sh.(radius := 0.0)
  {
    var g := KickGate(a, kicks);
    var i := CoInterpolate(g.anim, sh.radius, 1.0, 0.0, StepLength, m);
    Replay(sh.(radius := i.value), CoSleep(i.anim, Tail), g.kicks)
  }

  /** `animation`: the storage is zeroed, then the four steps run one after
      the other. */
  function Animation(a: AnimState, m: Raymath): (r: Replay)
    ensures r.anim.currentTime == a.currentTime && r.anim.deltaTime == a.deltaTime
    ensures Settled(r.anim)
    ensures Settled(a) ==> r.anim.clipStartTime == a.clipStartTime + Total
    ensures Settled(a) ==>
              r.kicks == Crossing(a, a.clipStartTime) + Crossing(a, a.clipStartTime + 0.4)
                         + Crossing(a, a.clipStartTime + 0.8) + Crossing(a, a.clipStartTime + 1.2)
    ensures Settled(a) && a.currentTime <= a.clipStartTime ==> r.shape == Zero
    ensures Settled(a) && a.currentTime >= a.clipStartTime + LastMoveEnd ==> r.shape == Shape(0.0, 0.0, 1.0, 1.0)
  {
    var r1 := Grow(a, Zero, m);
    var r2 := Round(r1.anim, r1.shape, r1.kicks, m);
    var r3 := Fade(r2.anim, r2.shape, r2.kicks, m);
    Shrink(r3.anim, r3.shape, r3.kicks, m)
  }

  /** The plug state that survives between frames. */
  datatype Plug = Plug(shape: Shape, anim: AnimState, finished: bool)

  /** A frame's outcome: the new plug state and the kicks it played. */
  datatype Frame = Frame(plug: Plug, kicks: nat)

  /** The clock handling of `plug_update`: rewind the script position,
      advance the frame clock, replay, and report whether the clock has
      reached the end of the script. */
  function PlugUpdate(p: Plug, delta: real, m: Raymath): (r: Frame)
    ensures r.plug.anim.currentTime == p.anim.currentTime + delta && r.plug.anim.deltaTime == delta
    ensures r.plug.finished <==> p.anim.currentTime + delta >= Total
    ensures p.anim.currentTime + delta <= 0.0 ==> r.plug.shape == Zero
    ensures p.anim.currentTime + delta >= LastMoveEnd ==> r.plug.shape == Shape(0.0, 0.0, 1.0, 1.0)
    ensures r.kicks == KicksBetween(p.anim.currentTime, p.anim.currentTime + delta)
  {
    var clock := AnimState(p.anim.currentTime + delta, 0.0, 0.0, delta);
    var replay := Animation(clock, m);
    Frame(Plug(replay.shape, replay.anim, replay.anim.currentTime >= replay.anim.clipStartTime), replay.kicks)
  }

  /** `plug_reset`: rewind the frame clock only. */
  function PlugReset(p: Plug): (r: Plug)
    ensures r.anim.currentTime == 0.0
    ensures r.shape == p.shape && r.finished == p.finished
    ensures r.anim.clipStartTime == p.anim.clipStartTime && r.anim.globEnd == p.anim.globEnd
    ensures r.anim.deltaTime == p.anim.deltaTime
  {
    p.(anim := p.anim.(currentTime := 0.0))
  }

  // ---------------------------------------------------------------------
  // Properties

  /** `co_interpolate` does not look at its start argument. */
  lemma InterpolateIgnoresStart(a: AnimState, x: real, from1: real, from2: real, to: real, duration: real, m: Raymath)
    requires duration > 0.0
    ensures CoInterpolate(a, x, from1, to, duration, m) == CoInterpolate(a, x, from2, to, duration, m)
  {
  }

  /** A frame depends only on the clock: the storage the previous frame left
      behind is overwritten before it is read. */
  lemma FrameIgnoresStorage(p: Plug, q: Plug, delta: real, m: Raymath)
    requires p.anim.currentTime == q.anim.currentTime
    ensures PlugUpdate(p, delta, m) == PlugUpdate(q, delta, m)
  {
  }

  /** After a reset, the next frame is the same whatever state the plug was
      in: it shows the script at time `delta`. */
  lemma ResetRestarts(p: Plug, q: Plug, delta: real, m: Raymath)
    ensures PlugUpdate(PlugReset(p), delta, m) == PlugUpdate(PlugReset(q), delta, m)
    ensures PlugUpdate(PlugReset(p), delta, m).plug.anim.currentTime == delta
  {
  }

  /** Kick sounds started over frames 1 .. |times|-1 of a run, where the
      frame before frame k had its clock at `times[k-1]`. */
  function KickCount(times: seq<real>, m: Raymath): nat
    decreases |times|
  {
    if |times| < 2 then 0
    else
      var last := |times| - 1;
      var before := Plug(Zero, AnimState(times[last - 1], 0.0, 0.0, 0.0), false);
      KickCount(times[..last], m) + PlugUpdate(before, times[last] - times[last - 1], m).kicks
  }

  /** 1 when a run of frames passed the step start `position`, counted as the
      start gate does: from the first time on, strictly before the last. */
  function StartCrossed(times: seq<real>, position: real): nat
    requires |times| >= 1
  {
    if times[0] <= position < times[|times| - 1] then 1 else 0
  }

  /** Over a run of frames with positive deltas, each kick sounds exactly
      once if the run crosses its step start, so a run from before the
      start to past 1.2 seconds plays exactly four kicks. */
  lemma KicksOnce(times: seq<real>, m: Raymath)
    requires Increasing(times) && |times| >= 1
    ensures KickCount(times, m) == StartCrossed(times, 0.0) + StartCrossed(times, 0.4) + StartCrossed(times, 0.8) + StartCrossed(times, 1.2)
    ensures times[0] <= 0.0 && times[|times| - 1] > 1.2 ==> KickCount(times, m) == 4
  {
    KicksAreStarts(times, m);
    StartFiresOnce(times, 0.0, KickLength);
    StartFiresOnce(times, 0.4, KickLength);
    StartFiresOnce(times, 0.8, KickLength);
    StartFiresOnce(times, 1.2, KickLength);
  }

  /** The kicks of a run are the start-gate firings at the four step starts. */
  lemma {:induction false} KicksAreStarts(times: seq<real>, m: Raymath)
    ensures KickCount(times, m) == StartFirings(times, 0.0, KickLength) + StartFirings(times, 0.4, KickLength)
                                   + StartFirings(times, 0.8, KickLength) + StartFirings(times, 1.2, KickLength)
    decreases |times|
  {
    if |times| >= 2 {
      var last := |times| - 1;
      KicksAreStarts(times[..last], m);
      KickCountStep(times, m);
      StartFiringsStep(times, 0.0);
      StartFiringsStep(times, 0.4);
      StartFiringsStep(times, 0.8);
      StartFiringsStep(times, 1.2);
    }
  }

  /** The last frame of a run plays the kicks whose step start it crosses. */
  lemma KickCountStep(times: seq<real>, m: Raymath)
    requires |times| >= 2
    ensures KickCount(times, m) == KickCount(times[..|times| - 1], m) + KicksBetween(times[|times| - 2], times[|times| - 1])
  {
  }

  /** The last frame of a run fires the kick gate at `position` exactly
      when it crosses it. */
  lemma StartFiringsStep(times: seq<real>, position: real)
    requires |times| >= 2
    ensures StartFirings(times, position, KickLength)
            == StartFirings(times[..|times| - 1], position, KickLength)
               + (if times[|times| - 2] <= position < times[|times| - 1] then 1 else 0)
  {
  }
}
