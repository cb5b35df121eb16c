/**
 The coroutine-driven animation plug: the frame-by-frame tween loop
 `co_tween_impl`, `co_sleep` built on it, and the plug's use of the call
 stack in `plug_reset` and `plug_update`. Each loop iteration runs in a
 different frame, because the loop yields at the end of every iteration
 and the driver resumes the coroutine once per frame with that frame's
 delta.
 */
module CoTween {
  import opened Imanim
  import opened Coroutines

  /** One `(float *x, a, b)` triple of the variadic list: the storage is
      identified by its position in the list. */
  datatype Track = Track(a: real, b: real)

  /** The loop state after running over some frames. */
  datatype TweenRun = TweenRun(iterations: nat, t: real, values: seq<real>)

  /** One progress update, `t = (t*duration + delta)/duration`. */
  function Advance(t: real, duration: real, delta: real): (r: real)
    requires duration > 0.0
    ensures r == t + delta / duration
  {
    AdvanceIsStep(t, duration, delta);
    (t * duration + delta) / duration
  }

  lemma AdvanceIsStep(t: real, duration: real, delta: real)
    requires duration > 0.0
    ensures (t * duration + delta) / duration == t + delta / duration
  {
    assert (t * duration) / duration == t;
  }

  /** What one iteration writes: every storage gets `Lerp(a, b, t*t)`, with
      no clamping of `t`. */
  function Written(tracks: seq<Track>, t: real, m: Raymath): (vs: seq<real>)
    ensures |vs| == |tracks|
  {
    seq(|tracks|, i requires 0 <= i < |tracks| => m.lerp(tracks[i].a, tracks[i].b, t * t))
  }

  /** `co_tween_impl` resumed over consecutive frames with the given deltas,
      starting from progress `t`; `values` is what the storages hold. */
  function TweenLoop(duration: real, t: real, deltas: seq<real>, tracks: seq<Track>, m: Raymath,
                     values: seq<real>): (r: TweenRun)
    requires duration > 0.0
    ensures r.iterations <= |deltas|
    ensures r.iterations < |deltas| ==> r.t >= 1.0
    ensures t >= 1.0 ==> r.iterations == 0
    ensures t < 1.0 && |deltas| > 0 ==> r.iterations >= 1
    ensures r.iterations >= 1 ==> r.values == Written(tracks, r.t, m)
    ensures r.iterations >= 1 ==> r.t - deltas[r.iterations - 1] / duration < 1.0
    ensures (forall i :: 0 <= i < |deltas| ==> deltas[i] >= 0.0) ==> r.t >= t
    decreases |deltas|
  {
    if t >= 1.0 || |deltas| == 0 then TweenRun(0, t, values)
    else
      var next := Advance(t, duration, deltas[0]);
      var rest := TweenLoop(duration, next, deltas[1..], tracks, m, Written(tracks, next, m));
      rest.(iterations := rest.iterations + 1)
  }

  /** `co_sleep`: a tween of a scratch variable from 0 to 1; only the
      number of frames it takes matters. */
  function CoSleep(duration: real, deltas: seq<real>, m: Raymath): (frames: nat)
    requires duration > 0.0
    ensures frames <= |deltas|
    ensures |deltas| > 0 ==> frames >= 1
  {
    TweenLoop(duration, 0.0, deltas, [Track(0.0, 1.0)], m, [0.0]).iterations
  }

  /** How long a tween runs depends only on its duration and the frame
      deltas, not on what it animates. */
  lemma {:induction false} TweenLengthIgnoresTracks(duration: real, t: real, deltas: seq<real>,
                                                    tracks1: seq<Track>, m1: Raymath, values1: seq<real>,
                                                    tracks2: seq<Track>, m2: Raymath, values2: seq<real>)
    requires duration > 0.0
    ensures TweenLoop(duration, t, deltas, tracks1, m1, values1).iterations
            == TweenLoop(duration, t, deltas, tracks2, m2, values2).iterations
    ensures TweenLoop(duration, t, deltas, tracks1, m1, values1).t
            == TweenLoop(duration, t, deltas, tracks2, m2, values2).t
    decreases |deltas|
  {
    if !(t >= 1.0 || |deltas| == 0) {
      var next := Advance(t, duration, deltas[0]);
      TweenLengthIgnoresTracks(duration, next, deltas[1..],
                               tracks1, m1, Written(tracks1, next, m1),
                               tracks2, m2, Written(tracks2, next, m2));
    }
  }

  /** So `co_sleep` takes as many frames as any tween of that duration. */
  lemma SleepLikeTween(duration: real, deltas: seq<real>, tracks: seq<Track>, m: Raymath, values: seq<real>)
    requires duration > 0.0
    ensures CoSleep(duration, deltas, m) == TweenLoop(duration, 0.0, deltas, tracks, m, values).iterations
  {
    TweenLengthIgnoresTracks(duration, 0.0, deltas, [Track(0.0, 1.0)], m, [0.0], tracks, m, values);
  }

  /** `j` steps of `u`, defined step by step so that each unfolding stays
      linear. */
  function Span(j: nat, u: real): real
  {
    if j == 0 then 0.0 else Span(j - 1, u) + u
  }

  /** `Span(j, u)` is the product `j * u`. */
  lemma {:induction false} SpanIsProduct(j: nat, u: real)
    ensures Span(j, u) == j as real * u
  {
    if j > 0 {
      SpanIsProduct(j - 1, u);
    }
  }

  /** The loop of `co_tween_impl` with every frame lasting `delta`: it
      leaves progress at iterations steps of delta/duration, and given
      enough frames it runs exactly as many iterations as it takes those
      steps to reach 1, one yield each (with `CeilCount`: ceil(duration/delta)).
      The final progress exceeds 1 unless the duration is a multiple of the
      delta. */
  lemma ConstantDeltaTween(duration: real, delta: real, deltas: seq<real>, tracks: seq<Track>, m: Raymath,
                           values: seq<real>)
    requires duration > 0.0 && delta > 0.0
    requires forall i :: 0 <= i < |deltas| ==> deltas[i] == delta
    ensures var r := TweenLoop(duration, 0.0, deltas, tracks, m, values);
            r.t == Span(r.iterations, delta / duration)
    ensures var r := TweenLoop(duration, 0.0, deltas, tracks, m, values);
            Span(|deltas|, delta / duration) >= 1.0 ==>
              r.iterations >= 1 && Span(r.iterations - 1, delta / duration) < 1.0 <= Span(r.iterations, delta / duration)
  {
    ConstantRun(duration, delta, delta / duration, 0, 0.0, deltas, tracks, m, values);
  }

  /** `j` steps of delta/duration reach 1 exactly when `j` frames of
      `delta` cover the duration. */
  lemma SpanScaled(x: real, j: nat, delta: real, duration: real)
    requires duration > 0.0 && x == Span(j, delta / duration)
    ensures x * duration == j as real * delta
    ensures x >= 1.0 <==> j as real * delta >= duration
  {
    SpanIsProduct(j, delta / duration);
    if x >= 1.0 {
      MulNonNegative(x - 1.0, duration);
    } else {
      MulPositive(1.0 - x, duration);
    }
  }

  /** Read with `SpanIsProduct`, the bounds of `ConstantDeltaTween` say
      that the loop runs ceil(duration/delta) iterations: the least count of
      frames of `delta` that covers the duration. */
  lemma CeilCount(duration: real, delta: real, k: nat)
    requires duration > 0.0 && delta > 0.0 && k >= 1
    ensures (Span(k - 1, delta / duration) < 1.0 <= Span(k, delta / duration))
            <==> ((k - 1) as real * delta < duration <= k as real * delta)
  {
    SpanScaled(Span(k - 1, delta / duration), k - 1, delta, duration);
    SpanScaled(Span(k, delta / duration), k, delta, duration);
  }

  /** The induction behind `ConstantDeltaTween`, from a loop that has
      already done `k` iterations and has `deltas` frames left, each
      advancing progress by `u`. */
  lemma {:induction false} ConstantRun(duration: real, delta: real, u: real, k: nat, t: real, deltas: seq<real>,
                                       tracks: seq<Track>, m: Raymath, values: seq<real>)
    requires duration > 0.0 && t == Span(k, u)
    requires forall i :: 0 <= i < |deltas| ==> deltas[i] == delta
    requires u == delta / duration
    ensures var r := TweenLoop(duration, t, deltas, tracks, m, values);
            && r.t == Span(k + r.iterations, u)
            && (Span(k + |deltas|, u) >= 1.0 ==> r.t >= 1.0)
            && (r.iterations >= 1 ==> Span(k + r.iterations - 1, u) < 1.0)
    decreases |deltas|
  {
    var r := TweenLoop(duration, t, deltas, tracks, m, values);
    if t >= 1.0 || |deltas| == 0 {
      assert r == TweenRun(0, t, values);
    } else {
      var next := Advance(t, duration, deltas[0]);
      assert next == Span(k + 1, u);
      ConstantRun(duration, delta, u, k + 1, next, deltas[1..], tracks, m, Written(tracks, next, m));
      var rest := TweenLoop(duration, next, deltas[1..], tracks, m, Written(tracks, next, m));
      assert r == rest.(iterations := rest.iterations + 1);
      assert k + r.iterations == (k + 1) + rest.iterations;
    }
  }

  /** The written value overshoots: a 0.15 tween driven at 0.1 per frame
      ends after two frames with progress 4/3 and writes `Lerp(a, b, 16/9)`. */
  lemma TweenOvershoots(m: Raymath)
    ensures TweenLoop(0.15, 0.0, [0.1, 0.1, 0.1], [Track(0.0, 1.0)], m, [0.0])
            == TweenRun(2, 4.0 / 3.0, [m.lerp(0.0, 1.0, 16.0 / 9.0)])
  {
    var t1 := Advance(0.0, 0.15, 0.1);
    assert t1 == 2.0 / 3.0;
    var t2 := Advance(t1, 0.15, 0.1);
    assert t2 == 4.0 / 3.0;
    assert [0.1, 0.1, 0.1][1..] == [0.1, 0.1];
    assert [0.1, 0.1][1..] == [0.1];
    assert Written([Track(0.0, 1.0)], t2, m) == [m.lerp(0.0, 1.0, 16.0 / 9.0)];
  }

  // ---------------------------------------------------------------------
  // The plug's use of the call stack

  datatype Option<T> = None | Some(value: T)

  /** The plug's coroutine state: the call stack and its animation coroutine. */
  datatype CoPlug = CoPlug(world: World, c: CoId)

  /** `plug_reset`: only legal between frames, when the root is the only
      frame; destroys the previous animation coroutine, if any, and creates
      a new one whose primed context is `entry`. */
  function PlugReset(w: World, c: Option<CoId>, entry: Token): (r: Outcome<CoPlug>)
    requires WellFormed(w)
    requires c.Some? ==> c.value in w.heap && forall i :: 0 <= i < |w.stack.items| ==> w.stack.items[i] != c.value
    ensures r.Ok? <==> |w.stack.items| == 1
    ensures r.Ok? ==> r.value.world.stack == w.stack
    ensures r.Ok? ==> r.value.c in r.value.world.heap && !r.value.world.heap[r.value.c].finished
    ensures r.Ok? ==> r.value.c !in w.heap
    ensures r.Ok? && c.Some? ==> c.value !in r.value.world.heap
  {
    if |w.stack.items| != 1 then Abort("p->stack->count == 1")
    else
      var cleared := if c.Some? then Destroy(w, c.value) else w;
      var created := Create(cleared, entry);
      Ok(CoPlug(created.world, created.id))
  }

  /** How the animation coroutine hands control back before `coroutine_resume`
      returns to the driver: it yields from inside `co_tween` or `co_sleep`
      with its context `rsp`, or its entry function returns into
      `coroutine__finish_current`, which marks it finished and yields. */
  datatype Handback = Yielded(rsp: Token) | Returned(rsp: Token)

  /** The coroutine part of `plug_update`: unless the animation has finished,
      resume it and run it until it hands control back. `rsp` is the driver's
      context saved by the resume; `back` is the coroutine's hand-back. */
  function PlugUpdate(p: CoPlug, rsp: Token, back: Handback): (r: Outcome<Switch>)
    requires WellFormed(p.world) && p.c in p.world.heap
    ensures r.Ok? <==> p.world.heap[p.c].finished || |p.world.stack.items| >= 1
    ensures p.world.heap[p.c].finished ==> r == Ok(Switch(p.world, rsp))
    ensures r.Ok? ==> WellFormed(r.value.world)
    ensures r.Ok? ==> r.value.world.stack.items == p.world.stack.items
    ensures r.Ok? ==> r.value.world.heap.Keys == p.world.heap.Keys && r.value.world.nextId == p.world.nextId
    ensures r.Ok? && !p.world.heap[p.c].finished ==>
              r.value.world.heap[p.c] == Coroutine(back.rsp, back.Returned?)
    ensures r.Ok? && !p.world.heap[p.c].finished ==>
              forall x :: x in p.world.heap && x != p.c && x != Top(p.world) ==> r.value.world.heap[x] == p.world.heap[x]
    ensures r.Ok? && !p.world.heap[p.c].finished && Top(p.world) != p.c ==>
              && r.value.world.heap[Top(p.world)] == p.world.heap[Top(p.world)].(rsp := rsp)
              && r.value.restored == rsp
  {
    if p.world.heap[p.c].finished then Ok(Switch(p.world, rsp))
    else
      var s :- Resume(p.world, p.c, rsp);
      match back
      case Yielded(yielded) => PopFrame(s.world, yielded)
      case Returned(returned) => FinishCurrent(s.world, returned)
  }

  /** A run of frames, each with its own hand-back. */
  function RunFrames(p: CoPlug, rsp: Token, backs: seq<Handback>): Outcome<World>
    requires WellFormed(p.world) && p.c in p.world.heap
    decreases |backs|
  {
    if |backs| == 0 then Ok(p.world)
    else
      match PlugUpdate(p, rsp, backs[0])
      case Abort(message) => Abort(message)
      case Ok(s) => RunFrames(CoPlug(s.world, p.c), rsp, backs[1..])
  }

  /** Between frames only the root is on the stack, whatever the animation
      did in each frame; so `plug_reset`'s `count == 1` assertion holds after
      any number of frames. */
  lemma {:induction false} FramesReturnToRoot(p: CoPlug, rsp: Token, backs: seq<Handback>, entry: Token)
    requires Valid(p.world) && p.c in p.world.heap
    requires |p.world.stack.items| == 1 && p.world.stack.items[0] != p.c
    ensures RunFrames(p, rsp, backs).Ok?
    ensures var w := RunFrames(p, rsp, backs).value;
            && WellFormed(w) && p.c in w.heap
            && w.stack.items == p.world.stack.items
            && PlugReset(w, Some(p.c), entry).Ok?
    decreases |backs|
  {
    if |backs| > 0 {
      var s := PlugUpdate(p, rsp, backs[0]).value;
      FramesReturnToRoot(CoPlug(s.world, p.c), rsp, backs[1..], entry);
    }
  }

  /** Without the guard, the frame after the animation finished would
      abort: the guard is what keeps the driver alive. */
  lemma GuardNeeded(p: CoPlug, rsp: Token, back: Handback)
    requires Valid(p.world) && p.c in p.world.heap
    requires p.world.heap[p.c].finished
    ensures Resume(p.world, p.c, rsp).Abort?
    ensures PlugUpdate(p, rsp, back) == Ok(Switch(p.world, rsp))
  {
  }
}
