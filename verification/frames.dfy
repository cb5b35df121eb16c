/**
 Runs of frames. The driver adds each frame's delta to `currentTime` and
 stores the delta in `deltaTime`, so frame k of a run sees the clock at
 `times[k]` with `currentTime - deltaTime == times[k-1]`. Over such a run the
 one-shot gates of the replay model fire exactly once per crossing.
 */
module Frames {
  import opened Imanim

  /** Every frame has a positive delta. */
  ghost predicate Increasing(times: seq<real>)
  {
    forall i, j :: 0 <= i < j < |times| ==> times[i] < times[j]
  }

  /** The clock a replay sees in frame k when the script has reached
      `position` with every earlier clip waited for. */
  function FrameAt(times: seq<real>, k: nat, position: real): (a: AnimState)
    requires 1 <= k < |times|
    ensures a.currentTime == times[k] && a.currentTime - a.deltaTime == times[k - 1]
    ensures a.clipStartTime == position && Settled(a)
  {
    AnimState(times[k], position, position, times[k] - times[k - 1])
  }

  /** Number of frames of the run in which the start gate of a clip at
      `position` fires. */
  function StartFirings(times: seq<real>, position: real, duration: real): nat
    requires duration > 0.0
    decreases |times|
  {
    if |times| < 2 then 0
    else
      var last := |times| - 1;
      StartFirings(times[..last], position, duration)
      + (if StartGate(FrameAt(times, last, position), duration).fired then 1 else 0)
  }

  /** Number of frames of the run in which the half-way gate of a clip at
      `position` fires. */
  function MidpointFirings(times: seq<real>, position: real, duration: real): nat
    requires duration > 0.0
    decreases |times|
  {
    if |times| < 2 then 0
    else
      var last := |times| - 1;
      MidpointFirings(times[..last], position, duration)
      + (if MidpointGate(FrameAt(times, last, position), duration, duration).fired then 1 else 0)
  }

  /** The start gate fires in exactly one frame of a run that reaches past
      the clip start from at or before it, and in no frame otherwise. */
  lemma {:induction false} StartFiresOnce(times: seq<real>, position: real, duration: real)
    requires duration > 0.0 && Increasing(times) && |times| >= 1
    ensures StartFirings(times, position, duration)
            == if times[0] <= position < times[|times| - 1] then 1 else 0
  {
    if |times| >= 2 {
      var last := |times| - 1;
      var prefix := times[..last];
      assert Increasing(prefix);
      StartFiresOnce(prefix, position, duration);
      assert prefix[0] == times[0] && prefix[last - 1] == times[last - 1];
    }
  }

  /** The half-way gate fires in exactly one frame of a run that crosses
      the clip's midpoint, and in no frame otherwise. */
  lemma {:induction false} MidpointFiresOnce(times: seq<real>, position: real, duration: real)
    requires duration > 0.0 && Increasing(times) && |times| >= 1
    ensures MidpointFirings(times, position, duration)
            == if times[0] < position + duration / 2.0 <= times[|times| - 1] then 1 else 0
  {
    if |times| >= 2 {
      var last := |times| - 1;
      var prefix := times[..last];
      assert Increasing(prefix);
      MidpointFiresOnce(prefix, position, duration);
      assert prefix[0] == times[0] && prefix[last - 1] == times[last - 1];
    }
  }
}
