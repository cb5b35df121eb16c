# Animation scheduling core of tsoding_panim, in Dafny

This project models the scheduling core of a small animation framework. The framework has two ways to write an animation as a straight-line script.

The **replay clock** (`imanim`) is stackless. The script runs from the top in every frame. An `AnimState` holds four things:

- the frame clock;
- the script's position on the timeline;
- a high-water mark of the clips reserved so far;
- the last frame's duration.

`clipTime` turns "where is the clock relative to this clip" into a progress value in [0, 1]. The moves snap to their target at progress 1 and do nothing at progress 0. The waits advance the script's position. The sound triggers combine `clipTime` and `prevClipTime` so that each fires in exactly one frame.

Three scripts are modelled on top of the clock:

- the *Tsoding* shape animation with its four kick sounds;
- the *loading squares*;
- the *Turing machine* animation, in which a binary increment machine adds one to 7 on a 50-cell tape.

The **coroutine engine** (`tsoding`) is stackful. A call stack of coroutine records sits above an x86-64 context switch. `coroutine_resume` pushes a frame and `coroutine_yield` pops it. A coroutine whose entry function returns is marked finished and yields one last time. The plug drives the tween loop `co_tween_impl`, one iteration per frame.

Modules:

- `Imanim` (`imanim.dfy`): the clock, the moves and the one-shot sound gates.
- `Frames` (`frames.dfy`): a run of frames with increasing clock values. It proves that a start gate or a half-way gate fires in exactly one frame of any run that crosses its threshold.
- `Coroutines` (`coroutine.dfy`): the call stack as a state machine over a heap of records. The C `assert`s and the unreachable-abort become `Abort` outcomes.
- `CoTween` (`cotween.dfy`): the tween loop, `co_sleep`, and the stack handling of the plug.
- `TasklessTsoding`, `TasklessSquares`, `TmScene` and `TmPlay`: the three replayed scripts and their `plug_update` / `plug_reset`.

Two modelling choices apply throughout:

- Time is `real`.
- The raylib functions `Lerp`, `Vector2Lerp`, `Vector4Lerp` and `smoothstep` are carried as function values in a `Raymath` record and left uninterpreted. So every property holds whatever those functions compute.

Three behaviours of the code worth knowing:

- **Two-step timeline.** In the script "move `x` over 1 s, `anim_wait(0.5)`, move `y` over 0.5 s", the wait is measured from the script's position, which the move does not advance. So `y` moves between 1 s and 1.5 s and has arrived at 1.5 s (`Imanim.TwoStepScenario`).
- **Resuming a finished coroutine.** The push succeeds, and the program then aborts when control re-enters `coroutine__finish_current` after its final yield (the unreachable abort at `plugs/tsoding/coroutine.c:77`).
- **Destroying a coroutine.** The code does not check whether the coroutine is on the call stack. The model states this as a caller obligation.

Two things about the scripts are modelled as written:

- `task_write_cell` sets the new symbol only once its clip is over. During the morph the cell keeps its previous target symbol. `task_write_head` and `task_write_all` instead set it at once.
- The loading-squares plug never resets its squares before a replay, and never sets `deltaTime`.

## Model

| member | source | states |
|---|---|---|
| Imanim.Clamp01 | plugs/imtsoding/imanim.c:6-9 | the result lies in [0, 1], equals the input inside that range, and is 0 below it and 1 above it |
| Imanim.Progress | plugs/imtsoding/imanim.c:4-9 | progress is in [0, 1]; it is 0 exactly when no time has elapsed and 1 exactly when the whole duration has; in between, progress times duration is the elapsed time |
| Imanim.Reserve | plugs/imtsoding/imanim.c:11-12 | only the high-water mark changes, and it becomes the larger of itself and the clip's end |
| Imanim.ClipTime | plugs/imtsoding/imanim.c:3-15 | 0 exactly when the clock is at or before the script position; 1 exactly when the clip is over; linear in between; reserves the clip without moving the position |
| Imanim.PrevClipTime | plugs/imtsoding/imanim.c:16-28 | equals `clipTime` evaluated one frame earlier, with the same 0 and 1 conditions on the previous frame's time, and reserves the same clip |
| Imanim.Wait | plugs/imtsoding/imanim.c:30-34 | the position and the mark both become the larger of the mark and position + duration; on a settled clock it advances by exactly the duration |
| Imanim.WaitForEnd | plugs/imtsoding/imanim.c:36-38 | the position jumps to the mark, leaving the clock settled; a settled clock is unchanged |
| Imanim.Move | plugs/imtsoding/imanim.c:40-48 | the storage is unchanged before the clip, equals the target once the clip is over, and in between is the interpolation from its current value at the clip's progress; the clip is reserved |
| Imanim.MoveScalar | plugs/imtsoding/imanim.c:40-48 | `anim_move_scalar` keeps the storage before the clip and snaps it to the target after the clip; during the clip it holds `Lerp(src, dst, t)` at the clip's progress t strictly between 0 and 1 |
| Imanim.EasedMove | plugs/tasklesssquares/imanim.h:17-19 | the `Interp_Func` moves: same endpoints as the plain move, and in between the interpolation at the eased progress |
| Imanim.StartGate | plugs/imtsoding/imanim.h:27-30 | the gate `clipTime > 0 && prevClipTime == 0` fires exactly when the clip's start lies in [previous frame, current frame): at or after the previous frame's time and strictly before the current time |
| Imanim.MidpointGate | plugs/tasklesstm/plug.c:239-243 | the half-way gate fires exactly when the current time has reached the middle of the clip and the previous frame's time was before the middle of the writing-length clip |
| Imanim.HalfWay | plugs/tasklesstm/plug.c:241 | progress is at least one half exactly when half the clip has elapsed |
| Imanim.ClipTimeMonotone | plugs/imtsoding/imanim.h:11-19 | for a fixed script position, progress never decreases as the clock advances |
| Imanim.PrevNotAhead | plugs/imtsoding/imanim.h:21-32 | with a non-negative frame duration, the previous frame's progress is never ahead of the current one |
| Imanim.OrderedPreserved | plugs/imtsoding/imanim.h:3-9 | every clock operation keeps the script position at or below the mark |
| Imanim.OnlyWaitsMovePosition | plugs/imtsoding/imanim.h:5-6 | the queries leave the script position and the clock alone; only a wait advances the position, by at least its duration |
| Imanim.MoveSettlesAtTarget | plugs/imtsoding/imanim.h:40-45 | once a clip is over, a move gives the target whatever the storage held, so replaying it is a fixed point |
| Imanim.TwoStepScenario | plugs/imtsoding/imanim.c:30-48 | in "move x over 1 s, wait 0.5, move y over 0.5 s": x has arrived from 1 s on; y is untouched up to 1 s and has arrived from 1.5 s on; the script is finished exactly from 1.5 s |
| Frames.FrameAt | plugs/tasklesstsoding/plug.c:145-148 | frame k of a run sees the clock at `times[k]`, the frame duration `times[k] - times[k-1]`, and a settled script position |
| Frames.StartFiresOnce | plugs/imtsoding/imanim.h:27-30 | over an increasing run of frames, a start gate fires in exactly one frame if the run crosses the clip's start, and otherwise in none |
| Frames.MidpointFiresOnce | plugs/tasklesstm/plug.c:239-243 | over an increasing run of frames, a half-way gate fires in exactly one frame if the run crosses the clip's middle, and otherwise in none |
| Coroutines.DaAppend | plugs/tsoding/coroutine.c:12-21 | the item is appended; capacity stays when there is room, becomes 256 on first growth and doubles afterwards, so the count never exceeds the capacity |
| Coroutines.Init | plugs/tsoding/coroutine.c:24-34 | a stack with capacity 256 holding exactly one zero-filled root record |
| Coroutines.Deinit | plugs/tsoding/coroutine.c:36-42 | succeeds exactly when only the root is on the stack, and frees the root record |
| Coroutines.Create | plugs/tsoding/coroutine.c:80-102 | adds a fresh, unfinished record whose saved context is the primed entry, without touching the stack |
| Coroutines.Destroy | plugs/tsoding/coroutine.c:105-109 | removes exactly that record; the world stays well formed when the record is not on the stack |
| Coroutines.PushFrame | plugs/tsoding/coroutine.c:129-136 | aborts on an empty stack; otherwise saves the resumer's context into the old top, pushes the coroutine, and continues in its saved context, changing no other record |
| Coroutines.PopFrame | plugs/tsoding/coroutine.c:61-68 | succeeds exactly when at least two frames are on the stack; saves the yielder's context, pops it, and continues in the new top's saved context |
| Coroutines.Resume | plugs/tsoding/coroutine.c:111-136 | succeeds exactly when the stack is non-empty and the coroutine is not finished, and then is the push |
| Coroutines.FinishCurrent | plugs/tsoding/coroutine.c:61-78 | marks the running coroutine finished, saves its context and yields out of it. Control continues in the context its resumer saved, and no other record changes. It aborts when no caller is below it |
| Coroutines.RoundTripLifo | plugs/tsoding/coroutine.c:61-68 | after N nested resumes of distinct coroutines and N yields: every step succeeds, the stack is back as it was, the first resumer continues in the context it saved, and no record outside the nest changed |
| Coroutines.InitRoundTrip | plugs/tsoding/coroutine.c:24-34 | from a fresh stack, two created coroutines resumed one inside the other and yielded back leave only the root, which continues where it resumed |
| Coroutines.FinishedStaysUnresumable | plugs/tsoding/coroutine.c:70-78 | once a coroutine has finished, resuming it aborts |
| CoTween.Advance | plugs/tsoding/plug.c:54 | one step of the loop adds delta/duration to the progress |
| CoTween.TweenLoop | plugs/tsoding/plug.c:50-67 | the loop runs at most one iteration per frame and stops only once progress reaches 1; it runs at least once unless it starts finished; every storage then holds `Lerp(a, b, t*t)` at the final progress; with non-negative deltas progress never decreases |
| CoTween.CoSleep | plugs/tsoding/plug.c:69-73 | sleeping takes at least one frame and at most the frames given |
| CoTween.TweenLengthIgnoresTracks | plugs/tsoding/plug.c:53-54 | how many frames a tween takes, and where progress ends, do not depend on what it animates |
| CoTween.SleepLikeTween | plugs/tsoding/plug.c:69-73 | `co_sleep` takes as many frames as any tween of the same duration |
| CoTween.ConstantDeltaTween | plugs/tsoding/plug.c:51-66 | the loop `TweenLoop` itself, run with every frame lasting delta, ends with progress at iterations steps of delta/duration. Given frames enough to cover the duration, it stops at the first iteration whose step reaches 1 |
| CoTween.CeilCount | plugs/tsoding/plug.c:51-66 | that stopping point is the count k with (k-1)*delta < duration <= k*delta, that is ceil(duration/delta) |
| CoTween.SpanIsProduct | plugs/tsoding/plug.c:53 | j steps of u add up to j*u |
| CoTween.TweenOvershoots | plugs/tsoding/plug.c:61 | progress is not clamped: a 0.15 s tween at 0.1 s per frame ends after two frames at 4/3 and writes `Lerp(a, b, 16/9)` |
| CoTween.PlugReset | plugs/tsoding/plug.c:103-108 | succeeds exactly when only the root is on the stack; frees the old animation coroutine and creates a fresh unfinished one, without touching the stack |
| CoTween.PlugUpdate | plugs/tsoding/plug.c:141-145 | a finished animation is left alone and the driver continues; otherwise the coroutine is resumed, runs until it yields or returns into `coroutine__finish_current` (`plugs/tsoding/coroutine.c:61-78`), and control comes back to the driver's saved context with the stack as it was before the frame. The coroutine keeps its yield context and is finished exactly when it returned; other records are unchanged. On a running session this never aborts |
| CoTween.FramesReturnToRoot | plugs/tsoding/plug.c:103-108 | after any number of frames only the root is on the stack again, so the `count == 1` assertion of `plug_reset` holds and the reset succeeds |
| CoTween.GuardNeeded | plugs/tsoding/plug.c:145 | without the `finished` guard, the frame after the animation ends would abort; with it, the frame changes nothing and the driver continues in its own context |
| TasklessTsoding.CoInterpolate | plugs/tasklesstsoding/plug.c:49-53 | the storage moves from its current value to the target with the identity easing; afterwards the clock is settled at the end of the move |
| TasklessTsoding.CoInterpolate3 | plugs/tasklesstsoding/plug.c:55-61 | three moves from one start: before the clip nothing changes, after it all three hold their targets, and the clock is settled at its end |
| TasklessTsoding.CoSleep | plugs/tasklesstsoding/plug.c:63-66 | `co_sleep` is `anim_wait`: the position moves to the end of the sleep |
| TasklessTsoding.KickGate | plugs/tasklesstsoding/plug.c:85-86 | a kick is counted exactly when the frame crosses the gate's position; the gate reserves 0.1 s |
| TasklessTsoding.Grow | plugs/tasklesstsoding/plug.c:79-84 | the first step lasts 0.4 s, counts a kick exactly when the frame crosses its start, and leaves the radius at 1 once its move is over |
| TasklessTsoding.Round | plugs/tasklesstsoding/plug.c:85-88 | the second step lasts 0.4 s, adds a kick exactly when the frame crosses its start, and leaves the roundness at 1 once its move is over |
| TasklessTsoding.Fade | plugs/tasklesstsoding/plug.c:89-96 | the third step lasts 0.4 s, adds a kick exactly when the frame crosses its start, and leaves alpha 1, roundness 0 and rotation 1 once its moves are over |
| TasklessTsoding.Shrink | plugs/tasklesstsoding/plug.c:97-100 | the last step lasts 2.15 s, adds a kick exactly when the frame crosses its start, and leaves the radius at 0 once its move is over |
| TasklessTsoding.Animation | plugs/tasklesstsoding/plug.c:68-101 | the script lasts 3.35 s; it starts its four kicks at 0, 0.4, 0.8 and 1.2 s; the shape is zero before the start and (0, 0, 1, 1) once the last move ends at 1.35 s |
| TasklessTsoding.PlugUpdate | plugs/tasklesstsoding/plug.c:141-152 | the frame advances the clock by delta; the plug is finished exactly from 3.35 s on; the frame plays one kick per step start in [previous time, current time) |
| TasklessTsoding.PlugReset | plugs/tasklesstsoding/plug.c:103-109 | only the frame clock is rewound |
| TasklessTsoding.InterpolateIgnoresStart | plugs/tasklesstsoding/plug.c:49-53 | `co_interpolate` does not read its start argument |
| TasklessTsoding.FrameIgnoresStorage | plugs/tasklesstsoding/plug.c:72-75 | a frame depends only on the clock and the delta, not on what the previous frame left |
| TasklessTsoding.ResetRestarts | plugs/tasklesstsoding/plug.c:103-109 | after a reset, the next frame is the same whatever state the plug was in, and shows time `delta` |
| TasklessTsoding.KicksOnce | plugs/tasklesstsoding/plug.c:79-98 | over frames with increasing clock values, each kick plays once if the run crosses its step start, so a run from before the start to past 1.2 s plays exactly four kicks |
| TasklessTsoding.KicksAreStarts | plugs/tasklesstsoding/plug.c:79-98 | the kicks of a run are the start-gate firings at the four step starts |
| TasklessSquares.Grid | plugs/tasklesssquares/plug.c:47-53 | the cell corner is (col*120, row*120), non-negative |
| TasklessSquares.MovePosition | plugs/tasklesssquares/plug.c:74-76 | a smoothstep move of a square's position: unchanged before, at the target after, colour untouched |
| TasklessSquares.MoveColor | plugs/tasklesssquares/plug.c:81-83 | a smoothstep move of a square's colour: unchanged before, at the target after, position untouched |
| TasklessSquares.PositionBlock | plugs/tasklesssquares/plug.c:73-78 | three position moves from one start, then wait: all colours kept, positions at their targets once over, clock advanced by 0.25 s |
| TasklessSquares.ColorBlock | plugs/tasklesssquares/plug.c:80-85 | three colour moves from one start, then wait: all positions kept, colours at their targets once over, clock advanced by 0.25 s |
| TasklessSquares.Shuffle | plugs/tasklesssquares/plug.c:68-97 | one shuffle lasts 1 s; the squares show red, green and blue between 0.5 and 0.75 s; at the end they sit at cells (1,0), (0,0), (0,1) in the foreground colour |
| TasklessSquares.Loading | plugs/tasklesssquares/plug.c:99-114 | the script lasts 4 s and reports done exactly from then on; before the start the squares are untouched; from 3 s on they are back in their home cells in the foreground colour |
| TasklessSquares.PlugUpdate | plugs/tasklesssquares/plug.c:159-164 | the frame advances the clock, keeps the frame duration, and is finished exactly from 4 s on; from 3 s on the squares are home |
| TasklessSquares.PlugReset | plugs/tasklesssquares/plug.c:116-128 | the squares go to (0,0), (120,0) and (0,120) in the foreground colour, the clock restarts, and the plug is not finished |
| TasklessSquares.EndsAtHome | plugs/tasklesssquares/plug.c:99-114 | once every move is over, a frame leaves the squares where `plug_reset` puts them, whatever they held before |
| TasklessSquares.ReplayIdempotent | plugs/tasklesssquares/plug.c:99-114 | once every move is over, replaying the script on its own result changes nothing |
| TmScene.MakeRule | plugs/tasklesstm/plug.c:301-312 | a rule has its five symbols in column order and every bump zero |
| TmScene.WriteProgress | plugs/tasklesstm/plug.c:234-250 | the cell's target becomes the written symbol; it morphs at the eased progress and shows only the new symbol once the clip is over |
| TmScene.WriteCellProgress | plugs/tasklesstm/plug.c:203-220 | the cell keeps both symbols and morphs at the eased progress until the clip is over; then it shows only the written symbol |
| TmScene.TaskIntro | plugs/tasklesstm/plug.c:175-182 | nothing happens before the clip; after it starts, the head is put over the given cell and the scene fades in with the eased progress |
| TmScene.TaskMoveHead | plugs/tasklesstm/plug.c:184-196 | the head slides by the eased fraction of one cell; when the clip is over the index moves by one in that direction and the offset returns to 0 |
| TmScene.TaskWriteCell | plugs/tasklesstm/plug.c:198-222 | the cell morphs during the clip and holds the new symbol after it; one write sound per half-way crossing |
| TmScene.TaskWriteHead | plugs/tasklesstm/plug.c:224-252 | only the cell under the head changes, and only if the head is over the tape; it morphs to the written symbol; one write sound per half-way crossing |
| TmScene.TaskWriteAll | plugs/tasklesstm/plug.c:254-285 | every cell morphs to the written symbol at the same eased progress and holds it after the clip; one write sound per half-way crossing |
| TmScene.BumpAt | plugs/tasklesstm/plug.c:292-294 | the bump is in [0, 1]; it is 1 exactly at the clip's start and 0 exactly from 0.8 s on |
| TmScene.TaskBump | plugs/tasklesstm/plug.c:287-299 | before the clip nothing changes; from its start, only the named field of the named rule takes the fading bump |
| TmScene.TaskOutro | plugs/tasklesstm/plug.c:354-365 | six layers fade to zero together; the tape and the head index are untouched; the clock is settled at the fade's end |
| TmPlay.SetupTape | plugs/tasklesstm/plug.c:535-549 | 50 cells: five blanks, then three "1", then "0" up to the end |
| TmPlay.SetupRules | plugs/tasklesstm/plug.c:519-533 | the two increment rules (Inc,0 → 1,→,Halt) and (Inc,1 → 0,→,Inc), all bumps zero |
| TmPlay.Setup | plugs/tasklesstm/plug.c:515-552 | the zero-filled scene with the tape, the rules, state "Inc" and the table's head marker shown |
| TmPlay.Opening | plugs/tasklesstm/plug.c:557-574 | the opening lasts 3 s; before it the scene is the setup, and after it the head is over cell 5, the tape is lifted and the table is shown |
| TmPlay.Act | plugs/tasklesstm/plug.c:425-480 | each block's action leaves the scene alone before its clip and has its full effect once the 0.25 s clip is over; every action but the head move starts the write sound at the middle of its clip |
| TmPlay.RunStep | plugs/tasklesstm/plug.c:426-431 | a block lasts 1.05 s; nothing changes during its pause; once its bump has faded the block's effect is complete; a writing block sounds in the frame that passes 0.925 s into the block |
| TmPlay.RunSteps | plugs/tasklesstm/plug.c:421-503 | n blocks last n*1.05 s; once the last bump has faded, the scene is the independent description `Effects` of the blocks; the sounds a frame starts are those of the writing blocks whose middle it passes (`StepSounds`) |
| TmPlay.TaskInc | plugs/tasklesstm/plug.c:421-504 | `task_inc` lasts 13.4 s and, once over, has the effect of its twelve blocks; its write sounds are those of its blocks |
| TmPlay.IncrementFinishes | plugs/tasklesstm/plug.c:421-504 | the blocks turn 7 into 8 on the tape (cells 5-8 read 0,0,0,1), leave the head on cell 9 in state Halt, park the table's head marker, and leave every bump at zero |
| TmPlay.GroupEffect | plugs/tasklesstm/plug.c:426-443 | three blocks "write, step right, change state" write under the head, move the head one cell and set the new state |
| TmPlay.Play | plugs/tasklesstm/plug.c:513-585 | the script lasts 19.4 s; before the start the scene is the setup; from 18.9 s on it is the faded-out final scene with 8 on the tape; its write sounds are the increment's, laid out from the end of the 3 s opening |
| TmPlay.PlugUpdate | plugs/tasklesstm/plug.c:706-717 | the frame advances the clock by delta and is finished exactly from 19.4 s on; it shows the setup up to time 0 and the final scene from 18.9 s on. It starts one write sound for each of the eight instants 3.925, 6.025, 7.075, 9.175, 10.225, 12.325, 13.375 and 15.475 s that lies in (before, now] |
| TmPlay.IncSoundMarks | plugs/tasklesstm/plug.c:421-504 | the twelve blocks laid out from 3 s sound exactly at those eight instants |
| TmPlay.PlugReset | plugs/tasklesstm/plug.c:506-511 | only the frame clock is rewound |
| TmPlay.FrameIgnoresScene | plugs/tasklesstm/plug.c:515-517 | a frame depends only on the clock, because `play` rebuilds the scene from zero |
| TmPlay.ResetRestarts | plugs/tasklesstm/plug.c:506-511 | after a reset, the next frame is the same whatever state the plug was in, and shows time `delta` |
| TmPlay.WriteSoundsAreMidpoints | plugs/tasklesstm/plug.c:239-243 | the write sounds of a run are the firings of the half-way gate of the writing clip |
| TmPlay.WriteSoundsOnce | plugs/tasklesstm/plug.c:239-243 | over frames with increasing clock values, a write sounds in exactly one frame if the run crosses the middle of the writing clip, and otherwise in none |

## Left out

- The x86-64 context switch (`coroutine_restore_context` and the register pushes of `coroutine_resume` and `coroutine_yield`) is reduced to opaque context tokens. Also reduced away: the stack priming of `coroutine_create`, the `mmap`/`munmap` of coroutine stacks, and `malloc`/`realloc` failure. Their effect on control flow is stated as "continue in this token's context".
- Rendering, fonts, textures, images, window handling, sound loading and playback are left out. A sound is counted, not played.
- `float` arithmetic is modelled as exact `real` arithmetic. Rounding could move a gate by one frame at an exact boundary.
- The variadic `(float *x, a, b)` list of `co_tween_impl` becomes a sequence of tracks. A storage is identified by its position in that list.
- The driver's loop of `coroutine_resume` calls is modelled only as far as `plug_update` performs it. The animation script of `plugs/tsoding/plug.c` (its `animation` function) is not modelled beyond `co_tween` and `co_sleep`, which it calls. What it does inside one frame is a parameter of `CoTween.PlugUpdate`: whether it yields or returns, and the context it leaves.
- `task_fun` of the Turing machine plug is never called by `play` and is not modelled.
- TmPlay.TaskInc: the Turing machine plug does not compile as written. Its second block calls `task_move_head` with a fourth argument `env` (`plugs/tasklesstm/plug.c:434`), but the function takes three parameters (`plugs/tasklesstm/plug.c:184`). The build script does not build this plug either (`nob.c:117-121` lists other plug directories). The model takes the three-argument reading, like the other three head moves of `task_inc`.
- `plug_init`, `plug_pre_reload`, `plug_post_reload`, asset loading and unloading, and the arenas of every plug are left out.
- The build script and the video pipeline are not part of this model.
- The colour constants of raylib (`RED`, `GREEN`, `BLUE`, `FOREGROUND_COLOR`) are a `Palette` parameter of the squares script.
- Imanim.ClipTime: requires a positive duration, which every caller in the scripts passes. A zero duration would divide by zero in the C code.
- TmScene.TaskBump: requires the rule and column to exist, because the C code writes through unchecked indices.
- TmScene.TaskWriteCell: takes the cell itself rather than a possibly null pointer. The C code dereferences the pointer before checking it, and every caller passes the head's state cell.
- TmScene.TaskMoveHead: the head index is an unbounded `int`, not a 32-bit C `int`. It moves by one cell per block and never leaves a small range.
- Coroutines.Destroy: promises a well-formed world only when the destroyed record is not on the stack. The C code does not check this, and using a freed record afterwards is undefined.
- CoTween.PlugReset: requires the previous animation coroutine not to be on the stack, the caller obligation "only destroy between frames".
- CoTween.TweenLoop: each loop iteration is taken to run in its own frame, with that frame's delta. The resume that drives it is not modelled inside the loop.
- Imanim.EasedMove: the `Interp_Func` versions of the moves that the scripts call are only declared, in `plugs/tasklesssquares/imanim.h`. They are modelled as the plain move applied at the eased progress, with `FUNC_ID` as the identity and `FUNC_SMOOTHSTEP` as the uninterpreted `smoothstep`.
- `plugs/tsoding/coroutine.h` holds only the records and the declarations. `coroutine_yield` pushes the callee-saved registers and then jumps to `coroutine_pop_frame`. The register pushes are left out, and the pop is `Coroutines.PopFrame`.
