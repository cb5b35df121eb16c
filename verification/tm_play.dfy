/**
 The Turing-machine animation's script: `play` builds the scene from zero,
 introduces the tape and the rule table, runs a binary increment as a
 sequence of blocks (`task_inc`), and fades everything out. The script is
 replayed from the top in every frame, so the scene a frame shows is a
 function of the clock alone.

 `Effects` is an independent description of what the blocks of
 `task_inc` do once their clips are over; `RunSteps` is proved to agree
 with it for a clock past the last block.
 */
module TmPlay {
  import opened Imanim
  import opened Frames
  import opened TmScene

  /** The pause before every block of `task_inc`. */
  const Delay := 0.8
  /** A block: the pause, then a 0.25 clip. */
  const BlockLength := 1.05
  /** How far past the end of the last block its bump fades out:
      Delay + BumpFade - BlockLength. */
  const BumpTail := 0.55
  /** Where `task_inc` ends, relative to its start: 12 blocks and a pause. */
  const IncLength := 13.4
  /** Where the opening (intro, tape lift, table reveal) ends. */
  const OpeningLength := 3.0
  /** Where the fade-out ends and where `play` ends. */
  const OutroEnd := 18.9
  const Total := 19.4

  // ---------------------------------------------------------------------
  // The scene `play` starts from

  const Nothing := Text(" ")
  const Zero := Text("0")
  const One := Text("1")
  const Inc := Text("Inc")
  const Halt := Text("Halt")
  const Arrow := Text("→")

  /** The tape: five blank cells, the number 7 written least significant
      bit first, and zeros up to 50 cells. */
  function SetupTape(): (tape: seq<Cell>)
    ensures |tape| == TapeSize
    ensures forall i :: 0 <= i < StartAtCell ==> tape[i] == Cell(Nothing, NoText, 0.0, 0.0)
    ensures forall i :: StartAtCell <= i < StartAtCell + 3 ==> tape[i] == Cell(One, NoText, 0.0, 0.0)
    ensures forall i :: StartAtCell + 3 <= i < TapeSize ==> tape[i] == Cell(Zero, NoText, 0.0, 0.0)
  {
    seq(StartAtCell, i => EmptyCell.(symbolA := Nothing))
    + seq(3, i => EmptyCell.(symbolA := One))
    + seq(TapeSize - StartAtCell - 3, i => EmptyCell.(symbolA := Zero))
  }

  /** The two rules of the increment machine. */
  function SetupRules(): (rules: seq<Rule>)
    ensures |rules| == 2 && Shaped(rules)
    ensures rules[0].symbols == [Inc, Zero, One, Arrow, Halt]
    ensures rules[1].symbols == [Inc, One, Zero, Arrow, Inc]
    ensures forall i, j :: 0 <= i < 2 && 0 <= j < RuleColumns ==> rules[i].bump[j] == 0.0
  {
    [MakeRule(Inc, Zero, One, Arrow, Halt), MakeRule(Inc, One, Zero, Arrow, Inc)]
  }

  /** The scene right after the zero-fill and setup of `play`. */
  function Setup(): (sc: Scene)
    ensures sc.tape == SetupTape() && sc.table.rules == SetupRules()
    ensures sc.head == Head(0, 0.0, Cell(Inc, NoText, 0.0, 0.0), 0.0)
    ensures sc.table.headOffsetT == 1.0
    ensures sc.t == 0.0 && sc.tapeYOffset == 0.0 && !sc.finished
    ensures sc.table.linesT == 0.0 && sc.table.symbolsT == 0.0 && sc.table.headT == 0.0
  {
    ZeroScene.(table := ZeroScene.table.(rules := SetupRules(), headOffsetT := 1.0),
               tape := SetupTape(),
               head := ZeroScene.head.(state := EmptyCell.(symbolA := Inc)))
  }

  /** The scene once the opening is over. */
  function Opened(m: Raymath): Scene
  {
    Scene(m.smoothstep(1.0), Head(StartAtCell, 0.0, Cell(Inc, NoText, 0.0, 0.0), 1.0), SetupTape(),
          Table(SetupRules(), 1.0, 1.0, 1.0, 1.0), -280.0, false)
  }

  /** The intro, the tape lift and the table reveal of `play`. */
  function Opening(a: AnimState, m: Raymath): (r: Beat)
    ensures r.anim.currentTime == a.currentTime && r.anim.deltaTime == a.deltaTime
    ensures Settled(r.anim)
    ensures Settled(a) ==> r.anim.clipStartTime == a.clipStartTime + OpeningLength
    ensures r.scene.tape == SetupTape() && r.scene.table.rules == SetupRules()
    ensures Settled(a) && a.currentTime <= a.clipStartTime ==> r.scene == Setup()
    ensures Settled(a) && a.currentTime >= a.clipStartTime + OpeningLength ==> r.scene == Opened(m)
    ensures r.sounds == 0
  {
    var sc := Setup();
    var intro := TaskIntro(a, sc, StartAtCell, m);
    var a1 := WaitForEnd(Wait(WaitForEnd(intro.anim), 0.5));
    var lift := EasedMove(a1, intro.scene.tapeYOffset, -280.0, 0.5, m.lerp, m, FuncSmoothstep);
    var sc1 := intro.scene.(tapeYOffset := lift.value);
    var a2 := WaitForEnd(Wait(WaitForEnd(lift.anim), 0.5));
    var lines := EasedMove(a2, sc1.table.linesT, 1.0, 0.5, m.lerp, m, FuncSmoothstep);
    var symbols := EasedMove(lines.anim, sc1.table.symbolsT, 1.0, 0.5, m.lerp, m, FuncSmoothstep);
    var state := EasedMove(symbols.anim, sc1.head.stateT, 1.0, 0.5, m.lerp, m, FuncSmoothstep);
    var head := EasedMove(state.anim, sc1.table.headT, 1.0, 0.5, m.lerp, m, FuncSmoothstep);
    var sc2 := sc1.(table := sc1.table.(linesT := lines.value, symbolsT := symbols.value, headT := head.value),
                    head := sc1.head.(stateT := state.value));
    Beat(sc2, WaitForEnd(head.anim), 0)
  }

  // ---------------------------------------------------------------------
  // task_inc

  /** What a block of `task_inc` does after its pause. */
  datatype IncAction =
    | WriteHead(write: Symbol)         // task_write_head
    | MoveRight                        // task_move_head to the right
    | WriteState(write: Symbol)        // task_write_cell on the head's state
    | ParkAndWriteState(write: Symbol) // also slides the table's head marker away

  /** A block: its action and the rule field it bumps. */
  datatype IncStep = IncStep(action: IncAction, row: nat, column: nat)

  /** The blocks of `task_inc`: three times "write 0, step right, stay in
      Inc" (rule 1), then "write 1, step right, Halt" (rule 0). */
  function IncScript(zero: Symbol, one: Symbol): (steps: seq<IncStep>)
    ensures |steps| == 12
    ensures forall i :: 0 <= i < |steps| ==> steps[i].row < 2 && steps[i].column < RuleColumns
  {
    [ IncStep(WriteHead(zero), 1, RuleWrite), IncStep(MoveRight, 1, RuleStep), IncStep(WriteState(Inc), 1, RuleNext),
      IncStep(WriteHead(zero), 1, RuleWrite), IncStep(MoveRight, 1, RuleStep), IncStep(WriteState(Inc), 1, RuleNext),
      IncStep(WriteHead(zero), 1, RuleWrite), IncStep(MoveRight, 1, RuleStep), IncStep(ParkAndWriteState(Inc), 1, RuleNext),
      IncStep(WriteHead(one), 0, RuleWrite), IncStep(MoveRight, 0, RuleStep), IncStep(WriteState(Halt), 0, RuleNext) ]
  }

  /** The scene once an action's clip is over. */
  function Done(sc: Scene, action: IncAction): Scene
  {
    match action
    case WriteHead(w) =>
      if OverTape(sc) then
        sc.(tape := sc.tape[sc.head.index := Cell(w, w, 0.0, sc.tape[sc.head.index].bump)])
      else sc
    case MoveRight => sc.(head := sc.head.(index := sc.head.index + 1, offset := 0.0))
    case WriteState(w) => sc.(head := sc.head.(state := Cell(w, w, 0.0, sc.head.state.bump)))
    case ParkAndWriteState(w) =>
      sc.(head := sc.head.(state := Cell(w, w, 0.0, sc.head.state.bump)), table := sc.table.(headOffsetT := 0.0))
  }

  /** A rule field's bump once it has faded out. */
  function BumpCleared(table: Table, row: nat, column: nat): Table
  {
    if row < |table.rules| && column < |table.rules[row].bump| then
      table.(rules := table.rules[row := table.rules[row].(bump := table.rules[row].bump[column := 0.0])])
    else table
  }

  function StepDone(sc: Scene, step: IncStep): Scene
  {
    var done := Done(sc, step.action);
    done.(table := BumpCleared(done.table, step.row, step.column))
  }

  /** The scene once every block is over. */
  function Effects(sc: Scene, steps: seq<IncStep>): Scene
    decreases |steps|
  {
    if |steps| == 0 then sc else Effects(StepDone(sc, steps[0]), steps[1..])
  }

  /** Whether a block's action starts a write sound at the middle of its
      clip: every block but the head move. */
  predicate Writes(action: IncAction)
  {
    !action.MoveRight?
  }

  /** 1 when a frame that went from `before` to `now` passed the instant `x`,
      counted as the half-way gate does: after `before`, up to and including `now`. */
  function MidpointCrossed(before: real, now: real, x: real): nat
  {
    if before < x <= now then 1 else 0
  }

  /** The write sounds a frame from `before` to `now` starts, for blocks laid
      out one every `BlockLength` from `start`: a writing block sounds at the
      middle of its clip, `Delay` plus half the writing length in. */
  function StepSounds(start: real, before: real, now: real, steps: seq<IncStep>): nat
    decreases |steps|
  {
    if |steps| == 0 then 0
    else
      (if Writes(steps[0].action) then MidpointCrossed(before, now, start + Delay + WritingLength / 2.0) else 0)
      + StepSounds(start + BlockLength, before, now, steps[1..])
  }

  /** The action of a block, at the block's position on the timeline. */
  function Act(a: AnimState, sc: Scene, action: IncAction, m: Raymath): (r: Beat)
    ensures r.scene.table.rules == sc.table.rules && |r.scene.tape| == |sc.tape|
    ensures r.sounds == if Writes(action) then HalfWaySound(a, WritingLength) else 0
    ensures a.currentTime <= a.clipStartTime ==> r.scene == sc
    ensures a.currentTime >= a.clipStartTime + WritingLength ==> r.scene == Done(sc, action)
    ensures r.anim == a.(globEnd := Max(a.globEnd, a.clipStartTime + WritingLength))
  {
    match action
    case WriteHead(w) => TaskWriteHead(a, sc, w, WritingLength, m)
    case MoveRight => TaskMoveHead(a, sc, Right, MovingLength, m)
    case WriteState(w) =>
      var c := TaskWriteCell(a, sc.head.state, w, m);
      Beat(sc.(head := sc.head.(state := c.cell)), c.anim, c.sounds)
    case ParkAndWriteState(w) =>
      var park := EasedMove(a, sc.table.headOffsetT, 0.0, WritingLength, m.lerp, m, FuncSmoothstep);
      var c := TaskWriteCell(park.anim, sc.head.state, w, m);
      Beat(sc.(table := sc.table.(headOffsetT := park.value), head := sc.head.(state := c.cell)), c.anim, c.sounds)
  }

  /** Every block's rule field exists. */
  ghost predicate Fits(steps: seq<IncStep>, rules: seq<Rule>)
  {
    forall i :: 0 <= i < |steps| ==> steps[i].row < |rules| && steps[i].column < RuleColumns
  }

  /** One block: `anim_wait(delay)`, the action and the bump from the same
      position, then `wait_for_end`. */
  function RunStep(a: AnimState, sc: Scene, step: IncStep, m: Raymath): (r: Beat)
    requires Shaped(sc.table.rules) && step.row < |sc.table.rules| && step.column < RuleColumns
    ensures |r.scene.tape| == |sc.tape| && |r.scene.table.rules| == |sc.table.rules| && Shaped(r.scene.table.rules)
    ensures r.anim.currentTime == a.currentTime && r.anim.deltaTime == a.deltaTime
    ensures Settled(a) ==> Settled(r.anim) && r.anim.clipStartTime == a.clipStartTime + BlockLength
    ensures Settled(a) && a.currentTime < a.clipStartTime + Delay ==> r.scene == sc
    ensures Settled(a) && a.currentTime >= a.clipStartTime + Delay + BumpFade ==> r.scene == StepDone(sc, step)
    ensures Settled(a) ==>
              r.sounds == if Writes(step.action)
                          then MidpointCrossed(a.currentTime - a.deltaTime, a.currentTime, a.clipStartTime + Delay + WritingLength / 2.0)
                          else 0
  {
    var w := Wait(a, Delay);
    var acted := Act(w, sc, step.action, m);
    var table := TaskBump(acted.anim, acted.scene.table, step.row, step.column);
    Beat(acted.scene.(table := table), WaitForEnd(acted.anim), acted.sounds)
  }

  /** The blocks in order. */
  function RunSteps(a: AnimState, sc: Scene, steps: seq<IncStep>, m: Raymath): (r: Beat)
    requires Shaped(sc.table.rules) && Fits(steps, sc.table.rules)
    ensures |r.scene.tape| == |sc.tape| && |r.scene.table.rules| == |sc.table.rules| && Shaped(r.scene.table.rules)
    ensures r.anim.currentTime == a.currentTime && r.anim.deltaTime == a.deltaTime
    ensures Settled(a) ==> Settled(r.anim) && r.anim.clipStartTime == a.clipStartTime + |steps| as real * BlockLength
    ensures Settled(a) && a.currentTime < a.clipStartTime + Delay ==> r.scene == sc
    ensures Settled(a) && a.currentTime >= a.clipStartTime + |steps| as real * BlockLength + BumpTail ==>
              r.scene == Effects(sc, steps)
    ensures Settled(a) ==> r.sounds == StepSounds(a.clipStartTime, a.currentTime - a.deltaTime, a.currentTime, steps)
    decreases |steps|
  {
    if |steps| == 0 then Beat(sc, a, 0)
    else
      var first := RunStep(a, sc, steps[0], m);
      var rest := RunSteps(first.anim, first.scene, steps[1..], m);
      Beat(rest.scene, rest.anim, first.sounds + rest.sounds)
  }

  /** `task_inc`: the twelve blocks and a final pause. The C code indexes
      rules 0 and 1 without checking, so they must exist. */
  function TaskInc(a: AnimState, sc: Scene, zero: Symbol, one: Symbol, m: Raymath): (r: Beat)
    requires Shaped(sc.table.rules) && |sc.table.rules| >= 2
    ensures |r.scene.tape| == |sc.tape| && |r.scene.table.rules| == |sc.table.rules|
    ensures r.anim.currentTime == a.currentTime && r.anim.deltaTime == a.deltaTime
    ensures Settled(a) ==> Settled(r.anim) && r.anim.clipStartTime == a.clipStartTime + IncLength
    ensures Settled(a) && a.currentTime < a.clipStartTime + Delay ==> r.scene == sc
    ensures Settled(a) && a.currentTime >= a.clipStartTime + IncLength - Delay + BumpTail ==>
              r.scene == Effects(sc, IncScript(zero, one))
    ensures Settled(a) ==>
              r.sounds == StepSounds(a.clipStartTime, a.currentTime - a.deltaTime, a.currentTime, IncScript(zero, one))
  {
    var run := RunSteps(a, sc, IncScript(zero, one), m);
    Beat(run.scene, Wait(run.anim, Delay), run.sounds)
  }

  // ---------------------------------------------------------------------
  // play and the plug

  /** The tape once the increment has run: 7 + 1 = 8, least significant
      bit first, in cells 5 to 8. */
  function IncrementedTape(): (tape: seq<Cell>)
    ensures |tape| == TapeSize
  {
    SetupTape()[5 := Cell(Zero, Zero, 0.0, 0.0)][6 := Cell(Zero, Zero, 0.0, 0.0)]
               [7 := Cell(Zero, Zero, 0.0, 0.0)][8 := Cell(One, One, 0.0, 0.0)]
  }

  /** The scene once the whole script is over. */
  function Finale(): Scene
  {
    Scene(0.0, Head(9, 0.0, Cell(Halt, Halt, 0.0, 0.0), 0.0), IncrementedTape(),
          Table(SetupRules(), 0.0, 0.0, 0.0, 0.0), 0.0, false)
  }

  /** `play`. */
  function Play(a: AnimState, m: Raymath): (r: Beat)
    ensures r.anim.currentTime == a.currentTime && r.anim.deltaTime == a.deltaTime
    ensures Settled(a) ==> Settled(r.anim) && r.anim.clipStartTime == a.clipStartTime + Total
    ensures |r.scene.tape| == TapeSize
    ensures Settled(a) && a.currentTime <= a.clipStartTime ==> r.scene == Setup()
    ensures Settled(a) && a.currentTime >= a.clipStartTime + OutroEnd ==> r.scene == Finale()
    ensures Settled(a) ==>
              r.sounds == StepSounds(a.clipStartTime + OpeningLength, a.currentTime - a.deltaTime, a.currentTime,
                                     IncScript(Zero, One))
  {
    var opening := Opening(a, m);
    var inc := TaskInc(opening.anim, opening.scene, Zero, One, m);
    var outro := TaskOutro(Wait(inc.anim, 1.5), inc.scene, IntroLength, m);
    var end := Wait(WaitForEnd(outro.anim), 0.5);
    IncrementFinishes(m);
    Beat(outro.scene, end, opening.sounds + inc.sounds + outro.sounds)
  }

  /** The increment blocks, run to completion on the opened scene, leave 8
      on the tape, the head on cell 9 in state Halt, and every bump faded. */
  lemma IncrementFinishes(m: Raymath)
    ensures Effects(Opened(m), IncScript(Zero, One))
            == Opened(m).(tape := IncrementedTape(), head := Head(9, 0.0, Cell(Halt, Halt, 0.0, 0.0), 1.0),
                          table := Opened(m).table.(headOffsetT := 0.0))
  {
    var s := IncScript(Zero, One);
    assert s[0..] == s;
    IncrementFirstHalf(m, s);
    IncrementSecondHalf(m, s);
  }

  /** The scene after the first two groups of the increment: two carries. */
  function HalfWayScene(m: Raymath): Scene
  {
    var e0 := Opened(m);
    var cell := Cell(Zero, Zero, 0.0, 0.0);
    e0.(tape := e0.tape[5 := cell][6 := cell], head := Head(7, 0.0, Cell(Inc, Inc, 0.0, 0.0), 1.0))
  }

  /** The first two groups write 0 over the first two ones. */
  lemma IncrementFirstHalf(m: Raymath, s: seq<IncStep>)
    requires s == IncScript(Zero, One)
    ensures Effects(Opened(m), s[0..]) == Effects(HalfWayScene(m), s[6..])
  {
    var e0 := Opened(m);
    var cell := Cell(Zero, Zero, 0.0, 0.0);
    var inc := Cell(Inc, Inc, 0.0, 0.0);
    GroupEffect(e0, s, 0, Zero, WriteState(Inc), 1);
    var e3 := e0.(tape := e0.tape[5 := cell], head := Head(6, 0.0, inc, 1.0));
    GroupEffect(e3, s, 3, Zero, WriteState(Inc), 1);
  }

  /** The last two groups write the last carry, park the rule marker, and
      write 1 before halting. */
  lemma IncrementSecondHalf(m: Raymath, s: seq<IncStep>)
    requires s == IncScript(Zero, One)
    ensures Effects(HalfWayScene(m), s[6..])
            == Opened(m).(tape := IncrementedTape(), head := Head(9, 0.0, Cell(Halt, Halt, 0.0, 0.0), 1.0),
                          table := Opened(m).table.(headOffsetT := 0.0))
  {
    var e6 := HalfWayScene(m);
    var cell := Cell(Zero, Zero, 0.0, 0.0);
    var inc := Cell(Inc, Inc, 0.0, 0.0);
    GroupEffect(e6, s, 6, Zero, ParkAndWriteState(Inc), 1);
    var e9 := e6.(tape := e6.tape[7 := cell], head := Head(8, 0.0, inc, 1.0), table := e6.table.(headOffsetT := 0.0));
    GroupEffect(e9, s, 9, One, WriteState(Halt), 0);
    assert s[12..] == [];
  }

  /** A group of three blocks, "write, step right, change state", run to
      completion: the write lands under the head, the head moves one cell,
      and the state cell shows the new state. The bumps it clears were
      already zero. */
  lemma GroupEffect(sc: Scene, steps: seq<IncStep>, k: nat, w: Symbol, third: IncAction, row: nat)
    requires k + 3 <= |steps| && row < 2
    requires steps[k] == IncStep(WriteHead(w), row, RuleWrite)
    requires steps[k + 1] == IncStep(MoveRight, row, RuleStep)
    requires steps[k + 2] == IncStep(third, row, RuleNext)
    requires third.WriteState? || third.ParkAndWriteState?
    requires OverTape(sc) && sc.table.rules == SetupRules()
    ensures Effects(sc, steps[k..])
            == Effects(Done(sc.(tape := sc.tape[sc.head.index := Cell(w, w, 0.0, sc.tape[sc.head.index].bump)],
                                head := sc.head.(index := sc.head.index + 1, offset := 0.0)), third),
                       steps[k + 3..])
  {
    EffectsStep(sc, steps, k);
    var e1 := StepDone(sc, steps[k]);
    AlreadyCleared(Done(sc, steps[k].action).table, row, RuleWrite);
    EffectsStep(e1, steps, k + 1);
    var e2 := StepDone(e1, steps[k + 1]);
    AlreadyCleared(Done(e1, steps[k + 1].action).table, row, RuleStep);
    EffectsStep(e2, steps, k + 2);
    AlreadyCleared(Done(e2, steps[k + 2].action).table, row, RuleNext);
  }

  /** Running the blocks from block i on is doing block i, then the rest. */
  lemma EffectsStep(sc: Scene, steps: seq<IncStep>, i: nat)
    requires i < |steps|
    ensures Effects(sc, steps[i..]) == Effects(StepDone(sc, steps[i]), steps[i + 1..])
  {
    assert steps[i..][0] == steps[i];
    assert steps[i..][1..] == steps[i + 1..];
  }

  /** Clearing a bump that is already zero changes nothing. */
  lemma AlreadyCleared(table: Table, row: nat, column: nat)
    requires row < |table.rules| && column < |table.rules[row].bump| && table.rules[row].bump[column] == 0.0
    ensures BumpCleared(table, row, column) == table
  {
    var rule := table.rules[row];
    assert rule.bump[column := 0.0] == rule.bump;
    assert rule.(bump := rule.bump) == rule;
    assert table.rules[row := rule] == table.rules;
  }

  /** The plug state that survives between frames. */
  datatype Plug = Plug(scene: Scene, anim: AnimState)

  /** A frame's outcome: the new plug state and the write sounds it started. */
  datatype Frame = Frame(plug: Plug, sounds: nat)

  /** The write sounds a frame from `before` to `now` starts: the script
      sounds at the middle of the clip of each of the eight writing blocks of
      the increment, 3.925 s into `play` and then at the blocks 2, 3, 5, 6,
      8, 9 and 11 places further on. */
  function WriteSoundsBetween(before: real, now: real): nat
  {
    MidpointCrossed(before, now, 3.925) + MidpointCrossed(before, now, 6.025) + MidpointCrossed(before, now, 7.075)
    + MidpointCrossed(before, now, 9.175) + MidpointCrossed(before, now, 10.225) + MidpointCrossed(before, now, 12.325)
    + MidpointCrossed(before, now, 13.375) + MidpointCrossed(before, now, 15.475)
  }

  /** The clock handling of `plug_update`. */
  function PlugUpdate(p: Plug, delta: real, m: Raymath): (r: Frame)
    ensures r.plug.anim.currentTime == p.anim.currentTime + delta && r.plug.anim.deltaTime == delta
    ensures r.plug.scene.finished <==> p.anim.currentTime + delta >= Total
    ensures p.anim.currentTime + delta <= 0.0 ==> r.plug.scene == Setup()
    ensures p.anim.currentTime + delta >= OutroEnd ==>
              r.plug.scene == Finale().(finished := p.anim.currentTime + delta >= Total)
    ensures r.sounds == WriteSoundsBetween(p.anim.currentTime, p.anim.currentTime + delta)
  {
    var clock := AnimState(p.anim.currentTime + delta, 0.0, 0.0, delta);
    var played := Play(clock, m);
    IncSoundMarks(p.anim.currentTime, p.anim.currentTime + delta);
    Frame(Plug(played.scene.(finished := played.anim.currentTime >= played.anim.clipStartTime), played.anim),
          played.sounds)
  }

  /** The blocks of the increment, laid out from the end of the opening,
      sound exactly at the eight instants of `WriteSoundsBetween`. */
  lemma IncSoundMarks(before: real, now: real)
    ensures StepSounds(OpeningLength, before, now, IncScript(Zero, One)) == WriteSoundsBetween(before, now)
  {
    var s := IncScript(Zero, One);
    assert s[0..] == s;
    MarksFirst(before, now, s);
    MarksSecond(before, now, s);
    MarksThird(before, now, s);
  }

  /** Blocks 0 to 3 of the increment: two writes, a move, a write. */
  lemma MarksFirst(before: real, now: real, s: seq<IncStep>)
    requires s == IncScript(Zero, One)
    ensures StepSounds(3.0, before, now, s[0..])
            == MidpointCrossed(before, now, 3.925) + MidpointCrossed(before, now, 6.025) + MidpointCrossed(before, now, 7.075)
               + StepSounds(7.2, before, now, s[4..])
  {
    StepSoundsStep(3.0, before, now, s, 0);
    StepSoundsStep(4.05, before, now, s, 1);
    StepSoundsStep(5.1, before, now, s, 2);
    StepSoundsStep(6.15, before, now, s, 3);
  }

  /** Blocks 4 to 7: a move, two writes, a move. */
  lemma MarksSecond(before: real, now: real, s: seq<IncStep>)
    requires s == IncScript(Zero, One)
    ensures StepSounds(7.2, before, now, s[4..])
            == MidpointCrossed(before, now, 9.175) + MidpointCrossed(before, now, 10.225) + StepSounds(11.4, before, now, s[8..])
  {
    StepSoundsStep(7.2, before, now, s, 4);
    StepSoundsStep(8.25, before, now, s, 5);
    StepSoundsStep(9.3, before, now, s, 6);
    StepSoundsStep(10.35, before, now, s, 7);
  }

  /** Blocks 8 to 11: two writes, a move, a write. */
  lemma MarksThird(before: real, now: real, s: seq<IncStep>)
    requires s == IncScript(Zero, One)
    ensures StepSounds(11.4, before, now, s[8..])
            == MidpointCrossed(before, now, 12.325) + MidpointCrossed(before, now, 13.375) + MidpointCrossed(before, now, 15.475)
  {
    StepSoundsStep(11.4, before, now, s, 8);
    StepSoundsStep(12.45, before, now, s, 9);
    StepSoundsStep(13.5, before, now, s, 10);
    StepSoundsStep(14.55, before, now, s, 11);
    assert s[12..] == [];
  }

  /** Counting the sounds from block i on is counting block i, then the rest. */
  lemma StepSoundsStep(start: real, before: real, now: real, steps: seq<IncStep>, i: nat)
    requires i < |steps|
    ensures StepSounds(start, before, now, steps[i..])
            == (if Writes(steps[i].action) then MidpointCrossed(before, now, start + Delay + WritingLength / 2.0) else 0)
               + StepSounds(start + BlockLength, before, now, steps[i + 1..])
  {
    assert steps[i..][0] == steps[i];
    assert steps[i..][1..] == steps[i + 1..];
  }

  /** `plug_reset`: rewind the frame clock only. */
  function PlugReset(p: Plug): (r: Plug)
    ensures r.anim.currentTime == 0.0 && r.scene == p.scene
    ensures r.anim.clipStartTime == p.anim.clipStartTime && r.anim.globEnd == p.anim.globEnd
    ensures r.anim.deltaTime == p.anim.deltaTime
  {
    p.(anim := p.anim.(currentTime := 0.0))
  }

  // ---------------------------------------------------------------------
  // Properties

  /** A frame depends only on the clock: `play` rebuilds the scene from
      zero before any task reads it. */
  lemma FrameIgnoresScene(p: Plug, q: Plug, delta: real, m: Raymath)
    requires p.anim.currentTime == q.anim.currentTime
    ensures PlugUpdate(p, delta, m) == PlugUpdate(q, delta, m)
  {
  }

  /** After a reset, the next frame shows the script at time `delta`,
      whatever state the plug was in. */
  lemma ResetRestarts(p: Plug, q: Plug, delta: real, m: Raymath)
    ensures PlugUpdate(PlugReset(p), delta, m) == PlugUpdate(PlugReset(q), delta, m)
    ensures PlugUpdate(PlugReset(p), delta, m).plug.anim.currentTime == delta
  {
  }

  /** Write sounds a `task_write_head` whose clip starts at `position`
      starts over frames 1 .. |times|-1 of a run. */
  function WriteSounds(times: seq<real>, position: real, sc: Scene, write: Symbol, m: Raymath): nat
    decreases |times|
  {
    if |times| < 2 then 0
    else
      var last := |times| - 1;
      WriteSounds(times[..last], position, sc, write, m)
      + TaskWriteHead(FrameAt(times, last, position), sc, write, WritingLength, m).sounds
  }

  /** The write sound is the half-way gate of the writing clip. */
  lemma {:induction false} WriteSoundsAreMidpoints(times: seq<real>, position: real, sc: Scene, write: Symbol, m: Raymath)
    ensures WriteSounds(times, position, sc, write, m) == MidpointFirings(times, position, WritingLength)
    decreases |times|
  {
    if |times| >= 2 {
      var last := |times| - 1;
      WriteSoundsAreMidpoints(times[..last], position, sc, write, m);
    }
  }

  /** Over a run of frames with positive deltas, a write sounds in exactly
      one frame if the run crosses the middle of the writing clip, and in
      none otherwise. */
  lemma WriteSoundsOnce(times: seq<real>, position: real, sc: Scene, write: Symbol, m: Raymath)
    requires Increasing(times) && |times| >= 1
    ensures WriteSounds(times, position, sc, write, m)
            == if times[0] < position + WritingLength / 2.0 <= times[|times| - 1] then 1 else 0
  {
    WriteSoundsAreMidpoints(times, position, sc, write, m);
    MidpointFiresOnce(times, position, WritingLength);
  }
}
