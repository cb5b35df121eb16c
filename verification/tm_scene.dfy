/**
 The Turing-machine animation's scene and the task functions its script is
 made of. A task is a pure step over the scene and the replay clock: it
 asks the clock for its progress, changes the scene accordingly, and
 reports how many write sounds it started. Every task does nothing while
 its clip has not started.
 */
module TmScene {
  import opened Imanim

  const IntroLength := 1.0
  const MovingLength := 0.25
  const WritingLength := 0.25
  /** How long a bump takes to fade out. */
  const BumpFade := 0.8
  const TapeSize: nat := 50
  const StartAtCell: nat := 5

  datatype Image = Eggplant | Hundred | Fire | Joy | OkHand

  /** What a cell or a rule field shows. `NoText` is the zero-filled
      symbol: text kind with no text. */
  datatype Symbol = Text(text: string) | NoText | Picture(image: Image)

  /** A cell shows `symbolA` morphing into `symbolB` by `t`. */
  datatype Cell = Cell(symbolA: Symbol, symbolB: Symbol, t: real, bump: real)

  const EmptyCell := Cell(NoText, NoText, 0.0, 0.0)

  /** The columns of a rule. */
  const RuleState: nat := 0
  const RuleRead: nat := 1
  const RuleWrite: nat := 2
  const RuleStep: nat := 3
  const RuleNext: nat := 4
  const RuleColumns: nat := 5

  datatype Rule = Rule(symbols: seq<Symbol>, bump: seq<real>)

  /** Every rule has one symbol and one bump per column. */
  ghost predicate Shaped(rules: seq<Rule>)
  {
    forall i :: 0 <= i < |rules| ==> |rules[i].symbols| == RuleColumns && |rules[i].bump| == RuleColumns
  }

  /** `rule`: the five symbols, with every bump zero. */
  function MakeRule(state: Symbol, read: Symbol, write: Symbol, step: Symbol, next: Symbol): (r: Rule)
    ensures |r.symbols| == RuleColumns && |r.bump| == RuleColumns
    ensures r.symbols[RuleState] == state && r.symbols[RuleRead] == read && r.symbols[RuleWrite] == write
            && r.symbols[RuleStep] == step && r.symbols[RuleNext] == next
    ensures forall j :: 0 <= j < RuleColumns ==> r.bump[j] == 0.0
  {
    Rule([state, read, write, step, next], [0.0, 0.0, 0.0, 0.0, 0.0])
  }

  datatype Table = Table(rules: seq<Rule>, linesT: real, symbolsT: real, headT: real, headOffsetT: real)

  /** The head: the cell it is over (a C `int`), the fraction of a cell it
      has moved, and the machine state it displays. */
  datatype Head = Head(index: int, offset: real, state: Cell, stateT: real)

  datatype Scene = Scene(t: real, head: Head, tape: seq<Cell>, table: Table, tapeYOffset: real, finished: bool)

  /** The zero-filled scene. */
  const ZeroScene := Scene(0.0, Head(0, 0.0, EmptyCell, 0.0), [], Table([], 0.0, 0.0, 0.0, 0.0), 0.0, false)

  datatype Direction = Left | Right
  {
    function Step(): int
    {
      match this
      case Left => -1
      case Right => 1
    }
  }

  /** A task's result: the scene, the clock, and the write sounds started. */
  datatype Beat = Beat(scene: Scene, anim: AnimState, sounds: nat)

  /** 1 when the write sound's half-way gate fires for a clip of length
      `duration`, whose previous-frame query uses the writing length. */
  function HalfWaySound(a: AnimState, duration: real): nat
    requires duration > 0.0
  {
    if a.currentTime >= a.clipStartTime + duration / 2.0
       && a.currentTime - a.deltaTime < a.clipStartTime + WritingLength / 2.0 then 1 else 0
  }

  /** The sequence of fields `task_write_head` and `task_write_all` update on
      a cell once the clip has started: the new symbol as target, the
      morph at the eased progress, and the finished state at the end. */
  function WriteProgress(cell: Cell, write: Symbol, t: real, m: Raymath): (r: Cell)
    ensures r.bump == cell.bump && r.symbolB == write
    ensures t >= 1.0 ==> r == Cell(write, write, 0.0, cell.bump)
    ensures t < 1.0 ==> r == Cell(cell.symbolA, write, m.smoothstep(t), cell.bump)
  {
    var target := cell.(symbolB := write, t := 0.0);
    var eased := target.(t := m.smoothstep(t));
    if t >= 1.0 then eased.(symbolA := eased.symbolB, t := 0.0) else eased
  }

  /** The same for `task_write_cell`, which sets the new symbol only once
      the clip is over, so that during the morph the cell keeps showing
      its previous `symbolB`. */
  function WriteCellProgress(cell: Cell, write: Symbol, t: real, m: Raymath): (r: Cell)
    ensures r.bump == cell.bump
    ensures t >= 1.0 ==> r == Cell(write, write, 0.0, cell.bump)
    ensures t < 1.0 ==> r == Cell(cell.symbolA, cell.symbolB, m.smoothstep(t), cell.bump)
  {
    var target := if t >= 1.0 then cell.(symbolB := write, t := 0.0) else cell;
    var eased := target.(t := m.smoothstep(t));
    if t >= 1.0 then eased.(symbolA := eased.symbolB, t := 0.0) else eased
  }

  /** `task_intro`: once the clip has started, put the head over cell
      `head` and fade the scene in with the eased progress. */
  function TaskIntro(a: AnimState, sc: Scene, head: nat, m: Raymath): (r: Beat)
    ensures a.currentTime <= a.clipStartTime ==> r.scene == sc
    ensures a.currentTime > a.clipStartTime ==> r.scene == sc.(head := sc.head.(index := head), t := r.scene.t)
    ensures a.currentTime >= a.clipStartTime + IntroLength ==> r.scene.t == m.smoothstep(1.0)
    ensures a.clipStartTime < a.currentTime < a.clipStartTime + IntroLength ==>
              exists t :: 0.0 < t < 1.0 && t * IntroLength == a.currentTime - a.clipStartTime
                          && r.scene.t == m.smoothstep(t)
    ensures r.sounds == 0
    ensures Reserved(a, r.anim, IntroLength)
  {
    var c := ClipTime(a, IntroLength);
    if c.t <= 0.0 then Beat(sc, c.anim, 0)
    else Beat(sc.(head := sc.head.(index := head), t := m.smoothstep(c.t)), c.anim, 0)
  }

  /** `task_move_head`: slide the head by one cell in direction `dir`; the
      index changes only when the clip is over, when the offset snaps back
      to zero. */
  function TaskMoveHead(a: AnimState, sc: Scene, dir: Direction, duration: real, m: Raymath): (r: Beat)
    requires duration > 0.0
    ensures a.currentTime <= a.clipStartTime ==> r.scene == sc
    ensures a.currentTime >= a.clipStartTime + duration ==>
              r.scene == sc.(head := sc.head.(index := sc.head.index + dir.Step(), offset := 0.0))
    ensures a.clipStartTime < a.currentTime < a.clipStartTime + duration ==>
              && r.scene == sc.(head := sc.head.(offset := r.scene.head.offset))
              && exists t :: 0.0 < t < 1.0 && t * duration == a.currentTime - a.clipStartTime
                             && r.scene.head.offset == m.lerp(0.0, dir.Step() as real, m.smoothstep(t))
    ensures r.sounds == 0
    ensures Reserved(a, r.anim, duration)
  {
    var c := ClipTime(a, duration);
    if c.t <= 0.0 then Beat(sc, c.anim, 0)
    else if c.t >= 1.0 then
      Beat(sc.(head := sc.head.(offset := 0.0, index := sc.head.index + dir.Step())), c.anim, 0)
    else
      Beat(sc.(head := sc.head.(offset := m.lerp(0.0, dir.Step() as real, m.smoothstep(c.t)))), c.anim, 0)
  }

  /** A cell-writing result for `task_write_cell`, which writes through a
      pointer to any cell. */
  datatype CellBeat = CellBeat(cell: Cell, anim: AnimState, sounds: nat)

  /** `task_write_cell`. */
  function TaskWriteCell(a: AnimState, cell: Cell, write: Symbol, m: Raymath): (r: CellBeat)
    ensures a.currentTime <= a.clipStartTime ==> r.cell == cell
    ensures a.currentTime >= a.clipStartTime + WritingLength ==> r.cell == Cell(write, write, 0.0, cell.bump)
    ensures a.clipStartTime < a.currentTime < a.clipStartTime + WritingLength ==>
              && r.cell == cell.(t := r.cell.t)
              && exists t :: 0.0 < t < 1.0 && t * WritingLength == a.currentTime - a.clipStartTime
                             && r.cell.t == m.smoothstep(t)
    ensures r.sounds == HalfWaySound(a, WritingLength)
    ensures a.currentTime <= a.clipStartTime ==> Reserved(a, r.anim, WritingLength)
    ensures a.currentTime > a.clipStartTime ==> Reserved(Reserve(a, WritingLength), r.anim, WritingLength)
  {
    var c := ClipTime(a, WritingLength);
    var gate := MidpointGate(a, WritingLength, WritingLength);
    var sounds := if gate.fired then 1 else 0;
    if c.t <= 0.0 then CellBeat(cell, gate.anim, sounds)
    else CellBeat(WriteCellProgress(cell, write, c.t, m), gate.anim, sounds)
  }

  /** The head is over a cell of the tape: the C code casts the index to
      `size_t`, so a negative index is out of range as well. */
  predicate OverTape(sc: Scene)
  {
    0 <= sc.head.index < |sc.tape|
  }

  /** `task_write_head`: write `write` into the cell under the head, if
      there is one. The sound gate's previous-frame query always uses the
      writing length. */
  function TaskWriteHead(a: AnimState, sc: Scene, write: Symbol, duration: real, m: Raymath): (r: Beat)
    requires duration > 0.0
    ensures r.scene == sc.(tape := r.scene.tape)
    ensures |r.scene.tape| == |sc.tape|
    ensures forall j :: 0 <= j < |sc.tape| && j != sc.head.index ==> r.scene.tape[j] == sc.tape[j]
    ensures a.currentTime <= a.clipStartTime || !OverTape(sc) ==> r.scene == sc
    ensures OverTape(sc) && a.currentTime > a.clipStartTime ==> r.scene.tape[sc.head.index].symbolB == write
    ensures OverTape(sc) && a.currentTime >= a.clipStartTime + duration ==>
              r.scene.tape[sc.head.index] == Cell(write, write, 0.0, sc.tape[sc.head.index].bump)
    ensures OverTape(sc) && a.clipStartTime < a.currentTime < a.clipStartTime + duration ==>
              && r.scene.tape[sc.head.index].symbolA == sc.tape[sc.head.index].symbolA
              && exists t :: 0.0 < t < 1.0 && t * duration == a.currentTime - a.clipStartTime
                             && r.scene.tape[sc.head.index].t == m.smoothstep(t)
    ensures r.sounds == HalfWaySound(a, duration)
    ensures a.currentTime <= a.clipStartTime ==> Reserved(a, r.anim, duration)
    ensures a.currentTime > a.clipStartTime ==> Reserved(Reserve(a, duration), r.anim, WritingLength)
  {
    var c := ClipTime(a, duration);
    var gate := MidpointGate(a, duration, WritingLength);
    var sounds := if gate.fired then 1 else 0;
    if c.t <= 0.0 || !OverTape(sc) then Beat(sc, gate.anim, sounds)
    else
      var i := sc.head.index;
      Beat(sc.(tape := sc.tape[i := WriteProgress(sc.tape[i], write, c.t, m)]), gate.anim, sounds)
  }

  /** Every cell of `after` morphs from its old symbol to `write` at `eased`. */
  ghost predicate MorphingAll(before: seq<Cell>, after: seq<Cell>, write: Symbol, eased: real)
  {
    && |after| == |before|
    && forall j :: 0 <= j < |before| ==> after[j] == Cell(before[j].symbolA, write, eased, before[j].bump)
  }

  /** `task_write_all`: write `write` into every cell at once. */
  function TaskWriteAll(a: AnimState, sc: Scene, write: Symbol, m: Raymath): (r: Beat)
    ensures r.scene == sc.(tape := r.scene.tape)
    ensures |r.scene.tape| == |sc.tape|
    ensures a.currentTime <= a.clipStartTime ==> r.scene == sc
    ensures a.currentTime >= a.clipStartTime + WritingLength ==>
              forall j :: 0 <= j < |sc.tape| ==> r.scene.tape[j] == Cell(write, write, 0.0, sc.tape[j].bump)
    ensures a.clipStartTime < a.currentTime < a.clipStartTime + WritingLength ==>
              exists t :: 0.0 < t < 1.0 && t * WritingLength == a.currentTime - a.clipStartTime
                          && MorphingAll(sc.tape, r.scene.tape, write, m.smoothstep(t))
    ensures r.sounds == HalfWaySound(a, WritingLength)
    ensures a.currentTime <= a.clipStartTime ==> Reserved(a, r.anim, WritingLength)
    ensures a.currentTime > a.clipStartTime ==> Reserved(Reserve(a, WritingLength), r.anim, WritingLength)
  {
    var c := ClipTime(a, WritingLength);
    var gate := MidpointGate(a, WritingLength, WritingLength);
    var sounds := if gate.fired then 1 else 0;
    if c.t <= 0.0 then Beat(sc, gate.anim, sounds)
    else
      var tape := seq(|sc.tape|, j requires 0 <= j < |sc.tape| => WriteProgress(sc.tape[j], write, c.t, m));
      assert c.t < 1.0 ==> MorphingAll(sc.tape, tape, write, m.smoothstep(c.t));
      Beat(sc.(tape := tape), gate.anim, sounds)
  }

  /** The bump of a rule field, `max(0, 1 - elapsed/0.8)`: full when the
      clip starts, fading out over 0.8 seconds. */
  function BumpAt(elapsed: real): (b: real)
    requires elapsed >= 0.0
    ensures 0.0 <= b <= 1.0
    ensures b == 1.0 <==> elapsed == 0.0
    ensures b == 0.0 <==> elapsed >= BumpFade
  {
    var b := 1.0 - elapsed / BumpFade;
    if b < 0.0 then 0.0 else b
  }

  /** `task_bump`: set the bump of field `column` of rule `row` from the
      time since the script position; the clock is not touched. The C code
      writes through unchecked indices, which must be in range. */
  function TaskBump(a: AnimState, table: Table, row: nat, column: nat): (r: Table)
    requires row < |table.rules| && column < |table.rules[row].bump|
    ensures a.currentTime < a.clipStartTime ==> r == table
    ensures a.currentTime >= a.clipStartTime ==>
              && |r.rules| == |table.rules|
              && r == table.(rules := r.rules)
              && r.rules[row] == table.rules[row].(bump := r.rules[row].bump)
              && |r.rules[row].bump| == |table.rules[row].bump|
              && r.rules[row].bump[column] == BumpAt(a.currentTime - a.clipStartTime)
              && (forall i :: 0 <= i < |table.rules| && i != row ==> r.rules[i] == table.rules[i])
              && (forall j :: 0 <= j < |table.rules[row].bump| && j != column ==>
                                r.rules[row].bump[j] == table.rules[row].bump[j])
  {
    if a.currentTime < a.clipStartTime then table
    else
      var bump := BumpAt(a.currentTime - a.clipStartTime);
      var rule := table.rules[row];
      table.(rules := table.rules[row := rule.(bump := rule.bump[column := bump])])
  }

  /** `task_outro`: fade every layer of the scene out together, then wait
      for the fade to end. */
  function TaskOutro(a: AnimState, sc: Scene, duration: real, m: Raymath): (r: Beat)
    requires duration > 0.0
    ensures a.currentTime <= a.clipStartTime ==> r.scene == sc
    ensures a.currentTime >= a.clipStartTime + duration ==>
              r.scene == sc.(t := 0.0, tapeYOffset := 0.0,
                             table := sc.table.(linesT := 0.0, symbolsT := 0.0, headT := 0.0),
                             head := sc.head.(stateT := 0.0))
    ensures r.scene.tape == sc.tape && r.scene.head.index == sc.head.index
    ensures Settled(r.anim) && r.anim.clipStartTime == Max(a.globEnd, a.clipStartTime + duration)
    ensures r.anim.currentTime == a.currentTime && r.anim.deltaTime == a.deltaTime
    ensures r.sounds == 0
  {
    var t := EasedMove(a, sc.t, 0.0, duration, m.lerp, m, FuncSmoothstep);
    var y := EasedMove(t.anim, sc.tapeYOffset, 0.0, duration, m.lerp, m, FuncSmoothstep);
    var lines := EasedMove(y.anim, sc.table.linesT, 0.0, duration, m.lerp, m, FuncSmoothstep);
    var symbols := EasedMove(lines.anim, sc.table.symbolsT, 0.0, duration, m.lerp, m, FuncSmoothstep);
    var head := EasedMove(symbols.anim, sc.table.headT, 0.0, duration, m.lerp, m, FuncSmoothstep);
    var state := EasedMove(head.anim, sc.head.stateT, 0.0, duration, m.lerp, m, FuncSmoothstep);
    var faded := sc.(t := t.value, tapeYOffset := y.value,
                     table := sc.table.(linesT := lines.value, symbolsT := symbols.value, headT := head.value),
                     head := sc.head.(stateT := state.value));
    Beat(faded, WaitForEnd(state.anim), 0)
  }
}
