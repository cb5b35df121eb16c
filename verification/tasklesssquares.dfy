/**
 The "loading squares" script on the replay clock: three squares on a
 2-by-2 grid swap places and flash red, green and blue, three times with
 the roles rotated, then rest for a second. Unlike the other scripts the
 squares are not reset before a replay: every move starts from what the
 previous frame left, and only the snap-to-target rule makes the final
 layout independent of that history.
 */
module TasklessSquares {
  import opened Imanim

  const SquareSize := 100.0
  const SquarePad := SquareSize * 0.2
  /** Length of every move of the script. */
  const MoveLength := 0.25
  /** Length of one `shuffle_squares`: four blocks of one move length. */
  const ShuffleLength := 1.0
  /** Rest at the end of `loading`. */
  const Rest := 1.0
  /** Where `loading` ends, relative to its start. */
  const Total := 4.0
  /** Where the last move of `loading` ends, relative to its start. */
  const LastMoveEnd := 3.0

  datatype Square = Square(position: Vec2, color: Vec4)

  /** The normalised colours the script uses; their values come from raylib
      and are not part of this model. */
  datatype Palette = Palette(red: Vec4, green: Vec4, blue: Vec4, foreground: Vec4)

  /** The three squares of the plug, in array order. */
  datatype Trio = Trio(s1: Square, s2: Square, s3: Square)

  /** `grid`: the top-left corner of a grid cell. */
  function Grid(row: nat, col: nat): (v: Vec2)
    ensures v == Vec2(col as real * 120.0, row as real * 120.0)
    ensures v.x >= 0.0 && v.y >= 0.0
  {
    Vec2(col as real * (SquareSize + SquarePad), row as real * (SquareSize + SquarePad))
  }

  /** Where square `i` sits after `plug_reset`: two per row. */
  function Home(i: nat, pal: Palette): Square
  {
    Square(Grid(i / 2, i % 2), pal.foreground)
  }

  /** The smoothstep moves of the script. */
  function MovePosition(a: AnimState, s: Square, dst: Vec2, m: Raymath): (r: Moved<Square>)
    ensures a.currentTime <= a.clipStartTime ==> r.value == s
    ensures a.currentTime >= a.clipStartTime + MoveLength ==> r.value == s.(position := dst)
    ensures r.value.color == s.color
    ensures Reserved(a, r.anim, MoveLength)
  {
    var moved := EasedMove(a, s.position, dst, MoveLength, m.lerp2, m, FuncSmoothstep);
    Moved(s.(position := moved.value), moved.anim)
  }

  function MoveColor(a: AnimState, s: Square, dst: Vec4, m: Raymath): (r: Moved<Square>)
    ensures a.currentTime <= a.clipStartTime ==> r.value == s
    ensures a.currentTime >= a.clipStartTime + MoveLength ==> r.value == s.(color := dst)
    ensures r.value.position == s.position
    ensures Reserved(a, r.anim, MoveLength)
  {
    var moved := EasedMove(a, s.color, dst, MoveLength, m.lerp4, m, FuncSmoothstep);
    Moved(s.(color := moved.value), moved.anim)
  }

  datatype Block = Block(value: Trio, anim: AnimState)

  /** A block of `shuffle_squares`: one move per square from the same start,
      then `wait_for_end`. */
  function PositionBlock(a: AnimState, t: Trio, d1: Vec2, d2: Vec2, d3: Vec2, m: Raymath): (r: Block)
    ensures a.currentTime <= a.clipStartTime ==> r.value == t
    ensures a.currentTime >= a.clipStartTime + MoveLength ==>
              r.value == Trio(t.s1.(position := d1), t.s2.(position := d2), t.s3.(position := d3))
    ensures r.value.s1.color == t.s1.color && r.value.s2.color == t.s2.color && r.value.s3.color == t.s3.color
    ensures Settled(a) ==> Settled(r.anim) && r.anim.clipStartTime == a.clipStartTime + MoveLength
    ensures r.anim.currentTime == a.currentTime && r.anim.deltaTime == a.deltaTime
  {
    var m1 := MovePosition(a, t.s1, d1, m);
    var m2 := MovePosition(m1.anim, t.s2, d2, m);
    var m3 := MovePosition(m2.anim, t.s3, d3, m);
    Block(Trio(m1.value, m2.value, m3.value), WaitForEnd(m3.anim))
  }

  function ColorBlock(a: AnimState, t: Trio, c1: Vec4, c2: Vec4, c3: Vec4, m: Raymath): (r: Block)
    ensures a.currentTime <= a.clipStartTime ==> r.value == t
    ensures a.currentTime >= a.clipStartTime + MoveLength ==>
              r.value == Trio(t.s1.(color := c1), t.s2.(color := c2), t.s3.(color := c3))
    ensures r.value.s1.position == t.s1.position && r.value.s2.position == t.s2.position
            && r.value.s3.position == t.s3.position
    ensures Settled(a) ==> Settled(r.anim) && r.anim.clipStartTime == a.clipStartTime + MoveLength
    ensures r.anim.currentTime == a.currentTime && r.anim.deltaTime == a.deltaTime
  {
    var m1 := MoveColor(a, t.s1, c1, m);
    var m2 := MoveColor(m1.anim, t.s2, c2, m);
    var m3 := MoveColor(m2.anim, t.s3, c3, m);
    Block(Trio(m1.value, m2.value, m3.value), WaitForEnd(m3.anim))
  }

  /** `shuffle_squares`: the first square goes to the empty cell (1,1), the
      other two move up into the top row, all three flash red, green and
      blue, the first square moves into the cell (1,0), and all three fade
      back to the foreground colour. */
  function Shuffle(a: AnimState, t: Trio, pal: Palette, m: Raymath): (r: Block)
    ensures r.anim.currentTime == a.currentTime && r.anim.deltaTime == a.deltaTime
    ensures Settled(a) ==> Settled(r.anim) && r.anim.clipStartTime == a.clipStartTime + ShuffleLength
    ensures Settled(a) && a.currentTime <= a.clipStartTime ==> r.value == t
    ensures Settled(a) && a.clipStartTime + 2.0 * MoveLength <= a.currentTime <= a.clipStartTime + 3.0 * MoveLength ==>
              r.value.s1.color == pal.red && r.value.s2.color == pal.green && r.value.s3.color == pal.blue
    ensures Settled(a) && a.currentTime >= a.clipStartTime + ShuffleLength ==>
              r.value == Trio(Square(Grid(1, 0), pal.foreground), Square(Grid(0, 0), pal.foreground),
                              Square(Grid(0, 1), pal.foreground))
  {
    var b1 := PositionBlock(a, t, Grid(1, 1), Grid(0, 0), Grid(0, 1), m);
    var b2 := ColorBlock(b1.anim, b1.value, pal.red, pal.green, pal.blue, m);
    var m3 := MovePosition(b2.anim, b2.value.s1, Grid(1, 0), m);
    var b3 := Block(b2.value.(s1 := m3.value), WaitForEnd(m3.anim));
    ColorBlock(b3.anim, b3.value, pal.foreground, pal.foreground, pal.foreground, m)
  }

  datatype Loaded = Loaded(squares: Trio, anim: AnimState, done: bool)

  /** `loading`: three shuffles with the roles rotated, then a rest; done
      once the clock has reached the end of the script. */
  function Loading(a: AnimState, sq: Trio, pal: Palette, m: Raymath): (r: Loaded)
    ensures r.anim.currentTime == a.currentTime && r.anim.deltaTime == a.deltaTime
    ensures Settled(r.anim)
    ensures Settled(a) ==> r.anim.clipStartTime == a.clipStartTime + Total
    ensures Settled(a) ==> (r.done <==> a.currentTime >= a.clipStartTime + Total)
    ensures Settled(a) && a.currentTime <= a.clipStartTime ==> r.squares == sq
    ensures Settled(a) && a.currentTime >= a.clipStartTime + LastMoveEnd ==>
              r.squares == Trio(Home(0, pal), Home(1, pal), Home(2, pal))
  {
    var r1 := Shuffle(a, sq, pal, m);
    var after1 := r1.value;
    var r2 := Shuffle(WaitForEnd(r1.anim), Trio(after1.s2, after1.s3, after1.s1), pal, m);
    var after2 := Trio(r2.value.s3, r2.value.s1, r2.value.s2);
    var r3 := Shuffle(WaitForEnd(r2.anim), Trio(after2.s3, after2.s1, after2.s2), pal, m);
    var after3 := Trio(r3.value.s2, r3.value.s3, r3.value.s1);
    var end := WaitForEnd(Wait(WaitForEnd(r3.anim), Rest));
    Loaded(after3, end, end.currentTime >= end.clipStartTime)
  }

  /** The plug state that survives between frames. */
  datatype Plug = Plug(squares: Trio, anim: AnimState, finished: bool)

  /** The clock handling of `plug_update`. The frame duration is not
      stored in the clock: this script never asks for the previous frame. */
  function PlugUpdate(p: Plug, delta: real, pal: Palette, m: Raymath): (r: Plug)
    ensures r.anim.currentTime == p.anim.currentTime + delta
    ensures r.anim.deltaTime == p.anim.deltaTime
    ensures r.finished <==> p.anim.currentTime + delta >= Total
    ensures p.anim.currentTime + delta <= 0.0 ==> r.squares == p.squares
    ensures p.anim.currentTime + delta >= LastMoveEnd ==> r.squares == Trio(Home(0, pal), Home(1, pal), Home(2, pal))
  {
    var clock := p.anim.(currentTime := p.anim.currentTime + delta, clipStartTime := 0.0, globEnd := 0.0);
    var loaded := Loading(clock, p.squares, pal, m);
    Plug(loaded.squares, loaded.anim, loaded.done)
  }

  /** `plug_reset`: every square back to its home cell in the foreground
      colour, and the clock back to the start. */
  function PlugReset(p: Plug, pal: Palette): (r: Plug)
    ensures r.squares == Trio(Square(Vec2(0.0, 0.0), pal.foreground), Square(Vec2(120.0, 0.0), pal.foreground),
                              Square(Vec2(0.0, 120.0), pal.foreground))
    ensures r.anim.currentTime == 0.0 && !r.finished
    ensures r.anim.clipStartTime == p.anim.clipStartTime && r.anim.globEnd == p.anim.globEnd
    ensures r.anim.deltaTime == p.anim.deltaTime
  {
    Plug(Trio(Home(0, pal), Home(1, pal), Home(2, pal)), p.anim.(currentTime := 0.0), false)
  }

  // ---------------------------------------------------------------------
  // Properties

  /** The script ends where it starts: once every move is over, the squares
      are back in the layout `plug_reset` puts them in, whatever they held
      before the frame. */
  lemma EndsAtHome(p: Plug, q: Plug, delta: real, pal: Palette, m: Raymath)
    requires p.anim.currentTime + delta >= LastMoveEnd
    ensures PlugUpdate(p, delta, pal, m).squares == PlugReset(q, pal).squares
  {
  }

  /** Once every move is over, replaying at the same clock changes nothing. */
  lemma ReplayIdempotent(a: AnimState, sq: Trio, pal: Palette, m: Raymath)
    requires Settled(a) && a.currentTime >= a.clipStartTime + LastMoveEnd
    ensures Loading(a, Loading(a, sq, pal, m).squares, pal, m) == Loading(a, sq, pal, m)
  {
  }
}
