/** The engine's `InputFrame` as the viewer uses it: move and rotate deltas appended during a frame
    and drained by whoever reads them. */
module Frames {
  import opened Vectors

  /** What one read of a frame returns: every move and every rotate delta appended since the last
      read, in order. */
  datatype Deltas = Deltas(move: seq<Vec3>, rotate: seq<Vec3>)

  const NoDeltas := Deltas([], [])

  class InputFrame {
    var move: seq<Vec3>
    var rotate: seq<Vec3>

    constructor ()
      ensures move == [] && rotate == []
    {
      move, rotate := [], [];
    }

    /** `deltas.move.append([x, y, z])`. */
    method AppendMove(v: Vec3)
      modifies this
      ensures move == old(move) + [v] && rotate == old(rotate)
    {
      move := move + [v];
    }

    /** `deltas.rotate.append([x, y, z])`. */
    method AppendRotate(v: Vec3)
      modifies this
      ensures rotate == old(rotate) + [v] && move == old(move)
    {
      rotate := rotate + [v];
    }

    /** `read()`: hands out everything appended so far and leaves the frame empty. */
    method Read() returns (d: Deltas)
      modifies this
      ensures d == Deltas(old(move), old(rotate))
      ensures move == [] && rotate == []
    {
      d := Deltas(move, rotate);
      move, rotate := [], [];
    }
  }
}
