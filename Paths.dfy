/**
  android.graphics.Path as the sequence of commands it has been given.
  Rendered geometry is not modelled; a path is what was appended to it
  since it was created or last reset.
*/
module Paths {

  datatype Direction = CW | CCW

  datatype PathCmd =
    | MoveTo(x: real, y: real)
    | RLineTo(dx: real, dy: real)
    | CubicTo(x1: real, y1: real, x2: real, y2: real, x3: real, y3: real)
      /** `addRoundRect(l, t, r, b, float[] radii, dir)`: eight radii, an (rx, ry) pair per corner,
          clockwise from the top-left corner. */
    | AddRoundRect(left: real, top: real, right: real, bottom: real, radii: seq<real>, dir: Direction)
      /** `addRoundRect(l, t, r, b, rx, ry, dir)`: one radius pair for all four corners. */
    | AddRoundRectXY(left: real, top: real, right: real, bottom: real, rx: real, ry: real, dir: Direction)
    | AddCircle(x: real, y: real, radius: real, dir: Direction)
    | Close

  /** A mutable android.graphics.Path. */
  class Path {
    var cmds: seq<PathCmd>

    constructor ()
      ensures cmds == []
    {
      cmds := [];
    }

    method Reset()
      modifies this
      ensures cmds == []
    {
      cmds := [];
    }

    method MoveTo(x: real, y: real)
      modifies this
      ensures cmds == old(cmds) + [PathCmd.MoveTo(x, y)]
    {
      cmds := cmds + [PathCmd.MoveTo(x, y)];
    }

    method RLineTo(dx: real, dy: real)
      modifies this
      ensures cmds == old(cmds) + [PathCmd.RLineTo(dx, dy)]
    {
      cmds := cmds + [PathCmd.RLineTo(dx, dy)];
    }

    method CubicTo(x1: real, y1: real, x2: real, y2: real, x3: real, y3: real)
      modifies this
      ensures cmds == old(cmds) + [PathCmd.CubicTo(x1, y1, x2, y2, x3, y3)]
    {
      cmds := cmds + [PathCmd.CubicTo(x1, y1, x2, y2, x3, y3)];
    }

    /** The platform refuses (throws on) a radii array shorter than eight and copies the first eight. */
    method AddRoundRect(left: real, top: real, right: real, bottom: real, radii: seq<real>, dir: Direction)
      requires |radii| >= 8
      modifies this
      ensures cmds == old(cmds) + [PathCmd.AddRoundRect(left, top, right, bottom, radii[..8], dir)]
    {
      cmds := cmds + [PathCmd.AddRoundRect(left, top, right, bottom, radii[..8], dir)];
    }

    method AddRoundRectXY(left: real, top: real, right: real, bottom: real, rx: real, ry: real, dir: Direction)
      modifies this
      ensures cmds == old(cmds) + [PathCmd.AddRoundRectXY(left, top, right, bottom, rx, ry, dir)]
    {
      cmds := cmds + [PathCmd.AddRoundRectXY(left, top, right, bottom, rx, ry, dir)];
    }

    method AddCircle(x: real, y: real, radius: real, dir: Direction)
      modifies this
      ensures cmds == old(cmds) + [PathCmd.AddCircle(x, y, radius, dir)]
    {
      cmds := cmds + [PathCmd.AddCircle(x, y, radius, dir)];
    }

    method Close()
      modifies this
      ensures cmds == old(cmds) + [PathCmd.Close]
    {
      cmds := cmds + [PathCmd.Close];
    }
  }

  /** A point of the plane. */
  datatype Point = Point(x: real, y: real)

  /**
    The pen position after drawing `cmds` from `pen`, for the commands that
    move the pen along one contour (MoveTo, RLineTo, CubicTo); the others
    leave it where it is.
  */
  function PenAfter(cmds: seq<PathCmd>, pen: Point): Point
    decreases |cmds|
  {
    if cmds == [] then pen
    else
      var next := match cmds[0]
        case MoveTo(x, y) => Point(x, y)
        case RLineTo(dx, dy) => Point(pen.x + dx, pen.y + dy)
        case CubicTo(_, _, _, _, x3, y3) => Point(x3, y3)
        case _ => pen;
      PenAfter(cmds[1..], next)
  }

  /** The pen position after one more command, given the position after a prefix. */
  function PenStep(cmd: PathCmd, pen: Point): Point
  {
    match cmd
    case MoveTo(x, y) => Point(x, y)
    case RLineTo(dx, dy) => Point(pen.x + dx, pen.y + dy)
    case CubicTo(_, _, _, _, x3, y3) => Point(x3, y3)
    case _ => pen
  }

  /** Drawing a prefix one command longer moves the pen by that one command. */
  lemma {:induction false} PenAfterSnoc(cmds: seq<PathCmd>, cmd: PathCmd, pen: Point)
    ensures PenAfter(cmds + [cmd], pen) == PenStep(cmd, PenAfter(cmds, pen))
    decreases |cmds|
  {
    if cmds == [] {
      assert [] + [cmd] == [cmd];
      assert [cmd][1..] == [];
    } else {
      var next := PenStep(cmds[0], pen);
      assert (cmds + [cmd])[0] == cmds[0];
      assert (cmds + [cmd])[1..] == cmds[1..] + [cmd];
      PenAfterSnoc(cmds[1..], cmd, next);
    }
  }

  /** Step `n` of a walk along `cmds`: if the first `n` commands leave the pen at `at`, the first `n + 1` leave it one step on. */
  lemma PenAfterPrefix(cmds: seq<PathCmd>, pen: Point, n: nat, at: Point)
    requires n < |cmds| && PenAfter(cmds[..n], pen) == at
    ensures PenAfter(cmds[..n + 1], pen) == PenStep(cmds[n], at)
  {
    assert cmds[..n + 1] == cmds[..n] + [cmds[n]];
    PenAfterSnoc(cmds[..n], cmds[n], pen);
  }
}
