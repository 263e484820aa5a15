/** The `BarycentricGUI` object of guitools.js: fields updated in place by
    its pointer-press handler and its mode buttons. Each method is proved
    to move the object from one state of the machine in picker_spec.dfy to
    the next; the canvas drawing and the coordinate labels are not modelled. */
module PickerGui {
  import opened Wrappers
  import opened Vectors
  import opened PickerSpec

  class BarycentricGui {
    var Ps: seq<Vec3>
    var p: Option<Vec3>
    var coords: seq<real>
    var selectingTriangle: bool

    /** The fields as a value of the state machine. */
    function State(): PickerState
      reads this
    {
      PickerState(Ps, p, coords, selectingTriangle)
    }

    ghost predicate Valid()
      reads this
    {
      Inv(State())
    }

    /** Starts with no vertices, no point, zero weights, selecting the
        triangle. */
    constructor ()
      ensures Valid() && State() == Initial
    {
      Ps := [];
      p := None;
      coords := [0.0, 0.0, 0.0];
      selectingTriangle := true;
    }

    /** Switches to choosing the interior point; nothing else changes. */
    method SelectPoint()
      requires Valid()
      modifies this
      ensures Valid() && State() == old(State()).(selectingTriangle := false)
    {
      selectingTriangle := false;
    }

    /** Switches to choosing the triangle; nothing else changes. */
    method SelectTriangle()
      requires Valid()
      modifies this
      ensures Valid() && State() == old(State()).(selectingTriangle := true)
    {
      selectingTriangle := true;
    }

    /** Recomputes the weights from the current vertices and point. It is
        also called in the middle of a press, after the vertices or the point
        have changed and before the weights have caught up, so it needs only
        the part of the invariant about the vertices and the point. */
    method FinalizePointSelection(bary: BaryFn)
      requires PointsValid(State())
      modifies this
      ensures Valid()
      ensures State() == old(State()).(coords := FinalizedCoords(Ps, p, old(coords), bary))
    {
      if |Ps| == 3 && p.Some? {
        var res := bary(Ps[0], Ps[1], Ps[2], p.value);
        if res.Ok? {
          coords := res.value;
        }
      } else {
        coords := seq(|coords|, _ => 0.0);
      }
    }

    /** Handles a pointer press at canvas position (X, Y). */
    method SelectVec(X: real, Y: real, which: int, button: int, bary: BaryFn)
      requires Valid()
      modifies this
      ensures Valid()
      ensures State() == OnPress(old(State()), X, Y, which, button, bary)
    {
      var clickType := ClassifyClick(which, button);
      if selectingTriangle {
        if clickType == Left {
          if |Ps| < 3 {
            Ps := Ps + [Pixel(X, Y)];
          } else {
            Ps := Ps[2 := Pixel(X, Y)];
          }
        } else {
          if |Ps| > 0 {
            Ps := Ps[..|Ps| - 1];
          }
        }
      } else {
        p := Some(Pixel(X, Y));
      }
      FinalizePointSelection(bary);
      StepPreservesInv(old(State()), MouseDown(X, Y, which, button), bary);
    }
  }
}
