/** The barycentric picker of guitools.js (`BarycentricGUI`) as a state
    machine on values: its state, the classification of a pointer press,
    the effect of a press on the triangle buffer and the interior point, the
    recomputation of the barycentric coordinates, and the mode switches.
    The class in picker_gui.dfy is proved to follow these definitions. */
module PickerSpec {
  import opened Wrappers
  import opened Vectors

  /** The button a press was made with. */
  datatype Click = Left | Right | Middle

  /** The student-supplied `getBarycentricCoords(a, b, c, p)`: the weights
      it returns, or `Err` when it throws. */
  type BaryFn = (Vec3, Vec3, Vec3, Vec3) -> Result<seq<real>, string>

  /** The fields of the picker: the triangle vertices `Ps`, the interior
      point `p` (`None` for `null`), the weights `coords` and the mode. */
  datatype PickerState = PickerState(Ps: seq<Vec3>, p: Option<Vec3>, coords: seq<real>, selectingTriangle: bool)

  /** A user action: a pointer press at canvas position (X, Y) carrying the
      event's `which` and `button` fields, or one of the two mode buttons. */
  datatype Event = MouseDown(X: real, Y: real, which: int, button: int) | PointMode | TriangleMode

  /** The state after construction: no vertices, no point, zero weights
      (`vec3.create()`), selecting the triangle. */
  const Initial := PickerState([], None, [0.0, 0.0, 0.0], true)

  predicate AllZero(c: seq<real>)
  {
    forall i :: 0 <= i < |c| ==> c[i] == 0.0
  }

  /** The click kind of a press. A field equal to 0 stands for one that is
      absent or zero, hence falsy: a truthy `which` decides alone, and only
      when it is falsy is `button` consulted. */
  function ClassifyClick(which: int, button: int): (c: Click)
    ensures c == Right <==> which == 3 || (which == 0 && button == 2)
    ensures c == Middle <==> which == 2 || (which == 0 && button == 4)
    ensures c == Left <==> !(which in {2, 3} || (which == 0 && button in {2, 4}))
  {
    if which != 0 then
      if which == 3 then Right else if which == 2 then Middle else Left
    else if button != 0 then
      if button == 2 then Right else if button == 4 then Middle else Left
    else Left
  }

  /** The triangle-mode update of the vertex buffer for a press of kind `c`
      at point `q`: a left press appends while there are fewer than three
      vertices and otherwise overwrites the third; any other press pops the
      last vertex, if there is one. */
  function EditTriangle(Ps: seq<Vec3>, c: Click, q: Vec3): (r: seq<Vec3>)
    ensures |Ps| <= 3 ==> |r| <= 3
    ensures c == Left && |Ps| < 3 ==> r == Ps + [q]
    ensures c == Left && |Ps| >= 3 ==> |r| == |Ps| && r[2] == q && r[..2] == Ps[..2] && r[3..] == Ps[3..]
    ensures c != Left && Ps == [] ==> r == []
    ensures c != Left && Ps != [] ==> |r| == |Ps| - 1 && Ps == r + [Ps[|Ps| - 1]]
  {
    if c == Left then
      if |Ps| < 3 then Ps + [q] else Ps[2 := q]
    else if |Ps| > 0 then Ps[..|Ps| - 1]
    else Ps
  }

  /** The weights after `finalizePointSelection`: with three vertices and a
      point, the external function's result, or the previous weights when it
      throws; otherwise the previous weights all set to 0. */
  function FinalizedCoords(Ps: seq<Vec3>, p: Option<Vec3>, coords: seq<real>, bary: BaryFn): (r: seq<real>)
    ensures |Ps| == 3 && p.Some? && bary(Ps[0], Ps[1], Ps[2], p.value).Ok? ==>
      r == bary(Ps[0], Ps[1], Ps[2], p.value).value
    ensures |Ps| == 3 && p.Some? && bary(Ps[0], Ps[1], Ps[2], p.value).Err? ==> r == coords
    ensures !(|Ps| == 3 && p.Some?) ==> |r| == |coords| && AllZero(r)
  {
    if |Ps| == 3 && p.Some? then
      match bary(Ps[0], Ps[1], Ps[2], p.value)
      case Ok(w) => w
      case Err(_) => coords
    else
      seq(|coords|, _ => 0.0)
  }

  /** `selectVec`: classify the press, edit the triangle (triangle mode) or
      move the interior point (point mode), then finalize the weights. */
  function OnPress(s: PickerState, X: real, Y: real, which: int, button: int, bary: BaryFn): (r: PickerState)
    ensures r.selectingTriangle == s.selectingTriangle
    ensures s.selectingTriangle ==> r.p == s.p && r.Ps == EditTriangle(s.Ps, ClassifyClick(which, button), Pixel(X, Y))
    ensures !s.selectingTriangle ==> r.Ps == s.Ps && r.p == Some(Pixel(X, Y))
    ensures r.coords == FinalizedCoords(r.Ps, r.p, s.coords, bary)
  {
    var Ps := if s.selectingTriangle then EditTriangle(s.Ps, ClassifyClick(which, button), Pixel(X, Y)) else s.Ps;
    var p := if s.selectingTriangle then s.p else Some(Pixel(X, Y));
    PickerState(Ps, p, FinalizedCoords(Ps, p, s.coords, bary), s.selectingTriangle)
  }

  /** One user action. */
  function Step(s: PickerState, e: Event, bary: BaryFn): PickerState
  {
    match e
    case MouseDown(X, Y, which, button) => OnPress(s, X, Y, which, button, bary)
    case PointMode => s.(selectingTriangle := false)
    case TriangleMode => s.(selectingTriangle := true)
  }

  /** A sequence of user actions, in order. */
  function Run(s: PickerState, es: seq<Event>, bary: BaryFn): PickerState
    decreases |es|
  {
    if es == [] then s else Run(Step(s, es[0], bary), es[1..], bary)
  }

  /** What holds of every state the picker can reach: at most three
      vertices, every point on the pixel plane z = 0, and the zero sentinel
      in the weights whenever they cannot be computed. */
  ghost predicate Inv(s: PickerState)
  {
    PointsValid(s) &&
    (!(|s.Ps| == 3 && s.p.Some?) ==> AllZero(s.coords))
  }

  /** The part of the invariant about the vertices and the point alone,
      which holds even between the edit of a press and its finalization. */
  ghost predicate PointsValid(s: PickerState)
  {
    |s.Ps| <= 3 &&
    (forall i :: 0 <= i < |s.Ps| ==> s.Ps[i].z == 0.0) &&
    (s.p.Some? ==> s.p.value.z == 0.0)
  }

  lemma StepPreservesInv(s: PickerState, e: Event, bary: BaryFn)
    requires Inv(s)
    ensures Inv(Step(s, e, bary))
  {
  }

  lemma {:induction false} RunPreservesInv(s: PickerState, es: seq<Event>, bary: BaryFn)
    requires Inv(s)
    ensures Inv(Run(s, es, bary))
    decreases |es|
  {
    if es != [] {
      StepPreservesInv(s, es[0], bary);
      RunPreservesInv(Step(s, es[0], bary), es[1..], bary);
    }
  }

  /** Every reachable state satisfies the invariant; in particular the
      vertex buffer never holds more than three vertices. */
  lemma ReachableInv(es: seq<Event>, bary: BaryFn)
    ensures Inv(Run(Initial, es, bary))
    ensures |Run(Initial, es, bary).Ps| <= 3
  {
    RunPreservesInv(Initial, es, bary);
  }

  /** No press removes a vertex: every press is a left press. This is
      stricter than needed, since a non-left press made in point mode does
      not touch the vertices either; the single-step rule in full is the
      contract of `EditTriangle`. */
  ghost predicate OnlyLeftPresses(es: seq<Event>)
  {
    forall i :: 0 <= i < |es| && es[i].MouseDown? ==> ClassifyClick(es[i].which, es[i].button) == Left
  }

  /** Once two vertices are chosen, they stay fixed until some press removes
      a vertex: left presses only ever add or replace the third. */
  lemma {:induction false} FirstTwoSticky(s: PickerState, es: seq<Event>, bary: BaryFn)
    requires |s.Ps| >= 2 && OnlyLeftPresses(es)
    ensures |Run(s, es, bary).Ps| >= |s.Ps|
    ensures Run(s, es, bary).Ps[..2] == s.Ps[..2]
    decreases |es|
  {
    if es != [] {
      var s' := Step(s, es[0], bary);
      assert s'.Ps[..2] == s.Ps[..2];
      assert OnlyLeftPresses(es[1..]) by {
        forall i | 0 <= i < |es[1..]| && es[1..][i].MouseDown?
          ensures ClassifyClick(es[1..][i].which, es[1..][i].button) == Left
        {
          assert es[1..][i] == es[i + 1];
        }
      }
      FirstTwoSticky(s', es[1..], bary);
    }
  }

  /** No action switches the mode. */
  ghost predicate NoModeSwitch(es: seq<Event>)
  {
    forall i :: 0 <= i < |es| ==> es[i].MouseDown?
  }

  /** While the mode stays put, presses in triangle mode never move the
      interior point, and presses in point mode never touch the vertices. */
  lemma {:induction false} ModeConfinesPresses(s: PickerState, es: seq<Event>, bary: BaryFn)
    requires NoModeSwitch(es)
    ensures Run(s, es, bary).selectingTriangle == s.selectingTriangle
    ensures s.selectingTriangle ==> Run(s, es, bary).p == s.p
    ensures !s.selectingTriangle ==> Run(s, es, bary).Ps == s.Ps
    decreases |es|
  {
    if es != [] {
      assert es[0].MouseDown?;
      assert NoModeSwitch(es[1..]) by {
        forall i | 0 <= i < |es[1..]| ensures es[1..][i].MouseDown? {
          assert es[1..][i] == es[i + 1];
        }
      }
      ModeConfinesPresses(Step(s, es[0], bary), es[1..], bary);
    }
  }

  /** Three left presses pick the triangle in order; a fourth replaces only
      the third vertex. */
  lemma FourthClickReplacesThird(bary: BaryFn)
    ensures Run(Initial, [MouseDown(10.0, 10.0, 1, 0), MouseDown(20.0, 10.0, 1, 0), MouseDown(15.0, 20.0, 1, 0)], bary).Ps
         == [Vec3(10.0, 10.0, 0.0), Vec3(20.0, 10.0, 0.0), Vec3(15.0, 20.0, 0.0)]
    ensures Run(Initial, [MouseDown(10.0, 10.0, 1, 0), MouseDown(20.0, 10.0, 1, 0), MouseDown(15.0, 20.0, 1, 0),
                          MouseDown(5.0, 5.0, 1, 0)], bary).Ps
         == [Vec3(10.0, 10.0, 0.0), Vec3(20.0, 10.0, 0.0), Vec3(5.0, 5.0, 0.0)]
  {
  }

  /** With a triangle chosen, switching to point mode and pressing at
      (30, 30) sets the interior point there and adopts the weights the
      external function returns for it. */
  lemma PointPressRecomputes(s: PickerState, which: int, button: int, bary: BaryFn)
    requires |s.Ps| == 3
    ensures var r := Run(s, [PointMode, MouseDown(30.0, 30.0, which, button)], bary);
      && r.p == Some(Vec3(30.0, 30.0, 0.0))
      && r.Ps == s.Ps
      && r.coords == match bary(s.Ps[0], s.Ps[1], s.Ps[2], Vec3(30.0, 30.0, 0.0))
                     case Ok(w) => w
                     case Err(_) => s.coords
  {
    var s1 := Step(s, PointMode, bary);
    var e := MouseDown(30.0, 30.0, which, button);
    var s2 := Step(s1, e, bary);
    assert [PointMode, e][1..] == [e] && [e][1..] == [];
    assert Run(s, [PointMode, e], bary) == Run(s1, [e], bary) == Run(s2, [], bary) == s2;
  }
}
