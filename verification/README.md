# Barycentric picker and plot helpers of RayReflections2D, in Dafny

RayReflections2D is a browser teaching aid for 3D vector geometry. Students
write the geometric algorithms elsewhere. `guitools.js` supplies input
panels, calls those algorithms and plots the results. This project models
the sequential logic inside `guitools.js` and proves properties of it:

- **The barycentric picker** (`BarycentricGUI`). It is a canvas on which
  the user clicks the three vertices `Ps` of a triangle and an interior
  point `p`. The picker then shows the barycentric weights `coords` that the
  student's `getBarycentricCoords` returns. Modules:
  - `PickerSpec` (picker_spec.dfy) is the picker as a state machine on values.
  - `PickerGui` (picker_gui.dfy) is the object itself: a class whose fields
    are updated in place. `SelectVec`, `SelectPoint` and `SelectTriangle`
    each perform one transition of that machine. `FinalizePointSelection`
    performs the last part of a press, the recomputation of the weights.
- **`getAxesEqual`** and **`getTrianglePlots`** (`Plots`, plots.dfy). These
  build the plot descriptors for the axis lines and for a triangle.
- **`vecToStr`** and **`splitVecStr`** (`VecStrings`, vec_strings.dfy). These
  are the comma-separated vector formatter and parser. Number formatting
  (`toFixed`) and number parsing (`parseFloat`) are function parameters.
  Nothing is assumed about them beyond, where stated, that formatted numbers
  contain no comma.

Things the program gets from outside become parameters:

- The student's `getBarycentricCoords` is a parameter of type `BaryFn`. It
  returns `Ok(weights)`, or `Err(message)` where the JavaScript code throws.
- The pointer position `X`, `Y` is an input to the press handler.
- The event's `which` and `button` fields are integers. 0 stands for a field
  that is absent or zero, which is falsy in JavaScript.

Coordinates are `real`s, and `null` is `Option.None`.

## Model

| member | source | states |
|---|---|---|
| `PickerSpec.ClassifyClick` | guitools.js:574-583 | A press is RIGHT exactly when `which` is 3, or `which` is falsy and `button` is 2. It is MIDDLE exactly when `which` is 2, or `which` is falsy and `button` is 4. Otherwise it is LEFT. So a truthy `which` takes precedence over `button`. |
| `PickerSpec.EditTriangle` | guitools.js:585-601 | In triangle mode, a LEFT press appends `(X,Y,0)` while there are fewer than 3 vertices. Otherwise it overwrites only the third vertex: the first two and the length are kept. Any other press pops the last vertex and keeps the prefix; on an empty buffer it changes nothing. A buffer of at most 3 vertices stays at most 3. |
| `PickerSpec.FinalizedCoords` | guitools.js:550-564 | With exactly 3 vertices and a point, the weights become the external function's result, or keep their previous value if the function throws. Otherwise every weight becomes 0 and the length is kept. |
| `PickerSpec.OnPress` | guitools.js:568-618 | A press never changes the mode. In triangle mode it edits the vertices as `EditTriangle` says and leaves `p` alone. In point mode it sets `p := (X,Y,0)` and leaves the vertices alone. Either way the weights are then finalized from the new vertices and point. |
| `PickerSpec.StepPreservesInv` | guitools.js:568-618 | Any single action keeps the picker invariant. An action is a press or a mode switch. The invariant: at most 3 vertices, all points on z = 0, and zero weights whenever they cannot be computed. |
| `PickerSpec.RunPreservesInv` | guitools.js:458-619 | Any sequence of actions keeps the picker invariant. |
| `PickerSpec.ReachableInv` | guitools.js:459-465 | Every state reachable from construction satisfies the invariant. In particular the vertex buffer never holds more than 3 vertices. |
| `PickerSpec.FirstTwoSticky` | guitools.js:586-594 | Once two vertices exist, any run of actions whose presses are all LEFT keeps the first two vertices unchanged and never shortens the buffer. |
| `PickerSpec.ModeConfinesPresses` | guitools.js:585-616 | Over presses with no mode switch, triangle mode never changes `p` and point mode never changes the vertices. |
| `PickerSpec.FourthClickReplacesThird` | guitools.js:586-594 | From a fresh picker, LEFT presses at (10,10), (20,10) and (15,20) give exactly those vertices. A fourth at (5,5) gives [(10,10,0),(20,10,0),(5,5,0)]. |
| `PickerSpec.PointPressRecomputes` | guitools.js:612-617 | With a triangle chosen, switching to point mode and pressing at (30,30) sets `p` to (30,30,0) and keeps the vertices. The weights become the external function's result for that point, or stay as they were if it throws. |
| `PickerGui.BarycentricGui.constructor` | guitools.js:459-465 | The picker starts with no vertices, `p` null, weights [0,0,0] and triangle mode on. |
| `PickerGui.BarycentricGui.SelectPoint` | guitools.js:489-493 | Turns triangle mode off and changes no other field. |
| `PickerGui.BarycentricGui.SelectTriangle` | guitools.js:498-502 | Turns triangle mode on and changes no other field. |
| `PickerGui.BarycentricGui.FinalizePointSelection` | guitools.js:550-566 | Only the weights change, and they change as `FinalizedCoords` says. From any state whose vertices and point meet the invariant, including the state in the middle of a press, it restores the full invariant. |
| `PickerGui.BarycentricGui.SelectVec` | guitools.js:568-618 | The in-place updates (push, overwrite of `Ps[2]`, pop, assignment of `p`, then finalize) take the object exactly to the next state given by `OnPress`, and they keep the invariant. |
| `Plots.GetAxesEqual` | guitools.js:49-69 | Returns three black axis lines named xaxis, yaxis and zaxis. Each runs along its own axis, with 0 on the other two, from `minval` to `maxval`. `minval <= 0 <= maxval`. Every component `vs[i][j]` with `j < 3` lies in the range, and each bound is 0 or one of those components. An empty input gives the range [0,0]. |
| `Plots.AxisRangeUnique` | guitools.js:51-58 | Those conditions pin the range down. Two ranges that both meet them are equal, so the range is exactly [min(0, components), max(0, components)]. |
| `Plots.GetTrianglePlots` | guitools.js:280-307 | Returns exactly 6 descriptors. First come the vertex markers a, b and c in colours C0, C1 and C2. Then come the edges ab, bc and ca, where edge `i` spans `vecs[i]` to `vecs[(i+1)%3]`. Each edge's points and name are those of the two markers it joins, in order. |
| `VecStrings.VecToStr` | guitools.js:24-36 | The result is the elements formatted with `k` fraction digits, or 2 when `k` is undefined, joined by commas. It is empty for an empty vector and ends with the last formatted element, so there is no trailing comma. For a non-empty vector whose formatted elements contain no comma, splitting the result on commas gives back exactly `v.length` tokens, and there are exactly `v.length - 1` commas. |
| `VecStrings.SplitJoin` | guitools.js:9-11 | Splitting on commas undoes joining with commas, for one or more comma-free tokens. |
| `VecStrings.SplitLength` | guitools.js:9-12 | `s.split(",")` has one more token than `s` has commas. |
| `VecStrings.SplitVecStr` | guitools.js:7-16 | The arity alert is raised exactly when the text does not have exactly two commas. Component `j < 3` is `parseFloat` of token `j`, or not-a-number when there is no token `j`. |
| `VecStrings.FormatThenParse` | guitools.js:7-36 | The text is the comma join of the formatted components, which is `VecToStr`'s result by its first ensures. When no formatted component contains a comma (JavaScript's `toFixed` never produces one), parsing that text back with `splitVecStr` raises no arity alert. It then gives back `parseFloat` of each formatted component, in order. |

## Left out

- Drawing is left out because it is rendering into an external canvas.
  This covers `repaint` and the canvas calls in `setupCanvas` and the
  constructor.
- The coordinate labels are left out because they are DOM side effects.
  These are the `innerHTML` texts "(x,y)" and "Not Selected" written by
  `selectVec`, and the button colours set by `selectPoint` and
  `selectTriangle`.
- `alert` and `console.log` calls are dropped. The arity alert of
  `splitVecStr` is kept as the flag `arityAlert`.
- Event registration and `getMousePos` are left out because they are
  browser plumbing. The press handler takes `X`, `Y`, `which` and `button`
  directly.
- The panel controllers `AngleGUI`, `ProjGUI`, `AreaGUI`, `AboveOrBelowGUI`
  and `RayTriangleGUI` are left out. They only parse fields, call
  student-supplied functions and plot the results.
- rayReflect.js is not part of this model. Its `proj` is floating-point
  vector arithmetic, `projPerpVector` calls a function the file does not
  define, and `rayReflect` is an unimplemented stub.
- `toFixed` and `parseFloat` are uninterpreted parameters because their
  digit conversions are JavaScript floating-point behaviour. As a result,
  `FormatThenParse` states the round trip as "`parseFloat` of each formatted
  component" rather than "equal to the original within rounding".
- Floating point is not modelled: coordinates are exact reals, so NaN and
  Infinity are not represented. The not-a-number that `splitVecStr` yields
  for a missing token is the `Num.NaN` case.
- Plot styling other than the name, points, draw mode and colour is dropped:
  line width, marker size and symbol, and the trace type.
- `getAxesEqual` takes three-component vectors only. Inputs with fewer
  components, whose missing entries JavaScript reads as `undefined`, are not
  represented. One caller, `AngleGUI.drawVectors` (guitools.js:157), passes the raw
  coordinate strings rather than the parsed vectors. There `vs[i][j]` reads
  characters: for "1,2,3" it compares "1", "," and "2". That caller is not
  part of this model.
- The external `getBarycentricCoords` is a total function parameter. Any
  side effects it might have, and any dependence on state other than its
  four arguments, are not modelled.
- The vertex markers of `getTrianglePlots` also carry a white line colour
  (`#ffffff`). The model keeps only their marker colour.
- `evt.preventDefault()` in `selectVec` is dropped because it only affects
  the browser's default handling of the event.
- `BaryFn` types the external function's successful result as a sequence of
  numbers. A student function that returns a non-array (for example
  `undefined`) would make the next zeroing `this.coords.map` throw and leave
  `coords` non-zero. That state is not represented, and `Inv` rules it out.
