/** The tree tool: an L-system string interpreted by a turtle that keeps a
    stack of states, moves and turns the top state, and drives a brush
    helper. The helper is not called here; the calls the turtle makes on it
    are recorded, in order, as a log. */
module Turtle {
  import opened Geometry

  /** A three.js Matrix3: its nine elements in column-major order. */
  type Mat3 = e: seq<real> | |e| == 9 witness [1.0, 0.0, 0.0, 0.0, 1.0, 0.0, 0.0, 0.0, 1.0]

  /** The heading frame `init` gives a new tree: `m.set(0, -1, 0, 1, 0, 0,
      0, 0, 1)`, stored column by column. */
  const InitialHlu: Mat3 := [0.0, 1.0, 0.0, -1.0, 0.0, 0.0, 0.0, 0.0, 1.0]

  /** `Math.PI`, the double closest to pi. */
  const Pi: real := 3.141592653589793

  /** The first column of the frame (`elements[0..2]`): the direction the
      turtle moves along. */
  function Heading(m: Mat3): Vec3 {
    Vec3(m[0], m[1], m[2])
  }

  /** `a.multiply(b)`: the matrix product a × b, column-major. */
  function Multiply(a: Mat3, b: Mat3): (r: Mat3)
    ensures forall i, j :: 0 <= i < 3 && 0 <= j < 3 ==>
              r[i + 3 * j] == a[i] * b[3 * j] + a[i + 3] * b[3 * j + 1] + a[i + 6] * b[3 * j + 2]
  {
    seq(9, k requires 0 <= k < 9 =>
      a[k % 3] * b[k / 3 * 3] + a[k % 3 + 3] * b[k / 3 * 3 + 1] + a[k % 3 + 6] * b[k / 3 * 3 + 2])
  }

  /** The rotations the turtle applies, by axis and signed angle: about the
      up axis (`_getRuMatrix`, used by '+', '-' and '|'), the left axis
      (`turnDown`) and the heading axis (`rollLeft`). Their cos/sin entries
      are left abstract: the tool is given the function from a turn to its
      matrix. */
  datatype Turn = Yaw(angle: real) | Pitch(angle: real) | Roll(angle: real)

  /** One entry of the state stack. */
  datatype State = State(pos: Vec3, angle: real, hlu: Mat3, step: real,
                         orientation: Quaternion, pressure: real)

  /** A call the turtle makes on its brush helper. */
  datatype HelperCall = CreateMesh | AddPoint(pos: Vec3, orientation: Quaternion, pressure: real)

  /** What the interpretation changes: the state stack and the helper calls
      made so far. */
  datatype Turtle = Turtle(states: seq<State>, calls: seq<HelperCall>)

  /** The result of a step: the new turtle, or the turtle as it was when a
      TypeError (a read of the top of an empty stack) was thrown. */
  datatype Outcome = Ok(turtle: Turtle) | Threw(turtle: Turtle)

  // ---------------------------------------------------------------------
  // One symbol
  // ---------------------------------------------------------------------

  /** `_movePos`: the top state's position advances by step times the
      first three elements of its frame. */
  function Moved(t: Turtle): Outcome {
    if t.states == [] then Threw(t)
    else
      var n := |t.states|;
      var s := t.states[n - 1];
      var pos := Vec3(s.pos.x + s.step * s.hlu[0], s.pos.y + s.step * s.hlu[1], s.pos.z + s.step * s.hlu[2]);
      Ok(t.(states := t.states[..n - 1] + [s.(pos := pos)]))
  }

  /** `_draw`: the helper gets the top state's position, orientation and
      pressure. */
  function Drawn(t: Turtle): Outcome {
    if t.states == [] then Threw(t)
    else
      var s := t.states[|t.states| - 1];
      Ok(t.(calls := t.calls + [AddPoint(s.pos, s.orientation, s.pressure)]))
  }

  /** `_addMesh`: the helper starts a new mesh. */
  function WithMesh(t: Turtle): Turtle {
    t.(calls := t.calls + [CreateMesh])
  }

  /** `_updateAngle`: the top state's frame is multiplied by m. */
  function Turned(t: Turtle, m: Mat3): Outcome {
    if t.states == [] then Threw(t)
    else
      var n := |t.states|;
      var s := t.states[n - 1];
      Ok(t.(states := t.states[..n - 1] + [s.(hlu := Multiply(s.hlu, m))]))
  }

  /** A new mesh and a first point, as '[' and ']' do on a bracket that
      opens a branch. */
  function Restarted(t: Turtle, newMesh: bool): Outcome {
    if newMesh then Drawn(WithMesh(t)) else Ok(t)
  }

  /** `TreeTool.pushState`: a copy of the top is pushed. */
  function Pushed(t: Turtle, newMesh: bool): Outcome {
    if t.states == [] then Threw(t)
    else Restarted(t.(states := t.states + [t.states[|t.states| - 1]]), newMesh)
  }

  /** `TreeTool.popState`: the top is dropped (nothing happens to an empty
      stack, as with `Array.prototype.pop`). */
  function Popped(t: Turtle, newMesh: bool): Outcome {
    var states := if t.states == [] then [] else t.states[..|t.states| - 1];
    Restarted(t.(states := states), newMesh)
  }

  /** The symbols `interpretations` has an entry for. */
  const Interpreted: set<char> := {'F', 'f', '+', '-', '&', '^', '\\', '/', '|', '[', ']'}

  /** The effect of one symbol, looked up in `interpretations`; a symbol
      without an entry is skipped. */
  function Step(t: Turtle, c: char, newMesh: bool, rotation: Turn -> Mat3): Outcome {
    var top := if t.states == [] then State(Origin, 0.0, InitialHlu, 0.0, Quaternion(0.0, 0.0, 0.0, 1.0), 0.0)
               else t.states[|t.states| - 1];
    match c
    case 'F' => (var o := Moved(t); if o.Threw? then o else Drawn(o.turtle))
    case 'f' => Moved(WithMesh(t))
    case '+' => if t.states == [] then Threw(t) else Turned(t, rotation(Yaw(top.angle * 1.0)))
    case '-' => if t.states == [] then Threw(t) else Turned(t, rotation(Yaw(top.angle * -1.0)))
    case '&' => if t.states == [] then Threw(t) else Turned(t, rotation(Pitch(1.0 * top.angle)))
    case '^' => if t.states == [] then Threw(t) else Turned(t, rotation(Pitch(-1.0 * top.angle)))
    case '\\' => if t.states == [] then Threw(t) else Turned(t, rotation(Roll(1.0 * top.angle)))
    case '/' => if t.states == [] then Threw(t) else Turned(t, rotation(Roll(-1.0 * top.angle)))
    case '|' => Turned(t, rotation(Yaw(Pi)))
    case '[' => Pushed(t, newMesh)
    case ']' => Popped(t, newMesh)
    case _ => Ok(t)
  }

  /** `_movePos` changes the top state's position, by step × heading, and
      nothing else; an empty stack throws. */
  lemma MovedChangesOnlyTopPosition(t: Turtle)
    ensures Moved(t).Threw? <==> t.states == []
    ensures Moved(t).Ok? ==>
              var n := |t.states|;
              var after := Moved(t).turtle;
              && after.calls == t.calls
              && |after.states| == n
              && after.states[..n - 1] == t.states[..n - 1]
              && after.states[n - 1].pos == t.states[n - 1].pos.Add(Heading(t.states[n - 1].hlu).Scale(t.states[n - 1].step))
              && after.states[n - 1] == t.states[n - 1].(pos := after.states[n - 1].pos)
  {
    if t.states != [] {
      var n := |t.states|;
      var s := t.states[n - 1];
      var after := Moved(t).turtle.states;
      assert after[..n - 1] == t.states[..n - 1];
      var h := Heading(s.hlu).Scale(s.step);
      assert h == Vec3(s.hlu[0] * s.step, s.hlu[1] * s.step, s.hlu[2] * s.step);
      assert after[n - 1].pos == Vec3(s.pos.x + h.x, s.pos.y + h.y, s.pos.z + h.z);
    }
  }

  /** '[' without a new mesh pushes a copy of the top and makes no call;
      with one, it then starts a mesh and draws the new top. */
  lemma PushCopiesTop(t: Turtle, newMesh: bool, rotation: Turn -> Mat3)
    requires t.states != []
    ensures var top := t.states[|t.states| - 1];
            var o := Step(t, '[', newMesh, rotation);
            && o.Ok?
            && o.turtle.states == t.states + [top]
            && o.turtle.calls == t.calls + (if newMesh then [CreateMesh, AddPoint(top.pos, top.orientation, top.pressure)] else [])
  {
  }

  /** ']' drops exactly the top entry. */
  lemma PopRemovesTop(t: Turtle, rotation: Turn -> Mat3)
    requires t.states != []
    ensures Step(t, ']', false, rotation) == Ok(t.(states := t.states[..|t.states| - 1]))
  {
  }

  /** '[' then ']', neither opening a branch, give back the stack and the
      calls they started from. */
  lemma PushThenPopRestores(t: Turtle, rotation: Turn -> Mat3)
    requires t.states != []
    ensures var o := Step(t, '[', false, rotation);
            o.Ok? && Step(o.turtle, ']', false, rotation) == Ok(t)
  {
    var pushed := t.states + [t.states[|t.states| - 1]];
    assert pushed[..|pushed| - 1] == t.states;
  }

  /** A symbol without an entry in `interpretations` changes nothing. */
  lemma UnknownSymbolIsSkipped(t: Turtle, c: char, newMesh: bool, rotation: Turn -> Mat3)
    requires c !in Interpreted
    ensures Step(t, c, newMesh, rotation) == Ok(t)
  {
  }

  // ---------------------------------------------------------------------
  // Runs and chunks
  // ---------------------------------------------------------------------

  /** The `newMesh` flag of symbol i: a bracket followed by a symbol that
      is not a bracket. */
  predicate IsNewMesh(s: seq<char>, i: nat) {
    && i + 1 < |s|
    && (s[i] == ']' || s[i] == '[')
    && s[i + 1] != ']'
    && s[i + 1] != '['
  }

  /** How one symbol is interpreted: a step function of the turtle, the
      symbol and its `newMesh` flag. */
  type Interpreter = (Turtle, char, bool) -> Outcome

  /** The tool's `interpretations` table, for the given rotation matrices. */
  function Interpretation(rotation: Turn -> Mat3): Interpreter {
    (t: Turtle, c: char, newMesh: bool) => Step(t, c, newMesh, rotation)
  }

  /** Symbols [lo, hi) interpreted in order, each with its `newMesh` flag;
      a throw ends the run. */
  function RunRange(t: Turtle, s: seq<char>, lo: nat, hi: nat, step: Interpreter): Outcome
    requires lo <= hi <= |s|
    decreases hi
  {
    if hi == lo then Ok(t)
    else
      var o := RunRange(t, s, lo, hi - 1, step);
      if o.Threw? then o else step(o.turtle, s[hi - 1], IsNewMesh(s, hi - 1))
  }

  /** Where one `_interpretSbs` step that starts at idx stops: just after
      the first symbol whose `newMesh` flag is set, or at the end. */
  function ChunkEnd(s: seq<char>, idx: nat): (e: nat)
    requires idx < |s|
    ensures idx < e <= |s|
    ensures e == |s| || IsNewMesh(s, e - 1)
    ensures forall k :: idx <= k < e - 1 ==> !IsNewMesh(s, k)
    decreases |s| - idx
  {
    if IsNewMesh(s, idx) || idx + 1 == |s| then idx + 1 else ChunkEnd(s, idx + 1)
  }

  /** Inside a chunk, symbol i ends it exactly when its flag is set or it
      is the last symbol. */
  lemma ChunkEndAt(s: seq<char>, idx: nat, i: nat)
    requires idx < |s| && idx <= i < ChunkEnd(s, idx)
    ensures i + 1 == ChunkEnd(s, idx) <==> IsNewMesh(s, i) || i + 1 == |s|
  {
  }

  /** The chain of `_interpretSbs` steps from idx, each scheduled at the
      index where the previous one stopped. */
  function RunChunks(t: Turtle, s: seq<char>, idx: nat, step: Interpreter): Outcome
    decreases |s| - idx
  {
    if idx >= |s| then Ok(t)
    else
      var o := RunRange(t, s, idx, ChunkEnd(s, idx), step);
      if o.Threw? then o else RunChunks(o.turtle, s, ChunkEnd(s, idx), step)
  }

  /** A run splits at any middle index; a throw in the first part ends it. */
  lemma {:induction false} RunRangeSplit(t: Turtle, s: seq<char>, a: nat, b: nat, c: nat, step: Interpreter)
    requires a <= b <= c <= |s|
    ensures var o := RunRange(t, s, a, b, step);
            RunRange(t, s, a, c, step) == if o.Threw? then o else RunRange(o.turtle, s, b, c, step)
    decreases c
  {
    if c > b {
      RunRangeSplit(t, s, a, b, c - 1, step);
    }
  }

  /** The chunked interpretation visits every symbol from idx once, in
      order, with the same flags: it is the run of the whole rest. */
  lemma {:induction false} ChunksVisitEverySymbolOnce(t: Turtle, s: seq<char>, idx: nat, step: Interpreter)
    requires idx <= |s|
    ensures RunChunks(t, s, idx, step) == RunRange(t, s, idx, |s|, step)
    decreases |s| - idx
  {
    if idx < |s| {
      var e := ChunkEnd(s, idx);
      RunRangeSplit(t, s, idx, e, |s|, step);
      var o := RunRange(t, s, idx, e, step);
      if o.Ok? {
        ChunksVisitEverySymbolOnce(o.turtle, s, e, step);
      }
    }
  }

  // ---------------------------------------------------------------------
  // The tree and the tool
  // ---------------------------------------------------------------------

  /** `Tree`: the state stack of one tree, its interpretation string and
      step, and the calls made on its brush helper. */
  class Tree {
    var states: seq<State>
    var calls: seq<HelperCall>
    var step: real
    var str: seq<char>

    /** A new tree: an empty stack. The string and step are `undefined`
        until `init` sets them; the empty string and 0 stand for "not yet
        initialised". */
    constructor ()
      ensures states == [] && calls == [] && str == [] && step == 0.0
    {
      states, calls, str, step := [], [], [], 0.0;
    }

    /** The part of the tree the interpretation changes. */
    function Snapshot(): Turtle
      reads this
    {
      Turtle(states, calls)
    }

    /** `init`: pushes the starting state, with the initial frame, and
        keeps the step and the string. */
    method Init(pos: Vec3, orientation: Quaternion, pressure: real, angle: real, step: real, str: seq<char>)
      modifies this`states, this`step, this`str
      ensures states == old(states) + [State(pos, angle, InitialHlu, step, orientation, pressure)]
      ensures this.step == step && this.str == str
    {
      PushState(pos, angle, InitialHlu, step, orientation, pressure);
      this.step := step;
      this.str := str;
    }

    /** `pushState`: a new state holding copies of the given values goes on
        top; the entries below are untouched. */
    method PushState(pos: Vec3, angle: real, hlu: Mat3, step: real, orientation: Quaternion, pressure: real)
      modifies this`states
      ensures |states| == |old(states)| + 1 && states[..|old(states)|] == old(states)
      ensures states[|states| - 1] == State(pos, angle, hlu, step, orientation, pressure)
    {
      states := states + [State(pos, angle, hlu, step, orientation, pressure)];
    }

    /** `popState`: removes the top entry, if there is one. */
    method PopState()
      modifies this`states
      ensures old(states) != [] ==> states == old(states)[..|old(states)| - 1]
      ensures old(states) == [] ==> states == []
    {
      if states != [] {
        states := states[..|states| - 1];
      }
    }

    /** `peekState`: the last entry (`undefined` on an empty stack). */
    method PeekState() returns (top: Option<State>)
      ensures top.Some? <==> states != []
      ensures top.Some? ==> top.value == states[|states| - 1]
    {
      if states == [] {
        top := None;
      } else {
        top := Some(states[|states| - 1]);
      }
    }
  }

  /** `TreeTool`: the pending trees and the interpretation of a tree's
      string, one chunk at a time. */
  class TreeTool {
    /** The rotation matrix of a turn (built with cos and sin in the tool). */
    const rotation: Turn -> Mat3
    /** `interpretations`: what each symbol does. */
    const interpretations: Interpreter
    var trees: seq<Tree>
    var angle: real
    var step: real
    var str: seq<char>

    /** The derived string and default angle of the selected L-system are
        given; the step starts at 0.1 and no tree is pending. */
    constructor (rotation: Turn -> Mat3, angle: real, str: seq<char>)
      ensures Valid()
      ensures this.rotation == rotation && this.angle == angle && this.str == str
      ensures step == 0.1 && trees == []
    {
      this.rotation := rotation;
      interpretations := Interpretation(rotation);
      this.angle := angle;
      this.str := str;
      step := 0.1;
      trees := [];
    }

    /** The table is the one `Step` defines for the tool's rotations. */
    ghost predicate Valid() {
      forall t, c, newMesh {:trigger Step(t, c, newMesh, rotation)} ::
        interpretations(t, c, newMesh) == Step(t, c, newMesh, rotation)
    }

    /** `trigger`: a new tree is appended and gets its first mesh. */
    method Trigger() returns (tree: Tree)
      modifies this`trees
      ensures fresh(tree) && trees == old(trees) + [tree]
      ensures tree.states == [] && tree.calls == [CreateMesh] && tree.str == []
    {
      tree := new Tree();
      trees := trees + [tree];
      AddMesh(tree);
    }

    method AddMesh(tree: Tree)
      modifies tree`calls
      ensures tree.calls == old(tree.calls) + [CreateMesh]
    {
      tree.calls := tree.calls + [CreateMesh];
    }

    method Draw(tree: Tree) returns (ok: bool)
      modifies tree`calls
      ensures tree.Snapshot() == Drawn(old(tree.Snapshot())).turtle
      ensures ok == Drawn(old(tree.Snapshot())).Ok?
    {
      var top := tree.PeekState();
      if top.None? {
        return false;
      }
      tree.calls := tree.calls + [AddPoint(top.value.pos, top.value.orientation, top.value.pressure)];
      ok := true;
    }

    method MovePos(tree: Tree) returns (ok: bool)
      modifies tree`states
      ensures tree.Snapshot() == Moved(old(tree.Snapshot())).turtle
      ensures ok == Moved(old(tree.Snapshot())).Ok?
    {
      var top := tree.PeekState();
      if top.None? {
        return false;
      }
      var s := top.value;
      var pos := Vec3(s.pos.x + s.step * s.hlu[0], s.pos.y + s.step * s.hlu[1], s.pos.z + s.step * s.hlu[2]);
      ghost var moved := Moved(tree.Snapshot()).turtle.states;
      tree.states := tree.states[..|tree.states| - 1] + [s.(pos := pos)];
      assert moved[|moved| - 1] == tree.states[|moved| - 1];
      ok := true;
    }

    method UpdateAngle(tree: Tree, m: Mat3) returns (ok: bool)
      modifies tree`states
      ensures tree.Snapshot() == Turned(old(tree.Snapshot()), m).turtle
      ensures ok == Turned(old(tree.Snapshot()), m).Ok?
    {
      var top := tree.PeekState();
      if top.None? {
        return false;
      }
      var s := top.value;
      tree.states := tree.states[..|tree.states| - 1] + [s.(hlu := Multiply(s.hlu, m))];
      ok := true;
    }

    method DrawForward(tree: Tree) returns (ok: bool)
      modifies tree`states, tree`calls
      ensures tree.Snapshot() == Step(old(tree.Snapshot()), 'F', false, rotation).turtle
      ensures ok == Step(old(tree.Snapshot()), 'F', false, rotation).Ok?
    {
      ok := MovePos(tree);
      if ok {
        ok := Draw(tree);
      }
    }

    method MoveForward(tree: Tree) returns (ok: bool)
      modifies tree`states, tree`calls
      ensures tree.Snapshot() == Step(old(tree.Snapshot()), 'f', false, rotation).turtle
      ensures ok == Step(old(tree.Snapshot()), 'f', false, rotation).Ok?
    {
      AddMesh(tree);
      ok := MovePos(tree);
    }

    /** `turnLeft`, `turnDown` and `rollLeft` with their sign, and
        `turnAround`: the matrix of the turn for the top state's angle. */
    method Rotate(tree: Tree, c: char) returns (ok: bool)
      requires c in {'+', '-', '&', '^', '\\', '/', '|'}
      modifies tree`states
      ensures tree.Snapshot() == Step(old(tree.Snapshot()), c, false, rotation).turtle
      ensures ok == Step(old(tree.Snapshot()), c, false, rotation).Ok?
    {
      if c == '|' {
        ok := UpdateAngle(tree, rotation(Yaw(Pi)));
        return;
      }
      var top := tree.PeekState();
      if top.None? {
        return false;
      }
      var a := top.value.angle;
      var turn := match c
        case '+' => Yaw(a * 1.0)
        case '-' => Yaw(a * -1.0)
        case '&' => Pitch(1.0 * a)
        case '^' => Pitch(-1.0 * a)
        case '\\' => Roll(1.0 * a)
        case _ => Roll(-1.0 * a);
      ok := UpdateAngle(tree, rotation(turn));
    }

    method PushState(tree: Tree, newMesh: bool) returns (ok: bool)
      modifies tree`states, tree`calls
      ensures tree.Snapshot() == Pushed(old(tree.Snapshot()), newMesh).turtle
      ensures ok == Pushed(old(tree.Snapshot()), newMesh).Ok?
    {
      var top := tree.PeekState();
      if top.None? {
        return false;
      }
      var s := top.value;
      tree.PushState(s.pos, s.angle, s.hlu, s.step, s.orientation, s.pressure);
      ok := true;
      if newMesh {
        AddMesh(tree);
        ok := Draw(tree);
      }
    }

    method PopState(tree: Tree, newMesh: bool) returns (ok: bool)
      modifies tree`states, tree`calls
      ensures tree.Snapshot() == Popped(old(tree.Snapshot()), newMesh).turtle
      ensures ok == Popped(old(tree.Snapshot()), newMesh).Ok?
    {
      tree.PopState();
      ok := true;
      if newMesh {
        AddMesh(tree);
        ok := Draw(tree);
      }
    }

    /** The lookup in `interpretations` and the call of the entry found. */
    method Interpret1(tree: Tree, c: char, newMesh: bool) returns (ok: bool)
      requires Valid()
      modifies tree`states, tree`calls
      ensures tree.Snapshot() == interpretations(old(tree.Snapshot()), c, newMesh).turtle
      ensures ok == interpretations(old(tree.Snapshot()), c, newMesh).Ok?
    {
      ghost var entry := Step(tree.Snapshot(), c, newMesh, rotation);
      if c == 'F' {
        ok := DrawForward(tree);
      } else if c == 'f' {
        ok := MoveForward(tree);
      } else if c in {'+', '-', '&', '^', '\\', '/', '|'} {
        ok := Rotate(tree, c);
      } else if c == '[' {
        ok := PushState(tree, newMesh);
      } else if c == ']' {
        ok := PopState(tree, newMesh);
      } else {
        ok := true;
      }
    }

    /** One pass of the loops of `_interpret` and `_interpretSbs`: symbol i
        is interpreted with its `newMesh` flag, which extends the run of the
        symbols from lo by one. */
    method InterpretAt(tree: Tree, s: seq<char>, i: nat, ghost t0: Turtle, ghost lo: nat) returns (ok: bool, newMesh: bool)
      requires Valid() && lo <= i < |s|
      requires RunRange(t0, s, lo, i, interpretations) == Ok(tree.Snapshot())
      modifies tree`states, tree`calls
      ensures newMesh == IsNewMesh(s, i)
      ensures RunRange(t0, s, lo, i + 1, interpretations) == if ok then Ok(tree.Snapshot()) else Threw(tree.Snapshot())
    {
      newMesh := i + 1 < |s| && (s[i] == ']' || s[i] == '[') && s[i + 1] != ']' && s[i + 1] != '[';
      ok := Interpret1(tree, s[i], newMesh);
    }

    /** `_interpretSbs(tree, idx)`: interprets the chunk from idx (see
        ChunkEnd) and returns the index the next step is scheduled at; none
        once idx is past the end or a symbol threw. The pending trees are
        left as they are. */
    method InterpretSbs(tree: Tree, idx: nat) returns (next: Option<nat>)
      requires Valid()
      modifies tree`states, tree`calls
      ensures idx >= |tree.str| ==> next == None && tree.Snapshot() == old(tree.Snapshot())
      ensures idx < |tree.str| ==>
                var o := RunRange(old(tree.Snapshot()), tree.str, idx, ChunkEnd(tree.str, idx), interpretations);
                && tree.Snapshot() == o.turtle
                && next == (if o.Ok? then Some(ChunkEnd(tree.str, idx)) else None)
    {
      var s := tree.str;
      if idx >= |s| {
        return None;
      }
      ghost var t0 := tree.Snapshot();
      ghost var e := ChunkEnd(s, idx);
      var i := idx;
      var newMesh := false;
      while i < |s| && !newMesh
        invariant idx <= i <= e
        invariant newMesh ==> i == e
        invariant !newMesh ==> i < e || i == |s|
        invariant RunRange(t0, s, idx, i, interpretations) == Ok(tree.Snapshot())
        invariant tree.str == s
      {
        ChunkEndAt(s, idx, i);
        var ok;
        ok, newMesh := InterpretAt(tree, s, i, t0, idx);
        i := i + 1;
        if !ok {
          RunRangeSplit(t0, s, idx, i, e, interpretations);
          return None;
        }
      }
      next := Some(i);
    }

    /** `_interpret`: the whole string in one go, then the last pending
        tree is popped (not reached when a symbol throws). */
    method Interpret(tree: Tree)
      requires Valid()
      modifies this`trees, tree`states, tree`calls
      ensures var o := RunRange(old(tree.Snapshot()), tree.str, 0, |tree.str|, interpretations);
              && tree.Snapshot() == o.turtle
              && trees == if o.Threw? || old(trees) == [] then old(trees) else old(trees)[..|old(trees)| - 1]
    {
      var s := tree.str;
      ghost var t0 := tree.Snapshot();
      var i := 0;
      while i < |s|
        invariant i <= |s|
        invariant RunRange(t0, s, 0, i, interpretations) == Ok(tree.Snapshot())
        invariant tree.str == s && trees == old(trees)
      {
        var ok, _ := InterpretAt(tree, s, i, t0, 0);
        i := i + 1;
        if !ok {
          RunRangeSplit(t0, s, 0, i, |s|, interpretations);
          return;
        }
      }
      if trees != [] {
        trees := trees[..|trees| - 1];
      }
    }

    /** `release(data)`: with no pending tree, nothing happens. Otherwise
        the last tree is started at the given position (`init`), a first
        point is drawn there, and the first chunk of the string is
        interpreted; the result is where the next chunk is scheduled. */
    method Release(pos: Vec3, orientation: Quaternion, pressure: real) returns (next: Option<nat>)
      requires Valid()
      modifies if trees == [] then {} else {trees[|trees| - 1]}
      ensures trees == old(trees)
      ensures old(trees) == [] ==> next == None
      ensures old(trees) != [] ==>
                var tree := trees[|trees| - 1];
                var started := Turtle(old(tree.states) + [State(pos, angle, InitialHlu, step, orientation, pressure)],
                                      old(tree.calls) + [AddPoint(pos, orientation, pressure)]);
                && tree.str == str && tree.step == step
                && (str == [] ==> next == None && tree.Snapshot() == started)
                && (str != [] ==>
                      var o := RunRange(started, str, 0, ChunkEnd(str, 0), interpretations);
                      tree.Snapshot() == o.turtle && next == (if o.Ok? then Some(ChunkEnd(str, 0)) else None))
    {
      if trees == [] {
        return None;
      }
      var tree := trees[|trees| - 1];
      tree.Init(pos, orientation, pressure, angle, step, str);
      var drawn := Draw(tree);
      next := InterpretSbs(tree, 0);
    }
  }
}
