/** The VR controller: picks its gamepad out of the browser's list, and turns
    the gamepad's buttons and thumbpad into events by edge detection. The
    events the controller dispatches are kept, in order, as a log. */
module Vive {
  import opened Geometry

  /** Bounds and speed of the size hint's scale. */
  const MinSizeSelection: real := 0.25
  const MaxSizeSelection: real := 1.5
  const SizeScaleSpeed: real := 0.15

  /** A trigger value from this one on counts as pressed. */
  const PressThreshold: real := 0.05

  /** The ids of the gamepads the controller accepts. */
  const ControllerIds: set<string> := {"OpenVR Gamepad", "Oculus Touch (Left)", "Oculus Touch (Right)"}

  /** The keys of `buttons`, in the order `update` visits them. */
  datatype ButtonId = Thumbpad | Trigger | Menu

  datatype Status = Down | Up

  /** The two thumbpad axes. */
  datatype Axes = Axes(x: real, y: real)

  /** An event the controller dispatches: a button event with an optional
      status and pressure, or `axisChanged` with the change of both axes. */
  datatype Event =
    | ButtonEvent(button: ButtonId, status: Option<Status>, pressure: Option<real>)
    | AxisChanged(diff: Axes)

  /** A gamepad's pose: `undefined`, `null` (no user action yet), or present
      (its position and orientation are not modelled). */
  datatype Pose = PoseUndefined | PoseNull | PoseData

  datatype GamepadButton = GamepadButton(pressed: bool, value: real)

  /** A Gamepad API entry: its id, pose and axes, and the buttons the
      controller reads (`buttons[0]`, `buttons[1]` and `buttons[3]`). */
  datatype Gamepad = Gamepad(id: string, pose: Pose, axes: Axes, thumbpadButton: GamepadButton,
                             triggerButton: GamepadButton, menuButton: GamepadButton)

  // ---------------------------------------------------------------------
  // Edge detection
  // ---------------------------------------------------------------------

  /** What a button dispatches when its state goes from `pressed` to
      `newPressed`: one event with status Down or Up on a change, one event
      without status while held, nothing while released. */
  function ButtonEvents(b: ButtonId, pressed: bool, newPressed: bool, pressure: Option<real>): seq<Event> {
    if pressed != newPressed then [ButtonEvent(b, Some(if newPressed then Down else Up), pressure)]
    else if pressed then [ButtonEvent(b, None, pressure)]
    else []
  }

  /** Whether the log leaves button b down: the last status event of b is
      Down (no status event: up). */
  function Held(log: seq<Event>, b: ButtonId): bool
    decreases |log|
  {
    if log == [] then false
    else
      var e := log[|log| - 1];
      if e.ButtonEvent? && e.button == b && e.status.Some? then e.status.value == Down
      else Held(log[..|log| - 1], b)
  }

  /** Down and Up alternate for every button, starting with Down: each
      status event changes what the log before it left the button at. */
  ghost predicate Alternating(log: seq<Event>) {
    forall k :: 0 <= k < |log| && log[k].ButtonEvent? && log[k].status.Some? ==>
      (log[k].status.value == Down <==> !Held(log[..k], log[k].button))
  }

  /** The events of one button step extend an alternating log, leave the
      button held exactly when it is now pressed, and leave the other
      buttons as they were. */
  lemma {:induction false} ButtonEventsKeepAlternation(log: seq<Event>, b: ButtonId, pressed: bool, newPressed: bool,
                                                       pressure: Option<real>)
    requires Alternating(log) && pressed == Held(log, b)
    ensures var log' := log + ButtonEvents(b, pressed, newPressed, pressure);
            && Alternating(log')
            && Held(log', b) == newPressed
            && forall c :: c != b ==> Held(log', c) == Held(log, c)
  {
    var ev := ButtonEvents(b, pressed, newPressed, pressure);
    var log' := log + ev;
    if ev == [] {
      assert log' == log;
    } else {
      var e := ev[0];
      assert log' == log + [e];
      assert log'[..|log|] == log;
      assert e.button == b && (e.status.Some? ==> (e.status.value == Down <==> !Held(log, b)));
      forall k | 0 <= k < |log'| && log'[k].ButtonEvent? && log'[k].status.Some?
        ensures log'[k].status.value == Down <==> !Held(log'[..k], log'[k].button)
      {
        if k < |log| {
          assert log'[k] == log[k] && log'[..k] == log[..k];
        }
      }
    }
  }

  /** An `axisChanged` event leaves the buttons and the alternation alone. */
  lemma AxisEventKeepsAlternation(log: seq<Event>, diff: Axes)
    requires Alternating(log)
    ensures var log' := log + [AxisChanged(diff)];
            && Alternating(log')
            && forall c :: Held(log', c) == Held(log, c)
  {
    var log' := log + [AxisChanged(diff)];
    assert log'[..|log|] == log;
    forall k | 0 <= k < |log|
      ensures log'[k] == log[k] && log'[..k] == log[..k]
    {
    }
  }

  /** The event the thumbpad dispatches when its axes move from a to n. */
  function AxisEvents(a: Axes, n: Axes): (r: seq<Event>)
    ensures a == n ==> r == []
    ensures a != n ==> |r| == 1 && r[0].AxisChanged? && Axes(a.x + r[0].diff.x, a.y + r[0].diff.y) == n
  {
    if a != n then [AxisChanged(Axes(n.x - a.x, n.y - a.y))] else []
  }

  // ---------------------------------------------------------------------
  // Gamepad selection
  // ---------------------------------------------------------------------

  /** Slot i of the list; a slot past its end reads `undefined`. */
  function Slot(gamepads: seq<Option<Gamepad>>, i: nat): Option<Gamepad> {
    if i < |gamepads| then gamepads[i] else None
  }

  /** A slot holding a gamepad with one of the accepted ids. */
  predicate IsController(g: Option<Gamepad>) {
    g.Some? && g.value.id in ControllerIds
  }

  /** The accepted gamepads among slots 0 .. n - 1, in slot order. */
  function Controllers(gamepads: seq<Option<Gamepad>>, n: nat): (r: seq<Gamepad>)
    ensures |r| <= n
    ensures forall g :: g in r ==> g.id in ControllerIds
  {
    if n == 0 then []
    else Controllers(gamepads, n - 1) + (if IsController(Slot(gamepads, n - 1)) then [Slot(gamepads, n - 1).value] else [])
  }

  /** Looking at more slots only adds controllers at the end. */
  lemma {:induction false} ControllersGrow(gamepads: seq<Option<Gamepad>>, n: nat, m: nat)
    requires n <= m
    ensures |Controllers(gamepads, n)| <= |Controllers(gamepads, m)|
    ensures Controllers(gamepads, m)[..|Controllers(gamepads, n)|] == Controllers(gamepads, n)
    decreases m
  {
    if n < m {
      ControllersGrow(gamepads, n, m - 1);
      var c, c' := Controllers(gamepads, m - 1), Controllers(gamepads, m);
      assert c'[..|c|] == c;
      assert c'[..|Controllers(gamepads, n)|] == c[..|Controllers(gamepads, n)|];
    }
  }

  /** What `_findGamepad(id)` returns: the id-th (from 0) accepted gamepad
      in slots 0 .. 3, or `undefined`. */
  function FoundGamepad(gamepads: seq<Option<Gamepad>>, id: int): Option<Gamepad> {
    var c := Controllers(gamepads, 4);
    if 0 <= id < |c| then Some(c[id]) else None
  }

  // ---------------------------------------------------------------------
  // ViveController
  // ---------------------------------------------------------------------

  /** `ViveController`: the gamepad it follows, the state of its three
      buttons, the size hint's scale, and the log of dispatched events. */
  class ViveController {
    const gamepadId: int
    /** `MathUtils.clamp(min, max, v)`, whose definition is not part of
        this model. */
    const clamp: (real, real, real) -> real
    var gamepad: Option<Gamepad>
    var visible: bool
    var thumbpadPressed: bool
    var thumbpadAxes: Axes
    var triggerPressed: bool
    var triggerValue: real
    var menuPressed: bool
    var axesDiff: Option<Axes>
    var sizeScale: Vec3
    var events: seq<Event>

    /** `buttons[b].pressed`. */
    function PressedOf(b: ButtonId): bool
      reads this
    {
      match b
      case Thumbpad => thumbpadPressed
      case Trigger => triggerPressed
      case Menu => menuPressed
    }

    /** Each button is pressed exactly when the log leaves it down, and the
        log alternates Down and Up. */
    ghost predicate Valid()
      reads this
    {
      && Alternating(events)
      && thumbpadPressed == Held(events, Thumbpad)
      && triggerPressed == Held(events, Trigger)
      && menuPressed == Held(events, Menu)
    }

    /** No button pressed, axes and trigger at 0, no gamepad yet. */
    constructor (id: int, clamp: (real, real, real) -> real, sizeScale: Vec3)
      ensures Valid()
      ensures gamepadId == id && this.clamp == clamp && this.sizeScale == sizeScale
      ensures gamepad == None && visible && axesDiff == None && events == []
      ensures !thumbpadPressed && !triggerPressed && !menuPressed
      ensures thumbpadAxes == Axes(0.0, 0.0) && triggerValue == 0.0
    {
      gamepadId, this.clamp, this.sizeScale := id, clamp, sizeScale;
      gamepad, visible, axesDiff, events := None, true, None, [];
      thumbpadPressed, triggerPressed, menuPressed := false, false, false;
      thumbpadAxes, triggerValue := Axes(0.0, 0.0), 0.0;
    }

    /** `buttons[b].pressed = v`. */
    method SetPressed(b: ButtonId, v: bool)
      modifies this`thumbpadPressed, this`triggerPressed, this`menuPressed
      ensures thumbpadPressed == if b == Thumbpad then v else old(thumbpadPressed)
      ensures triggerPressed == if b == Trigger then v else old(triggerPressed)
      ensures menuPressed == if b == Menu then v else old(menuPressed)
    {
      match b
      case Thumbpad => thumbpadPressed := v;
      case Trigger => triggerPressed := v;
      case Menu => menuPressed := v;
    }

    /** `_triggerBoolButton(b, newValue)`: on a change, one event with
        status Down (newValue true) or Up, and the button takes the new
        value; while held, one event without status; while released,
        nothing. */
    method TriggerBoolButton(b: ButtonId, newValue: bool)
      requires Valid()
      modifies this`events, this`thumbpadPressed, this`triggerPressed, this`menuPressed
      ensures Valid()
      ensures events == old(events) + ButtonEvents(b, old(PressedOf(b)), newValue, None)
      ensures thumbpadPressed == if b == Thumbpad then newValue else old(thumbpadPressed)
      ensures triggerPressed == if b == Trigger then newValue else old(triggerPressed)
      ensures menuPressed == if b == Menu then newValue else old(menuPressed)
    {
      var pressed := PressedOf(b);
      ButtonEventsKeepAlternation(events, b, pressed, newValue, None);
      if pressed != newValue {
        events := events + [ButtonEvent(b, Some(if newValue then Down else Up), None)];
        SetPressed(b, newValue);
      } else if pressed {
        events := events + [ButtonEvent(b, None, None)];
      }
    }

    /** `_triggerValueButton('trigger', value)`: the value is stored, the
        trigger counts as pressed from 0.05 on, and the events of
        `_triggerBoolButton` are dispatched with the value as pressure. */
    method TriggerValueButton(value: real)
      requires Valid()
      modifies this`events, this`triggerPressed, this`triggerValue
      ensures Valid()
      ensures triggerValue == value && triggerPressed == (value >= PressThreshold)
      ensures events == old(events) + ButtonEvents(Trigger, old(triggerPressed), value >= PressThreshold, Some(value))
    {
      triggerValue := value;
      var newPressed := value >= PressThreshold;
      ButtonEventsKeepAlternation(events, Trigger, triggerPressed, newPressed, Some(value));
      if triggerPressed != newPressed {
        events := events + [ButtonEvent(Trigger, Some(if newPressed then Down else Up), Some(triggerValue))];
        triggerPressed := newPressed;
      } else if triggerPressed {
        events := events + [ButtonEvent(Trigger, None, Some(triggerValue))];
      }
    }

    /** The size hint's scale after a vertical thumbpad move dy, each
        coordinate clamped to [0.25, 1.5]. */
    function Rescaled(scale: Vec3, dy: real): Vec3 {
      Vec3(clamp(MinSizeSelection, MaxSizeSelection, scale.x + dy * SizeScaleSpeed),
           clamp(MinSizeSelection, MaxSizeSelection, scale.y + dy * SizeScaleSpeed),
           clamp(MinSizeSelection, MaxSizeSelection, scale.z + dy * SizeScaleSpeed))
    }

    /** `dispatchEvent({type: 'axisChanged', axes: diff})`. */
    method DispatchAxisChanged(diff: Axes)
      requires Valid()
      modifies this`events
      ensures Valid()
      ensures events == old(events) + [AxisChanged(diff)]
    {
      AxisEventKeepsAlternation(events, diff);
      events := events + [AxisChanged(diff)];
    }

    /** The thumbpad's `triggerEvent`, for the axes of the current gamepad:
        when an axis moved, `axisChanged` with new − old is dispatched,
        the stored axes follow the gamepad, and the size hint is rescaled
        if the vertical move is below 0.5 in size. */
    method ThumbpadAxes(axes: Axes)
      requires Valid()
      modifies this`events, this`thumbpadAxes, this`axesDiff, this`sizeScale
      ensures Valid()
      ensures thumbpadAxes == axes
      ensures events == old(events) + AxisEvents(old(thumbpadAxes), axes)
      ensures old(thumbpadAxes) == axes ==> axesDiff == old(axesDiff) && sizeScale == old(sizeScale)
      ensures old(thumbpadAxes) != axes ==>
                var diff := Axes(axes.x - old(thumbpadAxes).x, axes.y - old(thumbpadAxes).y);
                && axesDiff == Some(diff)
                && sizeScale == if -0.5 < diff.y < 0.5 then Rescaled(old(sizeScale), diff.y) else old(sizeScale)
    {
      var val := thumbpadAxes;
      if val != axes {
        var diff := Axes(axes.x - val.x, axes.y - val.y);
        assert AxisEvents(val, axes) == [AxisChanged(diff)];
        axesDiff := Some(diff);
        DispatchAxisChanged(diff);
        thumbpadAxes := axes;
        if -0.5 < diff.y < 0.5 {
          sizeScale := Rescaled(sizeScale, diff.y);
        }
      }
    }

    /** `_findGamepad(id)` over the list `navigator.getGamepads()` returns:
        slots 0 .. 3 are examined in order and the id-th accepted one is
        the result. */
    method FindGamepad(gamepads: seq<Option<Gamepad>>, id: int) returns (g: Option<Gamepad>)
      ensures g == FoundGamepad(gamepads, id)
      ensures g.Some? ==> IsController(g) && g in gamepads[..if |gamepads| < 4 then |gamepads| else 4]
    {
      var i, j := 0, 0;
      while i < 4
        invariant 0 <= i <= 4
        invariant j == |Controllers(gamepads, i)|
        invariant id < 0 || j <= id
      {
        var gamepad := if i < |gamepads| then gamepads[i] else None;
        if gamepad.Some? && gamepad.value.id in ControllerIds {
          if j == id {
            ControllersGrow(gamepads, i + 1, 4);
            assert Controllers(gamepads, i + 1)[j] == gamepad.value;
            assert gamepads[..if |gamepads| < 4 then |gamepads| else 4][i] == gamepad;
            return gamepad;
          }
          j := j + 1;
        }
        i := i + 1;
      }
      return None;
    }

    /** The `triggerEvent` of every button, in the order of `buttons`:
        the thumbpad (axes, then its button), the trigger and the menu
        button, all read from gamepad gp. */
    method TriggerEvents(gp: Gamepad)
      requires Valid()
      modifies this`events, this`thumbpadPressed, this`thumbpadAxes, this`triggerPressed, this`triggerValue,
               this`menuPressed, this`axesDiff, this`sizeScale
      ensures Valid()
      ensures events == old(events) + AxisEvents(old(thumbpadAxes), gp.axes)
                        + ButtonEvents(Thumbpad, old(thumbpadPressed), gp.thumbpadButton.pressed, None)
                        + ButtonEvents(Trigger, old(triggerPressed), gp.triggerButton.value >= PressThreshold,
                                       Some(gp.triggerButton.value))
                        + ButtonEvents(Menu, old(menuPressed), gp.menuButton.pressed, None)
      ensures thumbpadAxes == gp.axes && thumbpadPressed == gp.thumbpadButton.pressed
      ensures triggerValue == gp.triggerButton.value && triggerPressed == (gp.triggerButton.value >= PressThreshold)
      ensures menuPressed == gp.menuButton.pressed
      ensures old(thumbpadAxes) == gp.axes ==> axesDiff == old(axesDiff) && sizeScale == old(sizeScale)
      ensures old(thumbpadAxes) != gp.axes ==>
                var diff := Axes(gp.axes.x - old(thumbpadAxes).x, gp.axes.y - old(thumbpadAxes).y);
                && axesDiff == Some(diff)
                && sizeScale == if -0.5 < diff.y < 0.5 then Rescaled(old(sizeScale), diff.y) else old(sizeScale)
    {
      ThumbpadAxes(gp.axes);
      TriggerBoolButton(Thumbpad, gp.thumbpadButton.pressed);
      TriggerValueButton(gp.triggerButton.value);
      TriggerBoolButton(Menu, gp.menuButton.pressed);
    }

    /** `update()` with the list `navigator.getGamepads()` returns: the
        gamepad is looked up; without one, or without a pose, the
        controller is hidden; with a null pose nothing else happens;
        otherwise it is shown and the thumbpad, the trigger and the menu
        button dispatch their events, in that order. */
    method Update(gamepads: seq<Option<Gamepad>>)
      requires Valid()
      modifies this`gamepad, this`visible, this`events, this`thumbpadPressed, this`thumbpadAxes,
               this`triggerPressed, this`triggerValue, this`menuPressed, this`axesDiff, this`sizeScale
      ensures Valid()
      ensures gamepad == FoundGamepad(gamepads, gamepadId)
      ensures gamepad.None? || gamepad.value.pose != PoseData ==>
                && events == old(events) && thumbpadAxes == old(thumbpadAxes) && triggerValue == old(triggerValue)
                && thumbpadPressed == old(thumbpadPressed) && triggerPressed == old(triggerPressed)
                && menuPressed == old(menuPressed) && sizeScale == old(sizeScale) && axesDiff == old(axesDiff)
      ensures gamepad.None? || gamepad.value.pose == PoseUndefined ==> !visible
      ensures gamepad.Some? && gamepad.value.pose == PoseNull ==> visible == old(visible)
      ensures gamepad.Some? && gamepad.value.pose == PoseData ==>
                var gp := gamepad.value;
                && visible
                && events == old(events) + AxisEvents(old(thumbpadAxes), gp.axes)
                               + ButtonEvents(Thumbpad, old(thumbpadPressed), gp.thumbpadButton.pressed, None)
                               + ButtonEvents(Trigger, old(triggerPressed), gp.triggerButton.value >= PressThreshold,
                                              Some(gp.triggerButton.value))
                               + ButtonEvents(Menu, old(menuPressed), gp.menuButton.pressed, None)
                && thumbpadAxes == gp.axes && thumbpadPressed == gp.thumbpadButton.pressed
                && triggerValue == gp.triggerButton.value && triggerPressed == (gp.triggerButton.value >= PressThreshold)
                && menuPressed == gp.menuButton.pressed
                && (old(thumbpadAxes) == gp.axes ==> axesDiff == old(axesDiff) && sizeScale == old(sizeScale))
                && (old(thumbpadAxes) != gp.axes ==>
                      var diff := Axes(gp.axes.x - old(thumbpadAxes).x, gp.axes.y - old(thumbpadAxes).y);
                      && axesDiff == Some(diff)
                      && sizeScale == if -0.5 < diff.y < 0.5 then Rescaled(old(sizeScale), diff.y) else old(sizeScale))
    {
      gamepad := FindGamepad(gamepads, gamepadId);
      if gamepad.None? || gamepad.value.pose == PoseUndefined {
        visible := false;
        return;
      }
      var gp := gamepad.value;
      if gp.pose == PoseNull {
        return;
      }
      visible := true;
      TriggerEvents(gp);
    }
  }
}
