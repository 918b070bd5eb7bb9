/**
 * The orbit controller: a camera-like object orbits a target. The gesture
 * state machine, the pointer bookkeeping and the accumulators live in the
 * class OrbitControls; each DOM handler is a method taking the parts of the
 * event it reads. The spherical arithmetic of a tick is Transform.Tick.
 */
module Orbit {
  import opened Wrappers
  import opened SphericalMath
  import opened Pointers
  import opened Transform

  /** `#STATE`; NONE (-1) is Idle. */
  datatype GestureState = Idle | Rotate | Dolly | Pan | TouchRotate | TouchDolly | TouchPan

  /** The notifications the controller dispatches. */
  datatype Notice = Start | End | Change

  /** A mouse event: the button and the client coordinates. */
  datatype MouseEvent = MouseEvent(button: int, clientX: real, clientY: real)

  /** A pointer event: its type ("touch", "mouse", "pen"), id and client coordinates. */
  datatype PointerEvent = PointerEvent(pointerType: string, pointerId: int, clientX: real, clientY: real)

  /** `keys`: the key codes of the four arrow keys. */
  datatype ArrowKeys = ArrowKeys(left: int, up: int, right: int, bottom: int)

  /** `mouseButtons`: which button orbits, zooms and pans. */
  datatype MouseButtons = MouseButtons(orbit: int, zoom: int, pan: int)

  /** How a handler ended: normally, or by the TypeError of reading a missing second touch. */
  datatype Outcome = Completed | TypeError

  /** THREE.MOUSE.LEFT, MIDDLE and RIGHT. */
  const MouseLeft: int := 0
  const MouseMiddle: int := 1
  const MouseRight: int := 2

  /** The change notification a tick dispatches, if it reports a change. */
  function ChangeNotice(changed: bool): (r: seq<Notice>)
    ensures r == [] || r == [Change]
    ensures changed <==> r == [Change]
  {
    if changed then [Change] else []
  }

  /** The gesture a mouse button starts, tested in the order orbit, zoom, pan. */
  function ButtonMode(button: int, b: MouseButtons): (r: Option<GestureState>)
    ensures r == Some(Rotate) <==> button == b.orbit
    ensures r == Some(Dolly) <==> button != b.orbit && button == b.zoom
    ensures r == Some(Pan) <==> button != b.orbit && button != b.zoom && button == b.pan
    ensures r.None? <==> button !in {b.orbit, b.zoom, b.pan}
  {
    if button == b.orbit then Some(Rotate)
    else if button == b.zoom then Some(Dolly)
    else if button == b.pan then Some(Pan)
    else None
  }

  /** The gesture a number of touches selects: one rotates, two dolly, three pan. */
  function TouchMode(count: nat): (r: Option<GestureState>)
    ensures r.Some? <==> 1 <= count <= 3
    ensures r == Some(TouchRotate) <==> count == 1
    ensures r == Some(TouchDolly) <==> count == 2
    ensures r == Some(TouchPan) <==> count == 3
  {
    if count == 1 then Some(TouchRotate)
    else if count == 2 then Some(TouchDolly)
    else if count == 3 then Some(TouchPan)
    else None
  }

  /** The pan (deltaX, deltaY) an arrow key asks for, tested in the order up, bottom, left, right. */
  function KeyPan(keyCode: int, keys: ArrowKeys, keyPanSpeed: real): (r: Option<PanStep>)
    ensures keyCode == keys.up ==> r == Some(PanStep(0.0, keyPanSpeed))
    ensures keyCode != keys.up && keyCode == keys.bottom ==> r == Some(PanStep(0.0, -keyPanSpeed))
    ensures keyCode != keys.up && keyCode != keys.bottom && keyCode == keys.left ==>
      r == Some(PanStep(keyPanSpeed, 0.0))
    ensures keyCode != keys.up && keyCode != keys.bottom && keyCode != keys.left && keyCode == keys.right ==>
      r == Some(PanStep(-keyPanSpeed, 0.0))
    ensures r.None? <==> keyCode !in {keys.up, keys.bottom, keys.left, keys.right}
  {
    if keyCode == keys.up then Some(PanStep(0.0, keyPanSpeed))
    else if keyCode == keys.bottom then Some(PanStep(0.0, -keyPanSpeed))
    else if keyCode == keys.left then Some(PanStep(keyPanSpeed, 0.0))
    else if keyCode == keys.right then Some(PanStep(-keyPanSpeed, 0.0))
    else None
  }

  /** A real number that can be divided by. */
  type PositiveReal = r: real | 0.0 < r witness 1.0

  /**
   * The public options of the controller. `zoomSpeed` is modelled as a
   * natural number so that its powers of 0.95 stay exact, and the touch
   * zoom factor as a positive number, since the dolly divides by it.
   */
  datatype Settings = Settings(
    enabled: bool, enableRotate: bool, enableZoom: bool, enablePan: bool, enableKeys: bool,
    enableDamping: bool, autoRotate: bool, dampingFactor: real,
    zoomSpeed: nat, mobileZoomFactor: PositiveReal, rotateSpeed: real, keyPanSpeed: real, autoRotateSpeed: real,
    minDistance: Bound, maxDistance: Bound, minZoom: Bound, maxZoom: Bound,
    minPolarAngle: Bound, maxPolarAngle: Bound, minAzimuthAngle: Bound, maxAzimuthAngle: Bound,
    keys: ArrowKeys, mouseButtons: MouseButtons)

  /** The options a new controller starts with. */
  const DefaultSettings: Settings := Settings(
    enabled := true, enableRotate := true, enableZoom := true, enablePan := true, enableKeys := true,
    enableDamping := false, autoRotate := false, dampingFactor := 0.25,
    zoomSpeed := 1, mobileZoomFactor := 1.0, rotateSpeed := 1.0, keyPanSpeed := 7.0, autoRotateSpeed := 2.0,
    minDistance := Some(0.0), maxDistance := None, minZoom := Some(0.0), maxZoom := None,
    minPolarAngle := Some(0.0), maxPolarAngle := Some(Pi), minAzimuthAngle := None, maxAzimuthAngle := None,
    keys := ArrowKeys(37, 38, 39, 40), mouseButtons := MouseButtons(MouseLeft, MouseMiddle, MouseRight))

  /** The options after a dolly that switches zoom off when `off` holds. */
  function ZoomOffIf(s: Settings, off: bool): Settings
  {
    if off then s.(enableZoom := false) else s
  }

  /** The options after a pan that switches pan off when `off` holds. */
  function PanOffIf(s: Settings, off: bool): Settings
  {
    if off then s.(enablePan := false) else s
  }

  class OrbitControls {
    /** The projection of the bound camera. */
    const camera: CameraKind
    /** `'ontouchstart' in window`: when true the pointer listeners are not installed. */
    const touchSupported: bool

    /** The options, which no handler changes except to switch zoom or pan off. */
    var settings: Settings

    /** The target, as the pans summed into it since construction. */
    var target: seq<PanStep>
    /** The camera's orthographic zoom. */
    var zoom: real
    /** What `reset` restores: target, pose of the camera position, zoom. */
    const target0: seq<PanStep>
    const position0: Spherical
    const zoom0: real

    var state: GestureState
    var spherical: Spherical
    var sphericalDelta: Delta
    var scale: real
    var panOffset: seq<PanStep>
    var zoomChanged: bool
    /** The view the change test compares with (`lastPosition`, `lastQuaternion`). */
    var lastView: Option<View>
    var rotateStart: Point
    var panStart: Point
    var dollyStart: Anchor
    var pointers: PointerTable
    var pointersLength: int
    var isZoomGesture: bool

    /** Every notification dispatched so far, in order. */
    ghost var notices: seq<Notice>

    /**
     * The pointer table is a dictionary, the counter is never below its
     * size, and a zoom gesture means the counter is two.
     */
    ghost predicate Valid()
      reads this`pointers, this`pointersLength, this`isZoomGesture
    {
      && DistinctIds(pointers)
      && |pointers| <= pointersLength
      && (isZoomGesture ==> pointersLength == 2)
    }

    /** The state a tick reads and writes. */
    function CurrentMotion(): Motion
      reads this`spherical, this`sphericalDelta, this`scale, this`panOffset,
            this`target, this`zoom, this`zoomChanged, this`lastView
    {
      Motion(spherical, sphericalDelta, scale, panOffset, target, zoom, zoomChanged, lastView)
    }

    function Limits(): Limits
      reads this`settings
    {
      SphericalMath.Limits(settings.minDistance, settings.maxDistance, settings.minPolarAngle, settings.maxPolarAngle,
                           settings.minAzimuthAngle, settings.maxAzimuthAngle)
    }

    function Options(): TickOptions
      reads this`settings
    {
      TickOptions(settings.autoRotate, settings.autoRotateSpeed, settings.enableDamping, settings.dampingFactor, Limits())
    }

    /**
     * The state after one tick from motion m in the gesture state now
     * current, with the tick's change notification dispatched.
     */
    twostate predicate TickedFrom(m: Motion)
      reads this
    {
      var t := Tick(m, state == Idle, Options());
      CurrentMotion() == t.motion && notices == old(notices) + ChangeNotice(t.changed)
    }

    /** The flag that gates a gesture. */
    function Allows(g: GestureState): bool
      reads this`settings
    {
      match g
      case Idle => true
      case Rotate => settings.enableRotate
      case TouchRotate => settings.enableRotate
      case Dolly => settings.enableZoom
      case TouchDolly => settings.enableZoom
      case Pan => settings.enablePan
      case TouchPan => settings.enablePan
    }

    /** The controller on a camera of the given kind, whose position is the given pose around the origin. */
    constructor (camera: CameraKind, touchSupported: bool, position: Spherical, zoom: real)
      ensures Valid()
      ensures this.camera == camera && this.touchSupported == touchSupported
      ensures settings == DefaultSettings
      ensures target0 == [] && position0 == position && zoom0 == zoom
      ensures state == Idle && pointers == [] && pointersLength == 0 && !isZoomGesture
      ensures CurrentMotion() ==
        Tick(Motion(position, Delta(0.0, 0.0), 1.0, [], [], zoom, false, None), true, Options()).motion
      ensures notices == [Change]
    {
      this.camera := camera;
      this.touchSupported := touchSupported;
      settings := DefaultSettings;
      target, target0 := [], [];
      position0, spherical := position, position;
      this.zoom, zoom0 := zoom, zoom;
      state := Idle;
      sphericalDelta, scale, panOffset := Delta(0.0, 0.0), 1.0, [];
      zoomChanged, lastView := false, None;
      rotateStart, panStart, dollyStart := Point(0.0, 0.0), Point(0.0, 0.0), Coord(0.0);
      pointers, pointersLength, isZoomGesture := [], 0, false;
      notices := [];
      new;
      ghost var m0 := CurrentMotion();
      assert m0 == Motion(position, Delta(0.0, 0.0), 1.0, [], [], zoom, false, None);
      var changed := Update();
      assert changed by {
        assert changed == Tick(m0, true, Options()).changed;
      }
    }

    function GetSphericalRadius(): real reads this { spherical.radius }
    function GetPolarAngle(): real reads this { spherical.phi }
    function GetAzimuthalAngle(): real reads this { spherical.theta }

    /** rotateLeft(angle) */
    method RotateLeft(angle: real)
      modifies this`sphericalDelta
      ensures CurrentMotion() == Transform.RotateLeft(old(CurrentMotion()), angle)
    {
      sphericalDelta := sphericalDelta.(theta := sphericalDelta.theta - angle);
    }

    /** rotateUp(angle) */
    method RotateUp(angle: real)
      modifies this`sphericalDelta
      ensures CurrentMotion() == Transform.RotateUp(old(CurrentMotion()), angle)
    {
      sphericalDelta := sphericalDelta.(phi := sphericalDelta.phi - angle);
    }

    /** `#dollyIn`: on an unknown camera kind, zoom is switched off instead. */
    method DollyIn(dollyScale: real)
      requires dollyScale > 0.0
      modifies this`scale, this`zoom, this`zoomChanged, this`settings
      ensures CurrentMotion() == Transform.DollyIn(old(CurrentMotion()), camera, dollyScale, settings.minZoom, settings.maxZoom)
      ensures settings == ZoomOffIf(old(settings), camera == OtherCamera)
    {
      match camera
      case Perspective =>
        scale := scale / dollyScale;
      case Orthographic =>
        zoom := Clamp(settings.minZoom, settings.maxZoom, zoom * dollyScale);
        zoomChanged := true;
      case OtherCamera =>
        settings := settings.(enableZoom := false);
    }

    /** `#dollyOut`: on an unknown camera kind, zoom is switched off instead. */
    method DollyOut(dollyScale: real)
      requires dollyScale > 0.0
      modifies this`scale, this`zoom, this`zoomChanged, this`settings
      ensures CurrentMotion() == Transform.DollyOut(old(CurrentMotion()), camera, dollyScale, settings.minZoom, settings.maxZoom)
      ensures settings == ZoomOffIf(old(settings), camera == OtherCamera)
    {
      match camera
      case Perspective =>
        scale := scale * dollyScale;
      case Orthographic =>
        zoom := Clamp(settings.minZoom, settings.maxZoom, zoom / dollyScale);
        zoomChanged := true;
      case OtherCamera =>
        settings := settings.(enableZoom := false);
    }

    /** A dolly step in the direction the anchor's rise selects. */
    method DollyStep(rise: int, dollyScale: real, inOnRise: bool)
      requires dollyScale > 0.0
      modifies this`scale, this`zoom, this`zoomChanged, this`settings
      ensures CurrentMotion() == Transform.Dolly(old(CurrentMotion()), camera, rise, dollyScale, inOnRise, settings.minZoom, settings.maxZoom)
      ensures settings == ZoomOffIf(old(settings), rise != 0 && camera == OtherCamera)
    {
      if rise == 0 {
      } else if (rise > 0) == inOnRise {
        DollyIn(dollyScale);
      } else {
        DollyOut(dollyScale);
      }
    }

    /**
     * `pan(deltaX, deltaY)`: on an unknown camera kind, pan is switched off
     * instead; a pan of no pixels leaves the offset as it is.
     */
    method Pan(deltaX: real, deltaY: real)
      modifies this`panOffset, this`settings
      ensures CurrentMotion() == PanBy(old(CurrentMotion()), camera, deltaX, deltaY)
      ensures settings == PanOffIf(old(settings), camera == OtherCamera)
    {
      if camera == OtherCamera {
        settings := settings.(enablePan := false);
      } else if deltaX != 0.0 || deltaY != 0.0 {
        panOffset := panOffset + [PanStep(deltaX, deltaY)];
      }
    }

    /**
     * The first half of `update`: auto-rotation, the delta, the clamps and
     * the scale on the pose, the pan offset into the target, and the decay.
     */
    method Advance()
      modifies this`spherical, this`sphericalDelta, this`scale, this`panOffset, this`target
      ensures var o := old(Options()); var d := TickDelta(old(CurrentMotion()), old(state) == Idle, o);
        && spherical == Apply(old(spherical), d, old(scale), o.limits)
        && sphericalDelta == Decay(d, o.enableDamping, o.dampingFactor)
      ensures target == old(target) + old(panOffset)
      ensures scale == 1.0 && panOffset == []
    {
      if settings.autoRotate && state == Idle {
        RotateLeft(AutoRotationAngle(settings.autoRotateSpeed));
      }
      // add the deltas, clamp theta and phi, make phi safe, scale and clamp the radius
      spherical := Apply(spherical, sphericalDelta, scale, Limits());
      target := target + panOffset;
      sphericalDelta := Decay(sphericalDelta, settings.enableDamping, settings.dampingFactor);
      scale := 1.0;
      panOffset := [];
    }

    /**
     * `update`: one tick on the spherical pose. Reports whether the view
     * changed, and then dispatches a change notification.
     */
    method Update() returns (changed: bool)
      modifies this`spherical, this`sphericalDelta, this`scale, this`panOffset,
               this`target, this`zoomChanged, this`lastView, this`notices
      ensures TickedFrom(old(CurrentMotion()))
      ensures changed == Tick(old(CurrentMotion()), state == Idle, Options()).changed
    {
      ghost var m0, idle, o := CurrentMotion(), state == Idle, Options();
      Advance();
      changed := DetectChange();
      TickOf(m0, idle, o, spherical, sphericalDelta, target, changed);
      assert Options() == o && (state == Idle) == idle;
      ghost var t := Tick(m0, idle, o);
      assert CurrentMotion() == t.motion;
      assert notices == old(notices) + ChangeNotice(t.changed);
    }

    /**
     * The second half of `update`: a change is the zoom having changed or
     * the view differing from the one last reported; it is dispatched and
     * the view remembered.
     */
    method DetectChange() returns (changed: bool)
      modifies this`zoomChanged, this`lastView, this`notices
      ensures changed <==> old(zoomChanged) || old(lastView) != Some(View(target, spherical))
      ensures lastView == Some(View(target, spherical)) && !zoomChanged
      ensures notices == old(notices) + ChangeNotice(changed)
    {
      var view := View(target, spherical);
      changed := zoomChanged || lastView != Some(view);
      if changed {
        notices := notices + [Change];
        lastView := Some(view);
        zoomChanged := false;
      }
    }

    /** `setSphericalRadius(value)`: a one-shot scale of value / radius, then a tick. */
    method SetSphericalRadius(value: real)
      requires Valid()
      requires spherical.radius != 0.0
      modifies this`spherical, this`sphericalDelta, this`scale, this`panOffset,
               this`target, this`zoomChanged, this`lastView, this`notices
      ensures Valid()
      ensures TickedFrom(old(CurrentMotion()).(scale := value / old(spherical.radius)))
      ensures Within(settings.minDistance, settings.maxDistance, value) ==> spherical.radius == value
    {
      ghost var m0 := CurrentMotion();
      scale := value / spherical.radius;
      var _ := Update();
      if Within(settings.minDistance, settings.maxDistance, value) {
        TickRadius(m0, state == Idle, Options(), value);
      }
    }

    /**
     * `reset`: target, camera position and zoom return to the values of
     * construction, a change is dispatched, a tick runs (pending deltas
     * included), and the gesture ends.
     */
    method Reset()
      requires Valid()
      modifies this`spherical, this`sphericalDelta, this`scale, this`panOffset,
               this`target, this`zoomChanged, this`lastView, this`notices, this`zoom, this`state
      ensures Valid()
      ensures var t := Tick(old(CurrentMotion()).(pose := position0, target := target0, zoom := zoom0),
                            old(state) == Idle, Options());
        CurrentMotion() == t.motion && notices == old(notices) + [Change] + ChangeNotice(t.changed)
      ensures state == Idle
    {
      target := target0;
      spherical := position0;
      zoom := zoom0;
      notices := notices + [Change];
      var _ := Update();
      state := Idle;
    }

    /** `onMouseDown`: the pressed button starts its gesture if that gesture is enabled. */
    method OnMouseDown(ev: MouseEvent)
      requires Valid()
      modifies this`state, this`rotateStart, this`dollyStart, this`panStart, this`notices
      ensures Valid()
      ensures var mode := ButtonMode(ev.button, settings.mouseButtons);
        if !settings.enabled || (mode.Some? && !Allows(mode.value)) then unchanged(this)
        else
          && state == (if mode.Some? then mode.value else old(state))
          && notices == old(notices) + (if state != Idle then [Start] else [])
          && rotateStart == (if mode == Some(Rotate) then Point(ev.clientX, ev.clientY) else old(rotateStart))
          && dollyStart == (if mode == Some(Dolly) then Coord(ev.clientY) else old(dollyStart))
          && panStart == (if mode == Some(GestureState.Pan) then Point(ev.clientX, ev.clientY) else old(panStart))
    {
      if !settings.enabled { return; }
      if ev.button == settings.mouseButtons.orbit {
        if !settings.enableRotate { return; }
        rotateStart := Point(ev.clientX, ev.clientY);
        state := Rotate;
      } else if ev.button == settings.mouseButtons.zoom {
        if !settings.enableZoom { return; }
        dollyStart := Coord(ev.clientY);
        state := Dolly;
      } else if ev.button == settings.mouseButtons.pan {
        if !settings.enablePan { return; }
        panStart := Point(ev.clientX, ev.clientY);
        state := GestureState.Pan;
      }
      if state != Idle {
        notices := notices + [Start];
      }
    }

    /**
     * `handleMouseMoveRotate` / `handleTouchMoveRotate`: the drag from the
     * rotate anchor turns the view, the anchor moves, and a tick runs. The
     * vertical drag is measured against `height`.
     */
    method HandleMoveRotate(x: real, y: real, height: real)
      requires height > 0.0
      modifies this`spherical, this`sphericalDelta, this`scale, this`panOffset,
               this`target, this`zoomChanged, this`lastView, this`notices, this`rotateStart
      ensures TickedFrom(Drag(old(CurrentMotion()), x - old(rotateStart).x, y - old(rotateStart).y, height, settings.rotateSpeed))
      ensures rotateStart == Point(x, y)
    {
      var dx, dy := x - rotateStart.x, y - rotateStart.y;
      RotateLeft(DragAngle(dx, ReferenceWidth, settings.rotateSpeed));
      RotateUp(DragAngle(dy, height, settings.rotateSpeed));
      rotateStart := Point(x, y);
      var _ := Update();
    }

    /** `handleMouseMovePan` / `handleTouchMovePan`: the drag from the pan anchor pans, then a tick runs. */
    method HandleMovePan(x: real, y: real)
      modifies this`spherical, this`sphericalDelta, this`scale, this`panOffset,
               this`target, this`zoomChanged, this`lastView, this`notices, this`panStart, this`settings
      ensures TickedFrom(PanBy(old(CurrentMotion()), camera, x - old(panStart).x, y - old(panStart).y))
      ensures panStart == Point(x, y)
      ensures settings == PanOffIf(old(settings), camera == OtherCamera)
    {
      Pan(x - panStart.x, y - panStart.y);
      panStart := Point(x, y);
      var _ := Update();
    }

    /**
     * `handleMouseMoveDolly`: moving the mouse down dollies in, up dollies
     * out, by the zoom scale; the anchor moves and a tick runs.
     */
    method HandleMouseMoveDolly(y: real)
      modifies this`spherical, this`sphericalDelta, this`scale, this`panOffset,
               this`target, this`zoomChanged, this`lastView, this`notices,
               this`dollyStart, this`zoom, this`settings
      ensures var rise := Rise(old(dollyStart), Coord(y));
        && TickedFrom(Transform.Dolly(old(CurrentMotion()), camera, rise, ZoomScale(settings.zoomSpeed), true, settings.minZoom, settings.maxZoom))
        && settings == ZoomOffIf(old(settings), rise != 0 && camera == OtherCamera)
      ensures dollyStart == Coord(y)
    {
      HandleDollyMove(Coord(y), ZoomScale(settings.zoomSpeed), true);
    }

    /**
     * `onMouseMove`: ignored during a synthesized pinch or when disabled;
     * otherwise the active mouse gesture, if its flag is on, takes the move.
     */
    method OnMouseMove(ev: MouseEvent)
      requires Valid()
      modifies this`spherical, this`sphericalDelta, this`scale, this`panOffset,
               this`target, this`zoomChanged, this`lastView, this`notices,
               this`rotateStart, this`dollyStart, this`panStart, this`zoom, this`settings
      ensures Valid()
      ensures old(isZoomGesture || !settings.enabled || state !in {Rotate, Dolly, GestureState.Pan} || !Allows(state)) ==> unchanged(this)
      ensures old(!isZoomGesture && settings.enabled && state == Rotate && settings.enableRotate) ==>
        && TickedFrom(Drag(old(CurrentMotion()), ev.clientX - old(rotateStart).x, ev.clientY - old(rotateStart).y, ReferenceWidth, settings.rotateSpeed))
        && rotateStart == Point(ev.clientX, ev.clientY)
        && unchanged(this`dollyStart, this`panStart, this`settings)
      ensures old(!isZoomGesture && settings.enabled && state == Dolly && settings.enableZoom) ==>
        var rise := Rise(old(dollyStart), Coord(ev.clientY));
        && TickedFrom(Transform.Dolly(old(CurrentMotion()), camera, rise, ZoomScale(settings.zoomSpeed), true, settings.minZoom, settings.maxZoom))
        && dollyStart == Coord(ev.clientY)
        && settings == ZoomOffIf(old(settings), rise != 0 && camera == OtherCamera)
        && unchanged(this`rotateStart, this`panStart)
      ensures old(!isZoomGesture && settings.enabled && state == GestureState.Pan && settings.enablePan) ==>
        && TickedFrom(PanBy(old(CurrentMotion()), camera, ev.clientX - old(panStart).x, ev.clientY - old(panStart).y))
        && panStart == Point(ev.clientX, ev.clientY)
        && settings == PanOffIf(old(settings), camera == OtherCamera)
        && unchanged(this`rotateStart, this`dollyStart)
    {
      if isZoomGesture || !settings.enabled || state !in {Rotate, Dolly, GestureState.Pan} || !Allows(state) {
        return;
      }
      ContinueMouseGesture(ev);
    }

    /** The part of `onMouseMove` past its guard: the active mouse gesture takes the move. */
    method ContinueMouseGesture(ev: MouseEvent)
      requires state in {Rotate, Dolly, GestureState.Pan}
      modifies this`spherical, this`sphericalDelta, this`scale, this`panOffset,
               this`target, this`zoomChanged, this`lastView, this`notices,
               this`rotateStart, this`dollyStart, this`panStart, this`zoom, this`settings
      ensures state == Rotate ==>
        && TickedFrom(Drag(old(CurrentMotion()), ev.clientX - old(rotateStart).x, ev.clientY - old(rotateStart).y, ReferenceWidth, settings.rotateSpeed))
        && rotateStart == Point(ev.clientX, ev.clientY)
        && unchanged(this`dollyStart, this`panStart, this`settings)
      ensures state == Dolly ==>
        var rise := Rise(old(dollyStart), Coord(ev.clientY));
        && TickedFrom(Transform.Dolly(old(CurrentMotion()), camera, rise, ZoomScale(settings.zoomSpeed), true, settings.minZoom, settings.maxZoom))
        && dollyStart == Coord(ev.clientY)
        && settings == ZoomOffIf(old(settings), rise != 0 && camera == OtherCamera)
        && unchanged(this`rotateStart, this`panStart)
      ensures state == GestureState.Pan ==>
        && TickedFrom(PanBy(old(CurrentMotion()), camera, ev.clientX - old(panStart).x, ev.clientY - old(panStart).y))
        && panStart == Point(ev.clientX, ev.clientY)
        && settings == PanOffIf(old(settings), camera == OtherCamera)
        && unchanged(this`rotateStart, this`dollyStart)
    {
      if state == Rotate {
        HandleMoveRotate(ev.clientX, ev.clientY, ReferenceWidth);
      } else if state == Dolly {
        HandleMouseMoveDolly(ev.clientY);
      } else {
        HandleMovePan(ev.clientX, ev.clientY);
      }
    }

    /** `onMouseUp`: when enabled, the gesture ends with one end notification. */
    method OnMouseUp()
      requires Valid()
      modifies this`state, this`notices
      ensures Valid()
      ensures !settings.enabled ==> unchanged(this)
      ensures settings.enabled ==> state == Idle && notices == old(notices) + [End]
    {
      if !settings.enabled { return; }
      notices := notices + [End];
      state := Idle;
    }

    /** `handleMouseWheel`: a wheel turned up dollies out, down dollies in; then a tick. */
    method HandleMouseWheel(deltaY: real)
      modifies this`spherical, this`sphericalDelta, this`scale, this`panOffset,
               this`target, this`zoomChanged, this`lastView, this`notices, this`zoom, this`settings
      ensures TickedFrom(Transform.Dolly(old(CurrentMotion()), camera, Sign(deltaY), ZoomScale(settings.zoomSpeed), true, settings.minZoom, settings.maxZoom))
        && settings == ZoomOffIf(old(settings), deltaY != 0.0 && camera == OtherCamera)
    {
      ghost var m := Transform.Dolly(CurrentMotion(), camera, Sign(deltaY), ZoomScale(settings.zoomSpeed), true, settings.minZoom, settings.maxZoom);
      DollyStep(Sign(deltaY), ZoomScale(settings.zoomSpeed), true);
      assert CurrentMotion() == m;
      var _ := Update();
      assert TickedFrom(m);
    }

    /**
     * `onMouseWheel`: ignored when disabled, when zoom is off, or while a
     * gesture other than rotate is active; otherwise a dolly step and a tick,
     * then a start and an end notification.
     */
    method OnMouseWheel(deltaY: real)
      requires Valid()
      modifies this`spherical, this`sphericalDelta, this`scale, this`panOffset,
               this`target, this`zoomChanged, this`lastView, this`notices, this`zoom, this`settings
      ensures Valid()
      ensures old(!settings.enabled || !settings.enableZoom || (state != Idle && state != Rotate)) ==> unchanged(this)
      ensures old(settings.enabled && settings.enableZoom && (state == Idle || state == Rotate)) ==>
        var t := Tick(Transform.Dolly(old(CurrentMotion()), camera, Sign(deltaY), ZoomScale(settings.zoomSpeed), true, settings.minZoom, settings.maxZoom),
                state == Idle, Options());
        && CurrentMotion() == t.motion
        && notices == old(notices) + ChangeNotice(t.changed) + [Start, End]
        && settings == ZoomOffIf(old(settings), deltaY != 0.0 && camera == OtherCamera)
    {
      if !settings.enabled || !settings.enableZoom || (state != Idle && state != Rotate) { return; }
      HandleMouseWheel(deltaY);
      notices := notices + [Start, End];
    }

    /** `handleKeyDown`: an arrow key pans by keyPanSpeed and a tick runs; other keys do nothing. */
    method HandleKeyDown(keyCode: int)
      modifies this`spherical, this`sphericalDelta, this`scale, this`panOffset,
               this`target, this`zoomChanged, this`lastView, this`notices, this`settings
      ensures KeyPan(keyCode, settings.keys, settings.keyPanSpeed).None? ==> unchanged(this)
      ensures KeyPan(keyCode, settings.keys, settings.keyPanSpeed).Some? ==>
        var p := KeyPan(keyCode, settings.keys, settings.keyPanSpeed).value;
        && TickedFrom(PanBy(old(CurrentMotion()), camera, p.deltaX, p.deltaY))
        && settings == PanOffIf(old(settings), camera == OtherCamera)
    {
      var step := KeyPan(keyCode, settings.keys, settings.keyPanSpeed);
      if step.Some? {
        Pan(step.value.deltaX, step.value.deltaY);
        var _ := Update();
      }
    }

    /** `onKeyDown`: keys act only when the controller, the keys and pan are all enabled. */
    method OnKeyDown(keyCode: int)
      requires Valid()
      modifies this`spherical, this`sphericalDelta, this`scale, this`panOffset,
               this`target, this`zoomChanged, this`lastView, this`notices, this`settings
      ensures Valid()
      ensures old(!settings.enabled || !settings.enableKeys || !settings.enablePan) || KeyPan(keyCode, settings.keys, settings.keyPanSpeed).None? ==>
        unchanged(this)
      ensures old(settings.enabled && settings.enableKeys && settings.enablePan) && KeyPan(keyCode, settings.keys, settings.keyPanSpeed).Some? ==>
        var p := KeyPan(keyCode, settings.keys, settings.keyPanSpeed).value;
        && TickedFrom(PanBy(old(CurrentMotion()), camera, p.deltaX, p.deltaY))
        && settings == PanOffIf(old(settings), camera == OtherCamera)
    {
      if !settings.enabled || !settings.enableKeys || !settings.enablePan { return; }
      HandleKeyDown(keyCode);
    }

    /** `handleTouchStartDolly`: the pinch anchor becomes the distance of the first two touches. */
    method HandleTouchStartDolly(touches: seq<Touch>) returns (outcome: Outcome)
      modifies this`dollyStart
      ensures |touches| < 2 ==> outcome == TypeError && dollyStart == old(dollyStart)
      ensures |touches| >= 2 ==> outcome == Completed && dollyStart == PinchOf(touches[0], touches[1])
    {
      if |touches| < 2 {
        return TypeError;
      }
      dollyStart := PinchOf(touches[0], touches[1]);
      return Completed;
    }

    /**
     * `onTouchStart`: one, two or three touches start rotate, dolly or pan
     * if that gesture is enabled; any other count ends the gesture.
     */
    method OnTouchStart(touches: seq<Touch>)
      requires Valid()
      modifies this`state, this`rotateStart, this`dollyStart, this`panStart, this`notices
      ensures Valid()
      ensures var mode := TouchMode(|touches|);
        if !settings.enabled || (mode.Some? && !Allows(mode.value)) then unchanged(this)
        else
          && state == (if mode.Some? then mode.value else Idle)
          && notices == old(notices) + (if mode.Some? then [Start] else [])
          && rotateStart == (if |touches| == 1 then Point(touches[0].pageX, touches[0].pageY) else old(rotateStart))
          && dollyStart == (if |touches| == 2 then PinchOf(touches[0], touches[1]) else old(dollyStart))
          && panStart == (if |touches| == 3 then Point(touches[0].pageX, touches[0].pageY) else old(panStart))
    {
      if !settings.enabled { return; }
      if |touches| == 1 {
        if !settings.enableRotate { return; }
        rotateStart := Point(touches[0].pageX, touches[0].pageY);
        state := TouchRotate;
      } else if |touches| == 2 {
        if !settings.enableZoom { return; }
        var _ := HandleTouchStartDolly(touches);
        state := TouchDolly;
      } else if |touches| == 3 {
        if !settings.enablePan { return; }
        panStart := Point(touches[0].pageX, touches[0].pageY);
        state := TouchPan;
      } else {
        state := Idle;
      }
      if state != Idle {
        notices := notices + [Start];
      }
    }

    /**
     * One dolly move of a pointer pair or a mouse: the anchor moves to `to`
     * and the dolly follows the sign of the rise, then a tick runs.
     */
    method HandleDollyMove(to: Anchor, dollyScale: real, inOnRise: bool)
      requires dollyScale > 0.0
      modifies this`spherical, this`sphericalDelta, this`scale, this`panOffset,
               this`target, this`zoomChanged, this`lastView, this`notices,
               this`dollyStart, this`zoom, this`settings
      ensures var rise := Rise(old(dollyStart), to);
        && TickedFrom(Transform.Dolly(old(CurrentMotion()), camera, rise, dollyScale, inOnRise, settings.minZoom, settings.maxZoom))
        && settings == ZoomOffIf(old(settings), rise != 0 && camera == OtherCamera)
      ensures dollyStart == to
    {
      ghost var m := Transform.Dolly(CurrentMotion(), camera, Rise(dollyStart, to), dollyScale, inOnRise, settings.minZoom, settings.maxZoom);
      DollyStep(Rise(dollyStart, to), dollyScale, inOnRise);
      assert CurrentMotion() == m;
      dollyStart := to;
      var _ := Update();
      assert TickedFrom(m);
    }

    /**
     * `handleTouchMoveDolly`: pinching out (a growing distance) dollies out,
     * pinching in dollies in, by the zoom scale times mobileZoomFactor; with
     * fewer than two touches the second touch is missing and nothing happens.
     */
    method HandleTouchMoveDolly(touches: seq<Touch>) returns (outcome: Outcome)
      modifies this`spherical, this`sphericalDelta, this`scale, this`panOffset,
               this`target, this`zoomChanged, this`lastView, this`notices,
               this`dollyStart, this`zoom, this`settings
      ensures |touches| < 2 ==> outcome == TypeError && unchanged(this)
      ensures |touches| >= 2 ==>
        var rise := Rise(old(dollyStart), PinchOf(touches[0], touches[1]));
        && outcome == Completed
        && settings == ZoomOffIf(old(settings), rise != 0 && camera == OtherCamera)
        && TickedFrom(Transform.Dolly(old(CurrentMotion()), camera, rise, PinchZoomScale(settings.zoomSpeed, settings.mobileZoomFactor), false,
                                      settings.minZoom, settings.maxZoom))
        && dollyStart == PinchOf(touches[0], touches[1])
    {
      if |touches| < 2 {
        return TypeError;
      }
      HandleDollyMove(PinchOf(touches[0], touches[1]), PinchZoomScale(settings.zoomSpeed, settings.mobileZoomFactor), false);
      return Completed;
    }

    /**
     * `onTouchMove`: a move with one, two or three touches continues the
     * matching touch gesture if it is enabled and active; a move with any
     * other count ends the gesture.
     */
    method OnTouchMove(touches: seq<Touch>)
      requires Valid()
      modifies this`spherical, this`sphericalDelta, this`scale, this`panOffset,
               this`target, this`zoomChanged, this`lastView, this`notices, this`state,
               this`rotateStart, this`dollyStart, this`panStart, this`zoom, this`settings
      ensures Valid()
      ensures var mode := TouchMode(|touches|);
        old(!settings.enabled || (mode.Some? && !(Allows(mode.value) && state == mode.value))) ==> unchanged(this)
      ensures old(settings.enabled) && TouchMode(|touches|).None? ==>
        && state == Idle && CurrentMotion() == old(CurrentMotion())
        && unchanged(this`notices, this`rotateStart, this`dollyStart, this`panStart, this`settings)
      ensures old(settings.enabled && settings.enableRotate && state == TouchRotate) && |touches| == 1 ==>
        && TickedFrom(Drag(old(CurrentMotion()), touches[0].pageX - old(rotateStart).x, touches[0].pageY - old(rotateStart).y,
                           ReferenceHeight, settings.rotateSpeed))
        && rotateStart == Point(touches[0].pageX, touches[0].pageY)
        && unchanged(this`state, this`dollyStart, this`panStart, this`settings)
      ensures old(settings.enabled && settings.enableZoom && state == TouchDolly) && |touches| == 2 ==>
        var pinch := PinchOf(touches[0], touches[1]);
        var rise := Rise(old(dollyStart), pinch);
        && settings == ZoomOffIf(old(settings), rise != 0 && camera == OtherCamera)
        && TickedFrom(Transform.Dolly(old(CurrentMotion()), camera, rise, PinchZoomScale(settings.zoomSpeed, settings.mobileZoomFactor), false,
                                      settings.minZoom, settings.maxZoom))
        && dollyStart == pinch
        && unchanged(this`state, this`rotateStart, this`panStart)
      ensures old(settings.enabled && settings.enablePan && state == TouchPan) && |touches| == 3 ==>
        && TickedFrom(PanBy(old(CurrentMotion()), camera, touches[0].pageX - old(panStart).x, touches[0].pageY - old(panStart).y))
        && panStart == Point(touches[0].pageX, touches[0].pageY)
        && settings == PanOffIf(old(settings), camera == OtherCamera)
        && unchanged(this`state, this`rotateStart, this`dollyStart)
    {
      var mode := TouchMode(|touches|);
      if !settings.enabled || (mode.Some? && !(Allows(mode.value) && state == mode.value)) {
        return;
      }
      ContinueTouchGesture(touches);
    }

    /**
     * The part of `onTouchMove` past its guard: one, two or three touches
     * move the matching gesture; any other count ends it.
     */
    method ContinueTouchGesture(touches: seq<Touch>)
      modifies this`spherical, this`sphericalDelta, this`scale, this`panOffset,
               this`target, this`zoomChanged, this`lastView, this`notices, this`state,
               this`rotateStart, this`dollyStart, this`panStart, this`zoom, this`settings
      ensures TouchMode(|touches|).None? ==>
        && state == Idle && CurrentMotion() == old(CurrentMotion())
        && unchanged(this`notices, this`rotateStart, this`dollyStart, this`panStart, this`settings)
      ensures |touches| == 1 ==>
        && TickedFrom(Drag(old(CurrentMotion()), touches[0].pageX - old(rotateStart).x, touches[0].pageY - old(rotateStart).y,
                           ReferenceHeight, settings.rotateSpeed))
        && rotateStart == Point(touches[0].pageX, touches[0].pageY)
        && unchanged(this`state, this`dollyStart, this`panStart, this`settings)
      ensures |touches| == 2 ==>
        var pinch := PinchOf(touches[0], touches[1]);
        var rise := Rise(old(dollyStart), pinch);
        && settings == ZoomOffIf(old(settings), rise != 0 && camera == OtherCamera)
        && TickedFrom(Transform.Dolly(old(CurrentMotion()), camera, rise, PinchZoomScale(settings.zoomSpeed, settings.mobileZoomFactor), false,
                                      settings.minZoom, settings.maxZoom))
        && dollyStart == pinch
        && unchanged(this`state, this`rotateStart, this`panStart)
      ensures |touches| == 3 ==>
        && TickedFrom(PanBy(old(CurrentMotion()), camera, touches[0].pageX - old(panStart).x, touches[0].pageY - old(panStart).y))
        && panStart == Point(touches[0].pageX, touches[0].pageY)
        && settings == PanOffIf(old(settings), camera == OtherCamera)
        && unchanged(this`state, this`rotateStart, this`dollyStart)
    {
      if |touches| == 1 {
        HandleMoveRotate(touches[0].pageX, touches[0].pageY, ReferenceHeight);
      } else if |touches| == 2 {
        var _ := HandleTouchMoveDolly(touches);
      } else if |touches| == 3 {
        HandleMovePan(touches[0].pageX, touches[0].pageY);
      } else {
        state := Idle;
      }
    }

    /** `onTouchEnd`: when enabled, the gesture ends with one end notification. */
    method OnTouchEnd()
      requires Valid()
      modifies this`state, this`notices
      ensures Valid()
      ensures !settings.enabled ==> unchanged(this)
      ensures settings.enabled ==> state == Idle && notices == old(notices) + [End]
    {
      if !settings.enabled { return; }
      notices := notices + [End];
      state := Idle;
    }

    /** `setPointer`: the event's position is recorded under its id. */
    method SetPointer(ev: PointerEvent)
      modifies this`pointers
      ensures pointers == Pointers.SetPointer(old(pointers), ev.pointerId, Point(ev.clientX, ev.clientY))
    {
      pointers := Pointers.SetPointer(pointers, ev.pointerId, Point(ev.clientX, ev.clientY));
    }

    /**
     * `releasePointer` (pointer up, out, leave and cancel): a known pointer
     * leaves the table and the counter; unless two remain, the pinch ends.
     */
    method ReleasePointer(ev: PointerEvent)
      requires Valid()
      modifies this`pointers, this`pointersLength, this`isZoomGesture
      ensures Valid()
      ensures !old(Has(pointers, ev.pointerId)) ==> unchanged(this)
      ensures old(Has(pointers, ev.pointerId)) ==>
        && pointers == RemovePointer(old(pointers), ev.pointerId)
        && |pointers| == old(|pointers|) - 1
        && pointersLength == old(pointersLength) - 1
        && isZoomGesture == (old(isZoomGesture) && pointersLength == 2)
    {
      if Find(pointers, ev.pointerId).Some? {
        pointers := RemovePointer(pointers, ev.pointerId);
        pointersLength := pointersLength - 1;
        if pointersLength != 2 {
          isZoomGesture := false;
        }
      }
    }

    /** `handleTouchStartDolly` on a touch adapter over the pointer table. */
    method PinchStart() returns (outcome: Outcome)
      modifies this`dollyStart
      ensures TablePinch(pointers).None? ==> outcome == TypeError && dollyStart == old(dollyStart)
      ensures TablePinch(pointers).Some? ==> outcome == Completed && dollyStart == TablePinch(pointers).value
    {
      var adapter := new PointersToTouchAdapter(pointers);
      outcome := HandleTouchStartDolly(adapter.touches);
    }

    /** `handleTouchMoveDolly` on a touch adapter over the pointer table. */
    method PinchMove() returns (outcome: Outcome)
      modifies this`spherical, this`sphericalDelta, this`scale, this`panOffset,
               this`target, this`zoomChanged, this`lastView, this`notices,
               this`dollyStart, this`zoom, this`settings
      ensures TablePinch(pointers).None? ==> outcome == TypeError && unchanged(this)
      ensures TablePinch(pointers).Some? ==>
        var rise := Rise(old(dollyStart), TablePinch(pointers).value);
        && outcome == Completed
        && settings == ZoomOffIf(old(settings), rise != 0 && camera == OtherCamera)
        && TickedFrom(Transform.Dolly(old(CurrentMotion()), camera, rise, PinchZoomScale(settings.zoomSpeed, settings.mobileZoomFactor), false,
                                      settings.minZoom, settings.maxZoom))
        && dollyStart == TablePinch(pointers).value
    {
      var adapter := new PointersToTouchAdapter(pointers);
      outcome := HandleTouchMoveDolly(adapter.touches);
    }

    /**
     * `onPointerDown`: a touch pointer is recorded and counted; the second
     * one starts a pinch (if zoom is on) from the first two table entries,
     * any other count is no pinch.
     */
    method OnPointerDown(ev: PointerEvent) returns (outcome: Outcome)
      requires Valid()
      modifies this`pointers, this`pointersLength, this`isZoomGesture, this`state, this`dollyStart
      ensures Valid()
      ensures ev.pointerType != "touch" ==> outcome == Completed && unchanged(this)
      ensures ev.pointerType == "touch" ==>
        && pointers == Pointers.SetPointer(old(pointers), ev.pointerId, Point(ev.clientX, ev.clientY))
        && pointersLength == old(pointersLength) + 1
        && isZoomGesture == (pointersLength == 2)
      ensures ev.pointerType == "touch" && (pointersLength != 2 || !settings.enableZoom) ==>
        outcome == Completed && state == old(state) && dollyStart == old(dollyStart)
      ensures ev.pointerType == "touch" && pointersLength == 2 && settings.enableZoom ==>
        && state == TouchDolly
        && (TablePinch(pointers).None? ==> outcome == TypeError && dollyStart == old(dollyStart))
        && (TablePinch(pointers).Some? ==> outcome == Completed && dollyStart == TablePinch(pointers).value)
    {
      outcome := Completed;
      if ev.pointerType != "touch" { return; }
      SetPointer(ev);
      pointersLength := pointersLength + 1;
      if pointersLength == 2 {
        isZoomGesture := true;
        if !settings.enableZoom { return; }
        state := TouchDolly;
        outcome := PinchStart();
      } else {
        isZoomGesture := false;
      }
    }

    /**
     * `onPointerMove`: a move of a known touch pointer updates its entry and,
     * during a pinch with zoom on, moves the dolly. `enabled` is not looked at.
     */
    method OnPointerMove(ev: PointerEvent) returns (outcome: Outcome)
      requires Valid()
      modifies this`spherical, this`sphericalDelta, this`scale, this`panOffset,
               this`target, this`zoomChanged, this`lastView, this`notices,
               this`dollyStart, this`zoom, this`settings, this`pointers
      ensures Valid()
      ensures ev.pointerType != "touch" || !old(Has(pointers, ev.pointerId)) ==> outcome == Completed && unchanged(this)
      ensures ev.pointerType == "touch" && old(Has(pointers, ev.pointerId)) ==>
        pointers == Pointers.SetPointer(old(pointers), ev.pointerId, Point(ev.clientX, ev.clientY))
      ensures ev.pointerType == "touch" && old(Has(pointers, ev.pointerId)) && !(isZoomGesture && old(settings.enableZoom)) ==>
        && outcome == Completed && CurrentMotion() == old(CurrentMotion())
        && unchanged(this`notices, this`dollyStart, this`settings)
      ensures ev.pointerType == "touch" && old(Has(pointers, ev.pointerId)) && isZoomGesture && old(settings.enableZoom) ==>
        && (TablePinch(pointers).None? ==>
              && outcome == TypeError && CurrentMotion() == old(CurrentMotion())
              && unchanged(this`notices, this`dollyStart, this`settings))
        && (TablePinch(pointers).Some? ==>
              var rise := Rise(old(dollyStart), TablePinch(pointers).value);
              && outcome == Completed
              && settings == ZoomOffIf(old(settings), rise != 0 && camera == OtherCamera)
              && TickedFrom(Transform.Dolly(old(CurrentMotion()), camera, rise, PinchZoomScale(settings.zoomSpeed, settings.mobileZoomFactor),
                                            false, settings.minZoom, settings.maxZoom))
              && dollyStart == TablePinch(pointers).value)
    {
      outcome := Completed;
      if ev.pointerType != "touch" || Find(pointers, ev.pointerId).None? { return; }
      SetPointer(ev);
      if isZoomGesture {
        if !settings.enableZoom { return; }
        outcome := PinchMove();
      }
    }
  }
}
