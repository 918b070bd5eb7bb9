/**
 * One tick of the orbit controller (the `update` closure) on the spherical
 * representation, and the input steps that feed it: rotateLeft / rotateUp,
 * dolly in / out and pan.
 */
module Transform {
  import opened Wrappers
  import opened SphericalMath

  /** The projection of the bound camera, fixed at construction. */
  datatype CameraKind = Perspective | Orthographic | OtherCamera

  /**
   * One call of `pan(deltaX, deltaY)`, in screen pixels. Its world-space
   * translation (camera basis columns, distance and field of view) is kept
   * symbolic: a pan offset or a target is the sequence of the pans summed into it.
   */
  datatype PanStep = PanStep(deltaX: real, deltaY: real)

  /** What the change test compares: the target and the pose around it. */
  datatype View = View(target: seq<PanStep>, pose: Spherical)

  /**
   * The state one tick reads and writes: the pose, the accumulators
   * (`#sphericalDelta`, `#scale`, `#panOffset`), the target, the orthographic
   * zoom, `#zoomChanged`, and the last view the change test remembered (None
   * before the first change).
   */
  datatype Motion = Motion(
    pose: Spherical, delta: Delta, scale: real, panOffset: seq<PanStep>,
    target: seq<PanStep>, zoom: real, zoomChanged: bool, last: Option<View>)

  /** The configuration one tick consults. */
  datatype TickOptions = TickOptions(
    autoRotate: bool, autoRotateSpeed: real,
    enableDamping: bool, dampingFactor: real, limits: Limits)

  datatype TickResult = TickResult(motion: Motion, changed: bool)

  /** rotateLeft(angle): `#sphericalDelta.theta -= angle`. */
  function RotateLeft(m: Motion, angle: real): (r: Motion)
    ensures r.delta.theta == m.delta.theta - angle
    ensures r == m.(delta := r.delta) && r.delta.phi == m.delta.phi
  {
    m.(delta := m.delta.(theta := m.delta.theta - angle))
  }

  /** rotateUp(angle): `#sphericalDelta.phi -= angle`. */
  function RotateUp(m: Motion, angle: real): (r: Motion)
    ensures r.delta.phi == m.delta.phi - angle
    ensures r == m.(delta := r.delta) && r.delta.theta == m.delta.theta
  {
    m.(delta := m.delta.(phi := m.delta.phi - angle))
  }

  /**
   * `#dollyIn(dollyScale)`: a perspective camera divides the scale, an
   * orthographic one multiplies its zoom (clamped) and marks it changed; any
   * other camera is left alone (the caller switches zoom off).
   */
  function DollyIn(m: Motion, kind: CameraKind, dollyScale: real, minZoom: Bound, maxZoom: Bound): (r: Motion)
    requires dollyScale > 0.0
    ensures kind == Perspective ==> r == m.(scale := m.scale / dollyScale)
    ensures kind == Orthographic ==>
      r == m.(zoom := r.zoom, zoomChanged := true) && r.zoom == Clamp(minZoom, maxZoom, m.zoom * dollyScale)
    ensures kind == OtherCamera ==> r == m
  {
    match kind
    case Perspective => m.(scale := m.scale / dollyScale)
    case Orthographic => m.(zoom := Clamp(minZoom, maxZoom, m.zoom * dollyScale), zoomChanged := true)
    case OtherCamera => m
  }

  /** `#dollyOut(dollyScale)`: the inverse of DollyIn on the scale and the zoom. */
  function DollyOut(m: Motion, kind: CameraKind, dollyScale: real, minZoom: Bound, maxZoom: Bound): (r: Motion)
    requires dollyScale > 0.0
    ensures kind == Perspective ==> r == m.(scale := m.scale * dollyScale)
    ensures kind == Orthographic ==>
      r == m.(zoom := r.zoom, zoomChanged := true) && r.zoom == Clamp(minZoom, maxZoom, m.zoom / dollyScale)
    ensures kind == OtherCamera ==> r == m
  {
    match kind
    case Perspective => m.(scale := m.scale * dollyScale)
    case Orthographic => m.(zoom := Clamp(minZoom, maxZoom, m.zoom / dollyScale), zoomChanged := true)
    case OtherCamera => m
  }

  /** On a perspective camera, dollying out undoes dollying in by the same factor. */
  lemma DollyOutUndoesDollyIn(m: Motion, dollyScale: real, minZoom: Bound, maxZoom: Bound)
    requires dollyScale > 0.0
    ensures DollyOut(DollyIn(m, Perspective, dollyScale, minZoom, maxZoom), Perspective, dollyScale, minZoom, maxZoom) == m
  {
    assert m.scale / dollyScale * dollyScale == m.scale;
  }

  /**
   * The dolly step of a gesture whose anchor rose by `rise`: dolly in on a
   * rise when `inOnRise`, out otherwise, and nothing when the anchor did not move.
   */
  function Dolly(m: Motion, kind: CameraKind, rise: int, dollyScale: real, inOnRise: bool,
                 minZoom: Bound, maxZoom: Bound): (r: Motion)
    requires dollyScale > 0.0
    ensures rise == 0 ==> r == m
    ensures rise != 0 && (rise > 0) == inOnRise ==> r == DollyIn(m, kind, dollyScale, minZoom, maxZoom)
    ensures rise != 0 && (rise > 0) != inOnRise ==> r == DollyOut(m, kind, dollyScale, minZoom, maxZoom)
  {
    if rise == 0 then m
    else if (rise > 0) == inOnRise then DollyIn(m, kind, dollyScale, minZoom, maxZoom)
    else DollyOut(m, kind, dollyScale, minZoom, maxZoom)
  }

  /**
   * A rotating drag of (dx, dy) pixels: rotateLeft by the horizontal drag
   * measured against the reference width, then rotateUp by the vertical drag
   * measured against `height`.
   */
  function Drag(m: Motion, dx: real, dy: real, height: real, rotateSpeed: real): (r: Motion)
    requires height > 0.0
    ensures r == m.(delta := r.delta)
    ensures r.delta == Delta(m.delta.theta - DragAngle(dx, ReferenceWidth, rotateSpeed),
                             m.delta.phi - DragAngle(dy, height, rotateSpeed))
  {
    RotateUp(RotateLeft(m, DragAngle(dx, ReferenceWidth, rotateSpeed)), DragAngle(dy, height, rotateSpeed))
  }

  /**
   * `pan(deltaX, deltaY)`: the pan is added to the offset unless the camera
   * is of another kind. A pan of no pixels adds the zero vector, which
   * leaves the offset where it is, so it is not recorded.
   */
  function PanBy(m: Motion, kind: CameraKind, deltaX: real, deltaY: real): (r: Motion)
    ensures kind != OtherCamera && (deltaX != 0.0 || deltaY != 0.0) ==>
      r == m.(panOffset := m.panOffset + [PanStep(deltaX, deltaY)])
    ensures kind == OtherCamera || (deltaX == 0.0 && deltaY == 0.0) ==> r == m
  {
    if kind == OtherCamera || (deltaX == 0.0 && deltaY == 0.0) then m
    else m.(panOffset := m.panOffset + [PanStep(deltaX, deltaY)])
  }

  /**
   * The delta a tick applies: auto-rotation adds its angle, as rotateLeft,
   * only when it is on and no gesture is active.
   */
  function TickDelta(m: Motion, idle: bool, o: TickOptions): (r: Delta)
    ensures o.autoRotate && idle ==> r == Delta(m.delta.theta - AutoRotationAngle(o.autoRotateSpeed), m.delta.phi)
    ensures !(o.autoRotate && idle) ==> r == m.delta
  {
    if o.autoRotate && idle then RotateLeft(m, AutoRotationAngle(o.autoRotateSpeed)).delta else m.delta
  }

  /**
   * One call of `update`. The pose takes the deltas, the clamps and the
   * scale; the target takes the pan offset; the deltas decay or vanish; the
   * scale returns to one and the pan offset to nothing. The tick reports a
   * change when the zoom changed or the view differs from the one last
   * reported, and then remembers the new view.
   */
  function Tick(m: Motion, idle: bool, o: TickOptions): (r: TickResult)
  {
    var d := TickDelta(m, idle, o);
    var pose := Apply(m.pose, d, m.scale, o.limits);
    var target := m.target + m.panOffset;
    var view := View(target, pose);
    var changed := m.zoomChanged || m.last != Some(view);
    TickResult(
      Motion(pose, Decay(d, o.enableDamping, o.dampingFactor), 1.0, [], target, m.zoom, false,
             if changed then Some(view) else m.last),
      changed)
  }

  /** A tick is determined by the pose, the delta, the target and the change it reports. */
  lemma TickOf(m: Motion, idle: bool, o: TickOptions, pose: Spherical, delta: Delta, target: seq<PanStep>, changed: bool)
    requires pose == Apply(m.pose, TickDelta(m, idle, o), m.scale, o.limits)
    requires delta == Decay(TickDelta(m, idle, o), o.enableDamping, o.dampingFactor)
    requires target == m.target + m.panOffset
    requires changed == (m.zoomChanged || m.last != Some(View(target, pose)))
    ensures Tick(m, idle, o) ==
      TickResult(Motion(pose, delta, 1.0, [], target, m.zoom, false, Some(View(target, pose))), changed)
  {
  }

  /**
   * A tick whose scale is value / radius moves the radius to value, unless
   * the distance limits exclude it.
   */
  lemma TickRadius(m: Motion, idle: bool, o: TickOptions, value: real)
    requires m.pose.radius != 0.0
    requires Within(o.limits.minDistance, o.limits.maxDistance, value)
    ensures Tick(m.(scale := value / m.pose.radius), idle, o).motion.pose.radius == value
  {
    assert m.pose.radius * (value / m.pose.radius) == value;
  }

  /**
   * With damping off and no auto-rotation, a second tick without new input
   * reports no change and leaves everything as the first tick left it.
   */
  lemma {:induction false} TickSettles(m: Motion, idle: bool, o: TickOptions)
    requires !o.enableDamping && !(o.autoRotate && idle)
    ensures var t1 := Tick(m, idle, o); var t2 := Tick(t1.motion, idle, o);
      !t2.changed && t2.motion == t1.motion
  {
    var t1 := Tick(m, idle, o);
    ApplySettles(m.pose, TickDelta(m, idle, o), m.scale, o.limits);
    assert t1.motion.delta == Delta(0.0, 0.0);
    assert t1.motion.target + [] == t1.motion.target;
  }

  /**
   * A pan of no pixels after a settled tick reports no change: the target
   * stays where it was, as adding the zero vector leaves it.
   */
  lemma ZeroPanReportsNoChange(m: Motion, kind: CameraKind, idle: bool, o: TickOptions)
    requires !o.enableDamping && !(o.autoRotate && idle)
    ensures var t1 := Tick(m, idle, o); !Tick(PanBy(t1.motion, kind, 0.0, 0.0), idle, o).changed
  {
    TickSettles(m, idle, o);
  }

  /** Every tick leaves theta and the radius inside their limits whenever these are ordered. */
  lemma TickWithinLimits(m: Motion, idle: bool, o: TickOptions)
    ensures var p := Tick(m, idle, o).motion.pose;
      && (Ordered(o.limits.minAzimuthAngle, o.limits.maxAzimuthAngle) ==>
            Within(o.limits.minAzimuthAngle, o.limits.maxAzimuthAngle, p.theta))
      && (Ordered(o.limits.minDistance, o.limits.maxDistance) ==>
            Within(o.limits.minDistance, o.limits.maxDistance, p.radius))
      && Eps <= p.phi <= Pi - Eps
      && (PolarLimitsSafe(o.limits) ==> Within(o.limits.minPolarAngle, o.limits.maxPolarAngle, p.phi))
  {
    if PolarLimitsSafe(o.limits) {
      ApplyKeepsPolarLimits(m.pose, TickDelta(m, idle, o), m.scale, o.limits);
    }
  }
}
