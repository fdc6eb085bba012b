/** The rotating can (class CokeCan3D in scripts/coke-can-3d.js): a drag
    with the mouse or one finger turns the can, vertical rotation (pitch)
    is held within [-45, 45] degrees, and the can spins on its own about
    the vertical axis while nobody drags it. Only the state the event
    handlers update is modelled; the CSS geometry, and the transform string
    written after each change, are not. Each autoRotate call is one step;
    the animation-frame callback that calls it again is the host calling
    AutoRotate once more. */
module CokeCan {
  import opened Util

  /** A pointer position in client coordinates. */
  datatype Point = Point(x: real, y: real)

  const PitchLimit: real := 45.0
  /** Degrees of rotation per pixel dragged. */
  const DragGain: real := 0.5
  const InitialSpeed: real := 1.0
  const ResetPitch: real := 10.0

  /** Math.max(-45, Math.min(45, v)). */
  function ClampPitch(v: real): (r: real)
    ensures -PitchLimit <= r <= PitchLimit
    ensures -PitchLimit <= v <= PitchLimit ==> r == v
    ensures v < -PitchLimit ==> r == -PitchLimit
    ensures v > PitchLimit ==> r == PitchLimit
  {
    Max(-PitchLimit, Min(PitchLimit, v))
  }

  /** The drag-related part of the can's state. */
  datatype DragState = DragState(rotationX: real, rotationY: real, lastX: real, lastY: real, dragging: bool)

  /** onMouseMove (and onTouchMove with one finger) on the state. */
  function MoveStep(s: DragState, p: Point): (t: DragState)
    ensures !s.dragging ==> t == s
    ensures -PitchLimit <= t.rotationX <= PitchLimit || t.rotationX == s.rotationX
    ensures s.dragging ==> t.lastX == p.x && t.lastY == p.y && t.dragging
  {
    if !s.dragging then s
    else
      var yaw := s.rotationY + (p.x - s.lastX) * DragGain;
      var pitch := ClampPitch(s.rotationX + (p.y - s.lastY) * DragGain);
      DragState(pitch, yaw, p.x, p.y, true)
  }

  /** A sequence of move events. */
  function MoveRun(s: DragState, ps: seq<Point>): DragState
    decreases |ps|
  {
    if ps == [] then s else MoveRun(MoveStep(s, ps[0]), ps[1..])
  }

  /** During a drag the horizontal rotation depends only on where the drag
      started and where it ends: the per-event deltas telescope. The pitch
      stays within its limits throughout. */
  lemma {:induction false} DragYawTelescopes(s: DragState, ps: seq<Point>)
    requires s.dragging && ps != []
    requires -PitchLimit <= s.rotationX <= PitchLimit
    ensures MoveRun(s, ps).rotationY == s.rotationY + (ps[|ps| - 1].x - s.lastX) * DragGain
    ensures -PitchLimit <= MoveRun(s, ps).rotationX <= PitchLimit
    ensures MoveRun(s, ps).dragging
    decreases |ps|
  {
    var t := MoveStep(s, ps[0]);
    if |ps| > 1 {
      DragYawTelescopes(t, ps[1..]);
      assert ps[1..][|ps[1..]| - 1] == ps[|ps| - 1];
    }
  }

  /** Moves while no drag is in progress change nothing. */
  lemma {:induction false} IdleMovesIgnored(s: DragState, ps: seq<Point>)
    requires !s.dragging
    ensures MoveRun(s, ps) == s
    decreases |ps|
  {
    if ps != [] {
      IdleMovesIgnored(MoveStep(s, ps[0]), ps[1..]);
    }
  }

  class CokeCan3D {
    var rotationX: real
    var rotationY: real
    var lastMouseX: real
    var lastMouseY: real
    var isDragging: bool
    var isAutoRotating: bool
    var autoRotationSpeed: real

    function Drag(): DragState
      reads this
    {
      DragState(rotationX, rotationY, lastMouseX, lastMouseY, isDragging)
    }

    /** The pitch is within its limits. */
    predicate Valid()
      reads this
    {
      -PitchLimit <= rotationX <= PitchLimit
    }

    /** The fields start at rest with auto-rotation on. When the container
        element exists, init() starts the rotation, whose first step runs at
        once. */
    constructor (hasContainer: bool)
      ensures Valid()
      ensures rotationX == 0.0 && rotationY == (if hasContainer then InitialSpeed else 0.0)
      ensures lastMouseX == 0.0 && lastMouseY == 0.0
      ensures !isDragging && isAutoRotating && autoRotationSpeed == InitialSpeed
    {
      isAutoRotating := true;
      rotationX := 0.0;
      rotationY := 0.0;
      isDragging := false;
      lastMouseX := 0.0;
      lastMouseY := 0.0;
      autoRotationSpeed := InitialSpeed;
      new;
      if hasContainer {
        StartAutoRotation();
      }
    }

    /** autoRotate, one step: turns by the speed while auto-rotation is on. */
    method AutoRotate()
      modifies this`rotationY
      ensures isAutoRotating ==> rotationY == old(rotationY) + autoRotationSpeed
      ensures !isAutoRotating ==> rotationY == old(rotationY)
    {
      if !isAutoRotating {
        return;
      }
      rotationY := rotationY + autoRotationSpeed;
    }

    /** startAutoRotation: switches rotation on and takes its first step. */
    method StartAutoRotation()
      modifies this`isAutoRotating, this`rotationY
      ensures isAutoRotating
      ensures rotationY == old(rotationY) + autoRotationSpeed
    {
      isAutoRotating := true;
      AutoRotate();
    }

    method StopAutoRotation()
      modifies this`isAutoRotating
      ensures !isAutoRotating
    {
      isAutoRotating := false;
    }

    method PauseAutoRotation()
      modifies this`isAutoRotating
      ensures !isAutoRotating
    {
      StopAutoRotation();
    }

    /** resumeAutoRotation: restarts only when no drag is in progress. */
    method ResumeAutoRotation()
      modifies this`isAutoRotating, this`rotationY
      ensures old(isDragging) ==> isAutoRotating == old(isAutoRotating) && rotationY == old(rotationY)
      ensures !old(isDragging) ==> isAutoRotating && rotationY == old(rotationY) + autoRotationSpeed
    {
      if !isDragging {
        StartAutoRotation();
      }
    }

    /** onMouseDown: a drag starts at p and auto-rotation stops. */
    method OnMouseDown(p: Point)
      modifies this`isDragging, this`lastMouseX, this`lastMouseY, this`isAutoRotating
      ensures isDragging && !isAutoRotating
      ensures lastMouseX == p.x && lastMouseY == p.y
    {
      isDragging := true;
      lastMouseX := p.x;
      lastMouseY := p.y;
      PauseAutoRotation();
    }

    /** onMouseMove */
    method OnMouseMove(p: Point)
      requires Valid()
      modifies this`rotationX, this`rotationY, this`lastMouseX, this`lastMouseY
      ensures Valid()
      ensures Drag() == MoveStep(old(Drag()), p)
    {
      if !isDragging {
        return;
      }
      var deltaX := p.x - lastMouseX;
      var deltaY := p.y - lastMouseY;
      rotationY := rotationY + deltaX * DragGain;
      rotationX := rotationX + deltaY * DragGain;
      rotationX := Max(-PitchLimit, Min(PitchLimit, rotationX));
      lastMouseX := p.x;
      lastMouseY := p.y;
    }

    /** onMouseUp: the drag ends and auto-rotation resumes with one step. */
    method OnMouseUp()
      modifies this`isDragging, this`isAutoRotating, this`rotationY
      ensures !isDragging && isAutoRotating
      ensures rotationY == old(rotationY) + autoRotationSpeed
    {
      isDragging := false;
      ResumeAutoRotation();
    }

    /** onTouchStart: only a single-finger touch starts a drag. */
    method OnTouchStart(touches: seq<Point>)
      modifies this`isDragging, this`lastMouseX, this`lastMouseY, this`isAutoRotating
      ensures |touches| == 1 ==> isDragging && !isAutoRotating && lastMouseX == touches[0].x && lastMouseY == touches[0].y
      ensures |touches| != 1 ==> unchanged(this)
    {
      if |touches| == 1 {
        isDragging := true;
        lastMouseX := touches[0].x;
        lastMouseY := touches[0].y;
        PauseAutoRotation();
      }
    }

    /** onTouchMove: moves only for a drag in progress under one finger. */
    method OnTouchMove(touches: seq<Point>)
      requires Valid()
      modifies this`rotationX, this`rotationY, this`lastMouseX, this`lastMouseY
      ensures Valid()
      ensures |touches| == 1 ==> Drag() == MoveStep(old(Drag()), touches[0])
      ensures |touches| != 1 || !isDragging ==> unchanged(this)
    {
      if !isDragging || |touches| != 1 {
        return;
      }
      var deltaX := touches[0].x - lastMouseX;
      var deltaY := touches[0].y - lastMouseY;
      rotationY := rotationY + deltaX * DragGain;
      rotationX := rotationX + deltaY * DragGain;
      rotationX := Max(-PitchLimit, Min(PitchLimit, rotationX));
      lastMouseX := touches[0].x;
      lastMouseY := touches[0].y;
    }

    /** onTouchEnd, the same as onMouseUp. */
    method OnTouchEnd()
      modifies this`isDragging, this`isAutoRotating, this`rotationY
      ensures !isDragging && isAutoRotating
      ensures rotationY == old(rotationY) + autoRotationSpeed
    {
      isDragging := false;
      ResumeAutoRotation();
    }

    /** resetView: a slight downward tilt, facing front. */
    method ResetView()
      modifies this`rotationX, this`rotationY
      ensures Valid()
      ensures rotationX == ResetPitch && rotationY == 0.0
    {
      rotationX := 10.0;
      rotationY := 0.0;
    }

    /** destroy: rotation stops and no drag remains in progress. */
    method Destroy()
      modifies this`isAutoRotating, this`isDragging
      ensures !isAutoRotating && !isDragging
    {
      StopAutoRotation();
      isDragging := false;
    }
  }

  /** A whole drag, from press through moves to release, on a fresh can:
      the pitch stays within its limits and the can turns by half the
      horizontal distance dragged, plus the one auto-rotation step the
      release takes. A press and release without moves leaves the pitch
      at rest and turns the can by that step alone. */
  method DragGesture(start: Point, moves: seq<Point>) returns (yaw: real, pitch: real, rotating: bool)
    ensures -PitchLimit <= pitch <= PitchLimit
    ensures moves == [] ==> yaw == InitialSpeed + InitialSpeed && pitch == 0.0
    ensures moves != [] ==> yaw == InitialSpeed + (moves[|moves| - 1].x - start.x) * DragGain + InitialSpeed
    ensures rotating
  {
    var can := new CokeCan3D(true);
    can.OnMouseDown(start);
    var before := can.Drag();
    var i := 0;
    while i < |moves|
      invariant 0 <= i <= |moves|
      invariant can.Valid() && can.isDragging
      invariant can.autoRotationSpeed == InitialSpeed
      invariant can.Drag() == MoveRun(before, moves[..i])
      decreases |moves| - i
    {
      MoveRunSnoc(before, moves[..i], moves[i]);
      assert moves[..i + 1] == moves[..i] + [moves[i]];
      can.OnMouseMove(moves[i]);
      i := i + 1;
    }
    assert moves[..i] == moves;
    if moves != [] {
      DragYawTelescopes(before, moves);
    }
    can.OnMouseUp();
    yaw, pitch, rotating := can.rotationY, can.rotationX, can.isAutoRotating;
  }

  /** Running one more event extends the run by one step. */
  lemma {:induction false} MoveRunSnoc(s: DragState, ps: seq<Point>, p: Point)
    ensures MoveRun(s, ps + [p]) == MoveStep(MoveRun(s, ps), p)
    decreases |ps|
  {
    if ps == [] {
      assert [p][1..] == [];
    } else {
      assert (ps + [p])[1..] == ps[1..] + [p];
      MoveRunSnoc(MoveStep(s, ps[0]), ps[1..], p);
    }
  }
}
