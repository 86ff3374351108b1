/** The camera: a pose (position and Euler angles in degrees) and a projection
    fixed at construction. Each frame it sends the shaders the combined
    projection-view matrix and its own position; the first-person variant
    turns with a clamped pitch and walks relative to its yaw. */
module Cameras {
  import opened Wrappers
  import opened Transforms
  import opened Graphics

  /** The camera looks down the negative z-axis with +y up. */
  const Forward := Vec3(0.0, 0.0, -1.0)
  const Up := Vec3(0.0, 1.0, 0.0)

  /** `max(-90, min(pitch, 90))`: the first-person pitch limit. */
  function ClampPitch(pitch: real): (r: real)
    ensures -90.0 <= r <= 90.0
    ensures -90.0 <= pitch <= 90.0 ==> r == pitch
    ensures pitch > 90.0 ==> r == 90.0
    ensures pitch < -90.0 ==> r == -90.0
  {
    var capped := if pitch <= 90.0 then pitch else 90.0;
    if -90.0 >= capped then -90.0 else capped
  }

  /** The look-at matrix of a pose: eye at the position, looking at the position
      plus the rotated forward vector, with the rotated up vector as up. */
  function ViewMatrix(position: Vec3, orientation: Vec3): Mat {
    LookAt(Point(position),
           Sum(Point(position), Transformed(Rotation(orientation), Point(Forward))),
           Transformed(Rotation(orientation), Point(Up)))
  }

  /** `projection @ lookAt`: what every shader receives as "projView". */
  function ProjView(projection: Mat, position: Vec3, orientation: Vec3): (pv: Mat)
    ensures Factors(pv) == Factors(projection) + [ViewMatrix(position, orientation)]
  {
    Product(projection, ViewMatrix(position, orientation))
  }

  /** The direction the camera looks in: forward rolled, pitched, then yawed. */
  function Gaze(orientation: Vec3, trig: Trig): Vec3 {
    RotatePoint(YAxis, orientation.y,
      RotatePoint(XAxis, orientation.x, RotatePoint(ZAxis, orientation.z, Forward, trig), trig), trig)
  }

  /** The rotated up vector. */
  function Overhead(orientation: Vec3, trig: Trig): Vec3 {
    RotatePoint(YAxis, orientation.y,
      RotatePoint(XAxis, orientation.x, RotatePoint(ZAxis, orientation.z, Up, trig), trig), trig)
  }

  /** The view matrix places the eye at the position, the target one gaze
      vector in front of it, and up at the rotated up vector. */
  lemma ViewMatrixAims(position: Vec3, orientation: Vec3, trig: Trig)
    ensures EvalVec(ViewMatrix(position, orientation).eye, trig) == Some(position)
    ensures EvalVec(ViewMatrix(position, orientation).center, trig) == Some(position.Plus(Gaze(orientation, trig)))
    ensures EvalVec(ViewMatrix(position, orientation).up, trig) == Some(Overhead(orientation, trig))
  {
    RotationMapsPoint(orientation, Forward, trig);
    RotationMapsPoint(orientation, Up, trig);
    var turned := ApplyPoint(Rotation(orientation), Forward, trig);
    assert turned.Some? && turned.value == Gaze(orientation, trig);
    assert EvalVec(Point(Forward), trig) == Some(Forward);
    var forward := EvalVec(Transformed(Rotation(orientation), Point(Forward)), trig);
    assert forward.Some? && forward.value == Gaze(orientation, trig);
    assert EvalVec(Point(position), trig) == Some(position);
    var center := EvalVec(ViewMatrix(position, orientation).center, trig);
    assert center.Some? && center.value == position.Plus(Gaze(orientation, trig));
  }

  /** With no pitch and roll the camera looks horizontally, at
      (-sin yaw, 0, -cos yaw), and up stays (0, 1, 0). */
  lemma LevelGaze(yaw: real, trig: Trig)
    requires trig.sin(0.0) == 0.0 && trig.cos(0.0) == 1.0
    ensures Gaze(Vec3(0.0, yaw, 0.0), trig) == Vec3(-trig.sin(yaw), 0.0, -trig.cos(yaw))
    ensures Overhead(Vec3(0.0, yaw, 0.0), trig) == Up
  {
  }

  /** The calls `update` makes for `shaders`: for each shader in order, activate
      it, write "projView", write "viewPos". */
  function CameraCalls(shaders: seq<ShaderId>, projView: Mat, viewPos: Vec3): (calls: seq<GLCall>)
    ensures |calls| == 3 * |shaders|
    decreases |shaders|
  {
    if shaders == [] then []
    else
      CameraCalls(shaders[..|shaders| - 1], projView, viewPos)
      + [UseProgram(shaders[|shaders| - 1]),
         SetUniform("projView", Mat4(projView)),
         SetUniform("viewPos", Vec3Value(viewPos))]
  }

  /** Every shader in the list receives exactly two writes, "projView" and then
      "viewPos", while it is the active program; the writes come in list order,
      and an empty list gives no writes. */
  lemma {:induction false} CameraWritesLand(active: Option<ShaderId>, shaders: seq<ShaderId>, projView: Mat, viewPos: Vec3)
    ensures var r := Resolve(active, CameraCalls(shaders, projView, viewPos));
            |r| == 2 * |shaders| &&
            forall k :: 0 <= k < |shaders| ==>
              r[2 * k] == Write(Some(shaders[k]), "projView", Mat4(projView)) &&
              r[2 * k + 1] == Write(Some(shaders[k]), "viewPos", Vec3Value(viewPos))
    ensures shaders != [] ==> ActiveAfter(active, CameraCalls(shaders, projView, viewPos)) == Some(shaders[|shaders| - 1])
    decreases |shaders|
  {
    if shaders != [] {
      var init := shaders[..|shaders| - 1];
      var last := shaders[|shaders| - 1];
      var writes := [SetUniform("projView", Mat4(projView)), SetUniform("viewPos", Vec3Value(viewPos))];
      CameraWritesLand(active, init, projView, viewPos);
      var before := CameraCalls(init, projView, viewPos);
      assert CameraCalls(shaders, projView, viewPos) == before + ([UseProgram(last)] + writes);
      ResolveAppend(active, before, [UseProgram(last)] + writes);
      UseThenWritesLand(ActiveAfter(active, before), last, writes);
      var r := Resolve(active, CameraCalls(shaders, projView, viewPos));
      assert r == Resolve(active, before) + Resolve(ActiveAfter(active, before), [UseProgram(last)] + writes);
      forall k | 0 <= k < |shaders|
        ensures r[2 * k] == Write(Some(shaders[k]), "projView", Mat4(projView))
        ensures r[2 * k + 1] == Write(Some(shaders[k]), "viewPos", Vec3Value(viewPos))
      {
        if k < |init| {
          assert shaders[k] == init[k];
        }
      }
    }
  }

  /** FPS_Camera.move's displacement: (sideways, vertical, -forwards) turned
      about the y-axis by the yaw. Pitch and roll play no part. */
  function MoveDelta(yaw: real, forwards: real, sideways: real, vertical: real, trig: Trig): (d: Vec3)
    ensures d.y == vertical
  {
    RotatePoint(YAxis, yaw, Vec3(sideways, vertical, -forwards), trig)
  }

  /** Walking keeps its horizontal speed whatever the yaw. */
  lemma MoveKeepsHorizontalSpeed(yaw: real, forwards: real, sideways: real, vertical: real, trig: Trig)
    requires trig.sin(yaw) * trig.sin(yaw) + trig.cos(yaw) * trig.cos(yaw) == 1.0
    ensures var d := MoveDelta(yaw, forwards, sideways, vertical, trig);
            d.x * d.x + d.z * d.z == sideways * sideways + forwards * forwards
  {
    RotateYPreservesLengths(yaw, Vec3(sideways, vertical, -forwards), trig);
  }

  /** Walking forwards goes where a level camera with the same yaw looks. */
  lemma MoveForwardFollowsGaze(yaw: real, forwards: real, trig: Trig)
    requires trig.sin(0.0) == 0.0 && trig.cos(0.0) == 1.0
    ensures MoveDelta(yaw, forwards, 0.0, 0.0, trig) == Gaze(Vec3(0.0, yaw, 0.0), trig).Times(forwards)
  {
    LevelGaze(yaw, trig);
  }

  /** A camera and, through FpsRotate and Move, the first-person camera. */
  class Camera {
    var position: Vec3
    /** Euler angles in degrees: x is pitch, y is yaw, z is roll. */
    var orientation: Vec3
    var projection: Mat

    constructor (position: Vec3, orientation: Vec3, fov: real, aspect: real, near: real, far: real)
      ensures this.position == position && this.orientation == orientation
      ensures projection == Perspective(fov, aspect, near, far)
    {
      this.position := position;
      this.orientation := orientation;
      projection := Perspective(fov, aspect, near, far);
    }

    /** Adds the three angle deltas; nothing else changes. */
    method Rotate(pitch: real, yaw: real, roll: real)
      modifies this
      ensures orientation == Vec3(old(orientation).x + pitch, old(orientation).y + yaw, old(orientation).z + roll)
      ensures position == old(position) && projection == old(projection)
    {
      orientation := orientation.(x := orientation.x + pitch);
      orientation := orientation.(y := orientation.y + yaw);
      orientation := orientation.(z := orientation.z + roll);
    }

    /** Adds the three position deltas; nothing else changes. */
    method Translate(x: real, y: real, z: real)
      modifies this
      ensures position == old(position).Plus(Vec3(x, y, z))
      ensures orientation == old(orientation) && projection == old(projection)
    {
      position := position.(x := position.x + x);
      position := position.(y := position.y + y);
      position := position.(z := position.z + z);
    }

    /** The matrix the current pose sends as "projView". */
    function ProjViewMatrix(): Mat
      reads this
    {
      ProjView(projection, position, orientation)
    }

    /** Sends projView and viewPos to each shader in turn; the camera itself is
        left as it was. */
    method Update(shaders: seq<ShaderId>, gl: GLContext)
      modifies gl
      ensures gl.calls == old(gl.calls) + CameraCalls(shaders, ProjViewMatrix(), position)
      ensures unchanged(this)
    {
      var projView := ProjView(projection, position, orientation);
      for i := 0 to |shaders|
        invariant gl.calls == old(gl.calls) + CameraCalls(shaders[..i], projView, position)
      {
        assert shaders[..i + 1][..i] == shaders[..i];
        gl.Use(shaders[i]);
        gl.Set("projView", Mat4(projView));
        gl.Set("viewPos", Vec3Value(position));
      }
      assert shaders[..|shaders|] == shaders;
    }

    /** FPS_Camera.rotate: vertical turns the pitch, horizontal the yaw, roll is
        kept; the accumulated pitch is then clamped to [-90, 90]. Yaw is never
        clamped or wrapped. */
    method FpsRotate(horizontal: real, vertical: real)
      modifies this
      ensures orientation == Vec3(ClampPitch(old(orientation).x + vertical), old(orientation).y + horizontal, old(orientation).z)
      ensures -90.0 <= orientation.x <= 90.0
      ensures position == old(position) && projection == old(projection)
    {
      Rotate(vertical, horizontal, 0.0);
      orientation := orientation.(x := ClampPitch(orientation.x));
    }

    /** FPS_Camera.move: translate by the yaw-relative displacement. */
    method Move(forwards: real, sideways: real, vertical: real, trig: Trig)
      modifies this
      ensures position == old(position).Plus(MoveDelta(old(orientation).y, forwards, sideways, vertical, trig))
      ensures orientation == old(orientation) && projection == old(projection)
    {
      var direction := RotatePoint(YAxis, orientation.y, Vec3(sideways, vertical, -forwards), trig);
      Translate(direction.x, direction.y, direction.z);
    }
  }
}
