/** The auto-rotating orbit camera controller: the eye moves on a circle in the
    XZ plane around the origin, its angle advancing with time and its radius
    driven by the Up and Down keys. */
module Controllers {
  import opened Geometry
  import opened Cameras
  import opened KeyMapping

  /** The float value of std::numbers::pi_v<float>, as an exact real. */
  const PI: real := 3.1415927410125732421875
  const TWO_PI: real := 2.0 * PI

  /** Truncation toward zero, as the C library's fmod uses it. */
  function Trunc(q: real): (n: int)
    ensures q >= 0.0 ==> 0.0 <= q - n as real < 1.0
    ensures q < 0.0 ==> -1.0 < q - n as real <= 0.0
  {
    if q >= 0.0 then q.Floor else -((-q).Floor)
  }

  /** std::fmod on exact reals: the remainder of x after removing a whole number
      of y's, truncating toward zero, so it has the sign of x and is smaller than y. */
  function Fmod(x: real, y: real): (r: real)
    requires y > 0.0
    ensures -y < r < y
    ensures x >= 0.0 ==> r >= 0.0
    ensures x <= 0.0 ==> r <= 0.0
  {
    var n := Trunc(x / y);
    FmodBound(x, y, n);
    x - y * n as real
  }

  lemma FmodBound(x: real, y: real, n: int)
    requires y > 0.0 && n == Trunc(x / y)
    ensures var r := x - y * n as real;
      && -y < r < y
      && (x >= 0.0 ==> r >= 0.0)
      && (x <= 0.0 ==> r <= 0.0)
  {
    var f := x / y - n as real;
    QuotientSign(x, y);
    assert -1.0 < f < 1.0;
    assert x >= 0.0 ==> f >= 0.0;
    assert x <= 0.0 ==> f <= 0.0;
    RemainderIsScaledFraction(x, y, n);
    ScaledFraction(y, f, x - y * n as real);
  }

  lemma RemainderIsScaledFraction(x: real, y: real, n: int)
    requires y > 0.0
    ensures x - y * n as real == y * (x / y - n as real)
  {
  }

  lemma QuotientSign(x: real, y: real)
    requires y > 0.0
    ensures x >= 0.0 <==> x / y >= 0.0
    ensures x <= 0.0 <==> x / y <= 0.0
  {
  }

  /** Scaling a fraction in (-1, 1) by a positive y keeps it in (-y, y), with its sign. */
  lemma ScaledFraction(y: real, f: real, r: real)
    requires y > 0.0 && -1.0 < f < 1.0 && r == y * f
    ensures -y < r < y
    ensures f >= 0.0 ==> r >= 0.0
    ensures f <= 0.0 ==> r <= 0.0
  {
  }

  /** glm::sin and glm::cos, which the model leaves uninterpreted. */
  datatype Trig = Trig(sin: real -> real, cos: real -> real)

  datatype Settings = Settings(
    Target: Vec3,
    RadiusBase: real,
    RadiusMaxDelta: real,
    RadiusChangeFactor: real,
    AngularSpeed: real)

  function MinRadius(s: Settings): real { s.RadiusBase - s.RadiusMaxDelta }
  function MaxRadius(s: Settings): real { s.RadiusBase + s.RadiusMaxDelta }

  /** One frame's radius change: Down grows the radius while it is below the
      maximum; otherwise Up shrinks it while it is above the minimum. Nothing
      clamps the result. */
  function NextRadius(s: Settings, radius: real, dt: real, downHeld: bool, upHeld: bool): real
  {
    var deltaRadius := dt * s.RadiusChangeFactor;
    if radius < MaxRadius(s) && downHeld then radius + deltaRadius
    else if radius > MinRadius(s) && upHeld then radius - deltaRadius
    else radius
  }

  /** The look-at the controller writes: the eye on the circle of the current
      radius at the current angle, looking at the origin, Y up. `Settings.Target`
      plays no part. */
  function OrbitLookAt(trig: Trig, radius: real, angle: real): LookAtSettings
  {
    LookAtSettings(
      Vec3(radius * trig.sin(angle), 0.0, radius * trig.cos(angle)),
      ZERO3,
      Vec3(0.0, 1.0, 0.0))
  }

  /** Down takes precedence: with both keys held and the radius below the
      maximum, the radius grows. */
  lemma DownWinsOverUp(s: Settings, radius: real, dt: real)
    requires radius < MaxRadius(s)
    ensures NextRadius(s, radius, dt, true, true) == radius + dt * s.RadiusChangeFactor
  {
  }

  /** With neither key held the radius stays where it is; any change needs one
      of the two keys. */
  lemma RadiusNeedsAKey(s: Settings, radius: real, dt: real, downHeld: bool, upHeld: bool)
    ensures !downHeld && !upHeld ==> NextRadius(s, radius, dt, downHeld, upHeld) == radius
    ensures NextRadius(s, radius, dt, downHeld, upHeld) != radius ==>
      (downHeld && radius < MaxRadius(s)) || (upHeld && radius > MinRadius(s))
  {
  }

  /** Nothing clamps the radius: from the base radius, one frame with Down held
      can carry it past the maximum (here 5 + 0.75 * 2 = 6.5 > 6). */
  lemma RadiusCanOvershootMaximum()
    ensures var s := Settings(ZERO3, 5.0, 1.0, 2.0, PI);
      NextRadius(s, s.RadiusBase, 0.75, true, false) > MaxRadius(s)
  {
  }

  /** The radius lies less than one step outside [MinRadius, MaxRadius]. */
  ghost predicate WithinOneStep(s: Settings, step: real, radius: real)
  {
    MinRadius(s) - step < radius < MaxRadius(s) + step
  }

  /** A frame keeps the radius within one step of the bounds, whatever keys are
      held: growth starts only below the maximum, shrinking only above the minimum. */
  lemma NextRadiusWithinOneStep(s: Settings, radius: real, dt: real, downHeld: bool, upHeld: bool)
    requires dt * s.RadiusChangeFactor > 0.0
    requires WithinOneStep(s, dt * s.RadiusChangeFactor, radius)
    ensures WithinOneStep(s, dt * s.RadiusChangeFactor, NextRadius(s, radius, dt, downHeld, upHeld))
  {
  }

  /** The radius after a run of frames of the same length, each with the set of
      keys held during it. */
  function RadiusAfter(s: Settings, radius: real, dt: real, frames: seq<set<Key>>): real
    decreases |frames|
  {
    if frames == [] then radius
    else RadiusAfter(s, NextRadius(s, radius, dt, Key.Down in frames[0], Key.Up in frames[0]), dt, frames[1..])
  }

  /** Starting from the base radius, with a fixed positive step, the radius
      never gets a whole step beyond either bound, however long the keys are held. */
  lemma {:induction false} RadiusAfterWithinOneStep(s: Settings, radius: real, dt: real, frames: seq<set<Key>>)
    requires dt * s.RadiusChangeFactor > 0.0
    requires WithinOneStep(s, dt * s.RadiusChangeFactor, radius)
    ensures WithinOneStep(s, dt * s.RadiusChangeFactor, RadiusAfter(s, radius, dt, frames))
    decreases |frames|
  {
    if frames != [] {
      var next := NextRadius(s, radius, dt, Key.Down in frames[0], Key.Up in frames[0]);
      NextRadiusWithinOneStep(s, radius, dt, Key.Down in frames[0], Key.Up in frames[0]);
      RadiusAfterWithinOneStep(s, next, dt, frames[1..]);
    }
  }

  lemma BaseRadiusWithinOneStep(s: Settings, step: real)
    requires s.RadiusMaxDelta >= 0.0 && step > 0.0
    ensures WithinOneStep(s, step, s.RadiusBase)
  {
  }

  class AutoRotatingCameraController {
    const camera: Camera
    const settings: Settings
    const trig: Trig
    var currentRadius: real
    var currentAngle: real

    /** Construction starts on the base radius at angle 0 and writes the
        camera's look-at once. */
    constructor (camera: Camera, settings: Settings, trig: Trig)
      requires camera.Valid()
      modifies camera`lookAtSettings, camera`lookAtMatrix
      ensures this.camera == camera && this.settings == settings && this.trig == trig
      ensures currentRadius == settings.RadiusBase && currentAngle == 0.0
      ensures camera.Valid()
      ensures camera.lookAtSettings == OrbitLookAt(trig, settings.RadiusBase, 0.0)
      ensures camera.lookAtMatrix.None?
    {
      this.camera := camera;
      this.settings := settings;
      this.trig := trig;
      currentRadius := settings.RadiusBase;
      currentAngle := 0.0;
      new;
      UpdateCameraLookAt();
    }

    /** One frame: advance the angle and wrap it with fmod, apply the keys to the
        radius, then rewrite the camera's look-at. `keysDown` is the set of keys
        the input receiver reports as held during this frame. */
    method Update(deltaTimeSeconds: real, keysDown: set<Key>)
      requires camera.Valid()
      modifies this`currentAngle, this`currentRadius, camera`lookAtSettings, camera`lookAtMatrix
      ensures currentAngle == Fmod(old(currentAngle) + deltaTimeSeconds * settings.AngularSpeed, TWO_PI)
      ensures -TWO_PI < currentAngle < TWO_PI
      ensures currentRadius ==
        NextRadius(settings, old(currentRadius), deltaTimeSeconds, Key.Down in keysDown, Key.Up in keysDown)
      ensures camera.Valid()
      ensures camera.lookAtSettings == OrbitLookAt(trig, currentRadius, currentAngle)
      ensures camera.lookAtMatrix.None?
    {
      currentAngle := currentAngle + deltaTimeSeconds * settings.AngularSpeed;
      currentAngle := Fmod(currentAngle, TWO_PI);
      ProcessInput(deltaTimeSeconds, keysDown);
      UpdateCameraLookAt();
    }

    method ProcessInput(deltaTimeSeconds: real, keysDown: set<Key>)
      modifies this`currentRadius
      ensures currentRadius ==
        NextRadius(settings, old(currentRadius), deltaTimeSeconds, Key.Down in keysDown, Key.Up in keysDown)
    {
      var minRadius := settings.RadiusBase - settings.RadiusMaxDelta;
      var maxRadius := settings.RadiusBase + settings.RadiusMaxDelta;
      var deltaRadius := deltaTimeSeconds * settings.RadiusChangeFactor;
      if currentRadius < maxRadius && Key.Down in keysDown {
        currentRadius := currentRadius + deltaRadius;
      } else if currentRadius > minRadius && Key.Up in keysDown {
        currentRadius := currentRadius - deltaRadius;
      }
    }

    /** Replaces the camera's look-at wholesale through its mutable accessor,
        which drops the camera's view matrix cache. */
    method UpdateCameraLookAt()
      requires camera.Valid()
      modifies camera`lookAtSettings, camera`lookAtMatrix
      ensures camera.Valid()
      ensures camera.lookAtSettings == OrbitLookAt(trig, currentRadius, currentAngle)
      ensures camera.lookAtMatrix.None?
    {
      var cameraLookAtSettings := LookAtSettings(Vec3(0.0, 0.0, 1.0), ZERO3, Vec3(0.0, 1.0, 0.0));
      cameraLookAtSettings := cameraLookAtSettings.(EyePosition := cameraLookAtSettings.EyePosition.(x := currentRadius * trig.sin(currentAngle)));
      cameraLookAtSettings := cameraLookAtSettings.(EyePosition := cameraLookAtSettings.EyePosition.(z := currentRadius * trig.cos(currentAngle)));
      camera.SetLookAtSettings(cameraLookAtSettings);
    }
  }

  /** Runs a controller for a sequence of equally long frames: the radius is
      the one RadiusAfter predicts, and it stays within one step of its bounds. */
  method RunFrames(controller: AutoRotatingCameraController, dt: real, frames: seq<set<Key>>)
    requires controller.camera.Valid()
    requires controller.currentRadius == controller.settings.RadiusBase
    requires controller.settings.RadiusMaxDelta >= 0.0
    requires dt * controller.settings.RadiusChangeFactor > 0.0
    modifies controller`currentAngle, controller`currentRadius
    modifies controller.camera`lookAtSettings, controller.camera`lookAtMatrix
    ensures controller.camera.Valid()
    ensures controller.currentRadius == RadiusAfter(controller.settings, controller.settings.RadiusBase, dt, frames)
    ensures WithinOneStep(controller.settings, dt * controller.settings.RadiusChangeFactor, controller.currentRadius)
  {
    var s := controller.settings;
    BaseRadiusWithinOneStep(s, dt * s.RadiusChangeFactor);
    var i := 0;
    while i < |frames|
      invariant 0 <= i <= |frames|
      invariant controller.camera.Valid()
      invariant WithinOneStep(s, dt * s.RadiusChangeFactor, controller.currentRadius)
      invariant RadiusAfter(s, s.RadiusBase, dt, frames) == RadiusAfter(s, controller.currentRadius, dt, frames[i..])
    {
      NextRadiusWithinOneStep(s, controller.currentRadius, dt, Key.Down in frames[i], Key.Up in frames[i]);
      assert frames[i..][1..] == frames[i + 1..];
      controller.Update(dt, frames[i]);
      i := i + 1;
    }
    assert frames[i..] == [];
  }
}
