/** A camera: look-at settings and a projection, with the two matrices built
    from them cached lazily and independently of each other. */
module Cameras {
  import opened Wrappers
  import opened Geometry
  import opened Projections

  datatype LookAtSettings = LookAtSettings(EyePosition: Vec3, Target: Vec3, EyeUpWorld: Vec3)

  /** The view matrix is glm::lookAt of the eye, the target and the world up vector,
      in that order. */
  function CreateMatrixFromLookAtSettings(settings: LookAtSettings): (m: Mat4)
    ensures m.LookAt?
  {
    LookAt(settings.EyePosition, settings.Target, settings.EyeUpWorld)
  }

  class Camera {
    var lookAtSettings: LookAtSettings
    var projection: Projection
    // The two caches are `mutable` in the source: the const matrix getters fill them.
    var lookAtMatrix: Option<Mat4>
    var projectionMatrix: Option<Mat4>

    /** A present cache always holds the matrix of the current settings. */
    ghost predicate Valid()
      reads this
    {
      && (lookAtMatrix.Some? ==> lookAtMatrix.value == CreateMatrixFromLookAtSettings(lookAtSettings))
      && (projectionMatrix.Some? ==> projectionMatrix.value == CreateMatrixFromProjection(projection))
    }

    constructor (settings: LookAtSettings, proj: Projection)
      ensures Valid()
      ensures lookAtSettings == settings && projection == proj
      ensures lookAtMatrix == None && projectionMatrix == None
    {
      lookAtSettings := settings;
      projection := proj;
      lookAtMatrix := None;
      projectionMatrix := None;
    }

    /** The const accessor: a function, so it changes nothing. */
    function GetLookAtSettings(): LookAtSettings
      reads this
    {
      lookAtSettings
    }

    /** The const accessor: a function, so it changes nothing. */
    function GetProjection(): Projection
      reads this
    {
      projection
    }

    /** The non-const accessor: handing out a mutable reference drops the view
        matrix cache, whether or not the caller then writes through it. */
    method MutableLookAtSettings() returns (settings: LookAtSettings)
      requires Valid()
      modifies this`lookAtMatrix
      ensures Valid()
      ensures settings == lookAtSettings
      ensures lookAtMatrix == None
    {
      lookAtMatrix := None;
      settings := lookAtSettings;
    }

    /** The non-const accessor: drops the projection matrix cache only. */
    method MutableProjection() returns (proj: Projection)
      requires Valid()
      modifies this`projectionMatrix
      ensures Valid()
      ensures proj == projection
      ensures projectionMatrix == None
    {
      projectionMatrix := None;
      proj := projection;
    }

    /** `GetLookAtSettings() = settings`: the mutable accessor followed by a write
        through the reference it returns. */
    method SetLookAtSettings(settings: LookAtSettings)
      requires Valid()
      modifies this`lookAtMatrix, this`lookAtSettings
      ensures Valid()
      ensures lookAtSettings == settings
      ensures lookAtMatrix == None
    {
      var _ := MutableLookAtSettings();
      lookAtSettings := settings;
    }

    /** `GetProjection() = proj`. */
    method SetProjection(proj: Projection)
      requires Valid()
      modifies this`projectionMatrix, this`projection
      ensures Valid()
      ensures projection == proj
      ensures projectionMatrix == None
    {
      var _ := MutableProjection();
      projection := proj;
    }

    /** Returns the view matrix of the current settings, building and caching it
        only when the cache is empty. */
    method GetLookAtMatrix() returns (m: Mat4)
      requires Valid()
      modifies this`lookAtMatrix
      ensures Valid()
      ensures m == CreateMatrixFromLookAtSettings(lookAtSettings)
      ensures lookAtMatrix == Some(m)
      ensures old(lookAtMatrix).Some? ==> lookAtMatrix == old(lookAtMatrix)
    {
      if lookAtMatrix.None? {
        lookAtMatrix := Some(CreateMatrixFromLookAtSettings(lookAtSettings));
      }
      m := lookAtMatrix.value;
    }

    /** Returns the projection matrix of the current projection, building and
        caching it only when the cache is empty. */
    method GetProjectionMatrix() returns (m: Mat4)
      requires Valid()
      modifies this`projectionMatrix
      ensures Valid()
      ensures m == CreateMatrixFromProjection(projection)
      ensures projectionMatrix == Some(m)
      ensures old(projectionMatrix).Some? ==> projectionMatrix == old(projectionMatrix)
    {
      if projectionMatrix.None? {
        projectionMatrix := Some(CreateMatrixFromProjection(projection));
      }
      m := projectionMatrix.value;
    }
  }

  /** Whatever sequence of look-at updates a camera goes through, each with a
      matrix read in between, the matrix read after the last update is that of
      the last settings, never a stale one; the projection side is untouched. */
  method ReadAfterUpdates(camera: Camera, updates: seq<LookAtSettings>) returns (m: Mat4)
    requires camera.Valid()
    requires |updates| > 0
    modifies camera`lookAtSettings, camera`lookAtMatrix
    ensures camera.Valid()
    ensures m == CreateMatrixFromLookAtSettings(updates[|updates| - 1])
    ensures camera.lookAtSettings == updates[|updates| - 1]
  {
    var i := 0;
    m := camera.GetLookAtMatrix();
    while i < |updates|
      invariant 0 <= i <= |updates|
      invariant camera.Valid()
      invariant m == CreateMatrixFromLookAtSettings(camera.lookAtSettings)
      invariant i > 0 ==> camera.lookAtSettings == updates[i - 1]
    {
      camera.SetLookAtSettings(updates[i]);
      m := camera.GetLookAtMatrix();
      i := i + 1;
    }
  }

  /** Reading a matrix twice gives the same matrix, and changing the look-at
      settings in between does not change the projection matrix; symmetrically
      for a projection change and the view matrix. */
  method CachesAreIndependent(camera: Camera, settings: LookAtSettings, proj: Projection)
    returns (projBefore: Mat4, projAfter: Mat4, viewBefore: Mat4, viewAfter: Mat4)
    requires camera.Valid()
    modifies camera
    ensures camera.Valid()
    ensures projBefore == projAfter
    ensures viewBefore == viewAfter == CreateMatrixFromLookAtSettings(settings)
    ensures camera.lookAtSettings == settings && camera.projection == proj
  {
    projBefore := camera.GetProjectionMatrix();
    var again := camera.GetProjectionMatrix();
    assert again == projBefore;
    camera.SetLookAtSettings(settings);
    projAfter := camera.GetProjectionMatrix();
    viewBefore := camera.GetLookAtMatrix();
    camera.SetProjection(proj);
    viewAfter := camera.GetLookAtMatrix();
  }
}
