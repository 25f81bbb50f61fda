/**
 * `crates/cgdraw_app/src/lib.rs`: the application's camera registry, the
 * checks `run` makes before entering the event loop, and the fresh render
 * state each redraw starts from.
 *
 * The builder methods take `self` by value and hand it back; that is an
 * in-place update of the one owner, modelled as methods on a class.
 */
module Application {
  import opened Base
  import opened Matrices
  import R = Render
  import L = LegacyGraphics

  /** `CameraInitialAttributes`: position, vertical and horizontal rotation in degrees. */
  datatype CameraInitialAttributes = CameraInitialAttributes(position: Vec3, vRotation: real, hRotation: real)

  /** A camera as `add_camera` builds it: its id and the attributes it was built from. */
  datatype Camera = Camera(uniqueId: string, attributes: CameraInitialAttributes)

  /** The projection given to `camera_projection`, kept as its parameters. */
  datatype Projection = Projection(fovy: real, znear: real, zfar: real)

  /** The GPU state `run` creates; the model keeps only the camera it is created with. */
  datatype DeviceState = DeviceState(camera: Camera)

  /** The panics of the registry and of `run`. */
  datatype AppPanic = InitialCameraAlreadySet | CameraNotFound | NoCameras | NoInitialCamera

  /** The registry as a value. */
  datatype Registry = Registry(cameras: seq<Camera>, currentCamera: Option<Camera>, cameraProjection: Option<Projection>)

  /** `cameras.iter().find(|c| c.unique_id == id)`: the position of the first camera with that id. */
  function FindCamera(cameras: seq<Camera>, id: string): (r: Option<nat>)
    ensures r.Some? ==> r.value < |cameras| && cameras[r.value].uniqueId == id
    ensures r.Some? ==> forall j :: 0 <= j < r.value ==> cameras[j].uniqueId != id
    ensures r.None? <==> forall j :: 0 <= j < |cameras| ==> cameras[j].uniqueId != id
  {
    if cameras == [] then None
    else if cameras[0].uniqueId == id then Some(0)
    else
      match FindCamera(cameras[1..], id)
      case None => None
      case Some(i) => Some(i + 1)
  }

  /** Adding a camera never changes which camera an id already found selects. */
  lemma FirstMatchIsStable(cameras: seq<Camera>, c: Camera, id: string)
    requires FindCamera(cameras, id).Some?
    ensures FindCamera(cameras + [c], id) == FindCamera(cameras, id)
  {
    var i := FindCamera(cameras, id).value;
    var r := FindCamera(cameras + [c], id);
    assert (cameras + [c])[i] == cameras[i];
    assert forall j :: 0 <= j < i ==> (cameras + [c])[j] == cameras[j];
  }

  /** `App::default`: no cameras, no current camera, no projection. */
  function DefaultRegistry(): (s: Registry)
    ensures s.cameras == [] && s.currentCamera.None? && s.cameraProjection.None?
  {
    Registry([], None, None)
  }

  /** `add_camera`. */
  function AppendCamera(s: Registry, id: string, attributes: CameraInitialAttributes): (r: Registry)
    ensures r.cameras == s.cameras + [Camera(id, attributes)]
    ensures r.currentCamera == s.currentCamera && r.cameraProjection == s.cameraProjection
  {
    s.(cameras := s.cameras + [Camera(id, attributes)])
  }

  /**
   * `initial_camera`: panics when a camera is already chosen (checked first),
   * or when no camera has the id; otherwise chooses the first camera with it.
   */
  function SelectInitialCamera(s: Registry, id: string): (r: Result<Registry, AppPanic>)
    ensures r.Ok? <==> s.currentCamera.None? && FindCamera(s.cameras, id).Some?
    ensures r == Err(InitialCameraAlreadySet) <==> s.currentCamera.Some?
    ensures r == Err(CameraNotFound) <==> s.currentCamera.None? && FindCamera(s.cameras, id).None?
    ensures s.currentCamera.Some? ==> r == Err(InitialCameraAlreadySet)
    ensures (s.currentCamera.None? && forall j :: 0 <= j < |s.cameras| ==> s.cameras[j].uniqueId != id)
            ==> r == Err(CameraNotFound)
    ensures r.Ok? ==> exists i :: 0 <= i < |s.cameras| && r.value == s.(currentCamera := Some(s.cameras[i]))
                                  && s.cameras[i].uniqueId == id
                                  && forall j :: 0 <= j < i ==> s.cameras[j].uniqueId != id
  {
    if s.currentCamera.Some? then Err(InitialCameraAlreadySet)
    else
      match FindCamera(s.cameras, id)
      case None => Err(CameraNotFound)
      case Some(i) => Ok(s.(currentCamera := Some(s.cameras[i])))
  }

  /** `camera_projection`: replaces any earlier projection. */
  function SetProjection(s: Registry, p: Projection): (r: Registry)
    ensures r.cameraProjection == Some(p)
    ensures r.cameras == s.cameras && r.currentCamera == s.currentCamera
  {
    s.(cameraProjection := Some(p))
  }

  /** The checks at the start of `run`: no cameras first, then no initial camera. */
  function RunCheck(s: Registry): (r: Option<AppPanic>)
    ensures r.None? <==> s.cameras != [] && s.currentCamera.Some?
    ensures s.cameras == [] ==> r == Some(NoCameras)
    ensures s.cameras != [] && s.currentCamera.None? ==> r == Some(NoInitialCamera)
  {
    if s.cameras == [] then Some(NoCameras)
    else if s.currentCamera.None? then Some(NoInitialCamera)
    else None
  }

  /**
   * The builder chain of the examples passes the checks of `run`:
   * `default().add_camera(id, a).initial_camera(id).camera_projection(p)`
   * chooses the camera just added.
   */
  lemma BuilderChainRuns(id: string, a: CameraInitialAttributes, p: Projection)
    ensures SelectInitialCamera(AppendCamera(DefaultRegistry(), id, a), id).Ok?
    ensures var s := SetProjection(SelectInitialCamera(AppendCamera(DefaultRegistry(), id, a), id).value, p);
            RunCheck(s).None? && s.currentCamera == Some(Camera(id, a))
  {
    assert FindCamera([Camera(id, a)], id) == Some(0);
  }

  /** A second `initial_camera` always panics, whatever the id. */
  lemma InitialCameraOnce(s: Registry, first: string, second: string)
    requires SelectInitialCamera(s, first).Ok?
    ensures SelectInitialCamera(SelectInitialCamera(s, first).value, second) == Err(InitialCameraAlreadySet)
  {
  }

  /** The application: the registry, and the GPU state once `run` has started. */
  class App {
    var cameras: seq<Camera>
    var currentCamera: Option<Camera>
    var cameraProjection: Option<Projection>
    var state: Option<DeviceState>

    function Snapshot(): Registry
      reads this
    {
      Registry(cameras, currentCamera, cameraProjection)
    }

    /** `App::default`. */
    constructor ()
      ensures Snapshot() == DefaultRegistry() && state.None?
    {
      cameras := [];
      currentCamera := None;
      cameraProjection := None;
      state := None;
    }

    /** `add_camera`: one more camera, with the given id, after the earlier ones. */
    method AddCamera(id: string, attributes: CameraInitialAttributes)
      modifies this
      ensures cameras == old(cameras) + [Camera(id, attributes)]
      ensures currentCamera == old(currentCamera) && cameraProjection == old(cameraProjection)
      ensures state == old(state)
      ensures Snapshot() == AppendCamera(old(Snapshot()), id, attributes)
    {
      cameras := cameras + [Camera(id, attributes)];
    }

    /** `initial_camera`: chooses the first camera with the id; the two panics are excluded. */
    method InitialCamera(id: string)
      requires currentCamera.None? && FindCamera(cameras, id).Some?
      modifies this
      ensures cameras == old(cameras) && cameraProjection == old(cameraProjection) && state == old(state)
      ensures currentCamera == Some(old(cameras)[FindCamera(old(cameras), id).value])
      ensures Snapshot() == SelectInitialCamera(old(Snapshot()), id).value
    {
      var i := FindCamera(cameras, id).value;
      currentCamera := Some(cameras[i]);
    }

    /** `camera_projection`: replaces the projection and nothing else. */
    method CameraProjection(p: Projection)
      modifies this
      ensures cameraProjection == Some(p)
      ensures cameras == old(cameras) && currentCamera == old(currentCamera) && state == old(state)
      ensures Snapshot() == SetProjection(old(Snapshot()), p)
    {
      cameraProjection := Some(p);
    }

    /** The start of `run`: the checks pass, and the GPU state is created with the chosen camera. */
    method Start()
      requires RunCheck(Snapshot()).None?
      modifies this
      ensures Snapshot() == old(Snapshot())
      ensures state == Some(DeviceState(old(currentCamera).value))
    {
      state := Some(DeviceState(currentCamera.value));
    }

    /**
     * The `Redraw` event: once the GPU state exists, a fresh, empty render
     * state and a new `Graphics` over it for the draw callback; no batch of an
     * earlier frame can reach it.
     */
    method Redraw() returns (g: L.Graphics?)
      ensures state.None? <==> g == null
      ensures g != null ==> fresh(g) && fresh(g.renderState) && g.Snapshot() == L.NewFrame([])
    {
      if state.Some? {
        var renderState := new R.RenderState<L.VertexBufferState>();
        g := new L.Graphics(renderState);
      } else {
        g := null;
      }
    }
  }
}
