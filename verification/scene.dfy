/**
 * Scene actors (the simulation side) and scene proxies (the render side), as
 * declared in MTRenderer.h and implemented at the top of MTRenderer.cpp.
 *
 * Single-precision floats are kept as their IEEE 754 bit pattern and never
 * computed with; matrices are symbolic terms that record how DirectXMath
 * would build them. What the model tracks is which actor state feeds which
 * proxy field, not the numbers.
 */
module Scene {

  /** A `float`, as its 32-bit IEEE 754 encoding. */
  type Float32 = bv32

  /** A `UINT`. */
  type Uint32 = x: int | 0 <= x < 0x1_0000_0000

  const F_ZERO: Float32 := 0x0000_0000        // 0.0f
  const F_ONE: Float32 := 0x3F80_0000         // 1.0f
  const F_HALF: Float32 := 0x3F00_0000        // 0.5f
  const F_MINUS_FIVE: Float32 := 0xC0A0_0000  // -5.0f
  const F_NINETY: Float32 := 0x42B4_0000      // 90.0f
  const NEAR_Z: Float32 := 0x3C23_D70A        // 0.01f, the near plane of the projection
  const FAR_Z: Float32 := 0x447A_0000         // 1000.0f, the far plane of the projection

  /** An `XMVECTOR`. */
  datatype Vec4 = Vec4(x: Float32, y: Float32, z: Float32, w: Float32)

  const ZERO_VEC := Vec4(F_ZERO, F_ZERO, F_ZERO, F_ZERO)

  /** `SceneActorType`: exactly two kinds. */
  datatype ActorKind = Camera | Triangle

  /** An `XMMATRIX`, as the DirectXMath expression that produced it. */
  datatype Mat4 =
    | Indeterminate                      // storage that was never written
    | Scaling(factors: Vec4)             // XMMatrixScalingFromVector
    | RotationRollPitchYawDeg(deg: Vec4) // XMMatrixRotationRollPitchYawFromVector of deg * pi / 180
    | Translation(offset: Vec4)          // XMMatrixTranslationFromVector
    | Multiply(left: Mat4, right: Mat4)  // XMMatrixMultiply
    | Transpose(inner: Mat4)             // XMMatrixTranspose
    | LookAtLH(eye: Vec4, at: Vec4, up: Vec4)
      /** XMMatrixPerspectiveFovLH with the field of view given in degrees and
          the aspect ratio width / height */
    | PerspectiveFovLH(fovDeg: Float32, width: Uint32, height: Uint32, nearZ: Float32, farZ: Float32)

  /** `D3D12_VIEWPORT`; the width and height are the screen size before its
      conversion to float. */
  datatype Viewport =
    | ViewportIndeterminate
    | Viewport(topLeftX: Float32, topLeftY: Float32, width: Uint32, height: Uint32,
               minDepth: Float32, maxDepth: Float32)

  /** `D3D12_RECT`, whose fields are `LONG`. */
  datatype Rect =
    | RectIndeterminate
    | Rect(left: int, top: int, right: int, bottom: int)

  /** The fields of a scene actor: the `SceneActor` base part, then the
      `TriangleSceneActor` part, then the `CameraSceneActor` part. An actor of
      one kind leaves the other kind's part at zero and never reads it. */
  datatype ActorState = ActorState(
    translation: Vec4, rotation: Vec4, scale: Vec4,
    rotSpeed: Float32, scaleSpeed: Float32, rotAngle: Float32, scaleAngle: Float32,
    screenWidth: Uint32, screenHeight: Uint32, fovInDeg: Float32,
    cameraEye: Vec4, cameraAt: Vec4, cameraUp: Vec4)

  /** The single-precision results of one `Update(delta)`: for a triangle the
      wrapped rotation and scale angles and the scale factor `sinf(scaleAngle)
      + 1.5f`; for a camera the rotated forward point `cameraAt` and the
      rotated up vector. An actor reads only the part of its own kind. */
  datatype Animation = Animation(
    rotAngle: Float32, scaleAngle: Float32, scaleFactor: Float32,
    cameraAt: Vec4, cameraUp: Vec4)

  /** The float math of `TriangleSceneActor::Update` and
      `CameraSceneActor::Update`, supplied by the caller. */
  type ActorUpdate = (ActorKind, ActorState, Float32) -> Animation

  /** One `Update(delta)` of an actor of kind `kind`: a triangle takes its
      two angles and its scale factor from the float math, a camera its
      forward point and up vector, and its eye is its translation. */
  function Step(advance: ActorUpdate, kind: ActorKind, s: ActorState, delta: Float32): (r: ActorState)
    ensures kind == Triangle ==> r.rotation.z == r.rotAngle
    ensures kind == Camera ==> r.cameraEye == s.translation
  {
    var a := advance(kind, s, delta);
    match kind
    case Triangle =>
      s.(rotAngle := a.rotAngle, rotation := s.rotation.(z := a.rotAngle),
         scaleAngle := a.scaleAngle, scale := Vec4(a.scaleFactor, a.scaleFactor, a.scaleFactor, F_ZERO))
    case Camera =>
      s.(cameraEye := s.translation, cameraAt := a.cameraAt, cameraUp := a.cameraUp)
  }

  /** What one update writes. A triangle writes its two angles, the z
      component of `rotation` (set to the rotation angle) and a uniform
      `scale`; a camera puts its eye at its translation and changes only its
      eye, forward point and up vector. Neither writes the translation, the
      speeds, the screen size or the field of view. */
  lemma StepWrites(advance: ActorUpdate, kind: ActorKind, s: ActorState, delta: Float32)
    ensures var r := Step(advance, kind, s, delta);
      && r.translation == s.translation
      && r.rotSpeed == s.rotSpeed && r.scaleSpeed == s.scaleSpeed
      && r.screenWidth == s.screenWidth && r.screenHeight == s.screenHeight && r.fovInDeg == s.fovInDeg
    ensures var r := Step(advance, kind, s, delta);
      kind == Triangle ==>
        && r.rotation == s.rotation.(z := r.rotAngle)
        && r.scale.x == r.scale.y == r.scale.z && r.scale.w == F_ZERO
        && r.cameraEye == s.cameraEye && r.cameraAt == s.cameraAt && r.cameraUp == s.cameraUp
    ensures var r := Step(advance, kind, s, delta);
      kind == Camera ==>
        && r.cameraEye == s.translation
        && r.rotation == s.rotation && r.scale == s.scale
        && r.rotAngle == s.rotAngle && r.scaleAngle == s.scaleAngle
  {
    var a := advance(kind, s, delta);
    match kind
    case Triangle =>
      assert Step(advance, kind, s, delta) == s.(rotAngle := a.rotAngle, rotation := s.rotation.(z := a.rotAngle),
         scaleAngle := a.scaleAngle, scale := Vec4(a.scaleFactor, a.scaleFactor, a.scaleFactor, F_ZERO));
    case Camera =>
      assert Step(advance, kind, s, delta) == s.(cameraEye := s.translation, cameraAt := a.cameraAt, cameraUp := a.cameraUp);
  }

  /** The state reached from `s` in `n` updates with the same delta. */
  function Advanced(advance: ActorUpdate, kind: ActorKind, s: ActorState, delta: Float32, n: nat): ActorState
    decreases n
  {
    if n == 0 then s else Step(advance, kind, Advanced(advance, kind, s, delta, n - 1), delta)
  }

  /** However many updates run, the translation, the speeds set through
      `SetRotSpeed`/`SetScaleSpeed` and the screen size and field of view set
      by `CameraSceneActor::Init` keep their values. */
  lemma {:induction false} AdvancedKeepsSettings(advance: ActorUpdate, kind: ActorKind, s: ActorState, delta: Float32, n: nat)
    ensures var r := Advanced(advance, kind, s, delta, n);
      && r.translation == s.translation
      && r.rotSpeed == s.rotSpeed && r.scaleSpeed == s.scaleSpeed
      && r.screenWidth == s.screenWidth && r.screenHeight == s.screenHeight && r.fovInDeg == s.fovInDeg
    decreases n
  {
    if n > 0 {
      AdvancedKeepsSettings(advance, kind, s, delta, n - 1);
      StepWrites(advance, kind, Advanced(advance, kind, s, delta, n - 1), delta);
    }
  }

  /** The implicit `UINT`-to-`LONG` conversion of a screen size stored into a
      `D3D12_RECT` field: sizes from 2^31 up wrap to negative values. */
  function ToLong(x: Uint32): (r: int)
    ensures -0x8000_0000 <= r < 0x8000_0000
    ensures (r - x) % 0x1_0000_0000 == 0
    ensures x < 0x8000_0000 ==> r == x
  {
    if x < 0x8000_0000 then x else x - 0x1_0000_0000
  }

  /** What a scene proxy holds after a commit: `CameraSceneProxy`'s fields or
      `TriangleSceneProxy`'s field. */
  datatype ProxyState =
    | CameraProxy(viewport: Viewport, scissorRect: Rect, viewMtx: Mat4, projMtx: Mat4)
    | TriangleProxy(worldMtx: Mat4)
  {
    function Kind(): ActorKind {
      if CameraProxy? then Camera else Triangle
    }
  }

  /** `TriangleSceneProxy::Commit`: the world matrix is scale, then rotation
      (degrees), then translation. */
  function WorldMatrixOf(s: ActorState): (m: Mat4)
    ensures m.Multiply? && m.right == Translation(s.translation)
    ensures m.left == Multiply(Scaling(s.scale), RotationRollPitchYawDeg(s.rotation))
  {
    Multiply(Multiply(Scaling(s.scale), RotationRollPitchYawDeg(s.rotation)), Translation(s.translation))
  }

  /** `CameraSceneProxy::Commit`: viewport and scissor cover the screen from
      the origin, both matrices are stored transposed. */
  function CameraCommitOf(s: ActorState): (p: ProxyState)
    ensures p.CameraProxy?
    ensures p.viewport == Viewport(F_ZERO, F_ZERO, s.screenWidth, s.screenHeight, F_ZERO, F_ONE)
    ensures p.scissorRect == Rect(0, 0, ToLong(s.screenWidth), ToLong(s.screenHeight))
    ensures p.viewMtx.Transpose? && p.projMtx.Transpose?
    ensures p.viewMtx.inner == LookAtLH(s.cameraEye, s.cameraAt, s.cameraUp)
    ensures p.projMtx.inner == PerspectiveFovLH(s.fovInDeg, s.screenWidth, s.screenHeight, NEAR_Z, FAR_Z)
  {
    CameraProxy(
      Viewport(F_ZERO, F_ZERO, s.screenWidth, s.screenHeight, F_ZERO, F_ONE),
      Rect(0, 0, ToLong(s.screenWidth), ToLong(s.screenHeight)),
      Transpose(LookAtLH(s.cameraEye, s.cameraAt, s.cameraUp)),
      Transpose(PerspectiveFovLH(s.fovInDeg, s.screenWidth, s.screenHeight, NEAR_Z, FAR_Z)))
  }

  /** `SceneProxy::Commit` dispatched on the proxy's kind. */
  function CommitOf(kind: ActorKind, s: ActorState): (p: ProxyState)
    ensures p.Kind() == kind
    ensures kind == Triangle ==> p == TriangleProxy(WorldMatrixOf(s))
    ensures kind == Camera ==> p == CameraCommitOf(s)
  {
    match kind
    case Camera => CameraCommitOf(s)
    case Triangle => TriangleProxy(WorldMatrixOf(s))
  }

  /** `SceneActor`, `TriangleSceneActor` and `CameraSceneActor`. */
  class SceneActor {
    /** `SceneActor::type`: set by the constructor and never assigned again. */
    const kind: ActorKind
    var state: ActorState

    /** `TriangleSceneActor()`. */
    constructor TriangleActor()
      ensures kind == Triangle
      ensures state.translation == Vec4(F_ZERO, F_ZERO, F_ZERO, F_ONE)
      ensures state.rotation == ZERO_VEC && state.scale == Vec4(F_ONE, F_ONE, F_ONE, F_ZERO)
      ensures state.rotSpeed == F_ONE && state.scaleSpeed == F_ONE
      ensures state.rotAngle == F_ZERO && state.scaleAngle == F_ZERO
    {
      kind := Triangle;
      state := ActorState(
        Vec4(F_ZERO, F_ZERO, F_ZERO, F_ONE), ZERO_VEC, Vec4(F_ONE, F_ONE, F_ONE, F_ZERO),
        F_ONE, F_ONE, F_ZERO, F_ZERO,
        0, 0, F_ZERO, ZERO_VEC, ZERO_VEC, ZERO_VEC);
    }

    /** `CameraSceneActor()`. */
    constructor CameraActor()
      ensures kind == Camera
      ensures state.translation == Vec4(F_ZERO, F_ZERO, F_MINUS_FIVE, F_ONE)
      ensures state.rotation == ZERO_VEC && state.scale == Vec4(F_ONE, F_ONE, F_ONE, F_ZERO)
      ensures state.screenWidth == 0 && state.screenHeight == 0 && state.fovInDeg == F_ZERO
      ensures state.cameraEye == ZERO_VEC
      ensures state.cameraAt == Vec4(F_ZERO, F_ZERO, F_ONE, F_ZERO)
      ensures state.cameraUp == Vec4(F_ZERO, F_ONE, F_ZERO, F_ZERO)
    {
      kind := Camera;
      state := ActorState(
        Vec4(F_ZERO, F_ZERO, F_MINUS_FIVE, F_ONE), ZERO_VEC, Vec4(F_ONE, F_ONE, F_ONE, F_ZERO),
        F_ZERO, F_ZERO, F_ZERO, F_ZERO,
        0, 0, F_ZERO, ZERO_VEC, Vec4(F_ZERO, F_ZERO, F_ONE, F_ZERO), Vec4(F_ZERO, F_ONE, F_ZERO, F_ZERO));
    }

    /** `TriangleSceneActor::GetRotSpeed`. */
    function GetRotSpeed(): (speed: Float32)
      requires kind == Triangle
      reads this
      ensures speed == state.rotSpeed
    {
      state.rotSpeed
    }

    /** `TriangleSceneActor::SetRotSpeed`. */
    method SetRotSpeed(newSpeed: Float32)
      requires kind == Triangle
      modifies this
      ensures GetRotSpeed() == newSpeed
      ensures state == old(state).(rotSpeed := newSpeed)
    {
      state := state.(rotSpeed := newSpeed);
    }

    /** `TriangleSceneActor::GetScaleSpeed`. */
    function GetScaleSpeed(): (speed: Float32)
      requires kind == Triangle
      reads this
      ensures speed == state.scaleSpeed
    {
      state.scaleSpeed
    }

    /** `TriangleSceneActor::SetScaleSpeed`. */
    method SetScaleSpeed(newSpeed: Float32)
      requires kind == Triangle
      modifies this
      ensures GetScaleSpeed() == newSpeed
      ensures state == old(state).(scaleSpeed := newSpeed)
    {
      state := state.(scaleSpeed := newSpeed);
    }

    /** `CameraSceneActor::Init`: records the screen size and field of view;
        it always reports success. */
    method Init(width: Uint32, height: Uint32, degFov: Float32) returns (ok: bool)
      requires kind == Camera
      modifies this
      ensures ok
      ensures state == old(state).(screenWidth := width, screenHeight := height, fovInDeg := degFov)
    {
      state := state.(screenWidth := width, screenHeight := height, fovInDeg := degFov);
      ok := true;
    }

    /** `SceneActor::Update(delta)`, with the float math as `advance`. */
    method Update(delta: Float32, advance: ActorUpdate)
      modifies this
      ensures state == Step(advance, kind, old(state), delta)
    {
      state := Step(advance, kind, state, delta);
    }
  }

  /** `SceneProxy`, `TriangleSceneProxy` and `CameraSceneProxy`. */
  class SceneProxy {
    /** `SceneProxy::type`: private, set by the constructor, no setter. */
    const kind: ActorKind
    var worldMtx: Mat4
    var viewport: Viewport
    var scissorRect: Rect
    var viewMtx: Mat4
    var projMtx: Mat4

    /** `new CameraSceneProxy` / `new TriangleSceneProxy`: the kind is fixed,
        the data is left unwritten until the first commit. */
    constructor (inKind: ActorKind)
      ensures kind == inKind
      ensures worldMtx == Indeterminate && viewMtx == Indeterminate && projMtx == Indeterminate
      ensures viewport == ViewportIndeterminate && scissorRect == RectIndeterminate
    {
      kind := inKind;
      worldMtx, viewMtx, projMtx := Indeterminate, Indeterminate, Indeterminate;
      viewport, scissorRect := ViewportIndeterminate, RectIndeterminate;
    }

    /** The data of this proxy's own kind. */
    function Snapshot(): (s: ProxyState)
      reads this
      ensures s.Kind() == kind
    {
      match kind
      case Camera => CameraProxy(viewport, scissorRect, viewMtx, projMtx)
      case Triangle => TriangleProxy(worldMtx)
    }

    /** `TriangleSceneProxy::GetWorldMatrix(dst)` with `dst` pointing at entry
        `slot` of an array: that entry receives the world matrix, no other
        entry changes. */
    method GetWorldMatrix(dst: array<Mat4>, slot: nat)
      requires kind == Triangle && slot < dst.Length
      modifies dst
      ensures dst[slot] == worldMtx
      ensures forall k :: 0 <= k < dst.Length && k != slot ==> dst[k] == old(dst[k])
    {
      dst[slot] := worldMtx;
    }

    /** `SceneProxy::GetActorType`: the kind the proxy's data is laid out for. */
    function GetActorType(): (k: ActorKind)
      reads this
      ensures k == Snapshot().Kind()
    {
      kind
    }

    /** `SceneProxy::Commit(actor)`; the source casts the actor to the class of
        the proxy's own kind without checking. */
    method Commit(actor: SceneActor)
      requires actor.kind == kind
      modifies this
      ensures Snapshot() == CommitOf(kind, actor.state)
    {
      match kind
      case Camera =>
        var p := CameraCommitOf(actor.state);
        viewport, scissorRect, viewMtx, projMtx := p.viewport, p.scissorRect, p.viewMtx, p.projMtx;
      case Triangle =>
        worldMtx := WorldMatrixOf(actor.state);
    }
  }

  /** The data held by a list of live proxies, in list order. */
  function Snapshots(ps: seq<SceneProxy?>): (ss: seq<ProxyState>)
    requires forall i :: 0 <= i < |ps| ==> ps[i] != null
    reads ps
    ensures |ss| == |ps|
    ensures forall i :: 0 <= i < |ps| ==> ss[i] == ps[i].Snapshot()
    decreases |ps|
  {
    if ps == [] then []
    else
      var init := ps[..|ps| - 1];
      assert forall i :: 0 <= i < |init| ==> init[i] == ps[i];
      Snapshots(init) + [ps[|ps| - 1].Snapshot()]
  }
}
