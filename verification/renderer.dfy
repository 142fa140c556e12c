/**
 * `MTRenderer`: the actor and proxy lists, the global flag word, the ring of
 * frame slots and the per-frame instance packing, with every GPU, window and
 * thread call replaced by its effect on this state.
 */
module Renderer {
  import opened Wrappers
  import opened Scene
  import opened Flags
  import opened Frames
  import opened Packing

  const DEFAULT_CANVAS_WIDTH: Uint32 := 1280
  const DEFAULT_CANVAS_HEIGHT: Uint32 := 720

  class MTRenderer {
    var canvasWidth: Uint32
    var canvasHeight: Uint32
    /** `UINT flags`: the `GlobalFlag` bits. */
    var flags: bv32
    var backBufferIndex: nat
    var backBufferCount: nat
    /** Whether `fenceEvent` holds an open event handle. */
    var fenceEventOpen: bool
    /** `frameDataArray[MAX_FRAME_COUNT]`. */
    const frameDataArray: array<FrameData>
    /** `frameDataArray[k].d3dConstantBuffer`, as mapped by `Render`. */
    const constantBuffers: seq<SceneConstantBuffer>
    /** `d3dCommandQueue`, as the log of what was enqueued on it. */
    var commandQueue: seq<QueueOp>
    const defaultCameraActor: SceneActor
    const defaultTriangleActor: SceneActor
    var sceneActors: seq<SceneActor>
    /** `sceneProxies`; `Deinit` deletes the proxies and nulls the slots. */
    var sceneProxies: seq<SceneProxy?>

    /** Proxy `i` was made for actor `i`, so it has that actor's kind, and no
        proxy object sits in two slots. */
    ghost predicate ProxiesMatchActors()
      reads this
    {
      && |sceneProxies| <= |sceneActors|
      && (forall i :: 0 <= i < |sceneProxies| && sceneProxies[i] != null ==>
            sceneProxies[i].kind == sceneActors[i].kind)
      && (forall i, j :: 0 <= i < j < |sceneProxies| && sceneProxies[i] != null ==>
            sceneProxies[i] != sceneProxies[j])
    }

    /** Every slot in use agrees with its fence, and fences are signalled
        with values that never decrease. */
    ghost predicate FencesConsistent()
      reads this, frameDataArray
      requires backBufferCount <= frameDataArray.Length
    {
      && (forall k :: 0 <= k < backBufferCount ==> SlotConsistent(frameDataArray[k], LastSignal(commandQueue, k)))
      && MonotoneSignals(commandQueue)
    }

    ghost predicate Valid()
      reads this, frameDataArray
    {
      && frameDataArray.Length == MAX_FRAME_COUNT
      && |constantBuffers| == MAX_FRAME_COUNT
      && (forall k :: 0 <= k < MAX_FRAME_COUNT ==> constantBuffers[k].worldMatrix.Length == INSTANCE_CAPACITY)
      && (forall j, k :: 0 <= j < k < MAX_FRAME_COUNT ==>
            constantBuffers[j] != constantBuffers[k] && constantBuffers[j].worldMatrix != constantBuffers[k].worldMatrix)
      && defaultCameraActor.kind == Camera && defaultTriangleActor.kind == Triangle
      && backBufferCount <= MAX_FRAME_COUNT
      && (0 < backBufferCount ==> backBufferIndex < backBufferCount)
      && ProxiesMatchActors()
      && FencesConsistent()
    }

    /** `Init` has set up the swap chain and the frame slots. */
    predicate Initialized()
      reads this`backBufferCount
    {
      0 < backBufferCount
    }

    /** No proxy has been deleted yet. */
    predicate ProxiesLive()
      reads this`sceneProxies
    {
      forall i :: 0 <= i < |sceneProxies| ==> sceneProxies[i] != null
    }

    ghost function ActorSet(): set<SceneActor>
      reads this
    {
      set a | a in sceneActors
    }

    ghost function ProxySet(): set<SceneProxy>
      reads this
    {
      set p: SceneProxy | p in sceneProxies
    }

    /** The data of the proxies, in list order. */
    function ProxyStates(): seq<ProxyState>
      requires ProxiesLive()
      reads this`sceneProxies, sceneProxies
    {
      Snapshots(sceneProxies)
    }

    /** `(backBufferIndex + 1) % backBufferCount`: the slot `Render` records into. */
    function NextSlot(): (k: nat)
      requires Initialized()
      reads this`backBufferIndex, this`backBufferCount
      ensures k < backBufferCount
    {
      NextIndex(backBufferIndex, backBufferCount)
    }

    /** `MTRenderer(hInstance, nCmdShow)`, together with the default actors
        and the slots' constant buffers. */
    constructor ()
      ensures Valid() && !Initialized() && ProxiesLive()
      ensures flags == 0 && backBufferIndex == 0 && backBufferCount == 0 && !fenceEventOpen
      ensures canvasWidth == DEFAULT_CANVAS_WIDTH && canvasHeight == DEFAULT_CANVAS_HEIGHT
      ensures forall k :: 0 <= k < MAX_FRAME_COUNT ==> frameDataArray[k] == DEFAULT_FRAME_DATA
      ensures commandQueue == [] && sceneActors == [] && sceneProxies == []
      ensures fresh(frameDataArray) && fresh(defaultCameraActor) && fresh(defaultTriangleActor)
      ensures forall k :: 0 <= k < MAX_FRAME_COUNT ==> fresh(constantBuffers[k]) && fresh(constantBuffers[k].worldMatrix)
      ensures var c := defaultCameraActor.state;
        && c.translation == Vec4(F_ZERO, F_ZERO, F_MINUS_FIVE, F_ONE)
        && c.rotation == ZERO_VEC && c.scale == Vec4(F_ONE, F_ONE, F_ONE, F_ZERO)
        && c.screenWidth == 0 && c.screenHeight == 0 && c.fovInDeg == F_ZERO
        && c.cameraEye == ZERO_VEC
        && c.cameraAt == Vec4(F_ZERO, F_ZERO, F_ONE, F_ZERO)
        && c.cameraUp == Vec4(F_ZERO, F_ONE, F_ZERO, F_ZERO)
      ensures var t := defaultTriangleActor.state;
        && t.translation == Vec4(F_ZERO, F_ZERO, F_ZERO, F_ONE)
        && t.rotation == ZERO_VEC && t.scale == Vec4(F_ONE, F_ONE, F_ONE, F_ZERO)
        && t.rotSpeed == F_ONE && t.scaleSpeed == F_ONE
        && t.rotAngle == F_ZERO && t.scaleAngle == F_ZERO
    {
      canvasWidth, canvasHeight := DEFAULT_CANVAS_WIDTH, DEFAULT_CANVAS_HEIGHT;
      flags := 0;
      backBufferIndex, backBufferCount := 0, 0;
      fenceEventOpen := false;
      frameDataArray := new FrameData[MAX_FRAME_COUNT](_ => DEFAULT_FRAME_DATA);
      var b0 := new SceneConstantBuffer();
      var b1 := new SceneConstantBuffer();
      var b2 := new SceneConstantBuffer();
      constantBuffers := [b0, b1, b2];
      commandQueue := [];
      defaultCameraActor := new SceneActor.CameraActor();
      defaultTriangleActor := new SceneActor.TriangleActor();
      sceneActors, sceneProxies := [], [];
    }

    /** `Init(width, height, inFrameCount, title)` on the path where every
        window and device step succeeds: the canvas and slot count are
        recorded, the swap chain reports its first back-buffer index, every
        slot in use gets fence target 1, and the default camera and triangle
        actors are set up and appended. */
    method Init(width: Uint32, height: Uint32, inFrameCount: nat, initialIndex: nat) returns (ok: bool)
      requires Valid() && !Initialized()
      requires commandQueue == [] && forall k :: 0 <= k < MAX_FRAME_COUNT ==> frameDataArray[k] == DEFAULT_FRAME_DATA
      requires 1 <= inFrameCount <= MAX_FRAME_COUNT
      requires initialIndex < inFrameCount
      modifies this`canvasWidth, this`canvasHeight, this`backBufferCount, this`backBufferIndex, this`fenceEventOpen
      modifies this`sceneActors, frameDataArray, defaultCameraActor, defaultTriangleActor
      ensures ok && Valid() && Initialized()
      ensures canvasWidth == width && canvasHeight == height
      ensures backBufferCount == inFrameCount && backBufferIndex == initialIndex
      ensures forall k :: 0 <= k < inFrameCount ==> frameDataArray[k] == DEFAULT_FRAME_DATA.(fenceValue := 1)
      ensures forall k :: inFrameCount <= k < MAX_FRAME_COUNT ==> frameDataArray[k] == DEFAULT_FRAME_DATA
      ensures fenceEventOpen
      ensures sceneActors == old(sceneActors) + [defaultCameraActor, defaultTriangleActor]
      ensures defaultCameraActor.state == old(defaultCameraActor.state).(screenWidth := width, screenHeight := height, fovInDeg := F_NINETY)
      ensures defaultTriangleActor.state == old(defaultTriangleActor.state).(rotSpeed := F_ONE, scaleSpeed := F_HALF)
    {
      canvasWidth, canvasHeight := width, height;
      backBufferCount := inFrameCount;
      // InitDevices: the swap chain reports the current back buffer.
      backBufferIndex := initialIndex;
      InitFences();
      fenceEventOpen := true;
      assert Valid();
      AddDefaultActors(width, height);
      ok := true;
    }

    /** The fence part of `InitResources`: each slot in use gets a fence at 0
        (nothing signalled) and the target value 1. */
    method InitFences()
      requires frameDataArray.Length == MAX_FRAME_COUNT && backBufferCount <= MAX_FRAME_COUNT
      modifies frameDataArray
      ensures forall k :: 0 <= k < backBufferCount ==> frameDataArray[k] == old(frameDataArray[k]).(fenceValue := 1)
      ensures forall k :: backBufferCount <= k < MAX_FRAME_COUNT ==> frameDataArray[k] == old(frameDataArray[k])
    {
      for i := 0 to backBufferCount
        invariant forall k :: 0 <= k < i ==> frameDataArray[k] == old(frameDataArray[k]).(fenceValue := 1)
        invariant forall k :: i <= k < MAX_FRAME_COUNT ==> frameDataArray[k] == old(frameDataArray[k])
      {
        frameDataArray[i] := frameDataArray[i].(fenceValue := 1);
      }
    }

    /** The end of `Init`: the default camera gets the canvas size and a
        90-degree field of view, the default triangle its speeds, and both are
        appended to the actor list. */
    method AddDefaultActors(width: Uint32, height: Uint32)
      requires Valid()
      modifies this`sceneActors, defaultCameraActor, defaultTriangleActor
      ensures Valid()
      ensures sceneActors == old(sceneActors) + [defaultCameraActor, defaultTriangleActor]
      ensures defaultCameraActor.state == old(defaultCameraActor.state).(screenWidth := width, screenHeight := height, fovInDeg := F_NINETY)
      ensures defaultTriangleActor.state == old(defaultTriangleActor.state).(rotSpeed := F_ONE, scaleSpeed := F_HALF)
    {
      var cameraOk := defaultCameraActor.Init(width, height, F_NINETY);
      AddSceneActor(defaultCameraActor);
      defaultTriangleActor.SetRotSpeed(F_ONE);
      defaultTriangleActor.SetScaleSpeed(F_HALF);
      AddSceneActor(defaultTriangleActor);
    }

    /** `Deinit`: raise the terminate flag, close the fence event, then delete
        every proxy and null its slot. */
    method Deinit()
      requires Valid()
      modifies this`flags, this`fenceEventOpen, this`sceneProxies
      ensures Valid()
      ensures flags == WithFlag(old(flags), TerminateRenderer) && IsSet(flags, TerminateRenderer)
      ensures !fenceEventOpen
      ensures |sceneProxies| == old(|sceneProxies|)
      ensures forall i :: 0 <= i < |sceneProxies| ==> sceneProxies[i] == null
    {
      SetFlag(TerminateRenderer);
      // The thread joins happen here.
      fenceEventOpen := false;
      for i := 0 to |sceneProxies|
        invariant Valid()
        invariant flags == WithFlag(old(flags), TerminateRenderer) && !fenceEventOpen
        invariant |sceneProxies| == old(|sceneProxies|)
        invariant forall j :: 0 <= j < i ==> sceneProxies[j] == null
      {
        sceneProxies := sceneProxies[i := null];
      }
    }

    /** `SetFlag`: `flags |= flag`. */
    method SetFlag(flag: GlobalFlag)
      modifies this`flags
      ensures flags == WithFlag(old(flags), flag)
    {
      flags := WithFlag(flags, flag);
    }

    /** `ClearFlag`: `flags &= ~flag`. */
    method ClearFlag(flag: GlobalFlag)
      modifies this`flags
      ensures flags == WithoutFlag(old(flags), flag)
    {
      flags := WithoutFlag(flags, flag);
    }

    /** `TestFlag`: `(flags & flag) != 0`. */
    method TestFlag(flag: GlobalFlag) returns (isSet: bool)
      ensures isSet == IsSet(flags, flag)
    {
      isSet := IsSet(flags, flag);
    }

    /** `AddSceneActor`: a null actor is ignored, any other is appended. */
    method AddSceneActor(actor: SceneActor?)
      requires Valid()
      modifies this`sceneActors
      ensures Valid()
      ensures actor == null ==> sceneActors == old(sceneActors)
      ensures actor != null ==> sceneActors == old(sceneActors) + [actor]
    {
      if actor == null {
        return;
      }
      sceneActors := sceneActors + [actor];
    }

    /** `Update(delta)`: every listed actor is updated once per entry, in list
        order, so an actor listed `n` times advances `n` steps. */
    method Update(delta: Float32, advance: ActorUpdate)
      modifies ActorSet()
      ensures forall a :: a in sceneActors ==>
        a.state == Advanced(advance, a.kind, old(a.state), delta, multiset(sceneActors)[a])
    {
      ghost var initial := map a | a in sceneActors :: a.state;
      for i := 0 to |sceneActors|
        invariant forall a :: a in sceneActors ==>
          a.state == Advanced(advance, a.kind, initial[a], delta, multiset(sceneActors[..i])[a])
      {
        var actor := sceneActors[i];
        assert sceneActors[..i + 1] == sceneActors[..i] + [actor];
        ghost var m := multiset(sceneActors[..i])[actor];
        ghost var next := Advanced(advance, actor.kind, initial[actor], delta, m + 1);
        assert next == Step(advance, actor.kind, actor.state, delta);
        label Before:
        actor.Update(delta, advance);
        assert actor.state == next;
        forall a | a in sceneActors
          ensures a.state == Advanced(advance, a.kind, initial[a], delta, multiset(sceneActors[..i + 1])[a])
        {
          if a == actor {
            assert multiset(sceneActors[..i + 1])[a] == m + 1;
          } else {
            assert a.state == old@Before(a.state);
            assert multiset(sceneActors[..i + 1])[a] == multiset(sceneActors[..i])[a];
          }
        }
      }
      assert sceneActors[..|sceneActors|] == sceneActors;
    }

    /** The growing half of `CommitSceneProxy`: one new proxy of the actor's
        kind per actor that has none yet. */
    method GrowSceneProxies()
      requires Valid() && ProxiesLive()
      modifies this`sceneProxies
      ensures Valid() && ProxiesLive()
      ensures |sceneProxies| == |sceneActors|
      ensures sceneProxies[..old(|sceneProxies|)] == old(sceneProxies)
      ensures forall i :: old(|sceneProxies|) <= i < |sceneProxies| ==>
        fresh(sceneProxies[i]) && sceneProxies[i].kind == sceneActors[i].kind
    {
      if |sceneProxies| < |sceneActors| {
        for i := |sceneProxies| to |sceneActors|
          invariant |sceneProxies| == i
          invariant Valid() && ProxiesLive()
          invariant sceneProxies[..old(|sceneProxies|)] == old(sceneProxies)
          invariant forall j :: old(|sceneProxies|) <= j < i ==> fresh(sceneProxies[j])
        {
          var proxy := new SceneProxy(sceneActors[i].kind);
          sceneProxies := sceneProxies + [proxy];
        }
      }
    }

    /** The committing half of `CommitSceneProxy`: proxy `i` from actor `i`,
        for every index in turn. */
    method CommitEach()
      requires Valid() && ProxiesLive() && |sceneProxies| == |sceneActors|
      modifies ProxySet()
      ensures forall i :: 0 <= i < |sceneProxies| ==>
        sceneProxies[i].Snapshot() == CommitOf(sceneActors[i].kind, sceneActors[i].state)
    {
      for i := 0 to |sceneProxies|
        invariant forall j :: 0 <= j < i ==>
          sceneProxies[j].Snapshot() == CommitOf(sceneActors[j].kind, sceneActors[j].state)
      {
        sceneProxies[i].Commit(sceneActors[i]);
      }
    }

    /** `CommitSceneProxy`: afterwards there is one proxy per actor, old proxies
        stay in their slots, and every proxy holds its actor's committed data. */
    method CommitSceneProxy()
      requires Valid() && ProxiesLive()
      modifies this`sceneProxies, ProxySet()
      ensures Valid() && ProxiesLive()
      ensures |sceneProxies| == |sceneActors|
      ensures sceneProxies[..old(|sceneProxies|)] == old(sceneProxies)
      ensures forall i :: old(|sceneProxies|) <= i < |sceneProxies| ==> fresh(sceneProxies[i])
      ensures forall i :: 0 <= i < |sceneProxies| ==> sceneProxies[i].kind == sceneActors[i].kind
      ensures forall i :: 0 <= i < |sceneProxies| ==>
        sceneProxies[i].Snapshot() == CommitOf(sceneActors[i].kind, sceneActors[i].state)
    {
      GrowSceneProxies();
      CommitEach();
    }

    /** `SyncGPU`: if the current slot has a signal outstanding, wait for its
        fence (`completedValue` is what the fence reports before the wait),
        then move the slot's target on by one and clear the flag. */
    method SyncGPU(completedValue: nat) returns (waited: bool)
      requires Valid() && Initialized()
      modifies frameDataArray
      ensures Valid()
      ensures var f := old(frameDataArray[backBufferIndex]);
        && (f.syncGPU ==> f.fenceValue == LastSignal(commandQueue, backBufferIndex))
        && waited == (f.syncGPU && completedValue < f.fenceValue)
        && frameDataArray[backBufferIndex] == AfterSync(f)
      ensures forall k :: 0 <= k < MAX_FRAME_COUNT && k != backBufferIndex ==> frameDataArray[k] == old(frameDataArray[k])
    {
      var frameData := frameDataArray[backBufferIndex];
      if !frameData.syncGPU {
        return false;
      }
      // GetCompletedValue / SetEventOnCompletion / WaitForSingleObject
      waited := completedValue < frameData.fenceValue;
      AfterSyncConsistent(frameData, LastSignal(commandQueue, backBufferIndex));
      frameDataArray[backBufferIndex] := frameData.(fenceValue := frameData.fenceValue + 1, syncGPU := false);
    }

    /** `Present`: present the current back buffer, then take the index the
        swap chain reports next. */
    method Present(reportedIndex: nat)
      requires Valid() && Initialized()
      requires reportedIndex < backBufferCount
      modifies this`backBufferIndex, this`commandQueue
      ensures Valid()
      ensures backBufferIndex == reportedIndex
      ensures commandQueue == old(commandQueue) + [PresentBuffer(old(backBufferIndex))]
      ensures forall k: nat :: LastSignal(commandQueue, k) == LastSignal(old(commandQueue), k)
    {
      NonSignalKeepsMonotone(commandQueue, PresentBuffer(backBufferIndex));
      commandQueue := commandQueue + [PresentBuffer(backBufferIndex)];
      backBufferIndex := reportedIndex;
    }

    /** `PopulateCommandList`: submit the current slot's command list iff the
        slot has a signal outstanding. */
    method PopulateCommandList() returns (submitted: bool)
      requires Valid() && Initialized()
      modifies this`commandQueue
      ensures Valid()
      ensures submitted == frameDataArray[backBufferIndex].syncGPU
      ensures commandQueue == old(commandQueue) + Submission(backBufferIndex, frameDataArray[backBufferIndex])
      ensures forall k: nat :: LastSignal(commandQueue, k) == LastSignal(old(commandQueue), k)
    {
      var frameData := frameDataArray[backBufferIndex];
      if !frameData.syncGPU {
        return false;
      }
      var op := ExecuteCommandList(backBufferIndex, frameData.commandList);
      NonSignalKeepsMonotone(commandQueue, op);
      commandQueue := commandQueue + [op];
      submitted := true;
    }

    /** The camera loop of `Render`: the first Camera proxy's viewport and
        scissor rectangle are recorded and its matrices written to `cb`; with
        no camera nothing is recorded and `cb` keeps its old matrices. */
    method BindCamera(cb: SceneConstantBuffer) returns (cmds: seq<Command>)
      requires ProxiesLive()
      modifies cb
      ensures cmds == CameraCommands(old(ProxyStates()))
      ensures match FirstCamera(old(ProxyStates()))
        case Some(j) => cb.viewMatrix == old(ProxyStates())[j].viewMtx && cb.projMatrix == old(ProxyStates())[j].projMtx
        case None => cb.viewMatrix == old(cb.viewMatrix) && cb.projMatrix == old(cb.projMatrix)
    {
      ghost var states := ProxyStates();
      var i := 0;
      while i < |sceneProxies|
        invariant i <= |sceneProxies|
        invariant forall j :: 0 <= j < i ==> !states[j].CameraProxy?
        invariant cb.viewMatrix == old(cb.viewMatrix) && cb.projMatrix == old(cb.projMatrix)
      {
        var proxy := sceneProxies[i];
        if proxy.GetActorType() == Camera {
          cmds := [RSSetViewport(proxy.viewport), RSSetScissorRect(proxy.scissorRect)];
          cb.viewMatrix := proxy.viewMtx;
          cb.projMatrix := proxy.projMtx;
          assert FirstCamera(states) == Some(i);
          return;
        }
        i := i + 1;
      }
      cmds := [];
    }

    /** The instance loop of `Render`: the Triangle proxies' world matrices are
        written to `cb.worldMatrix` from index 0 in list order, and the count
        written is returned; the rest of the array keeps its contents. */
    method PackInstances(cb: SceneConstantBuffer) returns (instanceCount: nat)
      requires ProxiesLive() && cb.worldMatrix.Length == INSTANCE_CAPACITY
      requires TriangleCount(ProxyStates()) <= INSTANCE_CAPACITY
      modifies cb.worldMatrix
      ensures instanceCount == TriangleCount(old(ProxyStates()))
      ensures cb.worldMatrix[..instanceCount] == InstanceWorlds(old(ProxyStates()))
      ensures forall k :: instanceCount <= k < INSTANCE_CAPACITY ==> cb.worldMatrix[k] == old(cb.worldMatrix[k])
    {
      ghost var states := ProxyStates();
      instanceCount := 0;
      for i := 0 to |sceneProxies|
        invariant instanceCount == TriangleCount(states[..i]) <= INSTANCE_CAPACITY
        invariant cb.worldMatrix[..instanceCount] == InstanceWorlds(states[..i])
        invariant forall k :: instanceCount <= k < INSTANCE_CAPACITY ==> cb.worldMatrix[k] == old(cb.worldMatrix[k])
      {
        var proxy := sceneProxies[i];
        assert states[i] == old(proxy.Snapshot());
        InstanceWorldsStep(states, i);
        assert proxy.kind == Triangle ==> instanceCount < INSTANCE_CAPACITY by {
          if proxy.kind == Triangle {
            TriangleCountGrows(states, i, |states|);
            assert states[..|states|] == states;
          }
        }
        instanceCount := PackProxy(cb, proxy, instanceCount);
      }
      assert states[..|states|] == states;
    }

    /** One pass of the instance loop of `Render`: a Triangle proxy's world
        matrix goes to entry `instanceCount` and the count moves on; a proxy
        of any other kind is skipped. */
    static method PackProxy(cb: SceneConstantBuffer, proxy: SceneProxy, instanceCount: nat) returns (n: nat)
      requires cb.worldMatrix.Length == INSTANCE_CAPACITY
      requires instanceCount <= INSTANCE_CAPACITY
      requires proxy.kind == Triangle ==> instanceCount < INSTANCE_CAPACITY
      modifies cb.worldMatrix
      ensures var s := proxy.Snapshot();
        && n == instanceCount + (if s.TriangleProxy? then 1 else 0)
        && cb.worldMatrix[..n] == old(cb.worldMatrix[..instanceCount]) + (if s.TriangleProxy? then [s.worldMtx] else [])
      ensures forall k :: n <= k < INSTANCE_CAPACITY ==> cb.worldMatrix[k] == old(cb.worldMatrix[k])
    {
      n := instanceCount;
      if proxy.GetActorType() == Triangle {
        proxy.GetWorldMatrix(cb.worldMatrix, n);
        assert cb.worldMatrix[..n + 1] == old(cb.worldMatrix[..n]) + [proxy.worldMtx];
        n := n + 1;
      }
    }

    /** The recording part of `Render` for slot `next`: the commands it
        records and what it writes into the slot's constant buffer `cb`. */
    method RecordCommands(next: nat, cb: SceneConstantBuffer) returns (cmds: seq<Command>)
      requires ProxiesLive() && cb.worldMatrix.Length == INSTANCE_CAPACITY
      requires TriangleCount(ProxyStates()) <= INSTANCE_CAPACITY
      modifies cb, cb.worldMatrix
      ensures cmds == RecordFrame(next, old(ProxyStates()))
      ensures var n := TriangleCount(old(ProxyStates()));
        && cb.worldMatrix[..n] == InstanceWorlds(old(ProxyStates()))
        && forall k :: n <= k < INSTANCE_CAPACITY ==> cb.worldMatrix[k] == old(cb.worldMatrix[k])
      ensures match FirstCamera(old(ProxyStates()))
        case Some(j) => cb.viewMatrix == old(ProxyStates())[j].viewMtx && cb.projMatrix == old(ProxyStates())[j].projMtx
        case None => cb.viewMatrix == old(cb.viewMatrix) && cb.projMatrix == old(cb.projMatrix)
    {
      ghost var states := ProxyStates();
      var cameraCmds := BindCamera(cb);
      assert ProxyStates() == states;
      var instanceCount := PackInstances(cb);
      cmds := BindCommands(next) + cameraCmds + ClearCommands(next) + DrawCommands(instanceCount)
        + [ResourceBarrier(next, StateRenderTarget, StatePresent)];
    }

    /** The end of `Render`: slot `next` keeps the recorded list, its fence is
        signalled with the slot's target and the signal is marked outstanding. */
    method SignalFrame(next: nat, cmds: seq<Command>)
      requires Valid() && next < backBufferCount && cmds != []
      modifies this`commandQueue, frameDataArray
      ensures Valid()
      ensures var f := old(frameDataArray[next]);
        && frameDataArray[next] == f.(syncGPU := true, commandList := cmds)
        && commandQueue == old(commandQueue) + [Signal(next, f.fenceValue)]
        && LastSignal(commandQueue, next) == f.fenceValue
      ensures forall k :: 0 <= k < MAX_FRAME_COUNT && k != next ==> frameDataArray[k] == old(frameDataArray[k])
    {
      var frameData := frameDataArray[next];
      SignalKeepsMonotone(commandQueue, next, frameData.fenceValue);
      commandQueue := commandQueue + [Signal(next, frameData.fenceValue)];
      frameDataArray[next] := frameData.(syncGPU := true, commandList := cmds);
    }

    /** `Render`: record the slot after the current one from the proxies, fill
        that slot's constant buffer, signal the slot's fence with its target
        and mark the signal outstanding. */
    method Render()
      requires Valid() && Initialized() && ProxiesLive()
      requires TriangleCount(ProxyStates()) <= INSTANCE_CAPACITY
      modifies this`commandQueue, frameDataArray, constantBuffers[NextSlot()], constantBuffers[NextSlot()].worldMatrix
      ensures Valid()
      ensures var next := NextSlot(); var f := old(frameDataArray[next]);
        && frameDataArray[next] == f.(syncGPU := true, commandList := RecordFrame(next, old(ProxyStates())))
        && commandQueue == old(commandQueue) + [Signal(next, f.fenceValue)]
        && LastSignal(commandQueue, next) == f.fenceValue
      ensures forall k :: 0 <= k < MAX_FRAME_COUNT && k != NextSlot() ==> frameDataArray[k] == old(frameDataArray[k])
      ensures var cb := constantBuffers[NextSlot()]; var n := TriangleCount(old(ProxyStates()));
        && cb.worldMatrix[..n] == InstanceWorlds(old(ProxyStates()))
        && forall k :: n <= k < INSTANCE_CAPACITY ==> cb.worldMatrix[k] == old(cb.worldMatrix[k])
      ensures var cb := constantBuffers[NextSlot()];
        match FirstCamera(old(ProxyStates()))
        case Some(j) => cb.viewMatrix == old(ProxyStates())[j].viewMtx && cb.projMatrix == old(ProxyStates())[j].projMtx
        case None => cb.viewMatrix == old(cb.viewMatrix) && cb.projMatrix == old(cb.projMatrix)
    {
      var next := NextIndex(backBufferIndex, backBufferCount);
      var cmds := RecordCommands(next, constantBuffers[next]);
      SignalFrame(next, cmds);
    }

    /** One pass of the main thread's loop: stop if the terminate flag is set;
        otherwise update every actor by the frame time and commit the actors
        to their proxies. */
    method MainThreadStep(delta: Float32, advance: ActorUpdate) returns (running: bool)
      requires Valid() && ProxiesLive()
      modifies ActorSet(), this`sceneProxies, ProxySet()
      ensures Valid() && ProxiesLive()
      ensures running == !IsSet(flags, TerminateRenderer)
      ensures !running ==> sceneProxies == old(sceneProxies) && unchanged(ActorSet()) && unchanged(ProxySet())
      ensures running ==> forall a :: a in sceneActors ==>
        a.state == Advanced(advance, a.kind, old(a.state), delta, multiset(sceneActors)[a])
      ensures running ==> |sceneProxies| == |sceneActors|
      ensures running ==> |old(sceneProxies)| <= |sceneProxies| && sceneProxies[..old(|sceneProxies|)] == old(sceneProxies)
      ensures running ==> forall i :: old(|sceneProxies|) <= i < |sceneProxies| ==> fresh(sceneProxies[i])
      ensures running ==> forall i :: 0 <= i < |sceneProxies| ==>
        sceneProxies[i].Snapshot() == CommitOf(sceneActors[i].kind, sceneActors[i].state)
    {
      var terminating := TestFlag(TerminateRenderer);
      running := !terminating;
      if terminating {
        return;
      }
      Update(delta, advance);
      CommitSceneProxy();
    }

    /** The first half of the render thread's loop body: wait for the
        current slot, present, and submit the current slot's list.
        `completedValue` stands for what the current slot's fence reports and
        `reportedIndex` for the swap chain's next back buffer. */
    method Flip(completedValue: nat, reportedIndex: nat)
      requires Valid() && Initialized()
      requires reportedIndex < backBufferCount
      modifies this`backBufferIndex, this`commandQueue, frameDataArray
      ensures Valid()
      ensures backBufferIndex == reportedIndex
      ensures frameDataArray[old(backBufferIndex)] == AfterSync(old(frameDataArray[backBufferIndex]))
      ensures forall k :: 0 <= k < MAX_FRAME_COUNT && k != old(backBufferIndex) ==> frameDataArray[k] == old(frameDataArray[k])
      ensures commandQueue == old(commandQueue) + [PresentBuffer(old(backBufferIndex))]
        + Submission(reportedIndex, frameDataArray[reportedIndex])
      ensures forall k :: 0 <= k < MAX_FRAME_COUNT ==> old(frameDataArray[k].fenceValue) <= frameDataArray[k].fenceValue
    {
      var waited := SyncGPU(completedValue);
      Present(reportedIndex);
      var submitted := PopulateCommandList();
    }

    /** The body of the render thread's loop: `Flip`, then record the next
        slot. With `mid` the slots after the sync of the current slot: the
        queue receives the present, the new current slot's list if it has a
        signal outstanding, and the signal of the slot after it; that slot
        holds the list recorded from the proxies with its signal outstanding,
        its constant buffer is filled, and every other slot is as `mid` left
        it. */
    method RenderFrame(completedValue: nat, reportedIndex: nat)
      requires Valid() && Initialized() && ProxiesLive()
      requires TriangleCount(ProxyStates()) <= INSTANCE_CAPACITY
      requires reportedIndex < backBufferCount
      modifies this`backBufferIndex, this`commandQueue, frameDataArray
      modifies constantBuffers[NextIndex(reportedIndex, backBufferCount)]
      modifies constantBuffers[NextIndex(reportedIndex, backBufferCount)].worldMatrix
      ensures Valid()
      ensures backBufferIndex == reportedIndex
      ensures
        var b := old(backBufferIndex);
        var mid := old(frameDataArray[..])[b := AfterSync(old(frameDataArray[b]))];
        var next := NextSlot();
        && commandQueue == old(commandQueue) + [PresentBuffer(b)] + Submission(reportedIndex, mid[reportedIndex])
             + [Signal(next, mid[next].fenceValue)]
        && frameDataArray[next] == mid[next].(syncGPU := true, commandList := RecordFrame(next, old(ProxyStates())))
        && (forall k :: 0 <= k < MAX_FRAME_COUNT && k != next ==> frameDataArray[k] == mid[k])
      ensures forall k :: 0 <= k < MAX_FRAME_COUNT ==> old(frameDataArray[k].fenceValue) <= frameDataArray[k].fenceValue
      ensures LastSignal(commandQueue, NextSlot()) == frameDataArray[NextSlot()].fenceValue
      ensures
        var cb := constantBuffers[NextSlot()]; var n := TriangleCount(old(ProxyStates()));
        && cb.worldMatrix[..n] == InstanceWorlds(old(ProxyStates()))
        && (forall k :: n <= k < INSTANCE_CAPACITY ==> cb.worldMatrix[k] == old(cb.worldMatrix[k]))
      ensures
        var cb := constantBuffers[NextSlot()];
        match FirstCamera(old(ProxyStates()))
        case Some(j) => cb.viewMatrix == old(ProxyStates())[j].viewMtx && cb.projMatrix == old(ProxyStates())[j].projMtx
        case None => cb.viewMatrix == old(cb.viewMatrix) && cb.projMatrix == old(cb.projMatrix)
    {
      ghost var states := ProxyStates();
      ghost var mid := frameDataArray[..][backBufferIndex := AfterSync(frameDataArray[backBufferIndex])];
      Flip(completedValue, reportedIndex);
      assert forall k :: 0 <= k < MAX_FRAME_COUNT ==> frameDataArray[k] == mid[k];
      assert ProxyStates() == states;
      Render();
    }

    /** One pass of the render thread's loop: with the terminate flag set,
        only the final `SyncGPU` of the current slot runs; otherwise one
        frame runs, as `RenderFrame` states. */
    method RenderThreadStep(completedValue: nat, reportedIndex: nat) returns (running: bool)
      requires Valid() && Initialized() && ProxiesLive()
      requires TriangleCount(ProxyStates()) <= INSTANCE_CAPACITY
      requires reportedIndex < backBufferCount
      modifies this`backBufferIndex, this`commandQueue, frameDataArray
      modifies constantBuffers[NextIndex(reportedIndex, backBufferCount)]
      modifies constantBuffers[NextIndex(reportedIndex, backBufferCount)].worldMatrix
      ensures Valid()
      ensures running == !IsSet(flags, TerminateRenderer)
      ensures forall k :: 0 <= k < MAX_FRAME_COUNT ==> old(frameDataArray[k].fenceValue) <= frameDataArray[k].fenceValue
      ensures !running ==> commandQueue == old(commandQueue) && backBufferIndex == old(backBufferIndex)
      ensures !running ==> unchanged(constantBuffers[NextIndex(reportedIndex, backBufferCount)],
        constantBuffers[NextIndex(reportedIndex, backBufferCount)].worldMatrix)
      ensures !running ==> frameDataArray[backBufferIndex] == AfterSync(old(frameDataArray[backBufferIndex]))
      ensures !running ==> forall k :: 0 <= k < MAX_FRAME_COUNT && k != backBufferIndex ==> frameDataArray[k] == old(frameDataArray[k])
      ensures running ==> backBufferIndex == reportedIndex
      ensures running ==>
        var b := old(backBufferIndex);
        var mid := old(frameDataArray[..])[b := AfterSync(old(frameDataArray[b]))];
        var next := NextSlot();
        && commandQueue == old(commandQueue) + [PresentBuffer(b)] + Submission(reportedIndex, mid[reportedIndex])
             + [Signal(next, mid[next].fenceValue)]
        && frameDataArray[next] == mid[next].(syncGPU := true, commandList := RecordFrame(next, old(ProxyStates())))
        && (forall k :: 0 <= k < MAX_FRAME_COUNT && k != next ==> frameDataArray[k] == mid[k])
      ensures running ==>
        var cb := constantBuffers[NextSlot()]; var n := TriangleCount(old(ProxyStates()));
        && cb.worldMatrix[..n] == InstanceWorlds(old(ProxyStates()))
        && (forall k :: n <= k < INSTANCE_CAPACITY ==> cb.worldMatrix[k] == old(cb.worldMatrix[k]))
      ensures running ==>
        var cb := constantBuffers[NextSlot()];
        match FirstCamera(old(ProxyStates()))
        case Some(j) => cb.viewMatrix == old(ProxyStates())[j].viewMtx && cb.projMatrix == old(ProxyStates())[j].projMtx
        case None => cb.viewMatrix == old(cb.viewMatrix) && cb.projMatrix == old(cb.projMatrix)
    {
      var terminating := TestFlag(TerminateRenderer);
      running := !terminating;
      if terminating {
        var waited := SyncGPU(completedValue);
      } else {
        RenderFrame(completedValue, reportedIndex);
      }
    }
  }
}
