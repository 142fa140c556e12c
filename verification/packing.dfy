/**
 * What `MTRenderer::Render` derives from the committed proxy list: the
 * camera it binds, the world matrices it packs into the constant buffer and
 * the command list it records, as functions of the proxies' data in list
 * order.
 */
module Packing {
  import opened Wrappers
  import opened Scene
  import opened Frames

  /** The number of Triangle proxies in the list. */
  function TriangleCount(ps: seq<ProxyState>): (n: nat)
    ensures n <= |ps|
    decreases |ps|
  {
    if ps == [] then 0
    else TriangleCount(ps[..|ps| - 1]) + (if ps[|ps| - 1].TriangleProxy? then 1 else 0)
  }

  /** There is no instance exactly when no proxy is a Triangle. */
  lemma {:induction false} TriangleCountZero(ps: seq<ProxyState>)
    ensures TriangleCount(ps) == 0 <==> forall i :: 0 <= i < |ps| ==> !ps[i].TriangleProxy?
    decreases |ps|
  {
    if ps != [] {
      var init := ps[..|ps| - 1];
      TriangleCountZero(init);
      assert forall i :: 0 <= i < |init| ==> init[i] == ps[i];
    }
  }

  /** The world matrices of the Triangle proxies, in list order. */
  function InstanceWorlds(ps: seq<ProxyState>): (ws: seq<Mat4>)
    ensures |ws| == TriangleCount(ps)
    decreases |ps|
  {
    if ps == [] then []
    else
      InstanceWorlds(ps[..|ps| - 1]) +
        match ps[|ps| - 1]
        case TriangleProxy(w) => [w]
        case CameraProxy(_, _, _, _) => []
  }

  /** The Triangle proxy at position `i` lands in the instance array at the
      number of Triangle proxies before it. */
  lemma {:induction false} InstanceWorldsAt(ps: seq<ProxyState>, i: nat)
    requires i < |ps| && ps[i].TriangleProxy?
    ensures TriangleCount(ps[..i]) < |InstanceWorlds(ps)|
    ensures InstanceWorlds(ps)[TriangleCount(ps[..i])] == ps[i].worldMtx
    decreases |ps|
  {
    var init := ps[..|ps| - 1];
    if i == |ps| - 1 {
      assert ps[..i] == init;
    } else {
      assert init[..i] == ps[..i];
      InstanceWorldsAt(init, i);
    }
  }

  /** Every entry of the instance array holds the matrix of the Triangle
      proxy with exactly that many Triangles before it: no entry is left
      unfilled. */
  lemma {:induction false} InstanceWorldsFrom(ps: seq<ProxyState>, k: nat)
    requires k < |InstanceWorlds(ps)|
    ensures exists i :: 0 <= i < |ps| && ps[i].TriangleProxy? && TriangleCount(ps[..i]) == k &&
                        InstanceWorlds(ps)[k] == ps[i].worldMtx
    decreases |ps|
  {
    var init := ps[..|ps| - 1];
    if k < |InstanceWorlds(init)| {
      InstanceWorldsFrom(init, k);
      var i :| 0 <= i < |init| && init[i].TriangleProxy? && TriangleCount(init[..i]) == k &&
               InstanceWorlds(init)[k] == init[i].worldMtx;
      assert init[..i] == ps[..i];
      assert ps[i] == init[i];
    } else {
      assert ps[..|ps| - 1] == init;
    }
  }

  /** Extending the list by one proxy adds one instance exactly when that
      proxy is a Triangle. */
  lemma InstanceWorldsStep(ps: seq<ProxyState>, i: nat)
    requires i < |ps|
    ensures TriangleCount(ps[..i + 1]) == TriangleCount(ps[..i]) + (if ps[i].TriangleProxy? then 1 else 0)
    ensures InstanceWorlds(ps[..i + 1]) == InstanceWorlds(ps[..i]) + (if ps[i].TriangleProxy? then [ps[i].worldMtx] else [])
  {
    assert ps[..i + 1][..i] == ps[..i];
  }

  /** A later Triangle proxy gets a later slot in the instance array. */
  lemma {:induction false} TriangleCountGrows(ps: seq<ProxyState>, i: nat, j: nat)
    requires i < j <= |ps| && ps[i].TriangleProxy?
    ensures TriangleCount(ps[..i]) < TriangleCount(ps[..j])
    decreases j
  {
    var pj := ps[..j];
    assert pj[..j - 1] == ps[..j - 1];
    if i < j - 1 {
      TriangleCountGrows(ps, i, j - 1);
    } else {
      assert ps[..i] == pj[..j - 1];
    }
  }

  /** The index of the first Camera proxy: the loop at the top of `Render`
      stops at the first one it meets. */
  function FirstCamera(ps: seq<ProxyState>): (r: Option<nat>)
    ensures r.Some? ==> r.value < |ps| && ps[r.value].CameraProxy?
    ensures r.Some? ==> forall j :: 0 <= j < r.value ==> !ps[j].CameraProxy?
    ensures r.None? <==> forall j :: 0 <= j < |ps| ==> !ps[j].CameraProxy?
    decreases |ps|
  {
    if ps == [] then None
    else if ps[0].CameraProxy? then Some(0)
    else
      match FirstCamera(ps[1..])
      case None => None
      case Some(j) => Some(j + 1)
  }

  /** Viewport and scissor commands from the first camera, if any. */
  function CameraCommands(ps: seq<ProxyState>): (cmds: seq<Command>)
    ensures cmds == [] <==> forall i :: 0 <= i < |ps| ==> !ps[i].CameraProxy?
    ensures forall c :: c in cmds ==> c.RSSetViewport? || c.RSSetScissorRect?
  {
    match FirstCamera(ps)
    case Some(j) => [RSSetViewport(ps[j].viewport), RSSetScissorRect(ps[j].scissorRect)]
    case None => []
  }

  /** The instanced draw, present only when there is an instance to draw. */
  function DrawCommands(instanceCount: nat): (cmds: seq<Command>)
    ensures cmds != [] <==> 0 < instanceCount
    ensures forall c :: c in cmds && c.DrawInstanced? ==>
      c.instanceCount == instanceCount && c.vertexCountPerInstance == VERTICES_PER_INSTANCE
  {
    if 0 < instanceCount then
      [IASetTriangleListTopology, IASetVertexBuffer, DrawInstanced(VERTICES_PER_INSTANCE, instanceCount, 0, 0)]
    else []
  }

  /** The fixed commands `Render` records before the camera commands. */
  function BindCommands(slot: nat): (cmds: seq<Command>)
    ensures forall c :: c in cmds && c.SetGraphicsRootConstantBufferView? ==> c.bufferSlot == slot
    ensures forall c :: c in cmds ==> !c.DrawInstanced? && !c.RSSetViewport?
  {
    [SetGraphicsRootSignature, SetDescriptorHeaps, SetGraphicsRootConstantBufferView(slot)]
  }

  /** The fixed commands between the camera commands and the draw. */
  function ClearCommands(slot: nat): (cmds: seq<Command>)
    ensures cmds != [] && cmds[0] == ResourceBarrier(slot, StatePresent, StateRenderTarget)
    ensures cmds[|cmds| - 1] == ClearRenderTargetView(slot, CLEAR_COLOR)
  {
    [ResourceBarrier(slot, StatePresent, StateRenderTarget), OMSetRenderTarget(slot), ClearRenderTargetView(slot, CLEAR_COLOR)]
  }

  /** The command list `Render` records into slot `slot` from the proxies. */
  function RecordFrame(slot: nat, ps: seq<ProxyState>): (cmds: seq<Command>)
    ensures cmds != []
  {
    BindCommands(slot) + CameraCommands(ps) + ClearCommands(slot)
    + DrawCommands(TriangleCount(ps))
    + [ResourceBarrier(slot, StateRenderTarget, StatePresent)]
  }

  /** Membership in the recorded list, segment by segment. */
  lemma RecordFrameMembers(slot: nat, ps: seq<ProxyState>, c: Command)
    ensures c in RecordFrame(slot, ps) <==>
      c in BindCommands(slot) || c in CameraCommands(ps) || c in ClearCommands(slot)
      || c in DrawCommands(TriangleCount(ps)) || c == ResourceBarrier(slot, StateRenderTarget, StatePresent)
  {
    var a := BindCommands(slot);
    var b := CameraCommands(ps);
    var d := ClearCommands(slot);
    var e := DrawCommands(TriangleCount(ps));
    var f := [ResourceBarrier(slot, StateRenderTarget, StatePresent)];
    assert RecordFrame(slot, ps) == (((a + b) + d) + e) + f;
  }

  /** The recorded list draws iff some proxy is a Triangle; every draw covers
      all Triangle proxies as instances of one three-vertex triangle. */
  lemma RecordFrameDraws(slot: nat, ps: seq<ProxyState>)
    ensures forall c :: c in RecordFrame(slot, ps) && c.DrawInstanced? ==>
      c == DrawInstanced(VERTICES_PER_INSTANCE, TriangleCount(ps), 0, 0)
    ensures (exists c :: c in RecordFrame(slot, ps) && c.DrawInstanced?) <==>
      exists i :: 0 <= i < |ps| && ps[i].TriangleProxy?
  {
    var n := TriangleCount(ps);
    var draw := DrawInstanced(VERTICES_PER_INSTANCE, n, 0, 0);
    TriangleCountZero(ps);
    forall c | c in RecordFrame(slot, ps) && c.DrawInstanced?
      ensures c == draw
    {
      RecordFrameMembers(slot, ps, c);
    }
    if 0 < n {
      RecordFrameMembers(slot, ps, draw);
    }
  }

  /** The only viewport and scissor commands in the recorded list are the
      camera commands. */
  lemma RecordFrameCameraOnly(slot: nat, ps: seq<ProxyState>, c: Command)
    requires c in RecordFrame(slot, ps) && (c.RSSetViewport? || c.RSSetScissorRect?)
    ensures c in CameraCommands(ps)
  {
    RecordFrameMembers(slot, ps, c);
  }

  /** The recorded list sets a viewport and a scissor rectangle iff some
      proxy is a Camera, and then those of the first Camera proxy. */
  lemma RecordFrameViewport(slot: nat, ps: seq<ProxyState>)
    ensures forall c :: c in RecordFrame(slot, ps) && c.RSSetViewport? ==>
      FirstCamera(ps).Some? && c.viewport == ps[FirstCamera(ps).value].viewport
    ensures forall c :: c in RecordFrame(slot, ps) && c.RSSetScissorRect? ==>
      FirstCamera(ps).Some? && c.rect == ps[FirstCamera(ps).value].scissorRect
    ensures (exists c :: c in RecordFrame(slot, ps) && c.RSSetViewport?) <==>
      exists j :: 0 <= j < |ps| && ps[j].CameraProxy?
  {
    forall c | c in RecordFrame(slot, ps) && (c.RSSetViewport? || c.RSSetScissorRect?)
      ensures c in CameraCommands(ps)
    {
      RecordFrameCameraOnly(slot, ps, c);
    }
    match FirstCamera(ps)
    case Some(j) =>
      var vp := RSSetViewport(ps[j].viewport);
      RecordFrameMembers(slot, ps, vp);
    case None =>
  }
}
