/**
 * The transparent pass (src/app/render-passes/TransparentRenderPass.ts): it
 * draws the scene's transparent nodes over the lit colour target, with
 * the G-buffer depth as depth attachment. Unlike the lighting passes it builds a
 * new camera bind group on every render.
 */
module TransparentPass {
  import opened Outcomes
  import opened Gpu
  import opened Scenes
  import opened Cameras

  const PassLabel: string := "Transparent Render Pass"

  /** Colour target loaded and stored; depth loaded and stored; stencil read-only. */
  function PassDescriptorFor(views: seq<Id>): PassDescriptor
    requires |views| == 2
  {
    PassDescriptor(PassLabel, ColorAttachment(views[0], Load), Depth(DepthAttachment(views[1], false, true)))
  }

  /** The camera bind group's entries: the camera uniform in binding 0, the scene's lights in binding 1. */
  function CameraEntries(cameraBuffer: Id, lightsBuffer: Id): (e: seq<BindEntry>)
    ensures Bindings(e) == [0, 1]
  {
    [BindEntry(0, BufferRes(cameraBuffer)), BindEntry(1, BufferRes(lightsBuffer))]
  }

  /**
   * The calls of one render after the views exist: begin, push the debug
   * group, build the camera bind group `group` and bind it in `slot`, let the
   * scene draw its transparent nodes, pop, end, resolve the timestamps.
   */
  function PassCalls(desc: PassDescriptor, slot: nat, group: Id, cameraBuffer: Id, lightsBuffer: Id): seq<Call> {
    [ BeginPass(desc), PushDebugGroup,
      CreateBindGroup(group, CameraEntries(cameraBuffer, lightsBuffer)),
      SetBindGroup(slot, group), RenderTransparentNodes, PopDebugGroup, End, ResolveTiming ]
  }

  /**
   * In the pass, the nodes are drawn inside the debug group, after the
   * camera bind group is both built and bound, and before the pass ends.
   */
  lemma NodesDrawnWithCameraBound(desc: PassDescriptor, slot: nat, group: Id, cameraBuffer: Id, lightsBuffer: Id)
    ensures var calls := PassCalls(desc, slot, group, cameraBuffer, lightsBuffer);
            && (exists i, j, k :: 0 <= i < j < k < |calls| && calls[i] == PushDebugGroup
                 && calls[j] == SetBindGroup(slot, group) && calls[k] == RenderTransparentNodes)
            && (forall m :: 0 <= m < |calls| && calls[m] == RenderTransparentNodes ==> m == 4)
            && calls[3] == SetBindGroup(slot, group) && calls[5] == PopDebugGroup && calls[6] == End
  {
    var calls := PassCalls(desc, slot, group, cameraBuffer, lightsBuffer);
    assert calls[1] == PushDebugGroup && calls[3] == SetBindGroup(slot, group) && calls[4] == RenderTransparentNodes;
  }

  class TransparentRenderPass {
    const gpu: Device
    /** The bind-group location of the camera and lights (`BIND_GROUP_LOCATIONS.CameraPlusOptionalLights`). */
    const cameraSlot: nat

    var camera: Option<Camera>
    var inputTextureViews: seq<Id>
    var cameraBindGroup: Option<Id>

    predicate Valid()
      reads this
    {
      inputTextureViews == [] || |inputTextureViews| == 2
    }

    /** A pass with no camera yet and no views. */
    constructor(gpu: Device, cameraSlot: nat)
      ensures Valid() && this.gpu == gpu && this.cameraSlot == cameraSlot
      ensures camera == None && inputTextureViews == [] && cameraBindGroup == None
    {
      this.gpu := gpu;
      this.cameraSlot := cameraSlot;
      camera := None;
      inputTextureViews := [];
      cameraBindGroup := None;
    }

    /** The debug camera is not used by this pass: nothing changes. */
    method ToggleDebugCamera(v: bool)
    {
    }

    /** Replace the camera and nothing else. */
    method SetCamera(c: Camera) returns (self: TransparentRenderPass)
      modifies this`camera
      ensures camera == Some(c) && self == this
    {
      camera := Some(c);
      self := this;
    }

    /**
     * View inputs 0 and 1 on the first call only; then, on every call,
     * build a new camera bind group and record the pass; hand the inputs on
     * unchanged.
     */
    method Render(scene: Scene, inputs: seq<Id>) returns (out: seq<Id>)
      requires Valid() && camera.Some? && |inputs| >= 2
      modifies this`inputTextureViews, this`cameraBindGroup, gpu
      ensures Valid() && |inputTextureViews| == 2
      ensures out == inputs
      ensures old(inputTextureViews) != [] ==>
                var g := old(gpu.nextId);
                && inputTextureViews == old(inputTextureViews)
                && cameraBindGroup == Some(g) && gpu.nextId == g + 1
                && gpu.log == old(gpu.log) + PassCalls(PassDescriptorFor(inputTextureViews), cameraSlot, g,
                                                       camera.value.gpuBuffer, scene.lightsBuffer)
      ensures old(inputTextureViews) == [] ==>
                var base := old(gpu.nextId);
                && inputTextureViews == [base, base + 1]
                && cameraBindGroup == Some(base + 2) && gpu.nextId == base + 3
                && gpu.log == old(gpu.log)
                              + [CreateView(base, inputs[0], DefaultView), CreateView(base + 1, inputs[1], DefaultView)]
                              + PassCalls(PassDescriptorFor(inputTextureViews), cameraSlot, base + 2,
                                          camera.value.gpuBuffer, scene.lightsBuffer)
      ensures cameraBindGroup.value >= old(gpu.nextId)
    {
      if inputTextureViews == [] {
        var v0 := gpu.NewView(inputs[0], DefaultView);
        var v1 := gpu.NewView(inputs[1], DefaultView);
        inputTextureViews := [v0, v1];
      }
      EncodePass(scene);
      out := inputs;
    }

    /** Record the pass over the current views with a new camera bind group. */
    method EncodePass(scene: Scene)
      requires |inputTextureViews| == 2 && camera.Some?
      modifies this`cameraBindGroup, gpu
      ensures var g := old(gpu.nextId);
              && cameraBindGroup == Some(g) && gpu.nextId == g + 1
              && gpu.log == old(gpu.log) + PassCalls(PassDescriptorFor(inputTextureViews), cameraSlot, g,
                                                     camera.value.gpuBuffer, scene.lightsBuffer)
    {
      var desc := PassDescriptorFor(inputTextureViews);
      gpu.Issue(BeginPass(desc));
      gpu.Issue(PushDebugGroup);
      var g := gpu.NewBindGroup(CameraEntries(camera.value.gpuBuffer, scene.lightsBuffer));
      cameraBindGroup := Some(g);
      gpu.Issue(SetBindGroup(cameraSlot, g));
      gpu.Issue(RenderTransparentNodes);
      gpu.Issue(PopDebugGroup);
      gpu.Issue(End);
      gpu.Issue(ResolveTiming);
    }
  }

  /**
   * Two renders in a row reuse the input views but bind two different
   * camera bind groups, both holding the current camera's uniform buffer.
   */
  method CameraGroupPerFrame() returns (firstGroup: Id, secondGroup: Id, firstViews: seq<Id>, secondViews: seq<Id>)
    ensures firstGroup != secondGroup
    ensures firstViews == secondViews == [1, 2]
  {
    var gpu := new Device();
    var camera := new Camera(gpu, 64);
    var pass := new TransparentRenderPass(gpu, 0);
    var self := pass.SetCamera(camera);
    var scene := Scene([], 50, 51);
    var out1 := pass.Render(scene, [10, 11]);
    firstGroup := pass.cameraBindGroup.value;
    firstViews := pass.inputTextureViews;
    var out2 := pass.Render(scene, [10, 11]);
    secondGroup := pass.cameraBindGroup.value;
    secondViews := pass.inputTextureViews;
  }
}
