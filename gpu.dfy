/**
 * The GPU as the renderer's host code sees it: opaque handles and an
 * append-only log of the calls issued on the device, its queue, command
 * encoders and render-pass encoders, in issue order. No GPU resource is
 * modelled beyond its handle.
 */
module Gpu {
  import opened Linear

  /** An opaque handle: a buffer, texture, view, sampler, bind group or pipeline. */
  type Id = nat

  datatype CullMode = CullNone | CullBack | CullFront

  /** The view a `createView` call asks for. */
  datatype ViewKind = DefaultView | DepthOnly | AllAspects | Array2D | CubeView | Plain2D

  /** What a bind-group entry binds. */
  datatype Resource = BufferRes(buffer: Id) | SamplerRes(sampler: Id) | ViewRes(view: Id)

  datatype BindEntry = BindEntry(binding: nat, resource: Resource)

  /** The bindings of `entries`, in order. */
  function Bindings(entries: seq<BindEntry>): (r: seq<nat>)
    ensures |r| == |entries|
    ensures forall i :: 0 <= i < |entries| ==> r[i] == entries[i].binding
  {
    if entries == [] then [] else [entries[0].binding] + Bindings(entries[1..])
  }

  /** The shader pair a pipeline is built from (the renderer's RenderPassType). */
  datatype ShaderKind = PointLightsNonCulledShaders | DirectionalAmbientShaders | TAAResolveShaders

  /** The parts of a render-pipeline descriptor the model distinguishes. */
  datatype PipelineDesc = PipelineDesc(name: string, shaders: ShaderKind, depthWrite: bool, cull: CullMode)

  datatype LoadOp = Load | Clear

  /** A colour attachment; every pass in the model stores its result. */
  datatype ColorAttachment = ColorAttachment(view: Id, load: LoadOp)

  /** A depth-stencil attachment: which view, and whether depth is loaded and stored or read-only. */
  datatype DepthAttachment = DepthAttachment(view: Id, depthReadOnly: bool, stencilReadOnly: bool)

  datatype DepthSlot = NoDepth | Depth(attachment: DepthAttachment)

  datatype PassDescriptor = PassDescriptor(name: string, color: ColorAttachment, depth: DepthSlot)

  datatype Extent = Extent(width: nat, height: nat, layers: nat)

  datatype Jitter = Jitter(x: real, y: real)

  const NoJitter: Jitter := Jitter(0.0, 0.0)

  /** The camera's uniform struct, mirrored on the host and uploaded whole. */
  datatype CameraUniform = CameraUniform(
    viewMatrix: Mat,
    projectionMatrix: Mat,
    projectionViewMatrix: Mat,
    inverseProjectionViewMatrix: Mat,
    prevFrameProjectionViewMatrix: Mat,
    viewportWidth: nat,
    viewportHeight: nat,
    jitterOffset: Jitter,
    position: Vec3)

  /** What a `writeBuffer` (or a write through a mapped range) puts into a buffer. */
  datatype BufferData = CameraData(uniform: CameraUniform) | Float32Data(value: real)

  datatype Call =
    | CreateBuffer(buffer: Id, size: nat)
    | CreateSampler(sampler: Id)
    | CreateTexture(texture: Id, width: nat, height: nat)
    | DestroyTexture(texture: Id)
    | CreateView(view: Id, texture: Id, kind: ViewKind)
    | CreateBindGroup(group: Id, entries: seq<BindEntry>)
    | CreatePipeline(pipeline: Id, desc: PipelineDesc)
    | WriteBuffer(buffer: Id, data: BufferData)
    | UpdateGBufferEntry(index: nat, resource: Resource)  // LightRenderPass.updateGbufferBindGroupEntryAt
    | RecreateGBufferBindGroup(group: Id)                 // LightRenderPass.recreateGBufferTexturesBindGroup
    | BeginPass(descriptor: PassDescriptor)
    | SetPipeline(pipeline: Id)
    | BindRenderPSO(pipeline: Id)                         // RenderingContext.bindRenderPSO
    | SetBindGroup(slot: nat, group: Id)
    | SetIndexBuffer(buffer: Id)
    | SetVertexBuffer(slot: nat, buffer: Id)
    | Draw(vertexCount: nat)
    | DrawIndexed(indexCount: nat)
    | PushDebugGroup
    | PopDebugGroup
    | RenderTransparentNodes                              // Scene.renderTransparentNodes
    | End
    | CopyTextureToTexture(source: Id, destination: Id, extent: Extent)
    | PostRender                                          // RenderPass.postRender
    | ResolveTiming                                       // RenderPass.resolveTiming

  /** The placeholder textures of the texture loader. */
  datatype DummyTextures = DummyTextures(texture: Id, cubeTexture: Id, r16fTexture: Id)

  /**
   * The device (and its queue and encoders): hands out handles in increasing
   * order, so a handle it creates differs from every handle created before,
   * and records every call in `log`.
   */
  class Device {
    var log: seq<Call>
    var nextId: Id

    constructor()
      ensures log == [] && nextId == 0
    {
      log := [];
      nextId := 0;
    }

    method NewBuffer(size: nat) returns (b: Id)
      modifies this
      ensures b == old(nextId) && nextId == b + 1
      ensures log == old(log) + [CreateBuffer(b, size)]
    {
      b := nextId;
      nextId := nextId + 1;
      log := log + [CreateBuffer(b, size)];
    }

    method NewSampler() returns (s: Id)
      modifies this
      ensures s == old(nextId) && nextId == s + 1
      ensures log == old(log) + [CreateSampler(s)]
    {
      s := nextId;
      nextId := nextId + 1;
      log := log + [CreateSampler(s)];
    }

    method NewTexture(width: nat, height: nat) returns (t: Id)
      modifies this
      ensures t == old(nextId) && nextId == t + 1
      ensures log == old(log) + [CreateTexture(t, width, height)]
    {
      t := nextId;
      nextId := nextId + 1;
      log := log + [CreateTexture(t, width, height)];
    }

    method NewView(texture: Id, kind: ViewKind) returns (v: Id)
      modifies this
      ensures v == old(nextId) && nextId == v + 1
      ensures log == old(log) + [CreateView(v, texture, kind)]
    {
      v := nextId;
      nextId := nextId + 1;
      log := log + [CreateView(v, texture, kind)];
    }

    method NewBindGroup(entries: seq<BindEntry>) returns (g: Id)
      modifies this
      ensures g == old(nextId) && nextId == g + 1
      ensures log == old(log) + [CreateBindGroup(g, entries)]
    {
      g := nextId;
      nextId := nextId + 1;
      log := log + [CreateBindGroup(g, entries)];
    }

    method NewPipeline(desc: PipelineDesc) returns (p: Id)
      modifies this
      ensures p == old(nextId) && nextId == p + 1
      ensures log == old(log) + [CreatePipeline(p, desc)]
    {
      p := nextId;
      nextId := nextId + 1;
      log := log + [CreatePipeline(p, desc)];
    }

    method NewGBufferBindGroup() returns (g: Id)
      modifies this
      ensures g == old(nextId) && nextId == g + 1
      ensures log == old(log) + [RecreateGBufferBindGroup(g)]
    {
      g := nextId;
      nextId := nextId + 1;
      log := log + [RecreateGBufferBindGroup(g)];
    }

    /** Issue a call that creates nothing. */
    method Issue(c: Call)
      modifies this
      ensures nextId == old(nextId)
      ensures log == old(log) + [c]
    {
      log := log + [c];
    }
  }
}
