/**
 * The directional and ambient lighting pass
 * (src/app/render-passes/DirectionalAmbientLightRenderPass.ts): one
 * full-screen triangle that integrates the G-buffer with the directional
 * light, its shadow cascades and the image-based lighting textures. Its
 * second bind group is built from an eight-entry table that the IBL setters
 * and the first render patch one slot at a time.
 */
module DirectionalAmbientPass {
  import opened Outcomes
  import opened Gpu
  import opened Scenes
  import opened Encoders
  import opened Cameras

  const PipelineLabel: string := "Directional Light Render PSO"
  const PassLabel: string := "Directional + Ambient Render Pass"

  /** The shared pipeline: full-screen triangle, depth not written, no culling. */
  const RenderDesc: PipelineDesc := PipelineDesc(PipelineLabel, DirectionalAmbientShaders, false, CullNone)

  /** The shadow bind-group table as built by the constructor, from the handles it created. */
  function InitialEntries(shadowCascades: Id, shadowSampler: Id, envSampler: Id, ssaoMix: Id, dummyViews: seq<Id>): (e: seq<BindEntry>)
    requires |dummyViews| == 4
    ensures Bindings(e) == [0, 1, 2, 3, 4, 5, 6, 7]
  {
    [ BindEntry(0, BufferRes(shadowCascades)),
      BindEntry(1, SamplerRes(shadowSampler)),
      BindEntry(2, ViewRes(dummyViews[0])),
      BindEntry(3, ViewRes(dummyViews[1])),
      BindEntry(4, ViewRes(dummyViews[2])),
      BindEntry(5, ViewRes(dummyViews[3])),
      BindEntry(6, SamplerRes(envSampler)),
      BindEntry(7, BufferRes(ssaoMix)) ]
  }

  /** Slot `k` of a table rebound to `r`, its binding number kept. */
  function Rebind(entries: seq<BindEntry>, k: nat, r: Resource): (e: seq<BindEntry>)
    requires k < |entries|
    ensures |e| == |entries| && e[k].resource == r
    ensures Bindings(e) == Bindings(entries)
    ensures forall i :: 0 <= i < |entries| && i != k ==> e[i] == entries[i]
  {
    entries[k := BindEntry(entries[k].binding, r)]
  }

  /** Rebinding two different slots gives the same table in either order. */
  lemma RebindCommutes(entries: seq<BindEntry>, j: nat, k: nat, r: Resource, s: Resource)
    requires j < |entries| && k < |entries| && j != k
    ensures Rebind(Rebind(entries, j, r), k, s) == Rebind(Rebind(entries, k, s), j, r)
  {
  }

  /** The descriptor the pass memoises: output cleared and stored, depth read-only, stencil loaded and stored. */
  function PassDescriptorFor(outView: Id, views: seq<Id>): PassDescriptor
    requires |views| == 6
  {
    PassDescriptor(PassLabel, ColorAttachment(outView, Clear), Depth(DepthAttachment(views[3], true, false)))
  }

  /** The six views the first render creates, with `base` the first fresh handle. */
  function ViewCalls(inputs: seq<Id>, dummies: DummyTextures, base: Id): seq<Call>
    requires |inputs| >= 4
  {
    [ CreateView(base, inputs[0], DefaultView),
      CreateView(base + 1, inputs[1], DefaultView),
      CreateView(base + 2, inputs[2], DepthOnly),
      CreateView(base + 3, inputs[2], AllAspects),
      CreateView(base + 4, inputs[3], Array2D),
      CreateView(base + 5, if |inputs| > 4 then inputs[4] else dummies.r16fTexture, DefaultView) ]
  }

  /**
   * The G-buffer wiring of the first render: entries 0 to 3 get views 0, 1,
   * 2 and 5, entry 4 the camera buffer, entry 5 the lights buffer, and the
   * G-buffer bind group `group` is rebuilt.
   */
  function EntryCalls(views: seq<Id>, cameraBuffer: Id, lightingBuffer: Id, group: Id): seq<Call>
    requires |views| == 6
  {
    [ UpdateGBufferEntry(0, ViewRes(views[0])),
      UpdateGBufferEntry(1, ViewRes(views[1])),
      UpdateGBufferEntry(2, ViewRes(views[2])),
      UpdateGBufferEntry(3, ViewRes(views[5])),
      UpdateGBufferEntry(4, BufferRes(cameraBuffer)),
      UpdateGBufferEntry(5, BufferRes(lightingBuffer)),
      RecreateGBufferBindGroup(group) ]
  }

  /**
   * The calls of the first render before the pass, with `base` the first
   * fresh handle and `entries` the shadow table before it: the six views,
   * the G-buffer wiring, and the shadow bind group rebuilt over the table
   * whose slot 2 now holds the shadow-map view.
   */
  function WiringCalls(inputs: seq<Id>, dummies: DummyTextures, cameraBuffer: Id, lightingBuffer: Id, base: Id,
                       entries: seq<BindEntry>): seq<Call>
    requires |inputs| >= 4 && 2 < |entries|
  {
    ViewCalls(inputs, dummies, base)
    + EntryCalls([base, base + 1, base + 2, base + 3, base + 4, base + 5], cameraBuffer, lightingBuffer, base + 6)
    + [CreateBindGroup(base + 7, Rebind(entries, 2, ViewRes(base + 4)))]
  }

  /** The calls of the pass proper, from `beginRenderPass` to `postRender`. */
  function PassCalls(desc: PassDescriptor, debugGroups: bool, pso: Id, gbufferGroup: Id, shadowGroup: Id): seq<Call> {
    [BeginPass(desc)]
    + (if debugGroups then [PushDebugGroup] else [])
    + [BindRenderPSO(pso), SetBindGroup(0, gbufferGroup), SetBindGroup(1, shadowGroup), Draw(3)]
    + (if debugGroups then [PopDebugGroup] else [])
    + [End, PostRender]
  }

  /**
   * The pass draws once, with the shared pipeline, the G-buffer bind group
   * in slot 0 and the shadow bind group in slot 1, whether or not debug
   * groups are on.
   */
  lemma {:induction false} SingleDrawBindsBothGroups(st: EncState, desc: PassDescriptor, debugGroups: bool, pso: Id, gbufferGroup: Id, shadowGroup: Id)
    ensures Draws(st, PassCalls(desc, debugGroups, pso, gbufferGroup, shadowGroup))
            == [EncState(Some(pso), Some(gbufferGroup), Some(shadowGroup), None, None)]
  {
    var push := if debugGroups then [PushDebugGroup] else [];
    var pop := if debugGroups then [PopDebugGroup] else [];
    var binds := [BindRenderPSO(pso), SetBindGroup(0, gbufferGroup), SetBindGroup(1, shadowGroup), Draw(3)];
    var tail := pop + [End, PostRender];
    var s3 := EncState(Some(pso), Some(gbufferGroup), Some(shadowGroup), None, None);
    assert PassCalls(desc, debugGroups, pso, gbufferGroup, shadowGroup) == [BeginPass(desc)] + (push + (binds + tail));
    ReplayCons(st, BeginPass(desc), push + (binds + tail));
    ReplayAppend(Unbound, push, binds + tail);
    MarkersDrawNothing(Unbound, push);
    assert Draws(Unbound, push + (binds + tail)) == Draws(Unbound, binds + tail);
    ReplayAppend(Unbound, binds, tail);
    BindsThenDraw(pso, gbufferGroup, shadowGroup);
    assert Draws(Unbound, binds + tail) == [s3] + Draws(s3, tail);
    MarkersDrawNothing(s3, tail);
  }

  /** Binding the pipeline and both groups from scratch, then drawing, records one draw that sees all three. */
  lemma BindsThenDraw(pso: Id, gbufferGroup: Id, shadowGroup: Id)
    ensures var binds := [BindRenderPSO(pso), SetBindGroup(0, gbufferGroup), SetBindGroup(1, shadowGroup), Draw(3)];
            var s3 := EncState(Some(pso), Some(gbufferGroup), Some(shadowGroup), None, None);
            Draws(Unbound, binds) == [s3] && Replay(Unbound, binds) == s3
  {
    var s1 := EncState(Some(pso), None, None, None, None);
    var s2 := EncState(Some(pso), Some(gbufferGroup), None, None, None);
    var s3 := EncState(Some(pso), Some(gbufferGroup), Some(shadowGroup), None, None);
    assert Effect(Unbound, BindRenderPSO(pso)) == s1;
    assert Effect(s1, SetBindGroup(0, gbufferGroup)) == s2;
    assert Effect(s2, SetBindGroup(1, shadowGroup)) == s3;
    assert Effect(s3, Draw(3)) == s3;
    ReplayCons(s3, Draw(3), []);
    ReplayCons(s2, SetBindGroup(1, shadowGroup), [Draw(3)]);
    ReplayCons(s1, SetBindGroup(0, gbufferGroup), [SetBindGroup(1, shadowGroup), Draw(3)]);
    ReplayCons(Unbound, BindRenderPSO(pso), [SetBindGroup(0, gbufferGroup), SetBindGroup(1, shadowGroup), Draw(3)]);
  }

  /** Debug markers and the end of a pass neither draw nor change what is bound. */
  lemma {:induction false} MarkersDrawNothing(st: EncState, calls: seq<Call>)
    requires forall i :: 0 <= i < |calls| ==> calls[i] in {PushDebugGroup, PopDebugGroup, End, PostRender}
    ensures Draws(st, calls) == [] && Replay(st, calls) == st
    decreases |calls|
  {
    if calls != [] {
      assert calls == [calls[0]] + calls[1..];
      ReplayCons(st, calls[0], calls[1..]);
      MarkersDrawNothing(st, calls[1..]);
    }
  }

  /** The calls that create the two samplers and the SSAO mix buffer, with `base` the first fresh handle. */
  function SamplerCalls(base: Id): seq<Call> {
    [CreateSampler(base), CreateSampler(base + 1), CreateBuffer(base + 2, 4), WriteBuffer(base + 2, Float32Data(1.0))]
  }

  /** The calls that create the four dummy views, with `base` the first fresh handle. */
  function DummyViewCalls(dummies: DummyTextures, base: Id): seq<Call> {
    [ CreateView(base, dummies.texture, DefaultView),
      CreateView(base + 1, dummies.cubeTexture, CubeView),
      CreateView(base + 2, dummies.cubeTexture, CubeView),
      CreateView(base + 3, dummies.texture, DefaultView) ]
  }

  /** The calls that build the shadow table, with `base` the first fresh handle. */
  function ShadowTableCalls(dummies: DummyTextures, base: Id): seq<Call> {
    SamplerCalls(base) + DummyViewCalls(dummies, base + 3)
  }

  /** The shadow and environment samplers, and the SSAO mix buffer written with 1 while mapped. */
  method CreateSamplersAndMix(gpu: Device) returns (shadowSampler: Id, envSampler: Id, ssaoMix: Id)
    modifies gpu
    ensures shadowSampler == old(gpu.nextId) && envSampler == shadowSampler + 1 && ssaoMix == shadowSampler + 2
    ensures gpu.nextId == old(gpu.nextId) + 3
    ensures gpu.log == old(gpu.log) + SamplerCalls(old(gpu.nextId))
  {
    shadowSampler := gpu.NewSampler();
    envSampler := gpu.NewSampler();
    ssaoMix := gpu.NewBuffer(4);
    gpu.Issue(WriteBuffer(ssaoMix, Float32Data(1.0)));
  }

  /** The four dummy views of the shadow table's slots 2 to 5: 2D, cube, cube, 2D. */
  method CreateDummyViews(gpu: Device, dummies: DummyTextures) returns (views: seq<Id>)
    modifies gpu
    ensures var base := old(gpu.nextId);
            && views == [base, base + 1, base + 2, base + 3] && gpu.nextId == base + 4
            && gpu.log == old(gpu.log) + DummyViewCalls(dummies, base)
  {
    var v2 := gpu.NewView(dummies.texture, DefaultView);
    var v3 := gpu.NewView(dummies.cubeTexture, CubeView);
    var v4 := gpu.NewView(dummies.cubeTexture, CubeView);
    var v5 := gpu.NewView(dummies.texture, DefaultView);
    views := [v2, v3, v4, v5];
  }

  /**
   * The first part of construction: the shadow and environment samplers,
   * the SSAO mix buffer written with 1 while mapped, and the shadow table
   * with dummy views in slots 2 to 5.
   */
  method CreateShadowTable(gpu: Device, shadowCascadesBuffer: Id, dummies: DummyTextures)
    returns (shadowSampler: Id, envSampler: Id, ssaoMix: Id, entries: array<BindEntry>)
    modifies gpu
    ensures fresh(entries) && entries.Length == 8
    ensures shadowSampler == old(gpu.nextId) && envSampler == shadowSampler + 1 && ssaoMix == shadowSampler + 2
    ensures entries[..] == InitialEntries(shadowCascadesBuffer, shadowSampler, envSampler, ssaoMix,
                                          [shadowSampler + 3, shadowSampler + 4, shadowSampler + 5, shadowSampler + 6])
    ensures gpu.nextId == old(gpu.nextId) + 7
    ensures gpu.log == old(gpu.log) + ShadowTableCalls(dummies, old(gpu.nextId))
  {
    shadowSampler, envSampler, ssaoMix := CreateSamplersAndMix(gpu);
    var views := CreateDummyViews(gpu, dummies);
    var v2, v3, v4, v5 := views[0], views[1], views[2], views[3];
    entries := new BindEntry[8] [
      BindEntry(0, BufferRes(shadowCascadesBuffer)),
      BindEntry(1, SamplerRes(shadowSampler)),
      BindEntry(2, ViewRes(v2)),
      BindEntry(3, ViewRes(v3)),
      BindEntry(4, ViewRes(v4)),
      BindEntry(5, ViewRes(v5)),
      BindEntry(6, SamplerRes(envSampler)),
      BindEntry(7, BufferRes(ssaoMix))];
    assert entries[..] == InitialEntries(shadowCascadesBuffer, shadowSampler, envSampler, ssaoMix, [v2, v3, v4, v5]);
  }

  /** The output texture of the given size and its default view. */
  method CreateOutput(gpu: Device, width: nat, height: nat) returns (out: Id, view: Id)
    modifies gpu
    ensures out == old(gpu.nextId) && view == out + 1 && gpu.nextId == out + 2
    ensures gpu.log == old(gpu.log) + [CreateTexture(out, width, height), CreateView(out + 1, out, DefaultView)]
  {
    out := gpu.NewTexture(width, height);
    view := gpu.NewView(out, DefaultView);
  }

  /**
   * View the inputs of the first render: inputs 0 and 1, the depth aspect
   * and all aspects of input 2, input 3 as a 2D array (the shadow map), and
   * the SSAO input or the dummy R16F texture.
   */
  method CreateInputViews(gpu: Device, inputs: seq<Id>, dummies: DummyTextures) returns (views: seq<Id>)
    requires |inputs| >= 4
    modifies gpu
    ensures var base := old(gpu.nextId);
            && views == [base, base + 1, base + 2, base + 3, base + 4, base + 5]
            && gpu.nextId == base + 6
            && gpu.log == old(gpu.log) + ViewCalls(inputs, dummies, base)
  {
    var v0 := gpu.NewView(inputs[0], DefaultView);
    var v1 := gpu.NewView(inputs[1], DefaultView);
    var v2 := gpu.NewView(inputs[2], DepthOnly);
    var v3 := gpu.NewView(inputs[2], AllAspects);
    var v4 := gpu.NewView(inputs[3], Array2D);
    var ssaoTexture := if |inputs| > 4 then inputs[4] else dummies.r16fTexture;
    var v5 := gpu.NewView(ssaoTexture, DefaultView);
    views := [v0, v1, v2, v3, v4, v5];
  }

  /** The pipeline shared by every instance (a static field in the source), built by the first constructor. */
  class DirectionalAmbientPipelines {
    var renderPSO: Option<Id>

    constructor()
      ensures renderPSO == None
    {
      renderPSO := None;
    }

    /** Build the shared pipeline unless an earlier instance did. */
    method EnsurePipeline(gpu: Device)
      modifies this, gpu
      ensures old(renderPSO).Some? ==> renderPSO == old(renderPSO) && gpu.nextId == old(gpu.nextId) && gpu.log == old(gpu.log)
      ensures old(renderPSO).None? ==>
                && renderPSO == Some(old(gpu.nextId)) && gpu.nextId == old(gpu.nextId) + 1
                && gpu.log == old(gpu.log) + [CreatePipeline(old(gpu.nextId), RenderDesc)]
    {
      if renderPSO.None? {
        var pso := gpu.NewPipeline(RenderDesc);
        renderPSO := Some(pso);
      }
    }
  }

  class DirectionalAmbientLightRenderPass {
    const gpu: Device
    const pipelines: DirectionalAmbientPipelines
    const camera: Camera

    const shadowCascadesBuffer: Id
    const shadowSampler: Id
    const envSampler: Id
    /** The uniform holding the SSAO mix factor, 1 after construction. */
    const ssaoMixBuffer: Id
    /** The shadow bind-group table, eight entries with bindings 0 to 7. */
    const dirLightShadowBindGroupEntries: array<BindEntry>

    var outTextures: seq<Id>
    var outTextureView: Id
    var dirLightShadowBindGroup: Option<Id>

    var inputTextureViews: seq<Id>
    var gbufferTexturesBindGroup: Option<Id>
    var renderPassDescriptor: Option<PassDescriptor>

    /** The shadow table holds eight entries with bindings 0 to 7, in order. */
    predicate TableValid()
      reads this, dirLightShadowBindGroupEntries
    {
      && dirLightShadowBindGroupEntries.Length == 8
      && Bindings(dirLightShadowBindGroupEntries[..]) == [0, 1, 2, 3, 4, 5, 6, 7]
    }

    /**
     * The table keeps its eight bindings in order; the views are created
     * all at once, together with both bind groups; a memoised descriptor
     * is the one built from them.
     */
    predicate Valid()
      reads this, dirLightShadowBindGroupEntries
    {
      && TableValid()
      && (inputTextureViews == []
          || (|inputTextureViews| == 6 && gbufferTexturesBindGroup.Some? && dirLightShadowBindGroup.Some?))
      && (renderPassDescriptor.Some? ==>
            |inputTextureViews| == 6 && renderPassDescriptor.value == PassDescriptorFor(outTextureView, inputTextureViews))
    }

    /**
     * Create the two samplers, the SSAO mix buffer (written with 1 while
     * mapped), the four dummy views of the shadow table, the shared
     * pipeline unless it exists, and the output texture and its view.
     */
    constructor(gpu: Device, pipelines: DirectionalAmbientPipelines, camera: Camera, shadowCascadesBuffer: Id,
                dummies: DummyTextures, width: nat, height: nat)
      modifies gpu, pipelines
      ensures Valid() && fresh(dirLightShadowBindGroupEntries)
      ensures this.gpu == gpu && this.pipelines == pipelines && this.camera == camera
      ensures this.shadowCascadesBuffer == shadowCascadesBuffer
      ensures shadowSampler == old(gpu.nextId) && envSampler == old(gpu.nextId) + 1 && ssaoMixBuffer == old(gpu.nextId) + 2
      ensures dirLightShadowBindGroupEntries[..]
              == InitialEntries(shadowCascadesBuffer, shadowSampler, envSampler, ssaoMixBuffer,
                                [old(gpu.nextId) + 3, old(gpu.nextId) + 4, old(gpu.nextId) + 5, old(gpu.nextId) + 6])
      ensures old(pipelines.renderPSO).Some? ==> pipelines.renderPSO == old(pipelines.renderPSO)
      ensures old(pipelines.renderPSO).None? ==> pipelines.renderPSO == Some(old(gpu.nextId) + 7)
      ensures var t := old(gpu.nextId) + (if old(pipelines.renderPSO).Some? then 7 else 8);
              && outTextures == [t] && outTextureView == t + 1 && gpu.nextId == t + 2
              && gpu.log == old(gpu.log) + ShadowTableCalls(dummies, old(gpu.nextId))
                            + (if old(pipelines.renderPSO).Some? then [] else [CreatePipeline(old(gpu.nextId) + 7, RenderDesc)])
                            + [CreateTexture(t, width, height), CreateView(t + 1, t, DefaultView)]
      ensures inputTextureViews == [] && dirLightShadowBindGroup == None && renderPassDescriptor == None
    {
      this.gpu := gpu;
      this.pipelines := pipelines;
      this.camera := camera;
      this.shadowCascadesBuffer := shadowCascadesBuffer;
      var shadow, env, ssao, entries := CreateShadowTable(gpu, shadowCascadesBuffer, dummies);
      shadowSampler := shadow;
      envSampler := env;
      ssaoMixBuffer := ssao;
      dirLightShadowBindGroupEntries := entries;
      outTextures := [];
      outTextureView := 0;
      dirLightShadowBindGroup := None;
      inputTextureViews := [];
      gbufferTexturesBindGroup := None;
      renderPassDescriptor := None;
      new;
      pipelines.EnsurePipeline(gpu);
      var out, view := CreateOutput(gpu, width, height);
      outTextures := [out];
      outTextureView := view;
    }

    /** `ssaoMixFactor = v`: write `v` into the mix buffer. */
    method SetSsaoMixFactor(v: real)
      modifies gpu
      ensures gpu.nextId == old(gpu.nextId)
      ensures gpu.log == old(gpu.log) + [WriteBuffer(ssaoMixBuffer, Float32Data(v))]
    {
      gpu.Issue(WriteBuffer(ssaoMixBuffer, Float32Data(v)));
    }

    /** Rebuild the shadow bind group from the current table. */
    method RecreateDirLightShadowBindGroup()
      requires TableValid()
      modifies this`dirLightShadowBindGroup, gpu
      ensures TableValid()
      ensures dirLightShadowBindGroup == Some(old(gpu.nextId)) && gpu.nextId == old(gpu.nextId) + 1
      ensures gpu.log == old(gpu.log) + [CreateBindGroup(old(gpu.nextId), dirLightShadowBindGroupEntries[..])]
    {
      var g := gpu.NewBindGroup(dirLightShadowBindGroupEntries[..]);
      dirLightShadowBindGroup := Some(g);
    }

    /**
     * View `texture` as `kind`, put the view into slot `k` of the table and
     * rebuild the shadow bind group; the three IBL setters below are this
     * with slot 3, 4 or 5.
     */
    method SetSlotTexture(k: nat, texture: Id, kind: ViewKind)
      requires Valid() && k < 8
      modifies dirLightShadowBindGroupEntries, this`dirLightShadowBindGroup, gpu
      ensures Valid()
      ensures dirLightShadowBindGroupEntries[..] == Rebind(old(dirLightShadowBindGroupEntries[..]), k, ViewRes(old(gpu.nextId)))
      ensures dirLightShadowBindGroup == Some(old(gpu.nextId) + 1) && gpu.nextId == old(gpu.nextId) + 2
      ensures gpu.log == old(gpu.log) + [CreateView(old(gpu.nextId), texture, kind),
                                         CreateBindGroup(old(gpu.nextId) + 1, dirLightShadowBindGroupEntries[..])]
    {
      var v := gpu.NewView(texture, kind);
      dirLightShadowBindGroupEntries[k] := BindEntry(dirLightShadowBindGroupEntries[k].binding, ViewRes(v));
      assert dirLightShadowBindGroupEntries[..] == Rebind(old(dirLightShadowBindGroupEntries[..]), k, ViewRes(v));
      RecreateDirLightShadowBindGroup();
    }

    /** Bind a cube view of the diffuse irradiance map in slot 3. */
    method SetDiffuseIBLTexture(texture: Id)
      requires Valid()
      modifies dirLightShadowBindGroupEntries, this`dirLightShadowBindGroup, gpu
      ensures Valid()
      ensures dirLightShadowBindGroupEntries[..] == Rebind(old(dirLightShadowBindGroupEntries[..]), 3, ViewRes(old(gpu.nextId)))
      ensures dirLightShadowBindGroup == Some(old(gpu.nextId) + 1) && gpu.nextId == old(gpu.nextId) + 2
      ensures gpu.log == old(gpu.log) + [CreateView(old(gpu.nextId), texture, CubeView),
                                         CreateBindGroup(old(gpu.nextId) + 1, dirLightShadowBindGroupEntries[..])]
    {
      SetSlotTexture(3, texture, CubeView);
    }

    /** Bind a cube view of the prefiltered specular map in slot 4. */
    method SetSpecularIBLTexture(texture: Id)
      requires Valid()
      modifies dirLightShadowBindGroupEntries, this`dirLightShadowBindGroup, gpu
      ensures Valid()
      ensures dirLightShadowBindGroupEntries[..] == Rebind(old(dirLightShadowBindGroupEntries[..]), 4, ViewRes(old(gpu.nextId)))
      ensures dirLightShadowBindGroup == Some(old(gpu.nextId) + 1) && gpu.nextId == old(gpu.nextId) + 2
      ensures gpu.log == old(gpu.log) + [CreateView(old(gpu.nextId), texture, CubeView),
                                         CreateBindGroup(old(gpu.nextId) + 1, dirLightShadowBindGroupEntries[..])]
    {
      SetSlotTexture(4, texture, CubeView);
    }

    /** Bind a 2D view of the BRDF lookup table in slot 5. */
    method SetBDRFLutTexture(texture: Id)
      requires Valid()
      modifies dirLightShadowBindGroupEntries, this`dirLightShadowBindGroup, gpu
      ensures Valid()
      ensures dirLightShadowBindGroupEntries[..] == Rebind(old(dirLightShadowBindGroupEntries[..]), 5, ViewRes(old(gpu.nextId)))
      ensures dirLightShadowBindGroup == Some(old(gpu.nextId) + 1) && gpu.nextId == old(gpu.nextId) + 2
      ensures gpu.log == old(gpu.log) + [CreateView(old(gpu.nextId), texture, Plain2D),
                                         CreateBindGroup(old(gpu.nextId) + 1, dirLightShadowBindGroupEntries[..])]
    {
      SetSlotTexture(5, texture, Plain2D);
    }

    /** The memoised descriptor: built on the first call, returned unchanged afterwards. */
    method CreateRenderPassDescriptor() returns (d: PassDescriptor)
      requires Valid() && |inputTextureViews| == 6
      modifies this`renderPassDescriptor
      ensures Valid()
      ensures d == PassDescriptorFor(outTextureView, inputTextureViews)
      ensures old(renderPassDescriptor).Some? ==> d == old(renderPassDescriptor).value
      ensures renderPassDescriptor == Some(d)
    {
      if renderPassDescriptor.Some? {
        return renderPassDescriptor.value;
      }
      d := PassDescriptor(PassLabel, ColorAttachment(outTextureView, Clear),
                          Depth(DepthAttachment(inputTextureViews[3], true, false)));
      renderPassDescriptor := Some(d);
    }

    /**
     * On the first render only: view the inputs (the dummy R16F texture
     * standing in for a missing SSAO input), wire the G-buffer entries,
     * then put the shadow-map view (view 4) into slot 2 of the shadow table
     * and rebuild the shadow bind group.
     */
    method EnsureInputViews(scene: Scene, inputs: seq<Id>, dummies: DummyTextures)
      requires Valid() && |inputs| >= 4
      modifies this`inputTextureViews, this`gbufferTexturesBindGroup, this`dirLightShadowBindGroup
      modifies dirLightShadowBindGroupEntries, gpu
      ensures Valid() && |inputTextureViews| == 6
      ensures old(inputTextureViews) != [] ==>
                && inputTextureViews == old(inputTextureViews)
                && gbufferTexturesBindGroup == old(gbufferTexturesBindGroup)
                && dirLightShadowBindGroup == old(dirLightShadowBindGroup)
                && dirLightShadowBindGroupEntries[..] == old(dirLightShadowBindGroupEntries[..])
                && gpu.log == old(gpu.log) && gpu.nextId == old(gpu.nextId)
      ensures old(inputTextureViews) == [] ==>
                var base := old(gpu.nextId);
                && inputTextureViews == [base, base + 1, base + 2, base + 3, base + 4, base + 5]
                && gbufferTexturesBindGroup == Some(base + 6)
                && dirLightShadowBindGroup == Some(base + 7)
                && dirLightShadowBindGroupEntries[..] == Rebind(old(dirLightShadowBindGroupEntries[..]), 2, ViewRes(base + 4))
                && gpu.nextId == base + 8
                && gpu.log == old(gpu.log) + ViewCalls(inputs, dummies, base)
                                          + EntryCalls(inputTextureViews, camera.gpuBuffer, scene.lightingBuffer, base + 6)
                                          + [CreateBindGroup(base + 7, dirLightShadowBindGroupEntries[..])]
    {
      if inputTextureViews != [] {
        return;
      }
      inputTextureViews := CreateInputViews(gpu, inputs, dummies);
      WireGBuffer(scene);
      SetShadowMapView(inputTextureViews[4]);
    }

    /** Put the shadow-map view into slot 2 of the shadow table and rebuild the shadow bind group. */
    method SetShadowMapView(view: Id)
      requires TableValid()
      modifies this`dirLightShadowBindGroup, dirLightShadowBindGroupEntries, gpu
      ensures TableValid()
      ensures dirLightShadowBindGroupEntries[..] == Rebind(old(dirLightShadowBindGroupEntries[..]), 2, ViewRes(view))
      ensures dirLightShadowBindGroup == Some(old(gpu.nextId)) && gpu.nextId == old(gpu.nextId) + 1
      ensures gpu.log == old(gpu.log) + [CreateBindGroup(old(gpu.nextId), dirLightShadowBindGroupEntries[..])]
    {
      dirLightShadowBindGroupEntries[2] := BindEntry(2, ViewRes(view));
      assert dirLightShadowBindGroupEntries[..] == Rebind(old(dirLightShadowBindGroupEntries[..]), 2, ViewRes(view));
      RecreateDirLightShadowBindGroup();
    }

    /**
     * Point the base light pass's G-buffer entries 0 to 3 at views 0, 1, 2
     * and 5, entry 4 at the camera buffer and entry 5 at the lights buffer,
     * then rebuild its bind group.
     */
    method WireGBuffer(scene: Scene)
      requires |inputTextureViews| == 6
      modifies this`gbufferTexturesBindGroup, gpu
      ensures gbufferTexturesBindGroup == Some(old(gpu.nextId)) && gpu.nextId == old(gpu.nextId) + 1
      ensures gpu.log == old(gpu.log) + EntryCalls(inputTextureViews, camera.gpuBuffer, scene.lightingBuffer, old(gpu.nextId))
    {
      gpu.Issue(UpdateGBufferEntry(0, ViewRes(inputTextureViews[0])));
      gpu.Issue(UpdateGBufferEntry(1, ViewRes(inputTextureViews[1])));
      gpu.Issue(UpdateGBufferEntry(2, ViewRes(inputTextureViews[2])));
      gpu.Issue(UpdateGBufferEntry(3, ViewRes(inputTextureViews[5])));
      gpu.Issue(UpdateGBufferEntry(4, BufferRes(camera.gpuBuffer)));
      gpu.Issue(UpdateGBufferEntry(5, BufferRes(scene.lightingBuffer)));
      var g := gpu.NewGBufferBindGroup();
      gbufferTexturesBindGroup := Some(g);
    }

    /**
     * Draw the full-screen triangle with the shared pipeline and both bind
     * groups, inside debug markers when `debugGroups` (a build-time switch
     * of the rendering context) is on, and return the output textures.
     */
    method Render(scene: Scene, inputs: seq<Id>, dummies: DummyTextures, debugGroups: bool) returns (out: seq<Id>)
      requires Valid() && |inputs| >= 4 && pipelines.renderPSO.Some?
      modifies this`inputTextureViews, this`gbufferTexturesBindGroup, this`dirLightShadowBindGroup
      modifies this`renderPassDescriptor, dirLightShadowBindGroupEntries, gpu
      ensures Valid() && |inputTextureViews| == 6
      ensures out == outTextures
      ensures old(inputTextureViews) != [] ==>
                && inputTextureViews == old(inputTextureViews)
                && gbufferTexturesBindGroup == old(gbufferTexturesBindGroup)
                && dirLightShadowBindGroup == old(dirLightShadowBindGroup)
                && dirLightShadowBindGroupEntries[..] == old(dirLightShadowBindGroupEntries[..])
                && gpu.nextId == old(gpu.nextId)
      ensures old(inputTextureViews) == [] ==>
                var base := old(gpu.nextId);
                && inputTextureViews == [base, base + 1, base + 2, base + 3, base + 4, base + 5]
                && gbufferTexturesBindGroup == Some(base + 6)
                && dirLightShadowBindGroup == Some(base + 7)
                && dirLightShadowBindGroupEntries[..] == Rebind(old(dirLightShadowBindGroupEntries[..]), 2, ViewRes(base + 4))
                && gpu.nextId == base + 8
      ensures renderPassDescriptor == Some(PassDescriptorFor(outTextureView, inputTextureViews))
      ensures gpu.log == old(gpu.log)
                         + (if old(inputTextureViews) == []
                            then WiringCalls(inputs, dummies, camera.gpuBuffer, scene.lightingBuffer, old(gpu.nextId),
                                             old(dirLightShadowBindGroupEntries[..]))
                            else [])
                         + PassCalls(PassDescriptorFor(outTextureView, inputTextureViews), debugGroups,
                                     pipelines.renderPSO.value, gbufferTexturesBindGroup.value,
                                     dirLightShadowBindGroup.value)
    {
      EnsureInputViews(scene, inputs, dummies);
      var desc := CreateRenderPassDescriptor();
      EncodePass(desc, debugGroups, pipelines.renderPSO.value, gbufferTexturesBindGroup.value, dirLightShadowBindGroup.value);
      out := outTextures;
    }

    /** Record the pass: begin, optional debug group, pipeline, both bind groups, the triangle, end. */
    method EncodePass(desc: PassDescriptor, debugGroups: bool, pso: Id, gbufferGroup: Id, shadowGroup: Id)
      modifies gpu
      ensures gpu.nextId == old(gpu.nextId)
      ensures gpu.log == old(gpu.log) + PassCalls(desc, debugGroups, pso, gbufferGroup, shadowGroup)
    {
      gpu.Issue(BeginPass(desc));
      if debugGroups {
        gpu.Issue(PushDebugGroup);
      }
      gpu.Issue(BindRenderPSO(pso));
      gpu.Issue(SetBindGroup(0, gbufferGroup));
      gpu.Issue(SetBindGroup(1, shadowGroup));
      gpu.Issue(Draw(3));
      if debugGroups {
        gpu.Issue(PopDebugGroup);
      }
      gpu.Issue(End);
      gpu.Issue(PostRender);
    }
  }
}
