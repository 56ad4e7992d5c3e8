/**
 * The non-culled point-light pass
 * (src/app/render-passes/PointLightsNonCulledRenderPass.ts): it shades one
 * light-volume sphere per point light into the lighting target, choosing
 * for each light the pipeline that culls back faces when the camera is
 * outside the light volume and the one that culls front faces when it is
 * inside, and skipping `setPipeline` when the previous light already bound
 * the right one.
 */
module PointLightsPass {
  import opened Outcomes
  import opened Linear
  import opened Gpu
  import opened Scenes
  import opened Encoders
  import opened Cameras

  const FrontFaceLabel: string := "Render Non-Instanced Non-Culled Point Lights Front Face PSO Descriptor"
  const BackFaceLabel: string := "Render Non-Instanced Non-Culled Point Lights Back Face PSO Descriptor"
  const PassLabel: string := "Non-Instanced Non-Culled Point Lights Render Pass"

  /** The pipeline built first: back faces culled, depth not written. */
  const FrontFaceDesc: PipelineDesc := PipelineDesc(FrontFaceLabel, PointLightsNonCulledShaders, false, CullBack)

  /** Where the camera is relative to a light's volume, as the pass decides it. */
  datatype Face = CameraOutside | CameraInside

  /** The squared Euclidean distance between two points. */
  function SquaredDistance(a: Vec3, b: Vec3): (r: real)
    ensures r >= 0.0
  {
    (a.x - b.x) * (a.x - b.x) + (a.y - b.y) * (a.y - b.y) + (a.z - b.z) * (a.z - b.z)
  }

  /**
   * `dist > radius + 0.1`, decided without a square root: a distance is
   * never negative, so it exceeds a negative bound outright, and otherwise
   * exceeds the bound exactly when its square exceeds the bound's square.
   */
  predicate Beyond(light: Vec3, camera: Vec3, radius: real) {
    var bound := radius + 0.1;
    bound < 0.0 || SquaredDistance(light, camera) > bound * bound
  }

  function Classify(light: Vec3, camera: Vec3, radius: real): Face {
    if Beyond(light, camera, radius) then CameraOutside else CameraInside
  }

  /**
   * `Classify` is the strict comparison of the distance with the radius
   * plus 0.1, for the distance `d` between the two points: the camera
   * counts as outside exactly when `d > radius + 0.1`, so a camera at
   * exactly that distance is inside.
   */
  lemma ClassifyComparesDistance(light: Vec3, camera: Vec3, radius: real, d: real)
    requires d >= 0.0 && d * d == SquaredDistance(light, camera)
    ensures Classify(light, camera, radius) == CameraOutside <==> d > radius + 0.1
  {
    var bound := radius + 0.1;
    if bound >= 0.0 {
      SquaresOrdered(d, bound);
    }
  }

  /** Squaring preserves and reflects the order of non-negative numbers. */
  lemma SquaresOrdered(a: real, b: real)
    requires a >= 0.0 && b >= 0.0
    ensures a * a > b * b <==> a > b
  {
    if a > b {
      var gap, sum := a - b, a + b;
      ProductSign(gap, sum);
      SquareGap(a, b);
      assert a * a - b * b == gap * sum;
    } else {
      var gap, sum := b - a, b + a;
      ProductSign(gap, sum);
      SquareGap(b, a);
      assert b * b - a * a == gap * sum;
    }
  }

  lemma SquareGap(a: real, b: real)
    ensures a * a - b * b == (a - b) * (a + b)
  {
  }

  lemma ProductSign(a: real, b: real)
    requires a >= 0.0 && b >= 0.0
    ensures a * b >= 0.0
    ensures a > 0.0 && b > 0.0 ==> a * b > 0.0
  {
  }

  /** The pipeline for a face: `front` (culls back faces) from outside, `back` (culls front faces) from inside. */
  function PipelineFor(face: Face, front: Id, back: Id): Id {
    if face == CameraOutside then front else back
  }

  /** One light as the loop sees it: its classification and its bind group. */
  datatype LightDraw = LightDraw(face: Face, bindGroup: Id)

  /** The lights of the scene, classified against the camera position, in list order. */
  function LightDraws(lights: seq<PointLight>, camera: Vec3): (r: seq<LightDraw>)
    ensures |r| == |lights|
    ensures forall i :: 0 <= i < |lights| ==>
              r[i] == LightDraw(Classify(lights[i].position, camera, lights[i].radius), lights[i].bindGroup)
  {
    if lights == [] then []
    else [LightDraw(Classify(lights[0].position, camera, lights[0].radius), lights[0].bindGroup)]
         + LightDraws(lights[1..], camera)
  }

  /**
   * The calls the loop issues for the first `k` lights: for each, a
   * `setPipeline` unless the previous light had the same classification,
   * then its bind group in slot 1 and an indexed draw of the sphere.
   */
  function LightCalls(ds: seq<LightDraw>, k: nat, front: Id, back: Id, indexCount: nat): seq<Call>
    requires k <= |ds|
  {
    if k == 0 then []
    else
      var d := ds[k - 1];
      var rebind := k == 1 || ds[k - 2].face != d.face;
      LightCalls(ds, k - 1, front, back, indexCount)
      + (if rebind then [SetPipeline(PipelineFor(d.face, front, back))] else [])
      + [SetBindGroup(1, d.bindGroup), DrawIndexed(indexCount)]
  }

  /** The classifications of `ds`, in order. */
  function Faces(ds: seq<LightDraw>): (r: seq<Face>)
    ensures |r| == |ds| && forall i :: 0 <= i < |ds| ==> r[i] == ds[i].face
  {
    if ds == [] then [] else [ds[0].face] + Faces(ds[1..])
  }

  /** `fs` with every maximal run of equal entries collapsed to one entry. */
  function Dedup(fs: seq<Face>): seq<Face>
    decreases |fs|
  {
    if |fs| <= 1 then fs
    else if fs[|fs| - 1] == fs[|fs| - 2] then Dedup(fs[..|fs| - 1])
    else Dedup(fs[..|fs| - 1]) + [fs[|fs| - 1]]
  }

  /** The number of positions where the classification differs from the one before. */
  function Changes(fs: seq<Face>): nat
    decreases |fs|
  {
    if |fs| <= 1 then 0
    else Changes(fs[..|fs| - 1]) + (if fs[|fs| - 1] == fs[|fs| - 2] then 0 else 1)
  }

  /**
   * `Dedup` keeps one entry per maximal run: no two neighbours are equal,
   * it ends with the last entry, and it has one entry for the first light
   * plus one per change of classification.
   */
  lemma {:induction false} DedupIsRuns(fs: seq<Face>)
    ensures forall i :: 0 < i < |Dedup(fs)| ==> Dedup(fs)[i] != Dedup(fs)[i - 1]
    ensures fs != [] ==> |Dedup(fs)| > 0 && Dedup(fs)[|Dedup(fs)| - 1] == fs[|fs| - 1]
    ensures |Dedup(fs)| == (if fs == [] then 0 else 1 + Changes(fs))
    decreases |fs|
  {
    if |fs| > 1 {
      var init := fs[..|fs| - 1];
      DedupIsRuns(init);
      assert init[|init| - 1] == fs[|fs| - 2];
    }
  }

  function PipelineSeq(fs: seq<Face>, front: Id, back: Id): (r: seq<Id>)
    ensures |r| == |fs| && forall i :: 0 <= i < |fs| ==> r[i] == PipelineFor(fs[i], front, back)
  {
    if fs == [] then [] else [PipelineFor(fs[0], front, back)] + PipelineSeq(fs[1..], front, back)
  }

  lemma {:induction false} PipelineSeqSnoc(fs: seq<Face>, f: Face, front: Id, back: Id)
    ensures PipelineSeq(fs + [f], front, back) == PipelineSeq(fs, front, back) + [PipelineFor(f, front, back)]
  {
    assert |PipelineSeq(fs + [f], front, back)| == |PipelineSeq(fs, front, back) + [PipelineFor(f, front, back)]|;
  }

  /**
   * The `setPipeline` calls of the loop bind the pipelines of the runs of
   * equal classifications, one call per maximal run, in order.
   */
  lemma {:induction false} SetPipelinePerRun(ds: seq<LightDraw>, k: nat, front: Id, back: Id, indexCount: nat)
    requires k <= |ds|
    ensures Pipelines(LightCalls(ds, k, front, back, indexCount)) == PipelineSeq(Dedup(Faces(ds[..k])), front, back)
    decreases k
  {
    if k > 0 {
      SetPipelinePerRun(ds, k - 1, front, back, indexCount);
      var d := ds[k - 1];
      var p := PipelineFor(d.face, front, back);
      var rebind := k == 1 || ds[k - 2].face != d.face;
      var pre := LightCalls(ds, k - 1, front, back, indexCount);
      var bind := if rebind then [SetPipeline(p)] else [];
      assert LightCalls(ds, k, front, back, indexCount) == pre + bind + [SetBindGroup(1, d.bindGroup), DrawIndexed(indexCount)];
      LightPipelines(pre, bind, p, d.bindGroup, indexCount);
      DedupStep(ds, k);
      if rebind {
        PipelineSeqSnoc(Dedup(Faces(ds[..k - 1])), d.face, front, back);
      }
    }
  }

  /** Adding light `k` to the prefix adds its classification to the runs exactly when it starts a new run. */
  lemma DedupStep(ds: seq<LightDraw>, k: nat)
    requires 0 < k <= |ds|
    ensures Dedup(Faces(ds[..k]))
            == Dedup(Faces(ds[..k - 1])) + (if k == 1 || ds[k - 2].face != ds[k - 1].face then [ds[k - 1].face] else [])
  {
    var fs := Faces(ds[..k]);
    assert fs[..k - 1] == Faces(ds[..k - 1]);
    if k == 1 {
      assert fs == [ds[0].face];
      assert Faces(ds[..0]) == [];
    }
  }

  /** One light's calls add the pipeline of its `setPipeline`, if it has one, and no other. */
  lemma LightPipelines(pre: seq<Call>, bind: seq<Call>, p: Id, group: Id, indexCount: nat)
    requires bind == [] || bind == [SetPipeline(p)]
    ensures Pipelines(pre + bind + [SetBindGroup(1, group), DrawIndexed(indexCount)])
            == Pipelines(pre) + (if bind == [] then [] else [p])
  {
    var tail := [SetBindGroup(1, group), DrawIndexed(indexCount)];
    PipelinesAppend(pre + bind, tail);
    PipelinesAppend(pre, bind);
    assert tail[1..] == [DrawIndexed(indexCount)];
    assert [DrawIndexed(indexCount)][1..] == [];
    assert Pipelines([DrawIndexed(indexCount)]) == [];
    assert Pipelines(tail) == [];
    if bind != [] {
      assert bind[1..] == [];
    }
  }

  /** The number of `setPipeline` calls is the number of maximal runs of equal classifications. */
  lemma SetPipelineCount(ds: seq<LightDraw>, front: Id, back: Id, indexCount: nat)
    ensures |Pipelines(LightCalls(ds, |ds|, front, back, indexCount))| == (if ds == [] then 0 else 1 + Changes(Faces(ds)))
  {
    SetPipelinePerRun(ds, |ds|, front, back, indexCount);
    assert ds[..|ds|] == ds;
    DedupIsRuns(Faces(ds));
  }

  /**
   * What the draw of light `d` sees, when the loop started from `st`: the
   * pipeline of its classification, its bind group in slot 1, and slot 0
   * and the buffers as they were before the loop.
   */
  predicate DrawSees(e: EncState, st: EncState, d: LightDraw, front: Id, back: Id) {
    && e.pipeline == Some(PipelineFor(d.face, front, back))
    && e.group1 == Some(d.bindGroup)
    && e.group0 == st.group0
    && e.indexBuffer == st.indexBuffer
    && e.vertexBuffer0 == st.vertexBuffer0
  }

  /**
   * Whatever was bound before, each of the first `k` lights is drawn with
   * the pipeline of its own classification and its own bind group in slot
   * 1, and afterwards the pipeline of the `k`-th light is still bound.
   */
  lemma {:induction false} LightCallsDraws(st: EncState, ds: seq<LightDraw>, k: nat, front: Id, back: Id, indexCount: nat)
    requires k <= |ds|
    ensures var calls := LightCalls(ds, k, front, back, indexCount);
            && |Draws(st, calls)| == k
            && (forall i :: 0 <= i < k ==> DrawSees(Draws(st, calls)[i], st, ds[i], front, back))
            && (k > 0 ==> Replay(st, calls).pipeline == Some(PipelineFor(ds[k - 1].face, front, back)))
            && Replay(st, calls).group0 == st.group0
            && Replay(st, calls).indexBuffer == st.indexBuffer
            && Replay(st, calls).vertexBuffer0 == st.vertexBuffer0
    decreases k
  {
    if k > 0 {
      LightCallsDraws(st, ds, k - 1, front, back, indexCount);
      var d := ds[k - 1];
      var p := PipelineFor(d.face, front, back);
      var rebind := k == 1 || ds[k - 2].face != d.face;
      var pre := LightCalls(ds, k - 1, front, back, indexCount);
      var bind := if rebind then [SetPipeline(p)] else [];
      var calls := LightCalls(ds, k, front, back, indexCount);
      assert calls == pre + bind + [SetBindGroup(1, d.bindGroup), DrawIndexed(indexCount)];
      if !rebind {
        assert PipelineFor(ds[k - 2].face, front, back) == p;
      }
      AppendLight(st, pre, bind, p, d.bindGroup, indexCount);
      var prev := Draws(st, pre);
      var draws := Draws(st, calls);
      assert draws == prev + [Replay(st, pre).(pipeline := Some(p), group1 := Some(d.bindGroup))];
      forall i | 0 <= i < k
        ensures DrawSees(draws[i], st, ds[i], front, back)
      {
        if i < k - 1 {
          assert draws[i] == prev[i];
        }
      }
    }
  }

  /**
   * Appending one light's calls to a prefix: the optional `setPipeline`,
   * then its bind group and the draw, add one draw that sees pipeline `p`
   * and the light's group, and change nothing else that is bound.
   */
  lemma AppendLight(st: EncState, pre: seq<Call>, bind: seq<Call>, p: Id, group: Id, indexCount: nat)
    requires bind == [] || bind == [SetPipeline(p)]
    requires bind == [] ==> Replay(st, pre).pipeline == Some(p)
    ensures var tail := [SetBindGroup(1, group), DrawIndexed(indexCount)];
            var after := Replay(st, pre).(pipeline := Some(p), group1 := Some(group));
            && Draws(st, pre + bind + tail) == Draws(st, pre) + [after]
            && Replay(st, pre + bind + tail) == after
  {
    var tail := [SetBindGroup(1, group), DrawIndexed(indexCount)];
    ReplayAppend(st, pre + bind, tail);
    ReplayAppend(st, pre, bind);
    MaybeSetPipeline(Replay(st, pre), bind, p);
    BindAndDraw(Replay(st, pre + bind), group, indexCount);
  }

  /** The optional `setPipeline` of a light draws nothing and binds `p` if present. */
  lemma MaybeSetPipeline(s: EncState, bind: seq<Call>, p: Id)
    requires bind == [] || bind == [SetPipeline(p)]
    ensures Draws(s, bind) == []
    ensures Replay(s, bind) == if bind == [] then s else s.(pipeline := Some(p))
  {
    if bind != [] {
      ReplayCons(s, SetPipeline(p), []);
    }
  }

  /** Binding a light's group in slot 1 and drawing records one draw that sees that group. */
  lemma BindAndDraw(mid: EncState, group: Id, indexCount: nat)
    ensures var after := mid.(group1 := Some(group));
            && Draws(mid, [SetBindGroup(1, group), DrawIndexed(indexCount)]) == [after]
            && Replay(mid, [SetBindGroup(1, group), DrawIndexed(indexCount)]) == after
  {
    var after := mid.(group1 := Some(group));
    ReplayCons(after, DrawIndexed(indexCount), []);
    ReplayCons(mid, SetBindGroup(1, group), [DrawIndexed(indexCount)]);
  }

  /** The descriptor the pass memoises: lighting target loaded and stored, depth read-only. */
  function PassDescriptorFor(views: seq<Id>): PassDescriptor
    requires |views| == 6
  {
    PassDescriptor(PassLabel, ColorAttachment(views[4], Load), Depth(DepthAttachment(views[2], true, true)))
  }

  /** The texture view 5 is made from: the SSAO input when there is one, else the dummy R16F texture. */
  function SsaoSource(inputs: seq<Id>, dummies: DummyTextures): Id {
    if |inputs| > 4 then inputs[4] else dummies.r16fTexture
  }

  /** The six views the first render creates, with `base` the first fresh handle. */
  function ViewCalls(inputs: seq<Id>, dummies: DummyTextures, base: Id): seq<Call>
    requires |inputs| >= 4
  {
    [ CreateView(base, inputs[0], DefaultView),
      CreateView(base + 1, inputs[1], DefaultView),
      CreateView(base + 2, inputs[2], AllAspects),
      CreateView(base + 3, inputs[2], DepthOnly),
      CreateView(base + 4, inputs[3], DefaultView),
      CreateView(base + 5, SsaoSource(inputs, dummies), DefaultView) ]
  }

  /**
   * The G-buffer wiring that follows: entries 0 to 3 get views 0, 1, 3 and
   * 5, entry 4 the camera buffer, and the bind group `group` is rebuilt.
   */
  function EntryCalls(views: seq<Id>, cameraBuffer: Id, group: Id): seq<Call>
    requires |views| == 6
  {
    [ UpdateGBufferEntry(0, ViewRes(views[0])),
      UpdateGBufferEntry(1, ViewRes(views[1])),
      UpdateGBufferEntry(2, ViewRes(views[3])),
      UpdateGBufferEntry(3, ViewRes(views[5])),
      UpdateGBufferEntry(4, BufferRes(cameraBuffer)),
      RecreateGBufferBindGroup(group) ]
  }

  /** All of the first render's wiring, with `base` the first fresh handle. */
  function WiringCalls(inputs: seq<Id>, dummies: DummyTextures, cameraBuffer: Id, base: Id): seq<Call>
    requires |inputs| >= 4
  {
    ViewCalls(inputs, dummies, base) + EntryCalls(FreshRun(base, 6), cameraBuffer, base + 6)
  }

  /** The `n` handles a device hands out next, starting at `base`. */
  function FreshRun(base: Id, n: nat): (r: seq<Id>)
    ensures |r| == n && forall i :: 0 <= i < n ==> r[i] == base + i
  {
    if n == 0 then [] else FreshRun(base, n - 1) + [base + n - 1]
  }

  /** Everything `render` records from `beginRenderPass` on. */
  function PassCalls(desc: PassDescriptor, sphere: ProxyGeometry, gbufferGroup: Id, ds: seq<LightDraw>, front: Id, back: Id): seq<Call> {
    PassPrelude(desc, sphere, gbufferGroup)
    + LightCalls(ds, |ds|, front, back, sphere.indexCount)
    + [End, PostRender]
  }

  /** The calls before the loop: begin the pass, bind the sphere's buffers and the G-buffer bind group. */
  function PassPrelude(desc: PassDescriptor, sphere: ProxyGeometry, gbufferGroup: Id): seq<Call> {
    [BeginPass(desc), SetIndexBuffer(sphere.indexBuffer), SetVertexBuffer(0, sphere.vertexBuffer), SetBindGroup(0, gbufferGroup)]
  }

  /** The prelude draws nothing and leaves exactly the sphere and the G-buffer bind group bound. */
  lemma {:induction false} PassPreludeBinds(st: EncState, desc: PassDescriptor, sphere: ProxyGeometry, gbufferGroup: Id)
    ensures Draws(st, PassPrelude(desc, sphere, gbufferGroup)) == []
    ensures Replay(st, PassPrelude(desc, sphere, gbufferGroup))
            == EncState(None, Some(gbufferGroup), None, Some(sphere.indexBuffer), Some(sphere.vertexBuffer))
  {
    var prelude := PassPrelude(desc, sphere, gbufferGroup);
    var s1 := Unbound.(indexBuffer := Some(sphere.indexBuffer));
    var s2 := s1.(vertexBuffer0 := Some(sphere.vertexBuffer));
    var s3 := s2.(group0 := Some(gbufferGroup));
    assert prelude[1..][1..][1..][1..] == [];
    assert Draws(s3, prelude[1..][1..][1..][1..]) == [] && Replay(s3, prelude[1..][1..][1..][1..]) == s3;
    assert Draws(s2, prelude[1..][1..][1..]) == [] && Replay(s2, prelude[1..][1..][1..]) == s3;
    assert Draws(s1, prelude[1..][1..]) == [] && Replay(s1, prelude[1..][1..]) == s3;
    assert Draws(Unbound, prelude[1..]) == [] && Replay(Unbound, prelude[1..]) == s3;
  }

  /** Ending the pass draws nothing. */
  lemma EpilogueDrawsNothing(st: EncState)
    ensures Draws(st, [End, PostRender]) == []
  {
    assert [End, PostRender][1..] == [PostRender];
    assert Draws(st, [PostRender]) == [];
  }

  /**
   * Every draw of the pass, one per light in list order, sees the pipeline
   * of that light's classification, the G-buffer bind group in slot 0, the
   * light's own bind group in slot 1 and the sphere's index and vertex
   * buffers.
   */
  lemma {:induction false} EachLightDrawnWithItsPipeline(st: EncState, desc: PassDescriptor, sphere: ProxyGeometry, gbufferGroup: Id,
                                                         ds: seq<LightDraw>, front: Id, back: Id)
    ensures var draws := Draws(st, PassCalls(desc, sphere, gbufferGroup, ds, front, back));
            && |draws| == |ds|
            && forall i :: 0 <= i < |ds| ==>
                 draws[i] == EncState(Some(PipelineFor(ds[i].face, front, back)), Some(gbufferGroup),
                                      Some(ds[i].bindGroup), Some(sphere.indexBuffer), Some(sphere.vertexBuffer))
  {
    var prelude := PassPrelude(desc, sphere, gbufferGroup);
    var loop := LightCalls(ds, |ds|, front, back, sphere.indexCount);
    assert PassCalls(desc, sphere, gbufferGroup, ds, front, back) == prelude + loop + [End, PostRender];
    ReplayAppend(st, prelude + loop, [End, PostRender]);
    ReplayAppend(st, prelude, loop);
    PassPreludeBinds(st, desc, sphere, gbufferGroup);
    EpilogueDrawsNothing(Replay(st, prelude + loop));
    var bound := Replay(st, prelude);
    LightCallsDraws(bound, ds, |ds|, front, back, sphere.indexCount);
    assert Draws(st, prelude + loop + [End, PostRender]) == Draws(bound, loop);
  }

  /**
   * View the inputs of the first render: views of inputs 0 and 1, all
   * aspects and the depth aspect of input 2, input 3, and the SSAO input
   * (or the dummy R16F texture when there is none).
   */
  method CreateInputViews(gpu: Device, inputs: seq<Id>, dummies: DummyTextures) returns (views: seq<Id>)
    requires |inputs| >= 4
    modifies gpu
    ensures views == FreshRun(old(gpu.nextId), 6) && gpu.nextId == old(gpu.nextId) + 6
    ensures gpu.log == old(gpu.log) + ViewCalls(inputs, dummies, old(gpu.nextId))
  {
    var v0 := gpu.NewView(inputs[0], DefaultView);
    var v1 := gpu.NewView(inputs[1], DefaultView);
    var v2 := gpu.NewView(inputs[2], AllAspects);
    var v3 := gpu.NewView(inputs[2], DepthOnly);
    var v4 := gpu.NewView(inputs[3], DefaultView);
    var ssaoTexture := if |inputs| > 4 then inputs[4] else dummies.r16fTexture;
    var v5 := gpu.NewView(ssaoTexture, DefaultView);
    views := [v0, v1, v2, v3, v4, v5];
    assert views == FreshRun(old(gpu.nextId), 6);
  }

  /**
   * The two pipelines every instance of the pass shares (static fields of
   * the pass class in the source): `front` culls back faces, `back` culls
   * front faces; both are built by the first constructor.
   */
  class PointLightPipelines {
    var front: Option<Id>
    var back: Option<Id>

    constructor()
      ensures front == None && back == None
    {
      front := None;
      back := None;
    }
  }

  class PointLightsNonCulledRenderPass {
    const gpu: Device
    const pipelines: PointLightPipelines
    const camera: Camera

    /** Views of the inputs, created on the first render. */
    var inputTextureViews: seq<Id>
    /** The G-buffer bind group the base light pass rebuilds. */
    var gbufferTexturesBindGroup: Option<Id>
    var renderPassDescriptor: Option<PassDescriptor>

    /**
     * The views are created all at once with the G-buffer bind group, and
     * a memoised descriptor is the one built from them.
     */
    predicate Valid()
      reads this
    {
      && (inputTextureViews == [] || (|inputTextureViews| == 6 && gbufferTexturesBindGroup.Some?))
      && (renderPassDescriptor.Some? ==>
            |inputTextureViews| == 6 && renderPassDescriptor.value == PassDescriptorFor(inputTextureViews))
    }

    /**
     * Build the two shared pipelines unless both exist: first the
     * back-face-culling one, then the same descriptor relabelled with front
     * faces culled.
     */
    constructor(gpu: Device, pipelines: PointLightPipelines, camera: Camera)
      modifies gpu, pipelines
      ensures Valid()
      ensures this.gpu == gpu && this.pipelines == pipelines && this.camera == camera
      ensures inputTextureViews == [] && renderPassDescriptor == None
      ensures old(pipelines.front).Some? && old(pipelines.back).Some? ==>
                && pipelines.front == old(pipelines.front) && pipelines.back == old(pipelines.back)
                && gpu.log == old(gpu.log) && gpu.nextId == old(gpu.nextId)
      ensures !(old(pipelines.front).Some? && old(pipelines.back).Some?) ==>
                && pipelines.front == Some(old(gpu.nextId)) && pipelines.back == Some(old(gpu.nextId) + 1)
                && gpu.nextId == old(gpu.nextId) + 2
                && gpu.log == old(gpu.log) + [CreatePipeline(old(gpu.nextId), FrontFaceDesc),
                                              CreatePipeline(old(gpu.nextId) + 1, FrontFaceDesc.(name := BackFaceLabel, cull := CullFront))]
    {
      this.gpu := gpu;
      this.pipelines := pipelines;
      this.camera := camera;
      inputTextureViews := [];
      gbufferTexturesBindGroup := None;
      renderPassDescriptor := None;
      new;
      if !(pipelines.front.Some? && pipelines.back.Some?) {
        var desc := FrontFaceDesc;
        var p := gpu.NewPipeline(desc);
        pipelines.front := Some(p);
        desc := desc.(name := BackFaceLabel, cull := CullFront);
        p := gpu.NewPipeline(desc);
        pipelines.back := Some(p);
      }
    }

    /** The memoised descriptor: built on the first call, returned unchanged afterwards. */
    method CreateRenderPassDescriptor() returns (d: PassDescriptor)
      requires Valid() && |inputTextureViews| == 6
      modifies this`renderPassDescriptor
      ensures Valid()
      ensures d == PassDescriptorFor(inputTextureViews)
      ensures old(renderPassDescriptor).Some? ==> d == old(renderPassDescriptor).value
      ensures renderPassDescriptor == Some(d)
    {
      if renderPassDescriptor.Some? {
        return renderPassDescriptor.value;
      }
      d := PassDescriptor(PassLabel, ColorAttachment(inputTextureViews[4], Load),
                          Depth(DepthAttachment(inputTextureViews[2], true, true)));
      renderPassDescriptor := Some(d);
    }

    /**
     * On the first render only: view the inputs (the dummy R16F texture
     * standing in for a missing SSAO input), point the G-buffer entries at
     * them and the camera buffer, and rebuild the G-buffer bind group.
     */
    method EnsureInputViews(inputs: seq<Id>, dummies: DummyTextures)
      requires Valid() && |inputs| >= 4
      modifies this`inputTextureViews, this`gbufferTexturesBindGroup, gpu
      ensures Valid() && |inputTextureViews| == 6
      ensures old(inputTextureViews) != [] ==>
                && inputTextureViews == old(inputTextureViews)
                && gbufferTexturesBindGroup == old(gbufferTexturesBindGroup)
                && gpu.log == old(gpu.log) && gpu.nextId == old(gpu.nextId)
      ensures old(inputTextureViews) == [] ==>
                && inputTextureViews == FreshRun(old(gpu.nextId), 6)
                && gbufferTexturesBindGroup == Some(old(gpu.nextId) + 6)
                && gpu.nextId == old(gpu.nextId) + 7
                && gpu.log == old(gpu.log) + WiringCalls(inputs, dummies, camera.gpuBuffer, old(gpu.nextId))
    {
      if inputTextureViews != [] {
        return;
      }
      ghost var base := gpu.nextId;
      inputTextureViews := CreateInputViews(gpu, inputs, dummies);
      ghost var viewed := gpu.log;
      WireGBuffer();
      assert gpu.log == viewed + EntryCalls(FreshRun(base, 6), camera.gpuBuffer, base + 6);
    }

    /**
     * Point the base light pass's G-buffer entries 0 to 3 at views 0, 1, 3
     * and 5 and entry 4 at the camera buffer, then rebuild its bind group.
     */
    method WireGBuffer()
      requires |inputTextureViews| == 6
      modifies this`gbufferTexturesBindGroup, gpu
      ensures gbufferTexturesBindGroup == Some(old(gpu.nextId)) && gpu.nextId == old(gpu.nextId) + 1
      ensures gpu.log == old(gpu.log) + EntryCalls(inputTextureViews, camera.gpuBuffer, old(gpu.nextId))
    {
      gpu.Issue(UpdateGBufferEntry(0, ViewRes(inputTextureViews[0])));
      gpu.Issue(UpdateGBufferEntry(1, ViewRes(inputTextureViews[1])));
      gpu.Issue(UpdateGBufferEntry(2, ViewRes(inputTextureViews[3])));
      gpu.Issue(UpdateGBufferEntry(3, ViewRes(inputTextureViews[5])));
      gpu.Issue(UpdateGBufferEntry(4, BufferRes(camera.gpuBuffer)));
      var g := gpu.NewGBufferBindGroup();
      gbufferTexturesBindGroup := Some(g);
    }

    /**
     * Shade every point light of `scene` into the lighting target and
     * return the lighting target alone.
     */
    method Render(scene: Scene, inputs: seq<Id>, sphere: ProxyGeometry, dummies: DummyTextures) returns (out: seq<Id>)
      requires Valid() && |inputs| >= 4
      requires pipelines.front.Some? && pipelines.back.Some?
      modifies this`inputTextureViews, this`gbufferTexturesBindGroup, this`renderPassDescriptor, gpu
      ensures Valid() && |inputTextureViews| == 6 && gbufferTexturesBindGroup.Some?
      ensures out == [inputs[3]]
      ensures old(inputTextureViews) != [] ==> inputTextureViews == old(inputTextureViews)
      ensures renderPassDescriptor == Some(PassDescriptorFor(inputTextureViews))
      ensures gpu.log == old(gpu.log)
                         + (if old(inputTextureViews) == [] then WiringCalls(inputs, dummies, camera.gpuBuffer, old(gpu.nextId)) else [])
                         + PassCalls(PassDescriptorFor(inputTextureViews), sphere, gbufferTexturesBindGroup.value,
                                     LightDraws(scene.pointLights, camera.position),
                                     pipelines.front.value, pipelines.back.value)
    {
      ghost var wiring := if inputTextureViews == [] then WiringCalls(inputs, dummies, camera.gpuBuffer, gpu.nextId) else [];
      EnsureInputViews(inputs, dummies);
      ghost var wired := gpu.log;
      var desc := CreateRenderPassDescriptor();
      EncodePass(desc, sphere, gbufferTexturesBindGroup.value, scene.pointLights, pipelines.front.value, pipelines.back.value);
      out := [inputs[3]];
    }

    /**
     * Record the pass: begin, bind the sphere and the G-buffer bind group,
     * draw every light, end and finish.
     */
    method EncodePass(desc: PassDescriptor, sphere: ProxyGeometry, gbufferGroup: Id, lights: seq<PointLight>, front: Id, back: Id)
      modifies gpu
      ensures gpu.nextId == old(gpu.nextId)
      ensures gpu.log == old(gpu.log) + PassCalls(desc, sphere, gbufferGroup, LightDraws(lights, camera.position), front, back)
    {
      gpu.Issue(BeginPass(desc));
      gpu.Issue(SetIndexBuffer(sphere.indexBuffer));
      gpu.Issue(SetVertexBuffer(0, sphere.vertexBuffer));
      gpu.Issue(SetBindGroup(0, gbufferGroup));
      ghost var bound := gpu.log;
      ghost var prelude := PassPrelude(desc, sphere, gbufferGroup);
      assert bound == old(gpu.log) + prelude;
      DrawLights(lights, front, back, sphere.indexCount);
      ghost var loop := LightCalls(LightDraws(lights, camera.position), |lights|, front, back, sphere.indexCount);
      gpu.Issue(End);
      gpu.Issue(PostRender);
      assert gpu.log == old(gpu.log) + (prelude + loop + [End, PostRender]);
    }

    /**
     * The loop over the lights: per light, bind the pipeline of its
     * classification unless the previous light bound it already (two flags
     * remember which one that was), then its bind group and the draw.
     */
    method DrawLights(lights: seq<PointLight>, front: Id, back: Id, indexCount: nat)
      modifies gpu
      ensures gpu.nextId == old(gpu.nextId)
      ensures gpu.log == old(gpu.log) + LightCalls(LightDraws(lights, camera.position), |lights|, front, back, indexCount)
    {
      ghost var base := gpu.log;
      ghost var ds := LightDraws(lights, camera.position);
      var isPrevFrontFaceCullPSOBound := false;
      var isPrevBackFaceCullPSOBound := false;
      for i := 0 to |lights|
        invariant gpu.nextId == old(gpu.nextId)
        invariant gpu.log == base + LightCalls(ds, i, front, back, indexCount)
        invariant i == 0 ==> !isPrevFrontFaceCullPSOBound && !isPrevBackFaceCullPSOBound
        invariant i > 0 ==> isPrevFrontFaceCullPSOBound == (ds[i - 1].face == CameraOutside)
        invariant i > 0 ==> isPrevBackFaceCullPSOBound == (ds[i - 1].face == CameraInside)
      {
        var pLight := lights[i];
        var face := Classify(pLight.position, camera.position, pLight.radius);
        assert face == ds[i].face;
        isPrevFrontFaceCullPSOBound, isPrevBackFaceCullPSOBound :=
          DrawLight(face, pLight.bindGroup, isPrevFrontFaceCullPSOBound, isPrevBackFaceCullPSOBound, front, back, indexCount);
        assert LightCalls(ds, i + 1, front, back, indexCount)
               == LightCalls(ds, i, front, back, indexCount)
                  + (if i == 0 || ds[i - 1].face != face then [SetPipeline(PipelineFor(face, front, back))] else [])
                  + [SetBindGroup(1, pLight.bindGroup), DrawIndexed(indexCount)];
      }
    }

    /**
     * One iteration of the loop: bind the pipeline of the light's
     * classification unless the flags say it is bound already, update the
     * flags, then bind the light's group and draw.
     */
    method DrawLight(face: Face, group: Id, prevFront: bool, prevBack: bool, front: Id, back: Id, indexCount: nat)
      returns (nowFront: bool, nowBack: bool)
      modifies gpu
      ensures nowFront == (face == CameraOutside) && nowBack == (face == CameraInside)
      ensures gpu.nextId == old(gpu.nextId)
      ensures var bound := if face == CameraOutside then prevFront else prevBack;
              gpu.log == old(gpu.log) + (if bound then [] else [SetPipeline(PipelineFor(face, front, back))])
                                      + [SetBindGroup(1, group), DrawIndexed(indexCount)]
    {
      if face == CameraOutside {
        if !prevFront {
          gpu.Issue(SetPipeline(front));
        }
        nowFront, nowBack := true, false;
      } else {
        if !prevBack {
          gpu.Issue(SetPipeline(back));
        }
        nowFront, nowBack := false, true;
      }
      gpu.Issue(SetBindGroup(1, group));
      gpu.Issue(DrawIndexed(indexCount));
    }
  }
}
