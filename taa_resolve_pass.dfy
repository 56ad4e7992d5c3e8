/**
 * The temporal anti-aliasing resolve pass
 * (src/app/render-passes/TAAResolveRenderPass.ts). It owns an output
 * texture and a history texture of the viewport's size. Each frame it draws
 * a full-screen triangle that blends the current colour with the history
 * into the output, then copies the output over the history for the next
 * frame. Its bind group (colour, velocity, history) is built once, on the
 * first render.
 */
module TAAResolvePass {
  import opened Outcomes
  import opened Gpu
  import opened Encoders

  const PassLabel: string := "TAA Resolve Pass"

  /** The pass's own pipeline (the source gives it no label): full-screen triangle, back faces culled, no depth. */
  const ResolveDesc: PipelineDesc := PipelineDesc("", TAAResolveShaders, false, CullBack)

  /** The three texture bindings: current colour, velocity, history. */
  function TextureEntries(colourView: Id, velocityView: Id, historyView: Id): (e: seq<BindEntry>)
    ensures Bindings(e) == [0, 1, 2]
  {
    [BindEntry(0, ViewRes(colourView)), BindEntry(1, ViewRes(velocityView)), BindEntry(2, ViewRes(historyView))]
  }

  /** The descriptor, rebuilt on every render: the output view, loaded rather than cleared, and no depth. */
  function PassDescriptorFor(outView: Id): PassDescriptor {
    PassDescriptor(PassLabel, ColorAttachment(outView, Load), NoDepth)
  }

  /**
   * The calls of a resize with `base` the first fresh handle: the old
   * output texture (if any) is destroyed before its replacement and its view
   * are created, and likewise the old history texture.
   */
  function ResizeCalls(oldOut: Option<Id>, oldHistory: Option<Id>, base: Id, width: nat, height: nat): seq<Call> {
    (if oldOut.Some? then [DestroyTexture(oldOut.value)] else [])
    + [CreateTexture(base, width, height), CreateView(base + 1, base, DefaultView)]
    + (if oldHistory.Some? then [DestroyTexture(oldHistory.value)] else [])
    + [CreateTexture(base + 2, width, height), CreateView(base + 3, base + 2, DefaultView)]
  }

  /** The calls of the first render that create the two input views and the bind group. */
  function BindCalls(inputs: seq<Id>, base: Id, historyView: Id): seq<Call>
    requires |inputs| >= 2
  {
    [ CreateView(base, inputs[0], DefaultView),
      CreateView(base + 1, inputs[1], DefaultView),
      CreateBindGroup(base + 2, TextureEntries(base, base + 1, historyView)) ]
  }

  /** The calls of the pass proper: draw into the output, end, copy output to history, resolve timing. */
  function PassCalls(outView: Id, pso: Id, group: Id, source: Id, destination: Id, extent: Extent): seq<Call> {
    [ BeginPass(PassDescriptorFor(outView)), BindRenderPSO(pso), SetBindGroup(0, group), Draw(3), End,
      CopyTextureToTexture(source, destination, extent), ResolveTiming ]
  }

  /**
   * The pass draws once, with the resolve pipeline and the texture bind
   * group bound, and the copy into the history follows the end of that pass.
   */
  lemma {:induction false} ResolveDrawsOnceThenCopies(st: EncState, outView: Id, pso: Id, group: Id, source: Id, destination: Id, extent: Extent)
    ensures Draws(st, PassCalls(outView, pso, group, source, destination, extent))
            == [EncState(Some(pso), Some(group), None, None, None)]
    ensures var calls := PassCalls(outView, pso, group, source, destination, extent);
            && DrawCount(calls[..5]) == 1 && calls[4] == End
            && calls[5] == CopyTextureToTexture(source, destination, extent)
  {
    var calls := PassCalls(outView, pso, group, source, destination, extent);
    var head := [BeginPass(PassDescriptorFor(outView)), BindRenderPSO(pso), SetBindGroup(0, group)];
    var tail := [End, CopyTextureToTexture(source, destination, extent), ResolveTiming];
    var s2 := EncState(Some(pso), Some(group), None, None, None);
    assert calls == head + ([Draw(3)] + tail);
    ResolveBinds(st, outView, pso, group);
    ReplayAppend(st, head, [Draw(3)] + tail);
    ReplayCons(s2, Draw(3), tail);
    QuietCalls(s2, tail);
    assert calls[..5] == [BeginPass(PassDescriptorFor(outView)), BindRenderPSO(pso), SetBindGroup(0, group), Draw(3), End];
    assert DrawCount([End]) == 0;
    assert DrawCount([Draw(3), End]) == 1;
    assert DrawCount([SetBindGroup(0, group), Draw(3), End]) == 1;
    assert DrawCount([BindRenderPSO(pso), SetBindGroup(0, group), Draw(3), End]) == 1;
  }

  /** Beginning the pass and binding the pipeline and the group draws nothing and leaves both bound. */
  lemma ResolveBinds(st: EncState, outView: Id, pso: Id, group: Id)
    ensures var head := [BeginPass(PassDescriptorFor(outView)), BindRenderPSO(pso), SetBindGroup(0, group)];
            && Replay(st, head) == EncState(Some(pso), Some(group), None, None, None)
            && Draws(st, head) == []
  {
    var s1 := EncState(Some(pso), None, None, None, None);
    var s2 := EncState(Some(pso), Some(group), None, None, None);
    assert Effect(Unbound, BindRenderPSO(pso)) == s1;
    assert Effect(s1, SetBindGroup(0, group)) == s2;
    ReplayCons(s1, SetBindGroup(0, group), []);
    ReplayCons(Unbound, BindRenderPSO(pso), [SetBindGroup(0, group)]);
    ReplayCons(st, BeginPass(PassDescriptorFor(outView)), [BindRenderPSO(pso), SetBindGroup(0, group)]);
  }

  class TAAResolveRenderPass {
    const gpu: Device
    const renderPSO: Id

    var outTexture: Option<Id>
    var outTextureView: Id
    var historyTexture: Option<Id>
    var historyTextureView: Id
    /** The textures and extent of the copy descriptors (mip level and origin are always zero). */
    var sourceCopyTexture: Id
    var destCopyTexture: Id
    var copyTextureExtent: Extent

    var inputTextureViews: seq<Id>
    var textureBindGroup: Option<Id>
    /** The history view that `textureBindGroup` holds in its binding 2. */
    var boundHistoryView: Id

    /**
     * The views are created together with the bind group; every handle the
     * pass holds was handed out by the device.
     */
    predicate Valid()
      reads this, gpu
    {
      && (inputTextureViews == [] <==> textureBindGroup.None?)
      && (inputTextureViews == [] || |inputTextureViews| == 2)
      && (textureBindGroup.Some? ==> boundHistoryView < gpu.nextId)
      && (outTexture.Some? ==> outTexture.value < gpu.nextId)
      && (historyTexture.Some? ==> historyTexture.value < gpu.nextId && historyTextureView < gpu.nextId)
    }

    /** `onResize` has run: the copy goes from the output texture to the history texture over one layer. */
    predicate Resized()
      reads this
    {
      && outTexture.Some? && historyTexture.Some?
      && sourceCopyTexture == outTexture.value && destCopyTexture == historyTexture.value
      && outTexture.value != historyTexture.value
      && copyTextureExtent.layers == 1
    }

    /** The bind group, if built, samples the current history texture's view. */
    predicate HistoryBindingCurrent()
      reads this
    {
      textureBindGroup.Some? ==> boundHistoryView == historyTextureView
    }

    /** Build the pass's own pipeline; the textures wait for the first resize. */
    constructor(gpu: Device)
      modifies gpu
      ensures Valid() && HistoryBindingCurrent() && this.gpu == gpu
      ensures renderPSO == old(gpu.nextId) && gpu.nextId == renderPSO + 1
      ensures gpu.log == old(gpu.log) + [CreatePipeline(renderPSO, ResolveDesc)]
      ensures outTexture == None && historyTexture == None
      ensures inputTextureViews == [] && textureBindGroup == None
    {
      this.gpu := gpu;
      var pso := gpu.NewPipeline(ResolveDesc);
      renderPSO := pso;
      outTexture := None;
      historyTexture := None;
      outTextureView := 0;
      historyTextureView := 0;
      sourceCopyTexture := 0;
      destCopyTexture := 0;
      copyTextureExtent := Extent(0, 0, 0);
      inputTextureViews := [];
      textureBindGroup := None;
      boundHistoryView := 0;
    }

    /**
     * Destroy and recreate the output and history textures at the new size,
     * with their views and the copy descriptors. The input views and the
     * bind group are left as they are, so a bind group built before the
     * resize keeps sampling the destroyed history texture's view.
     */
    method OnResize(width: nat, height: nat)
      requires Valid()
      modifies this`outTexture, this`outTextureView, this`historyTexture, this`historyTextureView
      modifies this`sourceCopyTexture, this`destCopyTexture, this`copyTextureExtent, gpu
      ensures Valid() && Resized()
      ensures var base := old(gpu.nextId);
              && outTexture == Some(base) && outTextureView == base + 1
              && historyTexture == Some(base + 2) && historyTextureView == base + 3
              && gpu.nextId == base + 4
              && gpu.log == old(gpu.log) + ResizeCalls(old(outTexture), old(historyTexture), base, width, height)
      ensures copyTextureExtent == Extent(width, height, 1)
      ensures inputTextureViews == old(inputTextureViews) && textureBindGroup == old(textureBindGroup)
      ensures textureBindGroup.Some? ==> !HistoryBindingCurrent()
    {
      ReplaceOutTexture(width, height);
      ReplaceHistoryTexture(width, height);
      copyTextureExtent := Extent(width, height, 1);
    }

    /** Destroy the output texture if there is one, then create it anew with its view; it is the copy source. */
    method ReplaceOutTexture(width: nat, height: nat)
      modifies this`outTexture, this`outTextureView, this`sourceCopyTexture, gpu
      ensures var base := old(gpu.nextId);
              && outTexture == Some(base) && outTextureView == base + 1 && sourceCopyTexture == base
              && gpu.nextId == base + 2
              && gpu.log == old(gpu.log) + (if old(outTexture).Some? then [DestroyTexture(old(outTexture).value)] else [])
                            + [CreateTexture(base, width, height), CreateView(base + 1, base, DefaultView)]
    {
      if outTexture.Some? {
        gpu.Issue(DestroyTexture(outTexture.value));
      }
      var out := gpu.NewTexture(width, height);
      outTexture := Some(out);
      outTextureView := gpu.NewView(out, DefaultView);
      sourceCopyTexture := out;
    }

    /** Destroy the history texture if there is one, then create it anew with its view; it is the copy destination. */
    method ReplaceHistoryTexture(width: nat, height: nat)
      modifies this`historyTexture, this`historyTextureView, this`destCopyTexture, gpu
      ensures var base := old(gpu.nextId);
              && historyTexture == Some(base) && historyTextureView == base + 1 && destCopyTexture == base
              && gpu.nextId == base + 2
              && gpu.log == old(gpu.log) + (if old(historyTexture).Some? then [DestroyTexture(old(historyTexture).value)] else [])
                            + [CreateTexture(base, width, height), CreateView(base + 1, base, DefaultView)]
    {
      if historyTexture.Some? {
        gpu.Issue(DestroyTexture(historyTexture.value));
      }
      var history := gpu.NewTexture(width, height);
      historyTexture := Some(history);
      historyTextureView := gpu.NewView(history, DefaultView);
      destCopyTexture := history;
    }

    /**
     * The resize the pass needs: the same, and then the input views and the
     * bind group are dropped so that the next render rebuilds them from the
     * new history view.
     */
    method OnResizeInvalidating(width: nat, height: nat)
      requires Valid()
      modifies this`outTexture, this`outTextureView, this`historyTexture, this`historyTextureView
      modifies this`sourceCopyTexture, this`destCopyTexture, this`copyTextureExtent
      modifies this`inputTextureViews, this`textureBindGroup, gpu
      ensures Valid() && Resized() && HistoryBindingCurrent()
      ensures var base := old(gpu.nextId);
              && outTexture == Some(base) && outTextureView == base + 1
              && historyTexture == Some(base + 2) && historyTextureView == base + 3
              && gpu.nextId == base + 4
              && gpu.log == old(gpu.log) + ResizeCalls(old(outTexture), old(historyTexture), base, width, height)
      ensures copyTextureExtent == Extent(width, height, 1)
      ensures inputTextureViews == [] && textureBindGroup == None
    {
      OnResize(width, height);
      inputTextureViews := [];
      textureBindGroup := None;
    }

    /**
     * Build the input views and the bind group on the first call, then draw,
     * end, copy the output over the history and resolve the timestamps;
     * return the output texture.
     */
    method Render(inputs: seq<Id>) returns (out: seq<Id>)
      requires Valid() && Resized() && |inputs| >= 2
      modifies this`inputTextureViews, this`textureBindGroup, this`boundHistoryView, gpu
      ensures Valid() && textureBindGroup.Some?
      ensures out == [outTexture.value]
      ensures old(inputTextureViews) != [] ==>
                && inputTextureViews == old(inputTextureViews) && textureBindGroup == old(textureBindGroup)
                && boundHistoryView == old(boundHistoryView)
                && gpu.nextId == old(gpu.nextId)
                && gpu.log == old(gpu.log) + PassCalls(outTextureView, renderPSO, textureBindGroup.value,
                                                       sourceCopyTexture, destCopyTexture, copyTextureExtent)
      ensures old(inputTextureViews) == [] ==>
                var base := old(gpu.nextId);
                && inputTextureViews == [base, base + 1] && textureBindGroup == Some(base + 2)
                && boundHistoryView == historyTextureView
                && gpu.nextId == base + 3
                && gpu.log == old(gpu.log) + BindCalls(inputs, base, historyTextureView)
                              + PassCalls(outTextureView, renderPSO, base + 2,
                                          sourceCopyTexture, destCopyTexture, copyTextureExtent)
      ensures old(HistoryBindingCurrent()) ==> HistoryBindingCurrent()
    {
      if inputTextureViews == [] {
        BindInputs(inputs);
      }
      EncodePass();
      out := [outTexture.value];
    }

    /** View inputs 0 and 1 and build the bind group over them and the current history view. */
    method BindInputs(inputs: seq<Id>)
      requires Valid() && historyTexture.Some? && |inputs| >= 2
      modifies this`inputTextureViews, this`textureBindGroup, this`boundHistoryView, gpu
      ensures Valid() && HistoryBindingCurrent()
      ensures var base := old(gpu.nextId);
              && inputTextureViews == [base, base + 1] && textureBindGroup == Some(base + 2)
              && boundHistoryView == historyTextureView
              && gpu.nextId == base + 3
              && gpu.log == old(gpu.log) + BindCalls(inputs, base, historyTextureView)
    {
      var v0 := gpu.NewView(inputs[0], DefaultView);
      var v1 := gpu.NewView(inputs[1], DefaultView);
      var g := gpu.NewBindGroup(TextureEntries(v0, v1, historyTextureView));
      inputTextureViews := [v0, v1];
      textureBindGroup := Some(g);
      boundHistoryView := historyTextureView;
    }

    /** Draw into the output with the bind group, end, copy the output over the history, resolve the timestamps. */
    method EncodePass()
      requires textureBindGroup.Some?
      modifies gpu
      ensures gpu.nextId == old(gpu.nextId)
      ensures gpu.log == old(gpu.log) + PassCalls(outTextureView, renderPSO, textureBindGroup.value,
                                                  sourceCopyTexture, destCopyTexture, copyTextureExtent)
    {
      gpu.Issue(BeginPass(PassDescriptorFor(outTextureView)));
      gpu.Issue(BindRenderPSO(renderPSO));
      gpu.Issue(SetBindGroup(0, textureBindGroup.value));
      gpu.Issue(Draw(3));
      gpu.Issue(End);
      gpu.Issue(CopyTextureToTexture(sourceCopyTexture, destCopyTexture, copyTextureExtent));
      gpu.Issue(ResolveTiming);
    }
  }

  /**
   * Resize, render, resize again and render: the second render samples the
   * history through view 4, a view of texture 3, which the second resize
   * destroyed; the current history view is 11.
   */
  method StaleHistoryAfterResize() returns (bound: Id, current: Id, destroyed: bool)
    ensures bound == 4 && current == 11
    ensures destroyed
  {
    var gpu := new Device();
    var pass := new TAAResolveRenderPass(gpu);
    pass.OnResize(4, 4);
    var first := pass.Render([100, 101]);
    ghost var log1 := gpu.log;
    pass.OnResize(8, 8);
    assert gpu.log[|log1|] == DestroyTexture(1);
    assert gpu.log[|log1| + 3] == DestroyTexture(3);
    var second := pass.Render([100, 101]);
    bound := pass.boundHistoryView;
    current := pass.historyTextureView;
    destroyed := DestroyTexture(3) in gpu.log;
  }

  /**
   * The same sequence with the invalidating resize: the second render
   * rebuilds the bind group, which then samples the current history view.
   */
  method FreshHistoryAfterResize() returns (bound: Id, current: Id)
    ensures bound == current && current == 11
  {
    var gpu := new Device();
    var pass := new TAAResolveRenderPass(gpu);
    pass.OnResizeInvalidating(4, 4);
    var first := pass.Render([100, 101]);
    pass.OnResizeInvalidating(8, 8);
    var second := pass.Render([100, 101]);
    bound := pass.boundHistoryView;
    current := pass.historyTextureView;
  }
}
