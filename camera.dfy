/**
 * The camera's per-frame protocol (src/renderer/camera/Camera.ts): the
 * jitter switch and its changed flag, the frame counter that picks a
 * sample of the 16-entry jitter table, the copy of the projection-view
 * matrix into the previous-frame slot, the single uniform upload per
 * frame, the matrix cascade and the enumeration of the frustum corners.
 *
 * The jitter bookkeeping is specified by a small state machine (`Step`,
 * `Run`); the methods of `Camera` are proved to move the camera's state
 * as `Step` does, and the lemmas about `Run` carry the frame-to-frame
 * properties.
 */
module Cameras {
  import opened Linear
  import opened Gpu

  /** The up vector every view matrix is built with. */
  const UpVector: Vec3 := Vec3(0.0, 1.0, 0.0)

  /** The sub-pixel sample table before rescaling: the (2, 3) Halton sequence, 16 entries. */
  const HaltonTable: seq<Jitter> := [
    Jitter(0.5, 0.333333),
    Jitter(0.25, 0.666667),
    Jitter(0.75, 0.111111),
    Jitter(0.125, 0.444444),
    Jitter(0.625, 0.777778),
    Jitter(0.375, 0.222222),
    Jitter(0.875, 0.555556),
    Jitter(0.0625, 0.888889),
    Jitter(0.5625, 0.037037),
    Jitter(0.3125, 0.37037),
    Jitter(0.8125, 0.703704),
    Jitter(0.1875, 0.148148),
    Jitter(0.6875, 0.481481),
    Jitter(0.4375, 0.814815),
    Jitter(0.9375, 0.259259),
    Jitter(0.03125, 0.592593)
  ]

  /** Every table entry lies strictly inside the unit square. */
  lemma HaltonTableInUnitSquare()
    ensures |HaltonTable| == 16
    ensures forall i :: 0 <= i < 16 ==> 0.0 < HaltonTable[i].x < 1.0 && 0.0 < HaltonTable[i].y < 1.0
  {
  }

  /** Entry `i` of the table rescaled to the viewport: `((H[i] - 0.5) / size) * 2` per axis. */
  function RescaledSample(i: nat, w: nat, h: nat): (r: Jitter)
    requires i < 16 && w > 0 && h > 0
    ensures r.x * (w as real) == (HaltonTable[i].x - 0.5) * 2.0
    ensures r.y * (h as real) == (HaltonTable[i].y - 0.5) * 2.0
  {
    Jitter(((HaltonTable[i].x - 0.5) / (w as real)) * 2.0, ((HaltonTable[i].y - 0.5) / (h as real)) * 2.0)
  }

  /** The whole rescaled table. */
  function RescaledTable(w: nat, h: nat): (r: seq<Jitter>)
    requires w > 0 && h > 0
    ensures |r| == 16
    ensures forall i :: 0 <= i < 16 ==> r[i] == RescaledSample(i, w, h)
  {
    seq(16, i requires 0 <= i < 16 => RescaledSample(i, w, h))
  }

  /**
   * A rescaled sample moves the projection by less than half a pixel on
   * each axis: a pixel spans 2/w of clip space horizontally and 2/h
   * vertically.
   */
  lemma {:induction false} RescaledSampleWithinHalfPixel(i: nat, w: nat, h: nat)
    requires i < 16 && w > 0 && h > 0
    ensures -1.0 < RescaledSample(i, w, h).x * (w as real) < 1.0
    ensures -1.0 < RescaledSample(i, w, h).y * (h as real) < 1.0
  {
    HaltonTableInUnitSquare();
  }

  /** The jitter-related state of a camera: the switch, its changed flag, the frame counter and the uploaded offset. */
  datatype JitterState = JitterState(shouldJitter: bool, changed: bool, frameCounter: nat, offset: Jitter)

  /** What happens to a camera between frames and at their edges. */
  datatype FrameEvent = JitterSwitched(value: bool) | FrameStart | FrameEnd

  /**
   * The effect of one event, with `table` the current (rescaled) sample
   * table. Setting the switch always raises the changed flag; a frame start
   * zeroes the offset when the switch was just turned off, always lowers
   * the flag, and while jitter is on writes the sample the counter selects;
   * a frame end advances the counter.
   */
  function Step(s: JitterState, e: FrameEvent, table: seq<Jitter>): (r: JitterState)
    requires |table| == 16
    ensures r.shouldJitter == (if e.JitterSwitched? then e.value else s.shouldJitter)
    ensures r.changed == e.JitterSwitched? || (e.FrameEnd? && s.changed)
    ensures r.frameCounter == (if e.FrameEnd? then s.frameCounter + 1 else s.frameCounter)
    ensures !e.FrameStart? ==> r.offset == s.offset
    ensures e.FrameStart? && s.shouldJitter ==> r.offset == table[s.frameCounter % 16]
    ensures e.FrameStart? && !s.shouldJitter ==> r.offset == (if s.changed then NoJitter else s.offset)
  {
    match e
    case JitterSwitched(v) => s.(shouldJitter := v, changed := true)
    case FrameEnd => s.(frameCounter := s.frameCounter + 1)
    case FrameStart =>
      var cleared := if s.changed && !s.shouldJitter then NoJitter else s.offset;
      var offset := if s.shouldJitter then table[s.frameCounter % 16] else cleared;
      s.(changed := false, offset := offset)
  }

  /** The state after the events `es`, in order, with the table fixed throughout. */
  function Run(s: JitterState, es: seq<FrameEvent>, table: seq<Jitter>): JitterState
    requires |table| == 16
    decreases |es|
  {
    if es == [] then s else Run(Step(s, es[0], table), es[1..], table)
  }

  function Repeat(e: FrameEvent, k: nat): (r: seq<FrameEvent>)
    ensures |r| == k && forall i :: 0 <= i < k ==> r[i] == e
  {
    if k == 0 then [] else [e] + Repeat(e, k - 1)
  }

  /** Frame ends only advance the counter, one per call. */
  lemma {:induction false} FrameEndsAdvanceCounter(s: JitterState, k: nat, table: seq<Jitter>)
    requires |table| == 16
    ensures Run(s, Repeat(FrameEnd, k), table) == s.(frameCounter := s.frameCounter + k)
    decreases k
  {
    if k > 0 {
      var es := Repeat(FrameEnd, k);
      assert es[1..] == Repeat(FrameEnd, k - 1);
      FrameEndsAdvanceCounter(Step(s, FrameEnd, table), k - 1, table);
    }
  }

  /** The number of frame ends in `es`. */
  function Ends(es: seq<FrameEvent>): nat
    decreases |es|
  {
    if es == [] then 0 else (if es[0].FrameEnd? then 1 else 0) + Ends(es[1..])
  }

  /** No event of `es` touches the switch. */
  predicate NoSwitch(es: seq<FrameEvent>) {
    forall i :: 0 <= i < |es| ==> !es[i].JitterSwitched?
  }

  /** `k` whole frames: a frame start, then a frame end, `k` times. */
  function Frames(k: nat): seq<FrameEvent> {
    if k == 0 then [] else [FrameStart, FrameEnd] + Frames(k - 1)
  }

  /** Whole frames never touch the switch, and `k` of them hold `k` frame ends. */
  lemma {:induction false} FramesHaveEnds(k: nat)
    ensures NoSwitch(Frames(k)) && Ends(Frames(k)) == k
  {
    if k > 0 {
      FramesHaveEnds(k - 1);
      var rest := Frames(k - 1);
      var es := [FrameStart, FrameEnd] + rest;
      assert es[1..] == [FrameEnd] + rest;
      assert ([FrameEnd] + rest)[1..] == rest;
      assert forall i :: 2 <= i < |es| ==> es[i] == rest[i - 2];
    }
  }

  /** Events that leave the switch alone keep it, and advance the counter once per frame end. */
  lemma {:induction false} UnswitchedRun(s: JitterState, es: seq<FrameEvent>, table: seq<Jitter>)
    requires |table| == 16 && NoSwitch(es)
    ensures Run(s, es, table).shouldJitter == s.shouldJitter
    ensures Run(s, es, table).frameCounter == s.frameCounter + Ends(es)
    decreases |es|
  {
    if es != [] {
      assert NoSwitch(es[1..]) by {
        forall i | 0 <= i < |es[1..]|
          ensures !es[1..][i].JitterSwitched?
        {
          assert es[1..][i] == es[i + 1];
        }
      }
      UnswitchedRun(Step(s, es[0], table), es[1..], table);
    }
  }

  /**
   * While jitter is on, the sample written at a frame start recurs at the
   * frame start that follows any run of events with 16n frame ends and no
   * change of the switch.
   */
  lemma JitterSampleRecurs(s: JitterState, es: seq<FrameEvent>, n: nat, table: seq<Jitter>)
    requires |table| == 16 && s.shouldJitter
    requires NoSwitch(es) && Ends(es) == 16 * n
    ensures Step(Run(s, es, table), FrameStart, table).offset == Step(s, FrameStart, table).offset
  {
    UnswitchedRun(s, es, table);
    PeriodSixteen(s.frameCounter, n);
    var r := Run(s, es, table);
    assert r.frameCounter % 16 == s.frameCounter % 16;
  }

  /** Adding 16n frames does not change which sample the counter selects. */
  lemma {:induction false} PeriodSixteen(a: nat, n: nat)
    ensures (a + 16 * n) % 16 == a % 16
    decreases n
  {
    if n > 0 {
      PeriodSixteen(a, n - 1);
      assert a + 16 * n == (a + 16 * (n - 1)) + 16;
    }
  }

  /** In particular, while jitter is on, 16n whole frames later the same sample is written again. */
  lemma JitterSampleRecursAfterFrames(s: JitterState, n: nat, table: seq<Jitter>)
    requires |table| == 16 && s.shouldJitter
    ensures Step(Run(s, Frames(16 * n), table), FrameStart, table).offset == Step(s, FrameStart, table).offset
  {
    FramesHaveEnds(16 * n);
    JitterSampleRecurs(s, Frames(16 * n), n, table);
  }

  /**
   * Jitter is off, and either the offset is already zero or the switch has
   * changed since the last frame start (so the next one zeroes it).
   */
  predicate Quiet(s: JitterState) {
    !s.shouldJitter && (s.changed || s.offset == NoJitter)
  }

  /** Any frame start from a quiet state uploads a zero offset. */
  lemma QuietFrameStartHasNoOffset(s: JitterState, table: seq<Jitter>)
    requires |table| == 16 && Quiet(s)
    ensures Step(s, FrameStart, table).offset == NoJitter
  {
  }

  /**
   * Turning jitter off, or any sequence of events that never turns it on,
   * keeps a quiet camera quiet, so every frame start on the way uploads a
   * zero offset.
   */
  lemma {:induction false} StaysQuiet(s: JitterState, es: seq<FrameEvent>, table: seq<Jitter>)
    requires |table| == 16 && Quiet(s)
    requires forall i :: 0 <= i < |es| ==> es[i] != JitterSwitched(true)
    ensures Quiet(Run(s, es, table))
    decreases |es|
  {
    if es != [] {
      var t := Step(s, es[0], table);
      assert Quiet(t);
      StaysQuiet(t, es[1..], table);
    }
  }

  /** After jitter is turned off, the offset stays zero from the next frame start on, whatever follows that never turns it on. */
  lemma DisabledOffsetStaysZero(s: JitterState, es: seq<FrameEvent>, table: seq<Jitter>)
    requires |table| == 16
    requires forall i :: 0 <= i < |es| ==> es[i] != JitterSwitched(true)
    ensures Run(s, [JitterSwitched(false)] + es + [FrameStart], table).offset == NoJitter
  {
    var t := Step(s, JitterSwitched(false), table);
    assert ([JitterSwitched(false)] + es + [FrameStart])[1..] == es + [FrameStart];
    RunAppend(t, es, [FrameStart], table);
    StaysQuiet(t, es, table);
    QuietFrameStartHasNoOffset(Run(t, es, table), table);
  }

  lemma {:induction false} RunAppend(s: JitterState, a: seq<FrameEvent>, b: seq<FrameEvent>, table: seq<Jitter>)
    requires |table| == 16
    ensures Run(s, a + b, table) == Run(Run(s, a, table), b, table)
    decreases |a|
  {
    if a == [] {
      assert a + b == b;
    } else {
      assert (a + b)[1..] == a[1..] + b;
      RunAppend(Step(s, a[0], table), a[1..], b, table);
    }
  }

  /** A corner of the normalised device cube, before the inverse projection-view maps it to world space. */
  datatype NdcCorner = NdcCorner(x: int, y: int, z: int)

  /**
   * The `k`-th corner of the enumeration: x outermost, then y, then z, each
   * counting 0, 1; x and y map to -1, 1 and z stays 0, 1.
   */
  function CornerAt(k: nat): (c: NdcCorner)
    requires k < 8
    ensures c.x in {-1, 1} && c.y in {-1, 1} && c.z in {0, 1}
  {
    NdcCorner(2 * (k / 4) - 1, 2 * (k / 2 % 2) - 1, k % 2)
  }

  /** The position of a corner in the enumeration. */
  function IndexOf(c: NdcCorner): int {
    (if c.x == 1 then 4 else 0) + (if c.y == 1 then 2 else 0) + c.z
  }

  /** Every position of the enumeration is recovered from its corner, so no corner is listed twice. */
  lemma {:induction false} CornerAtIndexOf(k: nat)
    requires k < 8
    ensures IndexOf(CornerAt(k)) == k
  {
    assert k / 4 == (if k >= 4 then 1 else 0);
    assert k / 2 % 2 == (if k % 4 >= 2 then 1 else 0);
  }

  /** Every corner of the cube is listed, at the position `IndexOf` gives. */
  lemma {:induction false} IndexOfCornerAt(c: NdcCorner)
    requires c.x in {-1, 1} && c.y in {-1, 1} && c.z in {0, 1}
    ensures 0 <= IndexOf(c) < 8 && CornerAt(IndexOf(c)) == c
  {
    var k := IndexOf(c);
    assert k / 4 == (if c.x == 1 then 1 else 0);
    assert k / 2 % 2 == (if c.y == 1 then 1 else 0);
    assert k % 2 == c.z;
  }

  /** A world-space frustum corner: the corner `ndc` mapped through `through` (the perspective divide is not modelled). */
  datatype WorldCorner = Unprojected(through: Mat, ndc: NdcCorner)

  class Camera {
    const gpu: Device
    /** The uniform buffer the camera uploads to each frame. */
    const gpuBuffer: Id
    /** The rescaled jitter table; all zero until the first resize. */
    const hamiltonSequence: array<Jitter>

    var position: Vec3
    var lookAt: Vec3

    var projectionMatrix: Mat
    var viewMatrix: Mat
    var projectionViewMatrix: Mat
    var inverseProjectionViewMatrix: Mat
    var prevFrameProjectionViewMatrix: Mat

    var viewportWidth: nat
    var viewportHeight: nat

    var shouldJitter: bool
    var shouldJitterChanged: bool
    var frameCounter: nat

    /** The host-side copy of the uniform struct; fields are set one by one and uploaded whole. */
    var uniforms: CameraUniform

    /** The jitter table keeps its 16 entries. */
    predicate Valid()
      reads this
    {
      hamiltonSequence.Length == 16
    }

    /** The camera's jitter state, as `Step` sees it. */
    function State(): JitterState
      reads this
    {
      JitterState(shouldJitter, shouldJitterChanged, frameCounter, uniforms.jitterOffset)
    }

    /**
     * A camera at the origin with all matrices zero (the matrix library's
     * `create`), jitter off, and one uniform buffer of `uniformSize` bytes
     * created on `gpu`.
     */
    constructor(gpu: Device, uniformSize: nat)
      modifies gpu
      ensures this.gpu == gpu
      ensures gpuBuffer == old(gpu.nextId) && gpu.nextId == gpuBuffer + 1
      ensures gpu.log == old(gpu.log) + [CreateBuffer(gpuBuffer, uniformSize)]
      ensures Valid() && fresh(hamiltonSequence)
      ensures forall i :: 0 <= i < 16 ==> hamiltonSequence[i] == NoJitter
      ensures State() == JitterState(false, false, 0, NoJitter)
      ensures position == Origin && lookAt == Origin
      ensures projectionMatrix == Zero && viewMatrix == Zero && projectionViewMatrix == Zero
      ensures inverseProjectionViewMatrix == Zero && prevFrameProjectionViewMatrix == Zero
      ensures uniforms == CameraUniform(Zero, Zero, Zero, Zero, Zero, 0, 0, NoJitter, Origin)
    {
      this.gpu := gpu;
      var buffer := gpu.NewBuffer(uniformSize);
      gpuBuffer := buffer;
      position := Origin;
      lookAt := Origin;
      projectionMatrix := Zero;
      viewMatrix := Zero;
      projectionViewMatrix := Zero;
      inverseProjectionViewMatrix := Zero;
      prevFrameProjectionViewMatrix := Zero;
      viewportWidth := 0;
      viewportHeight := 0;
      shouldJitter := false;
      shouldJitterChanged := false;
      frameCounter := 0;
      hamiltonSequence := new Jitter[16](_ => NoJitter);
      uniforms := CameraUniform(Zero, Zero, Zero, Zero, Zero, 0, 0, NoJitter, Origin);
    }

    /** `shouldJitter = v`: store the value and raise the changed flag, even when the value is the same. */
    method SetShouldJitter(v: bool)
      requires Valid()
      modifies this`shouldJitter, this`shouldJitterChanged
      ensures State() == Step(old(State()), JitterSwitched(v), hamiltonSequence[..])
    {
      shouldJitter := v;
      shouldJitterChanged := true;
    }

    /**
     * Fold the pending jitter switch into the uniforms, write the selected
     * sample while jitter is on, and upload the whole uniform struct once.
     */
    method OnFrameStart()
      requires Valid()
      modifies this`shouldJitterChanged, this`uniforms, gpu`log
      ensures State() == Step(old(State()), FrameStart, hamiltonSequence[..])
      ensures uniforms == old(uniforms).(jitterOffset := uniforms.jitterOffset)
      ensures gpu.log == old(gpu.log) + [WriteBuffer(gpuBuffer, CameraData(uniforms))]
    {
      var hamiltonOffset := hamiltonSequence[frameCounter % 16];
      if shouldJitterChanged {
        if !shouldJitter {
          uniforms := uniforms.(jitterOffset := NoJitter);
        }
        shouldJitterChanged := false;
      }
      if shouldJitter {
        uniforms := uniforms.(jitterOffset := hamiltonOffset);
      }
      gpu.log := gpu.log + [WriteBuffer(gpuBuffer, CameraData(uniforms))];
    }

    /** Keep this frame's projection-view matrix for the next frame and count the frame. */
    method OnFrameEnd()
      requires Valid()
      modifies this`prevFrameProjectionViewMatrix, this`frameCounter
      ensures prevFrameProjectionViewMatrix == projectionViewMatrix
      ensures State() == Step(old(State()), FrameEnd, hamiltonSequence[..])
    {
      prevFrameProjectionViewMatrix := projectionViewMatrix;
      frameCounter := frameCounter + 1;
    }

    /** Record the viewport size and rescale every jitter sample to it. */
    method OnResize(w: nat, h: nat)
      requires Valid() && w > 0 && h > 0
      modifies this`viewportWidth, this`viewportHeight, this`uniforms, hamiltonSequence
      ensures viewportWidth == w && viewportHeight == h
      ensures uniforms == old(uniforms).(viewportWidth := w, viewportHeight := h)
      ensures hamiltonSequence[..] == RescaledTable(w, h)
    {
      viewportWidth := w;
      viewportHeight := h;
      uniforms := uniforms.(viewportWidth := w, viewportHeight := h);
      for i := 0 to 16
        invariant viewportWidth == w && viewportHeight == h
        invariant uniforms == old(uniforms).(viewportWidth := w, viewportHeight := h)
        invariant forall j :: 0 <= j < i ==> hamiltonSequence[j] == RescaledSample(j, w, h)
      {
        hamiltonSequence[i] := RescaledSample(i, w, h);
      }
    }

    method SetPosition(x: real, y: real, z: real)
      modifies this`position, this`uniforms
      ensures position == Vec3(x, y, z)
      ensures uniforms == old(uniforms).(position := position)
    {
      position := Vec3(x, y, z);
      uniforms := uniforms.(position := position);
    }

    /** The `x` setter; `y` and `z` are alike. */
    method SetX(v: real)
      modifies this`position, this`uniforms
      ensures position == old(position).(x := v)
      ensures uniforms == old(uniforms).(position := position)
    {
      position := position.(x := v);
      uniforms := uniforms.(position := position);
    }

    method SetY(v: real)
      modifies this`position, this`uniforms
      ensures position == old(position).(y := v)
      ensures uniforms == old(uniforms).(position := position)
    {
      position := position.(y := v);
      uniforms := uniforms.(position := position);
    }

    method SetZ(v: real)
      modifies this`position, this`uniforms
      ensures position == old(position).(z := v)
      ensures uniforms == old(uniforms).(position := position)
    {
      position := position.(z := v);
      uniforms := uniforms.(position := position);
    }

    /** The look-at target; unlike the position it is not mirrored into the uniforms. */
    method SetLookAt(x: real, y: real, z: real)
      modifies this`lookAt
      ensures lookAt == Vec3(x, y, z)
    {
      lookAt := Vec3(x, y, z);
    }

    /** Replace the look-at target by `v`. */
    method SetLookAtVec3(v: Vec3)
      modifies this`lookAt
      ensures lookAt == v
    {
      lookAt := v;
    }

    /** Copy the projection matrix into the uniforms. */
    method UpdateProjectionMatrix()
      modifies this`uniforms
      ensures uniforms == old(uniforms).(projectionMatrix := projectionMatrix)
    {
      uniforms := uniforms.(projectionMatrix := projectionMatrix);
    }

    /**
     * projection-view = projection · view, its inverse, and the three
     * matrices (with the previous frame's) copied into the uniforms.
     */
    method UpdateProjectionViewMatrix()
      modifies this`projectionViewMatrix, this`inverseProjectionViewMatrix, this`uniforms
      ensures projectionViewMatrix == Product(projectionMatrix, viewMatrix)
      ensures inverseProjectionViewMatrix == Inverse(projectionViewMatrix)
      ensures uniforms == old(uniforms).(projectionViewMatrix := projectionViewMatrix,
                                         inverseProjectionViewMatrix := inverseProjectionViewMatrix,
                                         prevFrameProjectionViewMatrix := prevFrameProjectionViewMatrix)
    {
      projectionViewMatrix := Product(projectionMatrix, viewMatrix);
      inverseProjectionViewMatrix := Inverse(projectionViewMatrix);
      uniforms := uniforms.(projectionViewMatrix := projectionViewMatrix,
                            inverseProjectionViewMatrix := inverseProjectionViewMatrix,
                            prevFrameProjectionViewMatrix := prevFrameProjectionViewMatrix);
    }

    /** Rebuild the view matrix from position and target, then always cascade into the projection-view update. */
    method UpdateViewMatrix()
      modifies this`viewMatrix, this`projectionViewMatrix, this`inverseProjectionViewMatrix, this`uniforms
      ensures viewMatrix == LookAt(position, lookAt, UpVector)
      ensures projectionViewMatrix == Product(projectionMatrix, LookAt(position, lookAt, UpVector))
      ensures inverseProjectionViewMatrix == Inverse(projectionViewMatrix)
      ensures uniforms == old(uniforms).(viewMatrix := viewMatrix,
                                         projectionViewMatrix := projectionViewMatrix,
                                         inverseProjectionViewMatrix := inverseProjectionViewMatrix,
                                         prevFrameProjectionViewMatrix := prevFrameProjectionViewMatrix)
    {
      viewMatrix := LookAt(position, lookAt, UpVector);
      uniforms := uniforms.(viewMatrix := viewMatrix);
      UpdateProjectionViewMatrix();
    }

    /** The eight frustum corners in world space, in the fixed x, y, z nesting order. */
    method FrustumCornersWorldSpace() returns (corners: seq<WorldCorner>)
      ensures |corners| == 8
      ensures forall k :: 0 <= k < 8 ==> corners[k] == Unprojected(inverseProjectionViewMatrix, CornerAt(k))
    {
      var inv := inverseProjectionViewMatrix;
      corners := [];
      for x := 0 to 2
        invariant |corners| == 4 * x
        invariant forall k :: 0 <= k < |corners| ==> corners[k] == Unprojected(inv, CornerAt(k))
      {
        for y := 0 to 2
          invariant |corners| == 4 * x + 2 * y
          invariant forall k :: 0 <= k < |corners| ==> corners[k] == Unprojected(inv, CornerAt(k))
        {
          for z := 0 to 2
            invariant |corners| == 4 * x + 2 * y + z
            invariant forall k :: 0 <= k < |corners| ==> corners[k] == Unprojected(inv, CornerAt(k))
          {
            var pt := NdcCorner(2 * x - 1, 2 * y - 1, z);
            assert pt == CornerAt(|corners|);
            corners := corners + [Unprojected(inv, pt)];
          }
        }
      }
    }
  }
}
