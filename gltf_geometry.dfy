/**
 * The mapping from a glTF mesh primitive to GPU geometry
 * (src/renderer/geometry/GLTFGeometry.ts): four vertex-buffer slots in the
 * fixed order POSITION, NORMAL, TEXCOORD_0, TANGENT, each either the GPU
 * buffer of the attribute's buffer view or a one-byte placeholder, and an
 * index range read from the primitive's index accessor.
 */
module GLTFGeometries {
  import opened Outcomes
  import opened Gpu

  /** The vertex attributes the renderer binds, in slot order. */
  const AttributeOrder: seq<string> := ["POSITION", "NORMAL", "TEXCOORD_0", "TANGENT"]

  /** An attribute accessor, as far as the mapping reads it: the id of its buffer view. */
  datatype Accessor = Accessor(bufferView: string)

  /** The index accessor: its buffer view, its byte offset, element count and element size. */
  datatype Indices = Indices(bufferView: string, byteOffset: nat, count: nat, bytesPerElement: nat)

  /** A mesh primitive; glTF makes the index accessor optional, so a non-indexed primitive has `indices == None`. */
  datatype Primitive = Primitive(attributes: map<string, Accessor>, indices: Option<Indices>)

  /** A pair of offsets, as the source stores them in two-element arrays. */
  datatype Offsets = Offsets(first: nat, second: nat)

  /** The GPU buffer of a buffer view; `None` stands for the `undefined` a missing key gives. */
  function Lookup(gpuBuffers: map<string, Id>, view: string): (r: Option<Id>)
    ensures r.Some? <==> view in gpuBuffers
    ensures r.Some? ==> r.value == gpuBuffers[view]
  {
    if view in gpuBuffers then Some(gpuBuffers[view]) else None
  }

  /** How many of `names` the primitive lacks. */
  function MissingCount(attributes: map<string, Accessor>, names: seq<string>): (r: nat)
    ensures r <= |names|
  {
    if names == [] then 0
    else MissingCount(attributes, names[..|names| - 1]) + (if names[|names| - 1] in attributes then 0 else 1)
  }

  /**
   * The vertex-buffer slots for `names`: a present attribute's buffer, or a
   * placeholder numbered from `base` in the order the placeholders are made.
   */
  function Slots(attributes: map<string, Accessor>, gpuBuffers: map<string, Id>, names: seq<string>, base: Id): (r: seq<Option<Id>>)
    ensures |r| == |names|
  {
    if names == [] then []
    else
      var init := names[..|names| - 1];
      var name := names[|names| - 1];
      Slots(attributes, gpuBuffers, init, base)
      + [if name in attributes then Lookup(gpuBuffers, attributes[name].bufferView)
         else Some(base + MissingCount(attributes, init))]
  }

  /** The offsets map after the slots for `names` are set: (0, 1) for a placeholder, (0, 0) for a real buffer. */
  function OffsetsOf(attributes: map<string, Accessor>, gpuBuffers: map<string, Id>, names: seq<string>, base: Id): map<Option<Id>, Offsets> {
    if names == [] then map[]
    else
      var init := names[..|names| - 1];
      var name := names[|names| - 1];
      OffsetsOf(attributes, gpuBuffers, init, base)[
        Slots(attributes, gpuBuffers, names, base)[|names| - 1] := if name in attributes then Offsets(0, 0) else Offsets(0, 1)]
  }

  /** One `createBuffer` of size 1 per missing attribute, in slot order. */
  function PlaceholderCalls(attributes: map<string, Accessor>, names: seq<string>, base: Id): seq<Call> {
    if names == [] then []
    else
      var init := names[..|names| - 1];
      PlaceholderCalls(attributes, init, base)
      + (if names[|names| - 1] in attributes then [] else [CreateBuffer(base + MissingCount(attributes, init), 1)])
  }

  /** Extending the names by one: each of the four specifications gains that name's slot, offsets, call and count. */
  lemma PrefixStep(attributes: map<string, Accessor>, gpuBuffers: map<string, Id>, names: seq<string>, i: nat, base: Id)
    requires i < |names|
    ensures var init := names[..i];
            var present := names[i] in attributes;
            var slot := if present then Lookup(gpuBuffers, attributes[names[i]].bufferView)
                        else Some(base + MissingCount(attributes, init));
            && Slots(attributes, gpuBuffers, names[..i + 1], base) == Slots(attributes, gpuBuffers, init, base) + [slot]
            && OffsetsOf(attributes, gpuBuffers, names[..i + 1], base)
               == OffsetsOf(attributes, gpuBuffers, init, base)[slot := if present then Offsets(0, 0) else Offsets(0, 1)]
            && PlaceholderCalls(attributes, names[..i + 1], base)
               == PlaceholderCalls(attributes, init, base) + (if present then [] else [CreateBuffer(base + MissingCount(attributes, init), 1)])
            && MissingCount(attributes, names[..i + 1]) == MissingCount(attributes, init) + (if present then 0 else 1)
  {
    assert names[..i + 1][..i] == names[..i];
    assert names[..i + 1][i] == names[i];
  }

  /** Every buffer handle of the map was handed out before `bound`. */
  predicate AllBelow(gpuBuffers: map<string, Id>, bound: Id) {
    forall view :: view in gpuBuffers ==> gpuBuffers[view] < bound
  }

  /**
   * Slot `i` holds the buffer of attribute `names[i]`'s buffer view when the
   * primitive has that attribute, and otherwise a placeholder numbered
   * `base` plus the number of attributes missing before it.
   */
  lemma {:induction false} SlotIsAttributeOrPlaceholder(attributes: map<string, Accessor>, gpuBuffers: map<string, Id>,
                                                        names: seq<string>, base: Id, i: nat)
    requires i < |names|
    ensures names[i] in attributes ==>
              Slots(attributes, gpuBuffers, names, base)[i] == Lookup(gpuBuffers, attributes[names[i]].bufferView)
    ensures names[i] !in attributes ==>
              Slots(attributes, gpuBuffers, names, base)[i] == Some(base + MissingCount(attributes, names[..i]))
    decreases |names|
  {
    var init := names[..|names| - 1];
    if i < |names| - 1 {
      assert init[i] == names[i] && init[..i] == names[..i];
      SlotIsAttributeOrPlaceholder(attributes, gpuBuffers, init, base, i);
    } else {
      assert names[..i] == init;
    }
  }

  /** Placeholders are numbered consecutively from `base`: one more for each missing attribute. */
  lemma {:induction false} MissingCountGrows(attributes: map<string, Accessor>, names: seq<string>, i: nat, j: nat)
    requires i < j <= |names| && names[i] !in attributes
    ensures MissingCount(attributes, names[..i]) < MissingCount(attributes, names[..j])
    decreases j
  {
    var init := names[..j][..j - 1];
    assert init == names[..j - 1];
    if i == j - 1 {
      assert names[..j][j - 1] == names[i];
    } else {
      MissingCountPrefix(attributes, names, j - 1, j);
      MissingCountGrows(attributes, names, i, j - 1);
    }
  }

  lemma {:induction false} MissingCountPrefix(attributes: map<string, Accessor>, names: seq<string>, i: nat, j: nat)
    requires i <= j <= |names|
    ensures MissingCount(attributes, names[..i]) <= MissingCount(attributes, names[..j])
    decreases j
  {
    if i < j {
      assert names[..j][..j - 1] == names[..j - 1];
      MissingCountPrefix(attributes, names, i, j - 1);
    }
  }

  /**
   * Offsets: every placeholder slot has (0, 1), and, when every mapped
   * buffer predates the placeholders, every real buffer slot has (0, 0).
   */
  lemma {:induction false} OffsetsPerSlot(attributes: map<string, Accessor>, gpuBuffers: map<string, Id>,
                                          names: seq<string>, base: Id, i: nat)
    requires i < |names| && AllBelow(gpuBuffers, base)
    ensures Slots(attributes, gpuBuffers, names, base)[i] in OffsetsOf(attributes, gpuBuffers, names, base)
    ensures OffsetsOf(attributes, gpuBuffers, names, base)[Slots(attributes, gpuBuffers, names, base)[i]]
            == if names[i] in attributes then Offsets(0, 0) else Offsets(0, 1)
    decreases |names|
  {
    var init := names[..|names| - 1];
    var last := |names| - 1;
    var slots := Slots(attributes, gpuBuffers, names, base);
    assert slots[..last] == Slots(attributes, gpuBuffers, init, base);
    if i < last {
      assert init[i] == names[i];
      OffsetsPerSlot(attributes, gpuBuffers, init, base, i);
      SlotIsAttributeOrPlaceholder(attributes, gpuBuffers, names, base, i);
      SlotIsAttributeOrPlaceholder(attributes, gpuBuffers, names, base, last);
      assert names[..last] == init;
      if names[i] !in attributes && names[last] !in attributes {
        MissingCountGrows(attributes, names, i, last);
      }
    }
  }

  /**
   * A primitive that has POSITION gets its position buffer in vertex slot 0,
   * and every placeholder handle is fresh: at least `base`, below `base`
   * plus the number of missing attributes.
   */
  lemma PositionInSlotZero(attributes: map<string, Accessor>, gpuBuffers: map<string, Id>, base: Id)
    requires "POSITION" in attributes
    ensures Slots(attributes, gpuBuffers, AttributeOrder, base)[0] == Lookup(gpuBuffers, attributes["POSITION"].bufferView)
  {
    SlotIsAttributeOrPlaceholder(attributes, gpuBuffers, AttributeOrder, base, 0);
  }

  /** Every placeholder handle lies in the block the loop allocated, `base` up to `base` plus the missing count. */
  lemma PlaceholdersFresh(attributes: map<string, Accessor>, gpuBuffers: map<string, Id>, names: seq<string>, base: Id, i: nat)
    requires i < |names| && names[i] !in attributes
    ensures var slot := Slots(attributes, gpuBuffers, names, base)[i];
            slot.Some? && base <= slot.value < base + MissingCount(attributes, names)
  {
    SlotIsAttributeOrPlaceholder(attributes, gpuBuffers, names, base, i);
    assert names[..|names|] == names;
    MissingCountGrows(attributes, names, i, |names|);
  }

  /** The byte range of the index data: its offset, then its length. */
  function IndexRange(indices: Indices): Offsets {
    Offsets(indices.byteOffset, indices.count * indices.bytesPerElement)
  }

  class GLTFGeometry {
    const gpu: Device
    const gpuBuffers: map<string, Id>
    const firstIndex: nat

    var vertexBuffers: seq<Option<Id>>
    var vertexBufferOffsets: map<Option<Id>, Offsets>
    var indexBufferOffsets: Offsets
    var indexCount: nat
    var indexBuffer: Option<Id>

    /**
     * A primitive with a POSITION attribute: four vertex slots in attribute
     * order (a fresh placeholder buffer of size 1 for each missing
     * attribute), the index range, count and buffer. Without an index
     * accessor the index fields keep their initial values; the source
     * throws at that point, and `FromPrimitive` turns it into an error.
     */
    constructor(gpu: Device, primitive: Primitive, gpuBuffers: map<string, Id>)
      requires "POSITION" in primitive.attributes
      modifies gpu
      ensures this.gpu == gpu && this.gpuBuffers == gpuBuffers && firstIndex == 0
      ensures |vertexBuffers| == 4
      ensures vertexBuffers == Slots(primitive.attributes, gpuBuffers, AttributeOrder, old(gpu.nextId))
      ensures vertexBufferOffsets == OffsetsOf(primitive.attributes, gpuBuffers, AttributeOrder, old(gpu.nextId))
      ensures gpu.log == old(gpu.log) + PlaceholderCalls(primitive.attributes, AttributeOrder, old(gpu.nextId))
      ensures gpu.nextId == old(gpu.nextId) + MissingCount(primitive.attributes, AttributeOrder)
      ensures primitive.indices.Some? ==>
                var indices := primitive.indices.value;
                && indexBufferOffsets == IndexRange(indices)
                && indexCount == indices.count
                && indexBuffer == Lookup(gpuBuffers, indices.bufferView)
      ensures primitive.indices.None? ==> indexBufferOffsets == Offsets(0, 0) && indexCount == 0 && indexBuffer == None
    {
      this.gpu := gpu;
      this.gpuBuffers := gpuBuffers;
      firstIndex := 0;
      vertexBuffers := [];
      vertexBufferOffsets := map[];
      indexBufferOffsets := Offsets(0, 0);
      indexCount := 0;
      indexBuffer := None;
      new;
      PushVertexBuffers(primitive.attributes, AttributeOrder);
      if primitive.indices.Some? {
        var indices := primitive.indices.value;
        indexBufferOffsets := Offsets(indices.byteOffset, indices.count * indices.bytesPerElement);
        indexCount := indices.count;
        indexBuffer := Lookup(gpuBuffers, indices.bufferView);
      }
    }

    /** The attribute loop over `names` (the constructor passes `AttributeOrder`): push one vertex buffer per name and record its offsets. */
    method PushVertexBuffers(attributes: map<string, Accessor>, names: seq<string>)
      requires vertexBuffers == [] && vertexBufferOffsets == map[]
      modifies this`vertexBuffers, this`vertexBufferOffsets, gpu
      ensures vertexBuffers == Slots(attributes, gpuBuffers, names, old(gpu.nextId))
      ensures vertexBufferOffsets == OffsetsOf(attributes, gpuBuffers, names, old(gpu.nextId))
      ensures gpu.log == old(gpu.log) + PlaceholderCalls(attributes, names, old(gpu.nextId))
      ensures gpu.nextId == old(gpu.nextId) + MissingCount(attributes, names)
    {
      ghost var base := gpu.nextId;
      for i := 0 to |names|
        invariant vertexBuffers == Slots(attributes, gpuBuffers, names[..i], base)
        invariant vertexBufferOffsets == OffsetsOf(attributes, gpuBuffers, names[..i], base)
        invariant gpu.log == old(gpu.log) + PlaceholderCalls(attributes, names[..i], base)
        invariant gpu.nextId == base + MissingCount(attributes, names[..i])
      {
        PrefixStep(attributes, gpuBuffers, names, i, base);
        PushSlot(attributes, names[i]);
      }
      assert names[..|names|] == names;
    }

    /**
     * One iteration: a missing attribute gets a fresh placeholder buffer of
     * size 1 with offsets (0, 1); a present one gets its buffer view's GPU
     * buffer with offsets (0, 0).
     */
    method PushSlot(attributes: map<string, Accessor>, name: string)
      modifies this`vertexBuffers, this`vertexBufferOffsets, gpu
      ensures var present := name in attributes;
              var slot := if present then Lookup(gpuBuffers, attributes[name].bufferView) else Some(old(gpu.nextId));
              && vertexBuffers == old(vertexBuffers) + [slot]
              && vertexBufferOffsets == old(vertexBufferOffsets)[slot := if present then Offsets(0, 0) else Offsets(0, 1)]
              && gpu.log == old(gpu.log) + (if present then [] else [CreateBuffer(old(gpu.nextId), 1)])
              && gpu.nextId == old(gpu.nextId) + (if present then 0 else 1)
    {
      if name !in attributes {
        var buffer := gpu.NewBuffer(1);
        vertexBufferOffsets := vertexBufferOffsets[Some(buffer) := Offsets(0, 1)];
        vertexBuffers := vertexBuffers + [Some(buffer)];
      } else {
        var buffer := Lookup(gpuBuffers, attributes[name].bufferView);
        vertexBuffers := vertexBuffers + [buffer];
        vertexBufferOffsets := vertexBufferOffsets[buffer := Offsets(0, 0)];
      }
    }
  }

  /** The error the source throws for a primitive without POSITION. */
  const NoPositionMessage := "GLTF Mesh needs to have vertices array"

  /**
   * The error a JavaScript runtime raises when the constructor reads
   * `bufferView` of an absent index accessor.
   */
  const NoIndicesMessage := "Cannot read properties of undefined (reading 'bufferView')"

  /**
   * Build the geometry of a primitive. A primitive without POSITION is
   * refused before any buffer is made; a non-indexed one fails only after
   * its placeholder buffers have been created, when the index accessor is
   * read.
   */
  method FromPrimitive(gpu: Device, primitive: Primitive, gpuBuffers: map<string, Id>) returns (r: Result<GLTFGeometry>)
    modifies gpu
    ensures r.Ok? <==> "POSITION" in primitive.attributes && primitive.indices.Some?
    ensures "POSITION" !in primitive.attributes ==>
              r == Err(NoPositionMessage) && gpu.log == old(gpu.log) && gpu.nextId == old(gpu.nextId)
    ensures "POSITION" in primitive.attributes ==>
              && gpu.log == old(gpu.log) + PlaceholderCalls(primitive.attributes, AttributeOrder, old(gpu.nextId))
              && gpu.nextId == old(gpu.nextId) + MissingCount(primitive.attributes, AttributeOrder)
    ensures "POSITION" in primitive.attributes && primitive.indices.None? ==> r == Err(NoIndicesMessage)
    ensures r.Ok? ==> var indices := primitive.indices.value;
                      && fresh(r.value) && r.value.gpu == gpu && r.value.gpuBuffers == gpuBuffers && r.value.firstIndex == 0
                      && r.value.vertexBuffers == Slots(primitive.attributes, gpuBuffers, AttributeOrder, old(gpu.nextId))
                      && r.value.vertexBufferOffsets == OffsetsOf(primitive.attributes, gpuBuffers, AttributeOrder, old(gpu.nextId))
                      && r.value.indexCount == indices.count
                      && r.value.indexBufferOffsets == IndexRange(indices)
                      && r.value.indexBuffer == Lookup(gpuBuffers, indices.bufferView)
  {
    if "POSITION" !in primitive.attributes {
      return Err(NoPositionMessage);
    }
    var g := new GLTFGeometry(gpu, primitive, gpuBuffers);
    if primitive.indices.None? {
      return Err(NoIndicesMessage);
    }
    return Ok(g);
  }
}
