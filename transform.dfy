/**
 * The transform node of the scene graph (src/core/Transform.ts): position,
 * rotation and scale with a dirty flag, cached local and world matrices,
 * a parent back-reference and an ordered list of children.
 */
module Transforms {
  import opened Outcomes
  import opened Linear
  import opened MathUtils

  /** The render hooks `render` runs, in the order it runs them. */
  datatype Hook = PreRender | OnRender | PostRender

  /**
   * A value snapshot of a hierarchy: a node's id and the snapshots of its
   * children, in list order. It is finite, so it serves as the measure of
   * the recursive traversal over the (possibly aliased) node objects.
   */
  datatype Hierarchy = Node(id: nat, children: seq<Hierarchy>)

  /** The ids of `nodes`, in order. */
  function Ids(nodes: seq<Transform>): (r: seq<nat>)
    ensures |r| == |nodes|
    ensures forall i :: 0 <= i < |nodes| ==> r[i] == nodes[i].id
  {
    if nodes == [] then [] else [nodes[0].id] + Ids(nodes[1..])
  }

  lemma {:induction false} IdsAppend(a: seq<Transform>, b: seq<Transform>)
    ensures Ids(a + b) == Ids(a) + Ids(b)
  {
    var l := Ids(a + b);
    var r := Ids(a) + Ids(b);
    assert |l| == |r|;
    forall i | 0 <= i < |l|
      ensures l[i] == r[i]
    {
      if i < |a| {
        assert (a + b)[i] == a[i];
      } else {
        assert (a + b)[i] == b[i - |a|];
      }
    }
  }

  /** The order in which `traverse` visits the snapshot: the node, then, if recursive, each child subtree in list order. */
  function Visit(h: Hierarchy, recursive: bool): seq<nat>
    decreases h, 1
  {
    if recursive then [h.id] + VisitAll(h.children) else [h.id]
  }

  function VisitAll(hs: seq<Hierarchy>): seq<nat>
    decreases hs, 0
  {
    if hs == [] then [] else Visit(hs[0], true) + VisitAll(hs[1..])
  }

  lemma {:induction false} VisitAllSnoc(hs: seq<Hierarchy>, h: Hierarchy)
    ensures VisitAll(hs + [h]) == VisitAll(hs) + Visit(h, true)
    decreases |hs|
  {
    if hs == [] {
      assert [h][1..] == [];
    } else {
      assert (hs + [h])[1..] == hs[1..] + [h];
      VisitAllSnoc(hs[1..], h);
    }
  }

  /** The node ids of a snapshot, whatever the order. */
  function Members(h: Hierarchy): set<nat>
    decreases h, 1
  {
    {h.id} + MembersAll(h.children)
  }

  function MembersAll(hs: seq<Hierarchy>): set<nat>
    decreases hs, 0
  {
    if hs == [] then {} else Members(hs[0]) + MembersAll(hs[1..])
  }

  /** A recursive traversal visits every node of the subtree and nothing else. */
  lemma {:induction false} VisitCoversSubtree(h: Hierarchy)
    ensures forall x :: x in Visit(h, true) <==> x in Members(h)
    decreases h, 1
  {
    VisitAllCovers(h.children);
  }

  lemma {:induction false} VisitAllCovers(hs: seq<Hierarchy>)
    ensures forall x :: x in VisitAll(hs) <==> x in MembersAll(hs)
    decreases hs, 0
  {
    if hs != [] {
      VisitCoversSubtree(hs[0]);
      VisitAllCovers(hs[1..]);
    }
  }

  /** `t` and the nodes below it have the shape and ids of `h`. */
  ghost predicate Mirrors(t: Transform, h: Hierarchy)
    reads *
    decreases h
  {
    && t.id == h.id
    && |t.children| == |h.children|
    && forall i :: 0 <= i < |h.children| ==> Mirrors(t.children[i], h.children[i])
  }

  /** `children` filtered down to the nodes whose id is not `id`, in their order. */
  function WithoutId(children: seq<Transform>, id: nat): (r: seq<Transform>)
    ensures |r| <= |children|
    ensures forall c :: c in r ==> c in children && c.id != id
    ensures forall c :: c in children && c.id != id ==> c in r
  {
    if children == [] then []
    else if children[0].id != id then [children[0]] + WithoutId(children[1..], id)
    else WithoutId(children[1..], id)
  }

  /** Filtering distributes over concatenation: the survivors keep their relative order. */
  lemma {:induction false} WithoutIdAppend(a: seq<Transform>, b: seq<Transform>, id: nat)
    ensures WithoutId(a + b, id) == WithoutId(a, id) + WithoutId(b, id)
  {
    if a == [] {
      assert a + b == b;
    } else {
      assert (a + b)[0] == a[0];
      assert (a + b)[1..] == a[1..] + b;
      WithoutIdAppend(a[1..], b, id);
      if a[0].id != id {
        calc {
          WithoutId(a + b, id);
          [a[0]] + WithoutId(a[1..] + b, id);
          [a[0]] + (WithoutId(a[1..], id) + WithoutId(b, id));
          ([a[0]] + WithoutId(a[1..], id)) + WithoutId(b, id);
        }
      }
    }
  }

  /** Nodes with other ids are kept in the same order. */
  lemma {:induction false} WithoutIdKeepsOthers(children: seq<Transform>, id: nat)
    requires forall c :: c in children ==> c.id != id
    ensures WithoutId(children, id) == children
  {
    if children != [] {
      WithoutIdKeepsOthers(children[1..], id);
    }
  }

  /**
   * The local matrix as the evidently intended convention has it: scale
   * first, then rotate, then translate, recomputed from the current
   * components alone.
   */
  function IntendedLocalMatrix(scale: Vec3, rotation: Vec3, position: Vec3): Mat {
    Product(Product(Translation(position), EulerRotation(rotation)), Scaling(scale))
  }

  /** With no rotation, the intended local matrix scales a point and then translates it. */
  lemma IntendedLocalMatrixPlacesPoint(scale: Vec3, position: Vec3, p: Vec3)
    ensures Apply(IntendedLocalMatrix(scale, Origin, position), p) == Some(Add(Stretch(scale, p), position))
  {
    var q := Stretch(scale, p);
    assert Apply(Scaling(scale), p) == Some(q);
    assert Apply(EulerRotation(Origin), q) == Some(q);
    assert Apply(Product(Translation(position), EulerRotation(Origin)), q) == Some(Add(q, position));
  }

  class Transform {
    var position: Vec3
    var rotation: Vec3
    var scale: Vec3

    var translateMatrix: Mat
    var scaleMatrix: Mat
    var rotationMatrix: Mat
    var cachedMatrix: Mat
    var worldMatrix: Mat

    var matrixNeedsUpdate: bool

    const id: nat
    var name: string
    var visible: bool
    var parent: Transform?
    var children: seq<Transform>

    /** A new node; `id` stands for the random UUID the source draws. */
    constructor(id: nat)
      ensures this.id == id && name == "Object" && visible
      ensures position == Origin && rotation == Origin && scale == Vec3(1.0, 1.0, 1.0)
      ensures translateMatrix == Identity && scaleMatrix == Identity && rotationMatrix == Identity
      ensures cachedMatrix == Identity && worldMatrix == Identity
      ensures matrixNeedsUpdate
      ensures parent == null && children == []
    {
      this.id := id;
      position := Origin;
      rotation := Origin;
      scale := Vec3(1.0, 1.0, 1.0);
      translateMatrix := Identity;
      scaleMatrix := Identity;
      rotationMatrix := Identity;
      cachedMatrix := Identity;
      worldMatrix := Identity;
      matrixNeedsUpdate := true;
      name := "Object";
      visible := true;
      parent := null;
      children := [];
    }

    /** The parent's world matrix, or the shared identity matrix's current value for a root. */
    function ParentWorld(identity: SharedIdentityMatrix): Mat
      reads this, parent, identity
    {
      if parent == null then identity.value else parent.worldMatrix
    }

    /**
     * Recompute the world matrix; rebuild the local one first when dirty.
     * The scale and translate matrices are multiplied onto their previous
     * values, never reset, so every dirty update compounds them. A clean
     * update does not touch this node's world matrix: it writes local ·
     * world into the parent's world matrix, or into the shared identity
     * matrix when there is no parent.
     */
    method UpdateWorldMatrix(identity: SharedIdentityMatrix) returns (updated: bool)
      modifies this`translateMatrix, this`scaleMatrix, this`rotationMatrix, this`cachedMatrix
      modifies this`worldMatrix, this`matrixNeedsUpdate, identity`value
      modifies (if parent == null then {} else {parent})`worldMatrix
      ensures updated == old(matrixNeedsUpdate)
      ensures !matrixNeedsUpdate
      ensures !updated ==> && scaleMatrix == old(scaleMatrix) && rotationMatrix == old(rotationMatrix)
                           && translateMatrix == old(translateMatrix) && cachedMatrix == old(cachedMatrix)
      ensures !updated && parent == null ==> identity.value == Product(cachedMatrix, old(worldMatrix))
      ensures !updated && parent != null ==> parent.worldMatrix == Product(cachedMatrix, old(worldMatrix))
      ensures !updated && parent != null ==> identity.value == old(identity.value)
      ensures !updated && parent != this ==> worldMatrix == old(worldMatrix)
      ensures updated ==> && scaleMatrix == Product(old(scaleMatrix), Scaling(scale))
                          && rotationMatrix == EulerRotation(rotation)
                          && translateMatrix == Product(old(translateMatrix), Translation(position))
                          && cachedMatrix == Product(Product(scaleMatrix, rotationMatrix), translateMatrix)
                          && worldMatrix == Product(old(ParentWorld(identity)), cachedMatrix)
                          && identity.value == old(identity.value)
                          && (parent != null && parent != this ==> parent.worldMatrix == old(parent.worldMatrix))
    {
      var parentMatrix := if parent == null then identity.value else parent.worldMatrix;
      if !matrixNeedsUpdate {
        var product := Product(cachedMatrix, worldMatrix);
        if parent == null {
          identity.value := product;
        } else {
          parent.worldMatrix := product;
        }
        return false;
      }
      cachedMatrix := Identity;
      scaleMatrix := Product(scaleMatrix, Scaling(scale));
      rotationMatrix := EulerRotation(rotation);
      translateMatrix := Product(translateMatrix, Translation(position));
      cachedMatrix := Identity;
      cachedMatrix := Product(scaleMatrix, rotationMatrix);
      cachedMatrix := Product(cachedMatrix, translateMatrix);
      worldMatrix := Product(parentMatrix, cachedMatrix);
      matrixNeedsUpdate := false;
      return true;
    }

    /** The parent's world matrix, or the identity for a root, taking the identity as immutable. */
    function IntendedParentWorld(): Mat
      reads this, parent
    {
      if parent == null then Identity else parent.worldMatrix
    }

    /**
     * The update the renderer needs: when dirty, the local matrix is
     * rebuilt from the current components alone as translate · rotation ·
     * scale, so repeated updates do not compound; either way the world
     * matrix becomes parent world · local, and nothing else is written.
     */
    method UpdateWorldMatrixIntended() returns (updated: bool)
      modifies this`translateMatrix, this`scaleMatrix, this`rotationMatrix, this`cachedMatrix
      modifies this`worldMatrix, this`matrixNeedsUpdate
      ensures updated == old(matrixNeedsUpdate)
      ensures !matrixNeedsUpdate
      ensures !updated ==> cachedMatrix == old(cachedMatrix)
      ensures updated ==> cachedMatrix == IntendedLocalMatrix(scale, rotation, position)
      ensures worldMatrix == Product(old(IntendedParentWorld()), cachedMatrix)
    {
      var parentMatrix := if parent == null then Identity else parent.worldMatrix;
      if !matrixNeedsUpdate {
        worldMatrix := Product(parentMatrix, cachedMatrix);
        return false;
      }
      scaleMatrix := Scaling(scale);
      rotationMatrix := EulerRotation(rotation);
      translateMatrix := Translation(position);
      cachedMatrix := Product(Product(translateMatrix, rotationMatrix), scaleMatrix);
      worldMatrix := Product(parentMatrix, cachedMatrix);
      matrixNeedsUpdate := false;
      return true;
    }

    /** Make `child` a child of this node; its previous parent keeps it in its list. */
    method AddChild(child: Transform)
      modifies this`children, child`parent
      ensures child.parent == this
      ensures children == old(children) + [child]
    {
      child.parent := this;
      children := children + [child];
    }

    /** Drop every child with `child`'s id, and detach `child` whether or not it was a child. */
    method RemoveChild(child: Transform)
      modifies this`children, child`parent
      ensures children == WithoutId(old(children), child.id)
      ensures child.parent == null
    {
      children := WithoutId(children, child.id);
      child.parent := null;
    }

    /**
     * The nodes `traverse` hands to its visitor, in order: this node, then,
     * when recursive, each child's traversal in list order.
     */
    method Traverse(recursive: bool, ghost h: Hierarchy) returns (visited: seq<Transform>)
      requires Mirrors(this, h)
      decreases h
      ensures |visited| >= 1 && visited[0] == this
      ensures Ids(visited) == Visit(h, recursive)
    {
      var below: seq<Transform> := [];
      if recursive {
        var n := |children|;
        for i := 0 to n
          invariant Ids(below) == VisitAll(h.children[..i])
        {
          var sub := children[i].Traverse(recursive, h.children[i]);
          IdsAppend(below, sub);
          VisitAllSnoc(h.children[..i], h.children[i]);
          assert h.children[..i + 1] == h.children[..i] + [h.children[i]];
          below := below + sub;
        }
        assert h.children[..n] == h.children;
      }
      visited := [this] + below;
      IdsAppend([this], below);
    }

    /** The hooks `render` runs: none when hidden, else pre, on and post, once each. */
    method Render() returns (hooks: seq<Hook>)
      ensures !visible ==> hooks == []
      ensures visible ==> hooks == [PreRender, OnRender, PostRender]
    {
      if !visible {
        return [];
      }
      hooks := [PreRender];
      hooks := hooks + [OnRender];
      hooks := hooks + [PostRender];
    }

    method SetPosition(x: real, y: real, z: real)
      modifies this`position, this`matrixNeedsUpdate
      ensures position == Vec3(x, y, z) && matrixNeedsUpdate
    {
      position := Vec3(x, y, z);
      matrixNeedsUpdate := true;
    }

    method SetPositionX(v: real)
      modifies this`position, this`matrixNeedsUpdate
      ensures position == old(position).(x := v) && matrixNeedsUpdate
    {
      position := position.(x := v);
      matrixNeedsUpdate := true;
    }

    method SetPositionY(v: real)
      modifies this`position, this`matrixNeedsUpdate
      ensures position == old(position).(y := v) && matrixNeedsUpdate
    {
      position := position.(y := v);
      matrixNeedsUpdate := true;
    }

    method SetPositionZ(v: real)
      modifies this`position, this`matrixNeedsUpdate
      ensures position == old(position).(z := v) && matrixNeedsUpdate
    {
      position := position.(z := v);
      matrixNeedsUpdate := true;
    }

    method SetRotation(x: real, y: real, z: real)
      modifies this`rotation, this`matrixNeedsUpdate
      ensures rotation == Vec3(x, y, z) && matrixNeedsUpdate
    {
      rotation := Vec3(x, y, z);
      matrixNeedsUpdate := true;
    }

    method SetRotationX(v: real)
      modifies this`rotation, this`matrixNeedsUpdate
      ensures rotation == old(rotation).(x := v) && matrixNeedsUpdate
    {
      rotation := rotation.(x := v);
      matrixNeedsUpdate := true;
    }

    method SetRotationY(v: real)
      modifies this`rotation, this`matrixNeedsUpdate
      ensures rotation == old(rotation).(y := v) && matrixNeedsUpdate
    {
      rotation := rotation.(y := v);
      matrixNeedsUpdate := true;
    }

    method SetRotationZ(v: real)
      modifies this`rotation, this`matrixNeedsUpdate
      ensures rotation == old(rotation).(z := v) && matrixNeedsUpdate
    {
      rotation := rotation.(z := v);
      matrixNeedsUpdate := true;
    }

    method SetScale(x: real, y: real, z: real)
      modifies this`scale, this`matrixNeedsUpdate
      ensures scale == Vec3(x, y, z) && matrixNeedsUpdate
    {
      scale := Vec3(x, y, z);
      matrixNeedsUpdate := true;
    }

    method SetScaleX(v: real)
      modifies this`scale, this`matrixNeedsUpdate
      ensures scale == old(scale).(x := v) && matrixNeedsUpdate
    {
      scale := scale.(x := v);
      matrixNeedsUpdate := true;
    }

    method SetScaleY(v: real)
      modifies this`scale, this`matrixNeedsUpdate
      ensures scale == old(scale).(y := v) && matrixNeedsUpdate
    {
      scale := scale.(y := v);
      matrixNeedsUpdate := true;
    }

    method SetScaleZ(v: real)
      modifies this`scale, this`matrixNeedsUpdate
      ensures scale == old(scale).(z := v) && matrixNeedsUpdate
    {
      scale := scale.(z := v);
      matrixNeedsUpdate := true;
    }
  }

  /** A new node is dirty, so its first update rebuilds the local matrix and reports it. */
  method FirstUpdateOfNewNode(id: nat) returns (updated: bool, world: Mat)
    ensures updated
    ensures world == Product(Identity, Product(Product(Product(Identity, Scaling(Vec3(1.0, 1.0, 1.0))),
                                                       EulerRotation(Origin)),
                                               Product(Identity, Translation(Origin))))
  {
    var identity := new SharedIdentityMatrix();
    var node := new Transform(id);
    updated := node.UpdateWorldMatrix(identity);
    world := node.worldMatrix;
  }

  /** A second update with nothing set in between reports no change and keeps the local matrix. */
  method CleanUpdateKeepsLocal(id: nat) returns (first: bool, second: bool, same: bool)
    ensures first && !second && same
  {
    var identity := new SharedIdentityMatrix();
    var node := new Transform(id);
    first := node.UpdateWorldMatrix(identity);
    var local := node.cachedMatrix;
    second := node.UpdateWorldMatrix(identity);
    same := node.cachedMatrix == local;
  }

  /**
   * A child updated twice, the second time clean, writes into its parent's
   * world matrix only: the shared identity matrix stays the identity.
   */
  method ChildCleanUpdateKeepsIdentity() returns (second: bool, intact: bool)
    ensures !second && intact
  {
    var identity := new SharedIdentityMatrix();
    var parent := new Transform(0);
    var child := new Transform(1);
    parent.AddChild(child);
    var first := child.UpdateWorldMatrix(identity);
    second := child.UpdateWorldMatrix(identity);
    intact := identity.value == Identity;
  }

  /** The image of the origin under twice-compounded translation by `p`, with unit scale and no rotation. */
  lemma CompoundedTranslationImage(p: Vec3)
    ensures Apply(Product(Product(Product(Product(Identity, Scaling(Vec3(1.0, 1.0, 1.0))), Scaling(Vec3(1.0, 1.0, 1.0))),
                                  EulerRotation(Origin)),
                          Product(Product(Identity, Translation(p)), Translation(p))), Origin)
            == Some(Add(p, p))
  {
    var unit := Vec3(1.0, 1.0, 1.0);
    var t := Product(Product(Identity, Translation(p)), Translation(p));
    assert Add(Origin, p) == p;
    assert Apply(Translation(p), Origin) == Some(p);
    assert Apply(Product(Identity, Translation(p)), p) == Some(Add(p, p));
    assert Apply(t, Origin) == Some(Add(p, p));
    assert Stretch(unit, Add(p, p)) == Add(p, p);
    assert Apply(Product(Identity, Scaling(unit)), Add(p, p)) == Some(Add(p, p));
    assert Apply(EulerRotation(Origin), Add(p, p)) == Some(Add(p, p));
    assert Apply(Product(Product(Identity, Scaling(unit)), Scaling(unit)), Add(p, p)) == Some(Add(p, p));
  }

  /**
   * Setting the same position twice, with a dirty update after each, moves
   * the origin by twice that position: the translate matrix compounds.
   */
  method RepeatedUpdateCompounds() returns (image: Option<Vec3>)
    ensures image == Some(Vec3(10.0, 0.0, 0.0))
  {
    var identity := new SharedIdentityMatrix();
    var node := new Transform(0);
    node.SetPosition(5.0, 0.0, 0.0);
    var first := node.UpdateWorldMatrix(identity);
    node.SetPosition(5.0, 0.0, 0.0);
    var second := node.UpdateWorldMatrix(identity);
    var p := Vec3(5.0, 0.0, 0.0);
    var unit := Vec3(1.0, 1.0, 1.0);
    assert node.cachedMatrix == Product(Product(Product(Product(Identity, Scaling(unit)), Scaling(unit)), EulerRotation(Origin)),
                                        Product(Product(Identity, Translation(p)), Translation(p)));
    CompoundedTranslationImage(p);
    image := Apply(node.cachedMatrix, Origin);
  }

  /** Scale · rotation · translate applied to a point translates it first and scales it afterwards. */
  lemma WrittenOrderImage(s: Vec3, p: Vec3, q: Vec3)
    ensures Apply(Product(Product(Product(Identity, Scaling(s)), EulerRotation(Origin)),
                          Product(Identity, Translation(p))), q)
            == Some(Stretch(s, Add(q, p)))
  {
    var r := Add(q, p);
    assert Apply(Product(Identity, Translation(p)), q) == Some(r);
    assert Apply(EulerRotation(Origin), r) == Some(r);
    assert Apply(Product(Identity, Scaling(s)), r) == Some(Stretch(s, r));
  }

  /**
   * The local matrix as written is scale · rotation · translate, so a
   * point is translated before it is scaled: scale (2,1,1) and position
   * (5,0,0) send (1,0,0) to (12,0,0).
   */
  method WrittenLocalOrder() returns (image: Option<Vec3>)
    ensures image == Some(Vec3(12.0, 0.0, 0.0))
  {
    var identity := new SharedIdentityMatrix();
    var node := new Transform(0);
    node.SetScale(2.0, 1.0, 1.0);
    node.SetPosition(5.0, 0.0, 0.0);
    var updated := node.UpdateWorldMatrix(identity);
    var s := Vec3(2.0, 1.0, 1.0);
    var p := Vec3(5.0, 0.0, 0.0);
    assert node.cachedMatrix == Product(Product(Product(Identity, Scaling(s)), EulerRotation(Origin)),
                                        Product(Identity, Translation(p)));
    WrittenOrderImage(s, p, Vec3(1.0, 0.0, 0.0));
    image := Apply(node.cachedMatrix, Vec3(1.0, 0.0, 0.0));
  }

  /** With the intended update, setting the same position twice moves the origin by that position once. */
  method IntendedRepeatedUpdate() returns (image: Option<Vec3>)
    ensures image == Some(Vec3(5.0, 0.0, 0.0))
  {
    var node := new Transform(0);
    node.SetPosition(5.0, 0.0, 0.0);
    var first := node.UpdateWorldMatrixIntended();
    node.SetPosition(5.0, 0.0, 0.0);
    var second := node.UpdateWorldMatrixIntended();
    assert node.cachedMatrix == IntendedLocalMatrix(Vec3(1.0, 1.0, 1.0), Origin, Vec3(5.0, 0.0, 0.0));
    IntendedLocalMatrixPlacesPoint(Vec3(1.0, 1.0, 1.0), Vec3(5.0, 0.0, 0.0), Origin);
    image := Apply(node.cachedMatrix, Origin);
  }

  lemma StretchThenShift()
    ensures Add(Stretch(Vec3(2.0, 1.0, 1.0), Vec3(1.0, 0.0, 0.0)), Vec3(5.0, 0.0, 0.0)) == Vec3(7.0, 0.0, 0.0)
  {
  }

  /** With the intended update, scale (2,1,1) and position (5,0,0) send (1,0,0) to (7,0,0). */
  method IntendedLocalOrder() returns (image: Option<Vec3>)
    ensures image == Some(Vec3(7.0, 0.0, 0.0))
  {
    var node := new Transform(0);
    node.SetScale(2.0, 1.0, 1.0);
    node.SetPosition(5.0, 0.0, 0.0);
    var s := Vec3(2.0, 1.0, 1.0);
    var p := Vec3(5.0, 0.0, 0.0);
    var q := Vec3(1.0, 0.0, 0.0);
    assert node.scale == s && node.rotation == Origin && node.position == p && node.matrixNeedsUpdate;
    var updated := node.UpdateWorldMatrixIntended();
    assert node.cachedMatrix == IntendedLocalMatrix(s, Origin, p);
    var m := node.cachedMatrix;
    IntendedLocalMatrixPlacesPoint(s, p, q);
    assert Apply(m, q) == Some(Add(Stretch(s, q), p));
    StretchThenShift();
    image := Apply(m, q);
  }

  /** The local matrix a dirty update builds, as written, from unit scale, no rotation and position `p`. */
  function WrittenUnitLocal(p: Vec3): Mat {
    Product(Product(Product(Identity, Scaling(Vec3(1.0, 1.0, 1.0))), EulerRotation(Origin)), Product(Identity, Translation(p)))
  }

  /** That local matrix shifts every point by `p`. */
  lemma WrittenUnitLocalShifts(p: Vec3, q: Vec3)
    ensures Apply(WrittenUnitLocal(p), q) == Some(Add(q, p))
  {
    WrittenOrderImage(Vec3(1.0, 1.0, 1.0), p, q);
    assert Stretch(Vec3(1.0, 1.0, 1.0), Add(q, p)) == Add(q, p);
  }

  /**
   * The shared identity after a clean update of a root whose world matrix
   * is its local shift by `p`, composed with a new root's local matrix,
   * sends the origin to `2p`.
   */
  lemma CorruptedIdentityImage(p: Vec3)
    ensures Apply(Product(Product(WrittenUnitLocal(p), Product(Identity, WrittenUnitLocal(p))), WrittenUnitLocal(Origin)), Origin)
            == Some(Add(Add(Origin, p), p))
  {
    var a := WrittenUnitLocal(p);
    var q := Add(Origin, p);
    WrittenUnitLocalShifts(Origin, Origin);
    assert Add(Origin, Origin) == Origin;
    assert Apply(WrittenUnitLocal(Origin), Origin) == Some(Origin);
    WrittenUnitLocalShifts(p, Origin);
    assert Apply(Product(Identity, a), Origin) == Some(q);
    WrittenUnitLocalShifts(p, q);
    assert Apply(Product(a, Product(Identity, a)), Origin) == Some(Add(q, p));
  }

  /**
   * A new root at `p` updated twice, the second time clean: the shared
   * identity becomes local · (identity · local).
   */
  method UpdateShiftedRootTwice(identity: SharedIdentityMatrix, p: Vec3)
    modifies identity
    ensures identity.value == Product(WrittenUnitLocal(p), Product(old(identity.value), WrittenUnitLocal(p)))
  {
    var node := new Transform(0);
    node.SetPosition(p.x, p.y, p.z);
    var dirty := node.UpdateWorldMatrix(identity);
    assert node.cachedMatrix == WrittenUnitLocal(p);
    var clean := node.UpdateWorldMatrix(identity);
  }

  /** A new root at the origin, updated once: its world matrix is the shared identity's value · local. */
  method NewRootWorld(identity: SharedIdentityMatrix) returns (world: Mat)
    modifies identity
    ensures identity.value == old(identity.value)
    ensures world == Product(identity.value, WrittenUnitLocal(Origin))
  {
    var node := new Transform(1);
    var updated := node.UpdateWorldMatrix(identity);
    assert node.cachedMatrix == WrittenUnitLocal(Origin);
    world := node.worldMatrix;
  }

  /**
   * A root at (5,0,0) updated twice, the second time clean, writes local ·
   * world into the shared identity matrix; a new root at the origin, updated
   * afterwards, then has its origin at (10,0,0) instead of (0,0,0).
   */
  method CleanUpdateCorruptsIdentity() returns (image: Option<Vec3>)
    ensures image == Some(Vec3(10.0, 0.0, 0.0))
  {
    var identity := new SharedIdentityMatrix();
    var p := Vec3(5.0, 0.0, 0.0);
    UpdateShiftedRootTwice(identity, p);
    var world := NewRootWorld(identity);
    CorruptedIdentityImage(p);
    assert Add(Add(Origin, p), p) == Vec3(10.0, 0.0, 0.0);
    image := Apply(world, Origin);
  }

  /** The same sequence with the intended update: the second root's origin stays at (0,0,0). */
  method IntendedCleanUpdateKeepsIdentity() returns (image: Option<Vec3>)
    ensures image == Some(Origin)
  {
    var first := new Transform(0);
    first.SetPosition(5.0, 0.0, 0.0);
    var dirty := first.UpdateWorldMatrixIntended();
    var clean := first.UpdateWorldMatrixIntended();
    var second := new Transform(1);
    var updated := second.UpdateWorldMatrixIntended();
    assert second.worldMatrix == Product(Identity, IntendedLocalMatrix(Vec3(1.0, 1.0, 1.0), Origin, Origin));
    IntendedLocalMatrixPlacesPoint(Vec3(1.0, 1.0, 1.0), Origin, Origin);
    assert Add(Stretch(Vec3(1.0, 1.0, 1.0), Origin), Origin) == Origin;
    image := Apply(second.worldMatrix, Origin);
  }
}
