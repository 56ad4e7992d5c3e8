/**
 * Vectors and 4x4 matrices as the renderer's matrix library sees them.
 *
 * The library itself (gl-matrix, wgpu-matrix) is not part of this model: a
 * matrix is a symbolic term recording which library operations produced it,
 * so that the order and the repetition of those operations stay visible.
 * `Apply` gives the terms built from scalings, translations and zero
 * rotations their action on points, which is enough to compare two
 * compositions on a concrete point.
 */
module Linear {
  import opened Outcomes

  datatype Vec3 = Vec3(x: real, y: real, z: real)

  const Origin: Vec3 := Vec3(0.0, 0.0, 0.0)

  function Add(a: Vec3, b: Vec3): Vec3 {
    Vec3(a.x + b.x, a.y + b.y, a.z + b.z)
  }

  /** Component-wise product, the action of a scaling by `s` on `p`. */
  function Stretch(s: Vec3, p: Vec3): Vec3 {
    Vec3(s.x * p.x, s.y * p.y, s.z * p.z)
  }

  datatype Mat =
    | Identity                                  // mat4.create(), mat4.identity
    | Zero                                      // zero-filled uniform storage
    | Product(left: Mat, right: Mat)            // mat4.mul(out, left, right)
    | Scaling(factors: Vec3)                    // the matrix mat4.scale multiplies by
    | Translation(offset: Vec3)                 // the matrix mat4.translate multiplies by
    | EulerRotation(angles: Vec3)               // quat.fromEuler followed by mat4.fromQuat
    | LookAt(eye: Vec3, target: Vec3, up: Vec3) // mat4.lookAt
    | Inverse(of: Mat)                          // mat4.inverse

  /**
   * The point `m` maps `p` to, for the terms whose action the model knows:
   * identity, scalings, translations, rotations by zero angles and their
   * products (column vectors: the right factor acts first). None otherwise.
   */
  function Apply(m: Mat, p: Vec3): Option<Vec3> {
    match m
    case Identity => Some(p)
    case Scaling(s) => Some(Stretch(s, p))
    case Translation(t) => Some(Add(p, t))
    case EulerRotation(a) => if a == Origin then Some(p) else None
    case Product(l, r) =>
      (match Apply(r, p)
       case Some(q) => Apply(l, q)
       case None => None)
    case _ => None
  }
}
