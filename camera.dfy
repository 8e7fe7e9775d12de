/**
 * The camera base class of Camera.h. Position and rotation are stored as
 * given; each setter recomputes the view matrix and the combined
 * view-projection matrix at once, so a getter never returns a matrix
 * derived from an older position or rotation.
 */
module Cameras {

  /** A glm::vec3; its float components are modelled as reals. */
  datatype Vec3 = Vec3(x: real, y: real, z: real)

  /**
   * A glm::mat4 as a symbolic term. The matrix arithmetic of glm is not
   * modelled: each constructor stands for one uninterpreted operation, so
   * two terms are equal when they are built from the same operations on
   * the same arguments.
   */
  datatype Mat =
    | Supplied(id: nat)                        // a matrix computed by code outside this model
    | ViewOf(position: Vec3, rotation: real)   // the view matrix for a position and an in-plane rotation
    | Product(lhs: Mat, rhs: Mat)              // the glm product lhs * rhs

  const Origin := Vec3(0.0, 0.0, 0.0)

  class Camera {
    var position: Vec3
    var rotation: real
    var viewMatrix: Mat
    var projectionMatrix: Mat
    var viewProjectionMatrix: Mat

    /** The derived matrices agree with the latest position, rotation and projection. */
    ghost predicate Valid()
      reads this
    {
      viewMatrix == ViewOf(position, rotation)
      && viewProjectionMatrix == Product(projectionMatrix, viewMatrix)
    }

    /**
     * A camera whose projection the derived camera class has set. The
     * position starts at the origin and the rotation at zero.
     */
    constructor (projection: Mat)
      ensures Valid()
      ensures position == Origin && rotation == 0.0
      ensures projectionMatrix == projection
    {
      position := Origin;
      rotation := 0.0;
      projectionMatrix := projection;
      viewMatrix := ViewOf(Origin, 0.0);
      viewProjectionMatrix := Product(projection, ViewOf(Origin, 0.0));
    }

    /** The position that the derived matrices of a consistent camera reflect. */
    function GetPosition(): (p: Vec3)
      reads this
      ensures Valid() ==> viewMatrix == ViewOf(p, rotation)
    {
      position
    }

    /** The rotation that the derived matrices of a consistent camera reflect. */
    function GetRotation(): (r: real)
      reads this
      ensures Valid() ==> viewMatrix == ViewOf(position, r)
    {
      rotation
    }

    /** The projection that the view-projection of a consistent camera is built from. */
    function GetProjectionMatrix(): (m: Mat)
      reads this
      ensures Valid() ==> viewProjectionMatrix == Product(m, viewMatrix)
    {
      projectionMatrix
    }

    /** The view matrix of the current position and rotation. */
    function GetViewMatrix(): (m: Mat)
      reads this
      ensures Valid() ==> m == ViewOf(GetPosition(), GetRotation())
    {
      viewMatrix
    }

    /** The projection times the view matrix of the current position and rotation. */
    function GetViewProjectionMatrix(): (m: Mat)
      reads this
      ensures Valid() ==> m == Product(GetProjectionMatrix(), ViewOf(GetPosition(), GetRotation()))
    {
      viewProjectionMatrix
    }

    method SetPosition(p: Vec3)
      modifies this
      ensures Valid()
      ensures GetPosition() == p
      ensures GetRotation() == old(GetRotation())
      ensures GetProjectionMatrix() == old(GetProjectionMatrix())
    {
      position := p;
      RecalculateViewMatrix();
    }

    method SetRotation(r: real)
      modifies this
      ensures Valid()
      ensures GetRotation() == r
      ensures GetPosition() == old(GetPosition())
      ensures GetProjectionMatrix() == old(GetProjectionMatrix())
    {
      rotation := r;
      RecalculateViewMatrix();
    }

    /** Derives the view matrix from position and rotation, then the view-projection from it. */
    method RecalculateViewMatrix()
      modifies this
      ensures Valid()
      ensures position == old(position) && rotation == old(rotation)
      ensures projectionMatrix == old(projectionMatrix)
    {
      viewMatrix := ViewOf(position, rotation);
      viewProjectionMatrix := Product(projectionMatrix, viewMatrix);
    }
  }
}
