/** The Vector3 values the camera works with (Pencil.Gaming.MathUtils.Vector3), over the reals. */
module Vectors {

  datatype Vector3 = Vector3(x: real, y: real, z: real)

  const Zero := Vector3(0.0, 0.0, 0.0)

  /** `a + b`, component by component; subtracting `b` again gives `a` back. */
  function Add(a: Vector3, b: Vector3): (r: Vector3)
    ensures Subtract(r, b) == a
  {
    Vector3(a.x + b.x, a.y + b.y, a.z + b.z)
  }

  /** `a - b`, component by component; it is the zero vector exactly when the two are equal. */
  function Subtract(a: Vector3, b: Vector3): (r: Vector3)
    ensures r == Zero <==> a == b
  {
    Vector3(a.x - b.x, a.y - b.y, a.z - b.z)
  }

  function Scale(v: Vector3, k: real): (r: Vector3) {
    Vector3(k * v.x, k * v.y, k * v.z)
  }

  /**
   * What the camera needs of the library's Vector3.Length (a square root, not
   * part of this model): every non-zero vector has a positive length.
   */
  ghost predicate IsLength(length: Vector3 -> real) {
    forall v: Vector3 :: v != Zero ==> 0.0 < length(v)
  }

  /**
   * Vector3.Normalize: `v` divided by its length. The result is a positive
   * multiple of `v`, so it is not zero and each component keeps its sign.
   */
  function Normalized(v: Vector3, length: Vector3 -> real): (u: Vector3)
    requires v != Zero && IsLength(length)
    ensures exists k: real :: 0.0 < k && u == Scale(v, k)
    ensures u != Zero
    ensures (0.0 < u.x <==> 0.0 < v.x) && (u.x < 0.0 <==> v.x < 0.0)
    ensures (0.0 < u.y <==> 0.0 < v.y) && (u.y < 0.0 <==> v.y < 0.0)
    ensures (0.0 < u.z <==> 0.0 < v.z) && (u.z < 0.0 <==> v.z < 0.0)
  {
    var k := 1.0 / length(v);
    ScaleKeepsSigns(k, v.x);
    ScaleKeepsSigns(k, v.y);
    ScaleKeepsSigns(k, v.z);
    assert 0.0 < k && Scale(v, k) == Scale(v, k);
    Scale(v, k)
  }

  /** Multiplying by a positive factor keeps the sign of a component. */
  lemma ScaleKeepsSigns(k: real, c: real)
    requires 0.0 < k
    ensures 0.0 < k * c <==> 0.0 < c
    ensures k * c < 0.0 <==> c < 0.0
  {
    if 0.0 < c {
      assert 0.0 < k * c;
    } else if c < 0.0 {
      assert k * c == -(k * -c);
      assert 0.0 < k * -c;
    } else {
      assert k * c == 0.0;
    }
  }
}
