/**
 Real-valued matrices as sequences of rows, the quaternion-to-rotation
 conversion and the 4 x 4 pose layout of the reconstruction pipeline
 (modules/quest_reconstruction_pipeline.py, `quaternion_to_matrix` and
 `build_pose_matrix`).  Arithmetic is exact over `real`; IEEE rounding is
 not modelled.
 */
module Geometry {
  import opened Wrappers

  type Matrix = seq<seq<real>>

  predicate IsMatrix(m: Matrix, rows: nat, cols: nat) {
    |m| == rows && forall i :: 0 <= i < rows ==> |m[i]| == cols
  }

  function Identity(n: nat): (m: Matrix)
    ensures IsMatrix(m, n, n)
    ensures forall i, j :: 0 <= i < n && 0 <= j < n ==> m[i][j] == if i == j then 1.0 else 0.0
  {
    seq(n, i => seq(n, j => if i == j then 1.0 else 0.0))
  }

  function Dot(a: seq<real>, b: seq<real>): real
    requires |a| == |b|
    decreases |a|
  {
    if |a| == 0 then 0.0 else a[0] * b[0] + Dot(a[1..], b[1..])
  }

  lemma Dot3(a: seq<real>, b: seq<real>)
    requires |a| == 3 && |b| == 3
    ensures Dot(a, b) == a[0] * b[0] + a[1] * b[1] + a[2] * b[2]
  {
    assert Dot(a[1..][1..][1..], b[1..][1..][1..]) == 0.0;
    assert Dot(a[1..][1..], b[1..][1..]) == a[2] * b[2];
    assert Dot(a[1..], b[1..]) == a[1] * b[1] + a[2] * b[2];
  }

  lemma Dot4(a: seq<real>, b: seq<real>)
    requires |a| == 4 && |b| == 4
    ensures Dot(a, b) == a[0] * b[0] + a[1] * b[1] + a[2] * b[2] + a[3] * b[3]
  {
    Dot3(a[1..], b[1..]);
  }

  lemma {:induction false} DotSymmetric(a: seq<real>, b: seq<real>)
    requires |a| == |b|
    ensures Dot(a, b) == Dot(b, a)
    decreases |a|
  {
    if |a| > 0 {
      DotSymmetric(a[1..], b[1..]);
    }
  }

  function Column(m: Matrix, j: nat, rows: nat, cols: nat): (c: seq<real>)
    requires IsMatrix(m, rows, cols) && j < cols
    ensures |c| == rows && forall i :: 0 <= i < rows ==> c[i] == m[i][j]
  {
    seq(rows, i requires 0 <= i < rows => m[i][j])
  }

  function Transpose(m: Matrix, rows: nat, cols: nat): (t: Matrix)
    requires IsMatrix(m, rows, cols)
    ensures IsMatrix(t, cols, rows)
    ensures forall i, j :: 0 <= i < cols && 0 <= j < rows ==> t[i][j] == m[j][i]
  {
    seq(cols, i requires 0 <= i < cols => Column(m, i, rows, cols))
  }

  /** The matrix product, NumPy's `@`. */
  function MatMul(a: Matrix, b: Matrix, n: nat, k: nat, p: nat): (c: Matrix)
    requires IsMatrix(a, n, k) && IsMatrix(b, k, p)
    ensures IsMatrix(c, n, p)
    ensures forall i, j :: 0 <= i < n && 0 <= j < p ==> c[i][j] == Dot(a[i], Column(b, j, k, p))
  {
    seq(n, i requires 0 <= i < n => seq(p, j requires 0 <= j < p => Dot(a[i], Column(b, j, k, p))))
  }

  // ---------------------------------------------------------------------------
  // quaternion_to_matrix
  // ---------------------------------------------------------------------------

  datatype PoseError =
    | QuaternionArity(length: nat)   // `w, x, y, z = quat` on a list that is not of length 4
    | PositionArity(length: nat)     // `reshape(3, 1)` on a list that is not of length 3

  // The rows of the rotation matrix written out for the quaternion (w, x, y, z).

  function Row0(w: real, x: real, y: real, z: real): seq<real> {
    [1.0 - 2.0*y*y - 2.0*z*z, 2.0*x*y - 2.0*w*z, 2.0*x*z + 2.0*w*y]
  }

  function Row1(w: real, x: real, y: real, z: real): seq<real> {
    [2.0*x*y + 2.0*w*z, 1.0 - 2.0*x*x - 2.0*z*z, 2.0*y*z - 2.0*w*x]
  }

  function Row2(w: real, x: real, y: real, z: real): seq<real> {
    [2.0*x*z - 2.0*w*y, 2.0*y*z + 2.0*w*x, 1.0 - 2.0*x*x - 2.0*y*y]
  }

  function RotationOf(w: real, x: real, y: real, z: real): (r: Matrix)
    ensures IsMatrix(r, 3, 3)
  {
    [Row0(w, x, y, z), Row1(w, x, y, z), Row2(w, x, y, z)]
  }

  /** `quaternion_to_matrix`: the components are read in the order [w, x, y, z]. */
  function QuaternionToMatrix(quat: seq<real>): (r: Result<Matrix, PoseError>)
    ensures r.Success? <==> |quat| == 4
    ensures r.Failure? ==> r.error == QuaternionArity(|quat|)
    ensures r.Success? ==> IsMatrix(r.value, 3, 3)
    ensures r.Success? ==> r.value == RotationOf(quat[0], quat[1], quat[2], quat[3])
  {
    if |quat| != 4 then Failure(QuaternionArity(|quat|))
    else Success(RotationOf(quat[0], quat[1], quat[2], quat[3]))
  }

  /** The identity quaternion [1, 0, 0, 0] gives the 3 x 3 identity. */
  lemma IdentityQuaternion()
    ensures QuaternionToMatrix([1.0, 0.0, 0.0, 0.0]) == Success(Identity(3))
  {
    var id := Identity(3);
    assert id[0] == [1.0, 0.0, 0.0] && id[1] == [0.0, 1.0, 0.0] && id[2] == [0.0, 0.0, 1.0];
    assert id == [id[0], id[1], id[2]];
  }

  /** Squared norm of the quaternion. */
  function Norm2(w: real, x: real, y: real, z: real): real {
    w*w + x*x + y*y + z*z
  }

  // The products of two rows of the matrix, as polynomial identities in the
  // components: each deviates from the identity by a multiple of 1 - |q|^2,
  // so it is exact for a unit quaternion.

  lemma Polynomial00(w: real, x: real, y: real, z: real)
    ensures (1.0 - 2.0*y*y - 2.0*z*z) * (1.0 - 2.0*y*y - 2.0*z*z)
            + (2.0*x*y - 2.0*w*z) * (2.0*x*y - 2.0*w*z)
            + (2.0*x*z + 2.0*w*y) * (2.0*x*z + 2.0*w*y)
            == 1.0 - 4.0*(y*y + z*z) * (1.0 - Norm2(w, x, y, z))
  {
  }

  lemma RowIdentity00(w: real, x: real, y: real, z: real, a0: real, a1: real, a2: real)
    requires a0 == 1.0 - 2.0*y*y - 2.0*z*z && a1 == 2.0*x*y - 2.0*w*z && a2 == 2.0*x*z + 2.0*w*y
    ensures a0*a0 + a1*a1 + a2*a2 == 1.0 - 4.0*(y*y + z*z) * (1.0 - Norm2(w, x, y, z))
  {
    Polynomial00(w, x, y, z);
  }

  lemma RowProduct00(w: real, x: real, y: real, z: real, a0: real, a1: real, a2: real)
    requires a0 == 1.0 - 2.0*y*y - 2.0*z*z && a1 == 2.0*x*y - 2.0*w*z && a2 == 2.0*x*z + 2.0*w*y
    requires Norm2(w, x, y, z) == 1.0
    ensures a0*a0 + a1*a1 + a2*a2 == 1.0
  {
    RowIdentity00(w, x, y, z, a0, a1, a2);
    UnitScale(a0*a0 + a1*a1 + a2*a2, 1.0, 4.0*(y*y + z*z), Norm2(w, x, y, z));
  }

  lemma Polynomial11(w: real, x: real, y: real, z: real)
    ensures (2.0*x*y + 2.0*w*z) * (2.0*x*y + 2.0*w*z)
            + (1.0 - 2.0*x*x - 2.0*z*z) * (1.0 - 2.0*x*x - 2.0*z*z)
            + (2.0*y*z - 2.0*w*x) * (2.0*y*z - 2.0*w*x)
            == 1.0 - 4.0*(x*x + z*z) * (1.0 - Norm2(w, x, y, z))
  {
  }

  lemma RowIdentity11(w: real, x: real, y: real, z: real, a0: real, a1: real, a2: real)
    requires a0 == 2.0*x*y + 2.0*w*z && a1 == 1.0 - 2.0*x*x - 2.0*z*z && a2 == 2.0*y*z - 2.0*w*x
    ensures a0*a0 + a1*a1 + a2*a2 == 1.0 - 4.0*(x*x + z*z) * (1.0 - Norm2(w, x, y, z))
  {
    Polynomial11(w, x, y, z);
  }

  lemma RowProduct11(w: real, x: real, y: real, z: real, a0: real, a1: real, a2: real)
    requires a0 == 2.0*x*y + 2.0*w*z && a1 == 1.0 - 2.0*x*x - 2.0*z*z && a2 == 2.0*y*z - 2.0*w*x
    requires Norm2(w, x, y, z) == 1.0
    ensures a0*a0 + a1*a1 + a2*a2 == 1.0
  {
    RowIdentity11(w, x, y, z, a0, a1, a2);
    UnitScale(a0*a0 + a1*a1 + a2*a2, 1.0, 4.0*(x*x + z*z), Norm2(w, x, y, z));
  }

  lemma Polynomial22(w: real, x: real, y: real, z: real)
    ensures (2.0*x*z - 2.0*w*y) * (2.0*x*z - 2.0*w*y)
            + (2.0*y*z + 2.0*w*x) * (2.0*y*z + 2.0*w*x)
            + (1.0 - 2.0*x*x - 2.0*y*y) * (1.0 - 2.0*x*x - 2.0*y*y)
            == 1.0 - 4.0*(x*x + y*y) * (1.0 - Norm2(w, x, y, z))
  {
  }

  lemma RowIdentity22(w: real, x: real, y: real, z: real, a0: real, a1: real, a2: real)
    requires a0 == 2.0*x*z - 2.0*w*y && a1 == 2.0*y*z + 2.0*w*x && a2 == 1.0 - 2.0*x*x - 2.0*y*y
    ensures a0*a0 + a1*a1 + a2*a2 == 1.0 - 4.0*(x*x + y*y) * (1.0 - Norm2(w, x, y, z))
  {
    Polynomial22(w, x, y, z);
  }

  lemma RowProduct22(w: real, x: real, y: real, z: real, a0: real, a1: real, a2: real)
    requires a0 == 2.0*x*z - 2.0*w*y && a1 == 2.0*y*z + 2.0*w*x && a2 == 1.0 - 2.0*x*x - 2.0*y*y
    requires Norm2(w, x, y, z) == 1.0
    ensures a0*a0 + a1*a1 + a2*a2 == 1.0
  {
    RowIdentity22(w, x, y, z, a0, a1, a2);
    UnitScale(a0*a0 + a1*a1 + a2*a2, 1.0, 4.0*(x*x + y*y), Norm2(w, x, y, z));
  }

  lemma Polynomial01(w: real, x: real, y: real, z: real)
    ensures (1.0 - 2.0*y*y - 2.0*z*z) * (2.0*x*y + 2.0*w*z)
            + (2.0*x*y - 2.0*w*z) * (1.0 - 2.0*x*x - 2.0*z*z)
            + (2.0*x*z + 2.0*w*y) * (2.0*y*z - 2.0*w*x)
            == 0.0 + 4.0*x*y * (1.0 - Norm2(w, x, y, z))
  {
  }

  lemma RowIdentity01(w: real, x: real, y: real, z: real, a0: real, a1: real, a2: real,
                       b0: real, b1: real, b2: real)
    requires a0 == 1.0 - 2.0*y*y - 2.0*z*z && a1 == 2.0*x*y - 2.0*w*z && a2 == 2.0*x*z + 2.0*w*y
    requires b0 == 2.0*x*y + 2.0*w*z && b1 == 1.0 - 2.0*x*x - 2.0*z*z && b2 == 2.0*y*z - 2.0*w*x
    ensures a0*b0 + a1*b1 + a2*b2 == 0.0 + 4.0*x*y * (1.0 - Norm2(w, x, y, z))
  {
    Polynomial01(w, x, y, z);
  }

  lemma RowProduct01(w: real, x: real, y: real, z: real, a0: real, a1: real, a2: real,
                       b0: real, b1: real, b2: real)
    requires a0 == 1.0 - 2.0*y*y - 2.0*z*z && a1 == 2.0*x*y - 2.0*w*z && a2 == 2.0*x*z + 2.0*w*y
    requires b0 == 2.0*x*y + 2.0*w*z && b1 == 1.0 - 2.0*x*x - 2.0*z*z && b2 == 2.0*y*z - 2.0*w*x
    requires Norm2(w, x, y, z) == 1.0
    ensures a0*b0 + a1*b1 + a2*b2 == 0.0
  {
    RowIdentity01(w, x, y, z, a0, a1, a2, b0, b1, b2);
    UnitScale(a0*b0 + a1*b1 + a2*b2, 0.0, 4.0*x*y, Norm2(w, x, y, z));
  }

  lemma Polynomial02(w: real, x: real, y: real, z: real)
    ensures (1.0 - 2.0*y*y - 2.0*z*z) * (2.0*x*z - 2.0*w*y)
            + (2.0*x*y - 2.0*w*z) * (2.0*y*z + 2.0*w*x)
            + (2.0*x*z + 2.0*w*y) * (1.0 - 2.0*x*x - 2.0*y*y)
            == 0.0 + 4.0*x*z * (1.0 - Norm2(w, x, y, z))
  {
  }

  lemma RowIdentity02(w: real, x: real, y: real, z: real, a0: real, a1: real, a2: real,
                       b0: real, b1: real, b2: real)
    requires a0 == 1.0 - 2.0*y*y - 2.0*z*z && a1 == 2.0*x*y - 2.0*w*z && a2 == 2.0*x*z + 2.0*w*y
    requires b0 == 2.0*x*z - 2.0*w*y && b1 == 2.0*y*z + 2.0*w*x && b2 == 1.0 - 2.0*x*x - 2.0*y*y
    ensures a0*b0 + a1*b1 + a2*b2 == 0.0 + 4.0*x*z * (1.0 - Norm2(w, x, y, z))
  {
    Polynomial02(w, x, y, z);
  }

  lemma RowProduct02(w: real, x: real, y: real, z: real, a0: real, a1: real, a2: real,
                       b0: real, b1: real, b2: real)
    requires a0 == 1.0 - 2.0*y*y - 2.0*z*z && a1 == 2.0*x*y - 2.0*w*z && a2 == 2.0*x*z + 2.0*w*y
    requires b0 == 2.0*x*z - 2.0*w*y && b1 == 2.0*y*z + 2.0*w*x && b2 == 1.0 - 2.0*x*x - 2.0*y*y
    requires Norm2(w, x, y, z) == 1.0
    ensures a0*b0 + a1*b1 + a2*b2 == 0.0
  {
    RowIdentity02(w, x, y, z, a0, a1, a2, b0, b1, b2);
    UnitScale(a0*b0 + a1*b1 + a2*b2, 0.0, 4.0*x*z, Norm2(w, x, y, z));
  }

  lemma Polynomial12(w: real, x: real, y: real, z: real)
    ensures (2.0*x*y + 2.0*w*z) * (2.0*x*z - 2.0*w*y)
            + (1.0 - 2.0*x*x - 2.0*z*z) * (2.0*y*z + 2.0*w*x)
            + (2.0*y*z - 2.0*w*x) * (1.0 - 2.0*x*x - 2.0*y*y)
            == 0.0 + 4.0*y*z * (1.0 - Norm2(w, x, y, z))
  {
  }

  lemma RowIdentity12(w: real, x: real, y: real, z: real, a0: real, a1: real, a2: real,
                       b0: real, b1: real, b2: real)
    requires a0 == 2.0*x*y + 2.0*w*z && a1 == 1.0 - 2.0*x*x - 2.0*z*z && a2 == 2.0*y*z - 2.0*w*x
    requires b0 == 2.0*x*z - 2.0*w*y && b1 == 2.0*y*z + 2.0*w*x && b2 == 1.0 - 2.0*x*x - 2.0*y*y
    ensures a0*b0 + a1*b1 + a2*b2 == 0.0 + 4.0*y*z * (1.0 - Norm2(w, x, y, z))
  {
    Polynomial12(w, x, y, z);
  }

  lemma RowProduct12(w: real, x: real, y: real, z: real, a0: real, a1: real, a2: real,
                       b0: real, b1: real, b2: real)
    requires a0 == 2.0*x*y + 2.0*w*z && a1 == 1.0 - 2.0*x*x - 2.0*z*z && a2 == 2.0*y*z - 2.0*w*x
    requires b0 == 2.0*x*z - 2.0*w*y && b1 == 2.0*y*z + 2.0*w*x && b2 == 1.0 - 2.0*x*x - 2.0*y*y
    requires Norm2(w, x, y, z) == 1.0
    ensures a0*b0 + a1*b1 + a2*b2 == 0.0
  {
    RowIdentity12(w, x, y, z, a0, a1, a2, b0, b1, b2);
    UnitScale(a0*b0 + a1*b1 + a2*b2, 0.0, 4.0*y*z, Norm2(w, x, y, z));
  }

  lemma RowDot00(w: real, x: real, y: real, z: real)
    requires Norm2(w, x, y, z) == 1.0
    ensures Dot(Row0(w, x, y, z), Row0(w, x, y, z)) == 1.0
  {
    var a, b := Row0(w, x, y, z), Row0(w, x, y, z);
    Dot3(a, b);
    RowProduct00(w, x, y, z, a[0], a[1], a[2]);
  }

  lemma RowDot11(w: real, x: real, y: real, z: real)
    requires Norm2(w, x, y, z) == 1.0
    ensures Dot(Row1(w, x, y, z), Row1(w, x, y, z)) == 1.0
  {
    var a, b := Row1(w, x, y, z), Row1(w, x, y, z);
    Dot3(a, b);
    RowProduct11(w, x, y, z, a[0], a[1], a[2]);
  }

  lemma RowDot22(w: real, x: real, y: real, z: real)
    requires Norm2(w, x, y, z) == 1.0
    ensures Dot(Row2(w, x, y, z), Row2(w, x, y, z)) == 1.0
  {
    var a, b := Row2(w, x, y, z), Row2(w, x, y, z);
    Dot3(a, b);
    RowProduct22(w, x, y, z, a[0], a[1], a[2]);
  }

  lemma RowDot01(w: real, x: real, y: real, z: real)
    requires Norm2(w, x, y, z) == 1.0
    ensures Dot(Row0(w, x, y, z), Row1(w, x, y, z)) == 0.0
  {
    var a, b := Row0(w, x, y, z), Row1(w, x, y, z);
    Dot3(a, b);
    RowProduct01(w, x, y, z, a[0], a[1], a[2], b[0], b[1], b[2]);
  }

  lemma RowDot02(w: real, x: real, y: real, z: real)
    requires Norm2(w, x, y, z) == 1.0
    ensures Dot(Row0(w, x, y, z), Row2(w, x, y, z)) == 0.0
  {
    var a, b := Row0(w, x, y, z), Row2(w, x, y, z);
    Dot3(a, b);
    RowProduct02(w, x, y, z, a[0], a[1], a[2], b[0], b[1], b[2]);
  }

  lemma RowDot12(w: real, x: real, y: real, z: real)
    requires Norm2(w, x, y, z) == 1.0
    ensures Dot(Row1(w, x, y, z), Row2(w, x, y, z)) == 0.0
  {
    var a, b := Row1(w, x, y, z), Row2(w, x, y, z);
    Dot3(a, b);
    RowProduct12(w, x, y, z, a[0], a[1], a[2], b[0], b[1], b[2]);
  }

  /** Row i of the matrix dotted with row j, for a unit quaternion. */
  lemma RowDot(w: real, x: real, y: real, z: real, i: nat, j: nat)
    requires Norm2(w, x, y, z) == 1.0 && i <= j < 3
    ensures var r := RotationOf(w, x, y, z);
            Dot(r[i], r[j]) == if i == j then 1.0 else 0.0
  {
    assert RotationOf(w, x, y, z)[i] == [Row0(w, x, y, z), Row1(w, x, y, z), Row2(w, x, y, z)][i];
    if i == 0 && j == 0 {
      RowDot00(w, x, y, z);
    } else if i == 1 && j == 1 {
      RowDot11(w, x, y, z);
    } else if i == 2 && j == 2 {
      RowDot22(w, x, y, z);
    } else if i == 0 && j == 1 {
      RowDot01(w, x, y, z);
    } else if i == 0 && j == 2 {
      RowDot02(w, x, y, z);
    } else {
      RowDot12(w, x, y, z);
    }
  }

  /** s = c -+ k * (1 - n) with n = 1 gives s = c. */
  lemma UnitScale(s: real, c: real, k: real, n: real)
    requires s == c - k * (1.0 - n) || s == c + k * (1.0 - n)
    requires n == 1.0
    ensures s == c
  {
  }

  /**
   For a unit quaternion the matrix is orthogonal: row i dotted with row j
   is 1 on the diagonal and 0 off it, that is R * R^T = I.
   */
  lemma RotationOrthogonal(quat: seq<real>)
    requires |quat| == 4 && Norm2(quat[0], quat[1], quat[2], quat[3]) == 1.0
    ensures var r := QuaternionToMatrix(quat).value;
            forall i, j :: 0 <= i < 3 && 0 <= j < 3 ==>
              Dot(r[i], r[j]) == if i == j then 1.0 else 0.0
  {
    forall i, j | 0 <= i < 3 && 0 <= j < 3
      ensures Dot(RotationOf(quat[0], quat[1], quat[2], quat[3])[i],
                  RotationOf(quat[0], quat[1], quat[2], quat[3])[j]) == if i == j then 1.0 else 0.0
    {
      if i <= j {
        RowDot(quat[0], quat[1], quat[2], quat[3], i, j);
      } else {
        RowDot(quat[0], quat[1], quat[2], quat[3], j, i);
        DotSymmetric(RotationOf(quat[0], quat[1], quat[2], quat[3])[i],
                     RotationOf(quat[0], quat[1], quat[2], quat[3])[j]);
      }
    }
  }

  // ---------------------------------------------------------------------------
  // build_pose_matrix
  // ---------------------------------------------------------------------------

  /** The 4 x 4 rigid transform with rotation block `rot` and translation `t`. */
  function RigidTransform(rot: Matrix, t: seq<real>): (m: Matrix)
    requires IsMatrix(rot, 3, 3) && |t| == 3
    ensures IsMatrix(m, 4, 4)
  {
    [rot[0] + [t[0]], rot[1] + [t[1]], rot[2] + [t[2]], [0.0, 0.0, 0.0, 1.0]]
  }

  /**
   `build_pose_matrix`: R in the top-left 3 x 3 block, the position in the
   last column, and [0, 0, 0, 1] as the bottom row.
   */
  function BuildPoseMatrix(position: seq<real>, rotation: seq<real>): (r: Result<Matrix, PoseError>)
    ensures r.Success? <==> |rotation| == 4 && |position| == 3
    ensures |rotation| != 4 ==> r == Failure(QuaternionArity(|rotation|))
    ensures r.Success? ==>
              var rot := QuaternionToMatrix(rotation).value;
              && IsMatrix(r.value, 4, 4)
              && (forall i, j :: 0 <= i < 3 && 0 <= j < 3 ==> r.value[i][j] == rot[i][j])
              && (forall i :: 0 <= i < 3 ==> r.value[i][3] == position[i])
              && r.value[3] == [0.0, 0.0, 0.0, 1.0]
  {
    match QuaternionToMatrix(rotation)
    case Failure(e) => Failure(e)
    case Success(rot) =>
      if |position| != 3 then Failure(PositionArity(|position|))
      else Success(RigidTransform(rot, position))
  }

  /** Appending one component to both vectors adds its product to the dot product. */
  lemma {:induction false} DotAppend(a: seq<real>, b: seq<real>, x: real, y: real)
    requires |a| == |b|
    ensures Dot(a + [x], b + [y]) == Dot(a, b) + x * y
    decreases |a|
  {
    if |a| == 0 {
      assert Dot([x], [y]) == x * y + Dot([], []);
    } else {
      assert (a + [x])[1..] == a[1..] + [x];
      assert (b + [y])[1..] == b[1..] + [y];
      DotAppend(a[1..], b[1..], x, y);
    }
  }

  /** The dot product with the j-th unit vector picks component j. */
  lemma DotUnit(a: seq<real>, e: seq<real>, j: nat)
    requires |a| == 4 && |e| == 4 && j < 4
    requires forall k :: 0 <= k < 4 ==> e[k] == if k == j then 1.0 else 0.0
    ensures Dot(a, e) == a[j]
  {
    Dot4(a, e);
  }

  /** The rows of [R | t]: R's rows extended by t, then [0, 0, 0, 1]. */
  lemma RigidRow(rot: Matrix, t: seq<real>, i: nat)
    requires IsMatrix(rot, 3, 3) && |t| == 3 && i < 4
    ensures RigidTransform(rot, t)[i] == if i < 3 then rot[i] + [t[i]] else [0.0, 0.0, 0.0, 1.0]
  {
  }

  /** The first three columns of [I | t] are unit vectors. */
  lemma UnitColumn(t: seq<real>, j: nat)
    requires |t| == 3 && j < 3
    ensures var col := Column(RigidTransform(Identity(3), t), j, 4, 4);
            forall k :: 0 <= k < 4 ==> col[k] == if k == j then 1.0 else 0.0
  {
    var b := RigidTransform(Identity(3), t);
    forall k | 0 <= k < 4
      ensures b[k][j] == if k == j then 1.0 else 0.0
    {
      RigidRow(Identity(3), t, k);
    }
  }

  /** The last column of [I | t] is t with a trailing 1. */
  lemma TranslationColumn(t: seq<real>)
    requires |t| == 3
    ensures Column(RigidTransform(Identity(3), t), 3, 4, 4) == t + [1.0]
  {
    var b := RigidTransform(Identity(3), t);
    var col := Column(b, 3, 4, 4);
    forall k | 0 <= k < 4
      ensures col[k] == (t + [1.0])[k]
    {
      RigidRow(Identity(3), t, k);
    }
  }

  /** Entries of [R | p] * [I | t] in the first three columns: R's, then 0 in the bottom row. */
  lemma ComposeRotationEntry(rot: Matrix, p: seq<real>, t: seq<real>, i: nat, j: nat)
    requires IsMatrix(rot, 3, 3) && |p| == 3 && |t| == 3 && i < 4 && j < 3
    ensures Dot(RigidTransform(rot, p)[i], Column(RigidTransform(Identity(3), t), j, 4, 4)) ==
              if i < 3 then rot[i][j] else 0.0
  {
    var row := RigidTransform(rot, p)[i];
    RigidRow(rot, p, i);
    UnitColumn(t, j);
    DotUnit(row, Column(RigidTransform(Identity(3), t), j, 4, 4), j);
  }

  /** The last column of [R | p] * [I | t]: R t + p, then 1. */
  lemma ComposeTranslationEntry(rot: Matrix, p: seq<real>, t: seq<real>, i: nat)
    requires IsMatrix(rot, 3, 3) && |p| == 3 && |t| == 3 && i < 4
    ensures Dot(RigidTransform(rot, p)[i], Column(RigidTransform(Identity(3), t), 3, 4, 4)) ==
              if i < 3 then Dot(rot[i], t) + p[i] else 1.0
  {
    RigidRow(rot, p, i);
    TranslationColumn(t);
    if i < 3 {
      DotAppend(rot[i], t, p[i], 1.0);
    } else {
      Dot4([0.0, 0.0, 0.0, 1.0], t + [1.0]);
    }
  }

  /** A 4 x 4 product whose row-column dot products form [R | s] over [0, 0, 0, 1]. */
  lemma ProductOfEntries(a: Matrix, b: Matrix, rot: Matrix, s: seq<real>)
    requires IsMatrix(a, 4, 4) && IsMatrix(b, 4, 4) && IsMatrix(rot, 3, 3) && |s| == 3
    requires forall i, j :: 0 <= i < 3 && 0 <= j < 3 ==> Dot(a[i], Column(b, j, 4, 4)) == rot[i][j]
    requires forall i :: 0 <= i < 3 ==> Dot(a[i], Column(b, 3, 4, 4)) == s[i]
    requires forall j :: 0 <= j < 3 ==> Dot(a[3], Column(b, j, 4, 4)) == 0.0
    requires Dot(a[3], Column(b, 3, 4, 4)) == 1.0
    ensures var c := MatMul(a, b, 4, 4, 4);
            && (forall i, j :: 0 <= i < 3 && 0 <= j < 3 ==> c[i][j] == rot[i][j])
            && (forall i :: 0 <= i < 3 ==> c[i][3] == s[i])
            && c[3] == [0.0, 0.0, 0.0, 1.0]
  {
    var c := MatMul(a, b, 4, 4, 4);
    assert c[3] == [c[3][0], c[3][1], c[3][2], c[3][3]];
  }

  /** R t + p, the origin of [R | p] * [I | t]. */
  function MovedOrigin(rot: Matrix, p: seq<real>, t: seq<real>): (s: seq<real>)
    requires IsMatrix(rot, 3, 3) && |p| == 3 && |t| == 3
    ensures |s| == 3 && forall i :: 0 <= i < 3 ==> s[i] == Dot(rot[i], t) + p[i]
  {
    seq(3, i requires 0 <= i < 3 => Dot(rot[i], t) + p[i])
  }

  /** The row-column dot products of [R | p] and [I | t], block by block. */
  lemma ComposeBlocks(rot: Matrix, p: seq<real>, t: seq<real>)
    requires IsMatrix(rot, 3, 3) && |p| == 3 && |t| == 3
    ensures var a, b := RigidTransform(rot, p), RigidTransform(Identity(3), t);
            && (forall i, j :: 0 <= i < 3 && 0 <= j < 3 ==> Dot(a[i], Column(b, j, 4, 4)) == rot[i][j])
            && (forall i :: 0 <= i < 3 ==> Dot(a[i], Column(b, 3, 4, 4)) == MovedOrigin(rot, p, t)[i])
            && (forall j :: 0 <= j < 3 ==> Dot(a[3], Column(b, j, 4, 4)) == 0.0)
            && Dot(a[3], Column(b, 3, 4, 4)) == 1.0
  {
    forall i, j | 0 <= i < 4 && 0 <= j < 3
      ensures Dot(RigidTransform(rot, p)[i], Column(RigidTransform(Identity(3), t), j, 4, 4))
              == if i < 3 then rot[i][j] else 0.0
    {
      ComposeRotationEntry(rot, p, t, i, j);
    }
    forall i | 0 <= i < 4
      ensures Dot(RigidTransform(rot, p)[i], Column(RigidTransform(Identity(3), t), 3, 4, 4))
              == if i < 3 then Dot(rot[i], t) + p[i] else 1.0
    {
      ComposeTranslationEntry(rot, p, t, i);
    }
  }

  /**
   Composing a pose [R | p] with a pure translation [I | t] keeps the
   rotation and moves the origin to R t + p: the camera sits at the head
   position plus the rotated offset.
   */
  lemma ComposeWithTranslation(rot: Matrix, p: seq<real>, t: seq<real>)
    requires IsMatrix(rot, 3, 3) && |p| == 3 && |t| == 3
    ensures var c := MatMul(RigidTransform(rot, p), RigidTransform(Identity(3), t), 4, 4, 4);
            && (forall i, j :: 0 <= i < 3 && 0 <= j < 3 ==> c[i][j] == rot[i][j])
            && (forall i :: 0 <= i < 3 ==> c[i][3] == Dot(rot[i], t) + p[i])
            && c[3] == [0.0, 0.0, 0.0, 1.0]
  {
    ComposeBlocks(rot, p, t);
    ProductOfEntries(RigidTransform(rot, p), RigidTransform(Identity(3), t), rot, MovedOrigin(rot, p, t));
  }
}
