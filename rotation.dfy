/** The matrix arithmetic of the face-tracking plugin: the 4x4 product over 16-float
    arrays, the rotation about the Z axis applied to every transformation matrix before it
    is handed to the host, and the camera-rotation angle that rotation undoes. Floats are
    exact reals here; cosine and sine of an angle in degrees are parameters. */
module Rotation {
  import opened Common

  const MatricesMessage: string := "Matrices must be 4x4 (16 elements)"
  const MatrixMessage: string := "Matrix must be a 4x4 matrix (16 elements)"

  predicate Is4x4(m: seq<real>)
  {
    |m| == 16
  }

  /** Entry `(i, j)` of `a * b`, both laid out as `m[i * 4 + j]`. */
  function Entry(a: seq<real>, b: seq<real>, i: nat, j: nat): real
    requires Is4x4(a) && Is4x4(b) && i < 4 && j < 4
  {
    a[i * 4 + 0] * b[0 * 4 + j] + a[i * 4 + 1] * b[1 * 4 + j] + a[i * 4 + 2] * b[2 * 4 + j] + a[i * 4 + 3] * b[3 * 4 + j]
  }

  /** The product `a * b`. */
  function MatMul(a: seq<real>, b: seq<real>): (r: seq<real>)
    requires Is4x4(a) && Is4x4(b)
    ensures Is4x4(r)
  {
    seq(16, n requires 0 <= n < 16 => Entry(a, b, n / 4, n % 4))
  }

  /** Entry `(i, j)` of the product sits at `i * 4 + j`. */
  lemma MatMulAt(a: seq<real>, b: seq<real>, i: nat, j: nat)
    requires Is4x4(a) && Is4x4(b) && i < 4 && j < 4
    ensures MatMul(a, b)[i * 4 + j] == Entry(a, b, i, j)
  {
    assert (i * 4 + j) / 4 == i && (i * 4 + j) % 4 == j;
  }

  const Identity: seq<real> := [1.0, 0.0, 0.0, 0.0, 0.0, 1.0, 0.0, 0.0, 0.0, 0.0, 1.0, 0.0, 0.0, 0.0, 0.0, 1.0]

  /** The rotation `rotateZ` multiplies by, for cosine `c` and sine `s` of the angle. */
  function RotationZ(c: real, s: real): (r: seq<real>)
    ensures Is4x4(r)
  {
    [c, s, 0.0, 0.0, -s, c, 0.0, 0.0, 0.0, 0.0, 1.0, 0.0, 0.0, 0.0, 0.0, 1.0]
  }

  /** `matrix * rot`, or nothing when either is not 4x4 (the stream a rotated matrix contributes). */
  function RotateWith(rot: seq<real>, matrix: seq<real>): (r: seq<real>)
    ensures Is4x4(rot) && Is4x4(matrix) ==> Is4x4(r)
  {
    if Is4x4(rot) && Is4x4(matrix) then MatMul(matrix, rot) else []
  }

  /** `matrixMultiply`: fills `result` with `a * b` when all three hold 16 floats, and
      throws (leaving `result` alone) otherwise. */
  method MatrixMultiply(a: seq<real>, b: seq<real>, result: array<real>) returns (outcome: Outcome)
    modifies result
    ensures outcome == if Is4x4(a) && Is4x4(b) && result.Length == 16 then Completed
                       else Threw(IllegalArgument(MatricesMessage))
    ensures outcome.Completed? ==> result[..] == MatMul(a, b)
    ensures outcome.Threw? ==> result[..] == old(result[..])
  {
    if !(Is4x4(a) && Is4x4(b) && result.Length == 16) {
      return Threw(IllegalArgument(MatricesMessage));
    }
    ghost var p := MatMul(a, b);
    for i := 0 to 4
      invariant forall n :: 0 <= n < i * 4 ==> result[n] == p[n]
    {
      for j := 0 to 4
        invariant forall n :: 0 <= n < i * 4 + j ==> result[n] == p[n]
      {
        MatMulAt(a, b, i, j);
        result[i * 4 + j] := a[i * 4 + 0] * b[0 * 4 + j] + a[i * 4 + 1] * b[1 * 4 + j]
                           + a[i * 4 + 2] * b[2 * 4 + j] + a[i * 4 + 3] * b[3 * 4 + j];
      }
    }
    return Completed;
  }

  /** `rotateZ`: `output := matrix * RotationZ(cos, sin)` of `angleDegrees`, after checking
      that both arrays hold 16 floats. */
  method RotateZ(matrix: seq<real>, output: array<real>, angleDegrees: real,
                 cosDeg: real -> real, sinDeg: real -> real) returns (outcome: Outcome)
    modifies output
    ensures outcome == if |matrix| == output.Length && |matrix| == 16 then Completed
                       else Threw(IllegalArgument(MatrixMessage))
    ensures outcome.Completed? ==> output[..] == MatMul(matrix, RotationZ(cosDeg(angleDegrees), sinDeg(angleDegrees)))
    ensures outcome.Threw? ==> output[..] == old(output[..])
  {
    if !(|matrix| == output.Length && |matrix| == 16) {
      return Threw(IllegalArgument(MatrixMessage));
    }
    var c := cosDeg(angleDegrees);
    var s := sinDeg(angleDegrees);
    var rotationMatrix := [c, s, 0.0, 0.0, -s, c, 0.0, 0.0, 0.0, 0.0, 1.0, 0.0, 0.0, 0.0, 0.0, 1.0];
    assert rotationMatrix == RotationZ(c, s);
    outcome := MatrixMultiply(matrix, rotationMatrix, output);
  }

  /** The product written out entry by entry. */
  lemma MatMulEntries(a: seq<real>, b: seq<real>)
    requires Is4x4(a) && Is4x4(b)
    ensures MatMul(a, b) == [Entry(a, b, 0, 0), Entry(a, b, 0, 1), Entry(a, b, 0, 2), Entry(a, b, 0, 3),
                             Entry(a, b, 1, 0), Entry(a, b, 1, 1), Entry(a, b, 1, 2), Entry(a, b, 1, 3),
                             Entry(a, b, 2, 0), Entry(a, b, 2, 1), Entry(a, b, 2, 2), Entry(a, b, 2, 3),
                             Entry(a, b, 3, 0), Entry(a, b, 3, 1), Entry(a, b, 3, 2), Entry(a, b, 3, 3)]
  {
  }

  /** Multiplying by the identity on either side changes nothing. */
  lemma MatMulIdentity(m: seq<real>)
    requires Is4x4(m)
    ensures MatMul(m, Identity) == m
    ensures MatMul(Identity, m) == m
  {
    MatMulEntries(m, Identity);
    MatMulEntries(Identity, m);
    assert Entry(m, Identity, 0, 0) == m[0];
    assert Entry(m, Identity, 0, 1) == m[1];
    assert Entry(m, Identity, 0, 2) == m[2];
    assert Entry(m, Identity, 0, 3) == m[3];
    assert Entry(m, Identity, 1, 0) == m[4];
    assert Entry(m, Identity, 1, 1) == m[5];
    assert Entry(m, Identity, 1, 2) == m[6];
    assert Entry(m, Identity, 1, 3) == m[7];
    assert Entry(m, Identity, 2, 0) == m[8];
    assert Entry(m, Identity, 2, 1) == m[9];
    assert Entry(m, Identity, 2, 2) == m[10];
    assert Entry(m, Identity, 2, 3) == m[11];
    assert Entry(m, Identity, 3, 0) == m[12];
    assert Entry(m, Identity, 3, 1) == m[13];
    assert Entry(m, Identity, 3, 2) == m[14];
    assert Entry(m, Identity, 3, 3) == m[15];
    assert Entry(Identity, m, 0, 0) == m[0];
    assert Entry(Identity, m, 0, 1) == m[1];
    assert Entry(Identity, m, 0, 2) == m[2];
    assert Entry(Identity, m, 0, 3) == m[3];
    assert Entry(Identity, m, 1, 0) == m[4];
    assert Entry(Identity, m, 1, 1) == m[5];
    assert Entry(Identity, m, 1, 2) == m[6];
    assert Entry(Identity, m, 1, 3) == m[7];
    assert Entry(Identity, m, 2, 0) == m[8];
    assert Entry(Identity, m, 2, 1) == m[9];
    assert Entry(Identity, m, 2, 2) == m[10];
    assert Entry(Identity, m, 2, 3) == m[11];
    assert Entry(Identity, m, 3, 0) == m[12];
    assert Entry(Identity, m, 3, 1) == m[13];
    assert Entry(Identity, m, 3, 2) == m[14];
    assert Entry(Identity, m, 3, 3) == m[15];
    assert m == [m[0], m[1], m[2], m[3], m[4], m[5], m[6], m[7],
                 m[8], m[9], m[10], m[11], m[12], m[13], m[14], m[15]];
  }

  /** What the rotation does to row `i` of a matrix: its first two entries turn by the angle. */
  lemma RotateRowTurns(m: seq<real>, c: real, s: real, i: nat)
    requires Is4x4(m) && i < 4
    ensures MatMul(m, RotationZ(c, s))[i * 4 + 0] == m[i * 4 + 0] * c - m[i * 4 + 1] * s
    ensures MatMul(m, RotationZ(c, s))[i * 4 + 1] == m[i * 4 + 0] * s + m[i * 4 + 1] * c
  {
    MatMulAt(m, RotationZ(c, s), i, 0);
    MatMulAt(m, RotationZ(c, s), i, 1);
    TurnEntries(m, c, s, i);
  }

  lemma TurnEntries(m: seq<real>, c: real, s: real, i: nat)
    requires Is4x4(m) && i < 4
    ensures Entry(m, RotationZ(c, s), i, 0) == m[i * 4 + 0] * c - m[i * 4 + 1] * s
    ensures Entry(m, RotationZ(c, s), i, 1) == m[i * 4 + 0] * s + m[i * 4 + 1] * c
  {
    var rot := RotationZ(c, s);
    var x0, x1, x2, x3 := m[i * 4 + 0], m[i * 4 + 1], m[i * 4 + 2], m[i * 4 + 3];
    assert Entry(m, rot, i, 0) == x0 * rot[0] + x1 * rot[4] + x2 * rot[8] + x3 * rot[12];
    assert Entry(m, rot, i, 1) == x0 * rot[1] + x1 * rot[5] + x2 * rot[9] + x3 * rot[13];
    TurnArith(x0, x1, x2, x3, c, s);
  }

  lemma TurnArith(x0: real, x1: real, x2: real, x3: real, c: real, s: real)
    ensures x0 * c + x1 * -s + x2 * 0.0 + x3 * 0.0 == x0 * c - x1 * s
    ensures x0 * s + x1 * c + x2 * 0.0 + x3 * 0.0 == x0 * s + x1 * c
  {
  }

  /** ... and its last two entries stay as they were. */
  lemma RotateRowKeeps(m: seq<real>, c: real, s: real, i: nat)
    requires Is4x4(m) && i < 4
    ensures MatMul(m, RotationZ(c, s))[i * 4 + 2] == m[i * 4 + 2]
    ensures MatMul(m, RotationZ(c, s))[i * 4 + 3] == m[i * 4 + 3]
  {
    MatMulAt(m, RotationZ(c, s), i, 2);
    MatMulAt(m, RotationZ(c, s), i, 3);
    KeepEntries(m, c, s, i);
  }

  lemma KeepEntries(m: seq<real>, c: real, s: real, i: nat)
    requires Is4x4(m) && i < 4
    ensures Entry(m, RotationZ(c, s), i, 2) == m[i * 4 + 2]
    ensures Entry(m, RotationZ(c, s), i, 3) == m[i * 4 + 3]
  {
    var rot := RotationZ(c, s);
    var x0, x1, x2, x3 := m[i * 4 + 0], m[i * 4 + 1], m[i * 4 + 2], m[i * 4 + 3];
    assert Entry(m, rot, i, 2) == x0 * rot[2] + x1 * rot[6] + x2 * rot[10] + x3 * rot[14];
    assert Entry(m, rot, i, 3) == x0 * rot[3] + x1 * rot[7] + x2 * rot[11] + x3 * rot[15];
    KeepArith(x0, x1, x2, x3);
  }

  lemma KeepArith(x0: real, x1: real, x2: real, x3: real)
    ensures x0 * 0.0 + x1 * 0.0 + x2 * 1.0 + x3 * 0.0 == x2
    ensures x0 * 0.0 + x1 * 0.0 + x2 * 0.0 + x3 * 1.0 == x3
  {
  }

  /** A zero angle (cosine 1, sine 0) leaves a matrix as it is. */
  lemma RotateByZero(m: seq<real>)
    requires Is4x4(m)
    ensures MatMul(m, RotationZ(1.0, 0.0)) == m
  {
    assert RotationZ(1.0, 0.0) == Identity;
    MatMulIdentity(m);
  }

  /** `a % m` for a positive `m` with the sign of `a`, as Kotlin's `%` on `Float` computes it. */
  function TruncMod(a: int, m: int): (r: int)
    requires m > 0
  {
    if a >= 0 then a % m else -((-a) % m)
  }

  /** `calculateCameraRotation`: `(cameraSensorRotation - displayRotation + 360) % 360` with
      Kotlin's truncating `%`. */
  function CalculateCameraRotation(sensorRotation: int, displayRotation: int): (r: int)
    ensures -360 < r < 360
    ensures (r - (sensorRotation - displayRotation)) % 360 == 0
    ensures sensorRotation - displayRotation + 360 >= 0 ==> r >= 0
    ensures sensorRotation - displayRotation + 360 < 0 ==> r <= 0
  {
    TruncMod(sensorRotation - displayRotation + 360, 360)
  }

  /** For a sensor rotation in `[0, 360)` and a display rotation in `[0, 360)` or
      `ORIENTATION_UNKNOWN` (-1, a device lying flat), the result is the angle from display to
      sensor in `[0, 360)`. */
  lemma CameraRotationRange(sensorRotation: int, displayRotation: int)
    requires 0 <= sensorRotation < 360 && -1 <= displayRotation < 360
    ensures 0 <= CalculateCameraRotation(sensorRotation, displayRotation) < 360
    ensures CalculateCameraRotation(sensorRotation, displayRotation) == (sensorRotation - displayRotation) % 360
    ensures sensorRotation >= displayRotation && sensorRotation - displayRotation < 360
            ==> CalculateCameraRotation(sensorRotation, displayRotation) == sensorRotation - displayRotation
    ensures sensorRotation < displayRotation
            ==> CalculateCameraRotation(sensorRotation, displayRotation) == sensorRotation - displayRotation + 360
    ensures displayRotation == -1
            ==> CalculateCameraRotation(sensorRotation, displayRotation) == (sensorRotation + 1) % 360
  {
  }
}
