/** The immutable 3x3 matrix value (Matrix3x3.java): nine entries stored row-major,
    validating constructors from a flat array and from an array of rows, and the
    identity, scale and translation factories.  Floats are modelled as reals. */
module Matrix3x3 {

  datatype Mat3 = Mat3(m00: real, m01: real, m02: real,
                       m10: real, m11: real, m12: real,
                       m20: real, m21: real, m22: real)

  /** The two ways a constructor can fail: the explicit argument check, and an
      array index past the end of a row that the 2-D constructor does not check. */
  datatype MatrixError = IllegalArgument(message: string) | IndexOutOfBounds

  datatype Result<T> = Ok(value: T) | Err(error: MatrixError)

  /** The entry in row `r`, column `c`. */
  function Entry(m: Mat3, r: nat, c: nat): real
    requires r < 3 && c < 3
  {
    if r == 0 then (if c == 0 then m.m00 else if c == 1 then m.m01 else m.m02)
    else if r == 1 then (if c == 0 then m.m10 else if c == 1 then m.m11 else m.m12)
    else (if c == 0 then m.m20 else if c == 1 then m.m21 else m.m22)
  }

  /** `new Matrix3x3(float[] values)`: anything but nine values is rejected, and
      the entries are taken row by row. */
  function OfArray(values: seq<real>): (r: Result<Mat3>)
    ensures r.Err? <==> |values| != 9
    ensures r.Err? ==> r.error == IllegalArgument("Array must contain exactly 9 values")
    ensures r.Ok? ==> forall i :: 0 <= i < 9 ==> Entry(r.value, i / 3, i % 3) == values[i]
  {
    if |values| != 9 then Err(IllegalArgument("Array must contain exactly 9 values"))
    else Ok(Mat3(values[0], values[1], values[2],
                 values[3], values[4], values[5],
                 values[6], values[7], values[8]))
  }

  /** `new Matrix3x3(float[][] values)`: only the number of rows and the length of
      the first row are checked; a second or third row shorter than three fails
      when it is read, and longer rows are accepted with their tail ignored. */
  function OfRows(rows: seq<seq<real>>): (r: Result<Mat3>)
    ensures (|rows| != 3 || |rows[0]| != 3) <==> r == Err(IllegalArgument("Array must be 3x3"))
    ensures |rows| == 3 && |rows[0]| == 3 ==> (r.Ok? <==> |rows[1]| >= 3 && |rows[2]| >= 3)
    ensures r.Err? && r.error.IndexOutOfBounds? ==> |rows[1]| < 3 || |rows[2]| < 3
    ensures r.Ok? ==> forall i, j :: 0 <= i < 3 && 0 <= j < 3 ==> Entry(r.value, i, j) == rows[i][j]
  {
    if |rows| != 3 || |rows[0]| != 3 then Err(IllegalArgument("Array must be 3x3"))
    else if |rows[1]| < 3 || |rows[2]| < 3 then Err(IndexOutOfBounds)
    else Ok(Mat3(rows[0][0], rows[0][1], rows[0][2],
                 rows[1][0], rows[1][1], rows[1][2],
                 rows[2][0], rows[2][1], rows[2][2]))
  }

  /** The no-argument constructor and `identity()`: ones on the diagonal. */
  function Identity(): (m: Mat3)
    ensures forall i, j :: 0 <= i < 3 && 0 <= j < 3 ==> Entry(m, i, j) == if i == j then 1.0 else 0.0
  {
    OfArray([1.0, 0.0, 0.0, 0.0, 1.0, 0.0, 0.0, 0.0, 1.0]).value
  }

  /** `scale(x, y, z)`: the diagonal matrix (x, y, z). */
  function Scale(x: real, y: real, z: real): (m: Mat3)
    ensures Entry(m, 0, 0) == x && Entry(m, 1, 1) == y && Entry(m, 2, 2) == z
    ensures forall i, j :: 0 <= i < 3 && 0 <= j < 3 && i != j ==> Entry(m, i, j) == 0.0
  {
    OfArray([x, 0.0, 0.0, 0.0, y, 0.0, 0.0, 0.0, z]).value
  }

  /** `translation(x, y)`: the 2-D affine translation, the identity with (x, y) in
      the last column; the last row stays (0, 0, 1). */
  function Translation(x: real, y: real): (m: Mat3)
    ensures Entry(m, 0, 2) == x && Entry(m, 1, 2) == y
    ensures forall i, j :: 0 <= i < 3 && 0 <= j < 3 && !(j == 2 && i < 2) ==>
              Entry(m, i, j) == if i == j then 1.0 else 0.0
  {
    OfArray([1.0, 0.0, x, 0.0, 1.0, y, 0.0, 0.0, 1.0]).value
  }

  /** `toArray()`: the nine entries, row by row. */
  function ToArray(m: Mat3): (s: seq<real>)
    ensures |s| == 9
    ensures forall i :: 0 <= i < 9 ==> s[i] == Entry(m, i / 3, i % 3)
  {
    [m.m00, m.m01, m.m02, m.m10, m.m11, m.m12, m.m20, m.m21, m.m22]
  }

  /** Two matrices with the same entries are the same matrix. */
  lemma EntriesDetermine(a: Mat3, b: Mat3)
    requires forall i, j :: 0 <= i < 3 && 0 <= j < 3 ==> Entry(a, i, j) == Entry(b, i, j)
    ensures a == b
  {
    assert Entry(a, 0, 0) == Entry(b, 0, 0) && Entry(a, 0, 1) == Entry(b, 0, 1) && Entry(a, 0, 2) == Entry(b, 0, 2);
    assert Entry(a, 1, 0) == Entry(b, 1, 0) && Entry(a, 1, 1) == Entry(b, 1, 1) && Entry(a, 1, 2) == Entry(b, 1, 2);
    assert Entry(a, 2, 0) == Entry(b, 2, 0) && Entry(a, 2, 1) == Entry(b, 2, 1) && Entry(a, 2, 2) == Entry(b, 2, 2);
  }

  /** `new Matrix3x3(m.toArray())` reproduces `m`. */
  lemma ArrayRoundTrip(m: Mat3)
    ensures OfArray(ToArray(m)) == Ok(m)
  {
  }

  /** The other direction: a valid array survives construction and `toArray()`. */
  lemma ToArrayOfArray(values: seq<real>)
    requires |values| == 9
    ensures OfArray(values).Ok? && ToArray(OfArray(values).value) == values
  {
  }

  /** The two constructors agree: three rows of three give the same matrix as
      their concatenation. */
  lemma RowsAgreeWithArray(r0: seq<real>, r1: seq<real>, r2: seq<real>)
    requires |r0| == 3 && |r1| == 3 && |r2| == 3
    ensures OfRows([r0, r1, r2]) == OfArray(r0 + r1 + r2)
  {
  }
}
