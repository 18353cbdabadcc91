/** The mutable 3x3 matrix builder (MatrixM3f.java).  Every operation overwrites
    the nine fields with a matrix computed from the old entries and returns the
    receiver.  The algebra that specifies the operations (product, determinant,
    adjugate, inverse, quaternion rotation) is defined on `Mat3` values, and its
    laws are proved as lemmas. */
module MatrixM3f {
  import opened Matrix3x3

  /** Row (x0, x1, x2) times column (y0, y1, y2): one entry of a product. */
  function Dot(x0: real, x1: real, x2: real, y0: real, y1: real, y2: real): real
  {
    x0 * y0 + x1 * y1 + x2 * y2
  }

  /** A 2x2 minor in the form the source writes it, `a * b - c * d`. */
  function Minor(a: real, b: real, c: real, d: real): real
  {
    a * b - c * d
  }

  /** Row-by-column product `a * b`. */
  function Product(a: Mat3, b: Mat3): Mat3
  {
    Mat3(Dot(a.m00, a.m01, a.m02, b.m00, b.m10, b.m20),
         Dot(a.m00, a.m01, a.m02, b.m01, b.m11, b.m21),
         Dot(a.m00, a.m01, a.m02, b.m02, b.m12, b.m22),
         Dot(a.m10, a.m11, a.m12, b.m00, b.m10, b.m20),
         Dot(a.m10, a.m11, a.m12, b.m01, b.m11, b.m21),
         Dot(a.m10, a.m11, a.m12, b.m02, b.m12, b.m22),
         Dot(a.m20, a.m21, a.m22, b.m00, b.m10, b.m20),
         Dot(a.m20, a.m21, a.m22, b.m01, b.m11, b.m21),
         Dot(a.m20, a.m21, a.m22, b.m02, b.m12, b.m22))
  }

  /** `determinant()` on nine entries: cofactor expansion along the first row. */
  function Det3(m00: real, m01: real, m02: real, m10: real, m11: real, m12: real, m20: real, m21: real, m22: real): real
  {
    m00 * (m11 * m22 - m12 * m21) - m01 * (m10 * m22 - m12 * m20) + m02 * (m10 * m21 - m11 * m20)
  }

  function Det(m: Mat3): real
  {
    Det3(m.m00, m.m01, m.m02, m.m10, m.m11, m.m12, m.m20, m.m21, m.m22)
  }

  /** The adjugate (transposed cofactor matrix): the numerators of `invert()`. */
  function Adjugate(m: Mat3): Mat3
  {
    Mat3(Minor(m.m11, m.m22, m.m21, m.m12), Minor(m.m21, m.m02, m.m01, m.m22), Minor(m.m01, m.m12, m.m02, m.m11),
         Minor(m.m20, m.m12, m.m10, m.m22), Minor(m.m00, m.m22, m.m20, m.m02), Minor(m.m10, m.m02, m.m00, m.m12),
         Minor(m.m10, m.m21, m.m20, m.m11), Minor(m.m20, m.m01, m.m00, m.m21), Minor(m.m00, m.m11, m.m01, m.m10))
  }

  /** What `invert()` stores: every adjugate entry divided by the determinant. */
  function Inverse(m: Mat3): Mat3
    requires Det(m) != 0.0
  {
    var a, d := Adjugate(m), Det(m);
    Mat3(a.m00 / d, a.m01 / d, a.m02 / d,
         a.m10 / d, a.m11 / d, a.m12 / d,
         a.m20 / d, a.m21 / d, a.m22 / d)
  }

  /** The rotation matrix of the quaternion (qx, qy, qz, qw), as `rotateByQuaternion` builds it. */
  function QuaternionMatrix(qx: real, qy: real, qz: real, qw: real): Mat3
  {
    OfArray([1.0 - 2.0 * qy * qy - 2.0 * qz * qz,
             2.0 * qx * qy - 2.0 * qw * qz,
             2.0 * qx * qz + 2.0 * qw * qy,
             2.0 * qx * qy + 2.0 * qw * qz,
             1.0 - 2.0 * qx * qx - 2.0 * qz * qz,
             2.0 * qy * qz - 2.0 * qw * qx,
             2.0 * qx * qz - 2.0 * qw * qy,
             2.0 * qy * qz + 2.0 * qx * qw,
             1.0 - 2.0 * qx * qx - 2.0 * qy * qy]).value
  }

  function Transpose(m: Mat3): Mat3
  {
    Mat3(m.m00, m.m10, m.m20, m.m01, m.m11, m.m21, m.m02, m.m12, m.m22)
  }

  /** `s` times the identity. */
  function ScalarMatrix(s: real): Mat3
  {
    Mat3(s, 0.0, 0.0, 0.0, s, 0.0, 0.0, 0.0, s)
  }

  class MatrixM3f {
    var m00: real, m01: real, m02: real
    var m10: real, m11: real, m12: real
    var m20: real, m21: real, m22: real

    /** The matrix the nine fields hold. */
    function Value(): Mat3
      reads this
    {
      Mat3(m00, m01, m02, m10, m11, m12, m20, m21, m22)
    }

    /** A fresh builder holds the identity (the field initialisers). */
    constructor ()
      ensures Value() == Matrix3x3.Identity()
    {
      m00, m01, m02 := 1.0, 0.0, 0.0;
      m10, m11, m12 := 0.0, 1.0, 0.0;
      m20, m21, m22 := 0.0, 0.0, 1.0;
    }

    /** `set(mat)`: all nine entries are overwritten with mat's. */
    method Set(mat: Mat3) returns (self: MatrixM3f)
      modifies this
      ensures self == this && Value() == mat
    {
      m00, m01, m02 := mat.m00, mat.m01, mat.m02;
      m10, m11, m12 := mat.m10, mat.m11, mat.m12;
      m20, m21, m22 := mat.m20, mat.m21, mat.m22;
      self := this;
    }

    /** `invert()`: the new value is the inverse of the old one, on both sides.
        The source divides by the determinant unchecked; a singular matrix is
        excluded here. */
    method Invert() returns (self: MatrixM3f)
      requires Det(Value()) != 0.0
      modifies this
      ensures self == this
      ensures Value() == Inverse(old(Value()))
      ensures Product(old(Value()), Value()) == Matrix3x3.Identity()
      ensures Product(Value(), old(Value())) == Matrix3x3.Identity()
    {
      var det := Determinant();
      var inverse := OfArray([
        Minor(m11, m22, m21, m12) / det, -Minor(m01, m22, m21, m02) / det, Minor(m01, m12, m02, m11) / det,
        -Minor(m10, m22, m20, m12) / det, Minor(m00, m22, m20, m02) / det, -Minor(m00, m12, m10, m02) / det,
        Minor(m10, m21, m20, m11) / det, -Minor(m00, m21, m20, m01) / det, Minor(m00, m11, m01, m10) / det]).value;
      InverseIsTwoSided(Value());
      self := Set(inverse);
    }

    /** `identity()`. */
    method Identity() returns (self: MatrixM3f)
      modifies this
      ensures self == this && Value() == Matrix3x3.Identity()
    {
      self := Set(Matrix3x3.Identity());
    }

    /** `scale(x, y, z)` composes the diagonal scale on the left. */
    method Scale(x: real, y: real, z: real) returns (self: MatrixM3f)
      modifies this
      ensures self == this && Value() == Product(Matrix3x3.Scale(x, y, z), old(Value()))
    {
      self := MultiplyTo(Matrix3x3.Scale(x, y, z));
    }

    /** `translate(x, y)` composes the 2-D translation on the left. */
    method Translate(x: real, y: real) returns (self: MatrixM3f)
      modifies this
      ensures self == this && Value() == Product(Translation(x, y), old(Value()))
    {
      self := MultiplyTo(Translation(x, y));
    }

    /** `rotateByQuaternion(qx, qy, qz, qw)` composes the quaternion's rotation on the left. */
    method RotateByQuaternion(qx: real, qy: real, qz: real, qw: real) returns (self: MatrixM3f)
      modifies this
      ensures self == this && Value() == Product(QuaternionMatrix(qx, qy, qz, qw), old(Value()))
    {
      var rotationMatrix := QuaternionMatrix(qx, qy, qz, qw);
      self := MultiplyTo(rotationMatrix);
    }

    /** `multiply(mat)`: the new value is old * mat, row of this by column of mat. */
    method Multiply(mat: Mat3) returns (self: MatrixM3f)
      modifies this
      ensures self == this && Value() == Product(old(Value()), mat)
    {
      var r := OfArray([
        Dot(m00, m01, m02, mat.m00, mat.m10, mat.m20),
        Dot(m00, m01, m02, mat.m01, mat.m11, mat.m21),
        Dot(m00, m01, m02, mat.m02, mat.m12, mat.m22),
        Dot(m10, m11, m12, mat.m00, mat.m10, mat.m20),
        Dot(m10, m11, m12, mat.m01, mat.m11, mat.m21),
        Dot(m10, m11, m12, mat.m02, mat.m12, mat.m22),
        Dot(m20, m21, m22, mat.m00, mat.m10, mat.m20),
        Dot(m20, m21, m22, mat.m01, mat.m11, mat.m21),
        Dot(m20, m21, m22, mat.m02, mat.m12, mat.m22)]).value;
      self := Set(r);
    }

    /** `multiplyTo(mat)`: the new value is mat * old, row of mat by column of this. */
    method MultiplyTo(mat: Mat3) returns (self: MatrixM3f)
      modifies this
      ensures self == this && Value() == Product(mat, old(Value()))
    {
      var r := OfArray([
        Dot(mat.m00, mat.m01, mat.m02, m00, m10, m20),
        Dot(mat.m00, mat.m01, mat.m02, m01, m11, m21),
        Dot(mat.m00, mat.m01, mat.m02, m02, m12, m22),
        Dot(mat.m10, mat.m11, mat.m12, m00, m10, m20),
        Dot(mat.m10, mat.m11, mat.m12, m01, m11, m21),
        Dot(mat.m10, mat.m11, mat.m12, m02, m12, m22),
        Dot(mat.m20, mat.m21, mat.m22, m00, m10, m20),
        Dot(mat.m20, mat.m21, mat.m22, m01, m11, m21),
        Dot(mat.m20, mat.m21, mat.m22, m02, m12, m22)]).value;
      self := Set(r);
    }

    /** `determinant()`, read without changing the matrix. */
    method Determinant() returns (d: real)
      ensures d == Det(Value())
    {
      d := m00 * (m11 * m22 - m12 * m21) - m01 * (m10 * m22 - m12 * m20) + m02 * (m10 * m21 - m11 * m20);
    }
  }

  // ---------------------------------------------------------------------------
  // Identities over nine independent reals.  The matrix laws further down
  // apply them to the entries of a matrix.

  /** One entry of (a b) c against the same entry of a (b c), for the row
      (a0, a1, a2) of a and the column (c0, c1, c2) of c. */
  lemma AssociativeEntry(a0: real, a1: real, a2: real,
                         b00: real, b01: real, b02: real, b10: real, b11: real, b12: real, b20: real, b21: real, b22: real,
                         c0: real, c1: real, c2: real)
    ensures Dot(Dot(a0, a1, a2, b00, b10, b20), Dot(a0, a1, a2, b01, b11, b21), Dot(a0, a1, a2, b02, b12, b22), c0, c1, c2)
         == Dot(a0, a1, a2, Dot(b00, b01, b02, c0, c1, c2), Dot(b10, b11, b12, c0, c1, c2), Dot(b20, b21, b22, c0, c1, c2))
  {
  }

  /** Equal cofactors give equal alternating sums with the same weights. */
  lemma Combine(w0: real, w1: real, w2: real, x0: real, x1: real, x2: real, y0: real, y1: real, y2: real)
    requires x0 == y0 && x1 == y1 && x2 == y2
    ensures w0 * x0 - w1 * x1 + w2 * x2 == w0 * y0 - w1 * y1 + w2 * y2
  {
  }

  /** A 2x2 minor of the product: rows u, v of a against columns j, k of b, scaled by w. */
  lemma MinorOfProduct(ux: real, uy: real, uz: real, vx: real, vy: real, vz: real,
                       bj0: real, bj1: real, bj2: real, bk0: real, bk1: real, bk2: real,
                       pj: real, pk: real, qj: real, qk: real)
    requires pj == ux * bj0 + uy * bj1 + uz * bj2 && pk == ux * bk0 + uy * bk1 + uz * bk2
    requires qj == vx * bj0 + vy * bj1 + vz * bj2 && qk == vx * bk0 + vy * bk1 + vz * bk2
    ensures pj * qk - pk * qj
         == (bj1 * bk2 - bj2 * bk1) * (uy * vz - uz * vy) + (bj2 * bk0 - bj0 * bk2) * (uz * vx - ux * vz)
            + (bj0 * bk1 - bj1 * bk0) * (ux * vy - uy * vx)
  {
  }

  /** The first row of p = a b against the minors of rows 1 and 2 of a and of b. */
  lemma FirstRowExpansion(a00: real, a01: real, a02: real, a10: real, a11: real, a12: real, a20: real, a21: real, a22: real,
                          b00: real, b01: real, b02: real, b10: real, b11: real, b12: real, b20: real, b21: real, b22: real,
                          p00: real, p01: real, p02: real)
    requires p00 == a00 * b00 + a01 * b10 + a02 * b20 && p01 == a00 * b01 + a01 * b11 + a02 * b21 && p02 == a00 * b02 + a01 * b12 + a02 * b22
    ensures p00 * ((b11 * b22 - b21 * b12) * (a11 * a22 - a12 * a21) + (b21 * b02 - b01 * b22) * (a12 * a20 - a10 * a22)
                  + (b01 * b12 - b11 * b02) * (a10 * a21 - a11 * a20))
          - p01 * ((b10 * b22 - b20 * b12) * (a11 * a22 - a12 * a21) + (b20 * b02 - b00 * b22) * (a12 * a20 - a10 * a22)
                  + (b00 * b12 - b10 * b02) * (a10 * a21 - a11 * a20))
          + p02 * ((b10 * b21 - b20 * b11) * (a11 * a22 - a12 * a21) + (b20 * b01 - b00 * b21) * (a12 * a20 - a10 * a22)
                  + (b00 * b11 - b10 * b01) * (a10 * a21 - a11 * a20))
         == (a00 * (a11 * a22 - a12 * a21) - a01 * (a10 * a22 - a12 * a20) + a02 * (a10 * a21 - a11 * a20))
          * (b00 * (b11 * b22 - b12 * b21) - b01 * (b10 * b22 - b12 * b20) + b02 * (b10 * b21 - b11 * b20))
  {
  }

  /** The minors of rows 1 and 2 of p = a b, in terms of the minors of a and of b. */
  lemma MinorsOfProduct(a00: real, a01: real, a02: real, a10: real, a11: real, a12: real, a20: real, a21: real, a22: real,
                        b00: real, b01: real, b02: real, b10: real, b11: real, b12: real, b20: real, b21: real, b22: real,
                        p00: real, p01: real, p02: real, p10: real, p11: real, p12: real, p20: real, p21: real, p22: real)
    requires p00 == a00 * b00 + a01 * b10 + a02 * b20 && p01 == a00 * b01 + a01 * b11 + a02 * b21 && p02 == a00 * b02 + a01 * b12 + a02 * b22
    requires p10 == a10 * b00 + a11 * b10 + a12 * b20 && p11 == a10 * b01 + a11 * b11 + a12 * b21 && p12 == a10 * b02 + a11 * b12 + a12 * b22
    requires p20 == a20 * b00 + a21 * b10 + a22 * b20 && p21 == a20 * b01 + a21 * b11 + a22 * b21 && p22 == a20 * b02 + a21 * b12 + a22 * b22
    ensures p00 * (p11 * p22 - p12 * p21) - p01 * (p10 * p22 - p12 * p20) + p02 * (p10 * p21 - p11 * p20)
         == p00 * ((b11 * b22 - b21 * b12) * (a11 * a22 - a12 * a21) + (b21 * b02 - b01 * b22) * (a12 * a20 - a10 * a22)
                  + (b01 * b12 - b11 * b02) * (a10 * a21 - a11 * a20))
          - p01 * ((b10 * b22 - b20 * b12) * (a11 * a22 - a12 * a21) + (b20 * b02 - b00 * b22) * (a12 * a20 - a10 * a22)
                  + (b00 * b12 - b10 * b02) * (a10 * a21 - a11 * a20))
          + p02 * ((b10 * b21 - b20 * b11) * (a11 * a22 - a12 * a21) + (b20 * b01 - b00 * b21) * (a12 * a20 - a10 * a22)
                  + (b00 * b11 - b10 * b01) * (a10 * a21 - a11 * a20))
  {
    MinorOfProduct(a10, a11, a12, a20, a21, a22, b01, b11, b21, b02, b12, b22, p11, p12, p21, p22);
    MinorOfProduct(a10, a11, a12, a20, a21, a22, b00, b10, b20, b02, b12, b22, p10, p12, p20, p22);
    MinorOfProduct(a10, a11, a12, a20, a21, a22, b00, b10, b20, b01, b11, b21, p10, p11, p20, p21);
    var m0, m1, m2 := p11 * p22 - p12 * p21, p10 * p22 - p12 * p20, p10 * p21 - p11 * p20;
    var c0 := ((b11 * b22 - b21 * b12) * (a11 * a22 - a12 * a21) + (b21 * b02 - b01 * b22) * (a12 * a20 - a10 * a22)
                  + (b01 * b12 - b11 * b02) * (a10 * a21 - a11 * a20));
    var c1 := ((b10 * b22 - b20 * b12) * (a11 * a22 - a12 * a21) + (b20 * b02 - b00 * b22) * (a12 * a20 - a10 * a22)
                  + (b00 * b12 - b10 * b02) * (a10 * a21 - a11 * a20));
    var c2 := ((b10 * b21 - b20 * b11) * (a11 * a22 - a12 * a21) + (b20 * b01 - b00 * b21) * (a12 * a20 - a10 * a22)
                  + (b00 * b11 - b10 * b01) * (a10 * a21 - a11 * a20));
    Combine(p00, p01, p02, m0, m1, m2, c0, c1, c2);
  }

  /** The product of two determinants, unfolded. */
  lemma DetTimes(a00: real, a01: real, a02: real, a10: real, a11: real, a12: real, a20: real, a21: real, a22: real,
                 b00: real, b01: real, b02: real, b10: real, b11: real, b12: real, b20: real, b21: real, b22: real)
    ensures Det3(a00, a01, a02, a10, a11, a12, a20, a21, a22) * Det3(b00, b01, b02, b10, b11, b12, b20, b21, b22) == (a00 * (a11 * a22 - a12 * a21) - a01 * (a10 * a22 - a12 * a20) + a02 * (a10 * a21 - a11 * a20)) * (b00 * (b11 * b22 - b12 * b21) - b01 * (b10 * b22 - b12 * b20) + b02 * (b10 * b21 - b11 * b20))
  {
  }

  /** det(a b) = det(a) det(b), over the entries. */
  lemma DetProductScalar(a00: real, a01: real, a02: real, a10: real, a11: real, a12: real, a20: real, a21: real, a22: real,
                         b00: real, b01: real, b02: real, b10: real, b11: real, b12: real, b20: real, b21: real, b22: real,
                         p00: real, p01: real, p02: real, p10: real, p11: real, p12: real, p20: real, p21: real, p22: real)
    requires p00 == Dot(a00, a01, a02, b00, b10, b20) && p01 == Dot(a00, a01, a02, b01, b11, b21) && p02 == Dot(a00, a01, a02, b02, b12, b22)
    requires p10 == Dot(a10, a11, a12, b00, b10, b20) && p11 == Dot(a10, a11, a12, b01, b11, b21) && p12 == Dot(a10, a11, a12, b02, b12, b22)
    requires p20 == Dot(a20, a21, a22, b00, b10, b20) && p21 == Dot(a20, a21, a22, b01, b11, b21) && p22 == Dot(a20, a21, a22, b02, b12, b22)
    ensures Det3(p00, p01, p02, p10, p11, p12, p20, p21, p22) == Det3(a00, a01, a02, a10, a11, a12, a20, a21, a22) * Det3(b00, b01, b02, b10, b11, b12, b20, b21, b22)
  {
    var da := a00 * (a11 * a22 - a12 * a21) - a01 * (a10 * a22 - a12 * a20) + a02 * (a10 * a21 - a11 * a20);
    var db := b00 * (b11 * b22 - b12 * b21) - b01 * (b10 * b22 - b12 * b20) + b02 * (b10 * b21 - b11 * b20);
    var dp := p00 * (p11 * p22 - p12 * p21) - p01 * (p10 * p22 - p12 * p20) + p02 * (p10 * p21 - p11 * p20);
    assert Det3(p00, p01, p02, p10, p11, p12, p20, p21, p22) == dp;
    DetTimes(a00, a01, a02, a10, a11, a12, a20, a21, a22,
             b00, b01, b02, b10, b11, b12, b20, b21, b22);
    assert Det3(a00, a01, a02, a10, a11, a12, a20, a21, a22) * Det3(b00, b01, b02, b10, b11, b12, b20, b21, b22) == da * db;
    MinorsOfProduct(a00, a01, a02, a10, a11, a12, a20, a21, a22,
                    b00, b01, b02, b10, b11, b12, b20, b21, b22,
                    p00, p01, p02, p10, p11, p12, p20, p21, p22);
    FirstRowExpansion(a00, a01, a02, a10, a11, a12, a20, a21, a22,
                      b00, b01, b02, b10, b11, b12, b20, b21, b22,
                      p00, p01, p02);
  }

  /** The determinant expanded along the third row equals the expansion along the first. */
  lemma ThirdRowExpansion(m00: real, m01: real, m02: real, m10: real, m11: real, m12: real, m20: real, m21: real, m22: real)
    ensures Det3(m00, m01, m02, m10, m11, m12, m20, m21, m22)
         == m20 * (m01 * m12 - m02 * m11) - m21 * (m00 * m12 - m10 * m02) + m22 * (m00 * m11 - m01 * m10)
  {
  }

  /** Row 0 of m times its adjugate is row 0 of det(m) I. */
  lemma AdjugateRow0(m00: real, m01: real, m02: real, m10: real, m11: real, m12: real, m20: real, m21: real, m22: real)
    ensures Dot(m00, m01, m02, Minor(m11, m22, m21, m12), Minor(m20, m12, m10, m22), Minor(m10, m21, m20, m11)) == Det3(m00, m01, m02, m10, m11, m12, m20, m21, m22)
    ensures Dot(m00, m01, m02, Minor(m21, m02, m01, m22), Minor(m00, m22, m20, m02), Minor(m20, m01, m00, m21)) == 0.0
    ensures Dot(m00, m01, m02, Minor(m01, m12, m02, m11), Minor(m10, m02, m00, m12), Minor(m00, m11, m01, m10)) == 0.0
  {}

  /** Row 1 of m times its adjugate is row 1 of det(m) I. */
  lemma AdjugateRow1(m00: real, m01: real, m02: real, m10: real, m11: real, m12: real, m20: real, m21: real, m22: real)
    ensures Dot(m10, m11, m12, Minor(m11, m22, m21, m12), Minor(m20, m12, m10, m22), Minor(m10, m21, m20, m11)) == 0.0
    ensures Dot(m10, m11, m12, Minor(m21, m02, m01, m22), Minor(m00, m22, m20, m02), Minor(m20, m01, m00, m21)) == Det3(m00, m01, m02, m10, m11, m12, m20, m21, m22)
    ensures Dot(m10, m11, m12, Minor(m01, m12, m02, m11), Minor(m10, m02, m00, m12), Minor(m00, m11, m01, m10)) == 0.0
  {}

  /** Row 2 of m times its adjugate is row 2 of det(m) I. */
  lemma AdjugateRow2(m00: real, m01: real, m02: real, m10: real, m11: real, m12: real, m20: real, m21: real, m22: real)
    ensures Dot(m20, m21, m22, Minor(m11, m22, m21, m12), Minor(m20, m12, m10, m22), Minor(m10, m21, m20, m11)) == 0.0
    ensures Dot(m20, m21, m22, Minor(m21, m02, m01, m22), Minor(m00, m22, m20, m02), Minor(m20, m01, m00, m21)) == 0.0
    ensures Dot(m20, m21, m22, Minor(m01, m12, m02, m11), Minor(m10, m02, m00, m12), Minor(m00, m11, m01, m10)) == Det3(m00, m01, m02, m10, m11, m12, m20, m21, m22)
  {
    ThirdRowExpansion(m00, m01, m02, m10, m11, m12, m20, m21, m22);
  }

  /** A row times a column divided by d is the undivided product over d. */
  lemma DividedDot(x0: real, x1: real, x2: real, y0: real, y1: real, y2: real, d: real, s: real)
    requires d != 0.0 && Dot(x0, x1, x2, y0, y1, y2) == s * d
    ensures Dot(x0, x1, x2, y0 / d, y1 / d, y2 / d) == s
  {
  }

  /** Row 0 of a unit quaternion's rotation matrix has length 1. */
  lemma QuaternionDot00(qx: real, qy: real, qz: real, qw: real, r00: real, r01: real, r02: real)
    requires qx * qx + qy * qy + qz * qz + qw * qw == 1.0
    requires r00 == 1.0 - 2.0 * qy * qy - 2.0 * qz * qz && r01 == 2.0 * qx * qy - 2.0 * qw * qz && r02 == 2.0 * qx * qz + 2.0 * qw * qy
    ensures Dot(r00, r01, r02, r00, r01, r02) == 1.0
  {
  }

  /** Rows 0 and 1 of a unit quaternion's rotation matrix are orthogonal. */
  lemma QuaternionDot01(qx: real, qy: real, qz: real, qw: real, r00: real, r01: real, r02: real, r10: real, r11: real, r12: real)
    requires qx * qx + qy * qy + qz * qz + qw * qw == 1.0
    requires r00 == 1.0 - 2.0 * qy * qy - 2.0 * qz * qz && r01 == 2.0 * qx * qy - 2.0 * qw * qz && r02 == 2.0 * qx * qz + 2.0 * qw * qy
    requires r10 == 2.0 * qx * qy + 2.0 * qw * qz && r11 == 1.0 - 2.0 * qx * qx - 2.0 * qz * qz && r12 == 2.0 * qy * qz - 2.0 * qw * qx
    ensures Dot(r00, r01, r02, r10, r11, r12) == 0.0
  {
  }

  /** Rows 0 and 2 of a unit quaternion's rotation matrix are orthogonal. */
  lemma QuaternionDot02(qx: real, qy: real, qz: real, qw: real, r00: real, r01: real, r02: real, r20: real, r21: real, r22: real)
    requires qx * qx + qy * qy + qz * qz + qw * qw == 1.0
    requires r00 == 1.0 - 2.0 * qy * qy - 2.0 * qz * qz && r01 == 2.0 * qx * qy - 2.0 * qw * qz && r02 == 2.0 * qx * qz + 2.0 * qw * qy
    requires r20 == 2.0 * qx * qz - 2.0 * qw * qy && r21 == 2.0 * qy * qz + 2.0 * qx * qw && r22 == 1.0 - 2.0 * qx * qx - 2.0 * qy * qy
    ensures Dot(r00, r01, r02, r20, r21, r22) == 0.0
  {
  }

  /** Row 1 of a unit quaternion's rotation matrix has length 1. */
  lemma QuaternionDot11(qx: real, qy: real, qz: real, qw: real, r10: real, r11: real, r12: real)
    requires qx * qx + qy * qy + qz * qz + qw * qw == 1.0
    requires r10 == 2.0 * qx * qy + 2.0 * qw * qz && r11 == 1.0 - 2.0 * qx * qx - 2.0 * qz * qz && r12 == 2.0 * qy * qz - 2.0 * qw * qx
    ensures Dot(r10, r11, r12, r10, r11, r12) == 1.0
  {
  }

  /** Rows 1 and 2 of a unit quaternion's rotation matrix are orthogonal. */
  lemma QuaternionDot12(qx: real, qy: real, qz: real, qw: real, r10: real, r11: real, r12: real, r20: real, r21: real, r22: real)
    requires qx * qx + qy * qy + qz * qz + qw * qw == 1.0
    requires r10 == 2.0 * qx * qy + 2.0 * qw * qz && r11 == 1.0 - 2.0 * qx * qx - 2.0 * qz * qz && r12 == 2.0 * qy * qz - 2.0 * qw * qx
    requires r20 == 2.0 * qx * qz - 2.0 * qw * qy && r21 == 2.0 * qy * qz + 2.0 * qx * qw && r22 == 1.0 - 2.0 * qx * qx - 2.0 * qy * qy
    ensures Dot(r10, r11, r12, r20, r21, r22) == 0.0
  {
  }

  /** Row 2 of a unit quaternion's rotation matrix has length 1. */
  lemma QuaternionDot22(qx: real, qy: real, qz: real, qw: real, r20: real, r21: real, r22: real)
    requires qx * qx + qy * qy + qz * qz + qw * qw == 1.0
    requires r20 == 2.0 * qx * qz - 2.0 * qw * qy && r21 == 2.0 * qy * qz + 2.0 * qx * qw && r22 == 1.0 - 2.0 * qx * qx - 2.0 * qy * qy
    ensures Dot(r20, r21, r22, r20, r21, r22) == 1.0
  {
  }

  // ---------------------------------------------------------------------------
  // Laws of the product

  /** The literal identity, unfolded once for the proofs below. */
  lemma IdentityEntries()
    ensures Matrix3x3.Identity() == Mat3(1.0, 0.0, 0.0, 0.0, 1.0, 0.0, 0.0, 0.0, 1.0)
  {
  }

  /** The identity is neutral on both sides. */
  lemma ProductIdentity(m: Mat3)
    ensures Product(Matrix3x3.Identity(), m) == m
    ensures Product(m, Matrix3x3.Identity()) == m
  {
    IdentityEntries();
  }

  /** Composing transformations does not depend on grouping. */
  lemma ProductAssociative(a: Mat3, b: Mat3, c: Mat3)
    ensures Product(Product(a, b), c) == Product(a, Product(b, c))
  {
    AssociativeEntry(a.m00, a.m01, a.m02, b.m00, b.m01, b.m02, b.m10, b.m11, b.m12, b.m20, b.m21, b.m22, c.m00, c.m10, c.m20);
    AssociativeEntry(a.m00, a.m01, a.m02, b.m00, b.m01, b.m02, b.m10, b.m11, b.m12, b.m20, b.m21, b.m22, c.m01, c.m11, c.m21);
    AssociativeEntry(a.m00, a.m01, a.m02, b.m00, b.m01, b.m02, b.m10, b.m11, b.m12, b.m20, b.m21, b.m22, c.m02, c.m12, c.m22);
    AssociativeEntry(a.m10, a.m11, a.m12, b.m00, b.m01, b.m02, b.m10, b.m11, b.m12, b.m20, b.m21, b.m22, c.m00, c.m10, c.m20);
    AssociativeEntry(a.m10, a.m11, a.m12, b.m00, b.m01, b.m02, b.m10, b.m11, b.m12, b.m20, b.m21, b.m22, c.m01, c.m11, c.m21);
    AssociativeEntry(a.m10, a.m11, a.m12, b.m00, b.m01, b.m02, b.m10, b.m11, b.m12, b.m20, b.m21, b.m22, c.m02, c.m12, c.m22);
    AssociativeEntry(a.m20, a.m21, a.m22, b.m00, b.m01, b.m02, b.m10, b.m11, b.m12, b.m20, b.m21, b.m22, c.m00, c.m10, c.m20);
    AssociativeEntry(a.m20, a.m21, a.m22, b.m00, b.m01, b.m02, b.m10, b.m11, b.m12, b.m20, b.m21, b.m22, c.m01, c.m11, c.m21);
    AssociativeEntry(a.m20, a.m21, a.m22, b.m00, b.m01, b.m02, b.m10, b.m11, b.m12, b.m20, b.m21, b.m22, c.m02, c.m12, c.m22);
  }

  /** `multiply` and `multiplyTo` differ: on these operands entry m02 of
      a * b is 11 and of b * a is 3. */
  lemma ProductNotCommutative()
    ensures Product(Mat3(1.0, 2.0, 0.0, 0.0, 1.0, 0.0, 0.0, 0.0, 1.0), Mat3(1.0, 0.0, 3.0, 0.0, 1.0, 4.0, 0.0, 0.0, 1.0))
         == Mat3(1.0, 2.0, 11.0, 0.0, 1.0, 4.0, 0.0, 0.0, 1.0)
    ensures Product(Mat3(1.0, 0.0, 3.0, 0.0, 1.0, 4.0, 0.0, 0.0, 1.0), Mat3(1.0, 2.0, 0.0, 0.0, 1.0, 0.0, 0.0, 0.0, 1.0))
         == Mat3(1.0, 2.0, 3.0, 0.0, 1.0, 4.0, 0.0, 0.0, 1.0)
  {
  }

  // ---------------------------------------------------------------------------
  // Laws of the determinant

  lemma DetIdentity()
    ensures Det(Matrix3x3.Identity()) == 1.0
  {
    IdentityEntries();
  }

  /** A matrix with two equal rows is singular. */
  lemma DetEqualRows(m: Mat3)
    requires (m.m00, m.m01, m.m02) == (m.m10, m.m11, m.m12)
          || (m.m00, m.m01, m.m02) == (m.m20, m.m21, m.m22)
          || (m.m10, m.m11, m.m12) == (m.m20, m.m21, m.m22)
    ensures Det(m) == 0.0
  {
  }

  /** Two matrices with known determinants: 0 when two rows are equal, and 2. */
  lemma DetExamples()
    ensures Det(Mat3(1.0, 2.0, 3.0, 1.0, 2.0, 3.0, 4.0, 5.0, 6.0)) == 0.0
    ensures Det(Mat3(2.0, 1.0, 3.0, 1.0, 0.0, 1.0, 1.0, 2.0, 1.0)) == 2.0
  {
  }

  /** The determinant is multiplicative. */
  lemma DetProduct(a: Mat3, b: Mat3)
    ensures Det(Product(a, b)) == Det(a) * Det(b)
  {
    var p := Product(a, b);
    DetProductScalar(a.m00, a.m01, a.m02, a.m10, a.m11, a.m12, a.m20, a.m21, a.m22,
                     b.m00, b.m01, b.m02, b.m10, b.m11, b.m12, b.m20, b.m21, b.m22,
                     p.m00, p.m01, p.m02, p.m10, p.m11, p.m12, p.m20, p.m21, p.m22);
  }

  // ---------------------------------------------------------------------------
  // Laws of the inverse

  /** m adj(m) = det(m) I. */
  lemma AdjugateProduct(m: Mat3)
    ensures Product(m, Adjugate(m)) == ScalarMatrix(Det(m))
  {
    AdjugateRow0(m.m00, m.m01, m.m02, m.m10, m.m11, m.m12, m.m20, m.m21, m.m22);
    AdjugateRow1(m.m00, m.m01, m.m02, m.m10, m.m11, m.m12, m.m20, m.m21, m.m22);
    AdjugateRow2(m.m00, m.m01, m.m02, m.m10, m.m11, m.m12, m.m20, m.m21, m.m22);
  }

  /** What `invert` stores is a right inverse. */
  lemma InverseRight(m: Mat3)
    requires Det(m) != 0.0
    ensures Product(m, Inverse(m)) == Matrix3x3.Identity()
  {
    var a, d := Adjugate(m), Det(m);
    AdjugateProduct(m);
    DividedDot(m.m00, m.m01, m.m02, a.m00, a.m10, a.m20, d, 1.0);
    DividedDot(m.m00, m.m01, m.m02, a.m01, a.m11, a.m21, d, 0.0);
    DividedDot(m.m00, m.m01, m.m02, a.m02, a.m12, a.m22, d, 0.0);
    DividedDot(m.m10, m.m11, m.m12, a.m00, a.m10, a.m20, d, 0.0);
    DividedDot(m.m10, m.m11, m.m12, a.m01, a.m11, a.m21, d, 1.0);
    DividedDot(m.m10, m.m11, m.m12, a.m02, a.m12, a.m22, d, 0.0);
    DividedDot(m.m20, m.m21, m.m22, a.m00, a.m10, a.m20, d, 0.0);
    DividedDot(m.m20, m.m21, m.m22, a.m01, a.m11, a.m21, d, 0.0);
    DividedDot(m.m20, m.m21, m.m22, a.m02, a.m12, a.m22, d, 1.0);
    IdentityEntries();
  }

  /** A right inverse of a right inverse is the matrix itself: m = m (n k) = (m n) k = k. */
  lemma RightInverseUnique(m: Mat3, n: Mat3, k: Mat3)
    requires Product(m, n) == Matrix3x3.Identity() && Product(n, k) == Matrix3x3.Identity()
    ensures m == k
  {
    calc {
      m;
      { ProductIdentity(m); }
      Product(m, Product(n, k));
      { ProductAssociative(m, n, k); }
      Product(Product(m, n), k);
      { ProductIdentity(k); }
      k;
    }
  }

  /** A right inverse has a non-zero determinant, since det(m) det(n) = det(I) = 1. */
  lemma RightInverseInvertible(m: Mat3, n: Mat3)
    requires Product(m, n) == Matrix3x3.Identity()
    ensures Det(m) * Det(n) == 1.0 && Det(n) != 0.0
  {
    DetProduct(m, n);
    DetIdentity();
  }

  /** Inverting twice restores the original. */
  lemma InverseInvolutive(m: Mat3)
    requires Det(m) != 0.0
    ensures Det(Inverse(m)) != 0.0 && Inverse(Inverse(m)) == m
  {
    var n := Inverse(m);
    InverseRight(m);
    RightInverseInvertible(m, n);
    InverseRight(n);
    RightInverseUnique(m, n, Inverse(n));
  }

  /** When the determinant is not zero, what `invert` stores is a two-sided inverse. */
  lemma InverseIsTwoSided(m: Mat3)
    requires Det(m) != 0.0
    ensures Product(m, Inverse(m)) == Matrix3x3.Identity()
    ensures Product(Inverse(m), m) == Matrix3x3.Identity()
  {
    var n := Inverse(m);
    InverseRight(m);
    RightInverseInvertible(m, n);
    InverseRight(n);
    InverseInvolutive(m);
  }

  /** The identity is a fixed point of `invert`. */
  lemma InverseOfIdentity()
    ensures Det(Matrix3x3.Identity()) == 1.0 && Inverse(Matrix3x3.Identity()) == Matrix3x3.Identity()
  {
    IdentityEntries();
    var i := Mat3(1.0, 0.0, 0.0, 0.0, 1.0, 0.0, 0.0, 0.0, 1.0);
    assert Det(i) == 1.0;
    assert Adjugate(i) == i;
  }

  /** The inverse of a symmetric tridiagonal matrix with determinant 4. */
  lemma InverseExample()
    ensures var m := Mat3(2.0, 1.0, 0.0, 1.0, 2.0, 1.0, 0.0, 1.0, 2.0);
            Det(m) == 4.0 && Inverse(m) == Mat3(0.75, -0.5, 0.25, -0.5, 1.0, -0.5, 0.25, -0.5, 0.75)
  {
    var m := Mat3(2.0, 1.0, 0.0, 1.0, 2.0, 1.0, 0.0, 1.0, 2.0);
    assert Det(m) == 4.0;
    assert Adjugate(m) == Mat3(3.0, -2.0, 1.0, -2.0, 4.0, -2.0, 1.0, -2.0, 3.0);
  }

  // ---------------------------------------------------------------------------
  // Laws of the quaternion rotation

  /** The identity quaternion (0, 0, 0, 1) gives the identity matrix, so
      `rotateByQuaternion(0, 0, 0, 1)` leaves a matrix unchanged. */
  lemma QuaternionIdentity(m: Mat3)
    ensures QuaternionMatrix(0.0, 0.0, 0.0, 1.0) == Matrix3x3.Identity()
    ensures Product(QuaternionMatrix(0.0, 0.0, 0.0, 1.0), m) == m
  {
    IdentityEntries();
    ProductIdentity(m);
  }

  /** The nine entries `rotateByQuaternion` writes, unfolded from the array. */
  lemma QuaternionEntries(qx: real, qy: real, qz: real, qw: real)
    ensures QuaternionMatrix(qx, qy, qz, qw) == Mat3(1.0 - 2.0 * qy * qy - 2.0 * qz * qz, 2.0 * qx * qy - 2.0 * qw * qz, 2.0 * qx * qz + 2.0 * qw * qy,
                                                     2.0 * qx * qy + 2.0 * qw * qz, 1.0 - 2.0 * qx * qx - 2.0 * qz * qz, 2.0 * qy * qz - 2.0 * qw * qx,
                                                     2.0 * qx * qz - 2.0 * qw * qy, 2.0 * qy * qz + 2.0 * qx * qw, 1.0 - 2.0 * qx * qx - 2.0 * qy * qy)
  {
  }

  /** For a unit quaternion the matrix is orthogonal: its transpose is its inverse. */
  lemma QuaternionOrthogonal(qx: real, qy: real, qz: real, qw: real)
    requires qx * qx + qy * qy + qz * qz + qw * qw == 1.0
    ensures Product(QuaternionMatrix(qx, qy, qz, qw), Transpose(QuaternionMatrix(qx, qy, qz, qw))) == Matrix3x3.Identity()
  {
    var r := QuaternionMatrix(qx, qy, qz, qw);
    QuaternionEntries(qx, qy, qz, qw);
    QuaternionDot00(qx, qy, qz, qw, r.m00, r.m01, r.m02);
    QuaternionDot01(qx, qy, qz, qw, r.m00, r.m01, r.m02, r.m10, r.m11, r.m12);
    QuaternionDot02(qx, qy, qz, qw, r.m00, r.m01, r.m02, r.m20, r.m21, r.m22);
    QuaternionDot11(qx, qy, qz, qw, r.m10, r.m11, r.m12);
    QuaternionDot12(qx, qy, qz, qw, r.m10, r.m11, r.m12, r.m20, r.m21, r.m22);
    QuaternionDot22(qx, qy, qz, qw, r.m20, r.m21, r.m22);
    IdentityEntries();
  }
}
