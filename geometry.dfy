/**
 * The projection matrices of src/geometry.cpp, over reals.
 *
 * A matrix is kept as its four rows, in the order the source's comma
 * initialiser lists the coefficients.  Apply multiplies a matrix by a column
 * vector in homogeneous coordinates.
 */
module Geometry {

  datatype Vec4 = Vec4(x: real, y: real, z: real, w: real)

  datatype Mat4 = Mat4(row0: Vec4, row1: Vec4, row2: Vec4, row3: Vec4)

  function Dot(a: Vec4, b: Vec4): real {
    a.x * b.x + a.y * b.y + a.z * b.z + a.w * b.w
  }

  /** The matrix-vector product m * p. */
  function Apply(m: Mat4, p: Vec4): Vec4 {
    Vec4(Dot(m.row0, p), Dot(m.row1, p), Dot(m.row2, p), Dot(m.row3, p))
  }

  /** A point of eye space, with w = 1. */
  function Point(x: real, y: real, z: real): Vec4 {
    Vec4(x, y, z, 1.0)
  }

  /**
   * orthographic(left, right, bottom, top, near, far): the Ortho matrix of
   * section 2.11.2 of the OpenGL 2.1 specification.  It is affine (w is kept),
   * and each clip coordinate of a point depends on the matching eye coordinate only.
   */
  function Orthographic(left: real, right: real, bottom: real, top: real, near: real, far: real): (m: Mat4)
    requires left != right && bottom != top && near != far
    ensures forall p :: Apply(m, p).w == p.w
    ensures forall x, y, z :: Apply(m, Point(x, y, z)).x == m.row0.x * x + m.row0.w
    ensures forall x, y, z :: Apply(m, Point(x, y, z)).y == m.row1.y * y + m.row1.w
    ensures forall x, y, z :: Apply(m, Point(x, y, z)).z == m.row2.z * z + m.row2.w
  {
    Mat4(Vec4(2.0 / (right - left), 0.0, 0.0, -(right + left) / (right - left)),
         Vec4(0.0, 2.0 / (top - bottom), 0.0, -(top + bottom) / (top - bottom)),
         Vec4(0.0, 0.0, -2.0 / (far - near), -(far + near) / (far - near)),
         Vec4(0.0, 0.0, 0.0, 1.0))
  }

  /** a / d is a times the reciprocal of d. */
  lemma DivIsMulInverse(a: real, d: real)
    requires d != 0.0
    ensures a / d == a * (1.0 / d)
  {
  }

  /**
   * One axis of the box, with scale s = 2/(hi - lo) (or its negation, for the
   * z axis that looks down -z) and offset -(hi + lo)/(hi - lo).
   */
  lemma AxisMap(s: real, t: real, lo: real, hi: real, v: real, flip: bool)
    requires lo != hi
    requires s == (if flip then -2.0 else 2.0) / (hi - lo) && t == -(hi + lo) / (hi - lo)
    ensures s * v + t == ((if flip then -2.0 else 2.0) * v - hi - lo) / (hi - lo)
  {
    var d := hi - lo;
    var k := if flip then -2.0 else 2.0;
    var q := 1.0 / d;
    DivIsMulInverse(k, d);
    DivIsMulInverse(-(hi + lo), d);
    DivIsMulInverse(k * v - hi - lo, d);
    assert k * q * v + -(hi + lo) * q == (k * v - hi - lo) * q;
  }

  /** The interpolation of one axis sends lo to -1, hi to +1 and the midpoint to 0. */
  lemma AxisEnds(lo: real, hi: real)
    requires lo != hi
    ensures (2.0 * lo - hi - lo) / (hi - lo) == -1.0
    ensures (2.0 * hi - hi - lo) / (hi - lo) == 1.0
    ensures (2.0 * ((lo + hi) / 2.0) - hi - lo) / (hi - lo) == 0.0
  {
    assert 2.0 * lo - hi - lo == -(hi - lo);
    assert 2.0 * hi - hi - lo == hi - lo;
    assert 2.0 * ((lo + hi) / 2.0) - hi - lo == 0.0;
  }

  /**
   * Every point is mapped by the interpolation that sends [left, right],
   * [bottom, top] and [-near, -far] onto [-1, 1].
   */
  lemma OrthographicNormalises(left: real, right: real, bottom: real, top: real, near: real, far: real,
                               x: real, y: real, z: real)
    requires left != right && bottom != top && near != far
    ensures var c := Apply(Orthographic(left, right, bottom, top, near, far), Point(x, y, z));
      && c.x == (2.0 * x - right - left) / (right - left)
      && c.y == (2.0 * y - top - bottom) / (top - bottom)
      && c.z == (-2.0 * z - far - near) / (far - near)
      && c.w == 1.0
  {
    var m := Orthographic(left, right, bottom, top, near, far);
    AxisMap(m.row0.x, m.row0.w, left, right, x, false);
    AxisMap(m.row1.y, m.row1.w, bottom, top, y, false);
    AxisMap(m.row2.z, m.row2.w, near, far, z, true);
  }

  /** The faces of the box land on the faces of the clip cube. */
  lemma OrthographicMapsBox(left: real, right: real, bottom: real, top: real, near: real, far: real,
                            x: real, y: real, z: real)
    requires left != right && bottom != top && near != far
    ensures var m := Orthographic(left, right, bottom, top, near, far);
      && Apply(m, Point(left, y, z)).x == -1.0 && Apply(m, Point(right, y, z)).x == 1.0
      && Apply(m, Point(x, bottom, z)).y == -1.0 && Apply(m, Point(x, top, z)).y == 1.0
      && Apply(m, Point(x, y, -near)).z == -1.0 && Apply(m, Point(x, y, -far)).z == 1.0
  {
    OrthographicNormalises(left, right, bottom, top, near, far, left, bottom, -near);
    OrthographicNormalises(left, right, bottom, top, near, far, right, top, -far);
    AxisEnds(left, right);
    AxisEnds(bottom, top);
    AxisEnds(near, far);
    assert -2.0 * -near == 2.0 * near;
    assert -2.0 * -far == 2.0 * far;
    var m := Orthographic(left, right, bottom, top, near, far);
    assert Apply(m, Point(left, y, z)).x == Apply(m, Point(left, bottom, -near)).x;
    assert Apply(m, Point(right, y, z)).x == Apply(m, Point(right, top, -far)).x;
    assert Apply(m, Point(x, bottom, z)).y == Apply(m, Point(left, bottom, -near)).y;
    assert Apply(m, Point(x, top, z)).y == Apply(m, Point(right, top, -far)).y;
    assert Apply(m, Point(x, y, -near)).z == Apply(m, Point(left, bottom, -near)).z;
    assert Apply(m, Point(x, y, -far)).z == Apply(m, Point(right, top, -far)).z;
  }

  /** The centre of the box is mapped to the origin of clip space. */
  lemma OrthographicCentre(left: real, right: real, bottom: real, top: real, near: real, far: real)
    requires left != right && bottom != top && near != far
    ensures Apply(Orthographic(left, right, bottom, top, near, far),
                  Point((left + right) / 2.0, (bottom + top) / 2.0, -(near + far) / 2.0))
            == Vec4(0.0, 0.0, 0.0, 1.0)
  {
    var cx, cy, cz := (left + right) / 2.0, (bottom + top) / 2.0, -(near + far) / 2.0;
    OrthographicNormalises(left, right, bottom, top, near, far, cx, cy, cz);
    AxisEnds(left, right);
    AxisEnds(bottom, top);
    AxisEnds(near, far);
    assert -2.0 * cz == 2.0 * ((near + far) / 2.0);
  }

  /**
   * perspective(fov_y, aspect_ratio, z_near, z_far), with the tangent supplied
   * by the caller: the symmetric case of the Frustum matrix of section 2.11.2
   * of the OpenGL 2.1 specification.  The first two rows only scale x and y,
   * and the bottom row makes clip w the negated eye z.
   */
  function Perspective(tan: real -> real, fovY: real, aspectRatio: real, zNear: real, zFar: real): (m: Mat4)
    requires tan(fovY / 2.0) != 0.0 && aspectRatio != 0.0 && zFar != zNear
    ensures m.row1.y * tan(fovY / 2.0) == 1.0
    ensures m.row0.x * aspectRatio == m.row1.y
    ensures forall p :: Apply(m, p).x == m.row0.x * p.x
    ensures forall p :: Apply(m, p).y == m.row1.y * p.y
    ensures forall p :: Apply(m, p).w == -p.z
    ensures forall x, y, z :: Apply(m, Point(x, y, z)).z == Depth(m, z)
  {
    var yScale := 1.0 / tan(fovY / 2.0);
    var xScale := yScale / aspectRatio;
    Mat4(Vec4(xScale, 0.0, 0.0, 0.0),
         Vec4(0.0, yScale, 0.0, 0.0),
         Vec4(0.0, 0.0, -(zFar + zNear) / (zFar - zNear), -2.0 * zFar * zNear / (zFar - zNear)),
         Vec4(0.0, 0.0, -1.0, 0.0))
  }

  /** The clip z that the depth row of m gives eye depth z. */
  function Depth(m: Mat4, z: real): real {
    m.row2.z * z + m.row2.w
  }

  /** Dividing a non-zero number by itself or by its negation. */
  lemma SelfRatio(a: real)
    requires a != 0.0
    ensures a / a == 1.0 && -a / a == -1.0
  {
  }

  /**
   * The depth row of the perspective matrix, a = -(f+n)/(f-n) and
   * b = -2fn/(f-n), sends eye depth -n to -n and eye depth -f to f.
   */
  lemma DepthRow(m: Mat4, zNear: real, zFar: real)
    requires zNear != zFar
    requires m.row2.z == -(zFar + zNear) / (zFar - zNear) && m.row2.w == -2.0 * zFar * zNear / (zFar - zNear)
    ensures Depth(m, -zNear) == -zNear
    ensures Depth(m, -zFar) == zFar
  {
    var d := zFar - zNear;
    var q := 1.0 / d;
    DivIsMulInverse(-(zFar + zNear), d);
    DivIsMulInverse(-2.0 * zFar * zNear, d);
    assert q * d == 1.0;
    assert m.row2.z * -zNear + m.row2.w == -zNear * (q * d);
    assert m.row2.z * -zFar + m.row2.w == zFar * (q * d);
  }

  /** After the perspective divide, the near plane has depth -1 and the far plane +1. */
  lemma PerspectiveDepth(tan: real -> real, fovY: real, aspectRatio: real, zNear: real, zFar: real,
                         x: real, y: real)
    requires tan(fovY / 2.0) != 0.0 && aspectRatio != 0.0 && zFar != zNear
    requires zNear != 0.0 && zFar != 0.0
    ensures var m := Perspective(tan, fovY, aspectRatio, zNear, zFar);
      var near, far := Apply(m, Point(x, y, -zNear)), Apply(m, Point(x, y, -zFar));
      && near.w == zNear && near.z / near.w == -1.0
      && far.w == zFar && far.z / far.w == 1.0
  {
    var m := Perspective(tan, fovY, aspectRatio, zNear, zFar);
    DepthRow(m, zNear, zFar);
    SelfRatio(zNear);
    SelfRatio(zFar);
  }

  /**
   * The side planes of the view frustum at eye depth z, for a projection m
   * whose vertical half-angle has tangent t and whose aspect ratio is a: the
   * planes y = -z*t and y = z*t reach the clip planes y = w and y = -w, and
   * the planes x = -z*t*a and x = z*t*a the clip planes x = w and x = -w, so
   * that after the perspective divide they lie at +1 and -1.  The clip w is -z.
   */
  predicate MapsSidePlanes(m: Mat4, t: real, a: real, z: real) {
    var h := z * t;
    var top, bottom := Apply(m, Point(0.0, -h, z)), Apply(m, Point(0.0, h, z));
    var right, left := Apply(m, Point(-h * a, 0.0, z)), Apply(m, Point(h * a, 0.0, z));
    && top.w == -z && top.y == top.w && bottom.y == -bottom.w
    && right.w == -z && right.x == right.w && left.x == -left.w
  }

  /** Perspective's matrix maps the four side planes of the frustum onto the sides of the clip cube. */
  lemma PerspectiveSides(tan: real -> real, fovY: real, aspectRatio: real, zNear: real, zFar: real, z: real)
    requires tan(fovY / 2.0) != 0.0 && aspectRatio != 0.0 && zFar != zNear
    ensures MapsSidePlanes(Perspective(tan, fovY, aspectRatio, zNear, zFar), tan(fovY / 2.0), aspectRatio, z)
  {
    ScalingSides(Perspective(tan, fovY, aspectRatio, zNear, zFar), tan(fovY / 2.0), aspectRatio, z);
  }

  /** Any matrix with the rows of Perspective's, and its two scale relations, maps the side planes so. */
  lemma ScalingSides(m: Mat4, t: real, a: real, z: real)
    requires m.row0 == Vec4(m.row0.x, 0.0, 0.0, 0.0) && m.row1 == Vec4(0.0, m.row1.y, 0.0, 0.0)
    requires m.row3 == Vec4(0.0, 0.0, -1.0, 0.0)
    requires m.row1.y * t == 1.0 && m.row0.x * a == m.row1.y
    ensures MapsSidePlanes(m, t, a, z)
  {
    var h := z * t;
    assert m.row1.y * h == z * (m.row1.y * t);
    assert m.row0.x * (h * a) == (m.row0.x * a) * h;
  }

  /** A matrix whose action keeps w has bottom row (0, 0, 0, 1), as Orthographic's has. */
  lemma KeepsWBottomRow(m: Mat4)
    requires forall p :: Apply(m, p).w == p.w
    ensures m.row3 == Vec4(0.0, 0.0, 0.0, 1.0)
  {
    assert Apply(m, Vec4(1.0, 0.0, 0.0, 0.0)).w == 0.0;
    assert Apply(m, Vec4(0.0, 1.0, 0.0, 0.0)).w == 0.0;
    assert Apply(m, Vec4(0.0, 0.0, 1.0, 0.0)).w == 0.0;
    assert Apply(m, Vec4(0.0, 0.0, 0.0, 1.0)).w == 1.0;
  }

  /** A matrix whose action turns -z into w has bottom row (0, 0, -1, 0), as Perspective's has. */
  lemma NegatedDepthBottomRow(m: Mat4)
    requires forall p :: Apply(m, p).w == -p.z
    ensures m.row3 == Vec4(0.0, 0.0, -1.0, 0.0)
  {
    assert Apply(m, Vec4(1.0, 0.0, 0.0, 0.0)).w == 0.0;
    assert Apply(m, Vec4(0.0, 1.0, 0.0, 0.0)).w == 0.0;
    assert Apply(m, Vec4(0.0, 0.0, 1.0, 0.0)).w == -1.0;
    assert Apply(m, Vec4(0.0, 0.0, 0.0, 1.0)).w == 0.0;
  }

  /**
   * A matrix whose action only scales x has zero off-diagonal entries in its
   * first row, as Perspective's has.
   */
  lemma ScalesXRow(m: Mat4)
    requires forall p :: Apply(m, p).x == m.row0.x * p.x
    ensures m.row0 == Vec4(m.row0.x, 0.0, 0.0, 0.0)
  {
    assert Apply(m, Vec4(0.0, 1.0, 0.0, 0.0)).x == 0.0;
    assert Apply(m, Vec4(0.0, 0.0, 1.0, 0.0)).x == 0.0;
    assert Apply(m, Vec4(0.0, 0.0, 0.0, 1.0)).x == 0.0;
  }

  /** Likewise for y and the second row. */
  lemma ScalesYRow(m: Mat4)
    requires forall p :: Apply(m, p).y == m.row1.y * p.y
    ensures m.row1 == Vec4(0.0, m.row1.y, 0.0, 0.0)
  {
    assert Apply(m, Vec4(1.0, 0.0, 0.0, 0.0)).y == 0.0;
    assert Apply(m, Vec4(0.0, 0.0, 1.0, 0.0)).y == 0.0;
    assert Apply(m, Vec4(0.0, 0.0, 0.0, 1.0)).y == 0.0;
  }

  /** The sanity case: a 90 degree field of view at aspect 1 scales x and y by 1. */
  lemma PerspectiveRightAngle(tan: real -> real, fovY: real)
    requires tan(fovY / 2.0) == 1.0
    ensures var m := Perspective(tan, fovY, 1.0, 0.1, 1000.0);
      m.row0.x == 1.0 && m.row1.y == 1.0 && m.row2.z == -1000.1 / 999.9
  {
  }
}
