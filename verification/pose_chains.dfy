/** moveit_environment_boxes.py: rigid poses composed along a chain of SDF poses. */
module PoseChains {
  import opened Reals

  datatype Vector = Vector(x: real, y: real, z: real)

  datatype Quaternion = Quaternion(x: real, y: real, z: real, w: real)

  /** math.cos and math.sin, of which only the Pythagorean identity is used. */
  datatype Trig = Trig(cos: real -> real, sin: real -> real)

  ghost predicate IsTrig(t: Trig) {
    forall a: real :: t.cos(a) * t.cos(a) + t.sin(a) * t.sin(a) == 1.0
  }

  datatype Pose = Pose(position: Vector, roll: real, pitch: real, yaw: real)

  function Plus(a: Vector, b: Vector): Vector {
    Vector(a.x + b.x, a.y + b.y, a.z + b.z)
  }

  function Minus(a: Vector, b: Vector): Vector {
    Vector(a.x - b.x, a.y - b.y, a.z - b.z)
  }

  /** Squared length. */
  function Square(v: Vector): real {
    v.x * v.x + v.y * v.y + v.z * v.z
  }

  function Norm(q: Quaternion): real {
    q.x * q.x + q.y * q.y + q.z * q.z + q.w * q.w
  }

  // The program's formulas.

  function FromHalfAngles(cr: real, sr: real, cp: real, sp: real, cy: real, sy: real): Quaternion {
    Quaternion(sr * cp * cy - cr * sp * sy, cr * sp * cy + sr * cp * sy, cr * cp * sy - sr * sp * cy,
               cr * cp * cy + sr * sp * sy)
  }

  /** `_quaternion_from_rpy`. */
  function FromRpy(t: Trig, roll: real, pitch: real, yaw: real): Quaternion {
    FromHalfAngles(t.cos(roll * 0.5), t.sin(roll * 0.5), t.cos(pitch * 0.5), t.sin(pitch * 0.5), t.cos(yaw * 0.5),
                   t.sin(yaw * 0.5))
  }

  /** `_quaternion_multiply`. */
  function Multiply(l: Quaternion, r: Quaternion): Quaternion {
    Quaternion(l.w * r.x + l.x * r.w + l.y * r.z - l.z * r.y, l.w * r.y - l.x * r.z + l.y * r.w + l.z * r.x,
               l.w * r.z + l.x * r.y - l.y * r.x + l.z * r.w, l.w * r.w - l.x * r.x - l.y * r.y - l.z * r.z)
  }

  /** `_rotate_vector`'s tx, ty and tz: twice the cross product of the vector part with v. */
  function Twist(q: Quaternion, v: Vector): Vector {
    Vector(2.0 * (q.y * v.z - q.z * v.y), 2.0 * (q.z * v.x - q.x * v.z), 2.0 * (q.x * v.y - q.y * v.x))
  }

  /** `_rotate_vector`. */
  function Rotate(q: Quaternion, v: Vector): Vector {
    var t := Twist(q, v);
    Vector(v.x + q.w * t.x + (q.y * t.z - q.z * t.y), v.y + q.w * t.y + (q.z * t.x - q.x * t.z),
           v.z + q.w * t.z + (q.x * t.y - q.y * t.x))
  }

  // Quaternion algebra.

  function Conjugate(q: Quaternion): Quaternion {
    Quaternion(-q.x, -q.y, -q.z, q.w)
  }

  function Pure(v: Vector): Quaternion {
    Quaternion(v.x, v.y, v.z, 0.0)
  }

  function Add(p: Quaternion, q: Quaternion): Quaternion {
    Quaternion(p.x + q.x, p.y + q.y, p.z + q.z, p.w + q.w)
  }

  function Scale(s: real, q: Quaternion): Quaternion {
    Quaternion(s * q.x, s * q.y, s * q.z, s * q.w)
  }

  /** The products of the imaginary units with q. */
  function I(q: Quaternion): Quaternion {
    Quaternion(q.w, -q.z, q.y, -q.x)
  }

  function J(q: Quaternion): Quaternion {
    Quaternion(q.z, q.w, -q.x, -q.y)
  }

  function K(q: Quaternion): Quaternion {
    Quaternion(-q.y, q.x, q.w, -q.z)
  }

  /** The combination of four quaternions with the parts of `a`. */
  function Combine(a: Quaternion, p: Quaternion, q: Quaternion, r: Quaternion, s: Quaternion): Quaternion {
    Add(Add(Scale(a.w, p), Scale(a.x, q)), Add(Scale(a.y, r), Scale(a.z, s)))
  }

  lemma {:induction false} ProductCombines(a: Quaternion, b: Quaternion)
    ensures Multiply(a, b) == Combine(a, b, I(b), J(b), K(b))
  {
  }

  lemma {:induction false} UnitI(b: Quaternion, c: Quaternion)
    ensures Multiply(I(b), c) == I(Multiply(b, c))
  {
    hide Multiply, Product;
    Parts(I(b), c);
    Parts(b, c);
    Negative(I(b).y, b.z);
    Negative(I(b).w, b.x);
  }

  lemma {:induction false} UnitJ(b: Quaternion, c: Quaternion)
    ensures Multiply(J(b), c) == J(Multiply(b, c))
  {
    hide Multiply, Product;
    Parts(J(b), c);
    Parts(b, c);
    Negative(J(b).z, b.x);
    Negative(J(b).w, b.y);
  }

  lemma {:induction false} UnitK(b: Quaternion, c: Quaternion)
    ensures Multiply(K(b), c) == K(Multiply(b, c))
  {
    hide Multiply, Product;
    Parts(K(b), c);
    Parts(b, c);
    Negative(K(b).x, b.y);
    Negative(K(b).w, b.z);
  }

  // Products of parts go by the name Product here, and are only rearranged by these laws.

  lemma {:induction false} Parts(l: Quaternion, r: Quaternion)
    ensures Multiply(l, r) ==
            Quaternion(Product(l.w, r.x) + Product(l.x, r.w) + Product(l.y, r.z) - Product(l.z, r.y),
                       Product(l.w, r.y) - Product(l.x, r.z) + Product(l.y, r.w) + Product(l.z, r.x),
                       Product(l.w, r.z) + Product(l.x, r.y) - Product(l.y, r.x) + Product(l.z, r.w),
                       Product(l.w, r.w) - Product(l.x, r.x) - Product(l.y, r.y) - Product(l.z, r.z))
  {
  }

  lemma {:induction false} ScaledParts(s: real, q: Quaternion)
    ensures Scale(s, q) == Quaternion(Product(s, q.x), Product(s, q.y), Product(s, q.z), Product(s, q.w))
  {
  }

  lemma {:induction false} SumTimes(sum: real, a: real, b: real)
    requires sum == a + b
    ensures forall t :: Product(sum, t) == Product(a, t) + Product(b, t)
  {
    forall t
      ensures Product(sum, t) == Product(a, t) + Product(b, t)
    {
      assert Product(a + b, t) == Product(a, t) + Product(b, t);
    }
  }

  lemma {:induction false} TimesProduct(s: real)
    ensures forall x, y :: Product(Product(s, x), y) == Product(s, Product(x, y))
  {
    forall x, y
      ensures Product(Product(s, x), y) == Product(s, Product(x, y))
    {
      assert s * x * y == s * (x * y);
    }
  }

  lemma {:induction false} TimesSumX(s: real, sum: real, a: real, b: real, c: real, d: real)
    requires sum == a + b + c - d
    ensures Product(s, sum) == Product(s, a) + Product(s, b) + Product(s, c) - Product(s, d)
  {
    assert Product(s, a + b + c - d) == Product(s, a) + Product(s, b) + Product(s, c) - Product(s, d);
  }

  lemma {:induction false} TimesSumY(s: real, sum: real, a: real, b: real, c: real, d: real)
    requires sum == a - b + c + d
    ensures Product(s, sum) == Product(s, a) - Product(s, b) + Product(s, c) + Product(s, d)
  {
    assert Product(s, a - b + c + d) == Product(s, a) - Product(s, b) + Product(s, c) + Product(s, d);
  }

  lemma {:induction false} TimesSumZ(s: real, sum: real, a: real, b: real, c: real, d: real)
    requires sum == a + b - c + d
    ensures Product(s, sum) == Product(s, a) + Product(s, b) - Product(s, c) + Product(s, d)
  {
    assert Product(s, a + b - c + d) == Product(s, a) + Product(s, b) - Product(s, c) + Product(s, d);
  }

  lemma {:induction false} TimesSumW(s: real, sum: real, a: real, b: real, c: real, d: real)
    requires sum == a - b - c - d
    ensures Product(s, sum) == Product(s, a) - Product(s, b) - Product(s, c) - Product(s, d)
  {
    assert Product(s, a - b - c - d) == Product(s, a) - Product(s, b) - Product(s, c) - Product(s, d);
  }

  lemma {:induction false} ProductAdds(p: Quaternion, q: Quaternion, c: Quaternion)
    ensures Multiply(Add(p, q), c) == Add(Multiply(p, c), Multiply(q, c))
  {
    hide Multiply, Product;
    var sum := Add(p, q);
    Parts(sum, c);
    Parts(p, c);
    Parts(q, c);
    SumTimes(sum.x, p.x, q.x);
    SumTimes(sum.y, p.y, q.y);
    SumTimes(sum.z, p.z, q.z);
    SumTimes(sum.w, p.w, q.w);
  }

  lemma {:induction false} ProductScales(s: real, p: Quaternion, c: Quaternion)
    ensures Multiply(Scale(s, p), c) == Scale(s, Multiply(p, c))
  {
    hide Multiply, Scale, Product;
    var m := Multiply(p, c);
    ScaledParts(s, p);
    ScaledParts(s, m);
    Parts(Scale(s, p), c);
    Parts(p, c);
    TimesProduct(s);
    TimesSumX(s, m.x, Product(p.w, c.x), Product(p.x, c.w), Product(p.y, c.z), Product(p.z, c.y));
    TimesSumY(s, m.y, Product(p.w, c.y), Product(p.x, c.z), Product(p.y, c.w), Product(p.z, c.x));
    TimesSumZ(s, m.z, Product(p.w, c.z), Product(p.x, c.y), Product(p.y, c.x), Product(p.z, c.w));
    TimesSumW(s, m.w, Product(p.w, c.w), Product(p.x, c.x), Product(p.y, c.y), Product(p.z, c.z));
  }

  lemma {:induction false} CombinedProduct(
    a: Quaternion, p: Quaternion, q: Quaternion, r: Quaternion, s: Quaternion, c: Quaternion)
    ensures Multiply(Combine(a, p, q, r, s), c) ==
            Combine(a, Multiply(p, c), Multiply(q, c), Multiply(r, c), Multiply(s, c))
  {
    ProductAdds(Add(Scale(a.w, p), Scale(a.x, q)), Add(Scale(a.y, r), Scale(a.z, s)), c);
    ProductAdds(Scale(a.w, p), Scale(a.x, q), c);
    ProductAdds(Scale(a.y, r), Scale(a.z, s), c);
    ProductScales(a.w, p, c);
    ProductScales(a.x, q, c);
    ProductScales(a.y, r, c);
    ProductScales(a.z, s, c);
  }

  lemma {:induction false} Associative(a: Quaternion, b: Quaternion, c: Quaternion)
    ensures Multiply(Multiply(a, b), c) == Multiply(a, Multiply(b, c))
  {
    ProductCombines(a, b);
    CombinedProduct(a, b, I(b), J(b), K(b), c);
    UnitI(b, c);
    UnitJ(b, c);
    UnitK(b, c);
    ProductCombines(a, Multiply(b, c));
  }

  lemma {:induction false} Negative(n: real, a: real)
    requires n == -a
    ensures forall t :: Product(n, t) == -Product(a, t)
    ensures forall t :: Product(t, n) == -Product(t, a)
  {
    forall t
      ensures Product(n, t) == -Product(a, t) && Product(t, n) == -Product(t, a)
    {
      assert Product(-a, t) == -Product(a, t) && Product(t, -a) == -Product(t, a);
    }
  }

  lemma {:induction false} Commutes()
    ensures forall a, b :: Product(a, b) == Product(b, a)
  {
  }

  lemma {:induction false} ConjugateProduct(a: Quaternion, b: Quaternion)
    ensures Conjugate(Multiply(a, b)) == Multiply(Conjugate(b), Conjugate(a))
  {
    hide Multiply, Product;
    var p, q := Conjugate(b), Conjugate(a);
    Parts(a, b);
    Parts(p, q);
    Commutes();
    Negative(p.x, b.x);
    Negative(p.y, b.y);
    Negative(p.z, b.z);
    Negative(q.x, a.x);
    Negative(q.y, a.y);
    Negative(q.z, a.z);
  }

  lemma {:induction false} NormProduct(a: Quaternion, b: Quaternion)
    ensures Norm(Multiply(a, b)) == Product(Norm(a), Norm(b))
  {
    hide Multiply, Norm, Conjugate, Scale, Product;
    var n := Real(Norm(b));
    SquareNorm(a);
    SquareNorm(b);
    SquareNorm(Multiply(a, b));
    ConjugateProduct(a, b);
    Associative(a, b, Multiply(Conjugate(b), Conjugate(a)));
    Associative(b, Conjugate(b), Conjugate(a));
    RealCommutes(Norm(b), Conjugate(a));
    Associative(a, Conjugate(a), n);
    RealProduct(Norm(a), Norm(b));
  }

  function Real(s: real): Quaternion {
    Quaternion(0.0, 0.0, 0.0, s)
  }

  lemma {:induction false} SquareNorm(q: Quaternion)
    ensures Multiply(q, Conjugate(q)) == Real(Norm(q))
  {
  }

  lemma {:induction false} RealCommutes(s: real, q: Quaternion)
    ensures Multiply(Real(s), q) == Multiply(q, Real(s))
  {
  }

  lemma {:induction false} RealProduct(s: real, t: real)
    ensures Multiply(Real(s), Real(t)) == Real(Product(s, t))
  {
  }

  function Sandwich(q: Quaternion, v: Quaternion): Quaternion {
    Multiply(Multiply(q, v), Conjugate(q))
  }

  /** The images of the axes: the columns of the rotation matrix. */
  function ColumnX(q: Quaternion): Quaternion {
    Quaternion(q.w * q.w + q.x * q.x - q.y * q.y - q.z * q.z, 2.0 * (q.x * q.y + q.w * q.z),
      2.0 * (q.x * q.z - q.w * q.y), 0.0)
  }

  function ColumnY(q: Quaternion): Quaternion {
    Quaternion(2.0 * (q.x * q.y - q.w * q.z), q.w * q.w - q.x * q.x + q.y * q.y - q.z * q.z,
      2.0 * (q.y * q.z + q.w * q.x), 0.0)
  }

  function ColumnZ(q: Quaternion): Quaternion {
    Quaternion(2.0 * (q.x * q.z + q.w * q.y), 2.0 * (q.y * q.z - q.w * q.x),
      q.w * q.w - q.x * q.x - q.y * q.y + q.z * q.z, 0.0)
  }

  function Columns(q: Quaternion, v: Vector): Quaternion {
    Add(Add(Scale(v.x, ColumnX(q)), Scale(v.y, ColumnY(q))), Scale(v.z, ColumnZ(q)))
  }

  /** The products of q with the imaginary units. */
  function TimesI(q: Quaternion): Quaternion {
    Quaternion(q.w, q.z, -q.y, -q.x)
  }

  function TimesJ(q: Quaternion): Quaternion {
    Quaternion(-q.z, q.w, q.x, -q.y)
  }

  function TimesK(q: Quaternion): Quaternion {
    Quaternion(q.y, -q.x, q.w, -q.z)
  }

  lemma {:induction false} ImageX(q: Quaternion)
    ensures Multiply(TimesI(q), Conjugate(q)) == ColumnX(q)
  {
  }

  lemma {:induction false} ImageY(q: Quaternion)
    ensures Multiply(TimesJ(q), Conjugate(q)) == ColumnY(q)
  {
  }

  lemma {:induction false} ImageZ(q: Quaternion)
    ensures Multiply(TimesK(q), Conjugate(q)) == ColumnZ(q)
  {
  }

  lemma {:induction false} PureProductX(q: Quaternion, v: Vector)
    ensures Multiply(q, Pure(v)).x == Add(Add(Scale(v.x, TimesI(q)), Scale(v.y, TimesJ(q))), Scale(v.z, TimesK(q))).x
  {
  }

  lemma {:induction false} PureProductY(q: Quaternion, v: Vector)
    ensures Multiply(q, Pure(v)).y == Add(Add(Scale(v.x, TimesI(q)), Scale(v.y, TimesJ(q))), Scale(v.z, TimesK(q))).y
  {
  }

  lemma {:induction false} PureProductZ(q: Quaternion, v: Vector)
    ensures Multiply(q, Pure(v)).z == Add(Add(Scale(v.x, TimesI(q)), Scale(v.y, TimesJ(q))), Scale(v.z, TimesK(q))).z
  {
  }

  lemma {:induction false} PureProductW(q: Quaternion, v: Vector)
    ensures Multiply(q, Pure(v)).w == Add(Add(Scale(v.x, TimesI(q)), Scale(v.y, TimesJ(q))), Scale(v.z, TimesK(q))).w
  {
  }

  lemma {:induction false} PureProduct(q: Quaternion, v: Vector)
    ensures Multiply(q, Pure(v)) == Add(Add(Scale(v.x, TimesI(q)), Scale(v.y, TimesJ(q))), Scale(v.z, TimesK(q)))
  {
    hide *;
    PureProductX(q, v);
    PureProductY(q, v);
    PureProductZ(q, v);
    PureProductW(q, v);
  }

  lemma {:induction false} SandwichColumns(q: Quaternion, v: Vector)
    ensures Sandwich(q, Pure(v)) == Columns(q, v)
  {
    var x, y, z := Scale(v.x, TimesI(q)), Scale(v.y, TimesJ(q)), Scale(v.z, TimesK(q));
    PureProduct(q, v);
    ProductAdds(Add(x, y), z, Conjugate(q));
    ProductAdds(x, y, Conjugate(q));
    ProductScales(v.x, TimesI(q), Conjugate(q));
    ProductScales(v.y, TimesJ(q), Conjugate(q));
    ProductScales(v.z, TimesK(q), Conjugate(q));
    ImageX(q);
    ImageY(q);
    ImageZ(q);
  }

  lemma {:induction false} TwistParts(q: Quaternion, v: Vector)
    ensures Twist(q, v) ==
            Vector(2.0 * Product(q.y, v.z) - 2.0 * Product(q.z, v.y), 2.0 * Product(q.z, v.x) - 2.0 * Product(q.x, v.z),
                   2.0 * Product(q.x, v.y) - 2.0 * Product(q.y, v.x))
  {
  }

  lemma {:induction false} RotateTwist(q: Quaternion, v: Vector, t: Vector)
    requires t == Twist(q, v)
    ensures Rotate(q, v) ==
            Vector(v.x + Product(q.w, t.x) + Product(q.y, t.z) - Product(q.z, t.y),
                   v.y + Product(q.w, t.y) + Product(q.z, t.x) - Product(q.x, t.z),
                   v.z + Product(q.w, t.z) + Product(q.x, t.y) - Product(q.y, t.x))
  {
    hide Twist;
  }

  lemma {:induction false} Rearrange()
    ensures forall a, b, c :: Product(a, Product(b, c)) == Product(c, Product(a, b))
  {
    forall a, b, c
      ensures Product(a, Product(b, c)) == Product(c, Product(a, b))
    {
      assert a * (b * c) == c * (a * b);
    }
  }

  /** The program's rotation, multiplied out. */
  lemma {:induction false} RotateParts(q: Quaternion, v: Vector)
    ensures Rotate(q, v).x ==
            v.x - 2.0 * Product(v.x, Product(q.y, q.y)) - 2.0 * Product(v.x, Product(q.z, q.z))
            + 2.0 * Product(v.y, Product(q.x, q.y)) - 2.0 * Product(v.y, Product(q.w, q.z))
            + 2.0 * Product(v.z, Product(q.z, q.x)) + 2.0 * Product(v.z, Product(q.w, q.y))
    ensures Rotate(q, v).y ==
            v.y - 2.0 * Product(v.y, Product(q.z, q.z)) - 2.0 * Product(v.y, Product(q.x, q.x))
            + 2.0 * Product(v.z, Product(q.y, q.z)) - 2.0 * Product(v.z, Product(q.w, q.x))
            + 2.0 * Product(v.x, Product(q.x, q.y)) + 2.0 * Product(v.x, Product(q.w, q.z))
    ensures Rotate(q, v).z ==
            v.z - 2.0 * Product(v.z, Product(q.x, q.x)) - 2.0 * Product(v.z, Product(q.y, q.y))
            + 2.0 * Product(v.x, Product(q.z, q.x)) - 2.0 * Product(v.x, Product(q.w, q.y))
            + 2.0 * Product(v.y, Product(q.y, q.z)) + 2.0 * Product(v.y, Product(q.w, q.x))
  {
    hide Rotate, Twist, Product;
    var t := Twist(q, v);
    TwistParts(q, v);
    RotateTwist(q, v, t);
    Rearrange();
    Commutes();
    TimesMinus(q.w, t.x, Product(q.y, v.z), Product(q.z, v.y));
    TimesMinus(q.y, t.x, Product(q.y, v.z), Product(q.z, v.y));
    TimesMinus(q.z, t.x, Product(q.y, v.z), Product(q.z, v.y));
    TimesMinus(q.w, t.y, Product(q.z, v.x), Product(q.x, v.z));
    TimesMinus(q.x, t.y, Product(q.z, v.x), Product(q.x, v.z));
    TimesMinus(q.z, t.y, Product(q.z, v.x), Product(q.x, v.z));
    TimesMinus(q.w, t.z, Product(q.x, v.y), Product(q.y, v.x));
    TimesMinus(q.x, t.z, Product(q.x, v.y), Product(q.y, v.x));
    TimesMinus(q.y, t.z, Product(q.x, v.y), Product(q.y, v.x));
  }

  lemma {:induction false} NormParts(q: Quaternion)
    ensures Norm(q) == Product(q.x, q.x) + Product(q.y, q.y) + Product(q.z, q.z) + Product(q.w, q.w)
  {
  }

  lemma {:induction false} ColumnXParts(q: Quaternion)
    ensures ColumnX(q).x == Product(q.w, q.w) + Product(q.x, q.x) - Product(q.y, q.y) - Product(q.z, q.z)
    ensures ColumnX(q).y == 2.0 * Product(q.x, q.y) + 2.0 * Product(q.w, q.z)
    ensures ColumnX(q).z == 2.0 * Product(q.z, q.x) - 2.0 * Product(q.w, q.y)
    ensures ColumnX(q).w == 0.0
  {
  }

  lemma {:induction false} ColumnYParts(q: Quaternion)
    ensures ColumnY(q).y == Product(q.w, q.w) + Product(q.y, q.y) - Product(q.z, q.z) - Product(q.x, q.x)
    ensures ColumnY(q).z == 2.0 * Product(q.y, q.z) + 2.0 * Product(q.w, q.x)
    ensures ColumnY(q).x == 2.0 * Product(q.x, q.y) - 2.0 * Product(q.w, q.z)
    ensures ColumnY(q).w == 0.0
  {
  }

  lemma {:induction false} ColumnZParts(q: Quaternion)
    ensures ColumnZ(q).z == Product(q.w, q.w) + Product(q.z, q.z) - Product(q.x, q.x) - Product(q.y, q.y)
    ensures ColumnZ(q).x == 2.0 * Product(q.z, q.x) + 2.0 * Product(q.w, q.y)
    ensures ColumnZ(q).y == 2.0 * Product(q.y, q.z) - 2.0 * Product(q.w, q.x)
    ensures ColumnZ(q).w == 0.0
  {
  }

  lemma {:induction false} TimesDiagonal(s: real, sum: real, a: real, b: real)
    requires sum == 1.0 - 2.0 * a - 2.0 * b
    ensures Product(s, sum) == s - 2.0 * Product(s, a) - 2.0 * Product(s, b)
  {
    assert Product(s, 1.0 - 2.0 * a - 2.0 * b) == s - 2.0 * Product(s, a) - 2.0 * Product(s, b);
  }

  lemma {:induction false} TimesPlus(s: real, sum: real, a: real, b: real)
    requires sum == 2.0 * a + 2.0 * b
    ensures Product(s, sum) == 2.0 * Product(s, a) + 2.0 * Product(s, b)
  {
    assert Product(s, 2.0 * a + 2.0 * b) == 2.0 * Product(s, a) + 2.0 * Product(s, b);
  }

  lemma {:induction false} TimesMinus(s: real, sum: real, a: real, b: real)
    requires sum == 2.0 * a - 2.0 * b
    ensures Product(s, sum) == 2.0 * Product(s, a) - 2.0 * Product(s, b)
  {
    assert Product(s, 2.0 * a - 2.0 * b) == 2.0 * Product(s, a) - 2.0 * Product(s, b);
  }

  lemma {:induction false} TimesZero(s: real)
    ensures Product(s, 0.0) == 0.0
  {
  }

  lemma {:induction false} RotateColumns(q: Quaternion, v: Vector)
    requires Norm(q) == 1.0
    ensures Pure(Rotate(q, v)) == Columns(q, v)
  {
    hide Rotate, Norm, ColumnX, ColumnY, ColumnZ, Scale, Product;
    var cx, cy, cz := ColumnX(q), ColumnY(q), ColumnZ(q);
    RotateParts(q, v);
    NormParts(q);
    ColumnXParts(q);
    ColumnYParts(q);
    ColumnZParts(q);
    ScaledParts(v.x, cx);
    TimesDiagonal(v.x, cx.x, Product(q.y, q.y), Product(q.z, q.z));
    TimesPlus(v.x, cx.y, Product(q.x, q.y), Product(q.w, q.z));
    TimesMinus(v.x, cx.z, Product(q.z, q.x), Product(q.w, q.y));
    TimesZero(v.x);
    ScaledParts(v.y, cy);
    TimesDiagonal(v.y, cy.y, Product(q.z, q.z), Product(q.x, q.x));
    TimesPlus(v.y, cy.z, Product(q.y, q.z), Product(q.w, q.x));
    TimesMinus(v.y, cy.x, Product(q.x, q.y), Product(q.w, q.z));
    TimesZero(v.y);
    ScaledParts(v.z, cz);
    TimesDiagonal(v.z, cz.z, Product(q.x, q.x), Product(q.y, q.y));
    TimesPlus(v.z, cz.x, Product(q.z, q.x), Product(q.w, q.y));
    TimesMinus(v.z, cz.y, Product(q.y, q.z), Product(q.w, q.x));
    TimesZero(v.z);
  }

  /** For a unit quaternion the program's rotation is q v q*. */
  lemma {:induction false} RotateIsSandwich(q: Quaternion, v: Vector)
    requires Norm(q) == 1.0
    ensures Pure(Rotate(q, v)) == Sandwich(q, Pure(v))
  {
    SandwichColumns(q, v);
    RotateColumns(q, v);
  }

  // Rotations.

  lemma {:induction false} UnitProduct(p: Quaternion, q: Quaternion)
    requires Norm(p) == 1.0 && Norm(q) == 1.0
    ensures Norm(Multiply(p, q)) == 1.0
  {
    NormProduct(p, q);
  }

  /** Rotating by a product is rotating twice. */
  lemma {:induction false} RotateTwice(p: Quaternion, q: Quaternion, v: Vector)
    requires Norm(p) == 1.0 && Norm(q) == 1.0
    ensures Rotate(Multiply(p, q), v) == Rotate(p, Rotate(q, v))
  {
    UnitProduct(p, q);
    RotateIsSandwich(Multiply(p, q), v);
    RotateIsSandwich(q, v);
    RotateIsSandwich(p, Rotate(q, v));
    SandwichTwice(p, q, Pure(v));
    assert Pure(Rotate(Multiply(p, q), v)) == Pure(Rotate(p, Rotate(q, v)));
  }

  lemma {:induction false} SandwichTwice(p: Quaternion, q: Quaternion, v: Quaternion)
    ensures Sandwich(Multiply(p, q), v) == Sandwich(p, Sandwich(q, v))
  {
    ConjugateProduct(p, q);
    var qv := Multiply(q, v);
    Associative(p, q, v);
    Associative(Multiply(p, qv), Conjugate(q), Conjugate(p));
    Associative(p, qv, Conjugate(q));
  }

  /** Rotation keeps lengths. */
  lemma {:induction false} RotateKeepsLength(q: Quaternion, v: Vector)
    requires Norm(q) == 1.0
    ensures Square(Rotate(q, v)) == Square(v)
  {
    RotateIsSandwich(q, v);
    NormProduct(Multiply(q, Pure(v)), Conjugate(q));
    NormProduct(q, Pure(v));
    SameNorms(q, v);
    SameNorms(q, Rotate(q, v));
  }

  lemma {:induction false} SameNorms(q: Quaternion, v: Vector)
    ensures Norm(Pure(v)) == Square(v) && Norm(Conjugate(q)) == Norm(q)
  {
  }

  lemma {:induction false} ScaleAdds(s: real, t: real, q: Quaternion)
    ensures Scale(s + t, q) == Add(Scale(s, q), Scale(t, q))
  {
  }

  lemma {:induction false} RotateAdds(q: Quaternion, a: Vector, b: Vector)
    requires Norm(q) == 1.0
    ensures Rotate(q, Plus(a, b)) == Plus(Rotate(q, a), Rotate(q, b))
  {
    RotateColumns(q, a);
    RotateColumns(q, b);
    RotateColumns(q, Plus(a, b));
    ScaleAdds(a.x, b.x, ColumnX(q));
    ScaleAdds(a.y, b.y, ColumnY(q));
    ScaleAdds(a.z, b.z, ColumnZ(q));
    assert Pure(Rotate(q, Plus(a, b))) == Add(Pure(Rotate(q, a)), Pure(Rotate(q, b)));
  }

  // Roll, pitch and yaw.

  lemma {:induction false} HalfAnglesAreUnit(cr: real, sr: real, cp: real, sp: real, cy: real, sy: real)
    requires cr * cr + sr * sr == 1.0 && cp * cp + sp * sp == 1.0 && cy * cy + sy * sy == 1.0
    ensures Norm(FromHalfAngles(cr, sr, cp, sp, cy, sy)) == 1.0
    ensures FromHalfAngles(cr, sr, cp, sp, cy, sy) ==
            Multiply(Multiply(Quaternion(0.0, 0.0, sy, cy), Quaternion(0.0, sp, 0.0, cp)), Quaternion(sr, 0.0, 0.0, cr))
  {
    var yaw, pitch, roll := Quaternion(0.0, 0.0, sy, cy), Quaternion(0.0, sp, 0.0, cp), Quaternion(sr, 0.0, 0.0, cr);
    UnitProduct(yaw, pitch);
    UnitProduct(Multiply(yaw, pitch), roll);
  }

  /** The angles' quaternion is a unit, and turns about x by roll, then y by pitch, then z by yaw. */
  lemma {:induction false} FromRpyTurns(t: Trig, roll: real, pitch: real, yaw: real, v: Vector)
    requires IsTrig(t)
    ensures Norm(FromRpy(t, roll, pitch, yaw)) == 1.0
    ensures Rotate(FromRpy(t, roll, pitch, yaw), v) ==
            Rotate(AboutZ(t, yaw), Rotate(AboutY(t, pitch), Rotate(AboutX(t, roll), v)))
  {
    var x, y, z := AboutX(t, roll), AboutY(t, pitch), AboutZ(t, yaw);
    HalfAnglesAreUnit(x.w, x.x, y.w, y.y, z.w, z.z);
    UnitProduct(z, y);
    RotateTwice(Multiply(z, y), x, v);
    RotateTwice(z, y, Rotate(x, v));
  }

  function AboutX(t: Trig, angle: real): Quaternion {
    Quaternion(t.sin(angle * 0.5), 0.0, 0.0, t.cos(angle * 0.5))
  }

  function AboutY(t: Trig, angle: real): Quaternion {
    Quaternion(0.0, t.sin(angle * 0.5), 0.0, t.cos(angle * 0.5))
  }

  function AboutZ(t: Trig, angle: real): Quaternion {
    Quaternion(0.0, 0.0, t.sin(angle * 0.5), t.cos(angle * 0.5))
  }

  // Chains.

  datatype Transform = Transform(position: Vector, rotation: Quaternion)

  const IDENTITY := Transform(Vector(0.0, 0.0, 0.0), Quaternion(0.0, 0.0, 0.0, 1.0))

  function Apply(t: Transform, v: Vector): Vector {
    Plus(t.position, Rotate(t.rotation, v))
  }

  function Compose(a: Transform, b: Transform): Transform {
    Transform(Apply(a, b.position), Multiply(a.rotation, b.rotation))
  }

  function Step(trig: Trig, pose: Pose): Transform {
    Transform(pose.position, FromRpy(trig, pose.roll, pose.pitch, pose.yaw))
  }

  function Chain(trig: Trig, poses: seq<Pose>): Transform {
    if poses == [] then IDENTITY
    else Compose(Chain(trig, poses[..|poses| - 1]), Step(trig, poses[|poses| - 1]))
  }

  /** `_compose_pose_chain`. */
  method ComposePoseChain(trig: Trig, poses: seq<Pose>) returns (position: Vector, quaternion: Quaternion)
    ensures Transform(position, quaternion) == Chain(trig, poses)
  {
    position, quaternion := Vector(0.0, 0.0, 0.0), Quaternion(0.0, 0.0, 0.0, 1.0);
    for i := 0 to |poses|
      invariant Transform(position, quaternion) == Chain(trig, poses[..i])
    {
      assert poses[..i + 1][..i] == poses[..i];
      var rotated := Rotate(quaternion, poses[i].position);
      position := Plus(position, rotated);
      quaternion := Multiply(quaternion, FromRpy(trig, poses[i].roll, poses[i].pitch, poses[i].yaw));
    }
    assert poses[..|poses|] == poses;
  }

  lemma {:induction false} StepIsUnit(trig: Trig, pose: Pose)
    requires IsTrig(trig)
    ensures Norm(Step(trig, pose).rotation) == 1.0
  {
    FromRpyTurns(trig, pose.roll, pose.pitch, pose.yaw, pose.position);
  }

  /** Every chain's quaternion is a unit. */
  lemma {:induction false} ChainIsUnit(trig: Trig, poses: seq<Pose>)
    requires IsTrig(trig)
    ensures Norm(Chain(trig, poses).rotation) == 1.0
  {
    if poses != [] {
      var n := |poses| - 1;
      ChainIsUnit(trig, poses[..n]);
      StepIsUnit(trig, poses[n]);
      UnitProduct(Chain(trig, poses[..n]).rotation, Step(trig, poses[n]).rotation);
    }
  }

  /** Applying a composition is applying the second transform, then the first. */
  lemma {:induction false} ComposeApplies(a: Transform, b: Transform, v: Vector)
    requires Norm(a.rotation) == 1.0 && Norm(b.rotation) == 1.0
    ensures Apply(Compose(a, b), v) == Apply(a, Apply(b, v))
  {
    RotateTwice(a.rotation, b.rotation, v);
    RotateAdds(a.rotation, b.position, Rotate(b.rotation, v));
    PlusAssociates(a.position, Rotate(a.rotation, b.position), Rotate(a.rotation, Rotate(b.rotation, v)));
  }

  lemma {:induction false} PlusAssociates(a: Vector, b: Vector, c: Vector)
    ensures Plus(Plus(a, b), c) == Plus(a, Plus(b, c))
  {
  }

  lemma {:induction false} ComposeAssociates(a: Transform, b: Transform, c: Transform)
    requires Norm(a.rotation) == 1.0 && Norm(b.rotation) == 1.0
    ensures Compose(Compose(a, b), c) == Compose(a, Compose(b, c))
  {
    ComposeApplies(a, b, c.position);
    Associative(a.rotation, b.rotation, c.rotation);
  }

  lemma {:induction false} ComposeIdentity(a: Transform)
    ensures Compose(a, IDENTITY) == a
  {
  }

  /** The pose of a concatenated chain is the composition of the two chains' poses. */
  lemma {:induction false} ChainsCompose(trig: Trig, a: seq<Pose>, b: seq<Pose>)
    requires IsTrig(trig)
    ensures Chain(trig, a + b) == Compose(Chain(trig, a), Chain(trig, b))
  {
    if b == [] {
      assert a + b == a;
      ComposeIdentity(Chain(trig, a));
    } else {
      var n := |b| - 1;
      assert (a + b)[..|a + b| - 1] == a + b[..n];
      ChainsCompose(trig, a, b[..n]);
      ChainIsUnit(trig, a);
      ChainIsUnit(trig, b[..n]);
      ComposeAssociates(Chain(trig, a), Chain(trig, b[..n]), Step(trig, b[n]));
    }
  }

  /** A chain's pose moves points rigidly. */
  lemma {:induction false} ChainIsRigid(trig: Trig, poses: seq<Pose>, v: Vector, w: Vector)
    requires IsTrig(trig)
    ensures var t := Chain(trig, poses); Square(Minus(Apply(t, v), Apply(t, w))) == Square(Minus(v, w))
  {
    var t := Chain(trig, poses);
    ChainIsUnit(trig, poses);
    RotateKeepsLength(t.rotation, Minus(v, w));
    RotateAdds(t.rotation, w, Minus(v, w));
    assert Plus(w, Minus(v, w)) == v;
    var d := Rotate(t.rotation, Minus(v, w));
    assert Minus(Apply(t, v), Apply(t, w)) == d;
  }
}
