/** Box_T: an axis-aligned bounding box stored as its two corners min_ and max_.
    BoxValue is the value of a box; the class Box holds the two corners as fields
    and its compound-assignment operators update them in place. */
module Boxes {
  import opened Vectors

  datatype BoxValue = BoxValue(lo: Vec3, hi: Vec3)

  /** The invariant the normalising constructor establishes: min <= max on every axis. */
  predicate Normalised(b: BoxValue) { Le(b.lo, b.hi) }

  predicate Contains(b: BoxValue, p: Vec3) { Le(b.lo, p) && Le(p, b.hi) }

  /** Every point of inner (as a corner range) lies inside outer. */
  predicate Encloses(outer: BoxValue, inner: BoxValue) { Le(outer.lo, inner.lo) && Le(inner.hi, outer.hi) }

  // ---------------------------------------------------------------------------
  // Pure operations

  /** Box_T(vMin, vMax): the corners are sorted axis by axis. */
  function Make(a: Vec3, b: Vec3): (r: BoxValue)
    ensures Normalised(r)
    ensures IsMinOf(r.lo.x, a.x, b.x) && IsMinOf(r.lo.y, a.y, b.y) && IsMinOf(r.lo.z, a.z, b.z)
    ensures IsMaxOf(r.hi.x, a.x, b.x) && IsMaxOf(r.hi.y, a.y, b.y) && IsMaxOf(r.hi.z, a.z, b.z)
  {
    BoxValue(MinV(a, b), MaxV(a, b))
  }

  /** operator+= (Vector): both corners move by v. */
  function Translate(b: BoxValue, v: Vec3): (r: BoxValue)
    ensures Sub(r.lo, v) == b.lo && Sub(r.hi, v) == b.hi
    ensures Width(r) == Width(b) && Height(r) == Height(b) && Depth(r) == Depth(b)
  {
    BoxValue(Add(b.lo, v), Add(b.hi, v))
  }

  /** operator-= (Vector): both corners move by -v. */
  function Untranslate(b: BoxValue, v: Vec3): (r: BoxValue)
    ensures Add(r.lo, v) == b.lo && Add(r.hi, v) == b.hi
    ensures Width(r) == Width(b) && Height(r) == Height(b) && Depth(r) == Depth(b)
  {
    BoxValue(Sub(b.lo, v), Sub(b.hi, v))
  }

  /** operator*= (scalar): both corners scaled, without re-sorting them. */
  function ScaleBy(b: BoxValue, k: real): (r: BoxValue)
    ensures k == 1.0 ==> r == b
    ensures k == 0.0 ==> r.lo == Zero() && r.hi == Zero()
  {
    BoxValue(Scale(b.lo, k), Scale(b.hi, k))
  }

  /** operator&=: max of the mins, min of the maxes, without re-sorting. */
  function Intersect(a: BoxValue, b: BoxValue): (r: BoxValue)
    ensures Le(a.lo, r.lo) && Le(b.lo, r.lo) && Le(r.hi, a.hi) && Le(r.hi, b.hi)
    ensures IsMaxOf(r.lo.x, a.lo.x, b.lo.x) && IsMaxOf(r.lo.y, a.lo.y, b.lo.y) && IsMaxOf(r.lo.z, a.lo.z, b.lo.z)
    ensures IsMinOf(r.hi.x, a.hi.x, b.hi.x) && IsMinOf(r.hi.y, a.hi.y, b.hi.y) && IsMinOf(r.hi.z, a.hi.z, b.hi.z)
  {
    BoxValue(MaxV(a.lo, b.lo), MinV(a.hi, b.hi))
  }

  /** operator|=: min of the mins, max of the maxes. */
  function Union(a: BoxValue, b: BoxValue): (r: BoxValue)
    ensures Encloses(r, a) && Encloses(r, b)
    ensures IsMinOf(r.lo.x, a.lo.x, b.lo.x) && IsMinOf(r.lo.y, a.lo.y, b.lo.y) && IsMinOf(r.lo.z, a.lo.z, b.lo.z)
    ensures IsMaxOf(r.hi.x, a.hi.x, b.hi.x) && IsMaxOf(r.hi.y, a.hi.y, b.hi.y) && IsMaxOf(r.hi.z, a.hi.z, b.hi.z)
  {
    BoxValue(MinV(a.lo, b.lo), MaxV(a.hi, b.hi))
  }

  /** operator==: both corners equal, componentwise. */
  function Equals(a: BoxValue, b: BoxValue): (r: bool)
    ensures r <==> a == b
  {
    a.lo.x == b.lo.x && a.lo.y == b.lo.y && a.lo.z == b.lo.z &&
    a.hi.x == b.hi.x && a.hi.y == b.hi.y && a.hi.z == b.hi.z
  }

  /** Unary operator+: a copy of the box. */
  function Identity(b: BoxValue): (r: BoxValue)
    ensures Equals(r, b)
  {
    b
  }

  /** Unary operator-: Box_T(-Min, -Max), which goes through the normalising constructor. */
  function Negate(b: BoxValue): (r: BoxValue)
    ensures Normalised(r)
    ensures Normalised(b) ==> r.lo == Neg(b.hi) && r.hi == Neg(b.lo)
  {
    Make(Neg(b.lo), Neg(b.hi))
  }

  /** Width, Height, Depth: the extent along x, y, z; negative exactly when the
      corners are inverted on that axis. */
  function Width(b: BoxValue): (w: real)
    ensures w >= 0.0 <==> b.lo.x <= b.hi.x
    ensures w == 0.0 <==> b.lo.x == b.hi.x
  {
    b.hi.x - b.lo.x
  }

  function Height(b: BoxValue): (h: real)
    ensures h >= 0.0 <==> b.lo.y <= b.hi.y
    ensures h == 0.0 <==> b.lo.y == b.hi.y
  {
    b.hi.y - b.lo.y
  }

  function Depth(b: BoxValue): (d: real)
    ensures d >= 0.0 <==> b.lo.z <= b.hi.z
    ensures d == 0.0 <==> b.lo.z == b.hi.z
  {
    b.hi.z - b.lo.z
  }

  /** IsEmpty: Min() == Max(), a single point. */
  function IsEmpty(b: BoxValue): (e: bool)
    ensures e ==> Normalised(b)
    ensures e <==> forall p :: Contains(b, p) <==> p == b.lo
  {
    assert Contains(b, b.lo) <==> Normalised(b);
    assert Contains(b, b.hi) <==> Normalised(b);
    b.lo == b.hi
  }

  /** Center: (min + max) / 2, half-way between the corners on every axis. */
  function Center(b: BoxValue): (c: Vec3)
    ensures c.x - b.lo.x == b.hi.x - c.x
    ensures c.y - b.lo.y == b.hi.y - c.y
    ensures c.z - b.lo.z == b.hi.z - c.z
  {
    Scale(Add(b.lo, b.hi), 0.5)
  }

  /** MaxRadiusSq: std::max of the squared lengths of Max() and Min(). */
  function MaxRadiusSq(b: BoxValue): (r: real)
    ensures r >= LengthSq(b.lo) && r >= LengthSq(b.hi)
    ensures r == LengthSq(b.lo) || r == LengthSq(b.hi)
  {
    Max(LengthSq(b.hi), LengthSq(b.lo))
  }

  // The eight named corners. Left/Right pick x, Bottom/Top pick y, Near/Far pick z.
  // Each accessor is the reference corner of its flags.
  function LeftBottomNear(b: BoxValue): (p: Vec3) ensures p == CornerFrom(b, false, false, false) { b.lo }
  function LeftTopNear(b: BoxValue): (p: Vec3) ensures p == CornerFrom(b, false, true, false) { Vec3(b.lo.x, b.hi.y, b.lo.z) }
  function RightBottomNear(b: BoxValue): (p: Vec3) ensures p == CornerFrom(b, true, false, false) { Vec3(b.hi.x, b.lo.y, b.lo.z) }
  function RightTopNear(b: BoxValue): (p: Vec3) ensures p == CornerFrom(b, true, true, false) { Vec3(b.hi.x, b.hi.y, b.lo.z) }
  function LeftBottomFar(b: BoxValue): (p: Vec3) ensures p == CornerFrom(b, false, false, true) { Vec3(b.lo.x, b.lo.y, b.hi.z) }
  function LeftTopFar(b: BoxValue): (p: Vec3) ensures p == CornerFrom(b, false, true, true) { Vec3(b.lo.x, b.hi.y, b.hi.z) }
  function RightBottomFar(b: BoxValue): (p: Vec3) ensures p == CornerFrom(b, true, false, true) { Vec3(b.hi.x, b.lo.y, b.hi.z) }
  function RightTopFar(b: BoxValue): (p: Vec3) ensures p == CornerFrom(b, true, true, true) { b.hi }

  /** operator[]: corners 0..7 in the order of the switch; any other index is a
      debug assertion failure that, in a release build, yields the zero vector. */
  function Corner(b: BoxValue, i: nat): (p: Vec3)
    ensures i < 8 ==> (p.x == b.lo.x || p.x == b.hi.x) && (p.y == b.lo.y || p.y == b.hi.y) && (p.z == b.lo.z || p.z == b.hi.z)
    ensures i > 7 ==> p == Zero()
  {
    match i
    case 0 => LeftBottomNear(b)
    case 1 => LeftTopNear(b)
    case 2 => RightTopNear(b)
    case 3 => RightBottomNear(b)
    case 4 => LeftBottomFar(b)
    case 5 => LeftTopFar(b)
    case 6 => RightTopFar(b)
    case 7 => RightBottomFar(b)
    case _ => Zero()
  }

  /** Reference definition of a corner: each axis picks Max() when its flag is set, Min() otherwise. */
  function CornerFrom(b: BoxValue, right: bool, top: bool, far: bool): Vec3 {
    Vec3(if right then b.hi.x else b.lo.x,
         if top then b.hi.y else b.lo.y,
         if far then b.hi.z else b.lo.z)
  }

  /** The operator[] index of the corner with the given flags, read off the switch. */
  function CornerIndex(right: bool, top: bool, far: bool): (i: nat)
    ensures i < 8
  {
    (if far then 4 else 0) +
    (if right && top then 2 else if right then 3 else if top then 1 else 0)
  }

  // ---------------------------------------------------------------------------
  // Properties

  /** The constructor does not care about argument order, and a box built from
      the corners of a normalised box is that box. */
  lemma MakeSymmetric(a: Vec3, b: Vec3)
    ensures Make(a, b) == Make(b, a)
  {
  }

  lemma MakeOfNormalised(b: BoxValue)
    requires Normalised(b)
    ensures Make(b.lo, b.hi) == b
  {
  }

  /** Make(a, b) is the smallest box holding both arguments. */
  lemma MakeIsSmallest(a: Vec3, b: Vec3, c: BoxValue)
    ensures Contains(Make(a, b), a) && Contains(Make(a, b), b)
    ensures Contains(c, a) && Contains(c, b) ==> Encloses(c, Make(a, b))
  {
  }

  /** += then -= by the same vector restores the box; both keep the extents. */
  lemma TranslateRoundTrip(b: BoxValue, v: Vec3)
    ensures Untranslate(Translate(b, v), v) == b
    ensures Translate(Untranslate(b, v), v) == b
  {
  }

  lemma TranslateKeepsExtents(b: BoxValue, v: Vec3)
    ensures Width(Translate(b, v)) == Width(b) && Height(Translate(b, v)) == Height(b) && Depth(Translate(b, v)) == Depth(b)
    ensures Width(Untranslate(b, v)) == Width(b) && Height(Untranslate(b, v)) == Height(b) && Depth(Untranslate(b, v)) == Depth(b)
    ensures Normalised(Translate(b, v)) <==> Normalised(b)
    ensures Normalised(Untranslate(b, v)) <==> Normalised(b)
  {
  }

  lemma TranslateMovesPoints(b: BoxValue, v: Vec3, p: Vec3)
    ensures Contains(Translate(b, v), Add(p, v)) <==> Contains(b, p)
    ensures Center(Translate(b, v)) == Add(Center(b), v)
  {
  }

  /** |= contains both operands and is their least upper bound. */
  lemma UnionEncloses(a: BoxValue, b: BoxValue, c: BoxValue)
    ensures Encloses(Union(a, b), a) && Encloses(Union(a, b), b)
    ensures Encloses(c, a) && Encloses(c, b) ==> Encloses(c, Union(a, b))
    ensures Normalised(a) || Normalised(b) ==> Normalised(Union(a, b))
  {
  }

  lemma UnionIdempotentCommutative(a: BoxValue, b: BoxValue)
    ensures Union(a, a) == a
    ensures Union(a, b) == Union(b, a)
  {
  }

  /** &= holds exactly the points both operands hold. */
  lemma IntersectPoints(a: BoxValue, b: BoxValue, p: Vec3)
    ensures Contains(Intersect(a, b), p) <==> Contains(a, p) && Contains(b, p)
  {
  }

  /** &= is not renormalised: of two normalised boxes it is normalised exactly
      when they overlap on every axis, so disjoint boxes give min > max somewhere. */
  lemma IntersectNormalisedIffOverlap(a: BoxValue, b: BoxValue)
    requires Normalised(a) && Normalised(b)
    ensures Normalised(Intersect(a, b)) <==>
      (a.lo.x <= b.hi.x && b.lo.x <= a.hi.x &&
       a.lo.y <= b.hi.y && b.lo.y <= a.hi.y &&
       a.lo.z <= b.hi.z && b.lo.z <= a.hi.z)
  {
  }

  /** A concrete pair of disjoint boxes whose intersection is inverted on x. */
  lemma IntersectOfDisjointIsInverted()
    ensures var a := Make(Vec3(0.0, 0.0, 0.0), Vec3(1.0, 1.0, 1.0));
            var b := Make(Vec3(2.0, 0.0, 0.0), Vec3(3.0, 1.0, 1.0));
            var i := Intersect(a, b);
            i.lo.x == 2.0 && i.hi.x == 1.0 && !Normalised(i)
  {
  }

  /** *= by a non-negative scalar keeps min <= max; a negative one inverts every axis. */
  lemma ScaleOrder(b: BoxValue, k: real)
    requires Normalised(b)
    ensures k >= 0.0 ==> Normalised(ScaleBy(b, k))
    ensures k < 0.0 ==> Le(ScaleBy(b, k).hi, ScaleBy(b, k).lo)
    ensures k < 0.0 && b.lo.x < b.hi.x ==> ScaleBy(b, k).hi.x < ScaleBy(b, k).lo.x
    ensures k < 0.0 && b.lo.y < b.hi.y ==> ScaleBy(b, k).hi.y < ScaleBy(b, k).lo.y
    ensures k < 0.0 && b.lo.z < b.hi.z ==> ScaleBy(b, k).hi.z < ScaleBy(b, k).lo.z
  {
    if k < 0.0 {
      ScaleFlips(b.lo.x, b.hi.x, k);
      ScaleFlips(b.lo.y, b.hi.y, k);
      ScaleFlips(b.lo.z, b.hi.z, k);
    } else {
      ScaleKeeps(b.lo.x, b.hi.x, k);
      ScaleKeeps(b.lo.y, b.hi.y, k);
      ScaleKeeps(b.lo.z, b.hi.z, k);
    }
  }

  lemma ScaleFlips(l: real, h: real, k: real)
    requires l <= h && k < 0.0
    ensures h * k <= l * k
    ensures l < h ==> h * k < l * k
  {
    assert h * k - l * k == (h - l) * k;
  }

  lemma ScaleKeeps(l: real, h: real, k: real)
    requires l <= h && k >= 0.0
    ensures l * k <= h * k
  {
    assert h * k - l * k == (h - l) * k;
  }

  /** *= multiplies every extent by the scalar; /= r is *= (1/r), undone by *= r. */
  lemma ScaleExtents(b: BoxValue, k: real)
    ensures Width(ScaleBy(b, k)) == Width(b) * k
    ensures Height(ScaleBy(b, k)) == Height(b) * k
    ensures Depth(ScaleBy(b, k)) == Depth(b) * k
  {
    assert b.hi.x * k - b.lo.x * k == (b.hi.x - b.lo.x) * k;
    assert b.hi.y * k - b.lo.y * k == (b.hi.y - b.lo.y) * k;
    assert b.hi.z * k - b.lo.z * k == (b.hi.z - b.lo.z) * k;
  }

  lemma DivideRoundTrip(b: BoxValue, r: real)
    requires r != 0.0
    ensures ScaleBy(ScaleBy(b, 1.0 / r), r) == b
  {
    assert (1.0 / r) * r == 1.0;
    assert b.lo.x * (1.0 / r) * r == b.lo.x;
    assert b.lo.y * (1.0 / r) * r == b.lo.y;
    assert b.lo.z * (1.0 / r) * r == b.lo.z;
    assert b.hi.x * (1.0 / r) * r == b.hi.x;
    assert b.hi.y * (1.0 / r) * r == b.hi.y;
    assert b.hi.z * (1.0 / r) * r == b.hi.z;
  }

  /** Unary -: the new min is -old max and the new max is -old min; it mirrors
      the points and applying it twice gives the box back. */
  lemma NegateNormalised(b: BoxValue, p: Vec3)
    requires Normalised(b)
    ensures Negate(b) == BoxValue(Neg(b.hi), Neg(b.lo))
    ensures Negate(Negate(b)) == b
    ensures Contains(Negate(b), Neg(p)) <==> Contains(b, p)
  {
  }

  /** Unary - always yields a normalised box, whatever its operand. */
  lemma NegateIsNormalised(b: BoxValue)
    ensures Normalised(Negate(b))
    ensures Width(Negate(b)) >= 0.0 && Height(Negate(b)) >= 0.0 && Depth(Negate(b)) >= 0.0
  {
  }

  /** operator[] enumerates the reference corners: index i has the flags read off
      the switch, 0 is Min() and 6 is Max(), and indices past 7 give zero. */
  lemma CornerMatchesFlags(b: BoxValue, right: bool, top: bool, far: bool)
    ensures Corner(b, CornerIndex(right, top, far)) == CornerFrom(b, right, top, far)
  {
  }

  lemma CornerEnds(b: BoxValue, i: nat)
    ensures Corner(b, 0) == b.lo && Corner(b, 6) == b.hi
    ensures i > 7 ==> Corner(b, i) == Zero()
  {
  }

  /** The eight indices reach eight different flag choices, so every corner
      is listed exactly once. */
  lemma CornerIndexInjective(r1: bool, t1: bool, f1: bool, r2: bool, t2: bool, f2: bool)
    ensures CornerIndex(r1, t1, f1) == CornerIndex(r2, t2, f2) ==> r1 == r2 && t1 == t2 && f1 == f2
  {
  }

  /** Every component of a corner comes from Min() or Max(), so the corners of a
      normalised box lie in the box. */
  lemma CornerInBox(b: BoxValue, i: nat)
    requires i < 8
    ensures exists right: bool, top: bool, far: bool :: Corner(b, i) == CornerFrom(b, right, top, far)
    ensures Normalised(b) ==> Contains(b, Corner(b, i))
  {
    var right, top, far :=
      i == 2 || i == 3 || i == 6 || i == 7,
      i == 1 || i == 2 || i == 5 || i == 6,
      i >= 4;
    assert Corner(b, i) == CornerFrom(b, right, top, far);
  }

  /** The named accessors are the corners of operator[]. */
  lemma CornerAccessors(b: BoxValue)
    ensures LeftBottomNear(b) == Corner(b, 0) && LeftTopNear(b) == Corner(b, 1)
    ensures RightTopNear(b) == Corner(b, 2) && RightBottomNear(b) == Corner(b, 3)
    ensures LeftBottomFar(b) == Corner(b, 4) && LeftTopFar(b) == Corner(b, 5)
    ensures RightTopFar(b) == Corner(b, 6) && RightBottomFar(b) == Corner(b, 7)
    ensures LeftTopNear(b) == CornerFrom(b, false, true, false) && RightBottomFar(b) == CornerFrom(b, true, false, true)
  {
  }

  /** The extents are all non-negative exactly when the box is normalised. */
  lemma ExtentsNonNegativeIffNormalised(b: BoxValue)
    ensures Normalised(b) <==> Width(b) >= 0.0 && Height(b) >= 0.0 && Depth(b) >= 0.0
  {
  }

  /** IsEmpty holds exactly when all three extents are zero. */
  lemma EmptyIffZeroExtents(b: BoxValue)
    ensures IsEmpty(b) <==> Width(b) == 0.0 && Height(b) == 0.0 && Depth(b) == 0.0
    ensures IsEmpty(b) ==> Normalised(b) && Contains(b, b.lo)
  {
  }

  /** The centre lies in a normalised box, half-way along every axis. */
  lemma CenterInBox(b: BoxValue)
    requires Normalised(b)
    ensures Contains(b, Center(b))
    ensures Center(b).x - b.lo.x == b.hi.x - Center(b).x
    ensures Center(b).y - b.lo.y == b.hi.y - Center(b).y
    ensures Center(b).z - b.lo.z == b.hi.z - Center(b).z
    ensures Center(Negate(b)) == Neg(Center(b))
  {
  }

  /** MaxRadiusSq is the larger of the squared lengths of the two stored corners. */
  lemma MaxRadiusSqOfStoredCorners(b: BoxValue)
    ensures MaxRadiusSq(b) >= LengthSq(b.lo) && MaxRadiusSq(b) >= LengthSq(b.hi)
    ensures MaxRadiusSq(b) == LengthSq(b.lo) || MaxRadiusSq(b) == LengthSq(b.hi)
    ensures MaxRadiusSq(b) >= 0.0
  {
  }

  /** It bounds every point of a normalised box that lies in the non-negative octant ... */
  lemma MaxRadiusSqBoundsPositiveBox(b: BoxValue, p: Vec3)
    requires Normalised(b) && Le(Zero(), b.lo) && Contains(b, p)
    ensures LengthSq(p) <= MaxRadiusSq(b)
  {
    SquareMonotone(p.x, b.hi.x);
    SquareMonotone(p.y, b.hi.y);
    SquareMonotone(p.z, b.hi.z);
  }

  lemma SquareMonotone(a: real, c: real)
    requires 0.0 <= a <= c
    ensures a * a <= c * c
  {
    assert c * c - a * a == (c - a) * (c + a);
  }

  /** ... but not in general: a mixed corner can lie further from the origin than
      both stored corners. */
  lemma MaxRadiusSqMissesMixedCorner()
    ensures var b := Make(Vec3(-1.0, 0.0, 0.0), Vec3(0.0, 1.0, 0.0));
            Normalised(b) && LengthSq(Corner(b, 1)) == 2.0 && MaxRadiusSq(b) == 1.0
  {
  }

  // ---------------------------------------------------------------------------
  // The object: min_ and max_ as fields, the compound assignments in place.

  class Box {
    var lo: Vec3
    var hi: Vec3

    function Value(): BoxValue
      reads this
    {
      BoxValue(lo, hi)
    }

    /** Box_T(vMin, vMax) */
    constructor (vMin: Vec3, vMax: Vec3)
      ensures Value() == Make(vMin, vMax)
    {
      lo := MinV(vMin, vMax);
      hi := MaxV(vMin, vMax);
    }

    /** Box_T(Box_T const & rhs) */
    constructor Copy(rhs: Box)
      ensures Value() == rhs.Value()
    {
      lo := rhs.lo;
      hi := rhs.hi;
    }

    /** operator+= */
    method AddAssign(v: Vec3)
      modifies this
      ensures Value() == Translate(old(Value()), v)
    {
      lo := Add(lo, v);
      hi := Add(hi, v);
    }

    /** operator-= */
    method SubAssign(v: Vec3)
      modifies this
      ensures Value() == Untranslate(old(Value()), v)
    {
      lo := Sub(lo, v);
      hi := Sub(hi, v);
    }

    /** operator*= */
    method MulAssign(k: real)
      modifies this
      ensures Value() == ScaleBy(old(Value()), k)
    {
      lo := Scale(lo, k);
      hi := Scale(hi, k);
    }

    /** operator/=: forwards to *= with the reciprocal. */
    method DivAssign(r: real)
      requires r != 0.0
      modifies this
      ensures Value() == ScaleBy(old(Value()), 1.0 / r)
    {
      MulAssign(1.0 / r);
    }

    /** operator&= */
    method AndAssign(rhs: Box)
      modifies this
      ensures Value() == Intersect(old(Value()), old(rhs.Value()))
    {
      var newLo := MaxV(lo, rhs.lo);
      lo := newLo;
      hi := MinV(hi, rhs.hi);
    }

    /** operator|= */
    method OrAssign(rhs: Box)
      modifies this
      ensures Value() == Union(old(Value()), old(rhs.Value()))
    {
      var newLo := MinV(lo, rhs.lo);
      lo := newLo;
      hi := MaxV(hi, rhs.hi);
    }

    /** operator=: copies both corners unless assigning to itself. */
    method Assign(rhs: Box)
      modifies this
      ensures Value() == old(rhs.Value())
    {
      if this != rhs {
        lo := rhs.lo;
        hi := rhs.hi;
      }
    }
  }

  /** A caller's view of the in-place operators: += v then -= v leaves the box as
      it was, and b |= b leaves b unchanged. */
  method TranslateThenUntranslate(b: Box, v: Vec3)
    modifies b
    ensures b.Value() == old(b.Value())
  {
    b.AddAssign(v);
    b.SubAssign(v);
    TranslateRoundTrip(old(b.Value()), v);
  }

  method UnionWithSelf(b: Box)
    modifies b
    ensures b.Value() == old(b.Value())
  {
    b.OrAssign(b);
    UnionIdempotentCommutative(old(b.Value()), old(b.Value()));
  }
}
