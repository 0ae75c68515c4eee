/*
 * A mutable three-component vector.  Every arithmetic operation updates the
 * receiver in place and hands back the receiver itself, so that calls can be
 * chained; the argument is only read (unless it is the receiver itself, in
 * which case it sees the updates as they happen).
 *
 * Components are exact reals: the model does not capture floating-point
 * rounding, and square roots are taken as given (see Vector.Hat).
 */
module Vectors {
  import opened Wrappers
  import Misc

  /** The value held by a vector at one moment. */
  datatype Vec3 = Vec3(x: real, y: real, z: real)

  const Origin := Vec3(0.0, 0.0, 0.0)

  /** Errors a vector operation can raise. */
  datatype VectorError = ZeroDivision

  // ---------------------------------------------------------------------
  // Specification functions on values
  // ---------------------------------------------------------------------

  function Plus(a: Vec3, b: Vec3): Vec3 {
    Vec3(a.x + b.x, a.y + b.y, a.z + b.z)
  }

  function Minus(a: Vec3, b: Vec3): Vec3 {
    Vec3(a.x - b.x, a.y - b.y, a.z - b.z)
  }

  function Scale(a: Vec3, k: real): Vec3 {
    Vec3(a.x * k, a.y * k, a.z * k)
  }

  function Quotient(a: Vec3, d: real): Vec3
    requires d != 0.0
  {
    Vec3(a.x / d, a.y / d, a.z / d)
  }

  function Dot3(a: Vec3, b: Vec3): real {
    a.x * b.x + a.y * b.y + a.z * b.z
  }

  /** The textbook cross product. */
  function CrossProduct(a: Vec3, b: Vec3): Vec3 {
    Vec3(a.y * b.z - a.z * b.y, a.z * b.x - a.x * b.z, a.x * b.y - a.y * b.x)
  }

  /** One component of the in-place cross product: p * q - (r - s). */
  function CrossTerm(p: real, q: real, r: real, s: real): real {
    p * q - (r - s)
  }

  /**
   * What the in-place cross product computes when the argument is a
   * different vector: each component is overwritten in turn, the later
   * components read the already-updated ones, and the subtractions pair the
   * wrong factors.
   */
  function CrossAsWritten(a: Vec3, b: Vec3): Vec3 {
    var x := CrossTerm(a.y, b.z, b.y, a.z);
    var y := CrossTerm(a.z, b.x, b.z, x);
    var z := CrossTerm(x, b.y, b.x, y);
    Vec3(x, y, z)
  }

  /** The same computation when the argument is the receiver itself. */
  function CrossSelfAsWritten(a: Vec3): Vec3 {
    var x := CrossTerm(a.y, a.z, a.y, a.z);
    var y := CrossTerm(a.z, x, a.z, x);
    var z := CrossTerm(x, y, x, y);
    Vec3(x, y, z)
  }

  // ---------------------------------------------------------------------
  // Laws of the value operations
  // ---------------------------------------------------------------------

  /** Subtracting what was added gives back the original vector. */
  lemma SubtractUndoesAdd(a: Vec3, b: Vec3)
    ensures Minus(Plus(a, b), b) == a
    ensures Plus(Minus(a, b), b) == a
  {
  }

  /** Dividing by the factor a vector was multiplied with gives it back. */
  lemma DivideUndoesMultiply(a: Vec3, k: real)
    requires k != 0.0
    ensures Quotient(Scale(a, k), k) == a
  {
    Misc.CancelSame(a.x, k);
    Misc.CancelSame(a.y, k);
    Misc.CancelSame(a.z, k);
  }

  /** The dot product does not depend on the order of its arguments. */
  lemma DotSymmetric(a: Vec3, b: Vec3)
    ensures Dot3(a, b) == Dot3(b, a)
  {
  }

  /** The textbook cross product is perpendicular to both of its arguments. */
  lemma CrossProductPerpendicular(a: Vec3, b: Vec3)
    ensures Dot3(CrossProduct(a, b), a) == 0.0
    ensures Dot3(CrossProduct(a, b), b) == 0.0
  {
  }

  /** The textbook cross product changes sign when its arguments swap. */
  lemma CrossProductAntisymmetric(a: Vec3, b: Vec3)
    ensures CrossProduct(b, a) == Scale(CrossProduct(a, b), -1.0)
  {
  }

  /**
   * The in-place cross product disagrees with the textbook one: the unit
   * vectors along x and y give (-1, -1, -2) instead of the unit vector
   * along z, and the result is not perpendicular to the first argument.
   */
  lemma CrossAsWrittenCounterexample()
    ensures CrossAsWritten(Vec3(1.0, 0.0, 0.0), Vec3(0.0, 1.0, 0.0)) == Vec3(-1.0, -1.0, -2.0)
    ensures CrossProduct(Vec3(1.0, 0.0, 0.0), Vec3(0.0, 1.0, 0.0)) == Vec3(0.0, 0.0, 1.0)
    ensures Dot3(CrossAsWritten(Vec3(1.0, 0.0, 0.0), Vec3(0.0, 1.0, 0.0)), Vec3(1.0, 0.0, 0.0)) != 0.0
  {
  }

  // ---------------------------------------------------------------------
  // The mutable vector
  // ---------------------------------------------------------------------

  class Vector {
    var x: real
    var y: real
    var z: real

    /** The current value of the vector. */
    function Value(): Vec3
      reads this
    {
      Vec3(x, y, z)
    }

    constructor (x: real := 0.0, y: real := 0.0, z: real := 0.0)
      ensures Value() == Vec3(x, y, z)
    {
      this.x := x;
      this.y := y;
      this.z := z;
    }

    /** Adds `other` componentwise into this vector. */
    method Add(other: Vector) returns (r: Vector)
      modifies this
      ensures r == this
      ensures Value() == Plus(old(Value()), old(other.Value()))
      ensures other != this ==> unchanged(other)
    {
      x := x + other.x;
      y := y + other.y;
      z := z + other.z;
      r := this;
    }

    /** Subtracts `other` componentwise from this vector. */
    method Subtract(other: Vector) returns (r: Vector)
      modifies this
      ensures r == this
      ensures Value() == Minus(old(Value()), old(other.Value()))
      ensures other != this ==> unchanged(other)
    {
      x := x - other.x;
      y := y - other.y;
      z := z - other.z;
      r := this;
    }

    /** Multiplies every component by `factor`. */
    method Multiply(factor: real) returns (r: Vector)
      modifies this
      ensures r == this
      ensures Value() == Scale(old(Value()), factor)
    {
      x := x * factor;
      y := y * factor;
      z := z * factor;
      r := this;
    }

    /**
     * Divides every component by `divisor`.  A zero divisor raises on the
     * first component, before anything has been written.
     */
    method Divide(divisor: real) returns (r: Result<Vector, VectorError>)
      modifies this
      ensures divisor == 0.0 ==> r == Failure(ZeroDivision) && unchanged(this)
      ensures divisor != 0.0 ==> r == Success(this) && Value() == Quotient(old(Value()), divisor)
    {
      if divisor == 0.0 {
        return Failure(ZeroDivision);
      }
      x := x / divisor;
      y := y / divisor;
      z := z / divisor;
      r := Success(this);
    }

    /** The dot product; it reads both vectors and changes neither. */
    function Dot(other: Vector): (r: real)
      reads this, other
      ensures r == Dot3(Value(), other.Value())
    {
      x * other.x + y * other.y + z * other.z
    }

    /**
     * The in-place cross product, as written: the components are
     * overwritten one after the other, so later ones see earlier results,
     * and when `other` is this vector it sees them too.
     */
    method Cross(other: Vector) returns (r: Vector)
      modifies this
      ensures r == this
      ensures other != this ==> Value() == CrossAsWritten(old(Value()), old(other.Value()))
      ensures other == this ==> Value() == CrossSelfAsWritten(old(Value()))
      ensures other != this ==> unchanged(other)
    {
      x := CrossTerm(y, other.z, other.y, z);
      y := CrossTerm(z, other.x, other.z, x);
      z := CrossTerm(x, other.y, other.x, y);
      r := this;
    }

    /** The corrected in-place cross product: every component reads the old values. */
    method CrossCorrected(other: Vector) returns (r: Vector)
      modifies this
      ensures r == this
      ensures Value() == CrossProduct(old(Value()), old(other.Value()))
      ensures other != this ==> unchanged(other)
    {
      var a := Value();
      var b := other.Value();
      x, y, z := a.y * b.z - a.z * b.y, a.z * b.x - a.x * b.z, a.x * b.y - a.y * b.x;
      r := this;
    }

    /** The squared length: the square of the square-root length. */
    function MagSquared(): (r: real)
      reads this
      ensures r == Dot3(Value(), Value())
    {
      x * x + y * y + z * z
    }

    /** The squared distance between the tips of the two vectors. */
    function ScalarDistSquared(other: Vector): (r: real)
      reads this, other
      ensures r == Dot3(Minus(Value(), other.Value()), Minus(Value(), other.Value()))
    {
      (x - other.x) * (x - other.x) + (y - other.y) * (y - other.y) + (z - other.z) * (z - other.z)
    }

    /**
     * Divides this vector by `mag`, which stands for its length (the source
     * obtains it as a square root).  Of the length, only what the division
     * depends on is required: it is non-negative and zero exactly for the
     * zero vector.  The zero vector raises on the first division, before
     * anything has been written.
     */
    method Hat(mag: real) returns (r: Result<Vector, VectorError>)
      requires mag >= 0.0 && (mag == 0.0 <==> Value() == Origin)
      modifies this
      ensures old(Value()) == Origin <==> r.Failure?
      ensures r.Failure? ==> r.error == ZeroDivision && unchanged(this)
      ensures r.Success? ==> r.value == this && Value() == Quotient(old(Value()), mag)
    {
      if mag == 0.0 {
        return Failure(ZeroDivision);
      }
      x := x / mag;
      y := y / mag;
      z := z / mag;
      r := Success(this);
    }

    /** Sets every component to zero. */
    method Zero() returns (r: Vector)
      modifies this
      ensures r == this
      ensures Value() == Origin
    {
      x, y, z := 0.0, 0.0, 0.0;
      r := this;
    }

    /** Replaces the x component and keeps the others. */
    method SetX(x: real) returns (r: Vector)
      modifies this
      ensures r == this
      ensures Value() == old(Value()).(x := x)
    {
      this.x := x;
      r := this;
    }

    /** Replaces the y component and keeps the others. */
    method SetY(y: real) returns (r: Vector)
      modifies this
      ensures r == this
      ensures Value() == old(Value()).(y := y)
    {
      this.y := y;
      r := this;
    }

    /** Replaces the z component and keeps the others. */
    method SetZ(z: real) returns (r: Vector)
      modifies this
      ensures r == this
      ensures Value() == old(Value()).(z := z)
    {
      this.z := z;
      r := this;
    }

    /** A new vector with the same components. */
    method Clone() returns (r: Vector)
      ensures fresh(r)
      ensures r.Value() == Value()
    {
      r := new Vector(x, y, z);
    }

    /** The difference `this - other` as a new vector; neither input changes. */
    method Dist(other: Vector) returns (r: Vector)
      ensures fresh(r)
      ensures r.Value() == Minus(Value(), other.Value())
    {
      var c := Clone();
      r := c.Subtract(other);
    }
  }

  // ---------------------------------------------------------------------
  // Laws of the mutable vector
  // ---------------------------------------------------------------------

  /** The dot product of two vectors does not depend on their order. */
  lemma VectorDotSymmetric(a: Vector, b: Vector)
    ensures a.Dot(b) == b.Dot(a)
    ensures a.Dot(b) == Dot3(a.Value(), b.Value())
  {
  }

  /** The dot product of a vector with itself is its squared length. */
  lemma DotSelfIsMagSquared(a: Vector)
    ensures a.Dot(a) == a.MagSquared()
  {
  }

  /** The squared distance is the squared length of the difference vector. */
  lemma DistSquaredIsMagSquaredOfDist(a: Vector, b: Vector, d: Vector)
    requires d.Value() == Minus(a.Value(), b.Value())
    ensures a.ScalarDistSquared(b) == d.MagSquared()
  {
  }

  /** Adding a vector to itself doubles it. */
  method AddToItself(v: Vector) returns (r: Vector)
    modifies v
    ensures r == v && v.Value() == Scale(old(v.Value()), 2.0)
  {
    r := v.Add(v);
  }

  /** Chaining add and subtract of the same distinct vector restores the original. */
  method AddThenSubtract(v: Vector, w: Vector) returns (r: Vector)
    requires v != w
    modifies v
    ensures r == v && v.Value() == old(v.Value()) && unchanged(w)
  {
    var s := v.Add(w);
    r := s.Subtract(w);
    SubtractUndoesAdd(old(v.Value()), w.Value());
  }
}
