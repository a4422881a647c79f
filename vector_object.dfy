/**
 The `Vector` class: a fixed sequence of components, set by the constructor
 and never changed, and a `_norm` cache that starts empty and is written once,
 the first time the norm is read.

 `math.sqrt` and `round(_, ndigits)` are outside the model; they are passed in
 as the functions `sqrt` and `round`.
 */
module VectorObject {
  import opened VectorAlgebra

  datatype Option<T> = None | Some(value: T)

  class Vector {
    /** `_components`; no operation of the module changes them after construction. */
    const components: Components
    /** `_norm`: `None` until the norm is first read. */
    var normCache: Option<real>

    /** `Vector(components)`. */
    constructor (components: Components)
      ensures this.components == components
      ensures normCache == None
    {
      this.components := components;
      normCache := None;
    }

    /** `Vector.make_zero(dim)`. */
    static method MakeZero(dim: int) returns (v: Vector)
      ensures fresh(v)
      ensures v.components == VectorAlgebra.MakeZero(dim)
      ensures v.Dim() == if dim < 0 then 0 else dim
      ensures v.normCache == None
    {
      v := new Vector(VectorAlgebra.MakeZero(dim));
    }

    /** `Vector.make_unitary(components)`: `build_unit_vector(Vector(components))`. */
    static method MakeUnitary(components: Components, sqrt: real -> real) returns (r: Result<Vector>)
      ensures r.Err? <==> sqrt(Dot(components, components).value) == 0.0
      ensures r.Err? ==> r.error == ZeroDivision
      ensures r.Ok? ==> fresh(r.value) && r.value.normCache == None
      ensures r.Ok? ==> r.value.Dim() == |components|
      ensures r.Ok? ==> r.value.components == UnitVector(components, sqrt(Dot(components, components).value)).value
    {
      var v := new Vector(components);
      r := BuildUnitVector(v, sqrt);
    }

    /** The value the cache may hold: the square root of `dot(self, self)`. */
    function NormValue(sqrt: real -> real): (n: real)
      ensures Dot(components, components).Ok?
    {
      sqrt(Dot(components, components).value)
    }

    /** The cache is empty or holds the norm computed with `sqrt`. */
    ghost predicate CacheAgrees(sqrt: real -> real)
      reads this
    {
      normCache.Some? ==> normCache.value == NormValue(sqrt)
    }

    /**
     The `norm` property: on the first read compute and store
     `sqrt(dot(self, self))`; afterwards return what is stored. Only the cache
     is written, and only when it was empty.
     */
    method Norm(sqrt: real -> real) returns (n: real)
      modifies this`normCache
      ensures normCache == Some(n)
      ensures old(normCache).Some? ==> n == old(normCache).value
      ensures old(normCache).None? ==> n == NormValue(sqrt)
      ensures old(CacheAgrees(sqrt)) ==> CacheAgrees(sqrt) && n == NormValue(sqrt)
    {
      if normCache.None? {
        var d := Dot(components, components);
        normCache := Some(sqrt(d.value));
      }
      n := normCache.value;
    }

    /** The `dim` property: the number of components. */
    function Dim(): nat
    {
      |components|
    }

    /**
     `self[i]` for an integer index: Python indexing, where `-k` counts from
     the end; anything outside `-dim <= i < dim` is an IndexError.
     */
    function Get(i: int): (r: Result<real>)
      ensures r.Ok? <==> -(Dim() as int) <= i < Dim()
      ensures r.Err? ==> r.error == IndexOutOfRange
      ensures 0 <= i < Dim() ==> r == Ok(components[i])
      ensures -(Dim() as int) <= i < 0 ==> r == Ok(components[Dim() + i])
    {
      if 0 <= i < |components| then Ok(components[i])
      else if -|components| <= i < 0 then Ok(components[|components| + i])
      else Err(IndexOutOfRange)
    }

    /** `-self`: `-1 * self`, which Python hands to `__rmul__`, that is `scale(self, -1)`. */
    method Neg() returns (r: Vector)
      ensures fresh(r)
      ensures r.components == Scale(components, -1.0)
      ensures r.Dim() == Dim()
      ensures r.normCache == None
    {
      r := new Vector(Scale(components, -1.0));
    }

    /** `self - other`: `self + -other`, that is `add(self, scale(other, -1))`. */
    method Sub(other: Vector) returns (r: Result<Vector>)
      ensures r.Err? <==> Dim() != other.Dim()
      ensures r.Err? ==> r.error == DimensionMismatch(Dim(), other.Dim())
      ensures r.Ok? ==> fresh(r.value) && r.value.normCache == None
      ensures r.Ok? ==> r.value.Dim() == Dim()
      ensures r.Ok? ==> r.value.components == Subtract(components, other.components).value
    {
      var negated := other.Neg();
      var sum := Add(components, negated.components);
      match sum
      case Err(e) =>
        r := Err(e);
      case Ok(c) =>
        var v := new Vector(c);
        r := Ok(v);
    }

    /** `self == other`: `almost_equal(self, other)` at the configured precision. */
    function Equals(other: Vector, round: real -> real): (r: bool)
      ensures r <==> Dim() == other.Dim() && forall i :: 0 <= i < Dim() ==> round(components[i]) == round(other.components[i])
    {
      AlmostEqual(components, other.components, round)
    }
  }

  /**
   `build_unit_vector(v)`: read `v.norm` (filling its cache if empty), then
   `scale(v, 1 / v.norm)`; a zero norm is a ZeroDivisionError.
   */
  method BuildUnitVector(v: Vector, sqrt: real -> real) returns (r: Result<Vector>)
    modifies v`normCache
    ensures old(v.normCache).Some? ==> v.normCache == old(v.normCache)
    ensures old(v.normCache).None? ==> v.normCache == Some(v.NormValue(sqrt))
    ensures v.normCache.Some?
    ensures r.Err? <==> v.normCache.value == 0.0
    ensures r.Err? ==> r.error == ZeroDivision
    ensures r.Ok? ==> fresh(r.value) && r.value.normCache == None
    ensures r.Ok? ==> r.value.Dim() == v.Dim()
    ensures r.Ok? ==> r.value.components == UnitVector(v.components, v.normCache.value).value
  {
    var n := v.Norm(sqrt);
    var u := UnitVector(v.components, n);
    match u
    case Err(e) =>
      r := Err(e);
    case Ok(c) =>
      var w := new Vector(c);
      r := Ok(w);
  }

  /** Reading `norm` twice returns the same value, and the second read leaves the cache as the first left it. */
  method NormIsCached(v: Vector, sqrt: real -> real) returns (first: real, second: real)
    modifies v`normCache
    ensures first == second
    ensures v.normCache == Some(first)
    ensures old(v.normCache).None? ==> first == v.NormValue(sqrt)
  {
    first := v.Norm(sqrt);
    second := v.Norm(sqrt);
  }

  /** With a correct square root, the norm of `Vector([3, 4])` is 5. */
  method NormOfThreeFour(sqrt: real -> real) returns (n: real)
    requires sqrt(25.0) == 5.0
    ensures n == 5.0
  {
    var v := new Vector([3.0, 4.0]);
    DotExamples();
    n := v.Norm(sqrt);
  }
}
