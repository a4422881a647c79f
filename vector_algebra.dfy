/**
 The free functions of the vector module: `make_zero`, `scale`, `add`,
 `subtract`, `dot`, `cross`, `build_unit_vector`, `project` and
 `almost_equal`, over the components of a vector.

 Components are C doubles in the source; here they are exact reals, so every
 operation is its mathematical definition. The functions that the source
 writes as a generator over `v` or over `zip(v1, v2)` are written here as a
 recursion over that same iteration, and their contracts give the
 component-wise meaning.
 */
module VectorAlgebra {

  /** The exceptions the vector module raises. */
  datatype Error =
    | DimensionMismatch(dim1: nat, dim2: nat)  // ValueError raised by add and dot
    | NotThreeDimensional(dim: nat)            // ValueError that cross is documented to raise
    | MissingAttribute(name: string)           // AttributeError on a name Vector does not define
    | ZeroDivision                             // ZeroDivisionError on `1 / v.norm`
    | IndexOutOfRange                          // IndexError from indexing a vector

  datatype Result<T> = Ok(value: T) | Err(error: Error)

  /** The components of one vector, in index order. */
  type Components = seq<real>

  /** `Vector.make_zero(dim)`: `[0] * dim`, which is empty for a negative `dim`. */
  function MakeZero(dim: int): (r: Components)
    ensures |r| == if dim < 0 then 0 else dim
    ensures forall i :: 0 <= i < |r| ==> r[i] == 0.0
  {
    seq(if dim < 0 then 0 else dim, _ => 0.0)
  }

  /** `scale(v, k)`: the vector built from `k * c for c in v`. */
  function Scale(v: Components, k: real): (r: Components)
    ensures |r| == |v|
    ensures forall i :: 0 <= i < |r| ==> r[i] == k * v[i]
  {
    if v == [] then [] else [k * v[0]] + Scale(v[1..], k)
  }

  /** `c1 + c2 for c1, c2 in zip(v1, v2)`: zip stops at the shorter operand. */
  function ZipSum(v1: Components, v2: Components): (r: Components)
    ensures |r| == if |v1| <= |v2| then |v1| else |v2|
    ensures forall i :: 0 <= i < |r| ==> r[i] == v1[i] + v2[i]
  {
    if v1 == [] || v2 == [] then [] else [v1[0] + v2[0]] + ZipSum(v1[1..], v2[1..])
  }

  /** `c1 * c2 for c1, c2 in zip(v1, v2)`. */
  function ZipProducts(v1: Components, v2: Components): (r: seq<real>)
    ensures |r| == if |v1| <= |v2| then |v1| else |v2|
    ensures forall i :: 0 <= i < |r| ==> r[i] == v1[i] * v2[i]
  {
    if v1 == [] || v2 == [] then [] else [v1[0] * v2[0]] + ZipProducts(v1[1..], v2[1..])
  }

  /**
   The sum `math.fsum` rounds correctly once; over the reals it is the exact
   sum of the terms.
   */
  function Sum(s: seq<real>): (r: real)
  {
    if s == [] then 0.0 else s[0] + Sum(s[1..])
  }

  /** `add(v1, v2)`: a dimension check, then the component-wise sum. */
  function Add(v1: Components, v2: Components): (r: Result<Components>)
    ensures r.Err? <==> |v1| != |v2|
    ensures r.Err? ==> r.error == DimensionMismatch(|v1|, |v2|)
    ensures r.Ok? ==> |r.value| == |v1| && forall i :: 0 <= i < |v1| ==> r.value[i] == v1[i] + v2[i]
  {
    if |v1| != |v2| then Err(DimensionMismatch(|v1|, |v2|)) else Ok(ZipSum(v1, v2))
  }

  /** `subtract(v1, v2)`: `add(v1, scale(v2, -1))`. */
  function Subtract(v1: Components, v2: Components): (r: Result<Components>)
    ensures r.Err? <==> |v1| != |v2|
    ensures r.Err? ==> r.error == DimensionMismatch(|v1|, |v2|)
    ensures r.Ok? ==> |r.value| == |v1| && forall i :: 0 <= i < |v1| ==> r.value[i] == v1[i] - v2[i]
  {
    Add(v1, Scale(v2, -1.0))
  }

  /** `dot(v1, v2)`: a dimension check, then the sum of the pairwise products. */
  function Dot(v1: Components, v2: Components): (r: Result<real>)
    ensures r.Err? <==> |v1| != |v2|
    ensures r.Err? ==> r.error == DimensionMismatch(|v1|, |v2|)
  {
    if |v1| != |v2| then Err(DimensionMismatch(|v1|, |v2|)) else Ok(Sum(ZipProducts(v1, v2)))
  }

  // ---------------------------------------------------------------------------
  // Laws of the component-wise operations

  /** Scaling by a and then by b is scaling by b * a. */
  lemma ScaleComposes(v: Components, a: real, b: real)
    ensures Scale(Scale(v, a), b) == Scale(v, b * a)
  {
    var lhs, rhs := Scale(Scale(v, a), b), Scale(v, b * a);
    assert |lhs| == |rhs|;
    forall i | 0 <= i < |lhs| ensures lhs[i] == rhs[i] {
      ScaledTwiceAt(v, a, b, i);
    }
    assert lhs == rhs;
  }

  lemma ScaledTwiceAt(v: Components, a: real, b: real, i: nat)
    requires i < |v|
    ensures Scale(Scale(v, a), b)[i] == Scale(v, b * a)[i]
  {
    var x := v[i];
    var scaled := Scale(v, a);
    var lhs, rhs := Scale(scaled, b), Scale(v, b * a);
    assert |scaled| == |lhs| == |rhs| == |v|;
    calc {
      lhs[i];
      b * scaled[i];
      b * (a * x);
      { MulAssociative(b, a, x); }
      (b * a) * x;
      rhs[i];
    }
  }

  /** Negation, `scale(v, -1)`, is its own inverse. */
  lemma NegInvolutive(v: Components)
    ensures Scale(Scale(v, -1.0), -1.0) == v
  {
    ScaleComposes(v, -1.0, -1.0);
    var one := Scale(v, 1.0);
    assert one == v by {
      forall i | 0 <= i < |v| ensures one[i] == v[i] {
      }
    }
  }

  lemma MulAssociative(x: real, y: real, z: real)
    ensures x * (y * z) == (x * y) * z
  {
  }

  lemma AddCommutative(v1: Components, v2: Components)
    ensures Add(v1, v2).Ok? <==> Add(v2, v1).Ok?
    ensures Add(v1, v2).Ok? ==> Add(v1, v2).value == Add(v2, v1).value
  {
  }

  /** `make_zero(dim)` is the identity of `add` in dimension `dim`. */
  lemma AddZeroRight(v: Components)
    ensures Add(v, MakeZero(|v|)) == Ok(v)
  {
    assert Add(v, MakeZero(|v|)).value == v;
  }

  /** Over the reals `subtract(v, v)` is exactly `make_zero(v.dim)`. */
  lemma SubtractSelfIsZero(v: Components)
    ensures Subtract(v, v) == Ok(MakeZero(|v|))
  {
    assert Subtract(v, v).value == MakeZero(|v|);
  }

  /** Subtracting and then adding back the same vector round-trips. */
  lemma SubtractThenAdd(v1: Components, v2: Components)
    requires |v1| == |v2|
    ensures Add(Subtract(v1, v2).value, v2) == Ok(v1)
  {
    assert Add(Subtract(v1, v2).value, v2).value == v1;
  }

  // ---------------------------------------------------------------------------
  // Laws of the dot product

  lemma {:induction false} SumOfScaled(s: seq<real>, k: real)
    ensures Sum(Scale(s, k)) == k * Sum(s)
  {
    if s != [] {
      assert Scale(s, k)[1..] == Scale(s[1..], k);
      SumOfScaled(s[1..], k);
    }
  }

  lemma {:induction false} SumOfZipSum(s: seq<real>, t: seq<real>)
    requires |s| == |t|
    ensures Sum(ZipSum(s, t)) == Sum(s) + Sum(t)
  {
    if s != [] {
      assert ZipSum(s, t)[1..] == ZipSum(s[1..], t[1..]);
      SumOfZipSum(s[1..], t[1..]);
    }
  }

  /** A sum of non-negative terms is non-negative. */
  lemma {:induction false} SumNonNegative(s: seq<real>)
    requires forall i :: 0 <= i < |s| ==> s[i] >= 0.0
    ensures Sum(s) >= 0.0
  {
    if s != [] {
      assert forall i :: 0 <= i < |s[1..]| ==> s[1..][i] == s[i + 1];
      SumNonNegative(s[1..]);
    }
  }

  /** `dot(v, v)` never fails and is never negative. */
  lemma DotSelfNonNegative(v: Components)
    ensures Dot(v, v).Ok? && Dot(v, v).value >= 0.0
  {
    var p := ZipProducts(v, v);
    forall i | 0 <= i < |p| ensures p[i] >= 0.0 {
      assert p[i] == v[i] * v[i];
    }
    SumNonNegative(p);
  }

  lemma DotSymmetric(v1: Components, v2: Components)
    ensures Dot(v1, v2).Ok? <==> Dot(v2, v1).Ok?
    ensures Dot(v1, v2).Ok? ==> Dot(v1, v2).value == Dot(v2, v1).value
  {
    if |v1| == |v2| {
      assert ZipProducts(v1, v2) == ZipProducts(v2, v1);
    }
  }

  /** `dot(scale(v1, k), v2) == k * dot(v1, v2)`. */
  lemma DotScaleLeft(v1: Components, v2: Components, k: real)
    requires |v1| == |v2|
    ensures Dot(Scale(v1, k), v2).Ok?
    ensures Dot(Scale(v1, k), v2).value == k * Dot(v1, v2).value
  {
    var lhs, rhs := ZipProducts(Scale(v1, k), v2), Scale(ZipProducts(v1, v2), k);
    assert |lhs| == |rhs|;
    forall i | 0 <= i < |lhs| ensures lhs[i] == rhs[i] {
      ScaledProductAt(v1, v2, k, i);
    }
    assert lhs == rhs;
    SumOfScaled(ZipProducts(v1, v2), k);
  }

  lemma ScaledProductAt(v1: Components, v2: Components, k: real, i: nat)
    requires |v1| == |v2| && i < |v1|
    ensures ZipProducts(Scale(v1, k), v2)[i] == Scale(ZipProducts(v1, v2), k)[i]
  {
    var x, y := v1[i], v2[i];
    var scaled, products := Scale(v1, k), ZipProducts(v1, v2);
    var lhs, rhs := ZipProducts(scaled, v2), Scale(products, k);
    assert |scaled| == |products| == |lhs| == |rhs| == |v1|;
    calc {
      lhs[i];
      scaled[i] * y;
      (k * x) * y;
      { MulAssociative(k, x, y); }
      k * (x * y);
      k * products[i];
      rhs[i];
    }
  }

  /** `dot(add(v1, v2), w) == dot(v1, w) + dot(v2, w)`. */
  lemma DotAddLeft(v1: Components, v2: Components, w: Components)
    requires |v1| == |v2| == |w|
    ensures Dot(Add(v1, v2).value, w).Ok?
    ensures Dot(Add(v1, v2).value, w).value == Dot(v1, w).value + Dot(v2, w).value
  {
    var sum := Add(v1, v2).value;
    var p1, p2 := ZipProducts(v1, w), ZipProducts(v2, w);
    var lhs, rhs := ZipProducts(sum, w), ZipSum(p1, p2);
    assert |lhs| == |rhs|;
    forall i | 0 <= i < |lhs| ensures lhs[i] == rhs[i] {
      calc {
        lhs[i];
        (v1[i] + v2[i]) * w[i];
        v1[i] * w[i] + v2[i] * w[i];
        p1[i] + p2[i];
      }
    }
    assert lhs == rhs;
    SumOfZipSum(p1, p2);
  }

  /** The dot product with `make_zero` of the same dimension is 0. */
  lemma DotZeroRight(v: Components)
    ensures Dot(v, MakeZero(|v|)).Ok? && Dot(v, MakeZero(|v|)).value == 0.0
  {
    var z := MakeZero(|v|);
    assert Scale(z, 0.0) == z;
    DotSymmetric(v, z);
    DotScaleLeft(z, v, 0.0);
  }

  /** Two concrete scenarios: `dot([1, 0, 0], [0, 1, 0]) == 0` and `dot([3, 4], [3, 4]) == 25`. */
  lemma DotExamples()
    ensures Dot([1.0, 0.0, 0.0], [0.0, 1.0, 0.0]) == Ok(0.0)
    ensures Dot([3.0, 4.0], [3.0, 4.0]) == Ok(25.0)
  {
  }

  lemma SumOfThree(s: seq<real>)
    requires |s| == 3
    ensures Sum(s) == s[0] + s[1] + s[2]
  {
    var t := s[1..];
    var u := t[1..];
    assert u[1..] == [];
    assert Sum(u) == s[2];
    assert Sum(t) == s[1] + s[2];
  }

  // ---------------------------------------------------------------------------
  // build_unit_vector and project

  /** `s` is the non-negative square root of `x`. */
  ghost predicate IsSqrtOf(s: real, x: real) {
    s >= 0.0 && s * s == x
  }

  /**
   `build_unit_vector(v)`: `scale(v, 1 / v.norm)`, given the value `norm` that
   reading `v.norm` yields; a zero norm is a ZeroDivisionError.
   */
  function UnitVector(v: Components, norm: real): (r: Result<Components>)
    ensures r.Err? <==> norm == 0.0
    ensures r.Err? ==> r.error == ZeroDivision
    ensures r.Ok? ==> |r.value| == |v|
  {
    if norm == 0.0 then Err(ZeroDivision) else Ok(Scale(v, 1.0 / norm))
  }

  /** When `norm` is the square root of `dot(v, v)` and not 0, the unit vector has `dot(u, u) == 1`. */
  lemma UnitVectorHasUnitLength(v: Components, norm: real)
    requires IsSqrtOf(norm, Dot(v, v).value)
    requires norm != 0.0
    ensures UnitVector(v, norm).Ok?
    ensures Dot(UnitVector(v, norm).value, UnitVector(v, norm).value).Ok?
    ensures Dot(UnitVector(v, norm).value, UnitVector(v, norm).value).value == 1.0
  {
    var k := 1.0 / norm;
    var u := Scale(v, k);
    var d := Dot(v, v).value;
    DotScaleLeft(v, u, k);
    DotSymmetric(v, u);
    DotScaleLeft(v, v, k);
    assert Dot(u, u).value == k * (k * d);
    InverseSquared(norm, d);
  }

  lemma InverseSquared(n: real, d: real)
    requires n != 0.0 && d == n * n
    ensures (1.0 / n) * ((1.0 / n) * d) == 1.0
  {
  }

  /** The names the body of class `Vector` defines (lac/vector.py:16-86). */
  const CLASS_ATTRIBUTES: set<string> := {
    "typecode", "make_random", "make_zero", "make_unitary", "__init__", "norm",
    "components", "dim", "__iter__", "__getitem__", "__matmul__", "__add__",
    "__rmul__", "__neg__", "__sub__", "__abs__", "__len__", "__eq__", "__repr__"
  }

  /** The instance attributes `__init__` sets (lac/vector.py:35-36). */
  const INSTANCE_ATTRIBUTES: set<string> := {"_components", "_norm"}

  /**
   The names every instance of a plain Python 3.12 class has: those of
   `object`, and `__dict__`, `__module__` and `__weakref__`, which the class
   statement adds. Defining `__eq__` sets `__hash__` to `None`, which is
   still found.
   */
  const INHERITED_ATTRIBUTES: set<string> := {
    "__class__", "__delattr__", "__dir__", "__doc__", "__eq__", "__format__",
    "__ge__", "__getattribute__", "__getstate__", "__gt__", "__hash__",
    "__init__", "__init_subclass__", "__le__", "__lt__", "__ne__", "__new__",
    "__reduce__", "__reduce_ex__", "__repr__", "__setattr__", "__sizeof__",
    "__str__", "__subclasshook__", "__dict__", "__module__", "__weakref__"
  }

  /** Every attribute name a lookup on a vector finds. */
  const VECTOR_ATTRIBUTES: set<string> := CLASS_ATTRIBUTES + INSTANCE_ATTRIBUTES + INHERITED_ATTRIBUTES

  /** Looking up attribute `name` on a vector: AttributeError unless the vector has it. */
  function LookUp(name: string): (r: Result<()>)
    ensures r.Ok? <==> name in VECTOR_ATTRIBUTES
    ensures r.Err? ==> r.error == MissingAttribute(name)
  {
    if name in VECTOR_ATTRIBUTES then Ok(()) else Err(MissingAttribute(name))
  }

  /** The attributes `__init__` sets are found, and so is the inherited `__hash__`. */
  lemma LookUpExamples()
    ensures LookUp("_norm").Ok? && LookUp("_components").Ok? && LookUp("__hash__").Ok?
  {
  }

  /**
   `project(v, d)` as written: `dot(v, d.buil_unitary())`. Evaluating the
   argument looks up `buil_unitary` on `d` first; were that a method building
   the unit vector, the result would be `ProjectOnto`.
   */
  function Project(v: Components, d: Components, dNorm: real): (r: Result<real>)
    ensures r == Err(MissingAttribute("buil_unitary"))
  {
    match LookUp("buil_unitary")
    case Err(e) => Err(e)
    case Ok(_) => ProjectOnto(v, d, dNorm)
  }

  /** Even `project([1, 1], [1, 0])`, whose projection is 1, raises AttributeError. */
  lemma ProjectAlwaysFails()
    ensures Project([1.0, 1.0], [1.0, 0.0], 1.0).Err?
    ensures ProjectOnto([1.0, 1.0], [1.0, 0.0], 1.0) == Ok(1.0)
  {
    var v, d := [1.0, 1.0], [1.0, 0.0];
    ProjectOntoIsScaledDot(v, d, 1.0);
    var products := ZipProducts(v, d);
    assert products == [1.0, 0.0] by {
      assert |products| == 2 && products[0] == 1.0 * 1.0 && products[1] == 1.0 * 0.0;
    }
    assert Sum(products) == 1.0 by {
      assert products[1..] == [0.0];
      assert products[1..][1..] == [];
    }
  }

  /**
   `project` as evidently intended: `dot(v, build_unit_vector(d))`, given the
   norm `dNorm` read from `d`. The unit vector is built first, so a zero norm
   is reported before a dimension mismatch.
   */
  function ProjectOnto(v: Components, d: Components, dNorm: real): (r: Result<real>)
    ensures dNorm == 0.0 ==> r == Err(ZeroDivision)
    ensures dNorm != 0.0 && |v| != |d| ==> r == Err(DimensionMismatch(|v|, |d|))
    ensures dNorm != 0.0 && |v| == |d| ==> r.Ok?
  {
    match UnitVector(d, dNorm)
    case Err(e) => Err(e)
    case Ok(u) => Dot(v, u)
  }

  /** The scalar projection of `v` onto `d` is `dot(v, d) / |d|`. */
  lemma ProjectOntoIsScaledDot(v: Components, d: Components, dNorm: real)
    requires |v| == |d| && dNorm != 0.0
    ensures ProjectOnto(v, d, dNorm).Ok?
    ensures ProjectOnto(v, d, dNorm).value == Dot(v, d).value / dNorm
  {
    var k := 1.0 / dNorm;
    DotSymmetric(v, Scale(d, k));
    DotScaleLeft(d, v, k);
    DotSymmetric(d, v);
  }

  // ---------------------------------------------------------------------------
  // cross

  /**
   Reading the size of a vector through attribute `name`, for a name that is
   either `dim` or one `Vector` does not define (the case of `ndim`).
   */
  function SizeAttribute(v: Components, name: string): (r: Result<nat>)
    requires name == "dim" || name !in VECTOR_ATTRIBUTES
    ensures r.Ok? <==> name == "dim"
    ensures r.Ok? ==> r.value == |v|
    ensures r.Err? ==> r.error == MissingAttribute(name)
  {
    if name == "dim" then Ok(|v|) else Err(MissingAttribute(name))
  }

  /**
   The validation loop of `cross`: for each operand in turn, read its size
   through `name` and raise unless it is 3.
   */
  function CheckSizes(operands: seq<Components>, name: string): (r: Result<()>)
    requires name == "dim" || name !in VECTOR_ATTRIBUTES
    ensures name == "dim" ==> (r.Ok? <==> forall j :: 0 <= j < |operands| ==> |operands[j]| == 3)
    ensures name != "dim" && operands != [] ==> r == Err(MissingAttribute(name))
  {
    if operands == [] then Ok(())
    else
      match SizeAttribute(operands[0], name)
      case Err(e) => Err(e)
      case Ok(n) => if n != 3 then Err(NotThreeDimensional(n)) else CheckSizes(operands[1..], name)
  }

  /**
   The arithmetic of `cross` as written. Indexing raises IndexError when an
   operand has fewer than 3 components, and the second component subtracts a
   product from itself.
   */
  function CrossComponentsAsWritten(a: Components, b: Components): (r: Result<Components>)
    ensures r.Err? <==> |a| < 3 || |b| < 3
    ensures r.Err? ==> r.error == IndexOutOfRange
    ensures r.Ok? ==> |r.value| == 3 && r.value[1] == 0.0
    ensures r.Ok? && |a| == 3 && |b| == 3 ==>
      r.value[0] == CrossComponents(a, b)[0] && r.value[2] == CrossComponents(a, b)[2]
  {
    if |a| < 3 || |b| < 3 then Err(IndexOutOfRange)
    else Ok([a[1] * b[2] - a[2] * b[1], a[2] * b[0] - a[2] * b[0], a[0] * b[1] - a[1] * b[0]])
  }

  /**
   `cross(v1, v2)` as written: the validation loop reads `v.ndim`, which
   `Vector` never defines, so it raises AttributeError whatever the operands.
   */
  function Cross(v1: Components, v2: Components): (r: Result<Components>)
    ensures r == Err(MissingAttribute("ndim"))
  {
    match CheckSizes([v1, v2], "ndim")
    case Err(e) => Err(e)
    case Ok(_) => CrossComponentsAsWritten(v1, v2)
  }

  /** Even the documented 3-D case `cross([1, 0, 0], [0, 1, 0])` raises. */
  lemma CrossAlwaysFails()
    ensures Cross([1.0, 0.0, 0.0], [0.0, 1.0, 0.0]).Err?
  {
  }

  /** `[0, 0, 1] x [1, 0, 0]` comes out as `[0, 0, 0]` as written, where the cross product is `[0, 1, 0]`. */
  lemma CrossAsWrittenLosesSecondComponent()
    ensures CrossComponentsAsWritten([0.0, 0.0, 1.0], [1.0, 0.0, 0.0]) == Ok([0.0, 0.0, 0.0])
    ensures CrossComponents([0.0, 0.0, 1.0], [1.0, 0.0, 0.0]) == [0.0, 1.0, 0.0]
  {
  }

  /** The standard 3-D cross product, the formula `cross` evidently intends. */
  function CrossComponents(a: Components, b: Components): (r: Components)
    requires |a| == 3 && |b| == 3
    ensures |r| == 3
  {
    [a[1] * b[2] - a[2] * b[1], a[2] * b[0] - a[0] * b[2], a[0] * b[1] - a[1] * b[0]]
  }

  /** The cross product is orthogonal to both of its operands. */
  lemma CrossIsOrthogonal(a: Components, b: Components)
    requires |a| == 3 && |b| == 3
    ensures Dot(a, CrossComponents(a, b)).Ok? && Dot(a, CrossComponents(a, b)).value == 0.0
    ensures Dot(b, CrossComponents(a, b)).Ok? && Dot(b, CrossComponents(a, b)).value == 0.0
  {
    var c := CrossComponents(a, b);
    SumOfThree(ZipProducts(a, c));
    SumOfThree(ZipProducts(b, c));
    assert a[0] * c[0] + a[1] * c[1] + a[2] * c[2] == 0.0 by {
      assert a[0] * c[0] == a[0] * a[1] * b[2] - a[0] * a[2] * b[1];
      assert a[1] * c[1] == a[1] * a[2] * b[0] - a[1] * a[0] * b[2];
      assert a[2] * c[2] == a[2] * a[0] * b[1] - a[2] * a[1] * b[0];
    }
    assert b[0] * c[0] + b[1] * c[1] + b[2] * c[2] == 0.0 by {
      assert b[0] * c[0] == b[0] * a[1] * b[2] - b[0] * a[2] * b[1];
      assert b[1] * c[1] == b[1] * a[2] * b[0] - b[1] * a[0] * b[2];
      assert b[2] * c[2] == b[2] * a[0] * b[1] - b[2] * a[1] * b[0];
    }
  }

  /** Lagrange's identity: `|a x b|^2 == |a|^2 |b|^2 - (a . b)^2`. */
  lemma CrossLagrangeIdentity(a: Components, b: Components)
    requires |a| == 3 && |b| == 3
    ensures Dot(CrossComponents(a, b), CrossComponents(a, b)).Ok?
    ensures Dot(CrossComponents(a, b), CrossComponents(a, b)).value
         == Dot(a, a).value * Dot(b, b).value - Dot(a, b).value * Dot(a, b).value
  {
    var c := CrossComponents(a, b);
    SumOfThree(ZipProducts(c, c));
    SumOfThree(ZipProducts(a, a));
    SumOfThree(ZipProducts(b, b));
    SumOfThree(ZipProducts(a, b));
    LagrangePolynomial(a[0], a[1], a[2], b[0], b[1], b[2]);
  }

  lemma LagrangePolynomial(a0: real, a1: real, a2: real, b0: real, b1: real, b2: real)
    ensures (a1 * b2 - a2 * b1) * (a1 * b2 - a2 * b1)
          + (a2 * b0 - a0 * b2) * (a2 * b0 - a0 * b2)
          + (a0 * b1 - a1 * b0) * (a0 * b1 - a1 * b0)
         == (a0 * a0 + a1 * a1 + a2 * a2) * (b0 * b0 + b1 * b1 + b2 * b2)
          - (a0 * b0 + a1 * b1 + a2 * b2) * (a0 * b0 + a1 * b1 + a2 * b2)
  {
  }

  /** The right-hand rule on the basis: `[1, 0, 0] x [0, 1, 0] == [0, 0, 1]`. */
  lemma CrossOfBasis()
    ensures CrossComponents([1.0, 0.0, 0.0], [0.0, 1.0, 0.0]) == [0.0, 0.0, 1.0]
  {
  }

  /** Swapping the operands negates the cross product. */
  lemma CrossAntiCommutative(a: Components, b: Components)
    requires |a| == 3 && |b| == 3
    ensures CrossComponents(b, a) == Scale(CrossComponents(a, b), -1.0)
  {
    var lhs, rhs := CrossComponents(b, a), Scale(CrossComponents(a, b), -1.0);
    assert lhs[0] == rhs[0] && lhs[1] == rhs[1] && lhs[2] == rhs[2];
  }

  /**
   `cross` with the validation it documents: each operand in turn, `v1` then
   `v2`, must be 3-dimensional; then the standard formula.
   */
  method CrossProduct(v1: Components, v2: Components) returns (r: Result<Components>)
    ensures r.Ok? <==> |v1| == 3 && |v2| == 3
    ensures r.Err? ==> r.error == NotThreeDimensional(if |v1| != 3 then |v1| else |v2|)
    ensures r.Ok? ==> r.value == CrossComponents(v1, v2)
    ensures r.Ok? <==> CheckSizes([v1, v2], "dim").Ok?
    ensures r.Err? ==> CheckSizes([v1, v2], "dim") == Err(r.error)
  {
    var operands := [v1, v2];
    assert operands[0] == v1 && operands[1] == v2;
    for i := 0 to |operands|
      invariant forall j :: 0 <= j < i ==> |operands[j]| == 3
    {
      if |operands[i]| != 3 {
        return Err(NotThreeDimensional(|operands[i]|));
      }
    }
    assert |operands[0]| == 3 && |operands[1]| == 3;
    return Ok(CrossComponents(v1, v2));
  }

  // ---------------------------------------------------------------------------
  // almost_equal

  /**
   `all(round(c1) == round(c2) for c1, c2 in zip(v1, v2))`, where `round`
   stands for `round(_, ndigits)`.
   */
  function AllRoundedEqual(v1: Components, v2: Components, round: real -> real): (r: bool)
    ensures r <==> forall i :: 0 <= i < |v1| && i < |v2| ==> round(v1[i]) == round(v2[i])
  {
    if v1 == [] || v2 == [] then true
    else round(v1[0]) == round(v2[0]) && AllRoundedEqual(v1[1..], v2[1..], round)
  }

  /** `almost_equal(v1, v2, ndigits)`: the rounded pairs agree and the dimensions are equal. */
  function AlmostEqual(v1: Components, v2: Components, round: real -> real): (r: bool)
    ensures r <==> |v1| == |v2| && forall i :: 0 <= i < |v1| ==> round(v1[i]) == round(v2[i])
  {
    AllRoundedEqual(v1, v2, round) && |v1| == |v2|
  }

  lemma AlmostEqualRejectsMismatch(v1: Components, v2: Components, round: real -> real)
    requires |v1| != |v2|
    ensures !AlmostEqual(v1, v2, round)
  {
  }

  /** For any rounding, `almost_equal` is reflexive, symmetric and transitive. */
  lemma AlmostEqualIsEquivalence(v1: Components, v2: Components, v3: Components, round: real -> real)
    ensures AlmostEqual(v1, v1, round)
    ensures AlmostEqual(v1, v2, round) ==> AlmostEqual(v2, v1, round)
    ensures AlmostEqual(v1, v2, round) && AlmostEqual(v2, v3, round) ==> AlmostEqual(v1, v3, round)
  {
  }

  /** `add(v, scale(v, -1))` compares equal to `make_zero(v.dim)`, whatever the rounding. */
  lemma AddNegationAlmostZero(v: Components, round: real -> real)
    ensures Add(v, Scale(v, -1.0)).Ok?
    ensures AlmostEqual(Add(v, Scale(v, -1.0)).value, MakeZero(|v|), round)
  {
    SubtractSelfIsZero(v);
  }
}
