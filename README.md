# Euclidean vectors of `lac/vector.py`, in Dafny

This project models the vector module of a small linear-algebra package. The
module has two parts:

- a `Vector` class. It holds a fixed sequence of components and a `_norm`
  cache. The cache starts as `None` and is filled the first time `norm` is
  read.
- the free functions `make_zero`, `scale`, `add`, `subtract`, `dot`, `cross`,
  `build_unit_vector`, `project` and `almost_equal`.

Components are C doubles in the source. Here they are exact reals
(`seq<real>`), so every operation is its mathematical definition:
- `math.fsum` is the exact sum, because it is the correctly rounded sum.
- `math.sqrt` becomes a parameter `sqrt: real -> real`.
- `round(c, ndigits)` with the configured `PRECISION` becomes a parameter
  `round: real -> real`.

The files:

- `vector_algebra.dfy` (module `VectorAlgebra`): the free functions as
  functions on components, with their laws as lemmas. Errors are a `Result`
  whose `Error` cases are the exceptions raised along the modelled paths:
  the ValueError of `add` and `dot`, the AttributeError of a missing
  attribute, ZeroDivisionError and IndexError. `NotThreeDimensional` is the
  ValueError that `cross` documents; only the corrected validation raises it
  (`CheckSizes` reading `dim`, and `CrossProduct`, whose errors are exactly
  those of `CheckSizes`), since `cross` as written never reaches its own
  check. The functions built
  from a generator over `v` or over `zip(v1, v2)` are written as a recursion
  over that same iteration, so `zip`'s truncation to the shorter operand is
  kept. Their contracts give the component-wise meaning.
- `vector_object.dfy` (module `VectorObject`): the `Vector` class. It has
  `const components` and `var normCache: Option<real>`. The `Norm` method
  writes the cache only when it is empty and returns what the cache holds.
  The class methods that build new vectors (`Neg`, `Sub`, `MakeZero` and
  `MakeUnitary`) and the module-level method `BuildUnitVector` return fresh
  objects with empty caches.

Where the documented behaviour and the code disagree, the model follows the
code:
- `make_zero` with a negative dimension returns an empty vector, as
  `[0] * dim` does.
- `cross` and `project` always raise AttributeError (see "## Findings").
- The evidently intended versions of `cross` and `project` are modelled
  beside the as-written ones.

## Model

| member | source | states |
|---|---|---|
| VectorAlgebra.MakeZero | lac/vector.py:24-27 | the result has `dim` components (none when `dim` is negative), all 0 |
| VectorAlgebra.Scale | lac/vector.py:89-99 | the dimension is kept and component i is `k * v[i]` |
| VectorAlgebra.ZipSum | lac/vector.py:112 | pairing by `zip` stops at the shorter operand; entry i is `v1[i] + v2[i]` |
| VectorAlgebra.ZipProducts | lac/vector.py:131 | pairing by `zip` stops at the shorter operand; entry i is `v1[i] * v2[i]` |
| VectorAlgebra.Add | lac/vector.py:102-112 | fails with DimensionMismatch(dim1, dim2) exactly when the dimensions differ; otherwise same dimension and component i is `v1[i] + v2[i]` |
| VectorAlgebra.Subtract | lac/vector.py:115-117 | `add(v1, scale(v2, -1))` inherits the mismatch error exactly when the dimensions differ; otherwise component i is `v1[i] - v2[i]` |
| VectorAlgebra.Dot | lac/vector.py:120-131 | fails with DimensionMismatch(dim1, dim2) exactly when the dimensions differ |
| VectorAlgebra.ScaleComposes | lac/vector.py:89-99 | scaling by a and then by b is scaling by b*a |
| VectorAlgebra.NegInvolutive | lac/vector.py:67-68 | negation, `scale(v, -1)`, is its own inverse: `-(-v) == v` |
| VectorAlgebra.AddCommutative | lac/vector.py:102-112 | `add(v1, v2)` succeeds exactly when `add(v2, v1)` does, and then the two results are equal |
| VectorAlgebra.AddZeroRight | lac/vector.py:102-112 | adding `make_zero(v.dim)` returns `v` |
| VectorAlgebra.SubtractSelfIsZero | lac/vector.py:115-117 | `subtract(v, v)` is exactly `make_zero(v.dim)` |
| VectorAlgebra.SubtractThenAdd | lac/vector.py:115-117 | for equal dimensions, `add(subtract(v1, v2), v2)` gives back `v1` |
| VectorAlgebra.Sum | lac/vector.py:131 | no contract: the exact sum of the terms; its laws are SumNonNegative, SumOfScaled and SumOfZipSum |
| VectorAlgebra.SumNonNegative | lac/vector.py:131 | a sum of non-negative terms is non-negative |
| VectorAlgebra.SumOfScaled | lac/vector.py:131 | the sum of the scaled terms is k times the sum |
| VectorAlgebra.SumOfZipSum | lac/vector.py:131 | the sum of pairwise sums is the sum of the two sums |
| VectorAlgebra.DotSelfNonNegative | lac/vector.py:120-131 | `dot(v, v)` never fails and is at least 0 |
| VectorAlgebra.DotSymmetric | lac/vector.py:120-131 | `dot(v1, v2)` succeeds exactly when `dot(v2, v1)` does, and then both give the same value |
| VectorAlgebra.DotScaleLeft | lac/vector.py:120-131 | `dot(scale(v1, k), v2) == k * dot(v1, v2)` |
| VectorAlgebra.DotAddLeft | lac/vector.py:120-131 | `dot(add(v1, v2), w) == dot(v1, w) + dot(v2, w)` |
| VectorAlgebra.DotZeroRight | lac/vector.py:120-131 | the dot product with `make_zero(v.dim)` is 0 |
| VectorAlgebra.DotExamples | lac/vector.py:120-131 | `dot([1,0,0], [0,1,0]) == 0` and `dot([3,4], [3,4]) == 25` |
| VectorAlgebra.UnitVector | lac/vector.py:156-158 | ZeroDivisionError exactly when the norm read is 0; otherwise the dimension is kept |
| VectorAlgebra.UnitVectorHasUnitLength | lac/vector.py:156-158 | when the norm is the square root of `dot(v, v)` and not 0, the unit vector u has `dot(u, u) == 1` |
| VectorAlgebra.LookUp | lac/vector.py:16-86 | looking up an attribute succeeds exactly for the names the class body defines, the instance attributes `__init__` sets (lines 35-36) and the names inherited from `object`; any other name is AttributeError naming it |
| VectorAlgebra.LookUpExamples | lac/vector.py:34-36 | `_norm` and `_components` (set by `__init__`) and the inherited `__hash__` are found |
| VectorAlgebra.Project | lac/vector.py:171 | as written, `project` raises AttributeError on `buil_unitary` for every pair of operands and every norm of `d` |
| VectorAlgebra.ProjectAlwaysFails | lac/vector.py:161-171 | on `v = [1, 1]`, `d = [1, 0]` the as-written `project` fails, where the intended projection is 1 |
| VectorAlgebra.ProjectOnto | lac/vector.py:161-171 | intended `dot(v, build_unit_vector(d))`: a zero norm of d is ZeroDivisionError and is reported before a dimension mismatch; otherwise it fails exactly on a mismatch |
| VectorAlgebra.ProjectOntoIsScaledDot | lac/vector.py:161-171 | the intended projection is `dot(v, d) / d.norm` |
| VectorAlgebra.SizeAttribute | lac/vector.py:146 | reading `v.dim` gives the number of components; reading an attribute `Vector` lacks, such as `ndim`, is AttributeError naming it |
| VectorAlgebra.CheckSizes | lac/vector.py:145-148 | the validation loop over the operands: with `dim` it passes exactly when every operand is 3-D; with a missing attribute it fails on the first operand with AttributeError |
| VectorAlgebra.Cross | lac/vector.py:145-148 | as written, `cross` raises AttributeError on `ndim` for every pair of operands, including 3-D ones |
| VectorAlgebra.CrossAlwaysFails | lac/vector.py:145-148 | on the 3-D basis vectors `[1,0,0]` and `[0,1,0]` the as-written `cross` fails |
| VectorAlgebra.CrossComponentsAsWritten | lac/vector.py:150-153 | the arithmetic as written is IndexError when an operand has fewer than 3 components; otherwise it has 3 components, the second is always 0, and for 3-D operands the first and third agree with the cross product |
| VectorAlgebra.CrossAsWrittenLosesSecondComponent | lac/vector.py:150-153 | for `[0,0,1] x [1,0,0]` the arithmetic as written gives `[0,0,0]` where the cross product is `[0,1,0]` |
| VectorAlgebra.CrossComponents | lac/vector.py:150-153 | the standard cross product has 3 components |
| VectorAlgebra.CrossIsOrthogonal | lac/vector.py:150-153 | the cross product has dot product 0 with each operand |
| VectorAlgebra.CrossLagrangeIdentity | lac/vector.py:150-153 | Lagrange's identity: the squared length of `a x b` is `dot(a,a) * dot(b,b) - dot(a,b)^2` |
| VectorAlgebra.CrossOfBasis | lac/vector.py:150-153 | `[1,0,0] x [0,1,0] == [0,0,1]` |
| VectorAlgebra.CrossAntiCommutative | lac/vector.py:150-153 | swapping the operands negates the cross product |
| VectorAlgebra.CrossProduct | lac/vector.py:139-153 | the validation loop checks v1 and then v2. It fails with the first operand's dimension when that operand is not 3-D. Otherwise it returns the standard cross product. It succeeds exactly when `CheckSizes([v1, v2], "dim")` does, and fails with the same error |
| VectorAlgebra.AllRoundedEqual | lac/vector.py:176 | true exactly when every pair produced by `zip` has equal rounded values |
| VectorAlgebra.AlmostEqual | lac/vector.py:174-178 | true exactly when the dimensions are equal and every pair of components rounds equal |
| VectorAlgebra.AlmostEqualRejectsMismatch | lac/vector.py:174-178 | vectors of different dimensions are never almost equal |
| VectorAlgebra.AlmostEqualIsEquivalence | lac/vector.py:174-178 | for any rounding, `almost_equal` is reflexive, symmetric and transitive |
| VectorAlgebra.AddNegationAlmostZero | lac/vector.py:174-178 | `add(v, scale(v, -1))` is almost equal to `make_zero(v.dim)` |
| VectorObject.Vector.constructor | lac/vector.py:34-36 | stores the components, and the norm cache starts empty |
| VectorObject.Vector.MakeZero | lac/vector.py:24-27 | a fresh vector with `make_zero(dim)` as its components, `dim` of them (none when `dim` is negative), and an empty cache |
| VectorObject.Vector.MakeUnitary | lac/vector.py:29-32 | ZeroDivisionError exactly when the norm of the components is 0; otherwise a fresh vector holding the unit vector, with as many components as given |
| VectorObject.Vector.NormValue | lac/vector.py:41 | `dot(self, self)` never fails, so the norm computation raises no ValueError |
| VectorObject.Vector.Norm | lac/vector.py:38-42 | on an empty cache, computes and stores `sqrt(dot(self, self))`; on a full cache, returns the stored value unchanged; only the cache is written |
| VectorObject.Vector.Dim | lac/vector.py:48-50 | no contract: the number of components; Neg, Sub, MakeZero, MakeUnitary and BuildUnitVector state that it is preserved |
| VectorObject.Vector.Get | lac/vector.py:55-56 | an integer index succeeds exactly when `-dim <= i < dim`; a negative index counts from the end; anything else is IndexError |
| VectorObject.Vector.Neg | lac/vector.py:67-68 | a fresh vector `scale(self, -1)` of the same `dim`, with an empty cache |
| VectorObject.Vector.Sub | lac/vector.py:70-71 | fails with DimensionMismatch exactly when the dimensions differ; otherwise a fresh vector of the same `dim` holding `subtract(self, other)` |
| VectorObject.Vector.Equals | lac/vector.py:79-80 | true exactly when the dimensions are equal and every pair of components rounds equal |
| VectorObject.BuildUnitVector | lac/vector.py:156-158 | reads the norm, filling the cache if it is empty; ZeroDivisionError exactly when that norm is 0; otherwise a fresh vector `scale(v, 1 / norm)` of the same `dim` |
| VectorObject.NormIsCached | lac/vector.py:38-42 | two reads of `norm` return the same value, and the cache holds that value |
| VectorObject.NormOfThreeFour | lac/vector.py:38-42 | with a square root that maps 25 to 5, the norm of `Vector([3, 4])` is 5 |

## Left out

- `make_random` (lac/vector.py:19-22): it draws components from the external random source `random.random()`.
- `angle_between` (lac/vector.py:134-136): its result is an `acos` of a floating-point ratio. There is no real-number meaning to state beyond `dot` and `norm`, which are modelled.
- `__repr__` (lac/vector.py:82-86): debug formatting through `reprlib`.
- The TypeError in `scale` for a non-numeric `k` (lac/vector.py:95-97): the scalar is a `real` here, so the check can never fail.
- Floating point: IEEE rounding, the error compensation of `math.fsum`, and negative zero. `sqrt` and `round` are parameters, with no properties assumed except in the lemmas that state them as preconditions.
- The `PRECISION` constant (lac/vector.py:13): it is folded into the `round` parameter of `AlmostEqual` and `Equals`.
- `__getitem__` with a slice: only integer indices are modelled.
- `__iter__`, the `components` property, `__matmul__`, `__add__`, `__rmul__`, `__abs__` and `__len__`: each is a one-line forwarding to the component array, `dot`, `add`, `scale`, `norm` or `dim`. Those targets are modelled.
- VectorObject.Vector.Norm: the `components` property hands out the component array itself. A caller that changed that array would leave a stale cache. Here the components are immutable.
- VectorAlgebra.LookUp: the inherited names are those of `object` in Python 3.12. Other versions differ in a few dunder names (`__getstate__` is new in 3.11). Attributes a caller adds to an instance afterwards are not modelled.
- Concurrent first reads of `norm` are not modelled, because the model is single-threaded.

## Findings

| source | as written | input that shows it | evidently intended | confidence | as-written member | corrected member |
|---|---|---|---|---|---|---|
| lac/vector.py:146 | `cross` validates with `v.ndim`, an attribute `Vector` never defines | `cross(Vector([1, 0, 0]), Vector([0, 1, 0]))` raises AttributeError instead of returning `[0, 0, 1]` | compare `v.dim` with 3 | high; not executed | VectorAlgebra.Cross, VectorAlgebra.CrossAlwaysFails | VectorAlgebra.CrossProduct |
| lac/vector.py:151 | the second component is `v1[2]*v2[0] - v1[2]*v2[0]`, which is always 0 | `[0, 0, 1] x [1, 0, 0]` gives `[0, 0, 0]`; the cross product is `[0, 1, 0]` | `v1[2]*v2[0] - v1[0]*v2[2]` | high; not executed | VectorAlgebra.CrossComponentsAsWritten, VectorAlgebra.CrossAsWrittenLosesSecondComponent | VectorAlgebra.CrossComponents, VectorAlgebra.CrossIsOrthogonal |
| lac/vector.py:171 | `project` calls `d.buil_unitary()`, which `Vector` does not define | `project(Vector([1, 1]), Vector([1, 0]))` raises AttributeError instead of returning 1 | `dot(v, build_unit_vector(d))` | high; not executed | VectorAlgebra.Project, VectorAlgebra.ProjectAlwaysFails | VectorAlgebra.ProjectOnto, VectorAlgebra.ProjectOntoIsScaledDot |
