# HighsLp: the LP model entity of HiGHS, in Dafny

This project models `HighsLp`, the in-memory linear/mixed-integer programme of the
HiGHS solver, as implemented in `src/lp_data/HighsLp.cpp`, and proves properties of
that model. The model covers:

- a column count and a row count;
- column costs, column and row bounds;
- the constraint matrix, stored twice: a legacy compressed-sparse triple
  (`a_start_`, `a_index_`, `a_value_`, with the format tag `format_`) and a matrix object
  `a_matrix_` carrying its own format tag and dimensions;
- the objective sense and offset;
- the model name and the column and row names;
- the optional integrality array;
- the record of the internal conditioning scale `scale_`.

Files:

- `lp_types.dfy` (module `LpTypes`): the value types.
  - `ObjSense`, `MatrixFormat` (with `FormatCode`, the integer the validator casts the tag to) and `VarType`.
  - `SparseMatrix`, the matrix object.
  - `SimplexScale`, the internal scale record, with its reset value `DEFAULT_SCALE`.
- `flags.dfy` (module `Flags`): `Accumulate`, which stands for the `ok = check && ok` chain that
  every validator and comparator of the source is written in. It is proved to equal
  "every check holds".
- `highs_lp.dfy` (module `LpData`): `class HighsLp` and lemmas about it.
  - The class has one field per member of the source's class.
  - Its members are the operations: `IsMip`, `EqualButForNames`, `Equal` (the source's
    `operator==`), `EqualScale`, `AMatrixOk`, `DimensionsOk`, `DimensionsAndAMatrixOk`
    and `Clear`.
  - Each validator and comparator that only computes is a function whose body folds the
    source's checks in source order with `Accumulate`. Its contract states the meaning as
    a plain equality of fields or records.
  - `IsMip` is a method with the source's loop and early return.
  - `DimensionsOk` is a method that updates an `ok` flag check by check, with the early
    return on negative counts. It is proved equal to the declarative predicate
    `DimensionsSpec`.
  - `Clear` resets the fields in place. It works through the source's groups of fields,
    one helper method per group, and each helper may change only its own fields.

Modelling choices:

- Doubles are `real` with exact equality.
- HiGHS integers are unbounded `int`.
- Strings are `seq<char>`.
- The enumerators of `MatrixFormat` are numbered from zero in declaration order. So
  `FormatCode(f) > 0` holds exactly when the format is not `None`. The header that
  declares them (`lp_data/HConst.h`) is not part of this model.

Where the code departs from the invariants documented for this layer, the model follows
the code and proves the departure:

- `UpperSizesUnchecked`: the sizes of the upper-bound arrays are never checked.
- `UnsortedStartsAccepted`: the starts are not required to be non-decreasing. Only the
  first start of the matrix object must be zero.
- `ClearedAMatrixOkIff`, `ClearedEqualIffMatrixHeadersAgree`: `clear` leaves the format
  tag and the dimensions of the matrix object as they were.
- `ClearedFailsDimensions`: a cleared model fails `dimensionsOk`. Its legacy start array
  is empty, so it cannot hold `num_col + 1 = 1` entries.
- `DimensionsOk` is true only when its conjunction of checks holds. It is not a complete
  check of well-formedness.

## Model

| member | source | states |
|---|---|---|
| `Flags.Accumulate` | src/lp_data/HighsLp.cpp:38-68 | a flag that starts true and is updated to `check && flag` for each check in turn ends true exactly when every check holds, i.e. when no check is false |
| `LpTypes.FormatCode` | src/lp_data/HighsLp.cpp:127-128 | the integer value of a format tag is positive exactly when the tag is not `None` |
| `LpData.HighsLp.IsMip` | src/lp_data/HighsLp.cpp:20-28 | given the asserted precondition (integrality empty or of size `num_col_`), returns true iff integrality is non-empty and some column below `num_col_` is not continuous; an empty array gives false |
| `LpData.HighsLp.Equal` | src/lp_data/HighsLp.cpp:30-35 | `operator==` holds iff `equalButForNames` holds and the row names and column names are equal; in particular it implies `equalButForNames` |
| `LpData.HighsLp.EqualButForNames` | src/lp_data/HighsLp.cpp:37-69 | true iff the counts, sense, offset, model name, five cost/bound arrays, legacy triple and format, the whole matrix object and the whole scale record are equal; names and integrality take no part |
| `LpData.HighsLp.EqualScale` | src/lp_data/HighsLp.cpp:186-194 | true iff the per-column and per-row scale factors equal those of the other scale; no other scale field matters |
| `LpData.HighsLp.AMatrixOk` | src/lp_data/HighsLp.cpp:172-184 | true iff the matrix object is exactly (format, num_col, num_row, a_start, a_index, a_value) of the LP, i.e. its format and dimensions match and its three arrays equal the legacy triple element-wise |
| `LpData.HighsLp.DimensionsOk` | src/lp_data/HighsLp.cpp:83-170 | where the guarded read is in bounds, the flag equals `DimensionsSpec`: non-negative counts; cost, lower-bound and legacy start sizes; row lower-bound size; matrix-object dimensions; for num_col > 0 start size and a real format; first start zero; a non-negative nonzero count covered by index and value sizes; non-negative strategy and, when scaling is on, matching scale dimensions and factor sizes |
| `LpData.HighsLp.DimensionsAndAMatrixOk` | src/lp_data/HighsLp.cpp:79-81 | true iff the dimension check and the matrix check both hold |
| `LpData.HighsLp.Clear` | src/lp_data/HighsLp.cpp:196-231 | afterwards counts are 0; all cost, bound, legacy, matrix-object array, name and integrality sequences are empty; sense is minimise, offset 0, format none, model name empty; the scale is the default; the matrix object's format and dimensions are unchanged |
| `LpData.HighsLp.ClearCounts` | src/lp_data/HighsLp.cpp:197-198 | sets both counts to zero and changes nothing else |
| `LpData.HighsLp.ClearLegacyMatrix` | src/lp_data/HighsLp.cpp:200-202 | empties the legacy triple and changes nothing else |
| `LpData.HighsLp.ClearCostsAndBounds` | src/lp_data/HighsLp.cpp:203-207 | empties the cost and the four bound arrays and changes nothing else |
| `LpData.HighsLp.ClearMatrixObject` | src/lp_data/HighsLp.cpp:209-211 | empties the three arrays of the matrix object and keeps its format and dimensions |
| `LpData.HighsLp.ResetObjective` | src/lp_data/HighsLp.cpp:213-215 | sense minimise, offset zero, format none, nothing else changed |
| `LpData.HighsLp.ClearNames` | src/lp_data/HighsLp.cpp:217-220 | empties the model, column and row names, nothing else changed |
| `LpData.HighsLp.ResetScale` | src/lp_data/HighsLp.cpp:224-230 | strategy off, no scaling, zero dimensions, cost factor 1.0, no per-entity factors |
| `LpData.EqualButForNamesReflexive` | src/lp_data/HighsLp.cpp:37-69 | every LP is equal but for names to itself |
| `LpData.EqualButForNamesSymmetric` | src/lp_data/HighsLp.cpp:37-69 | the comparison gives the same answer in both directions |
| `LpData.EqualButForNamesTransitive` | src/lp_data/HighsLp.cpp:37-69 | the comparison is transitive |
| `LpData.NamesDistinguishOnlyFullEquality` | src/lp_data/HighsLp.cpp:30-35 | LPs equal but for names whose column names differ are not equal under `operator==` |
| `LpData.IntegralityNotCompared` | src/lp_data/HighsLp.cpp:30-69 | LPs that differ only in integrality are equal under `operator==` |
| `LpData.ClearedEqualIffMatrixHeadersAgree` | src/lp_data/HighsLp.cpp:209-211 | two cleared LPs are equal (with or without names) exactly when the matrix-object format and dimensions that `clear` leaves alone agree |
| `LpData.EqualButForNamesImpliesEqualScale` | src/lp_data/HighsLp.cpp:186-194 | LPs equal but for names have equal scale factors |
| `LpData.NegativeCountsFailDimensions` | src/lp_data/HighsLp.cpp:87-93 | a negative column or row count fails the dimension check |
| `LpData.ValidatedLegacyTriple` | src/lp_data/HighsLp.cpp:131-148 | when both checks pass, the legacy triple has num_col + 1 starts, the first zero, and index and value arrays at least as long as the non-negative last start |
| `LpData.UnsortedStartsAccepted` | src/lp_data/HighsLp.cpp:131-134 | an LP with decreasing starts [0, 3, 1] passes the dimension check |
| `LpData.ClearedFailsDimensions` | src/lp_data/HighsLp.cpp:98-106 | a cleared LP fails the dimension check, because its empty legacy start array is shorter than num_col + 1 |
| `LpData.ClearedAMatrixOkIff` | src/lp_data/HighsLp.cpp:172-184 | a cleared LP passes the matrix check exactly when the matrix object's format is none and its dimensions are zero |
| `LpData.ClearedIsNotMip` | src/lp_data/HighsLp.cpp:20-28 | a cleared LP is not discrete |
| `LpData.UpperSizesUnchecked` | src/lp_data/HighsLp.cpp:99-113 | a one-column LP with no column upper bounds passes the dimension check as written |
| `LpData.GuardAdmitsOutOfBoundsRead` | src/lp_data/HighsLp.cpp:135-136 | with no columns, legacy starts [0] and no matrix-object starts, the guarded read is out of bounds |
| `LpData.IntendedChecksUpperSizes` | src/lp_data/HighsLp.cpp:95-113 | the intended check guarantees the upper-bound arrays are as long as the counts |
| `LpData.IntendedRefinesWritten` | src/lp_data/HighsLp.cpp:95-148 | wherever the as-written check is defined, the intended check holds iff the as-written one holds and the upper-bound arrays are long enough |

## Left out

- `HighsLp::objectiveValue` (src/lp_data/HighsLp.cpp:71-77) is not modelled. It is a floating-point accumulation whose result depends on double rounding.
- The `message` parameter and the `printf` diagnostics of the validators are not modelled. They are output only and do not change the returned flag.
- Doubles are modelled as reals with exact equality. So NaN, which is unequal to itself, and signed zeros are not represented. In the source an LP holding a NaN cost is not equal to itself, which `EqualButForNamesReflexive` does not capture.
- HiGHS integers are modelled as unbounded. The overflow of `num_col + 1` at the largest integer, and the narrowing of vector sizes to `HighsInt`, are not modelled.
- `LpData.HighsLp.IsMip`: the source's `assert` that a non-empty integrality array has `num_col_` entries is modelled as a precondition.
- `LpData.HighsLp.DimensionsOk`: the precondition `StartReadDefined` excludes the states where the source reads `a_matrix_.start[num_col]` out of bounds, which is undefined behaviour in C++. See Findings.
- `LpData.HighsLp.DimensionsAndAMatrixOk`: has the same precondition, for the same reason.
- `LpData.HighsLp.Clear` performs the source's resets through one helper per group of fields rather than as one straight sequence. The effect on the state is the same.
- The C++ `clear()` keeps the capacity of each vector. Capacity is not modelled.
- The class's constructor and its header (`lp_data/HighsLp.h`) are not part of this model.
- The user-scale engine (the `user_bound_scale` and `user_cost_scale` options, and scaling of costs, bounds and solutions by powers of two) is not part of this model. Its code is not among the modelled files.
- `check/TestUserScale.cpp` is not modelled. It drives file reading and the solver, neither of which is part of this model.
- The internal conditioning-scale computation, the solver, presolve and I/O are not part of this model.

## Findings

| source | as written | input that shows it | evidently intended | confidence | as-written member | corrected member |
|---|---|---|---|---|---|---|
| src/lp_data/HighsLp.cpp:101 | `legal_col_upper_size` compares `col_lower_size` with `num_col`, and line 111 makes `legal_row_upper_size` compare `row_lower_size`; the upper sizes computed at lines 97 and 109 are never used | `num_col_ = 1`, `num_row_ = 0`, one cost, one lower bound, no upper bounds, `a_start_ = [0, 0]`, matching colwise matrix object, scaling off: the check returns true | compare `col_upper_size` and `row_upper_size` | high (an unused local and a copy-paste pattern); not executed | `LpData.UpperSizesUnchecked` | `LpData.IntendedChecksUpperSizes` |
| src/lp_data/HighsLp.cpp:136 | `a_matrix_.start[num_col]` is read when `a_start_` (a different array) has `num_col + 1` entries | `num_col_ = num_row_ = 0`, `a_start_ = [0]`, `a_matrix_.start` empty: the read is out of bounds | guard the read by the size of `a_matrix_.start` | medium (harmless whenever the two representations agree); not executed | `LpData.GuardAdmitsOutOfBoundsRead` | `LpData.IntendedRefinesWritten` |

The corrected check is the predicate `LpData.HighsLp.DimensionsIntended`. It is defined
for every LP, and `IntendedRefinesWritten` proves it agrees with the as-written check
wherever that one is defined, apart from the added upper-bound sizes.
`DimensionsOk` and `DimensionsAndAMatrixOk` keep the as-written behaviour, since that is
what callers of the class observe.
