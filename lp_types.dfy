/** Value types the LP model entity is built from: the objective sense, the
    matrix storage format, the variable types, the sparse matrix object and the
    internal (conditioning) scale record.  Doubles are modelled as `real`, with
    exact equality; HiGHS integers (HighsInt) as unbounded `int`. */
module LpTypes {

  /** Direction of optimisation. */
  datatype ObjSense = Minimize | Maximize

  /** Storage format tag of a sparse matrix; `None` means "no matrix yet". */
  datatype MatrixFormat = None | Colwise | Rowwise | RowwisePartitioned

  /** The integer value of a format tag, as the validator reads it when it
      casts the tag to an integer: the tags are numbered in declaration order
      from zero, so only `None` fails the test "greater than zero". */
  function FormatCode(f: MatrixFormat): (code: int)
    ensures 0 <= code <= 3
    ensures code > 0 <==> f != None
  {
    match f
    case None => 0
    case Colwise => 1
    case Rowwise => 2
    case RowwisePartitioned => 3
  }

  /** Type of a column; every type other than `Continuous` makes a model discrete. */
  datatype VarType = Continuous | Integer | SemiContinuous | SemiInteger

  /** The matrix object: a format tag, its dimensions and the compressed
      start/index/value arrays. */
  datatype SparseMatrix = SparseMatrix(
    format: MatrixFormat,
    numCol: int,
    numRow: int,
    start: seq<int>,
    index: seq<int>,
    value: seq<real>)

  /** The strategy code meaning "no internal scaling". */
  const SCALE_STRATEGY_OFF: int := 0

  /** Internal numerical-conditioning scale: a strategy code, whether scaling
      is present, the dimensions it was computed for, a cost factor and
      per-column and per-row factors. */
  datatype SimplexScale = SimplexScale(
    strategy: int,
    hasScaling: bool,
    numCol: int,
    numRow: int,
    cost: real,
    col: seq<real>,
    row: seq<real>)

  /** The scale record in its reset state. */
  const DEFAULT_SCALE: SimplexScale := SimplexScale(SCALE_STRATEGY_OFF, false, 0, 0, 1.0, [], [])
}
