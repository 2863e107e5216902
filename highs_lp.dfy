/** The LP model entity HighsLp (src/lp_data/HighsLp.cpp): its fields, the
    structural validators, the comparators, the discreteness query and the
    in-place reset. */
module LpData {
  import opened LpTypes
  import opened Flags

  class HighsLp {
    var numCol: int
    var numRow: int

    var colCost: seq<real>
    var colLower: seq<real>
    var colUpper: seq<real>
    var rowLower: seq<real>
    var rowUpper: seq<real>

    // The legacy compressed-sparse triple and its format tag.
    var aStart: seq<int>
    var aIndex: seq<int>
    var aValue: seq<real>
    var format: MatrixFormat

    // The matrix object, which is meant to mirror the legacy triple.
    var aMatrix: SparseMatrix

    var sense: ObjSense
    var offset: real

    var modelName: string
    var colNames: seq<string>
    var rowNames: seq<string>

    var integrality: seq<VarType>

    var scale: SimplexScale

    // ---------------------------------------------------------------------
    // Discreteness

    /** What the source asserts before scanning the integrality array: it is
        either absent (empty) or has one entry per column. */
    ghost predicate IntegralitySized()
      reads this
    {
      |integrality| == 0 || |integrality| == numCol
    }

    /** The model has integrality information and some column is not continuous. */
    ghost predicate Discrete()
      reads this
      requires IntegralitySized()
    {
      |integrality| > 0 && exists i :: 0 <= i < numCol && integrality[i] != Continuous
    }

    /** Scans the integrality array for a non-continuous column, returning at
        the first one found. */
    method IsMip() returns (r: bool)
      requires IntegralitySized()
      ensures r <==> Discrete()
    {
      if |integrality| > 0 {
        var col := 0;
        while col < numCol
          invariant 0 <= col <= numCol
          invariant forall j :: 0 <= j < col ==> integrality[j] == Continuous
        {
          if integrality[col] != Continuous {
            return true;
          }
          col := col + 1;
        }
      }
      return false;
    }

    // ---------------------------------------------------------------------
    // Comparators

    /** Exact equality of every structural and numeric member: counts, sense,
        offset, model name, cost and bound arrays, the legacy triple and its
        format, all of the matrix object and all of the scale record.  Column
        and row names and the integrality array take no part. */
    function EqualButForNames(lp: HighsLp): (equal: bool)
      reads this, lp
      ensures equal <==>
        && numCol == lp.numCol && numRow == lp.numRow
        && sense == lp.sense && offset == lp.offset && modelName == lp.modelName
        && colCost == lp.colCost && colUpper == lp.colUpper && colLower == lp.colLower
        && rowUpper == lp.rowUpper && rowLower == lp.rowLower
        && aStart == lp.aStart && aIndex == lp.aIndex && aValue == lp.aValue
        && format == lp.format
        && aMatrix == lp.aMatrix
        && scale == lp.scale
    {
      Accumulate([
        numCol == lp.numCol,
        numRow == lp.numRow,
        sense == lp.sense,
        offset == lp.offset,
        modelName == lp.modelName,
        colCost == lp.colCost,
        colUpper == lp.colUpper,
        colLower == lp.colLower,
        rowUpper == lp.rowUpper,
        rowLower == lp.rowLower,
        aStart == lp.aStart,
        aIndex == lp.aIndex,
        aValue == lp.aValue,
        format == lp.format,
        aMatrix.format == lp.aMatrix.format,
        aMatrix.numCol == lp.aMatrix.numCol,
        aMatrix.numRow == lp.aMatrix.numRow,
        aMatrix.start == lp.aMatrix.start,
        aMatrix.index == lp.aMatrix.index,
        aMatrix.value == lp.aMatrix.value,
        scale.strategy == lp.scale.strategy,
        scale.hasScaling == lp.scale.hasScaling,
        scale.numCol == lp.scale.numCol,
        scale.numRow == lp.scale.numRow,
        scale.cost == lp.scale.cost,
        scale.col == lp.scale.col,
        scale.row == lp.scale.row])
    }

    /** Full equality (the source's operator==): equal but for names, and the
        row names and column names are equal too. */
    function Equal(lp: HighsLp): (equal: bool)
      reads this, lp
      ensures equal ==> EqualButForNames(lp)
      ensures equal <==> EqualButForNames(lp) && rowNames == lp.rowNames && colNames == lp.colNames
    {
      Accumulate([
        EqualButForNames(lp),
        rowNames == lp.rowNames,
        colNames == lp.colNames])
    }

    /** Compares only the per-column and per-row factors of the internal scale
        with those of `other`. */
    function EqualScale(other: SimplexScale): (equal: bool)
      reads this
      ensures equal <==> scale.col == other.col && scale.row == other.row
    {
      Accumulate([
        scale.col == other.col,
        scale.row == other.row])
    }

    // ---------------------------------------------------------------------
    // Validators

    /** The matrix object is exactly the legacy triple under the LP's format and
        dimensions. */
    function AMatrixOk(): (ok: bool)
      reads this
      ensures ok <==> aMatrix == SparseMatrix(format, numCol, numRow, aStart, aIndex, aValue)
    {
      Accumulate([
        aMatrix.format == format,
        aMatrix.numCol == numCol,
        aMatrix.numRow == numRow,
        aMatrix.start == aStart,
        aMatrix.index == aIndex,
        aMatrix.value == aValue])
    }

    /** The dimension check reads the declared nonzero count from the matrix
        object's start array, at position numCol, whenever the LEGACY start
        array is long enough.  This predicate says that read stays in bounds;
        the source leaves it undefined otherwise. */
    ghost predicate StartReadDefined()
      reads this
    {
      numCol >= 0 && numRow >= 0 && |aStart| >= numCol + 1 ==> |aMatrix.start| >= numCol + 1
    }

    /** The conditions under which the dimension check accepts the LP, as the
        source states them.  Upper-bound arrays are not constrained (their
        sizes are never examined), starts are not required to be ordered, and
        only the first start of the matrix object is required to be zero. */
    ghost predicate DimensionsSpec()
      reads this
      requires StartReadDefined()
    {
      && numCol >= 0 && numRow >= 0
      && |colCost| >= numCol && |colLower| >= numCol
      && |aStart| >= numCol + 1
      && |rowLower| >= numRow
      && aMatrix.numCol == numCol && aMatrix.numRow == numRow
      && (numCol > 0 ==> |aMatrix.start| >= numCol + 1 && aMatrix.format != None)
      && (|aMatrix.start| > 0 ==> aMatrix.start[0] == 0)
      && aMatrix.start[numCol] >= 0
      && |aMatrix.index| >= aMatrix.start[numCol]
      && |aMatrix.value| >= aMatrix.start[numCol]
      && scale.strategy >= 0
      && (scale.strategy != SCALE_STRATEGY_OFF ==>
            && scale.numCol == numCol && scale.numRow == numRow
            && |scale.row| >= numRow && |scale.col| >= numCol)
    }

    /** The dimension check, one flag update per source check, with the early
        return on negative counts. */
    method DimensionsOk() returns (ok: bool)
      requires StartReadDefined()
      ensures ok == DimensionsSpec()
    {
      ok := true;
      ok := numCol >= 0 && ok;
      ok := numRow >= 0 && ok;
      if !ok {
        return;
      }

      var legalColCostSize := |colCost| >= numCol;
      var legalColLowerSize := |colLower| >= numCol;
      // The upper-bound test examines the size of the LOWER-bound array.
      var legalColUpperSize := |colLower| >= numCol;
      var legalMatrixStartSize := |aStart| >= numCol + 1;
      ok := legalColCostSize && ok;
      ok := legalColLowerSize && ok;
      ok := legalColUpperSize && ok;
      ok := legalMatrixStartSize && ok;

      var legalRowLowerSize := |rowLower| >= numRow;
      // Likewise for rows.
      var legalRowUpperSize := |rowLower| >= numRow;
      ok := legalRowLowerSize && ok;
      ok := legalRowUpperSize && ok;

      ok := aMatrix.numCol == numCol && ok;
      ok := aMatrix.numRow == numRow && ok;

      var aMatrixStartSize := |aMatrix.start|;
      // With no columns neither the start size nor the format need be legal.
      if numCol > 0 {
        ok := aMatrixStartSize >= numCol + 1 && ok;
        ok := FormatCode(aMatrix.format) > 0 && ok;
      }
      if aMatrixStartSize > 0 {
        ok := aMatrix.start[0] == 0 && ok;
      }
      var numNz := 0;
      if legalMatrixStartSize {
        numNz := aMatrix.start[numCol];
      }
      if numNz < 0 {
        ok := false;
      } else {
        ok := |aMatrix.index| >= numNz && ok;
        ok := |aMatrix.value| >= numNz && ok;
      }

      ok := scale.strategy >= 0 && ok;
      if scale.strategy != SCALE_STRATEGY_OFF {
        ok := scale.numCol == numCol && ok;
        ok := scale.numRow == numRow && ok;
        ok := |scale.row| >= numRow && ok;
        ok := |scale.col| >= numCol && ok;
      }
    }

    /** The dimension check followed, only when it passes, by the matrix check. */
    method DimensionsAndAMatrixOk() returns (ok: bool)
      requires StartReadDefined()
      ensures ok <==> DimensionsSpec() && AMatrixOk()
    {
      ok := DimensionsOk();
      ok := ok && AMatrixOk();
    }

    /** The dimension check as its authors evidently meant it: the upper-bound
        arrays are measured themselves, and the nonzero count is read only
        when the array it is read from is long enough. */
    ghost predicate DimensionsIntended()
      reads this
    {
      && numCol >= 0 && numRow >= 0
      && |colCost| >= numCol && |colLower| >= numCol && |colUpper| >= numCol
      && |aStart| >= numCol + 1
      && |rowLower| >= numRow && |rowUpper| >= numRow
      && aMatrix.numCol == numCol && aMatrix.numRow == numRow
      && (numCol > 0 ==> |aMatrix.start| >= numCol + 1 && aMatrix.format != None)
      && (|aMatrix.start| > 0 ==> aMatrix.start[0] == 0)
      && (|aMatrix.start| >= numCol + 1 ==>
            && aMatrix.start[numCol] >= 0
            && |aMatrix.index| >= aMatrix.start[numCol]
            && |aMatrix.value| >= aMatrix.start[numCol])
      && scale.strategy >= 0
      && (scale.strategy != SCALE_STRATEGY_OFF ==>
            && scale.numCol == numCol && scale.numRow == numRow
            && |scale.row| >= numRow && |scale.col| >= numCol)
    }

    // ---------------------------------------------------------------------
    // Reset

    /** Every field the reset empties or sets to its default has that value.
        The format tag and the dimensions of the matrix object are not part of
        this state: the reset leaves them alone. */
    ghost predicate Cleared()
      reads this
    {
      && numCol == 0 && numRow == 0
      && aStart == [] && aIndex == [] && aValue == []
      && colCost == [] && colLower == [] && colUpper == []
      && rowLower == [] && rowUpper == []
      && aMatrix.start == [] && aMatrix.index == [] && aMatrix.value == []
      && sense == Minimize && offset == 0.0 && format == None
      && modelName == ""
      && colNames == [] && rowNames == []
      && integrality == []
      && scale == DEFAULT_SCALE
    }

    /** Resets the LP in place to the empty model.  The fields are reset in
        the source's groups, one helper per group, each changing only the
        fields it names. */
    method Clear()
      modifies this
      ensures Cleared()
      ensures aMatrix == old(aMatrix).(start := [], index := [], value := [])
      ensures aMatrix.format == old(aMatrix.format)
      ensures aMatrix.numCol == old(aMatrix.numCol) && aMatrix.numRow == old(aMatrix.numRow)
    {
      ClearCounts();
      ClearLegacyMatrix();
      ClearCostsAndBounds();
      ClearMatrixObject();
      ResetObjective();
      ClearNames();
      integrality := [];
      ResetScale();
    }

    method ClearCounts()
      modifies this`numCol, this`numRow
      ensures numCol == 0 && numRow == 0
    {
      numCol := 0;
      numRow := 0;
    }

    method ClearLegacyMatrix()
      modifies this`aStart, this`aIndex, this`aValue
      ensures aStart == [] && aIndex == [] && aValue == []
    {
      aStart := [];
      aIndex := [];
      aValue := [];
    }

    method ClearCostsAndBounds()
      modifies this`colCost, this`colLower, this`colUpper, this`rowLower, this`rowUpper
      ensures colCost == [] && colLower == [] && colUpper == []
      ensures rowLower == [] && rowUpper == []
    {
      colCost := [];
      colLower := [];
      colUpper := [];
      rowLower := [];
      rowUpper := [];
    }

    /** Empties the arrays of the matrix object; its format tag and dimensions
        are left as they were. */
    method ClearMatrixObject()
      modifies this`aMatrix
      ensures aMatrix == old(aMatrix).(start := [], index := [], value := [])
    {
      aMatrix := aMatrix.(start := []);
      aMatrix := aMatrix.(index := []);
      aMatrix := aMatrix.(value := []);
    }

    method ResetObjective()
      modifies this`sense, this`offset, this`format
      ensures sense == Minimize && offset == 0.0 && format == None
    {
      sense := Minimize;
      offset := 0.0;
      format := None;
    }

    method ClearNames()
      modifies this`modelName, this`colNames, this`rowNames
      ensures modelName == "" && colNames == [] && rowNames == []
    {
      modelName := "";
      colNames := [];
      rowNames := [];
    }

    method ResetScale()
      modifies this`scale
      ensures scale == DEFAULT_SCALE
    {
      scale := scale.(strategy := SCALE_STRATEGY_OFF);
      scale := scale.(hasScaling := false);
      scale := scale.(numCol := 0);
      scale := scale.(numRow := 0);
      scale := scale.(cost := 1.0);
      scale := scale.(col := []);
      scale := scale.(row := []);
    }
  }

  // -----------------------------------------------------------------------
  // Properties of the comparators

  lemma EqualButForNamesReflexive(lp: HighsLp)
    ensures lp.EqualButForNames(lp)
  {
  }

  lemma EqualButForNamesSymmetric(a: HighsLp, b: HighsLp)
    ensures a.EqualButForNames(b) <==> b.EqualButForNames(a)
  {
  }

  lemma EqualButForNamesTransitive(a: HighsLp, b: HighsLp, c: HighsLp)
    requires a.EqualButForNames(b) && b.EqualButForNames(c)
    ensures a.EqualButForNames(c)
  {
  }

  /** Different column names separate two LPs under full equality even when
      they are equal but for names. */
  lemma NamesDistinguishOnlyFullEquality(a: HighsLp, b: HighsLp)
    requires a.EqualButForNames(b)
    requires a.colNames != b.colNames
    ensures !a.Equal(b)
  {
  }

  /** Neither comparator looks at integrality: LPs that differ only there
      compare equal under both. */
  lemma IntegralityNotCompared(a: HighsLp, b: HighsLp)
    requires a.EqualButForNames(b) && a.colNames == b.colNames && a.rowNames == b.rowNames
    requires a.integrality != b.integrality
    ensures a.Equal(b)
  {
  }

  /** Two cleared LPs are structurally equal exactly when the matrix-object
      fields that the reset does not touch happen to agree. */
  lemma ClearedEqualIffMatrixHeadersAgree(a: HighsLp, b: HighsLp)
    requires a.Cleared() && b.Cleared()
    ensures a.EqualButForNames(b) <==>
      && a.aMatrix.format == b.aMatrix.format
      && a.aMatrix.numCol == b.aMatrix.numCol
      && a.aMatrix.numRow == b.aMatrix.numRow
    ensures a.Equal(b) <==> a.EqualButForNames(b)
  {
  }

  /** Structural equality implies equality of the internal scale factors. */
  lemma EqualButForNamesImpliesEqualScale(a: HighsLp, b: HighsLp)
    requires a.EqualButForNames(b)
    ensures a.EqualScale(b.scale)
  {
  }

  // -----------------------------------------------------------------------
  // Properties of the validators

  /** Negative counts fail the dimension check. */
  lemma NegativeCountsFailDimensions(lp: HighsLp)
    requires lp.numCol < 0 || lp.numRow < 0
    ensures lp.StartReadDefined() && !lp.DimensionsSpec()
  {
  }

  /** When both checks pass, the legacy triple has the shape the dimension
      check demanded of the matrix object: numCol + 1 starts, the first one
      zero, and index and value arrays covering the declared nonzero count. */
  lemma ValidatedLegacyTriple(lp: HighsLp)
    requires lp.StartReadDefined() && lp.DimensionsSpec() && lp.AMatrixOk()
    ensures |lp.aStart| >= lp.numCol + 1 && lp.aStart[0] == 0
    ensures 0 <= lp.aStart[lp.numCol]
    ensures |lp.aIndex| >= lp.aStart[lp.numCol] && |lp.aValue| >= lp.aStart[lp.numCol]
  {
  }

  /** The starts need not be ordered: an LP whose second column would end
      before it begins passes the dimension check. */
  lemma UnsortedStartsAccepted(lp: HighsLp)
    requires lp.numCol == 2 && lp.numRow == 1
    requires |lp.colCost| == 2 && |lp.colLower| == 2 && |lp.rowLower| == 1
    requires lp.aStart == [0, 3, 1]
    requires lp.aMatrix == SparseMatrix(Colwise, 2, 1, [0, 3, 1], [0], [1.0])
    requires lp.scale.strategy == SCALE_STRATEGY_OFF
    ensures lp.StartReadDefined() && lp.DimensionsSpec()
    ensures lp.aMatrix.start[1] > lp.aMatrix.start[2]
  {
  }

  /** A cleared LP fails the dimension check: its legacy start array is
      empty, so it cannot hold numCol + 1 = 1 entries. */
  lemma ClearedFailsDimensions(lp: HighsLp)
    requires lp.Cleared()
    ensures lp.StartReadDefined() && !lp.DimensionsSpec()
  {
  }

  /** A cleared LP passes the matrix check exactly when the untouched
      matrix-object header already described an empty, formatless matrix. */
  lemma ClearedAMatrixOkIff(lp: HighsLp)
    requires lp.Cleared()
    ensures lp.AMatrixOk() <==>
      lp.aMatrix.format == None && lp.aMatrix.numCol == 0 && lp.aMatrix.numRow == 0
  {
  }

  /** A cleared LP is not discrete. */
  lemma ClearedIsNotMip(lp: HighsLp)
    requires lp.Cleared()
    ensures lp.IntegralitySized() && !lp.Discrete()
  {
  }

  // -----------------------------------------------------------------------
  // Findings: the dimension check as written against as intended

  /** As written, an LP with one column and NO column upper bounds passes the
      dimension check. */
  lemma UpperSizesUnchecked(lp: HighsLp)
    requires lp.numCol == 1 && lp.numRow == 0
    requires |lp.colCost| == 1 && |lp.colLower| == 1 && lp.colUpper == []
    requires lp.aStart == [0, 0]
    requires lp.aMatrix == SparseMatrix(Colwise, 1, 0, [0, 0], [], [])
    requires lp.scale.strategy == SCALE_STRATEGY_OFF
    ensures lp.StartReadDefined() && lp.DimensionsSpec()
    ensures |lp.colUpper| < lp.numCol
  {
  }

  /** As written, an LP with no columns whose legacy start array is [0] but
      whose matrix object has no starts sends the check out of bounds. */
  lemma GuardAdmitsOutOfBoundsRead(lp: HighsLp)
    requires lp.numCol == 0 && lp.numRow == 0
    requires lp.aStart == [0] && lp.aMatrix.start == []
    ensures !lp.StartReadDefined()
  {
  }

  /** The intended check measures the upper-bound arrays themselves. */
  lemma IntendedChecksUpperSizes(lp: HighsLp)
    requires lp.DimensionsIntended()
    ensures |lp.colUpper| >= lp.numCol && |lp.rowUpper| >= lp.numRow
  {
  }

  /** Wherever the as-written check is defined, the intended one accepts
      exactly the LPs it accepts whose upper-bound arrays are long enough. */
  lemma IntendedRefinesWritten(lp: HighsLp)
    requires lp.StartReadDefined()
    ensures lp.DimensionsIntended() <==>
      lp.DimensionsSpec() && |lp.colUpper| >= lp.numCol && |lp.rowUpper| >= lp.numRow
  {
  }
}
