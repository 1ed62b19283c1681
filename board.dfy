/**
 * The concrete board of numgame.py: a `rows x cols` matrix of 0/1 ownership
 * flags, and the two aggregates used for scoring.
 *
 * `colfreqs` is `ones(r) . board + board[0]`: the element-wise sum of all
 * rows plus the King's row a second time.  `rowweights` is
 * `(board * colfreqs) . ones(c)`: each row scaled element-wise by the column
 * frequencies and then summed.  Both are written here as the vector sums they
 * compute; the lemmas relate them to plain cell-by-cell sums.
 */
module Board {

  type Matrix = seq<seq<int>>

  /** Every row has `cols` cells and there are `rows` rows. */
  predicate IsShape(b: Matrix, rows: nat, cols: nat)
  {
    |b| == rows && forall i :: 0 <= i < |b| ==> |b[i]| == cols
  }

  /** Every cell is an ownership flag. */
  predicate IsFlags(b: Matrix)
  {
    forall i, j :: 0 <= i < |b| && 0 <= j < |b[i]| ==> b[i][j] == 0 || b[i][j] == 1
  }

  /** `emptyboard` (numgame.py:10-11): an all-zero `rows x cols` board. */
  function Zeros(rows: nat, cols: nat): (b: Matrix)
    ensures IsShape(b, rows, cols) && IsFlags(b)
  {
    seq(rows, _ => seq(cols, _ => 0))
  }

  /** Nobody holds anything on an empty board. */
  lemma ZerosAreZero(rows: nat, cols: nat, i: nat, j: nat)
    requires i < rows && j < cols
    ensures Zeros(rows, cols)[i][j] == 0
  {
  }

  /** `set(r, c, val)` (numgame.py:13-14): cell `(row, col)` becomes `val`, every other cell keeps its value. */
  function SetCell(b: Matrix, row: nat, col: nat, val: int): (b': Matrix)
    requires row < |b| && col < |b[row]|
    ensures |b'| == |b|
    ensures forall i :: 0 <= i < |b| ==> |b'[i]| == |b[i]|
    ensures b'[row][col] == val
    ensures forall i, j :: 0 <= i < |b| && 0 <= j < |b[i]| && (i != row || j != col) ==> b'[i][j] == b[i][j]
  {
    b[row := b[row][col := val]]
  }

  /** Setting a flag keeps the shape and keeps the board a flag board. */
  lemma SetCellKeepsInvariant(b: Matrix, rows: nat, cols: nat, row: nat, col: nat, val: int)
    requires IsShape(b, rows, cols) && IsFlags(b)
    requires row < rows && col < cols
    requires val == 0 || val == 1
    ensures IsShape(SetCell(b, row, col, val), rows, cols)
    ensures IsFlags(SetCell(b, row, col, val))
  {
  }

  // ----- vector arithmetic -----

  function VecAdd(u: seq<int>, v: seq<int>): (w: seq<int>)
    requires |u| == |v|
    ensures |w| == |u|
    ensures forall j :: 0 <= j < |w| ==> w[j] == u[j] + v[j]
  {
    seq(|u|, j requires 0 <= j < |u| => u[j] + v[j])
  }

  function Scale(u: seq<int>, v: seq<int>): (w: seq<int>)
    requires |u| == |v|
    ensures |w| == |u|
    ensures forall j :: 0 <= j < |w| ==> w[j] == u[j] * v[j]
  {
    seq(|u|, j requires 0 <= j < |u| => u[j] * v[j])
  }

  /** `v . ones`: the sum of a vector. */
  function Total(v: seq<int>): (sum: int)
  {
    if |v| == 0 then 0 else Total(v[..|v| - 1]) + v[|v| - 1]
  }

  /** `ones . b`: the element-wise sum of the rows of `b`. */
  function SumRows(b: Matrix, cols: nat): (s: seq<int>)
    requires forall i :: 0 <= i < |b| ==> |b[i]| == cols
    ensures |s| == cols
  {
    if |b| == 0 then seq(cols, _ => 0) else VecAdd(SumRows(b[..|b| - 1], cols), b[|b| - 1])
  }

  // ----- the reference sums -----

  /** `sum_i b[i][j]`: how many rows hold column `j`. */
  function ColumnSum(b: Matrix, j: nat): (sum: int)
    requires forall i :: 0 <= i < |b| ==> j < |b[i]|
  {
    if |b| == 0 then 0 else ColumnSum(b[..|b| - 1], j) + b[|b| - 1][j]
  }

  /** `sum_j u[j] * v[j]`. */
  function Dot(u: seq<int>, v: seq<int>): (dot: int)
    requires |u| == |v|
  {
    if |u| == 0 then 0 else Dot(u[..|u| - 1], v[..|v| - 1]) + u[|u| - 1] * v[|v| - 1]
  }

  lemma {:induction false} SumRowsIsColumnSum(b: Matrix, cols: nat, j: nat)
    requires forall i :: 0 <= i < |b| ==> |b[i]| == cols
    requires j < cols
    ensures SumRows(b, cols)[j] == ColumnSum(b, j)
  {
    if |b| > 0 {
      SumRowsIsColumnSum(b[..|b| - 1], cols, j);
    }
  }

  lemma {:induction false} TotalOfScaleIsDot(u: seq<int>, v: seq<int>)
    requires |u| == |v|
    ensures Total(Scale(u, v)) == Dot(u, v)
  {
    if |u| > 0 {
      var n := |u|;
      assert Scale(u, v)[..n - 1] == Scale(u[..n - 1], v[..n - 1]);
      TotalOfScaleIsDot(u[..n - 1], v[..n - 1]);
    }
  }

  // ----- the scoring aggregates -----

  /**
   * `colfreqs` (numgame.py:17-18).  Its entry for column `j` is the number of
   * rows holding ability `j`, with the King's flag counted a second time.
   */
  function ColFreqs(b: Matrix, cols: nat): (f: seq<int>)
    requires |b| > 0
    requires forall i :: 0 <= i < |b| ==> |b[i]| == cols
    ensures |f| == cols
  {
    VecAdd(SumRows(b, cols), b[0])
  }

  /** The column frequency of `j` counts the rows holding `j`, the King's row twice. */
  lemma ColFreqsIsColumnSum(b: Matrix, cols: nat, j: nat)
    requires |b| > 0
    requires forall i :: 0 <= i < |b| ==> |b[i]| == cols
    requires j < cols
    ensures ColFreqs(b, cols)[j] == ColumnSum(b, j) + b[0][j]
  {
    SumRowsIsColumnSum(b, cols, j);
  }

  /**
   * `rowweights` (numgame.py:20-22).  Row `i` weighs the sum, over the
   * columns it holds, of their frequency.
   */
  function RowWeights(b: Matrix, cols: nat): (w: seq<int>)
    requires |b| > 0
    requires forall i :: 0 <= i < |b| ==> |b[i]| == cols
    ensures |w| == |b|
  {
    var f := ColFreqs(b, cols);
    seq(|b|, i requires 0 <= i < |b| => Total(Scale(b[i], f)))
  }

  /** The weight of row `i` is the sum of the frequencies of the columns it holds. */
  lemma RowWeightIsDot(b: Matrix, cols: nat, i: nat)
    requires |b| > 0
    requires forall i :: 0 <= i < |b| ==> |b[i]| == cols
    requires i < |b|
    ensures RowWeights(b, cols)[i] == Dot(b[i], ColFreqs(b, cols))
  {
    TotalOfScaleIsDot(b[i], ColFreqs(b, cols));
  }

  // ----- properties -----

  lemma {:induction false} ColumnSumOfSetCell(b: Matrix, cols: nat, row: nat, col: nat, val: int, j: nat)
    requires forall i :: 0 <= i < |b| ==> |b[i]| == cols
    requires row < |b| && col < cols && j < cols
    ensures ColumnSum(SetCell(b, row, col, val), j)
         == ColumnSum(b, j) + (if j == col then val - b[row][col] else 0)
  {
    var b' := SetCell(b, row, col, val);
    var n := |b|;
    if row == n - 1 {
      assert b'[..n - 1] == b[..n - 1];
    } else {
      assert b'[..n - 1] == SetCell(b[..n - 1], row, col, val);
      ColumnSumOfSetCell(b[..n - 1], cols, row, col, val, j);
    }
  }

  /**
   * How `set` moves the column frequencies: the changed column moves by the
   * change of the cell, twice over on the King's row; every other column keeps
   * its frequency.
   */
  lemma ColFreqsOfSetCell(b: Matrix, cols: nat, row: nat, col: nat, val: int)
    requires |b| > 0
    requires forall i :: 0 <= i < |b| ==> |b[i]| == cols
    requires row < |b| && col < cols
    ensures ColFreqs(SetCell(b, row, col, val), cols)[col]
         == ColFreqs(b, cols)[col] + (val - b[row][col]) * (if row == 0 then 2 else 1)
    ensures forall j :: 0 <= j < cols && j != col ==>
              ColFreqs(SetCell(b, row, col, val), cols)[j] == ColFreqs(b, cols)[j]
  {
    var b' := SetCell(b, row, col, val);
    ColumnSumOfSetCell(b, cols, row, col, val, col);
    ColFreqsIsColumnSum(b, cols, col);
    ColFreqsIsColumnSum(b', cols, col);
    forall j | 0 <= j < cols && j != col
      ensures ColFreqs(b', cols)[j] == ColFreqs(b, cols)[j]
    {
      ColumnSumOfSetCell(b, cols, row, col, val, j);
      ColFreqsIsColumnSum(b, cols, j);
      ColFreqsIsColumnSum(b', cols, j);
    }
  }

  /**
   * Granting a flag (`buy`): column frequency is unchanged when the flag was
   * already held, goes up by 2 on the King's row and by 1 on any other row.
   */
  lemma ColFreqAfterGrant(b: Matrix, cols: nat, row: nat, col: nat)
    requires |b| > 0
    requires forall i :: 0 <= i < |b| ==> |b[i]| == cols
    requires IsFlags(b)
    requires row < |b| && col < cols
    ensures ColFreqs(SetCell(b, row, col, 1), cols)[col]
         == ColFreqs(b, cols)[col] + (if b[row][col] == 1 then 0 else if row == 0 then 2 else 1)
  {
    ColFreqsOfSetCell(b, cols, row, col, 1);
  }

  lemma {:induction false} ColumnSumNonNegative(b: Matrix, j: nat)
    requires forall i :: 0 <= i < |b| ==> j < |b[i]|
    requires IsFlags(b)
    ensures ColumnSum(b, j) >= 0
  {
    if |b| > 0 {
      ColumnSumNonNegative(b[..|b| - 1], j);
    }
  }

  lemma {:induction false} DotNonNegative(u: seq<int>, v: seq<int>)
    requires |u| == |v|
    requires forall j :: 0 <= j < |u| ==> u[j] >= 0 && v[j] >= 0
    ensures Dot(u, v) >= 0
  {
    if |u| > 0 {
      DotNonNegative(u[..|u| - 1], v[..|v| - 1]);
    }
  }

  /** On a flag board every column frequency and every row weight is non-negative. */
  lemma WeightsNonNegative(b: Matrix, cols: nat)
    requires |b| > 0
    requires forall i :: 0 <= i < |b| ==> |b[i]| == cols
    requires IsFlags(b)
    ensures forall j :: 0 <= j < cols ==> ColFreqs(b, cols)[j] >= 0
    ensures forall i :: 0 <= i < |b| ==> RowWeights(b, cols)[i] >= 0
  {
    var f := ColFreqs(b, cols);
    forall j | 0 <= j < cols ensures f[j] >= 0 {
      ColumnSumNonNegative(b, j);
      ColFreqsIsColumnSum(b, cols, j);
    }
    forall i | 0 <= i < |b| ensures RowWeights(b, cols)[i] >= 0 {
      DotNonNegative(b[i], f);
      RowWeightIsDot(b, cols, i);
    }
  }

  lemma {:induction false} ColumnSumOfZeros(rows: nat, cols: nat, j: nat)
    requires j < cols
    ensures ColumnSum(Zeros(rows, cols), j) == 0
  {
    if rows > 0 {
      assert Zeros(rows, cols)[..rows - 1] == Zeros(rows - 1, cols);
      ColumnSumOfZeros(rows - 1, cols, j);
    }
  }

  /** A vector that is zero except at `k` meets `v` only there. */
  lemma {:induction false} DotOfSingle(u: seq<int>, v: seq<int>, k: nat)
    requires |u| == |v|
    requires forall j :: 0 <= j < |u| && j != k ==> u[j] == 0
    ensures Dot(u, v) == if k < |u| then u[k] * v[k] else 0
  {
    if |u| > 0 {
      DotOfSingle(u[..|u| - 1], v[..|v| - 1], k);
    }
  }

  /**
   * The weights after the first grant on an empty board: the granted row
   * weighs 1, or 2 when it is the King's, and every other row weighs 0.
   */
  lemma FirstGrantWeights(rows: nat, cols: nat, row: nat, col: nat)
    requires row < rows && col < cols
    ensures forall i :: 0 <= i < rows ==>
              RowWeights(SetCell(Zeros(rows, cols), row, col, 1), cols)[i]
              == if i != row then 0 else if row == 0 then 2 else 1
  {
    var z := Zeros(rows, cols);
    var b := SetCell(z, row, col, 1);
    var f := ColFreqs(b, cols);
    ColFreqsOfSetCell(z, cols, row, col, 1);
    ColFreqsIsColumnSum(z, cols, col);
    ColumnSumOfZeros(rows, cols, col);
    forall i | 0 <= i < rows
      ensures RowWeights(b, cols)[i] == if i != row then 0 else if row == 0 then 2 else 1
    {
      RowWeightIsDot(b, cols, i);
      DotOfSingle(b[i], f, col);
    }
  }
}
