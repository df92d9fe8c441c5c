/** Finite sums of reals, and the row-major addressing the convolutions use. */
module Sums {

  function Sum(n: nat, f: nat -> real): real {
    if n == 0 then 0.0 else Sum(n - 1, f) + f(n - 1)
  }

  lemma {:induction false} SumSame(n: nat, f: nat -> real, g: nat -> real)
    requires forall i :: 0 <= i < n ==> f(i) == g(i)
    ensures Sum(n, f) == Sum(n, g)
  {
    if n > 0 {
      SumSame(n - 1, f, g);
    }
  }

  /** Row `i` of a table of terms, and the whole table row by row. */
  function RowSum(i: nat, n: nat, f: (nat, nat) -> real): real {
    if n == 0 then 0.0 else RowSum(i, n - 1, f) + f(i, n - 1)
  }

  function Rows(m: nat, n: nat, f: (nat, nat) -> real): real {
    if m == 0 then 0.0 else Rows(m - 1, n, f) + RowSum(m - 1, n, f)
  }

  /** Column `k`, and the whole table column by column. */
  function ColumnSum(m: nat, k: nat, f: (nat, nat) -> real): real {
    if m == 0 then 0.0 else ColumnSum(m - 1, k, f) + f(m - 1, k)
  }

  function Columns(m: nat, n: nat, f: (nat, nat) -> real): real {
    if n == 0 then 0.0 else Columns(m, n - 1, f) + ColumnSum(m, n - 1, f)
  }

  lemma {:induction false} ColumnsAddRow(m: nat, n: nat, f: (nat, nat) -> real)
    ensures Columns(m + 1, n, f) == Columns(m, n, f) + RowSum(m, n, f)
  {
    if n > 0 {
      ColumnsAddRow(m, n - 1, f);
    }
  }

  lemma {:induction false} ColumnsNone(n: nat, f: (nat, nat) -> real)
    ensures Columns(0, n, f) == 0.0
  {
    if n > 0 {
      ColumnsNone(n - 1, f);
    }
  }

  /** Row by row or column by column: the same total. */
  lemma {:induction false} Exchange(m: nat, n: nat, f: (nat, nat) -> real)
    ensures Rows(m, n, f) == Columns(m, n, f)
  {
    if m == 0 {
      ColumnsNone(n, f);
    } else {
      Exchange(m - 1, n, f);
      ColumnsAddRow(m - 1, n, f);
    }
  }

  lemma {:induction false} RowSame(i: nat, n: nat, f: (nat, nat) -> real, g: (nat, nat) -> real)
    requires forall k: nat :: k < n ==> f(i, k) == g(i, k)
    ensures RowSum(i, n, f) == RowSum(i, n, g)
  {
    if n > 0 {
      RowSame(i, n - 1, f, g);
    }
  }

  lemma {:induction false} RowsSame(m: nat, n: nat, f: (nat, nat) -> real, g: (nat, nat) -> real)
    requires forall i: nat, k: nat :: i < m && k < n ==> f(i, k) == g(i, k)
    ensures Rows(m, n, f) == Rows(m, n, g)
  {
    if m > 0 {
      RowsSame(m - 1, n, f, g);
      RowSame(m - 1, n, f, g);
    }
  }

  lemma {:induction false} RowSilent(i: nat, z: nat, f: (nat, nat) -> real)
    requires forall k: nat :: k < z ==> f(i, k) == 0.0
    ensures RowSum(i, z, f) == 0.0
  {
    if z > 0 {
      RowSilent(i, z - 1, f);
    }
  }

  lemma {:induction false} RowsSilent(m: nat, n: nat, f: (nat, nat) -> real)
    requires forall i: nat, k: nat :: i < m && k < n ==> f(i, k) == 0.0
    ensures Rows(m, n, f) == 0.0
  {
    if m > 0 {
      RowsSilent(m - 1, n, f);
      RowSilent(m - 1, n, f);
    }
  }

  lemma {:induction false} ColumnZero(m: nat, k: nat, f: (nat, nat) -> real)
    requires forall i: nat :: i < m ==> f(i, k) == 0.0
    ensures ColumnSum(m, k, f) == 0.0
  {
    if m > 0 {
      ColumnZero(m - 1, k, f);
    }
  }

  lemma {:induction false} ColumnIs(m: nat, k: nat, f: (nat, nat) -> real, g: nat -> real)
    requires forall i: nat :: i < m ==> f(i, k) == g(i)
    ensures ColumnSum(m, k, f) == Sum(m, g)
  {
    if m > 0 {
      ColumnIs(m - 1, k, f, g);
    }
  }

  // ------------------------------------------------------------ row-major order

  function At(row: nat, width: nat, column: nat): nat {
    row * width + column
  }

  lemma AtWithin(row: nat, width: nat, column: nat, rows: nat)
    requires row < rows && column < width
    ensures At(row, width, column) < rows * width
  {
    assert (row + 1) * width <= rows * width;
  }

  lemma Step(m: nat, n: nat)
    requires m > 0
    ensures m * n == (m - 1) * n + n
  {
  }

  lemma {:induction false} RowsApart(row: nat, row': nat, width: nat)
    ensures row < row' ==> row * width + width <= row' * width
    decreases row'
  {
    if row < row' {
      RowsApart(row, row' - 1, width);
      Step(row', width);
    }
  }

  lemma AtUnique(row: nat, width: nat, column: nat, row': nat, column': nat)
    requires column < width && column' < width && At(row, width, column) == At(row', width, column')
    ensures row == row' && column == column'
  {
    RowsApart(row, row', width);
    RowsApart(row', row, width);
  }

  /** No other cell has the address of this one. */
  lemma AtApart(row: nat, width: nat, column: nat)
    requires column < width
    ensures forall r: nat, c: nat :: c < width && (r != row || c != column) ==> At(r, width, c) != At(row, width, column)
  {
    forall r: nat, c: nat | c < width && (r != row || c != column)
      ensures At(r, width, c) != At(row, width, column)
    {
      if At(r, width, c) == At(row, width, column) {
        AtUnique(r, width, c, row, column);
      }
    }
  }

  lemma AtsWithin(rows: nat, width: nat)
    ensures forall r: nat, c: nat :: r < rows && c < width ==> At(r, width, c) < rows * width
  {
    forall r: nat, c: nat | r < rows && c < width
      ensures At(r, width, c) < rows * width
    {
      AtWithin(r, width, c, rows);
    }
  }

  lemma AtNested(a: nat, n: nat, b: nat, k: nat, c: nat)
    ensures At(At(a, n, b), k, c) == At(a, n * k, At(b, k, c))
  {
  }

  lemma AtIs(row: nat, width: nat, column: nat)
    ensures At(row, width, column) == row * width + column
  {
  }

  lemma {:induction false} SumBlock(from: nat, n: nat, f: nat -> real, row: nat, g: (nat, nat) -> real)
    requires forall k: nat :: k < n ==> f(from + k) == g(row, k)
    ensures Sum(from + n, f) == Sum(from, f) + RowSum(row, n, g)
  {
    if n > 0 {
      SumBlock(from, n - 1, f, row, g);
    }
  }

  /** The last row of a flattened table. */
  lemma LastRow(m: nat, n: nat, f: nat -> real, g: (nat, nat) -> real)
    requires m > 0 && forall i: nat, k: nat :: i < m && k < n ==> f(At(i, n, k)) == g(i, k)
    ensures Sum((m - 1) * n + n, f) == Sum((m - 1) * n, f) + RowSum(m - 1, n, g)
  {
    hide Sum, RowSum;
    var last, from := m - 1, (m - 1) * n;
    forall k: nat | k < n
      ensures f(from + k) == g(last, k)
    {
      AtIs(last, n, k);
    }
    SumBlock(from, n, f, last, g);
  }

  /** A sum over a flattened pair of indices is a sum row by row. */
  lemma {:induction false} SumFlat(m: nat, n: nat, f: nat -> real, g: (nat, nat) -> real)
    requires forall i: nat, k: nat :: i < m && k < n ==> f(At(i, n, k)) == g(i, k)
    ensures Sum(m * n, f) == Rows(m, n, g)
  {
    hide At, RowSum;
    if m > 0 {
      Step(m, n);
      SumFlat(m - 1, n, f, g);
      LastRow(m, n, f, g);
    }
  }

  /** Reading outside a buffer contributes nothing to a sum that never does so. */
  function Get(s: seq<real>, i: int): real {
    if 0 <= i < |s| then s[i] else 0.0
  }
}
