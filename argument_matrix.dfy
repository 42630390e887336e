/** The reshaping of a flat list of bind values into the column-major matrix that
    `executePreparedStatement` sends: the value at flat position i belongs to
    column i % k, where k is the number of parameter columns. */
module ArgumentMatrix {
  import opened Protocol

  /** r * k + c is a position of the flat list when r is a row and c a column. */
  lemma CellInRange(n: nat, k: nat, r: nat, c: nat)
    requires k > 0 && n % k == 0 && r < n / k && c < k
    ensures 0 <= r * k + c < n
  {
    var q := n / k;
    assert q * k == n;
    assert r + 1 <= q;
    assert (r + 1) * k <= q * k;
  }

  /** The matrix of the prepared-statement execute command: k columns of
      |args| / k rows each, cell (c, r) holding the value at flat position r * k + c. */
  function ColumnMajor<T>(args: seq<T>, k: nat): (m: seq<seq<T>>)
    requires k > 0 && |args| % k == 0
  {
    seq(k, c requires 0 <= c < k =>
      seq(|args| / k, r requires 0 <= r < |args| / k =>
        CellInRange(|args|, k, r, c); args[r * k + c]))
  }

  /** The matrix has exactly k columns and each column has |args| / k entries. */
  lemma ColumnMajorShape<T>(args: seq<T>, k: nat)
    requires k > 0 && |args| % k == 0
    ensures |ColumnMajor(args, k)| == k
    ensures forall c | 0 <= c < k :: |ColumnMajor(args, k)[c]| == |args| / k
  {
  }

  /** Flat position i lands in column i % k at row i / k: column c holds the
      values at positions c, c + k, c + 2k, ... in their original order. */
  lemma ColumnMajorAt<T>(args: seq<T>, k: nat, i: nat)
    requires k > 0 && |args| % k == 0 && i < |args|
    ensures 0 <= i % k < k && 0 <= i / k < |args| / k
    ensures ColumnMajor(args, k)[i % k][i / k] == args[i]
  {
    var q := |args| / k;
    assert q * k == |args|;
    assert (i / k) * k + i % k == i;
  }

  /** Reads the first `rows` rows of a column-major matrix back in row order, the
      order in which the caller listed the values. */
  function RowMajor<T>(m: seq<seq<T>>, rows: nat): (s: seq<T>)
    requires forall c | 0 <= c < |m| :: rows <= |m[c]|
    ensures |s| == rows * |m|
  {
    if rows == 0 then []
    else RowMajor(m, rows - 1) + seq(|m|, c requires 0 <= c < |m| => m[c][rows - 1])
  }

  /** The first `rows` rows of the matrix, read back in row order, are the first
      rows * k arguments. */
  lemma {:induction false} RowMajorPrefix<T>(args: seq<T>, k: nat, rows: nat)
    requires k > 0 && |args| % k == 0 && rows <= |args| / k
    ensures rows * k <= |args|
    ensures RowMajor(ColumnMajor(args, k), rows) == args[..rows * k]
  {
    var m := ColumnMajor(args, k);
    var q := |args| / k;
    assert q * k == |args|;
    assert rows * k <= q * k;
    if rows > 0 {
      RowMajorPrefix(args, k, rows - 1);
      var row := seq(k, c requires 0 <= c < k => m[c][rows - 1]);
      assert (rows - 1) * k + k == rows * k;
      assert row == args[(rows - 1) * k .. rows * k] by {
        forall c | 0 <= c < k
          ensures row[c] == args[(rows - 1) * k .. rows * k][c]
        {
          CellInRange(|args|, k, rows - 1, c);
        }
      }
      assert args[..rows * k] == args[..(rows - 1) * k] + args[(rows - 1) * k .. rows * k];
    }
  }

  /** Reading the whole matrix back in row order gives the argument list: the
      reshape loses, duplicates and reorders nothing. */
  lemma RowMajorOfColumnMajor<T>(args: seq<T>, k: nat)
    requires k > 0 && |args| % k == 0
    ensures RowMajor(ColumnMajor(args, k), |args| / k) == args
  {
    RowMajorPrefix(args, k, |args| / k);
    assert (|args| / k) * k == |args|;
  }

  /** A positive multiple of k is at least k. */
  lemma {:induction false} MulAtLeast(d: int, k: int)
    requires d >= 1 && k > 0
    ensures d * k >= k
  {
    if d > 1 {
      MulAtLeast(d - 1, k);
      assert d * k == (d - 1) * k + k;
    }
  }

  /** Distinct multiples of k are at least k apart. */
  lemma MulDistinct(a: int, b: int, k: int)
    requires k > 0
    ensures a > b ==> a * k >= b * k + k
    ensures a < b ==> b * k >= a * k + k
  {
    if a > b {
      MulAtLeast(a - b, k);
      assert a * k == (a - b) * k + b * k;
    } else if a < b {
      MulAtLeast(b - a, k);
      assert b * k == (b - a) * k + a * k;
    }
  }

  /** Quotient and remainder are determined by any decomposition n == q * k + r with 0 <= r < k. */
  lemma DivModUnique(n: int, k: int, q: int, r: int)
    requires k > 0 && 0 <= r < k && n == q * k + r
    ensures n / k == q && n % k == r
  {
    var q', r' := n / k, n % k;
    assert n == q' * k + r';
    assert 0 <= r' < k;
    MulDistinct(q, q', k);
  }

  /** Every cell filled so far holds the argument at its flat position, and every
      such position lies before i. */
  ghost predicate Filled(columns: seq<seq<Value>>, args: seq<Value>, k: nat, i: nat)
  {
    forall c, r | 0 <= c < |columns| && 0 <= r < |columns[c]| ::
      r * k + c < i <= |args| && columns[c][r] == args[r * k + c]
  }

  /** Appending args[i] to column col, the cell (col, row) with i == row * k + col,
      keeps every cell in its place. */
  lemma FilledStep(before: seq<seq<Value>>, args: seq<Value>, k: nat, i: nat, row: nat, col: nat)
    requires 0 <= col < |before| && i == row * k + col && i < |args|
    requires |before[col]| == row && Filled(before, args, k, i)
    ensures Filled(before[col := before[col] + [args[i]]], args, k, i + 1)
  {
    var after := before[col := before[col] + [args[i]]];
    forall c, r | 0 <= c < |after| && 0 <= r < |after[c]|
      ensures r * k + c < i + 1 <= |args| && after[c][r] == args[r * k + c]
    {
      if c != col || r < row {
        assert after[c][r] == before[c][r];
      }
    }
  }

  /** The loop of `executePreparedStatement` that appends each argument to the
      column slice i % k of a k-slot buffer. */
  method BuildColumns(args: seq<Value>, k: nat) returns (data: seq<seq<Value>>)
    requires k > 0 && |args| % k == 0
    ensures data == ColumnMajor(args, k)
  {
    var columns := new seq<Value>[k](_ => []);
    ghost var row, col := 0, 0;  // i == row * k + col: the cell that args[i] goes to
    for i := 0 to |args|
      invariant 0 <= col < k && i == row * k + col
      invariant forall c | 0 <= c < k :: |columns[c]| == row + (if c < col then 1 else 0)
      invariant Filled(columns[..], args, k, i)
    {
      DivModUnique(i, k, row, col);
      FilledStep(columns[..], args, k, i, row, col);
      columns[i % k] := columns[i % k] + [args[i]];
      if col + 1 < k {
        col := col + 1;
      } else {
        row, col := row + 1, 0;
      }
    }
    DivModUnique(|args|, k, row, col);
    data := columns[..];
    ColumnMajorShape(args, k);
    forall c | 0 <= c < k
      ensures data[c] == ColumnMajor(args, k)[c]
    {
    }
  }
}
