/**
 Gauss-Jordan elimination with partial pivoting (`_solve`, src/oraja_training/model/core.py:120-137)
 over exact reals.  A row is its coefficients and its right-hand side.
 */
module LinearSolve {
  type Row = seq<real>

  /** The first n products of a row and a vector, added up. */
  function Dot(row: Row, x: seq<real>, n: nat): real
    requires n <= |row| && n <= |x|
  {
    if n == 0 then 0.0 else Dot(row, x, n - 1) + row[n - 1] * x[n - 1]
  }

  ghost predicate Satisfies(row: Row, x: seq<real>) {
    |row| == |x| + 1 && Dot(row, x, |x|) == row[|x|]
  }

  ghost predicate Solves(a: seq<Row>, x: seq<real>) {
    forall r :: 0 <= r < |a| ==> Satisfies(a[r], x)
  }

  ghost predicate Square(a: seq<Row>, n: nat) {
    |a| == n && forall r :: 0 <= r < n ==> |a[r]| == n + 1
  }

  function Abs(v: real): real {
    if v < 0.0 then -v else v
  }

  const Smallest: real := 0.000000000001

  // ----- Row operations that start at a column -------------------------------------------------

  function ScaledRow(row: Row, c: nat, d: real): (after: Row)
    requires d != 0.0
    ensures |after| == |row|
  {
    seq(|row|, i requires 0 <= i < |row| => if i < c then row[i] else row[i] / d)
  }

  function ReducedRow(row: Row, pivot: Row, c: nat): (after: Row)
    requires |pivot| == |row| && c < |row|
    ensures |after| == |row|
  {
    seq(|row|, i requires 0 <= i < |row| => if i < c then row[i] else row[i] - row[c] * pivot[i])
  }

  method ScaleRow(row: Row, c: nat, d: real) returns (after: Row)
    requires d != 0.0 && c <= |row|
    ensures after == ScaledRow(row, c, d)
  {
    ghost var target := ScaledRow(row, c, d);
    after := row;
    for item := c to |row|
      invariant |after| == |row|
      invariant forall i :: 0 <= i < |row| ==> after[i] == if i < item then target[i] else row[i]
    {
      after := after[item := after[item] / d];
    }
  }

  method ReduceRow(row: Row, pivot: Row, c: nat) returns (after: Row)
    requires |pivot| == |row| && c < |row|
    ensures after == ReducedRow(row, pivot, c)
  {
    var factor := row[c];
    ghost var target := ReducedRow(row, pivot, c);
    after := row;
    for item := c to |row|
      invariant |after| == |row|
      invariant forall i :: 0 <= i < |row| ==> after[i] == if i < item then target[i] else row[i]
    {
      after := after[item := after[item] - factor * pivot[item]];
    }
  }

  lemma {:induction false} DotScaled(row: Row, after: Row, x: seq<real>, n: nat, d: real)
    requires n <= |row| && n <= |after| && n <= |x| && forall i :: 0 <= i < n ==> after[i] * d == row[i]
    ensures Dot(after, x, n) * d == Dot(row, x, n)
  {
    if n > 0 {
      DotScaled(row, after, x, n - 1, d);
      var u, v, w := Dot(after, x, n - 1), after[n - 1], x[n - 1];
      assert (v * w) * d == (v * d) * w;
      assert (u + v * w) * d == u * d + (v * w) * d;
    }
  }

  lemma {:induction false} DotReduced(row: Row, pivot: Row, after: Row, x: seq<real>, n: nat, f: real)
    requires n <= |row| && n <= |pivot| && n <= |after| && n <= |x|
    requires forall i :: 0 <= i < n ==> after[i] == row[i] - f * pivot[i]
    ensures Dot(after, x, n) == Dot(row, x, n) - f * Dot(pivot, x, n)
  {
    if n > 0 {
      DotReduced(row, pivot, after, x, n - 1, f);
      var p, q, w, u := row[n - 1], pivot[n - 1], x[n - 1], Dot(pivot, x, n - 1);
      assert (p - f * q) * w == p * w - f * (q * w);
      assert f * (u + q * w) == f * u + f * (q * w);
    }
  }

  lemma Cancel(a: real, b: real, d: real)
    requires d != 0.0
    ensures a * d == b * d <==> a == b
  {
  }

  /** A row and its multiple have the same solutions. */
  lemma MultipleSame(row: Row, after: Row, d: real, x: seq<real>)
    requires d != 0.0 && |row| == |after| == |x| + 1 && forall i :: 0 <= i < |row| ==> after[i] * d == row[i]
    ensures Satisfies(after, x) <==> Satisfies(row, x)
  {
    DotScaled(row, after, x, |x|, d);
    Cancel(Dot(after, x, |x|), after[|x|], d);
  }

  lemma SameDifference(a: real, b: real, f: real, p: real)
    ensures a - f * p == b - f * p <==> a == b
  {
  }

  /** Subtracting a multiple of a satisfied row changes nothing. */
  lemma DifferenceSame(row: Row, pivot: Row, after: Row, f: real, x: seq<real>)
    requires |pivot| == |row| == |after| == |x| + 1 && forall i :: 0 <= i < |row| ==> after[i] == row[i] - f * pivot[i]
    requires Satisfies(pivot, x)
    ensures Satisfies(after, x) <==> Satisfies(row, x)
  {
    var n := |x|;
    DotReduced(row, pivot, after, x, n, f);
    SameDifference(Dot(row, x, n), row[n], f, pivot[n]);
  }

  /** Starting at a column is enough when the entries before it are zero. */
  lemma ScaledWhole(row: Row, c: nat, d: real, after: Row)
    requires d != 0.0 && after == ScaledRow(row, c, d) && forall i :: 0 <= i < c && i < |row| ==> row[i] == 0.0
    ensures forall i :: 0 <= i < |row| ==> after[i] * d == row[i]
  {
  }

  lemma ReducedWhole(row: Row, pivot: Row, c: nat, after: Row)
    requires |pivot| == |row| && c < |row| && after == ReducedRow(row, pivot, c)
    requires forall i :: 0 <= i < c ==> pivot[i] == 0.0
    ensures forall i :: 0 <= i < |row| ==> after[i] == row[i] - row[c] * pivot[i]
  {
  }

  // ----- Columns -------------------------------------------------------------------------------

  /** The columns before this one are those of the identity. */
  ghost predicate UnitBefore(a: seq<Row>, n: nat, c: nat)
    requires Square(a, n) && c <= n
  {
    forall r, k :: 0 <= r < n && 0 <= k < c ==> a[r][k] == if r == k then 1.0 else 0.0
  }

  ghost predicate SameSolutions(a: seq<Row>, b: seq<Row>, n: nat) {
    forall x: seq<real> :: |x| == n ==> (Solves(a, x) <==> Solves(b, x))
  }

  /** `max(range(column, size), key=...)`: the first row with the largest entry. */
  method FindPivot(a: seq<Row>, n: nat, c: nat) returns (p: nat)
    requires Square(a, n) && c < n
    ensures c <= p < n
    ensures forall r :: c <= r < n ==> Abs(a[r][c]) <= Abs(a[p][c])
    ensures forall r :: c <= r < p ==> Abs(a[r][c]) < Abs(a[p][c])
  {
    p := c;
    for row := c + 1 to n
      invariant c <= p < row <= n
      invariant forall r :: c <= r < row ==> Abs(a[r][c]) <= Abs(a[p][c])
      invariant forall r :: c <= r < p ==> Abs(a[r][c]) < Abs(a[p][c])
    {
      if Abs(a[row][c]) > Abs(a[p][c]) {
        p := row;
      }
    }
  }

  function Swapped(a: seq<Row>, i: nat, j: nat): seq<Row>
    requires i < |a| && j < |a|
  {
    a[i := a[j]][j := a[i]]
  }

  lemma SwapKeeps(a: seq<Row>, n: nat, c: nat, p: nat)
    requires Square(a, n) && c <= p < n && UnitBefore(a, n, c)
    ensures var b := Swapped(a, c, p); Square(b, n) && UnitBefore(b, n, c) && SameSolutions(a, b, n)
  {
    var b := Swapped(a, c, p);
    forall x: seq<real> | |x| == n ensures Solves(a, x) <==> Solves(b, x) {
      if Solves(b, x) {
        forall r | 0 <= r < n ensures Satisfies(a[r], x) {
          assert a[r] == b[if r == c then p else if r == p then c else r];
        }
      }
    }
  }

  lemma ScaleKeeps(a: seq<Row>, n: nat, c: nat, after: Row)
    requires Square(a, n) && c < n && UnitBefore(a, n, c) && a[c][c] != 0.0 && after == ScaledRow(a[c], c, a[c][c])
    ensures var b := a[c := after]; Square(b, n) && UnitBefore(b, n, c) && b[c][c] == 1.0 && SameSolutions(a, b, n)
  {
    var b := a[c := after];
    var d := a[c][c];
    assert d / d == 1.0;
    assert b[c][c] == 1.0;
    ScaledWhole(a[c], c, d, after);
    forall x: seq<real> | |x| == n ensures Solves(a, x) <==> Solves(b, x) {
      MultipleSame(a[c], after, d, x);
      if Solves(b, x) {
        forall r | 0 <= r < n ensures Satisfies(a[r], x) { assert Satisfies(b[r], x); }
      }
    }
  }

  ghost predicate Eliminated(a: seq<Row>, n: nat, c: nat, b: seq<Row>)
    requires Square(a, n) && c < n
  {
    Square(b, n) && b[c] == a[c] && forall r :: 0 <= r < n && r != c ==> b[r] == ReducedRow(a[r], a[c], c)
  }

  lemma EliminationKeeps(a: seq<Row>, n: nat, c: nat, b: seq<Row>)
    requires Square(a, n) && c < n && UnitBefore(a, n, c) && a[c][c] == 1.0 && Eliminated(a, n, c, b)
    ensures UnitBefore(b, n, c + 1) && SameSolutions(a, b, n)
  {
    forall x: seq<real> | |x| == n ensures Solves(a, x) <==> Solves(b, x) {
      if Solves(a, x) || Solves(b, x) {
        assert Satisfies(a[c], x) && a[c] == b[c];
        forall r | 0 <= r < n && r != c ensures Satisfies(b[r], x) <==> Satisfies(a[r], x) {
          ReducedWhole(a[r], a[c], c, b[r]);
          DifferenceSame(a[r], a[c], b[r], a[r][c], x);
        }
      }
    }
  }

  method EliminateColumn(a: seq<Row>, n: nat, c: nat) returns (b: seq<Row>)
    requires Square(a, n) && c < n
    ensures Eliminated(a, n, c, b)
  {
    b := a;
    for row := 0 to n
      invariant Square(b, n)
      invariant forall r :: 0 <= r < row && r != c ==> b[r] == ReducedRow(a[r], a[c], c)
      invariant b[c] == a[c] && forall r :: row <= r < n ==> b[r] == a[r]
    {
      if row != c {
        var after := ReduceRow(b[row], b[c], c);
        b := b[row := after];
      }
    }
  }

  /** With every column a column of the identity the right-hand sides are the one solution. */
  lemma {:induction false} UnitDot(row: Row, x: seq<real>, k: nat, n: nat)
    requires n <= |x| && n <= |row|
    requires forall i :: 0 <= i < n ==> row[i] == if i == k then 1.0 else 0.0
    ensures Dot(row, x, n) == if k < n then x[k] else 0.0
  {
    if n > 0 { UnitDot(row, x, k, n - 1); }
  }

  lemma IdentitySolves(a: seq<Row>, n: nat, result: seq<real>)
    requires Square(a, n) && UnitBefore(a, n, n) && |result| == n && forall r :: 0 <= r < n ==> result[r] == a[r][n]
    ensures forall x: seq<real> :: |x| == n ==> (Solves(a, x) <==> x == result)
  {
    forall x: seq<real> | |x| == n ensures Solves(a, x) <==> x == result {
      forall r | 0 <= r < n ensures Satisfies(a[r], x) <==> x[r] == result[r] {
        UnitDot(a[r], x, r, n);
      }
    }
  }

  // ----- The elimination as a function of the system ---------------------------------------------

  /** The first of rows c to k - 1 with the largest entry in column c. */
  function BestRow(a: seq<Row>, n: nat, c: nat, k: nat): (p: nat)
    requires |a| == n && c < k <= n && forall r :: 0 <= r < n ==> |a[r]| == n + 1
    ensures c <= p < k
  {
    if k == c + 1 then c
    else
      var p := BestRow(a, n, c, k - 1);
      if Abs(a[k - 1][c]) > Abs(a[p][c]) then k - 1 else p
  }

  /** The largest entry left in the column is as good as zero. */
  predicate TooSmall(a: seq<Row>, n: nat, c: nat)
    requires |a| == n && c < n && forall r :: 0 <= r < n ==> |a[r]| == n + 1
  {
    Abs(a[BestRow(a, n, c, n)][c]) < Smallest
  }

  function AfterColumn(a: seq<Row>, n: nat, c: nat): (b: seq<Row>)
    requires |a| == n && c < n && forall r :: 0 <= r < n ==> |a[r]| == n + 1
    ensures |b| == n && forall r :: 0 <= r < n ==> |b[r]| == n + 1
  {
    var s := Swapped(a, c, BestRow(a, n, c, n));
    var pivot := ScaledRow(s[c], c, if Abs(s[c][c]) < Smallest then Smallest else s[c][c]);
    seq(n, r requires 0 <= r < n => if r == c then pivot else ReducedRow(s[r], pivot, c))
  }

  function AfterColumns(a: seq<Row>, n: nat, k: nat): (b: seq<Row>)
    requires |a| == n && k <= n && forall r :: 0 <= r < n ==> |a[r]| == n + 1
    ensures |b| == n && forall r :: 0 <= r < n ==> |b[r]| == n + 1
  {
    if k == 0 then a else AfterColumn(AfterColumns(a, n, k - 1), n, k - 1)
  }

  ghost predicate Clamps(a: seq<Row>, n: nat, k: nat)
    requires Square(a, n) && k <= n
  {
    exists c :: 0 <= c < k && TooSmall(AfterColumns(a, n, c), n, c)
  }

  lemma {:induction false} BestIsFirstLargest(a: seq<Row>, n: nat, c: nat, k: nat)
    requires Square(a, n) && c < k <= n
    ensures var p := BestRow(a, n, c, k);
      && (forall r :: c <= r < k ==> Abs(a[r][c]) <= Abs(a[p][c]))
      && (forall r :: c <= r < p ==> Abs(a[r][c]) < Abs(a[p][c]))
    decreases k
  {
    if k > c + 1 { BestIsFirstLargest(a, n, c, k - 1); }
  }

  function Augmented(matrix: seq<seq<real>>, vector: seq<real>): (a: seq<Row>)
    requires |matrix| >= |vector|
    ensures |a| == |vector| && forall r :: 0 <= r < |a| ==> a[r] == matrix[r] + [vector[r]]
  {
    seq(|vector|, r requires 0 <= r < |vector| => matrix[r] + [vector[r]])
  }

  /** One column in place: swap, scale from the column on, eliminate from the column on. */
  method ReduceColumn(a: seq<Row>, n: nat, c: nat) returns (b: seq<Row>)
    requires Square(a, n) && c < n
    ensures b == AfterColumn(a, n, c)
  {
    var p := FindPivot(a, n, c);
    BestIsFirstLargest(a, n, c, n);
    assert p == BestRow(a, n, c, n);
    var swapped := Swapped(a, c, p);
    var d := swapped[c][c];
    if Abs(d) < Smallest {
      d := Smallest;
    }
    var pivot := ScaleRow(swapped[c], c, d);
    b := EliminateColumn(swapped[c := pivot], n, c);
    assert b == AfterColumn(a, n, c);
  }

  lemma ColumnKeeps(a: seq<Row>, n: nat, c: nat)
    requires Square(a, n) && c < n && !TooSmall(a, n, c) && UnitBefore(a, n, c)
    ensures UnitBefore(AfterColumn(a, n, c), n, c + 1) && SameSolutions(a, AfterColumn(a, n, c), n)
  {
    var p := BestRow(a, n, c, n);
    var swapped := Swapped(a, c, p);
    var pivot := ScaledRow(swapped[c], c, swapped[c][c]);
    var scaled, b := swapped[c := pivot], AfterColumn(a, n, c);
    SwapKeeps(a, n, c, p);
    ScaleKeeps(swapped, n, c, pivot);
    assert Eliminated(scaled, n, c, b);
    EliminationKeeps(scaled, n, c, b);
    SameTwice(a, swapped, scaled, n);
    SameTwice(a, scaled, b, n);
  }

  lemma {:induction false} ColumnsKeep(a: seq<Row>, n: nat, k: nat)
    requires Square(a, n) && k <= n && !Clamps(a, n, k)
    ensures UnitBefore(AfterColumns(a, n, k), n, k) && SameSolutions(a, AfterColumns(a, n, k), n)
  {
    if k > 0 {
      ClampsStep(a, n, k - 1);
      ColumnsKeep(a, n, k - 1);
      NextColumnKeeps(a, AfterColumns(a, n, k - 1), n, k - 1);
    }
  }

  lemma NextColumnKeeps(a: seq<Row>, b: seq<Row>, n: nat, k: nat)
    requires Square(a, n) && Square(b, n) && k < n && UnitBefore(b, n, k) && SameSolutions(a, b, n)
      && !TooSmall(b, n, k)
    ensures UnitBefore(AfterColumn(b, n, k), n, k + 1) && SameSolutions(a, AfterColumn(b, n, k), n)
  {
    ColumnKeeps(b, n, k);
    SameTwice(a, b, AfterColumn(b, n, k), n);
  }

  lemma ClampsStep(a: seq<Row>, n: nat, k: nat)
    requires Square(a, n) && k < n
    ensures Clamps(a, n, k + 1) <==> Clamps(a, n, k) || TooSmall(AfterColumns(a, n, k), n, k)
  {
  }

  lemma SameTwice(a: seq<Row>, b: seq<Row>, c: seq<Row>, n: nat)
    requires SameSolutions(a, b, n) && SameSolutions(b, c, n)
    ensures SameSolutions(a, c, n)
  {
  }

  /** Without a clamp the last column is the one solution of the system that was put in. */
  lemma LastColumnSolves(start: seq<Row>, n: nat, result: seq<real>)
    requires Square(start, n) && !Clamps(start, n, n)
    requires |result| == n && forall r :: 0 <= r < n ==> result[r] == AfterColumns(start, n, n)[r][n]
    ensures forall x: seq<real> :: |x| == n ==> (Solves(start, x) <==> x == result)
  {
    ColumnsKeep(start, n, n);
    IdentitySolves(AfterColumns(start, n, n), n, result);
  }

  /**
   `_solve`.  The result is the last column of the eliminated system.  It is a solution exactly if there
   is one that is 0 at every clamped column; when no pivot is clamped, it is the one and only solution.
   */
  method Solve(matrix: seq<seq<real>>, vector: seq<real>) returns (result: seq<real>)
    requires |matrix| == |vector| && forall r :: 0 <= r < |matrix| ==> |matrix[r]| == |vector|
    ensures |result| == |vector|
    ensures forall r :: 0 <= r < |vector| ==>
              result[r] == AfterColumns(Augmented(matrix, vector), |vector|, |vector|)[r][|vector|]
    ensures !Clamps(Augmented(matrix, vector), |vector|, |vector|) ==>
              forall x: seq<real> :: |x| == |vector| ==> (Solves(Augmented(matrix, vector), x) <==> x == result)
    ensures Solves(Augmented(matrix, vector), result) <==> exists x: seq<real> ::
              |x| == |vector| && Solves(Augmented(matrix, vector), x)
                && ZeroAtClamps(Augmented(matrix, vector), |vector|, x)
  {
    var n := |vector|;
    var augmented := Augmented(matrix, vector);
    ghost var start := augmented;
    for column := 0 to n
      invariant augmented == AfterColumns(start, n, column)
    {
      augmented := ReduceColumn(augmented, n, column);
    }
    result := seq(n, r requires 0 <= r < n => augmented[r][n]);
    if !Clamps(start, n, n) {
      LastColumnSolves(start, n, result);
    }
    ClampedSolve(start, n, result);
  }

  // ----- Clamped columns -------------------------------------------------------------------------

  /** The system that the later columns go on from: the columns passed are taken for those of the identity. */
  function Pretended(a: seq<Row>, n: nat, k: nat): (b: seq<Row>)
    requires k <= n && |a| == n && forall r :: 0 <= r < n ==> |a[r]| == n + 1
    ensures |b| == n && forall r :: 0 <= r < n ==> |b[r]| == n + 1
    ensures forall r, i :: 0 <= r < n && 0 <= i <= n ==>
      b[r][i] == if i >= k then a[r][i] else if r == i then 1.0 else 0.0
  {
    seq(n, r requires 0 <= r < n => seq(n + 1, i requires 0 <= i <= n =>
      if i >= k then a[r][i] else if r == i then 1.0 else 0.0))
  }

  function Divisor(a: seq<Row>, n: nat, k: nat): (d: real)
    requires k < n && |a| == n && forall r :: 0 <= r < n ==> |a[r]| == n + 1
    ensures d != 0.0
  {
    if TooSmall(a, n, k) then Smallest else a[BestRow(a, n, k, n)][k]
  }

  /** The pretended system with its pivot row in place. */
  function Pivoted(a: seq<Row>, n: nat, k: nat): (s: seq<Row>)
    requires k < n && |a| == n && forall r :: 0 <= r < n ==> |a[r]| == n + 1
    ensures |s| == n && forall r :: 0 <= r < n ==> |s[r]| == n + 1
    ensures forall r, i :: 0 <= r < n && 0 <= i <= n ==>
      s[r][i] == if i >= k then Swapped(a, k, BestRow(a, n, k, n))[r][i] else if r == i then 1.0 else 0.0
  {
    Swapped(Pretended(a, n, k), k, BestRow(a, n, k, n))
  }

  function NextPretended(a: seq<Row>, n: nat, k: nat): (u: seq<Row>)
    requires k < n && |a| == n && forall r :: 0 <= r < n ==> |a[r]| == n + 1
    ensures |u| == n && forall r :: 0 <= r < n ==> |u[r]| == n + 1
  {
    Pretended(AfterColumn(a, n, k), n, k + 1)
  }

  lemma Quotient(v: real, d: real)
    requires d != 0.0
    ensures v / d * d == v
  {
  }

  ghost predicate Divided(row: Row, d: real, after: Row) {
    |row| == |after| && forall i :: 0 <= i < |row| ==> after[i] * d == row[i]
  }

  ghost predicate Reduced(row: Row, pivot: Row, f: real, after: Row) {
    |pivot| == |row| == |after| && forall i :: 0 <= i < |row| ==> after[i] == row[i] - f * pivot[i]
  }

  lemma ReducedSame(row: Row, pivot: Row, f: real, after: Row, x: seq<real>)
    requires Reduced(row, pivot, f, after) && |row| == |x| + 1 && Satisfies(pivot, x)
    ensures Satisfies(after, x) <==> Satisfies(row, x)
  {
    DifferenceSame(row, pivot, after, f, x);
  }

  /** A row satisfied once one entry is replaced, and divided after that. */
  lemma DividedSame(row: Row, k: nat, d: real, after: Row, x: seq<real>)
    requires d != 0.0 && k < |x| && |row| == |x| + 1 && Divided(row[k := d], d, after) && Satisfies(after, x)
    ensures Satisfies(row, x) <==> row[k] == d || x[k] == 0.0
  {
    MultipleSame(row[k := d], after, d, x);
    DotReplaced(row, row[k := d], x, k, |x|);
    ZeroProduct(row[k] - d, x[k]);
  }

  /** Row k of the next pretended system: its pivot row, taken for 1 at k and divided. */
  lemma PivotEntries(a: seq<Row>, n: nat, k: nat)
    requires Square(a, n) && k < n
    ensures var s, u, d := Pivoted(a, n, k), NextPretended(a, n, k), Divisor(a, n, k);
      Divided(s[k][k := d], d, u[k])
  {
    var s, u, d := Pivoted(a, n, k), NextPretended(a, n, k), Divisor(a, n, k);
    var t := Swapped(a, k, BestRow(a, n, k, n));
    assert AfterColumn(a, n, k)[k] == ScaledRow(t[k], k, d);
    DividedEntries(t[k], s[k], k, d, u[k]);
  }

  lemma DividedEntries(t: Row, row: Row, k: nat, d: real, after: Row)
    requires d != 0.0 && |t| == |row| == |after| && k < |row|
    requires forall i :: 0 <= i < |row| ==> row[i] == if i >= k then t[i] else 0.0
    requires forall i :: 0 <= i < |row| ==> after[i] == if i > k then t[i] / d else if i == k then 1.0 else 0.0
    ensures Divided(row[k := d], d, after)
  {
    forall i | 0 <= i < |row| ensures after[i] * d == row[k := d][i] { Quotient(t[i], d); }
  }

  /** Reduced from the pivot on, and taken for the identity's up to it: reduced as a whole. */
  lemma ReducedEntries(t: Row, scaled: Row, row: Row, k: nat, pivot: Row, after: Row)
    requires |t| == |scaled| == |row| == |pivot| == |after| && k < |row|
    requires forall i :: k <= i < |row| ==> row[i] == t[i]
    requires forall i :: 0 <= i < |row| ==> pivot[i] == if i > k then scaled[i] else if i == k then 1.0 else 0.0
    requires forall i :: 0 <= i < |row| ==>
      after[i] == if i > k then ReducedRow(t, scaled, k)[i] else if i == k then 0.0 else row[i]
    ensures Reduced(row, pivot, row[k], after)
  {
    forall i | 0 <= i < |row| ensures after[i] == row[i] - row[k] * pivot[i] {
      if i < k { TimesZero(row[k], pivot[i]); }
    }
  }

  lemma TimesZero(a: real, b: real)
    requires b == 0.0
    ensures a * b == 0.0
  {
  }

  /** Its other rows are reduced by that one as a whole. */
  lemma OtherEntries(a: seq<Row>, n: nat, k: nat, r: nat)
    requires Square(a, n) && k < n && r < n && r != k
    ensures var s, u := Pivoted(a, n, k), NextPretended(a, n, k);
      Reduced(s[r], u[k], s[r][k], u[r])
  {
    var s, u, d := Pivoted(a, n, k), NextPretended(a, n, k), Divisor(a, n, k);
    var t := Swapped(a, k, BestRow(a, n, k, n));
    var pivot := ScaledRow(t[k], k, d);
    assert AfterColumn(a, n, k)[k] == pivot && AfterColumn(a, n, k)[r] == ReducedRow(t[r], pivot, k);
    ReducedEntries(t[r], pivot, s[r], k, u[k], u[r]);
  }

  /** One entry replaced: the products differ by what the entries differ by. */
  lemma {:induction false} DotReplaced(a: Row, b: Row, x: seq<real>, c: nat, n: nat)
    requires n <= |a| && n <= |b| && n <= |x| && forall i :: 0 <= i < n && i != c ==> a[i] == b[i]
    ensures Dot(a, x, n) == Dot(b, x, n) + if c < n then (a[c] - b[c]) * x[c] else 0.0
  {
    if n > 0 {
      DotReplaced(a, b, x, c, n - 1);
      assert n - 1 == c ==> a[c] * x[c] == b[c] * x[c] + (a[c] - b[c]) * x[c];
    }
  }

  lemma ZeroProduct(a: real, b: real)
    ensures a * b == 0.0 <==> a == 0.0 || b == 0.0
  {
  }

  /**
   If x satisfies the divided pivot row, it satisfies the row undivided exactly if x is 0 there or nothing
   was clamped.
   */
  lemma PivotRow(a: seq<Row>, n: nat, k: nat, x: seq<real>)
    requires Square(a, n) && k < n && |x| == n
    ensures Satisfies(NextPretended(a, n, k)[k], x) ==>
      (Satisfies(Pivoted(a, n, k)[k], x) <==> x[k] == 0.0 || !TooSmall(a, n, k))
  {
    var row, d := Pivoted(a, n, k)[k], Divisor(a, n, k);
    PivotEntries(a, n, k);
    if Satisfies(NextPretended(a, n, k)[k], x) { DividedSame(row, k, d, NextPretended(a, n, k)[k], x); }
  }

  lemma OtherRows(a: seq<Row>, n: nat, k: nat, x: seq<real>, r: nat)
    requires Square(a, n) && k < n && |x| == n && r < n && r != k
    ensures Satisfies(NextPretended(a, n, k)[k], x) ==>
      (Satisfies(Pivoted(a, n, k)[r], x) <==> Satisfies(NextPretended(a, n, k)[r], x))
  {
    var s, u := Pivoted(a, n, k), NextPretended(a, n, k);
    OtherEntries(a, n, k, r);
    if Satisfies(u[k], x) { ReducedSame(s[r], u[k], s[r][k], u[r], x); }
  }

  /** x satisfies the first k rows. */
  ghost predicate SolvesFirst(a: seq<Row>, x: seq<real>, k: nat) {
    forall r :: 0 <= r < k && r < |a| ==> Satisfies(a[r], x)
  }

  /**
   From a pretended system back to the one before: if x satisfies the first rows of the later, it does
   of the earlier, and it solves the earlier exactly if it solves the later and is 0 at a clamp.
   */
  lemma PretendedStep(a: seq<Row>, n: nat, k: nat, x: seq<real>)
    requires Square(a, n) && k < n && |x| == n
    requires SolvesFirst(NextPretended(a, n, k), x, k + 1)
    ensures SolvesFirst(Pretended(a, n, k), x, k)
    ensures Solves(Pretended(a, n, k), x)
      <==> Solves(NextPretended(a, n, k), x) && (x[k] == 0.0 || !TooSmall(a, n, k))
  {
    var p := BestRow(a, n, k, n);
    var before, s, u := Pretended(a, n, k), Pivoted(a, n, k), NextPretended(a, n, k);
    PivotRow(a, n, k, x);
    forall r | 0 <= r < n && r != k ensures Satisfies(s[r], x) <==> Satisfies(u[r], x) {
      OtherRows(a, n, k, x, r);
    }
    forall r | 0 <= r < n ensures before[r] == s[if r == k then p else if r == p then k else r] {}
    forall r | 0 <= r < k ensures Satisfies(before[r], x) { assert Satisfies(u[r], x); }
  }

  ghost predicate Clamped(start: seq<Row>, n: nat, c: nat)
    requires Square(start, n) && c < n
  {
    TooSmall(AfterColumns(start, n, c), n, c)
  }

  /** The answer in the pretended systems, from the last one back. */
  lemma {:induction false} AnswerFrom(start: seq<Row>, n: nat, k: nat, result: seq<real>)
    requires Square(start, n) && k <= n && |result| == n
    requires forall r :: 0 <= r < n ==> result[r] == AfterColumns(start, n, n)[r][n]
    ensures SolvesFirst(Pretended(AfterColumns(start, n, k), n, k), result, k)
    ensures Solves(Pretended(AfterColumns(start, n, k), n, k), result)
      <==> forall c :: k <= c < n && Clamped(start, n, c) ==> result[c] == 0.0
    decreases n - k
  {
    if k == n {
      IdentitySolves(Pretended(AfterColumns(start, n, n), n, n), n, result);
    } else {
      AnswerFrom(start, n, k + 1, result);
      PretendedStep(AfterColumns(start, n, k), n, k, result);
    }
  }

  /** The answer and its clamped columns. */
  lemma AnswerSolves(start: seq<Row>, n: nat, result: seq<real>)
    requires Square(start, n) && |result| == n
    requires forall r :: 0 <= r < n ==> result[r] == AfterColumns(start, n, n)[r][n]
    ensures Solves(start, result) <==> ZeroAtClamps(start, n, result)
  {
    AnswerFrom(start, n, 0, result);
    FirstPretended(start, n);
  }

  ghost predicate ZeroAtClamps(start: seq<Row>, n: nat, x: seq<real>)
    requires Square(start, n) && |x| == n
  {
    forall c :: 0 <= c < n && Clamped(start, n, c) ==> x[c] == 0.0
  }

  lemma FirstPretended(start: seq<Row>, n: nat)
    requires Square(start, n)
    ensures Pretended(AfterColumns(start, n, 0), n, 0) == start
  {
    forall r | 0 <= r < n ensures Pretended(start, n, 0)[r] == start[r] {}
  }

  /** A row satisfied is satisfied once one entry is replaced, if that changes nothing, and divided after that. */
  lemma DividedBack(row: Row, k: nat, d: real, after: Row, x: seq<real>)
    requires d != 0.0 && k < |x| && |row| == |x| + 1 && Divided(row[k := d], d, after) && Satisfies(row, x)
    requires row[k] == d || x[k] == 0.0
    ensures Satisfies(after, x)
  {
    MultipleSame(row[k := d], after, d, x);
    DotReplaced(row, row[k := d], x, k, |x|);
    ZeroProduct(row[k] - d, x[k]);
  }

  /** From a pretended system on to the next: a solution that is 0 at a clamp stays one. */
  lemma PretendedOn(a: seq<Row>, n: nat, k: nat, x: seq<real>)
    requires Square(a, n) && k < n && |x| == n
    requires Solves(Pretended(a, n, k), x) && (x[k] == 0.0 || !TooSmall(a, n, k))
    ensures Solves(NextPretended(a, n, k), x)
  {
    var p := BestRow(a, n, k, n);
    var before, s, u := Pretended(a, n, k), Pivoted(a, n, k), NextPretended(a, n, k);
    forall r | 0 <= r < n ensures Satisfies(s[r], x) {
      assert s[r] == before[if r == k then p else if r == p then k else r];
    }
    PivotEntries(a, n, k);
    DividedBack(s[k], k, Divisor(a, n, k), u[k], x);
    forall r | 0 <= r < n && r != k ensures Satisfies(u[r], x) { OtherRows(a, n, k, x, r); }
  }

  /** So a solution that is 0 at every clamped column is the answer. */
  lemma {:induction false} SolutionOn(start: seq<Row>, n: nat, k: nat, x: seq<real>)
    requires Square(start, n) && k <= n && |x| == n && Solves(start, x) && ZeroAtClamps(start, n, x)
    ensures Solves(Pretended(AfterColumns(start, n, k), n, k), x)
  {
    if k == 0 {
      FirstPretended(start, n);
    } else {
      SolutionOn(start, n, k - 1, x);
      PretendedOn(AfterColumns(start, n, k - 1), n, k - 1, x);
    }
  }

  lemma SolutionIsAnswer(start: seq<Row>, n: nat, result: seq<real>, x: seq<real>)
    requires Square(start, n) && |result| == n && |x| == n && Solves(start, x) && ZeroAtClamps(start, n, x)
    requires forall r :: 0 <= r < n ==> result[r] == AfterColumns(start, n, n)[r][n]
    ensures x == result
  {
    SolutionOn(start, n, n, x);
    IdentitySolves(Pretended(AfterColumns(start, n, n), n, n), n, result);
  }

  /**
   Clamped or not: the system is solved exactly if it has a solution that is 0 at every clamped column,
   and that solution is then the answer.
   */
  lemma ClampedSolve(start: seq<Row>, n: nat, result: seq<real>)
    requires Square(start, n) && |result| == n
    requires forall r :: 0 <= r < n ==> result[r] == AfterColumns(start, n, n)[r][n]
    ensures Solves(start, result) <==> exists x: seq<real> :: |x| == n && Solves(start, x) && ZeroAtClamps(start, n, x)
    ensures forall x: seq<real> :: |x| == n && Solves(start, x) && ZeroAtClamps(start, n, x) ==> x == result
  {
    AnswerSolves(start, n, result);
    forall x: seq<real> | |x| == n && Solves(start, x) && ZeroAtClamps(start, n, x) ensures x == result {
      SolutionIsAnswer(start, n, result, x);
    }
  }

  // ----- Which columns are clamped -----------------------------------------------------------------

  /** The same coefficients; right-hand sides may differ. */
  ghost predicate SameCoefficients(a: seq<Row>, b: seq<Row>, n: nat)
    requires Square(a, n) && Square(b, n)
  {
    forall r :: 0 <= r < n ==> a[r][..n] == b[r][..n]
  }

  lemma {:induction false} SameBestRow(a: seq<Row>, b: seq<Row>, n: nat, c: nat, k: nat)
    requires Square(a, n) && Square(b, n) && SameCoefficients(a, b, n) && c < k <= n
    ensures BestRow(a, n, c, k) == BestRow(b, n, c, k)
    decreases k
  {
    assert forall r :: 0 <= r < n ==> a[r][c] == a[r][..n][c] && b[r][c] == b[r][..n][c];
    if k > c + 1 { SameBestRow(a, b, n, c, k - 1); }
  }

  lemma SameScaled(a: Row, b: Row, c: nat, d: real, n: nat)
    requires d != 0.0 && n <= |a| && n <= |b| && a[..n] == b[..n]
    ensures ScaledRow(a, c, d)[..n] == ScaledRow(b, c, d)[..n]
  {
    forall i | 0 <= i < n ensures ScaledRow(a, c, d)[i] == ScaledRow(b, c, d)[i] { assert a[..n][i] == b[..n][i]; }
  }

  lemma SameReduced(a: Row, b: Row, p: Row, q: Row, c: nat, n: nat)
    requires |a| == |p| && |b| == |q| && c < n <= |a| && n <= |b| && a[..n] == b[..n] && p[..n] == q[..n]
    ensures ReducedRow(a, p, c)[..n] == ReducedRow(b, q, c)[..n]
  {
    assert a[c] == a[..n][c] && b[c] == b[..n][c];
    forall i | 0 <= i < n ensures ReducedRow(a, p, c)[i] == ReducedRow(b, q, c)[i] {
      assert a[..n][i] == b[..n][i] && p[..n][i] == q[..n][i];
    }
  }

  lemma SameAfterColumn(a: seq<Row>, b: seq<Row>, n: nat, c: nat)
    requires Square(a, n) && Square(b, n) && SameCoefficients(a, b, n) && c < n
    ensures TooSmall(a, n, c) <==> TooSmall(b, n, c)
    ensures SameCoefficients(AfterColumn(a, n, c), AfterColumn(b, n, c), n)
  {
    SameBestRow(a, b, n, c, n);
    var p := BestRow(a, n, c, n);
    var s, t := Swapped(a, c, p), Swapped(b, c, p);
    assert a[p][c] == a[p][..n][c] && b[p][c] == b[p][..n][c];
    var d := if Abs(s[c][c]) < Smallest then Smallest else s[c][c];
    SameScaled(s[c], t[c], c, d, n);
    forall r | 0 <= r < n ensures AfterColumn(a, n, c)[r][..n] == AfterColumn(b, n, c)[r][..n] {
      if r != c { SameReduced(s[r], t[r], ScaledRow(s[c], c, d), ScaledRow(t[c], c, d), c, n); }
    }
  }

  lemma {:induction false} SameAfterColumns(a: seq<Row>, b: seq<Row>, n: nat, k: nat)
    requires Square(a, n) && Square(b, n) && SameCoefficients(a, b, n) && k <= n
    ensures SameCoefficients(AfterColumns(a, n, k), AfterColumns(b, n, k), n)
  {
    if k > 0 {
      SameAfterColumns(a, b, n, k - 1);
      SameAfterColumn(AfterColumns(a, n, k - 1), AfterColumns(b, n, k - 1), n, k - 1);
    }
  }

  /** The clamped columns depend on the coefficients alone, not on the right-hand sides. */
  lemma ClampsByCoefficients(a: seq<Row>, b: seq<Row>, n: nat, c: nat)
    requires Square(a, n) && Square(b, n) && SameCoefficients(a, b, n) && c < n
    ensures Clamped(a, n, c) <==> Clamped(b, n, c)
  {
    SameAfterColumns(a, b, n, c);
    SameAfterColumn(AfterColumns(a, n, c), AfterColumns(b, n, c), n, c);
  }

  /** What a clamp does to a single equation d * x = v: the answer is v / Smallest, which is wrong unless v is 0. */
  lemma ClampedEquation(d: real, v: real)
    requires d != 0.0
    ensures var a := [[d, v]];
      && (TooSmall(a, 1, 0) <==> Abs(d) < Smallest)
      && (Solves(a, [AfterColumns(a, 1, 1)[0][1]]) <==> !TooSmall(a, 1, 0) || v == 0.0)
  {
    var a := [[d, v]];
    var e := if Abs(d) < Smallest then Smallest else d;
    assert AfterColumns(a, 1, 0) == a && BestRow(a, 1, 0, 1) == 0;
    assert AfterColumns(a, 1, 1) == AfterColumn(a, 1, 0);
    assert AfterColumn(a, 1, 0)[0] == ScaledRow(a[0], 0, e);
    var x := [v / e];
    assert Dot(a[0], x, 0) == 0.0 && Dot(a[0], x, 1) == d * (v / e);
    assert Solves(a, x) <==> Satisfies(a[0], x);
    Cancel(d * (v / e), v, e);
    assert d * (v / e) * e == d * v;
    SmallProduct(d, e, v);
  }

  lemma SmallProduct(d: real, e: real, v: real)
    ensures d * v == v * e <==> d == e || v == 0.0
  {
  }
}
