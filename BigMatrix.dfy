/** The power-sum table: a (maxK+1) x (maxN+1) matrix whose entry [k, n] is
    S_k(n) = 1^k + 2^k + ... + n^k, filled in place once and then read by the block methods. */
module BigMatrix {
  import opened PowerSums
  import opened Outcomes

  /** A rows x cols matrix with every entry -1, the "undefined" placeholder. */
  method NewIntMatrix(rows: nat, cols: nat) returns (m: array2<int>)
    ensures fresh(m) && m.Length0 == rows && m.Length1 == cols
    ensures forall i, j :: 0 <= i < rows && 0 <= j < cols ==> m[i, j] == -1
  {
    m := new int[rows, cols]((i, j) => -1);
  }

  /** Row 0 holds S_0(n) = n. */
  method FillOrderZero(m: array2<int>)
    requires m.Length0 >= 1 && m.Length1 >= 1
    modifies m
    ensures forall n :: 0 <= n < m.Length1 ==> m[0, n] == n
    ensures forall k, n :: 1 <= k < m.Length0 && 0 <= n < m.Length1 ==> m[k, n] == old(m[k, n])
  {
    m[0, 0] := 0;
    for n := 1 to m.Length1
      invariant forall j :: 0 <= j < n ==> m[0, j] == j
      invariant forall k, j :: 1 <= k < m.Length0 && 0 <= j < m.Length1 ==> m[k, j] == old(m[k, j])
    {
      m[0, n] := n;
    }
  }

  /** Columns 0 and 1 of rows 1..maxK hold S_k(0) = 0 and S_k(1) = 1; column 1 is written only
      when the matrix has one. */
  method FillLowColumns(m: array2<int>)
    requires m.Length0 >= 1 && m.Length1 >= 1
    modifies m
    ensures forall k :: 1 <= k < m.Length0 ==> m[k, 0] == 0
    ensures m.Length1 >= 2 ==> forall k :: 1 <= k < m.Length0 ==> m[k, 1] == 1
    ensures forall k, n :: 0 <= k < m.Length0 && 0 <= n < m.Length1 && (k == 0 || n >= 2)
              ==> m[k, n] == old(m[k, n])
  {
    for k := 1 to m.Length0
      invariant forall i :: 1 <= i < k ==> m[i, 0] == 0
      invariant m.Length1 >= 2 ==> forall i :: 1 <= i < k ==> m[i, 1] == 1
      invariant forall i, n :: 0 <= i < m.Length0 && 0 <= n < m.Length1 && (i == 0 || n >= 2 || i >= k)
                  ==> m[i, n] == old(m[i, n])
    {
      m[k, 0] := 0;
      if m.Length1 >= 2 {
        m[k, 1] := 1;
      }
    }
  }

  /** Columns 2..maxN: S_k(n) = n^k + S_k(n-1), with n^k kept in a running product. */
  method FillPowerSums(m: array2<int>)
    requires m.Length0 >= 1 && m.Length1 >= 1
    requires forall k, n :: 0 <= k < m.Length0 && 0 <= n < m.Length1 && n <= 1 ==> m[k, n] == PowerSum(k, n)
    requires forall n :: 0 <= n < m.Length1 ==> m[0, n] == n
    modifies m
    ensures forall k, n :: 0 <= k < m.Length0 && 0 <= n < m.Length1 ==> m[k, n] == PowerSum(k, n)
  {
    var n := 2;
    while n < m.Length1
      invariant 2 <= n && (n <= m.Length1 || m.Length1 == 1)
      invariant forall k, j :: 0 <= k < m.Length0 && 0 <= j < n && j < m.Length1 ==> m[k, j] == PowerSum(k, j)
      invariant forall j :: 0 <= j < m.Length1 ==> m[0, j] == j
    {
      var p := 1;
      PowerSumOrderZero(n);
      for k := 1 to m.Length0
        invariant p == Pow(n, k - 1)
        invariant forall i, j :: 0 <= i < m.Length0 && 0 <= j < n ==> m[i, j] == PowerSum(i, j)
        invariant forall i :: 0 <= i < k ==> m[i, n] == PowerSum(i, n)
        invariant forall j :: 0 <= j < m.Length1 ==> m[0, j] == j
      {
        p := p * n;
        m[k, n] := p + m[k, n - 1];
      }
      n := n + 1;
    }
  }

  /** The table of S_k(n) for 0 <= k <= maxK and 0 <= n <= maxN. */
  class PowerMatrix {
    const maxK: nat
    const maxN: nat
    const matrix: array2<int>

    ghost predicate Valid()
      reads this, matrix
    {
      matrix.Length0 == maxK + 1 && matrix.Length1 == maxN + 1 &&
      forall k, n :: 0 <= k <= maxK && 0 <= n <= maxN ==> matrix[k, n] == PowerSum(k, n)
    }

    /** Builds the table for orders 0..maxK and arguments 0..maxN.  Column 1 is written only
        when it exists, so a one-column table (maxN = 0) is built as well. */
    constructor (maxK: nat, maxN: nat)
      ensures this.maxK == maxK && this.maxN == maxN && fresh(matrix)
      ensures Valid()
    {
      var m := NewIntMatrix(maxK + 1, maxN + 1);
      FillOrderZero(m);
      FillLowColumns(m);
      forall k | 0 <= k <= maxK {
        PowerSumLowColumns(k);
      }
      PowerSumOrderZero(1);
      FillPowerSums(m);
      this.maxK := maxK;
      this.maxN := maxN;
      this.matrix := m;
    }

    /** Python list indexing: matrix[k][n] with negative indices counted from the end, and an
        IndexError outside the table. */
    function ValueSum(k: int, n: int): (r: Result<int>)
      reads this, matrix
      requires Valid()
      ensures r.Success? <==> -(maxK + 1) <= k <= maxK && -(maxN + 1) <= n <= maxN
      ensures r.Success? && 0 <= k && 0 <= n ==> r.value == PowerSum(k, n)
      ensures r.Success? && 0 <= k && n < 0 ==> r.value == PowerSum(k, n + maxN + 1)
      ensures r.Success? ==> r.value >= 0
    {
      if -(maxK + 1) <= k <= maxK && -(maxN + 1) <= n <= maxN then
        var i := if k < 0 then k + maxK + 1 else k;
        var j := if n < 0 then n + maxN + 1 else n;
        PowerSumMonotone(i, j);
        Success(matrix[i, j])
      else
        Failure(IndexError)
    }
  }

  /** The constructor as written: column 1 is written for every order k >= 1 whether or not it
      exists, so a table with maxK >= 1 and maxN = 0 raises IndexError. */
  method PowerMatrixAsWritten(maxK: nat, maxN: nat) returns (r: Result<array2<int>>)
    ensures r.Failure? <==> maxK >= 1 && maxN == 0
    ensures r.Failure? ==> r.error == IndexError
    ensures r.Success? ==> r.value.Length0 == maxK + 1 && r.value.Length1 == maxN + 1
    ensures r.Success? ==> forall k, n :: 0 <= k <= maxK && 0 <= n <= maxN ==> r.value[k, n] == PowerSum(k, n)
  {
    var m := NewIntMatrix(maxK + 1, maxN + 1);
    FillOrderZero(m);
    for k := 1 to maxK + 1
      invariant k > 1 ==> maxN >= 1
      invariant forall i :: 1 <= i < k ==> m[i, 0] == 0 && m[i, 1] == 1
      invariant forall n :: 0 <= n <= maxN ==> m[0, n] == n
    {
      m[k, 0] := 0;
      if 1 > maxN {
        return Failure(IndexError);
      }
      m[k, 1] := 1;
    }
    forall k | 0 <= k <= maxK {
      PowerSumLowColumns(k);
    }
    PowerSumOrderZero(1);
    FillPowerSums(m);
    return Success(m);
  }
}
