/** Dense real matrices and vectors, and the numpy reductions the population engine applies to them. */
module Matrices {

  /** A matrix is a sequence of rows; numpy's shape (n, t) is IsShape(m, n, t). */
  type Matrix = seq<seq<real>>

  predicate IsShape(m: Matrix, n: nat, t: nat)
  {
    |m| == n && forall i :: 0 <= i < n ==> |m[i]| == t
  }

  /** Every entry lies in [0, 1), the range of numpy's uniform draws. */
  predicate IsUniform(m: Matrix)
  {
    forall i, j :: 0 <= i < |m| && 0 <= j < |m[i]| ==> 0.0 <= m[i][j] < 1.0
  }

  /** np.full((n, t), v): the n-by-t matrix whose every entry is v. */
  function Full(n: nat, t: nat, v: real): (m: Matrix)
    ensures IsShape(m, n, t)
    ensures forall i, j :: 0 <= i < n && 0 <= j < t ==> m[i][j] == v
  {
    seq(n, _ => seq(t, _ => v))
  }

  function Abs(x: real): real
  {
    if x < 0.0 then -x else x
  }

  /** The sum of a vector, as Python's `sum` and numpy's reductions compute it. */
  function Sum(s: seq<real>): real
  {
    if s == [] then 0.0 else s[0] + Sum(s[1..])
  }

  /** One total per row: numpy's reduction of a matrix along its second axis. */
  function RowSums(m: Matrix): (r: seq<real>)
    ensures |r| == |m|
    ensures forall i :: 0 <= i < |m| ==> r[i] == Sum(m[i])
  {
    seq(|m|, i requires 0 <= i < |m| => Sum(m[i]))
  }

  /** The largest entry of a non-empty vector (Python's `max` raises on an empty one). */
  function Max(s: seq<real>): (r: real)
    requires |s| > 0
    ensures r in s
    ensures forall k :: 0 <= k < |s| ==> s[k] <= r
  {
    if |s| == 1 then s[0]
    else
      var rest := Max(s[1..]);
      if s[0] >= rest then s[0] else rest
  }

  /** The largest entry of a matrix with at least one entry (np.max over all axes). */
  function MatrixMax(m: Matrix): (r: real)
    requires |m| > 0 && forall i :: 0 <= i < |m| ==> |m[i]| > 0
    ensures exists i, j :: 0 <= i < |m| && 0 <= j < |m[i]| && r == m[i][j]
    ensures forall i, j :: 0 <= i < |m| && 0 <= j < |m[i]| ==> m[i][j] <= r
  {
    var rowMax := seq(|m|, i requires 0 <= i < |m| => Max(m[i]));
    MaxOfRowMaxes(m, rowMax);
    Max(rowMax)
  }

  /** The largest of the row maxima is an entry of the matrix and bounds every entry. */
  lemma MaxOfRowMaxes(m: Matrix, rowMax: seq<real>)
    requires |m| > 0 && forall i :: 0 <= i < |m| ==> |m[i]| > 0
    requires |rowMax| == |m| && forall i :: 0 <= i < |m| ==> rowMax[i] == Max(m[i])
    ensures exists i, j :: 0 <= i < |m| && 0 <= j < |m[i]| && Max(rowMax) == m[i][j]
    ensures forall i, j :: 0 <= i < |m| && 0 <= j < |m[i]| ==> m[i][j] <= Max(rowMax)
  {
    var r := Max(rowMax);
    forall i, j | 0 <= i < |m| && 0 <= j < |m[i]| ensures m[i][j] <= r {
      assert m[i][j] <= rowMax[i] <= r;
    }
    var i :| 0 <= i < |rowMax| && rowMax[i] == r;
    var j :| 0 <= j < |m[i]| && m[i][j] == rowMax[i];
  }

  /** np.mean of a non-empty vector. */
  function Mean(s: seq<real>): (r: real)
    requires |s| > 0
    ensures r * (|s| as real) == Sum(s)
  {
    Sum(s) / (|s| as real)
  }

  /** Python's `sum` adds the entries left to right: appending x to a vector adds x to its sum. */
  lemma {:induction false} SumAppend(s: seq<real>, x: real)
    ensures Sum(s + [x]) == Sum(s) + x
  {
    if s != [] {
      assert (s + [x])[1..] == s[1..] + [x];
      SumAppend(s[1..], x);
    }
  }

  /** A vector of t copies of c sums to t * c. */
  lemma {:induction false} SumOfConstant(t: nat, c: real)
    ensures Sum(seq(t, _ => c)) == (t as real) * c
  {
    if t > 0 {
      assert seq(t, _ => c)[1..] == seq(t - 1, _ => c);
      SumOfConstant(t - 1, c);
      assert Sum(seq(t, _ => c)) == c + Sum(seq(t - 1, _ => c));
      assert (t as real) * c == c + ((t - 1) as real) * c;
    }
  }

  /** A vector whose entries are all at most b sums to at most |s| * b. */
  lemma {:induction false} SumAtMost(s: seq<real>, b: real)
    requires forall k :: 0 <= k < |s| ==> s[k] <= b
    ensures Sum(s) <= (|s| as real) * b
  {
    if s != [] {
      SumAtMost(s[1..], b);
    }
  }

  /** A vector of non-negative entries has a non-negative sum, and each entry is at most that sum. */
  lemma {:induction false} EntryAtMostSum(s: seq<real>)
    requires forall k :: 0 <= k < |s| ==> 0.0 <= s[k]
    ensures 0.0 <= Sum(s)
    ensures forall k :: 0 <= k < |s| ==> s[k] <= Sum(s)
  {
    if s != [] {
      EntryAtMostSum(s[1..]);
      forall k | 0 < k < |s| ensures s[k] <= Sum(s) {
        assert s[k] == s[1..][k - 1];
      }
    }
  }

  /** A non-empty vector of positive entries has a positive sum. */
  lemma PositiveSum(s: seq<real>)
    requires s != [] && forall k :: 0 <= k < |s| ==> 0.0 < s[k]
    ensures 0.0 < Sum(s)
  {
    EntryAtMostSum(s);
    assert s[0] <= Sum(s);
  }

  /** Dividing every entry by z divides the sum by z. */
  lemma {:induction false} SumOfQuotients(s: seq<real>, z: real)
    requires z != 0.0
    ensures Sum(seq(|s|, i requires 0 <= i < |s| => s[i] / z)) == Sum(s) / z
  {
    var q := seq(|s|, i requires 0 <= i < |s| => s[i] / z);
    if s != [] {
      var rest := seq(|s[1..]|, i requires 0 <= i < |s[1..]| => s[1..][i] / z);
      assert q[1..] == rest;
      SumOfQuotients(s[1..], z);
      assert Sum(q) == s[0] / z + Sum(s[1..]) / z;
    }
  }

  /** The mean never exceeds the largest entry. */
  lemma {:induction false} MeanAtMostMax(s: seq<real>)
    requires |s| > 0
    ensures Mean(s) * (|s| as real) == Sum(s)
    ensures Mean(s) <= Max(s)
  {
    var n, b, m := |s| as real, Max(s), Mean(s);
    SumAtMost(s, b);
    assert m * n == Sum(s) <= n * b;
    CancelFactor(m, b, n);
  }

  lemma CancelFactor(x: real, y: real, n: real)
    requires n > 0.0 && x * n <= n * y
    ensures x <= y
  {
  }
}
