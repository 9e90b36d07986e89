/**
 `channel_shuffle(x, groups)`: view the C channels as a groups x (C / groups)
 matrix in row-major order, transpose it, and flatten it back. Output channel
 `c * groups + g` then holds input channel `g * cpg + c`, where
 `cpg = C / groups` is the number of channels per group.
 */
module ChannelShuffle {
  import opened Base

  // ---------------------------------------------------------------------------
  // Arithmetic helpers

  lemma MulLe(a: int, b: int, n: nat)
    requires a <= b
    ensures a * n <= b * n
  {
  }

  /** A product with a positive factor is positive only if the other factor is. */
  lemma FactorPositive(a: int, b: int)
    requires a > 0 && a * b > 0
    ensures b > 0
  {
    if b <= 0 {
      MulLe(b, 0, a);
    }
  }

  /** Row `r` of a `rows x cols` row-major matrix occupies positions `r * cols .. r * cols + cols`. */
  lemma RowBounds(r: nat, rows: nat, cols: nat)
    requires r < rows
    ensures 0 <= r * cols && r * cols + cols <= rows * cols
  {
    MulLe(r + 1, rows, cols);
    assert (r + 1) * cols == r * cols + cols;
  }

  /** Division with remainder has a unique answer. */
  lemma DivModOf(a: int, n: int, q: int, r: int)
    requires n > 0 && 0 <= r < n && a == q * n + r
    ensures a / n == q && a % n == r
  {
    var q', r' := a / n, a % n;
    assert a == q' * n + r';
    if q' < q {
      MulLe(q' + 1, q, n);
      assert false;
    } else if q < q' {
      MulLe(q + 1, q', n);
      assert false;
    }
  }

  /** The row-major position of (row, col) in a matrix with `cols` columns lies inside the matrix. */
  lemma RowMajorInRange(row: nat, col: nat, rows: nat, cols: nat)
    requires row < rows && col < cols
    ensures row * cols + col < rows * cols
  {
    MulLe(row + 1, rows, cols);
  }

  /** A position inside a `rows x cols` row-major matrix has row `k / cols < rows`. */
  lemma QuotientBound(k: int, cols: int, rows: int)
    requires cols > 0 && 0 <= k < cols * rows
    ensures 0 <= k / cols < rows && 0 <= k % cols < cols
    ensures k == (k / cols) * cols + k % cols
  {
    if rows <= k / cols {
      MulLe(rows, k / cols, cols);
      assert false;
    }
  }

  // ---------------------------------------------------------------------------
  // The three steps of the Python function, on the channels of one batch item

  /** Every row of `m` has `cols` entries. */
  predicate Uniform<T>(m: seq<seq<T>>, cols: nat) {
    forall r | 0 <= r < |m| :: |m[r]| == cols
  }

  /** `x.view(rows, cols)`: the channels cut into `rows` consecutive rows of `cols`. */
  function View<T>(x: seq<T>, rows: nat, cols: nat): (m: seq<seq<T>>)
    requires |x| == rows * cols
    ensures |m| == rows && Uniform(m, cols)
    ensures forall r, c | 0 <= r < rows && 0 <= c < cols :: r * cols + c < |x| && m[r][c] == x[r * cols + c]
  {
    var m := seq(rows, r requires 0 <= r < rows => Row(x, r, rows, cols));
    RowsAt(x, rows, cols);
    assert |m| == rows && Uniform(m, cols);
    m
  }

  /** Row `r` of `x.view(rows, cols)`. */
  function Row<T>(x: seq<T>, r: nat, rows: nat, cols: nat): (row: seq<T>)
    requires |x| == rows * cols && r < rows
    ensures |row| == cols
  {
    RowBounds(r, rows, cols);
    x[r * cols .. r * cols + cols]
  }

  /** Entry `c` of row `r` of the view is channel `r * cols + c`. */
  lemma RowAt<T>(x: seq<T>, r: nat, rows: nat, cols: nat, c: nat)
    requires |x| == rows * cols && r < rows && c < cols
    ensures r * cols + c < |x| && Row(x, r, rows, cols)[c] == x[r * cols + c]
  {
    RowBounds(r, rows, cols);
  }

  lemma RowsAt<T>(x: seq<T>, rows: nat, cols: nat)
    requires |x| == rows * cols
    ensures forall r, c | 0 <= r < rows && 0 <= c < cols ::
      r * cols + c < |x| && Row(x, r, rows, cols)[c] == x[r * cols + c]
  {
    forall r, c | 0 <= r < rows && 0 <= c < cols
      ensures r * cols + c < |x| && Row(x, r, rows, cols)[c] == x[r * cols + c]
    {
      RowAt(x, r, rows, cols, c);
    }
  }

  /** `torch.transpose(m, 0, 1)` of a `rows x cols` matrix: entry (r, c) moves to (c, r). */
  function Transpose<T>(m: seq<seq<T>>, cols: nat): (t: seq<seq<T>>)
    requires Uniform(m, cols)
    ensures |t| == cols && Uniform(t, |m|)
    ensures forall r, c | 0 <= r < |m| && 0 <= c < cols :: t[c][r] == m[r][c]
  {
    seq(cols, c requires 0 <= c < cols => seq(|m|, r requires 0 <= r < |m| => m[r][c]))
  }

  /** `m.view(-1)` of a matrix with `cols` columns: the rows concatenated in order. */
  function Flatten<T>(m: seq<seq<T>>, cols: nat): (r: seq<T>)
    requires Uniform(m, cols)
    ensures |r| == |m| * cols
  {
    if m == [] then []
    else
      var rest := Flatten(m[1..], cols);
      assert |m[0] + rest| == cols + (|m| - 1) * cols == |m| * cols;
      m[0] + rest
  }

  /** Entry (row, col) of a uniform matrix sits at row-major position `row * cols + col` once flattened. */
  lemma {:induction false} FlattenAt<T>(m: seq<seq<T>>, cols: nat, row: nat, col: nat)
    requires Uniform(m, cols) && row < |m| && col < cols
    ensures row * cols + col < |m| * cols && Flatten(m, cols)[row * cols + col] == m[row][col]
  {
    RowMajorInRange(row, col, |m|, cols);
    if row > 0 {
      FlattenAt(m[1..], cols, row - 1, col);
      assert row * cols + col == cols + ((row - 1) * cols + col);
    }
  }

  // ---------------------------------------------------------------------------
  // The shuffle and its index law

  /**
   The input position that feeds output position `k` of a shuffle with
   `groups` groups of `cpg` channels: output `k` is column `k % groups` of
   row `k / groups` of the transposed matrix.
   */
  function ShuffleSource(k: int, groups: int, cpg: int): (j: nat)
    requires groups > 0 && 0 <= k < groups * cpg
    ensures j < groups * cpg
  {
    QuotientBound(k, groups, cpg);
    RowMajorInRange(k % groups, k / groups, groups, cpg);
    (k % groups) * cpg + k / groups
  }

  /** The inverse shuffle (groups and channels-per-group exchanged) undoes the index map. */
  lemma ShuffleSourceInverse(k: int, groups: int, cpg: int)
    requires groups > 0 && 0 <= k < groups * cpg
    ensures cpg > 0
    ensures ShuffleSource(ShuffleSource(k, groups, cpg), cpg, groups) == k
  {
    QuotientBound(k, groups, cpg);
    FactorPositive(groups, cpg);
    var c, g := k / groups, k % groups;
    var j := ShuffleSource(k, groups, cpg);
    assert j == g * cpg + c;
    DivModOf(j, cpg, g, c);
  }

  /** Output position `c * groups + g` is fed by input position `g * cpg + c`. */
  lemma ShuffleSourceAt(groups: int, cpg: int, g: nat, c: nat)
    requires 0 <= g < groups && c < cpg
    ensures 0 <= c * groups + g < groups * cpg
    ensures ShuffleSource(c * groups + g, groups, cpg) == g * cpg + c
  {
    RowMajorInRange(c, g, cpg, groups);
    DivModOf(c * groups + g, groups, c, g);
  }

  /** One position of the index law, proved about the reshape/transpose/flatten pipeline. */
  lemma ShuffleLawAt<T>(x: seq<T>, groups: int, cpg: nat, k: int)
    requires groups > 0 && |x| == groups * cpg && 0 <= k < |x|
    ensures var t := Transpose(View(x, groups, cpg), cpg);
      |Flatten(t, groups)| == |x| && Flatten(t, groups)[k] == x[ShuffleSource(k, groups, cpg)]
  {
    var m := View(x, groups, cpg);
    var t := Transpose(m, cpg);
    QuotientBound(k, groups, cpg);
    var c, g := k / groups, k % groups;
    FlattenAt(t, groups, c, g);
    assert t[c][g] == m[g][c];
    RowAt(x, g, groups, cpg, c);
  }

  /** The index law, proved about the reshape/transpose/flatten pipeline. */
  lemma ShuffleLaw<T>(x: seq<T>, groups: int)
    requires groups > 0 && |x| % groups == 0
    ensures |x| == groups * (|x| / groups)
    ensures var cpg := |x| / groups;
      var r := Flatten(Transpose(View(x, groups, cpg), cpg), groups);
      |r| == |x| && forall k | 0 <= k < |x| :: r[k] == x[ShuffleSource(k, groups, cpg)]
  {
    var cpg := |x| / groups;
    DivModOf(|x|, groups, cpg, 0);
    forall k | 0 <= k < |x|
      ensures Flatten(Transpose(View(x, groups, cpg), cpg), groups)[k] == x[ShuffleSource(k, groups, cpg)]
    {
      ShuffleLawAt(x, groups, cpg, k);
    }
  }

  /**
   `channel_shuffle` on the channels of one batch item. The view in the
   source only succeeds when `groups` divides the channel count.
   */
  function Shuffle<T>(x: seq<T>, groups: int): (r: seq<T>)
    requires groups > 0 && |x| % groups == 0
    ensures |r| == |x|
    ensures forall k | 0 <= k < |x| :: |x| == groups * (|x| / groups) && r[k] == x[ShuffleSource(k, groups, |x| / groups)]
  {
    ShuffleLaw(x, groups);
    Flatten(Transpose(View(x, groups, |x| / groups), |x| / groups), groups)
  }

  /** The (group, offset) form of the index law: output `c * groups + g` is input `g * cpg + c`. */
  lemma ShuffleAt<T>(x: seq<T>, groups: int, g: nat, c: nat)
    requires groups > 0 && |x| % groups == 0
    requires g < groups && c < |x| / groups
    ensures 0 <= c * groups + g < |x| && 0 <= g * (|x| / groups) + c < |x|
    ensures Shuffle(x, groups)[c * groups + g] == x[g * (|x| / groups) + c]
  {
    var cpg := |x| / groups;
    DivModOf(|x|, groups, cpg, 0);
    ShuffleSourceAt(groups, cpg, g, c);
    RowMajorInRange(g, c, groups, cpg);
  }

  /**
   The shuffle permutes channel positions: the index map is injective on
   `[0, C)` and every input position feeds some output position.
   */
  lemma ShuffleSourceBijective(groups: int, cpg: int)
    requires groups > 0
    ensures forall k1, k2 | 0 <= k1 < groups * cpg && 0 <= k2 < groups * cpg ::
      ShuffleSource(k1, groups, cpg) == ShuffleSource(k2, groups, cpg) ==> k1 == k2
    ensures forall j | 0 <= j < groups * cpg ::
      cpg > 0 && ShuffleSource(ShuffleSource(j, cpg, groups), groups, cpg) == j
  {
    forall k1, k2 | 0 <= k1 < groups * cpg && 0 <= k2 < groups * cpg &&
      ShuffleSource(k1, groups, cpg) == ShuffleSource(k2, groups, cpg)
      ensures k1 == k2
    {
      ShuffleSourceInverse(k1, groups, cpg);
      ShuffleSourceInverse(k2, groups, cpg);
    }
    forall j | 0 <= j < groups * cpg
      ensures cpg > 0 && ShuffleSource(ShuffleSource(j, cpg, groups), groups, cpg) == j
    {
      FactorPositive(groups, cpg);
      ShuffleSourceInverse(j, cpg, groups);
    }
  }

  /**
   Shuffling with `groups` and then with `cpg = C / groups` gives back the
   input: the second shuffle is the transpose of the first.
   */
  lemma ShuffleInverse<T>(x: seq<T>, groups: int)
    requires groups > 0 && |x| % groups == 0 && |x| > 0
    ensures |x| / groups > 0 && |x| % (|x| / groups) == 0
    ensures Shuffle(Shuffle(x, groups), |x| / groups) == x
  {
    var cpg := |x| / groups;
    DivModOf(|x|, groups, cpg, 0);
    FactorPositive(groups, cpg);
    DivModOf(|x|, cpg, groups, 0);
    var y := Shuffle(x, groups);
    var z := Shuffle(y, cpg);
    forall k | 0 <= k < |x|
      ensures z[k] == x[k]
    {
      assert 0 <= k < cpg * groups;
      ShuffleSourceInverse(k, cpg, groups);
    }
  }

  /** One group: the shuffle is the identity. */
  lemma ShuffleOneGroup<T>(x: seq<T>)
    ensures Shuffle(x, 1) == x
  {
    forall k | 0 <= k < |x|
      ensures Shuffle(x, 1)[k] == x[k]
    {
      DivModOf(k, 1, k, 0);
    }
  }

  // ---------------------------------------------------------------------------
  // The function of the source, on whole tensors and with its error cases

  /**
   `channel_shuffle(x, groups)`. `groups == 0` fails in the floor division;
   a negative `groups`, or one that does not divide the channel count, gives
   `view` a shape the tensor cannot take.
   */
  function ChannelShuffleTensor<P>(x: Tensor<P>, groups: int): (r: Result<Tensor<P>>)
    ensures groups == 0 ==> r == Err(ZeroDivision)
    ensures groups != 0 ==>
      (r.Ok? <==> groups > 0 && x.channels % groups == 0) &&
      (r.Err? ==> r.error == ViewShapeMismatch)
    ensures r.Ok? ==>
      r.value.channels == x.channels && |r.value.items| == |x.items| &&
      r.value.height == x.height && r.value.width == x.width &&
      x.channels == groups * (x.channels / groups) &&
      forall b, k | 0 <= b < |x.items| && 0 <= k < x.channels ::
        r.value.items[b][k] == x.items[b][ShuffleSource(k, groups, x.channels / groups)]
  {
    if groups == 0 then Err(ZeroDivision)
    else if groups < 0 || x.channels % groups != 0 then Err(ViewShapeMismatch)
    else
      var items := seq(|x.items|, b requires 0 <= b < |x.items| => Shuffle(x.items[b], groups));
      Ok(Activation(x.channels, x.height, x.width, items))
  }
}
