/**
 * The bin loop of the tool's chi-squared comparison of a candidate
 * histogram with a (normalised) reference histogram. Bins whose content or
 * error is not a number, or whose error is zero on either side, carry too
 * little information and are skipped; every other bin adds one degree of
 * freedom and its squared difference over the summed squared errors.
 */
module ChiSquare {

  /** A double as the loop sees it: a number, or not-a-number. */
  datatype Float = Num(val: real) | NaN

  /** What `GetBinContent` and `GetBinError` return for one bin. */
  datatype Bin = Bin(content: Float, error: Float)

  /**
   * A histogram's bins in ROOT's numbering, indexed `[x][y]`: index 0 and
   * the last index in each direction are the underflow and overflow bins,
   * so the regular bins are 1..NbinsX by 1..NbinsY. A one-dimensional
   * histogram is the case NbinsY == 1.
   */
  type Grid = seq<seq<Bin>>

  predicate WellFormed(h: Grid)
  {
    |h| >= 2 && |h[0]| >= 2 && forall x :: 0 <= x < |h| ==> |h[x]| == |h[0]|
  }

  function NbinsX(h: Grid): int
    requires WellFormed(h)
  {
    |h| - 2
  }

  function NbinsY(h: Grid): int
    requires WellFormed(h)
  {
    |h[0]| - 2
  }

  /** The loop bounds come from the first histogram only: both must have the same binning. */
  predicate SameShape(h1: Grid, h2: Grid)
  {
    WellFormed(h1) && WellFormed(h2) && |h1| == |h2| && |h1[0]| == |h2[0]|
  }

  /** A bin pair enters the sum: all four numbers defined and both errors nonzero. */
  predicate Counted(b1: Bin, b2: Bin)
  {
    && b1.content.Num? && b2.content.Num? && b1.error.Num? && b2.error.Num?
    && b1.error.val != 0.0 && b2.error.val != 0.0
  }

  /** `pow(x, n)` for a natural exponent: `n` factors of `x`. */
  function Pow(x: real, n: nat): real
  {
    if n == 0 then 1.0 else x * Pow(x, n - 1)
  }

  /** A square is never negative, and only zero squares to zero. */
  lemma SquareSign(x: real)
    ensures Pow(x, 2) >= 0.0
    ensures Pow(x, 2) == 0.0 <==> x == 0.0
  {
    assert Pow(x, 1) == x;
  }

  lemma SquareOfNegation(x: real)
    ensures Pow(-x, 2) == Pow(x, 2)
  {
    assert Pow(x, 1) == x;
    assert Pow(-x, 1) == -x;
  }

  lemma QuotientSign(n: real, d: real)
    requires n >= 0.0 && d > 0.0
    ensures n / d >= 0.0
    ensures n != 0.0 ==> n / d > 0.0
  {
  }

  /**
   * `(val1 - val2)^2 / (err1^2 + err2^2)` for a counted bin pair: never
   * negative, and zero exactly when the two contents agree.
   */
  function Term(b1: Bin, b2: Bin): (t: real)
    requires Counted(b1, b2)
    ensures t >= 0.0
    ensures t == 0.0 <==> b1.content.val == b2.content.val
  {
    var v1, v2 := b1.content.val, b2.content.val;
    var e1, e2 := b1.error.val, b2.error.val;
    SquareSign(v1 - v2);
    SquareSign(e1);
    SquareSign(e2);
    QuotientSign(Pow(v1 - v2, 2), Pow(e1, 2) + Pow(e2, 2));
    Pow(v1 - v2, 2) / (Pow(e1, 2) + Pow(e2, 2))
  }

  /** What the bin at (x, y) adds to the sum, 0 for a skipped bin. */
  function BinChi(h1: Grid, h2: Grid, x: int, y: int): real
    requires SameShape(h1, h2) && 1 <= x <= NbinsX(h1) && 1 <= y <= NbinsY(h1)
  {
    if Counted(h1[x][y], h2[x][y]) then Term(h1[x][y], h2[x][y]) else 0.0
  }

  /** Degrees of freedom from bins (x, 1..n). */
  function RowNdf(h1: Grid, h2: Grid, x: int, n: int): (c: int)
    requires SameShape(h1, h2) && 1 <= x <= NbinsX(h1) && 0 <= n <= NbinsY(h1)
    ensures 0 <= c <= n
  {
    if n == 0 then 0
    else RowNdf(h1, h2, x, n - 1) + (if Counted(h1[x][n], h2[x][n]) then 1 else 0)
  }

  /** Chi-squared contribution of bins (x, 1..n): a sum of non-negative terms. */
  function RowChi(h1: Grid, h2: Grid, x: int, n: int): (s: real)
    requires SameShape(h1, h2) && 1 <= x <= NbinsX(h1) && 0 <= n <= NbinsY(h1)
    ensures s >= 0.0
  {
    if n == 0 then 0.0 else RowChi(h1, h2, x, n - 1) + BinChi(h1, h2, x, n)
  }

  /** Degrees of freedom from rows 1..m. */
  function GridNdf(h1: Grid, h2: Grid, m: int): (c: int)
    requires SameShape(h1, h2) && 0 <= m <= NbinsX(h1)
    ensures 0 <= c <= m * NbinsY(h1)
  {
    if m == 0 then 0
    else
      var c := GridNdf(h1, h2, m - 1) + RowNdf(h1, h2, m, NbinsY(h1));
      assert (m - 1) * NbinsY(h1) + NbinsY(h1) == m * NbinsY(h1);
      c
  }

  /** Chi-squared contribution of rows 1..m. */
  function GridChi(h1: Grid, h2: Grid, m: int): (s: real)
    requires SameShape(h1, h2) && 0 <= m <= NbinsX(h1)
    ensures s >= 0.0
  {
    if m == 0 then 0.0 else GridChi(h1, h2, m - 1) + RowChi(h1, h2, m, NbinsY(h1))
  }

  /** The degrees of freedom `ChiSquared` reports. */
  function Ndf(h1: Grid, h2: Grid): int
    requires SameShape(h1, h2)
  {
    GridNdf(h1, h2, NbinsX(h1))
  }

  /** The chi-squared sum `ChiSquared` reports. */
  function ChiSq(h1: Grid, h2: Grid): real
    requires SameShape(h1, h2)
  {
    GridChi(h1, h2, NbinsX(h1))
  }

  /**
   * The bin loop of `ChiSquared`. Both outputs are reset before the loop,
   * so nothing the caller held in them survives: here they are plain
   * out-parameters. The chi-squared probability computed from them
   * afterwards is not part of this model.
   */
  method ChiSquared(h1: Grid, h2: Grid) returns (chisq: real, ndf: int)
    requires SameShape(h1, h2)
    ensures chisq == ChiSq(h1, h2) && ndf == Ndf(h1, h2)
    ensures chisq >= 0.0 && 0 <= ndf <= NbinsX(h1) * NbinsY(h1)
  {
    chisq := 0.0;
    ndf := 0;
    for x := 1 to NbinsX(h1) + 1
      invariant chisq == GridChi(h1, h2, x - 1) && ndf == GridNdf(h1, h2, x - 1)
    {
      for y := 1 to NbinsY(h1) + 1
        invariant chisq == GridChi(h1, h2, x - 1) + RowChi(h1, h2, x, y - 1)
        invariant ndf == GridNdf(h1, h2, x - 1) + RowNdf(h1, h2, x, y - 1)
      {
        var val1, val2 := h1[x][y].content, h2[x][y].content;
        var err1, err2 := h1[x][y].error, h2[x][y].error;
        if val1.NaN? || val2.NaN? || err1.NaN? || err2.NaN? {
          continue;
        }
        if err1.val == 0.0 || err2.val == 0.0 {
          continue;
        }
        ndf := ndf + 1;
        var numerator := Pow(val1.val - val2.val, 2);
        var denominator := Pow(err1.val, 2) + Pow(err2.val, 2);
        SquareSign(err1.val);
        SquareSign(err2.val);
        chisq := chisq + numerator / denominator;
      }
    }
  }

  /** The regular bins (x, 1..n) that enter the sum. */
  function RowBins(h1: Grid, h2: Grid, x: int, n: int): set<(int, int)>
    requires SameShape(h1, h2) && 1 <= x <= NbinsX(h1) && 0 <= n <= NbinsY(h1)
  {
    set y | 1 <= y <= n && Counted(h1[x][y], h2[x][y]) :: (x, y)
  }

  /** The regular bins of rows 1..m that enter the sum. */
  function GridBins(h1: Grid, h2: Grid, m: int): set<(int, int)>
    requires SameShape(h1, h2) && 0 <= m <= NbinsX(h1)
  {
    set x, y | 1 <= x <= m && 1 <= y <= NbinsY(h1) && Counted(h1[x][y], h2[x][y]) :: (x, y)
  }

  lemma {:induction false} RowNdfCountsBins(h1: Grid, h2: Grid, x: int, n: int)
    requires SameShape(h1, h2) && 1 <= x <= NbinsX(h1) && 0 <= n <= NbinsY(h1)
    ensures RowNdf(h1, h2, x, n) == |RowBins(h1, h2, x, n)|
  {
    if n == 0 {
      assert RowBins(h1, h2, x, n) == {};
    } else {
      RowNdfCountsBins(h1, h2, x, n - 1);
      var last := if Counted(h1[x][n], h2[x][n]) then {(x, n)} else {};
      assert RowBins(h1, h2, x, n) == RowBins(h1, h2, x, n - 1) + last;
      assert (x, n) !in RowBins(h1, h2, x, n - 1);
    }
  }

  lemma {:induction false} GridNdfCountsBins(h1: Grid, h2: Grid, m: int)
    requires SameShape(h1, h2) && 0 <= m <= NbinsX(h1)
    ensures GridNdf(h1, h2, m) == |GridBins(h1, h2, m)|
  {
    if m == 0 {
      assert GridBins(h1, h2, m) == {};
    } else {
      GridNdfCountsBins(h1, h2, m - 1);
      RowNdfCountsBins(h1, h2, m, NbinsY(h1));
      var before, row := GridBins(h1, h2, m - 1), RowBins(h1, h2, m, NbinsY(h1));
      assert GridBins(h1, h2, m) == before + row;
      assert before * row == {};
    }
  }

  /**
   * `ndf` is the number of regular bins in which none of the four values
   * is not-a-number and neither error is zero.
   */
  lemma NdfCountsBins(h1: Grid, h2: Grid)
    requires SameShape(h1, h2)
    ensures Ndf(h1, h2) == |GridBins(h1, h2, NbinsX(h1))|
  {
    GridNdfCountsBins(h1, h2, NbinsX(h1));
  }

  /** Every counted bin of rows 1..m (columns 1..n of the last) has equal contents. */
  predicate Agree(h1: Grid, h2: Grid, m: int, n: int)
    requires SameShape(h1, h2) && 0 <= m <= NbinsX(h1) && 0 <= n <= NbinsY(h1)
  {
    forall x, y ::
      (1 <= x <= m && 1 <= y <= NbinsY(h1) && (x < m || y <= n) && Counted(h1[x][y], h2[x][y]))
      ==> h1[x][y].content == h2[x][y].content
  }

  lemma {:induction false} RowChiZero(h1: Grid, h2: Grid, x: int, n: int)
    requires SameShape(h1, h2) && 1 <= x <= NbinsX(h1) && 0 <= n <= NbinsY(h1)
    ensures RowChi(h1, h2, x, n) == 0.0 <==>
      forall y :: 1 <= y <= n && Counted(h1[x][y], h2[x][y]) ==> h1[x][y].content == h2[x][y].content
  {
    if n > 0 {
      RowChiZero(h1, h2, x, n - 1);
    }
  }

  lemma {:induction false} GridChiZero(h1: Grid, h2: Grid, m: int)
    requires SameShape(h1, h2) && 0 <= m <= NbinsX(h1)
    ensures GridChi(h1, h2, m) == 0.0 <==> Agree(h1, h2, m, NbinsY(h1))
  {
    if m > 0 {
      GridChiZero(h1, h2, m - 1);
      RowChiZero(h1, h2, m, NbinsY(h1));
    }
  }

  /**
   * The chi-squared sum is zero exactly when every counted bin has the
   * same content in both histograms; in particular a histogram compared
   * with one of identical contents gives zero, while `ndf` still counts
   * the bins that pass the skip test.
   */
  lemma ChiSqZero(h1: Grid, h2: Grid)
    requires SameShape(h1, h2)
    ensures ChiSq(h1, h2) == 0.0 <==> Agree(h1, h2, NbinsX(h1), NbinsY(h1))
  {
    GridChiZero(h1, h2, NbinsX(h1));
  }

  /** No degree of freedom means nothing was summed. */
  lemma NoFreedomNoChi(h1: Grid, h2: Grid)
    requires SameShape(h1, h2) && Ndf(h1, h2) == 0
    ensures ChiSq(h1, h2) == 0.0
  {
    NdfCountsBins(h1, h2);
    ChiSqZero(h1, h2);
    forall x, y | 1 <= x <= NbinsX(h1) && 1 <= y <= NbinsY(h1)
      ensures !Counted(h1[x][y], h2[x][y])
    {
      assert (x, y) !in GridBins(h1, h2, NbinsX(h1));
    }
  }

  lemma {:induction false} RowSymmetric(h1: Grid, h2: Grid, x: int, n: int)
    requires SameShape(h1, h2) && 1 <= x <= NbinsX(h1) && 0 <= n <= NbinsY(h1)
    ensures RowChi(h1, h2, x, n) == RowChi(h2, h1, x, n)
    ensures RowNdf(h1, h2, x, n) == RowNdf(h2, h1, x, n)
  {
    if n > 0 {
      RowSymmetric(h1, h2, x, n - 1);
      if Counted(h1[x][n], h2[x][n]) {
        var v1, v2 := h1[x][n].content.val, h2[x][n].content.val;
        SquareOfNegation(v1 - v2);
        assert -(v1 - v2) == v2 - v1;
      }
    }
  }

  lemma {:induction false} GridSymmetric(h1: Grid, h2: Grid, m: int)
    requires SameShape(h1, h2) && 0 <= m <= NbinsX(h1)
    ensures GridChi(h1, h2, m) == GridChi(h2, h1, m)
    ensures GridNdf(h1, h2, m) == GridNdf(h2, h1, m)
  {
    if m > 0 {
      GridSymmetric(h1, h2, m - 1);
      RowSymmetric(h1, h2, m, NbinsY(h1));
    }
  }

  /** Swapping candidate and reference changes neither output. */
  lemma ChiSquaredSymmetric(h1: Grid, h2: Grid)
    requires SameShape(h1, h2)
    ensures ChiSq(h1, h2) == ChiSq(h2, h1) && Ndf(h1, h2) == Ndf(h2, h1)
  {
    GridSymmetric(h1, h2, NbinsX(h1));
  }

  /** `h` and `g` have the same binning and agree on every regular bin. */
  predicate SameRegularBins(h: Grid, g: Grid)
    requires SameShape(h, g)
  {
    forall x, y :: 1 <= x <= NbinsX(h) && 1 <= y <= NbinsY(h) ==> h[x][y] == g[x][y]
  }

  lemma {:induction false} RowFlowIgnored(h1: Grid, h2: Grid, g1: Grid, g2: Grid, x: int, n: int)
    requires SameShape(h1, h2) && SameShape(h1, g1) && SameShape(g1, g2)
    requires SameRegularBins(h1, g1) && SameRegularBins(h2, g2)
    requires 1 <= x <= NbinsX(h1) && 0 <= n <= NbinsY(h1)
    ensures RowChi(h1, h2, x, n) == RowChi(g1, g2, x, n)
    ensures RowNdf(h1, h2, x, n) == RowNdf(g1, g2, x, n)
  {
    if n > 0 {
      RowFlowIgnored(h1, h2, g1, g2, x, n - 1);
      assert h1[x][n] == g1[x][n] && h2[x][n] == g2[x][n];
    }
  }

  lemma {:induction false} GridFlowIgnored(h1: Grid, h2: Grid, g1: Grid, g2: Grid, m: int)
    requires SameShape(h1, h2) && SameShape(h1, g1) && SameShape(g1, g2)
    requires SameRegularBins(h1, g1) && SameRegularBins(h2, g2)
    requires 0 <= m <= NbinsX(h1)
    ensures GridChi(h1, h2, m) == GridChi(g1, g2, m)
    ensures GridNdf(h1, h2, m) == GridNdf(g1, g2, m)
  {
    if m > 0 {
      GridFlowIgnored(h1, h2, g1, g2, m - 1);
      RowFlowIgnored(h1, h2, g1, g2, m, NbinsY(h1));
    }
  }

  /**
   * Only the regular bins are read: histograms that differ only in their
   * underflow and overflow bins give the same chi-squared and `ndf`.
   */
  lemma UnderflowOverflowIgnored(h1: Grid, h2: Grid, g1: Grid, g2: Grid)
    requires SameShape(h1, h2) && SameShape(h1, g1) && SameShape(g1, g2)
    requires SameRegularBins(h1, g1) && SameRegularBins(h2, g2)
    ensures ChiSq(h1, h2) == ChiSq(g1, g2) && Ndf(h1, h2) == Ndf(g1, g2)
  {
    GridFlowIgnored(h1, h2, g1, g2, NbinsX(h1));
  }
}
