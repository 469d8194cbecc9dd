/**
  The three fixed simulation matrices and the product np.dot(v, M.T) that
  applies one of them to a linear-light colour.
 */
module Matrices {
  import opened Color

  /** The weights one output channel gives to the red, green and blue inputs. */
  datatype Row = Row(r: real, g: real, b: real)

  /** A 3x3 matrix by rows: row i produces output channel i. */
  datatype Mat3 = Mat3(red: Row, green: Row, blue: Row)

  /** The matrix for Deuteranopia (utils.py, deut_matrix). */
  const DeuteranopiaMatrix := Mat3(Row(0.625, 0.375, 0.0), Row(0.7, 0.3, 0.0), Row(0.0, 0.3, 1.0))
  /** The matrix for Protanopia (utils.py, prot_matrix). */
  const ProtanopiaMatrix := Mat3(Row(0.567, 0.433, 0.0), Row(0.558, 0.442, 0.0), Row(0.0, 0.242, 0.758))
  /** The matrix for Tritanopia (utils.py, trit_matrix). */
  const TritanopiaMatrix := Mat3(Row(0.95, 0.05, 0.0), Row(0.0, 0.433, 0.567), Row(0.0, 0.475, 0.525))

  function Dot(w: Row, c: Rgb): real
  {
    w.r * c.r + w.g * c.g + w.b * c.b
  }

  function Sum(w: Row): real
  {
    w.r + w.g + w.b
  }

  predicate NonNegativeRow(w: Row)
  {
    0.0 <= w.r && 0.0 <= w.g && 0.0 <= w.b
  }

  predicate NonNegative(m: Mat3)
  {
    NonNegativeRow(m.red) && NonNegativeRow(m.green) && NonNegativeRow(m.blue)
  }

  /** Every row sums to exactly 1: grey inputs stay grey and white stays white. */
  predicate RowStochastic(m: Mat3)
  {
    Sum(m.red) == 1.0 && Sum(m.green) == 1.0 && Sum(m.blue) == 1.0
  }

  function Transpose(m: Mat3): Mat3
  {
    Mat3(Row(m.red.r, m.green.r, m.blue.r),
         Row(m.red.g, m.green.g, m.blue.g),
         Row(m.red.b, m.green.b, m.blue.b))
  }

  /**
    The numpy product np.dot(v, n) of the row vector v with the matrix n:
    output channel j is the sum over k of v[k] * n[k][j].
   */
  function RowVectorTimes(v: Rgb, n: Mat3): Rgb
  {
    Rgb(v.r * n.red.r + v.g * n.green.r + v.b * n.blue.r,
        v.r * n.red.g + v.g * n.green.g + v.b * n.blue.g,
        v.r * n.red.b + v.g * n.green.b + v.b * n.blue.b)
  }

  /** The mixing step as the source writes it: np.dot(v, m.T). */
  function Apply(m: Mat3, v: Rgb): (w: Rgb)
    ensures w == Rgb(Dot(m.red, v), Dot(m.green, v), Dot(m.blue, v))
  {
    RowVectorTimes(v, Transpose(m))
  }

  /** a * x <= a * y when a is non-negative. */
  lemma ScaleMonotone(a: real, x: real, y: real)
    requires 0.0 <= a && x <= y
    ensures a * x <= a * y
  {
    assert a * y - a * x == a * (y - x);
  }

  /** A row with non-negative weights gives a brighter input a value at least as large. */
  lemma DotMonotone(w: Row, c: Rgb, d: Rgb)
    requires NonNegativeRow(w) && Below(c, d)
    ensures Dot(w, c) <= Dot(w, d)
  {
    ScaleMonotone(w.r, c.r, d.r);
    ScaleMonotone(w.g, c.g, d.g);
    ScaleMonotone(w.b, c.b, d.b);
  }

  /** On inputs in [0,1], a non-negative row gives a value between 0 and its row sum. */
  lemma DotBounds(w: Row, c: Rgb)
    requires NonNegativeRow(w) && InGamut(c)
    ensures 0.0 <= Dot(w, c) <= Sum(w)
  {
    DotMonotone(w, Black, c);
    DotMonotone(w, c, White);
  }

  lemma ApplyMonotone(m: Mat3, c: Rgb, d: Rgb)
    requires NonNegative(m) && Below(c, d)
    ensures Below(Apply(m, c), Apply(m, d))
  {
    DotMonotone(m.red, c, d);
    DotMonotone(m.green, c, d);
    DotMonotone(m.blue, c, d);
  }

  /**
    A non-negative matrix maps [0,1]^3 into the box whose corners are 0 and the
    row sums; a row-stochastic one maps it into [0,1]^3.
   */
  lemma ApplyBounds(m: Mat3, c: Rgb)
    requires NonNegative(m) && InGamut(c)
    ensures Below(Black, Apply(m, c))
    ensures Below(Apply(m, c), Rgb(Sum(m.red), Sum(m.green), Sum(m.blue)))
  {
    DotBounds(m.red, c);
    DotBounds(m.green, c);
    DotBounds(m.blue, c);
  }

  /** Black (the zero vector) mixes to black under every matrix. */
  lemma ApplyBlack(m: Mat3)
    ensures Apply(m, Black) == Black
  {
  }

  /** White mixes to the vector of row sums. */
  lemma ApplyWhite(m: Mat3)
    ensures Apply(m, White) == Rgb(Sum(m.red), Sum(m.green), Sum(m.blue))
  {
  }

  /** A row-stochastic matrix maps every grey to itself. */
  lemma StochasticKeepsGrey(m: Mat3, x: real)
    requires RowStochastic(m)
    ensures Apply(m, Grey(x)) == Grey(x)
  {
    assert Dot(m.red, Grey(x)) == Sum(m.red) * x;
    assert Dot(m.green, Grey(x)) == Sum(m.green) * x;
    assert Dot(m.blue, Grey(x)) == Sum(m.blue) * x;
  }

  /** The constants of the three matrices: their signs and their row sums. */
  lemma MatrixConstants()
    ensures NonNegative(DeuteranopiaMatrix) && NonNegative(ProtanopiaMatrix) && NonNegative(TritanopiaMatrix)
    ensures RowStochastic(ProtanopiaMatrix) && RowStochastic(TritanopiaMatrix)
    ensures Sum(DeuteranopiaMatrix.red) == 1.0 && Sum(DeuteranopiaMatrix.green) == 1.0
    ensures Sum(DeuteranopiaMatrix.blue) == 1.3
    ensures DeuteranopiaMatrix.red.b == 0.0 && DeuteranopiaMatrix.green.b == 0.0
    ensures ProtanopiaMatrix.red.b == 0.0 && ProtanopiaMatrix.green.b == 0.0
  {
  }
}
