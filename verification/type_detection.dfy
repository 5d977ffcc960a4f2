/**
 `detectType`: a column is numeric when more than 60% of its first ten cells
 are accepted by `parseFloat`.
 */
module TypeDetection {
  import opened Cells

  datatype ColumnType = Numeric | Categorical

  /** The number of leading rows the classifier looks at. */
  const SampleLimit: nat := 10

  /** `Math.min(10, data.length)`. */
  function SampleSize(rows: nat): (s: nat)
    ensures s <= rows && s <= SampleLimit
    ensures s == rows || s == SampleLimit
  {
    if rows < SampleLimit then rows else SampleLimit
  }

  /** How many of the first `k` rows hold a cell of `col` that `parseFloat` accepts. */
  function NumericCount(data: Dataset, col: string, parseFloat: Converter, k: nat): (c: nat)
    requires k <= |data|
    ensures c <= k
  {
    if k == 0 then 0
    else
      NumericCount(data, col, parseFloat, k - 1)
      + (if Convert(parseFloat, Lookup(data[k - 1], col)).Some? then 1 else 0)
  }

  /** `numericCount / sampleSize`; `None` is the NaN that `0 / 0` gives. */
  function Ratio(count: nat, size: nat): Option<real>
  {
    if size == 0 then None else Some(count as real / size as real)
  }

  /** `ratio > 0.6 ? 'numeric' : 'categorical'`; every comparison with NaN is false. */
  function Classify(ratio: Option<real>): ColumnType
  {
    if ratio.Some? && ratio.value > 0.6 then Numeric else Categorical
  }

  /** For a non-empty sample the real-valued comparison is the integer comparison `10 * count > 6 * size`. */
  lemma RatioThreshold(count: nat, size: nat)
    requires 0 < size
    ensures Classify(Ratio(count, size)) == Numeric <==> 10 * count > 6 * size
  {
    var c, z := count as real, size as real;
    QuotientAbove(c, z, 0.6);
    assert 10.0 * c > 6.0 * z <==> c > 0.6 * z;
  }

  /** Dividing by a positive number: the quotient exceeds `b` exactly when the dividend exceeds `b` times the divisor. */
  lemma QuotientAbove(c: real, z: real, b: real)
    requires z > 0.0
    ensures c / z > b <==> c > b * z
  {
    var r := c / z;
    assert r * z == c;
    if r > b {
      ScaleStrict(r, b, z);
    } else {
      ScaleWeak(r, b, z);
    }
  }

  lemma ScaleStrict(a: real, b: real, z: real)
    requires a > b && z > 0.0
    ensures a * z > b * z
  {
  }

  lemma ScaleWeak(a: real, b: real, z: real)
    requires a <= b && z > 0.0
    ensures a * z <= b * z
  {
  }

  /** The classifier as a function of the data, stated through the integer form of its threshold. */
  function ColumnTypeOf(data: Dataset, col: string, parseFloat: Converter): (t: ColumnType)
    ensures var s := SampleSize(|data|);
      t == Numeric <==> 10 * NumericCount(data, col, parseFloat, s) > 6 * s
    ensures data == [] ==> t == Categorical
  {
    var s := SampleSize(|data|);
    var count := NumericCount(data, col, parseFloat, s);
    assert s > 0 ==> (Classify(Ratio(count, s)) == Numeric <==> 10 * count > 6 * s) by {
      if s > 0 {
        RatioThreshold(count, s);
      }
    }
    Classify(Ratio(count, s))
  }

  /** The loop of `detectType`, row by row. */
  method DetectType(data: Dataset, col: string, parseFloat: Converter) returns (t: ColumnType)
    ensures t == ColumnTypeOf(data, col, parseFloat)
  {
    var numericCount := 0;
    var sampleSize := if SampleLimit < |data| then SampleLimit else |data|;
    var i := 0;
    while i < sampleSize
      invariant 0 <= i <= sampleSize
      invariant numericCount == NumericCount(data, col, parseFloat, i)
    {
      var value := Convert(parseFloat, Lookup(data[i], col));
      if value.Some? {
        numericCount := numericCount + 1;
      }
      i := i + 1;
    }
    t := Classify(Ratio(numericCount, sampleSize));
  }

  /** The count over the first `k` rows reads nothing beyond them. */
  lemma {:induction false} NumericCountReadsPrefix(a: Dataset, b: Dataset, col: string, parseFloat: Converter, k: nat)
    requires k <= |a| && k <= |b|
    requires a[..k] == b[..k]
    ensures NumericCount(a, col, parseFloat, k) == NumericCount(b, col, parseFloat, k)
  {
    if k > 0 {
      assert a[..k - 1] == b[..k - 1] by {
        assert a[..k - 1] == a[..k][..k - 1];
        assert b[..k - 1] == b[..k][..k - 1];
      }
      assert a[k - 1] == a[..k][k - 1] == b[..k][k - 1] == b[k - 1];
      NumericCountReadsPrefix(a, b, col, parseFloat, k - 1);
    }
  }

  /** Two datasets with the same sample classify every column alike, whatever follows the sample. */
  lemma SampleDecides(a: Dataset, b: Dataset, col: string, parseFloat: Converter)
    requires SampleSize(|a|) == SampleSize(|b|)
    requires a[..SampleSize(|a|)] == b[..SampleSize(|b|)]
    ensures ColumnTypeOf(a, col, parseFloat) == ColumnTypeOf(b, col, parseFloat)
  {
    NumericCountReadsPrefix(a, b, col, parseFloat, SampleSize(|a|));
  }

  /** Overwriting a row past the tenth never changes a column's classification. */
  lemma LaterRowIrrelevant(data: Dataset, i: nat, row: Row, col: string, parseFloat: Converter)
    requires SampleLimit <= i < |data|
    ensures ColumnTypeOf(data[i := row], col, parseFloat) == ColumnTypeOf(data, col, parseFloat)
  {
    var s := SampleSize(|data|);
    assert data[i := row][..s] == data[..s];
    SampleDecides(data[i := row], data, col, parseFloat);
  }

  /** With a full sample of ten rows a column is numeric exactly when at least seven of them parse. */
  lemma FullSampleNeedsSeven(data: Dataset, col: string, parseFloat: Converter)
    requires SampleLimit <= |data|
    ensures ColumnTypeOf(data, col, parseFloat) == Numeric <==> NumericCount(data, col, parseFloat, SampleLimit) >= 7
  {
  }

  /** A column whose first `k` cells all parse counts `k` of them. */
  lemma {:induction false} AllParse(data: Dataset, col: string, parseFloat: Converter, k: nat)
    requires k <= |data|
    requires forall i :: 0 <= i < k ==> Convert(parseFloat, Lookup(data[i], col)).Some?
    ensures NumericCount(data, col, parseFloat, k) == k
  {
    if k > 0 {
      AllParse(data, col, parseFloat, k - 1);
    }
  }

  /** A column none of whose first `k` cells parse counts none of them. */
  lemma {:induction false} NoneParse(data: Dataset, col: string, parseFloat: Converter, k: nat)
    requires k <= |data|
    requires forall i :: 0 <= i < k ==> Convert(parseFloat, Lookup(data[i], col)).None?
    ensures NumericCount(data, col, parseFloat, k) == 0
  {
    if k > 0 {
      NoneParse(data, col, parseFloat, k - 1);
    }
  }
}
