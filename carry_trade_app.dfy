/**
 A model of the placeholder risk classifier of the yen carry-trade risk
 tracker (carry_trade_app.py): the threshold rule of `DummyModel.predict`,
 the feature table it is applied to, and the one-row table that the app
 builds each day and whose single label it displays.

 A feature table is a map from column name to a column of reals (a pandas
 DataFrame of floats). Looking up a column that is not there is the
 `KeyError` pandas raises, returned here as an `Err` value.
 */
module CarryTradeApp {

  datatype Result<T, E> = Ok(value: T) | Err(error: E)

  /** The two labels the placeholder model emits, as the strings it emits. */
  datatype Label = High | Low {
    function Name(): string {
      match this
      case High => "High"
      case Low => "Low"
    }
  }

  const VixColumn: string := "VIX"
  const FxVolColumn: string := "FX_vol"
  const IrdColumn: string := "IRD"
  const RocColumn: string := "JPY_USD_roc"

  /** Both comparisons of the rule are strict (`>`). */
  const VixThreshold: real := 20.0
  const FxVolThreshold: real := 0.01

  /** A feature table: column name to the column's values, top row first. */
  datatype Table = Table(columns: map<string, seq<real>>)

  /** Indexing a table by a column name it does not have. */
  datatype LookupError = KeyError(column: string)

  function Min(a: int, b: int): int { if a <= b then a else b }

  /** The conditional expression of the comprehension, for one row. */
  function Classify(vix: real, vol: real): Label {
    if vix > VixThreshold && vol > FxVolThreshold then High else Low
  }

  /** Python's `zip` of two sequences: pairs stop at the shorter one. */
  function Zip<A, B>(xs: seq<A>, ys: seq<B>): (ps: seq<(A, B)>)
    ensures |ps| == Min(|xs|, |ys|)
    ensures forall i :: 0 <= i < |ps| ==> ps[i] == (xs[i], ys[i])
  {
    if xs == [] || ys == [] then [] else [(xs[0], ys[0])] + Zip(xs[1..], ys[1..])
  }

  /** The list comprehension over the zip of two parallel columns: one label per pair, in order. */
  function ClassifyColumns(vix: seq<real>, vol: seq<real>): (labels: seq<Label>)
    ensures |labels| == Min(|vix|, |vol|)
    ensures forall i :: 0 <= i < |labels| ==>
      (labels[i] == High <==> vix[i] > VixThreshold && vol[i] > FxVolThreshold)
  {
    var pairs := Zip(vix, vol);
    seq(|pairs|, i requires 0 <= i < |pairs| => Classify(pairs[i].0, pairs[i].1))
  }

  /**
   `DummyModel.predict`: reads the `VIX` column, then the `FX_vol` column,
   and labels every zipped row.
   */
  function Predict(x: Table): (r: Result<seq<Label>, LookupError>)
    ensures r.Err? <==> VixColumn !in x.columns || FxVolColumn !in x.columns
    ensures r.Err? ==>
      r.error == KeyError(if VixColumn !in x.columns then VixColumn else FxVolColumn)
    ensures r.Ok? ==>
      |r.value| == Min(|x.columns[VixColumn]|, |x.columns[FxVolColumn]|)
    ensures r.Ok? ==> forall i :: 0 <= i < |r.value| ==>
      (r.value[i] == High <==>
        x.columns[VixColumn][i] > VixThreshold && x.columns[FxVolColumn][i] > FxVolThreshold)
  {
    if VixColumn !in x.columns then Err(KeyError(VixColumn))
    else if FxVolColumn !in x.columns then Err(KeyError(FxVolColumn))
    else Ok(ClassifyColumns(x.columns[VixColumn], x.columns[FxVolColumn]))
  }

  /** The first `k` rows of a table (`x.head(k)`); a shorter column is kept whole. */
  function Head(x: Table, k: nat): Table {
    Table(map c | c in x.columns :: x.columns[c][..Min(k, |x.columns[c]|)])
  }

  /** Every column of the table has `n` values, as in any DataFrame with `n` rows. */
  predicate HasRows(x: Table, n: nat) {
    forall c :: c in x.columns ==> |x.columns[c]| == n
  }

  // ---------------------------------------------------------------------------
  // The one-row feature table the app builds each day

  /** The four features of one day, in the column order of the app. */
  datatype FeatureRow = FeatureRow(ird: real, fxVol: real, vix: real, jpyUsdRoc: real)

  /** `pd.DataFrame.from_dict` of one-element lists: a table with one row. */
  function FromRow(row: FeatureRow): (x: Table)
    ensures HasRows(x, 1)
    ensures x.columns.Keys == {IrdColumn, FxVolColumn, VixColumn, RocColumn}
  {
    Table(map[IrdColumn := [row.ird], FxVolColumn := [row.fxVol],
              VixColumn := [row.vix], RocColumn := [row.jpyUsdRoc]])
  }

  /** `model.predict(data_today)[0]`: the label shown for today. */
  function TodayRisk(row: FeatureRow): (risk: Label)
    ensures risk == High <==> row.vix > VixThreshold && row.fxVol > FxVolThreshold
  {
    Predict(FromRow(row)).value[0]
  }

  // ---------------------------------------------------------------------------
  // Properties of the rule

  /** Both thresholds are strict: a value on either boundary gives "Low". */
  lemma ClassifyStrict(vix: real, vol: real)
    ensures Classify(VixThreshold, vol) == Low
    ensures Classify(vix, FxVolThreshold) == Low
  {}

  /** Raising either input keeps "High"; lowering either keeps "Low". */
  lemma ClassifyMonotone(vix: real, vol: real, vix': real, vol': real)
    requires vix <= vix' && vol <= vol'
    ensures Classify(vix, vol) == High ==> Classify(vix', vol') == High
    ensures Classify(vix', vol') == Low ==> Classify(vix, vol) == Low
  {}

  /** Only the two strings "High" and "Low" are ever produced, and they tell the labels apart. */
  lemma OnlyTwoLabels(x: Table)
    requires Predict(x).Ok?
    ensures forall i :: 0 <= i < |Predict(x).value| ==>
      Predict(x).value[i].Name() == "High" || Predict(x).value[i].Name() == "Low"
    ensures forall a: Label, b: Label :: a.Name() == b.Name() ==> a == b
  {
    forall a: Label, b: Label | a.Name() == b.Name() ensures a == b {
      assert a.Name()[0] == b.Name()[0];
    }
  }

  /** Label `i` depends on row `i` of the two read columns and nothing else. */
  lemma PredictRowwise(x: Table, y: Table, i: nat)
    requires Predict(x).Ok? && Predict(y).Ok?
    requires i < |Predict(x).value| && i < |Predict(y).value|
    requires x.columns[VixColumn][i] == y.columns[VixColumn][i]
    requires x.columns[FxVolColumn][i] == y.columns[FxVolColumn][i]
    ensures Predict(x).value[i] == Predict(y).value[i]
  {}

  /** The other columns (`IRD`, `JPY_USD_roc`, ...) play no part in the prediction. */
  lemma PredictIgnoresOtherColumns(x: Table, y: Table)
    requires VixColumn in x.columns <==> VixColumn in y.columns
    requires FxVolColumn in x.columns <==> FxVolColumn in y.columns
    requires VixColumn in x.columns ==> x.columns[VixColumn] == y.columns[VixColumn]
    requires FxVolColumn in x.columns ==> x.columns[FxVolColumn] == y.columns[FxVolColumn]
    ensures Predict(x) == Predict(y)
  {}

  /** On a table with `n` rows holding both columns there is exactly one label per row. */
  lemma PredictOneLabelPerRow(x: Table, n: nat)
    requires HasRows(x, n)
    requires VixColumn in x.columns && FxVolColumn in x.columns
    ensures Predict(x).Ok? && |Predict(x).value| == n
  {}

  /** The comprehension preserves order: labelling two tables stacked is stacking their labels. */
  lemma ClassifyColumnsAppend(vix: seq<real>, vix': seq<real>, vol: seq<real>, vol': seq<real>)
    requires |vix| == |vol|
    ensures ClassifyColumns(vix + vix', vol + vol') == ClassifyColumns(vix, vol) + ClassifyColumns(vix', vol')
  {}

  /** Predicting on the first `k` rows gives the first `k` labels. */
  lemma PredictPrefix(x: Table, k: nat)
    ensures Predict(Head(x, k)).Ok? <==> Predict(x).Ok?
    ensures Predict(x).Ok? ==>
      Predict(Head(x, k)).value == Predict(x).value[..Min(k, |Predict(x).value|)]
  {}

  /** Tables that dominate row by row are labelled at least as high, row by row. */
  lemma PredictMonotone(x: Table, y: Table)
    requires Predict(x).Ok? && Predict(y).Ok?
    requires |x.columns[VixColumn]| == |y.columns[VixColumn]|
    requires |x.columns[FxVolColumn]| == |y.columns[FxVolColumn]|
    requires forall i :: 0 <= i < |x.columns[VixColumn]| ==>
      x.columns[VixColumn][i] <= y.columns[VixColumn][i]
    requires forall i :: 0 <= i < |x.columns[FxVolColumn]| ==>
      x.columns[FxVolColumn][i] <= y.columns[FxVolColumn][i]
    ensures |Predict(x).value| == |Predict(y).value|
    ensures forall i :: 0 <= i < |Predict(x).value| && Predict(x).value[i] == High ==>
      Predict(y).value[i] == High
    ensures forall i :: 0 <= i < |Predict(y).value| && Predict(y).value[i] == Low ==>
      Predict(x).value[i] == Low
  {}

  /** The daily table always yields exactly one label, so reading element 0 is in range. */
  lemma TodayTableHasOneLabel(row: FeatureRow)
    ensures Predict(FromRow(row)) == Ok([Classify(row.vix, row.fxVol)])
  {
    var r := Predict(FromRow(row));
    assert |r.value| == 1;
    assert r.value[0] == Classify(row.vix, row.fxVol);
    assert r.value == [Classify(row.vix, row.fxVol)];
  }

  /** Three daily rows with VIX 22, 16, 10 and FX volatility 0.02 are labelled High, Low, Low. */
  lemma ThreeDayScenario()
    ensures Predict(Table(map[VixColumn := [22.0, 16.0, 10.0],
                             FxVolColumn := [0.02, 0.02, 0.02]]))
      == Ok([High, Low, Low])
  {
    var x := Table(map[VixColumn := [22.0, 16.0, 10.0], FxVolColumn := [0.02, 0.02, 0.02]]);
    var r := Predict(x);
    assert |r.value| == 3;
    assert r.value[0] == High && r.value[1] == Low && r.value[2] == Low;
    assert r.value == [High, Low, Low];
  }

  /** Single rows: High needs both inputs above their thresholds; VIX 21 with low FX volatility is Low. */
  lemma ClassifyExamples()
    ensures Classify(21.0, 0.02) == High
    ensures Classify(21.0, 0.005) == Low
    ensures Classify(16.0, 0.0) == Low
    ensures Classify(10.0, 0.5) == Low
  {}

  /** A table without a `VIX` column fails on `VIX` first, whatever else is missing. */
  lemma MissingColumns()
    ensures Predict(Table(map[])) == Err(KeyError(VixColumn))
    ensures Predict(Table(map[VixColumn := [25.0]])) == Err(KeyError(FxVolColumn))
  {}
}
