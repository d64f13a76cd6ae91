# Yen carry-trade risk tracker: the placeholder risk classifier

The tracker shows one risk label per day for the yen carry trade. It loads a
trained model from `carry_model.joblib`. When that fails it falls back on a
placeholder, `DummyModel`, whose `predict` labels every row of a feature table.
A row is `"High"` when its `VIX` value is above 20 and its `FX_vol` value is
above 0.01, and `"Low"` otherwise. Each day the app builds a one-row feature table
with the columns `IRD`, `FX_vol`, `VIX` and `JPY_USD_roc`. It shows element 0 of
`predict`'s result.

This project models that classifier in `carry_trade_app.dfy` (module
`CarryTradeApp`). It models:

- `Table`: a feature table, as a map from column name to a column of reals.
- `Classify`: the conditional expression of line 17, the threshold rule for one row.
- `Label` and `Label.Name`: the two labels and the strings `"High"` and `"Low"` that `predict` returns.
- `Zip`: Python's `zip`, which stops at the shorter column.
- `ClassifyColumns`: the list comprehension, applying `Classify` to every zipped pair in order.
- `Predict`: the comprehension over the zip of the `VIX` and `FX_vol` columns.
  A missing column is pandas' `KeyError`, returned as `Err(KeyError(name))`.
  `VIX` is looked up first, so it is the column named when both are missing.
- `FeatureRow` and `FromRow`: the one-row table the app builds.
- `TodayRisk`: reading element 0 of the prediction.

The lemmas state the rule's properties:

- strict thresholds;
- only two labels;
- monotonicity in both inputs;
- row-wise, order-preserving labelling (prefixes and concatenations);
- indifference to the other columns;
- one label per row;
- the daily table always has exactly one label.

The rule has no intermediate level: a row that fails either test is `Low`. So VIX 21
with FX volatility 0.005 is `Low`, and so is VIX 16 (`ClassifyExamples`,
`ThreeDayScenario`).

## Model

| member | source | states |
|---|---|---|
| `CarryTradeApp.Zip` | carry_trade_app.py:17 | `zip` gives as many pairs as the shorter column has values, and pair `i` is element `i` of each column |
| `CarryTradeApp.ClassifyColumns` | carry_trade_app.py:17 | the comprehension gives one label per zipped row; label `i` is `High` exactly when `vix[i] > 20` and `vol[i] > 0.01` |
| `CarryTradeApp.Predict` | carry_trade_app.py:16-17 | the call fails exactly when the `VIX` or `FX_vol` column is missing, and the error names `VIX` first; on success there are min(#VIX, #FX_vol) labels, and label `i` is `High` iff both row-`i` values exceed their strict thresholds |
| `CarryTradeApp.FromRow` | carry_trade_app.py:34-39 | the daily table has exactly the four columns `IRD`, `FX_vol`, `VIX`, `JPY_USD_roc`, each with one value |
| `CarryTradeApp.TodayRisk` | carry_trade_app.py:49 | indexing `[0]` of the prediction on the daily table is always defined; the label is `High` iff that day's VIX > 20 and FX volatility > 0.01 |
| `CarryTradeApp.ClassifyStrict` | carry_trade_app.py:17 | VIX exactly 20 or FX volatility exactly 0.01 gives `Low`, whatever the other value |
| `CarryTradeApp.ClassifyMonotone` | carry_trade_app.py:17 | raising either input keeps a `High` row `High`; lowering either keeps a `Low` row `Low` |
| `CarryTradeApp.OnlyTwoLabels` | carry_trade_app.py:17 | every predicted label is the string `"High"` or `"Low"`, and the two strings tell the labels apart |
| `CarryTradeApp.PredictRowwise` | carry_trade_app.py:17 | label `i` depends only on row `i` of the `VIX` and `FX_vol` columns |
| `CarryTradeApp.PredictIgnoresOtherColumns` | carry_trade_app.py:17 | tables that agree on the `VIX` and `FX_vol` columns get the same result, whatever their other columns hold |
| `CarryTradeApp.PredictOneLabelPerRow` | carry_trade_app.py:17 | on a table of `n` rows with both columns, the prediction succeeds with exactly `n` labels |
| `CarryTradeApp.ClassifyColumnsAppend` | carry_trade_app.py:17 | labelling two stacked blocks of rows gives the first block's labels followed by the second's |
| `CarryTradeApp.PredictPrefix` | carry_trade_app.py:17 | predicting on the first `k` rows succeeds exactly when predicting on the whole table does, and gives the first `k` labels |
| `CarryTradeApp.PredictMonotone` | carry_trade_app.py:17 | if one table's `VIX` and `FX_vol` values are row by row no greater than another's, every `High` row of the first is `High` in the second, and every `Low` row of the second is `Low` in the first |
| `CarryTradeApp.TodayTableHasOneLabel` | carry_trade_app.py:34-39 | on the daily one-row table the result is exactly the one label of the threshold rule for that row |
| `CarryTradeApp.ThreeDayScenario` | carry_trade_app.py:17 | rows with VIX 22, 16, 10 and FX volatility 0.02 are labelled `High`, `Low`, `Low` |
| `CarryTradeApp.ClassifyExamples` | carry_trade_app.py:17 | (21, 0.02) is `High`; (21, 0.005), (16, 0.0) and (10, 0.5) are `Low` |
| `CarryTradeApp.MissingColumns` | carry_trade_app.py:17 | an empty table fails on `VIX`; a table with only `VIX` fails on `FX_vol` |

## Left out

- Market data download for `JPY=X` and `^VIX` (carry_trade_app.py:22-23): network I/O through an outside library. The day's VIX value and FX volatility are inputs of `FeatureRow`.
- Log returns, the 30-day rolling standard deviation and the `sqrt(252)` annualisation (carry_trade_app.py:25-26): floating-point numerics and pandas rolling semantics. `FX_vol` and `JPY_USD_roc` are opaque reals.
- The simulated interest rates and their difference `IRD` (carry_trade_app.py:28-30): float constants. `IRD` is an opaque real field here, and no prediction reads it.
- Floating point: inputs and thresholds are exact reals. The source's `0.01` is the binary double nearest to one hundredth, and NaN inputs (which compare false and so give `"Low"`) are IEEE behaviour; neither is modelled.
- Loading `carry_model.joblib`, the bare `except` fallback and the unused scikit-learn import (carry_trade_app.py:6-13): filesystem access, a foreign library and exception control flow. The model is always the placeholder.
- The Streamlit page (carry_trade_app.py:44-53): title, metric and table display, including `.round(4)`. This is UI only.
